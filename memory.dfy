/**
 * `ConversationMemory`: the agent's recent conversation turns and its cache of
 * search results, with the semantic lookup that reads the cache.
 *
 * The class is the same in `backend/jarvis_backend_v1.py` and in
 * `backend/.ipynb_checkpoints/jarvis_backend-checkpoint.py`. Timestamps and
 * the two dictionaries the class creates but never uses are not modelled.
 */
module Memory {
  import opened Base
  import opened Text
  import opened Values
  import Paths
  import opened Similarity

  /** One turn: what the user said, the command the model answered with, and what running it returned. */
  datatype Interaction = Interaction(userInput: string, agentResponse: Value, commandResult: Entries)

  /** What `_extract_file_info` records about one file path. */
  datatype FileInfo = FileInfo(path: string, name: string, nameWithoutExt: string, folder: string)

  /** A cached search: the results as given, and the files extracted from them. */
  datatype CacheEntry = CacheEntry(results: Value, files: seq<FileInfo>)

  type Cache = seq<(string, CacheEntry)>

  /** The best file so far and its score; `(None, 0)` before any file qualifies. */
  datatype Match = Match(best: Option<FileInfo>, score: real)

  function Min(a: int, b: int): int { if a < b then a else b }

  /** The last `min(|s|, n)` elements of `s`. */
  function Last<T>(s: seq<T>, n: nat): (r: seq<T>)
    ensures |r| == Min(|s|, n)
  {
    s[|s| - Min(|s|, n)..]
  }

  // ---------------------------------------------------------------------------
  // History
  // ---------------------------------------------------------------------------

  /**
   * `if len(h) > m: h = h[-m:]`, with Python's slice rules: a positive cap
   * keeps the last `m`, a cap of 0 keeps everything (`h[-0:]` is `h[0:]`),
   * and a negative cap drops the first `-m`.
   */
  function Trim(h: seq<Interaction>, m: int): (r: seq<Interaction>)
    ensures m > 0 ==> r == Last(h, m)
    ensures m == 0 ==> r == h
  {
    if |h| <= m || m == 0 then h
    else if m > 0 then h[|h| - m..]
    else if -m <= |h| then h[-m..]
    else []
  }

  /** The history after adding each of `xs` in turn. */
  function AddAll(h: seq<Interaction>, xs: seq<Interaction>, m: int): seq<Interaction>
  {
    if xs == [] then h else Trim(AddAll(h, xs[..|xs| - 1], m) + [xs[|xs| - 1]], m)
  }

  // ---------------------------------------------------------------------------
  // Context
  // ---------------------------------------------------------------------------

  /** The line a turn gets when its result has an `error` key, and nothing otherwise. */
  function ErrorLine(result: Entries): string
  {
    match Lookup(result, "error")
    case Some(e) => "Result: Error - " + PyStr(e) + "\n"
    case None => ""
  }

  /** One rendered turn. */
  function Block(x: Interaction): string
  {
    "User: " + x.userInput + "\nAgent: " + PyStr(x.agentResponse) + "\n" + ErrorLine(x.commandResult) + "---\n"
  }

  function Blocks(xs: seq<Interaction>): string
  {
    if xs == [] then "" else Blocks(xs[..|xs| - 1]) + Block(xs[|xs| - 1])
  }

  /** `get_context()`: a header and the last three turns, or a fixed sentence when there are none. */
  function Context(h: seq<Interaction>): string
  {
    if h == [] then "No previous conversation."
    else "Previous conversation:\n" + Blocks(Last(h, 3))
  }

  // ---------------------------------------------------------------------------
  // Search cache
  // ---------------------------------------------------------------------------

  /** The key a search is cached under: the searched path, a colon and the lower-cased keyword. */
  function CacheKey(searchPath: string, keywordLower: string): string
  {
    searchPath + ":" + keywordLower
  }

  /** One file path as `_extract_file_info` describes it; `basename` raises for a non-string. */
  function DescribeFile(v: Value): (r: Outcome<FileInfo>)
    ensures r.Ok? <==> v.Str?
    ensures r.Ok? ==> r.value.path == v.s && r.value.name == Paths.Basename(v.s)
  {
    if v.Str? then
      var name := Paths.Basename(v.s);
      Ok(FileInfo(v.s, name, Paths.SplitExt(name).0, Paths.Dirname(v.s)))
    else Raised(NotAPath(v))
  }

  /** Every item is a string, so `os.path.basename` accepts each of them. */
  predicate AllPaths(items: seq<Value>)
  {
    forall i :: 0 <= i < |items| ==> items[i].Str?
  }

  /** The loop of `_extract_file_info`: one description per item, in order, or the first item's raise. */
  function DescribeFiles(items: seq<Value>): (r: Outcome<seq<FileInfo>>)
    ensures r.Ok? ==> |r.value| == |items|
    ensures r.Ok? <==> AllPaths(items)
    ensures r.Ok? ==> forall i :: 0 <= i < |items| ==> DescribeFile(items[i]) == Ok(r.value[i])
  {
    if items == [] then Ok([])
    else
      AllStrings(items);
      match DescribeFile(items[0])
      case Raised(m) => Raised(m)
      case Ok(fi) =>
        match DescribeFiles(items[1..])
        case Raised(m) => Raised(m)
        case Ok(rest) =>
          DescribedCons(DescribeFile, items, fi, rest);
          Ok([fi] + rest)
  }

  /** Describing the first item, then the rest, describes every item in order. */
  lemma {:induction false} DescribedCons<A, B>(describe: A -> Outcome<B>, items: seq<A>, first: B, rest: seq<B>)
    requires items != [] && |rest| == |items| - 1
    requires describe(items[0]) == Ok(first)
    requires forall i :: 0 <= i < |items[1..]| ==> describe(items[1..][i]) == Ok(rest[i])
    ensures forall i :: 0 <= i < |items| ==> describe(items[i]) == Ok(([first] + rest)[i])
  {
    var all := [first] + rest;
    forall i | 0 <= i < |items| ensures describe(items[i]) == Ok(all[i]) {
      if i == 0 {
        assert all[0] == first;
      } else {
        assert items[i] == items[1..][i - 1] && all[i] == rest[i - 1];
      }
    }
  }

  /** Every item is a string exactly when the first is and every later one is. */
  lemma {:induction false} AllStrings(items: seq<Value>)
    requires items != []
    ensures (forall i :: 0 <= i < |items| ==> items[i].Str?) <==>
      items[0].Str? && forall i :: 0 <= i < |items[1..]| ==> items[1..][i].Str?
  {
    if items[0].Str? && forall i :: 0 <= i < |items[1..]| ==> items[1..][i].Str? {
      forall i | 0 <= i < |items| ensures items[i].Str? {
        if i > 0 { assert items[i] == items[1..][i - 1]; }
      }
    }
  }

  /** The loop of `_extract_file_info` over `inner.get('files', [])`, where `inner` is `results['results']`. */
  function ListedFiles(inner: Value): (r: Outcome<seq<FileInfo>>)
    ensures !inner.Dict? ==> r.Raised?
    ensures inner.Dict? && !HasKey(inner.entries, "files") ==> r == Ok([])
    ensures inner.Dict? && HasKey(inner.entries, "files") && Lookup(inner.entries, "files").value.List? ==>
      var items := Lookup(inner.entries, "files").value.items;
      (r.Ok? <==> AllPaths(items)) &&
      (r.Ok? ==> (|r.value| == |items| &&
        forall i :: 0 <= i < |items| ==>
          r.value[i].path == items[i].s && r.value[i].name == Paths.Basename(items[i].s)))
  {
    match GetOr(inner, "files", List([]))
    case Raised(m) => Raised(m)
    case Ok(files) =>
      match Iterate(files)
      case Raised(m) => Raised(m)
      case Ok(items) =>
        DescribeFiles(items)
  }

  /**
   * `_extract_file_info(results)`: the files under `results['results']['files']`,
   * and nothing when `results` has no `results` key. Only that list is read:
   * a `results` dict without `files` gives nothing, and a list of strings gives
   * one description per path, in order.
   */
  function ExtractFileInfo(results: Value): (r: Outcome<seq<FileInfo>>)
    ensures results.Dict? && !HasKey(results.entries, "results") ==> r == Ok([])
    ensures results.Dict? && HasKey(results.entries, "results") ==>
      var inner := Lookup(results.entries, "results").value;
      (!inner.Dict? ==> r.Raised?) &&
      (inner.Dict? && !HasKey(inner.entries, "files") ==> r == Ok([])) &&
      (inner.Dict? && HasKey(inner.entries, "files") && Lookup(inner.entries, "files").value.List? ==>
        var items := Lookup(inner.entries, "files").value.items;
        (r.Ok? <==> AllPaths(items)) &&
        (r.Ok? ==> (|r.value| == |items| &&
          forall i :: 0 <= i < |items| ==>
            r.value[i].path == items[i].s && r.value[i].name == Paths.Basename(items[i].s))))
  {
    match Contains(results, "results")
    case Raised(m) => Raised(m)
    case Ok(present) =>
      if !present then Ok([])
      else
        match GetItem(results, "results")
        case Raised(m) => Raised(m)
        case Ok(inner) => ListedFiles(inner)
  }

  /** The cache after `cache_search_results(searchPath, keyword, results)`, or what it raises. */
  function CacheAfterStore(c: Cache, searchPath: string, keyword: Value, results: Value): Outcome<Cache>
  {
    match LowerOf(keyword)
    case Raised(m) => Raised(m)
    case Ok(lower) =>
      match ExtractFileInfo(results)
      case Raised(m) => Raised(m)
      case Ok(files) => Ok(Put(c, CacheKey(searchPath, lower), CacheEntry(results, files)))
  }

  // ---------------------------------------------------------------------------
  // Semantic match
  // ---------------------------------------------------------------------------

  /** The files of the cache entries whose key contains `path`, in cache order. */
  function Candidates(c: Cache, path: string): seq<FileInfo>
  {
    if c == [] then []
    else Candidates(c[..|c| - 1], path) + (if IsSubstring(path, c[|c| - 1].0) then c[|c| - 1].1.files else [])
  }

  /** The score of a cached file against the query terms, on the name without extension. */
  function Score(query: seq<string>, fi: FileInfo, ratio: Ratio): real
  {
    Similarity.Similarity(query, Terms(fi.nameWithoutExt), ratio)
  }

  function ScoreOf(query: seq<string>, ratio: Ratio): FileInfo -> real
  {
    fi => Score(query, fi, ratio)
  }

  /** One step of the scan: a file replaces the best so far when it beats both it and the threshold. */
  function Consider(prev: Match, fi: FileInfo, s: real, threshold: Value): Outcome<Match>
  {
    if s > prev.score then
      match GreaterThan(s, threshold)
      case Raised(m) => Raised(m)
      case Ok(above) => Ok(if above then Match(Some(fi), s) else prev)
    else Ok(prev)
  }

  /** The loops of `find_semantic_match` over the candidate files, for any scoring function. */
  function Scan(score: FileInfo -> real, cands: seq<FileInfo>, threshold: Value): Outcome<Match>
  {
    if cands == [] then Ok(Match(None, 0.0))
    else
      match Scan(score, cands[..|cands| - 1], threshold)
      case Raised(m) => Raised(m)
      case Ok(prev) =>
        var fi := cands[|cands| - 1];
        Consider(prev, fi, score(fi), threshold)
  }

  /** `find_semantic_match(path, query, threshold)`, or what it raises. */
  function SemanticMatch(c: Cache, path: string, query: Value, threshold: Value, ratio: Ratio): Outcome<Match>
  {
    match LowerOf(query)
    case Raised(m) => Raised(m)
    case Ok(_) => Scan(ScoreOf(Terms(query.s), ratio), Candidates(c, path), threshold)
  }

  // ---------------------------------------------------------------------------
  // The class
  // ---------------------------------------------------------------------------

  class ConversationMemory {
    var history: seq<Interaction>
    const maxHistory: int
    var cache: Cache

    constructor (maxHistory: int)
      ensures history == [] && cache == [] && this.maxHistory == maxHistory
    {
      history := [];
      this.maxHistory := maxHistory;
      cache := [];
    }

    /** `add_interaction`: append the turn, then keep only the most recent `maxHistory`. */
    method AddInteraction(userInput: string, agentResponse: Value, commandResult: Entries)
      modifies this`history
      ensures history == Trim(old(history) + [Interaction(userInput, agentResponse, commandResult)], maxHistory)
    {
      history := history + [Interaction(userInput, agentResponse, commandResult)];
      if |history| > maxHistory {
        if maxHistory > 0 {
          history := history[|history| - maxHistory..];
        } else if maxHistory < 0 {
          history := if -maxHistory <= |history| then history[-maxHistory..] else [];
        }
      }
    }

    /** `get_context` */
    method GetContext() returns (s: string)
      ensures s == Context(history)
    {
      if history == [] {
        return "No previous conversation.";
      }
      var recent := Last(history, 3);
      s := "Previous conversation:\n";
      var i := 0;
      while i < |recent|
        invariant 0 <= i <= |recent|
        invariant s == "Previous conversation:\n" + Blocks(recent[..i])
      {
        var x := recent[i];
        var err := "";
        if HasKey(x.commandResult, "error") {
          err := "Result: Error - " + PyStr(Lookup(x.commandResult, "error").value) + "\n";
        }
        var block := "User: " + x.userInput + "\nAgent: " + PyStr(x.agentResponse) + "\n" + err + "---\n";
        BlockIs(x, err);
        ContextStep(recent, i);
        s := s + block;
        i := i + 1;
      }
      PrefixStep(recent, i);
    }

    /** `cache_search_results`; `raised` is the message of the exception it raises, if any. */
    method CacheSearchResults(searchPath: string, keyword: Value, results: Value) returns (raised: Option<string>)
      modifies this`cache
      ensures match CacheAfterStore(old(cache), searchPath, keyword, results)
              case Ok(c) => raised == None && cache == c
              case Raised(m) => raised == Some(m) && cache == old(cache)
    {
      if !keyword.Str? {
        return Some(NoAttribute(keyword, "lower"));
      }
      var key := CacheKey(searchPath, Lower(keyword.s));
      var files := ExtractFileInfo(results);
      if files.Raised? {
        return Some(files.message);
      }
      cache := Put(cache, key, CacheEntry(results, files.value));
      raised := None;
    }

    /** `find_semantic_match`: scan the files of every entry whose key contains `path`. */
    method FindSemanticMatch(path: string, query: Value, threshold: Value, ratio: Ratio) returns (r: Outcome<Match>)
      ensures r == SemanticMatch(cache, path, query, threshold, ratio)
    {
      if !query.Str? {
        return Raised(NoAttribute(query, "lower"));
      }
      var terms := Terms(query.s);
      var m := Match(None, 0.0);
      var i := 0;
      while i < |cache|
        invariant 0 <= i <= |cache|
        invariant Scan(ScoreOf(terms, ratio), Candidates(cache[..i], path), threshold) == Ok(m)
      {
        var (key, data) := cache[i];
        EntryStep(ScoreOf(terms, ratio), cache, i, path, threshold, m);
        if IsSubstring(path, key) {
          var scanned := ScanFiles(terms, data.files, threshold, ratio, m);
          if scanned.Raised? {
            return scanned;
          }
          m := scanned.value;
        }
        i := i + 1;
      }
      PrefixStep(cache, i);
      r := Ok(m);
    }
  }

  /**
   * The body of the inner loop for one file: score its name without extension,
   * and take it when the score beats both the best so far and the threshold.
   */
  method ConsiderFile(terms: seq<string>, fi: FileInfo, threshold: Value, ratio: Ratio, m: Match) returns (r: Outcome<Match>)
    ensures r == Consider(m, fi, ScoreOf(terms, ratio)(fi), threshold)
  {
    var fileTerms := Terms(fi.nameWithoutExt);
    var s := CalculateSimilarity(terms, fileTerms, ratio);
    r := Ok(m);
    if s > m.score {
      var above := GreaterThan(s, threshold);
      if above.Raised? {
        return Raised(above.message);
      }
      if above.value {
        r := Ok(Match(Some(fi), s));
      }
    }
  }

  /** The inner loop of `find_semantic_match`: the files of one cache entry, continuing from `m0`. */
  method ScanFiles(terms: seq<string>, files: seq<FileInfo>, threshold: Value, ratio: Ratio, m0: Match)
    returns (r: Outcome<Match>)
    ensures r == ScanFrom(ScoreOf(terms, ratio), m0, files, threshold)
  {
    ghost var score := ScoreOf(terms, ratio);
    var m := m0;
    var j := 0;
    while j < |files|
      invariant 0 <= j <= |files|
      invariant ScanFrom(score, m0, files, threshold) == ScanFrom(score, m, files[j..], threshold)
    {
      var next := ConsiderFile(terms, files[j], threshold, ratio, m);
      SuffixStep(files, j);
      if next.Raised? {
        return next;
      }
      m := next.value;
      j := j + 1;
    }
    r := Ok(m);
  }

  // ---------------------------------------------------------------------------
  // Properties
  // ---------------------------------------------------------------------------

  lemma {:induction false} CandidatesAppend(a: Cache, b: Cache, path: string)
    ensures Candidates(a + b, path) == Candidates(a, path) + Candidates(b, path)
    decreases |b|
  {
    if b != [] {
      var b' := b[..|b| - 1];
      assert (a + b)[..|a + b| - 1] == a + b';
      CandidatesAppend(a, b', path);
    } else {
      assert a + b == a;
    }
  }

  /** The candidates split around entry `i`. */
  lemma {:induction false} CandidatesSplit(c: Cache, i: nat, path: string)
    requires i < |c|
    ensures Candidates(c, path) ==
      Candidates(c[..i], path) + (if IsSubstring(path, c[i].0) then c[i].1.files else []) + Candidates(c[i + 1..], path)
  {
    assert c == c[..i + 1] + c[i + 1..];
    CandidatesAppend(c[..i + 1], c[i + 1..], path);
    assert c[..i + 1][..i] == c[..i];
  }

  /** The block the loop of `get_context` builds for one turn. */
  lemma {:induction false} BlockIs(x: Interaction, err: string)
    requires err == if HasKey(x.commandResult, "error") then "Result: Error - " + PyStr(Lookup(x.commandResult, "error").value) + "\n" else ""
    ensures "User: " + x.userInput + "\nAgent: " + PyStr(x.agentResponse) + "\n" + err + "---\n" == Block(x)
  {
    assert err == ErrorLine(x.commandResult);
  }

  lemma {:induction false} ContextStep(recent: seq<Interaction>, i: nat)
    requires i < |recent|
    ensures "Previous conversation:\n" + Blocks(recent[..i + 1]) == "Previous conversation:\n" + Blocks(recent[..i]) + Block(recent[i])
  {
    PrefixStep(recent, i);
    AppendAssoc("Previous conversation:\n", Blocks(recent[..i]), Block(recent[i]));
  }

  /**
   * One cache entry of the outer loop: the scan over the candidates so far is
   * continued over that entry's files when its key contains `path`, and a raise
   * there is the result of the whole scan.
   */
  lemma {:induction false} EntryStep(score: FileInfo -> real, c: Cache, i: nat, path: string, threshold: Value, m: Match)
    requires i < |c|
    requires Scan(score, Candidates(c[..i], path), threshold) == Ok(m)
    ensures var next := if IsSubstring(path, c[i].0) then ScanFrom(score, m, c[i].1.files, threshold) else Ok(m);
      Scan(score, Candidates(c[..i + 1], path), threshold) == next &&
      (next.Raised? ==> Scan(score, Candidates(c, path), threshold) == next)
  {
    var files := if IsSubstring(path, c[i].0) then c[i].1.files else [];
    CandidatesStep(c, i, path);
    ScanAppend(score, Candidates(c[..i], path), files, threshold);
    if !IsSubstring(path, c[i].0) {
      assert Candidates(c[..i], path) + files == Candidates(c[..i], path);
    }
    if Scan(score, Candidates(c[..i + 1], path), threshold).Raised? {
      CandidatesSplit(c, i, path);
      ScanRaisedStays(score, Candidates(c[..i + 1], path), Candidates(c[i + 1..], path), threshold);
    }
  }

  lemma {:induction false} CandidatesStep(c: Cache, i: nat, path: string)
    requires i < |c|
    ensures Candidates(c[..i + 1], path) == Candidates(c[..i], path) + (if IsSubstring(path, c[i].0) then c[i].1.files else [])
  {
    PrefixStep(c, i);
  }

  /** The scan continued from `m` over `files`, front to back, as the loops run it. */
  function ScanFrom(score: FileInfo -> real, m: Match, files: seq<FileInfo>, threshold: Value): Outcome<Match>
    decreases |files|
  {
    if files == [] then Ok(m)
    else
      match Consider(m, files[0], score(files[0]), threshold)
      case Raised(msg) => Raised(msg)
      case Ok(next) => ScanFrom(score, next, files[1..], threshold)
  }

  /** Scanning `a + b` is scanning `a`, then continuing over `b`. */
  lemma {:induction false} ScanAppend(score: FileInfo -> real, a: seq<FileInfo>, b: seq<FileInfo>, threshold: Value)
    ensures Scan(score, a + b, threshold) ==
      match Scan(score, a, threshold)
      case Raised(msg) => Raised(msg)
      case Ok(m) => ScanFrom(score, m, b, threshold)
    decreases |b|
  {
    if b == [] {
      assert a + b == a;
    } else {
      ScanStep(score, a, b[0], threshold);
      ScanAppend(score, a + [b[0]], b[1..], threshold);
      assert a + [b[0]] + b[1..] == a + b;
    }
  }

  /** Scanning one more file is one more `Consider` step. */
  lemma {:induction false} ScanStep(score: FileInfo -> real, pre: seq<FileInfo>, fi: FileInfo, threshold: Value)
    ensures Scan(score, pre + [fi], threshold) ==
      match Scan(score, pre, threshold)
      case Raised(m) => Raised(m)
      case Ok(prev) => Consider(prev, fi, score(fi), threshold)
  {
    assert (pre + [fi])[..|pre|] == pre;
  }

  /** Once the scan raises, scanning more files raises the same exception. */
  lemma {:induction false} ScanRaisedStays(score: FileInfo -> real, a: seq<FileInfo>, b: seq<FileInfo>, threshold: Value)
    requires Scan(score, a, threshold).Raised?
    ensures Scan(score, a + b, threshold) == Scan(score, a, threshold)
    decreases |b|
  {
    if b == [] {
      assert a + b == a;
    } else {
      var b' := b[..|b| - 1];
      assert (a + b)[..|a + b| - 1] == a + b';
      ScanRaisedStays(score, a, b', threshold);
    }
  }

  /** A number the score can be compared with. */
  predicate Numeric(v: Value)
  {
    v.Int? || v.Bool? || v.Float?
  }

  function AsReal(v: Value): real
    requires Numeric(v)
  {
    match v
    case Int(i) => i as real
    case Bool(b) => if b then 1.0 else 0.0
    case Float(r, _) => r
  }

  /** A file qualifies when its score beats both 0 (the initial best) and the threshold. */
  predicate Qualifies(score: FileInfo -> real, fi: FileInfo, t: real)
  {
    score(fi) > 0.0 && score(fi) > t
  }

  /** File `i` has the best score: every earlier file scores less, every later one no more. */
  predicate FirstBest(score: FileInfo -> real, cands: seq<FileInfo>, i: int)
    requires 0 <= i < |cands|
  {
    && (forall k :: 0 <= k < i ==> score(cands[k]) < score(cands[i]))
    && (forall k :: i < k < |cands| ==> score(cands[k]) <= score(cands[i]))
  }

  /** What the scan's answer means: nothing qualifies, or the first file of maximal score, which qualifies. */
  predicate IsBest(score: FileInfo -> real, cands: seq<FileInfo>, t: real, m: Match)
  {
    && (m.best.None? <==> forall k :: 0 <= k < |cands| ==> !Qualifies(score, cands[k], t))
    && (m.best.None? ==> m.score == 0.0)
    && (m.best.Some? ==>
          exists i :: 0 <= i < |cands| && cands[i] == m.best.value && score(cands[i]) == m.score
            && Qualifies(score, cands[i], t) && FirstBest(score, cands, i))
  }

  /** A file that beats the best so far and the threshold becomes the new best. */
  lemma {:induction false} BestAfterAccept(score: FileInfo -> real, pre: seq<FileInfo>, fi: FileInfo, t: real, prev: Match)
    requires IsBest(score, pre, t, prev)
    requires score(fi) > prev.score && score(fi) > t
    ensures IsBest(score, pre + [fi], t, Match(Some(fi), score(fi)))
  {
    var cands, n := pre + [fi], |pre|;
    assert cands[n] == fi;
    assert forall k :: 0 <= k < n ==> cands[k] == pre[k];
    if prev.best.Some? {
      var i :| 0 <= i < n && pre[i] == prev.best.value && score(pre[i]) == prev.score
        && Qualifies(score, pre[i], t) && FirstBest(score, pre, i);
      assert forall k :: 0 <= k < n ==> score(pre[k]) <= prev.score;
    } else {
      assert forall k :: 0 <= k < n ==> !Qualifies(score, pre[k], t);
    }
    assert FirstBest(score, cands, n);
  }

  /** A file that does not beat both the best so far and the threshold leaves the best unchanged. */
  lemma {:induction false} BestAfterSkip(score: FileInfo -> real, pre: seq<FileInfo>, fi: FileInfo, t: real, prev: Match)
    requires IsBest(score, pre, t, prev)
    requires !(score(fi) > prev.score && score(fi) > t)
    ensures IsBest(score, pre + [fi], t, prev)
  {
    var cands, n := pre + [fi], |pre|;
    assert cands[n] == fi;
    assert forall k :: 0 <= k < n ==> cands[k] == pre[k];
    if prev.best.Some? {
      var i :| 0 <= i < n && pre[i] == prev.best.value && score(pre[i]) == prev.score
        && Qualifies(score, pre[i], t) && FirstBest(score, pre, i);
      assert cands[i] == prev.best.value && FirstBest(score, cands, i);
    } else {
      assert !Qualifies(score, fi, t);
    }
  }

  /**
   * With a numeric threshold the scan never raises, and it returns `(None, 0)`
   * exactly when no file beats both 0 and the threshold; otherwise the first
   * file of highest score wins.
   */
  lemma {:induction false} ScanFindsFirstBest(score: FileInfo -> real, cands: seq<FileInfo>, threshold: Value)
    requires Numeric(threshold)
    ensures Scan(score, cands, threshold).Ok?
    ensures IsBest(score, cands, AsReal(threshold), Scan(score, cands, threshold).value)
    decreases |cands|
  {
    if cands != [] {
      var n := |cands| - 1;
      var pre, fi := cands[..n], cands[n];
      assert cands == pre + [fi];
      ScanFindsFirstBest(score, pre, threshold);
      var prev := Scan(score, pre, threshold).value;
      if score(fi) > prev.score && score(fi) > AsReal(threshold) {
        BestAfterAccept(score, pre, fi, AsReal(threshold), prev);
      } else {
        BestAfterSkip(score, pre, fi, AsReal(threshold), prev);
      }
    }
  }

  /** When no cached entry recorded any file, the semantic lookup finds nothing. */
  lemma {:induction false} NoFilesNoMatch(c: Cache, path: string, query: string, threshold: Value, ratio: Ratio)
    requires forall k :: 0 <= k < |c| ==> c[k].1.files == []
    ensures SemanticMatch(c, path, Str(query), threshold, ratio) == Ok(Match(None, 0.0))
  {
    NoFilesNoCandidates(c, path);
  }

  lemma {:induction false} NoFilesNoCandidates(c: Cache, path: string)
    requires forall k :: 0 <= k < |c| ==> c[k].1.files == []
    ensures Candidates(c, path) == []
    decreases |c|
  {
    if c != [] {
      NoFilesNoCandidates(c[..|c| - 1], path);
    }
  }

  /**
   * After adding `xs` one by one to a history within a positive cap, the
   * history is the most recent `min(n, cap)` turns, oldest first.
   */
  lemma {:induction false} HistoryKeepsMostRecent(h: seq<Interaction>, xs: seq<Interaction>, m: int)
    requires m > 0 && |h| <= m
    ensures AddAll(h, xs, m) == Last(h + xs, m)
    decreases |xs|
  {
    if xs == [] {
      assert h + xs == h;
    } else {
      var n := |xs| - 1;
      HistoryKeepsMostRecent(h, xs[..n], m);
      SnocSlice(h, xs, n);
      assert xs[..n + 1] == xs;
      LastSnoc(h + xs[..n], xs[n], m);
    }
  }

  /** Keeping the last `m` and then adding one and keeping the last `m` is adding one and keeping the last `m`. */
  lemma LastSnoc<T>(s: seq<T>, x: T, m: nat)
    requires m > 0
    ensures Last(Last(s, m) + [x], m) == Last(s + [x], m)
  {
    var l := Last(s, m);
    var a, b := Last(l + [x], m), Last(s + [x], m);
    assert |a| == |b|;
    forall i | 0 <= i < |a| ensures a[i] == b[i] {
      if i == |a| - 1 {
        assert a[i] == x && b[i] == x;
      } else {
        assert a[i] == s[|s| + 1 - |a| + i];
      }
    }
  }

  /** With a cap of 0 the history is never trimmed. */
  lemma {:induction false} ZeroCapKeepsAll(h: seq<Interaction>, xs: seq<Interaction>)
    ensures AddAll(h, xs, 0) == h + xs
    decreases |xs|
  {
    if xs != [] {
      ZeroCapKeepsAll(h, xs[..|xs| - 1]);
      assert h + xs[..|xs| - 1] + [xs[|xs| - 1]] == h + xs;
    } else {
      assert h + xs == h;
    }
  }

  /** The context is the fixed sentence exactly when there is no history. */
  lemma {:induction false} ContextEmptyIff(h: seq<Interaction>)
    ensures Context(h) == "No previous conversation." <==> h == []
  {
    if h != [] {
      assert Context(h)[0] == 'P';
    }
  }

  /** Only the last three turns are rendered: older turns do not change the context. */
  lemma {:induction false} ContextOfLastThree(h: seq<Interaction>, older: seq<Interaction>)
    requires |h| >= 3
    ensures Context(older + h) == Context(h)
  {
    var all := older + h;
    assert Last(all, 3) == Last(h, 3);
  }

  /** After a turn is added under a positive cap, the newest turn is the last one the context renders. */
  lemma {:induction false} NewestRenderedLast(h: seq<Interaction>, x: Interaction, m: int)
    requires m > 0
    ensures var recent := Last(Trim(h + [x], m), 3); recent != [] && recent[|recent| - 1] == x
  {
    var t := Trim(h + [x], m);
    assert t == Last(h + [x], m);
  }

  /** The results `_search_item` caches have no `results` key, so the entry records no file. */
  lemma {:induction false} BareResultsRecordNoFiles(c: Cache, searchPath: string, keyword: string, results: Entries)
    requires !HasKey(results, "results")
    requires forall k :: 0 <= k < |c| ==> c[k].1.files == []
    ensures CacheAfterStore(c, searchPath, Str(keyword), Dict(results)).Ok?
    ensures var c' := CacheAfterStore(c, searchPath, Str(keyword), Dict(results)).value;
      forall k :: 0 <= k < |c'| ==> c'[k].1.files == []
  {
    var key := CacheKey(searchPath, Lower(keyword));
    var c' := Put(c, key, CacheEntry(Dict(results), []));
    PutEntries(c, key, CacheEntry(Dict(results), []));
  }

  /** Every entry of `Put(c, k, v)` is either an old entry or `(k, v)`. */
  lemma {:induction false} PutEntries(c: Cache, k: string, v: CacheEntry)
    ensures forall i :: 0 <= i < |Put(c, k, v)| ==> Put(c, k, v)[i] == (k, v) || Put(c, k, v)[i] in c
    decreases |c|
  {
    if c != [] && c[0].0 != k {
      PutEntries(c[1..], k, v);
      var r := Put(c, k, v);
      assert r == [c[0]] + Put(c[1..], k, v);
      forall i | 0 <= i < |r| ensures r[i] == (k, v) || r[i] in c {
        if i > 0 {
          assert r[i] == Put(c[1..], k, v)[i - 1];
          assert Put(c[1..], k, v)[i - 1] == (k, v) || Put(c[1..], k, v)[i - 1] in c[1..];
        }
      }
    } else if c != [] {
      var r := Put(c, k, v);
      forall i | 0 <= i < |r| ensures r[i] == (k, v) || r[i] in c {
        if i > 0 { assert r[i] == c[i]; }
      }
    }
  }
}
