/**
 * `_search_item`: a lower-cased substring search over the walked tree,
 * filtered by `search_type`, with a semantic fallback that reads the
 * memory's cache, a write to that cache, and an automatic open of a lone hit.
 *
 * `SearchItem` is the version of `backend/jarvis_backend_v1.py` and of
 * `backend/.ipynb_checkpoints/jarvis_backend-checkpoint.py` (the same text);
 * `BasicSearch` is the earlier one of `backend/jarvis_backend.py`, with no
 * memory, no check that the root exists, and no semantic fallback.
 */
module Search {
  import opened Base
  import opened Text
  import opened Values
  import Paths
  import opened Host
  import opened Handlers
  import opened Memory

  // ---------------------------------------------------------------------------
  // The walk
  // ---------------------------------------------------------------------------

  /** `os.path.join(root, n)` for each name `n` containing `kwl` once lower-cased, in order. */
  function Hits(root: string, names: seq<string>, kwl: string): (r: seq<string>)
    ensures |r| <= |names|
  {
    if names == [] then []
    else
      var n := names[|names| - 1];
      Hits(root, names[..|names| - 1], kwl) + (if IsSubstring(kwl, Lower(n)) then [Paths.Join(root, n)] else [])
  }

  /** The hits among `names`; `keyword.lower()` is evaluated for each name, so a non-string raises at the first one. */
  function NameHits(root: string, names: seq<string>, keyword: Value): (r: Outcome<seq<string>>)
    ensures r.Raised? <==> names != [] && !keyword.Str?
  {
    if names == [] then Ok([])
    else
      match LowerOf(keyword)
      case Raised(m) => Raised(m)
      case Ok(kwl) => Ok(Hits(root, names, kwl))
  }

  /** The matching folders and files, in walk order. */
  datatype Found = Found(folders: seq<string>, files: seq<string>)

  /** The walk loop over `walk`: each entry's directories (when folders are wanted), then its files (when files are wanted). */
  function Collect(walk: seq<WalkEntry>, keyword: Value, wantFolders: bool, wantFiles: bool): Outcome<Found>
  {
    if walk == [] then Ok(Found([], []))
    else
      var e := walk[|walk| - 1];
      match Collect(walk[..|walk| - 1], keyword, wantFolders, wantFiles)
      case Raised(m) => Raised(m)
      case Ok(prev) =>
        match (if wantFolders then NameHits(e.root, e.dirs, keyword) else Ok([]))
        case Raised(m) => Raised(m)
        case Ok(d) =>
          match (if wantFiles then NameHits(e.root, e.files, keyword) else Ok([]))
          case Raised(m) => Raised(m)
          case Ok(f) => Ok(Found(prev.folders + d, prev.files + f))
  }

  /** `search_type in ["both", "folder"]` */
  predicate WantsFolders(searchType: Value)
  {
    searchType == Str("both") || searchType == Str("folder")
  }

  /** `search_type in ["both", "file"]` */
  predicate WantsFiles(searchType: Value)
  {
    searchType == Str("both") || searchType == Str("file")
  }

  /** The inner loop over one directory's names, appending to `acc`. */
  method CollectNames(root: string, names: seq<string>, keyword: Value, acc: seq<string>) returns (r: Outcome<seq<string>>)
    ensures match NameHits(root, names, keyword)
            case Raised(m) => r == Raised(m)
            case Ok(hs) => r == Ok(acc + hs)
  {
    var out := acc;
    var i := 0;
    while i < |names|
      invariant 0 <= i <= |names|
      invariant i > 0 ==> keyword.Str?
      invariant i > 0 ==> out == acc + Hits(root, names[..i], Lower(keyword.s))
      invariant i == 0 ==> out == acc
    {
      if !keyword.Str? {
        return Raised(NoAttribute(keyword, "lower"));
      }
      var kwl := Lower(keyword.s);
      var name := names[i];
      HitsStep(root, names, i, kwl);
      if IsSubstring(kwl, Lower(name)) {
        out := out + [Paths.Join(root, name)];
      }
      AppendAssoc(acc, Hits(root, names[..i], kwl), if IsSubstring(kwl, Lower(name)) then [Paths.Join(root, name)] else []);
      i := i + 1;
    }
    PrefixStep(names, i);
    assert acc + [] == acc;
    r := Ok(out);
  }

  /** The walk loop of `_search_item`. */
  method WalkSearch(walk: seq<WalkEntry>, keyword: Value, wantFolders: bool, wantFiles: bool) returns (r: Outcome<Found>)
    ensures r == Collect(walk, keyword, wantFolders, wantFiles)
  {
    var folders: seq<string> := [];
    var files: seq<string> := [];
    var i := 0;
    while i < |walk|
      invariant 0 <= i <= |walk|
      invariant Collect(walk[..i], keyword, wantFolders, wantFiles) == Ok(Found(folders, files))
    {
      var e := walk[i];
      CollectStep(walk, i, keyword, wantFolders, wantFiles);
      ghost var dh: Outcome<seq<string>> := if wantFolders then NameHits(e.root, e.dirs, keyword) else Ok([]);
      ghost var fh: Outcome<seq<string>> := if wantFiles then NameHits(e.root, e.files, keyword) else Ok([]);
      ghost var prev := Found(folders, files);
      if wantFolders {
        var d := CollectNames(e.root, e.dirs, keyword, folders);
        if d.Raised? {
          CollectPrefixRaised(walk, i + 1, keyword, wantFolders, wantFiles);
          return Raised(d.message);
        }
        folders := d.value;
      } else {
        assert folders + [] == folders;
      }
      assert dh.Ok? && folders == prev.folders + dh.value;
      if wantFiles {
        var f := CollectNames(e.root, e.files, keyword, files);
        if f.Raised? {
          CollectPrefixRaised(walk, i + 1, keyword, wantFolders, wantFiles);
          return Raised(f.message);
        }
        files := f.value;
      } else {
        assert files + [] == files;
      }
      assert fh.Ok? && files == prev.files + fh.value;
      i := i + 1;
    }
    PrefixStep(walk, i);
    r := Ok(Found(folders, files));
  }

  lemma {:induction false} HitsStep(root: string, names: seq<string>, i: nat, kwl: string)
    requires i < |names|
    ensures Hits(root, names[..i + 1], kwl) ==
      Hits(root, names[..i], kwl) + (if IsSubstring(kwl, Lower(names[i])) then [Paths.Join(root, names[i])] else [])
  {
    PrefixStep(names, i);
  }

  /** One more entry of the walk. */
  lemma {:induction false} CollectStep(walk: seq<WalkEntry>, i: nat, keyword: Value, wantFolders: bool, wantFiles: bool)
    requires i < |walk|
    ensures var e := walk[i];
      Collect(walk[..i + 1], keyword, wantFolders, wantFiles) ==
      match Collect(walk[..i], keyword, wantFolders, wantFiles)
      case Raised(m) => Raised(m)
      case Ok(prev) =>
        match (if wantFolders then NameHits(e.root, e.dirs, keyword) else Ok([]))
        case Raised(m) => Raised(m)
        case Ok(d) =>
          match (if wantFiles then NameHits(e.root, e.files, keyword) else Ok([]))
          case Raised(m) => Raised(m)
          case Ok(f) => Ok(Found(prev.folders + d, prev.files + f))
  {
    PrefixStep(walk, i);
  }

  /** Once a prefix of the walk raises, the whole walk raises the same. */
  lemma {:induction false} CollectPrefixRaised(walk: seq<WalkEntry>, j: nat, keyword: Value, wantFolders: bool, wantFiles: bool)
    requires j <= |walk| && Collect(walk[..j], keyword, wantFolders, wantFiles).Raised?
    ensures Collect(walk, keyword, wantFolders, wantFiles) == Collect(walk[..j], keyword, wantFolders, wantFiles)
    decreases |walk|
  {
    if j < |walk| {
      var pre := walk[..|walk| - 1];
      assert pre[..j] == walk[..j];
      CollectPrefixRaised(pre, j, keyword, wantFolders, wantFiles);
    } else {
      assert walk[..j] == walk;
    }
  }

  // ---------------------------------------------------------------------------
  // _search_item (backend/jarvis_backend_v1.py and the checkpoint)
  // ---------------------------------------------------------------------------

  /** The semantic match `_search_item` reports: the cached file and its rounded score. */
  datatype Suggestion = Suggestion(file: FileInfo, score: Value)

  /** What one search returns, the cache afterwards, and the opens it made. */
  datatype Searched = Searched(result: Entries, cache: Cache, effects: seq<Effect>)

  function Strs(ps: seq<string>): (r: seq<Value>)
    ensures |r| == |ps| && forall i :: 0 <= i < |ps| ==> r[i] == Str(ps[i])
  {
    if ps == [] then [] else [Str(ps[0])] + Strs(ps[1..])
  }

  function SemanticEntry(sg: Suggestion): Value
  {
    Dict([("path", Str(sg.file.path)), ("name", Str(sg.file.name)), ("similarity_score", sg.score), ("type", Str("semantic"))])
  }

  function SemanticMatches(sg: Option<Suggestion>): seq<Value>
  {
    match sg case Some(s) => [SemanticEntry(s)] case None => []
  }

  /** `results = {"files": …, "folders": …, "semantic_matches": …}` */
  function Results(found: Found, sg: Option<Suggestion>): Entries
  {
    [("files", List(Strs(found.files))), ("folders", List(Strs(found.folders))), ("semantic_matches", List(SemanticMatches(sg)))]
  }

  /** The semantic lookup, run only when it is asked for and the exact search found nothing. */
  function Semantic(h: Host, c: Cache, root: string, keyword: Value, useSemantic: Value, threshold: Value, found: Found)
    : Outcome<Option<Suggestion>>
  {
    if Truthy(useSemantic) && found.files == [] && found.folders == [] then
      match SemanticMatch(c, root, keyword, threshold, h.ratio)
      case Raised(m) => Raised(m)
      case Ok(Match(best, score)) =>
        match best
        case Some(fi) => Ok(Some(Suggestion(fi, h.roundScore(score))))
        case None => Ok(None)
    else Ok(None)
  }

  /** The answer once the results are cached: a lone file or folder is opened, a lone semantic match is suggested. */
  function Finish(h: Host, c: Cache, root: string, keyword: Value, found: Found, sg: Option<Suggestion>): Searched
  {
    var results := Dict(Results(found, sg));
    var total := |found.files| + |found.folders| + |SemanticMatches(sg)|;
    var summary := [("results", results), ("keyword", keyword), ("search_path", Str(root)), ("total_found", Int(total))];
    if |found.files| == 1 && found.folders == [] && sg.None? then
      Searched(summary, c, OpenFile(h, Str(found.files[0]), Null).effects)
    else if |found.folders| == 1 && found.files == [] && sg.None? then
      Searched(summary, c, OpenFolder(h, Str(found.folders[0])).effects)
    else if sg.Some? && found.files == [] && found.folders == [] then
      var s := sg.value;
      Searched([("results", results), ("keyword", keyword), ("search_path", Str(root)), ("total_found", Int(1)),
                ("semantic_suggestion", Str("Found similar file: " + s.file.name + " (similarity: " + PyStr(s.score) + ")")),
                ("suggested_path", Str(s.file.path))], c, [])
    else Searched(summary, c, [])
  }

  /** After the walk: the semantic fallback, the write to the cache, and the answer. */
  function Conclude(h: Host, c: Cache, root: string, keyword: Value, useSemantic: Value, threshold: Value, found: Found)
    : Outcome<Searched>
  {
    match Semantic(h, c, root, keyword, useSemantic, threshold, found)
    case Raised(m) => Raised(m)
    case Ok(sg) =>
      match CacheAfterStore(c, root, keyword, Dict(Results(found, sg)))
      case Raised(m) => Raised(m)
      case Ok(c') => Ok(Finish(h, c', root, keyword, found, sg))
  }

  /** The body of the `try`: everything after the root was made absolute. */
  function Searching(h: Host, c: Cache, root: string, keyword: Value, searchType: Value, useSemantic: Value, threshold: Value)
    : Outcome<Searched>
  {
    if !h.pathExists(root) then Ok(Searched(Error("Search path does not exist: " + root), c, []))
    else
      match Collect(h.walk(root), keyword, WantsFolders(searchType), WantsFiles(searchType))
      case Raised(m) => Raised(m)
      case Ok(found) => Conclude(h, c, root, keyword, useSemantic, threshold, found)
  }

  /**
   * `_search_item(**kwargs)`: making `search_path` absolute happens before the
   * `try` and can raise; anything raised inside it becomes `Search failed`.
   */
  function SearchItem(h: Host, c: Cache, kwargs: Entries): Outcome<Searched>
  {
    var keyword := Get(kwargs, "keyword", Str(""));
    match AbsPath(h, Get(kwargs, "search_path", Str(".")))
    case Raised(m) => Raised(m)
    case Ok(root) =>
      var searchType := Get(kwargs, "search_type", Str("both"));
      var useSemantic := Get(kwargs, "use_semantic", Bool(false));
      var threshold := Get(kwargs, "semantic_threshold", Float(0.3, "0.3"));
      match Searching(h, c, root, keyword, searchType, useSemantic, threshold)
      case Raised(m) => Ok(Searched(Error("Search failed: " + m), c, []))
      case Ok(s) => Ok(s)
  }

  /** The semantic fallback, on the agent's memory. */
  method SemanticIn(h: Host, memory: ConversationMemory, root: string, keyword: Value, useSemantic: Value,
                    threshold: Value, found: Found) returns (r: Outcome<Option<Suggestion>>)
    ensures r == Semantic(h, memory.cache, root, keyword, useSemantic, threshold, found)
  {
    if !(Truthy(useSemantic) && found.files == [] && found.folders == []) {
      return Ok(None);
    }
    var m := memory.FindSemanticMatch(root, keyword, threshold, h.ratio);
    SemanticFrom(h, memory.cache, root, keyword, useSemantic, threshold, found, m);
    if m.Raised? {
      return Raised(m.message);
    }
    var best := m.value.best;
    if best.Some? {
      r := Ok(Some(Suggestion(best.value, h.roundScore(m.value.score))));
    } else {
      r := Ok(None);
    }
  }

  /** The semantic lookup in terms of the match found. */
  lemma {:induction false} SemanticFrom(h: Host, c: Cache, root: string, keyword: Value, useSemantic: Value, threshold: Value,
                                        found: Found, m: Outcome<Match>)
    requires Truthy(useSemantic) && found.files == [] && found.folders == []
    requires m == SemanticMatch(c, root, keyword, threshold, h.ratio)
    ensures Semantic(h, c, root, keyword, useSemantic, threshold, found) ==
      match m
      case Raised(msg) => Raised(msg)
      case Ok(mt) => if mt.best.Some? then Ok(Some(Suggestion(mt.best.value, h.roundScore(mt.score)))) else Ok(None)
  {
  }

  /** What follows the walk, on the agent's memory. */
  method ConcludeIn(h: Host, memory: ConversationMemory, root: string, keyword: Value, useSemantic: Value,
                    threshold: Value, found: Found) returns (r: Outcome<Reply>)
    modifies memory`cache
    ensures match Conclude(h, old(memory.cache), root, keyword, useSemantic, threshold, found)
            case Raised(m) => r == Raised(m) && memory.cache == old(memory.cache)
            case Ok(s) => r == Ok(Reply(s.result, s.effects)) && memory.cache == s.cache
  {
    var sg := SemanticIn(h, memory, root, keyword, useSemantic, threshold, found);
    if sg.Raised? {
      return Raised(sg.message);
    }
    var raised := memory.CacheSearchResults(root, keyword, Dict(Results(found, sg.value)));
    if raised.Some? {
      return Raised(raised.value);
    }
    var s := Finish(h, memory.cache, root, keyword, found, sg.value);
    r := Ok(Reply(s.result, s.effects));
  }

  /** The `try` block of `_search_item`, on the agent's memory. */
  method SearchBody(h: Host, memory: ConversationMemory, root: string, keyword: Value, searchType: Value,
                    useSemantic: Value, threshold: Value) returns (r: Outcome<Reply>)
    modifies memory`cache
    ensures match Searching(h, old(memory.cache), root, keyword, searchType, useSemantic, threshold)
            case Raised(m) => r == Raised(m) && memory.cache == old(memory.cache)
            case Ok(s) => r == Ok(Reply(s.result, s.effects)) && memory.cache == s.cache
  {
    if !h.pathExists(root) {
      return Ok(Reply(Error("Search path does not exist: " + root), []));
    }
    var found := WalkSearch(h.walk(root), keyword, WantsFolders(searchType), WantsFiles(searchType));
    if found.Raised? {
      return Raised(found.message);
    }
    r := ConcludeIn(h, memory, root, keyword, useSemantic, threshold, found.value);
  }

  /** `_search_item(**kwargs)` on the agent's memory. */
  method SearchIn(h: Host, memory: ConversationMemory, kwargs: Entries) returns (r: Outcome<Reply>)
    modifies memory`cache
    ensures match SearchItem(h, old(memory.cache), kwargs)
            case Raised(m) => r == Raised(m) && memory.cache == old(memory.cache)
            case Ok(s) => r == Ok(Reply(s.result, s.effects)) && memory.cache == s.cache
  {
    var keyword := Get(kwargs, "keyword", Str(""));
    var searchPath := Get(kwargs, "search_path", Str("."));
    if !searchPath.Str? {
      return Raised(NotAPath(searchPath));
    }
    var root := h.abspath(searchPath.s);
    var searchType := Get(kwargs, "search_type", Str("both"));
    var useSemantic := Get(kwargs, "use_semantic", Bool(false));
    var threshold := Get(kwargs, "semantic_threshold", Float(0.3, "0.3"));
    var body := SearchBody(h, memory, root, keyword, searchType, useSemantic, threshold);
    if body.Raised? {
      return Ok(Reply(Error("Search failed: " + body.message), []));
    }
    r := body;
  }

  // ---------------------------------------------------------------------------
  // _search_item (backend/jarvis_backend.py)
  // ---------------------------------------------------------------------------

  /** The earlier `_search_item`: the walk, then a lone folder or else a lone file is opened; an exception becomes its message. */
  function BasicSearch(h: Host, kwargs: Entries): Outcome<Reply>
  {
    var keyword := Get(kwargs, "keyword", Str(""));
    match AbsPath(h, Get(kwargs, "search_path", Str(".")))
    case Raised(m) => Raised(m)
    case Ok(root) =>
      var searchType := Get(kwargs, "search_type", Str("both"));
      match Collect(h.walk(root), keyword, WantsFolders(searchType), WantsFiles(searchType))
      case Raised(m) => Ok(Reply(Error(m), []))
      case Ok(found) =>
        var results := Dict([("files", List(Strs(found.files))), ("folders", List(Strs(found.folders)))]);
        var answer := [("results", results), ("keyword", keyword)];
        if |found.folders| == 1 && found.files == [] then Ok(Reply(answer, OpenFolder(h, Str(found.folders[0])).effects))
        else if |found.files| == 1 && found.folders == [] then Ok(Reply(answer, OpenFile(h, Str(found.files[0]), Null).effects))
        else Ok(Reply(answer, []))
  }

  /** The earlier `_search_item` as its loops run it. */
  method BasicSearchIn(h: Host, kwargs: Entries) returns (r: Outcome<Reply>)
    ensures r == BasicSearch(h, kwargs)
  {
    var keyword := Get(kwargs, "keyword", Str(""));
    var searchPath := Get(kwargs, "search_path", Str("."));
    if !searchPath.Str? {
      return Raised(NotAPath(searchPath));
    }
    var root := h.abspath(searchPath.s);
    var searchType := Get(kwargs, "search_type", Str("both"));
    var found := WalkSearch(h.walk(root), keyword, WantsFolders(searchType), WantsFiles(searchType));
    if found.Raised? {
      return Ok(Reply(Error(found.message), []));
    }
    var results := Dict([("files", List(Strs(found.value.files))), ("folders", List(Strs(found.value.folders)))]);
    var answer := [("results", results), ("keyword", keyword)];
    if |found.value.folders| == 1 && found.value.files == [] {
      var reply := OpenFolder(h, Str(found.value.folders[0]));
      return Ok(Reply(answer, reply.effects));
    } else if |found.value.files| == 1 && found.value.folders == [] {
      var reply := OpenFile(h, Str(found.value.files[0]), Null);
      return Ok(Reply(answer, reply.effects));
    }
    r := Ok(Reply(answer, []));
  }

  // ---------------------------------------------------------------------------
  // Properties
  // ---------------------------------------------------------------------------

  /** A hit is the joined path of a name that contains the lower-cased keyword once lower-cased itself, and every such name is a hit. */
  lemma {:induction false} HitsIff(root: string, names: seq<string>, kwl: string, p: string)
    ensures p in Hits(root, names, kwl) <==> exists n :: n in names && IsSubstring(kwl, Lower(n)) && p == Paths.Join(root, n)
    decreases |names|
  {
    if names != [] {
      var pre, n := names[..|names| - 1], names[|names| - 1];
      assert names == pre + [n];
      HitsIff(root, pre, kwl, p);
    }
  }

  /** The empty keyword matches every name: each one is a hit, in order. */
  lemma {:induction false} EmptyKeywordMatchesAll(root: string, names: seq<string>)
    ensures var r := Hits(root, names, "");
      |r| == |names| && forall i :: 0 <= i < |names| ==> r[i] == Paths.Join(root, names[i])
    decreases |names|
  {
    if names != [] {
      var n := |names| - 1;
      var pre := names[..n];
      EmptyKeywordMatchesAll(root, pre);
      EmptyIsSubstring(Lower(names[n]));
      var r := Hits(root, names, "");
      assert r == Hits(root, pre, "") + [Paths.Join(root, names[n])];
      forall i | 0 <= i < |names| ensures r[i] == Paths.Join(root, names[i]) {
        if i < n {
          assert r[i] == Hits(root, pre, "")[i] && pre[i] == names[i];
        }
      }
    }
  }

  /** Folders are collected only for `both` and `folder`, files only for `both` and `file`. */
  lemma {:induction false} TypeFilters(walk: seq<WalkEntry>, keyword: Value, wantFolders: bool, wantFiles: bool)
    requires Collect(walk, keyword, wantFolders, wantFiles).Ok?
    ensures var f := Collect(walk, keyword, wantFolders, wantFiles).value;
      (!wantFolders ==> f.folders == []) && (!wantFiles ==> f.files == [])
    decreases |walk|
  {
    if walk != [] {
      TypeFilters(walk[..|walk| - 1], keyword, wantFolders, wantFiles);
    }
  }

  /** Any `search_type` but `both`, `folder` and `file` finds nothing. */
  lemma {:induction false} OtherTypeFindsNothing(walk: seq<WalkEntry>, keyword: Value, searchType: Value)
    requires searchType != Str("both") && searchType != Str("folder") && searchType != Str("file")
    ensures Collect(walk, keyword, WantsFolders(searchType), WantsFiles(searchType)) == Ok(Found([], []))
    decreases |walk|
  {
    if walk != [] {
      OtherTypeFindsNothing(walk[..|walk| - 1], keyword, searchType);
      assert !WantsFolders(searchType) && !WantsFiles(searchType);
      assert Found([] + [], [] + []) == Found([], []);
    }
  }

  /** With a string keyword the walk never raises. */
  lemma {:induction false} StringKeywordCollects(walk: seq<WalkEntry>, keyword: string, wantFolders: bool, wantFiles: bool)
    ensures Collect(walk, Str(keyword), wantFolders, wantFiles).Ok?
    decreases |walk|
  {
    if walk != [] {
      StringKeywordCollects(walk[..|walk| - 1], keyword, wantFolders, wantFiles);
    }
  }

  /** A missing root is reported with its absolute path, and neither the cache nor anything else is touched. */
  lemma {:induction false} MissingRoot(h: Host, c: Cache, kwargs: Entries, searchPath: string)
    requires Get(kwargs, "search_path", Str(".")) == Str(searchPath)
    requires !h.pathExists(h.abspath(searchPath))
    ensures SearchItem(h, c, kwargs) == Ok(Searched(Error("Search path does not exist: " + h.abspath(searchPath)), c, []))
  {
  }

  /**
   * A keyword that is not a string fails the whole search over an existing
   * root with the same message, wherever its `lower()` is first needed, and
   * leaves the cache as it was.
   */
  lemma {:induction false} NonStringKeywordFails(h: Host, c: Cache, kwargs: Entries, searchPath: string)
    requires Get(kwargs, "search_path", Str(".")) == Str(searchPath)
    requires h.pathExists(h.abspath(searchPath))
    requires !Get(kwargs, "keyword", Str("")).Str?
    ensures SearchItem(h, c, kwargs) ==
      Ok(Searched(Error("Search failed: " + NoAttribute(Get(kwargs, "keyword", Str("")), "lower")), c, []))
  {
    var keyword := Get(kwargs, "keyword", Str(""));
    var root := h.abspath(searchPath);
    var searchType := Get(kwargs, "search_type", Str("both"));
    var walk := h.walk(root);
    CollectRaisesLower(walk, keyword, WantsFolders(searchType), WantsFiles(searchType));
  }

  /** With a non-string keyword, the walk either raises for the missing `lower`, or finds nothing. */
  lemma {:induction false} CollectRaisesLower(walk: seq<WalkEntry>, keyword: Value, wantFolders: bool, wantFiles: bool)
    requires !keyword.Str?
    ensures var r := Collect(walk, keyword, wantFolders, wantFiles);
      r == Raised(NoAttribute(keyword, "lower")) || r == Ok(Found([], []))
    decreases |walk|
  {
    if walk != [] {
      var e := walk[|walk| - 1];
      CollectRaisesLower(walk[..|walk| - 1], keyword, wantFolders, wantFiles);
      assert NameHits(e.root, e.dirs, keyword) == Ok([]) || NameHits(e.root, e.dirs, keyword) == Raised(NoAttribute(keyword, "lower"));
      assert NameHits(e.root, e.files, keyword) == Ok([]) || NameHits(e.root, e.files, keyword) == Raised(NoAttribute(keyword, "lower"));
      assert Found([] + [], [] + []) == Found([], []);
    }
  }

  /**
   * The automatic open: something is opened only for a lone file (no folder,
   * no semantic match) or a lone folder (no file, no semantic match), and then
   * it is that file or folder.
   */
  lemma {:induction false} OpensOnlyLoneHit(h: Host, c: Cache, root: string, keyword: Value, found: Found, sg: Option<Suggestion>)
    ensures var s := Finish(h, c, root, keyword, found, sg);
      s.effects != [] ==>
        sg.None? &&
        ((|found.files| == 1 && found.folders == [] && s.effects == [StartFile(h.abspath(found.files[0]))]) ||
         (|found.folders| == 1 && found.files == [] && s.effects == [StartFile(h.abspath(found.folders[0]))]))
  {
  }

  /** A lone file that exists, or a lone directory, is opened. */
  lemma {:induction false} LoneHitIsOpened(h: Host, c: Cache, root: string, keyword: Value, found: Found)
    ensures var s := Finish(h, c, root, keyword, found, None);
      (|found.files| == 1 && found.folders == [] && h.pathExists(h.abspath(found.files[0])) ==>
        s.effects == [StartFile(h.abspath(found.files[0]))]) &&
      (|found.folders| == 1 && found.files == [] && h.isDir(h.abspath(found.folders[0])) ==>
        s.effects == [StartFile(h.abspath(found.folders[0]))])
  {
  }

  /** `total_found` counts the files, folders and semantic matches; a lone semantic match is suggested, never opened. */
  lemma {:induction false} TotalFound(h: Host, c: Cache, root: string, keyword: Value, found: Found, sg: Option<Suggestion>)
    ensures var s := Finish(h, c, root, keyword, found, sg);
      s.result[3] == ("total_found", Int(|found.files| + |found.folders| + (if sg.Some? then 1 else 0))) &&
      (sg.Some? && found.files == [] && found.folders == [] ==>
        s.effects == [] && |s.result| == 6 && s.result[5] == ("suggested_path", Str(sg.value.file.path)))
  {
  }

  /** No cache entry records a file. */
  ghost predicate NoFiles(c: Cache)
  {
    forall k :: 0 <= k < |c| ==> c[k].1.files == []
  }

  /** Without a suggestion, the answer has no `semantic_suggestion`. */
  lemma {:induction false} NoSuggestionNoKey(h: Host, c: Cache, root: string, keyword: Value, found: Found)
    ensures !HasKey(Finish(h, c, root, keyword, found, None).result, "semantic_suggestion")
  {
    var r := Finish(h, c, root, keyword, found, None).result;
    assert |r| == 4 && r[0].0 == "results" && r[1].0 == "keyword" && r[2].0 == "search_path" && r[3].0 == "total_found";
  }

  /** After the walk, on a cache without files: nothing is suggested, and the cache still has no files. */
  lemma {:induction false} ConcludeNoFiles(h: Host, c: Cache, root: string, keyword: string, useSemantic: Value,
                                           threshold: Value, found: Found)
    requires NoFiles(c)
    ensures Conclude(h, c, root, Str(keyword), useSemantic, threshold, found).Ok?
    ensures var s := Conclude(h, c, root, Str(keyword), useSemantic, threshold, found).value;
      NoFiles(s.cache) && !HasKey(s.result, "semantic_suggestion")
  {
    NoFilesNoMatch(c, root, keyword, threshold, h.ratio);
    assert Semantic(h, c, root, Str(keyword), useSemantic, threshold, found) == Ok(None);
    var results := Results(found, None);
    assert !HasKey(results, "results") by {
      assert |results| == 3 && results[0].0 == "files" && results[1].0 == "folders" && results[2].0 == "semantic_matches";
    }
    BareResultsRecordNoFiles(c, root, keyword, results);
    var c' := CacheAfterStore(c, root, Str(keyword), Dict(results)).value;
    NoSuggestionNoKey(h, c', root, Str(keyword), found);
  }

  /**
   * `_search_item` caches its bare results, which have no `results` key, so
   * the entries it writes record no file: on a cache it alone filled, the
   * semantic fallback never suggests anything.
   */
  lemma {:induction false} SemanticNeverSucceeds(h: Host, c: Cache, kwargs: Entries)
    requires NoFiles(c)
    requires SearchItem(h, c, kwargs).Ok?
    ensures var s := SearchItem(h, c, kwargs).value;
      NoFiles(s.cache) && !HasKey(s.result, "semantic_suggestion")
  {
    var keyword := Get(kwargs, "keyword", Str(""));
    var root := h.abspath(Get(kwargs, "search_path", Str(".")).s);
    var searchType := Get(kwargs, "search_type", Str("both"));
    var useSemantic := Get(kwargs, "use_semantic", Bool(false));
    var threshold := Get(kwargs, "semantic_threshold", Float(0.3, "0.3"));
    if keyword.Str? && h.pathExists(root) {
      StringKeywordCollects(h.walk(root), keyword.s, WantsFolders(searchType), WantsFiles(searchType));
      var found := Collect(h.walk(root), keyword, WantsFolders(searchType), WantsFiles(searchType)).value;
      ConcludeNoFiles(h, c, root, keyword.s, useSemantic, threshold, found);
    } else if h.pathExists(root) {
      var r := Error("Search failed: " + NoAttribute(keyword, "lower"));
      NonStringKeywordFails(h, c, kwargs, Get(kwargs, "search_path", Str(".")).s);
      assert |r| == 1 && r[0].0 == "error";
    } else {
      var r := Error("Search path does not exist: " + root);
      assert |r| == 1 && r[0].0 == "error";
    }
  }

  /** The earlier search never reports a missing root: `os.walk` of a missing path yields nothing, so nothing is found. */
  lemma {:induction false} BasicMissingRootFindsNothing(h: Host, kwargs: Entries, searchPath: string)
    requires WalkOfMissingIsEmpty(h)
    requires Get(kwargs, "search_path", Str(".")) == Str(searchPath)
    requires !h.pathExists(h.abspath(searchPath))
    ensures BasicSearch(h, kwargs) ==
      Ok(Reply([("results", Dict([("files", List([])), ("folders", List([]))])), ("keyword", Get(kwargs, "keyword", Str("")))], []))
  {
  }

  /**
   * The earlier search's automatic open, over the hits `fs` of its walk: it
   * opens the folder when it is the one hit, otherwise the file when it is
   * the one hit, and nothing in any other case. (The two conditions exclude
   * each other, so preferring the folder never hides a lone file.)
   */
  lemma {:induction false} BasicOpensOnlyLoneHit(h: Host, kwargs: Entries, root: string, fs: Found)
    requires AbsPath(h, Get(kwargs, "search_path", Str("."))) == Ok(root)
    requires Collect(h.walk(root), Get(kwargs, "keyword", Str("")),
                     WantsFolders(Get(kwargs, "search_type", Str("both"))),
                     WantsFiles(Get(kwargs, "search_type", Str("both")))) == Ok(fs)
    ensures BasicSearch(h, kwargs).Ok?
    ensures var r := BasicSearch(h, kwargs).value;
      Keys(r.result) == ["results", "keyword"] &&
      (r.effects != [] ==>
        ((|fs.folders| == 1 && fs.files == [] && r.effects == [StartFile(h.abspath(fs.folders[0]))]) ||
         (|fs.files| == 1 && fs.folders == [] && r.effects == [StartFile(h.abspath(fs.files[0]))]))) &&
      (|fs.folders| == 1 && fs.files == [] && h.isDir(h.abspath(fs.folders[0])) ==>
        r.effects == [StartFile(h.abspath(fs.folders[0]))]) &&
      (|fs.files| == 1 && fs.folders == [] && h.pathExists(h.abspath(fs.files[0])) ==>
        r.effects == [StartFile(h.abspath(fs.files[0]))])
  {
    if |fs.folders| == 1 && fs.files == [] {
      OpenFolderOnlyDirectories(h, Str(fs.folders[0]));
    } else if |fs.files| == 1 && fs.folders == [] {
      OpenFileOnlyExisting(h, Str(fs.files[0]), Null);
    }
  }
}
