/**
 * The string operations the Python source relies on: `str.lower`, `str.strip`,
 * `str.split()`, `' '.join`, the `in` substring test, `str.startswith`,
 * `str.replace`, `re.findall(r'\w+', ...)` and decimal rendering of integers.
 *
 * Case mapping and the `\w` class are modelled on ASCII (see README).
 */
module Text {

  // ---------------------------------------------------------------------------
  // Character classes
  // ---------------------------------------------------------------------------

  /** The characters Python's `str.isspace` accepts, which `str.split()` and `str.strip()` use. */
  predicate IsSpace(c: char)
  {
    || c == ' '
    || ('\t' <= c <= '\r')
    || ('\U{1C}' <= c <= '\U{1F}')
    || c == '\U{85}' || c == '\U{A0}' || c == '\U{1680}'
    || ('\U{2000}' <= c <= '\U{200A}')
    || c == '\U{2028}' || c == '\U{2029}' || c == '\U{202F}' || c == '\U{205F}' || c == '\U{3000}'
  }

  predicate NotSpace(c: char) { !IsSpace(c) }

  /** The regular-expression class `\w`, restricted to ASCII. */
  predicate IsWordChar(c: char)
  {
    ('a' <= c <= 'z') || ('A' <= c <= 'Z') || ('0' <= c <= '9') || c == '_'
  }

  function LowerChar(c: char): char
  {
    if 'A' <= c <= 'Z' then (c as int + 32) as char else c
  }

  /** `s.lower()` */
  function Lower(s: string): (r: string)
    ensures |r| == |s|
    ensures forall i :: 0 <= i < |s| ==> r[i] == LowerChar(s[i])
  {
    if s == [] then [] else [LowerChar(s[0])] + Lower(s[1..])
  }

  // ---------------------------------------------------------------------------
  // Prefix, substring, replacement
  // ---------------------------------------------------------------------------

  /** `b.startswith(a)` */
  predicate IsPrefix(a: string, b: string)
  {
    |a| <= |b| && b[..|a|] == a
  }

  /** A string starts with each of its prefixes. */
  lemma PrefixOfAppend(a: string, b: string)
    ensures IsPrefix(a, a + b)
  {
    assert (a + b)[..|a|] == a;
  }

  /** Strings whose first characters differ do not start with each other. */
  lemma NotPrefixByHead(a: string, b: string)
    requires a != [] && b != [] && a[0] != b[0]
    ensures !IsPrefix(a, b)
  {
  }

  /** Python's `a in b` on two strings. */
  predicate IsSubstring(a: string, b: string)
    decreases |b|
  {
    IsPrefix(a, b) || (|b| > 0 && IsSubstring(a, b[1..]))
  }

  lemma {:induction false} SubstringOfSelf(a: string)
    ensures IsSubstring(a, a)
  {
  }

  lemma {:induction false} EmptyIsSubstring(b: string)
    ensures IsSubstring("", b)
  {
  }

  lemma {:induction false} SubstringOfSuffix(a: string, b: string, k: nat)
    requires k <= |b| && IsSubstring(a, b[k..])
    ensures IsSubstring(a, b)
    decreases k
  {
    if k > 0 {
      assert b[1..][k - 1..] == b[k..];
      SubstringOfSuffix(a, b[1..], k - 1);
    }
  }

  /** What contains a string contains each of its suffixes. */
  lemma {:induction false} SubstringOfTail(a: string, k: nat, b: string)
    requires IsSubstring(a, b) && k <= |a|
    ensures IsSubstring(a[k..], b)
    decreases |b|
  {
    if IsPrefix(a, b) {
      assert b[k..][..|a| - k] == a[k..];
      SubstringOfSuffix(a[k..], b, k);
    } else {
      SubstringOfTail(a, k, b[1..]);
    }
  }

  /** `s.replace(pattern, replacement)` for a non-empty `pattern`: every non-overlapping occurrence, left to right. */
  function ReplaceAll(s: string, pattern: string, replacement: string): string
    requires pattern != []
    decreases |s|
  {
    if s == [] then []
    else if IsPrefix(pattern, s) then replacement + ReplaceAll(s[|pattern|..], pattern, replacement)
    else [s[0]] + ReplaceAll(s[1..], pattern, replacement)
  }

  // ---------------------------------------------------------------------------
  // Runs of characters: `str.split()` and `re.findall(r'\w+', ...)`
  // ---------------------------------------------------------------------------

  /** The longest prefix of `s` whose characters all satisfy `p`. */
  function TakeWhile(s: string, p: char -> bool): (r: string)
    ensures |r| <= |s| && r == s[..|r|]
    ensures forall i :: 0 <= i < |r| ==> p(r[i])
    ensures |r| < |s| ==> !p(s[|r|])
  {
    if s == [] || !p(s[0]) then [] else [s[0]] + TakeWhile(s[1..], p)
  }

  /** `s` without its longest prefix of characters that do not satisfy `p`. */
  function SkipUntil(s: string, p: char -> bool): (r: string)
    ensures |r| <= |s| && r == s[|s| - |r|..]
    ensures r != [] ==> p(r[0])
  {
    if s == [] || p(s[0]) then s else SkipUntil(s[1..], p)
  }

  /** A run: non-empty, and every character satisfies `p`. */
  predicate IsRun(w: string, p: char -> bool)
  {
    w != [] && forall i :: 0 <= i < |w| ==> p(w[i])
  }

  /** The maximal runs of characters satisfying `p`, in order. */
  function Runs(s: string, p: char -> bool): (r: seq<string>)
    ensures forall k :: 0 <= k < |r| ==> IsRun(r[k], p)
    decreases |s|
  {
    var t := SkipUntil(s, p);
    if t == [] then []
    else
      var w := TakeWhile(t, p);
      var rest := Runs(t[|w|..], p);
      ConsRun(w, rest, p);
      [w] + rest
  }

  lemma {:induction false} ConsRun(w: string, rest: seq<string>, p: char -> bool)
    requires w != [] && forall i :: 0 <= i < |w| ==> p(w[i])
    requires forall k :: 0 <= k < |rest| ==> IsRun(rest[k], p)
    ensures forall k :: 0 <= k < |[w] + rest| ==> IsRun(([w] + rest)[k], p)
  {
    forall k | 0 <= k < |[w] + rest|
      ensures IsRun(([w] + rest)[k], p)
    {
      if k > 0 { assert ([w] + rest)[k] == rest[k - 1]; }
    }
  }

  /** `str.split()` with no argument. */
  function Words(s: string): seq<string>
  {
    Runs(s, NotSpace)
  }

  /** `sep.join(ws)` */
  function Join(ws: seq<string>, sep: string): string
  {
    if ws == [] then []
    else if |ws| == 1 then ws[0]
    else ws[0] + sep + Join(ws[1..], sep)
  }

  /** `' '.join(s.split())`: whitespace runs become one space, none at either end. */
  function Collapse(s: string): string
  {
    Join(Words(s), " ")
  }

  /**
   * The shape of a collapsed string: its only whitespace is single spaces,
   * each with a non-space character on both sides.
   */
  predicate Collapsed(t: string)
  {
    forall i :: 0 <= i < |t| && IsSpace(t[i]) ==>
      t[i] == ' ' && 0 < i < |t| - 1 && !IsSpace(t[i - 1]) && !IsSpace(t[i + 1])
  }

  lemma {:induction false} JoinOfWordsIsCollapsed(ws: seq<string>)
    requires forall k :: 0 <= k < |ws| ==> IsRun(ws[k], NotSpace)
    ensures Collapsed(Join(ws, " "))
    ensures ws != [] ==> Join(ws, " ") != []
  {
    if |ws| > 1 {
      JoinOfWordsIsCollapsed(ws[1..]);
      var w, rest := ws[0], Join(ws[1..], " ");
      var t := w + " " + rest;
      assert Join(ws, " ") == t;
      assert IsRun(w, NotSpace);
      assert forall i :: 0 <= i < |w| ==> t[i] == w[i] && !IsSpace(t[i]);
      forall i | 0 <= i < |t| && IsSpace(t[i])
        ensures t[i] == ' ' && 0 < i < |t| - 1 && !IsSpace(t[i - 1]) && !IsSpace(t[i + 1])
      {
        if i == |w| {
          assert t[i - 1] == w[|w| - 1];
          assert t[i + 1] == rest[0];
        } else {
          assert t[i] == rest[i - |w| - 1];
          if i - 1 > |w| {
            assert t[i - 1] == rest[i - 1 - |w| - 1];
          }
        }
      }
    } else if |ws| == 1 {
      assert Join(ws, " ") == ws[0];
    }
  }

  /** Collapsing leaves only single inner spaces, and is empty exactly when `s` has no words. */
  lemma {:induction false} CollapseShape(s: string)
    ensures Collapsed(Collapse(s))
    ensures Collapse(s) == [] <==> Words(s) == []
  {
    JoinOfWordsIsCollapsed(Words(s));
  }

  lemma {:induction false} SkipUntilOnRun(w: string, rest: string, p: char -> bool)
    requires IsRun(w, p)
    ensures SkipUntil(w + rest, p) == w + rest
  {
    assert (w + rest)[0] == w[0];
  }

  lemma {:induction false} TakeWhileOnRun(w: string, c: char, rest: string, p: char -> bool)
    requires IsRun(w, p) && !p(c)
    ensures TakeWhile(w + [c] + rest, p) == w
    decreases |w|
  {
    var s := w + [c] + rest;
    assert s[0] == w[0];
    if |w| == 1 {
      assert s[1..] == [c] + rest;
    } else {
      assert s[1..] == w[1..] + [c] + rest;
      TakeWhileOnRun(w[1..], c, rest, p);
    }
  }

  lemma {:induction false} TakeWhileWhole(w: string, p: char -> bool)
    requires IsRun(w, p)
    ensures TakeWhile(w, p) == w
    decreases |w|
  {
    if |w| > 1 {
      TakeWhileWhole(w[1..], p);
    }
  }

  lemma {:induction false} RunsOfRun(w: string, p: char -> bool)
    requires IsRun(w, p)
    ensures Runs(w, p) == [w]
  {
    SkipUntilOnRun(w, [], p);
    assert w + [] == w;
    TakeWhileWhole(w, p);
    assert w[|w|..] == [];
  }

  lemma {:induction false} SkipSeparator(c: char, rest: string, p: char -> bool)
    requires !p(c)
    ensures Runs([c] + rest, p) == Runs(rest, p)
  {
    assert ([c] + rest)[1..] == rest;
    assert SkipUntil([c] + rest, p) == SkipUntil(rest, p);
  }

  lemma {:induction false} RunsOfRunThenSeparator(w: string, c: char, rest: string, p: char -> bool)
    requires IsRun(w, p) && !p(c)
    ensures Runs(w + [c] + rest, p) == [w] + Runs(rest, p)
  {
    var s := w + [c] + rest;
    SkipUntilOnRun(w, [c] + rest, p);
    assert w + ([c] + rest) == s;
    TakeWhileOnRun(w, c, rest, p);
    assert s[|w|..] == [c] + rest;
    SkipSeparator(c, rest, p);
  }

  /** Splitting a space-joined list of words gives the words back. */
  lemma {:induction false} WordsOfJoin(ws: seq<string>)
    requires forall k :: 0 <= k < |ws| ==> IsRun(ws[k], NotSpace)
    ensures Words(Join(ws, " ")) == ws
  {
    if ws == [] {
    } else if |ws| == 1 {
      RunsOfRun(ws[0], NotSpace);
    } else {
      assert Join(ws, " ") == ws[0] + [' '] + Join(ws[1..], " ");
      RunsOfRunThenSeparator(ws[0], ' ', Join(ws[1..], " "), NotSpace);
      WordsOfJoin(ws[1..]);
    }
  }

  /** `' '.join(s.split())` is idempotent. */
  lemma CollapseIdempotent(s: string)
    ensures Collapse(Collapse(s)) == Collapse(s)
  {
    WordsOfJoin(Words(s));
  }

  /** `s.strip()` */
  function Strip(s: string): (r: string)
    ensures |r| <= |s|
    ensures r != [] ==> !IsSpace(r[0]) && !IsSpace(r[|r| - 1])
    decreases |s|
  {
    if s == [] then []
    else if IsSpace(s[0]) then Strip(s[1..])
    else if IsSpace(s[|s| - 1]) then Strip(s[..|s| - 1])
    else s
  }

  // ---------------------------------------------------------------------------
  // Numbers
  // ---------------------------------------------------------------------------

  function DigitChar(d: nat): char
    requires d < 10
  {
    ('0' as int + d) as char
  }

  /** `str(n)` for a natural number. */
  function NatToString(n: nat): (r: string)
    ensures r != []
    ensures forall i :: 0 <= i < |r| ==> '0' <= r[i] <= '9'
  {
    if n < 10 then [DigitChar(n)] else NatToString(n / 10) + [DigitChar(n % 10)]
  }

  /** `str(i)` for an integer. */
  function IntToString(i: int): string
  {
    if i < 0 then "-" + NatToString(-i) else NatToString(i)
  }
}
