/**
 * Python values as the agent sees them: whatever `json.loads` gives back for
 * the model's reply, and the dictionaries the handlers build as results.
 *
 * A dictionary is a sequence of (key, value) pairs in insertion order, which
 * is the order Python iterates and prints it in. Operations that can raise in
 * Python return a `Base.Outcome`, with the message CPython 3.11 would put in
 * the exception.
 */
module Values {
  import opened Base
  import opened Text

  datatype Value =
    | Null
    | Bool(b: bool)
    | Int(i: int)
    | Float(r: real, text: string)   // `text` is the float's `repr`
    | Str(s: string)
    | List(items: seq<Value>)
    | Dict(entries: seq<(string, Value)>)

  type Entries = seq<(string, Value)>

  // ---------------------------------------------------------------------------
  // Dictionaries, as sequences of (key, value) pairs in insertion order
  // ---------------------------------------------------------------------------

  function Keys<V>(e: seq<(string, V)>): (r: seq<string>)
    ensures |r| == |e| && forall i :: 0 <= i < |e| ==> r[i] == e[i].0
  {
    if e == [] then [] else [e[0].0] + Keys(e[1..])
  }

  /** A Python dict never holds the same key twice. */
  predicate UniqueKeys<V>(e: seq<(string, V)>)
  {
    forall i, j :: 0 <= i < j < |e| ==> e[i].0 != e[j].0
  }

  /** `d.get(k)`: the value stored under `k`, if any. */
  function Lookup<V>(e: seq<(string, V)>, k: string): (r: Option<V>)
    ensures r.Some? <==> exists i :: 0 <= i < |e| && e[i].0 == k
    ensures r.Some? ==> exists i :: 0 <= i < |e| && e[i] == (k, r.value)
  {
    if e == [] then None
    else if e[0].0 == k then assert e[0] == (k, e[0].1); Some(e[0].1)
    else
      var r := Lookup(e[1..], k);
      assert forall i :: 0 < i < |e| ==> e[i] == e[1..][i - 1];
      r
  }

  predicate HasKey<V>(e: seq<(string, V)>, k: string)
  {
    Lookup(e, k).Some?
  }

  /** `d.get(k, default)` on a dictionary. */
  function Get(e: seq<(string, Value)>, k: string, default: Value): Value
  {
    match Lookup(e, k)
    case Some(v) => v
    case None => default
  }

  /** `d[k] = v`: an existing key keeps its position, a new key goes last. */
  function Put<V>(e: seq<(string, V)>, k: string, v: V): (r: seq<(string, V)>)
    ensures Lookup(r, k) == Some(v)
    ensures forall j :: j != k ==> Lookup(r, j) == Lookup(e, j)
  {
    if e == [] then [(k, v)]
    else if e[0].0 == k then [(k, v)] + e[1..]
    else
      var r := [e[0]] + Put(e[1..], k, v);
      assert r[1..] == Put(e[1..], k, v);
      r
  }

  /** The keys after `d[k] = v`: the same ones in the same order, with `k` last if it is new. */
  lemma {:induction false} PutKeys<V>(e: seq<(string, V)>, k: string, v: V)
    ensures HasKey(e, k) ==> Keys(Put(e, k, v)) == Keys(e)
    ensures !HasKey(e, k) ==> Keys(Put(e, k, v)) == Keys(e) + [k]
  {
    if e != [] && e[0].0 != k {
      PutKeys(e[1..], k, v);
      var rest := Put(e[1..], k, v);
      var r := [e[0]] + rest;
      assert r[1..] == rest;
      assert Keys(r) == [e[0].0] + Keys(rest);
      assert HasKey(e, k) == HasKey(e[1..], k);
      assert Keys(e) == [e[0].0] + Keys(e[1..]);
    } else if e != [] {
      var r := [(k, v)] + e[1..];
      assert r[1..] == e[1..];
    }
  }

  /** `d.pop(k)` on a key that is present: removes it, the others keep their order. */
  function Remove<V>(e: seq<(string, V)>, k: string): (r: seq<(string, V)>)
    ensures forall j :: j != k ==> Lookup(r, j) == Lookup(e, j)
    ensures UniqueKeys(e) && HasKey(e, k) ==> Keys(r) == RemoveKey(Keys(e), k)
    ensures |r| <= |e|
  {
    if e == [] then []
    else if e[0].0 == k then e[1..]
    else
      var r := [e[0]] + Remove(e[1..], k);
      assert r[1..] == Remove(e[1..], k);
      r
  }

  /** `ks` without the first occurrence of `k`. */
  function RemoveKey(ks: seq<string>, k: string): seq<string>
  {
    if ks == [] then [] else if ks[0] == k then ks[1..] else [ks[0]] + RemoveKey(ks[1..], k)
  }

  lemma {:induction false} PutKeepsKeysUnique<V>(e: seq<(string, V)>, k: string, v: V)
    requires UniqueKeys(e)
    ensures UniqueKeys(Put(e, k, v))
  {
    var r := Put(e, k, v);
    PutKeys(e, k, v);
    var ks, es := Keys(r), Keys(e);
    forall i, j | 0 <= i < j < |r|
      ensures r[i].0 != r[j].0
    {
      assert r[i].0 == ks[i] && r[j].0 == ks[j];
      if j < |e| {
        assert ks[i] == es[i] == e[i].0 && ks[j] == es[j] == e[j].0;
      } else {
        assert !HasKey(e, k) && ks[j] == k && ks[i] == es[i] == e[i].0;
      }
    }
  }

  lemma {:induction false} RemoveKeepsKeysUnique<V>(e: seq<(string, V)>, k: string)
    requires UniqueKeys(e)
    ensures UniqueKeys(Remove(e, k)) && !HasKey(Remove(e, k), k)
  {
    if e == [] {
    } else if e[0].0 == k {
      assert forall i :: 0 <= i < |e[1..]| ==> e[1..][i].0 == e[i + 1].0 != k;
    } else {
      var rest := Remove(e[1..], k);
      assert UniqueKeys(e[1..]) by {
        assert forall i :: 0 <= i < |e[1..]| ==> e[1..][i] == e[i + 1];
      }
      RemoveKeepsKeysUnique(e[1..], k);
      var r := [e[0]] + rest;
      assert r == Remove(e, k);
      assert Lookup(rest, e[0].0) == Lookup(e[1..], e[0].0);
      assert forall i :: 0 <= i < |e[1..]| ==> e[1..][i].0 == e[i + 1].0 != e[0].0;
      assert forall i :: 0 <= i < |rest| ==> rest[i].0 != e[0].0;
      assert forall i :: 0 < i < |r| ==> r[i] == rest[i - 1];
    }
  }

  // ---------------------------------------------------------------------------
  // str() and repr()
  // ---------------------------------------------------------------------------

  function HexDigit(d: nat): char
    requires d < 16
  {
    if d < 10 then ('0' as int + d) as char else ('a' as int + d - 10) as char
  }

  /** The last `width` lower-case hexadecimal digits of `n`. */
  function Hex(n: nat, width: nat): (r: string)
    ensures |r| == width
  {
    if width == 0 then [] else Hex(n / 16, width - 1) + [HexDigit(n % 16)]
  }

  /**
   * The characters `repr` escapes because Python's Unicode database calls
   * them not printable: the control characters, the separators other than
   * the plain space, and the format and private-use characters listed here.
   */
  predicate NonPrintable(c: char)
  {
    var n := c as int;
    n < 0x20 || (0x7F <= n <= 0xA0) || n == 0xAD || n == 0x1680 ||
    (0x2000 <= n <= 0x200F) || (0x2028 <= n <= 0x202F) || (0x205F <= n <= 0x2064) ||
    (0x2066 <= n <= 0x206F) || n == 0x3000 || (0xE000 <= n <= 0xF8FF) || n == 0xFEFF ||
    (0xFFF9 <= n <= 0xFFFB) || n == 0xE0001 || (0xE0020 <= n <= 0xE007F) || 0xF0000 <= n
  }

  /** One character inside the quotes of a string's `repr`. */
  function EscapeChar(c: char, quote: char): (r: string)
    ensures r == [c] <==> !(c == quote || c == '\\' || NonPrintable(c))
  {
    if c == quote || c == '\\' then ['\\', c]
    else if c == '\t' then "\\t"
    else if c == '\n' then "\\n"
    else if c == '\r' then "\\r"
    else if NonPrintable(c) then
      if c as int < 0x100 then "\\x" + Hex(c as int, 2)
      else if c as int < 0x10000 then "\\u" + Hex(c as int, 4)
      else "\\U" + Hex(c as int, 8)
    else [c]
  }

  function EscapeAll(s: string, quote: char): string
  {
    if s == [] then [] else EscapeChar(s[0], quote) + EscapeAll(s[1..], quote)
  }

  /** `repr(s)`: single quotes, or double quotes when `s` holds a single quote and no double quote. */
  function ReprStr(s: string): (r: string)
    ensures |r| >= 2
  {
    var quote := if '\'' in s && '"' !in s then '"' else '\'';
    [quote] + EscapeAll(s, quote) + [quote]
  }

  /** A string with no quote, no backslash and no character that needs escaping is shown as it is, between single quotes. */
  lemma {:induction false} ReprOfPlain(s: string)
    requires forall i :: 0 <= i < |s| ==> !(s[i] in "'\"\\" || NonPrintable(s[i]))
    ensures ReprStr(s) == "'" + s + "'"
  {
    PlainEscapes(s, '\'');
  }

  lemma {:induction false} PlainEscapes(s: string, quote: char)
    requires forall i :: 0 <= i < |s| ==> !(s[i] == quote || s[i] == '\\' || NonPrintable(s[i]))
    ensures EscapeAll(s, quote) == s
  {
    if s != [] {
      PlainEscapes(s[1..], quote);
      assert s == [s[0]] + s[1..];
    }
  }

  /** A string's `repr` is never shorter than the string plus its two quotes. */
  lemma {:induction false} ReprLength(s: string)
    ensures |ReprStr(s)| >= |s| + 2
  {
    var quote := if '\'' in s && '"' !in s then '"' else '\'';
    EscapeLength(s, quote);
  }

  lemma {:induction false} EscapeLength(s: string, quote: char)
    ensures |EscapeAll(s, quote)| >= |s|
  {
    if s != [] {
      EscapeLength(s[1..], quote);
    }
  }

  /** `repr(v)`, which is also `str(v)` for everything but a string. */
  function Repr(v: Value): (r: string)
    ensures r != []
    decreases v, 1
  {
    match v
    case Null => "None"
    case Bool(b) => if b then "True" else "False"
    case Int(i) => IntToString(i)
    case Float(_, text) => if text == [] then "0.0" else text
    case Str(s) => ReprStr(s)
    case List(items) => "[" + ReprItems(items) + "]"
    case Dict(entries) => "{" + ReprEntries(entries) + "}"
  }

  function ReprItems(items: seq<Value>): string
    decreases items, 0
  {
    if items == [] then []
    else if |items| == 1 then Repr(items[0])
    else Repr(items[0]) + ", " + ReprItems(items[1..])
  }

  function ReprEntries(e: Entries): string
    decreases e, 0
  {
    if e == [] then []
    else
      assert e[0].1 < e[0];
      var item := ReprStr(e[0].0) + ": " + Repr(e[0].1);
      if |e| == 1 then item else item + ", " + ReprEntries(e[1..])
  }

  /** `str(v)`, as an f-string interpolation `{v}` renders it. */
  function PyStr(v: Value): string
  {
    if v.Str? then v.s else Repr(v)
  }

  // ---------------------------------------------------------------------------
  // Truthiness, types, and the operations that can raise
  // ---------------------------------------------------------------------------

  /** `bool(v)` */
  predicate Truthy(v: Value)
  {
    match v
    case Null => false
    case Bool(b) => b
    case Int(i) => i != 0
    case Float(r, _) => r != 0.0
    case Str(s) => s != []
    case List(items) => items != []
    case Dict(entries) => entries != []
  }

  /** `type(v).__name__` */
  function TypeName(v: Value): string
  {
    match v
    case Null => "NoneType"
    case Bool(_) => "bool"
    case Int(_) => "int"
    case Float(_, _) => "float"
    case Str(_) => "str"
    case List(_) => "list"
    case Dict(_) => "dict"
  }

  /** The `AttributeError` text for calling a method `v` does not have. */
  function NoAttribute(v: Value, name: string): string
  {
    "'" + TypeName(v) + "' object has no attribute '" + name + "'"
  }

  /** `k in v` for a string `k`: a key of a dict, an element of a list, a substring of a string. */
  function Contains(v: Value, k: string): (r: Outcome<bool>)
    ensures r.Raised? <==> !(v.Dict? || v.List? || v.Str?)
    ensures v.Dict? ==> r == Ok(HasKey(v.entries, k))
  {
    match v
    case Dict(e) => Ok(HasKey(e, k))
    case List(items) => Ok(Str(k) in items)
    case Str(s) => Ok(IsSubstring(k, s))
    case _ => Raised("argument of type '" + TypeName(v) + "' is not iterable")
  }

  /** `v[k]` for a string `k`. */
  function GetItem(v: Value, k: string): (r: Outcome<Value>)
    ensures v.Dict? && HasKey(v.entries, k) ==> r == Ok(Lookup(v.entries, k).value)
    ensures r.Ok? ==> v.Dict? && HasKey(v.entries, k)
  {
    match v
    case Dict(e) => if HasKey(e, k) then Ok(Lookup(e, k).value) else Raised(ReprStr(k))
    case List(_) => Raised("list indices must be integers or slices, not str")
    case Str(_) => Raised("string indices must be integers, not 'str'")
    case _ => Raised("'" + TypeName(v) + "' object is not subscriptable")
  }

  /** `v.get(k, default)` */
  function GetOr(v: Value, k: string, default: Value): (r: Outcome<Value>)
    ensures r.Ok? <==> v.Dict?
    ensures v.Dict? && !HasKey(v.entries, k) ==> r == Ok(default)
    ensures v.Dict? && HasKey(v.entries, k) ==> r == Ok(Lookup(v.entries, k).value)
  {
    match v
    case Dict(e) => Ok(if HasKey(e, k) then Lookup(e, k).value else default)
    case _ => Raised(NoAttribute(v, "get"))
  }

  /** `for x in v`: list items, dict keys, or the characters of a string. */
  function Iterate(v: Value): (r: Outcome<seq<Value>>)
    ensures r.Ok? <==> (v.List? || v.Dict? || v.Str?)
    ensures v.List? ==> r == Ok(v.items)
  {
    match v
    case List(items) => Ok(items)
    case Dict(e) => Ok(seq(|e|, i requires 0 <= i < |e| => Str(e[i].0)))
    case Str(s) => Ok(seq(|s|, i requires 0 <= i < |s| => Str([s[i]])))
    case _ => Raised("'" + TypeName(v) + "' object is not iterable")
  }

  /** Whether `v` can be looked up in a dict; lists and dicts cannot. */
  predicate Hashable(v: Value)
  {
    !(v.List? || v.Dict?)
  }

  function Unhashable(v: Value): string
  {
    "unhashable type: '" + TypeName(v) + "'"
  }

  /** `s.lower()` on a value that may not be a string. */
  function LowerOf(v: Value): (r: Outcome<string>)
    ensures r.Ok? <==> v.Str?
    ensures v.Str? ==> r == Ok(Lower(v.s))
  {
    if v.Str? then Ok(Lower(v.s)) else Raised(NoAttribute(v, "lower"))
  }

  /** The `TypeError` of `os.fspath` and everything built on it (`abspath`, `exists`, `walk`, `basename`). */
  function NotAPath(v: Value): string
  {
    "expected str, bytes or os.PathLike object, not " + TypeName(v)
  }

  /** `x > y` with `x` a float and `y` arbitrary; `bool` compares as an integer. */
  function GreaterThan(x: real, y: Value): (r: Outcome<bool>)
    ensures r.Ok? <==> (y.Int? || y.Bool? || y.Float?)
  {
    match y
    case Int(i) => Ok(x > i as real)
    case Bool(b) => Ok(x > if b then 1.0 else 0.0)
    case Float(f, _) => Ok(x > f)
    case _ => Raised("'>' not supported between instances of 'float' and '" + TypeName(y) + "'")
  }
}
