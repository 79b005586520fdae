/**
 * How CPython binds `handler(**params)` to a bound method's parameters:
 * the dictionary's keys in order, then the required parameters nobody gave.
 * The messages are those of CPython 3.11, which names the method by its
 * qualified name (`EnhancedFileAgent._open_file`).
 */
module Binding {
  import opened Base
  import opened Text
  import opened Values

  /** A parameter after `self`: one without a default is required. */
  datatype Param = Required(name: string) | Optional(name: string, default: Value)

  /** `def qualname(self, <params>[, **kwargs])` */
  datatype Signature = Signature(qualname: string, params: seq<Param>, varKw: bool)

  /** The value of every declared parameter, in declaration order, and the keywords `**kwargs` collected. */
  datatype Bound = Bound(args: Entries, extra: Entries)

  function Names(ps: seq<Param>): (r: seq<string>)
    ensures |r| == |ps| && forall i :: 0 <= i < |ps| ==> r[i] == ps[i].name
  {
    if ps == [] then [] else [ps[0].name] + Names(ps[1..])
  }

  /** What a keyword argument `k` is to the signature: accepted, or the reason it is refused. */
  function KeyError(sig: Signature, k: string): Option<string>
  {
    if k == "self" then Some(sig.qualname + "() got multiple values for argument 'self'")
    else if k !in Names(sig.params) && !sig.varKw then
      Some(sig.qualname + "() got an unexpected keyword argument '" + k + "'")
    else None
  }

  /** The refusal of the first refused key, in the dictionary's order. */
  function FirstKeyError(sig: Signature, e: Entries): (r: Option<string>)
    ensures r.None? <==> forall i :: 0 <= i < |e| ==> KeyError(sig, e[i].0).None?
  {
    if e == [] then None
    else if KeyError(sig, e[0].0).Some? then KeyError(sig, e[0].0)
    else
      assert forall i :: 1 <= i < |e| ==> e[i] == e[1..][i - 1];
      FirstKeyError(sig, e[1..])
  }

  /** The required parameters `e` does not give, in declaration order. */
  function Missing(ps: seq<Param>, e: Entries): (r: seq<string>)
    ensures forall n :: n in r <==> exists i :: 0 <= i < |ps| && ps[i].Required? && ps[i].name == n && !HasKey(e, n)
  {
    if ps == [] then []
    else
      var rest := Missing(ps[1..], e);
      assert forall i :: 1 <= i < |ps| ==> ps[i] == ps[1..][i - 1];
      if ps[0].Required? && !HasKey(e, ps[0].name) then [ps[0].name] + rest else rest
  }

  /** `'a'`, `'a' and 'b'`, `'a', 'b', and 'c'` */
  function QuotedList(ns: seq<string>): string
  {
    if ns == [] then ""
    else if |ns| == 1 then "'" + ns[0] + "'"
    else if |ns| == 2 then "'" + ns[0] + "' and '" + ns[1] + "'"
    else "'" + ns[0] + "', " + QuotedList(ns[1..])
  }

  function MissingMessage(qualname: string, ns: seq<string>): string
  {
    qualname + "() missing " + NatToString(|ns|) + " required positional argument"
    + (if |ns| == 1 then "" else "s") + ": " + QuotedList(ns)
  }

  /** Each declared parameter's value: the one given, or its default. */
  function BindParams(ps: seq<Param>, e: Entries): (r: Entries)
    requires forall i :: 0 <= i < |ps| ==> ps[i].Required? ==> HasKey(e, ps[i].name)
    ensures |r| == |ps|
    ensures forall i :: 0 <= i < |ps| ==> r[i].0 == ps[i].name
    ensures forall i :: 0 <= i < |ps| && HasKey(e, ps[i].name) ==> r[i].1 == Lookup(e, ps[i].name).value
    ensures forall i :: 0 <= i < |ps| && !HasKey(e, ps[i].name) ==> r[i].1 == ps[i].default
  {
    if ps == [] then []
    else
      var p := ps[0];
      var v := if HasKey(e, p.name) then Lookup(e, p.name).value else p.default;
      assert forall i :: 1 <= i < |ps| ==> ps[i] == ps[1..][i - 1];
      [(p.name, v)] + BindParams(ps[1..], e)
  }

  /** The keywords no parameter takes, which `**kwargs` collects in order. */
  function Extra(names: seq<string>, e: Entries): (r: Entries)
    ensures forall i :: 0 <= i < |r| ==> r[i] in e && r[i].0 !in names
  {
    if e == [] then []
    else
      var rest := Extra(names, e[1..]);
      assert forall x :: x in rest ==> x in e;
      if e[0].0 in names then rest else [e[0]] + rest
  }

  /**
   * `f(**kwargs)` for a method `f` of module `moduleName` with signature `sig`:
   * a non-mapping, a refused key, or a missing required parameter raises.
   */
  function Bind(sig: Signature, moduleName: string, kwargs: Value): (r: Outcome<Bound>)
    ensures r.Ok? ==> |r.value.args| == |sig.params|
    ensures r.Ok? ==> forall i :: 0 <= i < |sig.params| ==> r.value.args[i].0 == sig.params[i].name
  {
    if !kwargs.Dict? then
      Raised(moduleName + "." + sig.qualname + "() argument after ** must be a mapping, not " + TypeName(kwargs))
    else
      var e := kwargs.entries;
      match FirstKeyError(sig, e)
      case Some(m) => Raised(m)
      case None =>
        var missing := Missing(sig.params, e);
        if missing != [] then Raised(MissingMessage(sig.qualname, missing))
        else Ok(Bound(BindParams(sig.params, e), Extra(Names(sig.params), e)))
  }

  // ---------------------------------------------------------------------------
  // Properties
  // ---------------------------------------------------------------------------

  /** A call binds exactly when it passes a dict whose every key is accepted and which gives every required parameter. */
  lemma {:induction false} BindSucceedsIff(sig: Signature, moduleName: string, kwargs: Value)
    ensures Bind(sig, moduleName, kwargs).Ok? <==>
      kwargs.Dict? &&
      (forall i :: 0 <= i < |kwargs.entries| ==> KeyError(sig, kwargs.entries[i].0).None?) &&
      (forall i :: 0 <= i < |sig.params| ==> sig.params[i].Required? ==> HasKey(kwargs.entries, sig.params[i].name))
  {
    if kwargs.Dict? && FirstKeyError(sig, kwargs.entries).None? {
      var missing := Missing(sig.params, kwargs.entries);
      if missing != [] {
        assert missing[0] in missing;
      }
    }
  }

  /** A bound parameter holds the value passed for it, or its default when none was passed. */
  lemma {:induction false} BoundValues(sig: Signature, moduleName: string, kwargs: Value, i: nat)
    requires Bind(sig, moduleName, kwargs).Ok? && i < |sig.params|
    ensures kwargs.Dict?
    ensures var v := Bind(sig, moduleName, kwargs).value.args[i].1;
      if HasKey(kwargs.entries, sig.params[i].name) then v == Lookup(kwargs.entries, sig.params[i].name).value
      else sig.params[i].Optional? && v == sig.params[i].default
  {
    BindSucceedsIff(sig, moduleName, kwargs);
  }

  /** `self` can never be passed by keyword to a bound method. */
  lemma {:induction false} SelfKeywordRefused(sig: Signature, moduleName: string, e: Entries)
    requires HasKey(e, "self")
    ensures Bind(sig, moduleName, Dict(e)).Raised?
  {
    var i :| 0 <= i < |e| && e[i].0 == "self";
    BindSucceedsIff(sig, moduleName, Dict(e));
    assert KeyError(sig, e[i].0).Some?;
  }

  /** Everything passed reaches the method when it takes `**kwargs`: declared names as parameters, the rest collected. */
  lemma {:induction false} VarKwCollectsRest(sig: Signature, moduleName: string, e: Entries, k: string)
    requires Bind(sig, moduleName, Dict(e)).Ok? && sig.varKw
    requires HasKey(e, k) && k !in Names(sig.params)
    ensures exists x :: x in Bind(sig, moduleName, Dict(e)).value.extra && x.0 == k
  {
    var i :| 0 <= i < |e| && e[i].0 == k;
    ExtraKeeps(Names(sig.params), e, i);
  }

  /** With no declared parameters, `**kwargs` collects every keyword, in order. */
  lemma {:induction false} ExtraOfNone(e: Entries)
    ensures Extra([], e) == e
  {
    if e != [] {
      ExtraOfNone(e[1..]);
      assert [e[0]] + e[1..] == e;
    }
  }

  lemma {:induction false} ExtraKeeps(names: seq<string>, e: Entries, i: nat)
    requires i < |e| && e[i].0 !in names
    ensures e[i] in Extra(names, e)
  {
    if i > 0 {
      ExtraKeeps(names, e[1..], i - 1);
    }
  }
}
