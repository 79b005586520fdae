/**
 * `ConversationMemory._calculate_similarity`: how close the terms of a query
 * are to the terms of a file name, as a weighted sum of three scores.
 *
 *   exact    = |set(q) & set(f)| / len(q)
 *   partial  = min(0.5 * (pairs of terms where one contains the other) / len(q), 1.0)
 *   sequence = SequenceMatcher(None, ' '.join(q), ' '.join(f)).ratio()
 *   score    = 0.4 * exact + 0.3 * partial + 0.3 * sequence
 *
 * `SequenceMatcher` is not modelled: its ratio is a parameter.
 */
module Similarity {
  import opened Text

  type Ratio = (string, string) -> real

  /** `re.findall(r'\w+', s.lower())` */
  function Terms(s: string): seq<string>
  {
    Runs(Lower(s), IsWordChar)
  }

  /** `set(q)` */
  function ToSet(q: seq<string>): (r: set<string>)
    ensures forall t :: t in r <==> t in q
    ensures |r| <= |q|
  {
    if q == [] then {} else {q[0]} + ToSet(q[1..])
  }

  /** Two terms match when one is a substring of the other. */
  predicate Related(a: string, b: string)
  {
    IsSubstring(a, b) || IsSubstring(b, a)
  }

  /** How many terms of `f` are related to `t`. */
  function RowCount(t: string, f: seq<string>): (n: nat)
    ensures n <= |f|
  {
    if f == [] then 0
    else RowCount(t, f[..|f| - 1]) + (if Related(t, f[|f| - 1]) then 1 else 0)
  }

  /** How many pairs (query term, file term) are related. */
  function PairCount(q: seq<string>, f: seq<string>): (n: nat)
    ensures n <= |q| * |f|
  {
    if q == [] then 0
    else PairCount(q[..|q| - 1], f) + RowCount(q[|q| - 1], f)
  }

  function ExactScore(q: seq<string>, f: seq<string>): real
    requires q != []
  {
    |ToSet(q) * ToSet(f)| as real / |q| as real
  }

  function PartialScore(q: seq<string>, f: seq<string>): real
    requires q != []
  {
    var p := 0.5 * PairCount(q, f) as real / |q| as real;
    if p < 1.0 then p else 1.0
  }

  /** The score of file-name terms `f` against query terms `q`. */
  function Similarity(q: seq<string>, f: seq<string>, ratio: Ratio): real
  {
    if q == [] || f == [] then 0.0
    else 0.4 * ExactScore(q, f) + 0.3 * PartialScore(q, f) + 0.3 * ratio(Join(q, " "), Join(f, " "))
  }

  /** The scorer as the source runs it: a double loop that adds 0.5 for every related pair. */
  method CalculateSimilarity(q: seq<string>, f: seq<string>, ratio: Ratio) returns (score: real)
    ensures score == Similarity(q, f, ratio)
  {
    if q == [] || f == [] {
      return 0.0;
    }
    var exact := |ToSet(q) * ToSet(f)| as real / |q| as real;
    var partial := 0.0;
    var i := 0;
    while i < |q|
      invariant 0 <= i <= |q|
      invariant partial == 0.5 * PairCount(q[..i], f) as real
    {
      var j := 0;
      while j < |f|
        invariant 0 <= j <= |f|
        invariant partial == 0.5 * (PairCount(q[..i], f) + RowCount(q[i], f[..j])) as real
      {
        if Related(q[i], f[j]) {
          partial := partial + 0.5;
        }
        assert f[..j + 1][..j] == f[..j];
        j := j + 1;
      }
      assert f[..j] == f;
      assert q[..i + 1][..i] == q[..i];
      i := i + 1;
    }
    assert q[..i] == q;
    partial := partial / |q| as real;
    if partial > 1.0 {
      partial := 1.0;
    }
    var sequence := ratio(Join(q, " "), Join(f, " "));
    score := exact * 0.4 + partial * 0.3 + sequence * 0.3;
  }

  // ---------------------------------------------------------------------------
  // Properties
  // ---------------------------------------------------------------------------

  lemma {:induction false} SubsetCard(a: set<string>, b: set<string>)
    requires a <= b
    ensures |a| <= |b|
    decreases |a|
  {
    if a != {} {
      var x :| x in a;
      SubsetCard(a - {x}, b - {x});
    }
  }

  /** A fraction whose numerator is at most its positive denominator lies in [0, 1]. */
  lemma {:induction false} FractionBounds(n: real, d: real)
    requires 0.0 <= n <= d && d > 0.0
    ensures 0.0 <= n / d <= 1.0
  {
    assert n / d * d == n;
  }

  lemma {:induction false} ExactScoreBounds(q: seq<string>, f: seq<string>)
    requires q != []
    ensures 0.0 <= ExactScore(q, f) <= 1.0
  {
    SubsetCard(ToSet(q) * ToSet(f), ToSet(q));
    FractionBounds(|ToSet(q) * ToSet(f)| as real, |q| as real);
  }

  lemma {:induction false} PartialScoreBounds(q: seq<string>, f: seq<string>)
    requires q != []
    ensures 0.0 <= PartialScore(q, f) <= 1.0
  {
    var n, d := 0.5 * PairCount(q, f) as real, |q| as real;
    assert 0.0 <= n;
    assert 0.0 <= n / d by {
      if n > 0.0 { assert n / d * d == n; }
    }
  }

  /** Each of the three parts lies in [0, 1], so the score does whenever the ratio does. */
  lemma {:induction false} SimilarityBounds(q: seq<string>, f: seq<string>, ratio: Ratio)
    requires 0.0 <= ratio(Join(q, " "), Join(f, " ")) <= 1.0
    ensures 0.0 <= Similarity(q, f, ratio) <= 1.0
  {
    if q != [] && f != [] {
      ExactScoreBounds(q, f);
      PartialScoreBounds(q, f);
    }
  }

  /** A single term scored against itself: exact 1, partial only 0.5, sequence 1, so 0.85 and not 1. */
  lemma {:induction false} SingleIdenticalTerm(t: string, ratio: Ratio)
    requires ratio(t, t) == 1.0
    ensures Similarity([t], [t], ratio) == 0.85
  {
    assert [t][..0] == [];
    SubstringOfSelf(t);
    assert RowCount(t, [t]) == 1;
    assert PairCount([t], [t]) == 1;
    assert ToSet([t]) * ToSet([t]) == {t};
  }

  /** With no related pair the exact and partial scores vanish and only the sequence ratio counts. */
  lemma {:induction false} UnrelatedTerms(q: seq<string>, f: seq<string>, ratio: Ratio)
    requires q != [] && f != []
    requires forall a, b :: a in q && b in f ==> !Related(a, b)
    ensures Similarity(q, f, ratio) == 0.3 * ratio(Join(q, " "), Join(f, " "))
  {
    NoCommonTerms(q, f);
    NoRelatedPairs(q, f);
    ExactScoreZero(q, f);
    PartialScoreZero(q, f);
  }

  lemma {:induction false} ExactScoreZero(q: seq<string>, f: seq<string>)
    requires q != [] && ToSet(q) * ToSet(f) == {}
    ensures ExactScore(q, f) == 0.0
  {
    assert |ToSet(q) * ToSet(f)| == 0;
  }

  lemma {:induction false} PartialScoreZero(q: seq<string>, f: seq<string>)
    requires q != [] && PairCount(q, f) == 0
    ensures PartialScore(q, f) == 0.0
  {
  }

  /** Terms that are not related to each other are in particular not equal. */
  lemma {:induction false} NoCommonTerms(q: seq<string>, f: seq<string>)
    requires forall a, b :: a in q && b in f ==> !Related(a, b)
    ensures ToSet(q) * ToSet(f) == {}
  {
    if t :| t in ToSet(q) * ToSet(f) {
      SubstringOfSelf(t);
      assert Related(t, t);
    }
  }

  lemma {:induction false} NoRelatedPairs(q: seq<string>, f: seq<string>)
    requires forall a, b :: a in q && b in f ==> !Related(a, b)
    ensures PairCount(q, f) == 0
  {
    if q != [] {
      NoRelatedPairs(q[..|q| - 1], f);
      NoRelatedRow(q[|q| - 1], f);
    }
  }

  lemma {:induction false} NoRelatedRow(t: string, f: seq<string>)
    requires forall b :: b in f ==> !Related(t, b)
    ensures RowCount(t, f) == 0
  {
    if f != [] {
      NoRelatedRow(t, f[..|f| - 1]);
    }
  }
}
