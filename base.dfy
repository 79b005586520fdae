/**
 * Small wrapper types shared by every module of the model, and the facts
 * about sequence slices the loops of the model step through.
 *
 * `Outcome` stands for a Python call that either returns a value or raises an
 * exception; `Raised` carries the text that `str(e)` would give.
 */
module Base {

  datatype Option<+T> = None | Some(value: T)

  datatype Outcome<+T> = Ok(value: T) | Raised(message: string)

  // Sequence slices, one step at a time

  lemma PrefixStep<T>(s: seq<T>, i: nat)
    requires i <= |s|
    ensures i < |s| ==> s[..i + 1][..i] == s[..i] && s[..i + 1][i] == s[i]
    ensures i == |s| ==> s[..i] == s
  {
  }

  lemma SnocSlice<T>(a: seq<T>, b: seq<T>, j: nat)
    requires j < |b|
    ensures a + b[..j] + [b[j]] == a + b[..j + 1]
  {
  }

  lemma SplitSlice<T>(a: seq<T>, b: seq<T>, j: nat)
    requires j <= |b|
    ensures a + b[..j] + b[j..] == a + b
    ensures j == 0 ==> a + b[..j] == a
    ensures j == |b| ==> a + b[..j] == a + b
  {
  }

  lemma SuffixStep<T>(s: seq<T>, j: nat)
    requires j < |s|
    ensures s[j..] != [] && s[j..][0] == s[j] && s[j..][1..] == s[j + 1..]
  {
  }

  lemma AppendAssoc<T>(a: seq<T>, b: seq<T>, c: seq<T>)
    ensures a + (b + c) == (a + b) + c
  {
  }
}
