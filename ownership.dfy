/** The sub-components an effect owns by value (a `Vec` of structs in the
    source) are modelled as objects; owning by value means no two of them are
    the same object. */
module Ownership {

  ghost predicate Distinct<T>(s: seq<T>) {
    forall i, j :: 0 <= i < |s| && 0 <= j < |s| && i != j ==> s[i] != s[j]
  }

  ghost predicate Disjoint<T>(a: seq<T>, b: seq<T>) {
    forall i, j :: 0 <= i < |a| && 0 <= j < |b| ==> a[i] != b[j]
  }

  /** Appending an element found nowhere else keeps a sequence distinct. */
  lemma DistinctSnoc<T>(s: seq<T>, x: T)
    requires Distinct(s) && forall i :: 0 <= i < |s| ==> s[i] != x
    ensures Distinct(s + [x])
  {
    var t := s + [x];
    forall i, j | 0 <= i < |t| && 0 <= j < |t| && i != j
      ensures t[i] != t[j]
    {
      if i < |s| && j < |s| {
        assert t[i] == s[i] && t[j] == s[j];
      }
    }
  }

  /** Appending to each side an element found nowhere else keeps two sequences
      disjoint. */
  lemma DisjointSnoc<T>(a: seq<T>, b: seq<T>, x: T, y: T)
    requires Disjoint(a, b) && x != y
    requires forall i :: 0 <= i < |a| ==> a[i] != y
    requires forall j :: 0 <= j < |b| ==> b[j] != x
    ensures Disjoint(a + [x], b + [y])
  {
    var a', b' := a + [x], b + [y];
    forall i, j | 0 <= i < |a'| && 0 <= j < |b'|
      ensures a'[i] != b'[j]
    {
      if i < |a| && j < |b| {
        assert a'[i] == a[i] && b'[j] == b[j];
      }
    }
  }

  /** No element of `s` occurs twice, stated one element at a time so that a
      proof learns about one element when it asks for it, not about every pair
      at once. */
  ghost predicate Unique<T>(s: seq<T>)
    decreases |s|
  {
    s == [] || (Unique(s[..|s| - 1]) && forall j :: 0 <= j < |s| - 1 ==> s[j] != s[|s| - 1])
  }

  /** In a unique sequence, element `i` is found nowhere else. */
  lemma {:induction false} UniqueAt<T>(s: seq<T>, i: nat)
    requires Unique(s) && i < |s|
    ensures forall j :: 0 <= j < |s| && j != i ==> s[j] != s[i]
    decreases |s|
  {
    var n := |s| - 1;
    var t := s[..n];
    if i < n {
      UniqueAt(t, i);
      assert forall j :: 0 <= j < n ==> t[j] == s[j];
    }
  }

  /** Appending an element found nowhere else keeps a sequence unique. */
  lemma UniqueSnoc<T>(s: seq<T>, x: T)
    requires Unique(s) && forall i :: 0 <= i < |s| ==> s[i] != x
    ensures Unique(s + [x])
  {
    assert (s + [x])[..|s|] == s;
  }
}
