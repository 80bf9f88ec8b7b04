/** Sequences of the same elements, and the one order a sort can give them. */
module Permutations {

  type Relation<!T> = (T, T) -> bool

  function Without<T>(s: seq<T>, k: nat): seq<T>
    requires k < |s|
  {
    s[..k] + s[k + 1..]
  }

  lemma WithoutOne<T>(s: seq<T>, k: nat)
    requires k < |s|
    ensures multiset(s) == multiset(Without(s, k)) + multiset{s[k]}
  {
    assert s == s[..k] + ([s[k]] + s[k + 1..]);
  }

  lemma WithoutBoth<T>(a: seq<T>, b: seq<T>, k: nat, l: nat)
    requires multiset(a) == multiset(b) && k < |a| && l < |b| && a[k] == b[l]
    ensures multiset(Without(a, k)) == multiset(Without(b, l))
  {
    WithoutOne(a, k);
    WithoutOne(b, l);
    assert multiset(Without(a, k)) == multiset(a) - multiset{a[k]};
    assert multiset(Without(b, l)) == multiset(b) - multiset{b[l]};
  }

  lemma IndexIn<T>(a: seq<T>, b: seq<T>, k: nat) returns (l: nat)
    requires multiset(a) == multiset(b) && k < |a|
    ensures l < |b| && b[l] == a[k]
  {
    assert a[k] in multiset(b);
    l :| 0 <= l < |b| && b[l] == a[k];
  }

  lemma SameSize<T>(a: seq<T>, b: seq<T>)
    requires multiset(a) == multiset(b)
    ensures |a| == |b|
  {
    assert |a| == |multiset(a)| && |b| == |multiset(b)|;
  }

  ghost predicate OrderedBy<T(!new)>(s: seq<T>, atMost: Relation<T>) {
    forall i, j | 0 <= i < j < |s| :: atMost(s[i], s[j])
  }

  /** No two elements are alike. */
  ghost predicate Apart<T(!new)>(s: seq<T>, alike: Relation<T>) {
    forall i, j | 0 <= i < j < |s| :: !alike(s[i], s[j])
  }

  ghost predicate Symmetric<T(!new)>(alike: Relation<T>) {
    (forall x :: alike(x, x)) && forall x, y :: alike(x, y) ==> alike(y, x)
  }

  /** Elements that order before one another are alike. */
  ghost predicate Antisymmetric<T(!new)>(atMost: Relation<T>, alike: Relation<T>) {
    forall x, y :: atMost(x, y) && atMost(y, x) ==> alike(x, y)
  }

  lemma CountOnce<T(!new)>(s: seq<T>, k: nat, alike: Relation<T>)
    requires k < |s| && Apart(s, alike) && Symmetric(alike)
    ensures multiset(s)[s[k]] == 1
  {
    assert s == s[..k] + [s[k]] + s[k + 1..];
    forall i | 0 <= i < |s| && i != k ensures s[i] != s[k] {
      assert alike(s[k], s[k]);
      assert if i < k then !alike(s[i], s[k]) else !alike(s[k], s[i]);
    }
    assert s[k] !in s[..k] && s[k] !in s[k + 1..];
  }

  lemma CountTwice<T>(s: seq<T>, i: nat, j: nat)
    requires i < j < |s| && s[i] == s[j]
    ensures multiset(s)[s[i]] >= 2
  {
    assert s == s[..j] + [s[j]] + s[j + 1..];
    assert s[..j][i] == s[i];
  }

  lemma ApartTransfers<T(!new)>(a: seq<T>, b: seq<T>, alike: Relation<T>)
    requires multiset(a) == multiset(b) && Apart(a, alike) && Symmetric(alike)
    ensures Apart(b, alike)
  {
    forall i, j | 0 <= i < j < |b| ensures !alike(b[i], b[j]) {
      var k := IndexIn(b, a, i);
      var l := IndexIn(b, a, j);
      CountOnce(a, k, alike);
      if k == l {
        CountTwice(b, i, j);
      }
    }
  }

  lemma SameLast<T(!new)>(a: seq<T>, b: seq<T>, atMost: Relation<T>, alike: Relation<T>)
    requires OrderedBy(a, atMost) && OrderedBy(b, atMost) && Apart(a, alike)
    requires Antisymmetric(atMost, alike) && multiset(a) == multiset(b) && |a| == |b| > 0
    ensures a[|a| - 1] == b[|b| - 1]
  {
    var n := |a| - 1;
    var k := IndexIn(a, b, n);
    var l := IndexIn(b, a, n);
    if l < n && k < n {
      assert false;
    }
  }

  lemma FrontsAgree<T(!new)>(a: seq<T>, b: seq<T>, n: nat)
    requires |a| == |b| == n + 1 && a[n] == b[n] && multiset(a) == multiset(b)
    ensures multiset(a[..n]) == multiset(b[..n])
  {
    WithoutBoth(a, b, n, n);
    assert Without(a, n) == a[..n] && Without(b, n) == b[..n];
  }

  /** Two ordered sequences of the same elements, no two alike, are the same sequence. */
  lemma {:induction false} OneOrder<T(!new)>(a: seq<T>, b: seq<T>, atMost: Relation<T>, alike: Relation<T>)
    requires OrderedBy(a, atMost) && OrderedBy(b, atMost) && Apart(a, alike)
    requires Antisymmetric(atMost, alike) && multiset(a) == multiset(b)
    ensures a == b
  {
    SameSize(a, b);
    if a == [] {
    } else {
      var n := |a| - 1;
      var frontA, frontB := a[..n], b[..n];
      SameLast(a, b, atMost, alike);
      FrontsAgree(a, b, n);
      OneOrder(frontA, frontB, atMost, alike);
      assert a == frontA + [a[n]] && b == frontB + [b[n]];
    }
  }
}
