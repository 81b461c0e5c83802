/** Ordinal comparison, and why sorted permutations are unique when the order tells all elements apart. */
module Sorting {

  ghost predicate StrictlySorted<T(!new)>(less: (T, T) -> bool, s: seq<T>) {
    forall i, j | 0 <= i < j < |s| :: less(s[i], s[j])
  }

  ghost predicate AsymmetricOn<T(!new)>(less: (T, T) -> bool, s: seq<T>) {
    forall x, y | x in s && y in s :: !(less(x, y) && less(y, x))
  }

  lemma SameHead<T(!new)>(less: (T, T) -> bool, a: seq<T>, b: seq<T>)
    requires StrictlySorted(less, a) && StrictlySorted(less, b) && multiset(a) == multiset(b) && a != []
    requires AsymmetricOn(less, a)
    ensures b != [] && a[0] == b[0]
  {
    assert a[0] in multiset(a);
    assert a[0] in b;
    assert b[0] in multiset(b);
    assert b[0] in a;
    var i, j :| 0 <= i < |a| && a[i] == b[0] && 0 <= j < |b| && b[j] == a[0];
  }

  lemma TailSorted<T(!new)>(less: (T, T) -> bool, a: seq<T>)
    requires StrictlySorted(less, a) && a != []
    ensures StrictlySorted(less, a[1..]) && multiset(a[1..]) == multiset(a) - multiset{a[0]}
    ensures AsymmetricOn(less, a) ==> AsymmetricOn(less, a[1..])
  {
    assert a == [a[0]] + a[1..];
    assert forall x | x in a[1..] :: x in a;
  }

  lemma NothingInside<T>(s: seq<T>)
    requires multiset(s) == multiset{}
    ensures s == []
  {
    assert |s| == |multiset(s)|;
  }

  lemma Rejoin<T>(a: seq<T>, b: seq<T>)
    requires a != [] && b != [] && a[0] == b[0] && a[1..] == b[1..]
    ensures a == b
  {
    assert a == [a[0]] + a[1..] && b == [b[0]] + b[1..];
  }

  lemma {:induction false} SortedIsUnique<T(!new)>(less: (T, T) -> bool, a: seq<T>, b: seq<T>)
    requires StrictlySorted(less, a) && StrictlySorted(less, b) && multiset(a) == multiset(b)
    requires AsymmetricOn(less, a)
    ensures a == b
  {
    if a == [] {
      NothingInside(b);
    } else {
      SameHead(less, a, b);
      TailSorted(less, a);
      TailSorted(less, b);
      SortedIsUnique(less, a[1..], b[1..]);
      Rejoin(a, b);
    }
  }

  // An element that occurs once is at one place only.
  lemma OnceOnly<T>(s: seq<T>, i: nat, j: nat)
    requires i < j < |s| && multiset(s)[s[i]] == 1
    ensures s[i] != s[j]
  {
    assert s == s[..j] + [s[j]] + s[j + 1..];
    assert s[i] in multiset(s[..j]);
  }

  // The sign of a comparison.
  function Sign(x: int, y: int): int {
    if x < y then -1 else if x > y then 1 else 0
  }

  // string.CompareOrdinal on code units; also the order of table keys
  function CompareOrdinal(x: seq<int>, y: seq<int>): int {
    if x == [] && y == [] then 0
    else if x == [] then -1
    else if y == [] then 1
    else if x[0] != y[0] then Sign(x[0], y[0])
    else CompareOrdinal(x[1..], y[1..])
  }

  lemma {:induction false} OrdinalLaws(x: seq<int>, y: seq<int>, z: seq<int>)
    ensures CompareOrdinal(x, y) == -CompareOrdinal(y, x)
    ensures CompareOrdinal(x, y) == 0 <==> x == y
    ensures CompareOrdinal(x, y) < 0 && CompareOrdinal(y, z) < 0 ==> CompareOrdinal(x, z) < 0
    decreases |x|
  {
    if x != [] && y != [] {
      OrdinalLaws(x[1..], y[1..], if z == [] then z else z[1..]);
      assert x == [x[0]] + x[1..] && y == [y[0]] + y[1..];
    }
  }

  /** Ordinal order: the first code unit that differs decides, and a text comes before its extensions. */
  lemma {:induction false} OrdinalDecides(p: seq<int>, a: int, u: seq<int>, b: int, v: seq<int>)
    ensures a < b ==> CompareOrdinal(p + [a] + u, p + [b] + v) < 0
    ensures CompareOrdinal(p, p + [b] + v) < 0
    decreases |p|
  {
    if p == [] {
    } else {
      OrdinalDecides(p[1..], a, u, b, v);
      assert (p + [a] + u)[1..] == p[1..] + [a] + u && (p + [b] + v)[1..] == p[1..] + [b] + v;
    }
  }
}
