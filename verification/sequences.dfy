/** Mapping and sorting of sequences. */
module Sequences {

  function Map<T, U>(s: seq<T>, f: T -> U): (r: seq<U>)
    ensures |r| == |s| && forall i :: 0 <= i < |s| ==> r[i] == f(s[i])
  {
    seq(|s|, i requires 0 <= i < |s| => f(s[i]))
  }

  /** A nonempty sequence is what comes before its last element, and that element. */
  lemma WithLast<T>(s: seq<T>)
    requires s != []
    ensures s[..|s| - 1] + [s[|s| - 1]] == s
  {
  }

  lemma AppendAllButLast<T>(a: seq<T>, b: seq<T>)
    requires b != []
    ensures (a + b)[..|a + b| - 1] == a + b[..|b| - 1] && (a + b)[|a + b| - 1] == b[|b| - 1]
  {
  }

  /** A sequence at one of its elements. */
  lemma AroundOne<T>(s: seq<T>, k: nat)
    requires k < |s|
    ensures s == (s[..k] + [s[k]]) + s[k + 1..]
  {
  }

  /** Taking one element out. */
  lemma WithoutOne<T>(s: seq<T>, k: nat)
    requires k < |s|
    ensures multiset(s[..k] + s[k + 1..]) == multiset(s) - multiset{s[k]}
  {
    assert s == s[..k] + [s[k]] + s[k + 1..];
  }

  lemma MapWithoutOne<T, U>(s: seq<T>, k: nat, f: T -> U)
    requires k < |s|
    ensures multiset(Map(s, f)) == multiset(Map(s[..k] + s[k + 1..], f)) + multiset{f(s[k])}
  {
    var before, after := Map(s[..k], f), Map(s[k + 1..], f);
    assert Map(s, f) == before + [f(s[k])] + after;
    assert Map(s[..k] + s[k + 1..], f) == before + after;
  }

  /** Rearranging a sequence rearranges its image. */
  lemma {:induction false} MapPermutation<T, U>(a: seq<T>, b: seq<T>, f: T -> U)
    requires multiset(a) == multiset(b)
    ensures multiset(Map(a, f)) == multiset(Map(b, f))
    decreases |a|
  {
    hide Map;
    if a == [] {
      assert |multiset(a)| == |multiset(b)|;
    } else {
      var n := |a| - 1;
      assert a[n] in multiset(b);
      var k :| 0 <= k < |b| && b[k] == a[n];
      WithoutOne(a, n);
      WithoutOne(b, k);
      MapPermutation(a[..n] + a[n + 1..], b[..k] + b[k + 1..], f);
      MapWithoutOne(a, n, f);
      MapWithoutOne(b, k, f);
    }
  }

  lemma MapWithLast<T, U>(s: seq<T>, x: T, f: T -> U)
    ensures Map(s + [x], f) == Map(s, f) + [f(x)]
  {
  }

  /** How many of the elements have the property. */
  function CountWhere<T>(s: seq<T>, p: T -> bool): nat {
    if s == [] then 0 else CountWhere(s[..|s| - 1], p) + if p(s[|s| - 1]) then 1 else 0
  }

  lemma CountWithLast<T>(s: seq<T>, x: T, p: T -> bool)
    ensures CountWhere(s + [x], p) == CountWhere(s, p) + if p(x) then 1 else 0
  {
    assert (s + [x])[..|s|] == s;
  }

  /** An image holds each value as often as there are elements it is the value of. */
  lemma {:induction false} ImageCount<T, U>(s: seq<T>, f: T -> U, x: U, p: T -> bool)
    requires forall t <- s :: p(t) <==> f(t) == x
    ensures multiset(Map(s, f))[x] == CountWhere(s, p)
  {
    if s != [] {
      var rest, last := s[..|s| - 1], s[|s| - 1];
      WithLast(s);
      ImageCount(rest, f, x, p);
      assert Map(s, f) == Map(rest, f) + [f(last)];
    }
  }

  /** Two functions that agree on the elements have the same image. */
  lemma MapAgree<T, U>(s: seq<T>, f: T -> U, g: T -> U)
    requires forall x <- s :: f(x) == g(x)
    ensures Map(s, f) == Map(s, g)
  {
  }

  // ----- sorting by an integer key; the library sorts promise no more than a sorted rearrangement -----

  ghost predicate SortedBy<T>(s: seq<T>, key: T -> int) {
    forall i, j :: 0 <= i < j < |s| ==> key(s[i]) <= key(s[j])
  }

  ghost predicate IsSorted<T>(r: seq<T>, s: seq<T>, key: T -> int) {
    multiset(r) == multiset(s) && SortedBy(r, key)
  }

  function InsertBy<T>(s: seq<T>, x: T, key: T -> int): seq<T> {
    if s == [] || key(s[|s| - 1]) <= key(x) then s + [x]
    else InsertBy(s[..|s| - 1], x, key) + [s[|s| - 1]]
  }

  lemma {:induction false} InsertKeepsElements<T>(s: seq<T>, x: T, key: T -> int)
    ensures multiset(InsertBy(s, x, key)) == multiset(s) + multiset{x}
  {
    if s != [] && key(s[|s| - 1]) > key(x) {
      InsertKeepsElements(s[..|s| - 1], x, key);
      assert s == s[..|s| - 1] + [s[|s| - 1]];
    }
  }

  lemma {:induction false} InsertKeepsOrder<T>(s: seq<T>, x: T, key: T -> int)
    requires SortedBy(s, key)
    ensures SortedBy(InsertBy(s, x, key), key)
  {
    if s != [] && key(s[|s| - 1]) > key(x) {
      var rest, last := s[..|s| - 1], s[|s| - 1];
      InsertKeepsOrder(rest, x, key);
      InsertKeepsElements(rest, x, key);
      var r := InsertBy(rest, x, key);
      forall i | 0 <= i < |r| ensures key(r[i]) <= key(last) {
        assert r[i] in multiset(r);
        assert r[i] in multiset(rest) || r[i] == x;
      }
    }
  }

  method SortBy<T>(s: seq<T>, key: T -> int) returns (r: seq<T>)
    ensures IsSorted(r, s, key)
  {
    r := [];
    for i := 0 to |s|
      invariant IsSorted(r, s[..i], key)
    {
      InsertKeepsElements(r, s[i], key);
      InsertKeepsOrder(r, s[i], key);
      assert s[..i + 1] == s[..i] + [s[i]];
      r := InsertBy(r, s[i], key);
    }
    assert s[..|s|] == s;
  }

  /** The key tells the elements apart. */
  ghost predicate Separates<T>(key: T -> int, s: seq<T>) {
    forall x, y :: x in s && y in s && key(x) == key(y) ==> x == y
  }

  /** With keys that tell the elements apart there is only one sorted rearrangement. */
  lemma {:induction false} SortedIsUnique<T>(a: seq<T>, b: seq<T>, key: T -> int)
    requires multiset(a) == multiset(b) && SortedBy(a, key) && SortedBy(b, key) && Separates(key, a)
    ensures a == b
    decreases |a|
  {
    hide SortedBy, Separates;
    assert |multiset(a)| == |multiset(b)|;
    if a != [] {
      var n := |a| - 1;
      SameLast(a, b, key);
      WithoutLast(a, key);
      WithoutLast(b, key);
      SortedIsUnique(a[..n], b[..n], key);
    }
  }

  lemma WithoutLast<T>(s: seq<T>, key: T -> int)
    requires s != [] && SortedBy(s, key)
    ensures SortedBy(s[..|s| - 1], key) && (Separates(key, s) ==> Separates(key, s[..|s| - 1]))
    ensures multiset(s[..|s| - 1]) == multiset(s) - multiset{s[|s| - 1]}
    ensures s == s[..|s| - 1] + [s[|s| - 1]]
  {
    assert s == s[..|s| - 1] + [s[|s| - 1]];
    assert forall x <- s[..|s| - 1] :: x in s;
  }

  lemma SameLast<T>(a: seq<T>, b: seq<T>, key: T -> int)
    requires a != [] && b != [] && multiset(a) == multiset(b)
    requires SortedBy(a, key) && SortedBy(b, key) && Separates(key, a)
    ensures a[|a| - 1] == b[|b| - 1]
  {
    var x, y := a[|a| - 1], b[|b| - 1];
    assert x in multiset(a) && y in multiset(b);
  }

  // ----- sequences without repetitions -----

  ghost predicate NoRepeats<T>(s: seq<T>) {
    forall i, j :: 0 <= i < j < |s| ==> s[i] != s[j]
  }

  /** Ranging over a set, or over the keys of a map, visits each element once, in no particular order. */
  method Enumerate<T(==)>(elements: set<T>) returns (s: seq<T>)
    ensures NoRepeats(s) && forall x :: x in s <==> x in elements
  {
    s := [];
    var left := elements;
    while left != {}
      invariant left <= elements
      invariant forall x :: x in s <==> x in elements && x !in left
      invariant NoRepeats(s)
      decreases |left|
    {
      var x :| x in left;
      left := left - {x};
      s := s + [x];
    }
  }

  lemma Twice<T>(s: seq<T>, i: nat, j: nat)
    requires i < j < |s| && s[i] == s[j]
    ensures multiset(s)[s[i]] >= 2
  {
    assert s == s[..i + 1] + s[i + 1..];
    assert s[i] in s[..i + 1] && s[i + 1..][j - i - 1] == s[j];
    assert s[j] in s[i + 1..];
  }

  lemma {:induction false} AtMostOnce<T>(s: seq<T>, x: T)
    requires NoRepeats(s)
    ensures multiset(s)[x] == if x in s then 1 else 0
  {
    if s != [] {
      var n := |s| - 1;
      AtMostOnce(s[..n], x);
      assert s == s[..n] + [s[n]];
      assert s[n] !in s[..n];
    }
  }

  /** Sorting by a key that tells elements apart puts distinct elements into strictly increasing order. */
  lemma SortedStrictly<T>(s: seq<T>, sorted: seq<T>, key: T -> int)
    requires IsSorted(sorted, s, key) && NoRepeats(s)
    requires Separates(key, s)
    ensures forall x :: x in sorted <==> x in s
    ensures forall i, j :: 0 <= i < j < |sorted| ==> key(sorted[i]) < key(sorted[j])
  {
    assert forall x :: x in sorted <==> x in multiset(sorted);
    assert forall x :: x in s <==> x in multiset(s);
    forall i, j | 0 <= i < j < |sorted| ensures key(sorted[i]) < key(sorted[j]) {
      assert sorted[i] in s && sorted[j] in s;
      if sorted[i] == sorted[j] {
        Twice(sorted, i, j);
        AtMostOnce(s, sorted[i]);
      }
    }
  }
}
