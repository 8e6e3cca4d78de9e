/**
  Sorting.  The original hands slices that hold no element twice to `sort.Strings` and
  `sort.Slice`; for such slices the result of any correct sort is the one enumeration defined
  here, whatever order the elements were collected in.
*/
module Ordering {
  ghost predicate TotalOrder<T(!new)>(leq: (T, T) -> bool) {
    && (forall x: T :: leq(x, x))
    && (forall x: T, y: T :: leq(x, y) || leq(y, x))
    && (forall x: T, y: T :: leq(x, y) && leq(y, x) ==> x == y)
    && (forall x: T, y: T, z: T :: leq(x, y) && leq(y, z) ==> leq(x, z))
  }

  ghost predicate Ascending<T>(s: seq<T>, leq: (T, T) -> bool) {
    forall i, j :: 0 <= i < j < |s| ==> leq(s[i], s[j]) && s[i] != s[j]
  }

  lemma StillLeast<T(!new)>(s: set<T>, leq: (T, T) -> bool, m: T, n: T)
    requires TotalOrder(leq) && leq(n, m) && forall x :: x in s ==> leq(m, x)
    ensures forall x :: x in s ==> leq(n, x)
  {
  }

  lemma LeastExists<T(!new)>(s: set<T>, leq: (T, T) -> bool)
    requires TotalOrder(leq) && s != {}
    ensures exists m :: m in s && forall x :: x in s ==> leq(m, x)
  {
    var e :| e in s;
    var rest := s - {e};
    assert leq(e, e);
    if rest == {} {
      assert s == {e};
    } else {
      LeastExists(rest, leq);
      var m :| m in rest && forall x :: x in rest ==> leq(m, x);
      var n := if leq(m, e) then m else e;
      assert leq(n, e) && leq(n, m);
      StillLeast(rest, leq, m, n);
      assert n in s && forall x :: x in s ==> x == e || x in rest;
    }
  }

  function Least<T(!new)>(s: set<T>, leq: (T, T) -> bool): (m: T)
    requires TotalOrder(leq) && s != {}
    ensures m in s && forall x :: x in s ==> leq(m, x)
  {
    LeastExists(s, leq);
    var m :| m in s && forall x :: x in s ==> leq(m, x);
    m
  }

  /** The elements of a set in ascending order. */
  function Enumerate<T(!new)>(s: set<T>, leq: (T, T) -> bool): (r: seq<T>)
    requires TotalOrder(leq)
    ensures Ascending(r, leq) && |r| == |s| && forall x :: x in r <==> x in s
  {
    if s == {} then []
    else
      var m := Least(s, leq);
      [m] + Enumerate(s - {m}, leq)
  }

  lemma EmptyOrInhabited<T>(s: seq<T>)
    ensures s == [] || exists x :: x in s
  {
    if s != [] { assert s[0] in s; }
  }

  /** Two ascending sequences of the same elements are the same sequence. */
  lemma {:induction false} AscendingIsUnique<T(!new)>(a: seq<T>, b: seq<T>, leq: (T, T) -> bool)
    requires TotalOrder(leq) && Ascending(a, leq) && Ascending(b, leq)
    requires forall x :: x in a <==> x in b
    ensures a == b
  {
    if a == [] {
      EmptyOrInhabited(b);
    } else {
      assert a[0] in b && b != [];
      assert b[0] in a;
      assert a[0] == b[0];
      forall x
        ensures x in a[1..] <==> x in b[1..]
      {
        assert x in a[1..] ==> x in a && x != a[0];
        assert x in b[1..] ==> x in b && x != b[0];
        assert x in a && x != a[0] ==> x in a[1..];
        assert x in b && x != b[0] ==> x in b[1..];
      }
      AscendingIsUnique(a[1..], b[1..], leq);
      assert a == [a[0]] + a[1..] && b == [b[0]] + b[1..];
    }
  }

  function Elements<T(==)>(s: seq<T>): set<T> {
    set x | x in s
  }

  lemma AscendingLast<T>(r: seq<T>, x: T, leq: (T, T) -> bool)
    requires Ascending(r, leq) && forall y :: y in r ==> leq(y, x) && y != x
    ensures Ascending(r + [x], leq)
  {
    var s := r + [x];
    forall i, j | 0 <= i < j < |s|
      ensures leq(s[i], s[j]) && s[i] != s[j]
    {
      assert s[i] == r[i] && r[i] in r;
    }
  }

  lemma Inserted<T(!new)>(r: seq<T>, k: nat, x: T, leq: (T, T) -> bool)
    requires TotalOrder(leq) && Ascending(r, leq) && k <= |r| && x !in r
    requires forall j :: 0 <= j < k ==> leq(r[j], x)
    requires k < |r| ==> leq(x, r[k])
    ensures
      var s := r[..k] + [x] + r[k..];
      Ascending(s, leq) && forall y :: y in s <==> y in r || y == x
  {
    var s := r[..k] + [x] + r[k..];
    assert r == r[..k] + r[k..];
    forall i, j | 0 <= i < j < |s|
      ensures leq(s[i], s[j]) && s[i] != s[j]
    {
      InsertedPair(r, k, x, leq, i, j);
    }
  }

  lemma InsertedPair<T(!new)>(r: seq<T>, k: nat, x: T, leq: (T, T) -> bool, i: nat, j: nat)
    requires TotalOrder(leq) && Ascending(r, leq) && k <= |r| && x !in r
    requires forall n :: 0 <= n < k ==> leq(r[n], x)
    requires k < |r| ==> leq(x, r[k])
    requires i < j <= |r|
    ensures var s := r[..k] + [x] + r[k..]; leq(s[i], s[j]) && s[i] != s[j]
  {
    var s := r[..k] + [x] + r[k..];
    if i == k {
      assert s[i] == x && s[j] == r[j - 1] && r[j - 1] in r;
      assert leq(x, r[k]) && (j - 1 > k ==> leq(r[k], r[j - 1]));
    } else if j == k {
      assert s[i] == r[i] && s[j] == x;
    } else {
      assert s[i] == r[if i < k then i else i - 1] && s[j] == r[if j < k then j else j - 1];
    }
  }

  /** An insertion sort standing for the library sort, on slices without repeated elements. */
  method Sort<T(!new,==)>(s: seq<T>, leq: (T, T) -> bool) returns (r: seq<T>)
    requires TotalOrder(leq)
    requires forall i, j :: 0 <= i < j < |s| ==> s[i] != s[j]
    ensures r == Enumerate(Elements(s), leq)
  {
    r := [];
    for n := 0 to |s|
      invariant Ascending(r, leq)
      invariant forall x :: x in r <==> x in s[..n]
    {
      var k := 0;
      while k < |r| && leq(r[k], s[n])
        invariant 0 <= k <= |r|
        invariant forall j :: 0 <= j < k ==> leq(r[j], s[n])
      {
        k := k + 1;
      }
      assert s[n] !in s[..n];
      Inserted(r, k, s[n], leq);
      r := r[..k] + [s[n]] + r[k..];
      assert s[..n + 1] == s[..n] + [s[n]];
    }
    assert s[..|s|] == s;
    AscendingIsUnique(r, Enumerate(Elements(s), leq), leq);
  }
}
