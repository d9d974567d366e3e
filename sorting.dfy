/** `Array.prototype.sort` with a comparator, as a stable insertion sort
    over a total preorder `le` ("may come before"). */
module Sorting {
  import opened Common

  ghost predicate IsTotalPreorder<T(!new)>(le: (T, T) -> bool)
  {
    && (forall a, b :: le(a, b) || le(b, a))
    && (forall a, b, c :: le(a, b) && le(b, c) ==> le(a, c))
  }

  ghost predicate SortedBy<T>(s: seq<T>, le: (T, T) -> bool)
  {
    forall i, j :: 0 <= i < j < |s| ==> le(s[i], s[j])
  }

  /** Places `x` before the first element it may precede. */
  function Insert<T>(x: T, s: seq<T>, le: (T, T) -> bool): (r: seq<T>)
    ensures |r| == |s| + 1
    ensures multiset(r) == multiset(s) + multiset{x}
  {
    if s == [] then [x]
    else if le(x, s[0]) then [x] + s
    else
      assert s == [s[0]] + s[1..];
      [s[0]] + Insert(x, s[1..], le)
  }

  /** Sorts `s` by `le`; elements that tie keep their order. */
  function SortBy<T>(s: seq<T>, le: (T, T) -> bool): (r: seq<T>)
    ensures |r| == |s|
    ensures multiset(r) == multiset(s)
  {
    if s == [] then []
    else
      assert s == [s[0]] + s[1..];
      Insert(s[0], SortBy(s[1..], le), le)
  }

  lemma {:induction false} InsertSorted<T(!new)>(x: T, s: seq<T>, le: (T, T) -> bool)
    requires IsTotalPreorder(le) && SortedBy(s, le)
    ensures SortedBy(Insert(x, s, le), le)
  {
    if s != [] && !le(x, s[0]) {
      InsertSorted(x, s[1..], le);
      var r := Insert(x, s[1..], le);
      forall k | 0 <= k < |r|
        ensures le(s[0], r[k])
      {
        assert r[k] in multiset(r);
        if r[k] != x {
          assert r[k] in multiset(s[1..]);
          var j :| 0 <= j < |s[1..]| && s[1..][j] == r[k];
          assert s[j + 1] == r[k];
        }
      }
    }
  }

  /** The sorted sequence is ordered by `le` and a permutation of the input. */
  lemma {:induction false} SortBySorted<T(!new)>(s: seq<T>, le: (T, T) -> bool)
    requires IsTotalPreorder(le)
    ensures SortedBy(SortBy(s, le), le)
    ensures multiset(SortBy(s, le)) == multiset(s)
  {
    if s != [] {
      SortBySorted(s[1..], le);
      InsertSorted(s[0], SortBy(s[1..], le), le);
    }
  }

  /** The elements that tie with `x`: each may come before the other. */
  function Empata<T>(le: (T, T) -> bool, x: T): T -> bool
  {
    (e: T) => le(e, x) && le(x, e)
  }

  /** Inserting `y` puts it ahead of every element it ties with, so among the elements
      tied with `x` it comes first when it is one of them. */
  lemma {:induction false} InsertStable<T(!new)>(y: T, t: seq<T>, le: (T, T) -> bool, x: T)
    requires IsTotalPreorder(le)
    ensures Filter(Insert(y, t, le), Empata(le, x))
      == if Empata(le, x)(y) then [y] + Filter(t, Empata(le, x)) else Filter(t, Empata(le, x))
  {
    var tie := Empata(le, x);
    if t == [] {
    } else if le(y, t[0]) {
      var r := [y] + t;
      assert r[0] == y && r[1..] == t;
    } else {
      var r := Insert(y, t, le);
      InsertStable(y, t[1..], le, x);
      assert r[0] == t[0] && r[1..] == Insert(y, t[1..], le);
      var z := t[0];
      assert tie(y) ==> !tie(z) by {
        assert tie(y) && tie(z) ==> le(y, x) && le(x, z);
      }
    }
  }

  /** The sort is stable: the elements that tie with any `x` keep their input order. */
  lemma {:induction false} SortByStable<T(!new)>(s: seq<T>, le: (T, T) -> bool, x: T)
    requires IsTotalPreorder(le)
    ensures Filter(SortBy(s, le), Empata(le, x)) == Filter(s, Empata(le, x))
  {
    if s != [] {
      SortByStable(s[1..], le, x);
      InsertStable(s[0], SortBy(s[1..], le), le, x);
    }
  }

  /** A prefix of a sorted sequence is sorted. */
  lemma PrefixSorted<T>(s: seq<T>, le: (T, T) -> bool, n: nat)
    requires SortedBy(s, le) && n <= |s|
    ensures SortedBy(s[..n], le)
  {
    forall i, j | 0 <= i < j < n
      ensures le(s[..n][i], s[..n][j])
    {
      assert s[..n][i] == s[i] && s[..n][j] == s[j];
    }
  }

  /** The first `k` of the sorted sequence are in order and come from `m`. */
  lemma {:induction false} SortedPrefix<T(!new)>(m: seq<T>, le: (T, T) -> bool, k: nat)
    requires IsTotalPreorder(le)
    ensures var r := Take(SortBy(m, le), k);
      && SortedBy(r, le)
      && multiset(r) <= multiset(m)
      && (forall x :: x in r ==> x in m)
  {
    var s := SortBy(m, le);
    var r := Take(s, k);
    SortBySorted(m, le);
    assert r == s[..|r|];
    PrefixSorted(s, le, |r|);
    assert s == r + s[|r|..];
    assert multiset(s) == multiset(r) + multiset(s[|r|..]);
    forall x | x in r
      ensures x in m
    {
      assert x in multiset(s);
    }
  }

  /** Nothing of `m` left out of the first `k` of the sorted sequence may come before
      any of them. */
  lemma {:induction false} SortedPrefixLeftOut<T(!new)>(m: seq<T>, le: (T, T) -> bool, k: nat)
    requires IsTotalPreorder(le)
    ensures var r := Take(SortBy(m, le), k);
      forall x :: x in m && x !in r ==> forall i :: 0 <= i < |r| ==> le(r[i], x)
  {
    var s := SortBy(m, le);
    var r := Take(s, k);
    SortBySorted(m, le);
    assert r == s[..|r|];
    forall x | x in m && x !in r
      ensures forall i :: 0 <= i < |r| ==> le(r[i], x)
    {
      assert x in multiset(s);
      var j :| 0 <= j < |s| && s[j] == x;
      assert j >= |r| by {
        assert forall i :: 0 <= i < |r| ==> r[i] == s[i];
      }
      forall i | 0 <= i < |r|
        ensures le(r[i], x)
      {
        assert r[i] == s[i];
      }
    }
  }
}
