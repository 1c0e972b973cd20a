/** `Array.prototype.sort` with a comparator, as the statistics routes use it.
    The comparators compare one or two numeric keys, so each is modelled by a
    rank: a pair of integers ordered lexicographically, smaller first. A
    descending sort on a key ranks by the negated key. ECMAScript requires
    the sort to be stable, so elements of equal rank keep their order; the
    model is a stable insertion sort. */
module Sorting {
  import opened Seqs

  datatype Rank = Rank(major: int, minor: int)

  /** The comparator does not put `a` after `b`. */
  predicate RankLe(a: Rank, b: Rank)
  {
    a.major < b.major || (a.major == b.major && a.minor <= b.minor)
  }

  predicate SortedByRank<T>(s: seq<T>, rank: T -> Rank)
  {
    forall i, j :: 0 <= i < j < |s| ==> RankLe(rank(s[i]), rank(s[j]))
  }

  /** In a sorted list the head ranks no later than any element. */
  lemma HeadRanksFirst<T>(s: seq<T>, rank: T -> Rank, a: T)
    requires SortedByRank(s, rank) && a in s
    ensures RankLe(rank(s[0]), rank(a))
  {
    var j :| 0 <= j < |s| && s[j] == a;
    if j > 0 {
      assert RankLe(rank(s[0]), rank(s[j]));
    }
  }

  /** In a sorted list an element left out of the first `n` ranks no
      earlier than the last of them. */
  lemma OutsidePrefixRanksAfter<T>(s: seq<T>, rank: T -> Rank, n: nat, a: T)
    requires SortedByRank(s, rank) && 0 < n && a in s && a !in Take(s, n)
    ensures |Take(s, n)| == n && RankLe(rank(Take(s, n)[n - 1]), rank(a))
  {
    var j :| 0 <= j < |s| && s[j] == a;
    assert n <= j;
    assert Take(s, n)[n - 1] == s[n - 1];
    assert RankLe(rank(s[n - 1]), rank(s[j]));
  }

  /** Insert `x` before the first element it does not rank after. */
  function Insert<T>(x: T, s: seq<T>, rank: T -> Rank): (r: seq<T>)
    ensures |r| == |s| + 1
    ensures multiset(r) == multiset(s) + multiset{x}
    ensures forall i :: 0 <= i < |r| ==> r[i] == x || r[i] in s
    ensures SortedByRank(s, rank) ==> SortedByRank(r, rank)
  {
    if s == [] then [x]
    else if RankLe(rank(x), rank(s[0])) then
      InsertFront(x, s, rank);
      [x] + s
    else
      var t := Insert(x, s[1..], rank);
      InsertLater(x, s, t, rank);
      [s[0]] + t
  }

  /** A list stays sorted when an element ranking at most its head goes in
      front. */
  lemma InsertFront<T>(x: T, s: seq<T>, rank: T -> Rank)
    requires s != [] && RankLe(rank(x), rank(s[0]))
    ensures SortedByRank(s, rank) ==> SortedByRank([x] + s, rank)
  {
    if SortedByRank(s, rank) {
      var r := [x] + s;
      forall i, j | 0 <= i < j < |r|
        ensures RankLe(rank(r[i]), rank(r[j]))
      {
        if i == 0 {
          assert r[j] == s[j - 1];
          assert RankLe(rank(s[0]), rank(s[j - 1])) || j - 1 == 0;
        } else {
          assert r[i] == s[i - 1] && r[j] == s[j - 1];
        }
      }
    }
  }

  /** The head that `x` ranks after stays in front of the insertion into
      the tail. */
  lemma InsertLater<T>(x: T, s: seq<T>, t: seq<T>, rank: T -> Rank)
    requires s != [] && !RankLe(rank(x), rank(s[0]))
    requires |t| == |s| && multiset(t) == multiset(s[1..]) + multiset{x}
    requires forall i :: 0 <= i < |t| ==> t[i] == x || t[i] in s[1..]
    requires SortedByRank(s[1..], rank) ==> SortedByRank(t, rank)
    ensures multiset([s[0]] + t) == multiset(s) + multiset{x}
    ensures forall i :: 0 <= i < |t| + 1 ==> ([s[0]] + t)[i] == x || ([s[0]] + t)[i] in s
    ensures SortedByRank(s, rank) ==> SortedByRank([s[0]] + t, rank)
  {
    assert s == [s[0]] + s[1..];
    var r := [s[0]] + t;
    forall i | 0 <= i < |r|
      ensures r[i] == x || r[i] in s
    {
      if i > 0 {
        assert r[i] == t[i - 1];
      }
    }
    if SortedByRank(s, rank) {
      TailSorted(s, rank);
      HeadBelowInsertion(x, s, t, rank);
      PrependSorted(s[0], t, rank);
    }
  }

  lemma TailSorted<T>(s: seq<T>, rank: T -> Rank)
    requires s != [] && SortedByRank(s, rank)
    ensures SortedByRank(s[1..], rank)
  {
    forall i, j | 0 <= i < j < |s[1..]|
      ensures RankLe(rank(s[1..][i]), rank(s[1..][j]))
    {
      assert s[1..][i] == s[i + 1] && s[1..][j] == s[j + 1];
    }
  }

  lemma HeadBelowInsertion<T>(x: T, s: seq<T>, t: seq<T>, rank: T -> Rank)
    requires s != [] && !RankLe(rank(x), rank(s[0])) && SortedByRank(s, rank)
    requires forall i :: 0 <= i < |t| ==> t[i] == x || t[i] in s[1..]
    ensures forall i :: 0 <= i < |t| ==> RankLe(rank(s[0]), rank(t[i]))
  {
    forall i | 0 <= i < |t|
      ensures RankLe(rank(s[0]), rank(t[i]))
    {
      if t[i] != x {
        var k :| 0 <= k < |s[1..]| && s[1..][k] == t[i];
        assert s[1..][k] == s[k + 1];
      }
    }
  }

  lemma PrependSorted<T>(a: T, t: seq<T>, rank: T -> Rank)
    requires SortedByRank(t, rank)
    requires forall i :: 0 <= i < |t| ==> RankLe(rank(a), rank(t[i]))
    ensures SortedByRank([a] + t, rank)
  {
    var r := [a] + t;
    forall i, j | 0 <= i < j < |r|
      ensures RankLe(rank(r[i]), rank(r[j]))
    {
      assert r[j] == t[j - 1];
      if i > 0 {
        assert r[i] == t[i - 1];
      }
    }
  }

  /** The sorted copy: a permutation of `s`, in rank order. */
  function SortByRank<T>(s: seq<T>, rank: T -> Rank): (r: seq<T>)
    ensures |r| == |s|
    ensures multiset(r) == multiset(s)
    ensures SortedByRank(r, rank)
  {
    if s == [] then []
    else
      assert s == [s[0]] + s[1..];
      Insert(s[0], SortByRank(s[1..], rank), rank)
  }

  /** The elements of rank `k`, in order. */
  function WithRank<T>(s: seq<T>, rank: T -> Rank, k: Rank): seq<T>
  {
    if s == [] then []
    else (if rank(s[0]) == k then [s[0]] else []) + WithRank(s[1..], rank, k)
  }

  lemma WithRankCons<T>(a: T, t: seq<T>, rank: T -> Rank, k: Rank)
    ensures WithRank([a] + t, rank, k) == (if rank(a) == k then [a] else []) + WithRank(t, rank, k)
  {
    assert ([a] + t)[0] == a && ([a] + t)[1..] == t;
  }

  lemma {:induction false} InsertWithRank<T>(x: T, s: seq<T>, rank: T -> Rank, k: Rank)
    ensures WithRank(Insert(x, s, rank), rank, k)
         == (if rank(x) == k then [x] else []) + WithRank(s, rank, k)
  {
    if s == [] {
      assert Insert(x, s, rank) == [x] + s;
      WithRankCons(x, s, rank, k);
    } else if RankLe(rank(x), rank(s[0])) {
      assert Insert(x, s, rank) == [x] + s;
      WithRankCons(x, s, rank, k);
    } else {
      var t := Insert(x, s[1..], rank);
      var w := WithRank(s[1..], rank, k);
      assert Insert(x, s, rank) == [s[0]] + t;
      InsertWithRank(x, s[1..], rank, k);
      WithRankCons(s[0], t, rank, k);
      if rank(x) == k {
        assert rank(s[0]) != k;
        assert WithRank(s, rank, k) == w;
        assert WithRank([s[0]] + t, rank, k) == WithRank(t, rank, k) == [x] + w;
      } else {
        assert WithRank(t, rank, k) == w;
      }
    }
  }

  /** Stability: the elements of any one rank appear in the sorted copy in
      the order they had before sorting. */
  lemma {:induction false} SortIsStable<T>(s: seq<T>, rank: T -> Rank, k: Rank)
    ensures WithRank(SortByRank(s, rank), rank, k) == WithRank(s, rank, k)
  {
    if s != [] {
      SortIsStable(s[1..], rank, k);
      InsertWithRank(s[0], SortByRank(s[1..], rank), rank, k);
    }
  }

  /** Elements tied under `rank` come in `order`. */
  predicate TiesInOrder<T>(s: seq<T>, rank: T -> Rank, order: T -> Rank)
  {
    forall i, j :: 0 <= i < j < |s| && rank(s[i]) == rank(s[j]) ==> RankLe(order(s[i]), order(s[j]))
  }

  lemma TailTiesInOrder<T>(s: seq<T>, rank: T -> Rank, order: T -> Rank)
    requires s != [] && TiesInOrder(s, rank, order)
    ensures TiesInOrder(s[1..], rank, order)
  {
    forall i, j | 0 <= i < j < |s[1..]| && rank(s[1..][i]) == rank(s[1..][j])
      ensures RankLe(order(s[1..][i]), order(s[1..][j]))
    {
      assert s[1..][i] == s[i + 1] && s[1..][j] == s[j + 1];
    }
  }

  /** An element that comes in `order` no later than any other may go in
      front without breaking the order of ties. */
  lemma TiesFront<T>(x: T, s: seq<T>, rank: T -> Rank, order: T -> Rank)
    requires TiesInOrder(s, rank, order)
    requires forall y :: y in s ==> RankLe(order(x), order(y))
    ensures TiesInOrder([x] + s, rank, order)
  {
    var r := [x] + s;
    forall i, j | 0 <= i < j < |r| && rank(r[i]) == rank(r[j])
      ensures RankLe(order(r[i]), order(r[j]))
    {
      assert r[j] == s[j - 1];
      if i > 0 {
        assert r[i] == s[i - 1];
      }
    }
  }

  /** The head that `x` ranks after stays in front of the insertion into
      the tail without breaking the order of ties. */
  lemma TiesLater<T>(x: T, s: seq<T>, t: seq<T>, rank: T -> Rank, order: T -> Rank)
    requires s != [] && !RankLe(rank(x), rank(s[0]))
    requires TiesInOrder(s, rank, order) && TiesInOrder(t, rank, order)
    requires forall i :: 0 <= i < |t| ==> t[i] == x || t[i] in s[1..]
    ensures TiesInOrder([s[0]] + t, rank, order)
  {
    var r := [s[0]] + t;
    forall i, j | 0 <= i < j < |r| && rank(r[i]) == rank(r[j])
      ensures RankLe(order(r[i]), order(r[j]))
    {
      assert r[j] == t[j - 1];
      if i == 0 {
        if t[j - 1] == x {
          assert false;
        }
        var k :| 0 <= k < |s[1..]| && s[1..][k] == t[j - 1];
        assert s[k + 1] == r[j];
      } else {
        assert r[i] == t[i - 1];
      }
    }
  }

  /** Inserting an element that comes in `order` no later than any other
      keeps the ties in `order`. */
  lemma {:induction false} InsertKeepsTies<T>(x: T, s: seq<T>, rank: T -> Rank, order: T -> Rank)
    requires TiesInOrder(s, rank, order)
    requires forall y :: y in s ==> RankLe(order(x), order(y))
    ensures TiesInOrder(Insert(x, s, rank), rank, order)
    decreases |s|
  {
    if s == [] {
      assert Insert(x, s, rank) == [x];
    } else if RankLe(rank(x), rank(s[0])) {
      assert Insert(x, s, rank) == [x] + s;
      TiesFront(x, s, rank, order);
    } else {
      var t := Insert(x, s[1..], rank);
      TailTiesInOrder(s, rank, order);
      InsertKeepsTies(x, s[1..], rank, order);
      assert Insert(x, s, rank) == [s[0]] + t;
      TiesLater(x, s, t, rank, order);
    }
  }

  /** Stability, stated against a second order: sorting by `rank` a list
      already in `order` leaves the elements tied under `rank` in `order`. */
  lemma {:induction false} SortKeepsTieOrder<T>(s: seq<T>, rank: T -> Rank, order: T -> Rank)
    requires SortedByRank(s, order)
    ensures TiesInOrder(SortByRank(s, rank), rank, order)
    decreases |s|
  {
    if s != [] {
      TailSorted(s, order);
      SortKeepsTieOrder(s[1..], rank, order);
      var t := SortByRank(s[1..], rank);
      forall y | y in t
        ensures RankLe(order(s[0]), order(y))
      {
        assert y in multiset(s[1..]);
        var k :| 0 <= k < |s[1..]| && s[1..][k] == y;
        assert s[k + 1] == y;
      }
      InsertKeepsTies(s[0], t, rank, order);
    }
  }

  /** Sorting a list that is already in rank order leaves it as it is. */
  lemma {:induction false} SortOfSorted<T>(s: seq<T>, rank: T -> Rank)
    requires SortedByRank(s, rank)
    ensures SortByRank(s, rank) == s
  {
    if s != [] {
      assert SortedByRank(s[1..], rank);
      SortOfSorted(s[1..], rank);
      assert s == [s[0]] + s[1..];
    }
  }
}
