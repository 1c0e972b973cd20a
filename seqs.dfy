/** Generic folds over sequences in the shape of JavaScript's `filter`,
    `reduce` and `Set` construction. Each definition peels off the LAST
    element, so it is a left fold, as `reduce` is, and a loop over a prefix
    `s[..i]` extends it one step at a time. */
module Seqs {

  /** `s.filter(p)`: the elements satisfying `p`, in their original order. */
  function Filter<T>(s: seq<T>, p: T -> bool): (r: seq<T>)
    ensures |r| <= |s|
    ensures forall i :: 0 <= i < |r| ==> r[i] in s && p(r[i])
    ensures forall i :: 0 <= i < |s| && p(s[i]) ==> s[i] in r
  {
    if s == [] then []
    else Filter(s[..|s| - 1], p) + (if p(s[|s| - 1]) then [s[|s| - 1]] else [])
  }

  /** `s.reduce((sum, x) => sum + f(x), 0)` */
  function SumOf<T>(s: seq<T>, f: T -> int): int
  {
    if s == [] then 0 else SumOf(s[..|s| - 1], f) + f(s[|s| - 1])
  }

  /** `r` is `s` with some elements dropped and the rest kept in order
      (greedy matching decides it). */
  ghost predicate SubsequenceOf<T>(r: seq<T>, s: seq<T>)
    decreases |s|
  {
    if r == [] then true
    else if s == [] then false
    else if r[|r| - 1] == s[|s| - 1] then SubsequenceOf(r[..|r| - 1], s[..|s| - 1])
    else SubsequenceOf(r, s[..|s| - 1])
  }

  /** No element occurs twice. */
  predicate Distinct<T(==)>(s: seq<T>)
  {
    forall i, j :: 0 <= i < j < |s| ==> s[i] != s[j]
  }

  /** The distinct elements of `s` in order of first appearance: the key order
      of a JavaScript object (or `Set`) filled by a `forEach` over `s`. */
  function FirstAppearances<T(==)>(s: seq<T>): (r: seq<T>)
    ensures Distinct(r)
    ensures forall i :: 0 <= i < |r| ==> r[i] in s
    ensures forall i :: 0 <= i < |s| ==> s[i] in r
    ensures |r| <= |s|
  {
    if s == [] then []
    else
      var r0 := FirstAppearances(s[..|s| - 1]);
      if s[|s| - 1] in r0 then r0 else r0 + [s[|s| - 1]]
  }

  /** `s.map(f)` */
  function Map<T, U>(s: seq<T>, f: T -> U): (r: seq<U>)
    ensures |r| == |s|
    ensures forall i :: 0 <= i < |s| ==> r[i] == f(s[i])
  {
    seq(|s|, i requires 0 <= i < |s| => f(s[i]))
  }

  /** `s.slice(0, n)` */
  function Take<T>(s: seq<T>, n: nat): (r: seq<T>)
    ensures |r| == if n < |s| then n else |s|
    ensures r <= s
  {
    if n < |s| then s[..n] else s
  }

  lemma SumOfSnoc<T>(s: seq<T>, x: T, f: T -> int)
    ensures SumOf(s + [x], f) == SumOf(s, f) + f(x)
  {
    assert (s + [x])[..|s|] == s;
  }

  lemma {:induction false} SumOfAppend<T>(a: seq<T>, b: seq<T>, f: T -> int)
    ensures SumOf(a + b, f) == SumOf(a, f) + SumOf(b, f)
    decreases |b|
  {
    if b == [] {
      assert a + b == a;
    } else {
      var b' := b[..|b| - 1];
      assert a + b == (a + b') + [b[|b| - 1]];
      assert b == b' + [b[|b| - 1]];
      SumOfSnoc(a + b', b[|b| - 1], f);
      SumOfSnoc(b', b[|b| - 1], f);
      SumOfAppend(a, b', f);
    }
  }

  lemma FilterSnoc<T>(s: seq<T>, x: T, p: T -> bool)
    ensures Filter(s + [x], p) == Filter(s, p) + (if p(x) then [x] else [])
  {
    assert (s + [x])[..|s|] == s;
  }

  lemma {:induction false} FilterAppend<T>(a: seq<T>, b: seq<T>, p: T -> bool)
    ensures Filter(a + b, p) == Filter(a, p) + Filter(b, p)
    decreases |b|
  {
    if b == [] {
      assert a + b == a;
    } else {
      var b' := b[..|b| - 1];
      var x := b[|b| - 1];
      assert (a + b)[..|a + b| - 1] == a + b';
      assert b[..|b| - 1] == b';
      FilterAppend(a, b', p);
    }
  }

  /** Removing one element from a sum. */
  lemma {:induction false} SumOfRemove<T>(s: seq<T>, j: nat, f: T -> int)
    requires j < |s|
    ensures SumOf(s, f) == SumOf(s[..j] + s[j + 1..], f) + f(s[j])
    decreases |s|
  {
    var s', last := s[..|s| - 1], s[|s| - 1];
    if j == |s| - 1 {
      assert s[..j] + s[j + 1..] == s';
    } else {
      SumOfRemove(s', j, f);
      var r' := s'[..j] + s'[j + 1..];
      assert s[..j] + s[j + 1..] == r' + [last];
      assert (r' + [last])[..|r'|] == r';
    }
  }

  /** A sum does not depend on the order of its terms: sorting a list before
      reducing it leaves the total unchanged. */
  lemma {:induction false} SumOfPermutation<T>(a: seq<T>, b: seq<T>, f: T -> int)
    requires multiset(a) == multiset(b)
    ensures SumOf(a, f) == SumOf(b, f)
    decreases |a|
  {
    if a == [] {
      assert |b| == |multiset(b)| == 0;
    } else {
      var x := a[|a| - 1];
      var a' := a[..|a| - 1];
      assert a == a' + [x];
      assert multiset(a) == multiset(a') + multiset{x};
      assert x in multiset(b);
      var j :| 0 <= j < |b| && b[j] == x;
      RemoveFromMultiset(b, j);
      SumOfPermutation(a', b[..j] + b[j + 1..], f);
      SumOfRemove(b, j, f);
    }
  }

  /** An element of a list without repeats occurs at most once in its
      multiset. */
  lemma {:induction false} DistinctOnce<T>(s: seq<T>, x: T)
    requires Distinct(s)
    ensures multiset(s)[x] <= 1
    decreases |s|
  {
    if s != [] {
      var s' := s[..|s| - 1];
      assert s == s' + [s[|s| - 1]];
      assert Distinct(s');
      DistinctOnce(s', x);
      if x == s[|s| - 1] {
        assert x !in s';
      }
    }
  }

  /** Reordering a list without repeats gives a list without repeats. */
  lemma DistinctPermutation<T>(a: seq<T>, b: seq<T>)
    requires multiset(a) == multiset(b) && Distinct(a)
    ensures Distinct(b)
  {
    forall i, j | 0 <= i < j < |b|
      ensures b[i] != b[j]
    {
      if b[i] == b[j] {
        assert b == b[..j] + b[j..];
        assert b[..j][i] == b[i] && b[j..][0] == b[j];
        assert multiset(b)[b[i]] == multiset(b[..j])[b[i]] + multiset(b[j..])[b[i]];
        assert multiset(b)[b[i]] >= 2;
        DistinctOnce(a, b[i]);
        assert false;
      }
    }
  }

  /** Dropping the element at `j` drops one copy of it from the multiset. */
  lemma RemoveFromMultiset<T>(b: seq<T>, j: nat)
    requires j < |b|
    ensures multiset(b[..j] + b[j + 1..]) == multiset(b) - multiset{b[j]}
  {
    assert b == b[..j] + [b[j]] + b[j + 1..];
  }

  /** A sum of non-negative terms is non-negative. */
  lemma {:induction false} SumOfNonNegative<T>(s: seq<T>, f: T -> int)
    requires forall x :: x in s ==> f(x) >= 0
    ensures SumOf(s, f) >= 0
    decreases |s|
  {
    if s != [] {
      SumOfNonNegative(s[..|s| - 1], f);
    }
  }

  /** The complement of a predicate. */
  function Negate<T>(p: T -> bool): T -> bool
  {
    x => !p(x)
  }

  /** Splitting a sum by a predicate: the part kept by `filter(p)` plus the
      part it drops is the whole. */
  lemma {:induction false} SumOfSplit<T>(s: seq<T>, p: T -> bool, f: T -> int)
    ensures SumOf(s, f) == SumOf(Filter(s, p), f) + SumOf(Filter(s, Negate(p)), f)
    decreases |s|
  {
    if s != [] {
      var s' := s[..|s| - 1];
      var x := s[|s| - 1];
      SumOfSplit(s', p, f);
      if p(x) {
        assert Filter(s, Negate(p)) == Filter(s', Negate(p));
        SumOfSnoc(Filter(s', p), x, f);
      } else {
        assert Filter(s, p) == Filter(s', p);
        SumOfSnoc(Filter(s', Negate(p)), x, f);
      }
    }
  }

  /** `filter(p)` keeps elements in their order. */
  lemma {:induction false} FilterIsSubsequence<T>(s: seq<T>, p: T -> bool)
    ensures SubsequenceOf(Filter(s, p), s)
    decreases |s|
  {
    if s != [] {
      var s' := s[..|s| - 1];
      FilterIsSubsequence(s', p);
      if p(s[|s| - 1]) {
        assert Filter(s, p)[..|Filter(s, p)| - 1] == Filter(s', p);
      } else {
        assert Filter(s, p) == Filter(s', p);
        SubsequenceDropLast(Filter(s', p), s);
      }
    }
  }

  /** A subsequence of `s` minus its last element is a subsequence of `s`. */
  lemma {:induction false} SubsequenceDropLast<T>(r: seq<T>, s: seq<T>)
    requires s != [] && SubsequenceOf(r, s[..|s| - 1])
    ensures SubsequenceOf(r, s)
    decreases |s|, |r|
  {
    if r != [] && r[|r| - 1] == s[|s| - 1] {
      var s' := s[..|s| - 1];
      // r's last element matched somewhere in s'; drop it on both sides
      SubsequenceButLast(r, s');
      assert s[..|s| - 1] == s';
    }
  }

  /** Dropping the last element of a subsequence keeps it a subsequence. */
  lemma {:induction false} SubsequenceButLast<T>(r: seq<T>, s: seq<T>)
    requires r != [] && SubsequenceOf(r, s)
    ensures SubsequenceOf(r[..|r| - 1], s)
    decreases |s|, |r|
  {
    var s' := s[..|s| - 1];
    if r[|r| - 1] == s[|s| - 1] {
      SubsequenceDropLast(r[..|r| - 1], s);
    } else {
      SubsequenceButLast(r, s');
      SubsequenceDropLast(r[..|r| - 1], s);
    }
  }

  /** Two sums agree when their sequences agree term by term. */
  lemma {:induction false} SumOfPointwise<T, U>(a: seq<T>, f: T -> int, b: seq<U>, h: U -> int)
    requires |a| == |b|
    requires forall i :: 0 <= i < |a| ==> f(a[i]) == h(b[i])
    ensures SumOf(a, f) == SumOf(b, h)
    decreases |a|
  {
    if a != [] {
      SumOfPointwise(a[..|a| - 1], f, b[..|b| - 1], h);
    }
  }

  /** `x => f(g(x))` */
  function Compose<T, U, R>(f: U -> R, g: T -> U): T -> R
  {
    x => f(g(x))
  }

  /** Filtering mapped elements is mapping the elements whose image passes. */
  lemma {:induction false} FilterMap<T, U>(s: seq<T>, g: T -> U, p: U -> bool)
    ensures Filter(Map(s, g), p) == Map(Filter(s, Compose(p, g)), g)
    decreases |s|
  {
    if s != [] {
      var s' := s[..|s| - 1];
      FilterMap(s', g, p);
      assert Map(s, g)[..|s| - 1] == Map(s', g);
    }
  }

  /** Summing `f` over mapped elements is summing `f` after `g`. */
  lemma {:induction false} SumOfMap<T, U>(s: seq<T>, g: T -> U, f: U -> int)
    ensures SumOf(Map(s, g), f) == SumOf(s, Compose(f, g))
    decreases |s|
  {
    if s != [] {
      var s' := s[..|s| - 1];
      SumOfMap(s', g, f);
      assert Map(s, g)[..|s| - 1] == Map(s', g);
    }
  }

  /** A sum of zeros is zero. */
  lemma {:induction false} SumOfZero<T>(s: seq<T>, f: T -> int)
    requires forall x :: f(x) == 0
    ensures SumOf(s, f) == 0
    decreases |s|
  {
    if s != [] {
      SumOfZero(s[..|s| - 1], f);
    }
  }

  /** `x => p(x) ? 1 : 0` */
  function Indicator<T>(p: T -> bool): T -> int
  {
    x => if p(x) then 1 else 0
  }

  /** Summing the indicator of `p` counts the elements `filter(p)` keeps. */
  lemma {:induction false} SumOfIndicator<T>(s: seq<T>, p: T -> bool)
    ensures SumOf(s, Indicator(p)) == |Filter(s, p)|
    decreases |s|
  {
    if s != [] {
      SumOfIndicator(s[..|s| - 1], p);
    }
  }

  /** Termwise smaller terms have a smaller sum. */
  lemma {:induction false} SumOfMonotone<T>(s: seq<T>, f: T -> int, g: T -> int)
    requires forall i :: 0 <= i < |s| ==> f(s[i]) <= g(s[i])
    ensures SumOf(s, f) <= SumOf(s, g)
    decreases |s|
  {
    if s != [] {
      SumOfMonotone(s[..|s| - 1], f, g);
    }
  }

  /** Filtering by a weaker predicate first changes nothing. */
  lemma {:induction false} FilterNarrower<T>(s: seq<T>, p: T -> bool, q: T -> bool)
    requires forall x :: q(x) ==> p(x)
    ensures Filter(Filter(s, p), q) == Filter(s, q)
    decreases |s|
  {
    if s != [] {
      var s' := s[..|s| - 1];
      var x := s[|s| - 1];
      FilterNarrower(s', p, q);
      if p(x) {
        assert Filter(s, p) == Filter(s', p) + [x];
        assert (Filter(s', p) + [x])[..|Filter(s', p)|] == Filter(s', p);
      } else {
        assert Filter(s, p) == Filter(s', p);
      }
    }
  }

  /** A predicate every element satisfies keeps the whole sequence. */
  lemma {:induction false} FilterAll<T>(s: seq<T>, p: T -> bool)
    requires forall i :: 0 <= i < |s| ==> p(s[i])
    ensures Filter(s, p) == s
    decreases |s|
  {
    if s != [] {
      FilterAll(s[..|s| - 1], p);
      assert s[..|s| - 1] + [s[|s| - 1]] == s;
    }
  }
}
