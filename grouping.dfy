/** Grouping rows into a JavaScript object keyed by some field, the pattern
    `rows.forEach(r => { if (!acc[key(r)]) acc[key(r)] = …; acc[key(r)].x += g(r) })`
    followed by `Object.values(acc)`. The keys appear in order of first
    appearance, and each group's total is the sum over the rows of that key.
    The main fact here is that the group totals add up to the total over all
    rows. */
module Grouping {
  import opened Seqs

  /** `x => key(x) === k` */
  function InGroup<T, K(==)>(key: T -> K, k: K): T -> bool
  {
    x => key(x) == k
  }

  /** The keys of the object after the `forEach`, in insertion order. */
  function GroupKeys<T, K(==)>(s: seq<T>, key: T -> K): (r: seq<K>)
    ensures Distinct(r)
    ensures forall i :: 0 <= i < |r| ==> exists j :: 0 <= j < |s| && key(s[j]) == r[i]
    ensures forall j :: 0 <= j < |s| ==> key(s[j]) in r
  {
    var keys := Map(s, key);
    assert forall i :: 0 <= i < |keys| ==> keys[i] == key(s[i]);
    FirstAppearances(keys)
  }

  /** The total of `g` over the rows of key `k`. */
  function GroupSum<T, K(==)>(s: seq<T>, key: T -> K, g: T -> int): K -> int
  {
    k => SumOf(Filter(s, InGroup(key, k)), g)
  }

  /** `x => 1`: summing it counts. */
  function One<T>(): T -> int
  {
    x => 1
  }

  /** Counting by summing ones. */
  lemma {:induction false} CountIsSumOfOnes<T>(s: seq<T>)
    ensures SumOf(s, One()) == |s|
    decreases |s|
  {
    if s != [] {
      CountIsSumOfOnes(s[..|s| - 1]);
    }
  }

  /** Adding a row: its key is new and goes last, or it was already there. */
  lemma GroupKeysSnoc<T, K>(s: seq<T>, x: T, key: T -> K)
    ensures GroupKeys(s + [x], key)
         == if key(x) in GroupKeys(s, key) then GroupKeys(s, key) else GroupKeys(s, key) + [key(x)]
  {
    assert Map(s + [x], key)[..|s|] == Map(s, key);
  }

  /** Adding a row adds `g` of it to the total of its own key only. */
  lemma GroupSumSnoc<T, K>(s: seq<T>, x: T, key: T -> K, g: T -> int, k: K)
    ensures GroupSum(s + [x], key, g)(k) == GroupSum(s, key, g)(k) + (if key(x) == k then g(x) else 0)
  {
    assert (s + [x])[..|s|] == s;
    var f := Filter(s, InGroup(key, k));
    if key(x) == k {
      assert Filter(s + [x], InGroup(key, k)) == f + [x];
      SumOfSnoc(f, x, g);
    } else {
      assert Filter(s + [x], InGroup(key, k)) == f;
    }
  }

  /** A key that no row has totals 0. */
  lemma {:induction false} GroupSumAbsent<T, K>(s: seq<T>, key: T -> K, g: T -> int, k: K)
    requires forall j :: 0 <= j < |s| ==> key(s[j]) != k
    ensures GroupSum(s, key, g)(k) == 0
    decreases |s|
  {
    if s != [] {
      GroupSumAbsent(s[..|s| - 1], key, g, k);
      assert Filter(s, InGroup(key, k)) == Filter(s[..|s| - 1], InGroup(key, k));
    }
  }

  /** Summing over distinct keys a function that grew by `c` at `k0` alone
      grows the sum by `c` when `k0` is one of the keys. */
  lemma {:induction false} SumOfBump<K>(ks: seq<K>, h1: K -> int, h2: K -> int, k0: K, c: int)
    requires Distinct(ks)
    requires forall i :: 0 <= i < |ks| ==> h1(ks[i]) == h2(ks[i]) + (if ks[i] == k0 then c else 0)
    ensures SumOf(ks, h1) == SumOf(ks, h2) + (if k0 in ks then c else 0)
    decreases |ks|
  {
    if ks != [] {
      var ks' := ks[..|ks| - 1];
      SumOfBump(ks', h1, h2, k0, c);
      assert k0 in ks <==> k0 in ks' || ks[|ks| - 1] == k0;
      if ks[|ks| - 1] == k0 {
        assert k0 !in ks';
      }
    }
  }

  /** Adding a row bumps, among any distinct keys, the total of its own key. */
  lemma SumOfGroupsSnoc<T, K>(s: seq<T>, x: T, key: T -> K, g: T -> int, ks: seq<K>)
    requires Distinct(ks)
    ensures SumOf(ks, GroupSum(s + [x], key, g))
         == SumOf(ks, GroupSum(s, key, g)) + (if key(x) in ks then g(x) else 0)
  {
    forall i | 0 <= i < |ks|
      ensures GroupSum(s + [x], key, g)(ks[i]) == GroupSum(s, key, g)(ks[i]) + (if ks[i] == key(x) then g(x) else 0)
    {
      GroupSumSnoc(s, x, key, g, ks[i]);
    }
    SumOfBump(ks, GroupSum(s + [x], key, g), GroupSum(s, key, g), key(x), g(x));
  }

  /** A row with a new key opens a group of its own, last. */
  lemma SumOfGroupsNewKey<T, K>(s: seq<T>, x: T, key: T -> K, g: T -> int)
    requires key(x) !in GroupKeys(s, key)
    ensures SumOf(GroupKeys(s + [x], key), GroupSum(s + [x], key, g))
         == SumOf(GroupKeys(s, key), GroupSum(s, key, g)) + g(x)
  {
    var ks := GroupKeys(s, key);
    GroupKeysSnoc(s, x, key);
    SumOfGroupsSnoc(s, x, key, g, ks);
    SumOfSnoc(ks, key(x), GroupSum(s + [x], key, g));
    GroupSumSnoc(s, x, key, g, key(x));
    GroupSumAbsent(s, key, g, key(x));
  }

  /** The group totals add up to the total over all rows. */
  lemma {:induction false} SumOfGroups<T, K>(s: seq<T>, key: T -> K, g: T -> int)
    ensures SumOf(GroupKeys(s, key), GroupSum(s, key, g)) == SumOf(s, g)
    decreases |s|
  {
    if s != [] {
      var s' := s[..|s| - 1];
      var x := s[|s| - 1];
      assert s == s' + [x];
      SumOfGroups(s', key, g);
      SumOfGroupsStep(s', x, key, g);
      SumOfSnoc(s', x, g);
    }
  }

  /** Adding a row adds its `g` to the sum of the group totals. */
  lemma SumOfGroupsStep<T, K>(s: seq<T>, x: T, key: T -> K, g: T -> int)
    ensures SumOf(GroupKeys(s + [x], key), GroupSum(s + [x], key, g))
         == SumOf(GroupKeys(s, key), GroupSum(s, key, g)) + g(x)
  {
    if key(x) in GroupKeys(s, key) {
      GroupKeysSnoc(s, x, key);
      SumOfGroupsSnoc(s, x, key, g, GroupKeys(s, key));
    } else {
      SumOfGroupsNewKey(s, x, key, g);
    }
  }

  /** `x => keys.includes(key(x))` */
  function KeyIn<T, K(==)>(key: T -> K, ks: seq<K>): T -> bool
  {
    x => key(x) in ks
  }

  /** A sum over distinct keys of a function that is 0 at every key is 0. */
  lemma {:induction false} SumOfZeros<K>(ks: seq<K>, h: K -> int)
    requires forall i :: 0 <= i < |ks| ==> h(ks[i]) == 0
    ensures SumOf(ks, h) == 0
    decreases |ks|
  {
    if ks != [] {
      SumOfZeros(ks[..|ks| - 1], h);
    }
  }

  /** When the groups are laid out in advance on a list of distinct keys, and
      rows of any other key are dropped, the group totals add up to the total
      over the rows whose key is listed. */
  lemma {:induction false} SumOfListedGroups<T, K>(s: seq<T>, key: T -> K, g: T -> int, ks: seq<K>)
    requires Distinct(ks)
    ensures SumOf(ks, GroupSum(s, key, g)) == SumOf(Filter(s, KeyIn(key, ks)), g)
    decreases |s|
  {
    if s == [] {
      SumOfZeros(ks, GroupSum(s, key, g));
    } else {
      var s' := s[..|s| - 1];
      var x := s[|s| - 1];
      assert s == s' + [x];
      SumOfListedGroups(s', key, g, ks);
      SumOfGroupsSnoc(s', x, key, g, ks);
      ListedSnoc(s', x, key, g, ks);
    }
  }

  /** Adding a row adds `g` of it to the total over the listed rows when
      its key is listed. */
  lemma ListedSnoc<T, K>(s: seq<T>, x: T, key: T -> K, g: T -> int, ks: seq<K>)
    ensures SumOf(Filter(s + [x], KeyIn(key, ks)), g)
         == SumOf(Filter(s, KeyIn(key, ks)), g) + (if key(x) in ks then g(x) else 0)
  {
    assert (s + [x])[..|s|] == s;
    var f := Filter(s, KeyIn(key, ks));
    if key(x) in ks {
      assert Filter(s + [x], KeyIn(key, ks)) == f + [x];
      SumOfSnoc(f, x, g);
    } else {
      assert Filter(s + [x], KeyIn(key, ks)) == f;
    }
  }

  /** The keys of two lists of rows, one after the other, are the keys of
      either list. */
  lemma GroupKeysOfConcat<T, K>(a: seq<T>, b: seq<T>, key: T -> K, k: K)
    ensures k in GroupKeys(a + b, key) <==>
      ((exists i :: 0 <= i < |a| && key(a[i]) == k) || (exists j :: 0 <= j < |b| && key(b[j]) == k))
  {
    var s := a + b;
    var ks := GroupKeys(s, key);
    if k in ks {
      var i :| 0 <= i < |ks| && ks[i] == k;
      var j :| 0 <= j < |s| && key(s[j]) == ks[i];
      if j < |a| {
        assert s[j] == a[j];
      } else {
        assert s[j] == b[j - |a|];
      }
    }
    if exists i :: 0 <= i < |a| && key(a[i]) == k {
      var i :| 0 <= i < |a| && key(a[i]) == k;
      assert s[i] == a[i];
    }
    if exists j :: 0 <= j < |b| && key(b[j]) == k {
      var j :| 0 <= j < |b| && key(b[j]) == k;
      assert s[|a| + j] == b[j];
    }
  }

  /** The keys of two lists of rows of different kinds, each mapped to a
      common kind, are the keys of either list. */
  lemma GroupKeysOfMapped<A, B, C, K>(xs: seq<A>, ys: seq<B>, g: A -> C, h: B -> C, key: C -> K, k: K)
    ensures k in GroupKeys(Map(xs, g) + Map(ys, h), key) <==>
      ((exists i :: 0 <= i < |xs| && key(g(xs[i])) == k) || (exists j :: 0 <= j < |ys| && key(h(ys[j])) == k))
  {
    var a := Map(xs, g);
    var b := Map(ys, h);
    GroupKeysOfConcat(a, b, key, k);
    if exists i :: 0 <= i < |a| && key(a[i]) == k {
      var i :| 0 <= i < |a| && key(a[i]) == k;
      assert key(g(xs[i])) == k;
    }
    if exists j :: 0 <= j < |b| && key(b[j]) == k {
      var j :| 0 <= j < |b| && key(b[j]) == k;
      assert key(h(ys[j])) == k;
    }
    if exists i :: 0 <= i < |xs| && key(g(xs[i])) == k {
      var i :| 0 <= i < |xs| && key(g(xs[i])) == k;
      assert key(a[i]) == k;
    }
    if exists j :: 0 <= j < |ys| && key(h(ys[j])) == k {
      var j :| 0 <= j < |ys| && key(h(ys[j])) == k;
      assert key(b[j]) == k;
    }
  }
}
