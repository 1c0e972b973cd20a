/** A JavaScript object filled by a `forEach` as a dictionary:

      rows.forEach(x => {
        if (!acc[key(x)]) acc[key(x)] = start(key(x))
        acc[key(x)] = step(acc[key(x)], x)
      })

    followed by `Object.values(acc)`. The keys come in order of first
    appearance, and the value of a key is `step` folded over the rows of that
    key, from `start`. */
module Dictionaries {
  import opened Seqs
  import opened Grouping

  /** The object: its keys in insertion order and the value of each. */
  datatype Dict<K, V> = Dict(keys: seq<K>, entries: map<K, V>)

  /** `s.reduce(step, v)` */
  function Fold<T, V>(s: seq<T>, v: V, step: (V, T) -> V): V
  {
    if s == [] then v else step(Fold(s[..|s| - 1], v, step), s[|s| - 1])
  }

  /** The object after the `forEach` over `s`. */
  function Accumulate<T, K(==), V>(s: seq<T>, key: T -> K, start: K -> V, step: (V, T) -> V): Dict<K, V>
  {
    if s == [] then Dict([], map[])
    else
      var d := Accumulate(s[..|s| - 1], key, start, step);
      var x := s[|s| - 1];
      var k := key(x);
      if k in d.entries then Dict(d.keys, d.entries[k := step(d.entries[k], x)])
      else Dict(d.keys + [k], d.entries[k := step(start(k), x)])
  }

  /** The value a key ends with: `step` over its own rows. */
  function Group<T, K(==), V>(s: seq<T>, key: T -> K, start: K -> V, step: (V, T) -> V): K -> V
  {
    k => Fold(Filter(s, InGroup(key, k)), start(k), step)
  }

  /** Every key has a value and every value a key. */
  lemma {:induction false} AccumulateDomain<T, K, V>(s: seq<T>, key: T -> K, start: K -> V, step: (V, T) -> V, k: K)
    ensures k in Accumulate(s, key, start, step).entries <==> k in Accumulate(s, key, start, step).keys
    decreases |s|
  {
    if s != [] {
      AccumulateDomain(s[..|s| - 1], key, start, step, k);
    }
  }

  /** The keys are the keys of the rows in order of first appearance. */
  lemma {:induction false} AccumulateKeys<T, K, V>(s: seq<T>, key: T -> K, start: K -> V, step: (V, T) -> V)
    ensures Accumulate(s, key, start, step).keys == GroupKeys(s, key)
    decreases |s|
  {
    if s != [] {
      var s' := s[..|s| - 1];
      var x := s[|s| - 1];
      AccumulateKeys(s', key, start, step);
      AccumulateDomain(s', key, start, step, key(x));
      assert s == s' + [x];
      GroupKeysSnoc(s', x, key);
    }
  }

  /** One more row changes the value of its own key only, by one `step`. */
  lemma GroupSnoc<T, K, V>(s: seq<T>, x: T, key: T -> K, start: K -> V, step: (V, T) -> V, k: K)
    ensures Group(s + [x], key, start, step)(k)
         == if key(x) == k then step(Group(s, key, start, step)(k), x) else Group(s, key, start, step)(k)
  {
    assert (s + [x])[..|s|] == s;
    var f := Filter(s, InGroup(key, k));
    if key(x) == k {
      assert Filter(s + [x], InGroup(key, k)) == f + [x];
      assert (f + [x])[..|f|] == f;
    } else {
      assert Filter(s + [x], InGroup(key, k)) == f;
    }
  }

  /** A key has a value exactly when some row has it, and that value is the
      fold over its rows. */
  lemma {:induction false} AccumulateAt<T, K, V>(s: seq<T>, key: T -> K, start: K -> V, step: (V, T) -> V, k: K)
    ensures k in Accumulate(s, key, start, step).entries <==> Filter(s, InGroup(key, k)) != []
    ensures k in Accumulate(s, key, start, step).entries
        ==> Accumulate(s, key, start, step).entries[k] == Group(s, key, start, step)(k)
    decreases |s|
  {
    if s != [] {
      var s' := s[..|s| - 1];
      var x := s[|s| - 1];
      assert s == s' + [x];
      AccumulateAt(s', key, start, step, k);
      AccumulateStep(s', x, key, start, step, k);
      GroupSnoc(s', x, key, start, step, k);
      FilterSnoc(s', x, InGroup(key, k));
    }
  }

  /** The object after one more row, as the `forEach` body leaves it. */
  lemma AccumulateSnoc<T, K, V>(s: seq<T>, x: T, key: T -> K, start: K -> V, step: (V, T) -> V)
    ensures var d := Accumulate(s, key, start, step);
      Accumulate(s + [x], key, start, step)
        == if key(x) in d.entries then Dict(d.keys, d.entries[key(x) := step(d.entries[key(x)], x)])
           else Dict(d.keys + [key(x)], d.entries[key(x) := step(start(key(x)), x)])
  {
    assert (s + [x])[..|s|] == s;
  }

  /** One more row adds its key if new and steps the value of its key only. */
  lemma AccumulateStep<T, K, V>(s: seq<T>, x: T, key: T -> K, start: K -> V, step: (V, T) -> V, k: K)
    ensures var d, d' := Accumulate(s, key, start, step), Accumulate(s + [x], key, start, step);
      (k in d'.entries <==> k in d.entries || key(x) == k)
      && (k in d'.entries ==>
            d'.entries[k] == if key(x) != k then d.entries[k]
                             else step(if k in d.entries then d.entries[k] else start(k), x))
  {
    assert (s + [x])[..|s|] == s;
  }

  /** `Object.values(acc)` */
  function Values<K, V>(d: Dict<K, V>): (r: seq<V>)
    requires forall k :: k in d.keys ==> k in d.entries
    ensures |r| == |d.keys|
  {
    seq(|d.keys|, i requires 0 <= i < |d.keys| => d.entries[d.keys[i]])
  }

  /** The values are the groups' folds, key by key in order of first
      appearance. */
  lemma AccumulateValues<T, K, V>(s: seq<T>, key: T -> K, start: K -> V, step: (V, T) -> V)
    ensures var d := Accumulate(s, key, start, step);
      (forall k :: k in d.keys ==> k in d.entries)
      && Values(d) == Map(GroupKeys(s, key), Group(s, key, start, step))
  {
    var d := Accumulate(s, key, start, step);
    forall k | k in d.keys
      ensures k in d.entries
    {
      AccumulateDomain(s, key, start, step, k);
    }
    AccumulateKeys(s, key, start, step);
    var ks := GroupKeys(s, key);
    forall i | 0 <= i < |ks|
      ensures Values(d)[i] == Group(s, key, start, step)(ks[i])
    {
      AccumulateAt(s, key, start, step, ks[i]);
    }
  }

  /** The body of the `forEach` for the row `x`. */
  method Put<T, K(==), V>(d0: Dict<K, V>, x: T, key: T -> K, start: K -> V, step: (V, T) -> V)
    returns (d: Dict<K, V>)
    ensures d == if key(x) in d0.entries then Dict(d0.keys, d0.entries[key(x) := step(d0.entries[key(x)], x)])
                 else Dict(d0.keys + [key(x)], d0.entries[key(x) := step(start(key(x)), x)])
  {
    d := d0;
    var k := key(x);
    if k !in d.entries {
      d := Dict(d.keys + [k], d.entries[k := start(k)]);
    }
    d := d.(entries := d.entries[k := step(d.entries[k], x)]);
  }

  /** The `forEach` itself. */
  method AccumulateRows<T, K(==), V>(s: seq<T>, key: T -> K, start: K -> V, step: (V, T) -> V)
    returns (d: Dict<K, V>)
    ensures d == Accumulate(s, key, start, step)
  {
    d := Dict([], map[]);
    var i := 0;
    while i < |s|
      invariant 0 <= i <= |s|
      invariant d == Accumulate(s[..i], key, start, step)
    {
      assert s[..i + 1] == s[..i] + [s[i]];
      AccumulateSnoc(s[..i], s[i], key, start, step);
      d := Put(d, s[i], key, start, step);
      i := i + 1;
    }
    assert s[..i] == s;
  }

  /** A further `forEach`, over `s`, into the object filled from `s0`. */
  method AccumulateMore<T, K(==), V>(s0: seq<T>, d0: Dict<K, V>, s: seq<T>,
                                     key: T -> K, start: K -> V, step: (V, T) -> V)
    returns (d: Dict<K, V>)
    requires d0 == Accumulate(s0, key, start, step)
    ensures d == Accumulate(s0 + s, key, start, step)
  {
    d := d0;
    var i := 0;
    assert s0 + s[..0] == s0;
    while i < |s|
      invariant 0 <= i <= |s|
      invariant d == Accumulate(s0 + s[..i], key, start, step)
    {
      assert s0 + s[..i + 1] == (s0 + s[..i]) + [s[i]];
      AccumulateSnoc(s0 + s[..i], s[i], key, start, step);
      d := Put(d, s[i], key, start, step);
      i := i + 1;
    }
    assert s[..i] == s;
  }
}
