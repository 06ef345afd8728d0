/** Sequence and map folds shared by the registry and the package export loop:
    the last position of a value, and "assign each key in turn, the last write wins". */
module SeqUtil {
  import opened PyRuntime

  /** The position of the last occurrence of `x` in `s`. */
  function LastIndex<T(==)>(s: seq<T>, x: T): (i: nat)
    requires x in s
    ensures i < |s| && s[i] == x
    ensures forall j :: i < j < |s| ==> s[j] != x
  {
    if x in s[1..] then 1 + LastIndex(s[1..], x) else 0
  }

  /** Binds `keys[i]` to `start + i`, for i = 0, 1, ... in turn. */
  function AssignIndexed<K(==)>(m: map<K, nat>, keys: seq<K>, start: nat): map<K, nat>
    decreases |keys|
  {
    if keys == [] then m else AssignIndexed(m[keys[0] := start], keys[1..], start + 1)
  }

  /** After the assignments every key of `keys` is bound to the index of its LAST
      occurrence; the other keys keep their old binding. */
  lemma {:induction false} AssignIndexedLastWins<K>(m: map<K, nat>, keys: seq<K>, start: nat)
    ensures var r := AssignIndexed(m, keys, start);
      && (forall k :: k in r <==> k in m || k in keys)
      && (forall k :: k in keys ==> r[k] == start + LastIndex(keys, k))
      && (forall k :: k in m && k !in keys ==> r[k] == m[k])
    decreases |keys|
  {
    if keys != [] {
      var m' := m[keys[0] := start];
      AssignIndexedLastWins(m', keys[1..], start + 1);
      var r := AssignIndexed(m, keys, start);
      assert r == AssignIndexed(m', keys[1..], start + 1);
      assert keys == [keys[0]] + keys[1..];
      forall k ensures k in r <==> k in m || k in keys {
        assert k in r <==> k in m' || k in keys[1..];
        assert k in keys <==> k == keys[0] || k in keys[1..];
      }
      forall k | k in keys ensures r[k] == start + LastIndex(keys, k) {
        if k in keys[1..] {
          assert LastIndex(keys, k) == 1 + LastIndex(keys[1..], k);
        } else {
          assert k == keys[0];
        }
      }
    }
  }

  /** `m[k] := v` for every pair `(k, v)` of `pairs`, in order. */
  function AssignAll<K(==), V>(m: map<K, V>, pairs: seq<(K, V)>): map<K, V>
    decreases |pairs|
  {
    if pairs == [] then m else AssignAll(m[pairs[0].0 := pairs[0].1], pairs[1..])
  }

  function Keys<K, V>(pairs: seq<(K, V)>): (r: seq<K>)
    ensures |r| == |pairs|
    ensures forall i :: 0 <= i < |pairs| ==> r[i] == pairs[i].0
  {
    if pairs == [] then [] else [pairs[0].0] + Keys(pairs[1..])
  }

  /** After the assignments every key of `pairs` holds the value of its LAST pair;
      the other keys keep their old value. */
  lemma {:induction false} AssignAllLastWins<K, V>(m: map<K, V>, pairs: seq<(K, V)>)
    ensures var r := AssignAll(m, pairs); var ks := Keys(pairs);
      && (forall k :: k in r <==> k in m || k in ks)
      && (forall k :: k in ks ==> r[k] == pairs[LastIndex(ks, k)].1)
      && (forall k :: k in m && k !in ks ==> r[k] == m[k])
    decreases |pairs|
  {
    if pairs != [] {
      var m' := m[pairs[0].0 := pairs[0].1];
      AssignAllLastWins(m', pairs[1..]);
      var r := AssignAll(m, pairs);
      var ks := Keys(pairs);
      assert Keys(pairs[1..]) == ks[1..];
      assert ks == [ks[0]] + ks[1..];
      forall k ensures k in r <==> k in m || k in ks {
        assert k in r <==> k in m' || k in ks[1..];
        assert k in ks <==> k == ks[0] || k in ks[1..];
      }
      forall k | k in ks ensures r[k] == pairs[LastIndex(ks, k)].1 {
        if k in ks[1..] {
          assert LastIndex(ks, k) == 1 + LastIndex(ks[1..], k);
        } else {
          assert k == ks[0];
        }
      }
    }
  }

  /** `m[k] := v` for every pair of `p1 + p2` is `p1`'s assignments, then `p2`'s. */
  lemma {:induction false} AssignAllAppend<K, V>(m: map<K, V>, p1: seq<(K, V)>, p2: seq<(K, V)>)
    ensures AssignAll(m, p1 + p2) == AssignAll(AssignAll(m, p1), p2)
    decreases |p1|
  {
    if p1 == [] {
      assert p1 + p2 == p2;
    } else {
      assert (p1 + p2)[1..] == p1[1..] + p2;
      AssignAllAppend(m[p1[0].0 := p1[0].1], p1[1..], p2);
    }
  }

  /** The pairs of `pairs` whose key is `k`, in order. */
  function OnKey<K(==), V>(pairs: seq<(K, V)>, k: K): (r: seq<(K, V)>)
    ensures forall i :: 0 <= i < |r| ==> r[i].0 == k
    decreases |pairs|
  {
    if pairs == [] then []
    else (if pairs[0].0 == k then [pairs[0]] else []) + OnKey(pairs[1..], k)
  }

  lemma {:induction false} OnKeyAppend<K, V>(p1: seq<(K, V)>, p2: seq<(K, V)>, k: K)
    ensures OnKey(p1 + p2, k) == OnKey(p1, k) + OnKey(p2, k)
    decreases |p1|
  {
    if p1 == [] {
      assert p1 + p2 == p2;
    } else {
      assert (p1 + p2)[0] == p1[0];
      assert (p1 + p2)[1..] == p1[1..] + p2;
      OnKeyAppend(p1[1..], p2, k);
    }
  }

  /** Two maps that agree on `k` still agree on `k` after the same assignments. */
  lemma {:induction false} AssignAllAgree<K, V>(m1: map<K, V>, m2: map<K, V>, pairs: seq<(K, V)>, k: K)
    requires MapGet(m1, k) == MapGet(m2, k)
    ensures MapGet(AssignAll(m1, pairs), k) == MapGet(AssignAll(m2, pairs), k)
    decreases |pairs|
  {
    if pairs != [] {
      var p := pairs[0];
      assert MapGet(m1[p.0 := p.1], k) == MapGet(m2[p.0 := p.1], k);
      AssignAllAgree(m1[p.0 := p.1], m2[p.0 := p.1], pairs[1..], k);
    }
  }

  /** What a run of assignments leaves under `k` depends only on the pairs with key `k`. */
  lemma {:induction false} AssignAllOnKey<K, V>(m: map<K, V>, pairs: seq<(K, V)>, k: K)
    ensures MapGet(AssignAll(m, pairs), k) == MapGet(AssignAll(m, OnKey(pairs, k)), k)
    decreases |pairs|
  {
    if pairs != [] {
      var p := pairs[0];
      var m' := m[p.0 := p.1];
      AssignAllOnKey(m', pairs[1..], k);
      if p.0 == k {
        assert OnKey(pairs, k) == [p] + OnKey(pairs[1..], k);
        assert ([p] + OnKey(pairs[1..], k))[1..] == OnKey(pairs[1..], k);
      } else {
        assert OnKey(pairs, k) == OnKey(pairs[1..], k);
        assert MapGet(m', k) == MapGet(m, k);
        AssignAllAgree(m', m, OnKey(pairs[1..], k), k);
      }
    }
  }

  lemma AssignAllCons<K, V>(m: map<K, V>, p: (K, V), rest: seq<(K, V)>)
    ensures AssignAll(m, [p] + rest) == AssignAll(m[p.0 := p.1], rest)
  {
    assert ([p] + rest)[0] == p && ([p] + rest)[1..] == rest;
  }

  lemma OnKeyCons<K, V>(p: (K, V), rest: seq<(K, V)>, k: K)
    ensures OnKey([p] + rest, k) == (if p.0 == k then [p] else []) + OnKey(rest, k)
  {
    assert ([p] + rest)[0] == p && ([p] + rest)[1..] == rest;
  }
}
