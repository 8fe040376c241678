/**
 * Sums over the values of a finite map.
 *
 * The registry and the bank add up balances by iterating over Python
 * dictionaries. A sum does not depend on the order of iteration, so the
 * model sums a map by removing an arbitrary key at a time, and proves
 * that the key removed first does not matter (MapSumRemove).
 */
module MapSums {

  /** The sum of all values of `m`. */
  ghost function MapSum<K>(m: map<K, real>): real
    decreases |m|
  {
    if m == map[] then 0.0
    else
      assert exists k :: k in m by { assert m.Keys != {}; }
      var k :| k in m;
      assert |m - {k}| < |m| by { assert (m - {k}).Keys == m.Keys - {k}; }
      m[k] + MapSum(m - {k})
  }

  /** Any key can be taken out of the sum first. */
  lemma {:induction false} MapSumRemove<K>(m: map<K, real>, k: K)
    requires k in m
    ensures MapSum(m) == m[k] + MapSum(m - {k})
    decreases |m|
  {
    var j :| j in m && MapSum(m) == m[j] + MapSum(m - {j});
    if j != k {
      assert (m - {j}).Keys == m.Keys - {j};
      assert (m - {k}).Keys == m.Keys - {k};
      MapSumRemove(m - {j}, k);
      MapSumRemove(m - {k}, j);
      assert m - {j} - {k} == m - {k} - {j};
    }
  }

  /** Maps that agree entry by entry have the same sum. */
  lemma MapSumSame<K>(m1: map<K, real>, m2: map<K, real>)
    requires m1.Keys == m2.Keys
    requires forall k :: k in m1 ==> m1[k] == m2[k]
    ensures MapSum(m1) == MapSum(m2)
  {
    assert m1 == m2;
  }

  /** Setting one entry changes the sum by the difference at that entry. */
  lemma MapSumUpdate<K>(m: map<K, real>, k: K, v: real)
    ensures MapSum(m[k := v]) == MapSum(m) - (if k in m then m[k] else 0.0) + v
  {
    MapSumRemove(m[k := v], k);
    if k in m {
      MapSumRemove(m, k);
      assert m[k := v] - {k} == m - {k};
    } else {
      assert m[k := v] - {k} == m;
    }
  }

  /** Non-negative values have a non-negative sum. */
  lemma {:induction false} MapSumNonNegative<K>(m: map<K, real>)
    requires forall k :: k in m ==> m[k] >= 0.0
    ensures MapSum(m) >= 0.0
    decreases |m|
  {
    if m != map[] {
      var k :| k in m;
      MapSumRemove(m, k);
      assert (m - {k}).Keys == m.Keys - {k};
      MapSumNonNegative(m - {k});
    }
  }

  /** Adding two maps entry by entry adds their sums. */
  lemma {:induction false} MapSumAdd<K>(before: map<K, real>, shift: map<K, real>, after: map<K, real>)
    requires after.Keys == before.Keys && shift.Keys == before.Keys
    requires forall k :: k in before ==> after[k] == before[k] + shift[k]
    ensures MapSum(after) == MapSum(before) + MapSum(shift)
    decreases |before|
  {
    if before == map[] {
      assert after == map[] && shift == map[];
    } else {
      var k :| k in before;
      MapSumRemove(before, k);
      MapSumRemove(after, k);
      MapSumRemove(shift, k);
      assert (before - {k}).Keys == before.Keys - {k};
      MapSumAdd(before - {k}, shift - {k}, after - {k});
    }
  }

  /** A map whose values are all zero sums to zero. */
  lemma {:induction false} MapSumZeros<K>(m: map<K, real>)
    requires forall k :: k in m ==> m[k] == 0.0
    ensures MapSum(m) == 0.0
    decreases |m|
  {
    if m != map[] {
      var k :| k in m;
      MapSumRemove(m, k);
      assert (m - {k}).Keys == m.Keys - {k};
      MapSumZeros(m - {k});
    }
  }

  /** If every entry but the one at `k` is zero, the sum is the entry at `k`. */
  lemma MapSumOnly<K>(m: map<K, real>, k: K)
    requires k in m
    requires forall j :: j in m && j != k ==> m[j] == 0.0
    ensures MapSum(m) == m[k]
  {
    MapSumRemove(m, k);
    MapSumZeros(m - {k});
  }

  /** The entries of `m` whose keys are in `keys`. */
  function Restrict<K>(m: map<K, real>, keys: set<K>): (r: map<K, real>)
    ensures r.Keys == m.Keys * keys
    ensures forall k :: k in r ==> r[k] == m[k]
  {
    map k | k in m && k in keys :: m[k]
  }

  /** Restricting to every key keeps the whole sum. */
  lemma MapSumRestrictAll<K>(m: map<K, real>, keys: set<K>)
    requires m.Keys <= keys
    ensures MapSum(Restrict(m, keys)) == MapSum(m)
  {
    assert Restrict(m, keys) == m;
  }

  /** Restricting to no key leaves nothing to sum. */
  lemma MapSumRestrictNone<K>(m: map<K, real>)
    ensures MapSum(Restrict(m, {})) == 0.0
  {
    assert Restrict(m, {}) == map[];
  }

  /** Taking one key out of the restriction takes its entry out of the sum. */
  lemma MapSumRestrictTake<K>(m: map<K, real>, keys: set<K>, k: K)
    requires k in m && k in keys
    ensures MapSum(Restrict(m, keys)) == m[k] + MapSum(Restrict(m, keys - {k}))
  {
    MapSumRemove(Restrict(m, keys), k);
    assert Restrict(m, keys) - {k} == Restrict(m, keys - {k});
  }
}
