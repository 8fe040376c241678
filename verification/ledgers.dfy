/**
 * Balance totals of a bank, stated on values.
 *
 * A registry holds its accounts in three id-keyed maps (checking, savings
 * and credit); the bank holds one registry per account holder. The totals
 * the registry and the bank report depend only on which account sits under
 * which key and on each account's balance, so they are defined here on a
 * layout (holder id to the registry's three maps) and a snapshot of
 * balances (account to balance). An account missing from the snapshot
 * counts as 0.
 */
module Ledgers {
  import opened MapSums

  /** The three account maps of one holder's registry. */
  datatype Slots<A> = Slots(checking: map<string, A>, saving: map<string, A>, credit: map<string, A>)

  /** A registry with no accounts. */
  function NoSlots<A>(): Slots<A>
  {
    Slots(map[], map[], map[])
  }

  /** Every account the registry holds. */
  function Held<A>(s: Slots<A>): set<A>
  {
    s.checking.Values + s.saving.Values + s.credit.Values
  }

  /** Every account some registry of the layout holds. */
  ghost function LayoutHeld<A>(l: map<string, Slots<A>>): (held: set<A>)
    ensures forall id, a :: id in l && a in Held(l[id]) ==> a in held
  {
    set id, a | id in l && a in Held(l[id]) :: a
  }

  /** The balance of each entry of `m`, read from `bal`. */
  function BalancesUnder<A>(m: map<string, A>, bal: map<A, real>): (b: map<string, real>)
    ensures b.Keys == m.Keys
    ensures forall k :: k in m ==> b[k] == if m[k] in bal then bal[m[k]] else 0.0
  {
    map k | k in m :: if m[k] in bal then bal[m[k]] else 0.0
  }

  /** A registry's total: its three maps summed. */
  ghost function SlotsTotal<A>(s: Slots<A>, bal: map<A, real>): real
  {
    MapSum(BalancesUnder(s.checking, bal)) + MapSum(BalancesUnder(s.saving, bal)) + MapSum(BalancesUnder(s.credit, bal))
  }

  /** Each holder's total. */
  ghost function LayoutTotals<A>(l: map<string, Slots<A>>, bal: map<A, real>): (t: map<string, real>)
    ensures t.Keys == l.Keys
    ensures forall id :: id in l ==> t[id] == SlotsTotal(l[id], bal)
  {
    map id | id in l :: SlotsTotal(l[id], bal)
  }

  /** The bank's total: every holder's total summed. */
  ghost function LayoutTotal<A>(l: map<string, Slots<A>>, bal: map<A, real>): real
  {
    MapSum(LayoutTotals(l, bal))
  }

  /** The entries of `m` that hold `a`, weighted `x`; every other entry 0. */
  function Spot<A(==)>(m: map<string, A>, a: A, x: real): (s: map<string, real>)
    ensures s.Keys == m.Keys
    ensures forall k :: k in m ==> s[k] == (if m[k] == a then x else 0.0)
  {
    map k | k in m :: if m[k] == a then x else 0.0
  }

  /** The weight `x` counted once for every entry of the registry that holds `a`. */
  ghost function SlotsExposure<A>(s: Slots<A>, a: A, x: real): real
  {
    MapSum(Spot(s.checking, a, x)) + MapSum(Spot(s.saving, a, x)) + MapSum(Spot(s.credit, a, x))
  }

  /** The weight `x` counted once for every registry entry of the layout that holds `a`. */
  ghost function LayoutExposure<A>(l: map<string, Slots<A>>, a: A, x: real): real
  {
    MapSum(map id | id in l :: SlotsExposure(l[id], a, x))
  }

  /** `a` is the value of exactly one entry of `m`. */
  ghost predicate SoleIn<A>(m: map<string, A>, a: A)
  {
    exists k :: k in m && m[k] == a && forall j :: j in m && m[j] == a ==> j == k
  }

  /** `a` sits in exactly one entry of the registry's three maps. */
  ghost predicate SlotsHoldOnce<A>(s: Slots<A>, a: A)
  {
    || (SoleIn(s.checking, a) && a !in s.saving.Values && a !in s.credit.Values)
    || (a !in s.checking.Values && SoleIn(s.saving, a) && a !in s.credit.Values)
    || (a !in s.checking.Values && a !in s.saving.Values && SoleIn(s.credit, a))
  }

  /** `a` sits in exactly one registry entry of the whole layout. */
  ghost predicate LayoutHoldsOnce<A>(l: map<string, Slots<A>>, a: A)
  {
    exists id :: id in l && SlotsHoldOnce(l[id], a) && forall j :: j in l && j != id ==> a !in Held(l[j])
  }

  // ---- moving one balance ----

  lemma BalancesUnderShift<A>(m: map<string, A>, bal: map<A, real>, a: A, delta: real)
    requires a in bal
    ensures MapSum(BalancesUnder(m, bal[a := bal[a] + delta]))
            == MapSum(BalancesUnder(m, bal)) + MapSum(Spot(m, a, delta))
  {
    var before, after, shift := BalancesUnder(m, bal), BalancesUnder(m, bal[a := bal[a] + delta]), Spot(m, a, delta);
    forall k | k in before ensures after[k] == before[k] + shift[k] {
    }
    MapSumAdd(before, shift, after);
  }

  /** Moving the balance of `a` by `delta` moves a registry's total by `delta` per entry holding `a`. */
  lemma SlotsShift<A>(s: Slots<A>, bal: map<A, real>, a: A, delta: real)
    requires a in bal
    ensures SlotsTotal(s, bal[a := bal[a] + delta]) == SlotsTotal(s, bal) + SlotsExposure(s, a, delta)
  {
    BalancesUnderShift(s.checking, bal, a, delta);
    BalancesUnderShift(s.saving, bal, a, delta);
    BalancesUnderShift(s.credit, bal, a, delta);
  }

  /** Moving the balance of `a` by `delta` moves the bank's total by `delta` per registry entry holding `a`. */
  lemma LayoutShift<A>(l: map<string, Slots<A>>, bal: map<A, real>, a: A, delta: real)
    requires a in bal
    ensures LayoutTotal(l, bal[a := bal[a] + delta]) == LayoutTotal(l, bal) + LayoutExposure(l, a, delta)
  {
    var before, after := LayoutTotals(l, bal), LayoutTotals(l, bal[a := bal[a] + delta]);
    var shift := map id | id in l :: SlotsExposure(l[id], a, delta);
    forall id | id in before ensures after[id] == before[id] + shift[id] {
      SlotsShift(l[id], bal, a, delta);
    }
    MapSumAdd(before, shift, after);
  }

  // ---- exposure ----

  lemma SpotAbsent<A>(m: map<string, A>, a: A, x: real)
    requires a !in m.Values
    ensures MapSum(Spot(m, a, x)) == 0.0
  {
    var s := Spot(m, a, x);
    forall k | k in s ensures s[k] == 0.0 {
      assert m[k] in m.Values;
    }
    MapSumZeros(s);
  }

  lemma SpotSole<A>(m: map<string, A>, a: A, x: real)
    requires SoleIn(m, a)
    ensures MapSum(Spot(m, a, x)) == x
  {
    var k :| k in m && m[k] == a && forall j :: j in m && m[j] == a ==> j == k;
    MapSumOnly(Spot(m, a, x), k);
  }

  lemma SlotsExposureAbsent<A>(s: Slots<A>, a: A, x: real)
    requires a !in Held(s)
    ensures SlotsExposure(s, a, x) == 0.0
  {
    SpotAbsent(s.checking, a, x);
    SpotAbsent(s.saving, a, x);
    SpotAbsent(s.credit, a, x);
  }

  lemma SlotsExposureOnce<A>(s: Slots<A>, a: A, x: real)
    requires SlotsHoldOnce(s, a)
    ensures SlotsExposure(s, a, x) == x
  {
    if SoleIn(s.checking, a) && a !in s.saving.Values && a !in s.credit.Values {
      SpotSole(s.checking, a, x);
      SpotAbsent(s.saving, a, x);
      SpotAbsent(s.credit, a, x);
    } else if SoleIn(s.saving, a) && a !in s.checking.Values && a !in s.credit.Values {
      SpotAbsent(s.checking, a, x);
      SpotSole(s.saving, a, x);
      SpotAbsent(s.credit, a, x);
    } else {
      SpotAbsent(s.checking, a, x);
      SpotAbsent(s.saving, a, x);
      SpotSole(s.credit, a, x);
    }
  }

  /** An account no registry holds is counted nowhere. */
  lemma LayoutExposureAbsent<A>(l: map<string, Slots<A>>, a: A, x: real)
    requires a !in LayoutHeld(l)
    ensures LayoutExposure(l, a, x) == 0.0
  {
    var e := map id | id in l :: SlotsExposure(l[id], a, x);
    forall id | id in e ensures e[id] == 0.0 {
      SlotsExposureAbsent(l[id], a, x);
    }
    MapSumZeros(e);
  }

  /** An account held in exactly one registry entry is counted exactly once. */
  lemma LayoutExposureOnce<A>(l: map<string, Slots<A>>, a: A, x: real)
    requires LayoutHoldsOnce(l, a)
    ensures LayoutExposure(l, a, x) == x
  {
    var id :| id in l && SlotsHoldOnce(l[id], a) && forall j :: j in l && j != id ==> a !in Held(l[j]);
    var e := map j | j in l :: SlotsExposure(l[j], a, x);
    forall j | j in e && j != id ensures e[j] == 0.0 {
      SlotsExposureAbsent(l[j], a, x);
    }
    SlotsExposureOnce(l[id], a, x);
    MapSumOnly(e, id);
  }

  /** A weight of zero counts nothing, wherever the account is held. */
  lemma LayoutExposureZero<A>(l: map<string, Slots<A>>, a: A)
    ensures LayoutExposure(l, a, 0.0) == 0.0
  {
    var e := map id | id in l :: SlotsExposure(l[id], a, 0.0);
    forall id | id in e ensures e[id] == 0.0 {
      MapSumZeros(Spot(l[id].checking, a, 0.0));
      MapSumZeros(Spot(l[id].saving, a, 0.0));
      MapSumZeros(Spot(l[id].credit, a, 0.0));
    }
    MapSumZeros(e);
  }

  // ---- snapshots that agree ----

  /** Two snapshots that agree on the accounts a map holds give it the same balances. */
  lemma BalancesUnderAgree<A>(m: map<string, A>, b1: map<A, real>, b2: map<A, real>)
    requires forall a :: a in m.Values ==> a in b1 && a in b2 && b1[a] == b2[a]
    ensures BalancesUnder(m, b1) == BalancesUnder(m, b2)
  {
    forall k | k in m ensures BalancesUnder(m, b1)[k] == BalancesUnder(m, b2)[k] {
      assert m[k] in m.Values;
    }
  }

  lemma SlotsAgree<A>(s: Slots<A>, b1: map<A, real>, b2: map<A, real>)
    requires forall a :: a in Held(s) ==> a in b1 && a in b2 && b1[a] == b2[a]
    ensures SlotsTotal(s, b1) == SlotsTotal(s, b2)
  {
    BalancesUnderAgree(s.checking, b1, b2);
    BalancesUnderAgree(s.saving, b1, b2);
    BalancesUnderAgree(s.credit, b1, b2);
  }

  /** The bank's total depends only on the balances of the accounts the registries hold. */
  lemma LayoutAgree<A>(l: map<string, Slots<A>>, b1: map<A, real>, b2: map<A, real>)
    requires forall id, a :: id in l && a in Held(l[id]) ==> a in b1 && a in b2 && b1[a] == b2[a]
    ensures LayoutTotal(l, b1) == LayoutTotal(l, b2)
  {
    forall id | id in l ensures SlotsTotal(l[id], b1) == SlotsTotal(l[id], b2) {
      SlotsAgree(l[id], b1, b2);
    }
    MapSumSame(LayoutTotals(l, b1), LayoutTotals(l, b2));
  }

  /**
   * The bank's total after only the balance of `a` moved by `delta`: the
   * total before plus `delta` for every registry entry holding `a`.
   */
  lemma LayoutMoved<A>(l: map<string, Slots<A>>, bal: map<A, real>, now: map<A, real>, a: A, delta: real)
    requires LayoutHeld(l) <= bal.Keys
    requires forall x :: x in bal ==> x in now && now[x] == (if x == a then bal[x] + delta else bal[x])
    ensures LayoutTotal(l, now) == LayoutTotal(l, bal) + LayoutExposure(l, a, delta)
  {
    if a in bal {
      var moved := bal[a := bal[a] + delta];
      LayoutAgree(l, now, moved);
      LayoutShift(l, bal, a, delta);
    } else {
      LayoutAgree(l, now, bal);
      LayoutExposureAbsent(l, a, delta);
    }
  }

  /** Two layouts that agree holder by holder are the same layout. */
  lemma LayoutsEqual<A>(l1: map<string, Slots<A>>, l2: map<string, Slots<A>>)
    requires l1.Keys == l2.Keys
    requires forall id :: id in l1 ==> l1[id] == l2[id]
    ensures l1 == l2
  {
  }

  // ---- registering a holder ----

  /** A registry with no accounts totals 0. */
  lemma NoSlotsTotal<A>(bal: map<A, real>)
    ensures SlotsTotal(NoSlots(), bal) == 0.0
  {
    var none: map<string, real> := BalancesUnder(map[], bal);
    assert none == map[];
  }

  /** Registering an empty registry under `id` drops the total of the registry it replaces. */
  lemma LayoutRegister<A>(l: map<string, Slots<A>>, id: string, bal: map<A, real>)
    ensures LayoutTotal(l[id := NoSlots()], bal)
            == LayoutTotal(l, bal) - (if id in l then SlotsTotal(l[id], bal) else 0.0)
  {
    NoSlotsTotal(bal);
    var before, after := LayoutTotals(l, bal), LayoutTotals(l[id := NoSlots()], bal);
    MapSumSame(after, before[id := 0.0]);
    MapSumUpdate(before, id, 0.0);
  }

  /**
   * The bank's total after an empty registry was registered under `id`,
   * with every balance as before.
   */
  lemma LayoutRegistered<A>(l: map<string, Slots<A>>, id: string, bal: map<A, real>, now: map<A, real>)
    requires forall j, x :: j in l && j != id && x in Held(l[j]) ==> x in bal && x in now && now[x] == bal[x]
    ensures LayoutTotal(l[id := NoSlots()], now)
            == LayoutTotal(l, bal) - (if id in l then SlotsTotal(l[id], bal) else 0.0)
  {
    var after := l[id := NoSlots()];
    forall j, x | j in after && x in Held(after[j]) ensures x in now && x in bal && now[x] == bal[x] {
      assert j != id;
    }
    LayoutAgree(after, now, bal);
    LayoutRegister(l, id, bal);
  }

  // ---- signs ----

  lemma SlotsTotalNonNegative<A>(s: Slots<A>, bal: map<A, real>)
    requires forall a :: a in bal ==> bal[a] >= 0.0
    ensures SlotsTotal(s, bal) >= 0.0
  {
    MapSumNonNegative(BalancesUnder(s.checking, bal));
    MapSumNonNegative(BalancesUnder(s.saving, bal));
    MapSumNonNegative(BalancesUnder(s.credit, bal));
  }

  /** With no negative balance, no total is negative. */
  lemma LayoutTotalNonNegative<A>(l: map<string, Slots<A>>, bal: map<A, real>)
    requires forall a :: a in bal ==> bal[a] >= 0.0
    ensures LayoutTotal(l, bal) >= 0.0
  {
    forall id | id in l ensures LayoutTotals(l, bal)[id] >= 0.0 {
      SlotsTotalNonNegative(l[id], bal);
    }
    MapSumNonNegative(LayoutTotals(l, bal));
  }
}
