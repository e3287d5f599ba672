/**
 The bundle simulator checks running totals against one fixed context; the node
 consumes the same transactions one by one.  This module relates the two.
 */
module Batch {
  import opened Words
  import opened Ledger
  import opened Settlement

  // ---- exact sums over a list of transactions ----

  function SumFills(evs: seq<TxEvents>, a: Asset, r: Address): nat {
    if evs == [] then 0
    else SumFills(evs[..|evs| - 1], a, r) + Filled(evs[|evs| - 1].fills, a, r)
  }

  function SumOrders(evs: seq<TxEvents>, a: Asset, r: Address): nat {
    if evs == [] then 0
    else SumOrders(evs[..|evs| - 1], a, r) + Filled(evs[|evs| - 1].orders, a, r)
  }

  ghost predicate FillsAsset(evs: seq<TxEvents>, a: Asset) {
    evs != [] && (FillsAsset(evs[..|evs| - 1], a) || a in evs[|evs| - 1].fills)
  }

  ghost predicate FillsKey(evs: seq<TxEvents>, a: Asset, r: Address) {
    evs != [] && (FillsKey(evs[..|evs| - 1], a, r) || Has(evs[|evs| - 1].fills, a, r))
  }

  ghost predicate OrdersKey(evs: seq<TxEvents>, a: Asset, r: Address) {
    evs != [] && (OrdersKey(evs[..|evs| - 1], a, r) || Has(evs[|evs| - 1].orders, a, r))
  }

  // ---- running totals ----

  /** `DriverOutput::absorb`: fills keep empty rows, orders do not create them. */
  ghost function Accumulate(total: TxEvents, e: TxEvents): TxEvents {
    TxEvents(Absorbed(total.fills, e.fills), Ingested(total.orders, e.orders))
  }

  /** `t` holds the sums over `evs`, each capped at the largest U256. */
  ghost predicate IsTotal(t: TxEvents, evs: seq<TxEvents>) {
    && (forall a {:trigger a in t.fills} :: a in t.fills <==> FillsAsset(evs, a))
    && (forall a, r {:trigger Has(t.fills, a, r)} :: Has(t.fills, a, r) <==> FillsKey(evs, a, r))
    && (forall a, r {:trigger Filled(t.fills, a, r)} ::
          Filled(t.fills, a, r) == Min(U256_MAX, SumFills(evs, a, r)))
    && NoEmptyRows(t.orders)
    && (forall a, r {:trigger Has(t.orders, a, r)} :: Has(t.orders, a, r) <==> OrdersKey(evs, a, r))
    && (forall a, r {:trigger Filled(t.orders, a, r)} ::
          Filled(t.orders, a, r) == Min(U256_MAX, SumOrders(evs, a, r)))
  }

  /** Accumulating one more transaction extends the capped sums. */
  lemma {:induction false} AccumulateExtends(t: TxEvents, evs: seq<TxEvents>, e: TxEvents)
    requires IsTotal(t, evs)
    ensures IsTotal(Accumulate(t, e), evs + [e])
  {
    var all := evs + [e];
    assert all[..|all| - 1] == evs;
    IngestedNoEmpty(t.orders, e.orders);
  }

  lemma {:induction false} IngestedNoEmpty(t: Table, o: Table)
    requires NoEmptyRows(t)
    ensures NoEmptyRows(Ingested(t, o))
  {
    var u := Ingested(t, o);
    forall a | a in u
      ensures u[a] != map[]
    {
      if a in t {
        var r :| r in t[a];
        assert Has(t, a, r) && Has(u, a, r);
      } else {
        var r :| r in o[a];
        assert Has(o, a, r) && Has(u, a, r);
      }
    }
  }

  lemma {:induction false} TotalExists(evs: seq<TxEvents>) returns (t: TxEvents)
    ensures IsTotal(t, evs)
  {
    if evs == [] {
      t := TxEvents(map[], map[]);
    } else {
      var n := |evs| - 1;
      var before := TotalExists(evs[..n]);
      AccumulateExtends(before, evs[..n], evs[n]);
      assert evs[..n] + [evs[n]] == evs;
      t := Accumulate(before, evs[n]);
    }
  }

  /** The totals over `evs`. */
  ghost function Cumulative(evs: seq<TxEvents>): (t: TxEvents)
    ensures IsTotal(t, evs)
  {
    assert exists t :: IsTotal(t, evs) by { var t := TotalExists(evs); }
    var t :| IsTotal(t, evs);
    t
  }

  lemma {:induction false} TotalUnique(t: TxEvents, evs: seq<TxEvents>)
    requires IsTotal(t, evs)
    ensures t == Cumulative(evs)
  {
    TableExt(t.fills, Cumulative(evs).fills);
    TableExtEntries(t.orders, Cumulative(evs).orders);
  }

  /** The driver's running totals are these totals. */
  lemma {:induction false} AccumulateIsCumulative(evs: seq<TxEvents>, e: TxEvents)
    ensures Accumulate(Cumulative(evs), e) == Cumulative(evs + [e])
    ensures Cumulative([]) == TxEvents(map[], map[])
  {
    AccumulateExtends(Cumulative(evs), evs, e);
    TotalUnique(Accumulate(Cumulative(evs), e), evs + [e]);
    TotalUnique(TxEvents(map[], map[]), []);
  }

  /** The simulator's view: every prefix total passes the check. */
  ghost predicate PrefixChecks(ctx: Table, evs: seq<TxEvents>) {
    evs == [] || (PrefixChecks(ctx, evs[..|evs| - 1]) && Check(ctx, Cumulative(evs)))
  }

  /** Each transaction orders only keys that exist once its fills are in. */
  ghost predicate PrefixCovers(ctx: Table, evs: seq<TxEvents>) {
    evs == [] ||
    var n := |evs| - 1;
    PrefixCovers(ctx, evs[..n]) && Covers(Absorbed(ctx, Cumulative(evs[..n]).fills), evs[n])
  }

  // ---- no balance exceeds a U256 ----

  ghost predicate OrdersFit(evs: seq<TxEvents>) {
    forall a, r :: SumOrders(evs, a, r) <= U256_MAX
  }

  /** No balance saturates while `evs` is consumed from `ctx`. */
  ghost predicate CreditsFit(ctx: Table, evs: seq<TxEvents>) {
    forall a, r :: Filled(ctx, a, r) + SumFills(evs, a, r) <= U256_MAX
  }

  lemma {:induction false} SumsMonotone(evs: seq<TxEvents>, n: nat, a: Asset, r: Address)
    requires n <= |evs|
    ensures SumFills(evs[..n], a, r) <= SumFills(evs, a, r)
    ensures SumOrders(evs[..n], a, r) <= SumOrders(evs, a, r)
  {
    if n < |evs| {
      SumsMonotone(evs[..|evs| - 1], n, a, r);
      assert evs[..|evs| - 1][..n] == evs[..n];
    } else {
      assert evs[..n] == evs;
    }
  }

  lemma {:induction false} OrdersFitPrefix(evs: seq<TxEvents>, n: nat)
    requires n <= |evs| && OrdersFit(evs)
    ensures OrdersFit(evs[..n])
  {
    forall a, r
      ensures SumOrders(evs[..n], a, r) <= U256_MAX
    {
      SumsMonotone(evs, n, a, r);
    }
  }

  /** The balance after a run, between its capped and its exact value. */
  lemma {:induction false} RunBalance(ctx: Table, evs: seq<TxEvents>, a: Asset, r: Address)
    requires RunSettles(ctx, evs)
    ensures var left := Filled(RunSettled(ctx, evs), a, r) + SumOrders(evs, a, r);
            var credit := Filled(ctx, a, r) + SumFills(evs, a, r);
            && Min(U256_MAX, credit) <= left <= credit
  {
    if evs != [] {
      RunBalance(ctx, evs[..|evs| - 1], a, r);
    }
  }

  /** A run neither adds nor drops keys beyond those its fills bring in. */
  lemma {:induction false} RunKeys(ctx: Table, evs: seq<TxEvents>)
    requires RunSettles(ctx, evs)
    ensures var whole := Absorbed(ctx, Cumulative(evs).fills);
            && (forall a :: a in RunSettled(ctx, evs) <==> a in whole)
            && (forall a, r :: Has(RunSettled(ctx, evs), a, r) <==> Has(whole, a, r))
  {
    if evs != [] {
      RunKeys(ctx, evs[..|evs| - 1]);
    }
  }

  /** The key condition for one more step depends only on the keys, not the balances. */
  lemma {:induction false} CoversAfterRun(ctx: Table, evs: seq<TxEvents>, e: TxEvents)
    requires RunSettles(ctx, evs)
    ensures Covers(RunSettled(ctx, evs), e) <==> Covers(Absorbed(ctx, Cumulative(evs).fills), e)
  {
    RunKeys(ctx, evs);
  }

  /** Node to builder: what is consumed one by one passes every running check. */
  lemma {:induction false} SequenceImpliesBatch(ctx: Table, evs: seq<TxEvents>)
    requires RunSettles(ctx, evs)
    ensures PrefixChecks(ctx, evs) && PrefixCovers(ctx, evs)
  {
    forall a, r
      ensures Filled(Cumulative(evs).orders, a, r) <= Combined(ctx, Cumulative(evs).fills, a, r)
    {
      RunBalance(ctx, evs, a, r);
    }
    if evs != [] {
      var n := |evs| - 1;
      SequenceImpliesBatch(ctx, evs[..n]);
      CoversAfterRun(ctx, evs[..n], evs[n]);
    }
  }

  /** One key of one step: running totals that are covered leave enough for it. */
  lemma {:induction false} CappedStep(start: U256, credit: nat, debit: nat, fill: U256,
                                      order: U256, balance: U256)
    requires Min(U256_MAX, start + credit) <= balance + debit
    requires debit + order <= U256_MAX
    requires debit + order <= Min(U256_MAX, start + Min(U256_MAX, credit + fill))
    ensures order <= SatAdd(balance, fill)
  {
  }

  /** One balance of the last step of a run whose running total was checked. */
  lemma {:induction false} LastStepCovered(ctx: Table, evs: seq<TxEvents>, mid: Table, a: Asset, r: Address)
    requires evs != [] && SumOrders(evs, a, r) <= U256_MAX
    requires Min(U256_MAX, Filled(ctx, a, r) + SumFills(evs[..|evs| - 1], a, r))
          <= Filled(mid, a, r) + SumOrders(evs[..|evs| - 1], a, r)
    requires Min(U256_MAX, SumOrders(evs, a, r))
          <= SatAdd(Filled(ctx, a, r), Min(U256_MAX, SumFills(evs, a, r)))
    ensures Filled(evs[|evs| - 1].orders, a, r) <= Combined(mid, evs[|evs| - 1].fills, a, r)
  {
    var n := |evs| - 1;
    CappedStep(Filled(ctx, a, r), SumFills(evs[..n], a, r), SumOrders(evs[..n], a, r),
               Filled(evs[n].fills, a, r), Filled(evs[n].orders, a, r), Filled(mid, a, r));
  }

  /** The last step of a run whose running total was checked has its balances. */
  lemma {:induction false} LastCheck(ctx: Table, evs: seq<TxEvents>)
    requires evs != [] && RunSettles(ctx, evs[..|evs| - 1])
    requires OrdersFit(evs) && Check(ctx, Cumulative(evs))
    ensures Check(RunSettled(ctx, evs[..|evs| - 1]), evs[|evs| - 1])
  {
    var n, total := |evs| - 1, Cumulative(evs);
    var mid := RunSettled(ctx, evs[..n]);
    forall a, r
      ensures Filled(evs[n].orders, a, r) <= Combined(mid, evs[n].fills, a, r)
    {
      assert SumOrders(evs, a, r) <= U256_MAX;
      RunBalance(ctx, evs[..n], a, r);
      assert Filled(total.orders, a, r) <= Combined(ctx, total.fills, a, r);
      LastStepCovered(ctx, evs, mid, a, r);
    }
  }

  /** Builder to node: running checks suffice when no order total exceeds a U256. */
  lemma {:induction false} BatchImpliesSequence(ctx: Table, evs: seq<TxEvents>)
    requires OrdersFit(evs)
    requires PrefixChecks(ctx, evs) && PrefixCovers(ctx, evs)
    ensures RunSettles(ctx, evs)
  {
    if evs != [] {
      var n := |evs| - 1;
      OrdersFitPrefix(evs, n);
      BatchImpliesSequence(ctx, evs[..n]);
      CoversAfterRun(ctx, evs[..n], evs[n]);
      LastCheck(ctx, evs);
    }
  }

  /** The two disciplines accept the same transactions. */
  lemma {:induction false} BatchEqualsSequence(ctx: Table, evs: seq<TxEvents>)
    requires OrdersFit(evs)
    ensures RunSettles(ctx, evs) <==> PrefixChecks(ctx, evs) && PrefixCovers(ctx, evs)
  {
    if RunSettles(ctx, evs) {
      SequenceImpliesBatch(ctx, evs);
    } else if PrefixChecks(ctx, evs) && PrefixCovers(ctx, evs) {
      BatchImpliesSequence(ctx, evs);
    }
  }

  /** What settles without saturation has order totals that fit. */
  lemma {:induction false} FitsIfSettled(ctx: Table, evs: seq<TxEvents>)
    requires RunSettles(ctx, evs) && CreditsFit(ctx, evs)
    ensures OrdersFit(evs)
  {
    forall a, r
      ensures SumOrders(evs, a, r) <= U256_MAX
    {
      RunBalance(ctx, evs, a, r);
      assert Filled(ctx, a, r) + SumFills(evs, a, r) <= U256_MAX;
    }
  }

  /**
   Order totals have to fit: where no credit saturates, transactions that pass every
   running check can be consumed one by one exactly when no order total exceeds a U256.
   */
  lemma {:induction false} SettlesIffOrdersFit(ctx: Table, evs: seq<TxEvents>)
    requires CreditsFit(ctx, evs)
    requires PrefixChecks(ctx, evs) && PrefixCovers(ctx, evs)
    ensures RunSettles(ctx, evs) <==> OrdersFit(evs)
  {
    if RunSettles(ctx, evs) {
      FitsIfSettled(ctx, evs);
    } else if OrdersFit(evs) {
      BatchImpliesSequence(ctx, evs);
    }
  }
}
