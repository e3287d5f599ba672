/**
 One list of transactions, consumed one by one or settled at once as its totals, and
 with other fills credited before or after it.
 */
module Agreement {
  import opened Words
  import opened Ledger
  import opened Settlement
  import opened Batch

  /** The totals of a run name only keys that the context or the fills hold. */
  lemma {:induction false} OrderedKeysExist(ctx: Table, evs: seq<TxEvents>, a: Asset, r: Address)
    requires RunSettles(ctx, evs) && OrdersKey(evs, a, r)
    ensures Has(ctx, a, r) || FillsKey(evs, a, r)
  {
    var n := |evs| - 1;
    RunKeys(ctx, evs[..n]);
    if OrdersKey(evs[..n], a, r) {
      OrderedKeysExist(ctx, evs[..n], a, r);
    } else {
      assert Has(RunSettled(ctx, evs[..n]), a, r) || Has(evs[n].fills, a, r);
    }
  }

  lemma {:induction false} KeyHasAsset(evs: seq<TxEvents>, a: Asset, r: Address)
    requires FillsKey(evs, a, r)
    ensures FillsAsset(evs, a)
  {
    if FillsKey(evs[..|evs| - 1], a, r) {
      KeyHasAsset(evs[..|evs| - 1], a, r);
    }
  }

  lemma {:induction false} CumulativeCovers(ctx: Table, evs: seq<TxEvents>)
    requires RunSettles(ctx, evs)
    ensures Covers(ctx, Cumulative(evs))
  {
    var t := Cumulative(evs);
    forall a, r | Has(t.orders, a, r)
      ensures Has(ctx, a, r) || Has(t.fills, a, r)
    {
      OrderedKeysExist(ctx, evs, a, r);
    }
    forall a | a in t.orders
      ensures a in ctx || a in t.fills
    {
      var r :| r in t.orders[a];
      assert Has(t.orders, a, r);
      if !Has(ctx, a, r) {
        KeyHasAsset(evs, a, r);
      }
    }
  }

  /** One key, settled step by step (`run`) or all at once (`once`). */
  lemma {:induction false} OnceAt(start: U256, credit: nat, debit: nat, run: U256, once: int)
    requires Min(U256_MAX, start + credit) <= run + debit <= start + credit
    requires once == Min(start + Min(U256_MAX, credit), U256_MAX) - Min(U256_MAX, debit)
    ensures once <= run
    ensures start + credit <= U256_MAX ==> once == run
  {
  }

  lemma {:induction false} BothBalances(ctx: Table, evs: seq<TxEvents>, a: Asset, r: Address)
    requires RunSettles(ctx, evs) && Settles(ctx, Cumulative(evs))
    ensures var run := Filled(RunSettled(ctx, evs), a, r);
            var once := Filled(Settled(ctx, Cumulative(evs)), a, r);
            && once <= run
            && (Filled(ctx, a, r) + SumFills(evs, a, r) <= U256_MAX ==> once == run)
  {
    var total := Cumulative(evs);
    RunBalance(ctx, evs, a, r);
    OnceAt(Filled(ctx, a, r), SumFills(evs, a, r), SumOrders(evs, a, r),
           Filled(RunSettled(ctx, evs), a, r), Filled(Settled(ctx, total), a, r));
  }

  /** Settling the totals of a run at once never leaves more than the run does. */
  lemma {:induction false} OneStepDominated(ctx: Table, evs: seq<TxEvents>)
    requires RunSettles(ctx, evs)
    ensures Settles(ctx, Cumulative(evs))
    ensures Dominates(RunSettled(ctx, evs), Settled(ctx, Cumulative(evs)))
  {
    SequenceImpliesBatch(ctx, evs);
    CumulativeCovers(ctx, evs);
    RunKeys(ctx, evs);
    forall a, r
      ensures Filled(Settled(ctx, Cumulative(evs)), a, r) <= Filled(RunSettled(ctx, evs), a, r)
    {
      BothBalances(ctx, evs, a, r);
    }
  }

  /** Without saturation the two ways of settling leave the same table. */
  lemma {:induction false} OneStepEqual(ctx: Table, evs: seq<TxEvents>)
    requires RunSettles(ctx, evs) && CreditsFit(ctx, evs)
    ensures Settles(ctx, Cumulative(evs))
    ensures RunSettled(ctx, evs) == Settled(ctx, Cumulative(evs))
  {
    OneStepDominated(ctx, evs);
    RunKeys(ctx, evs);
    forall a, r
      ensures Filled(RunSettled(ctx, evs), a, r) == Filled(Settled(ctx, Cumulative(evs)), a, r)
    {
      assert Filled(ctx, a, r) + SumFills(evs, a, r) <= U256_MAX;
      BothBalances(ctx, evs, a, r);
    }
    TableExt(RunSettled(ctx, evs), Settled(ctx, Cumulative(evs)));
  }

  ghost predicate AllPositive(evs: seq<TxEvents>) {
    forall e | e in evs :: Positive(e.orders)
  }

  /** For positive orders whose totals fit, the running checks decide alone. */
  lemma {:induction false} PositiveBatchSettles(ctx: Table, evs: seq<TxEvents>)
    requires AllPositive(evs) && OrdersFit(evs)
    ensures RunSettles(ctx, evs) <==> PrefixChecks(ctx, evs)
  {
    if PrefixChecks(ctx, evs) && evs != [] {
      var n := |evs| - 1;
      OrdersFitPrefix(evs, n);
      PositiveBatchSettles(ctx, evs[..n]);
      LastCheck(ctx, evs);
      PositiveIsCovered(RunSettled(ctx, evs[..n]), evs[n]);
    }
    if RunSettles(ctx, evs) {
      SequenceImpliesBatch(ctx, evs);
    }
  }

  lemma {:induction false} PositiveKeySum(evs: seq<TxEvents>, a: Asset, r: Address)
    requires AllPositive(evs) && OrdersKey(evs, a, r)
    ensures SumOrders(evs, a, r) > 0
  {
    var n := |evs| - 1;
    assert evs[n] in evs && forall e | e in evs[..n] :: e in evs;
    if OrdersKey(evs[..n], a, r) {
      PositiveKeySum(evs[..n], a, r);
    } else {
      assert Has(evs[n].orders, a, r);
    }
  }

  /** Totals of positive orders are positive, so settling them at once cannot fail. */
  lemma {:induction false} CumulativePositive(evs: seq<TxEvents>)
    requires AllPositive(evs)
    ensures Positive(Cumulative(evs).orders)
  {
    forall a, r | Has(Cumulative(evs).orders, a, r)
      ensures Filled(Cumulative(evs).orders, a, r) > 0
    {
      PositiveKeySum(evs, a, r);
    }
  }

  /**
   The `expect("checked during simulation")` of the accept step: totals that
   passed the last running check settle, unless an order of zero names a key
   nobody has.
   */
  lemma {:induction false} AcceptCannotFail(ctx: Table, evs: seq<TxEvents>)
    requires PrefixChecks(ctx, evs)
    ensures Check(ctx, Cumulative(evs))
    ensures Settles(ctx, Cumulative(evs)) <==> Covers(ctx, Cumulative(evs))
    ensures AllPositive(evs) ==> Settles(ctx, Cumulative(evs))
  {
    if AllPositive(evs) {
      CumulativePositive(evs);
      PositiveIsCovered(ctx, Cumulative(evs));
    }
  }

  // ---- crediting earlier ----

  /** One key: crediting `extra` before a step never leaves more than crediting it after. */
  lemma {:induction false} EarlyAt(mid: U256, extra: U256, fill: U256, order: U256)
    requires order <= SatAdd(mid, fill)
    ensures SatAdd(SatAdd(mid, extra), fill) - order <= SatAdd(SatAdd(mid, fill) - order, extra)
    ensures mid + extra + fill <= U256_MAX ==>
              SatAdd(SatAdd(mid, extra), fill) - order == SatAdd(SatAdd(mid, fill) - order, extra)
  {
  }

  lemma {:induction false} ExtraCreditAt(mid: Table, extra: Table, e: TxEvents, a: Asset, r: Address)
    requires Settles(mid, e) && Settles(Absorbed(mid, extra), e)
    ensures var early := Filled(Settled(Absorbed(mid, extra), e), a, r);
            var late := Filled(Absorbed(Settled(mid, e), extra), a, r);
            && early <= late
            && (Filled(mid, a, r) + Filled(extra, a, r) + Filled(e.fills, a, r) <= U256_MAX ==> early == late)
  {
    assert Filled(e.orders, a, r) <= Combined(mid, e.fills, a, r);
    EarlyAt(Filled(mid, a, r), Filled(extra, a, r), Filled(e.fills, a, r), Filled(e.orders, a, r));
  }

  lemma {:induction false} ExtraCreditStep(mid: Table, extra: Table, e: TxEvents)
    requires Settles(mid, e)
    ensures Settles(Absorbed(mid, extra), e)
    ensures Dominates(Absorbed(Settled(mid, e), extra), Settled(Absorbed(mid, extra), e))
  {
    SettlesMonotone(Absorbed(mid, extra), mid, e);
    forall a, r
      ensures Filled(Settled(Absorbed(mid, extra), e), a, r) <= Filled(Absorbed(Settled(mid, e), extra), a, r)
    {
      ExtraCreditAt(mid, extra, e, a, r);
    }
  }

  /** A ledger behind `mid` with `extra` to come stays behind through one more step. */
  lemma {:induction false} BehindStep(mid: Table, extra: Table, early: Table, e: TxEvents)
    requires Dominates(Absorbed(mid, extra), early) && Settles(mid, e) && Settles(early, e)
    ensures Dominates(Absorbed(Settled(mid, e), extra), Settled(early, e))
  {
    ExtraCreditStep(mid, extra, e);
    SettlesMonotone(Absorbed(mid, extra), early, e);
    DominatesTransitive(Absorbed(Settled(mid, e), extra), Settled(Absorbed(mid, extra), e),
                        Settled(early, e));
  }

  lemma {:induction false} BehindRun(mid: Table, extra: Table, early: Table, evs: seq<TxEvents>)
    requires Dominates(Absorbed(mid, extra), early)
    requires RunSettles(mid, evs) && RunSettles(early, evs)
    ensures Dominates(Absorbed(RunSettled(mid, evs), extra), RunSettled(early, evs))
  {
    if evs != [] {
      var n := |evs| - 1;
      BehindRun(mid, extra, early, evs[..n]);
      BehindStep(RunSettled(mid, evs[..n]), extra, RunSettled(early, evs[..n]), evs[n]);
    }
  }

  lemma {:induction false} DominatesItself(t: Table)
    ensures Dominates(t, t)
  {
  }

  /** No balance saturates when `extra` is credited as well. */
  ghost predicate RoomFor(ctx: Table, extra: Table, evs: seq<TxEvents>) {
    forall a, r :: Filled(ctx, a, r) + Filled(extra, a, r) + SumFills(evs, a, r) <= U256_MAX
  }

  /**
   Fills that arrive before a run instead of after it change nothing but what saturates:
   the run settles and never leaves more, and it leaves the same when there is room.
   */
  lemma {:induction false} ExtraCreditCommutes(ctx: Table, extra: Table, evs: seq<TxEvents>)
    requires RunSettles(ctx, evs)
    ensures RunSettles(Absorbed(ctx, extra), evs)
    ensures Dominates(Absorbed(RunSettled(ctx, evs), extra), RunSettled(Absorbed(ctx, extra), evs))
    ensures RoomFor(ctx, extra, evs) ==>
              RunSettled(Absorbed(ctx, extra), evs) == Absorbed(RunSettled(ctx, evs), extra)
  {
    RunSettlesMonotone(Absorbed(ctx, extra), ctx, evs);
    DominatesItself(Absorbed(ctx, extra));
    BehindRun(ctx, extra, Absorbed(ctx, extra), evs);
    if RoomFor(ctx, extra, evs) {
      SameWithRoom(ctx, extra, evs);
    }
  }

  lemma {:induction false} SameWithRoom(ctx: Table, extra: Table, evs: seq<TxEvents>)
    requires RunSettles(ctx, evs) && RunSettles(Absorbed(ctx, extra), evs) && RoomFor(ctx, extra, evs)
    ensures RunSettled(Absorbed(ctx, extra), evs) == Absorbed(RunSettled(ctx, evs), extra)
  {
    if evs != [] {
      var n := |evs| - 1;
      var init, e := evs[..n], evs[n];
      forall a, r
        ensures Filled(ctx, a, r) + Filled(extra, a, r) + SumFills(init, a, r) <= U256_MAX
      {
        assert Filled(ctx, a, r) + Filled(extra, a, r) + SumFills(evs, a, r) <= U256_MAX;
      }
      SameWithRoom(ctx, extra, init);
      var mid := RunSettled(ctx, init);
      ExtraCreditStep(mid, extra, e);
      var x, y := Settled(Absorbed(mid, extra), e), Absorbed(Settled(mid, e), extra);
      forall a, r
        ensures Filled(x, a, r) == Filled(y, a, r)
      {
        RunBalance(ctx, init, a, r);
        assert Filled(ctx, a, r) + Filled(extra, a, r) + SumFills(evs, a, r) <= U256_MAX;
        ExtraCreditAt(mid, extra, e, a, r);
      }
      TableExt(x, y);
    }
  }
}
