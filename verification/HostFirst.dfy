/**
 The node credits all host fills of a block before its first transaction, the builder
 those of one item at a time: what that changes, and what the node makes of the
 transactions that were taken.
 */
module HostFirst {
  import opened Words
  import opened Ledger
  import opened Settlement
  import opened Batch
  import opened Agreement
  import opened Blocks

  /** Splits the builder's run at the last item: up to it, its credit, its transactions. */
  lemma {:induction false} SplitRun(ctx: Table, items: seq<Item>) returns (mid: Table)
    requires items != [] && RunSettles(ctx, BuilderStream(items))
    ensures var n := |items| - 1;
            && RunSettles(ctx, BuilderStream(items[..n]))
            && mid == Absorbed(RunSettled(ctx, BuilderStream(items[..n])), Merged(items[n].hosts))
            && RunSettles(mid, items[n].txs)
            && RunSettled(mid, items[n].txs) == RunSettled(ctx, BuilderStream(items))
  {
    var n := |items| - 1;
    var before, evs := BuilderStream(items[..n]), ItemEvents(items[n]);
    RunSettlesPrefix(ctx, before, evs);
    RunSettlesAppend(ctx, before, evs);
    var ledger := RunSettled(ctx, before);
    CreditsSettle(ledger, items[n].hosts);
    RunSettlesAppend(ledger, Credits(items[n].hosts), items[n].txs);
    mid := Absorbed(ledger, Merged(items[n].hosts));
  }

  lemma {:induction false} RunUpTo(ctx: Table, items: seq<Item>) returns (mid: Table)
    requires items != []
    requires RunSettles(ctx, BuilderStream(items)) && CreditsFit(ctx, BuilderStream(items))
    ensures var n := |items| - 1;
            && RunSettles(ctx, BuilderStream(items[..n]))
            && CreditsFit(ctx, BuilderStream(items[..n]))
            && mid == Absorbed(RunSettled(ctx, BuilderStream(items[..n])), Merged(items[n].hosts))
            && RunSettles(mid, items[n].txs)
            && RunSettled(mid, items[n].txs) == RunSettled(ctx, BuilderStream(items))
  {
    var n := |items| - 1;
    mid := SplitRun(ctx, items);
    CreditsFitPrefix(ctx, BuilderStream(items[..n]), ItemEvents(items[n]));
  }

  lemma {:induction false} RoomForHost(ctx: Table, items: seq<Item>)
    requires items != [] && CreditsFit(ctx, BuilderStream(items))
    ensures RoomFor(Absorbed(ctx, HostFills(items[..|items| - 1])), Merged(items[|items| - 1].hosts),
                    NodeStream(items[..|items| - 1]))
  {
    var before, last := items[..|items| - 1], items[|items| - 1];
    var start, host := Absorbed(ctx, HostFills(before)), Merged(last.hosts);
    forall a, r
      ensures Filled(start, a, r) + Filled(host, a, r) + SumFills(NodeStream(before), a, r)
           <= U256_MAX
    {
      assert Filled(ctx, a, r) + SumFills(BuilderStream(items), a, r) <= U256_MAX;
      StreamSums(items, a, r);
      StreamSums(before, a, r);
      SumFillsAppend(NodeStream(before), last.txs, a, r);
      MergedAt(last.hosts, a, r);
    }
  }

  /**
   Host fills first, with `rest` to come as well: where both runs settle, the one that
   credits early never ends ahead.
   */
  lemma {:induction false} EarlyIsBehind(ctx: Table, items: seq<Item>, rest: Table)
    requires RunSettles(ctx, BuilderStream(items))
    requires RunSettles(Absorbed(ctx, Absorbed(HostFills(items), rest)), NodeStream(items))
    ensures Dominates(Absorbed(RunSettled(ctx, BuilderStream(items)), rest),
                      RunSettled(Absorbed(ctx, Absorbed(HostFills(items), rest)), NodeStream(items)))
  {
    var start := Absorbed(ctx, Absorbed(HostFills(items), rest));
    if items == [] {
      EmptyAbsorbed(rest);
      DominatesItself(start);
    } else {
      var n := |items| - 1;
      var before, host, txs := items[..n], Merged(items[n].hosts), items[n].txs;
      var more := Absorbed(host, rest);
      AbsorbedAssociative(HostFills(before), host, rest);
      RunSettlesPrefix(start, NodeStream(before), txs);
      RunSettlesAppend(start, NodeStream(before), txs);
      var mid := SplitRun(ctx, items);
      EarlyIsBehind(ctx, before, more);
      AbsorbedAssociative(RunSettled(ctx, BuilderStream(before)), host, rest);
      BehindRun(mid, rest, RunSettled(start, NodeStream(before)), txs);
    }
  }

  // ---- when the node accepts ----

  /**
   With `late` still to be credited to the builder, the node is behind by no more than what
   saturation cost it, and that never exceeds the room its orders so far have made.
   */
  ghost predicate Backs(late: Table, early: Table, evs: seq<TxEvents>) {
    && Present(early, late)
    && forall a, r :: BacksAt(Filled(late, a, r), Filled(early, a, r), SumOrders(evs, a, r))
  }

  predicate BacksAt(late: U256, early: U256, paid: nat) {
    Min(U256_MAX, late + paid) <= early + paid
  }

  /** One key of one step: what the builder could pay the node can pay, and stays behind as little. */
  lemma {:induction false} BacksStepAt(mid: U256, extra: U256, early: U256, paid: nat, fill: U256,
                                       order: U256)
    requires BacksAt(SatAdd(mid, extra), early, paid)
    requires order <= SatAdd(mid, fill) && paid + order <= U256_MAX
    ensures order <= SatAdd(early, fill)
    ensures BacksAt(SatAdd(SatAdd(mid, fill) - order, extra), SatAdd(early, fill) - order, paid + order)
  {
  }

  lemma {:induction false} BackedAt(mid: Table, extra: Table, early: Table, evs: seq<TxEvents>,
                                    e: TxEvents, a: Asset, r: Address)
    requires Backs(Absorbed(mid, extra), early, evs) && Settles(mid, e) && OrdersFit(evs + [e])
    ensures Filled(e.orders, a, r) <= Combined(early, e.fills, a, r)
    ensures Settles(early, e) ==>
              BacksAt(Filled(Absorbed(Settled(mid, e), extra), a, r), Filled(Settled(early, e), a, r),
                      SumOrders(evs + [e], a, r))
  {
    assert (evs + [e])[..|evs|] == evs;
    assert Filled(e.orders, a, r) <= Combined(mid, e.fills, a, r);
    assert SumOrders(evs + [e], a, r) <= U256_MAX;
    assert BacksAt(Filled(Absorbed(mid, extra), a, r), Filled(early, a, r), SumOrders(evs, a, r));
    BacksStepAt(Filled(mid, a, r), Filled(extra, a, r), Filled(early, a, r), SumOrders(evs, a, r),
                Filled(e.fills, a, r), Filled(e.orders, a, r));
  }

  lemma {:induction false} BackedKeys(mid: Table, extra: Table, early: Table, e: TxEvents)
    requires Present(early, Absorbed(mid, extra)) && Settles(mid, e)
    ensures Covers(early, e)
    ensures Settles(early, e) ==> Present(Settled(early, e), Absorbed(Settled(mid, e), extra))
  {
    assert Present(early, mid);
  }

  lemma {:induction false} BackedStep(mid: Table, extra: Table, early: Table, evs: seq<TxEvents>,
                                      e: TxEvents)
    requires Backs(Absorbed(mid, extra), early, evs) && Settles(mid, e) && OrdersFit(evs + [e])
    ensures Settles(early, e)
    ensures Backs(Absorbed(Settled(mid, e), extra), Settled(early, e), evs + [e])
  {
    BackedKeys(mid, extra, early, e);
    forall a, r
      ensures Filled(e.orders, a, r) <= Combined(early, e.fills, a, r)
    {
      BackedAt(mid, extra, early, evs, e, a, r);
    }
    assert Settles(early, e);
    forall a, r
      ensures BacksAt(Filled(Absorbed(Settled(mid, e), extra), a, r), Filled(Settled(early, e), a, r),
                      SumOrders(evs + [e], a, r))
    {
      BackedAt(mid, extra, early, evs, e, a, r);
    }
  }

  lemma {:induction false} BackedRun(mid: Table, extra: Table, early: Table, before: seq<TxEvents>,
                                     evs: seq<TxEvents>)
    requires Backs(Absorbed(mid, extra), early, before)
    requires RunSettles(mid, evs) && OrdersFit(before + evs)
    ensures RunSettles(early, evs)
    ensures Backs(Absorbed(RunSettled(mid, evs), extra), RunSettled(early, evs), before + evs)
  {
    if evs == [] {
      assert before + evs == before;
    } else {
      var n := |evs| - 1;
      assert before + evs == (before + evs[..n]) + [evs[n]];
      assert (before + evs)[..|before| + n] == before + evs[..n];
      OrdersFitPrefix(before + evs, |before| + n);
      BackedRun(mid, extra, early, before, evs[..n]);
      BackedStep(RunSettled(mid, evs[..n]), extra, RunSettled(early, evs[..n]), before + evs[..n], evs[n]);
    }
  }

  lemma {:induction false} BacksItself(t: Table)
    ensures Backs(t, t, [])
  {
  }

  /** Host fills first, with `rest` to come as well: the node keeps up with the builder. */
  lemma {:induction false} EarlyKeepsUp(ctx: Table, items: seq<Item>, rest: Table)
    requires RunSettles(ctx, BuilderStream(items)) && OrdersFit(NodeStream(items))
    ensures var start := Absorbed(ctx, Absorbed(HostFills(items), rest));
            && RunSettles(start, NodeStream(items))
            && Backs(Absorbed(RunSettled(ctx, BuilderStream(items)), rest),
                     RunSettled(start, NodeStream(items)), NodeStream(items))
  {
    var start := Absorbed(ctx, Absorbed(HostFills(items), rest));
    if items == [] {
      EmptyAbsorbed(rest);
      BacksItself(start);
    } else {
      var n := |items| - 1;
      var before, host, txs := items[..n], Merged(items[n].hosts), items[n].txs;
      var stream := NodeStream(before);
      AbsorbedAssociative(HostFills(before), host, rest);
      assert (stream + txs)[..|stream|] == stream;
      OrdersFitPrefix(NodeStream(items), |stream|);
      var mid := SplitRun(ctx, items);
      EarlyKeepsUp(ctx, before, Absorbed(host, rest));
      AbsorbedAssociative(RunSettled(ctx, BuilderStream(before)), host, rest);
      BackedRun(mid, rest, RunSettled(start, stream), stream, txs);
      RunSettlesAppend(start, stream, txs);
    }
  }

  /**
   Collecting every host fill up front keeps the verdict for every block whose order totals
   fit a U256, saturation of fills included; and where the node's own credits do not
   saturate, for no other.
   */
  lemma {:induction false} HostFillsFirst(ctx: Table, items: seq<Item>)
    requires RunSettles(ctx, BuilderStream(items))
    ensures OrdersFit(NodeStream(items)) ==> RunSettles(Absorbed(ctx, HostFills(items)), NodeStream(items))
    ensures CreditsFit(Absorbed(ctx, HostFills(items)), NodeStream(items)) ==>
              (RunSettles(Absorbed(ctx, HostFills(items)), NodeStream(items)) <==> OrdersFit(NodeStream(items)))
  {
    var start, evs := Absorbed(ctx, HostFills(items)), NodeStream(items);
    if OrdersFit(evs) {
      AbsorbedEmpty(HostFills(items));
      EarlyKeepsUp(ctx, items, map[]);
    } else if CreditsFit(start, evs) && RunSettles(start, evs) {
      FitsIfSettled(start, evs);
    }
  }

  // ---- what the node is left with ----

  /**
   Where the node accepts, it never ends ahead of the run of the builder's events; without
   saturation it accepts and ends with the same ledger.
   */
  lemma {:induction false} HostFillsLeave(ctx: Table, items: seq<Item>)
    requires RunSettles(ctx, BuilderStream(items))
    ensures RunSettles(Absorbed(ctx, HostFills(items)), NodeStream(items)) ==>
              Dominates(RunSettled(ctx, BuilderStream(items)),
                        RunSettled(Absorbed(ctx, HostFills(items)), NodeStream(items)))
    ensures CreditsFit(ctx, BuilderStream(items)) ==>
              var start := Absorbed(ctx, HostFills(items));
              && RunSettles(start, NodeStream(items))
              && RunSettled(start, NodeStream(items)) == RunSettled(ctx, BuilderStream(items))
  {
    if RunSettles(Absorbed(ctx, HostFills(items)), NodeStream(items)) {
      AbsorbedEmpty(HostFills(items));
      AbsorbedEmpty(RunSettled(ctx, BuilderStream(items)));
      EarlyIsBehind(ctx, items, map[]);
    }
    if items == [] {
      AbsorbedEmpty(ctx);
    } else if CreditsFit(ctx, BuilderStream(items)) {
      var n := |items| - 1;
      var before, host, txs := items[..n], Merged(items[n].hosts), items[n].txs;
      var mid := RunUpTo(ctx, items);
      HostFillsLeave(ctx, before);
      var start := Absorbed(ctx, HostFills(before));
      RoomForHost(ctx, items);
      ExtraCreditCommutes(start, host, NodeStream(before));
      AbsorbedAssociative(ctx, HostFills(before), host);
      RunSettlesAppend(Absorbed(start, host), NodeStream(before), txs);
    }
  }

  /**
   A node that is given just the transactions the builder took accepts them one by one when
   their order totals fit a U256, and only then unless a credit of its own saturates.
   Without saturation anywhere it ends with the builder's ledger.
   */
  lemma {:induction false} NodeAcceptsBuiltBlock(ctx: Table, items: seq<Item>)
    requires BuilderAccepts(ctx, items) && WellFormed(items)
    ensures var start := Absorbed(ctx, HostFills(items));
            && (OrdersFit(NodeStream(items)) ==> RunSettles(start, NodeStream(items)))
            && (CreditsFit(start, NodeStream(items)) ==>
                (RunSettles(start, NodeStream(items)) <==> OrdersFit(NodeStream(items))))
    ensures CreditsFit(ctx, BuilderStream(items)) ==>
              var start := Absorbed(ctx, HostFills(items));
              && RunSettles(start, NodeStream(items))
              && RunSettled(start, NodeStream(items)) == BuilderLedger(ctx, items)
  {
    BuilderIsRun(ctx, items);
    HostFillsFirst(ctx, items);
    HostFillsLeave(ctx, items);
  }
}
