/**
 Whole blocks: what each item contributes, and how the builder settles it.

 The builder runs each item (its host fills, then its rollup transactions)
 against its own ledger, and settles the item's totals in one step.  The node
 starts from all the block's host fills and consumes the rollup transactions one
 by one.
 */
module Blocks {
  import opened Words
  import opened Ledger
  import opened Settlement
  import opened Batch
  import opened Agreement

  /** What one cache item contributes: its host fills and its rollup transactions. */
  datatype Item = Item(hosts: seq<Table>, txs: seq<TxEvents>)

  /** Host fills as the bundle driver records them, before any rollup order. */
  function Credit(host: Table): TxEvents {
    TxEvents(host, map[])
  }

  function Credits(hosts: seq<Table>): seq<TxEvents> {
    if hosts == [] then []
    else Credits(hosts[..|hosts| - 1]) + [Credit(hosts[|hosts| - 1])]
  }

  function ItemEvents(item: Item): seq<TxEvents> {
    Credits(item.hosts) + item.txs
  }

  /** All of an item's host fills. */
  ghost function Merged(hosts: seq<Table>): Table {
    if hosts == [] then map[]
    else Absorbed(Merged(hosts[..|hosts| - 1]), hosts[|hosts| - 1])
  }

  function BuilderStream(items: seq<Item>): seq<TxEvents> {
    if items == [] then []
    else BuilderStream(items[..|items| - 1]) + ItemEvents(items[|items| - 1])
  }

  function NodeStream(items: seq<Item>): seq<TxEvents> {
    if items == [] then []
    else NodeStream(items[..|items| - 1]) + items[|items| - 1].txs
  }

  ghost function HostFills(items: seq<Item>): Table {
    if items == [] then map[]
    else Absorbed(HostFills(items[..|items| - 1]), Merged(items[|items| - 1].hosts))
  }

  /** Every item passes its running checks and is then settled as one total. */
  ghost predicate BuilderAccepts(ctx: Table, items: seq<Item>)
    decreases |items|, 0
  {
    items == [] ||
    var n := |items| - 1;
    && BuilderAccepts(ctx, items[..n])
    && var ledger := BuilderLedger(ctx, items[..n]);
       && PrefixChecks(ledger, ItemEvents(items[n]))
       && Settles(ledger, Cumulative(ItemEvents(items[n])))
  }

  ghost function BuilderLedger(ctx: Table, items: seq<Item>): Table
    requires BuilderAccepts(ctx, items)
    decreases |items|, 1
  {
    if items == [] then ctx
    else
      var n := |items| - 1;
      Settled(BuilderLedger(ctx, items[..n]), Cumulative(ItemEvents(items[n])))
  }

  ghost predicate WellFormed(items: seq<Item>) {
    forall item | item in items :: AllPositive(item.txs) && OrdersFit(ItemEvents(item))
  }

  lemma {:induction false} CreditsPositive(hosts: seq<Table>)
    ensures AllPositive(Credits(hosts))
  {
    if hosts != [] {
      CreditsPositive(hosts[..|hosts| - 1]);
      assert Positive(Credit(hosts[|hosts| - 1]).orders);
    }
  }

  lemma {:induction false} SumFillsAppend(es: seq<TxEvents>, fs: seq<TxEvents>, a: Asset, r: Address)
    ensures SumFills(es + fs, a, r) == SumFills(es, a, r) + SumFills(fs, a, r)
  {
    if fs == [] {
      assert es + fs == es;
    } else {
      SumFillsAppend(es, fs[..|fs| - 1], a, r);
      assert (es + fs)[..|es + fs| - 1] == es + fs[..|fs| - 1];
    }
  }

  lemma {:induction false} CreditsFitAppend(ctx: Table, es: seq<TxEvents>, fs: seq<TxEvents>)
    requires RunSettles(ctx, es) && CreditsFit(ctx, es + fs)
    ensures CreditsFit(ctx, es)
    ensures CreditsFit(RunSettled(ctx, es), fs)
  {
    forall a, r
      ensures Filled(ctx, a, r) + SumFills(es, a, r) <= U256_MAX
      ensures Filled(RunSettled(ctx, es), a, r) + SumFills(fs, a, r) <= U256_MAX
    {
      assert Filled(ctx, a, r) + SumFills(es + fs, a, r) <= U256_MAX;
      SumFillsAppend(es, fs, a, r);
      RunBalance(ctx, es, a, r);
    }
  }

  lemma {:induction false} CreditsFitPrefix(ctx: Table, es: seq<TxEvents>, fs: seq<TxEvents>)
    requires CreditsFit(ctx, es + fs)
    ensures CreditsFit(ctx, es)
  {
    forall a, r
      ensures Filled(ctx, a, r) + SumFills(es, a, r) <= U256_MAX
    {
      assert Filled(ctx, a, r) + SumFills(es + fs, a, r) <= U256_MAX;
      SumFillsAppend(es, fs, a, r);
    }
  }

  /**
   Settling whole items: the events settle one by one as well, and that run never leaves
   less than the builder's ledger; without saturation it leaves exactly that.
   */
  lemma {:induction false} BuilderIsRun(ctx: Table, items: seq<Item>)
    requires BuilderAccepts(ctx, items) && WellFormed(items)
    ensures RunSettles(ctx, BuilderStream(items))
    ensures Dominates(RunSettled(ctx, BuilderStream(items)), BuilderLedger(ctx, items))
    ensures CreditsFit(ctx, BuilderStream(items)) ==>
              RunSettled(ctx, BuilderStream(items)) == BuilderLedger(ctx, items)
  {
    if items != [] {
      var n := |items| - 1;
      var before, evs := BuilderStream(items[..n]), ItemEvents(items[n]);
      BuilderIsRun(ctx, items[..n]);
      var ledger, run := BuilderLedger(ctx, items[..n]), RunSettled(ctx, before);
      CreditsPositive(items[n].hosts);
      PositiveBatchSettles(ledger, evs);
      RunSettlesMonotone(run, ledger, evs);
      RunSettlesAppend(ctx, before, evs);
      OneStepDominated(ledger, evs);
      DominatesTransitive(RunSettled(run, evs), RunSettled(ledger, evs), Settled(ledger, Cumulative(evs)));
      if CreditsFit(ctx, before + evs) {
        CreditsFitPrefix(ctx, before, evs);
        CreditsFitAppend(ctx, before, evs);
        OneStepEqual(ledger, evs);
      }
    }
  }

  // ---- sums over blocks ----

  function SumHost(items: seq<Item>, a: Asset, r: Address): nat {
    if items == [] then 0
    else SumHost(items[..|items| - 1], a, r) + SumFills(Credits(items[|items| - 1].hosts), a, r)
  }

  lemma {:induction false} MergedAt(hosts: seq<Table>, a: Asset, r: Address)
    ensures Filled(Merged(hosts), a, r) == Min(U256_MAX, SumFills(Credits(hosts), a, r))
  {
    if hosts != [] {
      var before := Credits(hosts[..|hosts| - 1]);
      MergedAt(hosts[..|hosts| - 1], a, r);
      assert Credits(hosts)[..|Credits(hosts)| - 1] == before;
    }
  }

  lemma {:induction false} StreamSums(items: seq<Item>, a: Asset, r: Address)
    ensures SumFills(BuilderStream(items), a, r)
         == SumHost(items, a, r) + SumFills(NodeStream(items), a, r)
    ensures Filled(HostFills(items), a, r) == Min(U256_MAX, SumHost(items, a, r))
  {
    if items != [] {
      var n := |items| - 1;
      StreamSums(items[..n], a, r);
      SumFillsAppend(BuilderStream(items[..n]), ItemEvents(items[n]), a, r);
      SumFillsAppend(Credits(items[n].hosts), items[n].txs, a, r);
      MergedAt(items[n].hosts, a, r);
      SumFillsAppend(NodeStream(items[..n]), items[n].txs, a, r);
    }
  }

  lemma {:induction false} CreditSettles(ctx: Table, host: Table)
    ensures Settles(ctx, Credit(host)) && Settled(ctx, Credit(host)) == Absorbed(ctx, host)
  {
    assert Settles(ctx, Credit(host));
    SumUnique(Settled(ctx, Credit(host)), ctx, host);
  }

  lemma {:induction false} CreditsSettle(ctx: Table, hosts: seq<Table>)
    ensures RunSettles(ctx, Credits(hosts))
    ensures RunSettled(ctx, Credits(hosts)) == Absorbed(ctx, Merged(hosts))
  {
    if hosts == [] {
      AbsorbedEmpty(ctx);
    } else {
      var n := |hosts| - 1;
      var before := Credits(hosts[..n]);
      CreditsSettle(ctx, hosts[..n]);
      CreditSettles(RunSettled(ctx, before), hosts[n]);
      RunOneMore(ctx, before, Credit(hosts[n]));
      AbsorbedAssociative(ctx, Merged(hosts[..n]), hosts[n]);
    }
  }
}
