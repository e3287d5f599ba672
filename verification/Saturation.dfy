/**
 Why totals have to fit: concrete ledgers and lists at the largest U256 for which the
 builder's checks and the node disagree.
 */
module Saturation {
  import opened Words
  import opened Ledger
  import opened Settlement
  import opened Batch
  import opened Blocks
  import opened HostFirst

  /** A full balance pays an order of 5 and is filled up again before it pays the rest. */
  function Refilled(a: Asset, r: Address): seq<Item> {
    [Item([], [Spend(a, r, 5)]), Item([map[a := map[r := 5]]], [Spend(a, r, U256_MAX)])]
  }

  lemma {:induction false} RefilledStreams(a: Asset, r: Address)
    ensures BuilderStream(Refilled(a, r))
         == [Refilled(a, r)[0].txs[0], Credit(Refilled(a, r)[1].hosts[0]), Refilled(a, r)[1].txs[0]]
    ensures NodeStream(Refilled(a, r)) == [Refilled(a, r)[0].txs[0], Refilled(a, r)[1].txs[0]]
    ensures Filled(HostFills(Refilled(a, r)), a, r) == 5
  {
    var items := Refilled(a, r);
    var first, hosts := items[..1], items[1].hosts;
    assert first == [items[0]] && first[..0] == [] && hosts[..0] == [];
    assert Credits([]) == [] && Credits(hosts) == [Credit(hosts[0])];
    assert ItemEvents(items[0]) == items[0].txs && BuilderStream(first[..0]) == [] && NodeStream(first[..0]) == [];
    assert BuilderStream(first) == items[0].txs && NodeStream(first) == items[0].txs;
    StreamSums(items, a, r);
    assert SumHost(first[..0], a, r) == 0;
    assert SumHost(first, a, r) == 0;
    CreditSum(hosts, a, r);
  }

  lemma {:induction false} CreditSum(hosts: seq<Table>, a: Asset, r: Address)
    requires |hosts| == 1
    ensures SumFills(Credits(hosts), a, r) == Filled(hosts[0], a, r)
  {
    assert hosts[..0] == [] && Credits(hosts) == [] + [Credit(hosts[0])];
    assert Credits(hosts)[..0] == [];
  }

  lemma {:induction false} TwoSettle(ctx: Table, x: TxEvents, y: TxEvents)
    requires Settles(ctx, x)
    ensures RunSettles(ctx, [x, y]) <==> Settles(Settled(ctx, x), y)
    ensures RunSettles(ctx, [x, y]) ==> RunSettled(ctx, [x, y]) == Settled(Settled(ctx, x), y)
  {
    RunOneMore(ctx, [], x);
    assert [] + [x] == [x] && [x] + [y] == [x, y];
    RunOneMore(ctx, [x], y);
  }

  function Spend(a: Asset, r: Address, amount: U256): TxEvents {
    TxEvents(map[], map[a := map[r := amount]])
  }

  /** An order alone settles exactly from a balance that covers it. */
  lemma {:induction false} SpendSettles(t: Table, a: Asset, r: Address, amount: U256)
    requires Has(t, a, r)
    ensures Settles(t, Spend(a, r, amount)) <==> amount <= Filled(t, a, r)
    ensures amount <= Filled(t, a, r) ==>
              && Has(Settled(t, Spend(a, r, amount)), a, r)
              && Filled(Settled(t, Spend(a, r, amount)), a, r) == Filled(t, a, r) - amount
  {
    assert Filled(Spend(a, r, amount).orders, a, r) == amount;
  }

  lemma {:induction false} RefilledRuns(full: Table, a: Asset, r: Address)
    requires Has(full, a, r) && Filled(full, a, r) == U256_MAX
    ensures RunSettles(full, BuilderStream(Refilled(a, r)))
  {
    var host: Table, last := map[a := map[r := 5]], Spend(a, r, U256_MAX);
    RefilledStreams(a, r);
    SpendSettles(full, a, r, 5);
    var x := Settled(full, Spend(a, r, 5));
    CreditSettles(x, host);
    TwoSettle(full, Spend(a, r, 5), Credit(host));
    var y := Absorbed(x, host);
    assert Filled(host, a, r) == 5 && Filled(y, a, r) == SatAdd(Filled(x, a, r), 5);
    SpendSettles(y, a, r, U256_MAX);
    RunOneMore(full, [Spend(a, r, 5), Credit(host)], last);
    assert [Spend(a, r, 5), Credit(host)] + [last] == BuilderStream(Refilled(a, r));
  }

  lemma {:induction false} RefilledTotals(a: Asset, r: Address)
    ensures SumOrders(NodeStream(Refilled(a, r)), a, r) == U256_MAX + 5
    ensures forall b, q :: SumFills(NodeStream(Refilled(a, r)), b, q) == 0
  {
    RefilledStreams(a, r);
    var evs := NodeStream(Refilled(a, r));
    assert evs == [Spend(a, r, 5), Spend(a, r, U256_MAX)];
    var one := evs[..1];
    assert one == [Spend(a, r, 5)] && one[..0] == [];
    assert SumOrders(one, a, r) == 5;
    assert forall b, q :: SumFills(one, b, q) == 0;
  }

  /**
   Where host fills first go wrong: a block that settles one by one from the builder's
   ledger and not in the node.  No credit of the node saturates; the order totals do not fit.
   */
  lemma {:induction false} RefillMatters(full: Table, a: Asset, r: Address)
    requires Has(full, a, r) && Filled(full, a, r) == U256_MAX
    ensures RunSettles(full, BuilderStream(Refilled(a, r)))
    ensures var start, evs := Absorbed(full, HostFills(Refilled(a, r))), NodeStream(Refilled(a, r));
            CreditsFit(start, evs) && !OrdersFit(evs) && !RunSettles(start, evs)
  {
    RefilledRuns(full, a, r);
    RefilledTotals(a, r);
    var start, evs := Absorbed(full, HostFills(Refilled(a, r))), NodeStream(Refilled(a, r));
    forall b, q
      ensures Filled(start, b, q) + SumFills(evs, b, q) <= U256_MAX
    {
      assert SumFills(evs, b, q) == 0;
    }
    assert SumOrders(evs, a, r) > U256_MAX;
    HostFillsFirst(full, Refilled(a, r));
  }

  /** Two orders of the largest U256 against one such fill. */
  function Misleading(a: Asset, r: Address): seq<TxEvents> {
    var full: Table := map[a := map[r := U256_MAX]];
    [TxEvents(full, full), TxEvents(map[], full)]
  }

  lemma {:induction false} MisleadingSums(a: Asset, r: Address, b: Asset, q: Address)
    ensures var evs, each := Misleading(a, r), if b == a && q == r then U256_MAX else 0;
            && SumFills(evs[..1], b, q) == SumOrders(evs[..1], b, q) == each
            && SumFills(evs, b, q) == each && SumOrders(evs, b, q) == each + each
  {
    var evs := Misleading(a, r);
    assert evs[..1][..0] == [];
  }

  lemma {:induction false} MisleadingKeys(a: Asset, r: Address)
    ensures Covers(map[], Misleading(a, r)[0])
    ensures Covers(Absorbed(map[], Cumulative([Misleading(a, r)[0]]).fills), Misleading(a, r)[1])
  {
    var first := [Misleading(a, r)[0]];
    assert first[..0] == [];
    assert FillsKey(first, a, r) && FillsAsset(first, a);
    var known := Absorbed(map[], Cumulative(first).fills);
    assert a in known && Has(known, a, r);
  }

  /** Why order totals must fit: capped totals pass the checks, the run does not. */
  lemma {:induction false} CappedTotalsMislead(a: Asset, r: Address)
    ensures var evs := Misleading(a, r);
            PrefixChecks(map[], evs) && PrefixCovers(map[], evs) && !RunSettles(map[], evs)
  {
    var evs, none: Table := Misleading(a, r), map[];
    var first := evs[..1];
    forall b, q
      ensures Filled(Cumulative(first).orders, b, q) <= Combined(none, Cumulative(first).fills, b, q)
      ensures Filled(Cumulative(evs).orders, b, q) <= Combined(none, Cumulative(evs).fills, b, q)
    {
      MisleadingSums(a, r, b, q);
    }
    assert first == [evs[0]] && first[..|first| - 1] == [] && evs[..|evs| - 1] == first;
    assert Check(none, Cumulative(first)) && PrefixChecks(none, []);
    assert PrefixChecks(none, first);
    MisleadingKeys(a, r);
    AccumulateIsCumulative([], evs[0]);
    AbsorbedEmpty(none);
    assert PrefixCovers(none, first);
    if RunSettles(none, evs) {
      MisleadingSums(a, r, a, r);
      RunBalance(none, evs, a, r);
    }
  }
}
