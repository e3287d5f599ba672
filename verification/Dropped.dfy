/**
 Why a transaction that a bundle dropped matters to a node: the block contains it, and
 what another bundle fills on the host may let it settle, or be half removed.
 */
module DroppedTransactions {
  import opened Words
  import opened Ledger
  import opened Settlement
  import opened Debits
  import opened Batch
  import opened Agreement
  import opened Blocks
  import opened NodeLedgers
  import opened BundleDriver

  const NO_TOTALS := Totals(NOTHING, 0)

  function One(a: Asset, r: Address, amount: U256): Table {
    map[a := map[r := amount]]
  }

  lemma {:induction false} OneAt(a: Asset, r: Address, amount: U256)
    ensures forall b, q :: Filled(One(a, r, amount), b, q) == if b == a && q == r then amount else 0
    ensures forall b, q :: Has(One(a, r, amount), b, q) <==> b == a && q == r
    ensures amount > 0 ==> Positive(One(a, r, amount))
  {
    assert r in One(a, r, amount)[a];
  }

  function Asking(orders: Table): Summary {
    Succeeded(0, TxEvents(map[], orders))
  }

  function Filling(a: Asset, r: Address, amount: U256): Summary {
    Succeeded(0, TxEvents(One(a, r, amount), map[]))
  }

  /** A positive order without fills is not taken from an empty ledger. */
  lemma {:induction false} NotTaken(d: Table, a: Asset, r: Address)
    requires Filled(d, a, r) > 0
    ensures !Takes(map[], NO_TOTALS, Asking(d))
    ensures Tried(map[], NO_TOTALS, [Asking(d)]) == [Attempt(TxEvents(map[], d), false)]
    ensures Taken(map[], NO_TOTALS, [Asking(d)]) == []
  {
    var s := Asking(d);
    var sum := Accumulate(NOTHING, s.events);
    assert Filled(sum.orders, a, r) == Filled(d, a, r) > Combined(map[], sum.fills, a, r);
    assert [s][..0] == [];
    assert Tried(map[], NO_TOTALS, [s]) == [] + [Attempt(s.events, false)];
    TakenOneMore(map[], NO_TOTALS, [s]);
  }

  /** The same order is taken by a bundle that fills it on the host. */
  lemma {:induction false} FilledIsTaken(a: Asset, r: Address, amount: U256)
    requires amount > 0
    ensures var t := Totals(HostAfter([Filling(a, r, amount)]).events, 0);
            && Takes(map[], t, Asking(One(a, r, amount)))
            && Tried(map[], t, [Asking(One(a, r, amount))])
               == [Attempt(TxEvents(map[], One(a, r, amount)), true)]
            && HostTables([Filling(a, r, amount)]) == [One(a, r, amount)]
  {
    var host, s := Filling(a, r, amount), Asking(One(a, r, amount));
    var none: Table := map[];
    assert [host][..0] == [] && [s][..0] == [];
    assert HostTables([host][..0]) == [] && [] + [One(a, r, amount)] == [One(a, r, amount)];
    assert HostAfter([host][..0]) == NO_TOTALS;
    var t := Totals(HostAfter([host]).events, 0);
    OneAt(a, r, amount);
    assert t.events == TxEvents(Absorbed(none, One(a, r, amount)), none);
    var sum := Accumulate(t.events, s.events);
    forall b, q
      ensures Filled(sum.orders, b, q) <= Combined(none, sum.fills, b, q)
    {
      assert Filled(sum.orders, b, q) == if b == a && q == r then amount else 0;
      assert Filled(sum.fills, b, q) == if b == a && q == r then amount else 0;
    }
  }

  // ---- two bundles ----

  /** The first lets its one transaction revert and drops it; the second fills its own order. */
  ghost function TwoItems(d: Table, a: Asset, r: Address, filled: U256): seq<Item> {
    [ItemOf(map[], [], 0, [Asking(d)]),
     ItemOf(map[], [Filling(a, r, filled)], 0, [Asking(One(a, r, filled))])]
  }

  ghost function TwoTried(d: Table, a: Asset, r: Address, filled: U256): seq<Attempt> {
    Tried(map[], NO_TOTALS, [Asking(d)])
    + Tried(map[], Totals(HostAfter([Filling(a, r, filled)]).events, 0), [Asking(One(a, r, filled))])
  }

  lemma {:induction false} TwoAre(d: Table, a: Asset, r: Address, filled: U256)
    requires Filled(d, a, r) > 0 && filled > 0
    ensures TwoItems(d, a, r, filled)
         == [Item([], []), SecondItem(a, r, filled)]
    ensures TwoTried(d, a, r, filled)
         == [Attempt(TxEvents(map[], d), false),
             Attempt(TxEvents(map[], One(a, r, filled)), true)]
  {
    NotTaken(d, a, r);
    FilledIsTaken(a, r, filled);
    var t := Totals(HostAfter([Filling(a, r, filled)]).events, 0);
    TakenOneMore(map[], t, [Asking(One(a, r, filled))]);
    assert [Asking(One(a, r, filled))][..0] == [];
    var order := TxEvents(map[], One(a, r, filled));
    assert Taken(map[], t, []) == [] && [] + [order] == [order];
    assert HostTables([]) == [] && HostAfter([]) == NO_TOTALS;
  }

  /** Settling nothing changes nothing. */
  lemma {:induction false} NothingSettles(ctx: Table)
    ensures Settles(ctx, NOTHING) && Settled(ctx, NOTHING) == ctx
    ensures Cumulative([]) == NOTHING
  {
    AccumulateIsCumulative([], NOTHING);
    assert Settles(ctx, NOTHING);
    TableExt(Settled(ctx, NOTHING), ctx);
  }

  /** The second bundle's part in the block. */
  function SecondItem(a: Asset, r: Address, filled: U256): Item {
    Item([One(a, r, filled)], [TxEvents(map[], One(a, r, filled))])
  }

  lemma {:induction false} SecondChecks(a: Asset, r: Address, filled: U256)
    requires filled > 0
    ensures PrefixChecks(map[], ItemEvents(SecondItem(a, r, filled)))
    ensures AllPositive(ItemEvents(SecondItem(a, r, filled)))
  {
    OneAt(a, r, 1);
    TwoAre(One(a, r, 1), a, r, filled);
    BundleInvariant(map[], [Filling(a, r, filled)], 0, [Asking(One(a, r, filled))]);
    OneAt(a, r, filled);
    CreditsPositive(SecondItem(a, r, filled).hosts);
  }

  lemma {:induction false} SecondSettles(a: Asset, r: Address, filled: U256)
    requires filled > 0
    ensures var evs := ItemEvents(SecondItem(a, r, filled));
            && PrefixChecks(map[], evs) && Settles(map[], Cumulative(evs))
            && Filled(Settled(map[], Cumulative(evs)), a, r) == 0
  {
    SecondChecks(a, r, filled);
    AcceptCannotFail(map[], ItemEvents(SecondItem(a, r, filled)));
    var total := Cumulative(ItemEvents(SecondItem(a, r, filled)));
    TotalsAre(a, r, filled);
    assert Filled(total.fills, a, r) == filled && Filled(total.orders, a, r) == filled;
  }

  lemma {:induction false} TotalsAre(a: Asset, r: Address, filled: U256)
    ensures var evs := ItemEvents(SecondItem(a, r, filled));
            SumFills(evs, a, r) == filled && SumOrders(evs, a, r) == filled
  {
    var host, last := One(a, r, filled), TxEvents(map[], One(a, r, filled));
    var hosts: seq<Table> := [host];
    assert hosts[..0] == [] && Credits([]) == [];
    assert Credits(hosts) == [Credit(host)];
    var evs := ItemEvents(SecondItem(a, r, filled));
    assert evs == [Credit(host), last];
    var first := evs[..1];
    assert first == [Credit(host)] && first[..0] == [];
    assert SumFills(first, a, r) == filled && SumOrders(first, a, r) == 0;
  }

  /** The builder takes the second bundle's order alone and ends with nothing left. */
  lemma {:induction false} BuilderTakes(d: Table, a: Asset, r: Address, filled: U256)
    requires Filled(d, a, r) > 0 && filled > 0
    ensures BuilderAccepts(map[], TwoItems(d, a, r, filled))
    ensures Filled(BuilderLedger(map[], TwoItems(d, a, r, filled)), a, r) == 0
  {
    var items := TwoItems(d, a, r, filled);
    TwoAre(d, a, r, filled);
    NothingSettles(map[]);
    SecondSettles(a, r, filled);
    var first := items[..1];
    assert first == [items[0]] && first[..0] == [];
    assert Credits([]) == [] && ItemEvents(items[0]) == [];
    assert BuilderAccepts(map[], first[..0]);
    assert BuilderAccepts(map[], first) && BuilderLedger(map[], first) == map[];
  }

  /** The node starts with the host fill. */
  lemma {:induction false} NodeStarts(d: Table, a: Asset, r: Address, filled: U256)
    requires Filled(d, a, r) > 0 && filled > 0
    ensures Absorbed(map[], HostFills(TwoItems(d, a, r, filled))) == One(a, r, filled)
  {
    var items, one, none: Table := TwoItems(d, a, r, filled), One(a, r, filled), map[];
    TwoAre(d, a, r, filled);
    var first := items[..1];
    var hosts: seq<Table> := [one];
    assert first == [items[0]] && first[..0] == [] && hosts[..0] == [];
    AbsorbedEmpty(none);
    assert Merged([]) == none && HostFills([]) == none;
    assert HostFills(first) == none;
    assert Merged(hosts) == Absorbed(none, one);
    SumUnique(one, none, one);
  }

  /** The first bundle lets its transaction revert, the second does not. */
  ghost predicate BothRun(d: Table, a: Asset, r: Address, hash: Hash, filled: U256) {
    && AllTolerated(map[], NO_TOTALS, [Asking(d)], [hash], [hash])
    && AllTolerated(map[], Totals(HostAfter([Filling(a, r, filled)]).events, 0),
                    [Asking(One(a, r, filled))], [hash], [])
  }

  /** The two bundles run, and the builder takes both. */
  lemma {:induction false} BuilderSide(d: Table, a: Asset, r: Address, hash: Hash, filled: U256)
    requires Filled(d, a, r) > 0 && filled > 0
    ensures BothRun(d, a, r, hash, filled)
    ensures var items := TwoItems(d, a, r, filled);
            && TakenEvents(TwoTried(d, a, r, filled)) == NodeStream(items)
            && BuilderAccepts(map[], items) && Filled(BuilderLedger(map[], items), a, r) == 0
            && Absorbed(map[], HostFills(items)) == One(a, r, filled)
  {
    NotTaken(d, a, r);
    FilledIsTaken(a, r, filled);
    Alone(map[], NO_TOTALS, Asking(d), hash, [hash]);
    Alone(map[], Totals(HostAfter([Filling(a, r, filled)]).events, 0), Asking(One(a, r, filled)), hash, []);
    BuilderTakes(d, a, r, filled);
    NodeStarts(d, a, r, filled);
    TwoStream(d, a, r, filled);
  }

  lemma {:induction false} ThreeLedgers(tried: seq<Attempt>, x: Table, y: Table, z: Table)
    requires |tried| == 2
    ensures IsPath(tried, [x, y, z]) <==>
            MayLeave(x, tried[0].events, y) && MayLeave(y, tried[1].events, z)
  {
    OneFurther(tried, [x], y);
    assert [x] + [y] == [x, y] && [x, y] + [z] == [x, y, z];
    OneFurther(tried, [x, y], z);
  }

  lemma {:induction false} TwoSteps(d: Table, a: Asset, r: Address, filled: U256, x: Table, y: Table, z: Table)
    requires Filled(d, a, r) > 0 && filled > 0
    ensures IsPath(TwoTried(d, a, r, filled), [x, y, z]) <==>
            MayLeave(x, TxEvents(map[], d), y) && MayLeave(y, TxEvents(map[], One(a, r, filled)), z)
  {
    TwoAre(d, a, r, filled);
    ThreeLedgers(TwoTried(d, a, r, filled), x, y, z);
  }

  /** Too little is left for the second order: it is rejected and changes nothing. */
  lemma {:induction false} TooLittle(left: Table, a: Asset, r: Address, filled: U256, post: Table)
    requires Filled(left, a, r) < filled
    ensures !Settles(left, TxEvents(map[], One(a, r, filled)))
    ensures MayLeave(left, TxEvents(map[], One(a, r, filled)), post) <==> post == left
  {
    var u := TxEvents(map[], One(a, r, filled));
    assert Filled(u.orders, a, r) > Combined(left, u.fills, a, r);
  }

  lemma {:induction false} DroppedSettles(a: Asset, r: Address, dropped: U256, filled: U256)
    requires 0 < dropped < filled
    ensures var start, d := One(a, r, filled), TxEvents(map[], One(a, r, dropped));
            Settles(start, d) && Filled(Settled(start, d), a, r) == filled - dropped
  {
    OneAt(a, r, filled);
    OneAt(a, r, dropped);
  }

  /**
   A node given the block of both bundles takes the dropped transaction, rejects the one the
   builder settled, and ends with other fills.
   */
  lemma {:induction false} DroppedSettlesInNode(a: Asset, r: Address, hash: Hash, dropped: U256,
                                                filled: U256, x: Table, y: Table, z: Table)
    requires 0 < dropped < filled
    requires x == Absorbed(map[], HostFills(TwoItems(One(a, r, dropped), a, r, filled)))
    requires IsPath(TwoTried(One(a, r, dropped), a, r, filled), [x, y, z])
    ensures BothRun(One(a, r, dropped), a, r, hash, filled)
    ensures BuilderAccepts(map[], TwoItems(One(a, r, dropped), a, r, filled))
    ensures Settles(x, TxEvents(map[], One(a, r, dropped)))
    ensures !Settles(y, TxEvents(map[], One(a, r, filled)))
    ensures z != BuilderLedger(map[], TwoItems(One(a, r, dropped), a, r, filled))
  {
    OneAt(a, r, dropped);
    BuilderSide(One(a, r, dropped), a, r, hash, filled);
    TwoSteps(One(a, r, dropped), a, r, filled, x, y, z);
    DroppedSettles(a, r, dropped, filled);
    TooLittle(y, a, r, filled, z);
  }

  /** An order that can be met and one of nothing for an asset nobody has. */
  function Torn(a: Asset, b: Asset, r: Address, dropped: U256): Table {
    map[a := map[r := dropped], b := map[r := 0]]
  }

  /** Where the first is met before the second is missed, its amount is gone. */
  lemma {:induction false} TornRemoval(a: Asset, b: Asset, r: Address, dropped: U256, filled: U256)
    returns (left: Table)
    requires a != b && 0 < dropped <= filled
    ensures var e := TxEvents(map[], Torn(a, b, r, dropped));
            && !Settles(One(a, r, filled), e) && !Harmless(One(a, r, filled), e)
            && MayLeave(One(a, r, filled), e, left)
    ensures Filled(left, a, r) < filled
  {
    var start, d := One(a, r, filled), Torn(a, b, r, dropped);
    var e := TxEvents(map[], d);
    OneAt(a, r, filled);
    assert Check(start, e) && b in e.orders && b !in start;
    assert Filled(d, a, r) == dropped;
    AbsorbedEmpty(start);
    var ds := RowStartingAt(d[a], r);
    var vs := OrderStartingAt(d, a, ds);
    FirstDebited(start, vs, a, ds[0]);
    left := Removal(start, e, vs).table;
  }

  /**
   The same block with a dropped transaction that does not settle in the node: some order of
   visits half removes it, and the transaction the builder settled is rejected.
   */
  lemma {:induction false} DroppedTearsNode(a: Asset, b: Asset, r: Address, hash: Hash, dropped: U256,
                                            filled: U256)
    returns (x: Table, y: Table)
    requires a != b && 0 < dropped <= filled
    ensures var d := Torn(a, b, r, dropped);
            && BothRun(d, a, r, hash, filled)
            && BuilderAccepts(map[], TwoItems(d, a, r, filled))
            && x == Absorbed(map[], HostFills(TwoItems(d, a, r, filled)))
            && IsPath(TwoTried(d, a, r, filled), [x, y, y])
            && !Settles(x, TxEvents(map[], d)) && !Harmless(x, TxEvents(map[], d))
    ensures !Settles(y, TxEvents(map[], One(a, r, filled)))
  {
    var d := Torn(a, b, r, dropped);
    assert Filled(d, a, r) == dropped;
    BuilderSide(d, a, r, hash, filled);
    x := One(a, r, filled);
    y := TornRemoval(a, b, r, dropped, filled);
    TooLittle(y, a, r, filled, y);
    TwoSteps(d, a, r, filled, x, y, y);
  }

  lemma {:induction false} Alone(ctx: Table, t: Totals, s: Summary, hash: Hash, reverting: seq<Hash>)
    ensures AllTolerated(ctx, t, [s], [hash], reverting) <==> Tolerated(ctx, t, s, hash in reverting)
  {
    assert [s][..0] == [] && [hash][..0] == [];
    assert AllTolerated(ctx, t, [s][..0], [hash][..0], reverting);
  }

  lemma {:induction false} TwoStream(d: Table, a: Asset, r: Address, filled: U256)
    requires Filled(d, a, r) > 0 && filled > 0
    ensures TakenEvents(TwoTried(d, a, r, filled)) == NodeStream(TwoItems(d, a, r, filled))
  {
    var items, tried := TwoItems(d, a, r, filled), TwoTried(d, a, r, filled);
    TwoAre(d, a, r, filled);
    assert items[..1] == [items[0]] && items[..1][..0] == [];
    assert tried[..1] == [tried[0]] && tried[..1][..0] == [];
    assert NodeStream(items[..1]) == [] && TakenEvents(tried[..1]) == [];
  }
}
