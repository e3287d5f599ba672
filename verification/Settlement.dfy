/**
 When one transaction's fills and orders settle against a context, and what a
 settlement keeps: domination between contexts, saturation included.
 */
module Settlement {
  import opened Words
  import opened Ledger

  /** The fills and the order outputs collected from one transaction. */
  datatype TxEvents = TxEvents(fills: Table, orders: Table)

  /** `CombinedContext::balance`. */
  function Combined(ctx: Table, extra: Table, a: Asset, r: Address): U256 {
    SatAdd(Filled(ctx, a, r), Filled(extra, a, r))
  }

  /** What `check_ru_tx_events` decides: the combined balances cover the orders. */
  ghost predicate Check(ctx: Table, e: TxEvents) {
    forall a, r :: Filled(e.orders, a, r) <= Combined(ctx, e.fills, a, r)
  }

  /** Every ordered key exists in the context or in the fills. */
  ghost predicate Covers(ctx: Table, e: TxEvents) {
    && (forall a | a in e.orders :: a in ctx || a in e.fills)
    && (forall a, r | Has(e.orders, a, r) :: Has(ctx, a, r) || Has(e.fills, a, r))
  }

  ghost predicate Settles(ctx: Table, e: TxEvents) {
    Check(ctx, e) && Covers(ctx, e)
  }

  lemma {:induction false} SettlesIsRemovable(ctx: Table, e: TxEvents)
    ensures Settles(ctx, e) <==> Removable(Absorbed(ctx, e.fills), e.orders)
    ensures Covers(ctx, e) <==> Present(Absorbed(ctx, e.fills), e.orders)
  {
    var u := Absorbed(ctx, e.fills);
    assert forall a, r :: Filled(u, a, r) == Combined(ctx, e.fills, a, r);
  }

  /** `u` is `ctx` with the fills credited, capped, and the orders debited. */
  ghost predicate IsSettled(u: Table, ctx: Table, e: TxEvents) {
    && (forall a {:trigger a in u} :: a in u <==> a in ctx || a in e.fills)
    && (forall a, r {:trigger Has(u, a, r)} ::
          Has(u, a, r) <==> Has(ctx, a, r) || Has(e.fills, a, r))
    && (forall a, r {:trigger Filled(u, a, r)} ::
          Filled(u, a, r) == Combined(ctx, e.fills, a, r) - Filled(e.orders, a, r))
  }

  lemma {:induction false} SettledExists(ctx: Table, e: TxEvents)
    requires Settles(ctx, e)
    ensures Removable(Absorbed(ctx, e.fills), e.orders)
    ensures IsSettled(Removed(Absorbed(ctx, e.fills), e.orders), ctx, e)
  {
    SettlesIsRemovable(ctx, e);
  }

  /** The context after a successful settlement. */
  ghost function Settled(ctx: Table, e: TxEvents): (u: Table)
    requires Settles(ctx, e)
    ensures IsSettled(u, ctx, e)
  {
    SettledExists(ctx, e);
    var u :| IsSettled(u, ctx, e);
    u
  }

  lemma {:induction false} SettledUnique(u: Table, ctx: Table, e: TxEvents)
    requires Settles(ctx, e) && IsSettled(u, ctx, e)
    ensures u == Settled(ctx, e)
  {
    TableExt(u, Settled(ctx, e));
  }

  /** A positive order that passes the balance check names only existing keys. */
  lemma {:induction false} PositiveIsCovered(ctx: Table, e: TxEvents)
    requires Positive(e.orders) && Check(ctx, e)
    ensures Settles(ctx, e)
  {
    forall a, r | Has(e.orders, a, r)
      ensures Has(ctx, a, r) || Has(e.fills, a, r)
    {
      assert 0 < Filled(e.orders, a, r) <= Combined(ctx, e.fills, a, r);
    }
    forall a | a in e.orders
      ensures a in ctx || a in e.fills
    {
      var r :| r in e.orders[a];
      assert Has(e.orders, a, r);
    }
  }

  /** `big` has at least the keys and at least the balances of `small`. */
  ghost predicate Dominates(big: Table, small: Table) {
    && Present(big, small)
    && (forall a, r :: Filled(small, a, r) <= Filled(big, a, r))
  }

  lemma {:induction false} DominatesTransitive(x: Table, y: Table, z: Table)
    requires Dominates(x, y) && Dominates(y, z)
    ensures Dominates(x, z)
  {
    forall a, r
      ensures Filled(z, a, r) <= Filled(x, a, r)
    {
      assert Filled(z, a, r) <= Filled(y, a, r) <= Filled(x, a, r);
    }
    assert forall a, r | Has(z, a, r) :: Has(y, a, r);
  }

  lemma {:induction false} CheckMonotone(big: Table, small: Table, e: TxEvents)
    requires Dominates(big, small) && Check(small, e)
    ensures Check(big, e)
  {
    forall a, r
      ensures Filled(e.orders, a, r) <= Combined(big, e.fills, a, r)
    {
      assert Filled(e.orders, a, r) <= Combined(small, e.fills, a, r);
      assert Filled(small, a, r) <= Filled(big, a, r);
    }
  }

  /** Whatever settles against the smaller context settles against the larger one. */
  lemma {:induction false} SettlesMonotone(big: Table, small: Table, e: TxEvents)
    requires Dominates(big, small) && Settles(small, e)
    ensures Settles(big, e)
    ensures Dominates(Settled(big, e), Settled(small, e))
  {
    CheckMonotone(big, small, e);
    var x, y := Settled(big, e), Settled(small, e);
    forall a, r
      ensures Filled(y, a, r) <= Filled(x, a, r)
    {
      assert Filled(small, a, r) <= Filled(big, a, r);
    }
  }

  // ---- runs of settlements, one transaction at a time ----

  /** Consuming `evs` in order, as the block driver does, succeeds at every step. */
  ghost predicate RunSettles(ctx: Table, evs: seq<TxEvents>)
    decreases |evs|, 0
  {
    evs == [] ||
    var n := |evs| - 1;
    RunSettles(ctx, evs[..n]) && Settles(RunSettled(ctx, evs[..n]), evs[n])
  }

  ghost function RunSettled(ctx: Table, evs: seq<TxEvents>): Table
    requires RunSettles(ctx, evs)
    decreases |evs|, 1
  {
    if evs == [] then ctx
    else
      var n := |evs| - 1;
      Settled(RunSettled(ctx, evs[..n]), evs[n])
  }

  lemma {:induction false} RunOneMore(ctx: Table, evs: seq<TxEvents>, e: TxEvents)
    requires RunSettles(ctx, evs)
    ensures RunSettles(ctx, evs + [e]) <==> Settles(RunSettled(ctx, evs), e)
    ensures RunSettles(ctx, evs + [e]) ==>
              RunSettled(ctx, evs + [e]) == Settled(RunSettled(ctx, evs), e)
  {
    assert (evs + [e])[..|evs + [e]| - 1] == evs;
  }

  lemma {:induction false} RunSettlesMonotone(big: Table, small: Table, evs: seq<TxEvents>)
    requires Dominates(big, small) && RunSettles(small, evs)
    ensures RunSettles(big, evs)
    ensures Dominates(RunSettled(big, evs), RunSettled(small, evs))
  {
    if evs != [] {
      var n := |evs| - 1;
      RunSettlesMonotone(big, small, evs[..n]);
      SettlesMonotone(RunSettled(big, evs[..n]), RunSettled(small, evs[..n]), evs[n]);
    }
  }

  lemma {:induction false} RunSettlesAppend(ctx: Table, es: seq<TxEvents>, fs: seq<TxEvents>)
    requires RunSettles(ctx, es)
    ensures RunSettles(ctx, es + fs) <==> RunSettles(RunSettled(ctx, es), fs)
    ensures RunSettles(ctx, es + fs) ==>
              RunSettled(ctx, es + fs) == RunSettled(RunSettled(ctx, es), fs)
  {
    if fs == [] {
      assert es + fs == es;
    } else {
      var n := |fs| - 1;
      var last := fs[n];
      assert es + fs == (es + fs[..n]) + [last];
      assert (es + fs)[..|es + fs| - 1] == es + fs[..n];
      RunSettlesAppend(ctx, es, fs[..n]);
    }
  }

  lemma {:induction false} RunSettlesPrefix(ctx: Table, es: seq<TxEvents>, fs: seq<TxEvents>)
    requires RunSettles(ctx, es + fs)
    ensures RunSettles(ctx, es)
  {
    if fs == [] {
      assert es + fs == es;
    } else {
      assert (es + fs)[..|es + fs| - 1] == es + fs[..|fs| - 1];
      RunSettlesPrefix(ctx, es, fs[..|fs| - 1]);
    }
  }
}
