/**
 Taking orders out of a table, entry by entry in the order in which a loop over a
 `HashMap` meets them, stopping at the first that cannot be met.
 */
module Debits {
  import opened Words
  import opened Ledger
  import opened Settlement

  datatype MarketError =
    | InsufficientBalance(asset: Asset, recipient: Address, amount: U256)
    | MissingAsset(missing: Asset)

  /** One recipient of an asset, and one asset with its recipients, as a loop meets them. */
  datatype Debit = Debit(recipient: Address, amount: U256)

  datatype Visit = Visit(asset: Asset, debits: seq<Debit>)

  /** `ds` lists every entry of `row` once. */
  ghost predicate ListsRow(ds: seq<Debit>, row: Row) {
    if ds == [] then row == map[]
    else
      var d := ds[|ds| - 1];
      d.recipient in row && row[d.recipient] == d.amount && ListsRow(ds[..|ds| - 1], row - {d.recipient})
  }

  /** `vs` visits every asset of `o` once, each with all its entries. */
  ghost predicate IsOrder(vs: seq<Visit>, o: Table) {
    if vs == [] then o == map[]
    else
      var v := vs[|vs| - 1];
      v.asset in o && ListsRow(v.debits, o[v.asset]) && IsOrder(vs[..|vs| - 1], o - {v.asset})
  }

  datatype RowProgress = RowProgress(row: Row, missing: Option<Debit>)

  datatype Progress = Progress(table: Table, error: Option<MarketError>)

  /** One entry; nothing more happens once one could not be met. */
  function DebitOne(p: RowProgress, d: Debit): RowProgress {
    if p.missing.Some? then p
    else if d.recipient !in p.row || p.row[d.recipient] < d.amount then p.(missing := Some(d))
    else p.(row := p.row[d.recipient := p.row[d.recipient] - d.amount])
  }

  function DebitRow(row: Row, ds: seq<Debit>): RowProgress {
    if ds == [] then RowProgress(row, None)
    else DebitOne(DebitRow(row, ds[..|ds| - 1]), ds[|ds| - 1])
  }

  function DebitAsset(p: Progress, v: Visit): Progress {
    if p.error.Some? then p
    else if v.asset !in p.table then p.(error := Some(MissingAsset(v.asset)))
    else
      var q := DebitRow(p.table[v.asset], v.debits);
      Progress(p.table[v.asset := q.row],
               if q.missing.None? then None
               else Some(InsufficientBalance(v.asset, q.missing.value.recipient, q.missing.value.amount)))
  }

  /** Where visiting `vs` ends, and the error it ends with, if any. */
  function DebitAll(t: Table, vs: seq<Visit>): Progress {
    if vs == [] then Progress(t, None)
    else DebitAsset(DebitAll(t, vs[..|vs| - 1]), vs[|vs| - 1])
  }

  // ---- what a listing debits ----

  /** A row after its entries were met, or as far as they were. */
  lemma {:induction false} DebitRowResult(row: Row, ds: seq<Debit>, order: Row)
    requires ListsRow(ds, order)
    ensures var p := DebitRow(row, ds);
            && p.row.Keys == row.Keys
            && (p.missing.None? <==> forall r | r in order :: r in row && order[r] <= row[r])
            && (p.missing.None? ==> forall r | r in row :: p.row[r] == row[r] - Get(order, r))
            && (forall r | r in row :: p.row[r] == row[r] || p.row[r] == row[r] - Get(order, r))
            && (p.missing.Some? ==>
                && var Debit(r, amount) := p.missing.value;
                   r in order && amount == order[r] && (r in row ==> row[r] < amount))
  {
    if ds != [] {
      var d := ds[|ds| - 1];
      DebitRowResult(row, ds[..|ds| - 1], order - {d.recipient});
      assert forall r | r in order :: r == d.recipient || r in order - {d.recipient};
    }
  }

  /** Subtraction stopped part-way: each balance is untouched or fully debited. */
  ghost predicate PartlyRemoved(u: Table, t: Table, o: Table) {
    && (forall a {:trigger a in u} :: a in u <==> a in t)
    && (forall a, r {:trigger Has(u, a, r)} :: Has(u, a, r) <==> Has(t, a, r))
    && (forall a, r {:trigger Filled(u, a, r)} ::
          || Filled(u, a, r) == Filled(t, a, r)
          || Filled(u, a, r) == Filled(t, a, r) - Filled(o, a, r))
  }

  /** The error names an order that `t` really cannot meet. */
  ghost predicate Blames(t: Table, o: Table, error: MarketError) {
    match error
    case MissingAsset(a) => a in o && a !in t
    case InsufficientBalance(a, r, amount) =>
      Has(o, a, r) && amount == Filled(o, a, r) && (!Has(t, a, r) || Filled(t, a, r) < amount)
  }

  /** All of `o` was taken out, or part of it and the error names what could not be. */
  ghost predicate Ends(p: Progress, t: Table, o: Table) {
    match p.error
    case None => Removable(t, o) && IsDifference(p.table, t, o)
    case Some(error) => PartlyRemoved(p.table, t, o) && Blames(t, o, error)
  }

  /** An order that cannot be met cannot be taken out. */
  lemma {:induction false} BlamedBlocks(t: Table, o: Table, error: MarketError)
    requires Blames(t, o, error)
    ensures !Removable(t, o)
  {
    match error
    case MissingAsset(a) => assert a in o && a !in t;
    case InsufficientBalance(a, r, _) =>
      assert Has(o, a, r) && (!Has(t, a, r) || Filled(t, a, r) < Filled(o, a, r));
  }

  /** One asset less. */
  lemma {:induction false} WithoutAsset(o: Table, a: Asset)
    ensures forall b, r :: Has(o - {a}, b, r) <==> b != a && Has(o, b, r)
    ensures forall b, r :: Filled(o - {a}, b, r) == if b == a then 0 else Filled(o, b, r)
  {
  }

  lemma {:induction false} StuckEnds(p: Progress, t: Table, o: Table, a: Asset)
    requires p.error.Some? && Ends(p, t, o - {a})
    ensures Ends(p, t, o)
  {
    WithoutAsset(o, a);
    forall b, r
      ensures || Filled(p.table, b, r) == Filled(t, b, r)
              || Filled(p.table, b, r) == Filled(t, b, r) - Filled(o, b, r)
    {
      assert Filled(o - {a}, b, r) == if b == a then 0 else Filled(o, b, r);
    }
  }

  lemma {:induction false} AssetEnds(p: Progress, t: Table, o: Table, v: Visit)
    requires p.error.None? && v.asset in o && ListsRow(v.debits, o[v.asset])
    requires Ends(p, t, o - {v.asset})
    ensures Ends(DebitAsset(p, v), t, o)
  {
    var a, q := v.asset, DebitAsset(p, v);
    WithoutAsset(o, a);
    assert a in p.table <==> a in t;
    if a in t {
      DebitRowResult(p.table[a], v.debits, o[a]);
      forall b, r
        ensures Has(q.table, b, r) <==> Has(t, b, r)
        ensures || Filled(q.table, b, r) == Filled(t, b, r)
                || Filled(q.table, b, r) == Filled(t, b, r) - Filled(o, b, r)
        ensures q.error.None? ==> Filled(q.table, b, r) == Filled(t, b, r) - Filled(o, b, r)
        ensures q.error.None? ==> Filled(o, b, r) <= Filled(t, b, r)
      {
        assert Has(p.table, b, r) <==> Has(t, b, r);
        assert Filled(p.table, b, r) == Filled(t, b, r) - Filled(o - {a}, b, r);
        assert Filled(o, a, r) == Get(o[a], r);
      }
      if q.error.Some? {
        var Debit(r, amount) := DebitRow(p.table[a], v.debits).missing.value;
        assert Has(p.table, a, r) <==> Has(t, a, r);
        assert Filled(p.table, a, r) == Filled(t, a, r);
        assert Has(o, a, r) && (!Has(t, a, r) || Filled(t, a, r) < Filled(o, a, r));
      }
    }
  }

  /** In whatever order: everything is taken out exactly when it can be. */
  lemma {:induction false} DebitAllEnds(t: Table, o: Table, vs: seq<Visit>)
    requires IsOrder(vs, o)
    ensures Ends(DebitAll(t, vs), t, o)
    ensures DebitAll(t, vs).error.None? <==> Removable(t, o)
  {
    if vs != [] {
      var v, p := vs[|vs| - 1], DebitAll(t, vs[..|vs| - 1]);
      DebitAllEnds(t, o - {v.asset}, vs[..|vs| - 1]);
      if p.error.Some? {
        StuckEnds(p, t, o, v.asset);
      } else {
        AssetEnds(p, t, o, v);
      }
    }
    if DebitAll(t, vs).error.Some? {
      BlamedBlocks(t, o, DebitAll(t, vs).error.value);
    }
  }

  // ---- stopping early ----

  lemma {:induction false} RowAppend(row: Row, xs: seq<Debit>, ys: seq<Debit>)
    ensures DebitRow(row, xs + ys)
         == if DebitRow(row, xs).missing.Some? then DebitRow(row, xs)
            else DebitRow(DebitRow(row, xs).row, ys)
  {
    if ys == [] {
      assert xs + ys == xs;
    } else {
      RowAppend(row, xs, ys[..|ys| - 1]);
      assert (xs + ys)[..|xs + ys| - 1] == xs + ys[..|ys| - 1];
    }
  }

  lemma {:induction false} AllAppend(t: Table, xs: seq<Visit>, ys: seq<Visit>)
    ensures DebitAll(t, xs + ys)
         == if DebitAll(t, xs).error.Some? then DebitAll(t, xs)
            else DebitAll(DebitAll(t, xs).table, ys)
  {
    if ys == [] {
      assert xs + ys == xs;
    } else {
      AllAppend(t, xs, ys[..|ys| - 1]);
      assert (xs + ys)[..|xs + ys| - 1] == xs + ys[..|ys| - 1];
    }
  }

  /** Once an entry could not be met, the rest makes no difference. */
  lemma {:induction false} StopsThere(t: Table, vs: seq<Visit>, i: nat)
    requires i < |vs| && DebitAll(t, vs[..i + 1]).error.Some?
    ensures DebitAll(t, vs) == DebitAll(t, vs[..i + 1])
  {
    AllAppend(t, vs[..i + 1], vs[i + 1..]);
    assert vs == vs[..i + 1] + vs[i + 1..];
  }

  lemma {:induction false} AllStep(t: Table, vs: seq<Visit>, i: nat, u: Table)
    requires i < |vs| && DebitAll(t, vs[..i]) == Progress(u, None)
    ensures DebitAll(t, vs[..i + 1]) == DebitAsset(Progress(u, None), vs[i])
  {
    assert vs[..i + 1][..i] == vs[..i];
  }

  // ---- orders that start where one likes ----

  lemma {:induction false} RowFrom(row: Row, first: Debit, ds: seq<Debit>)
    requires first.recipient !in row && ListsRow(ds, row)
    ensures ListsRow([first] + ds, row[first.recipient := first.amount])
  {
    var more := row[first.recipient := first.amount];
    if ds == [] {
      assert [first][..0] == [] && more - {first.recipient} == map[];
    } else {
      var d := ds[|ds| - 1];
      RowFrom(row - {d.recipient}, first, ds[..|ds| - 1]);
      assert ([first] + ds)[..|ds|] == [first] + ds[..|ds| - 1];
      assert (row - {d.recipient})[first.recipient := first.amount] == more - {d.recipient};
    }
  }

  lemma {:induction false} AnyRow(row: Row) returns (ds: seq<Debit>)
    ensures ListsRow(ds, row)
    decreases |row|
  {
    if row == map[] {
      ds := [];
    } else {
      var r :| r in row;
      ds := RowStartingAt(row, r);
    }
  }

  /** Any recipient may come first. */
  lemma {:induction false} RowStartingAt(row: Row, r: Address) returns (ds: seq<Debit>)
    requires r in row
    ensures ListsRow(ds, row) && ds != [] && ds[0] == Debit(r, row[r])
    decreases |row|, 0
  {
    var rest := AnyRow(row - {r});
    RowFrom(row - {r}, Debit(r, row[r]), rest);
    assert (row - {r})[r := row[r]] == row;
    ds := [Debit(r, row[r])] + rest;
  }

  lemma {:induction false} OrderFrom(o: Table, first: Visit, vs: seq<Visit>, row: Row)
    requires first.asset !in o && ListsRow(first.debits, row) && IsOrder(vs, o)
    ensures IsOrder([first] + vs, o[first.asset := row])
  {
    var more := o[first.asset := row];
    if vs == [] {
      assert [first][..0] == [] && more - {first.asset} == map[];
    } else {
      var v := vs[|vs| - 1];
      OrderFrom(o - {v.asset}, first, vs[..|vs| - 1], row);
      assert ([first] + vs)[..|vs|] == [first] + vs[..|vs| - 1];
      assert (o - {v.asset})[first.asset := row] == more - {v.asset};
    }
  }

  lemma {:induction false} AnyOrder(o: Table) returns (vs: seq<Visit>)
    ensures IsOrder(vs, o)
    decreases |o|
  {
    if o == map[] {
      vs := [];
    } else {
      var a :| a in o;
      var ds := AnyRow(o[a]);
      vs := OrderStartingAt(o, a, ds);
    }
  }

  /** Any asset may come first, its recipients in any order. */
  lemma {:induction false} OrderStartingAt(o: Table, a: Asset, ds: seq<Debit>) returns (vs: seq<Visit>)
    requires a in o && ListsRow(ds, o[a])
    ensures IsOrder(vs, o) && vs != [] && vs[0] == Visit(a, ds)
    decreases |o|, 0
  {
    var rest := AnyOrder(o - {a});
    OrderFrom(o - {a}, Visit(a, ds), rest, o[a]);
    assert (o - {a})[a := o[a]] == o;
    vs := [Visit(a, ds)] + rest;
  }

  // ---- what the first visit does ----

  lemma {:induction false} RowOnlyFalls(row: Row, ds: seq<Debit>)
    ensures DebitRow(row, ds).row.Keys == row.Keys
    ensures forall r :: Get(DebitRow(row, ds).row, r) <= Get(row, r)
  {
    if ds != [] {
      RowOnlyFalls(row, ds[..|ds| - 1]);
    }
  }

  lemma {:induction false} TableOnlyFalls(t: Table, vs: seq<Visit>, a: Asset, r: Address)
    ensures Filled(DebitAll(t, vs).table, a, r) <= Filled(t, a, r)
  {
    if vs != [] {
      var v, p := vs[|vs| - 1], DebitAll(t, vs[..|vs| - 1]);
      TableOnlyFalls(t, vs[..|vs| - 1], a, r);
      if p.error.None? && v.asset == a && a in p.table {
        RowOnlyFalls(p.table[a], v.debits);
        assert Get(DebitRow(p.table[a], v.debits).row, r) <= Get(p.table[a], r);
      }
    }
  }

  /** An entry that can be met and comes first is debited, whatever happens later. */
  lemma {:induction false} FirstRowDebited(row: Row, ds: seq<Debit>)
    requires ds != [] && ds[0].recipient in row && ds[0].amount <= row[ds[0].recipient]
    ensures Get(DebitRow(row, ds).row, ds[0].recipient) <= row[ds[0].recipient] - ds[0].amount
  {
    var first := ds[..1];
    assert ds == first + ds[1..] && first[..0] == [];
    RowAppend(row, first, ds[1..]);
    assert DebitRow(row, first[..0]) == RowProgress(row, None);
    RowOnlyFalls(DebitRow(row, first).row, ds[1..]);
  }

  lemma {:induction false} FirstDebited(t: Table, vs: seq<Visit>, a: Asset, d: Debit)
    requires vs != [] && vs[0].asset == a && vs[0].debits != [] && vs[0].debits[0] == d
    requires Has(t, a, d.recipient) && d.amount <= Filled(t, a, d.recipient)
    ensures Filled(DebitAll(t, vs).table, a, d.recipient) <= Filled(t, a, d.recipient) - d.amount
  {
    var first := vs[..1];
    assert vs == first + vs[1..] && first[..0] == [];
    AllAppend(t, first, vs[1..]);
    assert DebitAll(t, first[..0]) == Progress(t, None);
    assert DebitAll(t, first) == DebitAsset(Progress(t, None), vs[0]);
    FirstRowDebited(t[a], vs[0].debits);
    assert Filled(DebitAll(t, first).table, a, d.recipient) <= Filled(t, a, d.recipient) - d.amount;
    TableOnlyFalls(DebitAll(t, first).table, vs[1..], a, d.recipient);
  }

  /** An entry that cannot be met and comes first stops everything. */
  lemma {:induction false} FirstStops(t: Table, vs: seq<Visit>, a: Asset)
    requires vs != [] && vs[0].asset == a
    requires a !in t || (vs[0].debits != [] && vs[0].debits[0].recipient !in t[a])
    ensures DebitAll(t, vs).error.Some? && DebitAll(t, vs).table == t
  {
    var first := vs[..1];
    assert vs == first + vs[1..] && first[..0] == [];
    AllAppend(t, first, vs[1..]);
    assert DebitAll(t, first[..0]) == Progress(t, None);
    assert DebitAll(t, first) == DebitAsset(Progress(t, None), vs[0]);
    if a in t {
      var ds := vs[0].debits;
      assert ds == ds[..1] + ds[1..] && ds[..1][..0] == [];
      RowAppend(t[a], ds[..1], ds[1..]);
      assert DebitRow(t[a], ds[..1][..0]) == RowProgress(t[a], None);
      assert t[a := t[a]] == t;
    }
  }

  // ---- when a settlement is atomic ----

  /** What one order of visits makes of the events once they passed the check. */
  ghost function Removal(ctx: Table, e: TxEvents, vs: seq<Visit>): Progress {
    DebitAll(Absorbed(ctx, e.fills), vs)
  }

  /** What an order of visits leaves of the context when the removal stops in the middle. */
  ghost predicate LeftBy(ctx: Table, e: TxEvents, left: Table) {
    exists vs | IsOrder(vs, e.orders) :: left == Removal(ctx, e, vs).table
  }

  /** In no order of visits does a rejection leave anything but the context as it was. */
  ghost predicate Atomic(ctx: Table, e: TxEvents) {
    Check(ctx, e) ==>
      forall vs | IsOrder(vs, e.orders) :: Removal(ctx, e, vs).error.Some? ==> Removal(ctx, e, vs).table == ctx
  }

  ghost predicate NothingOrdered(e: TxEvents) {
    forall a, r :: Filled(e.orders, a, r) == 0
  }

  /** Visiting an absent key first leaves exactly the fills absorbed. */
  lemma {:induction false} AbsentFirst(ctx: Table, e: TxEvents) returns (vs: seq<Visit>)
    requires !Covers(ctx, e)
    ensures IsOrder(vs, e.orders)
    ensures Removal(ctx, e, vs).error.Some? && Removal(ctx, e, vs).table == Absorbed(ctx, e.fills)
  {
    SettlesIsRemovable(ctx, e);
    var t := Absorbed(ctx, e.fills);
    if a :| a in e.orders && a !in t {
      var ds := AnyRow(e.orders[a]);
      vs := OrderStartingAt(e.orders, a, ds);
      FirstStops(t, vs, a);
    } else {
      var a, r :| Has(e.orders, a, r) && !Has(t, a, r);
      var ds := RowStartingAt(e.orders[a], r);
      vs := OrderStartingAt(e.orders, a, ds);
      FirstStops(t, vs, a);
    }
  }

  /** Visiting a positive order first debits it before the rejection. */
  lemma {:induction false} PositiveFirst(ctx: Table, e: TxEvents) returns (vs: seq<Visit>)
    requires Check(ctx, e) && !Covers(ctx, e) && !NothingOrdered(e)
    requires Absorbed(ctx, e.fills) == ctx
    ensures IsOrder(vs, e.orders)
    ensures Removal(ctx, e, vs).error.Some? && Removal(ctx, e, vs).table != ctx
  {
    var a, r :| Filled(e.orders, a, r) != 0;
    assert Filled(ctx, a, r) == Combined(ctx, e.fills, a, r) >= Filled(e.orders, a, r);
    var ds := RowStartingAt(e.orders[a], r);
    vs := OrderStartingAt(e.orders, a, ds);
    FirstDebited(ctx, vs, a, ds[0]);
    SettlesIsRemovable(ctx, e);
    DebitAllEnds(ctx, e.orders, vs);
  }

  lemma {:induction false} ZeroOrdersKeep(ctx: Table, e: TxEvents, vs: seq<Visit>)
    requires NothingOrdered(e) && Absorbed(ctx, e.fills) == ctx && IsOrder(vs, e.orders)
    ensures Removal(ctx, e, vs).table == ctx
  {
    var p := Removal(ctx, e, vs);
    DebitAllEnds(ctx, e.orders, vs);
    assert forall a, r :: Filled(p.table, a, r) == Filled(ctx, a, r);
    TableExt(p.table, ctx);
  }

  /**
   When the promise of an atomic `checked_remove_ru_tx_events` holds: exactly when the
   check fails, or every ordered key exists, or the fills add nothing and the orders ask
   for nothing.
   */
  lemma {:induction false} AtomicWhen(ctx: Table, e: TxEvents)
    ensures Atomic(ctx, e) <==>
            || !Check(ctx, e)
            || Covers(ctx, e)
            || (Absorbed(ctx, e.fills) == ctx && NothingOrdered(e))
  {
    if Check(ctx, e) {
      if Covers(ctx, e) {
        SettlesIsRemovable(ctx, e);
        forall vs | IsOrder(vs, e.orders)
          ensures Removal(ctx, e, vs).error.None?
        {
          DebitAllEnds(Absorbed(ctx, e.fills), e.orders, vs);
        }
      } else if Absorbed(ctx, e.fills) != ctx {
        var vs := AbsentFirst(ctx, e);
      } else if !NothingOrdered(e) {
        var vs := PositiveFirst(ctx, e);
      } else {
        forall vs | IsOrder(vs, e.orders)
          ensures Removal(ctx, e, vs).table == ctx
        {
          ZeroOrdersKeep(ctx, e, vs);
        }
      }
    }
  }
}
