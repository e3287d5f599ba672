/**
 The nested balance maps shared by fills and orders:
 (chain, token) -> recipient -> amount.

 Sums and differences of tables are described by what they record at each key;
 a table is determined by that (TableExt).
 */
module Ledger {
  import opened Words

  datatype Asset = Asset(chainId: U64, token: Address)

  type Row = map<Address, U256>
  type Table = map<Asset, Row>

  function Get(row: Row, r: Address): U256 {
    if r in row then row[r] else 0
  }

  function RowOf(t: Table, a: Asset): Row {
    if a in t then t[a] else map[]
  }

  /** The balance recorded for `a` and `r`; an absent key counts as zero. */
  function Filled(t: Table, a: Asset, r: Address): U256 {
    if a in t && r in t[a] then t[a][r] else 0
  }

  ghost predicate Has(t: Table, a: Asset, r: Address) {
    a in t && r in t[a]
  }

  /** No asset is recorded without at least one recipient. */
  ghost predicate NoEmptyRows(t: Table) {
    forall a | a in t :: t[a] != map[]
  }

  ghost predicate Positive(t: Table) {
    NoEmptyRows(t) && forall a, r | Has(t, a, r) :: Filled(t, a, r) > 0
  }

  /** Two tables with the same keys and the same balances are the same table. */
  lemma {:induction false} TableExt(s: Table, t: Table)
    requires forall a :: a in s <==> a in t
    requires forall a, r :: Has(s, a, r) <==> Has(t, a, r)
    requires forall a, r :: Filled(s, a, r) == Filled(t, a, r)
    ensures s == t
  {
    forall a | a in s
      ensures s[a] == t[a]
    {
      forall r
        ensures r in s[a] <==> r in t[a]
        ensures r in s[a] ==> s[a][r] == t[a][r]
      {
        assert Has(s, a, r) <==> Has(t, a, r);
        assert Filled(s, a, r) == Filled(t, a, r);
      }
    }
  }

  /** One balance increased, saturating; its keys are created when missing. */
  function AddRaw(t: Table, a: Asset, r: Address, amount: U256): (u: Table)
    ensures forall a' {:trigger a' in u} :: a' in u <==> a' in t || a' == a
    ensures forall a', r' {:trigger Has(u, a', r')} ::
              Has(u, a', r') <==> Has(t, a', r') || (a' == a && r' == r)
    ensures forall a', r' {:trigger Filled(u, a', r')} ::
              Filled(u, a', r') ==
              if a' == a && r' == r then SatAdd(Filled(t, a, r), amount) else Filled(t, a', r')
  {
    t[a := RowOf(t, a)[r := SatAdd(Filled(t, a, r), amount)]]
  }

  // ---- sums ----

  /** `u` holds the pointwise saturating sum of `t` and `o`. */
  ghost predicate IsSum(u: Table, t: Table, o: Table) {
    && (forall a {:trigger a in u} :: a in u <==> a in t || a in o)
    && (forall a, r {:trigger Has(u, a, r)} :: Has(u, a, r) <==> Has(t, a, r) || Has(o, a, r))
    && (forall a, r {:trigger Filled(u, a, r)} ::
          Filled(u, a, r) == SatAdd(Filled(t, a, r), Filled(o, a, r)))
  }

  function AbsorbedRow(x: Row, y: Row): (z: Row)
    ensures z.Keys == x.Keys + y.Keys
    ensures forall r :: Get(z, r) == SatAdd(Get(x, r), Get(y, r))
  {
    map r | r in x.Keys + y.Keys :: SatAdd(Get(x, r), Get(y, r))
  }

  function SumTable(t: Table, o: Table): (u: Table)
    ensures forall a {:trigger a in u} :: a in u <==> a in t || a in o
    ensures forall a, r {:trigger Has(u, a, r)} :: Has(u, a, r) <==> Has(t, a, r) || Has(o, a, r)
    ensures forall a, r {:trigger Filled(u, a, r)} ::
              Filled(u, a, r) == SatAdd(Filled(t, a, r), Filled(o, a, r))
  {
    map a | a in t.Keys + o.Keys :: AbsorbedRow(RowOf(t, a), RowOf(o, a))
  }

  ghost function Absorbed(t: Table, o: Table): (u: Table)
    ensures IsSum(u, t, o)
  {
    assert IsSum(SumTable(t, o), t, o);
    var u :| IsSum(u, t, o);
    u
  }

  lemma {:induction false} SumUnique(u: Table, t: Table, o: Table)
    requires IsSum(u, t, o)
    ensures u == Absorbed(t, o)
  {
    TableExt(u, Absorbed(t, o));
  }

  lemma {:induction false} AbsorbedEmpty(ctx: Table)
    ensures Absorbed(ctx, map[]) == ctx
  {
    TableExt(Absorbed(ctx, map[]), ctx);
  }

  lemma {:induction false} EmptyAbsorbed(t: Table)
    ensures Absorbed(map[], t) == t
  {
    TableExt(Absorbed(map[], t), t);
  }

  lemma {:induction false} AbsorbedAssociative(x: Table, y: Table, z: Table)
    ensures Absorbed(Absorbed(x, y), z) == Absorbed(x, Absorbed(y, z))
  {
    TableExt(Absorbed(Absorbed(x, y), z), Absorbed(x, Absorbed(y, z)));
  }

  /** The same amount by amount: assets without recipients are not carried over. */
  ghost predicate IsEntrySum(u: Table, t: Table, o: Table) {
    && (forall a {:trigger a in u} :: a in u <==> a in t || (a in o && o[a] != map[]))
    && (forall a, r {:trigger Has(u, a, r)} :: Has(u, a, r) <==> Has(t, a, r) || Has(o, a, r))
    && (forall a, r {:trigger Filled(u, a, r)} ::
          Filled(u, a, r) == SatAdd(Filled(t, a, r), Filled(o, a, r)))
  }

  lemma {:induction false} EntrySumExists(t: Table, o: Table) returns (u: Table)
    ensures IsEntrySum(u, t, o)
  {
    var p: Table := map a | a in o && o[a] != map[] :: o[a];
    forall a, r
      ensures Has(p, a, r) <==> Has(o, a, r)
      ensures Filled(p, a, r) == Filled(o, a, r)
    {
    }
    u := Absorbed(t, p);
  }

  ghost function Ingested(t: Table, o: Table): (u: Table)
    ensures IsEntrySum(u, t, o)
  {
    assert exists u :: IsEntrySum(u, t, o) by { var u := EntrySumExists(t, o); }
    var u :| IsEntrySum(u, t, o);
    u
  }

  lemma {:induction false} EntrySumUnique(u: Table, t: Table, o: Table)
    requires IsEntrySum(u, t, o)
    ensures u == Ingested(t, o)
  {
    TableExt(u, Ingested(t, o));
  }

  /** Tables without empty rows are determined by their entries. */
  lemma {:induction false} TableExtEntries(s: Table, t: Table)
    requires NoEmptyRows(s) && NoEmptyRows(t)
    requires forall a, r :: Has(s, a, r) <==> Has(t, a, r)
    requires forall a, r :: Filled(s, a, r) == Filled(t, a, r)
    ensures s == t
  {
    forall a
      ensures a in s <==> a in t
    {
      if a in s {
        var r :| r in s[a];
        assert Has(s, a, r) && Has(t, a, r);
      }
      if a in t {
        var r :| r in t[a];
        assert Has(t, a, r) && Has(s, a, r);
      }
    }
    TableExt(s, t);
  }

  // ---- differences ----

  /** Every key of `o`, empty rows included, is a key of `t`. */
  ghost predicate Present(t: Table, o: Table) {
    && (forall a | a in o :: a in t)
    && (forall a, r | Has(o, a, r) :: Has(t, a, r))
  }

  /** `o` can be taken out of `t` without a missing key or a negative balance. */
  ghost predicate Removable(t: Table, o: Table) {
    && Present(t, o)
    && (forall a, r :: Filled(o, a, r) <= Filled(t, a, r))
  }

  /** `u` holds `t` less `o`; no key of `t` disappears. */
  ghost predicate IsDifference(u: Table, t: Table, o: Table) {
    && (forall a {:trigger a in u} :: a in u <==> a in t)
    && (forall a, r {:trigger Has(u, a, r)} :: Has(u, a, r) <==> Has(t, a, r))
    && (forall a, r {:trigger Filled(u, a, r)} ::
          Filled(u, a, r) == Filled(t, a, r) - Filled(o, a, r))
  }

  function RemovedRow(x: Row, y: Row): (z: Row)
    ensures z.Keys == x.Keys
    ensures forall r | r in x && Get(y, r) <= Get(x, r) :: Get(z, r) == Get(x, r) - Get(y, r)
  {
    map r | r in x :: if Get(y, r) <= x[r] then x[r] - Get(y, r) else x[r]
  }

  lemma {:induction false} DifferenceExists(t: Table, o: Table)
    requires Removable(t, o)
    ensures exists u :: IsDifference(u, t, o)
  {
    var u: Table := map a | a in t :: RemovedRow(t[a], RowOf(o, a));
    forall a, r
      ensures Filled(u, a, r) == Filled(t, a, r) - Filled(o, a, r)
    {
      assert Filled(o, a, r) <= Filled(t, a, r);
      assert Has(o, a, r) ==> Has(t, a, r);
    }
    assert IsDifference(u, t, o);
  }

  ghost function Removed(t: Table, o: Table): (u: Table)
    requires Removable(t, o)
    ensures IsDifference(u, t, o)
  {
    DifferenceExists(t, o);
    var u :| IsDifference(u, t, o);
    u
  }

  lemma {:induction false} DifferenceUnique(u: Table, t: Table, o: Table)
    requires Removable(t, o) && IsDifference(u, t, o)
    ensures u == Removed(t, o)
  {
    TableExt(u, Removed(t, o));
  }
}
