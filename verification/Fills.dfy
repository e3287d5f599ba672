/** `AggregateFills`: the running fill balances, updated in place. */
module Fills {
  import opened Words
  import opened Ledger
  import opened Settlement
  import opened Aggregation
  import opened Debits

  /** How a call ends; `Panicked` stands for an `unwrap` on an absent entry. */
  datatype Outcome = Accepted | Rejected(error: MarketError) | Panicked

  function OutcomeOf(error: Option<MarketError>): Outcome {
    if error.Some? then Rejected(error.value) else Accepted
  }

  // What the loops below have done while the assets in `todo` are still to come.

  ghost predicate SummedSoFar(u: Table, t: Table, o: Table, todo: set<Asset>) {
    && (forall a {:trigger a in u} :: a in u <==> a in t || (a in o && a !in todo))
    && (forall a, r {:trigger Has(u, a, r)} ::
          Has(u, a, r) <==> Has(t, a, r) || (Has(o, a, r) && a !in todo))
    && (forall a, r {:trigger Filled(u, a, r)} ::
          Filled(u, a, r)
          == if a in todo then Filled(t, a, r) else SatAdd(Filled(t, a, r), Filled(o, a, r)))
  }

  ghost predicate UnabsorbedSoFar(u: Table, t: Table, o: Table, todo: set<Asset>) {
    && (forall a {:trigger a in u} :: a in u <==> a in t)
    && (forall a, r {:trigger Has(u, a, r)} :: Has(u, a, r) <==> Has(t, a, r))
    && (forall a, r {:trigger Filled(u, a, r)} ::
          Filled(u, a, r)
          == Filled(t, a, r) - if Has(t, a, r) && a !in todo then Filled(o, a, r) else 0)
  }

  /** `u` is `t` less `o` at the keys of `t`; other keys of `o` are ignored. */
  ghost predicate IsUnabsorbed(u: Table, t: Table, o: Table) {
    && (forall a {:trigger a in u} :: a in u <==> a in t)
    && (forall a, r {:trigger Has(u, a, r)} :: Has(u, a, r) <==> Has(t, a, r))
    && (forall a, r {:trigger Filled(u, a, r)} ::
          Filled(u, a, r) == Filled(t, a, r) - if Has(t, a, r) then Filled(o, a, r) else 0)
  }

  /** The error names an order that context and fills together do not cover. */
  ghost predicate ReallyShort(ctx: Table, e: TxEvents, error: MarketError) {
    && error.InsufficientBalance?
    && Has(e.orders, error.asset, error.recipient)
    && error.amount == Filled(e.orders, error.asset, error.recipient)
    && Combined(ctx, e.fills, error.asset, error.recipient) < error.amount
  }

  class AggregateFills {
    var fills: Table

    constructor (initial: Table)
      ensures fills == initial
    {
      fills := initial;
    }

    /** Balance of one asset for one recipient; zero when absent. */
    method FilledOf(a: Asset, r: Address) returns (amount: U256)
      ensures amount == Filled(fills, a, r)
    {
      amount := 0;
      if a in fills && r in fills[a] {
        amount := fills[a][r];
      }
    }

    /** `check_filled`: the balance suffices, or the error names exactly what was asked for. */
    method CheckFilled(a: Asset, r: Address, amount: U256) returns (result: Outcome)
      ensures result == if amount <= Filled(fills, a, r) then Accepted
                        else Rejected(InsufficientBalance(a, r, amount))
    {
      var filled := FilledOf(a, r);
      if filled < amount {
        return Rejected(InsufficientBalance(a, r, amount));
      }
      result := Accepted;
    }

    /** One asset's recipients, up to the first whose balance does not suffice. */
    method CheckRow(a: Asset, order: Row) returns (result: Outcome)
      ensures result == Accepted || result.Rejected?
      ensures result == Accepted ==> forall r :: Get(order, r) <= Filled(fills, a, r)
      ensures result.Rejected? ==>
                && result.error.InsufficientBalance? && result.error.asset == a
                && result.error.recipient in order
                && result.error.amount == order[result.error.recipient]
                && Filled(fills, a, result.error.recipient) < result.error.amount
    {
      var todo := order.Keys;
      while todo != {}
        invariant todo <= order.Keys
        invariant forall r | r in order.Keys - todo :: order[r] <= Filled(fills, a, r)
        decreases |todo|
      {
        var r :| r in todo;
        result := CheckFilled(a, r, order[r]);
        if result.Rejected? {
          return;
        }
        todo := todo - {r};
      }
      result := Accepted;
    }

    method AddRawFill(chainId: U64, token: Address, recipient: Address, amount: U256)
      modifies this
      ensures fills == AddRaw(old(fills), Asset(chainId, token), recipient, amount)
    {
      var a := Asset(chainId, token);
      if a !in fills {
        fills := fills[a := map[]];
      }
      var entry: U256 := if recipient in fills[a] then fills[a][recipient] else 0;
      entry := SatAdd(entry, amount);
      var row: Row := fills[a];
      row := row[recipient := entry];
      fills := fills[a := row];
    }

    /** `add_fill` and `add_signed_fill`: credit every output on the emitting chain. */
    method AddFill(chainId: U64, outputs: seq<Output>)
      modifies this
      ensures fills == Aggregated(old(fills), FillEntries(chainId, outputs))
      ensures forall a, r ::
                Filled(fills, a, r)
                == Min(U256_MAX, Filled(old(fills), a, r)
                                 + if a.chainId == chainId then CreditedBy(outputs, a.token, r) else 0)
    {
      var i := 0;
      while i < |outputs|
        invariant 0 <= i <= |outputs|
        invariant fills == Aggregated(old(fills), FillEntries(chainId, outputs)[..i])
      {
        AddRawFill(chainId, outputs[i].token, outputs[i].recipient, outputs[i].amount);
        assert FillEntries(chainId, outputs)[..i + 1][..i] == FillEntries(chainId, outputs)[..i];
        i := i + 1;
      }
      assert FillEntries(chainId, outputs)[..i] == FillEntries(chainId, outputs);
      forall a, r
        ensures Filled(fills, a, r)
             == Min(U256_MAX, Filled(old(fills), a, r)
                              + if a.chainId == chainId then CreditedBy(outputs, a.token, r) else 0)
      {
        AggregatedAt(old(fills), FillEntries(chainId, outputs), a, r);
        FillSum(chainId, outputs, a, r);
      }
    }

    /** Adds every balance of `other`, visiting its keys in any order. */
    method Absorb(other: Table)
      modifies this
      ensures fills == Absorbed(old(fills), other)
    {
      ghost var start := fills;
      var todo := other.Keys;
      while todo != {}
        invariant todo <= other.Keys
        invariant SummedSoFar(fills, start, other, todo)
        decreases |todo|
      {
        var a :| a in todo;
        var row := if a in fills then fills[a] else map[];
        row := AbsorbRow(row, other[a]);
        ghost var before := fills;
        fills := fills[a := row];
        SumGrows(before, fills, start, other, todo, a);
        todo := todo - {a};
      }
      assert IsSum(fills, start, other);
      SumUnique(fills, start, other);
    }

    /** `check_aggregate`: every ordered asset exists and every balance suffices. */
    method CheckAggregate(outputs: Table) returns (result: Outcome)
      ensures result == Accepted || result.Rejected?
      ensures result == Accepted <==>
              && (forall a | a in outputs :: a in fills)
              && (forall a, r :: Filled(outputs, a, r) <= Filled(fills, a, r))
      ensures result.Rejected? ==> Blames(fills, outputs, result.error)
    {
      var todo := outputs.Keys;
      while todo != {}
        invariant todo <= outputs.Keys
        invariant forall a | a in outputs && a !in todo :: a in fills
        invariant forall a, r | a !in todo :: Filled(outputs, a, r) <= Filled(fills, a, r)
        decreases |todo|
      {
        var a :| a in todo;
        if a !in fills {
          return Rejected(MissingAsset(a));
        }
        result := CheckRow(a, outputs[a]);
        if result.Rejected? {
          assert Filled(outputs, a, result.error.recipient) > Filled(fills, a, result.error.recipient);
          return;
        }
        assert forall r :: Filled(outputs, a, r) == Get(outputs[a], r);
        todo := todo - {a};
      }
      result := Accepted;
    }

    /** `check_ru_tx_events`: the context and the extra fills together cover the orders. */
    method CheckRuTxEvents(txFills: Table, outputs: Table) returns (result: Outcome)
      ensures result == Accepted || result.Rejected?
      ensures result == Accepted <==> Check(fills, TxEvents(txFills, outputs))
      ensures result.Rejected? ==> ReallyShort(fills, TxEvents(txFills, outputs), result.error)
      ensures result == Accepted <==>
              forall a, r :: Filled(outputs, a, r) <= Min(U256_MAX, Filled(fills, a, r) + Filled(txFills, a, r))
    {
      var todo := outputs.Keys;
      while todo != {}
        invariant todo <= outputs.Keys
        invariant forall a, r | a !in todo ::
                    Filled(outputs, a, r) <= Combined(fills, txFills, a, r)
        decreases |todo|
      {
        var a :| a in todo;
        var short := FindShort(RowOf(fills, a), RowOf(txFills, a), outputs[a]);
        if short.Some? {
          assert Filled(outputs, a, short.value) > Combined(fills, txFills, a, short.value);
          return Rejected(InsufficientBalance(a, short.value, outputs[a][short.value]));
        }
        forall r
          ensures Filled(outputs, a, r) <= Combined(fills, txFills, a, r)
        {
          assert Get(outputs[a], r) <= SatAdd(Get(RowOf(fills, a), r), Get(RowOf(txFills, a), r));
        }
        todo := todo - {a};
      }
      result := Accepted;
    }

    /**
     Debits entry by entry, in whatever order `vs` the orders are met, and stops in the
     middle at the first it cannot meet.
     */
    method UncheckedRemoveAggregate(outputs: Table) returns (result: Outcome, ghost vs: seq<Visit>)
      modifies this
      ensures IsOrder(vs, outputs)
      ensures fills == DebitAll(old(fills), vs).table
      ensures result == OutcomeOf(DebitAll(old(fills), vs).error)
      ensures result == Accepted <==> Removable(old(fills), outputs)
      ensures result == Accepted ==> fills == Removed(old(fills), outputs)
      ensures result != Accepted ==>
                && result.Rejected?
                && Blames(old(fills), outputs, result.error)
                && PartlyRemoved(fills, old(fills), outputs)
    {
      ghost var start := fills;
      var visits := InOrder(outputs);
      vs := visits;
      DebitAllEnds(start, outputs, vs);
      for i := 0 to |visits|
        invariant DebitAll(start, visits[..i]) == Progress(fills, None)
      {
        AllStep(start, visits, i, fills);
        result := RemoveAsset(visits[i]);
        if result.Rejected? {
          StopsThere(start, visits, i);
          return;
        }
      }
      assert visits[..|visits|] == visits;
      DifferenceUnique(fills, start, outputs);
      result := Accepted;
    }

    /** One asset with all its recipients, as far as it goes. */
    method RemoveAsset(v: Visit) returns (result: Outcome)
      modifies this
      ensures fills == DebitAsset(Progress(old(fills), None), v).table
      ensures result == OutcomeOf(DebitAsset(Progress(old(fills), None), v).error)
    {
      if v.asset !in fills {
        return Rejected(MissingAsset(v.asset));
      }
      var row, missing := RemoveRow(fills[v.asset], v.debits);
      fills := fills[v.asset := row];
      if missing.Some? {
        return Rejected(InsufficientBalance(v.asset, missing.value.recipient, missing.value.amount));
      }
      result := Accepted;
    }

    /** Checks first; a zero amount at an absent recipient passes the check and then panics. */
    method CheckedRemoveAggregate(outputs: Table) returns (result: Outcome)
      modifies this
      ensures result == Accepted <==> Removable(old(fills), outputs)
      ensures result == Accepted ==> fills == Removed(old(fills), outputs)
      ensures result == Panicked <==>
              && (forall a | a in outputs :: a in old(fills))
              && (forall a, r :: Filled(outputs, a, r) <= Filled(old(fills), a, r))
              && (exists a, r :: Has(outputs, a, r) && !Has(old(fills), a, r))
      ensures result.Rejected? ==> fills == old(fills) && Blames(fills, outputs, result.error)
    {
      result := CheckAggregate(outputs);
      if result.Rejected? {
        assert !Removable(fills, outputs);
        return;
      }
      ghost var visits;
      result, visits := UncheckedRemoveAggregate(outputs);
      if result.Rejected? {
        result := Panicked;
      }
    }

    /**
     Check, absorb the fills, then remove the orders in whatever order `vs` they are met.
     A failed check changes nothing; after a passed one, an order of zero at a key that is
     neither in the context nor in the fills fails with the fills absorbed.
     */
    method CheckedRemoveRuTxEvents(txFills: Table, outputs: Table)
      returns (result: Outcome, ghost vs: seq<Visit>)
      modifies this
      ensures result == Accepted <==> Settles(old(fills), TxEvents(txFills, outputs))
      ensures result == Accepted ==> fills == Settled(old(fills), TxEvents(txFills, outputs))
      ensures result == Accepted ==>
                forall a, r ::
                  Filled(fills, a, r)
                  == Min(U256_MAX, Filled(old(fills), a, r) + Filled(txFills, a, r)) - Filled(outputs, a, r)
      ensures result != Accepted ==> result.Rejected?
      ensures IsOrder(vs, outputs)
      ensures !Check(old(fills), TxEvents(txFills, outputs)) ==>
                fills == old(fills) && ReallyShort(fills, TxEvents(txFills, outputs), result.error)
      ensures Check(old(fills), TxEvents(txFills, outputs)) ==>
                && fills == Removal(old(fills), TxEvents(txFills, outputs), vs).table
                && result == OutcomeOf(Removal(old(fills), TxEvents(txFills, outputs), vs).error)
      ensures Check(old(fills), TxEvents(txFills, outputs)) && result != Accepted ==>
                PartlyRemoved(fills, Absorbed(old(fills), txFills), outputs)
    {
      ghost var e := TxEvents(txFills, outputs);
      result := CheckRuTxEvents(txFills, outputs);
      if result.Rejected? {
        vs := AnyOrder(outputs);
        return;
      }
      SettlesIsRemovable(fills, e);
      Absorb(txFills);
      result, vs := UncheckedRemoveAggregate(outputs);
      if result == Accepted {
        SettledExists(old(fills), e);
        SettledUnique(fills, old(fills), e);
      }
    }

    /** Takes back the balances of `other` where both tables have the key. */
    method UncheckedUnabsorb(other: Table) returns (result: Outcome)
      modifies this
      ensures result == Accepted <==>
              forall a, r | Has(old(fills), a, r) :: Filled(other, a, r) <= Filled(old(fills), a, r)
      ensures result == Accepted ==> IsUnabsorbed(fills, old(fills), other)
      ensures result != Accepted ==>
                && result.Rejected? && result.error.InsufficientBalance?
                && var InsufficientBalance(a, r, amount) := result.error;
                   Has(old(fills), a, r) && amount == Filled(other, a, r) > Filled(old(fills), a, r)
    {
      ghost var start := fills;
      var todo := other.Keys;
      NothingYet(start, other);
      while todo != {}
        invariant todo <= other.Keys
        invariant UnabsorbedSoFar(fills, start, other, todo)
        decreases |todo|
      {
        var a :| a in todo;
        if a in fills {
          ghost var before := fills;
          var known: Row := map r | r in other[a] && r in fills[a] :: other[a][r];
          var ds := RowInOrder(known);
          DebitRowResult(fills[a], ds, known);
          var row, missing := RemoveRow(fills[a], ds);
          fills := fills[a := row];
          if missing.Some? {
            var r := missing.value.recipient;
            assert Has(before, a, r) && Has(start, a, r);
            assert Filled(before, a, r) == Filled(start, a, r);
            return Rejected(InsufficientBalance(a, r, missing.value.amount));
          }
          UnabsorbGrows(before, fills, start, other, todo, a);
        }
        todo := todo - {a};
      }
      UnabsorbDone(fills, start, other);
      result := Accepted;
    }
  }

  /** The inner loop of `absorb`: one asset's recipients. */
  method AbsorbRow(row: Row, other: Row) returns (sum: Row)
    ensures forall r :: r in sum <==> r in row || r in other
    ensures forall r :: Get(sum, r) == SatAdd(Get(row, r), Get(other, r))
  {
    sum := row;
    var todo := other.Keys;
    while todo != {}
      invariant todo <= other.Keys
      invariant forall r :: r in sum <==> r in row || (r in other && r !in todo)
      invariant forall r ::
                  Get(sum, r) == if r in todo then Get(row, r) else SatAdd(Get(row, r), Get(other, r))
      decreases |todo|
    {
      var r :| r in todo;
      sum := sum[r := SatAdd(Get(sum, r), other[r])];
      todo := todo - {r};
    }
  }

  /** Absorbing one more asset extends the sum by that asset. */
  lemma {:induction false} SumGrows(before: Table, after: Table, start: Table, other: Table,
                                    todo: set<Asset>, a: Asset)
    requires SummedSoFar(before, start, other, todo)
    requires a in other && a in todo && a in after && after == before[a := after[a]]
    requires forall r :: r in after[a] <==> r in RowOf(before, a) || r in other[a]
    requires forall r ::
               Get(after[a], r) == SatAdd(Get(RowOf(before, a), r), Get(other[a], r))
    ensures SummedSoFar(after, start, other, todo - {a})
  {
    forall a', r
      ensures Has(after, a', r) <==>
              Has(start, a', r) || (Has(other, a', r) && a' !in todo - {a})
      ensures Filled(after, a', r)
           == if a' in todo - {a} then Filled(start, a', r)
              else SatAdd(Filled(start, a', r), Filled(other, a', r))
    {
      assert Has(before, a', r) <==> Has(start, a', r) || (Has(other, a', r) && a' !in todo);
      assert Filled(before, a', r)
          == if a' in todo then Filled(start, a', r)
             else SatAdd(Filled(start, a', r), Filled(other, a', r));
      if a' == a {
        assert Get(after[a], r) == SatAdd(Get(RowOf(before, a), r), Get(other[a], r));
      }
    }
  }

  /** A recipient whose order exceeds the two balances together, if there is one. */
  method FindShort(x: Row, y: Row, order: Row) returns (short: Option<Address>)
    ensures short.None? ==> forall r :: Get(order, r) <= SatAdd(Get(x, r), Get(y, r))
    ensures short.Some? ==>
              short.value in order
              && SatAdd(Get(x, short.value), Get(y, short.value)) < order[short.value]
  {
    var todo := order.Keys;
    while todo != {}
      invariant todo <= order.Keys
      invariant forall r | r in order.Keys - todo :: order[r] <= SatAdd(Get(x, r), Get(y, r))
      decreases |todo|
    {
      var r :| r in todo;
      if SatAdd(Get(x, r), Get(y, r)) < order[r] {
        return Some(r);
      }
      todo := todo - {r};
    }
    short := None;
  }

  /** The entries of one asset in some order. */
  method RowInOrder(row: Row) returns (ds: seq<Debit>)
    ensures ListsRow(ds, row)
  {
    ds := [];
    var todo := row.Keys;
    ghost var done: Row := map[];
    while todo != {}
      invariant todo <= row.Keys && done.Keys == row.Keys - todo && ListsRow(ds, done)
      invariant forall r | r in done :: done[r] == row[r]
      decreases |todo|
    {
      var r :| r in todo;
      assert done[r := row[r]] - {r} == done;
      assert (ds + [Debit(r, row[r])])[..|ds|] == ds;
      ds := ds + [Debit(r, row[r])];
      todo, done := todo - {r}, done[r := row[r]];
    }
    assert done == row;
  }

  /** The assets of an aggregate in some order. */
  method InOrder(o: Table) returns (vs: seq<Visit>)
    ensures IsOrder(vs, o)
  {
    vs := [];
    var todo := o.Keys;
    ghost var done: Table := map[];
    while todo != {}
      invariant todo <= o.Keys && done.Keys == o.Keys - todo && IsOrder(vs, done)
      invariant forall a | a in done :: done[a] == o[a]
      decreases |todo|
    {
      var a :| a in todo;
      var ds := RowInOrder(o[a]);
      assert done[a := o[a]] - {a} == done;
      assert (vs + [Visit(a, ds)])[..|vs|] == vs;
      vs := vs + [Visit(a, ds)];
      todo, done := todo - {a}, done[a := o[a]];
    }
    assert done == o;
  }

  /** Debits one asset's recipients until one is absent or short. */
  method RemoveRow(row: Row, ds: seq<Debit>) returns (left: Row, missing: Option<Debit>)
    ensures RowProgress(left, missing) == DebitRow(row, ds)
  {
    left := row;
    for i := 0 to |ds|
      invariant DebitRow(row, ds[..i]) == RowProgress(left, None)
    {
      var d := ds[i];
      assert ds[..i + 1][..i] == ds[..i];
      if d.recipient !in left || left[d.recipient] < d.amount {
        RowAppend(row, ds[..i + 1], ds[i + 1..]);
        assert ds == ds[..i + 1] + ds[i + 1..];
        return left, Some(d);
      }
      var rest: U256 := left[d.recipient] - d.amount;
      left := left[d.recipient := rest];
    }
    assert ds[..|ds|] == ds;
    missing := None;
  }

  /** Before the first asset nothing has been taken back. */
  lemma {:induction false} NothingYet(t: Table, o: Table)
    ensures UnabsorbedSoFar(t, t, o, o.Keys)
  {
    forall a, r
      ensures a !in o.Keys ==> Filled(o, a, r) == 0 && !Has(o, a, r)
    {
    }
  }

  lemma {:induction false} UnabsorbGrows(before: Table, after: Table, start: Table, o: Table,
                                         todo: set<Asset>, a: Asset)
    requires UnabsorbedSoFar(before, start, o, todo)
    requires a in o && a in todo && a in before && a in after
    requires after == before[a := after[a]] && after[a].Keys == before[a].Keys
    requires forall r | r in before[a] :: after[a][r] == before[a][r] - Get(o[a], r)
    ensures UnabsorbedSoFar(after, start, o, todo - {a})
  {
    forall a', r
      ensures Has(after, a', r) <==> Has(start, a', r)
      ensures Filled(after, a', r)
           == Filled(start, a', r)
              - if Has(start, a', r) && a' !in todo - {a} then Filled(o, a', r) else 0
    {
      assert Has(before, a', r) <==> Has(start, a', r);
      assert Filled(before, a', r)
          == Filled(start, a', r)
             - if Has(start, a', r) && a' !in todo then Filled(o, a', r) else 0;
      if a' == a && r in after[a] {
        assert after[a][r] == before[a][r] - Get(o[a], r);
      }
    }
  }

  lemma {:induction false} UnabsorbDone(u: Table, t: Table, o: Table)
    requires UnabsorbedSoFar(u, t, o, {})
    ensures IsUnabsorbed(u, t, o)
    ensures forall a, r | Has(t, a, r) :: Filled(o, a, r) <= Filled(t, a, r)
  {
    forall a, r | Has(t, a, r)
      ensures Filled(o, a, r) <= Filled(t, a, r)
    {
      assert Filled(u, a, r) == Filled(t, a, r) - Filled(o, a, r);
    }
  }

  /** Absorbing and taking back restores a balance exactly when the sum did not saturate. */
  lemma {:induction false} UnabsorbRestores(t: Table, o: Table, u: Table)
    requires IsUnabsorbed(u, Absorbed(t, o), o)
    ensures forall a, r ::
              Filled(u, a, r) == Filled(t, a, r) <==>
              Filled(t, a, r) + Filled(o, a, r) <= U256_MAX
  {
    var s := Absorbed(t, o);
    forall a, r
      ensures Filled(u, a, r) == Filled(t, a, r) <==>
              Filled(t, a, r) + Filled(o, a, r) <= U256_MAX
    {
      assert Filled(s, a, r) == SatAdd(Filled(t, a, r), Filled(o, a, r));
      assert Has(s, a, r) <==> Has(t, a, r) || Has(o, a, r);
    }
  }

  /**
   The fills cover every amount, an order of zero names a key nobody has, and the fills
   bring a key of their own.  The call is rejected and, whatever the order of visits, that
   key stays.
   */
  lemma {:induction false} RejectedYetCredited(ctx: Table, e: TxEvents, vs: seq<Visit>, a: Asset,
                                               r: Address)
    requires Check(ctx, e) && !Covers(ctx, e) && IsOrder(vs, e.orders)
    requires Has(e.fills, a, r) && !Has(ctx, a, r)
    ensures Removal(ctx, e, vs).error.Some? && Has(Removal(ctx, e, vs).table, a, r)
  {
    SettlesIsRemovable(ctx, e);
    DebitAllEnds(Absorbed(ctx, e.fills), e.orders, vs);
    assert Has(Absorbed(ctx, e.fills), a, r);
  }

  /** Two distinct assets give such a case. */
  lemma {:induction false} RejectedYetCreditedExample(a: Asset, b: Asset, r: Address)
    requires a != b
    ensures var e := TxEvents(map[a := map[r := 1]], map[b := map[r := 0]]);
            Check(map[], e) && !Covers(map[], e) && Has(e.fills, a, r)
            && !Atomic(map[], e)
  {
    var e := TxEvents(map[a := map[r := 1]], map[b := map[r := 0]]);
    assert b in e.orders && Has(e.fills, a, r);
    assert Has(Absorbed(map[], e.fills), a, r);
    AtomicWhen(map[], e);
  }

  /** Nor is a fill of a known key taken back. */
  lemma {:induction false} KnownYetCreditedExample(a: Asset, b: Asset, r: Address)
    requires a != b
    ensures var ctx: Table, e := map[a := map[r := 1]], TxEvents(map[a := map[r := 1]], map[b := map[r := 0]]);
            Check(ctx, e) && a in ctx && !Atomic(ctx, e)
  {
    var ctx: Table, e := map[a := map[r := 1]], TxEvents(map[a := map[r := 1]], map[b := map[r := 0]]);
    assert b in e.orders;
    assert Filled(Absorbed(ctx, e.fills), a, r) == 2 != Filled(ctx, a, r);
    AtomicWhen(ctx, e);
  }
}
