/**
 A filler's whole way: orders aggregated, signed chain by chain, validated, credited as
 fill events and taken out of the ledger again.
 */
module SignedSettlement {
  import opened Words
  import opened Ledger
  import opened Aggregation
  import opened Orders
  import opened Fills
  import opened Inspector
  import opened Signing

  datatype Way = Unsigned(error: SigningError) | Invalid(chainId: U64, reason: PermitError) | Done(outcome: Outcome)

  /** All fills are valid at this time, or the first found that is not. */
  method ValidateAll(fills: map<U64, SignedFill>, at: U64) returns (bad: Option<(U64, PermitError)>)
    ensures bad.None? ==>
              forall c | c in fills ::
                at <= Min(fills[c].deadline, U64_MAX) && Permits(fills[c].permitted, fills[c].outputs)
    ensures bad.Some? ==>
              && bad.value.0 in fills
              && var fill := fills[bad.value.0];
                 (Permits(fill.permitted, fill.outputs) ==>
                  && Min(fill.deadline, U64_MAX) < at
                  && bad.value.1 == DeadlinePassed(at, Min(fill.deadline, U64_MAX)))
  {
    var todo := fills.Keys;
    while todo != {}
      invariant todo <= fills.Keys
      invariant forall c | c in fills && c !in todo ::
                  at <= Min(fills[c].deadline, U64_MAX) && Permits(fills[c].permitted, fills[c].outputs)
      decreases |todo|
    {
      var c :| c in todo;
      var valid := Validate(fills[c], at);
      if valid.Err? {
        return Some((c, valid.error));
      }
      todo := todo - {c};
    }
    bad := None;
  }

  /** Credits every fill on its own chain, in any order of chains. */
  method CreditAll(fills: map<U64, SignedFill>) returns (ledger: AggregateFills, ghost cs: seq<U64>)
    ensures fresh(ledger)
    ensures forall c :: c in cs <==> c in fills
    ensures forall i, j | 0 <= i < j < |cs| :: cs[i] != cs[j]
    ensures ledger.fills == Credited(fills, cs)
  {
    ledger := new AggregateFills(map[]);
    cs := [];
    var todo := fills.Keys;
    while todo != {}
      invariant fresh(ledger) && todo <= fills.Keys
      invariant forall c :: c in cs <==> c in fills && c !in todo
      invariant forall i, j | 0 <= i < j < |cs| :: cs[i] != cs[j]
      invariant ledger.fills == Credited(fills, cs)
      decreases |todo|
    {
      var c :| c in todo;
      ledger.AddFill(c, fills[c].outputs);
      assert (cs + [c])[..|cs|] == cs;
      todo, cs := todo - {c}, cs + [c];
    }
  }

  /** Credits the fills and takes the outputs out again. */
  method SettleAll(fills: map<U64, SignedFill>, outputs: Table, ghost ruId: U64)
    returns (outcome: Outcome, ledger: AggregateFills)
    requires NoEmptyRows(outputs) && forall a | a in outputs :: a.chainId in fills
    requires forall c | c in fills :: FillsChain(fills[c], outputs, c, ruId)
    ensures fresh(ledger) && outcome == Accepted
    ensures forall a, r :: Has(ledger.fills, a, r) <==> Has(outputs, a, r)
    ensures forall a, r :: Filled(ledger.fills, a, r) == 0
  {
    ghost var cs;
    ledger, cs := CreditAll(fills);
    SignedFillsSettle(fills, cs, outputs, ruId);
    outcome := ledger.CheckedRemoveAggregate(outputs);
  }

  /** Something was signed for the orders contract at this address on this chain. */
  ghost predicate SignedOn(signer: Payload -> Option<nat>, chainId: U64, contract: Address) {
    exists p: Payload :: signer(p).Some? && p.chainId == chainId && p.contract == contract
  }

  lemma {:induction false} SignedThere(u: UnsignedFill, outputs: Table, c: U64, now: Time,
                                       signer: Payload -> Option<nat>, fill: SignedFill)
    requires IsSigned(u, outputs, c, now, signer, fill)
    ensures SignedOn(signer, c, u.targetChains[c])
  {
    assert signer(u.PayloadFor(c, now, fill.permitted, fill.outputs)).Some?;
  }

  /**
   From orders to a settled ledger.  Whatever is signed and still valid settles: the orders
   are taken out of the fills without a remainder.  With a signer that never refuses, both
   chains known and every deadline ahead, nothing else can happen.
   */
  method FillOrders(asked: seq<Order>, blank: UnsignedFill, ruId: U64, ruOrders: Address, hostId: U64,
                    hostOrders: Address, clock: U64 -> Time, signer: Payload -> Option<nat>, at: U64)
    returns (way: Way, ledger: AggregateFills)
    ensures var outputs := Aggregated(map[], EntriesOf(asked));
            way.Done? ==>
              && way.outcome == Accepted
              && (forall a, r :: Has(ledger.fills, a, r) <==> Has(outputs, a, r))
              && (forall a, r :: Filled(ledger.fills, a, r) == 0)
    ensures var outputs := Aggregated(map[], EntriesOf(asked));
            way.Done? ==>
              forall a | a in outputs ::
                && (a.chainId in {ruId, hostId} || a.chainId in blank.targetChains)
                && SignedOn(signer, a.chainId, if a.chainId == hostId then hostOrders
                                               else if a.chainId == ruId then ruOrders
                                               else blank.targetChains[a.chainId])
    ensures var outputs := Aggregated(map[], EntriesOf(asked));
            var u := blank.WithChain(ruId, ruOrders, hostId, hostOrders);
            way.Unsigned? ==>
              exists a | a in outputs ::
                IsUnsigned(u, outputs, a.chainId, clock(a.chainId), signer, way.error)
    ensures var u := blank.WithChain(ruId, ruOrders, hostId, hostOrders);
            way.Invalid? ==>
              && u.DeadlineAt(clock(way.chainId)) < at
              && way.reason == DeadlinePassed(at, u.DeadlineAt(clock(way.chainId)))
    ensures var outputs := Aggregated(map[], EntriesOf(asked));
            var u := blank.WithChain(ruId, ruOrders, hostId, hostOrders);
            && (forall p :: signer(p).Some?)
            && (forall a | a in outputs :: a.chainId == ruId || a.chainId == hostId)
            && (forall c :: at <= u.DeadlineAt(clock(c)))
            ==> way.Done?
  {
    var u := blank.WithChain(ruId, ruOrders, hostId, hostOrders);
    var orders := AggregateOrderEvents(asked);
    AggregatedAssets(map[], EntriesOf(asked));
    ledger := new AggregateFills(map[]);
    var signed := Sign(u, orders, clock, signer);
    if signed.Err? {
      return Unsigned(signed.error), ledger;
    }
    forall a | a in orders.outputs
      ensures a.chainId in u.targetChains && SignedOn(signer, a.chainId, u.targetChains[a.chainId])
    {
      SignedThere(u, orders.outputs, a.chainId, clock(a.chainId), signer, signed.value[a.chainId]);
    }
    var bad := ValidateAll(signed.value, at);
    if bad.Some? {
      return Invalid(bad.value.0, bad.value.1), ledger;
    }
    var outcome;
    outcome, ledger := SettleAll(signed.value, orders.outputs, ruId);
    way := Done(outcome);
  }
}
