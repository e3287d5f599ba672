/**
 Turning an aggregate of orders into one signed fill per target chain, and what
 the ledger holds once those fills come back as events.  Hashing and signing are
 a parameter: the payload goes in, a signature or nothing comes out.
 */
module Signing {
  import opened Words
  import opened Ledger
  import opened Aggregation
  import opened Orders

  datatype TokenPermission = TokenPermission(token: Address, amount: U256)

  /** What is hashed and signed for one chain. */
  datatype Payload = Payload(permitted: seq<TokenPermission>, outputs: seq<Output>,
                             deadline: U64, nonce: U64, chainId: U64, contract: Address)

  datatype SignedFill = SignedFill(permitted: seq<TokenPermission>, nonce: U256, deadline: U256,
                                   signature: nat, outputs: seq<Output>)

  datatype SigningError = MissingOrderContract(chainId: U64) | MissingChainId | SignerFailed

  datatype PermitError = DeadlinePassed(current: U64, deadline: U64) | PermitMismatch

  /** One reading of the clock. */
  datatype Time = Time(seconds: U64, micros: U64)

  /** The builder's settings; the orders themselves are an `AggregateOrders`. */
  datatype UnsignedFill = UnsignedFill(ruChainId: Option<U64>, deadline: Option<U64>,
                                       nonce: Option<U64>, targetChains: map<U64, Address>)
  {
    /** `with_chain`: register both order contracts and remember the rollup. */
    function WithChain(ruId: U64, ruOrders: Address, hostId: U64, hostOrders: Address): UnsignedFill {
      this.(ruChainId := Some(ruId),
            targetChains := targetChains[ruId := ruOrders][hostId := hostOrders])
    }

    /** `now + 12` seconds unless a deadline was set. */
    function DeadlineAt(now: Time): U64 {
      if deadline.Some? then deadline.value else WrapAdd64(now.seconds, 12)
    }

    /** The time in microseconds unless a nonce was set. */
    function NonceAt(now: Time): U64 {
      if nonce.Some? then nonce.value else now.micros
    }

    /** What has to be signed for these outputs. */
    function PayloadFor(target: U64, now: Time, permitted: seq<TokenPermission>, outputs: seq<Output>): Payload
      requires target in targetChains
    {
      Payload(permitted, outputs, DeadlineAt(now), NonceAt(now), target, targetChains[target])
    }
  }

  /** The permissions name the tokens and amounts of the outputs, in order. */
  ghost predicate Permits(permitted: seq<TokenPermission>, outputs: seq<Output>) {
    && |permitted| == |outputs|
    && (forall i | 0 <= i < |outputs| ::
          permitted[i].token == outputs[i].token && permitted[i].amount == outputs[i].amount)
  }

  /** These cover everything `outputs` asks for on `chain`. */
  ghost predicate ListsFor(permitted: seq<TokenPermission>, listed: seq<Output>, outputs: Table, chain: U64,
                         ruId: U64) {
    ListsOutputs(listed, outputs, chain, ruId % (U32_MAX + 1)) && Permits(permitted, listed)
  }

  ghost predicate FillsChain(fill: SignedFill, outputs: Table, chain: U64, ruId: U64) {
    ListsFor(fill.permitted, fill.outputs, outputs, chain, ruId)
  }

  /** A fill for this chain, with the signature of exactly what it says. */
  ghost predicate IsSigned(u: UnsignedFill, outputs: Table, target: U64, now: Time,
                           signer: Payload -> Option<nat>, fill: SignedFill) {
    && target in u.targetChains && u.ruChainId.Some?
    && FillsChain(fill, outputs, target, u.ruChainId.value)
    && fill.deadline == u.DeadlineAt(now) && fill.nonce == u.NonceAt(now)
    && signer(u.PayloadFor(target, now, fill.permitted, fill.outputs)) == Some(fill.signature)
  }

  /** Why there is no fill for this chain: no contract, then no rollup, then no signature. */
  ghost predicate IsUnsigned(u: UnsignedFill, outputs: Table, target: U64, now: Time,
                             signer: Payload -> Option<nat>, error: SigningError) {
    if target !in u.targetChains then error == MissingOrderContract(target)
    else if u.ruChainId.None? then error == MissingChainId
    else
      error == SignerFailed
      && exists permitted, listed | ListsFor(permitted, listed, outputs, target, u.ruChainId.value) ::
           signer(u.PayloadFor(target, now, permitted, listed)) == None
  }

  method PermissionsFor(outputs: seq<Output>) returns (permitted: seq<TokenPermission>)
    ensures Permits(permitted, outputs)
  {
    permitted := [];
    for i := 0 to |outputs|
      invariant Permits(permitted, outputs[..i])
    {
      permitted := permitted + [TokenPermission(outputs[i].token, outputs[i].amount)];
    }
    assert outputs[..|outputs|] == outputs;
  }

  method SignFor(u: UnsignedFill, orders: AggregateOrders, target: U64, now: Time,
                 signer: Payload -> Option<nat>)
    returns (result: Result<SignedFill, SigningError>)
    ensures result.Ok? ==> IsSigned(u, orders.outputs, target, now, signer, result.value)
    ensures result.Err? ==> IsUnsigned(u, orders.outputs, target, now, signer, result.error)
    ensures var deadline: U64 := if u.deadline.Some? then u.deadline.value else (now.seconds + 12) % (U64_MAX + 1);
            var nonce: U64 := if u.nonce.Some? then u.nonce.value else now.micros;
            && (result.Ok? ==>
                && target in u.targetChains && u.ruChainId.Some?
                && result.value.deadline == deadline && result.value.nonce == nonce
                && |result.value.permitted| == |result.value.outputs|
                && (forall i | 0 <= i < |result.value.outputs| ::
                      && result.value.permitted[i].token == result.value.outputs[i].token
                      && result.value.permitted[i].amount == result.value.outputs[i].amount)
                && signer(Payload(result.value.permitted, result.value.outputs, deadline, nonce, target,
                                  u.targetChains[target])) == Some(result.value.signature))
            && (result == Err(SignerFailed) ==>
                && target in u.targetChains && u.ruChainId.Some?
                && exists permitted, listed ::
                     && ListsFor(permitted, listed, orders.outputs, target, u.ruChainId.value)
                     && signer(Payload(permitted, listed, deadline, nonce, target, u.targetChains[target])) == None)
  {
    var nonce := u.NonceAt(now);
    var deadline := u.DeadlineAt(now);
    if target !in u.targetChains {
      return Err(MissingOrderContract(target));
    }
    if u.ruChainId.None? {
      return Err(MissingChainId);
    }
    var outputs := orders.OutputsFor(target, u.ruChainId.value);
    var permitted := PermissionsFor(outputs);
    var signature :=
      signer(Payload(permitted, outputs, deadline, nonce, target, u.targetChains[target]));
    if signature.None? {
      assert ListsFor(permitted, outputs, orders.outputs, target, u.ruChainId.value);
      return Err(SignerFailed);
    }
    result := Ok(SignedFill(permitted, nonce, deadline, signature.value, outputs));
  }

  /** One signed fill for each chain the orders ask on; the clock is read for each chain. */
  method Sign(u: UnsignedFill, orders: AggregateOrders, clock: U64 -> Time,
              signer: Payload -> Option<nat>)
    returns (result: Result<map<U64, SignedFill>, SigningError>)
    ensures result.Ok? ==>
              && (forall a | a in orders.outputs :: a.chainId in result.value)
              && (forall c | c in result.value :: exists a :: a in orders.outputs && a.chainId == c)
              && (forall c | c in result.value ::
                    IsSigned(u, orders.outputs, c, clock(c), signer, result.value[c]))
    ensures result.Err? ==>
              exists a | a in orders.outputs ::
                IsUnsigned(u, orders.outputs, a.chainId, clock(a.chainId), signer, result.error)
    ensures (forall p :: signer(p).Some?) ==>
              (result.Ok? <==>
               forall a | a in orders.outputs :: a.chainId in u.targetChains && u.ruChainId.Some?)
  {
    var ids := orders.TargetChainIds();
    var fills := map[];
    for i := 0 to |ids|
      invariant forall c :: c in fills <==> c in ids[..i]
      invariant forall c | c in fills ::
                  IsSigned(u, orders.outputs, c, clock(c), signer, fills[c])
    {
      var fill := SignFor(u, orders, ids[i], clock(ids[i]), signer);
      assert ids[i] in ids;
      if fill.Err? {
        var a :| a in orders.outputs && a.chainId == ids[i];
        return Err(fill.error);
      }
      fills := fills[ids[i] := fill.value];
    }
    assert ids[..|ids|] == ids;
    assert forall a | a in orders.outputs :: a.chainId in ids;
    result := Ok(fills);
  }

  /** `SignedFill::validate`. */
  method Validate(fill: SignedFill, timestamp: U64) returns (result: Result<(), PermitError>)
    ensures result.Ok? <==>
            timestamp <= Min(fill.deadline, U64_MAX) && Permits(fill.permitted, fill.outputs)
    ensures result.Ok? <==>
            && timestamp <= Min(fill.deadline, U64_MAX) && |fill.permitted| == |fill.outputs|
            && (forall i | 0 <= i < |fill.outputs| ::
                  && fill.permitted[i].token == fill.outputs[i].token
                  && fill.permitted[i].amount == fill.outputs[i].amount)
    ensures Min(fill.deadline, U64_MAX) < timestamp ==>
              result == Err(DeadlinePassed(timestamp, Min(fill.deadline, U64_MAX)))
    ensures timestamp <= Min(fill.deadline, U64_MAX) && !Permits(fill.permitted, fill.outputs) ==>
              result == Err(PermitMismatch)
  {
    var deadline: U64 := Min(fill.deadline, U64_MAX);
    if timestamp > deadline {
      return Err(DeadlinePassed(timestamp, deadline));
    }
    if |fill.outputs| != |fill.permitted| {
      return Err(PermitMismatch);
    }
    for i := 0 to |fill.outputs|
      invariant forall k | 0 <= k < i ::
                  fill.permitted[k].token == fill.outputs[k].token
                  && fill.permitted[k].amount == fill.outputs[k].amount
    {
      if fill.outputs[i].token != fill.permitted[i].token {
        return Err(PermitMismatch);
      }
      if fill.outputs[i].amount != fill.permitted[i].amount {
        return Err(PermitMismatch);
      }
    }
    result := Ok(());
  }

  // ---- the fills coming back as events ----

  /** The ledger after the fills of the chains `cs`, credited in that order. */
  function Credited(fills: map<U64, SignedFill>, cs: seq<U64>): Table
    requires forall c | c in cs :: c in fills
  {
    if cs == [] then map[]
    else
      var n := |cs| - 1;
      assert cs[n] in cs;
      Aggregated(Credited(fills, cs[..n]), FillEntries(cs[n], fills[cs[n]].outputs))
  }

  ghost predicate Distinct(os: seq<Output>) {
    forall i, j | 0 <= i < j < |os| ::
      os[i].token != os[j].token || os[i].recipient != os[j].recipient
  }

  lemma {:induction false} UnlistedSum(os: seq<Output>, c: U64, a: Asset, r: Address)
    requires a.chainId != c
          || (forall i | 0 <= i < |os| :: os[i].token != a.token || os[i].recipient != r)
    ensures SumAt(FillEntries(c, os), a, r) == 0
  {
    if os != [] {
      var n := |os| - 1;
      UnlistedSum(os[..n], c, a, r);
      assert FillEntries(c, os)[..n] == FillEntries(c, os[..n]);
    }
  }

  /** Each key is listed once, so its sum is its amount. */
  lemma {:induction false} ListedSum(os: seq<Output>, c: U64, i: nat)
    requires Distinct(os) && i < |os|
    ensures SumAt(FillEntries(c, os), Asset(c, os[i].token), os[i].recipient) == os[i].amount
  {
    var n := |os| - 1;
    var a, r := Asset(c, os[i].token), os[i].recipient;
    assert FillEntries(c, os)[..n] == FillEntries(c, os[..n]);
    if i == n {
      UnlistedSum(os[..n], c, a, r);
    } else {
      ListedSum(os[..n], c, i);
      assert os[i].token != os[n].token || os[i].recipient != os[n].recipient;
    }
  }

  /** One chain's fill adds exactly that chain's outputs. */
  lemma {:induction false} ChainSum(fill: SignedFill, outputs: Table, c: U64, ruId: U64, a: Asset, r: Address)
    requires FillsChain(fill, outputs, c, ruId)
    ensures SumAt(FillEntries(c, fill.outputs), a, r)
         == if a.chainId == c then Filled(outputs, a, r) else 0
    ensures (exists e | e in FillEntries(c, fill.outputs) :: At(e, a, r)) <==>
            a.chainId == c && Has(outputs, a, r)
  {
    var os, es := fill.outputs, FillEntries(c, fill.outputs);
    assert a == Asset(a.chainId, a.token);
    if a.chainId == c && Has(outputs, a, r) {
      var i :| 0 <= i < |os| && os[i].token == a.token && os[i].recipient == r;
      assert es[i] in es && At(es[i], a, r);
      ListedSum(os, c, i);
    } else {
      forall i | 0 <= i < |os|
        ensures !At(es[i], a, r)
        ensures a.chainId != c || os[i].token != a.token || os[i].recipient != r
      {
        assert Has(outputs, Asset(c, os[i].token), os[i].recipient);
      }
      UnlistedSum(os, c, a, r);
    }
  }

  /** Crediting one chain's fill to a ledger that has nothing on that chain yet. */
  lemma {:induction false} CreditChain(before: Table, fill: SignedFill, outputs: Table, c: U64,
                                       ruId: U64, a: Asset, r: Address)
    requires FillsChain(fill, outputs, c, ruId)
    requires a.chainId == c ==> Filled(before, a, r) == 0 && !Has(before, a, r)
    ensures var after := Aggregated(before, FillEntries(c, fill.outputs));
            var from := if a.chainId == c then outputs else before;
            Filled(after, a, r) == Filled(from, a, r) && (Has(after, a, r) <==> Has(from, a, r))
  {
    AggregatedAt(before, FillEntries(c, fill.outputs), a, r);
    ChainSum(fill, outputs, c, ruId, a, r);
  }

  lemma {:induction false} CreditedAt(fills: map<U64, SignedFill>, cs: seq<U64>, outputs: Table,
                                      ruId: U64, a: Asset, r: Address)
    requires forall c | c in cs :: c in fills && FillsChain(fills[c], outputs, c, ruId)
    requires forall i, j | 0 <= i < j < |cs| :: cs[i] != cs[j]
    ensures Filled(Credited(fills, cs), a, r)
         == if a.chainId in cs then Filled(outputs, a, r) else 0
    ensures Has(Credited(fills, cs), a, r) <==> a.chainId in cs && Has(outputs, a, r)
  {
    if cs != [] {
      var n := |cs| - 1;
      var c, before := cs[n], cs[..n];
      assert cs == before + [c] && c in cs && c !in before;
      assert forall d | d in before :: d in cs;
      CreditedAt(fills, before, outputs, ruId, a, r);
      CreditChain(Credited(fills, before), fills[c], outputs, c, ruId, a, r);
    }
  }

  lemma {:induction false} CreditedNoEmpty(fills: map<U64, SignedFill>, cs: seq<U64>)
    requires forall c | c in cs :: c in fills
    ensures NoEmptyRows(Credited(fills, cs))
  {
    if cs != [] {
      var n := |cs| - 1;
      assert cs[n] in cs && forall d | d in cs[..n] :: d in cs;
      CreditedNoEmpty(fills, cs[..n]);
      AggregatedAssets(Credited(fills, cs[..n]), FillEntries(cs[n], fills[cs[n]].outputs));
    }
  }

  /**
   The signed fills settle the orders exactly: credited on their own chains, in
   any order of chains, they rebuild the outputs that were asked for, and taking
   those outputs out again leaves every balance at zero.
   */
  lemma {:induction false} SignedFillsSettle(fills: map<U64, SignedFill>, cs: seq<U64>,
                                             outputs: Table, ruId: U64)
    requires NoEmptyRows(outputs)
    requires forall a | a in outputs :: a.chainId in cs
    requires forall c | c in cs :: c in fills && FillsChain(fills[c], outputs, c, ruId)
    requires forall i, j | 0 <= i < j < |cs| :: cs[i] != cs[j]
    ensures Credited(fills, cs) == outputs
    ensures Removable(Credited(fills, cs), outputs)
    ensures forall a, r :: Filled(Removed(Credited(fills, cs), outputs), a, r) == 0
  {
    var t := Credited(fills, cs);
    forall a, r
      ensures Filled(t, a, r) == Filled(outputs, a, r)
      ensures Has(t, a, r) <==> Has(outputs, a, r)
    {
      CreditedAt(fills, cs, outputs, ruId, a, r);
    }
    CreditedNoEmpty(fills, cs);
    TableExtEntries(t, outputs);
  }
}
