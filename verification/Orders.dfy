/** `AggregateOrders`: the outputs asked for and the inputs offered, updated in place. */
module Orders {
  import opened Words
  import opened Ledger
  import opened Aggregation

  datatype Input = Input(token: Address, amount: U256)

  /** An order event, less its deadline, which aggregation does not read. */
  datatype Order = Order(outputs: seq<Output>, inputs: seq<Input>)

  function AddInput(inputs: Row, i: Input): Row {
    inputs[i.token := SatAdd(Get(inputs, i.token), i.amount)]
  }

  function AddInputs(inputs: Row, offers: seq<Input>): Row {
    if offers == [] then inputs
    else AddInput(AddInputs(inputs, offers[..|offers| - 1]), offers[|offers| - 1])
  }

  /** What is offered of this token. */
  function OfferedOf(offers: seq<Input>, token: Address): nat {
    if offers == [] then 0
    else
      var n := |offers| - 1;
      OfferedOf(offers[..n], token) + if offers[n].token == token then offers[n].amount else 0
  }

  lemma {:induction false} InputsSum(inputs: Row, offers: seq<Input>, token: Address)
    ensures Get(AddInputs(inputs, offers), token) == Min(U256_MAX, Get(inputs, token) + OfferedOf(offers, token))
  {
    if offers != [] {
      InputsSum(inputs, offers[..|offers| - 1], token);
    }
  }

  /** Both sides of an order are added, each amount under its own key, capped. */
  lemma {:induction false} IngestedSums(outputs: Table, inputs: Row, order: Order)
    ensures forall a, r ::
              Filled(Aggregated(outputs, OrderEntries(order.outputs)), a, r)
              == Min(U256_MAX, Filled(outputs, a, r) + AskedBy(order.outputs, a.chainId, a.token, r))
    ensures forall t ::
              Get(AddInputs(inputs, order.inputs), t)
              == Min(U256_MAX, Get(inputs, t) + OfferedOf(order.inputs, t))
  {
    forall a, r
      ensures Filled(Aggregated(outputs, OrderEntries(order.outputs)), a, r)
           == Min(U256_MAX, Filled(outputs, a, r) + AskedBy(order.outputs, a.chainId, a.token, r))
    {
      AggregatedAt(outputs, OrderEntries(order.outputs), a, r);
      OrderSum(order.outputs, a, r);
    }
    forall t
      ensures Get(AddInputs(inputs, order.inputs), t)
           == Min(U256_MAX, Get(inputs, t) + OfferedOf(order.inputs, t))
    {
      InputsSum(inputs, order.inputs, t);
    }
  }

  function EntriesOf(orders: seq<Order>): seq<Entry> {
    if orders == [] then []
    else EntriesOf(orders[..|orders| - 1]) + OrderEntries(orders[|orders| - 1].outputs)
  }

  /** `os` lists every recipient of `target`'s assets once, in some order. */
  ghost predicate ListsOutputs(os: seq<Output>, outputs: Table, target: U64, chainId: U32) {
    && (forall i | 0 <= i < |os| ::
          && os[i].chainId == chainId
          && Has(outputs, Asset(target, os[i].token), os[i].recipient)
          && os[i].amount == Filled(outputs, Asset(target, os[i].token), os[i].recipient))
    && (forall i, j | 0 <= i < j < |os| ::
          os[i].token != os[j].token || os[i].recipient != os[j].recipient)
    && (forall a, r | Has(outputs, a, r) && a.chainId == target ::
          exists i :: 0 <= i < |os| && os[i].token == a.token && os[i].recipient == r)
  }

  /** The same, for the assets visited so far. */
  ghost predicate ListsVisited(os: seq<Output>, outputs: Table, target: U64, chainId: U32,
                               todo: set<Asset>) {
    && (forall i | 0 <= i < |os| ::
          && os[i].chainId == chainId
          && Asset(target, os[i].token) !in todo
          && Has(outputs, Asset(target, os[i].token), os[i].recipient)
          && os[i].amount == Filled(outputs, Asset(target, os[i].token), os[i].recipient))
    && (forall i, j | 0 <= i < j < |os| ::
          os[i].token != os[j].token || os[i].recipient != os[j].recipient)
    && (forall a, r | Has(outputs, a, r) && a.chainId == target && a !in todo ::
          exists i :: 0 <= i < |os| && os[i].token == a.token && os[i].recipient == r)
  }

  class AggregateOrders {
    var outputs: Table
    var inputs: Row

    constructor (initialOutputs: Table, initialInputs: Row)
      ensures outputs == initialOutputs && inputs == initialInputs
    {
      outputs := initialOutputs;
      inputs := initialInputs;
    }

    method IngestRawOutput(chainId: U64, token: Address, recipient: Address, amount: U256)
      modifies this`outputs
      ensures outputs == AddRaw(old(outputs), Asset(chainId, token), recipient, amount)
    {
      var a := Asset(chainId, token);
      var row: Row := if a in outputs then outputs[a] else map[];
      var entry: U256 := if recipient in row then row[recipient] else 0;
      entry := SatAdd(entry, amount);
      row := row[recipient := entry];
      outputs := outputs[a := row];
    }

    method IngestRawInput(token: Address, amount: U256)
      modifies this`inputs
      ensures inputs == AddInput(old(inputs), Input(token, amount))
    {
      var entry: U256 := if token in inputs then inputs[token] else 0;
      entry := SatAdd(entry, amount);
      inputs := inputs[token := entry];
    }

    method Ingest(order: Order)
      modifies this
      ensures outputs == Aggregated(old(outputs), OrderEntries(order.outputs))
      ensures inputs == AddInputs(old(inputs), order.inputs)
      ensures forall a, r ::
                Filled(outputs, a, r)
                == Min(U256_MAX, Filled(old(outputs), a, r) + AskedBy(order.outputs, a.chainId, a.token, r))
      ensures forall t :: Get(inputs, t) == Min(U256_MAX, Get(old(inputs), t) + OfferedOf(order.inputs, t))
    {
      ghost var es := OrderEntries(order.outputs);
      for i := 0 to |order.outputs|
        invariant outputs == Aggregated(old(outputs), es[..i])
        invariant inputs == old(inputs)
      {
        var o := order.outputs[i];
        IngestRawOutput(o.chainId, o.token, o.recipient, o.amount);
        assert es[..i + 1][..i] == es[..i];
      }
      assert es[..|es|] == es;
      for i := 0 to |order.inputs|
        invariant outputs == Aggregated(old(outputs), es)
        invariant inputs == AddInputs(old(inputs), order.inputs[..i])
      {
        IngestRawInput(order.inputs[i].token, order.inputs[i].amount);
        assert order.inputs[..i + 1][..i] == order.inputs[..i];
      }
      assert order.inputs[..|order.inputs|] == order.inputs;
      IngestedSums(old(outputs), old(inputs), order);
    }

    /** The first loop of `absorb`: the inputs, in any order. */
    method AbsorbInputs(other: Row)
      modifies this`inputs
      ensures forall t :: t in inputs <==> t in old(inputs) || t in other
      ensures forall t :: Get(inputs, t) == SatAdd(Get(old(inputs), t), Get(other, t))
    {
      var todo := other.Keys;
      while todo != {}
        invariant todo <= other.Keys
        invariant forall t :: t in inputs <==> t in old(inputs) || (t in other && t !in todo)
        invariant forall t ::
                    Get(inputs, t)
                    == if t in todo then Get(old(inputs), t)
                       else SatAdd(Get(old(inputs), t), Get(other, t))
        decreases |todo|
      {
        var token :| token in todo;
        IngestRawInput(token, other[token]);
        todo := todo - {token};
      }
    }

    /** One asset of the second loop of `absorb`. */
    method IngestRow(a: Asset, row: Row)
      modifies this`outputs
      ensures RowIngested(outputs, old(outputs), a, row, {})
    {
      var todo := row.Keys;
      while todo != {}
        invariant todo <= row.Keys
        invariant RowIngested(outputs, old(outputs), a, row, todo)
        decreases |todo|
      {
        var r :| r in todo;
        IngestRawOutput(a.chainId, a.token, r, row[r]);
        todo := todo - {r};
      }
    }

    /** Ingests another aggregate amount by amount, visiting its keys in any order. */
    method Absorb(otherOutputs: Table, otherInputs: Row)
      modifies this
      ensures outputs == Ingested(old(outputs), otherOutputs)
      ensures forall t :: t in inputs <==> t in old(inputs) || t in otherInputs
      ensures forall t :: Get(inputs, t) == SatAdd(Get(old(inputs), t), Get(otherInputs, t))
    {
      AbsorbInputs(otherInputs);
      ghost var start := outputs;
      var todo := otherOutputs.Keys;
      while todo != {}
        invariant todo <= otherOutputs.Keys
        invariant IngestedSoFar(outputs, start, otherOutputs, todo)
        modifies this`outputs
        decreases |todo|
      {
        var a :| a in todo;
        ghost var before := outputs;
        IngestRow(a, otherOutputs[a]);
        IngestGrows(before, outputs, start, otherOutputs, todo, a);
        todo := todo - {a};
      }
      assert IsEntrySum(outputs, start, otherOutputs);
      EntrySumUnique(outputs, start, otherOutputs);
    }

    /** The chains the outputs are on, each once, in some order. */
    method TargetChainIds() returns (ids: seq<U64>)
      ensures forall c :: c in ids <==> exists a :: a in outputs && a.chainId == c
      ensures forall i, j | 0 <= i < j < |ids| :: ids[i] != ids[j]
    {
      ids := [];
      var todo := outputs.Keys;
      while todo != {}
        invariant todo <= outputs.Keys
        invariant forall c :: c in ids <==> exists a :: a in outputs && a !in todo && a.chainId == c
        invariant forall i, j | 0 <= i < j < |ids| :: ids[i] != ids[j]
        decreases |todo|
      {
        var a :| a in todo;
        ghost var rest := todo - {a};
        assert forall b :: b in outputs && b !in rest <==> b in outputs && (b !in todo || b == a);
        if a.chainId !in ids {
          ids := ids + [a.chainId];
        }
        todo := todo - {a};
      }
    }

    /** The outputs for one chain; the rollup's id is cut to 32 bits. */
    method OutputsFor(target: U64, ruChainId: U64) returns (os: seq<Output>)
      ensures ListsOutputs(os, outputs, target, ruChainId % (U32_MAX + 1))
      ensures forall o | o in os ::
                && o.chainId == ruChainId % (U32_MAX + 1)
                && Has(outputs, Asset(target, o.token), o.recipient)
                && o.amount == Filled(outputs, Asset(target, o.token), o.recipient)
    {
      var chainId: U32 := ruChainId % (U32_MAX + 1);
      os := [];
      var todo := outputs.Keys;
      while todo != {}
        invariant todo <= outputs.Keys
        invariant ListsVisited(os, outputs, target, chainId, todo)
        decreases |todo|
      {
        var a :| a in todo;
        if a.chainId == target {
          var more := ListRow(a.token, outputs[a], chainId);
          ListGrows(os, more, outputs, target, chainId, todo, a);
          os := os + more;
        }
        todo := todo - {a};
      }
    }
  }

  /** The inner loop of `outputs_for`: one asset's recipients. */
  method ListRow(token: Address, row: Row, chainId: U32) returns (os: seq<Output>)
    ensures forall i | 0 <= i < |os| ::
              os[i].chainId == chainId && os[i].token == token
              && os[i].recipient in row && os[i].amount == row[os[i].recipient]
    ensures forall i, j | 0 <= i < j < |os| :: os[i].recipient != os[j].recipient
    ensures forall r | r in row :: exists i :: 0 <= i < |os| && os[i].recipient == r
  {
    os := [];
    var todo := row.Keys;
    while todo != {}
      invariant todo <= row.Keys
      invariant forall i | 0 <= i < |os| ::
                  os[i].chainId == chainId && os[i].token == token && os[i].recipient !in todo
                  && os[i].recipient in row && os[i].amount == row[os[i].recipient]
      invariant forall i, j | 0 <= i < j < |os| :: os[i].recipient != os[j].recipient
      invariant forall r | r in row && r !in todo ::
                  exists i :: 0 <= i < |os| && os[i].recipient == r
      decreases |todo|
    {
      var r :| r in todo;
      ghost var was := os;
      os := os + [Output(chainId, token, r, row[r])];
      todo := todo - {r};
      assert os[|was|].recipient == r;
      assert forall i | 0 <= i < |was| :: os[i] == was[i];
    }
  }

  lemma {:induction false} ListGrows(os: seq<Output>, more: seq<Output>, outputs: Table,
                                     target: U64, chainId: U32, todo: set<Asset>, a: Asset)
    requires ListsVisited(os, outputs, target, chainId, todo)
    requires a in outputs && a in todo && a.chainId == target
    requires forall i | 0 <= i < |more| ::
               more[i].chainId == chainId && more[i].token == a.token
               && more[i].recipient in outputs[a]
               && more[i].amount == outputs[a][more[i].recipient]
    requires forall i, j | 0 <= i < j < |more| :: more[i].recipient != more[j].recipient
    requires forall r | r in outputs[a] :: exists i :: 0 <= i < |more| && more[i].recipient == r
    ensures ListsVisited(os + more, outputs, target, chainId, todo - {a})
  {
    var all := os + more;
    assert a == Asset(target, a.token);
    forall b, r | Has(outputs, b, r) && b.chainId == target && b !in todo - {a}
      ensures exists i :: 0 <= i < |all| && all[i].token == b.token && all[i].recipient == r
    {
      if b == a {
        var i :| 0 <= i < |more| && more[i].recipient == r;
        assert all[|os| + i] == more[i];
      } else {
        var i :| 0 <= i < |os| && os[i].token == b.token && os[i].recipient == r;
        assert all[i] == os[i];
      }
    }
  }

  // ---- loop bookkeeping for `absorb` ----

  ghost predicate IngestedSoFar(u: Table, t: Table, o: Table, todo: set<Asset>) {
    && (forall a {:trigger a in u} :: a in u <==> a in t || (a in o && a !in todo && o[a] != map[]))
    && (forall a, r {:trigger Has(u, a, r)} ::
          Has(u, a, r) <==> Has(t, a, r) || (Has(o, a, r) && a !in todo))
    && (forall a, r {:trigger Filled(u, a, r)} ::
          Filled(u, a, r)
          == if a in todo then Filled(t, a, r) else SatAdd(Filled(t, a, r), Filled(o, a, r)))
  }

  ghost predicate RowIngested(u: Table, t: Table, a: Asset, row: Row, todo: set<Address>) {
    && (forall b {:trigger b in u} :: b in u <==> b in t || (b == a && exists r | r in row :: r !in todo))
    && (forall b, r {:trigger Has(u, b, r)} ::
          Has(u, b, r) <==> Has(t, b, r) || (b == a && r in row && r !in todo))
    && (forall b, r {:trigger Filled(u, b, r)} ::
          Filled(u, b, r)
          == if b != a || r in todo then Filled(t, b, r) else SatAdd(Filled(t, a, r), Get(row, r)))
  }

  lemma {:induction false} IngestGrows(before: Table, after: Table, start: Table, o: Table,
                                       todo: set<Asset>, a: Asset)
    requires IngestedSoFar(before, start, o, todo)
    requires a in o && a in todo && RowIngested(after, before, a, o[a], {})
    ensures IngestedSoFar(after, start, o, todo - {a})
  {
    forall b, r
      ensures Has(after, b, r) <==> Has(start, b, r) || (Has(o, b, r) && b !in todo - {a})
      ensures Filled(after, b, r)
           == if b in todo - {a} then Filled(start, b, r)
              else SatAdd(Filled(start, b, r), Filled(o, b, r))
    {
      assert Has(before, b, r) <==> Has(start, b, r) || (Has(o, b, r) && b !in todo);
      assert Filled(before, b, r)
          == if b in todo then Filled(start, b, r)
             else SatAdd(Filled(start, b, r), Filled(o, b, r));
    }
    assert o[a] != map[] <==> exists r :: r in o[a];
  }
}
