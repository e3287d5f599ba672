/** Folding single amounts into a table, and what the result depends on. */
module Aggregation {
  import opened Words
  import opened Ledger

  /** One amount for one key. */
  datatype Entry = Entry(asset: Asset, recipient: Address, amount: U256)

  /** An output of an order or a fill event. */
  datatype Output = Output(chainId: U32, token: Address, recipient: Address, amount: U256)

  /** A fill credits the chain that emitted it, whatever chain its outputs name. */
  function FillEntries(chainId: U64, outputs: seq<Output>): (es: seq<Entry>)
    ensures |es| == |outputs|
  {
    seq(|outputs|, i requires 0 <= i < |outputs| =>
      Entry(Asset(chainId, outputs[i].token), outputs[i].recipient, outputs[i].amount))
  }

  /** An order asks for its outputs on the chains they name. */
  function OrderEntries(outputs: seq<Output>): (es: seq<Entry>)
    ensures |es| == |outputs|
  {
    seq(|outputs|, i requires 0 <= i < |outputs| =>
      Entry(Asset(outputs[i].chainId, outputs[i].token), outputs[i].recipient, outputs[i].amount))
  }

  function Aggregated(t: Table, es: seq<Entry>): Table {
    if es == [] then t
    else
      var n := |es| - 1;
      AddRaw(Aggregated(t, es[..n]), es[n].asset, es[n].recipient, es[n].amount)
  }

  predicate At(e: Entry, a: Asset, r: Address) {
    e.asset == a && e.recipient == r
  }

  function SumAt(es: seq<Entry>, a: Asset, r: Address): nat {
    if es == [] then 0
    else
      var n := |es| - 1;
      SumAt(es[..n], a, r) + if At(es[n], a, r) then es[n].amount else 0
  }

  /** Each aggregated balance is the capped sum of its amounts. */
  lemma {:induction false} AggregatedAt(t: Table, es: seq<Entry>, a: Asset, r: Address)
    ensures Filled(Aggregated(t, es), a, r) == Min(U256_MAX, Filled(t, a, r) + SumAt(es, a, r))
    ensures Has(Aggregated(t, es), a, r) <==> Has(t, a, r) || exists e | e in es :: At(e, a, r)
  {
    if es != [] {
      var n := |es| - 1;
      AggregatedAt(t, es[..n], a, r);
      assert es == es[..n] + [es[n]];
    }
  }

  /** What a fill event credits to `r` in this token. */
  function CreditedBy(outputs: seq<Output>, token: Address, r: Address): nat {
    if outputs == [] then 0
    else
      var n := |outputs| - 1;
      CreditedBy(outputs[..n], token, r)
      + if outputs[n].token == token && outputs[n].recipient == r then outputs[n].amount else 0
  }

  /** What an order asks for `r` of this token on this chain. */
  function AskedBy(outputs: seq<Output>, chainId: U64, token: Address, r: Address): nat {
    if outputs == [] then 0
    else
      var n := |outputs| - 1;
      AskedBy(outputs[..n], chainId, token, r)
      + if outputs[n].chainId == chainId && outputs[n].token == token && outputs[n].recipient == r
        then outputs[n].amount else 0
  }

  /** Fill events count on the chain that emitted them, for nothing on any other. */
  lemma {:induction false} FillSum(chainId: U64, outputs: seq<Output>, a: Asset, r: Address)
    ensures SumAt(FillEntries(chainId, outputs), a, r)
         == if a.chainId == chainId then CreditedBy(outputs, a.token, r) else 0
  {
    if outputs != [] {
      var n := |outputs| - 1;
      FillSum(chainId, outputs[..n], a, r);
      assert FillEntries(chainId, outputs)[..n] == FillEntries(chainId, outputs[..n]);
    }
  }

  lemma {:induction false} OrderSum(outputs: seq<Output>, a: Asset, r: Address)
    ensures SumAt(OrderEntries(outputs), a, r) == AskedBy(outputs, a.chainId, a.token, r)
  {
    if outputs != [] {
      var n := |outputs| - 1;
      OrderSum(outputs[..n], a, r);
      assert OrderEntries(outputs)[..n] == OrderEntries(outputs[..n]);
    }
  }

  lemma {:induction false} AddRawNoEmpty(t: Table, e: Entry)
    ensures NoEmptyRows(t) ==> NoEmptyRows(AddRaw(t, e.asset, e.recipient, e.amount))
  {
    var u := AddRaw(t, e.asset, e.recipient, e.amount);
    assert Has(u, e.asset, e.recipient);
  }

  lemma {:induction false} AggregatedAssets(t: Table, es: seq<Entry>)
    ensures forall a :: a in Aggregated(t, es) <==> a in t || exists e | e in es :: e.asset == a
    ensures NoEmptyRows(t) ==> NoEmptyRows(Aggregated(t, es))
  {
    if es != [] {
      var n := |es| - 1;
      var before := Aggregated(t, es[..n]);
      AggregatedAssets(t, es[..n]);
      assert es == es[..n] + [es[n]];
      AddRawNoEmpty(before, es[n]);
    }
  }

  lemma {:induction false} SumAtAppend(es: seq<Entry>, fs: seq<Entry>, a: Asset, r: Address)
    ensures SumAt(es + fs, a, r) == SumAt(es, a, r) + SumAt(fs, a, r)
  {
    if fs == [] {
      assert es + fs == es;
    } else {
      assert (es + fs)[..|es + fs| - 1] == es + fs[..|fs| - 1];
      SumAtAppend(es, fs[..|fs| - 1], a, r);
    }
  }

  /** Aggregating a concatenation is absorbing the second aggregate into the first. */
  lemma {:induction false} AggregateHomomorphism(t: Table, es: seq<Entry>, fs: seq<Entry>)
    ensures Aggregated(t, es + fs) == Absorbed(Aggregated(t, es), Aggregated(map[], fs))
  {
    var whole, x, y := Aggregated(t, es + fs), Aggregated(t, es), Aggregated(map[], fs);
    AggregatedAssets(t, es + fs);
    AggregatedAssets(t, es);
    AggregatedAssets(map[], fs);
    forall a, r
      ensures Filled(whole, a, r) == SatAdd(Filled(x, a, r), Filled(y, a, r))
      ensures Has(whole, a, r) <==> Has(x, a, r) || Has(y, a, r)
    {
      AggregatedAt(t, es + fs, a, r);
      AggregatedAt(t, es, a, r);
      AggregatedAt(map[], fs, a, r);
      SumAtAppend(es, fs, a, r);
    }
    SumUnique(whole, x, y);
  }

  lemma {:induction false} SumAtRemove(es: seq<Entry>, k: nat, a: Asset, r: Address)
    requires k < |es|
    ensures SumAt(es, a, r)
         == SumAt(es[..k] + es[k + 1..], a, r) + if At(es[k], a, r) then es[k].amount else 0
  {
    SumAtAppend(es[..k], es[k..], a, r);
    SumAtAppend([es[k]], es[k + 1..], a, r);
    SumAtAppend(es[..k], es[k + 1..], a, r);
    assert [es[k]][..0] == [];
    assert es == es[..k] + es[k..] && es[k..] == [es[k]] + es[k + 1..];
  }

  lemma {:induction false} WithoutOne(es: seq<Entry>, k: nat)
    requires k < |es|
    ensures multiset(es[..k] + es[k + 1..]) == multiset(es) - multiset{es[k]}
  {
    assert es == es[..k] + ([es[k]] + es[k + 1..]);
  }

  lemma {:induction false} SumAtPermutation(es: seq<Entry>, fs: seq<Entry>, a: Asset, r: Address)
    requires multiset(es) == multiset(fs)
    ensures SumAt(es, a, r) == SumAt(fs, a, r)
    decreases |es|
  {
    if es == [] {
      assert |multiset(fs)| == |fs| == 0;
    } else {
      var n := |es| - 1;
      assert es[n] in multiset(fs);
      var k :| 0 <= k < |fs| && fs[k] == es[n];
      WithoutOne(es, n);
      assert es[..n] + es[n + 1..] == es[..n];
      WithoutOne(fs, k);
      SumAtPermutation(es[..n], fs[..k] + fs[k + 1..], a, r);
      SumAtRemove(fs, k, a, r);
    }
  }

  /** The order in which amounts are ingested does not matter. */
  lemma {:induction false} AggregatePermutation(t: Table, es: seq<Entry>, fs: seq<Entry>)
    requires multiset(es) == multiset(fs)
    ensures Aggregated(t, es) == Aggregated(t, fs)
  {
    assert forall e :: e in es <==> e in multiset(es);
    assert forall e :: e in fs <==> e in multiset(fs);
    AggregatedAssets(t, es);
    AggregatedAssets(t, fs);
    forall a, r
      ensures Filled(Aggregated(t, es), a, r) == Filled(Aggregated(t, fs), a, r)
      ensures Has(Aggregated(t, es), a, r) <==> Has(Aggregated(t, fs), a, r)
    {
      AggregatedAt(t, es, a, r);
      AggregatedAt(t, fs, a, r);
      SumAtPermutation(es, fs, a, r);
    }
    TableExt(Aggregated(t, es), Aggregated(t, fs));
  }
}
