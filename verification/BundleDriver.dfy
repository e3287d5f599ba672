/**
 `SignetEthBundleDriver::run_bundle`: host transactions first, then the rollup
 transactions, each checked against the fill state with everything before it.
 */
module BundleDriver {
  import opened Words
  import opened Ledger
  import opened Settlement
  import opened Batch
  import opened Agreement
  import opened Blocks
  import opened NodeLedgers
  import opened Orders
  import opened Fills
  import opened Detector
  import opened Inspector

  type Hash = nat

  /** What running one transaction yields; any sequence of these is a possible EVM. */
  datatype Execution = EvmFailure | Ran(root: Frame, gas: U64)

  datatype Bundle = Bundle(txs: seq<Hash>, hostTxs: seq<Hash>, blockNumber: U64,
                           minTimestamp: Option<U64>, maxTimestamp: Option<U64>,
                           reverting: seq<Hash>)
  {
    predicate IsValidAtTimestamp(timestamp: U64) {
      && (minTimestamp.Some? ==> minTimestamp.value <= timestamp)
      && (maxTimestamp.Some? ==> timestamp <= maxTimestamp.value)
    }
  }

  datatype BundleError =
    | BundleEmpty | BlockNumberMismatch | TimestampOutOfRange
    | HostSimulation | EvmError | BundleReverted

  // ---- what a bundle run takes ----

  /** One run as the ledger sees it. */
  datatype Summary = Broken | Failed(gas: U64) | Succeeded(gas: U64, events: TxEvents)

  function Summarize(filter: Filter, chainId: U64, run: Execution): Summary {
    if run.EvmFailure? then Broken
    else if run.root.ok then Succeeded(run.gas, EventsIn(filter, chainId, run.root))
    else Failed(run.gas)
  }

  predicate Summaries(filter: Filter, chainId: U64, runs: seq<Execution>, sums: seq<Summary>) {
    && |sums| == |runs|
    && (forall i | 0 <= i < |runs| :: sums[i] == Summarize(filter, chainId, runs[i]))
  }

  /** The running totals of the events and of the gas. */
  datatype Totals = Totals(events: TxEvents, gas: U64)

  /** With the totals at `t`, this run succeeds and its events pass the running check. */
  ghost predicate Takes(ctx: Table, t: Totals, s: Summary) {
    s.Succeeded? && Check(ctx, Accumulate(t.events, s.events))
  }

  /** Gas counts for runs taken and for runs that failed, not for runs dropped. */
  ghost function Stepped(ctx: Table, t: Totals, s: Summary): Totals {
    if Takes(ctx, t, s) then Totals(Accumulate(t.events, s.events), SatAdd64(t.gas, s.gas))
    else if s.Failed? then t.(gas := SatAdd64(t.gas, s.gas))
    else t
  }

  ghost function After(ctx: Table, t: Totals, sums: seq<Summary>): Totals {
    if sums == [] then t
    else
      var n := |sums| - 1;
      Stepped(ctx, After(ctx, t, sums[..n]), sums[n])
  }

  lemma {:induction false} AfterStep(ctx: Table, t: Totals, sums: seq<Summary>, k: nat)
    requires k < |sums|
    ensures After(ctx, t, sums[..k + 1]) == Stepped(ctx, After(ctx, t, sums[..k]), sums[k])
  {
    assert sums[..k + 1][..k] == sums[..k];
  }

  /** A run is taken, or it is one the bundle lets revert. */
  ghost predicate Tolerated(ctx: Table, t: Totals, s: Summary, mayRevert: bool) {
    !s.Broken? && (Takes(ctx, t, s) || mayRevert)
  }

  ghost predicate AllTolerated(ctx: Table, t: Totals, sums: seq<Summary>, txs: seq<Hash>,
                               reverting: seq<Hash>)
    requires |sums| == |txs|
  {
    sums == [] ||
    var n := |sums| - 1;
    && AllTolerated(ctx, t, sums[..n], txs[..n], reverting)
    && Tolerated(ctx, After(ctx, t, sums[..n]), sums[n], txs[n] in reverting)
  }

  /** The error of a run that is not tolerated. */
  function ErrorOf(s: Summary): BundleError {
    if s.Broken? then EvmError else BundleReverted
  }

  /** The `k`-th run is the first that is not tolerated. */
  ghost predicate RefusedAt(ctx: Table, t: Totals, sums: seq<Summary>, txs: seq<Hash>,
                            reverting: seq<Hash>, k: nat)
    requires |sums| == |txs| && k < |sums|
  {
    && AllTolerated(ctx, t, sums[..k], txs[..k], reverting)
    && !Tolerated(ctx, After(ctx, t, sums[..k]), sums[k], txs[k] in reverting)
  }

  /** The error is that of the first run not tolerated. */
  ghost predicate IsRefusal(ctx: Table, t: Totals, sums: seq<Summary>, txs: seq<Hash>,
                            reverting: seq<Hash>, error: BundleError)
    requires |sums| == |txs|
  {
    exists k: nat | k < |sums| :: RefusedAt(ctx, t, sums, txs, reverting, k) && error == ErrorOf(sums[k])
  }

  lemma {:induction false} AllToleratedStep(ctx: Table, t: Totals, sums: seq<Summary>,
                                            txs: seq<Hash>, reverting: seq<Hash>, k: nat)
    requires |sums| == |txs| && k < |sums|
    ensures AllTolerated(ctx, t, sums[..k + 1], txs[..k + 1], reverting) <==>
            && AllTolerated(ctx, t, sums[..k], txs[..k], reverting)
            && Tolerated(ctx, After(ctx, t, sums[..k]), sums[k], txs[k] in reverting)
  {
    assert sums[..k + 1][..k] == sums[..k] && txs[..k + 1][..k] == txs[..k];
  }

  lemma {:induction false} AllToleratedPrefix(ctx: Table, t: Totals, sums: seq<Summary>,
                                              txs: seq<Hash>, reverting: seq<Hash>, k: nat)
    requires |sums| == |txs| && k <= |sums|
    requires AllTolerated(ctx, t, sums, txs, reverting)
    ensures AllTolerated(ctx, t, sums[..k], txs[..k], reverting)
  {
    var n := |sums| - 1;
    if k <= n {
      AllToleratedPrefix(ctx, t, sums[..n], txs[..n], reverting, k);
      assert sums[..n][..k] == sums[..k] && txs[..n][..k] == txs[..k];
    } else {
      assert sums[..k] == sums && txs[..k] == txs;
    }
  }

  /** The totals after the host transactions: their fills, and no orders. */
  ghost function HostAfter(sums: seq<Summary>): Totals {
    if sums == [] then Totals(TxEvents(map[], map[]), 0)
    else
      var n := |sums| - 1;
      var t := HostAfter(sums[..n]);
      if sums[n].Succeeded?
      then Totals(TxEvents(Absorbed(t.events.fills, sums[n].events.fills), map[]),
                  SatAdd64(t.gas, sums[n].gas))
      else t
  }

  lemma {:induction false} HostAfterStep(sums: seq<Summary>, k: nat, before: Totals, after: Totals)
    requires k < |sums| && sums[k].Succeeded? && before == HostAfter(sums[..k])
    requires after == Totals(TxEvents(Absorbed(before.events.fills, sums[k].events.fills), map[]),
                             SatAdd64(before.gas, sums[k].gas))
    ensures after == HostAfter(sums[..k + 1])
  {
    assert sums[..k + 1][..k] == sums[..k];
  }

  /** The fills of the host transactions, in order. */
  function HostTables(sums: seq<Summary>): seq<Table> {
    if sums == [] then []
    else
      var n := |sums| - 1;
      if sums[n].Succeeded? then HostTables(sums[..n]) + [sums[n].events.fills]
      else HostTables(sums[..n])
  }

  const NOTHING := TxEvents(map[], map[])

  /** How a run enters the block: one that failed stays, without events; one may be dropped. */
  ghost function AttemptOf(ctx: Table, t: Totals, s: Summary): Attempt {
    match s
    case Broken => Attempt(NOTHING, false)
    case Failed(_) => Attempt(NOTHING, true)
    case Succeeded(_, events) => Attempt(events, Takes(ctx, t, s))
  }

  /** All transactions of the bundle, with the totals each was judged at. */
  ghost function Tried(ctx: Table, t: Totals, sums: seq<Summary>): (tried: seq<Attempt>)
    ensures |tried| == |sums|
  {
    if sums == [] then []
    else
      var n := |sums| - 1;
      Tried(ctx, t, sums[..n]) + [AttemptOf(ctx, After(ctx, t, sums[..n]), sums[n])]
  }

  /** The events behind the totals: these, after one credit per host transaction. */
  ghost function Taken(ctx: Table, t: Totals, sums: seq<Summary>): seq<TxEvents> {
    TakenEvents(Tried(ctx, t, sums))
  }

  lemma {:induction false} TakenOneMore(ctx: Table, t: Totals, sums: seq<Summary>)
    requires sums != []
    ensures var n := |sums| - 1;
            var before, last := Taken(ctx, t, sums[..n]), AttemptOf(ctx, After(ctx, t, sums[..n]), sums[n]);
            Taken(ctx, t, sums) == if last.taken then before + [last.events] else before
  {
    var n := |sums| - 1;
    assert Tried(ctx, t, sums)[..n] == Tried(ctx, t, sums[..n]);
  }

  lemma {:induction false} AppendOne(ctx: Table, evs: seq<TxEvents>, e: TxEvents)
    ensures Cumulative(evs + [e]) == Accumulate(Cumulative(evs), e)
    ensures PrefixChecks(ctx, evs + [e]) <==>
            PrefixChecks(ctx, evs) && Check(ctx, Cumulative(evs + [e]))
  {
    assert (evs + [e])[..|evs + [e]| - 1] == evs;
    AccumulateIsCumulative(evs, e);
  }

  /** A transaction without events changes no total and passes every check. */
  lemma {:induction false} AppendNothing(ctx: Table, evs: seq<TxEvents>)
    requires PrefixChecks(ctx, evs)
    ensures Cumulative(evs + [NOTHING]) == Cumulative(evs)
    ensures PrefixChecks(ctx, evs + [NOTHING])
  {
    var t := Cumulative(evs);
    AbsorbedEmpty(t.fills);
    assert IsEntrySum(t.orders, t.orders, NOTHING.orders);
    EntrySumUnique(t.orders, t.orders, NOTHING.orders);
    AppendOne(ctx, evs, NOTHING);
    if evs == [] {
      AccumulateIsCumulative([], NOTHING);
    }
  }

  /** Recording a host transaction as a credit adds its fills and no order. */
  lemma {:induction false} CreditAccumulates(total: TxEvents, host: Table)
    requires total.orders == map[]
    ensures Accumulate(total, Credit(host)) == TxEvents(Absorbed(total.fills, host), map[])
  {
    var none: Table := map[];
    assert IsEntrySum(none, none, none);
    EntrySumUnique(none, none, none);
  }

  lemma {:induction false} CreditStep(ctx: Table, hosts: seq<Table>, total: TxEvents, host: Table)
    requires total == Cumulative(Credits(hosts)) && total.orders == map[]
    requires PrefixChecks(ctx, Credits(hosts))
    ensures Cumulative(Credits(hosts + [host])) == TxEvents(Absorbed(total.fills, host), map[])
    ensures PrefixChecks(ctx, Credits(hosts + [host]))
  {
    assert (hosts + [host])[..|hosts + [host]| - 1] == hosts;
    assert Credits(hosts + [host]) == Credits(hosts) + [Credit(host)];
    AppendOne(ctx, Credits(hosts), Credit(host));
    CreditAccumulates(total, host);
  }

  lemma {:induction false} HostInvariant(ctx: Table, sums: seq<Summary>)
    ensures HostAfter(sums).events == Cumulative(Credits(HostTables(sums)))
    ensures HostAfter(sums).events.orders == map[]
    ensures PrefixChecks(ctx, Credits(HostTables(sums)))
  {
    if sums == [] {
      AccumulateIsCumulative([], TxEvents(map[], map[]));
    } else {
      var n := |sums| - 1;
      var before := HostTables(sums[..n]);
      HostInvariant(ctx, sums[..n]);
      if sums[n].Succeeded? {
        CreditStep(ctx, before, Cumulative(Credits(before)), sums[n].events.fills);
      } else {
        assert before + [] == before;
      }
    }
  }

  /** What a bundle run contributes to the block. */
  ghost function ItemOf(ctx: Table, hosts: seq<Summary>, gas: U64, sums: seq<Summary>): Item {
    Item(HostTables(hosts), Taken(ctx, Totals(HostAfter(hosts).events, gas), sums))
  }

  /**
   Bundle-run invariant: whatever the EVM does, after every transaction the
   totals are the sums of exactly the events taken, and every prefix of those
   passed the check against the fill state.
   */
  lemma {:induction false} BundleInvariant(ctx: Table, hosts: seq<Summary>, gas: U64,
                                           sums: seq<Summary>)
    ensures var t := Totals(HostAfter(hosts).events, gas);
            var evs := ItemEvents(ItemOf(ctx, hosts, gas, sums));
            After(ctx, t, sums).events == Cumulative(evs) && PrefixChecks(ctx, evs)
  {
    var t := Totals(HostAfter(hosts).events, gas);
    var start := Credits(HostTables(hosts));
    HostInvariant(ctx, hosts);
    if sums == [] {
      assert start + [] == start;
    } else {
      var n := |sums| - 1;
      BundleInvariant(ctx, hosts, gas, sums[..n]);
      BundleStep(ctx, t, sums, start);
    }
  }

  lemma {:induction false} BundleStep(ctx: Table, t: Totals, sums: seq<Summary>,
                                      start: seq<TxEvents>)
    requires sums != []
    requires var evs := start + Taken(ctx, t, sums[..|sums| - 1]);
             After(ctx, t, sums[..|sums| - 1]).events == Cumulative(evs) && PrefixChecks(ctx, evs)
    ensures var evs := start + Taken(ctx, t, sums);
            After(ctx, t, sums).events == Cumulative(evs) && PrefixChecks(ctx, evs)
  {
    var n := |sums| - 1;
    var before := Taken(ctx, t, sums[..n]);
    var last := AttemptOf(ctx, After(ctx, t, sums[..n]), sums[n]);
    TakenOneMore(ctx, t, sums);
    if last.taken {
      assert start + (before + [last.events]) == (start + before) + [last.events];
      if sums[n].Failed? {
        AppendNothing(ctx, start + before);
      } else {
        AppendOne(ctx, start + before, last.events);
      }
    }
  }

  /**
   What the accept step meets after a successful simulation: the recheck of the
   totals passes, and settling them cannot fail when every order is positive.
   */
  lemma {:induction false} SimulatedBundleSettles(ctx: Table, hosts: seq<Summary>,
                                                  sums: seq<Summary>)
    ensures var t := Totals(HostAfter(hosts).events, 0);
            var total := After(ctx, t, sums).events;
            && Check(ctx, total)
            && (AllPositive(Taken(ctx, t, sums)) ==> Settles(ctx, total))
  {
    var item := ItemOf(ctx, hosts, 0, sums);
    BundleInvariant(ctx, hosts, 0, sums);
    CreditsPositive(item.hosts);
    AcceptCannotFail(ctx, ItemEvents(item));
  }

  function SatAdd64(x: U64, y: U64): U64 {
    Min(x + y, U64_MAX)
  }

  // ---- a whole run, in terms of its executions ----

  /** The gas of all these runs. */
  function GasOf(runs: seq<Execution>): nat {
    if runs == [] then 0
    else
      var last := runs[|runs| - 1];
      GasOf(runs[..|runs| - 1]) + if last.Ran? then last.gas else 0
  }

  /** The gas of the runs that failed and of those taken; a run that was dropped costs nothing. */
  function GasCounted(runs: seq<Execution>, tried: seq<Attempt>): nat
    requires |runs| == |tried|
  {
    if runs == [] then 0
    else
      var n := |runs| - 1;
      GasCounted(runs[..n], tried[..n])
      + if runs[n].Ran? && (!runs[n].root.ok || tried[n].taken) then runs[n].gas else 0
  }

  lemma {:induction false} GasSnoc(runs: seq<Execution>, tried: seq<Attempt>, run: Execution, a: Attempt)
    requires |runs| == |tried|
    ensures GasCounted(runs + [run], tried + [a])
         == GasCounted(runs, tried) + if run.Ran? && (!run.root.ok || a.taken) then run.gas else 0
  {
    assert (runs + [run])[..|runs|] == runs && (tried + [a])[..|runs|] == tried;
  }

  /** Every host run succeeded and the gas counted is theirs. */
  lemma {:induction false} HostGasCounts(filter: Filter, chainId: U64, runs: seq<Execution>,
                                         sums: seq<Summary>)
    requires Summaries(filter, chainId, runs, sums) && forall i | 0 <= i < |sums| :: sums[i].Succeeded?
    ensures HostAfter(sums).gas == Min(U64_MAX, GasOf(runs))
  {
    if runs != [] {
      HostGasCounts(filter, chainId, runs[..|runs| - 1], sums[..|runs| - 1]);
    }
  }

  lemma {:induction false} SnocRun(ctx: Table, t: Totals, sums: seq<Summary>, s: Summary)
    ensures After(ctx, t, sums + [s]) == Stepped(ctx, After(ctx, t, sums), s)
    ensures Tried(ctx, t, sums + [s]) == Tried(ctx, t, sums) + [AttemptOf(ctx, After(ctx, t, sums), s)]
  {
    assert (sums + [s])[..|sums|] == sums;
  }

  /** One run: its gas counts if it failed or was taken. */
  lemma {:induction false} OneGas(ctx: Table, t: Totals, filter: Filter, chainId: U64, run: Execution,
                                  s: Summary)
    requires s == Summarize(filter, chainId, run)
    ensures Stepped(ctx, t, s).gas
         == if run.Ran? && (!run.root.ok || AttemptOf(ctx, t, s).taken) then SatAdd64(t.gas, run.gas)
            else t.gas
  {
  }

  lemma {:induction false} OneTolerated(ctx: Table, t: Totals, filter: Filter, chainId: U64,
                                        run: Execution, s: Summary, mayRevert: bool)
    requires s == Summarize(filter, chainId, run)
    ensures Tolerated(ctx, t, s, mayRevert) <==>
            run.Ran? && ((run.root.ok && AttemptOf(ctx, t, s).taken) || mayRevert)
  {
  }

  lemma {:induction false} GasMore(start: nat, runs: seq<Execution>, tried: seq<Attempt>, run: Execution,
                                   a: Attempt, before: U64, after: U64)
    requires |runs| == |tried| && before == Min(U64_MAX, start + GasCounted(runs, tried))
    requires after == if run.Ran? && (!run.root.ok || a.taken) then SatAdd64(before, run.gas) else before
    ensures after == Min(U64_MAX, start + GasCounted(runs + [run], tried + [a]))
  {
    GasSnoc(runs, tried, run, a);
  }

  /** What one more run makes of the totals and of what was tried. */
  lemma {:induction false} GasStep(ctx: Table, t: Totals, filter: Filter, chainId: U64,
                                   sums: seq<Summary>, run: Execution, s: Summary)
    returns (tried: seq<Attempt>, a: Attempt, before: U64, after: U64)
    requires s == Summarize(filter, chainId, run)
    ensures tried == Tried(ctx, t, sums) && tried + [a] == Tried(ctx, t, sums + [s])
    ensures before == After(ctx, t, sums).gas && after == After(ctx, t, sums + [s]).gas
    ensures after == if run.Ran? && (!run.root.ok || a.taken) then SatAdd64(before, run.gas) else before
  {
    var u := After(ctx, t, sums);
    SnocRun(ctx, t, sums, s);
    OneGas(ctx, u, filter, chainId, run, s);
    tried, a, before, after := Tried(ctx, t, sums), AttemptOf(ctx, u, s), u.gas, Stepped(ctx, u, s).gas;
  }

  /** The gas after any runs: that of the runs taken or failed, capped. */
  lemma {:induction false} GasCounts(ctx: Table, t: Totals, filter: Filter, chainId: U64,
                                     runs: seq<Execution>, sums: seq<Summary>)
    requires Summaries(filter, chainId, runs, sums)
    ensures After(ctx, t, sums).gas == Min(U64_MAX, t.gas + GasCounted(runs, Tried(ctx, t, sums)))
  {
    if runs != [] {
      var n := |runs| - 1;
      GasCounts(ctx, t, filter, chainId, runs[..n], sums[..n]);
      var tried, a, before, after := GasStep(ctx, t, filter, chainId, sums[..n], runs[n], sums[n]);
      GasMore(t.gas, runs[..n], tried, runs[n], a, before, after);
      FrontAndLast(runs);
      FrontAndLast(sums);
    }
  }

  /** Every run went through, and each was taken or may revert. */
  predicate NoneRefused(runs: seq<Execution>, tried: seq<Attempt>, txs: seq<Hash>, reverting: seq<Hash>)
    requires |runs| == |tried| == |txs|
  {
    forall k | 0 <= k < |runs| ::
      runs[k].Ran? && ((runs[k].root.ok && tried[k].taken) || txs[k] in reverting)
  }

  /** What one more run makes of the verdict. */
  lemma {:induction false} ToleratedStep(ctx: Table, t: Totals, filter: Filter, chainId: U64,
                                         sums: seq<Summary>, txs: seq<Hash>, reverting: seq<Hash>,
                                         run: Execution, s: Summary, tx: Hash)
    returns (tried: seq<Attempt>, a: Attempt, before: bool)
    requires s == Summarize(filter, chainId, run) && |sums| == |txs|
    ensures tried == Tried(ctx, t, sums) && tried + [a] == Tried(ctx, t, sums + [s])
    ensures before == AllTolerated(ctx, t, sums, txs, reverting)
    ensures AllTolerated(ctx, t, sums + [s], txs + [tx], reverting) <==>
            before && run.Ran? && ((run.root.ok && a.taken) || tx in reverting)
  {
    var u := After(ctx, t, sums);
    SnocRun(ctx, t, sums, s);
    OneTolerated(ctx, u, filter, chainId, run, s, tx in reverting);
    tried, a, before := Tried(ctx, t, sums), AttemptOf(ctx, u, s), AllTolerated(ctx, t, sums, txs, reverting);
    assert (sums + [s])[..|sums|] == sums && (txs + [tx])[..|txs|] == txs;
  }

  lemma {:induction false} ToleratedAre(ctx: Table, t: Totals, filter: Filter, chainId: U64,
                                        runs: seq<Execution>, sums: seq<Summary>, txs: seq<Hash>,
                                        reverting: seq<Hash>)
    requires Summaries(filter, chainId, runs, sums) && |txs| == |sums|
    ensures AllTolerated(ctx, t, sums, txs, reverting) <==>
            NoneRefused(runs, Tried(ctx, t, sums), txs, reverting)
  {
    if runs != [] {
      var n := |runs| - 1;
      ToleratedAre(ctx, t, filter, chainId, runs[..n], sums[..n], txs[..n], reverting);
      var tried, a, before := ToleratedStep(ctx, t, filter, chainId, sums[..n], txs[..n], reverting,
                                            runs[n], sums[n], txs[n]);
      NoneRefusedMore(runs[..n], tried, txs[..n], reverting, runs[n], a, txs[n]);
      FrontAndLast(runs);
      FrontAndLast(sums);
      FrontAndLast(txs);
    }
  }

  lemma {:induction false} NoneRefusedMore(runs: seq<Execution>, tried: seq<Attempt>, txs: seq<Hash>,
                                           reverting: seq<Hash>, run: Execution, a: Attempt, tx: Hash)
    requires |runs| == |tried| == |txs|
    ensures NoneRefused(runs + [run], tried + [a], txs + [tx], reverting) <==>
            && NoneRefused(runs, tried, txs, reverting)
            && run.Ran? && ((run.root.ok && a.taken) || tx in reverting)
  {
    var n := |runs|;
    if NoneRefused(runs + [run], tried + [a], txs + [tx], reverting) {
      assert (runs + [run])[n].Ran?;
      forall k | 0 <= k < n
        ensures runs[k].Ran? && ((runs[k].root.ok && tried[k].taken) || txs[k] in reverting)
      {
        assert (runs + [run])[k].Ran?;
      }
    }
  }

  class Driver {
    const bundle: Bundle
    const fillState: AggregateFills
    var totalGas: U64
    var totalHostGas: U64
    var bundleFills: AggregateFills
    var bundleOrders: AggregateOrders

    ghost function Total(): TxEvents
      reads this, bundleFills, bundleOrders
    {
      TxEvents(bundleFills.fills, bundleOrders.outputs)
    }

    /** The totals the spec functions speak of. */
    ghost function Sofar(): Totals
      reads this, bundleFills, bundleOrders
    {
      Totals(Total(), totalGas)
    }

    constructor (bundle: Bundle, fillState: AggregateFills)
      ensures Total() == TxEvents(map[], map[]) && totalGas == 0 && totalHostGas == 0
      ensures this.bundle == bundle && this.fillState == fillState
      ensures fresh(bundleFills) && fresh(bundleOrders)
    {
      this.bundle := bundle;
      this.fillState := fillState;
      totalGas, totalHostGas := 0, 0;
      bundleFills := new AggregateFills(map[]);
      bundleOrders := new AggregateOrders(map[], map[]);
    }

    /** One host transaction; only its fills are kept. */
    method RunHostTx(detector: OrderDetector, run: Execution, ghost s: Summary) returns (ok: bool)
      requires fillState != bundleFills && detector.Contents() == NO_EVENTS
      requires s == Summarize(detector.filter, detector.chainId, run)
      modifies this`totalHostGas, bundleFills, detector, detector.orders, detector.filleds
      ensures detector.Contents() == NO_EVENTS
      ensures detector.orders == old(detector.orders) || fresh(detector.orders)
      ensures detector.filleds == old(detector.filleds) || fresh(detector.filleds)
      ensures ok <==> s.Succeeded?
      ensures ok ==>
                && bundleFills.fills == Absorbed(old(bundleFills.fills), s.events.fills)
                && totalHostGas == SatAdd64(old(totalHostGas), s.gas)
      ensures ok <==> run.Ran? && run.root.ok
      ensures ok ==>
                && bundleFills.fills
                   == Absorbed(old(bundleFills.fills), EventsIn(detector.filter, detector.chainId, run.root).fills)
                && totalHostGas == Min(U64_MAX, old(totalHostGas) + run.gas)
    {
      if run.EvmFailure? {
        return false;
      }
      detector.Run(run.root);
      ExtendedFromNone(detector.filter, Kept(run.root));
      if !run.root.ok {
        FailedKeepsNothing(run.root);
        return false;
      }
      totalHostGas := SatAdd64(totalHostGas, run.gas);
      var hostFills, _ := detector.TakeAggregates();
      bundleFills.Absorb(hostFills.fills);
      ok := true;
    }

    /** Absorbs the events into copies of the totals and keeps the copies if they are covered. */
    method AbsorbIfCovered(txFills: Table, txOrders: Table, txInputs: Row) returns (ok: bool)
      modifies this`bundleFills, this`bundleOrders
      ensures bundleFills == old(bundleFills) || fresh(bundleFills)
      ensures bundleOrders == old(bundleOrders) || fresh(bundleOrders)
      ensures var sum := Accumulate(old(Total()), TxEvents(txFills, txOrders));
              && (ok <==> Check(fillState.fills, sum))
              && Total() == if ok then sum else old(Total())
    {
      var candidateFills := new AggregateFills(bundleFills.fills);
      var candidateOrders := new AggregateOrders(bundleOrders.outputs, bundleOrders.inputs);
      candidateFills.Absorb(txFills);
      candidateOrders.Absorb(txOrders, txInputs);
      var checked := fillState.CheckRuTxEvents(candidateFills.fills, candidateOrders.outputs);
      ok := checked == Accepted;
      if ok {
        bundleFills := candidateFills;
        bundleOrders := candidateOrders;
      }
    }

    /** One rollup transaction, run and settled. */
    method TryTx(detector: OrderDetector, hash: Hash, run: Execution)
      returns (result: Result<(), BundleError>)
      requires fillState != bundleFills && detector.Contents() == NO_EVENTS
      modifies this`totalGas, this`bundleFills, this`bundleOrders
      modifies detector, detector.orders, detector.filleds
      ensures fillState != bundleFills && detector.Contents() == NO_EVENTS
      ensures bundleFills == old(bundleFills) || fresh(bundleFills)
      ensures bundleOrders == old(bundleOrders) || fresh(bundleOrders)
      ensures detector.orders == old(detector.orders) || fresh(detector.orders)
      ensures detector.filleds == old(detector.filleds) || fresh(detector.filleds)
      ensures run.EvmFailure? ==>
                result == Err(EvmError) && Total() == old(Total()) && totalGas == old(totalGas)
      ensures run.Ran? && !run.root.ok ==>
                && Total() == old(Total())
                && (if hash in bundle.reverting
                    then result == Ok(()) && totalGas == Min(U64_MAX, old(totalGas) + run.gas)
                    else result == Err(BundleReverted) && totalGas == old(totalGas))
      ensures run.Ran? && run.root.ok ==>
                var sum := Accumulate(old(Total()), EventsIn(detector.filter, detector.chainId, run.root));
                if Check(fillState.fills, sum)
                then result == Ok(()) && Total() == sum && totalGas == Min(U64_MAX, old(totalGas) + run.gas)
                else
                  && result == (if hash in bundle.reverting then Ok(()) else Err(BundleReverted))
                  && Total() == old(Total()) && totalGas == old(totalGas)
    {
      if run.EvmFailure? {
        return Err(EvmError);
      }
      detector.Run(run.root);
      ExtendedFromNone(detector.filter, Kept(run.root));
      if run.root.ok {
        result := SettleTx(detector, hash, run.gas, EventsIn(detector.filter, detector.chainId, run.root));
        return;
      }
      FailedKeepsNothing(run.root);
      if hash !in bundle.reverting {
        return Err(BundleReverted);
      }
      totalGas := SatAdd64(totalGas, run.gas);
      result := Ok(());
    }

    /**
     One rollup transaction: taken with its events, dropped for lack of fills, or
     kept although it failed; the last two only when the bundle lets it revert.
     */
    method RunTx(detector: OrderDetector, hash: Hash, run: Execution, ghost s: Summary)
      returns (result: Result<(), BundleError>)
      requires fillState != bundleFills && detector.Contents() == NO_EVENTS
      requires s == Summarize(detector.filter, detector.chainId, run)
      modifies this`totalGas, this`bundleFills, this`bundleOrders
      modifies detector, detector.orders, detector.filleds
      ensures fillState != bundleFills && detector.Contents() == NO_EVENTS
      ensures bundleFills == old(bundleFills) || fresh(bundleFills)
      ensures bundleOrders == old(bundleOrders) || fresh(bundleOrders)
      ensures detector.orders == old(detector.orders) || fresh(detector.orders)
      ensures detector.filleds == old(detector.filleds) || fresh(detector.filleds)
      ensures result.Ok? <==> Tolerated(fillState.fills, old(Sofar()), s, hash in bundle.reverting)
      ensures result.Ok? ==> Sofar() == Stepped(fillState.fills, old(Sofar()), s)
      ensures result.Err? ==> Sofar() == old(Sofar()) && result.error == ErrorOf(s)
      ensures run.EvmFailure? ==>
                result == Err(EvmError) && Total() == old(Total()) && totalGas == old(totalGas)
      ensures run.Ran? && !run.root.ok ==>
                && Total() == old(Total())
                && (if hash in bundle.reverting
                    then result == Ok(()) && totalGas == Min(U64_MAX, old(totalGas) + run.gas)
                    else result == Err(BundleReverted) && totalGas == old(totalGas))
      ensures run.Ran? && run.root.ok ==>
                var sum := Accumulate(old(Total()), EventsIn(detector.filter, detector.chainId, run.root));
                if Check(fillState.fills, sum)
                then result == Ok(()) && Total() == sum && totalGas == Min(U64_MAX, old(totalGas) + run.gas)
                else
                  && result == (if hash in bundle.reverting then Ok(()) else Err(BundleReverted))
                  && Total() == old(Total()) && totalGas == old(totalGas)
    {
      result := TryTx(detector, hash, run);
    }

    /** The ledger's part of a successful run: take its events, or drop or fail it. */
    method SettleTx(detector: OrderDetector, hash: Hash, gas: U64, ghost e: TxEvents)
      returns (result: Result<(), BundleError>)
      requires fillState != bundleFills
      requires e == EventsOf(detector.chainId, detector.filleds.events, detector.orders.events)
      modifies this`totalGas, this`bundleFills, this`bundleOrders, detector
      ensures fillState != bundleFills && detector.Contents() == NO_EVENTS
      ensures bundleFills == old(bundleFills) || fresh(bundleFills)
      ensures bundleOrders == old(bundleOrders) || fresh(bundleOrders)
      ensures fresh(detector.orders) && fresh(detector.filleds)
      ensures var takes := Check(fillState.fills, Accumulate(old(Total()), e));
              && result == (if takes || hash in bundle.reverting then Ok(()) else Err(BundleReverted))
              && Sofar() == if takes then Totals(Accumulate(old(Total()), e), SatAdd64(old(totalGas), gas))
                            else old(Sofar())
    {
      var txFills, txOrders := detector.TakeAggregates();
      var checked := AbsorbIfCovered(txFills.fills, txOrders.outputs, txOrders.inputs);
      if !checked {
        if hash in bundle.reverting {
          return Ok(());
        }
        return Err(BundleReverted);
      }
      totalGas := SatAdd64(totalGas, gas);
      result := Ok(());
    }

    /** The checks made before anything runs. */
    predicate Admits(blockNumber: U64, timestamp: U64) {
      && bundle.txs != []
      && blockNumber == bundle.blockNumber
      && bundle.IsValidAtTimestamp(timestamp)
    }

    /** One more host transaction on top of the first `k`. */
    method NextHostTx(detector: OrderDetector, run: Execution, ghost sums: seq<Summary>, ghost k: nat)
      returns (ok: bool)
      requires fillState != bundleFills && detector.Contents() == NO_EVENTS
      requires k < |sums| && sums[k] == Summarize(detector.filter, detector.chainId, run)
      requires Totals(Total(), totalHostGas) == HostAfter(sums[..k])
      modifies this`totalHostGas, bundleFills, detector, detector.orders, detector.filleds
      ensures detector.Contents() == NO_EVENTS
      ensures detector.orders == old(detector.orders) || fresh(detector.orders)
      ensures detector.filleds == old(detector.filleds) || fresh(detector.filleds)
      ensures ok <==> sums[k].Succeeded?
      ensures ok ==> Totals(Total(), totalHostGas) == HostAfter(sums[..k + 1])
    {
      ghost var before := Totals(Total(), totalHostGas);
      HostInvariant(fillState.fills, sums[..k]);
      ok := RunHostTx(detector, run, sums[k]);
      if ok {
        HostAfterStep(sums, k, before, Totals(Total(), totalHostGas));
      }
    }

    /** All host transactions, stopping at the first that does not succeed. */
    method RunHostTxs(detector: OrderDetector, runs: seq<Execution>, ghost sums: seq<Summary>)
      returns (ok: bool)
      requires fillState != bundleFills && detector.Contents() == NO_EVENTS
      requires Summaries(detector.filter, detector.chainId, runs, sums)
      requires Total() == TxEvents(map[], map[]) && totalHostGas == 0
      modifies this`totalHostGas, bundleFills, detector, detector.orders, detector.filleds
      ensures ok <==> forall i | 0 <= i < |sums| :: sums[i].Succeeded?
      ensures ok ==> Totals(Total(), totalHostGas) == HostAfter(sums)
    {
      for k := 0 to |runs|
        invariant detector.Contents() == NO_EVENTS
        invariant detector.orders == old(detector.orders) || fresh(detector.orders)
        invariant detector.filleds == old(detector.filleds) || fresh(detector.filleds)
        invariant forall i | 0 <= i < k :: sums[i].Succeeded?
        invariant Totals(Total(), totalHostGas) == HostAfter(sums[..k])
      {
        ok := NextHostTx(detector, runs[k], sums, k);
        if !ok {
          return;
        }
      }
      assert sums[..|sums|] == sums;
      ok := true;
    }

    /** What the summaries say of the executions. */
    lemma {:induction false} RunMeans(hostDetector: OrderDetector, hostRuns: seq<Execution>,
                                      hostSums: seq<Summary>, detector: OrderDetector,
                                      runs: seq<Execution>, sums: seq<Summary>)
      requires |runs| == |bundle.txs|
      requires Summaries(hostDetector.filter, hostDetector.chainId, hostRuns, hostSums)
      requires Summaries(detector.filter, detector.chainId, runs, sums)
      ensures (forall i | 0 <= i < |hostSums| :: hostSums[i].Succeeded?) <==>
              (forall i | 0 <= i < |hostRuns| :: hostRuns[i].Ran? && hostRuns[i].root.ok)
      ensures (forall i | 0 <= i < |hostSums| :: hostSums[i].Succeeded?) ==>
                HostAfter(hostSums).gas == Min(U64_MAX, GasOf(hostRuns))
      ensures var start := Totals(HostAfter(hostSums).events, 0);
              var tried := Tried(fillState.fills, start, sums);
              && (AllTolerated(fillState.fills, start, sums, bundle.txs, bundle.reverting) <==>
                  NoneRefused(runs, tried, bundle.txs, bundle.reverting))
              && After(fillState.fills, start, sums).gas == Min(U64_MAX, GasCounted(runs, tried))
    {
      var start := Totals(HostAfter(hostSums).events, 0);
      if forall i | 0 <= i < |hostSums| :: hostSums[i].Succeeded? {
        HostGasCounts(hostDetector.filter, hostDetector.chainId, hostRuns, hostSums);
      }
      ToleratedAre(fillState.fills, start, detector.filter, detector.chainId, runs, sums, bundle.txs,
                   bundle.reverting);
      GasCounts(fillState.fills, start, detector.filter, detector.chainId, runs, sums);
    }

    /** One more rollup transaction on top of the first `k`. */
    method NextTx(detector: OrderDetector, k: nat, run: Execution, ghost start: Totals,
                  ghost sums: seq<Summary>)
      returns (result: Result<(), BundleError>)
      requires fillState != bundleFills && detector.Contents() == NO_EVENTS
      requires k < |sums| == |bundle.txs| && sums[k] == Summarize(detector.filter, detector.chainId, run)
      requires Sofar() == After(fillState.fills, start, sums[..k])
      requires AllTolerated(fillState.fills, start, sums[..k], bundle.txs[..k], bundle.reverting)
      modifies this`totalGas, this`bundleFills, this`bundleOrders
      modifies detector, detector.orders, detector.filleds
      ensures fillState != bundleFills && detector.Contents() == NO_EVENTS
      ensures bundleFills == old(bundleFills) || fresh(bundleFills)
      ensures bundleOrders == old(bundleOrders) || fresh(bundleOrders)
      ensures detector.orders == old(detector.orders) || fresh(detector.orders)
      ensures detector.filleds == old(detector.filleds) || fresh(detector.filleds)
      ensures result.Ok? ==>
                && Sofar() == After(fillState.fills, start, sums[..k + 1])
                && AllTolerated(fillState.fills, start, sums[..k + 1], bundle.txs[..k + 1], bundle.reverting)
      ensures result.Err? ==>
                && !AllTolerated(fillState.fills, start, sums, bundle.txs, bundle.reverting)
                && IsRefusal(fillState.fills, start, sums, bundle.txs, bundle.reverting, result.error)
    {
      ghost var ctx := fillState.fills;
      result := RunTx(detector, bundle.txs[k], run, sums[k]);
      AfterStep(ctx, start, sums, k);
      AllToleratedStep(ctx, start, sums, bundle.txs, bundle.reverting, k);
      if result.Err? {
        assert RefusedAt(ctx, start, sums, bundle.txs, bundle.reverting, k);
        if AllTolerated(ctx, start, sums, bundle.txs, bundle.reverting) {
          AllToleratedPrefix(ctx, start, sums, bundle.txs, bundle.reverting, k + 1);
        }
      }
    }

    /** All rollup transactions, stopping at the first the bundle does not let revert. */
    method RunTxs(detector: OrderDetector, runs: seq<Execution>, ghost sums: seq<Summary>)
      returns (result: Result<(), BundleError>)
      requires fillState != bundleFills && detector.Contents() == NO_EVENTS
      requires |runs| == |bundle.txs|
      requires Summaries(detector.filter, detector.chainId, runs, sums)
      modifies this`totalGas, this`bundleFills, this`bundleOrders
      modifies detector, detector.orders, detector.filleds
      ensures result.Ok? <==>
              AllTolerated(fillState.fills, old(Sofar()), sums, bundle.txs, bundle.reverting)
      ensures result.Ok? ==> Sofar() == After(fillState.fills, old(Sofar()), sums)
      ensures result.Err? ==>
                IsRefusal(fillState.fills, old(Sofar()), sums, bundle.txs, bundle.reverting, result.error)
    {
      ghost var ctx, start := fillState.fills, Sofar();
      for k := 0 to |runs|
        invariant fillState != bundleFills && detector.Contents() == NO_EVENTS
        invariant fillState.fills == ctx
        invariant bundleFills == old(bundleFills) || fresh(bundleFills)
        invariant bundleOrders == old(bundleOrders) || fresh(bundleOrders)
        invariant detector.orders == old(detector.orders) || fresh(detector.orders)
        invariant detector.filleds == old(detector.filleds) || fresh(detector.filleds)
        invariant Sofar() == After(ctx, start, sums[..k])
        invariant AllTolerated(ctx, start, sums[..k], bundle.txs[..k], bundle.reverting)
      {
        result := NextTx(detector, k, runs[k], start, sums);
        if result.Err? {
          return;
        }
      }
      assert sums[..|sums|] == sums && bundle.txs[..|sums|] == bundle.txs;
      result := Ok(());
    }

    /** Host transactions, then rollup transactions, each stopping at the first that is refused. */
    method RunStages(blockNumber: U64, timestamp: U64,
                     hostDetector: OrderDetector, hostRuns: seq<Execution>,
                     detector: OrderDetector, runs: seq<Execution>,
                     ghost hostSums: seq<Summary>, ghost sums: seq<Summary>)
      returns (result: Result<(), BundleError>)
      requires Total() == TxEvents(map[], map[]) && totalGas == 0 && totalHostGas == 0
      requires fillState != bundleFills
      requires |hostRuns| == |bundle.hostTxs| && |runs| == |bundle.txs|
      requires detector != hostDetector
      requires detector.orders != hostDetector.orders && detector.filleds != hostDetector.filleds
      requires hostDetector.Contents() == NO_EVENTS && detector.Contents() == NO_EVENTS
      requires Summaries(hostDetector.filter, hostDetector.chainId, hostRuns, hostSums)
      requires Summaries(detector.filter, detector.chainId, runs, sums)
      modifies this, bundleFills
      modifies hostDetector, hostDetector.orders, hostDetector.filleds
      modifies detector, detector.orders, detector.filleds
      ensures var start := Totals(HostAfter(hostSums).events, 0);
              && (result.Ok? <==>
                  && Admits(blockNumber, timestamp)
                  && (forall i | 0 <= i < |hostSums| :: hostSums[i].Succeeded?)
                  && AllTolerated(fillState.fills, start, sums, bundle.txs, bundle.reverting))
              && (result.Ok? ==>
                  && Sofar() == After(fillState.fills, start, sums)
                  && totalHostGas == HostAfter(hostSums).gas)
              && (result.Err? ==>
                  if bundle.txs == [] then result.error == BundleEmpty
                  else if blockNumber != bundle.blockNumber then result.error == BlockNumberMismatch
                  else if !bundle.IsValidAtTimestamp(timestamp) then result.error == TimestampOutOfRange
                  else if exists i | 0 <= i < |hostSums| :: !hostSums[i].Succeeded?
                    then result.error == HostSimulation
                  else IsRefusal(fillState.fills, start, sums, bundle.txs, bundle.reverting, result.error))
    {
      if bundle.txs == [] {
        return Err(BundleEmpty);
      }
      if blockNumber != bundle.blockNumber {
        return Err(BlockNumberMismatch);
      }
      if !bundle.IsValidAtTimestamp(timestamp) {
        return Err(TimestampOutOfRange);
      }
      var hostOk := RunHostTxs(hostDetector, hostRuns, hostSums);
      if !hostOk {
        return Err(HostSimulation);
      }
      result := RunTxs(detector, runs, sums);
      assert sums[..|sums|] == sums;
    }

    /**
     The whole bundle.  It succeeds exactly when it is admitted, every host
     transaction succeeds, and every rollup transaction is taken or may revert;
     the totals are then those of the runs taken.
     */
    method RunBundle(blockNumber: U64, timestamp: U64,
                     hostDetector: OrderDetector, hostRuns: seq<Execution>,
                     detector: OrderDetector, runs: seq<Execution>,
                     ghost hostSums: seq<Summary>, ghost sums: seq<Summary>)
      returns (result: Result<(), BundleError>)
      requires Total() == TxEvents(map[], map[]) && totalGas == 0 && totalHostGas == 0
      requires fillState != bundleFills
      requires |hostRuns| == |bundle.hostTxs| && |runs| == |bundle.txs|
      requires detector != hostDetector
      requires detector.orders != hostDetector.orders && detector.filleds != hostDetector.filleds
      requires hostDetector.Contents() == NO_EVENTS && detector.Contents() == NO_EVENTS
      requires Summaries(hostDetector.filter, hostDetector.chainId, hostRuns, hostSums)
      requires Summaries(detector.filter, detector.chainId, runs, sums)
      modifies this, bundleFills
      modifies hostDetector, hostDetector.orders, hostDetector.filleds
      modifies detector, detector.orders, detector.filleds
      ensures var start := Totals(HostAfter(hostSums).events, 0);
              && (result.Ok? <==>
                  && Admits(blockNumber, timestamp)
                  && (forall i | 0 <= i < |hostSums| :: hostSums[i].Succeeded?)
                  && AllTolerated(fillState.fills, start, sums, bundle.txs, bundle.reverting))
              && (result.Ok? ==>
                  && Sofar() == After(fillState.fills, start, sums)
                  && totalHostGas == HostAfter(hostSums).gas)
              && (result.Err? ==>
                  if bundle.txs == [] then result.error == BundleEmpty
                  else if blockNumber != bundle.blockNumber then result.error == BlockNumberMismatch
                  else if !bundle.IsValidAtTimestamp(timestamp) then result.error == TimestampOutOfRange
                  else if exists i | 0 <= i < |hostSums| :: !hostSums[i].Succeeded?
                    then result.error == HostSimulation
                  else IsRefusal(fillState.fills, start, sums, bundle.txs, bundle.reverting, result.error))
      ensures var tried := Tried(fillState.fills, Totals(HostAfter(hostSums).events, 0), sums);
              && (result.Ok? <==>
                  && bundle.txs != [] && blockNumber == bundle.blockNumber
                  && (bundle.minTimestamp.Some? ==> bundle.minTimestamp.value <= timestamp)
                  && (bundle.maxTimestamp.Some? ==> timestamp <= bundle.maxTimestamp.value)
                  && (forall i | 0 <= i < |hostRuns| :: hostRuns[i].Ran? && hostRuns[i].root.ok)
                  && NoneRefused(runs, tried, bundle.txs, bundle.reverting))
              && (result.Ok? ==>
                  && totalGas == Min(U64_MAX, GasCounted(runs, tried))
                  && totalHostGas == Min(U64_MAX, GasOf(hostRuns)))
    {
      RunMeans(hostDetector, hostRuns, hostSums, detector, runs, sums);
      result := RunStages(blockNumber, timestamp, hostDetector, hostRuns, detector, runs, hostSums, sums);
    }
  }
}
