/**
 `SimEnv`: simulating cache items against the current state, and choosing the best
 of those simulated in one round, whatever order their threads finish in.
 */
module Simulation {
  import opened Words
  import opened Ledger
  import opened Settlement
  import opened Batch
  import opened Blocks
  import opened NodeLedgers
  import opened Aggregation
  import opened Orders
  import opened Fills
  import opened Detector
  import opened Inspector
  import opened BundleDriver
  import opened Validity
  import opened CacheStores

  /** The rollup and host state a simulation starts from, as far as accounts can be read. */
  datatype View = View(ru: StateSource, host: StateSource)

  /**
   What the EVMs do with the transactions of an item: any functions at all of the
   state, the fill state and the transaction's place in the item.
   */
  datatype Evms = Evms(run: (View, Table, SimItem, nat) -> Execution,
                       hostRun: (View, Table, SimItem, nat) -> Execution,
                       score: (View, Table, SimItem) -> U256,
                       next: (View, Table, SimItem) -> View)

  datatype Config = Config(filter: Filter, chainId: U64, hostFilter: Filter, hostChainId: U64,
                           blockNumber: U64, timestamp: U64, evms: Evms)

  datatype SimOutcome = SimOutcome(cacheRank: U128, score: U256, gasUsed: U64, hostGasUsed: U64,
                             events: TxEvents, next: View)

  function Hashes(txs: seq<SimTx>): seq<Hash> {
    seq(|txs|, i requires 0 <= i < |txs| => txs[i].hash.bytes)
  }

  function ForDriver(b: RecoveredBundle): Bundle {
    Bundle(Hashes(b.txs), Hashes(b.hostTxs), b.blockNumber, b.minTimestamp, b.maxTimestamp,
           seq(|b.reverting|, i requires 0 <= i < |b.reverting| => b.reverting[i].bytes))
  }

  function Executions(run: (View, Table, SimItem, nat) -> Execution, v: View, fills: Table,
                      item: SimItem, n: nat): seq<Execution> {
    seq(n, i requires 0 <= i < n => run(v, fills, item, i))
  }

  function Summed(filter: Filter, chainId: U64, runs: seq<Execution>): (sums: seq<Summary>)
    ensures Summaries(filter, chainId, runs, sums)
  {
    seq(|runs|, i requires 0 <= i < |runs| => Summarize(filter, chainId, runs[i]))
  }

  function HostSums(c: Config, v: View, fills: Table, item: SimItem): seq<Summary>
    requires item.BundleItem?
  {
    Summed(c.hostFilter, c.hostChainId,
           Executions(c.evms.hostRun, v, fills, item, |item.bundle.hostTxs|))
  }

  function Sums(c: Config, v: View, fills: Table, item: SimItem): seq<Summary>
    requires item.BundleItem?
  {
    Summed(c.filter, c.chainId, Executions(c.evms.run, v, fills, item, |item.bundle.txs|))
  }

  /** The bundle is for this block, its host transactions succeed, the others are tolerated. */
  ghost predicate BundleRuns(c: Config, v: View, fills: Table, item: SimItem)
    requires item.BundleItem?
  {
    var b, hostSums, sums := ForDriver(item.bundle), HostSums(c, v, fills, item), Sums(c, v, fills, item);
    && b.txs != [] && c.blockNumber == b.blockNumber && b.IsValidAtTimestamp(c.timestamp)
    && (forall i | 0 <= i < |hostSums| :: hostSums[i].Succeeded?)
    && AllTolerated(fills, Totals(HostAfter(hostSums).events, 0), sums, b.txs, b.reverting)
  }

  /** What simulating an item yields; `None` for any error. */
  ghost function Simulated(c: Config, v: View, fills: Table, rank: U128, item: SimItem)
    : Option<SimOutcome>
  {
    match item
    case TxItem(_) =>
      (match c.evms.run(v, fills, item, 0)
       case EvmFailure => None
       case Ran(root, gas) =>
         var e := EventsIn(c.filter, c.chainId, root);
         if !Check(fills, e) then None
         else Some(SimOutcome(rank, c.evms.score(v, fills, item), gas, 0, e, c.evms.next(v, fills, item))))
    case BundleItem(_) =>
      if !BundleRuns(c, v, fills, item) then None
      else
        var host := HostAfter(HostSums(c, v, fills, item));
        var total := After(fills, Totals(host.events, 0), Sums(c, v, fills, item));
        Some(SimOutcome(rank, c.evms.score(v, fills, item), total.gas, host.gas, total.events,
                     c.evms.next(v, fills, item)))
  }

  /** The events behind an outcome: host fills, then the transactions taken. */
  ghost function Parts(c: Config, v: View, fills: Table, item: SimItem): Item {
    match item
    case TxItem(_) =>
      (match c.evms.run(v, fills, item, 0)
       case EvmFailure => Item([], [])
       case Ran(root, _) => Item([], [EventsIn(c.filter, c.chainId, root)]))
    case BundleItem(_) =>
      ItemOf(fills, HostSums(c, v, fills, item), 0, Sums(c, v, fills, item))
  }

  /** All rollup transactions of an item, as they enter the block. */
  ghost function TriedBy(c: Config, v: View, fills: Table, item: SimItem): seq<Attempt> {
    match item
    case TxItem(_) =>
      (match c.evms.run(v, fills, item, 0)
       case EvmFailure => [Attempt(NOTHING, false)]
       case Ran(root, _) => [Attempt(EventsIn(c.filter, c.chainId, root), true)])
    case BundleItem(_) =>
      Tried(fills, Totals(HostAfter(HostSums(c, v, fills, item)).events, 0), Sums(c, v, fills, item))
  }

  /** One attempt for each transaction; the parts are those taken. */
  lemma {:induction false} PartsAreTaken(c: Config, v: View, fills: Table, item: SimItem)
    ensures Parts(c, v, fills, item).txs == TakenEvents(TriedBy(c, v, fills, item))
    ensures |TriedBy(c, v, fills, item)| == if item.TxItem? then 1 else |item.bundle.txs|
  {
    if item.TxItem? {
      var tried := TriedBy(c, v, fills, item);
      assert tried[..0] == [];
    }
  }

  lemma {:induction false} CumulativeOne(e: TxEvents)
    requires NoEmptyRows(e.orders)
    ensures Cumulative([e]) == e
  {
    var none: Table := map[];
    AccumulateIsCumulative([], e);
    assert [] + [e] == [e];
    SumUnique(e.fills, none, e.fills);
    EntrySumUnique(e.orders, none, e.orders);
  }

  /** Every outcome is the total of its parts, and they passed every running check. */
  lemma {:induction false} OutcomeIsTotal(c: Config, v: View, fills: Table, rank: U128, item: SimItem)
    requires Simulated(c, v, fills, rank, item).Some?
    ensures var evs := ItemEvents(Parts(c, v, fills, item));
            && Simulated(c, v, fills, rank, item).value.events == Cumulative(evs)
            && PrefixChecks(fills, evs)
  {
    match item
    case TxItem(_) =>
      var e := Simulated(c, v, fills, rank, item).value.events;
      AggregatedAssets(map[], EntriesOf(c.filter.OrdersIn(Kept(c.evms.run(v, fills, item, 0).root))));
      CumulativeOne(e);
      assert ItemEvents(Parts(c, v, fills, item)) == [e];
      assert [e][..0] == [] && PrefixChecks(fills, []);
    case BundleItem(_) =>
      BundleInvariant(fills, HostSums(c, v, fills, item), 0, Sums(c, v, fills, item));
  }

  /** When an item has an outcome, in terms of its executions. */
  lemma {:induction false} SimulatedWhen(c: Config, v: View, fills: Table, rank: U128, item: SimItem)
    ensures Simulated(c, v, fills, rank, item).Some? <==>
            match item
            case TxItem(_) =>
              var run := c.evms.run(v, fills, item, 0);
              run.Ran? && Check(fills, EventsIn(c.filter, c.chainId, run.root))
            case BundleItem(b) =>
              && b.txs != [] && c.blockNumber == b.blockNumber
              && (b.minTimestamp.Some? ==> b.minTimestamp.value <= c.timestamp)
              && (b.maxTimestamp.Some? ==> c.timestamp <= b.maxTimestamp.value)
              && (forall i: nat | i < |b.hostTxs| ::
                    c.evms.hostRun(v, fills, item, i).Ran? && c.evms.hostRun(v, fills, item, i).root.ok)
              && |TriedBy(c, v, fills, item)| == |b.txs|
              && (forall i: nat | i < |b.txs| ::
                    var run := c.evms.run(v, fills, item, i);
                    run.Ran? && ((run.root.ok && TriedBy(c, v, fills, item)[i].taken)
                                 || b.txs[i].hash in b.reverting))
  {
    if item.BundleItem? {
      HostsSucceed(c, v, fills, item);
      NoneIsRefused(c, v, fills, item);
    }
  }

  lemma {:induction false} HostsSucceed(c: Config, v: View, fills: Table, item: SimItem)
    requires item.BundleItem?
    ensures (forall i | 0 <= i < |HostSums(c, v, fills, item)| :: HostSums(c, v, fills, item)[i].Succeeded?)
       <==> (forall i: nat | i < |item.bundle.hostTxs| ::
               c.evms.hostRun(v, fills, item, i).Ran? && c.evms.hostRun(v, fills, item, i).root.ok)
  {
    var sums := HostSums(c, v, fills, item);
    forall i: nat | i < |item.bundle.hostTxs|
      ensures sums[i].Succeeded? <==>
              c.evms.hostRun(v, fills, item, i).Ran? && c.evms.hostRun(v, fills, item, i).root.ok
    {
    }
  }

  lemma {:induction false} MayRevert(b: RecoveredBundle, i: nat)
    requires i < |b.txs|
    ensures ForDriver(b).txs[i] in ForDriver(b).reverting <==> b.txs[i].hash in b.reverting
  {
    var listed := ForDriver(b).reverting;
    if ForDriver(b).txs[i] in listed {
      var k :| 0 <= k < |listed| && listed[k] == b.txs[i].hash.bytes;
      assert b.reverting[k] == b.txs[i].hash;
    }
    if b.txs[i].hash in b.reverting {
      var k :| 0 <= k < |b.reverting| && b.reverting[k] == b.txs[i].hash;
      assert listed[k] == b.txs[i].hash.bytes;
    }
  }

  lemma {:induction false} NoneIsRefused(c: Config, v: View, fills: Table, item: SimItem)
    requires item.BundleItem?
    ensures |TriedBy(c, v, fills, item)| == |item.bundle.txs|
    ensures var b := ForDriver(item.bundle);
            AllTolerated(fills, Totals(HostAfter(HostSums(c, v, fills, item)).events, 0),
                         Sums(c, v, fills, item), b.txs, b.reverting) <==>
            forall i: nat | i < |item.bundle.txs| ::
              var run := c.evms.run(v, fills, item, i);
              run.Ran? && ((run.root.ok && TriedBy(c, v, fills, item)[i].taken)
                           || item.bundle.txs[i].hash in item.bundle.reverting)
  {
    var b, n := ForDriver(item.bundle), |item.bundle.txs|;
    var runs, tried := Executions(c.evms.run, v, fills, item, n), TriedBy(c, v, fills, item);
    ToleratedAre(fills, Totals(HostAfter(HostSums(c, v, fills, item)).events, 0), c.filter, c.chainId,
                 runs, Sums(c, v, fills, item), b.txs, b.reverting);
    forall i: nat | i < n
      ensures b.txs[i] in b.reverting <==> item.bundle.txs[i].hash in item.bundle.reverting
    {
      MayRevert(item.bundle, i);
    }
    if forall i: nat | i < n ::
         var run := c.evms.run(v, fills, item, i);
         run.Ran? && ((run.root.ok && tried[i].taken) || item.bundle.txs[i].hash in item.bundle.reverting)
    {
      assert NoneRefused(runs, tried, b.txs, b.reverting);
    }
    if NoneRefused(runs, tried, b.txs, b.reverting) {
      forall i: nat | i < n
        ensures var run := c.evms.run(v, fills, item, i);
                run.Ran? && ((run.root.ok && tried[i].taken) || item.bundle.txs[i].hash in item.bundle.reverting)
      {
        assert runs[i].Ran?;
      }
    }
  }

  /** What an outcome says: the gas of the runs taken or failed, and the score and state given. */
  lemma {:induction false} OutcomeCounts(c: Config, v: View, fills: Table, rank: U128, item: SimItem)
    requires Simulated(c, v, fills, rank, item).Some?
    ensures var o := Simulated(c, v, fills, rank, item).value;
            && o.cacheRank == rank && o.score == c.evms.score(v, fills, item)
            && o.next == c.evms.next(v, fills, item)
    ensures item.TxItem? ==>
              var o, run := Simulated(c, v, fills, rank, item).value, c.evms.run(v, fills, item, 0);
              run.Ran? && o.gasUsed == run.gas && o.hostGasUsed == 0
    ensures item.BundleItem? ==>
              var o, n := Simulated(c, v, fills, rank, item).value, |item.bundle.txs|;
              && |TriedBy(c, v, fills, item)| == n
              && o.gasUsed == Min(U64_MAX, GasCounted(Executions(c.evms.run, v, fills, item, n),
                                                      TriedBy(c, v, fills, item)))
              && o.hostGasUsed == Min(U64_MAX, GasOf(Executions(c.evms.hostRun, v, fills, item,
                                                                |item.bundle.hostTxs|)))
  {
    if item.BundleItem? {
      var hosts := HostSums(c, v, fills, item);
      HostGasCounts(c.hostFilter, c.hostChainId,
                    Executions(c.evms.hostRun, v, fills, item, |item.bundle.hostTxs|), hosts);
      GasCounts(fills, Totals(HostAfter(hosts).events, 0), c.filter, c.chainId,
                Executions(c.evms.run, v, fills, item, |item.bundle.txs|), Sums(c, v, fills, item));
    }
  }

  /**
   `simulate`: the recheck of a bundle's totals against the fill state is redundant,
   as its comment says; it never fails.
   */
  method Simulate(c: Config, v: View, fillState: AggregateFills, rank: U128, item: SimItem)
    returns (outcome: Option<SimOutcome>)
    ensures outcome == Simulated(c, v, fillState.fills, rank, item)
  {
    match item
    case TxItem(_) => outcome := SimulateTx(c, v, fillState, rank, item);
    case BundleItem(_) => outcome := SimulateBundle(c, v, fillState, rank, item);
  }

  method SimulateTx(c: Config, v: View, fillState: AggregateFills, rank: U128, item: SimItem)
    returns (outcome: Option<SimOutcome>)
    requires item.TxItem?
    ensures outcome == Simulated(c, v, fillState.fills, rank, item)
  {
    var run := c.evms.run(v, fillState.fills, item, 0);
    if run.EvmFailure? {
      return None;
    }
    var detector := new OrderDetector(c.filter, c.chainId);
    detector.Run(run.root);
    ExtendedFromNone(c.filter, Kept(run.root));
    var fills, orders := detector.TakeAggregates();
    var checked := fillState.CheckRuTxEvents(fills.fills, orders.outputs);
    if checked != Accepted {
      return None;
    }
    outcome := Some(SimOutcome(rank, c.evms.score(v, fillState.fills, item), run.gas, 0,
                            TxEvents(fills.fills, orders.outputs),
                            c.evms.next(v, fillState.fills, item)));
  }

  method SimulateBundle(c: Config, v: View, fillState: AggregateFills, rank: U128, item: SimItem)
    returns (outcome: Option<SimOutcome>)
    requires item.BundleItem?
    ensures outcome == Simulated(c, v, fillState.fills, rank, item)
  {
    var bundle, fills := item.bundle, fillState.fills;
    var driver := new Driver(ForDriver(bundle), fillState);
    var hostDetector := new OrderDetector(c.hostFilter, c.hostChainId);
    var detector := new OrderDetector(c.filter, c.chainId);
    ghost var hostSums, sums := HostSums(c, v, fills, item), Sums(c, v, fills, item);
    var result := driver.RunBundle(c.blockNumber, c.timestamp, hostDetector,
                                   Executions(c.evms.hostRun, v, fills, item, |bundle.hostTxs|),
                                   detector,
                                   Executions(c.evms.run, v, fills, item, |bundle.txs|),
                                   hostSums, sums);
    if result.Err? {
      return None;
    }
    SimulatedBundleSettles(fills, hostSums, sums);
    var checked := fillState.CheckRuTxEvents(driver.bundleFills.fills, driver.bundleOrders.outputs);
    if checked != Accepted {
      assert false;
    }
    outcome := Some(SimOutcome(rank, c.evms.score(v, fills, item), driver.totalGas, driver.totalHostGas,
                            TxEvents(driver.bundleFills.fills, driver.bundleOrders.outputs),
                            c.evms.next(v, fills, item)));
  }

  // ---- one round of threads ----

  /** The next candidate to arrive replaces the best so far only if it scores more. */
  function Better(best: Option<SimOutcome>, candidate: Option<SimOutcome>): Option<SimOutcome> {
    var bestScore := if best.Some? then best.value.score else 0;
    if candidate.Some? && candidate.value.score > bestScore then candidate else best
  }

  /** What a round works with; nothing of it changes while the round lasts. */
  datatype Round = Round(config: Config, view: View, fills: Table, active: Candidates, maxGas: U64,
                         maxHostGas: U64)
  {
    /** What simulating the `i`-th item yields. */
    ghost function Outcome(i: nat): Option<SimOutcome>
      requires i < |active|
    {
      Simulated(config, view, fills, active[i].rank, active[i].item)
    }

    /** That outcome, if it is a candidate: it scores and fits both budgets. */
    ghost function Candidate(i: nat): Option<SimOutcome>
      requires i < |active|
    {
      var o := Outcome(i);
      if o.Some? && o.value.score != 0 && o.value.hostGasUsed <= maxHostGas
         && o.value.gasUsed <= maxGas
      then o else None
    }

    predicate Indices(order: seq<nat>) {
      forall i | i in order :: i < |active|
    }

    /** Every thread has finished. */
    ghost predicate Complete(order: seq<nat>) {
      Indices(order) && forall i: nat | i < |active| :: i in order
    }

    /** The best once the threads have finished in this order. */
    ghost function Best(order: seq<nat>): Option<SimOutcome>
      requires Indices(order)
    {
      if order == [] then None
      else
        var n := |order| - 1;
        assert order[n] in order && forall i | i in order[..n] :: i in order;
        Better(Best(order[..n]), Candidate(order[n]))
    }

    /** The cache once the threads have finished in this order. */
    ghost function Left(items: Items, order: seq<nat>): Items
      requires Indices(order)
    {
      if order == [] then items
      else
        var n := |order| - 1;
        assert order[n] in order && forall i | i in order[..n] :: i in order;
        var left := Left(items, order[..n]);
        if Candidate(order[n]).Some? then left else left - {active[order[n]].rank}
    }
  }

  lemma {:induction false} BestAmong(round: Round, order: seq<nat>)
    requires round.Indices(order)
    ensures round.Best(order) == None <==> forall i | i in order :: round.Candidate(i) == None
    ensures round.Best(order).Some? ==>
              && (exists i | i in order :: round.Candidate(i) == round.Best(order))
              && (forall i | i in order && round.Candidate(i).Some? ::
                    round.Candidate(i).value.score <= round.Best(order).value.score)
  {
    if order != [] {
      var n := |order| - 1;
      var before, last := order[..n], order[n];
      assert order == before + [last];
      assert last in order && forall i | i in before :: i in order;
      BestAmong(round, before);
      assert round.Candidate(last).Some? ==> round.Candidate(last).value.score > 0;
    }
  }

  /**
   Best choice, for every order in which the threads may finish: the winner is a
   candidate no candidate outscores, and there is none only if there was no candidate.
   */
  lemma {:induction false} BestOfRound(round: Round, order: seq<nat>)
    requires round.Complete(order)
    ensures round.Best(order) == None <==>
            forall i: nat | i < |round.active| :: round.Candidate(i) == None
    ensures round.Best(order).Some? ==>
              && (exists i: nat | i < |round.active| :: round.Candidate(i) == round.Best(order))
              && (forall i: nat | i < |round.active| && round.Candidate(i).Some? ::
                    round.Candidate(i).value.score <= round.Best(order).value.score)
  {
    BestAmong(round, order);
  }

  /** A thread that finishes later replaces the winner exactly when its candidate scores more. */
  lemma {:induction false} LaterReplaces(round: Round, before: seq<nat>, i: nat)
    requires round.Indices(before) && i < |round.active| && round.Best(before).Some?
    ensures round.Indices(before + [i])
    ensures var o := round.Candidate(i);
            round.Best(before + [i])
            == if o.Some? && round.Best(before).value.score < o.value.score then o else round.Best(before)
  {
    assert (before + [i])[..|before|] == before;
  }

  /** The order matters only among candidates of the same score. */
  lemma {:induction false} OrderHardlyMatters(round: Round, xs: seq<nat>, ys: seq<nat>)
    requires round.Complete(xs) && round.Complete(ys)
    ensures round.Best(xs).None? <==> round.Best(ys).None?
    ensures round.Best(xs).Some? ==> round.Best(xs).value.score == round.Best(ys).value.score
  {
    BestOfRound(round, xs);
    BestOfRound(round, ys);
  }

  lemma {:induction false} LeftAmong(round: Round, items: Items, order: seq<nat>, r: U128)
    requires round.Indices(order)
    ensures r in round.Left(items, order) <==>
            r in items && !exists i | i in order ::
                             round.active[i].rank == r && round.Candidate(i) == None
    ensures r in round.Left(items, order) ==> round.Left(items, order)[r] == items[r]
  {
    if order != [] {
      var n := |order| - 1;
      assert order == order[..n] + [order[n]];
      assert order[n] in order && forall i | i in order[..n] :: i in order;
      LeftAmong(round, items, order[..n], r);
    }
  }

  /** The items under simulation are the cache's own. */
  ghost predicate Holds(items: Items, active: Candidates) {
    forall i: nat | i < |active| ::
      active[i].rank in items && items[active[i].rank] == active[i].item
  }

  /** A winner is still in the cache when its round ends; without one, every item has left. */
  lemma {:induction false} RoundLeaves(round: Round, items: Items, order: seq<nat>)
    requires round.Complete(order) && Holds(items, round.active)
    ensures round.Left(items, order).Keys <= items.Keys
    ensures round.Best(order) == None ==>
              forall i: nat | i < |round.active| :: round.active[i].rank !in round.Left(items, order)
    ensures round.Best(order).Some? ==>
              && round.Best(order).value.cacheRank in round.Left(items, order)
              && (var r := round.Best(order).value.cacheRank;
                  round.Best(order) == Simulated(round.config, round.view, round.fills, r, items[r])
                  && round.Left(items, order)[r] == items[r])
              && round.Best(order).value.gasUsed <= round.maxGas
              && round.Best(order).value.hostGasUsed <= round.maxHostGas
  {
    BestOfRound(round, order);
    forall r | r in round.Left(items, order)
      ensures r in items
    {
      LeftAmong(round, items, order, r);
    }
    if round.Best(order) == None {
      forall i: nat | i < |round.active|
        ensures round.active[i].rank !in round.Left(items, order)
      {
        LeftAmong(round, items, order, round.active[i].rank);
      }
    } else {
      var i: nat :| i < |round.active| && round.Candidate(i) == round.Best(order);
      LeftAmong(round, items, order, round.active[i].rank);
    }
  }

  /**
   The choice of a round, whatever the order of its threads: no winner exactly when no
   outcome scores and fits both budgets, an exact fit included; otherwise the winner is
   such an outcome and no other such outcome scores more.
   */
  lemma {:induction false} RoundChooses(round: Round, order: seq<nat>)
    requires round.Complete(order)
    ensures round.Best(order) == None <==>
            forall i: nat | i < |round.active| ::
              var o := round.Outcome(i);
              o.Some? ==>
                o.value.score == 0 || o.value.gasUsed > round.maxGas || o.value.hostGasUsed > round.maxHostGas
    ensures round.Best(order).Some? ==>
              && round.Best(order).value.score > 0
              && round.Best(order).value.gasUsed <= round.maxGas
              && round.Best(order).value.hostGasUsed <= round.maxHostGas
              && (exists i: nat | i < |round.active| :: round.Best(order) == round.Outcome(i))
              && (forall i: nat | i < |round.active| ::
                    var o := round.Outcome(i);
                    o.Some? && o.value.gasUsed <= round.maxGas && o.value.hostGasUsed <= round.maxHostGas ==>
                      o.value.score <= round.Best(order).value.score)
  {
    BestOfRound(round, order);
    forall i: nat | i < |round.active|
      ensures var o := round.Outcome(i);
              round.Candidate(i) == None <==>
              (o.Some? ==>
                 o.value.score == 0 || o.value.gasUsed > round.maxGas || o.value.hostGasUsed > round.maxHostGas)
    {
    }
  }

  /** After a round exactly those of its items are left whose outcome scores and fits. */
  lemma {:induction false} RoundKeeps(round: Round, items: Items, order: seq<nat>)
    requires round.Complete(order) && Holds(items, round.active)
    ensures forall i: nat | i < |round.active| ::
              var o := round.Outcome(i);
              round.active[i].rank in round.Left(items, order) <==>
              o.Some? && o.value.score > 0 && o.value.gasUsed <= round.maxGas
              && o.value.hostGasUsed <= round.maxHostGas
  {
    forall i: nat | i < |round.active|
      ensures round.active[i].rank in round.Left(items, order) <==> round.Candidate(i).Some?
    {
      LeftAmong(round, items, order, round.active[i].rank);
    }
  }

  /** One thread: a candidate is sent, anything else is removed from the cache. */
  method SimTask(fillState: AggregateFills, cache: CacheStore, round: Round, i: nat)
    returns (candidate: Option<SimOutcome>)
    requires round.fills == fillState.fills
    requires cache.Valid() && i < |round.active|
    modifies cache`items, cache`seen
    ensures cache.Valid() && candidate == round.Candidate(i)
    ensures cache.items ==
            if candidate.Some? then old(cache.items) else old(cache.items) - {round.active[i].rank}
    ensures var o := round.Outcome(i);
            if o.Some? && o.value.score > 0 && o.value.gasUsed <= round.maxGas
               && o.value.hostGasUsed <= round.maxHostGas
            then candidate == o && cache.items == old(cache.items)
            else candidate == None && cache.items == old(cache.items) - {round.active[i].rank}
  {
    var Ranked(rank, item) := round.active[i];
    var outcome := Simulate(round.config, round.view, fillState, rank, item);
    if outcome.Some? && outcome.value.score != 0 {
      if outcome.value.hostGasUsed <= round.maxHostGas {
        if outcome.value.gasUsed <= round.maxGas {
          return outcome;
        }
      }
    }
    var _ := cache.Remove(rank);
    assert old(cache.items) - {rank} == cache.items;
    candidate := None;
  }

  /** The indices below `n`. */
  function Below(n: nat): (s: set<nat>)
    ensures forall i: nat {:trigger i in s} :: i in s <==> i < n
  {
    if n == 0 then {} else Below(n - 1) + {n - 1}
  }

  /**
   `sim_round`: one thread per item.  Threads finish in any order; each time, any
   one of those still running may be the next.
   */
  method SimRound(fillState: AggregateFills, cache: CacheStore, round: Round)
    returns (best: Option<SimOutcome>, ghost order: seq<nat>)
    requires round.fills == fillState.fills && cache.Valid()
    modifies cache`items, cache`seen
    ensures cache.Valid() && round.Complete(order)
    ensures best == round.Best(order)
    ensures cache.items == round.Left(old(cache.items), order)
    ensures best == None <==>
            forall i: nat | i < |round.active| ::
              var o := round.Outcome(i);
              o.Some? ==>
                o.value.score == 0 || o.value.gasUsed > round.maxGas || o.value.hostGasUsed > round.maxHostGas
    ensures best.Some? ==>
              && best.value.score > 0
              && best.value.gasUsed <= round.maxGas && best.value.hostGasUsed <= round.maxHostGas
              && (exists i: nat | i < |round.active| :: best == round.Outcome(i))
              && (forall i: nat | i < |round.active| ::
                    var o := round.Outcome(i);
                    o.Some? && o.value.gasUsed <= round.maxGas && o.value.hostGasUsed <= round.maxHostGas ==>
                      o.value.score <= best.value.score)
    ensures Holds(old(cache.items), round.active) ==>
              forall i: nat | i < |round.active| ::
                var o := round.Outcome(i);
                round.active[i].rank in cache.items <==>
                o.Some? && o.value.score > 0 && o.value.gasUsed <= round.maxGas
                && o.value.hostGasUsed <= round.maxHostGas
  {
    best, order := RunThreads(fillState, cache, round);
    RoundChooses(round, order);
    if Holds(old(cache.items), round.active) {
      RoundKeeps(round, old(cache.items), order);
    }
  }

  /** Lets the threads finish one after the other. */
  method RunThreads(fillState: AggregateFills, cache: CacheStore, round: Round)
    returns (best: Option<SimOutcome>, ghost order: seq<nat>)
    requires round.fills == fillState.fills && cache.Valid()
    modifies cache`items, cache`seen
    ensures cache.Valid() && round.Complete(order)
    ensures best == round.Best(order)
    ensures cache.items == round.Left(old(cache.items), order)
  {
    best, order := None, [];
    var todo := Below(|round.active|);
    while todo != {}
      invariant cache.Valid()
      invariant forall i: nat :: i < |round.active| <==> i in todo || i in order
      invariant best == round.Best(order)
      invariant cache.items == round.Left(old(cache.items), order)
      decreases |todo|
    {
      var i :| i in todo;
      var candidate := SimTask(fillState, cache, round, i);
      best := Better(best, candidate);
      todo := todo - {i};
      assert (order + [i])[..|order|] == order;
      order := order + [i];
    }
  }
}
