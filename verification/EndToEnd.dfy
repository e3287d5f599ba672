/**
 From the build to the node: the builder's simulations and the block driver run the same
 EVM, and so the driver, given the transactions of a built block, sees what the builder saw.
 */
module EndToEnd {
  import opened Words
  import opened Ledger
  import opened Settlement
  import opened Batch
  import opened Blocks
  import opened Supply
  import opened Detector
  import opened Inspector
  import opened NodeLedgers
  import opened NodeReplay
  import opened Validity
  import opened CacheStores
  import opened Simulation
  import opened BlockBuilding
  import B = BundleDriver
  import D = BlockDriver

  // ---- one EVM ----

  /** A recovered transaction in the queue of the driver. */
  function Queued(tx: SimTx): D.UserTx {
    D.UserTx(Some(tx.signer), false, tx.hash.bytes)
  }

  function Queue(txs: seq<SimTx>): seq<D.UserTx> {
    seq(|txs|, i requires 0 <= i < |txs| => Queued(txs[i]))
  }

  /** The jobs the driver makes of that queue. */
  function JobsOf(txs: seq<SimTx>): (jobs: seq<D.Job>)
    ensures |jobs| == |txs|
  {
    D.Each(D.UserJob, Queue(txs))
  }

  /** What a simulation sees of an execution. */
  function SeenAs(run: D.EvmResult): B.Execution {
    if run.Ran? then B.Ran(run.root, run.gas) else B.EvmFailure
  }

  /**
   The state in which the `i`-th transaction of an item runs: those before it that were
   taken have run on the state the simulation started from.
   */
  ghost function StateIn(c: Config, env: D.Env, stateOf: View -> Balances, v: View, fills: Table,
                         item: SimItem, i: nat): Balances
    requires i <= |TxsOf(item)| == |TriedBy(c, v, fills, item)|
  {
    StateAfter(env, stateOf(v), JobsOf(TxsOf(item))[..i], TriedBy(c, v, fills, item)[..i])
  }

  ghost predicate RunsAlikeAt(c: Config, env: D.Env, stateOf: View -> Balances, v: View, fills: Table,
                              item: SimItem, i: nat)
    requires i < |TxsOf(item)| == |TriedBy(c, v, fills, item)|
  {
    var run := env.evm(StateIn(c, env, stateOf, v, fills, item, i), JobsOf(TxsOf(item))[i]);
    c.evms.run(v, fills, item, i) == SeenAs(run)
  }

  /** The simulation of an item runs the driver's EVM. */
  ghost predicate RunsAlike(c: Config, env: D.Env, stateOf: View -> Balances, v: View, fills: Table,
                            item: SimItem) {
    PartsAreTaken(c, v, fills, item);
    var n := |TxsOf(item)|;
    && (forall i: nat | i < n :: RunsAlikeAt(c, env, stateOf, v, fills, item, i))
    && stateOf(c.evms.next(v, fills, item)) == StateIn(c, env, stateOf, v, fills, item, n)
  }

  /** Builder and node run one EVM and watch the same order contracts. */
  ghost predicate SameEvm(c: Config, env: D.Env, stateOf: View -> Balances) {
    && c.filter == env.filter && c.chainId == env.chainId
    && forall v, fills, item {:trigger c.evms.next(v, fills, item)} ::
         Simulated(c, v, fills, 0, item).Some? ==> RunsAlike(c, env, stateOf, v, fills, item)
  }

  // ---- one item ----

  /** A failed execution emits nothing. */
  lemma {:induction false} FailedEmitsNothing(filter: Filter, chainId: U64, root: Frame)
    requires !root.ok
    ensures EventsIn(filter, chainId, root) == B.NOTHING
  {
    FailedKeepsNothing(root);
  }

  function Shown(s: B.Summary): TxEvents {
    if s.Succeeded? then s.events else B.NOTHING
  }

  lemma {:induction false} TriedLast(ctx: Table, t: B.Totals, before: seq<B.Summary>, s: B.Summary)
    returns (a: Attempt)
    ensures B.Tried(ctx, t, before + [s]) == B.Tried(ctx, t, before) + [a] && a.events == Shown(s)
  {
    assert (before + [s])[..|before|] == before;
    a := B.AttemptOf(ctx, B.After(ctx, t, before), s);
  }

  lemma {:induction false} TriedAt(ctx: Table, t: B.Totals, sums: seq<B.Summary>, k: nat)
    requires k < |sums|
    ensures B.Tried(ctx, t, sums)[k].events == Shown(sums[k])
  {
    var n := |sums| - 1;
    var a := TriedLast(ctx, t, sums[..n], sums[n]);
    assert sums[..n] + [sums[n]] == sums;
    if k < n {
      TriedAt(ctx, t, sums[..n], k);
    }
  }

  lemma {:induction false} NotBroken(ctx: Table, t: B.Totals, sums: seq<B.Summary>, txs: seq<B.Hash>,
                                     reverting: seq<B.Hash>, k: nat)
    requires |sums| == |txs| && k < |sums| && B.AllTolerated(ctx, t, sums, txs, reverting)
    ensures !sums[k].Broken?
  {
    B.AllToleratedPrefix(ctx, t, sums, txs, reverting, k + 1);
    B.AllToleratedStep(ctx, t, sums, txs, reverting, k);
  }

  /** Every transaction of a simulated item ran, and was recorded with the events of its run. */
  lemma {:induction false} RecordedAsRun(c: Config, v: View, fills: Table, item: SimItem, i: nat)
    requires Simulated(c, v, fills, 0, item).Some? && i < |TxsOf(item)| == |TriedBy(c, v, fills, item)|
    ensures var run := c.evms.run(v, fills, item, i);
            run.Ran? && TriedBy(c, v, fills, item)[i].events == EventsIn(c.filter, c.chainId, run.root)
  {
    if item.BundleItem? {
      var sums, t := Sums(c, v, fills, item), B.Totals(B.HostAfter(HostSums(c, v, fills, item)).events, 0);
      var b := ForDriver(item.bundle);
      NotBroken(fills, t, sums, b.txs, b.reverting, i);
      TriedAt(fills, t, sums, i);
      var run := c.evms.run(v, fills, item, i);
      if !run.root.ok {
        FailedEmitsNothing(c.filter, c.chainId, run.root);
      }
    }
  }

  lemma {:induction false} SeenEmits(env: D.Env, b: Balances, tx: SimTx, run: B.Execution)
    requires run.Ran? && run == SeenAs(env.evm(b, D.UserJob(Queued(tx))))
    ensures EmitsAt(env, b, D.UserJob(Queued(tx)), EventsIn(env.filter, env.chainId, run.root))
  {
  }

  lemma {:induction false} AlikeAt(c: Config, env: D.Env, stateOf: View -> Balances, v: View,
                                   fills: Table, item: SimItem, i: nat)
    requires SameEvm(c, env, stateOf) && Simulated(c, v, fills, 0, item).Some?
    requires i < |TxsOf(item)| == |TriedBy(c, v, fills, item)|
    ensures RunsAlikeAt(c, env, stateOf, v, fills, item, i)
  {
    var _ := c.evms.next(v, fills, item);
  }

  /** It emits the same in the state the driver would have reached. */
  lemma {:induction false} EmitsAsRecorded(c: Config, env: D.Env, stateOf: View -> Balances, v: View,
                                           fills: Table, item: SimItem, i: nat)
    requires SameEvm(c, env, stateOf) && Simulated(c, v, fills, 0, item).Some?
    requires i < |TxsOf(item)| == |TriedBy(c, v, fills, item)|
    ensures EmitsAt(env, StateIn(c, env, stateOf, v, fills, item, i), JobsOf(TxsOf(item))[i],
                    TriedBy(c, v, fills, item)[i].events)
  {
    RecordedAsRun(c, v, fills, item, i);
    AlikeAt(c, env, stateOf, v, fills, item, i);
    SeenEmits(env, StateIn(c, env, stateOf, v, fills, item, i), TxsOf(item)[i],
              c.evms.run(v, fills, item, i));
  }

  /** The driver, started where the simulation did, gets through the item and ends where it did. */
  lemma {:induction false} ItemExecutes(c: Config, env: D.Env, stateOf: View -> Balances, v: View,
                                        fills: Table, item: SimItem)
    requires SameEvm(c, env, stateOf) && Simulated(c, v, fills, 0, item).Some?
    ensures |TxsOf(item)| == |TriedBy(c, v, fills, item)|
    ensures Executes(env, stateOf(v), JobsOf(TxsOf(item)), TriedBy(c, v, fills, item))
    ensures StateAfter(env, stateOf(v), JobsOf(TxsOf(item)), TriedBy(c, v, fills, item))
         == stateOf(c.evms.next(v, fills, item))
  {
    PartsAreTaken(c, v, fills, item);
    var jobs, tried, n := JobsOf(TxsOf(item)), TriedBy(c, v, fills, item), |TxsOf(item)|;
    ItemExecutesTo(c, env, stateOf, v, fills, item, n);
    assert jobs[..n] == jobs && tried[..n] == tried;
    assert RunsAlike(c, env, stateOf, v, fills, item);
  }

  lemma {:induction false} ItemExecutesTo(c: Config, env: D.Env, stateOf: View -> Balances, v: View,
                                          fills: Table, item: SimItem, n: nat)
    requires SameEvm(c, env, stateOf) && Simulated(c, v, fills, 0, item).Some?
    requires n <= |TxsOf(item)| == |TriedBy(c, v, fills, item)|
    ensures Executes(env, stateOf(v), JobsOf(TxsOf(item))[..n], TriedBy(c, v, fills, item)[..n])
  {
    if n > 0 {
      ItemExecutesTo(c, env, stateOf, v, fills, item, n - 1);
      EmitsAsRecorded(c, env, stateOf, v, fills, item, n - 1);
      ExecutesMore(env, stateOf(v), JobsOf(TxsOf(item)), TriedBy(c, v, fills, item), n - 1);
    }
  }

  // ---- a whole build ----

  /** The driver gets through everything built so far and is where the builder is. */
  ghost predicate Reached(env: D.Env, stateOf: View -> Balances, b: Balances, s: BuildState) {
    var jobs := JobsOf(ContentsOf(s.record.ingested).txs);
    && |jobs| == |s.record.tried|
    && Executes(env, b, jobs, s.record.tried)
    && StateAfter(env, b, jobs, s.record.tried) == stateOf(s.env.view)
  }

  /** The winner of a round was simulated, and the round moves to its state. */
  lemma {:induction false} PlayMoves(c: Config, limit: nat, pre: EnvState, maxGas: U64, maxHostGas: U64,
                                     p: Play, post: EnvState)
    requires IsPlay(c, limit, pre, maxGas, maxHostGas, p, post) && p.result != RoundResult.Panicked
    ensures !p.result.Selected? ==> post.view == pre.view
    ensures p.result.Selected? ==>
              var item := p.result.simulated.item;
              && Simulated(c, pre.view, pre.fills, 0, item).Some?
              && post.view == c.evms.next(pre.view, pre.fills, item)
  {
    PreflightHolds(pre.store, pre.view, limit, p.read, p.round.active, p.kept);
    if p.result.Selected? {
      RoundLeaves(p.round, p.kept.items, p.order);
    }
  }

  lemma {:induction false} JobsAppend(xs: seq<SimTx>, ys: seq<SimTx>)
    ensures JobsOf(xs + ys) == JobsOf(xs) + JobsOf(ys)
  {
  }

  /** One item more. */
  lemma {:induction false} ReachedGrows(c: Config, env: D.Env, stateOf: View -> Balances, b: Balances,
                                        pre: BuildState, s: SimulatedItem, post: BuildState)
    requires SameEvm(c, env, stateOf) && Reached(env, stateOf, b, pre)
    requires Simulated(c, pre.env.view, pre.env.fills, 0, s.item).Some?
    requires post.env.view == c.evms.next(pre.env.view, pre.env.fills, s.item)
    requires post.record.ingested == pre.record.ingested + [s]
    requires post.record.tried == pre.record.tried + TriedBy(c, pre.env.view, pre.env.fills, s.item)
    ensures Reached(env, stateOf, b, post)
  {
    var txs := ContentsOf(pre.record.ingested).txs;
    ContentsGrow(pre.record.ingested, s);
    JobsAppend(txs, TxsOf(s.item));
    ItemExecutes(c, env, stateOf, pre.env.view, pre.env.fills, s.item);
    var tried := TriedBy(c, pre.env.view, pre.env.fills, s.item);
    StateAppend(env, b, JobsOf(txs), pre.record.tried, JobsOf(TxsOf(s.item)), tried);
    ExecutesAppend(env, b, JobsOf(txs), pre.record.tried, stateOf(pre.env.view), JobsOf(TxsOf(s.item)), tried);
  }

  /** What one round does to the state and to the record. */
  lemma {:induction false} RoundMoves(r: Rules, pre: BuildState, p: Play, post: BuildState)
    requires IsRound(r, pre, p, post) && p.result != RoundResult.Panicked
    ensures !p.result.Selected? ==>
              && post.env.view == pre.env.view && post.record.ingested == pre.record.ingested
              && post.record.tried == pre.record.tried
    ensures p.result.Selected? ==>
              var item := p.result.simulated.item;
              && Simulated(r.config, pre.env.view, pre.env.fills, 0, item).Some?
              && post.env.view == r.config.evms.next(pre.env.view, pre.env.fills, item)
              && post.record.ingested == pre.record.ingested + [p.result.simulated]
              && post.record.tried
                 == pre.record.tried + TriedBy(r.config, pre.env.view, pre.env.fills, item)
  {
    PlayMoves(r.config, r.limit, pre.env, r.maxGas - pre.Gas(), r.maxHostGas - pre.HostGas(), p, post.env);
  }

  lemma {:induction false} RoundReaches(r: Rules, env: D.Env, stateOf: View -> Balances, b: Balances,
                                        pre: BuildState, p: Play, post: BuildState)
    requires SameEvm(r.config, env, stateOf) && Reached(env, stateOf, b, pre)
    requires IsRound(r, pre, p, post) && p.result != RoundResult.Panicked
    ensures Reached(env, stateOf, b, post)
  {
    RoundMoves(r, pre, p, post);
    if p.result.Selected? {
      ReachedGrows(r.config, env, stateOf, b, pre, p.result.simulated, post);
    }
  }

  lemma {:induction false} TurnReaches(r: Rules, env: D.Env, stateOf: View -> Balances, b: Balances,
                                       pre: BuildState, offers: seq<Offer>, loaded: Store, p: Play,
                                       post: BuildState)
    requires SameEvm(r.config, env, stateOf) && Reached(env, stateOf, b, pre)
    requires Turn(r, pre, offers, loaded, p, post)
    ensures Reached(env, stateOf, b, post)
  {
    var mid := pre.(env := pre.env.(store := loaded));
    if loaded.items != map[] {
      RoundReaches(r, env, stateOf, b, mid, p, post);
    }
  }

  lemma {:induction false} BuildReaches(r: Rules, env: D.Env, stateOf: View -> Balances, b: Balances,
                                        pre: BuildState, arrivals: seq<seq<Offer>>, post: BuildState)
    requires SameEvm(r.config, env, stateOf) && Reached(env, stateOf, b, pre)
    requires Builds(r, pre, arrivals, post)
    ensures Reached(env, stateOf, b, post)
    decreases |arrivals|
  {
    if arrivals != [] {
      var mid, loaded, p :| LastTurn(r, pre, arrivals, mid, loaded, p, post);
      BuildReaches(r, env, stateOf, b, pre, arrivals[..|arrivals| - 1], mid);
      TurnReaches(r, env, stateOf, b, mid, arrivals[|arrivals| - 1], loaded, p, post);
    }
  }

  /** Where the node stands before the first transaction of the block. */
  ghost predicate NodeReady(stateOf: View -> Balances, pre: BuildState, post: BuildState, start: D.World) {
    && start.balances == stateOf(pre.env.view)
    && start.context == NodeStart(pre, post)
    && start.pending == NO_EVENTS
  }

  /** A run of the driver that agrees to the end leaves the builder's state and fills. */
  ghost predicate EndsAlike(env: D.Env, stateOf: View -> Balances, jobs: seq<D.Job>, tried: seq<Attempt>,
                            start: D.World, post: BuildState) {
    forall ws: seq<D.World> | IsReplay(env, jobs, ws) && Agrees(tried, ws) && ws[0] == start && |ws| == |jobs| + 1 ::
      && D.Runs(env, start, jobs, ws[|jobs|])
      && ws[|jobs|].balances == stateOf(post.env.view)
      && ws[|jobs|].context == post.env.fills
  }

  /**
   End to end: builder and node run one EVM.  Over all runs of the block driver on the
   transactions of a built block, in every order of visits, exactly the transactions the
   builder took are accepted and their ledger is kept, if and only if those settle one by
   one and every dropped transaction is harmless at its place.  Positive orders whose totals
   fit do settle one by one; without saturation the node ends in the builder's state with
   the builder's fills.
   */
  lemma {:induction false} NodeRunsBuiltBlock(r: Rules, pre: BuildState, arrivals: seq<seq<Offer>>,
                                              post: BuildState, env: D.Env, stateOf: View -> Balances,
                                              start: D.World)
    requires FromScratch(pre) && Builds(r, pre, arrivals, post)
    requires SameEvm(r.config, env, stateOf) && NodeReady(stateOf, pre, post, start)
    ensures var jobs, tried := JobsOf(ContentsOf(post.record.ingested).txs), post.record.tried;
            && |jobs| == |tried|
            && (AlwaysAgrees(env, start, jobs, tried) <==>
                RunSettles(start.context, TakenEvents(tried)) && NoneHarms(start.context, tried))
            && (WellFormed(post.record.parts) && OrdersFit(TakenEvents(tried)) ==>
                RunSettles(start.context, TakenEvents(tried)))
            && (WellFormed(post.record.parts) && CreditsFit(pre.env.fills, BuilderStream(post.record.parts)) ==>
                EndsAlike(env, stateOf, jobs, tried, start, post))
  {
    var jobs, tried := JobsOf(ContentsOf(post.record.ingested).txs), post.record.tried;
    assert Reached(env, stateOf, start.balances, pre);
    BuildReaches(r, env, stateOf, start.balances, pre, arrivals, post);
    AgreesWhen(env, start, jobs, tried);
    if WellFormed(post.record.parts) {
      TakenSettle(r, pre, arrivals, post);
      if CreditsFit(pre.env.fills, BuilderStream(post.record.parts)) {
        AgreeingEnd(env, stateOf, jobs, tried, start, post);
      }
    }
  }

  lemma {:induction false} AgreeingEnd(env: D.Env, stateOf: View -> Balances, jobs: seq<D.Job>,
                                       tried: seq<Attempt>, start: D.World, post: BuildState)
    requires Executes(env, start.balances, jobs, tried) && start.pending == NO_EVENTS
    requires StateAfter(env, start.balances, jobs, tried) == stateOf(post.env.view)
    requires RunSettles(start.context, TakenEvents(tried))
    requires RunSettled(start.context, TakenEvents(tried)) == post.env.fills
    ensures EndsAlike(env, stateOf, jobs, tried, start, post)
  {
    forall ws: seq<D.World> | IsReplay(env, jobs, ws) && Agrees(tried, ws) && ws[0] == start && |ws| == |jobs| + 1
      ensures D.Runs(env, start, jobs, ws[|jobs|])
      ensures ws[|jobs|].balances == stateOf(post.env.view) && ws[|jobs|].context == post.env.fills
    {
      AgreedEnd(env, jobs, tried, ws);
      AgreedState(env, jobs, tried, ws);
      assert jobs[..|jobs|] == jobs && tried[..|jobs|] == tried;
    }
  }
}
