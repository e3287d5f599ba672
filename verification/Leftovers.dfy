/**
 Events that stay in the detector: a transact rejected for lack of balance and every
 mint leave theirs, and the next job that is judged answers for them.
 */
module Leftovers {
  import opened Words
  import opened Ledger
  import opened Settlement
  import opened Aggregation
  import opened Orders
  import opened Detector
  import opened Inspector
  import opened Supply
  import opened Native
  import opened BlockDriver

  /** The job runs and its events go to the ledger. */
  predicate IsJudged(env: Env, w: World, job: Job) {
    var run := env.evm(w.balances, job);
    && run.Ran?
    && match job
       case User(tx) => !tx.isBlob && tx.sender.Some?
       case System(t) => UnusedFee(env.baseFee, t.gasLimit, run.gas) <= BalanceOf(run.balances, t.sender)
       case TokenMint(_) => false
       case NativeMint(_, _) => false
  }

  /** The job runs and its events stay where they are. */
  predicate LeavesEvents(env: Env, w: World, job: Job) {
    (job.System? || job.TokenMint?) && env.evm(w.balances, job).Ran? && !IsJudged(env, w, job)
  }

  function LogsOf(env: Env, w: World, job: Job): seq<Log>
    requires env.evm(w.balances, job).Ran?
  {
    Kept(env.evm(w.balances, job).root)
  }

  /** Some of its logs are fills or orders that the detector keeps. */
  predicate Keeps(env: Env, logs: seq<Log>) {
    env.filter.FillsIn(logs) != [] || env.filter.OrdersIn(logs) != []
  }

  // ---- one step ----

  /** What absorbing `t` adds to `o`: no key and, unless at the limit already, no amount. */
  ghost predicate AddsNothing(t: Table, o: Table) {
    && Present(o, t)
    && forall a, r :: Filled(t, a, r) == 0 || Filled(o, a, r) == U256_MAX
  }

  lemma {:induction false} AbsorbedSame(t: Table, o: Table)
    ensures Absorbed(t, o) == o <==> AddsNothing(t, o)
  {
    var u := Absorbed(t, o);
    if u == o {
      forall a, r
        ensures Filled(t, a, r) == 0 || Filled(o, a, r) == U256_MAX
      {
        assert Filled(u, a, r) == SatAdd(Filled(t, a, r), Filled(o, a, r));
      }
      assert forall a | a in t :: a in u;
      assert forall a, r | Has(t, a, r) :: Has(u, a, r);
    }
    if AddsNothing(t, o) {
      forall a, r
        ensures Filled(u, a, r) == Filled(o, a, r)
      {
        assert Filled(t, a, r) == 0 || Filled(o, a, r) == U256_MAX;
      }
      TableExt(u, o);
    }
  }

  ghost function Both(left: TxEvents, own: TxEvents): TxEvents {
    TxEvents(Absorbed(left.fills, own.fills), Absorbed(left.orders, own.orders))
  }

  /** Taken together, pending and own events are the sums of both. */
  lemma {:induction false} TakenTogether(env: Env, pending: Lists, logs: seq<Log>, own: TxEvents)
    requires own == EventsOf(env.chainId, env.filter.FillsIn(logs), env.filter.OrdersIn(logs))
    ensures Taken(env, Extended(env.filter, pending, logs)) == Both(Taken(env, pending), own)
  {
    LeftoverJoinsNext(env.chainId, pending.fills, pending.orders,
                      env.filter.FillsIn(logs), env.filter.OrdersIn(logs));
  }

  lemma {:induction false} BothIsOwn(left: TxEvents, own: TxEvents)
    ensures Both(left, own) == own <==>
            AddsNothing(left.fills, own.fills) && AddsNothing(left.orders, own.orders)
    ensures left == TxEvents(map[], map[]) ==> Both(left, own) == own
  {
    AbsorbedSame(left.fills, own.fills);
    AbsorbedSame(left.orders, own.orders);
  }

  /**
   Every transact that is judged answers for the pending events as well: the ledger sees
   the sums of both.  These are its own events exactly when the pending ones add nothing,
   in particular when nothing is pending.
   */
  lemma {:induction false} TransactJudgedOn(env: Env, pre: World, t: Transact, post: World)
    requires SystemStep(env, pre, t, post) && IsJudged(env, pre, System(t))
    ensures var run := env.evm(pre.balances, System(t));
            var left, own := Taken(env, pre.pending), EventsIn(env.filter, env.chainId, run.root);
            var debit := UnusedFee(env.baseFee, t.gasLimit, run.gas);
            && Judged(pre, post, System(t), t.gasLimit, Charged(run.balances, t.sender, debit),
                      Both(left, own))
            && (Both(left, own) == own <==>
                AddsNothing(left.fills, own.fills) && AddsNothing(left.orders, own.orders))
            && (pre.pending == NO_EVENTS ==> Both(left, own) == own)
  {
    var run := env.evm(pre.balances, System(t));
    var own := EventsIn(env.filter, env.chainId, run.root);
    TakenTogether(env, pre.pending, Kept(run.root), own);
    BothIsOwn(Taken(env, pre.pending), own);
  }

  // ---- whole runs ----

  /** The worlds a run goes through. */
  ghost predicate IsTrace(env: Env, jobs: seq<Job>, ws: seq<World>) {
    && |ws| == |jobs| + 1
    && forall i | 0 <= i < |jobs| :: Steps(env, ws[i], jobs[i], ws[i + 1])
  }

  lemma {:induction false} TraceGrows(env: Env, jobs: seq<Job>, ws: seq<World>, job: Job, w: World)
    requires IsTrace(env, jobs, ws) && Steps(env, ws[|jobs|], job, w)
    ensures IsTrace(env, jobs + [job], ws + [w])
  {
    var more, later := jobs + [job], ws + [w];
    forall i | 0 <= i < |more|
      ensures Steps(env, later[i], more[i], later[i + 1])
    {
      if i < |jobs| {
        assert Steps(env, ws[i], jobs[i], ws[i + 1]);
      }
    }
  }

  lemma {:induction false} RunHasTrace(env: Env, start: World, jobs: seq<Job>, w: World)
    returns (ws: seq<World>)
    requires Runs(env, start, jobs, w)
    ensures IsTrace(env, jobs, ws) && ws[0] == start && ws[|jobs|] == w
    decreases |jobs|
  {
    if jobs == [] {
      ws := [start];
    } else {
      var n := |jobs| - 1;
      var mid := LastRun(env, start, jobs, w);
      var before := RunHasTrace(env, start, jobs[..n], mid);
      TraceGrows(env, jobs[..n], before, jobs[n], w);
      assert jobs[..n] + [jobs[n]] == jobs;
      ws := before + [w];
    }
  }

  lemma {:induction false} TraceIsRun(env: Env, jobs: seq<Job>, ws: seq<World>)
    requires IsTrace(env, jobs, ws)
    ensures Runs(env, ws[0], jobs, ws[|jobs|])
    decreases |jobs|
  {
    if jobs != [] {
      var n := |jobs| - 1;
      forall i | 0 <= i < n
        ensures Steps(env, ws[..n + 1][i], jobs[..n][i], ws[..n + 1][i + 1])
      {
        assert Steps(env, ws[i], jobs[i], ws[i + 1]);
      }
      TraceIsRun(env, jobs[..n], ws[..n + 1]);
      assert Steps(env, ws[n], jobs[n], ws[n + 1]);
      RunsOneMore(env, ws[0], jobs[..n], ws[n], jobs[n], ws[n + 1]);
      assert jobs[..n] + [jobs[n]] == jobs;
    }
  }

  /** The logs pending before the `n`-th job. */
  function PendingLogs(env: Env, jobs: seq<Job>, ws: seq<World>, n: nat): seq<Log>
    requires n <= |jobs| < |ws|
  {
    if n == 0 || IsJudged(env, ws[n - 1], jobs[n - 1]) then []
    else if LeavesEvents(env, ws[n - 1], jobs[n - 1]) then
      PendingLogs(env, jobs, ws, n - 1) + LogsOf(env, ws[n - 1], jobs[n - 1])
    else PendingLogs(env, jobs, ws, n - 1)
  }

  lemma {:induction false} StepPending(env: Env, pre: World, job: Job, post: World)
    requires Steps(env, pre, job, post)
    ensures post.pending ==
            if IsJudged(env, pre, job) then NO_EVENTS
            else if LeavesEvents(env, pre, job) then Extended(env.filter, pre.pending, LogsOf(env, pre, job))
            else pre.pending
  {
  }

  lemma {:induction false} ExtendedTwice(filter: Filter, xs: seq<Log>, ys: seq<Log>)
    ensures Extended(filter, Extended(filter, NO_EVENTS, xs), ys) == Extended(filter, NO_EVENTS, xs + ys)
  {
    filter.Appended(xs, ys);
  }

  /** What is pending at any time: the logs left behind since the last job that was judged. */
  lemma {:induction false} TracePending(env: Env, jobs: seq<Job>, ws: seq<World>, n: nat)
    requires IsTrace(env, jobs, ws) && ws[0].pending == NO_EVENTS && n <= |jobs|
    ensures ws[n].pending == Extended(env.filter, NO_EVENTS, PendingLogs(env, jobs, ws, n))
  {
    ExtendedFromNone(env.filter, []);
    if n > 0 {
      TracePending(env, jobs, ws, n - 1);
      assert Steps(env, ws[n - 1], jobs[n - 1], ws[n]);
      StepPending(env, ws[n - 1], jobs[n - 1], ws[n]);
      if LeavesEvents(env, ws[n - 1], jobs[n - 1]) {
        ExtendedTwice(env.filter, PendingLogs(env, jobs, ws, n - 1), LogsOf(env, ws[n - 1], jobs[n - 1]));
      }
    }
  }

  /** The `i`-th job leaves events behind that the detector keeps. */
  predicate LeavesSome(env: Env, jobs: seq<Job>, ws: seq<World>, i: nat)
    requires i < |jobs| < |ws|
  {
    LeavesEvents(env, ws[i], jobs[i]) && Keeps(env, LogsOf(env, ws[i], jobs[i]))
  }

  predicate JudgedAt(env: Env, jobs: seq<Job>, ws: seq<World>, j: nat)
    requires j < |jobs| < |ws|
  {
    IsJudged(env, ws[j], jobs[j])
  }

  /** Something is pending only if some job left it. */
  lemma {:induction false} PendingIsLeft(env: Env, jobs: seq<Job>, ws: seq<World>, n: nat)
    requires n <= |jobs| < |ws| && Keeps(env, PendingLogs(env, jobs, ws, n))
    ensures exists i: nat | i < n :: LeavesSome(env, jobs, ws, i)
  {
    if LeavesEvents(env, ws[n - 1], jobs[n - 1]) {
      env.filter.Appended(PendingLogs(env, jobs, ws, n - 1), LogsOf(env, ws[n - 1], jobs[n - 1]));
      if !LeavesSome(env, jobs, ws, n - 1) {
        PendingIsLeft(env, jobs, ws, n - 1);
      }
    } else {
      PendingIsLeft(env, jobs, ws, n - 1);
    }
  }

  /** What a job left is still pending, or some job answered for it. */
  lemma {:induction false} LeftIsAnswered(env: Env, jobs: seq<Job>, ws: seq<World>, i: nat, n: nat)
    requires i < n <= |jobs| < |ws| && LeavesSome(env, jobs, ws, i)
    ensures || Keeps(env, PendingLogs(env, jobs, ws, n))
            || exists k: nat | k < n :: JudgedAt(env, jobs, ws, k) && Keeps(env, PendingLogs(env, jobs, ws, k))
    decreases n
  {
    if i < n - 1 {
      LeftIsAnswered(env, jobs, ws, i, n - 1);
    }
    if LeavesEvents(env, ws[n - 1], jobs[n - 1]) {
      env.filter.Appended(PendingLogs(env, jobs, ws, n - 1), LogsOf(env, ws[n - 1], jobs[n - 1]));
    }
    assert JudgedAt(env, jobs, ws, n - 1) <==> IsJudged(env, ws[n - 1], jobs[n - 1]);
  }

  lemma {:induction false} PendingWhen(env: Env, jobs: seq<Job>, ws: seq<World>, n: nat)
    requires IsTrace(env, jobs, ws) && ws[0].pending == NO_EVENTS && n <= |jobs|
    ensures ws[n].pending != NO_EVENTS <==> Keeps(env, PendingLogs(env, jobs, ws, n))
  {
    TracePending(env, jobs, ws, n);
    ExtendedFromNone(env.filter, PendingLogs(env, jobs, ws, n));
  }

  lemma {:induction false} AnsweredFor(env: Env, jobs: seq<Job>, ws: seq<World>, i: nat, j: nat)
    returns (k: nat)
    requires IsTrace(env, jobs, ws) && ws[0].pending == NO_EVENTS
    requires i < j < |jobs| && LeavesSome(env, jobs, ws, i) && JudgedAt(env, jobs, ws, j)
    ensures k < |jobs| && JudgedAt(env, jobs, ws, k) && ws[k].pending != NO_EVENTS
  {
    LeftIsAnswered(env, jobs, ws, i, j);
    k := j;
    if !Keeps(env, PendingLogs(env, jobs, ws, j)) {
      k :| k < j && JudgedAt(env, jobs, ws, k) && Keeps(env, PendingLogs(env, jobs, ws, k));
    }
    PendingWhen(env, jobs, ws, k);
  }

  /** No job that leaves some events comes before one that is judged. */
  ghost predicate NoneLeftToJudge(env: Env, jobs: seq<Job>, ws: seq<World>)
    requires |jobs| < |ws|
  {
    forall i: nat, j: nat | i < j < |jobs| ::
      LeavesSome(env, jobs, ws, i) ==> !JudgedAt(env, jobs, ws, j)
  }

  lemma {:induction false} NothingToAnswer(env: Env, jobs: seq<Job>, ws: seq<World>, j: nat)
    requires IsTrace(env, jobs, ws) && ws[0].pending == NO_EVENTS && j < |jobs|
    requires NoneLeftToJudge(env, jobs, ws) && JudgedAt(env, jobs, ws, j)
    ensures ws[j].pending == NO_EVENTS
  {
    PendingWhen(env, jobs, ws, j);
    if Keeps(env, PendingLogs(env, jobs, ws, j)) {
      PendingIsLeft(env, jobs, ws, j);
    }
  }

  /**
   Over a whole run, whatever the EVM does: every job that is judged answers for its own
   events alone exactly when no job that leaves some comes before one that is judged.
   */
  lemma {:induction false} JudgedAlone(env: Env, jobs: seq<Job>, ws: seq<World>)
    requires IsTrace(env, jobs, ws) && ws[0].pending == NO_EVENTS
    ensures (forall j: nat | j < |jobs| && JudgedAt(env, jobs, ws, j) :: ws[j].pending == NO_EVENTS)
       <==> NoneLeftToJudge(env, jobs, ws)
  {
    if NoneLeftToJudge(env, jobs, ws) {
      forall j: nat | j < |jobs| && JudgedAt(env, jobs, ws, j)
        ensures ws[j].pending == NO_EVENTS
      {
        NothingToAnswer(env, jobs, ws, j);
      }
    } else {
      var i: nat, j: nat :| i < j < |jobs| && LeavesSome(env, jobs, ws, i) && JudgedAt(env, jobs, ws, j);
      var k := AnsweredFor(env, jobs, ws, i, j);
    }
  }

  // ---- a fill whose state was discarded pays an order ----

  /**
   Two transacts: the first fills, uses less gas than its limit and moves what its sender
   has left to another account; the second orders the same and uses all its gas.
   */
  datatype Scene = Scene(contract: Address, output: Output, filler: Transact, used: U64, refuge: Address,
                         orderer: Transact, baseFee: U64)
  {
    predicate Valid() {
      && output.amount > 0 && baseFee > 0 && used < filler.gasLimit
      && refuge != filler.sender && filler != orderer
    }

    function Price(gas: U64): nat {
      Product(baseFee, gas)
    }

    /** Before it runs, a transact must be able to pay for all of its gas. */
    predicate Affords(b: Balances, t: Transact) {
      Price(t.gasLimit) <= BalanceOf(b, t.sender)
    }
  }

  function Swept(b: Balances, from: Address, cost: nat, to: Address): Balances
    requires cost <= BalanceOf(b, from)
  {
    b[from := 0][to := BalanceOf(b, to) + BalanceOf(b, from) - cost]
  }

  lemma {:induction false} SweptTotal(b: Balances, from: Address, cost: nat, to: Address)
    requires cost <= BalanceOf(b, from) && to != from
    ensures Total(Swept(b, from, cost, to)) + cost == Total(b)
  {
    TotalSet(b, from, 0);
    TotalSet(b[from := 0], to, BalanceOf(b, to) + BalanceOf(b, from) - cost);
  }

  lemma {:induction false} PricesGrow(s: Scene, x: U64, y: U64)
    requires x <= y
    ensures s.Price(x) <= s.Price(y)
    ensures x < y && s.baseFee > 0 ==> 0 < UnusedFee(s.baseFee, y, x)
  {
    MulMonotone(x, y, s.baseFee);
    if x < y && s.baseFee > 0 {
      MulPositive(s.baseFee, y - x);
    }
  }

  function Emitting(contract: Address, event: Event): Frame {
    Frame(CallFrame, [Emit(Log(contract, event))], true)
  }

  function Play(s: Scene, b: Balances, job: Job): EvmResult
    requires s.Valid()
  {
    if !job.System? || !s.Affords(b, job.transact) then TxError
    else if job.transact == s.filler then
      PricesGrow(s, s.used, s.filler.gasLimit);
      Ran(Emitting(s.contract, FilledEvent([s.output])), s.used,
          Swept(b, s.filler.sender, s.Price(s.used), s.refuge))
    else
      var t := job.transact;
      Ran(Emitting(s.contract, OrderEvent(Order([s.output], []))), t.gasLimit,
          Charged(b, t.sender, s.Price(t.gasLimit)))
  }

  function SceneEnv(s: Scene): Env
    requires s.Valid()
  {
    Env((b, job) => Play(s, b, job), s.baseFee, Filter({s.contract}, false), s.output.chainId)
  }

  lemma {:induction false} SceneCharges(s: Scene)
    requires s.Valid()
    ensures ChargesBaseFee(SceneEnv(s))
  {
    var env := SceneEnv(s);
    forall b, job | env.evm(b, job).Ran?
      ensures Total(env.evm(b, job).balances) + (if job.TokenMint? then 0 else env.baseFee * env.evm(b, job).gas)
           == Total(b)
      ensures job.System? ==> env.evm(b, job).gas <= job.transact.gasLimit
    {
      var t := job.transact;
      if t == s.filler {
        PricesGrow(s, s.used, t.gasLimit);
        SweptTotal(b, t.sender, s.Price(s.used), s.refuge);
      } else {
        TotalSet(b, t.sender, BalanceOf(b, t.sender) - s.Price(t.gasLimit));
      }
    }
  }

  lemma {:induction false} KeptOne(log: Log)
    ensures Kept(Frame(CallFrame, [Emit(log)], true)) == [log]
  {
    var f := Frame(CallFrame, [Emit(log)], true);
    assert f.body[..0] == [];
    assert MarkedStep(f.body[0], true) == [(log, true)];
    assert MarkedBody(f.body, true) == [(log, true)];
    var marked := [(log, true)];
    assert Marked(f, true) == marked && marked[..0] == [];
    assert Surviving(marked[..0]) == [] && [] + [log] == [log];
  }

  lemma {:induction false} OneOutput(chainId: U64, output: Output)
    requires chainId == output.chainId
    ensures var t: Table := map[Asset(chainId, output.token) := map[output.recipient := output.amount]];
            && EventsOf(chainId, [[output]], []) == TxEvents(t, map[])
            && EventsOf(chainId, [], [Order([output], [])]) == TxEvents(map[], t)
            && EventsOf(chainId, [[output]], [Order([output], [])]) == TxEvents(t, t)
  {
    var one := [Entry(Asset(chainId, output.token), output.recipient, output.amount)];
    var none: Table := map[];
    assert FillEntries(chainId, [output]) == one && OrderEntries([output]) == one;
    assert [[output]][..0] == [] && [Order([output], [])][..0] == [] && one[..0] == [];
    assert FillEntriesOf(chainId, [[output]]) == one && EntriesOf([Order([output], [])]) == one;
    assert Aggregated(none, one) == AddRaw(none, one[0].asset, one[0].recipient, one[0].amount);
  }

  lemma {:induction false} SceneKeeps(s: Scene, event: Event)
    requires s.Valid()
    requires event == FilledEvent([s.output]) || event == OrderEvent(Order([s.output], []))
    ensures var env := SceneEnv(s);
            && env.filter.FillsIn(Kept(Emitting(s.contract, event)))
               == (if event.FilledEvent? then [[s.output]] else [])
            && env.filter.OrdersIn(Kept(Emitting(s.contract, event)))
               == (if event.FilledEvent? then [] else [Order([s.output], [])])
  {
    KeptOne(Log(s.contract, event));
    OneLog(SceneEnv(s).filter, Log(s.contract, event));
  }

  /** One output that the context cannot pay settles with its own fill and not without it. */
  lemma {:induction false} OneSettles(ctx: Table, a: Asset, r: Address, amount: U256)
    requires Filled(ctx, a, r) < amount
    ensures var none: Table, t: Table := map[], map[a := map[r := amount]];
            Settles(ctx, TxEvents(t, t)) && !Settles(ctx, TxEvents(none, t))
  {
    var none: Table, t: Table := map[], map[a := map[r := amount]];
    assert Filled(t, a, r) > Combined(ctx, none, a, r);
  }

  /** A sender that kept nothing cannot pay for unused gas. */
  lemma {:induction false} NothingKept(s: Scene, b: Balances)
    requires s.Valid() && s.Affords(b, s.filler)
    ensures s.Price(s.used) <= BalanceOf(b, s.filler.sender)
    ensures BalanceOf(Swept(b, s.filler.sender, s.Price(s.used), s.refuge), s.filler.sender)
          < UnusedFee(s.baseFee, s.filler.gasLimit, s.used)
  {
    PricesGrow(s, s.used, s.filler.gasLimit);
  }

  /** A transact that cannot pay for its unused gas leaves its events and nothing else. */
  lemma {:induction false} Underfunded(env: Env, pre: World, t: Transact, root: Frame, gas: U64,
                                       after: Balances)
    requires env.evm(pre.balances, System(t)) == Ran(root, gas, after)
    requires BalanceOf(after, t.sender) < UnusedFee(env.baseFee, t.gasLimit, gas)
    ensures SystemStep(env, pre, t, pre.(pending := Grown(env, pre.pending, root)))
  {
  }

  lemma {:induction false} FillerRejected(s: Scene, pre: World)
    requires s.Valid() && s.Affords(pre.balances, s.filler) && pre.pending == NO_EVENTS
    ensures SystemStep(SceneEnv(s), pre, s.filler, pre.(pending := Lists([], [], [[s.output]], [])))
  {
    var env, run := SceneEnv(s), Play(s, pre.balances, System(s.filler));
    NothingKept(s, pre.balances);
    SceneKeeps(s, FilledEvent([s.output]));
    assert Grown(env, pre.pending, run.root) == Lists([], [], [[s.output]], []);
    Underfunded(env, pre, s.filler, run.root, run.gas, run.balances);
  }

  /** A transact that used its whole limit pays nothing more. */
  lemma {:induction false} AllGasUsed(env: Env, pre: World, t: Transact, root: Frame, after: Balances,
                                      e: TxEvents) returns (post: World)
    requires env.evm(pre.balances, System(t)) == Ran(root, t.gasLimit, after)
    requires e == Taken(env, Grown(env, pre.pending, root)) && Settles(pre.context, e)
    ensures SystemStep(env, pre, t, post)
    ensures post.processed == pre.processed + [System(t)] && post.balances == Charged(after, t.sender, 0)
  {
    post := World(Charged(after, t.sender, 0), pre.processed + [System(t)],
                  WrapAdd64(pre.payable, t.gasLimit), Settled(pre.context, e), NO_EVENTS,
                  pre.books.(paid := pre.books.paid + [t.gasLimit], consumed := pre.books.consumed + [e]));
  }

  lemma {:induction false} FillAndOrder(s: Scene, pending: Lists)
    requires s.Valid() && pending == Lists([], [], [[s.output]], [])
    ensures var env, root := SceneEnv(s), Emitting(s.contract, OrderEvent(Order([s.output], [])));
            var o := s.output;
            var t: Table := map[Asset(o.chainId, o.token) := map[o.recipient := o.amount]];
            Taken(env, Grown(env, pending, root)) == TxEvents(t, t)
  {
    SceneKeeps(s, OrderEvent(Order([s.output], [])));
    OneOutput(s.output.chainId, s.output);
  }

  /** The pending fill and the new order settle together. */
  lemma {:induction false} OrdererAccepted(s: Scene, pre: World) returns (post: World)
    requires s.Valid() && s.Affords(pre.balances, s.orderer)
    requires Filled(pre.context, Asset(s.output.chainId, s.output.token), s.output.recipient)
           < s.output.amount
    requires pre.pending == Lists([], [], [[s.output]], [])
    ensures SystemStep(SceneEnv(s), pre, s.orderer, post)
    ensures post.processed == pre.processed + [System(s.orderer)]
    ensures post.balances == Charged(pre.balances, s.orderer.sender, s.Price(s.orderer.gasLimit))
  {
    var env, output := SceneEnv(s), s.output;
    var run := Play(s, pre.balances, System(s.orderer));
    FillAndOrder(s, pre.pending);
    OneSettles(pre.context, Asset(output.chainId, output.token), output.recipient, output.amount);
    post := AllGasUsed(env, pre, s.orderer, run.root, run.balances,
                       Taken(env, Grown(env, pre.pending, run.root)));
  }

  /**
   The first transact cannot pay for its unused gas: it is rejected and nothing of it
   remains but its fill.  The second, whose own events do not settle, is accepted.
   */
  lemma {:induction false} DiscardedFillPays(s: Scene, start: World) returns (mid: World, post: World)
    requires s.Valid() && start.pending == NO_EVENTS
    requires s.Affords(start.balances, s.filler) && s.Affords(start.balances, s.orderer)
    requires Filled(start.context, Asset(s.output.chainId, s.output.token), s.output.recipient)
           < s.output.amount
    ensures var env := SceneEnv(s);
            && ChargesBaseFee(env)
            && SystemStep(env, start, s.filler, mid) && mid == start.(pending := mid.pending)
            && SystemStep(env, mid, s.orderer, post)
            && post.processed == start.processed + [System(s.orderer)]
            && post.balances == Charged(start.balances, s.orderer.sender, s.Price(s.orderer.gasLimit))
    ensures var env, run := SceneEnv(s), Play(s, start.balances, System(s.orderer));
            !Settles(start.context, EventsIn(env.filter, env.chainId, run.root))
  {
    var output := s.output;
    SceneCharges(s);
    mid := start.(pending := Lists([], [], [[output]], []));
    FillerRejected(s, start);
    post := OrdererAccepted(s, mid);
    SceneKeeps(s, OrderEvent(Order([output], [])));
    OneOutput(output.chainId, output);
    OneSettles(start.context, Asset(output.chainId, output.token), output.recipient, output.amount);
  }

  lemma {:induction false} OneLog(filter: Filter, log: Log)
    requires log.emitter in filter.contracts && !filter.fillsOnly
    ensures filter.FillsIn([log]) == if log.event.FilledEvent? then [log.event.outputs] else []
    ensures filter.OrdersIn([log]) == if log.event.OrderEvent? then [log.event.order] else []
  {
    assert [log][..0] == [];
  }
}
