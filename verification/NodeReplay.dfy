/**
 A node executing the block that a builder put together: the runs of the block driver over
 its transactions, compared with what the builder made of each of them.
 */
module NodeReplay {
  import opened Words
  import opened Ledger
  import opened Settlement
  import opened Detector
  import opened Inspector
  import opened Supply
  import opened NodeLedgers
  import opened BlockDriver

  // ---- the transactions as the builder saw them ----

  /** A user transaction that runs on this state and emits these events. */
  ghost predicate EmitsAt(env: Env, b: Balances, job: Job, e: TxEvents) {
    var run := env.evm(b, job);
    && job.User? && !job.tx.isBlob && job.tx.sender.Some? && run.Ran?
    && EventsIn(env.filter, env.chainId, run.root) == e
  }

  /** The state once those taken have run. */
  function StateAfter(env: Env, b: Balances, jobs: seq<Job>, tried: seq<Attempt>): Balances
    requires |jobs| == |tried|
  {
    if jobs == [] then b
    else
      var n := |jobs| - 1;
      var s := StateAfter(env, b, jobs[..n], tried[..n]);
      var run := env.evm(s, jobs[n]);
      if tried[n].taken && run.Ran? then run.balances else s
  }

  /** Each transaction, run on the state that those taken before it left, emits what was seen. */
  ghost predicate Executes(env: Env, b: Balances, jobs: seq<Job>, tried: seq<Attempt>) {
    && |jobs| == |tried|
    && (jobs == [] ||
        var n := |jobs| - 1;
        && Executes(env, b, jobs[..n], tried[..n])
        && EmitsAt(env, StateAfter(env, b, jobs[..n], tried[..n]), jobs[n], tried[n].events))
  }

  lemma {:induction false} ExecutesPrefix(env: Env, b: Balances, jobs: seq<Job>, tried: seq<Attempt>,
                                          n: nat)
    requires Executes(env, b, jobs, tried) && n <= |jobs|
    ensures Executes(env, b, jobs[..n], tried[..n])
    ensures n < |jobs| ==>
              EmitsAt(env, StateAfter(env, b, jobs[..n], tried[..n]), jobs[n], tried[n].events)
  {
    if n < |jobs| {
      var m := |jobs| - 1;
      ExecutesPrefix(env, b, jobs[..m], tried[..m], n);
      assert jobs[..m][..n] == jobs[..n] && tried[..m][..n] == tried[..n];
    } else {
      assert jobs[..n] == jobs && tried[..n] == tried;
    }
  }

  lemma {:induction false} ExecutesMore(env: Env, b: Balances, jobs: seq<Job>, tried: seq<Attempt>, m: nat)
    requires m < |jobs| == |tried| && Executes(env, b, jobs[..m], tried[..m])
    requires EmitsAt(env, StateAfter(env, b, jobs[..m], tried[..m]), jobs[m], tried[m].events)
    ensures Executes(env, b, jobs[..m + 1], tried[..m + 1])
  {
    assert jobs[..m + 1][..m] == jobs[..m] && tried[..m + 1][..m] == tried[..m];
  }

  lemma {:induction false} StateStep(env: Env, b: Balances, jobs: seq<Job>, tried: seq<Attempt>, m: nat)
    requires m < |jobs| == |tried|
    ensures var s := StateAfter(env, b, jobs[..m], tried[..m]);
            StateAfter(env, b, jobs[..m + 1], tried[..m + 1])
            == if tried[m].taken && env.evm(s, jobs[m]).Ran? then env.evm(s, jobs[m]).balances else s
  {
    assert jobs[..m + 1][..m] == jobs[..m] && tried[..m + 1][..m] == tried[..m];
  }

  lemma {:induction false} StateAppend(env: Env, b: Balances, xs: seq<Job>, us: seq<Attempt>,
                                       ys: seq<Job>, vs: seq<Attempt>)
    requires |xs| == |us| && |ys| == |vs|
    ensures StateAfter(env, b, xs + ys, us + vs) == StateAfter(env, StateAfter(env, b, xs, us), ys, vs)
    decreases |ys|
  {
    if ys == [] {
      assert xs + ys == xs && us + vs == us;
    } else {
      var n := |ys| - 1;
      StateAppend(env, b, xs, us, ys[..n], vs[..n]);
      assert (xs + ys)[..|xs| + n] == xs + ys[..n] && (us + vs)[..|us| + n] == us + vs[..n];
    }
  }

  lemma {:induction false} ExecutesOneMore(env: Env, b: Balances, jobs: seq<Job>, tried: seq<Attempt>,
                                           job: Job, a: Attempt)
    requires Executes(env, b, jobs, tried)
    requires EmitsAt(env, StateAfter(env, b, jobs, tried), job, a.events)
    ensures Executes(env, b, jobs + [job], tried + [a])
  {
    assert (jobs + [job])[..|jobs|] == jobs && (tried + [a])[..|tried|] == tried;
  }

  lemma {:induction false} LastApart<T>(xs: seq<T>, ys: seq<T>)
    requires ys != []
    ensures xs + ys == (xs + ys[..|ys| - 1]) + [ys[|ys| - 1]]
  {
  }

  /** Executing one list after the other. */
  lemma {:induction false} ExecutesAppend(env: Env, b: Balances, xs: seq<Job>, us: seq<Attempt>,
                                          s: Balances, ys: seq<Job>, vs: seq<Attempt>)
    requires Executes(env, b, xs, us) && StateAfter(env, b, xs, us) == s && Executes(env, s, ys, vs)
    ensures Executes(env, b, xs + ys, us + vs)
    decreases |ys|
  {
    if ys == [] {
      assert xs + ys == xs && us + vs == us;
    } else {
      var n := |ys| - 1;
      ExecutesPrefix(env, s, ys, vs, n);
      ExecutesAppend(env, b, xs, us, s, ys[..n], vs[..n]);
      StateAppend(env, b, xs, us, ys[..n], vs[..n]);
      ExecutesOneMore(env, b, xs + ys[..n], us + vs[..n], ys[n], vs[n]);
      LastApart(xs, ys);
      LastApart(us, vs);
    }
  }

  // ---- one step of the driver ----

  /** The driver does what the builder did: its ledger, and what goes into the block. */
  ghost predicate AgreesAt(pre: World, a: Attempt, post: World) {
    && Follows(pre.context, a, post.context)
    && (post.processed != pre.processed <==> a.taken)
  }

  /** With nothing pending: accepted exactly when its events settle, and nothing stays pending. */
  lemma {:induction false} ReplayStep(env: Env, pre: World, job: Job, post: World, e: TxEvents)
    requires pre.pending == NO_EVENTS && Steps(env, pre, job, post) && EmitsAt(env, pre.balances, job, e)
    ensures post.pending == NO_EVENTS && MayLeave(pre.context, e, post.context)
    ensures post.processed != pre.processed <==> Settles(pre.context, e)
    ensures post.balances == if Settles(pre.context, e) then env.evm(pre.balances, job).balances
                             else pre.balances
  {
    UserJudgedAlone(env, pre, job.tx, post);
    var run := env.evm(pre.balances, job);
    assert Judged(pre, post, job, run.gas, run.balances, e);
    assert |pre.processed + [job]| != |pre.processed|;
  }

  /** The driver may leave whatever the ledger may. */
  lemma {:induction false} StepExists(env: Env, pre: World, job: Job, e: TxEvents, left: Table)
    returns (post: World)
    requires pre.pending == NO_EVENTS && EmitsAt(env, pre.balances, job, e)
    requires MayLeave(pre.context, e, left)
    ensures Steps(env, pre, job, post) && post.context == left
  {
    var run := env.evm(pre.balances, job);
    ExtendedFromNone(env.filter, Kept(run.root));
    if Settles(pre.context, e) {
      post := World(run.balances, pre.processed + [job], WrapAdd64(pre.payable, run.gas), left, NO_EVENTS,
                    pre.books.(paid := pre.books.paid + [run.gas], consumed := pre.books.consumed + [e]));
    } else {
      post := World(pre.balances, pre.processed, pre.payable, left, NO_EVENTS,
                    pre.books.(torn := pre.books.torn || Check(pre.context, e)));
    }
    assert Judged(pre, post, job, run.gas, run.balances, e);
  }

  // ---- runs of the driver ----

  /** A run of the driver over the first transactions, with the worlds it went through. */
  ghost predicate IsReplay(env: Env, jobs: seq<Job>, ws: seq<World>)
    decreases |ws|
  {
    && 0 < |ws| <= |jobs| + 1
    && (|ws| == 1 ||
        var n := |ws| - 1;
        IsReplay(env, jobs, ws[..n]) && Steps(env, ws[n - 1], jobs[n - 1], ws[n]))
  }

  lemma {:induction false} ReplayRuns(env: Env, jobs: seq<Job>, ws: seq<World>)
    requires IsReplay(env, jobs, ws)
    ensures Runs(env, ws[0], jobs[..|ws| - 1], ws[|ws| - 1])
    decreases |ws|
  {
    var n := |ws| - 1;
    if n > 0 {
      ReplayRuns(env, jobs, ws[..n]);
      RunsOneMore(env, ws[0], jobs[..n - 1], ws[n - 1], jobs[n - 1], ws[n]);
      assert jobs[..n - 1] + [jobs[n - 1]] == jobs[..n];
    }
  }

  /** At every step so far the driver did what the builder did. */
  ghost predicate Agrees(tried: seq<Attempt>, ws: seq<World>)
    decreases |ws|
  {
    && 0 < |ws| <= |tried| + 1
    && (|ws| == 1 ||
        var n := |ws| - 1;
        Agrees(tried, ws[..n]) && AgreesAt(ws[n - 1], tried[n - 1], ws[n]))
  }

  function Contexts(ws: seq<World>): (cs: seq<Table>)
    ensures |cs| == |ws|
  {
    seq(|ws|, i requires 0 <= i < |ws| => ws[i].context)
  }

  lemma {:induction false} AgreedContexts(tried: seq<Attempt>, ws: seq<World>)
    requires Agrees(tried, ws)
    ensures FollowsAlong(tried, Contexts(ws))
    decreases |ws|
  {
    var n := |ws| - 1;
    if n > 0 {
      AgreedContexts(tried, ws[..n]);
      assert Contexts(ws)[..n] == Contexts(ws[..n]);
    }
  }

  lemma {:induction false} AgreedStep(env: Env, pre: World, job: Job, post: World, a: Attempt)
    requires pre.pending == NO_EVENTS && Steps(env, pre, job, post)
    requires EmitsAt(env, pre.balances, job, a.events) && AgreesAt(pre, a, post)
    ensures post.pending == NO_EVENTS
    ensures post.balances == if a.taken && env.evm(pre.balances, job).Ran?
                             then env.evm(pre.balances, job).balances else pre.balances
  {
    ReplayStep(env, pre, job, post, a.events);
  }

  /** As long as it agrees, the driver is in the builder's state with nothing pending. */
  lemma {:induction false} AgreedState(env: Env, jobs: seq<Job>, tried: seq<Attempt>, ws: seq<World>)
    requires IsReplay(env, jobs, ws) && Agrees(tried, ws)
    requires Executes(env, ws[0].balances, jobs, tried) && ws[0].pending == NO_EVENTS
    ensures var n := |ws| - 1;
            && ws[n].pending == NO_EVENTS
            && ws[n].balances == StateAfter(env, ws[0].balances, jobs[..n], tried[..n])
    decreases |ws|
  {
    var n := |ws| - 1;
    if n > 0 {
      AgreedState(env, jobs, tried, ws[..n]);
      ExecutesPrefix(env, ws[0].balances, jobs, tried, n - 1);
      AgreedStep(env, ws[n - 1], jobs[n - 1], ws[n], tried[n - 1]);
      StateStep(env, ws[0].balances, jobs, tried, n - 1);
    }
  }

  lemma {:induction false} EmitsNext(env: Env, jobs: seq<Job>, tried: seq<Attempt>, ws: seq<World>)
    requires IsReplay(env, jobs, ws) && Agrees(tried, ws) && |ws| <= |jobs|
    requires Executes(env, ws[0].balances, jobs, tried) && ws[0].pending == NO_EVENTS
    ensures var n := |ws| - 1;
            ws[n].pending == NO_EVENTS && EmitsAt(env, ws[n].balances, jobs[n], tried[n].events)
  {
    AgreedState(env, jobs, tried, ws);
    ExecutesPrefix(env, ws[0].balances, jobs, tried, |ws| - 1);
  }

  lemma {:induction false} ReplayNext(env: Env, jobs: seq<Job>, tried: seq<Attempt>, ws: seq<World>,
                                      post: World)
    requires IsReplay(env, jobs, ws) && Agrees(tried, ws) && |ws| <= |jobs|
    requires Executes(env, ws[0].balances, jobs, tried) && ws[0].pending == NO_EVENTS
    requires Steps(env, ws[|ws| - 1], jobs[|ws| - 1], post)
    ensures var pre, e := ws[|ws| - 1], tried[|ws| - 1].events;
            MayLeave(pre.context, e, post.context)
            && (post.processed != pre.processed <==> Settles(pre.context, e))
  {
    EmitsNext(env, jobs, tried, ws);
    ReplayStep(env, ws[|ws| - 1], jobs[|ws| - 1], post, tried[|ws| - 1].events);
  }

  lemma {:induction false} NextAgrees(env: Env, start: World, jobs: seq<Job>, tried: seq<Attempt>,
                                      ws: seq<World>, post: World)
    requires IsReplay(env, jobs, ws) && Agrees(tried, ws) && |ws| <= |jobs| && ws[0] == start
    requires Executes(env, start.balances, jobs, tried) && start.pending == NO_EVENTS
    requires RunSettles(start.context, TakenEvents(tried)) && NoneHarms(start.context, tried)
    requires Steps(env, ws[|ws| - 1], jobs[|ws| - 1], post)
    ensures AgreesAt(ws[|ws| - 1], tried[|ws| - 1], post)
  {
    ReplayNext(env, jobs, tried, ws, post);
    AgreedContexts(tried, ws);
    NextFollows(start.context, tried, Contexts(ws), post.context);
  }

  /** Where no dropped transaction harms, the driver agrees all the way. */
  lemma {:induction false} HarmlessAgrees(env: Env, start: World, jobs: seq<Job>, tried: seq<Attempt>,
                                          ws: seq<World>)
    requires IsReplay(env, jobs, ws) && ws[0] == start
    requires Executes(env, start.balances, jobs, tried) && start.pending == NO_EVENTS
    requires RunSettles(start.context, TakenEvents(tried)) && NoneHarms(start.context, tried)
    ensures Agrees(tried, ws)
    decreases |ws|
  {
    var n := |ws| - 1;
    if n > 0 {
      HarmlessAgrees(env, start, jobs, tried, ws[..n]);
      NextAgrees(env, start, jobs, tried, ws[..n], ws[n]);
    }
  }

  /** Every run of the driver over these transactions, in every order of visits, agrees. */
  ghost predicate AlwaysAgrees(env: Env, start: World, jobs: seq<Job>, tried: seq<Attempt>) {
    forall ws | IsReplay(env, jobs, ws) && ws[0] == start :: Agrees(tried, ws)
  }

  lemma {:induction false} ReplayFurther(env: Env, jobs: seq<Job>, ws: seq<World>, tried: seq<Attempt>,
                                         post: World)
    requires 0 < |ws| <= |jobs| == |tried|
    ensures var n := |ws| - 1;
            && (IsReplay(env, jobs, ws + [post]) <==>
                IsReplay(env, jobs, ws) && Steps(env, ws[n], jobs[n], post))
            && (Agrees(tried, ws + [post]) <==> Agrees(tried, ws) && AgreesAt(ws[n], tried[n], post))
  {
    assert (ws + [post])[..|ws|] == ws;
  }

  lemma {:induction false} ReplayOf(env: Env, start: World, jobs: seq<Job>, tried: seq<Attempt>, n: nat)
    returns (ws: seq<World>)
    requires AlwaysAgrees(env, start, jobs, tried) && n <= |jobs|
    requires Executes(env, start.balances, jobs, tried) && start.pending == NO_EVENTS
    ensures IsReplay(env, jobs, ws) && |ws| == n + 1 && ws[0] == start
  {
    if n == 0 {
      ws := [start];
    } else {
      var before := ReplayOf(env, start, jobs, tried, n - 1);
      EmitsNext(env, jobs, tried, before);
      var left := SomethingIsLeft(before[n - 1].context, tried[n - 1].events);
      var post := StepExists(env, before[n - 1], jobs[n - 1], tried[n - 1].events, left);
      ReplayFurther(env, jobs, before, tried, post);
      ws := before + [post];
    }
  }

  /** A dropped transaction that may harm leads some run of the driver astray. */
  lemma {:induction false} UnmatchedStrays(env: Env, jobs: seq<Job>, tried: seq<Attempt>, ws: seq<World>)
    returns (post: World)
    requires IsReplay(env, jobs, ws) && Agrees(tried, ws) && |ws| <= |jobs|
    requires Executes(env, ws[0].balances, jobs, tried) && ws[0].pending == NO_EVENTS
    requires !Matches(ws[|ws| - 1].context, tried[|ws| - 1])
    ensures IsReplay(env, jobs, ws + [post]) && !Agrees(tried, ws + [post])
  {
    var n := |ws| - 1;
    var left := UnmatchedBreaks(ws[n].context, tried[n]);
    EmitsNext(env, jobs, tried, ws);
    post := StepExists(env, ws[n], jobs[n], tried[n].events, left);
    ReplayFurther(env, jobs, ws, tried, post);
  }

  lemma {:induction false} AgreesMatches(env: Env, start: World, jobs: seq<Job>, tried: seq<Attempt>,
                                         k: nat)
    requires AlwaysAgrees(env, start, jobs, tried) && k < |jobs|
    requires Executes(env, start.balances, jobs, tried) && start.pending == NO_EVENTS
    requires RunSettles(start.context, TakenEvents(tried))
    ensures MatchesAt(start.context, tried, k)
  {
    var ws := ReplayOf(env, start, jobs, tried, k);
    AgreedContexts(tried, ws);
    StepLedger(tried, Contexts(ws));
    if !Matches(ws[k].context, tried[k]) {
      var post := UnmatchedStrays(env, jobs, tried, ws);
    }
  }

  lemma {:induction false} AgreesSettles(env: Env, start: World, jobs: seq<Job>, tried: seq<Attempt>)
    requires AlwaysAgrees(env, start, jobs, tried)
    requires Executes(env, start.balances, jobs, tried) && start.pending == NO_EVENTS
    ensures RunSettles(start.context, TakenEvents(tried))
  {
    var ws := ReplayOf(env, start, jobs, tried, |jobs|);
    AgreedContexts(tried, ws);
    StepLedger(tried, Contexts(ws));
    assert tried[..|tried|] == tried;
  }

  /**
   Over all runs of the block driver, whatever the order of its visits: it accepts exactly
   what the builder took, and keeps the ledger of that, if and only if what was taken settles
   one by one and every dropped transaction is harmless at its place.
   */
  lemma {:induction false} AgreesWhen(env: Env, start: World, jobs: seq<Job>, tried: seq<Attempt>)
    requires Executes(env, start.balances, jobs, tried) && start.pending == NO_EVENTS
    ensures AlwaysAgrees(env, start, jobs, tried) <==>
            RunSettles(start.context, TakenEvents(tried)) && NoneHarms(start.context, tried)
  {
    if AlwaysAgrees(env, start, jobs, tried) {
      AgreesSettles(env, start, jobs, tried);
      forall k: nat | k < |tried| && !tried[k].taken
        ensures MatchesAt(start.context, tried, k)
      {
        AgreesMatches(env, start, jobs, tried, k);
      }
    }
    if RunSettles(start.context, TakenEvents(tried)) && NoneHarms(start.context, tried) {
      forall ws | IsReplay(env, jobs, ws) && ws[0] == start
        ensures Agrees(tried, ws)
      {
        HarmlessAgrees(env, start, jobs, tried, ws);
      }
    }
  }

  /** A run that agrees to the end accepted what was taken and has the ledger of that. */
  lemma {:induction false} AgreedEnd(env: Env, jobs: seq<Job>, tried: seq<Attempt>, ws: seq<World>)
    requires IsReplay(env, jobs, ws) && Agrees(tried, ws) && |ws| == |tried| + 1 == |jobs| + 1
    ensures Runs(env, ws[0], jobs, ws[|jobs|])
    ensures RunSettles(ws[0].context, TakenEvents(tried))
    ensures ws[|jobs|].context == RunSettled(ws[0].context, TakenEvents(tried))
  {
    ReplayRuns(env, jobs, ws);
    AgreedContexts(tried, ws);
    StepLedger(tried, Contexts(ws));
    assert tried[..|tried|] == tried && jobs[..|jobs|] == jobs;
  }
}
