/**
 What the ledger of a node makes of every transaction in a block, also of those that the
 builder's bundles tried and dropped.
 */
module NodeLedgers {
  import opened Ledger
  import opened Settlement
  import opened Debits

  /** A transaction of a block as its builder saw it: its events, and whether they were taken. */
  datatype Attempt = Attempt(events: TxEvents, taken: bool)

  function TakenEvents(tried: seq<Attempt>): seq<TxEvents> {
    if tried == [] then []
    else
      var before, last := TakenEvents(tried[..|tried| - 1]), tried[|tried| - 1];
      if last.taken then before + [last.events] else before
  }

  lemma {:induction false} TakenAppend(xs: seq<Attempt>, ys: seq<Attempt>)
    ensures TakenEvents(xs + ys) == TakenEvents(xs) + TakenEvents(ys)
  {
    if ys == [] {
      assert xs + ys == xs;
    } else {
      TakenAppend(xs, ys[..|ys| - 1]);
      assert (xs + ys)[..|xs + ys| - 1] == xs + ys[..|ys| - 1];
    }
  }

  lemma {:induction false} TakenStep(tried: seq<Attempt>, i: nat)
    requires i < |tried|
    ensures TakenEvents(tried[..i + 1])
         == if tried[i].taken then TakenEvents(tried[..i]) + [tried[i].events] else TakenEvents(tried[..i])
  {
    assert tried[..i + 1][..i] == tried[..i];
  }

  lemma {:induction false} TakenPrefixSettles(ctx: Table, tried: seq<Attempt>, i: nat)
    requires i <= |tried| && RunSettles(ctx, TakenEvents(tried))
    ensures RunSettles(ctx, TakenEvents(tried[..i]))
  {
    TakenAppend(tried[..i], tried[i..]);
    assert tried == tried[..i] + tried[i..];
    RunSettlesPrefix(ctx, TakenEvents(tried[..i]), TakenEvents(tried[i..]));
  }

  // ---- one transaction ----

  /**
   What trying these events may leave: a rejection after a passed check can leave anything
   that some order of visits leaves.
   */
  ghost predicate MayLeave(ctx: Table, e: TxEvents, post: Table) {
    if Settles(ctx, e) then post == Settled(ctx, e)
    else if Check(ctx, e) then LeftBy(ctx, e, post)
    else post == ctx
  }

  /** The node does what the builder did: it settles what was taken, and nothing else. */
  ghost predicate Follows(ctx: Table, a: Attempt, post: Table) {
    && (Settles(ctx, a.events) <==> a.taken)
    && post == if Settles(ctx, a.events) then Settled(ctx, a.events) else ctx
  }

  /** A rejection that leaves the ledger alone in every order of visits. */
  ghost predicate Harmless(ctx: Table, e: TxEvents) {
    || !Check(ctx, e)
    || (!Covers(ctx, e) && Absorbed(ctx, e.fills) == ctx && NothingOrdered(e))
  }

  ghost predicate Matches(ctx: Table, a: Attempt) {
    if a.taken then Settles(ctx, a.events) else Harmless(ctx, a.events)
  }

  /** Positive orders are harmless exactly when they do not settle. */
  lemma {:induction false} PositiveHarmless(ctx: Table, e: TxEvents)
    requires Positive(e.orders)
    ensures Harmless(ctx, e) <==> !Settles(ctx, e)
  {
    if Check(ctx, e) {
      PositiveIsCovered(ctx, e);
    }
  }

  lemma {:induction false} SomethingIsLeft(ctx: Table, e: TxEvents) returns (post: Table)
    ensures MayLeave(ctx, e, post)
  {
    if Settles(ctx, e) {
      post := Settled(ctx, e);
    } else if Check(ctx, e) {
      var vs := AnyOrder(e.orders);
      post := Removal(ctx, e, vs).table;
    } else {
      post := ctx;
    }
  }

  lemma {:induction false} MatchedKeeps(ctx: Table, a: Attempt, post: Table)
    requires Matches(ctx, a) && MayLeave(ctx, a.events, post)
    ensures Follows(ctx, a, post)
  {
    if !Settles(ctx, a.events) && Check(ctx, a.events) {
      var vs :| IsOrder(vs, a.events.orders) && post == Removal(ctx, a.events, vs).table;
      ZeroOrdersKeep(ctx, a.events, vs);
    }
  }

  /** Anything else goes wrong in some order of visits. */
  lemma {:induction false} UnmatchedBreaks(ctx: Table, a: Attempt) returns (post: Table)
    requires !Matches(ctx, a)
    ensures MayLeave(ctx, a.events, post) && !Follows(ctx, a, post)
  {
    var e := a.events;
    if a.taken || Settles(ctx, e) {
      post := SomethingIsLeft(ctx, e);
    } else {
      AtomicWhen(ctx, e);
      var vs :| IsOrder(vs, e.orders) && Removal(ctx, e, vs).error.Some? && Removal(ctx, e, vs).table != ctx;
      post := Removal(ctx, e, vs).table;
    }
  }

  // ---- a whole block ----

  /** Ledgers a node may go through, trying the transactions in order, as far as it has come. */
  ghost predicate IsPath(tried: seq<Attempt>, cs: seq<Table>)
    decreases |cs|
  {
    && 0 < |cs| <= |tried| + 1
    && (|cs| == 1 ||
        var n := |cs| - 1;
        IsPath(tried, cs[..n]) && MayLeave(cs[n - 1], tried[n - 1].events, cs[n]))
  }

  /** At every step so far the node did what the builder did. */
  ghost predicate FollowsAlong(tried: seq<Attempt>, cs: seq<Table>)
    decreases |cs|
  {
    && 0 < |cs| <= |tried| + 1
    && (|cs| == 1 ||
        var n := |cs| - 1;
        FollowsAlong(tried, cs[..n]) && Follows(cs[n - 1], tried[n - 1], cs[n]))
  }

  lemma {:induction false} OneFurther(tried: seq<Attempt>, cs: seq<Table>, post: Table)
    requires 0 < |cs| <= |tried|
    ensures var n := |cs|;
            && (IsPath(tried, cs + [post]) <==>
                IsPath(tried, cs) && MayLeave(cs[n - 1], tried[n - 1].events, post))
            && (FollowsAlong(tried, cs + [post]) <==> FollowsAlong(tried, cs) && Follows(cs[n - 1], tried[n - 1], post))
  {
    assert (cs + [post])[..|cs|] == cs;
  }

  /** As long as the node keeps in step it has the ledger of what was taken. */
  lemma {:induction false} StepLedger(tried: seq<Attempt>, cs: seq<Table>)
    requires FollowsAlong(tried, cs)
    ensures RunSettles(cs[0], TakenEvents(tried[..|cs| - 1]))
    ensures cs[|cs| - 1] == RunSettled(cs[0], TakenEvents(tried[..|cs| - 1]))
    decreases |cs|
  {
    var n := |cs| - 1;
    if n > 0 {
      StepLedger(tried, cs[..n]);
      TakenStep(tried, n - 1);
      if tried[n - 1].taken {
        RunOneMore(cs[0], TakenEvents(tried[..n - 1]), tried[n - 1].events);
      }
    }
  }

  /** The `i`-th transaction, at the ledger of those taken before it. */
  ghost predicate MatchesAt(ctx: Table, tried: seq<Attempt>, i: nat)
    requires i < |tried| && RunSettles(ctx, TakenEvents(tried))
  {
    TakenPrefixSettles(ctx, tried, i);
    Matches(RunSettled(ctx, TakenEvents(tried[..i])), tried[i])
  }

  /** Every transaction that was dropped is harmless at its place. */
  ghost predicate NoneHarms(ctx: Table, tried: seq<Attempt>)
    requires RunSettles(ctx, TakenEvents(tried))
  {
    forall k: nat {:trigger MatchesAt(ctx, tried, k)} | k < |tried| && !tried[k].taken :: MatchesAt(ctx, tried, k)
  }

  /** What was taken settles again at its place. */
  lemma {:induction false} TakenMatches(ctx: Table, tried: seq<Attempt>, i: nat)
    requires i < |tried| && RunSettles(ctx, TakenEvents(tried)) && tried[i].taken
    ensures MatchesAt(ctx, tried, i)
  {
    TakenPrefixSettles(ctx, tried, i);
    TakenPrefixSettles(ctx, tried, i + 1);
    TakenStep(tried, i);
    RunOneMore(ctx, TakenEvents(tried[..i]), tried[i].events);
  }

  /** Where nothing harms, a node that is in step stays in step. */
  lemma {:induction false} NextFollows(ctx: Table, tried: seq<Attempt>, cs: seq<Table>, post: Table)
    requires FollowsAlong(tried, cs) && |cs| <= |tried| && cs[0] == ctx
    requires RunSettles(ctx, TakenEvents(tried)) && NoneHarms(ctx, tried)
    requires MayLeave(cs[|cs| - 1], tried[|cs| - 1].events, post)
    ensures Follows(cs[|cs| - 1], tried[|cs| - 1], post)
  {
    var n := |cs| - 1;
    StepLedger(tried, cs);
    if tried[n].taken {
      TakenMatches(ctx, tried, n);
    }
    assert MatchesAt(ctx, tried, n);
    MatchedKeeps(cs[n], tried[n], post);
  }

  lemma {:induction false} HarmlessFollows(ctx: Table, tried: seq<Attempt>, cs: seq<Table>)
    requires IsPath(tried, cs) && cs[0] == ctx
    requires RunSettles(ctx, TakenEvents(tried)) && NoneHarms(ctx, tried)
    ensures FollowsAlong(tried, cs)
    decreases |cs|
  {
    var n := |cs| - 1;
    if n > 0 {
      HarmlessFollows(ctx, tried, cs[..n]);
      NextFollows(ctx, tried, cs[..n], cs[n]);
    }
  }

  lemma {:induction false} PathOf(ctx: Table, tried: seq<Attempt>, n: nat) returns (cs: seq<Table>)
    requires n <= |tried|
    ensures IsPath(tried, cs) && |cs| == n + 1 && cs[0] == ctx
  {
    if n == 0 {
      cs := [ctx];
    } else {
      var before := PathOf(ctx, tried, n - 1);
      var post := SomethingIsLeft(before[n - 1], tried[n - 1].events);
      OneFurther(tried, before, post);
      cs := before + [post];
    }
  }

  /** Every node keeps in step, whatever the orders of its visits. */
  ghost predicate AlwaysFollows(ctx: Table, tried: seq<Attempt>) {
    forall cs | IsPath(tried, cs) && cs[0] == ctx :: FollowsAlong(tried, cs)
  }

  lemma {:induction false} FollowsMatches(ctx: Table, tried: seq<Attempt>, k: nat)
    requires AlwaysFollows(ctx, tried) && k < |tried| && RunSettles(ctx, TakenEvents(tried))
    ensures MatchesAt(ctx, tried, k)
  {
    var cs := PathOf(ctx, tried, k);
    StepLedger(tried, cs);
    if !Matches(cs[k], tried[k]) {
      var post := UnmatchedBreaks(cs[k], tried[k]);
      OneFurther(tried, cs, post);
    }
  }

  /**
   A node that tries every transaction of a block in order settles exactly those the builder
   took, and keeps the ledger of those taken, in every order of visits: if and only if those
   settle one by one and every dropped transaction is harmless at its place.
   */
  lemma {:induction false} FollowsWhen(ctx: Table, tried: seq<Attempt>)
    ensures AlwaysFollows(ctx, tried) <==> RunSettles(ctx, TakenEvents(tried)) && NoneHarms(ctx, tried)
  {
    if AlwaysFollows(ctx, tried) {
      var cs := PathOf(ctx, tried, |tried|);
      StepLedger(tried, cs);
      assert tried[..|tried|] == tried;
      forall k: nat | k < |tried| && !tried[k].taken
        ensures MatchesAt(ctx, tried, k)
      {
        FollowsMatches(ctx, tried, k);
      }
    }
    if RunSettles(ctx, TakenEvents(tried)) && NoneHarms(ctx, tried) {
      forall cs | IsPath(tried, cs) && cs[0] == ctx
        ensures FollowsAlong(tried, cs)
      {
        HarmlessFollows(ctx, tried, cs);
      }
    }
  }
}
