/**
 Building a block: rounds over the shared simulation environment, each adding at
 most one item, within the gas budgets and with the fill state kept settled.
 */
module BlockBuilding {
  import opened Words
  import opened Ledger
  import opened Settlement
  import opened Batch
  import opened Agreement
  import opened Blocks
  import opened HostFirst
  import opened NodeLedgers
  import opened Fills
  import opened Validity
  import opened CacheStores
  import opened Simulation

  datatype SimulatedItem = SimulatedItem(score: U256, gasUsed: U64, hostGasUsed: U64, item: SimItem)

  /** `Panicked` stands for the failure of `expect("checked during simulation")`. */
  datatype RoundResult = Nothing | Selected(simulated: SimulatedItem) | Panicked

  lemma {:induction false} FewerItems(before: Items, after: Items, r: U128)
    requires after.Keys <= before.Keys && r in before && r !in after
    ensures |after| < |before|
  {
    assert after.Keys <= before.Keys - {r};
    SubsetSize(after.Keys, before.Keys - {r});
  }

  // ---- one round ----

  /** How far the preflight read came: to a rank it could not check, or over the first `m`. */
  datatype Reading = SourceFailed(rank: U128) | Read(candidates: Candidates, m: nat)

  /**
   What the preflight read hands to the round: the best items that are valid in this
   view, as many as the limit allows, after which those examined that never can be are
   gone; nothing at all when an account could not be read.
   */
  ghost predicate Preflighted(s: Store, v: View, limit: nat, read: Reading, active: Candidates, t: Store) {
    match read
    case SourceFailed(r) =>
      active == [] && t == s && r in s.items && ItemVerdict(s.items[r], v.ru, v.host).Err?
    case Read(cs, m) =>
      && IsSnapshot(cs, s.items) && StopsAt(cs, v.ru, v.host, limit, m)
      && active == NowAmong(cs[..m], v.ru, v.host)
      && t == DisallowedAll(s, NeverAmong(cs[..m], v.ru, v.host))
  }

  /** Reading keeps the items it returns and adds none. */
  lemma {:induction false} PreflightHolds(s: Store, v: View, limit: nat, read: Reading,
                                          active: Candidates, t: Store)
    requires Preflighted(s, v, limit, read, active, t)
    ensures Holds(t.items, active) && t.items.Keys <= s.items.Keys
  {
    if read.Read? {
      var first := read.candidates[..read.m];
      assert forall c | c in first :: c in read.candidates;
      NowIsNotNever(s.items, first, v.ru, v.host);
      DisallowedItems(s, NeverAmong(first, v.ru, v.host));
      forall i: nat | i < |active|
        ensures active[i].rank in t.items && t.items[active[i].rank] == active[i].item
      {
        assert active[i] in active;
      }
    }
  }

  /** An outcome settles against the fill state it was simulated on, if the keys are there. */
  lemma {:induction false} OutcomeSettles(c: Config, v: View, fills: Table, rank: U128, item: SimItem)
    requires Simulated(c, v, fills, rank, item).Some?
    ensures var events := Simulated(c, v, fills, rank, item).value.events;
            Check(fills, events) && (Settles(fills, events) <==> Covers(fills, events))
    ensures AllPositive(ItemEvents(Parts(c, v, fills, item))) ==>
              Covers(fills, Simulated(c, v, fills, rank, item).value.events)
  {
    OutcomeIsTotal(c, v, fills, rank, item);
    AcceptCannotFail(fills, ItemEvents(Parts(c, v, fills, item)));
  }

  /** No item ever orders an output of nothing. */
  ghost predicate OrdersPositive(c: Config) {
    forall v, fills, item {:trigger Parts(c, v, fills, item)} ::
      AllPositive(ItemEvents(Parts(c, v, fills, item)))
  }

  /** The shared environment between two rounds. */
  datatype EnvState = EnvState(store: Store, view: View, fills: Table)

  /** One round: its preflight read and what that left, its threads, and its result. */
  datatype Play = Play(read: Reading, kept: Store, round: Round, order: seq<nat>,
                       result: RoundResult)

  /**
   `SharedSimEnv::sim_round` for some order of threads: without a winner only rejected
   items leave; with one its item leaves too, its state is moved to and its events are
   settled, or the accept step panics.
   */
  ghost predicate IsPlay(c: Config, limit: nat, pre: EnvState, maxGas: U64, maxHostGas: U64, p: Play,
                         post: EnvState) {
    && Preflighted(pre.store, pre.view, limit, p.read, p.round.active, p.kept)
    && p.round == Round(c, pre.view, pre.fills, p.round.active, maxGas, maxHostGas)
    && p.round.Complete(p.order)
    && var left := p.round.Left(p.kept.items, p.order);
       match p.round.Best(p.order)
       case None =>
         p.result == Nothing && post == EnvState(WithItems(p.kept, left), pre.view, pre.fills)
       case Some(o) =>
         && o.cacheRank in left
         && post.store == WithItems(p.kept, left - {o.cacheRank}) && post.view == o.next
         && if Settles(pre.fills, o.events) then
              && p.result == Selected(SimulatedItem(o.score, o.gasUsed, o.hostGasUsed, left[o.cacheRank]))
              && post.fills == Settled(pre.fills, o.events)
            else p.result == RoundResult.Panicked
  }

  /** Progress: every round that simulates anything leaves fewer items than it found. */
  lemma {:induction false} PlayShrinks(c: Config, limit: nat, pre: EnvState, maxGas: U64,
                                       maxHostGas: U64, p: Play, post: EnvState)
    requires IsPlay(c, limit, pre, maxGas, maxHostGas, p, post)
    ensures |post.store.items| <= |pre.store.items|
    ensures p.round.active != [] ==> |post.store.items| < |pre.store.items|
  {
    var items := p.kept.items;
    PreflightHolds(pre.store, pre.view, limit, p.read, p.round.active, p.kept);
    RoundLeaves(p.round, items, p.order);
    var best := p.round.Best(p.order);
    assert post.store.items.Keys <= items.Keys <= pre.store.items.Keys;
    SubsetSize(post.store.items.Keys, pre.store.items.Keys);
    if best.Some? {
      FewerItems(pre.store.items, post.store.items, best.value.cacheRank);
    } else if p.round.active != [] {
      FewerItems(pre.store.items, post.store.items, p.round.active[0].rank);
    }
  }

  /** The winner fits the budgets, is a total of checked events, and passes the balance check. */
  lemma {:induction false} WinnerSettles(round: Round, items: Items, order: seq<nat>)
    requires round.Complete(order) && Holds(items, round.active) && round.Best(order).Some?
    ensures var o := round.Best(order).value;
            && o.gasUsed <= round.maxGas && o.hostGasUsed <= round.maxHostGas
            && o.cacheRank in items && o.cacheRank in round.Left(items, order)
            && round.Left(items, order)[o.cacheRank] == items[o.cacheRank]
            && (Settles(round.fills, o.events) <==> Covers(round.fills, o.events))
            && (OrdersPositive(round.config) ==> Covers(round.fills, o.events))
            && (var evs := ItemEvents(Parts(round.config, round.view, round.fills, items[o.cacheRank]));
                o.events == Cumulative(evs) && PrefixChecks(round.fills, evs))
  {
    RoundLeaves(round, items, order);
    var o := round.Best(order).value;
    OutcomeIsTotal(round.config, round.view, round.fills, o.cacheRank, items[o.cacheRank]);
    OutcomeSettles(round.config, round.view, round.fills, o.cacheRank, items[o.cacheRank]);
  }

  /**
   The `expect("checked during simulation")` fails exactly when the winner orders a key
   that nobody has; positive orders never do.
   */
  lemma {:induction false} PlayPanics(c: Config, limit: nat, pre: EnvState, maxGas: U64,
                                      maxHostGas: U64, p: Play, post: EnvState)
    requires IsPlay(c, limit, pre, maxGas, maxHostGas, p, post)
    ensures p.result == RoundResult.Panicked <==>
            p.round.Best(p.order).Some? && !Covers(pre.fills, p.round.Best(p.order).value.events)
    ensures OrdersPositive(c) ==> p.result != RoundResult.Panicked
  {
    PreflightHolds(pre.store, pre.view, limit, p.read, p.round.active, p.kept);
    if p.round.Best(p.order).Some? {
      WinnerSettles(p.round, p.kept.items, p.order);
    }
  }

  /** The item at this place was selected: its outcome is the result, and the state has moved on. */
  ghost predicate SelectedAt(pre: EnvState, p: Play, post: EnvState, i: nat) {
    && i < |p.round.active| && p.round.Outcome(i).Some?
    && var o, c := p.round.Outcome(i).value, p.round.active[i];
       && p.result == Selected(SimulatedItem(o.score, o.gasUsed, o.hostGasUsed, c.item))
       && post.view == o.next && c.rank !in post.store.items
       && Settles(pre.fills, o.events) && post.fills == Settled(pre.fills, o.events)
  }

  /** What a round works on: the best items valid in its view, or none when one cannot be checked. */
  lemma {:induction false} PlayReads(c: Config, limit: nat, pre: EnvState, maxGas: U64, maxHostGas: U64,
                                     p: Play, post: EnvState)
    requires IsPlay(c, limit, pre, maxGas, maxHostGas, p, post)
    ensures p.round == Round(c, pre.view, pre.fills, p.round.active, maxGas, maxHostGas)
    ensures p.read.Read? ==> BestValid(pre.store.items, pre.view.ru, pre.view.host, limit, p.round.active)
    ensures p.read.SourceFailed? ==>
              && p.round.active == [] && p.read.rank in pre.store.items
              && ItemVerdict(pre.store.items[p.read.rank], pre.view.ru, pre.view.host).Err?
  {
    if p.read.Read? {
      ReadIsBest(pre.store.items, p.read.candidates, pre.view.ru, pre.view.host, limit, p.read.m);
    }
  }

  lemma {:induction false} PlayIsBest(c: Config, limit: nat, pre: EnvState, maxGas: U64, maxHostGas: U64,
                                      p: Play, post: EnvState)
    requires IsPlay(c, limit, pre, maxGas, maxHostGas, p, post)
    ensures p.round.Complete(p.order) && p.round.maxGas == maxGas && p.round.maxHostGas == maxHostGas
    ensures p.result == Nothing <==> p.round.Best(p.order) == None
    ensures p.result.Selected? ==>
              && p.round.Best(p.order).Some?
              && p.result.simulated.score == p.round.Best(p.order).value.score
              && p.result.simulated.gasUsed == p.round.Best(p.order).value.gasUsed
              && p.result.simulated.hostGasUsed == p.round.Best(p.order).value.hostGasUsed
  {
  }

  /** Some outcome of the round scores and fits both budgets. */
  ghost predicate SomeFits(round: Round, gas: nat, hostGas: nat) {
    exists i: nat | i < |round.active| ::
      var o := round.Outcome(i);
      o.Some? && o.value.score > 0 && o.value.gasUsed <= gas && o.value.hostGasUsed <= hostGas
  }

  /**
   What a round selects: no item exactly when no outcome scores and fits both budgets;
   otherwise one with the highest score, whose state is moved to and whose events are settled.
   */
  lemma {:induction false} PlaySelects(c: Config, limit: nat, pre: EnvState, maxGas: U64,
                                       maxHostGas: U64, p: Play, post: EnvState)
    requires IsPlay(c, limit, pre, maxGas, maxHostGas, p, post)
    ensures p.result == Nothing <==> !SomeFits(p.round, maxGas, maxHostGas)
    ensures p.result.Selected? ==>
              && p.result.simulated.score > 0
              && p.result.simulated.gasUsed <= maxGas && p.result.simulated.hostGasUsed <= maxHostGas
              && (exists i: nat :: SelectedAt(pre, p, post, i))
              && (forall i: nat | i < |p.round.active| ::
                    var o := p.round.Outcome(i);
                    o.Some? && o.value.gasUsed <= maxGas && o.value.hostGasUsed <= maxHostGas ==>
                      o.value.score <= p.result.simulated.score)
  {
    PlayIsBest(c, limit, pre, maxGas, maxHostGas, p, post);
    RoundChooses(p.round, p.order);
    if p.result.Selected? {
      WinnerIsSelected(c, limit, pre, maxGas, maxHostGas, p, post);
    }
  }

  lemma {:induction false} WinnerIsSelected(c: Config, limit: nat, pre: EnvState, maxGas: U64,
                                            maxHostGas: U64, p: Play, post: EnvState)
    requires IsPlay(c, limit, pre, maxGas, maxHostGas, p, post) && p.result.Selected?
    ensures exists i: nat :: SelectedAt(pre, p, post, i)
  {
    PreflightHolds(pre.store, pre.view, limit, p.read, p.round.active, p.kept);
    BestOfRound(p.round, p.order);
    RoundLeaves(p.round, p.kept.items, p.order);
    var i: nat :| i < |p.round.active| && p.round.Candidate(i) == p.round.Best(p.order);
    WinnerAt(c, limit, pre, maxGas, maxHostGas, p, post, i);
  }

  lemma {:induction false} WinnerAt(c: Config, limit: nat, pre: EnvState, maxGas: U64, maxHostGas: U64,
                                    p: Play, post: EnvState, i: nat)
    requires IsPlay(c, limit, pre, maxGas, maxHostGas, p, post) && p.result.Selected?
    requires i < |p.round.active| && p.round.Candidate(i) == p.round.Best(p.order)
    requires Holds(p.kept.items, p.round.active)
    requires var r := p.round.Best(p.order).value.cacheRank;
             r in p.round.Left(p.kept.items, p.order) && p.round.Left(p.kept.items, p.order)[r] == p.kept.items[r]
    ensures SelectedAt(pre, p, post, i)
  {
    assert p.round.Outcome(i) == p.round.Best(p.order);
    assert p.round.active[i].rank in p.kept.items;
  }

  lemma {:induction false} PlayFits(c: Config, limit: nat, pre: EnvState, maxGas: U64,
                                    maxHostGas: U64, p: Play, post: EnvState)
    requires IsPlay(c, limit, pre, maxGas, maxHostGas, p, post) && p.result.Selected?
    ensures p.result.simulated.gasUsed <= maxGas && p.result.simulated.hostGasUsed <= maxHostGas
  {
    PreflightHolds(pre.store, pre.view, limit, p.read, p.round.active, p.kept);
    RoundLeaves(p.round, p.kept.items, p.order);
  }

  /** A selected item fits what is left of the budgets, and the fills settled its total. */
  lemma {:induction false} PlaySettles(c: Config, limit: nat, pre: EnvState, maxGas: U64,
                                       maxHostGas: U64, p: Play, post: EnvState) returns (part: Item)
    requires IsPlay(c, limit, pre, maxGas, maxHostGas, p, post) && p.result.Selected?
    ensures part == Parts(c, pre.view, pre.fills, p.result.simulated.item)
    ensures p.result.simulated.gasUsed <= maxGas && p.result.simulated.hostGasUsed <= maxHostGas
    ensures PrefixChecks(pre.fills, ItemEvents(part))
    ensures Settles(pre.fills, Cumulative(ItemEvents(part)))
    ensures post.fills == Settled(pre.fills, Cumulative(ItemEvents(part)))
  {
    PreflightHolds(pre.store, pre.view, limit, p.read, p.round.active, p.kept);
    WinnerSettles(p.round, p.kept.items, p.order);
    part := Parts(c, pre.view, pre.fills, p.result.simulated.item);
  }

  class SharedSimEnv {
    const config: Config
    const simItems: CacheStore
    const fillState: AggregateFills
    const concurrencyLimit: nat
    var view: View

    constructor (config: Config, view: View, simItems: CacheStore, fillState: AggregateFills,
                 concurrencyLimit: nat)
      ensures this.config == config && this.view == view && this.simItems == simItems
      ensures this.fillState == fillState && this.concurrencyLimit == concurrencyLimit
    {
      this.config, this.view, this.simItems := config, view, simItems;
      this.fillState, this.concurrencyLimit := fillState, concurrencyLimit;
    }

    ghost function Now(): EnvState
      reads this, simItems, fillState
    {
      EnvState(simItems.State(), view, fillState.fills)
    }

    /** The preflight read; no items at all when the source fails. */
    method Preflight() returns (active: Candidates, ghost read: Reading)
      requires simItems.Valid()
      modifies simItems`items, simItems`seen, simItems`disallowed
      ensures simItems.Valid()
      ensures Preflighted(old(simItems.State()), view, concurrencyLimit, read, active, simItems.State())
      ensures read.Read? ==>
                && BestValid(old(simItems.items), view.ru, view.host, concurrencyLimit, active)
                && (forall r :: r in simItems.items <==>
                      && r in old(simItems.items)
                      && !(LookedAt(active, concurrencyLimit, r)
                           && ItemVerdict(old(simItems.items)[r], view.ru, view.host) == Ok(Never)))
      ensures read.SourceFailed? ==>
                && active == [] && simItems.items == old(simItems.items) && read.rank in simItems.items
                && ItemVerdict(simItems.items[read.rank], view.ru, view.host).Err?
    {
      var best, cs, m := simItems.ReadBestValid(concurrencyLimit, view.ru, view.host);
      active := if best.Ok? then best.value else [];
      read := if best.Ok? then Read(cs, m) else SourceFailed(cs[m].rank);
    }

    /** Simulates the best valid items and finds the winner, which stays in the cache. */
    method Compete(maxGas: U64, maxHostGas: U64)
      returns (best: Option<SimOutcome>, ghost read: Reading, ghost kept: Store, ghost round: Round,
               ghost order: seq<nat>)
      requires simItems.Valid()
      modifies simItems`items, simItems`seen, simItems`disallowed
      ensures simItems.Valid()
      ensures Preflighted(old(simItems.State()), view, concurrencyLimit, read, round.active, kept)
      ensures round == Round(config, view, fillState.fills, round.active, maxGas, maxHostGas)
      ensures round.Complete(order) && best == round.Best(order)
      ensures simItems.State() == WithItems(kept, round.Left(kept.items, order))
      ensures best.Some? ==> best.value.cacheRank in simItems.items
    {
      var active;
      active, read := Preflight();
      kept := simItems.State();
      var working := Round(config, view, fillState.fills, active, maxGas, maxHostGas);
      round := working;
      best, order := Simulation.SimRound(fillState, simItems, working);
      PreflightHolds(old(simItems.State()), view, concurrencyLimit, read, active, kept);
      RoundLeaves(round, kept.items, order);
    }

    /** Takes the winner out of the cache, moves to its state and settles its events. */
    method Accept(outcome: SimOutcome) returns (result: RoundResult)
      requires simItems.Valid() && outcome.cacheRank in simItems.items
      modifies this`view, simItems`items, simItems`seen, fillState
      ensures simItems.Valid()
      ensures simItems.State() == WithItems(old(simItems.State()),
                                            old(simItems.items) - {outcome.cacheRank})
      ensures view == outcome.next
      ensures result == if Settles(old(fillState.fills), outcome.events) then
                          Selected(SimulatedItem(outcome.score, outcome.gasUsed, outcome.hostGasUsed,
                                                 old(simItems.items)[outcome.cacheRank]))
                        else RoundResult.Panicked
      ensures result.Selected? ==>
                fillState.fills == Settled(old(fillState.fills), outcome.events)
    {
      var item := simItems.Remove(outcome.cacheRank);
      view := outcome.next;
      var accepted;
      ghost var visits;
      accepted, visits := fillState.CheckedRemoveRuTxEvents(outcome.events.fills, outcome.events.orders);
      if accepted != Accepted {
        return RoundResult.Panicked;
      }
      result := Selected(SimulatedItem(outcome.score, outcome.gasUsed, outcome.hostGasUsed,
                                       item.value));
    }

    /** `sim_round`. */
    method SimRound(maxGas: U64, maxHostGas: U64) returns (result: RoundResult, ghost p: Play)
      requires simItems.Valid()
      modifies this`view, simItems`items, simItems`seen, simItems`disallowed, fillState
      ensures simItems.Valid() && p.result == result
      ensures IsPlay(config, concurrencyLimit, old(Now()), maxGas, maxHostGas, p, Now())
      ensures result == Nothing <==> !SomeFits(p.round, maxGas, maxHostGas)
      ensures result.Selected? ==> exists i: nat :: SelectedAt(old(Now()), p, Now(), i)
    {
      result, p := PlayOne(maxGas, maxHostGas);
      PlaySelects(config, concurrencyLimit, old(Now()), maxGas, maxHostGas, p, Now());
    }

    /** Preflight, competition and acceptance. */
    method PlayOne(maxGas: U64, maxHostGas: U64) returns (result: RoundResult, ghost p: Play)
      requires simItems.Valid()
      modifies this`view, simItems`items, simItems`seen, simItems`disallowed, fillState
      ensures simItems.Valid() && p.result == result
      ensures IsPlay(config, concurrencyLimit, old(Now()), maxGas, maxHostGas, p, Now())
    {
      var best;
      ghost var read, kept, round, order;
      best, read, kept, round, order := Compete(maxGas, maxHostGas);
      if best.None? {
        return Nothing, Play(read, kept, round, order, Nothing);
      }
      result := Accept(best.value);
      p := Play(read, kept, round, order, result);
    }
  }

  // ---- the block ----

  function TxsOf(item: SimItem): seq<SimTx> {
    if item.TxItem? then [item.tx] else item.bundle.txs
  }

  function HostTxsOf(item: SimItem): seq<SimTx> {
    if item.TxItem? then [] else item.bundle.hostTxs
  }

  class BuiltBlock {
    var transactions: seq<SimTx>
    var hostTxns: seq<SimTx>
    var gasUsed: U64
    var hostGasUsed: U64

    constructor ()
      ensures transactions == [] && hostTxns == [] && gasUsed == 0 && hostGasUsed == 0
    {
      transactions, hostTxns, gasUsed, hostGasUsed := [], [], 0, 0;
    }

    method IngestTx(tx: SimTx)
      modifies this`transactions
      ensures transactions == old(transactions) + [tx]
    {
      transactions := transactions + [tx];
    }

    method IngestBundle(bundle: RecoveredBundle)
      modifies this`transactions, this`hostTxns
      ensures transactions == old(transactions) + bundle.txs
      ensures hostTxns == old(hostTxns) + bundle.hostTxs
    {
      transactions := transactions + bundle.txs;
      hostTxns := hostTxns + bundle.hostTxs;
    }

    /** The gas counters wrap, as release builds do; the build never lets them. */
    method Ingest(s: SimulatedItem)
      modifies this
      ensures transactions == old(transactions) + TxsOf(s.item)
      ensures hostTxns == old(hostTxns) + HostTxsOf(s.item)
      ensures gasUsed == WrapAdd64(old(gasUsed), s.gasUsed)
      ensures hostGasUsed == WrapAdd64(old(hostGasUsed), s.hostGasUsed)
      ensures s.item.TxItem? ==>
                transactions == old(transactions) + [s.item.tx] && hostTxns == old(hostTxns)
      ensures s.item.BundleItem? ==>
                && transactions == old(transactions) + s.item.bundle.txs
                && hostTxns == old(hostTxns) + s.item.bundle.hostTxs
    {
      gasUsed := WrapAdd64(gasUsed, s.gasUsed);
      hostGasUsed := WrapAdd64(hostGasUsed, s.hostGasUsed);
      match s.item
      case TxItem(tx) => IngestTx(tx);
      case BundleItem(bundle) => IngestBundle(bundle);
    }
  }

  /** Everything a block holds, item by item. */
  datatype Contents = Contents(txs: seq<SimTx>, hostTxs: seq<SimTx>, gas: nat, hostGas: nat)

  function ContentsOf(ingested: seq<SimulatedItem>): Contents {
    if ingested == [] then Contents([], [], 0, 0)
    else
      var c, s := ContentsOf(ingested[..|ingested| - 1]), ingested[|ingested| - 1];
      Contents(c.txs + TxsOf(s.item), c.hostTxs + HostTxsOf(s.item),
               c.gas + s.gasUsed, c.hostGas + s.hostGasUsed)
  }

  /**
   What was built: the items and the events behind them, the transactions of the block with
   what the builder made of each, the fill state at the start, and how many rounds simulated
   anything.
   */
  datatype Record = Record(start: Table, ingested: seq<SimulatedItem>, parts: seq<Item>,
                           tried: seq<Attempt>, productive: nat)

  datatype BuildState = BuildState(env: EnvState, record: Record)
  {
    function Gas(): nat {
      ContentsOf(record.ingested).gas
    }

    function HostGas(): nat {
      ContentsOf(record.ingested).hostGas
    }
  }

  /** What stays fixed during a build. */
  datatype Rules = Rules(config: Config, limit: nat, capacity: nat, maxGas: U64, maxHostGas: U64)

  ghost function Recorded(c: Config, pre: BuildState, p: Play): Record {
    var record := pre.record.(productive := pre.record.productive
                                            + if p.round.active == [] then 0 else 1);
    if p.result.Selected? then
      record.(ingested := record.ingested + [p.result.simulated],
              parts := record.parts + [Parts(c, pre.env.view, pre.env.fills, p.result.simulated.item)],
              tried := record.tried + TriedBy(c, pre.env.view, pre.env.fills, p.result.simulated.item))
    else record
  }

  /** `round`: what is left of the budgets goes into the round, and the winner into the block. */
  ghost predicate IsRound(r: Rules, pre: BuildState, p: Play, post: BuildState) {
    && Within(r, pre)
    && IsPlay(r.config, r.limit, pre.env, r.maxGas - pre.Gas(), r.maxHostGas - pre.HostGas(), p, post.env)
    && post.record == Recorded(r.config, pre, p)
  }

  /** One turn of the loop: items arrive, then a round if there is anything to simulate. */
  ghost predicate Turn(r: Rules, pre: BuildState, offers: seq<Offer>, loaded: Store, p: Play,
                       post: BuildState) {
    && AddedAll(pre.env.store, r.capacity, offers, loaded)
    && var mid := pre.(env := pre.env.(store := loaded));
       if loaded.items == map[] then post == mid
       else IsRound(r, mid, p, post) && p.result != RoundResult.Panicked
  }

  /** `run_build` over any number of turns without a panic. */
  ghost predicate Builds(r: Rules, pre: BuildState, arrivals: seq<seq<Offer>>, post: BuildState)
    decreases |arrivals|, 1
  {
    if arrivals == [] then post == pre
    else exists mid, loaded, p :: LastTurn(r, pre, arrivals, mid, loaded, p, post)
  }

  /** The last turn of such a build starts at `mid`. */
  ghost predicate LastTurn(r: Rules, pre: BuildState, arrivals: seq<seq<Offer>>, mid: BuildState,
                           loaded: Store, p: Play, post: BuildState)
    requires arrivals != []
    decreases |arrivals|, 0
  {
    && Builds(r, pre, arrivals[..|arrivals| - 1], mid)
    && Turn(r, mid, arrivals[|arrivals| - 1], loaded, p, post)
  }

  lemma {:induction false} BuildsMore(r: Rules, pre: BuildState, arrivals: seq<seq<Offer>>, k: nat,
                                      mid: BuildState, loaded: Store, p: Play, post: BuildState)
    requires k < |arrivals| && Builds(r, pre, arrivals[..k], mid)
    requires Turn(r, mid, arrivals[k], loaded, p, post)
    ensures Builds(r, pre, arrivals[..k + 1], post)
  {
    assert arrivals[..k + 1][..k] == arrivals[..k];
    assert LastTurn(r, pre, arrivals[..k + 1], mid, loaded, p, post);
  }

  // ---- what every build keeps ----

  ghost predicate Within(r: Rules, s: BuildState) {
    s.Gas() <= r.maxGas && s.HostGas() <= r.maxHostGas
  }

  /**
   Within both budgets; every item settled as the builder settles, the fills the result; one
   attempt for each transaction of the block, and those taken are the parts.
   */
  ghost predicate Accounted(r: Rules, s: BuildState) {
    && Within(r, s)
    && BuilderAccepts(s.record.start, s.record.parts)
    && s.env.fills == BuilderLedger(s.record.start, s.record.parts)
    && TakenEvents(s.record.tried) == NodeStream(s.record.parts)
    && |s.record.tried| == |ContentsOf(s.record.ingested).txs|
  }

  lemma {:induction false} ContentsGrow(ingested: seq<SimulatedItem>, s: SimulatedItem)
    ensures var c := ContentsOf(ingested);
            ContentsOf(ingested + [s]) == Contents(c.txs + TxsOf(s.item), c.hostTxs + HostTxsOf(s.item),
                                                   c.gas + s.gasUsed, c.hostGas + s.hostGasUsed)
  {
    assert (ingested + [s])[..|ingested + [s]| - 1] == ingested;
  }

  lemma {:induction false} BuilderGrows(start: Table, parts: seq<Item>, fills: Table, part: Item,
                                        events: TxEvents)
    requires BuilderAccepts(start, parts) && fills == BuilderLedger(start, parts)
    requires events == Cumulative(ItemEvents(part)) && PrefixChecks(fills, ItemEvents(part))
    requires Settles(fills, events)
    ensures BuilderAccepts(start, parts + [part])
    ensures BuilderLedger(start, parts + [part]) == Settled(fills, events)
  {
    assert (parts + [part])[..|parts + [part]| - 1] == parts;
  }

  lemma {:induction false} TriedGrows(parts: seq<Item>, tried: seq<Attempt>, part: Item, more: seq<Attempt>)
    requires TakenEvents(tried) == NodeStream(parts) && part.txs == TakenEvents(more)
    ensures TakenEvents(tried + more) == NodeStream(parts + [part])
  {
    TakenAppend(tried, more);
    assert (parts + [part])[..|parts + [part]| - 1] == parts;
  }

  /** An item that fits and was settled in one step keeps the account. */
  lemma {:induction false} AccountedGrows(r: Rules, pre: BuildState, s: SimulatedItem, part: Item,
                                          more: seq<Attempt>, post: BuildState)
    requires Accounted(r, pre)
    requires s.gasUsed <= r.maxGas - pre.Gas() && s.hostGasUsed <= r.maxHostGas - pre.HostGas()
    requires PrefixChecks(pre.env.fills, ItemEvents(part))
    requires Settles(pre.env.fills, Cumulative(ItemEvents(part)))
    requires post.env.fills == Settled(pre.env.fills, Cumulative(ItemEvents(part)))
    requires post.record.start == pre.record.start
    requires post.record.ingested == pre.record.ingested + [s]
    requires post.record.parts == pre.record.parts + [part]
    requires part.txs == TakenEvents(more) && |more| == |TxsOf(s.item)|
    requires post.record.tried == pre.record.tried + more
    ensures Accounted(r, post)
  {
    TriedGrows(pre.record.parts, pre.record.tried, part, more);
    ContentsGrow(pre.record.ingested, s);
    BuilderGrows(pre.record.start, pre.record.parts, pre.env.fills, part, Cumulative(ItemEvents(part)));
  }

  lemma {:induction false} SelectedAccounted(r: Rules, pre: BuildState, p: Play, part: Item,
                                             post: BuildState)
    requires Accounted(r, pre) && p.result.Selected? && post.record == Recorded(r.config, pre, p)
    requires part == Parts(r.config, pre.env.view, pre.env.fills, p.result.simulated.item)
    requires p.result.simulated.gasUsed <= r.maxGas - pre.Gas()
    requires p.result.simulated.hostGasUsed <= r.maxHostGas - pre.HostGas()
    requires PrefixChecks(pre.env.fills, ItemEvents(part))
    requires Settles(pre.env.fills, Cumulative(ItemEvents(part)))
    requires post.env.fills == Settled(pre.env.fills, Cumulative(ItemEvents(part)))
    ensures Accounted(r, post) && post.record.start == pre.record.start
  {
    var item := p.result.simulated.item;
    PartsAreTaken(r.config, pre.env.view, pre.env.fills, item);
    AccountedGrows(r, pre, p.result.simulated, part,
                   TriedBy(r.config, pre.env.view, pre.env.fills, item), post);
  }

  /** What one round does to the fills. */
  lemma {:induction false} RoundSettles(r: Rules, pre: BuildState, p: Play, post: BuildState)
    returns (part: Item)
    requires IsRound(r, pre, p, post) && p.result != RoundResult.Panicked
    ensures !p.result.Selected? ==> post.env.fills == pre.env.fills
    ensures p.result.Selected? ==>
              && part == Parts(r.config, pre.env.view, pre.env.fills, p.result.simulated.item)
              && p.result.simulated.gasUsed <= r.maxGas - pre.Gas()
              && p.result.simulated.hostGasUsed <= r.maxHostGas - pre.HostGas()
              && PrefixChecks(pre.env.fills, ItemEvents(part))
              && Settles(pre.env.fills, Cumulative(ItemEvents(part)))
              && post.env.fills == Settled(pre.env.fills, Cumulative(ItemEvents(part)))
  {
    if p.result.Selected? {
      part := PlaySettles(r.config, r.limit, pre.env, r.maxGas - pre.Gas(),
                          r.maxHostGas - pre.HostGas(), p, post.env);
    } else {
      part := Item([], []);
    }
  }

  lemma {:induction false} RoundAccounted(r: Rules, pre: BuildState, p: Play, post: BuildState)
    requires Accounted(r, pre) && IsRound(r, pre, p, post) && p.result != RoundResult.Panicked
    ensures Accounted(r, post) && post.record.start == pre.record.start
  {
    var part := RoundSettles(r, pre, p, post);
    if p.result.Selected? {
      SelectedAccounted(r, pre, p, part, post);
    }
  }

  lemma {:induction false} TurnAccounted(r: Rules, pre: BuildState, offers: seq<Offer>, loaded: Store,
                                         p: Play, post: BuildState)
    requires Accounted(r, pre) && Turn(r, pre, offers, loaded, p, post)
    ensures Accounted(r, post) && post.record.start == pre.record.start
  {
    var mid := pre.(env := pre.env.(store := loaded));
    if loaded.items != map[] {
      RoundAccounted(r, mid, p, post);
    }
  }

  /** A round that does not panic records its winner, if it has one, and nothing else. */
  lemma {:induction false} RoundRecords(r: Rules, pre: BuildState, p: Play, post: BuildState)
    requires IsRound(r, pre, p, post) && p.result != RoundResult.Panicked
    ensures p.result == Nothing ==> post.record.ingested == pre.record.ingested
    ensures p.result != Nothing ==>
              p.result.Selected? && post.record.ingested == pre.record.ingested + [p.result.simulated]
    ensures post.record.productive == pre.record.productive + if |p.round.active| > 0 then 1 else 0
  {
  }

  lemma {:induction false} RoundReads(r: Rules, pre: BuildState, p: Play, post: BuildState)
    requires IsRound(r, pre, p, post) && p.read.Read?
    ensures BestValid(pre.env.store.items, pre.env.view.ru, pre.env.view.host, r.limit, p.round.active)
  {
    PlayReads(r.config, r.limit, pre.env, r.maxGas - pre.Gas(), r.maxHostGas - pre.HostGas(), p, post.env);
  }

  lemma {:induction false} RoundSelects(r: Rules, pre: BuildState, p: Play, post: BuildState)
    requires IsRound(r, pre, p, post) && Within(r, pre)
    ensures p.result == Nothing <==> !SomeFits(p.round, r.maxGas - pre.Gas(), r.maxHostGas - pre.HostGas())
    ensures p.result.Selected? ==> exists i: nat :: SelectedAt(pre.env, p, post.env, i)
  {
    var gas: U64, hostGas: U64 := r.maxGas - pre.Gas(), r.maxHostGas - pre.HostGas();
    PlaySelects(r.config, r.limit, pre.env, gas, hostGas, p, post.env);
  }

  /** When the record grows in a round. */
  ghost predicate GrowsBy(r: Rules, pre: BuildState, p: Play, post: BuildState)
    requires Within(r, pre)
  {
    if SomeFits(p.round, r.maxGas - pre.Gas(), r.maxHostGas - pre.HostGas())
    then
      && p.result.Selected? && post.record.ingested == pre.record.ingested + [p.result.simulated]
      && exists i: nat :: SelectedAt(pre.env, p, post.env, i)
    else post.record.ingested == pre.record.ingested
  }

  lemma {:induction false} RoundGrows(r: Rules, pre: BuildState, p: Play, post: BuildState)
    requires IsRound(r, pre, p, post) && p.result != RoundResult.Panicked && Within(r, pre)
    ensures GrowsBy(r, pre, p, post)
  {
    RoundSelects(r, pre, p, post);
    RoundRecords(r, pre, p, post);
  }

  /**
   When a block grows: a turn adds an item exactly when one of the best items valid then
   has an outcome that scores and fits what is left of both budgets; it is then the item of
   such an outcome, with the highest score.
   */
  lemma {:induction false} TurnGrows(r: Rules, pre: BuildState, offers: seq<Offer>, loaded: Store, p: Play,
                                     post: BuildState)
    requires Turn(r, pre, offers, loaded, p, post) && Within(r, pre)
    ensures loaded.items == map[] ==> post.record.ingested == pre.record.ingested
    ensures loaded.items != map[] ==>
              var mid := pre.(env := pre.env.(store := loaded));
              && GrowsBy(r, mid, p, post)
              && (p.read.Read? ==>
                  BestValid(loaded.items, pre.env.view.ru, pre.env.view.host, r.limit, p.round.active))
  {
    if loaded.items != map[] {
      var mid := pre.(env := pre.env.(store := loaded));
      RoundGrows(r, mid, p, post);
      if p.read.Read? {
        RoundReads(r, mid, p, post);
      }
    }
  }

  /** Over any number of turns the block stays within budget and its fills settled. */
  lemma {:induction false} BuildAccounted(r: Rules, pre: BuildState, arrivals: seq<seq<Offer>>,
                                          post: BuildState)
    requires Accounted(r, pre) && Builds(r, pre, arrivals, post)
    ensures Accounted(r, post) && post.record.start == pre.record.start
    decreases |arrivals|
  {
    if arrivals != [] {
      var mid, loaded, p :| LastTurn(r, pre, arrivals, mid, loaded, p, post);
      BuildAccounted(r, pre, arrivals[..|arrivals| - 1], mid);
      TurnAccounted(r, mid, arrivals[|arrivals| - 1], loaded, p, post);
    }
  }

  lemma {:induction false} AddedSize(s: Store, capacity: nat, fee: U128, item: SimItem, t: Store)
    requires Added(s, capacity, fee, item, t)
    ensures |t.items| <= |s.items| + 1
  {
  }

  lemma {:induction false} AddedAllSize(s: Store, capacity: nat, offers: seq<Offer>, t: Store)
    requires AddedAll(s, capacity, offers, t)
    ensures |t.items| <= |s.items| + |offers|
    decreases |offers|
  {
    if offers != [] {
      var before, last := offers[..|offers| - 1], offers[|offers| - 1];
      var mid :| AddedAll(s, capacity, before, mid) && Added(mid, capacity, last.fee, last.item, t);
      AddedAllSize(s, capacity, before, mid);
      AddedSize(mid, capacity, last.fee, last.item, t);
    }
  }

  function Offered(arrivals: seq<seq<Offer>>): nat {
    if arrivals == [] then 0
    else Offered(arrivals[..|arrivals| - 1]) + |arrivals[|arrivals| - 1]|
  }

  lemma {:induction false} RoundShrinks(r: Rules, pre: BuildState, p: Play, post: BuildState)
    requires IsRound(r, pre, p, post)
    ensures post.record.productive + |post.env.store.items|
         <= pre.record.productive + |pre.env.store.items|
  {
    PlayShrinks(r.config, r.limit, pre.env, r.maxGas - pre.Gas(), r.maxHostGas - pre.HostGas(),
                p, post.env);
  }

  lemma {:induction false} TurnShrinks(r: Rules, pre: BuildState, offers: seq<Offer>, loaded: Store,
                                       p: Play, post: BuildState)
    requires Turn(r, pre, offers, loaded, p, post)
    ensures post.record.productive + |post.env.store.items|
         <= pre.record.productive + |pre.env.store.items| + |offers|
  {
    AddedAllSize(pre.env.store, r.capacity, offers, loaded);
    if loaded.items != map[] {
      var mid := pre.(env := pre.env.(store := loaded));
      RoundShrinks(r, mid, p, post);
    }
  }

  /**
   Progress over a build: each round that simulated anything used up an item, so there
   are no more of those than items to begin with and arrivals together.
   */
  lemma {:induction false} ProductiveRounds(r: Rules, pre: BuildState, arrivals: seq<seq<Offer>>,
                                            post: BuildState)
    requires Builds(r, pre, arrivals, post)
    ensures post.record.productive + |post.env.store.items|
         <= pre.record.productive + |pre.env.store.items| + Offered(arrivals)
    decreases |arrivals|
  {
    if arrivals != [] {
      var mid, loaded, p :| LastTurn(r, pre, arrivals, mid, loaded, p, post);
      ProductiveRounds(r, pre, arrivals[..|arrivals| - 1], mid);
      TurnShrinks(r, mid, arrivals[|arrivals| - 1], loaded, p, post);
    }
  }

  /** A build that starts with nothing in its block. */
  predicate FromScratch(s: BuildState) {
    s.record == Record(s.env.fills, [], [], [], 0)
  }

  /** The ledger of a node that has credited the host fills of a built block. */
  ghost function NodeStart(pre: BuildState, post: BuildState): Table {
    Absorbed(pre.env.fills, HostFills(post.record.parts))
  }

  /**
   What a build took, in the node: it settles one by one when the order totals fit a U256,
   and only then unless the node's own credits saturate; without saturation it leaves the
   builder's fills.
   */
  lemma {:induction false} TakenSettle(r: Rules, pre: BuildState, arrivals: seq<seq<Offer>>,
                                       post: BuildState)
    requires FromScratch(pre) && Builds(r, pre, arrivals, post) && WellFormed(post.record.parts)
    ensures |post.record.tried| == |ContentsOf(post.record.ingested).txs|
    ensures var start, taken := NodeStart(pre, post), TakenEvents(post.record.tried);
            && (OrdersFit(taken) ==> RunSettles(start, taken))
            && (CreditsFit(start, taken) ==> (RunSettles(start, taken) <==> OrdersFit(taken)))
    ensures CreditsFit(pre.env.fills, BuilderStream(post.record.parts)) ==>
              var start, taken := NodeStart(pre, post), TakenEvents(post.record.tried);
              RunSettles(start, taken) && RunSettled(start, taken) == post.env.fills
  {
    BuildAccounted(r, pre, arrivals, post);
    NodeAcceptsBuiltBlock(pre.env.fills, post.record.parts);
  }

  /** A node that has tried the whole block and followed the builder ends with its fills. */
  ghost predicate EndsWith(start: Table, tried: seq<Attempt>, fills: Table) {
    forall cs | FollowsAlong(tried, cs) && cs[0] == start && |cs| == |tried| + 1 :: cs[|tried|] == fills
  }

  /**
   End to end, for every build without a panic: a node that credits all host fills and then
   tries every transaction of the block, dropped ones included, settles exactly those the
   builder took and keeps their ledger, in every order of visits, if and only if those
   settle one by one and every dropped transaction is harmless at its place.  Positive
   orders whose totals fit do settle one by one; without saturation the node ends with the
   builder's fills.
   */
  lemma {:induction false} BuiltBlockIsAccepted(r: Rules, pre: BuildState, arrivals: seq<seq<Offer>>,
                                                post: BuildState)
    requires FromScratch(pre) && Builds(r, pre, arrivals, post)
    ensures |post.record.tried| == |ContentsOf(post.record.ingested).txs|
    ensures var start, tried := NodeStart(pre, post), post.record.tried;
            AlwaysFollows(start, tried) <==> RunSettles(start, TakenEvents(tried)) && NoneHarms(start, tried)
    ensures WellFormed(post.record.parts) && OrdersFit(TakenEvents(post.record.tried)) ==>
              RunSettles(NodeStart(pre, post), TakenEvents(post.record.tried))
    ensures WellFormed(post.record.parts) && CreditsFit(pre.env.fills, BuilderStream(post.record.parts)) ==>
              EndsWith(NodeStart(pre, post), post.record.tried, post.env.fills)
  {
    var start, tried := NodeStart(pre, post), post.record.tried;
    BuildAccounted(r, pre, arrivals, post);
    FollowsWhen(start, tried);
    if WellFormed(post.record.parts) {
      TakenSettle(r, pre, arrivals, post);
      FollowersEnd(start, tried);
    }
  }

  lemma {:induction false} FollowersEnd(start: Table, tried: seq<Attempt>)
    ensures RunSettles(start, TakenEvents(tried)) ==>
              EndsWith(start, tried, RunSettled(start, TakenEvents(tried)))
  {
    forall cs | FollowsAlong(tried, cs) && cs[0] == start && |cs| == |tried| + 1
      ensures RunSettles(start, TakenEvents(tried)) && cs[|tried|] == RunSettled(start, TakenEvents(tried))
    {
      assert tried[..|tried|] == tried;
      StepLedger(tried, cs);
    }
  }

  lemma {:induction false} RoundPanics(r: Rules, pre: BuildState, p: Play, post: BuildState)
    requires IsRound(r, pre, p, post)
    ensures OrdersPositive(r.config) ==> p.result != RoundResult.Panicked
  {
    PlayPanics(r.config, r.limit, pre.env, r.maxGas - pre.Gas(), r.maxHostGas - pre.HostGas(),
               p, post.env);
  }

  /** What a round adds fits what was left of the budgets. */
  lemma {:induction false} RoundFits(r: Rules, pre: BuildState, p: Play, post: BuildState)
    requires IsRound(r, pre, p, post)
    ensures p.result.Selected? ==>
              && pre.Gas() + p.result.simulated.gasUsed <= r.maxGas
              && pre.HostGas() + p.result.simulated.hostGasUsed <= r.maxHostGas
              && post.record.ingested == pre.record.ingested + [p.result.simulated]
    ensures !p.result.Selected? ==> post.record.ingested == pre.record.ingested
  {
    if p.result.Selected? {
      PlayFits(r.config, r.limit, pre.env, r.maxGas - pre.Gas(), r.maxHostGas - pre.HostGas(),
               p, post.env);
    }
  }

  /** What ingesting an item makes of the contents while the counters do not wrap. */
  lemma {:induction false} Counted(before: seq<SimulatedItem>, txs: seq<SimTx>, hostTxs: seq<SimTx>,
                                   gas: U64, hostGas: U64, s: SimulatedItem)
    requires ContentsOf(before) == Contents(txs, hostTxs, gas, hostGas)
    requires gas + s.gasUsed <= U64_MAX && hostGas + s.hostGasUsed <= U64_MAX
    ensures ContentsOf(before + [s]) == Contents(txs + TxsOf(s.item), hostTxs + HostTxsOf(s.item),
                                                 WrapAdd64(gas, s.gasUsed), WrapAdd64(hostGas, s.hostGasUsed))
  {
    ContentsGrow(before, s);
    NoWrap(gas, s.gasUsed);
    NoWrap(hostGas, s.hostGasUsed);
  }

  class BlockBuild {
    const env: SharedSimEnv
    const block: BuiltBlock
    const maxGas: U64
    const maxHostGas: U64
    ghost var record: Record

    ghost function Now(): BuildState
      reads this, env, env.simItems, env.fillState
    {
      BuildState(env.Now(), record)
    }

    ghost function Terms(): Rules {
      Rules(env.config, env.concurrencyLimit, env.simItems.capacity, maxGas, maxHostGas)
    }

    /** The block holds exactly the items recorded. */
    ghost predicate Valid()
      reads this, block, env, env.simItems, env.fillState
    {
      && env.simItems.Valid() && Within(Terms(), Now())
      && ContentsOf(record.ingested)
         == Contents(block.transactions, block.hostTxns, block.gasUsed, block.hostGasUsed)
    }

    constructor (env: SharedSimEnv, maxGas: U64, maxHostGas: U64)
      requires env.simItems.Valid()
      ensures Valid() && fresh(block)
      ensures this.env == env && this.maxGas == maxGas && this.maxHostGas == maxHostGas
      ensures record == Record(env.fillState.fills, [], [], [], 0)
      ensures block.transactions == []
    {
      this.env, this.maxGas, this.maxHostGas := env, maxGas, maxHostGas;
      block := new BuiltBlock();
      record := Record(env.fillState.fills, [], [], [], 0);
    }

    /** Plays a round with what is left of the budgets, which never underflows. */
    method PlayRound() returns (result: RoundResult, ghost p: Play)
      requires Valid()
      modifies this`record
      modifies env`view, env.simItems`items, env.simItems`seen, env.simItems`disallowed, env.fillState
      ensures env.simItems.Valid() && p.result == result
      ensures IsRound(Terms(), old(Now()), p, Now())
    {
      ghost var pre := Now();
      var gasAllowed := maxGas - block.gasUsed;
      var hostGasAllowed := maxHostGas - block.hostGasUsed;
      result, p := env.SimRound(gasAllowed, hostGasAllowed);
      record := Recorded(env.config, pre, p);
    }

    /** The same, with what the rest of the round needs to know of it. */
    method PlayWithin() returns (result: RoundResult, ghost p: Play)
      requires Valid()
      modifies this`record
      modifies env`view, env.simItems`items, env.simItems`seen, env.simItems`disallowed, env.fillState
      ensures env.simItems.Valid() && p.result == result
      ensures IsRound(Terms(), old(Now()), p, Now())
      ensures OrdersPositive(env.config) ==> result != RoundResult.Panicked
      ensures !result.Selected? ==> record.ingested == old(record.ingested)
      ensures result.Selected? ==>
                && block.gasUsed + result.simulated.gasUsed <= maxGas
                && block.hostGasUsed + result.simulated.hostGasUsed <= maxHostGas
                && record.ingested == old(record.ingested) + [result.simulated]
    {
      ghost var pre := Now();
      result, p := PlayRound();
      RoundPanics(Terms(), pre, p, Now());
      RoundFits(Terms(), pre, p, Now());
    }

    /** `round`: the winner, if any, goes into the block. */
    method RunRound() returns (panicked: bool, ghost p: Play)
      requires Valid()
      modifies this`record, block
      modifies env`view, env.simItems`items, env.simItems`seen, env.simItems`disallowed, env.fillState
      ensures Valid()
      ensures IsRound(Terms(), old(Now()), p, Now())
      ensures panicked <==> p.result == RoundResult.Panicked
      ensures OrdersPositive(env.config) ==> !panicked
    {
      ghost var before := record.ingested;
      var result;
      result, p := PlayWithin();
      panicked := result == RoundResult.Panicked;
      if result.Selected? {
        Ingest(before, result.simulated);
      }
    }

    /** Ingests an item that fits, so that the counters do not wrap. */
    method Ingest(ghost before: seq<SimulatedItem>, s: SimulatedItem)
      requires ContentsOf(before)
            == Contents(block.transactions, block.hostTxns, block.gasUsed, block.hostGasUsed)
      requires block.gasUsed + s.gasUsed <= maxGas && block.hostGasUsed + s.hostGasUsed <= maxHostGas
      modifies block
      ensures ContentsOf(before + [s])
           == Contents(block.transactions, block.hostTxns, block.gasUsed, block.hostGasUsed)
    {
      Counted(before, block.transactions, block.hostTxns, block.gasUsed, block.hostGasUsed, s);
      block.Ingest(s);
    }

    /** One turn: items arrive, and a round follows if there is anything to simulate. */
    method RunTurn(offers: seq<Offer>) returns (panicked: bool, ghost loaded: Store, ghost p: Play)
      requires Valid()
      modifies this`record, block
      modifies env`view, env.simItems, env.fillState
      ensures Valid()
      ensures !panicked ==> Turn(Terms(), old(Now()), offers, loaded, p, Now())
      ensures OrdersPositive(env.config) ==> !panicked
    {
      env.simItems.AddAll(offers);
      loaded := env.simItems.State();
      if env.simItems.items.Keys == {} {
        return false, loaded, Play(Read([], 0), loaded,
                                   Round(env.config, env.view, map[], [], 0, 0), [], Nothing);
      }
      panicked, p := RunRound();
    }

    method NextTurn(arrivals: seq<seq<Offer>>, k: nat, ghost start: BuildState) returns (panicked: bool)
      requires Valid() && k < |arrivals| && Builds(Terms(), start, arrivals[..k], Now())
      modifies this`record, block
      modifies env`view, env.simItems, env.fillState
      ensures Valid()
      ensures !panicked ==> Builds(Terms(), start, arrivals[..k + 1], Now())
      ensures OrdersPositive(env.config) ==> !panicked
    {
      ghost var mid := Now();
      ghost var loaded, p;
      panicked, loaded, p := RunTurn(arrivals[k]);
      if !panicked {
        BuildsMore(Terms(), start, arrivals, k, mid, loaded, p, Now());
      }
    }

    /** The loop of `run_build`, for any number of turns and whatever arrives before each. */
    method RunTurns(arrivals: seq<seq<Offer>>) returns (panicked: bool)
      requires Valid()
      modifies this`record, block
      modifies env`view, env.simItems, env.fillState
      ensures Valid()
      ensures !panicked ==> Builds(Terms(), old(Now()), arrivals, Now())
      ensures OrdersPositive(env.config) ==> !panicked
    {
      ghost var start := Now();
      panicked := false;
      for k := 0 to |arrivals|
        invariant Valid() && !panicked
        invariant Builds(Terms(), start, arrivals[..k], Now())
      {
        panicked := NextTurn(arrivals, k, start);
        if panicked {
          return;
        }
      }
      assert arrivals[..|arrivals|] == arrivals;
    }

    /** `run_build`: a block that already has transactions is left alone. */
    method RunBuild(arrivals: seq<seq<Offer>>) returns (panicked: bool)
      requires Valid()
      modifies this`record, block
      modifies env`view, env.simItems, env.fillState
      ensures Valid()
      ensures old(block.transactions) != [] ==> !panicked && Now() == old(Now())
      ensures old(block.transactions) == [] && !panicked ==>
                Builds(Terms(), old(Now()), arrivals, Now())
      ensures OrdersPositive(env.config) ==> !panicked
    {
      if block.transactions != [] {
        return false;
      }
      panicked := RunTurns(arrivals);
    }
  }

  lemma {:induction false} NoWrap(x: U64, y: U64)
    requires x + y <= U64_MAX
    ensures WrapAdd64(x, y) == x + y
  {
  }
}
