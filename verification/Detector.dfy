/**
 Collecting order and fill events while the EVM runs: a list of events with a
 stack of frame boundaries, driven by the inspector hooks, against the tree of
 calls those hooks come from.
 */
module Detector {
  import opened Words
  import opened Aggregation
  import opened Orders

  /** A log as the decoder sees it; decoding itself is not modelled. */
  datatype Event = FilledEvent(outputs: seq<Output>) | OrderEvent(order: Order) | OtherEvent

  datatype Log = Log(emitter: Address, event: Event)

  /** What the detector keeps: the orders contracts, and whether orders count. */
  datatype Filter = Filter(contracts: set<Address>, fillsOnly: bool)
  {
    predicate KeepsFill(log: Log) {
      log.emitter in contracts && log.event.FilledEvent?
    }

    predicate KeepsOrder(log: Log) {
      log.emitter in contracts && !fillsOnly && log.event.OrderEvent?
    }

    /** The fill events among `logs`, in order. */
    function FillsIn(logs: seq<Log>): seq<seq<Output>> {
      if logs == [] then []
      else
        var kept, last := FillsIn(logs[..|logs| - 1]), logs[|logs| - 1];
        if KeepsFill(last) then kept + [last.event.outputs] else kept
    }

    function OrdersIn(logs: seq<Log>): seq<Order> {
      if logs == [] then []
      else
        var kept, last := OrdersIn(logs[..|logs| - 1]), logs[|logs| - 1];
        if KeepsOrder(last) then kept + [last.event.order] else kept
    }

    lemma {:induction false} Appended(xs: seq<Log>, ys: seq<Log>)
      ensures FillsIn(xs + ys) == FillsIn(xs) + FillsIn(ys)
      ensures OrdersIn(xs + ys) == OrdersIn(xs) + OrdersIn(ys)
    {
      if ys == [] {
        assert xs + ys == xs;
      } else {
        assert (xs + ys)[..|xs + ys| - 1] == xs + ys[..|ys| - 1];
        Appended(xs, ys[..|ys| - 1]);
      }
    }
  }

  // ---- what a filter keeps ----

  ghost predicate Rising(at: seq<nat>) {
    forall i, j | 0 <= i < j < |at| :: at[i] < at[j]
  }

  /** At these places, and at no others, a watched contract emitted a fill; `fills` are their outputs. */
  ghost predicate FillsAt(filter: Filter, logs: seq<Log>, fills: seq<seq<Output>>, at: seq<nat>) {
    && Rising(at) && |at| == |fills|
    && (forall k | 0 <= k < |at| ::
          at[k] < |logs| && logs[at[k]].emitter in filter.contracts && logs[at[k]].event == FilledEvent(fills[k]))
    && (forall i: nat | i < |logs| && logs[i].emitter in filter.contracts && logs[i].event.FilledEvent? ::
          i in at)
  }

  /** The fills of watched contracts, all of them and in order. */
  ghost predicate AreFills(filter: Filter, logs: seq<Log>, fills: seq<seq<Output>>) {
    exists at :: FillsAt(filter, logs, fills, at)
  }

  ghost predicate OrdersAt(filter: Filter, logs: seq<Log>, orders: seq<Order>, at: seq<nat>) {
    && Rising(at) && |at| == |orders|
    && (forall k | 0 <= k < |at| ::
          at[k] < |logs| && logs[at[k]].emitter in filter.contracts && logs[at[k]].event == OrderEvent(orders[k]))
    && (forall i: nat | i < |logs| && logs[i].emitter in filter.contracts && logs[i].event.OrderEvent? ::
          i in at)
  }

  /** The orders of watched contracts likewise, or none when only fills count. */
  ghost predicate AreOrders(filter: Filter, logs: seq<Log>, orders: seq<Order>) {
    if filter.fillsOnly then orders == [] else exists at :: OrdersAt(filter, logs, orders, at)
  }

  lemma {:induction false} FillPlaces(filter: Filter, logs: seq<Log>) returns (at: seq<nat>)
    ensures FillsAt(filter, logs, filter.FillsIn(logs), at)
  {
    if logs == [] {
      at := [];
    } else {
      var n := |logs| - 1;
      at := FillPlaces(filter, logs[..n]);
      if filter.KeepsFill(logs[n]) {
        at := at + [n];
        assert at[|at| - 1] == n;
      }
    }
  }

  lemma {:induction false} OrderPlaces(filter: Filter, logs: seq<Log>) returns (at: seq<nat>)
    requires !filter.fillsOnly
    ensures OrdersAt(filter, logs, filter.OrdersIn(logs), at)
  {
    if logs == [] {
      at := [];
    } else {
      var n := |logs| - 1;
      at := OrderPlaces(filter, logs[..n]);
      if filter.KeepsOrder(logs[n]) {
        at := at + [n];
        assert at[|at| - 1] == n;
      }
    }
  }

  lemma {:induction false} NoOrders(filter: Filter, logs: seq<Log>)
    requires filter.fillsOnly
    ensures filter.OrdersIn(logs) == []
  {
    if logs != [] {
      NoOrders(filter, logs[..|logs| - 1]);
    }
  }

  /** What is kept of a list of logs: exactly the events of watched contracts, in order. */
  lemma {:induction false} KeptAre(filter: Filter, logs: seq<Log>)
    ensures AreFills(filter, logs, filter.FillsIn(logs)) && AreOrders(filter, logs, filter.OrdersIn(logs))
  {
    var at := FillPlaces(filter, logs);
    if filter.fillsOnly {
      NoOrders(filter, logs);
    } else {
      var places := OrderPlaces(filter, logs);
    }
  }

  /** The logs of these emitters. */
  function From(logs: seq<Log>, emitters: set<Address>): seq<Log> {
    if logs == [] then []
    else
      var before, last := From(logs[..|logs| - 1], emitters), logs[|logs| - 1];
      if last.emitter in emitters then before + [last] else before
  }

  lemma {:induction false} FromAppend(xs: seq<Log>, ys: seq<Log>, emitters: set<Address>)
    ensures From(xs + ys, emitters) == From(xs, emitters) + From(ys, emitters)
  {
    if ys == [] {
      assert xs + ys == xs;
    } else {
      assert (xs + ys)[..|xs + ys| - 1] == xs + ys[..|ys| - 1];
      FromAppend(xs, ys[..|ys| - 1], emitters);
    }
  }

  /** Logs of contracts that are not watched make no difference. */
  lemma {:induction false} OnlyWatched(filter: Filter, logs: seq<Log>)
    ensures filter.FillsIn(From(logs, filter.contracts)) == filter.FillsIn(logs)
    ensures filter.OrdersIn(From(logs, filter.contracts)) == filter.OrdersIn(logs)
  {
    if logs != [] {
      var n := |logs| - 1;
      OnlyWatched(filter, logs[..n]);
      var before := From(logs[..n], filter.contracts);
      assert (before + [logs[n]])[..|before|] == before;
    }
  }

  // ---- call trees ----

  datatype Kind = CallFrame | CreateFrame

  /** A frame: what it did, in order, and whether it ended well. */
  datatype Frame = Frame(kind: Kind, body: seq<Step>, ok: bool)

  datatype Step = Emit(log: Log) | Sub(frame: Frame)

  /** The hooks an inspector sees. */
  datatype Hook = LogHook(log: Log) | Enter(kind: Kind) | Leave(kind: Kind, ok: bool)

  /** The hook stream of a frame, as the interpreter issues it. */
  function Hooks(f: Frame): seq<Hook>
    decreases f, 0
  {
    [Enter(f.kind)] + BodyHooks(f.body) + [Leave(f.kind, f.ok)]
  }

  function BodyHooks(body: seq<Step>): seq<Hook>
    decreases body
  {
    if body == [] then []
    else BodyHooks(body[..|body| - 1]) + StepHooks(body[|body| - 1])
  }

  function StepHooks(step: Step): seq<Hook>
    decreases step, 1
  {
    match step
    case Emit(log) => [LogHook(log)]
    case Sub(frame) => Hooks(frame)
  }

  /**
   Every log of a frame with a mark: has neither its frame nor any frame around
   it been reverted?  `alive` is the mark inherited from above.
   */
  function Marked(f: Frame, alive: bool): seq<(Log, bool)>
    decreases f, 0
  {
    MarkedBody(f.body, alive && f.ok)
  }

  function MarkedBody(body: seq<Step>, alive: bool): seq<(Log, bool)>
    decreases body
  {
    if body == [] then []
    else MarkedBody(body[..|body| - 1], alive) + MarkedStep(body[|body| - 1], alive)
  }

  function MarkedStep(step: Step, alive: bool): seq<(Log, bool)>
    decreases step, 1
  {
    match step
    case Emit(log) => [(log, alive)]
    case Sub(frame) => Marked(frame, alive)
  }

  function Surviving(marked: seq<(Log, bool)>): seq<Log> {
    if marked == [] then []
    else
      var kept, last := Surviving(marked[..|marked| - 1]), marked[|marked| - 1];
      if last.1 then kept + [last.0] else kept
  }

  /** The logs of `f` with no reverted ancestor. */
  function Kept(f: Frame): seq<Log> {
    Surviving(Marked(f, true))
  }

  // ---- the framed list ----

  class Framed<T> {
    var events: seq<T>
    var frameBoundaries: seq<nat>

    constructor ()
      ensures events == [] && frameBoundaries == []
    {
      events := [];
      frameBoundaries := [];
    }

    method EnterFrame()
      modifies this
      ensures events == old(events)
      ensures frameBoundaries == old(frameBoundaries) + [|old(events)|]
    {
      frameBoundaries := frameBoundaries + [|events|];
    }

    /** Drops what was added since the frame was entered; panics without a frame. */
    method RevertFrame()
      requires frameBoundaries != []
      modifies this
      ensures frameBoundaries == old(frameBoundaries)[..|old(frameBoundaries)| - 1]
      ensures events == Truncate(old(events), old(frameBoundaries)[|old(frameBoundaries)| - 1])
    {
      var len := frameBoundaries[|frameBoundaries| - 1];
      frameBoundaries := frameBoundaries[..|frameBoundaries| - 1];
      events := Truncate(events, len);
    }

    /** Keeps what was added; panics without a frame. */
    method ExitFrame()
      requires frameBoundaries != []
      modifies this
      ensures events == old(events)
      ensures frameBoundaries == old(frameBoundaries)[..|old(frameBoundaries)| - 1]
    {
      frameBoundaries := frameBoundaries[..|frameBoundaries| - 1];
    }

    method Add(event: T)
      modifies this
      ensures events == old(events) + [event] && frameBoundaries == old(frameBoundaries)
    {
      events := events + [event];
    }
  }

  /** `Vec::truncate`: no effect when the list is already shorter. */
  function Truncate<T>(xs: seq<T>, len: nat): seq<T> {
    if len <= |xs| then xs[..len] else xs
  }

  // ---- what a hook stream does to the two lists ----

  /** The events of both framed lists and the boundaries of their open frames. */
  datatype Lists = Lists(orders: seq<Order>, orderBounds: seq<nat>,
                         fills: seq<seq<Output>>, fillBounds: seq<nat>)

  function Pop(bounds: seq<nat>): seq<nat>
    requires bounds != []
  {
    bounds[..|bounds| - 1]
  }

  /** One hook; `None` where the pop of an empty stack panics. */
  function Observe(filter: Filter, s: Lists, h: Hook): Option<Lists> {
    match h
    case LogHook(log) =>
      if filter.KeepsFill(log) then Some(s.(fills := s.fills + [log.event.outputs]))
      else if filter.KeepsOrder(log) then Some(s.(orders := s.orders + [log.event.order]))
      else Some(s)
    case Enter(_) =>
      Some(s.(orderBounds := s.orderBounds + [|s.orders|], fillBounds := s.fillBounds + [|s.fills|]))
    case Leave(_, ok) =>
      if s.orderBounds == [] || s.fillBounds == [] then None
      else
        var m, n := s.orderBounds[|s.orderBounds| - 1], s.fillBounds[|s.fillBounds| - 1];
        Some(Lists(if ok then s.orders else Truncate(s.orders, m), Pop(s.orderBounds),
                   if ok then s.fills else Truncate(s.fills, n), Pop(s.fillBounds)))
  }

  function ObserveAll(filter: Filter, s: Lists, hs: seq<Hook>): Option<Lists>
    decreases |hs|
  {
    if hs == [] then Some(s)
    else
      var next := Observe(filter, s, hs[0]);
      if next.None? then None else ObserveAll(filter, next.value, hs[1..])
  }

  /** The lists with the events of `logs` added at the end. */
  function Extended(filter: Filter, s: Lists, logs: seq<Log>): Lists {
    s.(orders := s.orders + filter.OrdersIn(logs), fills := s.fills + filter.FillsIn(logs))
  }

  lemma {:induction false} ObserveOne(filter: Filter, s: Lists, h: Hook)
    ensures ObserveAll(filter, s, [h]) == Observe(filter, s, h)
  {
    assert [h][1..] == [];
  }

  lemma {:induction false} ObserveAppend(filter: Filter, s: Lists, xs: seq<Hook>, ys: seq<Hook>)
    requires ObserveAll(filter, s, xs).Some?
    ensures ObserveAll(filter, s, xs + ys) == ObserveAll(filter, ObserveAll(filter, s, xs).value, ys)
    decreases |xs|
  {
    if xs == [] {
      assert xs + ys == ys;
    } else {
      assert (xs + ys)[0] == xs[0] && (xs + ys)[1..] == xs[1..] + ys;
      ObserveAppend(filter, Observe(filter, s, xs[0]).value, xs[1..], ys);
    }
  }

  lemma {:induction false} ExtendedAppend(filter: Filter, s: Lists, xs: seq<Log>, ys: seq<Log>)
    ensures Extended(filter, Extended(filter, s, xs), ys) == Extended(filter, s, xs + ys)
  {
    filter.Appended(xs, ys);
    assert (s.orders + filter.OrdersIn(xs)) + filter.OrdersIn(ys)
        == s.orders + (filter.OrdersIn(xs) + filter.OrdersIn(ys));
    assert (s.fills + filter.FillsIn(xs)) + filter.FillsIn(ys)
        == s.fills + (filter.FillsIn(xs) + filter.FillsIn(ys));
  }

  /** The lists of a detector between transactions, unless something was left over. */
  const NO_EVENTS := Lists([], [], [], [])

  lemma {:induction false} ExtendedFromNone(filter: Filter, logs: seq<Log>)
    ensures Extended(filter, NO_EVENTS, logs)
         == Lists(filter.OrdersIn(logs), [], filter.FillsIn(logs), [])
    ensures Extended(filter, NO_EVENTS, []) == NO_EVENTS
  {
    assert [] + filter.OrdersIn(logs) == filter.OrdersIn(logs);
    assert [] + filter.FillsIn(logs) == filter.FillsIn(logs);
  }

  // ---- surviving logs ----

  lemma {:induction false} SurvivingAppend(xs: seq<(Log, bool)>, ys: seq<(Log, bool)>)
    ensures Surviving(xs + ys) == Surviving(xs) + Surviving(ys)
  {
    if ys == [] {
      assert xs + ys == xs;
    } else {
      assert (xs + ys)[..|xs + ys| - 1] == xs + ys[..|ys| - 1];
      SurvivingAppend(xs, ys[..|ys| - 1]);
    }
  }

  lemma {:induction false} SurvivingOne(log: Log, alive: bool)
    ensures Surviving([(log, alive)]) == if alive then [log] else []
  {
    assert [(log, alive)][..0] == [];
  }

  /** Nothing below a reverted frame survives. */
  lemma {:induction false} DeadBody(body: seq<Step>)
    ensures Surviving(MarkedBody(body, false)) == []
    decreases body
  {
    if body != [] {
      var n := |body| - 1;
      DeadBody(body[..n]);
      DeadStep(body[n]);
      SurvivingAppend(MarkedBody(body[..n], false), MarkedStep(body[n], false));
    }
  }

  lemma {:induction false} DeadStep(step: Step)
    ensures Surviving(MarkedStep(step, false)) == []
    decreases step, 1
  {
    match step
    case Emit(log) => SurvivingOne(log, false);
    case Sub(frame) => DeadFrame(frame);
  }

  lemma {:induction false} DeadFrame(f: Frame)
    ensures Surviving(Marked(f, false)) == []
    decreases f, 0
  {
    DeadBody(f.body);
  }

  /** A transaction whose outermost frame failed keeps no log at all. */
  lemma {:induction false} FailedKeepsNothing(f: Frame)
    requires !f.ok
    ensures Kept(f) == []
  {
    DeadBody(f.body);
  }

  // ---- the refinement ----

  /** Leaving the frame entered at `s` keeps or drops everything added since. */
  lemma {:induction false} LeaveRefines(filter: Filter, s: Lists, entered: Lists, f: Frame,
                                        added: seq<Log>)
    requires Observe(filter, s, Enter(f.kind)) == Some(entered)
    ensures Observe(filter, Extended(filter, entered, added), Leave(f.kind, f.ok))
         == Some(Extended(filter, s, if f.ok then added else []))
  {
    var left := Extended(filter, entered, added);
    assert Pop(left.orderBounds) == s.orderBounds && Pop(left.fillBounds) == s.fillBounds;
    assert left.orders[..|s.orders|] == s.orders == s.orders + [];
    assert left.fills[..|s.fills|] == s.fills == s.fills + [];
  }

  /**
   Call-tree refinement: from any state, the hooks of a frame never pop an empty
   stack, leave both stacks as they were, and append exactly the surviving logs.
   */
  lemma {:induction false} FrameRefines(filter: Filter, s: Lists, f: Frame)
    ensures ObserveAll(filter, s, Hooks(f)) == Some(Extended(filter, s, Kept(f)))
    decreases f, 0
  {
    var added := Surviving(MarkedBody(f.body, true));
    var entered := Observe(filter, s, Enter(f.kind)).value;
    var rest := BodyHooks(f.body) + [Leave(f.kind, f.ok)];
    BodyRefines(filter, entered, f.body);
    ObserveAppend(filter, entered, BodyHooks(f.body), [Leave(f.kind, f.ok)]);
    ObserveOne(filter, Extended(filter, entered, added), Leave(f.kind, f.ok));
    LeaveRefines(filter, s, entered, f, added);
    if !f.ok {
      FailedKeepsNothing(f);
    }
    assert Hooks(f) == [Enter(f.kind)] + rest;
    assert Hooks(f)[1..] == rest;
  }

  lemma {:induction false} BodyRefines(filter: Filter, s: Lists, body: seq<Step>)
    ensures ObserveAll(filter, s, BodyHooks(body))
         == Some(Extended(filter, s, Surviving(MarkedBody(body, true))))
    decreases body
  {
    if body == [] {
      assert s.orders + [] == s.orders && s.fills + [] == s.fills;
    } else {
      var n := |body| - 1;
      var others, last := MarkedBody(body[..n], true), MarkedStep(body[n], true);
      BodyRefines(filter, s, body[..n]);
      StepRefines(filter, Extended(filter, s, Surviving(others)), body[n]);
      ObserveAppend(filter, s, BodyHooks(body[..n]), StepHooks(body[n]));
      SurvivingAppend(others, last);
      ExtendedAppend(filter, s, Surviving(others), Surviving(last));
    }
  }

  lemma {:induction false} StepRefines(filter: Filter, s: Lists, step: Step)
    ensures ObserveAll(filter, s, StepHooks(step))
         == Some(Extended(filter, s, Surviving(MarkedStep(step, true))))
    decreases step, 1
  {
    match step
    case Emit(log) =>
      SurvivingOne(log, true);
      ObserveOne(filter, s, LogHook(log));
      LogRefines(filter, s, log);
    case Sub(frame) =>
      FrameRefines(filter, s, frame);
  }

  lemma {:induction false} LogRefines(filter: Filter, s: Lists, log: Log)
    ensures Observe(filter, s, LogHook(log)) == Some(Extended(filter, s, [log]))
  {
    assert [log][..|[log]| - 1] == [];
    assert filter.OrdersIn([log]) == if filter.KeepsOrder(log) then [log.event.order] else [];
    assert filter.FillsIn([log]) == if filter.KeepsFill(log) then [log.event.outputs] else [];
    assert s.orders + [] == s.orders && s.fills + [] == s.fills;
  }

  // ---- trees without what does not count ----

  /** The tree without failed subframes and without logs of other emitters. */
  function Pruned(f: Frame, emitters: set<Address>): Frame
    decreases f, 0
  {
    Frame(f.kind, PrunedBody(f.body, emitters), f.ok)
  }

  function PrunedBody(body: seq<Step>, emitters: set<Address>): seq<Step>
    decreases body
  {
    if body == [] then []
    else PrunedBody(body[..|body| - 1], emitters) + PrunedStep(body[|body| - 1], emitters)
  }

  function PrunedStep(step: Step, emitters: set<Address>): seq<Step>
    decreases step, 1
  {
    match step
    case Emit(log) => if log.emitter in emitters then [step] else []
    case Sub(frame) => if frame.ok then [Sub(Pruned(frame, emitters))] else []
  }

  lemma {:induction false} MarkedAppend(xs: seq<Step>, ys: seq<Step>)
    ensures MarkedBody(xs + ys, true) == MarkedBody(xs, true) + MarkedBody(ys, true)
  {
    if ys == [] {
      assert xs + ys == xs;
    } else {
      assert (xs + ys)[..|xs + ys| - 1] == xs + ys[..|ys| - 1];
      MarkedAppend(xs, ys[..|ys| - 1]);
    }
  }

  lemma {:induction false} MarkedOne(step: Step)
    ensures MarkedBody([step], true) == MarkedStep(step, true)
  {
    assert [step][..0] == [];
    assert [] + MarkedStep(step, true) == MarkedStep(step, true);
  }

  /** Failed subframes and the logs of other emitters leave nothing else behind. */
  lemma {:induction false} PrunedKeeps(f: Frame, emitters: set<Address>)
    ensures Kept(Pruned(f, emitters)) == From(Kept(f), emitters)
    decreases f, 0
  {
    if f.ok {
      PrunedBodyKeeps(f.body, emitters);
    } else {
      FailedKeepsNothing(f);
      FailedKeepsNothing(Pruned(f, emitters));
    }
  }

  lemma {:induction false} PrunedBodyKeeps(body: seq<Step>, emitters: set<Address>)
    ensures Surviving(MarkedBody(PrunedBody(body, emitters), true))
         == From(Surviving(MarkedBody(body, true)), emitters)
    decreases body
  {
    if body != [] {
      var n := |body| - 1;
      var before, last := PrunedBody(body[..n], emitters), PrunedStep(body[n], emitters);
      PrunedBodyKeeps(body[..n], emitters);
      PrunedStepKeeps(body[n], emitters);
      MarkedAppend(before, last);
      SurvivingAppend(MarkedBody(before, true), MarkedBody(last, true));
      SurvivingAppend(MarkedBody(body[..n], true), MarkedStep(body[n], true));
      FromAppend(Surviving(MarkedBody(body[..n], true)), Surviving(MarkedStep(body[n], true)), emitters);
    }
  }

  lemma {:induction false} PrunedStepKeeps(step: Step, emitters: set<Address>)
    ensures Surviving(MarkedBody(PrunedStep(step, emitters), true))
         == From(Surviving(MarkedStep(step, true)), emitters)
    decreases step, 1
  {
    match step
    case Emit(log) =>
      SurvivingOne(log, true);
      assert [log][..0] == [];
      MarkedOne(step);
    case Sub(frame) =>
      if frame.ok {
        PrunedKeeps(frame, emitters);
        MarkedOne(Sub(Pruned(frame, emitters)));
      } else {
        FailedKeepsNothing(frame);
      }
  }

  /** A detector sees no difference. */
  lemma {:induction false} PrunedAdds(filter: Filter, s: Lists, f: Frame)
    ensures Extended(filter, s, Kept(Pruned(f, filter.contracts))) == Extended(filter, s, Kept(f))
  {
    PrunedKeeps(f, filter.contracts);
    OnlyWatched(filter, Kept(f));
  }

  function AllLogs(body: seq<Step>): seq<Log>
    decreases body
  {
    if body == [] then []
    else AllLogs(body[..|body| - 1]) + StepLogs(body[|body| - 1])
  }

  function StepLogs(step: Step): seq<Log>
    decreases step, 1
  {
    match step
    case Emit(log) => [log]
    case Sub(frame) => AllLogs(frame.body)
  }

  predicate NoneFailed(f: Frame)
    decreases f, 0
  {
    f.ok && forall i | 0 <= i < |f.body| && f.body[i].Sub? :: NoneFailed(f.body[i].frame)
  }

  /** Where no frame failed every log survives, in the order in which it was emitted. */
  lemma {:induction false} AllSurvive(f: Frame)
    requires NoneFailed(f)
    ensures Kept(f) == AllLogs(f.body)
    decreases f, 1
  {
    BodySurvives(f, |f.body|);
    assert f.body[..|f.body|] == f.body;
  }

  lemma {:induction false} BodySurvives(f: Frame, n: nat)
    requires NoneFailed(f) && n <= |f.body|
    ensures Surviving(MarkedBody(f.body[..n], true)) == AllLogs(f.body[..n])
    decreases f, 0, n
  {
    if n > 0 {
      var step := f.body[n - 1];
      BodySurvives(f, n - 1);
      assert f.body[..n][..n - 1] == f.body[..n - 1];
      SurvivingAppend(MarkedBody(f.body[..n - 1], true), MarkedStep(step, true));
      match step
      case Emit(log) => SurvivingOne(log, true);
      case Sub(frame) => AllSurvive(frame);
    }
  }
}
