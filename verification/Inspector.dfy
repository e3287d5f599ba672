/** `OrderDetector`: two framed lists kept in lockstep, and the aggregates taken from them. */
module Inspector {
  import opened Words
  import opened Ledger
  import opened Settlement
  import opened Aggregation
  import opened Orders
  import opened Fills
  import opened Detector

  function FillEntriesOf(chainId: U64, fills: seq<seq<Output>>): seq<Entry> {
    if fills == [] then []
    else FillEntriesOf(chainId, fills[..|fills| - 1]) + FillEntries(chainId, fills[|fills| - 1])
  }

  /** What the ledger is told when these events are taken. */
  function EventsOf(chainId: U64, fills: seq<seq<Output>>, orders: seq<Order>): TxEvents {
    TxEvents(Aggregated(map[], FillEntriesOf(chainId, fills)), Aggregated(map[], EntriesOf(orders)))
  }

  /** A transaction's own events: those of its surviving logs. */
  function EventsIn(filter: Filter, chainId: U64, f: Frame): TxEvents {
    EventsOf(chainId, filter.FillsIn(Kept(f)), filter.OrdersIn(Kept(f)))
  }

  lemma {:induction false} AggregatedAppend(t: Table, es: seq<Entry>, fs: seq<Entry>)
    ensures Aggregated(Aggregated(t, es), fs) == Aggregated(t, es + fs)
  {
    if fs == [] {
      assert es + fs == es;
    } else {
      AggregatedAppend(t, es, fs[..|fs| - 1]);
      assert (es + fs)[..|es + fs| - 1] == es + fs[..|fs| - 1];
    }
  }

  lemma {:induction false} FillEntriesAppend(chainId: U64, xs: seq<seq<Output>>, ys: seq<seq<Output>>)
    ensures FillEntriesOf(chainId, xs + ys) == FillEntriesOf(chainId, xs) + FillEntriesOf(chainId, ys)
  {
    if ys == [] {
      assert xs + ys == xs;
    } else {
      var n := |ys| - 1;
      FillEntriesAppend(chainId, xs, ys[..n]);
      assert (xs + ys)[..|xs + ys| - 1] == xs + ys[..n];
      Reassociate(FillEntriesOf(chainId, xs), FillEntriesOf(chainId, ys[..n]),
                  FillEntries(chainId, ys[n]));
    }
  }

  lemma {:induction false} Reassociate(x: seq<Entry>, y: seq<Entry>, z: seq<Entry>)
    ensures (x + y) + z == x + (y + z)
  {
  }

  lemma {:induction false} OrderEntriesAppend(xs: seq<Order>, ys: seq<Order>)
    ensures EntriesOf(xs + ys) == EntriesOf(xs) + EntriesOf(ys)
  {
    if ys == [] {
      assert xs + ys == xs;
    } else {
      var n := |ys| - 1;
      OrderEntriesAppend(xs, ys[..n]);
      assert (xs + ys)[..|xs + ys| - 1] == xs + ys[..n];
      Reassociate(EntriesOf(xs), EntriesOf(ys[..n]), OrderEntries(ys[n].outputs));
    }
  }

  /**
   Events left in the detector count with those of the next transaction that is
   taken: it is judged on the sum of both.
   */
  lemma {:induction false} LeftoverJoinsNext(chainId: U64, leftFills: seq<seq<Output>>,
                                             leftOrders: seq<Order>, fills: seq<seq<Output>>,
                                             orders: seq<Order>)
    ensures var both := EventsOf(chainId, leftFills + fills, leftOrders + orders);
            var left, own := EventsOf(chainId, leftFills, leftOrders), EventsOf(chainId, fills, orders);
            both == TxEvents(Absorbed(left.fills, own.fills), Absorbed(left.orders, own.orders))
  {
    FillEntriesAppend(chainId, leftFills, fills);
    OrderEntriesAppend(leftOrders, orders);
    AggregateHomomorphism(map[], FillEntriesOf(chainId, leftFills), FillEntriesOf(chainId, fills));
    AggregateHomomorphism(map[], EntriesOf(leftOrders), EntriesOf(orders));
  }

  function AllFilled(fills: seq<seq<Output>>): seq<Output> {
    if fills == [] then [] else AllFilled(fills[..|fills| - 1]) + fills[|fills| - 1]
  }

  function AllAsked(orders: seq<Order>): seq<Output> {
    if orders == [] then [] else AllAsked(orders[..|orders| - 1]) + orders[|orders| - 1].outputs
  }

  lemma {:induction false} FilledTogether(chainId: U64, fills: seq<seq<Output>>)
    ensures FillEntriesOf(chainId, fills) == FillEntries(chainId, AllFilled(fills))
  {
    if fills != [] {
      FilledTogether(chainId, fills[..|fills| - 1]);
    }
  }

  lemma {:induction false} AskedTogether(orders: seq<Order>)
    ensures EntriesOf(orders) == OrderEntries(AllAsked(orders))
  {
    if orders != [] {
      AskedTogether(orders[..|orders| - 1]);
    }
  }

  /**
   What the ledger is told, in amounts: every output of every fill event counts on the
   chain of the detector, every output of every order on the chain it names.
   */
  lemma {:induction false} EventSums(chainId: U64, fills: seq<seq<Output>>, orders: seq<Order>, a: Asset,
                                     r: Address)
    ensures var e := EventsOf(chainId, fills, orders);
            && Filled(e.fills, a, r)
               == Min(U256_MAX, if a.chainId == chainId then CreditedBy(AllFilled(fills), a.token, r) else 0)
            && Filled(e.orders, a, r) == Min(U256_MAX, AskedBy(AllAsked(orders), a.chainId, a.token, r))
  {
    FilledTogether(chainId, fills);
    AskedTogether(orders);
    AggregatedAt(map[], FillEntriesOf(chainId, fills), a, r);
    AggregatedAt(map[], EntriesOf(orders), a, r);
    FillSum(chainId, AllFilled(fills), a, r);
    OrderSum(AllAsked(orders), a, r);
  }

  /** Orders of positive amounts aggregate to positive outputs. */
  lemma {:induction false} PositiveEntries(es: seq<Entry>)
    requires forall e | e in es :: e.amount > 0
    ensures Positive(Aggregated(map[], es))
  {
    AggregatedAssets(map[], es);
    forall a, r | Has(Aggregated(map[], es), a, r)
      ensures Filled(Aggregated(map[], es), a, r) > 0
    {
      AggregatedAt(map[], es, a, r);
      var e :| e in es && At(e, a, r);
      var k :| 0 <= k < |es| && es[k] == e;
      SumAtRemove(es, k, a, r);
    }
  }

  /** The lists grow by the fills and orders that watched contracts emitted in `logs`, nothing else. */
  ghost predicate Appends(filter: Filter, logs: seq<Log>, before: Lists, after: Lists) {
    && before.fills <= after.fills && AreFills(filter, logs, after.fills[|before.fills|..])
    && before.orders <= after.orders && AreOrders(filter, logs, after.orders[|before.orders|..])
    && after.fillBounds == before.fillBounds && after.orderBounds == before.orderBounds
  }

  lemma {:induction false} ExtendedAppends(filter: Filter, s: Lists, logs: seq<Log>)
    ensures Appends(filter, logs, s, Extended(filter, s, logs))
  {
    var t := Extended(filter, s, logs);
    KeptAre(filter, logs);
    assert t.fills[|s.fills|..] == filter.FillsIn(logs);
    assert t.orders[|s.orders|..] == filter.OrdersIn(logs);
  }

  class OrderDetector {
    const filter: Filter
    const chainId: U64
    var orders: Framed<Order>
    var filleds: Framed<seq<Output>>

    ghost function Contents(): Lists
      reads this, orders, filleds
    {
      Lists(orders.events, orders.frameBoundaries, filleds.events, filleds.frameBoundaries)
    }

    constructor (filter: Filter, chainId: U64)
      ensures Contents() == NO_EVENTS
      ensures this.filter == filter && this.chainId == chainId
      ensures fresh(orders) && fresh(filleds)
    {
      this.filter := filter;
      this.chainId := chainId;
      orders := new Framed<Order>();
      filleds := new Framed<seq<Output>>();
    }

    /** `log`: fills first, then orders unless only fills are tracked. */
    method Log(log: Log)
      modifies orders, filleds
      ensures Some(Contents()) == Observe(filter, old(Contents()), LogHook(log))
      ensures log.emitter !in filter.contracts ==> Contents() == old(Contents())
      ensures log.emitter in filter.contracts ==>
                Contents() == match log.event
                              case FilledEvent(outputs) =>
                                old(Contents()).(fills := old(Contents()).fills + [outputs])
                              case OrderEvent(order) =>
                                if filter.fillsOnly then old(Contents())
                                else old(Contents()).(orders := old(Contents()).orders + [order])
                              case OtherEvent => old(Contents())
    {
      if log.emitter !in filter.contracts {
        return;
      }
      if log.event.FilledEvent? {
        filleds.Add(log.event.outputs);
        return;
      }
      if filter.fillsOnly {
        return;
      }
      if log.event.OrderEvent? {
        orders.Add(log.event.order);
      }
    }

    /** `call` and `create`. */
    method EnterFrame(kind: Kind)
      modifies orders, filleds
      ensures Some(Contents()) == Observe(filter, old(Contents()), Enter(kind))
    {
      orders.EnterFrame();
      filleds.EnterFrame();
    }

    /** `call_end` and `create_end`; each list panics when it has no open frame. */
    method LeaveFrame(kind: Kind, ok: bool)
      requires orders.frameBoundaries != [] && filleds.frameBoundaries != []
      modifies orders, filleds
      ensures Some(Contents()) == Observe(filter, old(Contents()), Leave(kind, ok))
    {
      if ok {
        orders.ExitFrame();
        filleds.ExitFrame();
      } else {
        orders.RevertFrame();
        filleds.RevertFrame();
      }
    }

    /** The hook stream of an interpreter, whatever it is, as long as nothing panics. */
    method Replay(hooks: seq<Hook>)
      requires ObserveAll(filter, Contents(), hooks).Some?
      modifies orders, filleds
      ensures Some(Contents()) == ObserveAll(filter, old(Contents()), hooks)
    {
      for i := 0 to |hooks|
        invariant ObserveAll(filter, old(Contents()), hooks)
               == ObserveAll(filter, Contents(), hooks[i..])
      {
        assert hooks[i..][0] == hooks[i] && hooks[i..][1..] == hooks[i + 1..];
        match hooks[i] {
          case LogHook(log) => Log(log);
          case Enter(kind) => EnterFrame(kind);
          case Leave(kind, ok) => LeaveFrame(kind, ok);
        }
      }
    }

    /**
     One transaction: nothing panics, and exactly the surviving logs are added, of which
     only those of watched contracts count; failed subframes and the logs of other emitters
     might as well not be there.
     */
    method Run(f: Frame)
      modifies orders, filleds
      ensures Contents() == Extended(filter, old(Contents()), Kept(f))
      ensures Contents() == Extended(filter, old(Contents()), Kept(Pruned(f, filter.contracts)))
      ensures Appends(filter, Kept(f), old(Contents()), Contents())
    {
      FrameRefines(filter, Contents(), f);
      PrunedAdds(filter, Contents(), f);
      ExtendedAppends(filter, Contents(), Kept(f));
      Replay(Hooks(f));
    }

    /** `take_aggregates`: hand over the aggregates and start afresh. */
    method TakeAggregates() returns (fills: AggregateFills, agg: AggregateOrders)
      modifies this
      ensures Contents() == NO_EVENTS
      ensures fresh(orders) && fresh(filleds) && fresh(fills) && fresh(agg)
      ensures TxEvents(fills.fills, agg.outputs)
           == EventsOf(chainId, old(filleds.events), old(orders.events))
      ensures forall a, r ::
                && Filled(fills.fills, a, r)
                   == Min(U256_MAX, if a.chainId == chainId
                                    then CreditedBy(AllFilled(old(filleds.events)), a.token, r) else 0)
                && Filled(agg.outputs, a, r)
                   == Min(U256_MAX, AskedBy(AllAsked(old(orders.events)), a.chainId, a.token, r))
    {
      forall a, r {
        EventSums(chainId, filleds.events, orders.events, a, r);
      }
      fills := AggregateFilleds(chainId, filleds.events);
      agg := AggregateOrderEvents(orders.events);
      orders := new Framed<Order>();
      filleds := new Framed<seq<Output>>();
    }
  }

  /** `FramedFilleds::aggregate`. */
  method AggregateFilleds(chainId: U64, events: seq<seq<Output>>) returns (ctx: AggregateFills)
    ensures fresh(ctx)
    ensures ctx.fills == Aggregated(map[], FillEntriesOf(chainId, events))
    ensures forall a, r ::
              Filled(ctx.fills, a, r)
              == Min(U256_MAX, if a.chainId == chainId then CreditedBy(AllFilled(events), a.token, r) else 0)
  {
    ctx := new AggregateFills(map[]);
    for i := 0 to |events|
      invariant fresh(ctx)
      invariant ctx.fills == Aggregated(map[], FillEntriesOf(chainId, events[..i]))
    {
      ctx.AddFill(chainId, events[i]);
      assert events[..i + 1][..i] == events[..i];
      AggregatedAppend(map[], FillEntriesOf(chainId, events[..i]), FillEntries(chainId, events[i]));
    }
    assert events[..|events|] == events;
    forall a, r
      ensures Filled(ctx.fills, a, r)
           == Min(U256_MAX, if a.chainId == chainId then CreditedBy(AllFilled(events), a.token, r) else 0)
    {
      EventSums(chainId, events, [], a, r);
    }
  }

  /** `FramedOrders::aggregate`. */
  method AggregateOrderEvents(events: seq<Order>) returns (agg: AggregateOrders)
    ensures fresh(agg)
    ensures agg.outputs == Aggregated(map[], EntriesOf(events))
    ensures forall a, r ::
              Filled(agg.outputs, a, r) == Min(U256_MAX, AskedBy(AllAsked(events), a.chainId, a.token, r))
  {
    agg := new AggregateOrders(map[], map[]);
    for i := 0 to |events|
      invariant fresh(agg)
      invariant agg.outputs == Aggregated(map[], EntriesOf(events[..i]))
    {
      agg.Ingest(events[i]);
      assert events[..i + 1][..i] == events[..i];
      AggregatedAppend(map[], EntriesOf(events[..i]), OrderEntries(events[i].outputs));
    }
    assert events[..|events|] == events;
    forall a, r
      ensures Filled(agg.outputs, a, r) == Min(U256_MAX, AskedBy(AllAsked(events), a.chainId, a.token, r))
    {
      EventSums(0, [], events, a, r);
    }
  }
}
