/**
 * `InMemoryDomainEventPublisher`: a registry from an envelope's
 * `eventType` to the handlers subscribed to it. Publishing runs every
 * handler for the type, each once and in subscription order; a handler that
 * fails is caught and the others still run.
 *
 * The handlers' bodies are synchronous, so the `Promise.all` fan-out
 * behaves as a loop. A handler is either one of the repository's projection
 * handlers, which write to the query database `events_query.db` (the
 * publisher's `queryDb`), or another subscriber with no effect on the
 * tables that either completes or fails.
 */
module EventPublisher {
  import opened Wrappers
  import opened SqlTable
  import opened DomainEvents
  import opened ReadProjection

  datatype Handler = Projection(kind: ProjectionKind) | Subscriber(name: string, fails: bool)

  type Subscriptions = map<string, seq<Handler>>

  const SubscriberFailedMessage: string := "subscriber failed"

  /** `handlers.get(eventType) || []`. */
  function HandlersFor(subs: Subscriptions, eventType: string): seq<Handler>
  {
    if eventType in subs then subs[eventType] else []
  }

  /** `subscribe`: `h` is appended for `eventType`; every other list is unchanged. */
  function Subscribed(subs: Subscriptions, eventType: string, h: Handler): (r: Subscriptions)
    ensures HandlersFor(r, eventType) == HandlersFor(subs, eventType) + [h]
    ensures forall t :: t != eventType ==> HandlersFor(r, t) == HandlersFor(subs, t)
  {
    subs[eventType := HandlersFor(subs, eventType) + [h]]
  }

  /**
   * One handler invocation: its outcome and the query table afterwards. A
   * `Subscriber` stub only completes or fails and leaves the table as it is.
   */
  function Invoke(h: Handler, t: TableState, e: DomainEvent, stamp: int): (Outcome, TableState)
  {
    match h
    case Projection(kind) => Run(Projected(kind, t, e, stamp), t)
    case Subscriber(_, fails) => (if fails then Fail(SubscriberFailedMessage) else Pass, t)
  }

  /** The query table after the handlers `hs` ran on `e` in order, each failure swallowed. */
  function Deliver(t: TableState, hs: seq<Handler>, e: DomainEvent, stamp: int): TableState
    decreases |hs|
  {
    if hs == [] then t
    else Invoke(hs[|hs| - 1], Deliver(t, hs[..|hs| - 1], e, stamp), e, stamp).1
  }

  /** The query table after every event of `es` was published in order. */
  function DeliverAll(t: TableState, subs: Subscriptions, es: seq<DomainEvent>, stamp: int): TableState
    decreases |es|
  {
    if es == [] then t
    else
      var last := es[|es| - 1];
      Deliver(DeliverAll(t, subs, es[..|es| - 1], stamp), HandlersFor(subs, last.EventType()), last, stamp)
  }

  /** The invocations publishing `e` makes: each handler once, in order. */
  function Calls(hs: seq<Handler>, e: DomainEvent): (r: seq<(Handler, DomainEvent)>)
    ensures |r| == |hs| && forall i :: 0 <= i < |hs| ==> r[i] == (hs[i], e)
  {
    if hs == [] then [] else Calls(hs[..|hs| - 1], e) + [(hs[|hs| - 1], e)]
  }

  function CallsAll(subs: Subscriptions, es: seq<DomainEvent>): seq<(Handler, DomainEvent)>
    decreases |es|
  {
    if es == [] then []
    else
      var last := es[|es| - 1];
      CallsAll(subs, es[..|es| - 1]) + Calls(HandlersFor(subs, last.EventType()), last)
  }

  /** Running two lists of handlers one after the other is running their concatenation. */
  lemma {:induction false} DeliverAppend(t: TableState, a: seq<Handler>, b: seq<Handler>, e: DomainEvent, stamp: int)
    ensures Deliver(t, a + b, e, stamp) == Deliver(Deliver(t, a, e, stamp), b, e, stamp)
    decreases |b|
  {
    if b == [] {
      assert a + b == a;
    } else {
      var b' := b[..|b| - 1];
      assert (a + b)[..|a + b| - 1] == a + b';
      assert (a + b)[|a + b| - 1] == b[|b| - 1];
      DeliverAppend(t, a, b', e, stamp);
    }
  }

  /**
   * Failure isolation: a handler that fails leaves the table as it was,
   * and the handlers after it run exactly as if it had not been subscribed.
   */
  lemma FailureIsolated(t: TableState, a: seq<Handler>, h: Handler, b: seq<Handler>, e: DomainEvent, stamp: int)
    requires Invoke(h, Deliver(t, a, e, stamp), e, stamp).0.Fail?
    ensures Deliver(t, a + [h] + b, e, stamp) == Deliver(t, a + b, e, stamp)
  {
    var mid := Deliver(t, a, e, stamp);
    assert Deliver(mid, [h], e, stamp) == mid by {
      assert [h][..0] == [];
    }
    DeliverAppend(t, a + [h], b, e, stamp);
    DeliverAppend(t, a, [h], e, stamp);
    DeliverAppend(t, a, b, e, stamp);
  }

  /** Publishing one more event extends both the table's history and the invocations by that event's. */
  lemma PublishAllStep(t: TableState, subs: Subscriptions, es: seq<DomainEvent>, i: nat, stamp: int)
    requires i < |es|
    ensures DeliverAll(t, subs, es[..i + 1], stamp)
      == Deliver(DeliverAll(t, subs, es[..i], stamp), HandlersFor(subs, es[i].EventType()), es[i], stamp)
    ensures CallsAll(subs, es[..i + 1]) == CallsAll(subs, es[..i]) + Calls(HandlersFor(subs, es[i].EventType()), es[i])
  {
    assert es[..i + 1][..i] == es[..i];
  }

  /** Regrouping a concatenation; stated once so that the `PublishAll` loop stays cheap to check. */
  lemma AppendAssociative<T>(a: seq<T>, b: seq<T>, c: seq<T>)
    ensures (a + b) + c == a + (b + c)
  {
  }

  class Publisher {
    /** The query database the projection handlers open. */
    const queryDb: Table
    var handlers: Subscriptions
    /** Every handler invocation so far, oldest first. */
    ghost var invoked: seq<(Handler, DomainEvent)>

    constructor (queryDb: Table)
      ensures this.queryDb == queryDb
      ensures handlers == map[] && invoked == []
    {
      this.queryDb := queryDb;
      handlers := map[];
      invoked := [];
    }

    method Subscribe(eventType: string, h: Handler)
      modifies this
      ensures handlers == Subscribed(old(handlers), eventType, h)
      ensures invoked == old(invoked)
    {
      handlers := Subscribed(handlers, eventType, h);
    }

    /** Runs one handler on `e` and swallows its failure. */
    method RunHandler(h: Handler, e: DomainEvent, stamp: int)
      modifies this, queryDb
      ensures queryDb.State() == Invoke(h, old(queryDb.State()), e, stamp).1
      ensures handlers == old(handlers)
      ensures invoked == old(invoked) + [(h, e)]
    {
      match h {
        case Projection(kind) =>
          var _ := Project(kind, queryDb, e, stamp);
        case Subscriber(_, _) =>
      }
      invoked := invoked + [(h, e)];
    }

    /**
     * `publish(e)`: every handler subscribed to `e.eventType` runs once, in
     * subscription order; with no subscribers nothing happens. It never fails.
     */
    method Publish(e: DomainEvent, stamp: int)
      modifies this, queryDb
      ensures handlers == old(handlers)
      ensures queryDb.State() == Deliver(old(queryDb.State()), HandlersFor(handlers, e.EventType()), e, stamp)
      ensures invoked == old(invoked) + Calls(HandlersFor(handlers, e.EventType()), e)
    {
      var hs := HandlersFor(handlers, e.EventType());
      var i := 0;
      while i < |hs|
        invariant 0 <= i <= |hs|
        invariant handlers == old(handlers)
        invariant queryDb.State() == Deliver(old(queryDb.State()), hs[..i], e, stamp)
        invariant invoked == old(invoked) + Calls(hs[..i], e)
      {
        assert hs[..i + 1][..i] == hs[..i];
        RunHandler(hs[i], e, stamp);
        i := i + 1;
      }
      assert hs[..|hs|] == hs;
    }

    /** `publishAll(es)`: publishes every event of `es`, in order. */
    method PublishAll(es: seq<DomainEvent>, stamp: int)
      modifies this, queryDb
      ensures handlers == old(handlers)
      ensures queryDb.State() == DeliverAll(old(queryDb.State()), handlers, es, stamp)
      ensures invoked == old(invoked) + CallsAll(handlers, es)
    {
      var i := 0;
      while i < |es|
        invariant 0 <= i <= |es|
        invariant handlers == old(handlers)
        invariant queryDb.State() == DeliverAll(old(queryDb.State()), handlers, es[..i], stamp)
        invariant invoked == old(invoked) + CallsAll(handlers, es[..i])
      {
        Publish(es[i], stamp);
        PublishAllStep(old(queryDb.State()), handlers, es, i, stamp);
        AppendAssociative(old(invoked), CallsAll(handlers, es[..i]), Calls(HandlersFor(handlers, es[i].EventType()), es[i]));
        i := i + 1;
      }
      assert es[..|es|] == es;
    }
  }
}
