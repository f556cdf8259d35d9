/**
 * `EventCommandRepository` (the Bun SQLite write repository that
 * synchronises its read model through domain events). `save` checks whether
 * the id exists, upserts the write row, and publishes `EventUpdated` or
 * `EventCreated`; the projection handlers it subscribed at construction
 * then write the query database.
 */
module EventCommandStore {
  import opened Wrappers
  import opened ValueObjects
  import opened EventAggregate
  import opened SqlTable
  import opened RowMapping
  import opened DomainEvents
  import opened ReadProjection
  import opened EventPublisher
  import opened Oracles

  /** The `eventData` snapshot `save` publishes. */
  function SnapshotOf(s: EventState): EventPayload
  {
    var d := s.details;
    EventPayload(
      s.id.value, s.organizerId.value, d.name, d.description, d.startDate, d.endDate,
      d.location.address, d.location.isOnline, d.eventType, d.ticketType,
      if d.ticketPrice.Some? then Some(PricePayload(d.ticketPrice.value.amount, d.ticketPrice.value.currency)) else None,
      s.isPublished)
  }

  /** A projection binds the same column values the write upsert does. */
  lemma SnapshotRowIsEventRow(s: EventState)
    ensures PayloadToRow(SnapshotOf(s)) == EventToRow(s)
  {
  }

  /** The `changes` every `EventUpdated` from `save` carries, whatever changed. */
  const UpdateChanges: seq<string> := ["name", "description"]

  /** The envelope `save` publishes: `EventUpdated` for an existing id, `EventCreated` otherwise. */
  function SaveEnvelope(s: EventState, isUpdate: bool, o: Oracle): DomainEvent
  {
    if isUpdate then EventUpdatedDomainEvent(o.saveEnvelopeId, o.now, SnapshotOf(s), UpdateChanges)
    else EventCreatedDomainEvent(o.saveEnvelopeId, o.now, SnapshotOf(s))
  }

  /**
   * The envelope `save` publishes is about the saved event: it carries the
   * event's id as aggregate id, the tag the projections dispatch on, and a
   * snapshot from which `eventFromRow` recovers the event exactly when its
   * row does.
   */
  lemma {:induction false} SaveEnvelopeCarriesEvent(s: EventState, isUpdate: bool, o: Oracle)
    ensures var e := SaveEnvelope(s, isUpdate, o);
      e.HasPayload() && e.Version() == 1 && e.AggregateId() == s.id.value
      && e.EventType() == (if isUpdate then "EventUpdated" else "EventCreated")
      && e.eventId == o.saveEnvelopeId && e.occurredOn == o.now
    ensures EventFromRow(PayloadToRow(SaveEnvelope(s, isUpdate, o).event)) == Ok(s) <==> RowFaithful(s)
  {
    SnapshotRowIsEventRow(s);
    EventRoundTrip(s);
  }

  /**
   * `save` on the write table `w` and query table `q` with subscriptions
   * `subs`: its outcome and both tables afterwards. A write-side failure is
   * rethrown before anything is published.
   */
  function PublishingSave(w: TableState, q: TableState, subs: Subscriptions, s: EventState, o: Oracle)
    : (Outcome, TableState, TableState)
  {
    match Lookup(w, s.id.value)
    case Err(m) => (Fail(m), w, q)
    case Ok(existing) =>
      match UpsertRow(w, EventToRow(s), o.stamp)
      case Err(m) => (Fail(m), w, q)
      case Ok(w') =>
        var e := SaveEnvelope(s, existing.Some?, o);
        (Pass, w', Deliver(q, HandlersFor(subs, e.EventType()), e, o.stamp))
  }

  /** `setupEventHandlers`: the three projection handlers, appended to whatever was subscribed. */
  function OwnSubscriptions(subs: Subscriptions): Subscriptions
  {
    Subscribed(Subscribed(Subscribed(subs, "EventCreated", Projection(OnCreated)),
                          "EventUpdated", Projection(OnUpdated)),
               "EventPublished", Projection(OnPublished))
  }

  /** On a fresh publisher each type has exactly its own projection handler. */
  lemma OwnSubscriptionsOnFreshPublisher()
    ensures HandlersFor(OwnSubscriptions(map[]), "EventCreated") == [Projection(OnCreated)]
    ensures HandlersFor(OwnSubscriptions(map[]), "EventUpdated") == [Projection(OnUpdated)]
    ensures HandlersFor(OwnSubscriptions(map[]), "EventPublished") == [Projection(OnPublished)]
  {
  }

  /** `save` fails exactly when the write database does, and publishes exactly when it succeeds. */
  lemma SaveFailsOnlyOnWriteDb(w: TableState, q: TableState, subs: Subscriptions, s: EventState, o: Oracle)
    ensures PublishingSave(w, q, subs, s, o).0.Fail? <==> w.faulty
    ensures w.faulty ==> PublishingSave(w, q, subs, s, o) == (Fail(UnavailableMessage), w, q)
  {
  }

  /**
   * On a working write database `save` succeeds and delivers one envelope
   * about the saved event, which is an `EventUpdated` (with the fixed
   * changes) exactly when a row with its id existed before the upsert, and
   * an `EventCreated` otherwise.
   */
  lemma {:induction false} SaveClassifiesUpdate(w: TableState, q: TableState, subs: Subscriptions, s: EventState, o: Oracle)
    requires !w.faulty
    ensures exists e: DomainEvent :: (e.AggregateId() == s.id.value
      && (e.EventType() == "EventUpdated" <==> s.id.value in w.rows)
      && (e.EventType() == "EventCreated" <==> s.id.value !in w.rows)
      && (e.EventUpdatedDomainEvent? ==> e.changes == UpdateChanges)
      && PublishingSave(w, q, subs, s, o).0 == Pass
      && PublishingSave(w, q, subs, s, o).2 == Deliver(q, HandlersFor(subs, e.EventType()), e, o.stamp))
  {
    var e := SaveEnvelope(s, s.id.value in w.rows, o);
    SaveEnvelopeCarriesEvent(s, s.id.value in w.rows, o);
    assert UpsertRow(w, EventToRow(s), o.stamp).Ok?;
    assert PublishingSave(w, q, subs, s, o).2 == Deliver(q, HandlersFor(subs, e.EventType()), e, o.stamp);
  }

  /**
   * With its own projection handlers on a fresh publisher, a successful
   * save leaves the query row equal to the write row, provided the read
   * model held the id exactly when the write model did and the owner did
   * not change.
   */
  lemma {:induction false} ReadRowMirrorsWriteRow(w: TableState, q: TableState, s: EventState, o: Oracle)
    requires !w.faulty && !q.faulty
    requires s.id.value in w.rows <==> s.id.value in q.rows
    requires s.id.value in w.rows ==> w.rows[s.id.value].data.organizerId == s.organizerId.value
    ensures var (outcome, w', q') := PublishingSave(w, q, OwnSubscriptions(map[]), s, o);
      outcome == Pass && s.id.value in w'.rows && s.id.value in q'.rows
      && q'.rows[s.id.value].data == w'.rows[s.id.value].data
  {
    var id := s.id.value;
    var d := EventToRow(s);
    SnapshotRowIsEventRow(s);
    OwnSubscriptionsOnFreshPublisher();
    UpsertKeepsOwner(w, d, o.stamp);
    var e := SaveEnvelope(s, id in w.rows, o);
    var hs := HandlersFor(OwnSubscriptions(map[]), e.EventType());
    assert hs[..0] == [];
    assert Deliver(q, hs, e, o.stamp) == Invoke(hs[0], q, e, o.stamp).1;
  }

  class EventCommandRepository {
    const db: Table
    const publisher: Publisher

    /**
     * Uses the injected publisher or a new one over the query database, and
     * subscribes the three projection handlers to it.
     */
    constructor (db: Table, injected: Option<Publisher>, queryDb: Table)
      requires injected.Some? ==> injected.value.queryDb == queryDb
      modifies if injected.Some? then {injected.value} else {}
      ensures this.db == db && publisher.queryDb == queryDb
      ensures injected.Some? ==> publisher == injected.value
      ensures injected.None? ==> fresh(publisher)
      ensures publisher.handlers == OwnSubscriptions(if injected.Some? then old(injected.value.handlers) else map[])
    {
      this.db := db;
      var p: Publisher;
      if injected.Some? {
        p := injected.value;
      } else {
        p := new Publisher(queryDb);
      }
      p.Subscribe("EventCreated", Projection(OnCreated));
      p.Subscribe("EventUpdated", Projection(OnUpdated));
      p.Subscribe("EventPublished", Projection(OnPublished));
      publisher := p;
    }

    /** `save(event)`. */
    method Save(e: Event, o: Oracle) returns (outcome: Outcome)
      requires db != publisher.queryDb
      modifies db, publisher, publisher.queryDb
      ensures publisher.handlers == old(publisher.handlers)
      ensures (outcome, db.State(), publisher.queryDb.State())
        == PublishingSave(old(db.State()), old(publisher.queryDb.State()), publisher.handlers, old(e.State()), o)
    {
      var s := e.State();
      var row := EventToRow(s);
      var existing := Lookup(db.State(), s.id.value);
      if existing.Err? {
        return Fail(existing.msg);
      }
      outcome := db.Upsert(row, o.stamp);
      if outcome.Fail? {
        return;
      }
      publisher.Publish(SaveEnvelope(s, existing.value.Some?, o), o.stamp);
    }
  }
}
