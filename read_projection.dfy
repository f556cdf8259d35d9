/**
 * The read-model projection of `EventCommandRepository`: the three
 * handlers it subscribes (`handleEventCreated`, `handleEventUpdated`,
 * `handleEventPublished`) and the statements `syncEventToReadModel` issues
 * on the query database.
 */
module ReadProjection {
  import opened Wrappers
  import opened SqlTable
  import opened DomainEvents
  import opened RowMapping

  datatype ProjectionKind = OnCreated | OnUpdated | OnPublished

  /** The `TypeError` from reading `event.name` of an envelope that has no `event` payload. */
  const PayloadMissingMessage: string := "undefined is not an object (evaluating 'event.name')"

  /** The parameters `syncEventToReadModel` binds from an envelope's payload. */
  function PayloadToRow(p: EventPayload): RowData
  {
    RowData(
      p.id, p.organizerId, p.name, p.description, p.startDate, p.endDate,
      OrNull(p.address), p.isOnline, p.eventType, p.ticketType,
      AmountOrNull(if p.ticketPrice.Some? then Some(p.ticketPrice.value.amount) else None),
      OrNull(if p.ticketPrice.Some? then Some(p.ticketPrice.value.currency) else None),
      p.isPublished)
  }

  /**
   * One projection handler run against the query table. `OnCreated`
   * inserts the payload (a duplicate id fails), `OnUpdated` overwrites every
   * column of an existing row, `OnPublished` sets only `is_published`.
   */
  function Projected(kind: ProjectionKind, t: TableState, e: DomainEvent, stamp: int): Result<TableState>
  {
    match kind
    case OnCreated => if !e.HasPayload() then Err(PayloadMissingMessage) else InsertRow(t, PayloadToRow(e.event), stamp)
    case OnUpdated => if !e.HasPayload() then Err(PayloadMissingMessage) else UpdateRow(t, PayloadToRow(e.event), stamp)
    case OnPublished => MarkRowPublished(t, e.AggregateId(), stamp)
  }

  /** A projection handler executing its statement on the query database. */
  method Project(kind: ProjectionKind, db: Table, e: DomainEvent, stamp: int) returns (outcome: Outcome)
    modifies db
    ensures (outcome, db.State()) == Run(Projected(kind, old(db.State()), e, stamp), old(db.State()))
  {
    match kind {
      case OnCreated =>
        if !e.HasPayload() {
          return Fail(PayloadMissingMessage);
        }
        outcome := db.Insert(PayloadToRow(e.event), stamp);
      case OnUpdated =>
        if !e.HasPayload() {
          return Fail(PayloadMissingMessage);
        }
        outcome := db.UpdateAll(PayloadToRow(e.event), stamp);
      case OnPublished =>
        outcome := db.MarkPublished(e.AggregateId(), stamp);
    }
  }

  /** A created row holds the payload; replaying the same `EventCreated` then fails on the duplicate id. */
  lemma CreatedReplayFails(t: TableState, e: DomainEvent, stamp: int, stamp': int)
    requires e.HasPayload()
    requires Projected(OnCreated, t, e, stamp).Ok?
    ensures var t' := Projected(OnCreated, t, e, stamp).value;
      e.event.id in t'.rows && t'.rows[e.event.id].data == PayloadToRow(e.event)
      && Projected(OnCreated, t', e, stamp') == Err(DuplicateIdMessage)
  {
  }

  /** An update projection overwrites every column of the row, `organizer_id` and `is_published` included. */
  lemma UpdateOverwritesRow(t: TableState, e: DomainEvent, stamp: int)
    requires e.HasPayload() && !t.faulty
    ensures var r := Projected(OnUpdated, t, e, stamp);
      r.Ok? && r.value.rows.Keys == t.rows.Keys
      && (e.event.id in t.rows ==> r.value.rows[e.event.id] == Row(PayloadToRow(e.event), t.rows[e.event.id].createdAt, stamp))
      && forall k :: k in t.rows && k != e.event.id ==> r.value.rows[k] == t.rows[k]
  {
  }

  /** A publish projection changes only `is_published` (and `updated_at`) of the row `aggregateId`. */
  lemma PublishedChangesOnlyFlag(t: TableState, e: DomainEvent, stamp: int)
    requires !t.faulty
    ensures var r := Projected(OnPublished, t, e, stamp);
      var id := e.AggregateId();
      r.Ok? && r.value.rows.Keys == t.rows.Keys
      && (id in t.rows ==> r.value.rows[id] == Row(t.rows[id].data.(isPublished := true), t.rows[id].createdAt, stamp))
      && forall k :: k in t.rows && k != id ==> r.value.rows[k] == t.rows[k]
  {
  }
}
