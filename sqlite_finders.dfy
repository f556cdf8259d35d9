/**
 * The finders the three SQLite command repositories share, all over their
 * write database: `findById` (`SELECT * ... WHERE id = ?`) and the two list
 * finders (`WHERE organizer_id = ?`, `WHERE is_published = 1`, no ORDER BY),
 * each row mapped through `eventFromRow`.
 */
module SqliteFinders {
  import opened Wrappers
  import opened ValueObjects
  import opened EventAggregate
  import opened SqlTable
  import opened RowMapping

  /** What `findById` answers on a table: the mapped row, none, or the error thrown. */
  function LoadEvent(t: TableState, id: string): (r: Result<Option<EventState>>)
    ensures t.faulty ==> r == Err(UnavailableMessage)
    ensures !t.faulty && id !in t.rows ==> r == Ok(None)
    ensures !t.faulty && id in t.rows ==>
      (match EventFromRow(t.rows[id].data) case Ok(s) => r == Ok(Some(s)) case Err(m) => r == Err(m))
  {
    match Lookup(t, id)
    case Err(m) => Err(m)
    case Ok(None) => Ok(None)
    case Ok(Some(row)) =>
      match EventFromRow(row.data)
      case Err(m) => Err(m)
      case Ok(s) => Ok(Some(s))
  }

  /** `rows.map(eventFromRow)`: every row mapped in order, or the first error thrown. */
  function MapRows(rows: seq<Row>): (r: Result<seq<EventState>>)
    ensures r.Ok? <==> forall i :: 0 <= i < |rows| ==> EventFromRow(rows[i].data).Ok?
    ensures r.Ok? ==> |r.value| == |rows| && forall i :: 0 <= i < |rows| ==> EventFromRow(rows[i].data) == Ok(r.value[i])
    ensures r.Err? ==> exists i :: (0 <= i < |rows| && EventFromRow(rows[i].data) == Err(r.msg)
      && forall j :: 0 <= j < i ==> EventFromRow(rows[j].data).Ok?)
    decreases |rows|
  {
    if rows == [] then Ok([])
    else
      match EventFromRow(rows[0].data)
      case Err(m) => Err(m)
      case Ok(s) =>
        match MapRows(rows[1..])
        case Err(m) => Err(m)
        case Ok(rest) => Ok([s] + rest)
  }

  /** `findById` over a write database: a fresh aggregate built from the row, if there is one. */
  method FindEventById(db: Table, id: EventId) returns (r: Result<Option<Event>>)
    ensures match LoadEvent(db.State(), id.value)
      case Err(m) => r == Err(m)
      case Ok(None) => r == Ok(None)
      case Ok(Some(s)) => (r.Ok? && r.value.Some? && fresh(r.value.value)
        && r.value.value.State() == s && r.value.value.domainEvents == [])
  {
    var loaded := LoadEvent(db.State(), id.value);
    match loaded {
      case Err(m) => return Err(m);
      case Ok(None) => return Ok(None);
      case Ok(Some(s)) =>
        var e := new Event(s.id, s.organizerId, s.details, s.isPublished);
        return Ok(Some(e));
    }
  }

  /** `findByOrganizer` / `findPublishedEvents` over a write database, in no specified order. */
  method FindEventsWhere(db: Table, f: Filter) returns (r: Result<seq<EventState>>, ghost ids: seq<string>)
    ensures db.faulty ==> r == Err(UnavailableMessage)
    ensures !db.faulty ==> IsListing(db.rows, f, Unordered, ids) && r == MapRows(RowsAt(db.rows, ids))
  {
    var rows;
    rows, ids := db.Select(f, Unordered);
    if rows.Err? {
      return Err(rows.msg), ids;
    }
    assert rows.value == RowsAt(db.rows, ids);
    r := MapRows(rows.value);
  }
}
