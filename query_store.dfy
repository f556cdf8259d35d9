/**
 * The read-side repositories (`EventQueryRepository`,
 * `BunSQLiteEventQueryRepository`, `SQLiteEventQueryRepository`): the same
 * `SELECT`s over the query database, each row mapped through
 * `eventRowToDto`. The finders differ only in filter and `ORDER BY`.
 */
module QueryStore {
  import opened Wrappers
  import opened SqlTable
  import opened RowMapping
  import opened Queries

  /** `rows.map(eventRowToDto)`. */
  function MapDtos(rows: seq<Row>): (ds: seq<EventDto>)
    ensures |ds| == |rows|
    ensures forall i :: 0 <= i < |rows| ==> ds[i] == RowToDto(rows[i].data)
  {
    seq(|rows|, i requires 0 <= i < |rows| => RowToDto(rows[i].data))
  }

  /** What `findById(id)` answers on the query table. */
  function DtoById(t: TableState, id: string): (r: Result<Option<EventDto>>)
    ensures t.faulty <==> r.Err?
    ensures r.Err? ==> r.msg == UnavailableMessage
    ensures r.Ok? ==> (r.value.Some? <==> id in t.rows)
    ensures r.Ok? && r.value.Some? ==> r.value.value == RowToDto(t.rows[id].data) && r.value.value.id == id
  {
    match Lookup(t, id)
    case Err(m) => Err(m)
    case Ok(None) => Ok(None)
    case Ok(Some(row)) => Ok(Some(RowToDto(row.data)))
  }

  /** The DTOs a listing returns are exactly the rows of the listing, mapped. */
  ghost predicate IsDtoListing(t: TableState, f: Filter, o: Order, r: Result<seq<EventDto>>, ids: seq<string>)
  {
    (t.faulty ==> r == Err(UnavailableMessage))
    && (!t.faulty ==> IsListing(t.rows, f, o, ids) && r == Ok(MapDtos(RowsAt(t.rows, ids))))
  }

  /** Every DTO of a listing passes the listing's filter. */
  lemma ListedDtosMatch(t: TableState, f: Filter, o: Order, r: Result<seq<EventDto>>, ids: seq<string>)
    requires IsDtoListing(t, f, o, r, ids) && r.Ok?
    ensures forall i :: 0 <= i < |r.value| ==>
      match f
      case ByOrganizer(org) => r.value[i].organizerId == org
      case PublishedOnly => r.value[i].isPublished
      case AllRows => true
  {
    forall i | 0 <= i < |r.value|
      ensures match f
        case ByOrganizer(org) => r.value[i].organizerId == org
        case PublishedOnly => r.value[i].isPublished
        case AllRows => true
    {
      assert ids[i] in t.rows && Matches(f, t.rows[ids[i]]);
    }
  }

  class QueryRepository {
    const db: Table

    constructor (db: Table)
      ensures this.db == db
    {
      this.db := db;
    }

    /** `findById(id)`. */
    method FindById(id: string) returns (r: Result<Option<EventDto>>)
      ensures r == DtoById(db.State(), id)
    {
      r := DtoById(db.State(), id);
    }

    method List(f: Filter, o: Order) returns (r: Result<seq<EventDto>>, ghost ids: seq<string>)
      ensures IsDtoListing(db.State(), f, o, r, ids)
    {
      var rows;
      rows, ids := db.Select(f, o);
      if rows.Err? {
        return Err(rows.msg), ids;
      }
      assert rows.value == RowsAt(db.rows, ids);
      r := Ok(MapDtos(rows.value));
    }

    /** `findByOrganizer(organizerId)`: that organizer's rows, newest `created_at` first. */
    method FindByOrganizer(organizerId: string) returns (r: Result<seq<EventDto>>, ghost ids: seq<string>)
      ensures IsDtoListing(db.State(), ByOrganizer(organizerId), CreatedDesc, r, ids)
    {
      r, ids := List(ByOrganizer(organizerId), CreatedDesc);
    }

    /** `findPublishedEvents()`: the published rows, earliest `start_date` first. */
    method FindPublishedEvents() returns (r: Result<seq<EventDto>>, ghost ids: seq<string>)
      ensures IsDtoListing(db.State(), PublishedOnly, StartAsc, r, ids)
    {
      r, ids := List(PublishedOnly, StartAsc);
    }

    /** `findAllEvents()`: every row, newest `created_at` first. */
    method FindAllEvents() returns (r: Result<seq<EventDto>>, ghost ids: seq<string>)
      ensures IsDtoListing(db.State(), AllRows, CreatedDesc, r, ids)
    {
      r, ids := List(AllRows, CreatedDesc);
    }
  }
}
