/**
 * The query handlers. The write-side handlers read an `IEventRepository`
 * and map each aggregate through `mapToDto`; the read-model handlers
 * (`SQLiteGetEventById...` and friends) pass the query repository's DTOs
 * through unchanged. Either way a thrown error becomes a failed
 * `QueryResult`, and a missing id is a success with no data.
 */
module QueryHandlers {
  import opened Wrappers
  import opened ValueObjects
  import opened EventAggregate
  import opened SqlTable
  import opened RowMapping
  import opened Oracles
  import opened SqliteFinders
  import opened BunSqliteStore
  import opened Queries
  import opened QueryStore
  import opened InMemoryStore
  import opened EventRepositories

  /** `data`: one DTO or `null`, or a list of DTOs. */
  datatype QueryData = Single(event: Option<EventDto>) | Listing(events: seq<EventDto>)

  /** `{success: true, data}` or `{success: false, error}`. */
  datatype QueryResult = QuerySucceeded(data: QueryData) | QueryFailed(error: string)

  /** `mapToDto`: the aggregate's fields, one to one. */
  function MapToDto(s: EventState): (d: EventDto)
    ensures d.ticketPrice.Some? <==> s.details.ticketPrice.Some?
  {
    var t := s.details;
    EventDto(
      s.id.value, s.organizerId.value, t.name, t.description, t.startDate, t.endDate,
      DtoLocation(t.location.address, t.location.isOnline), t.eventType, t.ticketType,
      if t.ticketPrice.Some? then Some(DtoPrice(t.ticketPrice.value.amount, t.ticketPrice.value.currency)) else None,
      s.isPublished)
  }

  /** `events.map(mapToDto)`: same length, same order. */
  function MapAll(es: seq<EventState>): (ds: seq<EventDto>)
    ensures |ds| == |es|
    ensures forall i :: 0 <= i < |es| ==> ds[i] == MapToDto(es[i])
  {
    seq(|es|, i requires 0 <= i < |es| => MapToDto(es[i]))
  }

  /** `mapToDto` loses nothing: two aggregates with the same DTO are the same. */
  lemma {:induction false} MapToDtoInjective(a: EventState, b: EventState)
    requires MapToDto(a) == MapToDto(b)
    ensures a == b
  {
    var da, db := MapToDto(a), MapToDto(b);
    assert a.details.location == LocationValue(da.location.address, da.location.isOnline);
    assert b.details.location == LocationValue(db.location.address, db.location.isOnline);
    if a.details.ticketPrice.Some? {
      assert a.details.ticketPrice.value == MoneyValue(da.ticketPrice.value.amount, da.ticketPrice.value.currency);
      assert b.details.ticketPrice.value == MoneyValue(db.ticketPrice.value.amount, db.ticketPrice.value.currency);
    }
  }

  /**
   * The read model shows an aggregate as the write side does (its stored
   * row mapped by `eventRowToDto` equals `mapToDto`) exactly when the row
   * holds it faithfully: an empty address, a zero amount or an empty
   * currency is shown differently.
   */
  lemma {:induction false} ReadModelAgrees(s: EventState)
    ensures RowToDto(EventToRow(s)) == MapToDto(s) <==> RowFaithful(s)
  {
    var d := s.details;
    var r := EventToRow(s);
    if RowFaithful(s) {
      assert OrNull(d.location.address) == d.location.address;
      assert HasStoredPrice(r) <==> d.ticketPrice.Some?;
    } else if d.location.address == Some("") {
      assert RowToDto(r).location.address == None;
    } else {
      assert !HasStoredPrice(r);
      assert RowToDto(r).ticketPrice == None;
    }
  }

  /** `GetEventByIdQueryHandler.handle` on a repository in state `st`. */
  function FoundById(st: RepoState, id: string): (r: QueryResult)
    ensures r.QueryFailed? <==> Loaded(st, EventId(id)).Err?
    ensures r.QueryFailed? ==> r.error == Loaded(st, EventId(id)).msg
    ensures r == QuerySucceeded(Single(None)) <==> Loaded(st, EventId(id)) == Ok(None)
    ensures Loaded(st, EventId(id)).Ok? && Loaded(st, EventId(id)).value.Some? ==>
      r == QuerySucceeded(Single(Some(MapToDto(Loaded(st, EventId(id)).value.value))))
  {
    match Loaded(st, EventId(id))
    case Err(m) => QueryFailed(m)
    case Ok(None) => QuerySucceeded(Single(None))
    case Ok(Some(s)) => QuerySucceeded(Single(Some(MapToDto(s))))
  }

  /** A list finder's answer, mapped: its DTOs, or the error it threw. */
  function Listed(r: Result<seq<EventState>>): QueryResult
  {
    match r
    case Err(m) => QueryFailed(m)
    case Ok(es) => QuerySucceeded(Listing(MapAll(es)))
  }

  /** What a read-model list finder answers for the ids it lists. */
  function ReadListing(t: TableState, ids: seq<string>): Result<seq<EventDto>>
    requires !t.faulty ==> forall i :: 0 <= i < |ids| ==> ids[i] in t.rows
  {
    if t.faulty then Err(UnavailableMessage) else Ok(MapDtos(RowsAt(t.rows, ids)))
  }

  /** A read-model finder's answer, passed through. */
  function Passed(r: Result<seq<EventDto>>): QueryResult
  {
    match r
    case Err(m) => QueryFailed(m)
    case Ok(ds) => QuerySucceeded(Listing(ds))
  }

  /** What a handler reads: an `IEventRepository`, or the read model's table. */
  datatype QuerySource = FromRepository(repo: RepoState) | FromReadModel(table: TableState)

  /** The selector a write-side list query uses. */
  function SelectorOf(q: Query): Selector
    requires !q.GetEventByIdQuery?
  {
    if q.GetEventsByOrganizerQuery? then OfOrganizer(OrganizerId(q.organizerId)) else PublishedOnes
  }

  /** The filter and order of a read-model list query. */
  function ReadFilterOf(q: Query): Filter
    requires !q.GetEventByIdQuery?
  {
    if q.GetEventsByOrganizerQuery? then ByOrganizer(q.organizerId) else PublishedOnly
  }

  function ReadOrderOf(q: Query): Order
    requires !q.GetEventByIdQuery?
  {
    if q.GetEventsByOrganizerQuery? then CreatedDesc else StartAsc
  }

  /**
   * `r` is an answer the handler for `q` may give on `src`; `listed` is what
   * a write-side finder returned and `ids` the rows it listed.
   */
  ghost predicate IsAnswer(src: QuerySource, q: Query, r: QueryResult, listed: Result<seq<EventState>>, ids: seq<string>)
  {
    match src
    case FromRepository(st) =>
      if q.GetEventByIdQuery? then r == FoundById(st, q.eventId)
      else IsRepoListing(st, SelectorOf(q), listed, ids) && r == Listed(listed)
    case FromReadModel(t) =>
      if q.GetEventByIdQuery? then
        r == (match DtoById(t, q.eventId) case Err(m) => QueryFailed(m) case Ok(d) => QuerySucceeded(Single(d)))
      else
        (!t.faulty ==> IsListing(t.rows, ReadFilterOf(q), ReadOrderOf(q), ids))
        && r == Passed(ReadListing(t, ids))
  }

  /** A successful list answer holds only events the query asked for. */
  lemma {:induction false} ListedEventsMatch(src: QuerySource, q: Query, r: QueryResult, listed: Result<seq<EventState>>, ids: seq<string>)
    requires IsAnswer(src, q, r, listed, ids) && !q.GetEventByIdQuery? && r.QuerySucceeded?
    ensures r.data.Listing?
    ensures q.GetEventsByOrganizerQuery? ==> forall i :: 0 <= i < |r.data.events| ==> r.data.events[i].organizerId == q.organizerId
    ensures q.GetPublishedEventsQuery? ==> forall i :: 0 <= i < |r.data.events| ==> r.data.events[i].isPublished
  {
    match src {
      case FromRepository(st) =>
        var es := listed.value;
        assert r.data.events == MapAll(es);
        forall i | 0 <= i < |es|
          ensures Selects(SelectorOf(q), es[i])
        {
          if !st.MemoryState? {
            var rows := RowsAt(st.write.rows, ids);
            assert EventFromRow(rows[i].data) == Ok(es[i]);
            assert Matches(FilterOf(SelectorOf(q)), st.write.rows[ids[i]]);
          }
        }
      case FromReadModel(t) =>
        var f, o := ReadFilterOf(q), ReadOrderOf(q);
        ListedDtosMatch(t, f, o, Ok(MapDtos(RowsAt(t.rows, ids))), ids);
    }
  }

  /**
   * After a successful save, `GetEventById` answers the saved aggregate's
   * DTO, under the same conditions as `findById` finds it again.
   */
  lemma {:induction false} SavedThenQueried(st: RepoState, s: EventState, o: Oracle)
    requires Saved(st, s, o).0.Pass?
    requires !st.MemoryState? ==> RowFaithful(s)
    requires !st.MemoryState? && s.id.value in st.write.rows ==> st.write.rows[s.id.value].data.organizerId == s.organizerId.value
    ensures FoundById(Saved(st, s, o).1, s.id.value) == QuerySucceeded(Single(Some(MapToDto(s))))
  {
    SavedThenLoaded(st, s, o);
  }

  /**
   * After a Bun repository saves with both databases working, the read
   * model answers `GetEventById` with what the write side answers, provided
   * the two held the id together and the row keeps the aggregate faithfully.
   */
  lemma {:induction false} ReadModelCatchesUp(w: TableState, q: TableState, s: EventState, o: Oracle)
    requires !w.faulty && !q.faulty && RowFaithful(s)
    requires s.id.value in w.rows <==> s.id.value in q.rows
    requires s.id.value in w.rows ==> (w.rows[s.id.value].data.organizerId == s.organizerId.value
      && q.rows[s.id.value].data.organizerId == s.organizerId.value)
    ensures var (_, w', q') := BunSave(w, q, s, o);
      DtoById(q', s.id.value) == Ok(Some(MapToDto(s)))
      && FoundById(BunState(w', q'), s.id.value) == QuerySucceeded(Single(Some(MapToDto(s))))
  {
    BunReadRowMirrorsWriteRow(w, q, s, o);
    SavedThenLoaded(BunState(w, q), s, o);
    UpsertKeepsOwner(w, EventToRow(s), o.stamp);
    ReadModelAgrees(s);
  }

  datatype QueryHandler =
    | GetEventByIdHandler(repository: EventRepository)
    | GetEventsByOrganizerHandler(repository: EventRepository)
    | GetPublishedEventsHandler(repository: EventRepository)
    | ReadModelEventByIdHandler(queryRepository: QueryRepository)
    | ReadModelEventsByOrganizerHandler(queryRepository: QueryRepository)
    | ReadModelPublishedEventsHandler(queryRepository: QueryRepository)
  {
    /** The query tag the handler serves. */
    function Type(): string
    {
      match this
      case GetEventByIdHandler(_) => "GET_EVENT_BY_ID"
      case GetEventsByOrganizerHandler(_) => "GET_EVENTS_BY_ORGANIZER"
      case GetPublishedEventsHandler(_) => "GET_PUBLISHED_EVENTS"
      case ReadModelEventByIdHandler(_) => "GET_EVENT_BY_ID"
      case ReadModelEventsByOrganizerHandler(_) => "GET_EVENTS_BY_ORGANIZER"
      case ReadModelPublishedEventsHandler(_) => "GET_PUBLISHED_EVENTS"
    }

    predicate OnReadModel()
    {
      ReadModelEventByIdHandler? || ReadModelEventsByOrganizerHandler? || ReadModelPublishedEventsHandler?
    }

    /** What the handler reads. */
    function Repr(): set<object>
    {
      if OnReadModel() then {queryRepository.db} else repository.Repr()
    }
  }

  function SourceOf(h: QueryHandler): QuerySource
    reads h.Repr()
  {
    if h.OnReadModel() then FromReadModel(h.queryRepository.db.State()) else FromRepository(State(h.repository))
  }

  /** `GetEventByIdQueryHandler.handle`. */
  method GetEventById(repo: EventRepository, id: string) returns (r: QueryResult)
    ensures r == FoundById(State(repo), id)
  {
    var found := FindById(repo, EventId(id));
    if found.Err? {
      return QueryFailed(found.msg);
    }
    if found.value.None? {
      return QuerySucceeded(Single(None));
    }
    r := QuerySucceeded(Single(Some(MapToDto(found.value.value.State()))));
  }

  /** `GetEventsByOrganizerQueryHandler.handle` / `GetPublishedEventsQueryHandler.handle`. */
  method GetEvents(repo: EventRepository, sel: Selector) returns (r: QueryResult, ghost listed: Result<seq<EventState>>, ghost ids: seq<string>)
    ensures IsRepoListing(State(repo), sel, listed, ids) && r == Listed(listed)
  {
    var found;
    found, ids := FindWhere(repo, sel);
    listed := found;
    if found.Err? {
      return QueryFailed(found.msg), listed, ids;
    }
    r := QuerySucceeded(Listing(MapAll(found.value)));
  }

  /** `handler.handle(query)` for the handler registered under the query's tag. */
  method HandleQuery(h: QueryHandler, q: Query) returns (r: QueryResult, ghost listed: Result<seq<EventState>>, ghost ids: seq<string>)
    requires h.Type() == q.Type()
    ensures IsAnswer(SourceOf(h), q, r, listed, ids)
  {
    listed, ids := Ok([]), [];
    match h {
      case GetEventByIdHandler(repo) =>
        r := GetEventById(repo, q.eventId);
      case GetEventsByOrganizerHandler(repo) =>
        r, listed, ids := GetEvents(repo, OfOrganizer(OrganizerId(q.organizerId)));
      case GetPublishedEventsHandler(repo) =>
        r, listed, ids := GetEvents(repo, PublishedOnes);
      case ReadModelEventByIdHandler(store) =>
        var found := store.FindById(q.eventId);
        r := if found.Err? then QueryFailed(found.msg) else QuerySucceeded(Single(found.value));
      case ReadModelEventsByOrganizerHandler(store) =>
        var found;
        found, ids := store.FindByOrganizer(q.organizerId);
        r := Passed(found);
      case ReadModelPublishedEventsHandler(store) =>
        var found;
        found, ids := store.FindPublishedEvents();
        r := Passed(found);
    }
  }
}
