/**
 * `IEventRepository` (`save`, `findById`, `findByOrganizer`,
 * `findPublishedEvents`) over its four implementations, as a closed union
 * dispatched by `match`. `RepoState` is what a repository holds, and the
 * functions `Loaded`, `Saved` and `IsRepoListing` say what each operation
 * does to it.
 */
module EventRepositories {
  import opened Wrappers
  import opened ValueObjects
  import opened EventAggregate
  import opened SqlTable
  import opened RowMapping
  import opened EventPublisher
  import opened Oracles
  import opened SqliteFinders
  import opened EventCommandStore
  import opened BunSqliteStore
  import opened SqliteStore
  import opened InMemoryStore

  datatype EventRepository =
    | InMemory(memory: InMemoryEventRepository)
    | Publishing(publishing: EventCommandRepository)
    | BunSqlite(bun: BunSqliteEventCommandRepository)
    | Sqlite(sqlite: SqliteEventCommandRepository)
  {
    /** The write and query databases of a SQLite repository are different files. */
    predicate Valid()
    {
      match this
      case InMemory(_) => true
      case Publishing(p) => p.db != p.publisher.queryDb
      case BunSqlite(b) => b.db != b.queryDb
      case Sqlite(s) => s.db != s.queryDb
    }

    /** The objects a repository's operations may change. */
    function Repr(): set<object>
    {
      match this
      case InMemory(m) => {m}
      case Publishing(p) => {p.db, p.publisher, p.publisher.queryDb}
      case BunSqlite(b) => {b.db, b.queryDb}
      case Sqlite(s) => {s.db, s.queryDb}
    }

    /** The write database of a SQLite repository. */
    function WriteDb(): (t: Table)
      requires !InMemory?
      ensures t in Repr()
    {
      match this
      case Publishing(p) => p.db
      case BunSqlite(b) => b.db
      case Sqlite(s) => s.db
    }
  }

  /** What a repository holds: its map, or its tables (and the publisher's subscriptions). */
  datatype RepoState =
    | MemoryState(events: EventMap)
    | PublishingState(write: TableState, read: TableState, subscriptions: Subscriptions)
    | BunState(write: TableState, read: TableState)
    | SqliteState(write: TableState, read: TableState)

  function State(r: EventRepository): RepoState
    reads r.Repr()
  {
    match r
    case InMemory(m) => MemoryState(m.events)
    case Publishing(p) => PublishingState(p.db.State(), p.publisher.queryDb.State(), p.publisher.handlers)
    case BunSqlite(b) => BunState(b.db.State(), b.queryDb.State())
    case Sqlite(s) => SqliteState(s.db.State(), s.queryDb.State())
  }

  /** `findById(id)`: the stored aggregate, none, or the error thrown. */
  function Loaded(st: RepoState, id: EventId): Result<Option<EventState>>
  {
    match st
    case MemoryState(events) => Ok(if id.value in events then Some(events[id.value]) else None)
    case _ => LoadEvent(st.write, id.value)
  }

  /** `save(event)`: its outcome and the state it leaves. */
  function Saved(st: RepoState, s: EventState, o: Oracle): (Outcome, RepoState)
  {
    match st
    case MemoryState(events) => (Pass, MemoryState(events[s.id.value := s]))
    case PublishingState(w, q, subs) =>
      var (outcome, w', q') := PublishingSave(w, q, subs, s, o);
      (outcome, PublishingState(w', q', subs))
    case BunState(w, q) =>
      var (outcome, w', q') := BunSave(w, q, s, o);
      (outcome, BunState(w', q'))
    case SqliteState(w, q) =>
      var (outcome, w', q') := SqliteSave(w, q, s, o);
      (outcome, SqliteState(w', q'))
  }

  /** The write-table filter of a list finder. */
  function FilterOf(sel: Selector): Filter
  {
    match sel
    case OfOrganizer(o) => ByOrganizer(o.value)
    case PublishedOnes => PublishedOnly
  }

  /** What a list finder may answer: each selected aggregate once, in any order, or the error thrown. */
  ghost predicate IsRepoListing(st: RepoState, sel: Selector, r: Result<seq<EventState>>, ids: seq<string>)
  {
    match st
    case MemoryState(events) => r.Ok? && IsSelection(events, sel, r.value)
    case _ =>
      (st.write.faulty ==> r == Err(UnavailableMessage))
      && (!st.write.faulty ==> IsListing(st.write.rows, FilterOf(sel), Unordered, ids) && r == MapRows(RowsAt(st.write.rows, ids)))
  }

  /**
   * A saved aggregate is found again by `findById`, provided the row mapping
   * keeps it and the save did not keep an earlier owner in its place.
   */
  lemma {:induction false} SavedThenLoaded(st: RepoState, s: EventState, o: Oracle)
    requires Saved(st, s, o).0.Pass?
    requires !st.MemoryState? ==> RowFaithful(s)
    requires !st.MemoryState? && s.id.value in st.write.rows ==> st.write.rows[s.id.value].data.organizerId == s.organizerId.value
    ensures Loaded(Saved(st, s, o).1, s.id) == Ok(Some(s))
  {
    if !st.MemoryState? {
      EventRoundTrip(s);
      UpsertKeepsOwner(st.write, EventToRow(s), o.stamp);
      if st.SqliteState? {
        UpdateThenInsertIsUpsert(st.write, st.read, s, o);
      }
    }
  }

  /** Whether any write can fail: only a SQLite write database that cannot be written. */
  lemma RepositorySaveFailure(st: RepoState, s: EventState, o: Oracle)
    ensures Saved(st, s, o).0.Fail? <==> !st.MemoryState? && st.write.faulty
    ensures Saved(st, s, o).0.Fail? ==> Saved(st, s, o).1 == st
  {
    match st
    case MemoryState(_) =>
    case PublishingState(w, q, subs) => EventCommandStore.SaveFailsOnlyOnWriteDb(w, q, subs, s, o);
    case BunState(w, q) => BunSaveOutcome(w, q, s, o);
    case SqliteState(w, q) =>
      UpdateThenInsertIsUpsert(w, q, s, o);
      BunSaveOutcome(w, q, s, o);
  }

  /** `save`, dispatched. */
  method Save(repo: EventRepository, e: Event, o: Oracle) returns (outcome: Outcome)
    requires repo.Valid()
    modifies repo.Repr()
    ensures (outcome, State(repo)) == Saved(old(State(repo)), old(e.State()), o)
  {
    match repo {
      case InMemory(m) =>
        m.Save(e);
        outcome := Pass;
      case Publishing(p) =>
        outcome := p.Save(e, o);
      case BunSqlite(b) =>
        outcome := b.Save(e, o);
      case Sqlite(s) =>
        outcome := s.Save(e, o);
    }
  }

  /** `findById`, dispatched: a fresh aggregate with no pending domain events. */
  method FindById(repo: EventRepository, id: EventId) returns (r: Result<Option<Event>>)
    ensures r.Err? ==> Loaded(State(repo), id) == Err(r.msg)
    ensures r.Ok? && r.value.None? ==> Loaded(State(repo), id) == Ok(None)
    ensures r.Ok? && r.value.Some? ==> (Loaded(State(repo), id) == Ok(Some(r.value.value.State()))
      && fresh(r.value.value) && r.value.value.domainEvents == [])
  {
    match repo {
      case InMemory(m) =>
        var found := m.FindById(id);
        r := Ok(found);
      case _ =>
        r := FindEventById(repo.WriteDb(), id);
    }
  }

  /** `findByOrganizer` / `findPublishedEvents`, dispatched. */
  method FindWhere(repo: EventRepository, sel: Selector) returns (r: Result<seq<EventState>>, ghost ids: seq<string>)
    ensures IsRepoListing(State(repo), sel, r, ids)
  {
    match repo {
      case InMemory(m) =>
        var found;
        match sel {
          case OfOrganizer(o) => found := m.FindByOrganizer(o);
          case PublishedOnes => found := m.FindPublishedEvents();
        }
        r, ids := Ok(found), [];
      case _ =>
        r, ids := FindEventsWhere(repo.WriteDb(), FilterOf(sel));
    }
  }
}
