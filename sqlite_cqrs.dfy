/**
 * `SQLiteContainer`: the command handlers over a Bun SQLite command
 * repository on the command database, the read-model query handlers over
 * the query repository on the query database, and no publisher. The two
 * buses this container uses are the same as the in-memory container's.
 */
module SqliteCqrs {
  import opened Wrappers
  import opened ValueObjects
  import opened SqlTable
  import opened Oracles
  import opened BunSqliteStore
  import opened QueryStore
  import opened EventRepositories
  import opened CommandHandlers
  import opened QueryHandlers
  import opened Cqrs

  /** The three read-model query handlers over `store`. */
  function ReadModelHandlersOver(store: QueryRepository): (m: map<string, QueryHandler>)
    ensures m.Keys == {"GET_EVENT_BY_ID", "GET_EVENTS_BY_ORGANIZER", "GET_PUBLISHED_EVENTS"}
    ensures QueryRoutes(m)
    ensures forall t :: t in m ==> m[t].OnReadModel() && m[t].queryRepository == store
  {
    map["GET_EVENT_BY_ID" := ReadModelEventByIdHandler(store),
        "GET_EVENTS_BY_ORGANIZER" := ReadModelEventsByOrganizerHandler(store),
        "GET_PUBLISHED_EVENTS" := ReadModelPublishedEventsHandler(store)]
  }

  /** The publish handler of this container broadcasts nothing: it was given no publisher. */
  lemma {:induction false} SqlitePublishBroadcastsNothing(w: World, eventId: string, o: Oracle)
    requires w.broadcast.NoPublisher? && w.repo.BunState?
    ensures Published(w, eventId, o).1.broadcast == NoPublisher
    ensures Published(w, eventId, o).1.repo.BunState?
  {
    match Loaded(w.repo, EventId(eventId)) {
      case Err(_) =>
      case Ok(None) =>
      case Ok(Some(s)) =>
        assert Published(w, eventId, o) == PublishedFound(w, s, o);
    }
  }

  class SqliteContainer {
    const commandRepository: BunSqliteEventCommandRepository
    const queryRepository: QueryRepository
    const commandBus: CommandBus
    const queryBus: QueryBus

    /** `setupHandlers` has run and nothing re-registered since. */
    predicate Wired()
      reads commandBus, queryBus
    {
      commandBus.handlers == CommandHandlersOver(BunSqlite(commandRepository), None)
      && queryBus.handlers == ReadModelHandlersOver(queryRepository)
    }

    /**
     * `new SQLiteContainer()`: the command database `events_command.db` and
     * the query database `events_query.db` are two different files.
     */
    constructor (commandDb: Table, queryDb: Table)
      requires commandDb != queryDb
      ensures fresh(commandRepository) && fresh(queryRepository) && fresh(commandBus) && fresh(queryBus)
      ensures commandRepository.db == commandDb && commandRepository.queryDb == queryDb
      ensures queryRepository.db == queryDb
      ensures Wired()
      ensures BunSqlite(commandRepository).Valid()
    {
      var writes := new BunSqliteEventCommandRepository(commandDb, queryDb);
      var store := new QueryRepository(queryDb);
      var commands := new CommandBus();
      var queries := new QueryBus();
      commandRepository := writes;
      queryRepository := store;
      commandBus := commands;
      queryBus := queries;
      new;
      var r := BunSqlite(writes);
      commands.Register("CREATE_EVENT", CreateEventHandler(r));
      commands.Register("UPDATE_EVENT", UpdateEventHandler(r));
      commands.Register("PUBLISH_EVENT", PublishEventHandler(r, None));
      queries.Register("GET_EVENT_BY_ID", ReadModelEventByIdHandler(store));
      queries.Register("GET_EVENTS_BY_ORGANIZER", ReadModelEventsByOrganizerHandler(store));
      queries.Register("GET_PUBLISHED_EVENTS", ReadModelPublishedEventsHandler(store));
    }
  }
}
