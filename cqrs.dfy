/**
 * The command bus and the query bus: maps from a `type` tag to the handler
 * registered under it, which `execute` looks up and calls, throwing for a
 * tag nobody registered. `Container` wires the three command handlers and
 * the three write-side query handlers over one in-memory repository.
 */
module Cqrs {
  import opened Wrappers
  import opened EventAggregate
  import opened EventPublisher
  import opened Oracles
  import opened Commands
  import opened Queries
  import opened InMemoryStore
  import opened EventRepositories
  import opened CommandHandlers
  import opened QueryHandlers

  const NoCommandHandlerMessage: string := "No handler registered for command type: "
  const NoQueryHandlerMessage: string := "No handler registered for query type: "

  /** Every handler sits under the tag it serves. */
  predicate CommandRoutes(handlers: map<string, CommandHandler>)
  {
    forall t :: t in handlers ==> handlers[t].Type() == t
  }

  predicate QueryRoutes(handlers: map<string, QueryHandler>)
  {
    forall t :: t in handlers ==> handlers[t].Type() == t
  }

  class CommandBus {
    var handlers: map<string, CommandHandler>

    constructor ()
      ensures handlers == map[]
    {
      handlers := map[];
    }

    /** `register(commandType, handler)`: the last registration for a tag wins. */
    method Register(commandType: string, h: CommandHandler)
      modifies this
      ensures handlers == old(handlers)[commandType := h]
    {
      handlers := handlers[commandType := h];
    }

    /**
     * `execute(command)`: throws for an unregistered tag, and otherwise
     * returns whatever the registered handler answers, which it also does.
     */
    method Execute(cmd: Command, o: Oracle) returns (r: Result<CommandResult>)
      requires cmd.Type() in handlers ==> handlers[cmd.Type()].Type() == cmd.Type() && handlers[cmd.Type()].Valid()
      modifies if cmd.Type() in handlers then handlers[cmd.Type()].Repr() else {}
      ensures cmd.Type() !in old(handlers) ==> r == Err(NoCommandHandlerMessage + cmd.Type())
      ensures cmd.Type() in old(handlers) ==> (r.Ok?
        && (r.value, WorldOf(old(handlers)[cmd.Type()])) == Handled(cmd, old(WorldOf(handlers[cmd.Type()])), o))
    {
      if cmd.Type() !in handlers {
        return Err(NoCommandHandlerMessage + cmd.Type());
      }
      var h := handlers[cmd.Type()];
      var result := Handle(h, cmd, o);
      r := Ok(result);
    }
  }

  class QueryBus {
    var handlers: map<string, QueryHandler>

    constructor ()
      ensures handlers == map[]
    {
      handlers := map[];
    }

    /** `register(queryType, handler)`: the last registration for a tag wins. */
    method Register(queryType: string, h: QueryHandler)
      modifies this
      ensures handlers == old(handlers)[queryType := h]
    {
      handlers := handlers[queryType := h];
    }

    /** `execute(query)`: throws for an unregistered tag, and otherwise returns the handler's answer. */
    method Execute(q: Query) returns (r: Result<QueryResult>, ghost listed: Result<seq<EventState>>, ghost ids: seq<string>)
      requires q.Type() in handlers ==> handlers[q.Type()].Type() == q.Type()
      ensures q.Type() !in handlers ==> r == Err(NoQueryHandlerMessage + q.Type())
      ensures q.Type() in handlers ==> r.Ok? && IsAnswer(SourceOf(handlers[q.Type()]), q, r.value, listed, ids)
    {
      listed, ids := Ok([]), [];
      if q.Type() !in handlers {
        return Err(NoQueryHandlerMessage + q.Type()), listed, ids;
      }
      var answer;
      answer, listed, ids := HandleQuery(handlers[q.Type()], q);
      r := Ok(answer);
    }
  }

  /** The three command handlers over `repo`; the publish handler gets `publisher`, if any. */
  function CommandHandlersOver(repo: EventRepository, publisher: Option<Publisher>): (m: map<string, CommandHandler>)
    ensures m.Keys == {"CREATE_EVENT", "UPDATE_EVENT", "PUBLISH_EVENT"}
    ensures CommandRoutes(m)
    ensures forall t :: t in m ==> m[t].repository == repo
  {
    map["CREATE_EVENT" := CreateEventHandler(repo),
        "UPDATE_EVENT" := UpdateEventHandler(repo),
        "PUBLISH_EVENT" := PublishEventHandler(repo, publisher)]
  }

  /** The three write-side query handlers over `repo`. */
  function QueryHandlersOver(repo: EventRepository): (m: map<string, QueryHandler>)
    ensures m.Keys == {"GET_EVENT_BY_ID", "GET_EVENTS_BY_ORGANIZER", "GET_PUBLISHED_EVENTS"}
    ensures QueryRoutes(m)
    ensures forall t :: t in m ==> !m[t].OnReadModel() && m[t].repository == repo
  {
    map["GET_EVENT_BY_ID" := GetEventByIdHandler(repo),
        "GET_EVENTS_BY_ORGANIZER" := GetEventsByOrganizerHandler(repo),
        "GET_PUBLISHED_EVENTS" := GetPublishedEventsHandler(repo)]
  }

  /** Every command and every query has a handler once the six tags are registered. */
  lemma {:induction false} EveryRequestRouted(m: map<string, CommandHandler>, n: map<string, QueryHandler>, cmd: Command, q: Query)
    requires m.Keys == {"CREATE_EVENT", "UPDATE_EVENT", "PUBLISH_EVENT"}
    requires n.Keys == {"GET_EVENT_BY_ID", "GET_EVENTS_BY_ORGANIZER", "GET_PUBLISHED_EVENTS"}
    ensures cmd.Type() in m && q.Type() in n
  {
    match cmd {
      case CreateEventCommand(_, _) => assert "CREATE_EVENT" in m;
      case UpdateEventCommand(_, _) => assert "UPDATE_EVENT" in m;
      case PublishEventCommand(_) => assert "PUBLISH_EVENT" in m;
    }
    match q {
      case GetEventByIdQuery(_) => assert "GET_EVENT_BY_ID" in n;
      case GetEventsByOrganizerQuery(_) => assert "GET_EVENTS_BY_ORGANIZER" in n;
      case GetPublishedEventsQuery => assert "GET_PUBLISHED_EVENTS" in n;
    }
  }

  /** The in-memory container: one repository behind every handler, no publisher. */
  class Container {
    const eventRepository: InMemoryEventRepository
    const commandBus: CommandBus
    const queryBus: QueryBus

    /** `setupHandlers` has run and nothing re-registered since. */
    predicate Wired()
      reads commandBus, queryBus
    {
      commandBus.handlers == CommandHandlersOver(InMemory(eventRepository), None)
      && queryBus.handlers == QueryHandlersOver(InMemory(eventRepository))
    }

    constructor ()
      ensures fresh(eventRepository) && fresh(commandBus) && fresh(queryBus)
      ensures eventRepository.events == map[]
      ensures Wired()
    {
      var repo := new InMemoryEventRepository();
      var commands := new CommandBus();
      var queries := new QueryBus();
      eventRepository := repo;
      commandBus := commands;
      queryBus := queries;
      new;
      var r := InMemory(repo);
      commands.Register("CREATE_EVENT", CreateEventHandler(r));
      commands.Register("UPDATE_EVENT", UpdateEventHandler(r));
      commands.Register("PUBLISH_EVENT", PublishEventHandler(r, None));
      queries.Register("GET_EVENT_BY_ID", GetEventByIdHandler(r));
      queries.Register("GET_EVENTS_BY_ORGANIZER", GetEventsByOrganizerHandler(r));
      queries.Register("GET_PUBLISHED_EVENTS", GetPublishedEventsHandler(r));
    }
  }
}
