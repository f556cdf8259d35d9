/**
 * `EventManagementService`: the façade over the in-memory container. It
 * fills in the form's defaults with JavaScript's `||`, sends the command
 * over the command bus and turns a failed result into a thrown `Error`;
 * the two catalogue reads send a query and fall back to `[]` when the
 * answer is not a success.
 */
module EventManagementService {
  import opened Wrappers
  import opened ValueObjects
  import opened EventAggregate
  import opened Oracles
  import opened Commands
  import opened Queries
  import opened InMemoryStore
  import opened EventRepositories
  import opened CommandHandlers
  import opened QueryHandlers
  import opened Cqrs

  /** The `eventData` a caller passes: everything after the dates may be omitted. */
  datatype EventData = EventData(
    name: string,
    description: string,
    startDate: int,
    endDate: int,
    address: Option<string>,
    isOnline: Option<bool>,
    eventType: Option<EventType>,
    ticketType: Option<TicketType>,
    ticketPrice: Option<real>,
    currency: Option<string>)

  /**
   * The command's form: `x || default` replaces an omitted or falsy
   * `isOnline`, `eventType`, `ticketType` or `currency` (so the empty
   * currency too); the address and the price are passed as given.
   */
  function FormOf(d: EventData): (f: EventForm)
    ensures f.isOnline <==> d.isOnline == Some(true)
    ensures f.eventType == (if d.eventType.Some? then d.eventType.value else Public)
    ensures f.ticketType == (if d.ticketType.Some? then d.ticketType.value else Free)
    ensures f.currency == (if Truthy(d.currency) then d.currency.value else DefaultCurrency)
    ensures f.address == d.address && f.ticketPrice == d.ticketPrice
    ensures (f.name, f.description, f.startDate, f.endDate) == (d.name, d.description, d.startDate, d.endDate)
  {
    EventForm(
      d.name, d.description, d.startDate, d.endDate, d.address,
      d.isOnline.Some? && d.isOnline.value,
      if d.eventType.Some? then d.eventType.value else Public,
      if d.ticketType.Some? then d.ticketType.value else Free,
      d.ticketPrice,
      if Truthy(d.currency) then d.currency.value else DefaultCurrency)
  }

  /**
   * The service's defaults are the command constructors' defaults, except
   * that the service also replaces an empty currency, which the
   * constructor would keep.
   */
  lemma {:induction false} ServiceDefaultsMatchCommands(d: EventData)
    ensures d.currency != Some("") ==>
      FormOf(d) == WithDefaults(d.name, d.description, d.startDate, d.endDate, d.address, d.isOnline,
                                d.eventType, d.ticketType, d.ticketPrice, d.currency)
    ensures d.currency == Some("") ==>
      FormOf(d) == WithDefaults(d.name, d.description, d.startDate, d.endDate, d.address, d.isOnline,
                                d.eventType, d.ticketType, d.ticketPrice, None)
      && WithDefaults(d.name, d.description, d.startDate, d.endDate, d.address, d.isOnline,
                      d.eventType, d.ticketType, d.ticketPrice, d.currency).currency == ""
  {
    var f := FormOf(d);
    var g := WithDefaults(d.name, d.description, d.startDate, d.endDate, d.address, d.isOnline,
                          d.eventType, d.ticketType, d.ticketPrice, if d.currency == Some("") then None else d.currency);
    assert f.isOnline == g.isOnline && f.currency == g.currency;
  }

  /** `if (result.success) ... else throw new Error(result.error)`. */
  function Raised(r: CommandResult): (outcome: Outcome)
    ensures outcome.Fail? <==> r.Failed?
    ensures outcome.Fail? ==> outcome.msg == r.error
  {
    if r.Succeeded? then Pass else Fail(r.error)
  }

  /** `createEvent`: the new id or the thrown error, and the events afterwards. */
  function ServiceCreated(events: EventMap, organizerId: string, data: EventData, o: Oracle): (Result<string>, RepoState)
  {
    var (r, st) := Created(MemoryState(events), organizerId, FormOf(data), o);
    (if r.Succeeded? then Ok(r.eventId) else Err(r.error), st)
  }

  /** `result.success && result.data ? result.data : []`. */
  function DataOrEmpty(r: QueryResult): (ds: seq<EventDto>)
    ensures r.QueryFailed? ==> ds == []
  {
    if r.QuerySucceeded? && r.data.Listing? then r.data.events else []
  }

  /**
   * A created event shows up in its organizer's list, with the details the
   * form gave and unpublished.
   */
  lemma {:induction false} CreatedEventListed(events: EventMap, organizerId: string, data: EventData, o: Oracle, listed: seq<EventState>)
    requires ServiceCreated(events, organizerId, data, o).0.Ok?
    requires ServiceCreated(events, organizerId, data, o).1.MemoryState?
    requires IsSelection(ServiceCreated(events, organizerId, data, o).1.events, OfOrganizer(OrganizerId(organizerId)), listed)
    ensures ServiceCreated(events, organizerId, data, o).0 == Ok(o.uuid)
    ensures exists i :: (0 <= i < |listed| && listed[i] ==
      EventState(EventId(o.uuid), OrganizerId(organizerId), FormDetails(FormOf(data)).value, false))
  {
    var st := MemoryState(events);
    var f := FormOf(data);
    CreateThenFind(st, organizerId, f, o);
    var after := Created(st, organizerId, f, o).1;
    assert Loaded(after, EventId(o.uuid)).value.value.organizerId == OrganizerId(organizerId);
    assert o.uuid in after.events && Selects(OfOrganizer(OrganizerId(organizerId)), after.events[o.uuid]);
    var i :| 0 <= i < |listed| && listed[i].id.value == o.uuid;
    assert listed[i] == after.events[o.uuid];
  }

  /** A published event shows up in the public catalogue. */
  lemma {:induction false} PublishedEventCatalogued(events: EventMap, eventId: string, o: Oracle, listed: seq<EventState>)
    requires Published(World(MemoryState(events), NoPublisher), eventId, o).0.Succeeded?
    requires Published(World(MemoryState(events), NoPublisher), eventId, o).1.repo.MemoryState?
    requires IsSelection(Published(World(MemoryState(events), NoPublisher), eventId, o).1.repo.events, PublishedOnes, listed)
    ensures exists i :: 0 <= i < |listed| && listed[i].id.value == eventId && listed[i].isPublished
  {
    var w := World(MemoryState(events), NoPublisher);
    PublishThenFind(w, eventId, o);
    var after := Published(w, eventId, o).1.repo;
    assert eventId in after.events && after.events[eventId].isPublished;
    var i :| 0 <= i < |listed| && listed[i].id.value == eventId;
  }

  class EventManagementService {
    const container: Container

    constructor (container: Container)
      ensures this.container == container
    {
      this.container := container;
    }

    /** The events the container's repository holds. */
    function Events(): RepoState
      reads container.eventRepository
    {
      MemoryState(container.eventRepository.events)
    }

    /** `createEvent(eventData)`: the new event's id, or the handler's error thrown. */
    method CreateEvent(organizerId: string, data: EventData, o: Oracle) returns (r: Result<string>)
      requires container.Wired()
      modifies container.eventRepository
      ensures container.Wired()
      ensures (r, Events()) == ServiceCreated(old(container.eventRepository.events), organizerId, data, o)
    {
      var cmd := CreateEventCommand(organizerId, FormOf(data));
      var result := container.commandBus.Execute(cmd, o);
      match result {
        case Err(m) => r := Err(m);
        case Ok(Succeeded(id)) => r := Ok(id);
        case Ok(Failed(error)) => r := Err(error);
      }
    }

    /** `updateEvent(eventId, eventData)`: completes, or throws the handler's error. */
    method UpdateEvent(eventId: string, data: EventData, o: Oracle) returns (outcome: Outcome)
      requires container.Wired()
      modifies container.eventRepository
      ensures container.Wired()
      ensures var (r, st) := Updated(old(Events()), eventId, FormOf(data), o);
        outcome == Raised(r) && Events() == st
    {
      var cmd := UpdateEventCommand(eventId, FormOf(data));
      var result := container.commandBus.Execute(cmd, o);
      match result {
        case Err(m) => outcome := Fail(m);
        case Ok(answer) => outcome := Raised(answer);
      }
    }

    /** `publishEvent(eventId)`: completes, or throws the handler's error ('Event not found' included). */
    method PublishEvent(eventId: string, o: Oracle) returns (outcome: Outcome)
      requires container.Wired()
      modifies container.eventRepository
      ensures container.Wired()
      ensures var (r, w) := Published(World(old(Events()), NoPublisher), eventId, o);
        outcome == Raised(r) && Events() == w.repo
    {
      var cmd := PublishEventCommand(eventId);
      var result := container.commandBus.Execute(cmd, o);
      match result {
        case Err(m) => outcome := Fail(m);
        case Ok(answer) => outcome := Raised(answer);
      }
    }

    /**
     * `getOrganizerEvents(organizerId)`: that organizer's events, each once,
     * in some order. On the in-memory repository the `[]` fallback never
     * applies.
     */
    method GetOrganizerEvents(organizerId: string) returns (ds: seq<EventDto>, ghost listed: seq<EventState>)
      requires container.Wired()
      ensures IsSelection(container.eventRepository.events, OfOrganizer(OrganizerId(organizerId)), listed)
      ensures ds == MapAll(listed)
    {
      var q := GetEventsByOrganizerQuery(organizerId);
      var result;
      ghost var found, ids;
      result, found, ids := container.queryBus.Execute(q);
      listed := found.value;
      ds := if result.Ok? then DataOrEmpty(result.value) else [];
    }

    /** `getPublishedEvents()`: the published events, each once, in some order; never the fallback. */
    method GetPublishedEvents() returns (ds: seq<EventDto>, ghost listed: seq<EventState>)
      requires container.Wired()
      ensures IsSelection(container.eventRepository.events, PublishedOnes, listed)
      ensures ds == MapAll(listed)
    {
      var q := GetPublishedEventsQuery;
      var result;
      ghost var found, ids;
      result, found, ids := container.queryBus.Execute(q);
      listed := found.value;
      ds := if result.Ok? then DataOrEmpty(result.value) else [];
    }
  }
}
