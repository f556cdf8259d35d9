/**
 * The three command handlers. Each works step by step over a repository:
 * build the value objects, load or create the aggregate, change it, save
 * it; every thrown error and a missing id become a failed `CommandResult`.
 * `Created`, `Updated` and `Published` say what a handler answers and what
 * it leaves behind.
 */
module CommandHandlers {
  import opened Wrappers
  import opened ValueObjects
  import opened EventAggregate
  import opened SqlTable
  import opened RowMapping
  import opened DomainEvents
  import opened EventPublisher
  import opened Oracles
  import opened Commands
  import opened InMemoryStore
  import opened EventRepositories

  /** `{success: true, data: {eventId}}` or `{success: false, error}`. */
  datatype CommandResult = Succeeded(eventId: string) | Failed(error: string)

  const NotFoundMessage: string := "Event not found"

  /**
   * `new Location(address, isOnline)` and then, only when a price was
   * given, `new Money(ticketPrice, currency)`, assembled into the details
   * the aggregate receives; or the message of the first constructor that throws.
   */
  function FormDetails(f: EventForm): (r: Result<EventDetails>)
    ensures NewLocation(f.address, Some(f.isOnline)).Err? ==> r == Err(NoLocationMessage)
    ensures NewLocation(f.address, Some(f.isOnline)).Ok? ==>
      (r.Err? <==> f.ticketPrice.Some? && f.ticketPrice.value < 0.0)
    ensures NewLocation(f.address, Some(f.isOnline)).Ok? && r.Err? ==> r.msg == NegativeAmountMessage
    ensures r.Ok? ==> (r.value.name == f.name && r.value.description == f.description
      && r.value.startDate == f.startDate && r.value.endDate == f.endDate
      && r.value.location == LocationValue(f.address, f.isOnline)
      && r.value.eventType == f.eventType && r.value.ticketType == f.ticketType
      && (r.value.ticketPrice.Some? <==> f.ticketPrice.Some?)
      && (f.ticketPrice.Some? ==> r.value.ticketPrice.value == MoneyValue(f.ticketPrice.value, f.currency)))
  {
    match NewLocation(f.address, Some(f.isOnline))
    case Err(m) => Err(m)
    case Ok(location) =>
      if f.ticketPrice.None? then
        Ok(EventDetails(f.name, f.description, f.startDate, f.endDate, location, f.eventType, f.ticketType, None))
      else
        match NewMoney(f.ticketPrice.value, Some(f.currency))
        case Err(m) => Err(m)
        case Ok(price) =>
          Ok(EventDetails(f.name, f.description, f.startDate, f.endDate, location, f.eventType, f.ticketType, Some(price)))
  }

  /** `CreateEventCommandHandler.handle`: its result and the repository afterwards. */
  function Created(st: RepoState, organizerId: string, f: EventForm, o: Oracle): (CommandResult, RepoState)
  {
    match FormDetails(f)
    case Err(m) => (Failed(m), st)
    case Ok(d) =>
      match ValidateEventData(d, o.now)
      case Some(rule) => (Failed(Message(rule)), st)
      case None =>
        var (outcome, st') := Saved(st, EventState(EventId(o.uuid), OrganizerId(organizerId), d, false), o);
        if outcome.Fail? then (Failed(outcome.msg), st') else (Succeeded(o.uuid), st')
  }

  /** `UpdateEventCommandHandler.handle`. */
  function Updated(st: RepoState, eventId: string, f: EventForm, o: Oracle): (CommandResult, RepoState)
  {
    match Loaded(st, EventId(eventId))
    case Err(m) => (Failed(m), st)
    case Ok(None) => (Failed(NotFoundMessage), st)
    case Ok(Some(s)) =>
      match FormDetails(f)
      case Err(m) => (Failed(m), st)
      case Ok(d) =>
        match ValidateEventData(d, o.now)
        case Some(rule) => (Failed(Message(rule)), st)
        case None =>
          var (outcome, st') := Saved(st, s.(details := d), o);
          if outcome.Fail? then (Failed(outcome.msg), st') else (Succeeded(s.id.value), st')
  }

  /**
   * Where `EventPublished` goes after a publish: nowhere, to a publisher of
   * its own, or to the publisher the repository already publishes through.
   */
  datatype Broadcast =
    | NoPublisher
    | ToPublisher(subscriptions: Subscriptions, queryDb: TableState)
    | ToRepositoryPublisher

  /** A repository together with what a publish handler may broadcast to. */
  datatype World = World(repo: RepoState, broadcast: Broadcast)

  /** The `EventPublishedDomainEvent` the publish handler broadcasts. */
  function PublishedEnvelope(s: EventState, o: Oracle): (e: DomainEvent)
    ensures e.EventType() == "EventPublished" && e.AggregateId() == s.id.value
  {
    EventPublishedDomainEvent(o.broadcastEnvelopeId, o.now, s.id.value, s.organizerId.value, s.details.name)
  }

  /** `eventPublisher.publish(e)` when a publisher was injected. */
  function Broadcasted(w: World, e: DomainEvent, stamp: int): World
  {
    match w.broadcast
    case NoPublisher => w
    case ToPublisher(subs, q) => w.(broadcast := ToPublisher(subs, Deliver(q, HandlersFor(subs, e.EventType()), e, stamp)))
    case ToRepositoryPublisher =>
      match w.repo
      case PublishingState(wr, q, subs) =>
        w.(repo := PublishingState(wr, Deliver(q, HandlersFor(subs, e.EventType()), e, stamp), subs))
      case _ => w
  }

  /** `PublishEventCommandHandler.handle`. */
  function Published(w: World, eventId: string, o: Oracle): (CommandResult, World)
  {
    match Loaded(w.repo, EventId(eventId))
    case Err(m) => (Failed(m), w)
    case Ok(None) => (Failed(NotFoundMessage), w)
    case Ok(Some(s)) => PublishedFound(w, s, o)
  }

  /** The publish handler once it found `s`: publish, save, then broadcast. */
  function PublishedFound(w: World, s: EventState, o: Oracle): (CommandResult, World)
  {
    var s' := s.(isPublished := true);
    var saved := Saved(w.repo, s', o);
    if saved.0.Fail? then (Failed(saved.0.msg), w.(repo := saved.1))
    else (Succeeded(s.id.value), Broadcasted(w.(repo := saved.1), PublishedEnvelope(s', o), o.stamp))
  }

  /** What handling `cmd` answers and leaves behind. */
  function Handled(cmd: Command, w: World, o: Oracle): (CommandResult, World)
  {
    match cmd
    case CreateEventCommand(organizerId, f) =>
      var (r, st) := Created(w.repo, organizerId, f, o);
      (r, w.(repo := st))
    case UpdateEventCommand(eventId, f) =>
      var (r, st) := Updated(w.repo, eventId, f, o);
      (r, w.(repo := st))
    case PublishEventCommand(eventId) => Published(w, eventId, o)
  }

  /** A save keeps the aggregate's id under which it was loaded. */
  lemma LoadedUnderOwnId(st: RepoState, id: EventId)
    requires Loaded(st, id).Ok? && Loaded(st, id).value.Some?
    ensures Loaded(st, id).value.value.id == id
    ensures !st.MemoryState? ==> (id.value in st.write.rows
      && Loaded(st, id).value.value.organizerId.value == st.write.rows[id.value].data.organizerId)
  {
  }

  /** An unknown id fails with 'Event not found', and nothing is saved or broadcast. */
  lemma UnknownIdChangesNothing(w: World, eventId: string, f: EventForm, o: Oracle)
    requires Loaded(w.repo, EventId(eventId)) == Ok(None)
    ensures Updated(w.repo, eventId, f, o) == (Failed(NotFoundMessage), w.repo)
    ensures Published(w, eventId, o) == (Failed(NotFoundMessage), w)
  {
  }

  /**
   * A form that a value object or the validation rejects fails with that
   * message and saves nothing, on create and on update alike.
   */
  lemma RejectedFormNotSaved(st: RepoState, id: string, f: EventForm, o: Oracle)
    requires FormDetails(f).Err? || ValidateEventData(FormDetails(f).value, o.now).Some?
    ensures Created(st, id, f, o).0.Failed? && Created(st, id, f, o).1 == st
    ensures Created(st, id, f, o).0.error
      == if FormDetails(f).Err? then FormDetails(f).msg else Message(ValidateEventData(FormDetails(f).value, o.now).value)
    ensures Updated(st, id, f, o).1 == st && Updated(st, id, f, o).0.Failed?
  {
  }

  /**
   * Create answers the fresh id and the new, unpublished aggregate is found
   * under it, owned by the given organizer and holding the form's details;
   * on a SQLite repository this needs a fresh id and a form the row mapping keeps.
   */
  lemma {:induction false} CreateThenFind(st: RepoState, organizerId: string, f: EventForm, o: Oracle)
    requires Created(st, organizerId, f, o).0.Succeeded?
    requires !st.MemoryState? ==> (o.uuid !in st.write.rows
      && RowFaithful(EventState(EventId(o.uuid), OrganizerId(organizerId), FormDetails(f).value, false)))
    ensures Created(st, organizerId, f, o).0 == Succeeded(o.uuid)
    ensures Loaded(Created(st, organizerId, f, o).1, EventId(o.uuid))
      == Ok(Some(EventState(EventId(o.uuid), OrganizerId(organizerId), FormDetails(f).value, false)))
  {
    var s := EventState(EventId(o.uuid), OrganizerId(organizerId), FormDetails(f).value, false);
    SavedThenLoaded(st, s, o);
  }

  /**
   * A successful update leaves the aggregate found under its id with the
   * new details, while its id, owner and publication flag stay as loaded.
   */
  lemma {:induction false} UpdateThenFind(st: RepoState, eventId: string, f: EventForm, o: Oracle)
    requires Updated(st, eventId, f, o).0.Succeeded?
    requires !st.MemoryState? ==> RowFaithful(Loaded(st, EventId(eventId)).value.value.(details := FormDetails(f).value))
    ensures Loaded(st, EventId(eventId)).Ok? && Loaded(st, EventId(eventId)).value.Some?
    ensures var s := Loaded(st, EventId(eventId)).value.value;
      Updated(st, eventId, f, o).0 == Succeeded(eventId)
      && Loaded(Updated(st, eventId, f, o).1, EventId(eventId)) == Ok(Some(s.(details := FormDetails(f).value)))
  {
    var s := Loaded(st, EventId(eventId)).value.value;
    LoadedUnderOwnId(st, EventId(eventId));
    SavedThenLoaded(st, s.(details := FormDetails(f).value), o);
  }

  /**
   * A successful publish leaves the aggregate found published and otherwise
   * unchanged; `EventPublished` goes out only to an injected publisher.
   */
  lemma {:induction false} PublishThenFind(w: World, eventId: string, o: Oracle)
    requires Published(w, eventId, o).0.Succeeded?
    requires !w.repo.MemoryState? ==> RowFaithful(Loaded(w.repo, EventId(eventId)).value.value)
    ensures Loaded(w.repo, EventId(eventId)).Ok? && Loaded(w.repo, EventId(eventId)).value.Some?
    ensures var s := Loaded(w.repo, EventId(eventId)).value.value;
      Published(w, eventId, o).0 == Succeeded(eventId)
      && Loaded(Published(w, eventId, o).1.repo, EventId(eventId)) == Ok(Some(s.(isPublished := true)))
    ensures w.broadcast.NoPublisher? ==> Published(w, eventId, o).1.broadcast == NoPublisher
  {
    var s := Loaded(w.repo, EventId(eventId)).value.value;
    LoadedUnderOwnId(w.repo, EventId(eventId));
    SavedThenLoaded(w.repo, s.(isPublished := true), o);
    var st' := Saved(w.repo, s.(isPublished := true), o).1;
    var after := Broadcasted(w.(repo := st'), PublishedEnvelope(s.(isPublished := true), o), o.stamp);
    assert Published(w, eventId, o).1 == after;
    if w.broadcast.ToRepositoryPublisher? && st'.PublishingState? {
      var e := PublishedEnvelope(s.(isPublished := true), o);
      SubscribersPreserveLoad(st', e, o.stamp);
    }
  }

  /**
   * Delivering `EventPublished` through a repository's own publisher cannot
   * change its write table, so what `findById` sees is unchanged.
   */
  lemma SubscribersPreserveLoad(st: RepoState, e: DomainEvent, stamp: int)
    requires st.PublishingState?
    ensures var st' := PublishingState(st.write, Deliver(st.read, HandlersFor(st.subscriptions, e.EventType()), e, stamp), st.subscriptions);
      forall id :: Loaded(st', id) == Loaded(st, id)
  {
  }

  /** On the in-memory repository publishing twice leaves the same state as publishing once. */
  lemma PublishTwiceIsOnce(events: EventMap, eventId: string, o: Oracle, o': Oracle)
    ensures var w1 := Published(World(MemoryState(events), NoPublisher), eventId, o).1;
      Published(w1, eventId, o').1 == w1
  {
    var w0 := World(MemoryState(events), NoPublisher);
    if eventId in events {
      var s := events[eventId].(isPublished := true);
      assert Published(w0, eventId, o).1 == World(MemoryState(events[eventId := s]), NoPublisher);
      assert events[eventId := s][eventId := s.(isPublished := true)] == events[eventId := s];
    }
  }

  /** A failed publish broadcasts nothing; a successful one broadcasts exactly one envelope. */
  lemma BroadcastOnlyOnSuccess(w: World, eventId: string, o: Oracle)
    requires w.broadcast.ToPublisher?
    ensures var (r, w') := Published(w, eventId, o);
      (r.Failed? ==> w'.broadcast == w.broadcast)
      && (r.Succeeded? ==> var s := Loaded(w.repo, EventId(eventId)).value.value.(isPublished := true);
            var e := PublishedEnvelope(s, o);
            w'.broadcast == ToPublisher(w.broadcast.subscriptions,
              Deliver(w.broadcast.queryDb, HandlersFor(w.broadcast.subscriptions, "EventPublished"), e, o.stamp)))
  {
  }

  datatype CommandHandler =
    | CreateEventHandler(repository: EventRepository)
    | UpdateEventHandler(repository: EventRepository)
    | PublishEventHandler(repository: EventRepository, publisher: Option<Publisher>)
  {
    /** The command tag the handler serves. */
    function Type(): string
    {
      match this
      case CreateEventHandler(_) => "CREATE_EVENT"
      case UpdateEventHandler(_) => "UPDATE_EVENT"
      case PublishEventHandler(_, _) => "PUBLISH_EVENT"
    }

    /** Whether the injected publisher is the one the repository itself publishes through. */
    predicate SharesPublisher()
    {
      PublishEventHandler? && publisher.Some? && repository.Publishing?
      && publisher.value == repository.publishing.publisher
    }

    /** An injected publisher either is the repository's own or touches nothing the repository holds. */
    predicate Valid()
    {
      repository.Valid()
      && (PublishEventHandler? && publisher.Some? && !SharesPublisher() ==>
            publisher.value.queryDb !in repository.Repr() && publisher.value !in repository.Repr())
    }

    function Repr(): set<object>
    {
      repository.Repr()
      + if PublishEventHandler? && publisher.Some? then {publisher.value, publisher.value.queryDb} else {}
    }
  }

  /** The repository's state and the state of whatever the handler broadcasts to. */
  function WorldOf(h: CommandHandler): (w: World)
    reads h.Repr()
    ensures w.repo == State(h.repository)
  {
    World(State(h.repository),
      if !h.PublishEventHandler? || h.publisher.None? then NoPublisher
      else if h.SharesPublisher() then ToRepositoryPublisher
      else ToPublisher(h.publisher.value.handlers, h.publisher.value.queryDb.State()))
  }

  method HandleCreate(repo: EventRepository, organizerId: string, f: EventForm, o: Oracle) returns (r: CommandResult)
    requires repo.Valid()
    modifies repo.Repr()
    ensures (r, State(repo)) == Created(old(State(repo)), organizerId, f, o)
  {
    var details := FormDetails(f);
    if details.Err? {
      return Failed(details.msg);
    }
    var created := Event.Create(OrganizerId(organizerId), details.value, o.uuid, o.now);
    if created.Err? {
      return Failed(created.msg);
    }
    var e := created.value;
    var saved := Save(repo, e, o);
    if saved.Fail? {
      return Failed(saved.msg);
    }
    return Succeeded(e.id.value);
  }

  method HandleUpdate(repo: EventRepository, eventId: string, f: EventForm, o: Oracle) returns (r: CommandResult)
    requires repo.Valid()
    modifies repo.Repr()
    ensures (r, State(repo)) == Updated(old(State(repo)), eventId, f, o)
  {
    var found := FindById(repo, EventId(eventId));
    if found.Err? {
      return Failed(found.msg);
    }
    if found.value.None? {
      return Failed(NotFoundMessage);
    }
    var e := found.value.value;
    var details := FormDetails(f);
    if details.Err? {
      return Failed(details.msg);
    }
    var updated := e.Update(details.value, o.now);
    if updated.Fail? {
      return Failed(updated.msg);
    }
    var saved := Save(repo, e, o);
    if saved.Fail? {
      return Failed(saved.msg);
    }
    return Succeeded(e.id.value);
  }

  method HandlePublish(h: CommandHandler, eventId: string, o: Oracle) returns (r: CommandResult)
    requires h.PublishEventHandler? && h.Valid()
    modifies h.Repr()
    ensures (r, WorldOf(h)) == Published(old(WorldOf(h)), eventId, o)
  {
    var found := LoadInWorld(h, EventId(eventId));
    if found.Err? {
      return Failed(found.msg);
    }
    if found.value.None? {
      return Failed(NotFoundMessage);
    }
    var e := found.value.value;
    r := PublishFound(h, e, o);
  }

  /** `findById` through the handler's repository, which leaves the handler's world alone. */
  method LoadInWorld(h: CommandHandler, id: EventId) returns (found: Result<Option<Event>>)
    ensures WorldOf(h) == old(WorldOf(h))
    ensures found.Err? ==> Loaded(WorldOf(h).repo, id) == Err(found.msg)
    ensures found.Ok? && found.value.None? ==> Loaded(WorldOf(h).repo, id) == Ok(None)
    ensures found.Ok? && found.value.Some? ==> (Loaded(WorldOf(h).repo, id) == Ok(Some(found.value.value.State()))
      && fresh(found.value.value) && found.value.value !in h.Repr())
  {
    found := FindById(h.repository, id);
  }

  /** The publish handler once it found the aggregate: publish it, save it, broadcast. */
  method PublishFound(h: CommandHandler, e: Event, o: Oracle) returns (r: CommandResult)
    requires h.PublishEventHandler? && h.Valid() && e !in h.Repr()
    modifies h.Repr(), e
    ensures (r, WorldOf(h)) == PublishedFound(old(WorldOf(h)), old(e.State()), o)
  {
    ghost var w0 := WorldOf(h);
    e.Publish();
    assert WorldOf(h) == w0;
    var s := e.State();
    var saved := SaveInWorld(h, e, o);
    ghost var w1 := WorldOf(h);
    assert w1 == w0.(repo := Saved(w0.repo, s, o).1);
    if saved.Fail? {
      return Failed(saved.msg);
    }
    BroadcastPublished(h, PublishedEnvelope(s, o), o.stamp);
    return Succeeded(s.id.value);
  }

  /** `save` through the handler's repository: whatever it broadcasts to is left alone. */
  method SaveInWorld(h: CommandHandler, e: Event, o: Oracle) returns (outcome: Outcome)
    requires h.Valid()
    modifies h.repository.Repr()
    ensures outcome == Saved(old(WorldOf(h)).repo, old(e.State()), o).0
    ensures WorldOf(h) == old(WorldOf(h)).(repo := Saved(old(WorldOf(h)).repo, old(e.State()), o).1)
  {
    outcome := Save(h.repository, e, o);
  }

  /** `if (this.eventPublisher) await this.eventPublisher.publish(e)`. */
  method BroadcastPublished(h: CommandHandler, e: DomainEvent, stamp: int)
    requires h.PublishEventHandler? && h.Valid()
    modifies h.Repr()
    ensures WorldOf(h) == Broadcasted(old(WorldOf(h)), e, stamp)
  {
    if h.publisher.None? {
      return;
    }
    h.publisher.value.Publish(e, stamp);
  }

  /** `handler.handle(command)` for the handler registered under the command's tag. */
  method Handle(h: CommandHandler, cmd: Command, o: Oracle) returns (r: CommandResult)
    requires h.Valid() && h.Type() == cmd.Type()
    modifies h.Repr()
    ensures (r, WorldOf(h)) == Handled(cmd, old(WorldOf(h)), o)
  {
    match cmd {
      case CreateEventCommand(organizerId, f) =>
        r := HandleCreate(h.repository, organizerId, f, o);
      case UpdateEventCommand(eventId, f) =>
        r := HandleUpdate(h.repository, eventId, f, o);
      case PublishEventCommand(eventId) =>
        r := HandlePublish(h, eventId, o);
    }
  }
}
