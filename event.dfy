/**
 * The `Event` aggregate root: its editable details, the validation rules
 * that `create` and `update` apply (in the order the code checks them), the
 * `EventCreated` domain event it records, and the aggregate itself as a
 * class whose editable fields `update` and `publish` change in place.
 */
module EventAggregate {
  import opened Wrappers
  import opened ValueObjects

  /** The eight fields `create` takes and `update` overwrites. Dates are timestamps. */
  datatype EventDetails = EventDetails(
    name: string,
    description: string,
    startDate: int,
    endDate: int,
    location: Location,
    eventType: EventType,
    ticketType: TicketType,
    ticketPrice: Option<Money>)

  /** A snapshot of an aggregate's fields. */
  datatype EventState = EventState(
    id: EventId,
    organizerId: OrganizerId,
    details: EventDetails,
    isPublished: bool)

  /** The aggregate's own domain event, recorded by `create`. */
  datatype EventCreated = EventCreated(
    eventId: EventId,
    organizerId: OrganizerId,
    details: EventDetails,
    occurredOn: int)

  // ---------------------------------------------------------------------
  // String.prototype.trim

  /** The characters `trim` removes: ECMAScript WhiteSpace and LineTerminator. */
  predicate IsJsWhitespace(c: char)
  {
    c == '\t' || c == '\n' || c == '\U{000B}' || c == '\U{000C}' || c == '\r' || c == ' '
    || c == '\U{00A0}' || c == '\U{1680}' || ('\U{2000}' <= c <= '\U{200A}')
    || c == '\U{2028}' || c == '\U{2029}' || c == '\U{202F}' || c == '\U{205F}'
    || c == '\U{3000}' || c == '\U{FEFF}'
  }

  /** Strips leading whitespace. */
  function TrimStart(s: string): (r: string)
    ensures |r| <= |s|
    decreases |s|
  {
    if |s| > 0 && IsJsWhitespace(s[0]) then TrimStart(s[1..]) else s
  }

  /** Strips trailing whitespace. */
  function TrimEnd(s: string): (r: string)
    ensures |r| <= |s|
    decreases |s|
  {
    if |s| > 0 && IsJsWhitespace(s[|s| - 1]) then TrimEnd(s[..|s| - 1]) else s
  }

  function Trim(s: string): string
  {
    TrimEnd(TrimStart(s))
  }

  /** `!s.trim()`: the trimmed string is empty. */
  predicate IsBlank(s: string)
  {
    Trim(s) == ""
  }

  /** `TrimStart` removes exactly the leading run of whitespace. */
  lemma {:induction false} TrimStartIsSuffix(s: string)
    ensures var r := TrimStart(s);
      r == s[|s| - |r|..]
      && (|r| > 0 ==> !IsJsWhitespace(r[0]))
      && forall i :: 0 <= i < |s| - |r| ==> IsJsWhitespace(s[i])
    decreases |s|
  {
    if |s| > 0 && IsJsWhitespace(s[0]) {
      TrimStartIsSuffix(s[1..]);
      var r := TrimStart(s);
      forall i | 0 <= i < |s| - |r|
        ensures IsJsWhitespace(s[i])
      {
        if i > 0 {
          assert s[i] == s[1..][i - 1];
        }
      }
    }
  }

  /** `TrimEnd` removes exactly the trailing run of whitespace. */
  lemma {:induction false} TrimEndIsPrefix(s: string)
    ensures var r := TrimEnd(s);
      r == s[..|r|]
      && (|r| > 0 ==> !IsJsWhitespace(r[|r| - 1]))
      && forall i :: |r| <= i < |s| ==> IsJsWhitespace(s[i])
    decreases |s|
  {
    if |s| > 0 && IsJsWhitespace(s[|s| - 1]) {
      TrimEndIsPrefix(s[..|s| - 1]);
      var r := TrimEnd(s);
      forall i | |r| <= i < |s|
        ensures IsJsWhitespace(s[i])
      {
        if i < |s| - 1 {
          assert s[i] == s[..|s| - 1][i];
        }
      }
    }
  }

  /** A string is blank exactly when every character of it is whitespace. */
  lemma {:induction false} BlankIffAllWhitespace(s: string)
    ensures IsBlank(s) <==> forall i :: 0 <= i < |s| ==> IsJsWhitespace(s[i])
  {
    var t := TrimStart(s);
    TrimStartIsSuffix(s);
    TrimEndIsPrefix(t);
    var n := |s| - |t|;
    if |t| > 0 {
      assert t[0] == s[n];
    } else {
      assert TrimEnd(t) == "";
    }
  }

  // ---------------------------------------------------------------------
  // validateEventData

  /** The six checks of `validateEventData`, in the order the code makes them. */
  datatype Rule =
    | NameRequired
    | DescriptionRequired
    | StartBeforeEnd
    | NotInPast
    | PaidNeedsPrice
    | FreeHasNoPrice

  function Message(rule: Rule): string
  {
    match rule
    case NameRequired => "Event name is required"
    case DescriptionRequired => "Event description is required"
    case StartBeforeEnd => "Start date must be before end date"
    case NotInPast => "Event cannot be in the past"
    case PaidNeedsPrice => "Paid events must have a valid ticket price"
    case FreeHasNoPrice => "Free events cannot have a ticket price"
  }

  /** The position of a check in the sequence of checks. */
  function Rank(rule: Rule): nat
  {
    match rule
    case NameRequired => 0
    case DescriptionRequired => 1
    case StartBeforeEnd => 2
    case NotInPast => 3
    case PaidNeedsPrice => 4
    case FreeHasNoPrice => 5
  }

  /** The condition under which a check throws, given the clock reading `now`. */
  predicate Violates(rule: Rule, d: EventDetails, now: int)
  {
    match rule
    case NameRequired => IsBlank(d.name)
    case DescriptionRequired => IsBlank(d.description)
    case StartBeforeEnd => d.startDate >= d.endDate
    case NotInPast => d.startDate < now
    case PaidNeedsPrice => d.ticketType == Paid && (d.ticketPrice.None? || d.ticketPrice.value.amount <= 0.0)
    case FreeHasNoPrice => d.ticketType == Free && d.ticketPrice.Some? && d.ticketPrice.value.amount > 0.0
  }

  /**
   * `validateEventData`: the check that throws, if any. It is the first
   * violated check in code order, and there is none exactly when no check
   * is violated.
   */
  function ValidateEventData(d: EventDetails, now: int): (r: Option<Rule>)
    ensures r.Some? ==> Violates(r.value, d, now)
    ensures r.None? ==> forall rule :: !Violates(rule, d, now)
    ensures r.Some? ==> forall rule :: Rank(rule) < Rank(r.value) ==> !Violates(rule, d, now)
  {
    if IsBlank(d.name) then Some(NameRequired)
    else if IsBlank(d.description) then Some(DescriptionRequired)
    else if d.startDate >= d.endDate then Some(StartBeforeEnd)
    else if d.startDate < now then Some(NotInPast)
    else if d.ticketType == Paid && (d.ticketPrice.None? || d.ticketPrice.value.amount <= 0.0) then Some(PaidNeedsPrice)
    else if d.ticketType == Free && d.ticketPrice.Some? && d.ticketPrice.value.amount > 0.0 then Some(FreeHasNoPrice)
    else None
  }

  /** The ticket rules that accepted details satisfy. */
  lemma AcceptedPricing(d: EventDetails, now: int)
    requires ValidateEventData(d, now).None?
    ensures d.ticketType == Paid ==> d.ticketPrice.Some? && d.ticketPrice.value.amount > 0.0
    ensures d.ticketType == Free ==> d.ticketPrice.None? || d.ticketPrice.value.amount == 0.0
    ensures now <= d.startDate < d.endDate
  {
    assert !Violates(PaidNeedsPrice, d, now) && !Violates(FreeHasNoPrice, d, now);
    assert !Violates(StartBeforeEnd, d, now) && !Violates(NotInPast, d, now);
  }

  /** Validation does not look at the location or the event type. */
  lemma ValidationIgnoresLocationAndType(d: EventDetails, l: Location, t: EventType, now: int)
    ensures ValidateEventData(d.(location := l, eventType := t), now) == ValidateEventData(d, now)
  {
  }

  // ---------------------------------------------------------------------
  // The aggregate root

  class Event {
    const id: EventId
    const organizerId: OrganizerId
    var name: string
    var description: string
    var startDate: int
    var endDate: int
    var location: Location
    var eventType: EventType
    var ticketType: TicketType
    var ticketPrice: Option<Money>
    var isPublished: bool
    /** The pending domain events, oldest first. */
    var domainEvents: seq<EventCreated>

    function Details(): EventDetails
      reads this
    {
      EventDetails(name, description, startDate, endDate, location, eventType, ticketType, ticketPrice)
    }

    function State(): EventState
      reads this
    {
      EventState(id, organizerId, Details(), isPublished)
    }

    /** `new Event(...)`: no validation and no pending domain events. */
    constructor (id: EventId, organizerId: OrganizerId, d: EventDetails, isPublished: bool)
      ensures State() == EventState(id, organizerId, d, isPublished)
      ensures domainEvents == []
    {
      this.id := id;
      this.organizerId := organizerId;
      name := d.name;
      description := d.description;
      startDate := d.startDate;
      endDate := d.endDate;
      location := d.location;
      eventType := d.eventType;
      ticketType := d.ticketType;
      ticketPrice := d.ticketPrice;
      this.isPublished := isPublished;
      domainEvents := [];
    }

    /**
     * `Event.create`: validates, takes a fresh identifier `uuid`, builds an
     * unpublished event and records one `EventCreated` carrying the same data.
     */
    static method Create(organizerId: OrganizerId, d: EventDetails, uuid: string, now: int)
      returns (r: Result<Event>)
      ensures ValidateEventData(d, now).Some? ==> r == Err(Message(ValidateEventData(d, now).value))
      ensures ValidateEventData(d, now).None? ==> r.Ok? && fresh(r.value)
      ensures r.Ok? ==> r.value.State() == EventState(EventId(uuid), organizerId, d, false)
      ensures r.Ok? ==> r.value.domainEvents == [EventCreated(EventId(uuid), organizerId, d, now)]
    {
      var failed := ValidateEventData(d, now);
      if failed.Some? {
        return Err(Message(failed.value));
      }
      var eventId := EventId(uuid);
      var e := new Event(eventId, organizerId, d, false);
      e.AddDomainEvent(EventCreated(eventId, organizerId, d, now));
      return Ok(e);
    }

    /**
     * `update`: validates the new details and, only when they pass,
     * overwrites all eight of them. Identity, publication and the pending
     * domain events never change.
     */
    method Update(d: EventDetails, now: int) returns (r: Outcome)
      modifies this
      ensures ValidateEventData(d, now).Some? ==> r == Fail(Message(ValidateEventData(d, now).value))
      ensures ValidateEventData(d, now).None? ==> r == Pass
      ensures r.Pass? ==> State() == old(State()).(details := d)
      ensures r.Fail? ==> State() == old(State())
      ensures domainEvents == old(domainEvents)
    {
      var failed := ValidateEventData(d, now);
      if failed.Some? {
        return Fail(Message(failed.value));
      }
      name := d.name;
      description := d.description;
      startDate := d.startDate;
      endDate := d.endDate;
      location := d.location;
      eventType := d.eventType;
      ticketType := d.ticketType;
      ticketPrice := d.ticketPrice;
      return Pass;
    }

    /** `publish`: unconditional, so publishing twice is the same as once. */
    method Publish()
      modifies this
      ensures State() == old(State()).(isPublished := true)
      ensures domainEvents == old(domainEvents)
    {
      isPublished := true;
    }

    method AddDomainEvent(e: EventCreated)
      modifies this
      ensures State() == old(State())
      ensures domainEvents == old(domainEvents) + [e]
    {
      domainEvents := domainEvents + [e];
    }

    /** `getDomainEvents`: a copy of the pending events. */
    method GetDomainEvents() returns (es: seq<EventCreated>)
      ensures es == domainEvents
    {
      es := domainEvents;
    }

    method ClearDomainEvents()
      modifies this
      ensures State() == old(State())
      ensures domainEvents == []
    {
      domainEvents := [];
    }
  }
}
