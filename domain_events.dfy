/**
 * The domain-event envelopes the publisher carries. Each has a random
 * `evt_...` id and an `occurredOn` time, both supplied by the caller.
 */
module DomainEvents {
  import opened Wrappers
  import opened ValueObjects

  datatype PricePayload = PricePayload(amount: real, currency: string)

  /** The plain-object snapshot of an event that `EventCreated` and `EventUpdated` carry. */
  datatype EventPayload = EventPayload(
    id: string,
    organizerId: string,
    name: string,
    description: string,
    startDate: int,
    endDate: int,
    address: Option<string>,
    isOnline: bool,
    eventType: EventType,
    ticketType: TicketType,
    ticketPrice: Option<PricePayload>,
    isPublished: bool)

  datatype DomainEvent =
    | EventCreatedDomainEvent(eventId: string, occurredOn: int, event: EventPayload)
    | EventUpdatedDomainEvent(eventId: string, occurredOn: int, event: EventPayload, changes: seq<string>)
    | EventPublishedDomainEvent(eventId: string, occurredOn: int,
                                publishedId: string, organizerId: string, eventName: string)
  {
    /** The `eventType` tag the publisher dispatches on. */
    function EventType(): string
    {
      match this
      case EventCreatedDomainEvent(_, _, _) => "EventCreated"
      case EventUpdatedDomainEvent(_, _, _, _) => "EventUpdated"
      case EventPublishedDomainEvent(_, _, _, _, _) => "EventPublished"
    }

    function Version(): int
    {
      1
    }

    /** The id of the event the envelope is about. */
    function AggregateId(): string
    {
      match this
      case EventCreatedDomainEvent(_, _, p) => p.id
      case EventUpdatedDomainEvent(_, _, p, _) => p.id
      case EventPublishedDomainEvent(_, _, id, _, _) => id
    }

    /** Whether the envelope carries an `event` payload. */
    predicate HasPayload()
    {
      EventCreatedDomainEvent? || EventUpdatedDomainEvent?
    }
  }
}
