/** The three queries and the `EventDto` shape every query handler returns. */
module Queries {
  import opened Wrappers
  import opened ValueObjects

  datatype Query =
    | GetEventByIdQuery(eventId: string)
    | GetEventsByOrganizerQuery(organizerId: string)
    | GetPublishedEventsQuery
  {
    /** The `type` tag the query bus dispatches on. */
    function Type(): string
    {
      match this
      case GetEventByIdQuery(_) => "GET_EVENT_BY_ID"
      case GetEventsByOrganizerQuery(_) => "GET_EVENTS_BY_ORGANIZER"
      case GetPublishedEventsQuery => "GET_PUBLISHED_EVENTS"
    }
  }

  /** The tags tell the three query classes apart. */
  lemma QueryTypesDistinct(a: Query, b: Query)
    ensures a.Type() == b.Type() <==>
      (a.GetEventByIdQuery? && b.GetEventByIdQuery?)
      || (a.GetEventsByOrganizerQuery? && b.GetEventsByOrganizerQuery?)
      || (a.GetPublishedEventsQuery? && b.GetPublishedEventsQuery?)
  {
  }

  datatype DtoLocation = DtoLocation(address: Option<string>, isOnline: bool)

  datatype DtoPrice = DtoPrice(amount: real, currency: string)

  datatype EventDto = EventDto(
    id: string,
    organizerId: string,
    name: string,
    description: string,
    startDate: int,
    endDate: int,
    location: DtoLocation,
    eventType: EventType,
    ticketType: TicketType,
    ticketPrice: Option<DtoPrice>,
    isPublished: bool)
}
