/**
 * The three commands. The ten parameters `CreateEventCommand` and
 * `UpdateEventCommand` share are grouped as an `EventForm`.
 */
module Commands {
  import opened Wrappers
  import opened ValueObjects

  datatype EventForm = EventForm(
    name: string,
    description: string,
    startDate: int,
    endDate: int,
    address: Option<string>,
    isOnline: bool,
    eventType: EventType,
    ticketType: TicketType,
    ticketPrice: Option<real>,
    currency: string)

  /** An update names the event by id only: it carries no organizer. */
  datatype Command =
    | CreateEventCommand(organizerId: string, form: EventForm)
    | UpdateEventCommand(eventId: string, form: EventForm)
    | PublishEventCommand(eventId: string)
  {
    /** The `type` tag the command bus dispatches on. */
    function Type(): string
    {
      match this
      case CreateEventCommand(_, _) => "CREATE_EVENT"
      case UpdateEventCommand(_, _) => "UPDATE_EVENT"
      case PublishEventCommand(_) => "PUBLISH_EVENT"
    }
  }

  /** The tags tell the three command classes apart. */
  lemma CommandTypesDistinct(a: Command, b: Command)
    ensures a.Type() == b.Type() <==>
      (a.CreateEventCommand? && b.CreateEventCommand?)
      || (a.UpdateEventCommand? && b.UpdateEventCommand?)
      || (a.PublishEventCommand? && b.PublishEventCommand?)
  {
  }

  /**
   * The constructor parameters after their defaults: a parameter left
   * `undefined` becomes `false`, `PUBLIC`, `FREE` or `'PLN'`; the address
   * and the ticket price have no default and stay absent.
   */
  function WithDefaults(name: string, description: string, startDate: int, endDate: int,
                        address: Option<string>, isOnline: Option<bool>, eventType: Option<EventType>,
                        ticketType: Option<TicketType>, ticketPrice: Option<real>,
                        currency: Option<string>): (f: EventForm)
    ensures f.name == name && f.description == description
    ensures f.startDate == startDate && f.endDate == endDate
    ensures f.address == address && f.ticketPrice == ticketPrice
    ensures f.isOnline == (isOnline.Some? && isOnline.value)
    ensures f.eventType == (if eventType.Some? then eventType.value else Public)
    ensures f.ticketType == (if ticketType.Some? then ticketType.value else Free)
    ensures f.currency == (if currency.Some? then currency.value else DefaultCurrency)
  {
    EventForm(
      name, description, startDate, endDate, address,
      if isOnline.Some? then isOnline.value else false,
      if eventType.Some? then eventType.value else Public,
      if ticketType.Some? then ticketType.value else Free,
      ticketPrice,
      if currency.Some? then currency.value else DefaultCurrency)
  }

  /** Every given parameter is kept as it is: defaults never override. */
  lemma GivenParametersKept(f: EventForm)
    ensures WithDefaults(f.name, f.description, f.startDate, f.endDate, f.address, Some(f.isOnline),
                         Some(f.eventType), Some(f.ticketType), f.ticketPrice, Some(f.currency)) == f
  {
  }
}
