/**
 * The value objects of the domain: identifiers, the two enumerations, a
 * non-negative amount of money and a location that is reachable somehow.
 * The constructors that throw become functions returning a `Result`; the
 * invariant each constructor enforces becomes a subset type, so every
 * `Money` and `Location` elsewhere in the model satisfies it by typing.
 */
module ValueObjects {
  import opened Wrappers

  datatype EventId = EventId(value: string)

  datatype OrganizerId = OrganizerId(value: string)

  /** `EventId.equals`: identifiers compare by their string value. */
  function EventIdEquals(a: EventId, b: EventId): (r: bool)
    ensures r <==> a == b
  {
    a.value == b.value
  }

  /** `OrganizerId.equals`: identifiers compare by their string value. */
  function OrganizerIdEquals(a: OrganizerId, b: OrganizerId): (r: bool)
    ensures r <==> a == b
  {
    a.value == b.value
  }

  datatype EventType = Public | Private
  {
    /** The enum's string value, as stored in the `event_type` column. */
    function Value(): (r: string)
      ensures r == "public" || r == "private"
      ensures r == "public" <==> this == Public
    {
      if this == Public then "public" else "private"
    }
  }

  datatype TicketType = Free | Paid
  {
    /** The enum's string value, as stored in the `ticket_type` column. */
    function Value(): (r: string)
      ensures r == "free" || r == "paid"
      ensures r == "free" <==> this == Free
    {
      if this == Free then "free" else "paid"
    }
  }

  const DefaultCurrency: string := "PLN"
  const NegativeAmountMessage: string := "Amount cannot be negative"
  const NoLocationMessage: string := "Event must have either address or be online"

  /** The fields of a `Money`, before its constructor's check. */
  datatype MoneyValue = MoneyValue(amount: real, currency: string)

  /** A `Money` that its constructor accepted: the amount is never negative. */
  type Money = m: MoneyValue | 0.0 <= m.amount witness MoneyValue(0.0, DefaultCurrency)

  /**
   * `new Money(amount, currency)`: the currency defaults to PLN when it is
   * omitted, and a negative amount is refused.
   */
  function NewMoney(amount: real, currency: Option<string>): (r: Result<Money>)
    ensures r.Err? <==> amount < 0.0
    ensures r.Err? ==> r.msg == NegativeAmountMessage
    ensures r.Ok? ==> r.value.amount == amount
    ensures r.Ok? && currency.Some? ==> r.value.currency == currency.value
    ensures r.Ok? && currency.None? ==> r.value.currency == DefaultCurrency
  {
    if amount < 0.0 then Err(NegativeAmountMessage)
    else Ok(MoneyValue(amount, if currency.Some? then currency.value else DefaultCurrency))
  }

  /** `Money.equals`: two amounts of money are equal when amount and currency are. */
  function MoneyEquals(a: Money, b: Money): (r: bool)
    ensures r <==> a == b
  {
    a.amount == b.amount && a.currency == b.currency
  }

  /** The fields of a `Location`, before its constructor's check. */
  datatype LocationValue = LocationValue(address: Option<string>, isOnline: bool)

  /** A `Location` that its constructor accepted: online, or with a non-empty address. */
  type Location = l: LocationValue | l.isOnline || Truthy(l.address)
    witness LocationValue(None, true)

  /**
   * `new Location(address, isOnline)`: `isOnline` defaults to false; a
   * location that is neither online nor has a (truthy) address is refused.
   */
  function NewLocation(address: Option<string>, isOnline: Option<bool>): (r: Result<Location>)
    ensures var online := isOnline.Some? && isOnline.value;
      r.Ok? <==> online || (address.Some? && address.value != "")
    ensures r.Err? ==> r.msg == NoLocationMessage
    ensures r.Ok? ==> r.value.address == address
    ensures r.Ok? ==> r.value.isOnline == (isOnline.Some? && isOnline.value)
  {
    var online := if isOnline.Some? then isOnline.value else false;
    if !Truthy(address) && !online then Err(NoLocationMessage)
    else Ok(LocationValue(address, online))
  }

  /** Every location the constructor accepts round-trips through it. */
  lemma LocationRoundTrip(l: Location)
    ensures NewLocation(l.address, Some(l.isOnline)) == Ok(l)
  {
  }

  /** Every amount of money the constructor accepts round-trips through it. */
  lemma MoneyRoundTrip(m: Money)
    ensures NewMoney(m.amount, Some(m.currency)) == Ok(m)
  {
  }
}
