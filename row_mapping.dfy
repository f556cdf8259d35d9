/**
 * The mappings every SQLite repository shares: aggregate to row
 * (`eventToRow`), row to aggregate (`eventFromRow`) and row to DTO
 * (`eventRowToDto`). JavaScript's `||` turns the empty address, a zero
 * amount and the empty currency into `null`, and `&&` treats them as absent
 * when reading back.
 */
module RowMapping {
  import opened Wrappers
  import opened ValueObjects
  import opened EventAggregate
  import opened SqlTable
  import opened Queries

  /** `x || null` for an optional string. */
  function OrNull(s: Option<string>): Option<string>
  {
    if Truthy(s) then s else None
  }

  /** `x || null` for an optional amount: 0 is falsy. */
  function AmountOrNull(a: Option<real>): Option<real>
  {
    if a.Some? && a.value != 0.0 then a else None
  }

  /** `eventToRow`. */
  function EventToRow(s: EventState): RowData
  {
    var d := s.details;
    RowData(
      s.id.value, s.organizerId.value, d.name, d.description, d.startDate, d.endDate,
      OrNull(d.location.address), d.location.isOnline, d.eventType, d.ticketType,
      AmountOrNull(if d.ticketPrice.Some? then Some(d.ticketPrice.value.amount) else None),
      OrNull(if d.ticketPrice.Some? then Some(d.ticketPrice.value.currency) else None),
      s.isPublished)
  }

  /** `row.ticket_price_amount && row.ticket_price_currency`. */
  predicate HasStoredPrice(d: RowData)
  {
    AmountOrNull(d.ticketPriceAmount).Some? && Truthy(d.ticketPriceCurrency)
  }

  /**
   * `eventFromRow`: the `Location` is built first (and throws for a row with
   * neither address nor `is_online`), then `Money` when amount and currency
   * are both truthy (and throws for a negative amount).
   */
  function EventFromRow(d: RowData): Result<EventState>
  {
    match NewLocation(OrNull(d.address), Some(d.isOnline))
    case Err(m) => Err(m)
    case Ok(location) =>
      var price :=
        if HasStoredPrice(d) then NewMoney(d.ticketPriceAmount.value, Some(d.ticketPriceCurrency.value))
        else Ok(MoneyValue(0.0, DefaultCurrency));
      if price.Err? then Err(price.msg)
      else
        Ok(EventState(
          EventId(d.id), OrganizerId(d.organizerId),
          EventDetails(d.name, d.description, d.startDate, d.endDate, location,
                       d.eventType, d.ticketType, if HasStoredPrice(d) then Some(price.value) else None),
          d.isPublished))
  }

  /** `eventRowToDto`: no checks, `null` becomes absent. */
  function RowToDto(d: RowData): EventDto
  {
    EventDto(
      d.id, d.organizerId, d.name, d.description, d.startDate, d.endDate,
      DtoLocation(OrNull(d.address), d.isOnline), d.eventType, d.ticketType,
      if HasStoredPrice(d) then Some(DtoPrice(d.ticketPriceAmount.value, d.ticketPriceCurrency.value)) else None,
      d.isPublished)
  }

  /** The aggregates a row can hold exactly: no empty address, and no zero amount or empty currency. */
  predicate RowFaithful(s: EventState)
  {
    var d := s.details;
    d.location.address != Some("")
    && (d.ticketPrice.Some? ==> d.ticketPrice.value.amount != 0.0 && d.ticketPrice.value.currency != "")
  }

  /** The rows `eventToRow` can produce. */
  predicate CanonicalRow(d: RowData)
  {
    d.address != Some("")
    && d.ticketPriceAmount != Some(0.0) && d.ticketPriceCurrency != Some("")
    && (d.ticketPriceAmount.Some? <==> d.ticketPriceCurrency.Some?)
  }

  /** Every row `eventToRow` writes can be read back: its location and price pass their checks. */
  lemma StoredRowLoads(s: EventState)
    ensures EventFromRow(EventToRow(s)).Ok?
    ensures CanonicalRow(EventToRow(s)) <==> (s.details.ticketPrice.Some? ==>
      (s.details.ticketPrice.value.amount != 0.0 <==> s.details.ticketPrice.value.currency != ""))
  {
  }

  /** Aggregate to row and back is the identity exactly on the aggregates a row holds faithfully. */
  lemma {:induction false} EventRoundTrip(s: EventState)
    ensures EventFromRow(EventToRow(s)) == Ok(s) <==> RowFaithful(s)
  {
    var d := s.details;
    var r := EventToRow(s);
    if RowFaithful(s) {
      assert OrNull(d.location.address) == d.location.address;
      assert HasStoredPrice(r) <==> d.ticketPrice.Some?;
    } else if d.location.address == Some("") {
      assert OrNull(d.location.address) == None;
    } else {
      assert !HasStoredPrice(r);
    }
  }

  /** A zero price does not survive storage: the event is read back without one. */
  lemma ZeroPriceLost(s: EventState, currency: string)
    requires s.details.ticketPrice == Some(MoneyValue(0.0, currency))
    requires s.details.location.address != Some("")
    ensures EventFromRow(EventToRow(s)) == Ok(s.(details := s.details.(ticketPrice := None)))
  {
  }

  /** Row to aggregate and back is the identity exactly on canonical rows. */
  lemma {:induction false} RowRoundTrip(d: RowData)
    requires EventFromRow(d).Ok?
    ensures EventToRow(EventFromRow(d).value) == d <==> CanonicalRow(d)
  {
    var s := EventFromRow(d).value;
    if CanonicalRow(d) {
      assert HasStoredPrice(d) <==> d.ticketPriceAmount.Some?;
      assert s.details.location.address == d.address;
    } else if d.address == Some("") {
      assert EventToRow(s).address == None;
    } else if d.ticketPriceAmount.Some? && !Truthy(d.ticketPriceCurrency) {
      assert EventToRow(s).ticketPriceAmount == None;
    } else {
      assert EventToRow(s).ticketPriceCurrency != d.ticketPriceCurrency
        || EventToRow(s).ticketPriceAmount != d.ticketPriceAmount;
    }
  }
}
