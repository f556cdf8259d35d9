/**
 * The `events` table of one SQLite database file, as the statements the
 * repositories issue see it: a map from primary key to row. A database file
 * that cannot be opened or written makes every statement throw.
 */
module SqlTable {
  import opened Wrappers
  import opened ValueObjects

  /** The columns a statement writes. Dates are timestamps; `event_type` and `ticket_type` hold enum values. */
  datatype RowData = RowData(
    id: string,
    organizerId: string,
    name: string,
    description: string,
    startDate: int,
    endDate: int,
    address: Option<string>,
    isOnline: bool,
    eventType: EventType,
    ticketType: TicketType,
    ticketPriceAmount: Option<real>,
    ticketPriceCurrency: Option<string>,
    isPublished: bool)

  /** A stored row: its columns and the two `CURRENT_TIMESTAMP` columns. */
  datatype Row = Row(data: RowData, createdAt: int, updatedAt: int)

  /** `id TEXT PRIMARY KEY`: each row is stored under its own id. */
  type RowMap = m: map<string, Row> | forall k :: k in m ==> m[k].data.id == k
    witness map[]

  datatype TableState = TableState(rows: RowMap, faulty: bool)

  const UnavailableMessage: string := "unable to open database file"
  const DuplicateIdMessage: string := "UNIQUE constraint failed: events.id"

  /** `SELECT * FROM events WHERE id = ?`. */
  function Lookup(t: TableState, id: string): (r: Result<Option<Row>>)
    ensures r.Err? <==> t.faulty
    ensures r.Ok? ==> (r.value.Some? <==> id in t.rows)
    ensures r.Ok? && r.value.Some? ==> r.value.value == t.rows[id] && r.value.value.data.id == id
  {
    if t.faulty then Err(UnavailableMessage)
    else if id in t.rows then Ok(Some(t.rows[id]))
    else Ok(None)
  }

  /** `INSERT INTO events (...)` with no conflict clause: a duplicate id is refused. */
  function InsertRow(t: TableState, d: RowData, stamp: int): Result<TableState>
  {
    if t.faulty then Err(UnavailableMessage)
    else if d.id in t.rows then Err(DuplicateIdMessage)
    else Ok(t.(rows := t.rows[d.id := Row(d, stamp, stamp)]))
  }

  /**
   * `INSERT ... ON CONFLICT(id) DO UPDATE SET` every column except
   * `organizer_id` and `created_at`.
   */
  function UpsertRow(t: TableState, d: RowData, stamp: int): Result<TableState>
  {
    if t.faulty then Err(UnavailableMessage)
    else if d.id in t.rows then
      var prior := t.rows[d.id];
      Ok(t.(rows := t.rows[d.id := Row(d.(organizerId := prior.data.organizerId), prior.createdAt, stamp)]))
    else Ok(t.(rows := t.rows[d.id := Row(d, stamp, stamp)]))
  }

  /**
   * `UPDATE events SET` every column except `organizer_id` `WHERE id = ?`,
   * with the number of rows it changed.
   */
  function UpdateRowContent(t: TableState, d: RowData, stamp: int): Result<(TableState, nat)>
  {
    if t.faulty then Err(UnavailableMessage)
    else if d.id in t.rows then
      var prior := t.rows[d.id];
      Ok((t.(rows := t.rows[d.id := Row(d.(organizerId := prior.data.organizerId), prior.createdAt, stamp)]), 1))
    else Ok((t, 0))
  }

  /** `UPDATE events SET` every column, `organizer_id` and `is_published` included, `WHERE id = ?`. */
  function UpdateRow(t: TableState, d: RowData, stamp: int): Result<TableState>
  {
    if t.faulty then Err(UnavailableMessage)
    else if d.id in t.rows then Ok(t.(rows := t.rows[d.id := Row(d, t.rows[d.id].createdAt, stamp)]))
    else Ok(t)
  }

  /** `INSERT OR REPLACE`: the old row, if any, is deleted and a new one inserted. */
  function ReplaceRow(t: TableState, d: RowData, stamp: int): Result<TableState>
  {
    if t.faulty then Err(UnavailableMessage)
    else Ok(t.(rows := t.rows[d.id := Row(d, stamp, stamp)]))
  }

  /** `UPDATE events SET is_published = 1, updated_at = CURRENT_TIMESTAMP WHERE id = ?`. */
  function MarkRowPublished(t: TableState, id: string, stamp: int): Result<TableState>
  {
    if t.faulty then Err(UnavailableMessage)
    else if id in t.rows then
      var prior := t.rows[id];
      Ok(t.(rows := t.rows[id := Row(prior.data.(isPublished := true), prior.createdAt, stamp)]))
    else Ok(t)
  }

  /** Two states that differ at most in the `updated_at` column. */
  predicate SameExceptUpdatedAt(a: TableState, b: TableState)
  {
    a.faulty == b.faulty && a.rows.Keys == b.rows.Keys
    && forall k :: k in a.rows ==> a.rows[k].data == b.rows[k].data && a.rows[k].createdAt == b.rows[k].createdAt
  }

  /**
   * The upsert leaves exactly one row under the id, holding the new values
   * except `organizer_id` and `created_at`, which keep those it was first
   * inserted with; no other row changes.
   */
  lemma UpsertKeepsOwner(t: TableState, d: RowData, stamp: int)
    requires !t.faulty
    ensures var r := UpsertRow(t, d, stamp);
      r.Ok? && r.value.faulty == t.faulty
      && r.value.rows.Keys == t.rows.Keys + {d.id}
      && r.value.rows[d.id].data == d.(organizerId := if d.id in t.rows then t.rows[d.id].data.organizerId else d.organizerId)
      && r.value.rows[d.id].createdAt == (if d.id in t.rows then t.rows[d.id].createdAt else stamp)
      && forall k :: k in t.rows && k != d.id ==> r.value.rows[k] == t.rows[k]
  {
  }

  /** Upserting the same values again changes nothing but `updated_at`. */
  lemma UpsertIdempotent(t: TableState, d: RowData, stamp: int, stamp': int)
    requires UpsertRow(t, d, stamp).Ok?
    ensures var t1 := UpsertRow(t, d, stamp).value;
      UpsertRow(t1, d, stamp').Ok? && SameExceptUpdatedAt(t1, UpsertRow(t1, d, stamp').value)
  {
  }

  /** A statement's effect on a state: its outcome and the state afterwards. */
  function Run(r: Result<TableState>, t: TableState): (Outcome, TableState)
  {
    if r.Ok? then (Pass, r.value) else (Fail(r.msg), t)
  }

  // ---------------------------------------------------------------------
  // SELECT with WHERE and ORDER BY

  datatype Filter = ByOrganizer(organizerId: string) | PublishedOnly | AllRows

  /** `Unordered`: no ORDER BY. The others are `created_at DESC` and `start_date ASC`. */
  datatype Order = Unordered | CreatedDesc | StartAsc

  predicate Matches(f: Filter, r: Row)
  {
    match f
    case ByOrganizer(org) => r.data.organizerId == org
    case PublishedOnly => r.data.isPublished
    case AllRows => true
  }

  /** Whether `a` may be returned before `b`; rows that tie may come in either order. */
  predicate Precedes(o: Order, a: Row, b: Row)
  {
    match o
    case Unordered => true
    case CreatedDesc => a.createdAt >= b.createdAt
    case StartAsc => a.data.startDate <= b.data.startDate
  }

  /**
   * `ids` is an answer the statement may give: exactly the matching rows,
   * each once, in an order the ORDER BY clause allows.
   */
  ghost predicate IsListing(rows: RowMap, f: Filter, o: Order, ids: seq<string>)
  {
    (forall i :: 0 <= i < |ids| ==> ids[i] in rows && Matches(f, rows[ids[i]]))
    && (forall k :: k in rows && Matches(f, rows[k]) ==> k in ids)
    && (forall i, j :: 0 <= i < j < |ids| ==> ids[i] != ids[j])
    && (forall i, j :: 0 <= i < j < |ids| ==> Precedes(o, rows[ids[i]], rows[ids[j]]))
  }

  /** Every non-empty set of rows has a row that may come first. */
  lemma {:induction false} FirstExists(rows: RowMap, s: set<string>, o: Order)
    requires s != {} && s <= rows.Keys
    ensures exists k :: k in s && forall k' :: k' in s ==> Precedes(o, rows[k], rows[k'])
    decreases |s|
  {
    var x :| x in s;
    if s == {x} {
      assert forall k' :: k' in s ==> k' == x;
    } else {
      var rest := s - {x};
      FirstExists(rows, rest, o);
      var m :| m in rest && forall k' :: k' in rest ==> Precedes(o, rows[m], rows[k']);
      var first := if Precedes(o, rows[x], rows[m]) then x else m;
      forall k' | k' in s
        ensures Precedes(o, rows[first], rows[k'])
      {
        if k' != x {
          assert k' in rest;
        }
      }
    }
  }

  ghost predicate Distinct(ids: seq<string>)
  {
    forall i, j :: 0 <= i < j < |ids| ==> ids[i] != ids[j]
  }

  ghost predicate SortedBy(rows: RowMap, o: Order, ids: seq<string>)
    requires forall i :: 0 <= i < |ids| ==> ids[i] in rows
  {
    forall i, j :: 0 <= i < j < |ids| ==> Precedes(o, rows[ids[i]], rows[ids[j]])
  }

  /**
   * The engine's ordering step: lists the keys of `keys` once each, in an
   * order `o` allows, by repeatedly taking a row that may come first.
   */
  method ArrangeKeys(rows: RowMap, keys: set<string>, o: Order) returns (ids: seq<string>)
    requires keys <= rows.Keys
    ensures forall i :: 0 <= i < |ids| ==> ids[i] in keys
    ensures forall k :: k in keys ==> k in ids
    ensures Distinct(ids)
    ensures forall i :: 0 <= i < |ids| ==> ids[i] in rows
    ensures SortedBy(rows, o, ids)
  {
    var pending := keys;
    ids := [];
    while pending != {}
      invariant pending <= keys
      invariant forall i :: 0 <= i < |ids| ==> ids[i] in keys && ids[i] !in pending
      invariant forall k :: k in keys ==> k in pending || k in ids
      invariant Distinct(ids)
      invariant SortedBy(rows, o, ids)
      invariant forall i, k :: 0 <= i < |ids| && k in pending ==> Precedes(o, rows[ids[i]], rows[k])
      decreases |pending|
    {
      FirstExists(rows, pending, o);
      var k :| k in pending && forall k' :: k' in pending ==> Precedes(o, rows[k], rows[k']);
      ids := ids + [k];
      pending := pending - {k};
    }
  }

  /** The rows named by `ids`, in that order. */
  function RowsAt(rows: RowMap, ids: seq<string>): (rs: seq<Row>)
    requires forall i :: 0 <= i < |ids| ==> ids[i] in rows
    ensures |rs| == |ids| && forall i :: 0 <= i < |ids| ==> rs[i] == rows[ids[i]]
  {
    if ids == [] then [] else [rows[ids[0]]] + RowsAt(rows, ids[1..])
  }

  /** One SQLite database file with its `events` table. */
  class Table {
    /** Whether every statement on this file fails. */
    const faulty: bool
    var rows: RowMap

    function State(): TableState
      reads this
    {
      TableState(rows, faulty)
    }

    /** A database file whose `events` table is empty. */
    constructor (faulty: bool)
      ensures State() == TableState(map[], faulty)
    {
      this.faulty := faulty;
      rows := map[];
    }

    /** Applies a statement's effect: the rows change only when it succeeds. */
    method Apply(r: Result<TableState>) returns (outcome: Outcome)
      requires r.Ok? ==> r.value.faulty == faulty
      modifies this
      ensures (outcome, State()) == Run(r, old(State()))
    {
      if r.Ok? {
        rows := r.value.rows;
        return Pass;
      }
      return Fail(r.msg);
    }

    method Insert(d: RowData, stamp: int) returns (outcome: Outcome)
      modifies this
      ensures (outcome, State()) == Run(InsertRow(old(State()), d, stamp), old(State()))
    {
      outcome := Apply(InsertRow(State(), d, stamp));
    }

    method Upsert(d: RowData, stamp: int) returns (outcome: Outcome)
      modifies this
      ensures (outcome, State()) == Run(UpsertRow(old(State()), d, stamp), old(State()))
    {
      outcome := Apply(UpsertRow(State(), d, stamp));
    }

    method UpdateContent(d: RowData, stamp: int) returns (r: Result<nat>)
      modifies this
      ensures var u := UpdateRowContent(old(State()), d, stamp);
        if u.Ok? then r == Ok(u.value.1) && State() == u.value.0
        else r == Err(u.msg) && State() == old(State())
    {
      var u := UpdateRowContent(State(), d, stamp);
      if u.Err? {
        return Err(u.msg);
      }
      rows := u.value.0.rows;
      return Ok(u.value.1);
    }

    method UpdateAll(d: RowData, stamp: int) returns (outcome: Outcome)
      modifies this
      ensures (outcome, State()) == Run(UpdateRow(old(State()), d, stamp), old(State()))
    {
      outcome := Apply(UpdateRow(State(), d, stamp));
    }

    method Replace(d: RowData, stamp: int) returns (outcome: Outcome)
      modifies this
      ensures (outcome, State()) == Run(ReplaceRow(old(State()), d, stamp), old(State()))
    {
      outcome := Apply(ReplaceRow(State(), d, stamp));
    }

    method MarkPublished(id: string, stamp: int) returns (outcome: Outcome)
      modifies this
      ensures (outcome, State()) == Run(MarkRowPublished(old(State()), id, stamp), old(State()))
    {
      outcome := Apply(MarkRowPublished(State(), id, stamp));
    }

    /**
     * `SELECT * FROM events WHERE f ORDER BY o`: the matching rows, each
     * once, in an order `o` allows. `ids` names the rows returned.
     */
    method Select(f: Filter, o: Order) returns (r: Result<seq<Row>>, ghost ids: seq<string>)
      ensures faulty ==> r == Err(UnavailableMessage)
      ensures !faulty ==> r.Ok? && IsListing(rows, f, o, ids)
      ensures r.Ok? ==> |r.value| == |ids| && forall i :: 0 <= i < |ids| ==> r.value[i] == rows[ids[i]]
    {
      if faulty {
        return Err(UnavailableMessage), [];
      }
      var matching := set k | k in rows && Matches(f, rows[k]);
      var keys := ArrangeKeys(rows, matching, o);
      var out := RowsAt(rows, keys);
      return Ok(out), keys;
    }
  }
}
