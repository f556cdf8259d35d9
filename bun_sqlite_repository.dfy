/**
 * `BunSQLiteEventCommandRepository`: `save` upserts the write row and then
 * upserts the same columns into the query database directly, swallowing
 * any failure of that second step.
 */
module BunSqliteStore {
  import opened Wrappers
  import opened EventAggregate
  import opened SqlTable
  import opened RowMapping
  import opened Oracles

  /** `save` on the write table `w` and the query table `q`: its outcome and both tables afterwards. */
  function BunSave(w: TableState, q: TableState, s: EventState, o: Oracle): (Outcome, TableState, TableState)
  {
    var row := EventToRow(s);
    match UpsertRow(w, row, o.stamp)
    case Err(m) => (Fail(m), w, q)
    case Ok(w') => (Pass, w', Run(UpsertRow(q, row, o.stamp), q).1)
  }

  /**
   * Only the write database decides the outcome: it fails exactly when the
   * write table does, leaving both tables alone, and a failing query
   * database is left alone without failing the save.
   */
  lemma BunSaveOutcome(w: TableState, q: TableState, s: EventState, o: Oracle)
    ensures BunSave(w, q, s, o).0.Fail? <==> w.faulty
    ensures w.faulty ==> BunSave(w, q, s, o) == (Fail(UnavailableMessage), w, q)
    ensures q.faulty ==> BunSave(w, q, s, o).2 == q
  {
  }

  /**
   * When both databases work and held the id together, with the same owner,
   * the two rows agree after the save in every column but the timestamps.
   */
  lemma BunReadRowMirrorsWriteRow(w: TableState, q: TableState, s: EventState, o: Oracle)
    requires !w.faulty && !q.faulty
    requires s.id.value in w.rows <==> s.id.value in q.rows
    requires s.id.value in w.rows ==> w.rows[s.id.value].data.organizerId == q.rows[s.id.value].data.organizerId
    ensures var (outcome, w', q') := BunSave(w, q, s, o);
      outcome == Pass && s.id.value in w'.rows && s.id.value in q'.rows
      && q'.rows[s.id.value].data == w'.rows[s.id.value].data
  {
    UpsertKeepsOwner(w, EventToRow(s), o.stamp);
    UpsertKeepsOwner(q, EventToRow(s), o.stamp);
  }

  /** Saving the same aggregate again changes nothing in either table but `updated_at`. */
  lemma {:induction false} BunSaveIdempotent(w: TableState, q: TableState, s: EventState, o: Oracle, o': Oracle)
    requires !w.faulty && !q.faulty
    ensures var (_, w1, q1) := BunSave(w, q, s, o);
      var (outcome, w2, q2) := BunSave(w1, q1, s, o');
      outcome == Pass && SameExceptUpdatedAt(w1, w2) && SameExceptUpdatedAt(q1, q2)
  {
    UpsertIdempotent(w, EventToRow(s), o.stamp, o'.stamp);
    UpsertIdempotent(q, EventToRow(s), o.stamp, o'.stamp);
  }

  class BunSqliteEventCommandRepository {
    const db: Table
    /** The query database file `save` opens for synchronisation. */
    const queryDb: Table

    constructor (db: Table, queryDb: Table)
      ensures this.db == db && this.queryDb == queryDb
    {
      this.db := db;
      this.queryDb := queryDb;
    }

    /** `save(event)`. */
    method Save(e: Event, o: Oracle) returns (outcome: Outcome)
      requires db != queryDb
      modifies db, queryDb
      ensures (outcome, db.State(), queryDb.State()) == BunSave(old(db.State()), old(queryDb.State()), old(e.State()), o)
    {
      var row := EventToRow(e.State());
      outcome := db.Upsert(row, o.stamp);
      if outcome.Fail? {
        return;
      }
      var synced := queryDb.Upsert(row, o.stamp);
    }
  }
}
