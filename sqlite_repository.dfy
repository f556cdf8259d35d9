/**
 * `SQLiteEventCommandRepository`: `save` runs the prepared `UPDATE` and,
 * when it changed no row, the prepared `INSERT`; it then copies the row into
 * the query database with `INSERT OR REPLACE`, swallowing any failure there.
 */
module SqliteStore {
  import opened Wrappers
  import opened EventAggregate
  import opened SqlTable
  import opened RowMapping
  import opened Oracles
  import opened BunSqliteStore

  /** `save` on the write table `w` and the query table `q`. */
  function SqliteSave(w: TableState, q: TableState, s: EventState, o: Oracle): (Outcome, TableState, TableState)
  {
    var row := EventToRow(s);
    match UpdateRowContent(w, row, o.stamp)
    case Err(m) => (Fail(m), w, q)
    case Ok((w1, changes)) =>
      var written := if changes == 0 then InsertRow(w1, row, o.stamp) else Ok(w1);
      match written
      case Err(m) => (Fail(m), w1, q)
      case Ok(w2) => (Pass, w2, Run(ReplaceRow(q, row, o.stamp), q).1)
  }

  /**
   * Update-then-insert leaves the write database exactly as the upsert of
   * the Bun repository does, with the same outcome.
   */
  lemma UpdateThenInsertIsUpsert(w: TableState, q: TableState, s: EventState, o: Oracle)
    ensures SqliteSave(w, q, s, o).0 == BunSave(w, q, s, o).0
    ensures SqliteSave(w, q, s, o).1 == BunSave(w, q, s, o).1
  {
  }

  /**
   * On a working query database the read row becomes a fresh copy of every
   * column, `organizer_id` included, with both timestamps reset; no other
   * read row changes.
   */
  lemma ReadRowReplaced(w: TableState, q: TableState, s: EventState, o: Oracle)
    requires !w.faulty && !q.faulty
    ensures var (outcome, _, q') := SqliteSave(w, q, s, o);
      outcome == Pass && q'.rows == q.rows[s.id.value := Row(EventToRow(s), o.stamp, o.stamp)]
  {
  }

  /**
   * Saving again keeps the write row's `created_at` but moves the read
   * row's `created_at` to the second save, so the read model's
   * newest-first listing orders by last save rather than by creation.
   */
  lemma {:induction false} ResaveResetsReadCreatedAt(w: TableState, q: TableState, s: EventState, o: Oracle, o': Oracle)
    requires !w.faulty && !q.faulty
    ensures var (_, w1, q1) := SqliteSave(w, q, s, o);
      var (outcome, w2, q2) := SqliteSave(w1, q1, s, o');
      outcome == Pass && SameExceptUpdatedAt(w1, w2)
      && q2.rows[s.id.value].createdAt == o'.stamp
  {
    UpdateThenInsertIsUpsert(w, q, s, o);
    var (_, w1, q1) := SqliteSave(w, q, s, o);
    UpdateThenInsertIsUpsert(w1, q1, s, o');
    UpsertIdempotent(w, EventToRow(s), o.stamp, o'.stamp);
    ReadRowReplaced(w1, q1, s, o');
  }

  class SqliteEventCommandRepository {
    const db: Table
    /** The query database file `save` opens for synchronisation. */
    const queryDb: Table

    constructor (db: Table, queryDb: Table)
      ensures this.db == db && this.queryDb == queryDb
    {
      this.db := db;
      this.queryDb := queryDb;
    }

    /** `save(event)`. */
    method Save(e: Event, o: Oracle) returns (outcome: Outcome)
      requires db != queryDb
      modifies db, queryDb
      ensures (outcome, db.State(), queryDb.State()) == SqliteSave(old(db.State()), old(queryDb.State()), old(e.State()), o)
    {
      var row := EventToRow(e.State());
      var updated := db.UpdateContent(row, o.stamp);
      if updated.Err? {
        return Fail(updated.msg);
      }
      if updated.value == 0 {
        outcome := db.Insert(row, o.stamp);
        if outcome.Fail? {
          return;
        }
      }
      var synced := queryDb.Replace(row, o.stamp);
      outcome := Pass;
    }
  }
}
