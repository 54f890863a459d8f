/**
 * The earlier `save_task_result`, which opens its own connection, checks the
 * connection before the task id, takes `completed_at` from the payload and
 * closes the connection in `finally`. It writes the same two tables.
 */
module EarlyTaskStore {
  import opened Wrappers
  import opened Json
  import opened Strings
  import opened TaskStore

  /**
   * The earlier `get_db_connection` yields a connection only for the type
   * spelled exactly "postgresql": the type is not lower-cased, the Oracle
   * branch fails on the undefined `cx_Oracle`, and other types have no
   * configuration.
   */
  predicate EarlyConnects(dbType: string) {
    dbType == Postgres
  }

  /**
   * The results row: the summary is always serialised, so `json.dumps` turns
   * a missing or `None` summary into JSON `null`, not SQL NULL.
   */
  function EarlyResultRow(p: SavePayload): (row: ResultRow)
    requires p.taskId.Some?
    ensures row.taskId == p.taskId.value && row.finalStatus == StatusOf(p) && row.completedAt == p.completedAt
    ensures row.detailedResults.Some?
    ensures p.resultsSummary.None? || p.resultsSummary == Some(JNull) ==> row.detailedResults == Some(JNull)
    ensures p.resultsSummary.Some? ==> row.detailedResults == p.resultsSummary
  {
    ResultRow(p.taskId.value, StatusOf(p), p.processingTimeSeconds,
              Some(if p.resultsSummary.Some? then p.resultsSummary.value else JNull), p.completedAt)
  }

  /**
   * `save_task_result` (earlier version). `closed` says whether the
   * `finally` block closes the connection: a payload without a task id
   * returns before the `try`, so its connection is never closed.
   */
  method SaveTaskResultEarly(db: TaskDatabase, dbType: string, p: SavePayload, fault: TxFault)
    returns (ok: bool, closed: bool)
    requires db.Valid()
    modifies db
    ensures db.Valid()
    ensures db.poolOpen == old(db.poolOpen)
    ensures ok <==> EarlyConnects(dbType) && Truthy(p.taskId) && fault.Clean?
    ensures ok ==>
      db.tasks == MarkFinished(old(db.tasks), p.taskId.value, StatusOf(p), p.completedAt, Bound(p.errorDetails))
      && db.results == Upsert(old(db.results), EarlyResultRow(p))
    ensures !ok ==> db.tasks == old(db.tasks) && db.results == old(db.results)
    ensures closed <==> EarlyConnects(dbType) && Truthy(p.taskId)
  {
    if !EarlyConnects(dbType) {
      return false, false;
    }
    if !Truthy(p.taskId) {
      return false, false;
    }
    var id := p.taskId.value;
    var savedTasks, savedResults := db.tasks, db.results;
    closed := true;
    if fault == StatementFails(0) {
      db.tasks, db.results := savedTasks, savedResults;
      return false, closed;
    }
    db.tasks := MarkFinished(db.tasks, id, StatusOf(p), p.completedAt, Bound(p.errorDetails));
    if fault.StatementFails? {
      db.tasks, db.results := savedTasks, savedResults;
      return false, closed;
    }
    db.results := Upsert(db.results, EarlyResultRow(p));
    if fault.CommitFails? {
      db.tasks, db.results := savedTasks, savedResults;
      return false, closed;
    }
    ok := true;
  }

  /**
   * The two versions disagree on the type spelling: "PostgreSQL" reaches the
   * database in the later service, which lower-cases it, but not in the earlier one.
   */
  lemma TypeSpellingMatters()
    ensures !EarlyConnects("PostgreSQL") && Lower("PostgreSQL") == Postgres
  {
    assert "PostgreSQL"[0] == 'P';
    assert Lower("PostgreSQL") == Postgres by {
      var s := "PostgreSQL";
      var l := Lower(s);
      assert |l| == 10 && l[0] == 'p' && l[1] == 'o' && l[2] == 's' && l[3] == 't' && l[4] == 'g';
      assert l[5] == 'r' && l[6] == 'e' && l[7] == 's' && l[8] == 'q' && l[9] == 'l';
    }
  }
}
