/**
 * The task status store: the `tasks` and `task_results` tables, the
 * connection pool, and the service functions the backend and the worker call.
 * Each SQL statement is modelled by what it does to the tables; a failing
 * statement, connection or commit is an oracle argument of the call.
 */
module TaskStore {
  import opened Wrappers
  import opened Json
  import opened Strings

  type Timestamp = int

  /** A row of `tasks`; `None` in an optional column is SQL NULL. */
  datatype TaskRow = TaskRow(
    taskId: string,
    userId: Option<int>,
    fileId: string,
    requestedOutputFormat: string,
    requestShakespeareanTranslation: bool,
    requestedAnalysisTasks: Option<Json>,
    status: Option<string>,
    startedAt: Option<Timestamp>,
    completedAt: Option<Timestamp>,
    errorMessage: Option<Json>)

  /** A row of `task_results`. */
  datatype ResultRow = ResultRow(
    taskId: string,
    finalStatus: Option<string>,
    processingTimeSeconds: Option<real>,
    detailedResults: Option<Json>,
    completedAt: Option<Timestamp>)

  /** A payload entry read with `.get`: missing, present but `None`, or a value. */
  datatype Field = Absent | Null | Given(value: string)

  /**
   * The worker's result payload as `save_task_result` reads it. `None` is a
   * missing key; `Some(JNull)` is a key present with the value `None`.
   */
  datatype SavePayload = SavePayload(
    taskId: Option<string>,
    status: Field,
    processingTimeSeconds: Option<real>,
    errorDetails: Option<Json>,
    resultsSummary: Option<Json>,
    completedAt: Option<Timestamp>)

  /** The PostgreSQL settings the pool needs. */
  datatype PgConfig = PgConfig(database: Option<string>, user: Option<string>, password: Option<string>, host: Option<string>)

  /** Which part of a transaction raises, if any. */
  datatype TxFault = Clean | StatementFails(index: nat) | CommitFails

  /** The statements issued through `_execute_query`. */
  datatype Query =
    | InsertTask(row: TaskRow)
    | StartTask(taskId: string, startedAt: Timestamp)
    | SelectTask(taskId: string)
    | SelectResult(taskId: string)

  /** What `_execute_query` hands back: the cursor (for its row count) or the fetched row. */
  datatype Reply = Cursor(rowCount: nat) | TaskFetched(task: Option<TaskRow>) | ResultFetched(result: Option<ResultRow>)

  datatype Performed = Performed(tasks: map<string, TaskRow>, reply: Reply)
  datatype Marked = Marked(tasks: map<string, TaskRow>, rowCount: nat)

  const Postgres := "postgresql"
  const Oracle := "oracle"

  function Lookup<V>(m: map<string, V>, k: string): (r: Option<V>)
    ensures r.Some? <==> k in m
    ensures r.Some? ==> r.value == m[k]
  {
    if k in m then Some(m[k]) else None
  }

  predicate KeyedById(tasks: map<string, TaskRow>, results: map<string, ResultRow>) {
    (forall id :: id in tasks ==> tasks[id].taskId == id)
    && (forall id :: id in results ==> results[id].taskId == id)
  }

  /** The row `create_task_entry` inserts; `status` takes the column default 'queued'. */
  function FreshTask(taskId: string, userId: Option<int>, fileId: string, format: string, translate: bool,
                     analysis: Option<seq<Json>>): (row: TaskRow)
    ensures row.taskId == taskId && row.status == Some("queued")
    ensures row.startedAt.None? && row.completedAt.None? && row.errorMessage.None?
    ensures row.requestedAnalysisTasks.Some? <==> analysis.Some?
  {
    TaskRow(taskId, userId, fileId, format, translate,
            if analysis.Some? then Some(JArr(analysis.value)) else None,
            Some("queued"), None, None, None)
  }

  /** `UPDATE tasks SET status = 'processing', started_at = now WHERE task_id = id AND status = 'queued'`. */
  function MarkProcessing(tasks: map<string, TaskRow>, id: string, now: Timestamp): (m: Marked)
    ensures m.rowCount == 1 <==> id in tasks && tasks[id].status == Some("queued")
    ensures m.rowCount <= 1
    ensures m.rowCount == 0 ==> m.tasks == tasks
    ensures m.rowCount == 1 ==>
      m.tasks.Keys == tasks.Keys
      && m.tasks[id] == tasks[id].(status := Some("processing"), startedAt := Some(now))
      && forall k :: k in tasks && k != id ==> m.tasks[k] == tasks[k]
  {
    if id in tasks && tasks[id].status == Some("queued") then
      Marked(tasks[id := tasks[id].(status := Some("processing"), startedAt := Some(now))], 1)
    else Marked(tasks, 0)
  }

  /** `UPDATE tasks SET status, completed_at, error_message WHERE task_id = id`, whatever the prior status. */
  function MarkFinished(tasks: map<string, TaskRow>, id: string, status: Option<string>, completedAt: Option<Timestamp>,
                        error: Option<Json>): (r: map<string, TaskRow>)
    ensures r.Keys == tasks.Keys
    ensures id in tasks ==> r[id] == tasks[id].(status := status, completedAt := completedAt, errorMessage := error)
    ensures forall k :: k in tasks && k != id ==> r[k] == tasks[k]
  {
    if id in tasks then tasks[id := tasks[id].(status := status, completedAt := completedAt, errorMessage := error)]
    else tasks
  }

  /** `INSERT INTO task_results ... ON CONFLICT (task_id) DO UPDATE`: one row per task, the new values win. */
  function Upsert(results: map<string, ResultRow>, row: ResultRow): (r: map<string, ResultRow>)
    ensures r.Keys == results.Keys + {row.taskId}
    ensures r[row.taskId] == row
    ensures forall k :: k in results && k != row.taskId ==> r[k] == results[k]
  {
    results[row.taskId := row]
  }

  /**
   * The status a save writes: `.get("status", "unknown")` gives the default
   * only for a missing key, and a present `None` is sent as SQL NULL.
   */
  function StatusOf(p: SavePayload): (s: Option<string>)
    ensures p.status.Absent? ==> s == Some("unknown")
    ensures p.status.Null? ==> s.None?
    ensures p.status.Given? ==> s == Some(p.status.value)
  {
    match p.status
    case Absent => Some("unknown")
    case Null => None
    case Given(v) => Some(v)
  }

  /** The value psycopg2 sends for a payload entry: a missing entry or `None` becomes SQL NULL. */
  function Bound(v: Option<Json>): (r: Option<Json>)
    ensures r.None? <==> v.None? || v == Some(JNull)
    ensures r.Some? ==> r == v
  {
    if v == Some(JNull) then None else v
  }

  /**
   * The `task_results` row a save writes, with `completed_at` given. The
   * summary is serialised only when it is not `None`, so a missing or `None`
   * summary is stored as SQL NULL.
   */
  function ResultRowOf(p: SavePayload, completedAt: Option<Timestamp>): (row: ResultRow)
    requires p.taskId.Some?
    ensures row.taskId == p.taskId.value && row.finalStatus == StatusOf(p) && row.completedAt == completedAt
    ensures row.detailedResults.None? <==> p.resultsSummary.None? || p.resultsSummary == Some(JNull)
    ensures row.detailedResults.Some? ==> row.detailedResults == p.resultsSummary
  {
    ResultRow(p.taskId.value, StatusOf(p), p.processingTimeSeconds, Bound(p.resultsSummary), completedAt)
  }

  predicate Commits(q: Query) {
    q.InsertTask? || q.StartTask?
  }

  /** Whether the transaction around `q` goes through under `fault`. */
  predicate Survives(q: Query, fault: TxFault) {
    fault.Clean? || (fault.CommitFails? && !Commits(q))
  }

  /** The effect of one statement; `None` when the statement itself raises (a duplicate primary key). */
  function Perform(tasks: map<string, TaskRow>, results: map<string, ResultRow>, q: Query): (r: Option<Performed>)
    ensures r.None? <==> q.InsertTask? && q.row.taskId in tasks
    ensures r.Some? && !Commits(q) ==> r.value.tasks == tasks
  {
    match q
    case InsertTask(row) => if row.taskId in tasks then None else Some(Performed(tasks[row.taskId := row], Cursor(1)))
    case StartTask(id, now) =>
      var m := MarkProcessing(tasks, id, now);
      Some(Performed(m.tasks, Cursor(m.rowCount)))
    case SelectTask(id) => Some(Performed(tasks, TaskFetched(Lookup(tasks, id))))
    case SelectResult(id) => Some(Performed(tasks, ResultFetched(Lookup(results, id))))
  }

  class TaskDatabase {
    /** `PRIMARY_DB_TYPE`, lower-cased once at load time. */
    const primaryDbType: string
    /** Whether `_db_connection_pool` is set. */
    var poolOpen: bool
    var tasks: map<string, TaskRow>
    var results: map<string, ResultRow>

    ghost predicate Valid()
      reads this
    {
      KeyedById(tasks, results) && (poolOpen ==> primaryDbType == Postgres)
    }

    constructor(dbType: string)
      ensures Valid()
      ensures primaryDbType == Lower(dbType) && !poolOpen && tasks == map[] && results == map[]
    {
      primaryDbType := Lower(dbType);
      poolOpen := false;
      tasks := map[];
      results := map[];
    }

    /** `get_db_connection` yields a connection: the pool is set, the type is PostgreSQL, `getconn` works. */
    predicate Connects(getconnFails: bool)
      reads this
    {
      poolOpen && primaryDbType == Postgres && !getconnFails
    }

    /** `setup_db_connection_pool`: only a complete PostgreSQL configuration opens the pool. */
    method SetupPool(config: PgConfig, createFails: bool)
      requires Valid()
      modifies this
      ensures Valid()
      ensures tasks == old(tasks) && results == old(results)
      ensures poolOpen <==>
        (old(poolOpen)
         || (primaryDbType == Postgres && Truthy(config.database) && Truthy(config.user)
             && Truthy(config.password) && Truthy(config.host) && !createFails))
    {
      if primaryDbType != Postgres && primaryDbType != Oracle {
        return;
      }
      if primaryDbType == Postgres {
        if !(Truthy(config.database) && Truthy(config.user) && Truthy(config.password) && Truthy(config.host)) {
          return;
        }
        if createFails {
          return;
        }
        poolOpen := true;
      }
    }

    /** `close_db_connection_pool`: the pool is cleared unless PostgreSQL's `closeall` raises. */
    method ClosePool(closeFails: bool)
      requires Valid()
      modifies this
      ensures Valid()
      ensures tasks == old(tasks) && results == old(results)
      ensures poolOpen <==> old(poolOpen) && primaryDbType == Postgres && closeFails
    {
      if !poolOpen {
        return;
      }
      if primaryDbType == Postgres && closeFails {
        return;
      }
      poolOpen := false;
    }

    /** `_execute_query`: run one statement on a pooled connection, committing when it writes. */
    method ExecuteQuery(q: Query, getconnFails: bool, fault: TxFault) returns (r: Option<Reply>)
      requires Valid()
      modifies this
      ensures Valid()
      ensures poolOpen == old(poolOpen) && results == old(results)
      ensures r.Some? <==> Connects(getconnFails) && Survives(q, fault) && Perform(old(tasks), results, q).Some?
      ensures r.Some? ==>
        r.value == Perform(old(tasks), results, q).value.reply && tasks == Perform(old(tasks), results, q).value.tasks
      ensures r.None? ==> tasks == old(tasks)
    {
      if !Connects(getconnFails) {
        return None;
      }
      if fault.StatementFails? {
        return None;   // rolled back
      }
      var p := Perform(tasks, results, q);
      if p.None? {
        return None;   // the statement raised; rolled back
      }
      if Commits(q) && fault.CommitFails? {
        return None;   // the commit raised; rolled back
      }
      tasks := p.value.tasks;
      r := Some(p.value.reply);
    }

    /** `create_task_entry`: insert a fresh 'queued' row. */
    method CreateTaskEntry(taskId: string, userId: Option<int>, fileId: string, format: string, translate: bool,
                           analysis: Option<seq<Json>>, getconnFails: bool, fault: TxFault) returns (ok: bool)
      requires Valid()
      modifies this
      ensures Valid()
      ensures poolOpen == old(poolOpen) && results == old(results)
      ensures ok <==> primaryDbType == Postgres && Connects(getconnFails) && fault.Clean? && taskId !in old(tasks)
      ensures ok ==> tasks == old(tasks)[taskId := FreshTask(taskId, userId, fileId, format, translate, analysis)]
      ensures !ok ==> tasks == old(tasks)
    {
      if primaryDbType != Postgres {
        return false;
      }
      var r := ExecuteQuery(InsertTask(FreshTask(taskId, userId, fileId, format, translate, analysis)), getconnFails, fault);
      ok := r.Some?;
    }

    /** `update_task_status_processing`: the conditional `queued -> processing` transition. */
    method UpdateTaskStatusProcessing(taskId: string, now: Timestamp, getconnFails: bool, fault: TxFault) returns (ok: bool)
      requires Valid()
      modifies this
      ensures Valid()
      ensures poolOpen == old(poolOpen) && results == old(results)
      ensures ok <==> primaryDbType == Postgres && Connects(getconnFails) && fault.Clean?
                      && taskId in old(tasks) && old(tasks)[taskId].status == Some("queued")
      ensures ok ==> tasks == MarkProcessing(old(tasks), taskId, now).tasks
      ensures !ok ==> tasks == old(tasks)
    {
      if primaryDbType != Postgres {
        return false;
      }
      var r := ExecuteQuery(StartTask(taskId, now), getconnFails, fault);
      ok := r.Some? && r.value.Cursor? && r.value.rowCount > 0;
    }

    /**
     * `save_task_result`: in one transaction, overwrite the task's status and
     * upsert its results row; either both writes are committed or neither is.
     */
    method SaveTaskResult(p: SavePayload, now: Timestamp, getconnFails: bool, fault: TxFault) returns (ok: bool)
      requires Valid()
      modifies this
      ensures Valid()
      ensures poolOpen == old(poolOpen)
      ensures ok <==> primaryDbType == Postgres && Truthy(p.taskId) && Connects(getconnFails) && fault.Clean?
      ensures ok ==>
        tasks == MarkFinished(old(tasks), p.taskId.value, StatusOf(p), Some(now), Bound(p.errorDetails))
        && results == Upsert(old(results), ResultRowOf(p, Some(now)))
      ensures !ok ==> tasks == old(tasks) && results == old(results)
    {
      if primaryDbType != Postgres {
        return false;
      }
      if !Truthy(p.taskId) {
        return false;
      }
      var id := p.taskId.value;
      if !Connects(getconnFails) {
        return false;
      }
      var savedTasks, savedResults := tasks, results;
      if fault == StatementFails(0) {
        tasks, results := savedTasks, savedResults;
        return false;
      }
      tasks := MarkFinished(tasks, id, StatusOf(p), Some(now), Bound(p.errorDetails));
      if fault.StatementFails? {
        tasks, results := savedTasks, savedResults;
        return false;
      }
      results := Upsert(results, ResultRowOf(p, Some(now)));
      if fault.CommitFails? {
        tasks, results := savedTasks, savedResults;
        return false;
      }
      ok := true;
    }

    /** `get_task_status_by_id`: the stored row, or `None`. */
    method GetTaskStatusById(taskId: string, getconnFails: bool, fault: TxFault) returns (row: Option<TaskRow>)
      requires Valid()
      modifies this
      ensures Valid()
      ensures poolOpen == old(poolOpen) && tasks == old(tasks) && results == old(results)
      ensures row == if primaryDbType == Postgres && Connects(getconnFails) && !fault.StatementFails?
                     then Lookup(tasks, taskId) else None
    {
      if primaryDbType != Postgres {
        return None;
      }
      var r := ExecuteQuery(SelectTask(taskId), getconnFails, fault);
      if r.Some? && r.value.TaskFetched? && r.value.task.Some? {
        row := r.value.task;
      } else {
        row := None;
      }
    }

    /** `get_task_result_details`: the stored results row, or `None`. */
    method GetTaskResultDetails(taskId: string, getconnFails: bool, fault: TxFault) returns (row: Option<ResultRow>)
      requires Valid()
      modifies this
      ensures Valid()
      ensures poolOpen == old(poolOpen) && tasks == old(tasks) && results == old(results)
      ensures row == if primaryDbType == Postgres && Connects(getconnFails) && !fault.StatementFails?
                     then Lookup(results, taskId) else None
    {
      if primaryDbType != Postgres {
        return None;
      }
      var r := ExecuteQuery(SelectResult(taskId), getconnFails, fault);
      if r.Some? && r.value.ResultFetched? && r.value.result.Some? {
        row := r.value.result;
      } else {
        row := None;
      }
    }
  }

  // -----------------------------------------------------------------------
  // Properties of the table updates
  // -----------------------------------------------------------------------

  /** A second pick-up of the same task (or a pick-up of an unknown task) changes nothing. */
  lemma SecondPickupRejected(tasks: map<string, TaskRow>, id: string, t1: Timestamp, t2: Timestamp)
    ensures var m := MarkProcessing(tasks, id, t1);
      m.rowCount == 1 ==> MarkProcessing(m.tasks, id, t2) == Marked(m.tasks, 0)
    ensures id !in tasks ==> MarkProcessing(tasks, id, t1) == Marked(tasks, 0)
  {
  }

  /**
   * A task just created reads back with status 'queued', nothing started or
   * finished, and the analysis tasks it was created with.
   */
  lemma FreshTaskReadsBackQueued(tasks: map<string, TaskRow>, results: map<string, ResultRow>,
                                 taskId: string, userId: Option<int>, fileId: string, format: string,
                                 translate: bool, analysis: Option<seq<Json>>)
    requires taskId !in tasks
    ensures var row := FreshTask(taskId, userId, fileId, format, translate, analysis);
      var ins := Perform(tasks, results, InsertTask(row));
      ins.Some? && Perform(ins.value.tasks, results, SelectTask(taskId))
        == Some(Performed(ins.value.tasks, TaskFetched(Some(row))))
      && row.status == Some("queued") && row.startedAt.None? && row.completedAt.None?
      && row.requestedAnalysisTasks == (if analysis.Some? then Some(JArr(analysis.value)) else None)
  {
  }

  /** Saving twice for the same task is the same as saving the second time only. */
  lemma UpsertLastWriteWins(results: map<string, ResultRow>, r1: ResultRow, r2: ResultRow)
    requires r1.taskId == r2.taskId
    ensures Upsert(Upsert(results, r1), r2) == Upsert(results, r2)
    ensures |Upsert(Upsert(results, r1), r2)| == |results| + (if r2.taskId in results then 0 else 1)
  {
    var id := r2.taskId;
    assert Upsert(results, r1) == results[id := r1];
    assert Upsert(results[id := r1], r2) == results[id := r1][id := r2];
    assert results[id := r1][id := r2] == results[id := r2];
    if id in results {
      assert results[id := r2].Keys == results.Keys;
    } else {
      assert results[id := r2].Keys == results.Keys + {id};
      assert |results.Keys + {id}| == |results.Keys| + 1;
    }
  }

  /** The results table after a sequence of saves, in order. */
  function SaveAll(results: map<string, ResultRow>, rows: seq<ResultRow>): map<string, ResultRow>
    decreases |rows|
  {
    if |rows| == 0 then results else Upsert(SaveAll(results, rows[..|rows| - 1]), rows[|rows| - 1])
  }

  /** The last row in `rows` for task `id`, if any. */
  function LastFor(rows: seq<ResultRow>, id: string): (r: Option<ResultRow>)
    ensures r.Some? ==> r.value in rows && r.value.taskId == id
    ensures r.None? ==> forall k :: 0 <= k < |rows| ==> rows[k].taskId != id
    decreases |rows|
  {
    if |rows| == 0 then None
    else if rows[|rows| - 1].taskId == id then Some(rows[|rows| - 1])
    else LastFor(rows[..|rows| - 1], id)
  }

  /**
   * After any sequence of saves there is exactly one results row per task
   * that was ever saved, and it holds the values of that task's latest save.
   */
  lemma {:induction false} SavesKeepLatestRowPerTask(results: map<string, ResultRow>, rows: seq<ResultRow>, id: string)
    ensures Lookup(SaveAll(results, rows), id) == if LastFor(rows, id).Some? then LastFor(rows, id) else Lookup(results, id)
    decreases |rows|
  {
    if |rows| > 0 {
      SavesKeepLatestRowPerTask(results, rows[..|rows| - 1], id);
    }
  }

  /** The terminal write replaces the status whatever it was, `'processing'` included. */
  lemma TerminalWriteOverwritesStatus(tasks: map<string, TaskRow>, id: string, t: Timestamp, status: Option<string>)
    requires id in tasks
    ensures var m := MarkProcessing(tasks, id, t);
      MarkFinished(m.tasks, id, status, Some(t), None)[id].status == status
      && MarkFinished(m.tasks, id, status, Some(t), None)[id].startedAt == m.tasks[id].startedAt
  {
  }

  /**
   * A payload entry that is present but `None` becomes SQL NULL in both
   * tables: the status gets no "unknown" default, and neither the error nor
   * the summary is stored as a JSON value.
   */
  lemma PresentNullIsSqlNull(tasks: map<string, TaskRow>, p: SavePayload, now: Timestamp)
    requires p.taskId.Some? && p.taskId.value in tasks
    requires p.status.Null? && p.errorDetails == Some(JNull) && p.resultsSummary == Some(JNull)
    ensures var row := MarkFinished(tasks, p.taskId.value, StatusOf(p), Some(now), Bound(p.errorDetails))[p.taskId.value];
      row.status.None? && row.errorMessage.None?
    ensures ResultRowOf(p, Some(now)).finalStatus.None? && ResultRowOf(p, Some(now)).detailedResults.None?
  {
  }
}
