/**
 * The browser client's task list: a placeholder task is appended when an
 * upload starts, then updated by id from the upload progress callback, the
 * upload response, and the periodic status polling; the details view looks
 * a task up by id.
 */
module ClientTasks {
  import opened Wrappers
  import opened Json

  /**
   * One entry of the task list. `status` holds whatever the backend sent
   * (the client stores `response.status` as is), `backendTaskId` and
   * `result` are `null`/`undefined` (None) until a response arrives.
   */
  datatype ClientTask = ClientTask(
    id: string,
    filename: string,
    status: Json,
    uploadProgress: int,
    backendTaskId: Option<Json>,
    result: Option<Json>,
    error: Option<string>)

  /** A call into the API client: it resolves with a (possibly undefined) value or throws. */
  datatype ApiCall = Resolved(data: Option<Json>) | Rejected(message: Option<string>)

  /** What one polled task meets: the status call and, if it asks for it, the result call. */
  datatype PollReply = PollReply(status: ApiCall, detail: ApiCall)

  /**
   * The polling code as written, or as its authors evidently meant it
   * (it polls the status the backend actually returns, and its logging calls
   * do not throw).
   */
  datatype Reading = AsWritten | Intended

  const Uploading := "uploading"
  const Queued := "queued"
  const Processing := "processing"
  const QueuedByBackend := "processing_queued"
  const Completed := "completed"
  const Failed := "failed"
  const PollingError := "polling_error"
  const SelectFileFirst := "Please select a file first."
  const InvalidResponse := "Invalid response from server."
  const UploadFailedDefault := "Upload failed"
  const UnknownErrorDefault := "Unknown error"
  const PollingFailedDefault := "Polling failed"
  /** The message of the `ReferenceError` an undeclared `logger` raises. */
  const LoggerUndefined := "logger is not defined"

  /** JavaScript's `message || fallback` for a message that may be undefined or empty. */
  function OrText(message: Option<string>, fallback: string): (r: string)
    ensures message.Some? && message.value != "" ==> r == message.value
    ensures !(message.Some? && message.value != "") ==> r == fallback
  {
    if message.Some? && message.value != "" then message.value else fallback
  }

  /** The placeholder task `handleUpload` appends. */
  function NewTask(id: string, filename: string): (t: ClientTask)
    ensures t.id == id && t.filename == filename
    ensures t.status == JStr(Uploading) && t.uploadProgress == 0
    ensures t.backendTaskId.None? && t.result.None? && t.error.None?
  {
    ClientTask(id, filename, JStr(Uploading), 0, None, None, None)
  }

  /** `tasks.map(task => task.id === id ? upd(task) : task)`. */
  function UpdateById(ts: seq<ClientTask>, id: string, upd: ClientTask -> ClientTask): (r: seq<ClientTask>)
    ensures |r| == |ts|
    ensures forall i :: 0 <= i < |ts| && ts[i].id != id ==> r[i] == ts[i]
    ensures forall i :: 0 <= i < |ts| && ts[i].id == id ==> r[i] == upd(ts[i])
  {
    seq(|ts|, i requires 0 <= i < |ts| => if ts[i].id == id then upd(ts[i]) else ts[i])
  }

  /** The progress callback: only the matching task's `uploadProgress` changes. */
  function SetProgress(ts: seq<ClientTask>, id: string, progress: int): (r: seq<ClientTask>)
    ensures |r| == |ts|
    ensures forall i :: 0 <= i < |ts| && ts[i].id != id ==> r[i] == ts[i]
    ensures forall i :: 0 <= i < |ts| && ts[i].id == id ==>
      r[i] == ts[i].(uploadProgress := progress)
  {
    UpdateById(ts, id, (t: ClientTask) => t.(uploadProgress := progress))
  }

  /** The status a successful upload response gives its task: `response.status || 'queued'`. */
  function ReplyStatus(data: Option<Json>): (s: Json)
    ensures JsTruthyOpt(Member(data, "status")) ==> Some(s) == Member(data, "status")
    ensures !JsTruthyOpt(Member(data, "status")) ==> s == JStr(Queued)
  {
    var status := Member(data, "status");
    if JsTruthyOpt(status) then status.value else JStr(Queued)
  }

  /** The outcome of the upload call applied to the task list (App.jsx, lines 67-85). */
  function Conclude(ts: seq<ClientTask>, id: string, reply: ApiCall): (r: seq<ClientTask>)
    ensures |r| == |ts|
    ensures forall i :: 0 <= i < |ts| && ts[i].id != id ==> r[i] == ts[i]
  {
    match reply
    case Resolved(data) =>
      var taskId := Member(data, "task_id");
      if JsTruthyOpt(taskId) then
        UpdateById(ts, id,
          (t: ClientTask) => t.(backendTaskId := taskId, status := ReplyStatus(data), uploadProgress := 100))
      else
        UpdateById(ts, id,
          (t: ClientTask) => t.(status := JStr(Failed), error := Some(InvalidResponse)))
    case Rejected(message) =>
      UpdateById(ts, id,
        (t: ClientTask) => t.(status := JStr(Failed), error := Some(OrText(message, UploadFailedDefault))))
  }

  /** Whether the upload call's outcome counts as accepted (`responseData && responseData.task_id`). */
  predicate Accepted(reply: ApiCall) {
    reply.Resolved? && JsTruthyOpt(Member(reply.data, "task_id"))
  }

  /** The alert the upload handler raises, if any. */
  function UploadAlert(reply: ApiCall): (alert: Option<string>)
    ensures alert.None? <==> Accepted(reply)
  {
    if Accepted(reply) then None
    else
      var message := if reply.Resolved? then Some(InvalidResponse) else reply.message;
      Some("Upload failed: " + OrText(message, UnknownErrorDefault))
  }

  /** The list after a series of progress callbacks for task `id`. */
  function ProgressAll(ts: seq<ClientTask>, id: string, progress: seq<int>): seq<ClientTask>
    decreases |progress|
  {
    if |progress| == 0 then ts
    else SetProgress(ProgressAll(ts, id, progress[..|progress| - 1]), id, progress[|progress| - 1])
  }

  /** The list after an upload that started from `prev` and saw `progress` and then `reply`. */
  function Uploaded(prev: seq<ClientTask>, id: string, filename: string,
                    progress: seq<int>, reply: ApiCall): seq<ClientTask>
  {
    Conclude(ProgressAll(prev + [NewTask(id, filename)], id, progress), id, reply)
  }

  /** A later progress callback overrides an earlier one. */
  lemma ProgressOverrides(ts: seq<ClientTask>, id: string, a: int, b: int)
    ensures SetProgress(SetProgress(ts, id, a), id, b) == SetProgress(ts, id, b)
  {
    var l := SetProgress(SetProgress(ts, id, a), id, b);
    var r := SetProgress(ts, id, b);
    assert forall i :: 0 <= i < |ts| ==> l[i] == r[i];
  }

  /** However many progress callbacks arrive, only the last one shows. */
  lemma {:induction false} LatestProgressWins(ts: seq<ClientTask>, id: string, progress: seq<int>)
    requires |progress| > 0
    ensures ProgressAll(ts, id, progress) == SetProgress(ts, id, progress[|progress| - 1])
    decreases |progress|
  {
    var init := progress[..|progress| - 1];
    if |init| > 0 {
      LatestProgressWins(ts, id, init);
      assert init[|init| - 1] == progress[|progress| - 2];
      ProgressOverrides(ts, id, progress[|progress| - 2], progress[|progress| - 1]);
    }
  }

  /** Progress callbacks change nothing but the progress of the matching task. */
  lemma {:induction false} ProgressKeepsOthers(ts: seq<ClientTask>, id: string, progress: seq<int>)
    ensures |ProgressAll(ts, id, progress)| == |ts|
    ensures forall i :: 0 <= i < |ts| && ts[i].id != id ==> ProgressAll(ts, id, progress)[i] == ts[i]
    ensures forall i :: 0 <= i < |ts| && ts[i].id == id ==>
      ProgressAll(ts, id, progress)[i] == ts[i].(uploadProgress := ProgressAll(ts, id, progress)[i].uploadProgress)
    decreases |progress|
  {
    if |progress| > 0 {
      ProgressKeepsOthers(ts, id, progress[..|progress| - 1]);
    }
  }

  /**
   * An upload appends exactly one task at the end and, as long as no earlier
   * task carries the same client id, leaves every earlier task as it was.
   * An accepted response gives the new task the backend id, the reported
   * status (or `'queued'`) and progress 100; otherwise it is `'failed'` with
   * the error text, and keeps its last progress and no backend id.
   */
  lemma UploadAppendsOneTask(prev: seq<ClientTask>, id: string, filename: string,
                             progress: seq<int>, reply: ApiCall)
    requires forall i :: 0 <= i < |prev| ==> prev[i].id != id
    ensures |Uploaded(prev, id, filename, progress, reply)| == |prev| + 1
    ensures Uploaded(prev, id, filename, progress, reply)[..|prev|] == prev
    ensures var t := Uploaded(prev, id, filename, progress, reply)[|prev|];
      t.id == id && t.filename == filename && t.result.None?
      && (Accepted(reply) ==>
            t.backendTaskId == Member(reply.data, "task_id")
            && t.status == ReplyStatus(reply.data)
            && t.uploadProgress == 100 && t.error.None?)
      && (!Accepted(reply) ==>
            t.status == JStr(Failed) && t.backendTaskId.None?
            && t.uploadProgress == (if |progress| == 0 then 0 else progress[|progress| - 1])
            && t.error == Some(if reply.Resolved? then InvalidResponse
                               else OrText(reply.message, UploadFailedDefault)))
  {
    var start := prev + [NewTask(id, filename)];
    ProgressKeepsOthers(start, id, progress);
    var p := ProgressAll(start, id, progress);
    if |progress| > 0 {
      LatestProgressWins(start, id, progress);
    }
    assert p[|prev|].uploadProgress == (if |progress| == 0 then 0 else progress[|progress| - 1]);
    var r := Conclude(p, id, reply);
    assert forall i :: 0 <= i < |prev| ==> r[i] == prev[i] by {
      forall i | 0 <= i < |prev| ensures r[i] == prev[i] {
        assert start[i] == prev[i];
      }
    }
  }

  /** The polling filter (App.jsx, lines 99-101), and the status the backend's queue reply uses as well. */
  predicate ShouldPoll(t: ClientTask, reading: Reading) {
    JsTruthyOpt(t.backendTaskId)
    && (t.status == JStr(Queued) || t.status == JStr(Processing)
        || (reading == Intended && t.status == JStr(QueuedByBackend)))
  }

  /** `tasks.filter(...)` with the polling filter, in list order. */
  function ActiveTasks(ts: seq<ClientTask>, reading: Reading): (r: seq<ClientTask>)
    ensures |r| <= |ts|
    ensures forall t :: t in r <==> t in ts && ShouldPoll(t, reading)
    decreases |ts|
  {
    if |ts| == 0 then []
    else
      var rest := ActiveTasks(ts[..|ts| - 1], reading);
      assert ts == ts[..|ts| - 1] + [ts[|ts| - 1]];
      if ShouldPoll(ts[|ts| - 1], reading) then rest + [ts[|ts| - 1]] else rest
  }

  /** The catch branch of a poll: `'polling_error'` with the error's message. */
  function MarkPollingError(ts: seq<ClientTask>, id: string, message: Option<string>): seq<ClientTask> {
    UpdateById(ts, id,
      (t: ClientTask) => t.(status := JStr(PollingError), error := Some(OrText(message, PollingFailedDefault))))
  }

  /** One polled task's replies applied to the list (App.jsx, lines 104-131). */
  function ApplyPoll(ts: seq<ClientTask>, id: string, reply: PollReply, reading: Reading): (r: seq<ClientTask>)
    ensures |r| == |ts|
    ensures forall i :: 0 <= i < |ts| ==> r[i].id == ts[i].id
    ensures forall i :: 0 <= i < |ts| && ts[i].id != id ==> r[i] == ts[i]
  {
    match reply.status
    case Rejected(message) => MarkPollingError(ts, id, message)
    case Resolved(response) =>
      var status := Member(response, "status");
      if !JsTruthyOpt(status) then ts
      else
        var stored := UpdateById(ts, id, (t: ClientTask) => t.(status := status.value, result := response));
        if status.value != JStr(Completed) && status.value != JStr(Failed) then stored
        else if reading == AsWritten then MarkPollingError(stored, id, Some(LoggerUndefined))
        else if status.value == JStr(Failed) then stored
        else
          match reply.detail
          case Resolved(detail) => UpdateById(stored, id, (t: ClientTask) => t.(result := detail))
          case Rejected(message) => MarkPollingError(stored, id, message)
  }

  /** A polling round over the selected tasks, in order; `replies(k)` is what the `k`-th one meets. */
  function PollAll(ts: seq<ClientTask>, active: seq<ClientTask>, replies: nat -> PollReply,
                   reading: Reading): (r: seq<ClientTask>)
    ensures |r| == |ts|
    ensures forall i :: 0 <= i < |ts| ==> r[i].id == ts[i].id
    decreases |active|
  {
    if |active| == 0 then ts
    else
      var n := |active| - 1;
      ApplyPoll(PollAll(ts, active[..n], replies, reading), active[n].id, replies(n), reading)
  }

  /** The round over one more selected task polls that task last. */
  lemma PollAllExtend(ts: seq<ClientTask>, active: seq<ClientTask>, k: nat,
                      replies: nat -> PollReply, reading: Reading)
    requires k < |active|
    ensures PollAll(ts, active[..k + 1], replies, reading) ==
      ApplyPoll(PollAll(ts, active[..k], replies, reading), active[k].id, replies(k), reading)
  {
    assert active[..k + 1][..k] == active[..k];
  }

  /** A polling round changes no task that shares its id with no selected task. */
  lemma {:induction false} PollLeavesUnselectedTasks(ts: seq<ClientTask>, active: seq<ClientTask>,
                                                    replies: nat -> PollReply, reading: Reading)
    ensures forall i :: 0 <= i < |ts| && (forall a :: a in active ==> a.id != ts[i].id) ==>
      PollAll(ts, active, replies, reading)[i] == ts[i]
    decreases |active|
  {
    if |active| > 0 {
      var n := |active| - 1;
      PollLeavesUnselectedTasks(ts, active[..n], replies, reading);
      forall i | 0 <= i < |ts| && (forall a :: a in active ==> a.id != ts[i].id)
        ensures PollAll(ts, active, replies, reading)[i] == ts[i]
      {
        assert forall a :: a in active[..n] ==> a in active;
        assert active[n] in active;
      }
    }
  }

  /** A status reply that reports progress stores it and the reply, under either reading. */
  lemma PollRecordsReportedStatus(ts: seq<ClientTask>, id: string, reply: PollReply, reading: Reading)
    requires reply.status.Resolved?
    requires var s := Member(reply.status.data, "status");
      JsTruthyOpt(s) && s.value != JStr(Completed) && s.value != JStr(Failed)
    ensures forall i :: 0 <= i < |ts| && ts[i].id == id ==>
      ApplyPoll(ts, id, reply, reading)[i]
        == ts[i].(status := Member(reply.status.data, "status").value, result := reply.status.data)
  {
  }

  /**
   * As written, a `'completed'` or `'failed'` status reply reaches
   * `logger.info`, which no code declares: the `ReferenceError` lands in the
   * catch branch, so the task ends as `'polling_error'` and the detailed
   * result is never fetched.
   */
  lemma AsWrittenFinishedPollIsPollingError(ts: seq<ClientTask>, id: string, reply: PollReply)
    requires reply.status.Resolved?
    requires Member(reply.status.data, "status") == Some(JStr(Completed))
      || Member(reply.status.data, "status") == Some(JStr(Failed))
    ensures forall i :: 0 <= i < |ts| && ts[i].id == id ==>
      ApplyPoll(ts, id, reply, AsWritten)[i].status == JStr(PollingError)
      && ApplyPoll(ts, id, reply, AsWritten)[i].error == Some(LoggerUndefined)
      && ApplyPoll(ts, id, reply, AsWritten)[i].result == reply.status.data
  {
  }

  /**
   * A rejected status call marks the polled task `'polling_error'` with the
   * error's message or `Polling failed`, under either reading; every other
   * task is left as it was.
   */
  lemma RejectedPollIsPollingError(ts: seq<ClientTask>, id: string, reply: PollReply, reading: Reading)
    requires reply.status.Rejected?
    ensures forall i :: 0 <= i < |ts| && ts[i].id == id ==>
      ApplyPoll(ts, id, reply, reading)[i]
        == ts[i].(status := JStr(PollingError), error := Some(OrText(reply.status.message, PollingFailedDefault)))
    ensures forall i :: 0 <= i < |ts| && ts[i].id != id ==> ApplyPoll(ts, id, reply, reading)[i] == ts[i]
  {
  }

  /** A status reply without a truthy `status` leaves the whole list unchanged. */
  lemma StatuslessReplyChangesNothing(ts: seq<ClientTask>, id: string, reply: PollReply, reading: Reading)
    requires reply.status.Resolved? && !JsTruthyOpt(Member(reply.status.data, "status"))
    ensures ApplyPoll(ts, id, reply, reading) == ts
  {
  }

  /** As intended, a `'failed'` reply stores the status and the reply, and fetches nothing more. */
  lemma IntendedFailedPollStoresStatus(ts: seq<ClientTask>, id: string, reply: PollReply)
    requires reply.status.Resolved?
    requires Member(reply.status.data, "status") == Some(JStr(Failed))
    ensures forall i :: 0 <= i < |ts| && ts[i].id == id ==>
      ApplyPoll(ts, id, reply, Intended)[i] == ts[i].(status := JStr(Failed), result := reply.status.data)
  {
  }

  /**
   * As intended, a `'completed'` reply whose detail call is rejected ends in
   * the catch branch: `'polling_error'` with the detail call's message.
   */
  lemma IntendedRejectedDetailIsPollingError(ts: seq<ClientTask>, id: string, reply: PollReply)
    requires reply.status.Resolved? && reply.detail.Rejected?
    requires Member(reply.status.data, "status") == Some(JStr(Completed))
    ensures forall i :: 0 <= i < |ts| && ts[i].id == id ==>
      ApplyPoll(ts, id, reply, Intended)[i]
        == ts[i].(status := JStr(PollingError), result := reply.status.data,
                  error := Some(OrText(reply.detail.message, PollingFailedDefault)))
  {
  }

  /** As intended, a `'completed'` reply stores the status and then the fetched detailed result. */
  lemma IntendedCompletedPollStoresResult(ts: seq<ClientTask>, id: string, reply: PollReply)
    requires reply.status.Resolved? && reply.detail.Resolved?
    requires Member(reply.status.data, "status") == Some(JStr(Completed))
    ensures forall i :: 0 <= i < |ts| && ts[i].id == id ==>
      ApplyPoll(ts, id, reply, Intended)[i]
        == ts[i].(status := JStr(Completed), result := reply.detail.data)
  {
  }

  /** The response the upload endpoint sends when it has queued the task. */
  function QueuedResponse(message: string, taskId: string, key: string): Json {
    JObj(map["message" := JStr(message), "task_id" := JStr(taskId),
             "uploaded_s3_key" := JStr(key), "status" := JStr(QueuedByBackend)])
  }

  /**
   * As written, a task whose upload the backend accepted shows
   * `'processing_queued'` and is never selected for polling, so no polling
   * round ever changes it: the client never learns how the task ends.
   */
  lemma AsWrittenAcceptedUploadIsNeverPolled(prev: seq<ClientTask>, id: string, filename: string,
                                             progress: seq<int>, message: string, taskId: string,
                                             key: string, replies: nat -> PollReply)
    requires forall i :: 0 <= i < |prev| ==> prev[i].id != id
    requires taskId != ""
    ensures var ts := Uploaded(prev, id, filename, progress, Resolved(Some(QueuedResponse(message, taskId, key))));
      |ts| == |prev| + 1
      && ts[|prev|].status == JStr(QueuedByBackend)
      && !ShouldPoll(ts[|prev|], AsWritten)
      && PollAll(ts, ActiveTasks(ts, AsWritten), replies, AsWritten)[|prev|] == ts[|prev|]
  {
    var reply := Resolved(Some(QueuedResponse(message, taskId, key)));
    var ts := Uploaded(prev, id, filename, progress, reply);
    assert |ts| == |prev| + 1 && ts[|prev|].status == JStr(QueuedByBackend) && ts[|prev|].id == id
           && forall i :: 0 <= i < |prev| ==> ts[i] == prev[i] by {
      assert Member(reply.data, "status") == Some(JStr(QueuedByBackend));
      assert Member(reply.data, "task_id") == Some(JStr(taskId));
      UploadAppendsOneTask(prev, id, filename, progress, reply);
    }
    var active := ActiveTasks(ts, AsWritten);
    forall a | a in active ensures a.id != ts[|prev|].id {
      var j :| 0 <= j < |ts| && ts[j] == a;
      if j < |prev| {
        assert ts[j] == prev[j];
      }
    }
    PollLeavesUnselectedTasks(ts, active, replies, AsWritten);
  }

  /** As intended, the same task is selected for the next polling round. */
  lemma IntendedAcceptedUploadIsPolled(prev: seq<ClientTask>, id: string, filename: string,
                                       progress: seq<int>, message: string, taskId: string, key: string)
    requires forall i :: 0 <= i < |prev| ==> prev[i].id != id
    requires taskId != ""
    ensures var ts := Uploaded(prev, id, filename, progress, Resolved(Some(QueuedResponse(message, taskId, key))));
      |ts| == |prev| + 1 && ts[|prev|] in ActiveTasks(ts, Intended)
  {
    var reply := Resolved(Some(QueuedResponse(message, taskId, key)));
    assert Member(reply.data, "status") == Some(JStr(QueuedByBackend));
    assert Member(reply.data, "task_id") == Some(JStr(taskId));
    UploadAppendsOneTask(prev, id, filename, progress, reply);
  }

  /** `tasks.find(task => task.id === selected)`: the first task with that id. */
  function FindTask(ts: seq<ClientTask>, selected: Option<string>): (r: Option<ClientTask>)
    ensures r.Some? <==> selected.Some? && exists i :: 0 <= i < |ts| && ts[i].id == selected.value
    ensures r.Some? ==>
      exists i :: (0 <= i < |ts| && ts[i] == r.value && ts[i].id == selected.value
        && forall j :: 0 <= j < i ==> ts[j].id != selected.value)
    decreases |ts|
  {
    if selected.None? || |ts| == 0 then None
    else if ts[0].id == selected.value then Some(ts[0])
    else
      var r := FindTask(ts[1..], selected);
      assert forall i :: 0 < i < |ts| ==> ts[i] == ts[1..][i - 1];
      r
  }

  /** The details view is rendered when a task id is selected and a task with it exists. */
  predicate DetailsShown(ts: seq<ClientTask>, selected: Option<string>) {
    selected.Some? && selected.value != "" && FindTask(ts, selected).Some?
  }

  /** The client's state that the upload and polling handlers change. */
  class App {
    var tasks: seq<ClientTask>
    /** The name of the selected file, `null` when none is selected. */
    var selectedFile: Option<string>
    var uploadProgress: int
    var isLoading: bool
    var selectedTask: Option<string>

    constructor()
      ensures tasks == [] && selectedFile.None? && uploadProgress == 0
      ensures !isLoading && selectedTask.None?
    {
      tasks := [];
      selectedFile := None;
      uploadProgress := 0;
      isLoading := false;
      selectedTask := None;
    }

    /** `handleFileSelect`. */
    method SelectFile(name: string)
      modifies this
      ensures selectedFile == Some(name) && uploadProgress == 0
      ensures tasks == old(tasks) && isLoading == old(isLoading) && selectedTask == old(selectedTask)
    {
      selectedFile := Some(name);
      uploadProgress := 0;
    }

    /**
     * `handleUpload` with client id `id`: the progress callbacks the upload
     * makes, in order, and then the upload call's outcome.
     */
    method HandleUpload(id: string, progress: seq<int>, reply: ApiCall) returns (alert: Option<string>)
      modifies this
      ensures old(selectedFile).None? ==>
        alert == Some(SelectFileFirst) && tasks == old(tasks) && selectedFile.None?
        && uploadProgress == old(uploadProgress) && isLoading == old(isLoading)
      ensures old(selectedFile).Some? ==>
        tasks == Uploaded(old(tasks), id, old(selectedFile).value, progress, reply)
        && alert == UploadAlert(reply)
        && selectedFile.None? && uploadProgress == 0 && !isLoading
      ensures selectedTask == old(selectedTask)
    {
      if selectedFile.None? {
        return Some(SelectFileFirst);
      }
      isLoading := true;
      uploadProgress := 0;
      var base := tasks + [NewTask(id, selectedFile.value)];
      tasks := base;
      var k := 0;
      while k < |progress|
        invariant 0 <= k <= |progress|
        invariant tasks == ProgressAll(base, id, progress[..k])
        invariant selectedTask == old(selectedTask)
      {
        assert progress[..k + 1][..k] == progress[..k];
        uploadProgress := progress[k];
        tasks := SetProgress(tasks, id, progress[k]);
        k := k + 1;
      }
      assert progress[..k] == progress;
      tasks := Conclude(tasks, id, reply);
      alert := UploadAlert(reply);
      isLoading := false;
      selectedFile := None;
      uploadProgress := 0;
    }

    /** One tick of the polling interval, with the replies each selected task meets. */
    method Poll(replies: nat -> PollReply, reading: Reading)
      modifies this
      ensures tasks == PollAll(old(tasks), ActiveTasks(old(tasks), reading), replies, reading)
      ensures selectedFile == old(selectedFile) && uploadProgress == old(uploadProgress)
      ensures isLoading == old(isLoading) && selectedTask == old(selectedTask)
    {
      var start := tasks;
      var active := ActiveTasks(tasks, reading);
      var k := 0;
      while k < |active|
        invariant 0 <= k <= |active|
        invariant tasks == PollAll(start, active[..k], replies, reading)
        invariant selectedFile == old(selectedFile) && uploadProgress == old(uploadProgress)
        invariant isLoading == old(isLoading) && selectedTask == old(selectedTask)
      {
        PollAllExtend(start, active, k, replies, reading);
        tasks := ApplyPoll(tasks, active[k].id, replies(k), reading);
        k := k + 1;
      }
      assert active[..k] == active;
    }

    /** `handleViewResults`. */
    method ViewResults(id: string)
      modifies this
      ensures selectedTask == Some(id)
      ensures tasks == old(tasks) && selectedFile == old(selectedFile)
      ensures uploadProgress == old(uploadProgress) && isLoading == old(isLoading)
    {
      selectedTask := Some(id);
    }

    /** `handleCloseDetails`. */
    method CloseDetails()
      modifies this
      ensures selectedTask.None? && !DetailsShown(tasks, selectedTask)
      ensures tasks == old(tasks) && selectedFile == old(selectedFile)
      ensures uploadProgress == old(uploadProgress) && isLoading == old(isLoading)
    {
      selectedTask := None;
    }
  }
}
