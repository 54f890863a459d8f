/** One row of the client's task list: its status label and its "View Results" button. */
module TaskItem {
  import opened Wrappers
  import opened Json
  import opened Strings
  import opened ClientTasks

  const QueuedLabel := "Queued"
  const ProcessingLabel := "Processing..."
  const CompletedLabel := "Completed"
  const CompletedWithErrorsLabel := "Completed with Errors"
  const UnknownStatusLabel := "Unknown Status"
  const UnknownErrorLabel := "Unknown Error"
  const CompletedWithErrors := "completed_with_errors"

  /** `getStatusDisplay(task.status)`; a status that is not a string matches no case. */
  function StatusDisplay(t: ClientTask): string {
    if t.status == JStr(Uploading) then "Uploading... (" + IntToDecimal(t.uploadProgress) + "%)"
    else if t.status == JStr(QueuedByBackend) || t.status == JStr(Queued) then QueuedLabel
    else if t.status == JStr(Processing) then ProcessingLabel
    else if t.status == JStr(Completed) then CompletedLabel
    else if t.status == JStr(CompletedWithErrors) then CompletedWithErrorsLabel
    else if t.status == JStr(Failed) then "Failed: " + OrText(t.error, UnknownErrorLabel)
    else if t.status == JStr(PollingError) then "Error polling status: " + OrText(t.error, UnknownErrorLabel)
    else UnknownStatusLabel
  }

  /** The statuses `getStatusDisplay` has a case for. */
  predicate KnownStatus(status: Json) {
    status in {JStr(Uploading), JStr(QueuedByBackend), JStr(Queued), JStr(Processing),
               JStr(Completed), JStr(CompletedWithErrors), JStr(Failed), JStr(PollingError)}
  }

  /** Whether the "View Results" button is rendered. */
  predicate ViewResultsShown(t: ClientTask) {
    t.status == JStr(Completed) || t.status == JStr(CompletedWithErrors)
  }

  /**
   * `handleViewResultsClick`: the id passed to `onViewResults`, if it is
   * called. It is called exactly for a task whose label reads `Completed`
   * or `Completed with Errors`, and with that task's own id.
   */
  function ViewResultsClick(t: ClientTask): (r: Option<string>)
    ensures r.Some? <==> StatusDisplay(t) == CompletedLabel || StatusDisplay(t) == CompletedWithErrorsLabel
    ensures r.Some? ==> r.value == t.id
  {
    ViewResultsIffCompletedLabel(t);
    if ViewResultsShown(t) then Some(t.id) else None
  }

  /** The label a status shows starts with this letter, whatever the progress or error. */
  lemma LabelInitial(t: ClientTask)
    ensures |StatusDisplay(t)| > 0
    ensures StatusDisplay(t)[0] ==
      if t.status == JStr(Uploading) || !KnownStatus(t.status) then 'U'
      else if t.status == JStr(QueuedByBackend) || t.status == JStr(Queued) then 'Q'
      else if t.status == JStr(Processing) then 'P'
      else if t.status == JStr(Completed) || t.status == JStr(CompletedWithErrors) then 'C'
      else if t.status == JStr(Failed) then 'F'
      else 'E'
  {
  }

  /** Both the frontend's `'queued'` and the backend's `'processing_queued'` show `Queued`, and nothing else does. */
  lemma QueuedLabelIff(t: ClientTask)
    ensures StatusDisplay(t) == QueuedLabel <==>
      t.status == JStr(Queued) || t.status == JStr(QueuedByBackend)
  {
    LabelInitial(t);
  }

  /** `Unknown Status` shows exactly for the statuses no case handles. */
  lemma UnknownStatusIff(t: ClientTask)
    ensures StatusDisplay(t) == UnknownStatusLabel <==> !KnownStatus(t.status)
  {
    LabelInitial(t);
    if t.status == JStr(Uploading) {
      assert StatusDisplay(t)[1] == 'p';
    }
  }

  /** The uploading label carries the task's progress as a percentage. */
  lemma UploadingLabelShowsProgress(t: ClientTask)
    requires t.status == JStr(Uploading)
    ensures StartsWith(StatusDisplay(t), "Uploading... (")
    ensures StatusDisplay(t)[|StatusDisplay(t)| - 2..] == "%)"
    ensures StatusDisplay(t)[14..|StatusDisplay(t)| - 2] == IntToDecimal(t.uploadProgress)
  {
  }

  /** The failure labels show the error text, or `Unknown Error` when there is none. */
  lemma FailureLabelsShowError(t: ClientTask)
    ensures t.status == JStr(Failed) ==> StatusDisplay(t) == "Failed: " + OrText(t.error, UnknownErrorLabel)
    ensures t.status == JStr(PollingError) ==>
      StatusDisplay(t) == "Error polling status: " + OrText(t.error, UnknownErrorLabel)
  {
  }

  /**
   * The "View Results" button is shown, and its click reaches
   * `onViewResults`, exactly for the tasks labelled `Completed` or
   * `Completed with Errors`.
   */
  lemma ViewResultsIffCompletedLabel(t: ClientTask)
    ensures ViewResultsShown(t) <==>
      StatusDisplay(t) == CompletedLabel || StatusDisplay(t) == CompletedWithErrorsLabel
  {
    LabelInitial(t);
  }
}
