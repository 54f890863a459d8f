# ai-musician_author in Dafny

A model of the processing core of the sheet-music service: a user uploads a score, which is turned into a MIDI/MP3 file and, on request, a Shakespearean rewrite of its lyrics. The model covers seven parts:

- **Upload endpoint** (`upload_intake.dfy`): checks the storage configuration, the file name and the extension allow-list. It stores the file under `sheetmusic/<task id>/<basename>`, builds the task descriptor and picks the response from the queue's reply.
- **Worker's `process_task`** (`worker.dfy`): the download stage with its fail-fast error paths, then the ordered dispatch of `processing_steps + analysis_tasks`. It records each step's outcome in `processed_results`, and a step failure stops the run as critical. It ends with the final payload and the clean-up of the temporary download. Every outside call is an `Env` oracle: the S3 client, the file system and the language model.
- **Task status store** (`task_store.dfy`): the `tasks` and `task_results` tables as two maps inside a `TaskDatabase` class:
  - the connection pool;
  - the conditional `queued -> processing` transition;
  - the unconditional terminal write;
  - the results upsert;
  - commit/rollback, with a failing statement or commit passed in as an argument.

  `backend/app/core/logging_config-mvp.py` is a line-for-line copy of `db/services/db_service-mvp.py`, so both are modelled once. `task_store_early.dfy` models the earlier `save_task_result` of `db/services/db_service.py`.
- **Rate limiter** (`rate_limiter.dfy`): the mock external service's sliding 60-second window.
- **Browser client**:
  - the task list's transitions (`client_tasks.dfy`);
  - the status labels and the "View Results" gate (`task_item.dfy`);
  - the details view's sections (`task_details.dfy`);
  - the 50-line log buffer (`log_stream.dfy`).
- **Cross-module run** (`pipeline_scenarios.dfy`): a descriptor the endpoint queues, fetched and processed with working oracles, runs to the end.
- **Shared modules**: `wrappers.dfy`, `json.dfy` (decoded JSON with JavaScript and Python truthiness), `strings.dfy` (ASCII lower-casing, Python `strip`, `os.path.basename`) and `descriptor.dfy` (the task descriptor both sides share).

The worker's per-step exception handler and two pieces of the client's polling do not work as written (see "## Findings"). Each is modelled twice: once as written, with a lemma that exhibits the failure, and once as evidently intended, with the intended property proved. What the worker leaves is `ExitContext`, which uses the intended handler; `Policy.AsWritten` is the written one.

The comment on the final payload lists `processing`, `completed`, `failed` and `completed_with_errors` as final statuses (backend/worker.py:275). The code never sets the last two: `overall_status` starts as `processing` and is only ever changed to `failed` (backend/worker.py:68, 110, 117, 265). The model follows the code, and `Worker.Coherent` carries "processing or failed" as an invariant.

## Model

| member | source | states |
|---|---|---|
| Worker.FetchInput | backend/worker.py:76-118 | A task is fetched only when its location has a `type` and a `key`, the type is `s3`, `oci` or `onprem`, and the path is non-empty. A missing location, type or key fails with "Missing file location in payload". An S3 location without a bucket, or with an empty one, fails with the bucket-required error and sets no path. An OCI location is always fetched to `/tmp/<id>_<basename of the key>`. An on-premises key is used in place exactly when it is non-empty and exists; otherwise it fails with the file-not-found text naming the key. |
| Worker.OutputFormat | backend/worker.py:199 | The output format defaults to `midi` and is lower-cased. A non-string format is an error (the `.lower` call raises). |
| Worker.TranslationInput | backend/worker.py:173-175 | Text of at most 3000 characters is sent unchanged. Longer text is sent as its first 3000 characters plus `...`, and the sent text never exceeds 3003 characters. |
| Worker.GenerationRecord | backend/worker.py:206-244 | Only `midi`/`mp3` can be generated; any other format records "Unsupported music output format". A success records the format, the key `results/<id>/<file>` and its `s3://` URL. |
| Worker.RunStep | backend/worker.py:130-256 | A step leaves the overall status, the log and the download path unchanged. It writes only its own key and keeps every other entry. Only a translation or generation step can raise out of the inner `try`. |
| Worker.PrintCall | backend/worker.py:262 | `print` succeeds exactly when every keyword argument is one it accepts. |
| Worker.ProcessTask | backend/worker.py:58-294 | A failed download makes the call raise the download error. Otherwise, with the step handler as intended, it returns the payload with the task id, the final status and `processed_results`. Removal of the temporary file is attempted exactly when its path is set, exists and contains `/tmp/`. |
| Worker.ExitContextFacts | backend/worker.py:67-118 | For the state `ExitContext` gives at the end of `process_task`, `task_id` and `metadata` are always recorded and the state stays coherent. A download failure records `download_error`, sets `failed` and runs no step. A "processing" result has dispatched every step; a "failed" one was stopped by a `failed_critical` step. |
| Worker.StartedRunFacts | backend/worker.py:105-266 | After a download, the run (`RunFrom`, the step loop) keeps the download record, the task id and the metadata. It ends either having dispatched every step or at a step recorded `failed_critical`. |
| Worker.RunStepKeepsCoherent | backend/worker.py:131-256 | No step breaks the dependencies between entries: text only from extracted music data, music only from it, and a translation records the text it sent. |
| Worker.RunKeepsCoherent | backend/worker.py:125-266 | The whole step loop keeps those dependencies, and keeps the status `processing` or `failed`, for any inner `try` whose steps keep them (the worker's own does, by `PassOfKeepsCoherent`). |
| Worker.RunKeepsForeignEntries | backend/worker.py:125-266 | Entries no step writes (`task_id`, `metadata`, `downloaded_file`) leave the loop unchanged, for any inner `try` that keeps them step by step. |
| Worker.RunKeepsDownloadedPath | backend/worker.py:125-266 | The loop never changes the downloaded path that the `finally` block later removes, for any inner `try` that leaves it alone. |
| Worker.PassOfKeepsCoherent | backend/worker.py:130-256 | The worker's inner `try`, taken as a function of the state, the step and its position, keeps `Coherent` for every input. |
| Worker.RunLogsStepsInOrder | backend/worker.py:125 | Steps are dispatched in list order, each at most once: the dispatched types are a prefix of the step list. |
| Worker.IntendedRunStopsOnlyAtCriticalStep | backend/worker.py:261-266 | With the intended handler, a run either dispatches every step and stays "processing", or stops right after a translation or generation step. That step is then recorded `failed_critical` and the status is "failed". |
| Worker.UnknownStepIsOnlyFlagged | backend/worker.py:253-256 | An unknown step type records only `<type>_status = skipped_unknown_type` (`None_status` for a missing type); the loop goes on. |
| Worker.BlankTextIsSkipped | backend/worker.py:159-195 | A missing or all-whitespace text records the translation as `skipped`; the result does not depend on the model or any other oracle. |
| Worker.ModelSetupFailureEscapes | backend/worker.py:167-169 | A failure while building the prompt, the model or the chain is outside the inner `try`, so the translation step escapes with that error. |
| Worker.ModelErrorIsRecorded | backend/worker.py:171-190 | In `TranslationBranch`, an error from `chain.run` is recorded as a `failed` translation with its text, and the step continues. |
| Worker.NoMusicGenerationSkipped | backend/worker.py:198-250 | Without extracted music data a generation step records `skipped`; no file is written or uploaded, whatever the oracles would do. |
| Worker.GenerationFaultIsRecorded | backend/worker.py:206-244 | A failing write, upload or removal of the generated file is recorded as `failed` with that error's text. |
| Worker.GenerationFailureContinues | backend/worker.py:200-245 | In `GenerationBranch`, a generation failure is recorded under `generated_music_file`, and the step continues instead of escaping. |
| Worker.GeneratedKeyFormat | backend/worker.py:207-225 | The uploaded result's key is `results/<id>/<id>.mid` or `.mp3`. |
| Worker.AsWrittenHandlerRaisesTypeError | backend/worker.py:261-266 | As written, a failing step makes the handler's `print(..., exc_info=True)` raise a TypeError before it records anything. Where the written handler does not raise, the two handlers agree. |
| Worker.AsWrittenTaskRaisesOnStepFailure | backend/worker.py:261-266 | Every task whose intended run ends "failed" raises that TypeError as written, instead of returning a payload. |
| Worker.BotoUnimported | backend/worker.py:87-88 | With `boto3` not imported, every S3 download fails with a NameError. |
| Worker.S3NeverWorksWithoutBoto | backend/worker.py:84-88 | As written, an S3 location is never fetched; the temporary path is set and the NameError is recorded. No generated file is ever uploaded. |
| Worker.S3FetchWithClient | backend/worker.py:84-89 | With a working client, an S3 location with a bucket is fetched to `/tmp/<id>_<basename of key>` exactly when the download succeeds; otherwise its error is recorded and raised. |
| TaskStore.FreshTask | db/services/db_service-mvp.py:257-268 | A created task starts `queued`, with nothing started, completed or failed. |
| TaskStore.MarkProcessing | db/services/db_service-mvp.py:283-297 | One row changes exactly when the task exists and is `queued`. It becomes `processing` with `started_at` set, and no other row changes. |
| TaskStore.MarkFinished | db/services/db_service-mvp.py:330-337 | The task's status, `completed_at` and `error_message` are overwritten whatever the prior status; other rows and the key set stay. |
| TaskStore.Upsert | db/services/db_service-mvp.py:342-359 | The results table gains the task's key if it was missing, holds the new row for it, and keeps every other row. |
| TaskStore.ResultRowOf | db/services/db_service-mvp.py:312-358 | The results row carries the payload's task id, its status and the save time. The status is `unknown` only for a missing key; a present `None` status is SQL NULL (`StatusOf`). The summary is stored exactly when it is present and not `None`; otherwise the column is SQL NULL. |
| TaskStore.Perform | db/services/db_service-mvp.py:197-211 | A statement raises exactly when it inserts a duplicate task id. Reads never change the tables. |
| TaskStore.TaskDatabase.constructor | db/services/db_service-mvp.py:20-43 | The store starts empty with no pool, and the database type lower-cased. |
| TaskStore.TaskDatabase.SetupPool | db/services/db_service-mvp.py:46-91 | Only a complete PostgreSQL configuration whose pool creation succeeds opens the pool; the tables are untouched. |
| TaskStore.TaskDatabase.ClosePool | db/services/db_service-mvp.py:159-185 | The pool is cleared unless PostgreSQL's `closeall` raises; the tables are untouched. |
| TaskStore.TaskDatabase.ExecuteQuery | db/services/db_service-mvp.py:191-221 | A reply comes only with a connection, and when neither the statement nor its commit raise. The tables then change as the statement says; otherwise they are rolled back unchanged. |
| TaskStore.TaskDatabase.CreateTaskEntry | db/services/db_service-mvp.py:251-273 | The call succeeds exactly for PostgreSQL with a connection, a clean transaction and a new task id; it inserts the fresh `queued` row. Otherwise nothing changes. |
| TaskStore.TaskDatabase.UpdateTaskStatusProcessing | db/services/db_service-mvp.py:277-297 | The call returns true exactly when a `queued` task was moved to `processing`. On false, including for an unknown id or a second pick-up, nothing changes. |
| TaskStore.TaskDatabase.SaveTaskResult | db/services/db_service-mvp.py:301-370 | A missing or empty task id, or a non-PostgreSQL store, returns false with no write. Otherwise the status overwrite and the results upsert are committed together, or both are rolled back and false is returned. A missing or `None` error is written as SQL NULL (`Bound`), and the results row is `ResultRowOf`. |
| TaskStore.TaskDatabase.GetTaskStatusById | db/services/db_service-mvp.py:374-396 | The lookup returns the stored task row, or None when the row is absent or there is no connection. |
| TaskStore.TaskDatabase.GetTaskResultDetails | db/services/db_service-mvp.py:400-422 | The lookup returns the stored results row, or None when the row is absent or there is no connection. |
| TaskStore.SecondPickupRejected | db/services/db_service-mvp.py:283-296 | A second pick-up of the same task, or a pick-up of an unknown task, changes no row. |
| TaskStore.FreshTaskReadsBackQueued | backend/test/integration/cross_cloud/test_db_from_aws_backend.py:104-124 | A task just inserted, with or without analysis tasks, reads back as that same row: status `queued`, nothing started or finished, and the analysis tasks as a JSON array. |
| TaskStore.UpsertLastWriteWins | db/services/db_service-mvp.py:343-351 | Saving twice for a task equals saving the second time only; the row count grows by at most one. |
| TaskStore.SavesKeepLatestRowPerTask | db/services/db_service-mvp.py:343-351 | After any sequence of saves, each task has one row holding its latest save's values, or its old row if it was never saved. |
| TaskStore.TerminalWriteOverwritesStatus | db/services/db_service-mvp.py:330-337 | The terminal write replaces a `processing` status and keeps the `started_at` the pick-up set. |
| TaskStore.PresentNullIsSqlNull | db/services/db_service-mvp.py:313-356 | A payload whose status, error and summary are present but `None` leaves SQL NULL in `status`, `error_message`, `final_status` and `detailed_results`. The status does not fall back to `unknown`. |
| EarlyTaskStore.EarlyResultRow | db/services/db_service.py:165-171 | The earlier results row takes `completed_at` from the payload. The summary is always serialised, so a missing or `None` summary is stored as JSON `null`. |
| EarlyTaskStore.SaveTaskResultEarly | db/services/db_service.py:118-186 | The connection check comes before the task-id check. The status defaults to `unknown` only for a missing key, a `None` status or error is written as SQL NULL, and `completed_at` comes from the payload in both writes, which commit together or roll back. The connection is closed exactly when the `try` is reached. |
| EarlyTaskStore.TypeSpellingMatters | db/services/db_service.py:38-72 | `PostgreSQL` spelled that way reaches the database in the later service, which lower-cases it, but not in the earlier one. |
| UploadIntake.ExtensionOfLastComponent | backend/app/api/file_mvp.py:64 | `Extension`, the model of `os.path.splitext`, works on the last path component: a name has an extension exactly when a `.` follows some other character in that component. The extension is then the end of the component from its last `.` on. |
| UploadIntake.ObjectKey | backend/app/api/file_mvp.py:75 | The storage key starts with `sheetmusic/<task id>/`. |
| UploadIntake.ObjectKeyKeepsBasename | backend/app/api/file_mvp.py:75 | After that prefix the key holds exactly the file name's base name: the key has the same base name as the file name, and its length is the prefix's plus the base name's. |
| UploadIntake.CheckUpload | backend/app/api/file_mvp.py:52-69 | A missing bucket gives 500 before the name is looked at. An empty or missing name gives 400 "No file name provided.". An extension outside the seven gives 400 "Unsupported file format: ...". Only an allowed lower-cased extension passes. |
| UploadIntake.StoreAndQueue | backend/app/api/file_mvp.py:84-156 | A descriptor is built only after a non-empty upload URL. It carries the three standard steps, a translation task iff requested, and the metadata unchanged. The response is accepted iff the queue reply says `task_sent_to_sqs`; otherwise it is 500. |
| UploadIntake.UploadSheetMusic | backend/app/api/file_mvp.py:41-156 | A failed check returns its error and queues nothing. An accepted upload returns the task id, the storage key and status `processing_queued`. Every other outcome is 400 or 500. |
| UploadIntake.UnsupportedDetailPrefix | backend/test/integration/api/test_api_gateway.py:87-105 | The unsupported-format detail starts with "Unsupported file format: ". |
| UploadIntake.MixedCaseExtension | backend/app/api/file_mvp.py:59-69 | `Score.PDF` is accepted: its lower-cased extension is `.pdf`, which is allowed. |
| UploadIntake.NoExtensionExamples | backend/app/api/file_mvp.py:59-69 | A bare `.pdf`, and a path whose only dot is in a directory name, have no extension. |
| UploadIntake.TextExtensionRejected | backend/app/api/file_mvp.py:59-69 | `lyrics.txt` has the extension `.txt`, which is not in the allowed set. |
| RateLimiter.Prune | simulation/mock_external_service.py:34-36 | Pruning keeps only timestamps newer than the cutoff and never adds any. |
| RateLimiter.PruneMembers | simulation/mock_external_service.py:36 | A timestamp survives pruning iff it was present and is newer than the cutoff. |
| RateLimiter.PruneDistributes | simulation/mock_external_service.py:36 | Pruning keeps the original order: it distributes over concatenation. |
| RateLimiter.PruneIdempotent | simulation/mock_external_service.py:34-36 | Pruning twice at the same cutoff is pruning once. |
| RateLimiter.PruneSorted | simulation/mock_external_service.py:36 | An oldest-first list stays oldest-first after pruning, and keeps only its own elements. |
| RateLimiter.PruneLaterCutoff | simulation/mock_external_service.py:34-36 | Pruning at a later cutoff absorbs an earlier pruning. |
| RateLimiter.Limiter.constructor | simulation/mock_external_service.py:21-25 | The limiter starts with the configured switch and limit and no timestamps. |
| RateLimiter.Limiter.CheckRateLimit | simulation/mock_external_service.py:28-43 | Disabled, the call allows and leaves the list alone. Enabled, it allows iff the pruned window holds fewer than the limit. An allowed call appends `now` to the pruned window; a refused one keeps only the pruned window. A window within the limit stays within it. |
| RateLimiter.WindowStaysRecentAndBounded | simulation/mock_external_service.py:32-43 | With a clock that does not go back, the window holds only timestamps of the last 60 seconds, oldest first, and stays within the limit. |
| RateLimiter.StepKeepsRecentAccepted | simulation/mock_external_service.py:34-43 | One enabled call (`Step`) keeps the window equal to the accepted requests of the last 60 seconds, and within the limit. |
| RateLimiter.ReplayKeepsRecentAccepted | simulation/mock_external_service.py:28-43 | From a window that holds exactly the accepted requests of the last 60 seconds, any later series of calls in time order keeps that, and keeps the window within the limit. |
| RateLimiter.ReplayWindowIsRecentAccepted | simulation/mock_external_service.py:28-43 | After any series of calls in time order, the window is exactly the last 60 seconds of accepted requests. So no 60-second window ending at a call holds more accepted requests than the limit. |
| LogStream.Last | frontend/LogStream.jsx:10 | `slice(-n)` yields the last `min(length, n)` elements, in order. |
| LogStream.AppendLog | frontend/LogStream.jsx:10 | After a message the buffer has `min(old + 1, 50)` lines, ends with the message, and is otherwise the newest old lines in order. |
| LogStream.BufferStaysBounded | frontend/LogStream.jsx:10 | A buffer that starts within 50 entries never exceeds 50. |
| LogStream.BufferIsNewestFifty | frontend/LogStream.jsx:10 | After at least one message the buffer is exactly the newest 50 lines of everything seen. |
| LogStream.LastOfAppend | frontend/LogStream.jsx:10 | Appending to the newest 49 gives the newest 50 of the extended log. |
| ClientTasks.Conclude | frontend/src/App.jsx:67-85 | The upload's outcome changes only the uploading task. |
| ClientTasks.UploadAlert | frontend/src/App.jsx:67-85 | An alert is raised exactly when the reply has no truthy `task_id` or the call threw. |
| ClientTasks.ProgressOverrides | frontend/src/App.jsx:60-62 | A later progress callback (`SetProgress`, applied by `UpdateById` to the task with that id) overrides an earlier one. |
| ClientTasks.LatestProgressWins | frontend/src/App.jsx:56-63 | However many callbacks arrive, only the last one's progress shows. |
| ClientTasks.ProgressKeepsOthers | frontend/src/App.jsx:60-62 | Progress callbacks change nothing but the matching task's progress. |
| ClientTasks.UploadAppendsOneTask | frontend/src/App.jsx:39-85 | An upload appends exactly one task at the end and leaves earlier tasks unchanged. Accepted: it gets the backend id, the status (or `queued`) and progress 100. Otherwise: `failed` with the message (default "Upload failed"), and it keeps its progress. |
| ClientTasks.ActiveTasks | frontend/src/App.jsx:99-101 | A task is polled iff its backend id is truthy and its status is `queued` or `processing`; the intended reading adds `processing_queued`. |
| ClientTasks.ApplyPoll | frontend/src/App.jsx:104-131 | A poll keeps the list's length and ids and changes only the polled task. |
| ClientTasks.RejectedPollIsPollingError | frontend/src/App.jsx:125-130 | A rejected status call marks the polled task `polling_error` with the error's message, or "Polling failed" without one, and changes no other task. |
| ClientTasks.StatuslessReplyChangesNothing | frontend/src/App.jsx:107 | A status reply without a truthy `status` leaves the whole list unchanged. |
| ClientTasks.IntendedFailedPollStoresStatus | frontend/src/App.jsx:107-113 | As intended, a `failed` reply stores the status and the reply, and fetches no detailed result. |
| ClientTasks.IntendedRejectedDetailIsPollingError | frontend/src/App.jsx:116-130 | As intended, a `completed` reply whose detail call is rejected ends as `polling_error` with that call's message. |
| ClientTasks.PollAll | frontend/src/App.jsx:103-132 | A polling round keeps the list's length and each position's id. |
| ClientTasks.PollLeavesUnselectedTasks | frontend/src/App.jsx:103-132 | A polling round changes no task whose id no selected task shares. |
| ClientTasks.PollRecordsReportedStatus | frontend/src/App.jsx:107-111 | A truthy status other than completed/failed is stored with the reply as the result, under either reading. |
| ClientTasks.AsWrittenFinishedPollIsPollingError | frontend/src/App.jsx:113-130 | As written, a `completed` or `failed` reply ends as `polling_error` "logger is not defined", and the detailed result is never fetched. |
| ClientTasks.IntendedCompletedPollStoresResult | frontend/src/App.jsx:113-122 | As intended, a `completed` reply stores the status and then the fetched detailed result. |
| ClientTasks.AsWrittenAcceptedUploadIsNeverPolled | frontend/src/App.jsx:99-101 | A task the backend accepted shows `processing_queued`. As written, no polling round selects or changes it. |
| ClientTasks.IntendedAcceptedUploadIsPolled | frontend/src/App.jsx:99-101 | As intended, that task is selected for the next polling round. |
| ClientTasks.FindTask | frontend/src/App.jsx:153 | The lookup finds a task iff one has the selected id, and returns the first such task. |
| ClientTasks.App.constructor | frontend/src/App.jsx:12-16 | The client starts with no tasks, file, progress, loading flag or selection. |
| ClientTasks.App.SelectFile | frontend/src/App.jsx:20-24 | Selecting a file stores it and resets the progress; nothing else changes. |
| ClientTasks.App.HandleUpload | frontend/src/App.jsx:27-91 | With no file it alerts and changes nothing. Otherwise the list is the upload's result and the alert matches the outcome. Afterwards no file is selected, progress is 0 and loading is off. |
| ClientTasks.App.Poll | frontend/src/App.jsx:98-132 | One tick applies each selected task's replies in filter order and changes nothing else. |
| ClientTasks.App.ViewResults | frontend/src/App.jsx:144-146 | Viewing results selects the task id and changes nothing else. |
| ClientTasks.App.CloseDetails | frontend/src/App.jsx:148-150 | Closing clears the selection, so no details view is shown; nothing else changes. |
| TaskItem.ViewResultsClick | frontend/src/components/TaskItem.jsx:29-33 | `onViewResults` is called, with the task's own id, exactly for a task whose label reads `Completed` or `Completed with Errors`. |
| TaskItem.LabelInitial | frontend/src/components/TaskItem.jsx:7-27 | In `StatusDisplay`, the model of `getStatusDisplay`, every status has a non-empty label, and its first letter is fixed per status whatever the progress or error. |
| TaskItem.QueuedLabelIff | frontend/src/components/TaskItem.jsx:11-13 | `Queued` shows exactly for `queued` and `processing_queued`. |
| TaskItem.UnknownStatusIff | frontend/src/components/TaskItem.jsx:24-25 | `Unknown Status` shows exactly for the statuses no case handles. |
| TaskItem.UploadingLabelShowsProgress | frontend/src/components/TaskItem.jsx:9-10 | The uploading label is `Uploading... (` then the progress in decimal, then `%)`. |
| TaskItem.FailureLabelsShowError | frontend/src/components/TaskItem.jsx:20-23 | `failed` and `polling_error` show their prefix and the error, or `Unknown Error`. |
| TaskItem.ViewResultsIffCompletedLabel | frontend/src/components/TaskItem.jsx:41-43 | The button shows exactly for the tasks labelled `Completed` or `Completed with Errors`. |
| TaskDetails.LoadingIffNoResult | frontend/src/components/TaskDetails.jsx:9-19 | In `Details`, the model of the component's render, only the loading view shows, exactly when there is no task or its result is falsy. |
| TaskDetails.NoDetailedResultsNoSections | frontend/src/components/TaskDetails.jsx:23-26 | Without `detailed_results` no translation, music or analysis section appears. |
| TaskDetails.MusicSectionChoice | frontend/src/components/TaskDetails.jsx:24-57 | The music section shows iff `s3_key` or `url` is truthy, using `s3_key` first. The audio player appears exactly for an `http` location. |
| TaskDetails.NonStringLocationFailsRender | frontend/src/components/TaskDetails.jsx:53 | A truthy location that is not a string makes the render throw at `startsWith`. |
| TaskDetails.TranslationShownIff | frontend/src/components/TaskDetails.jsx:37-43 | The translation section shows exactly when `shakespearean_translation.translated` is truthy, and shows that value. |
| TaskDetails.ErrorSectionsIff | frontend/src/components/TaskDetails.jsx:72-84 | The error box needs `failed` and a non-empty error and shows it. `completed_with_errors` always warns, with "Task completed with some errors." when there is no error text. |
| TaskDetails.StoredKeyHasNoPlayer | frontend/src/components/TaskDetails.jsx:53-57 | A stored `results/...` key shows as the location without an audio player. |
| PipelineScenarios.IntakeKeyDownloadPath | backend/worker.py:86 | The worker downloads the endpoint's key to `/tmp/<id>_<basename of the uploaded name>`. |
| PipelineScenarios.QueuedDescriptorIsFetched | backend/app/api/file_mvp.py:96-123 | A queued descriptor is fetched from S3 and runs the intake's steps, with its task id and the default model. |
| PipelineScenarios.MockTextIsSentWhole | backend/worker.py:149-175 | The placeholder text is non-blank and is sent to the model whole. |
| PipelineScenarios.MusicExtractionSucceeds | backend/worker.py:131-139 | A downloaded score yields the music data. |
| PipelineScenarios.TextExtractionSucceeds | backend/worker.py:144-152 | Extracted music data yields the placeholder text and its length. |
| PipelineScenarios.MidiGenerationSucceeds | backend/worker.py:198-244 | With working oracles a MIDI file is generated and recorded under `results/<id>/<id>.mid`. |
| PipelineScenarios.TranslationSucceeds | backend/worker.py:157-185 | With a working model the translation records the sent text and the stripped answer. |
| PipelineScenarios.StandardStepsRun | backend/worker.py:125-250 | The three standard steps run to completion on a downloaded score. |
| PipelineScenarios.QueuedMidiTaskRunsToTheEnd | backend/worker.py:125-285 | An accepted MIDI upload, fetched and processed with working oracles, dispatches its steps in order, translating iff asked. It records the music and text extraction and the uploaded `results/<id>/<id>.mid`, and stays `processing`. |
| Strings.Basename | backend/worker.py:86 | `os.path.basename` is a suffix of the path with no `/` in it. |
| Strings.BasenameFollowsSlash | backend/worker.py:86 | The base name is the whole path exactly when the path has no `/`; otherwise the character before it is `/`, so it is everything after the last `/`. |
| Strings.StripEmptyIffAllSpace | backend/worker.py:159 | A text strips to empty exactly when it is all whitespace. |
| Strings.LowerIsIdempotent | backend/app/api/file_mvp.py:64 | A lower-cased text has no upper-case ASCII letter, and lower-casing it again changes nothing. |

## Left out

- Real processing: OMR, PDF text extraction, the LangChain/OpenAI call, MIDI/MP3 writing and the S3/OCI SDKs are oracles. The mock music data and the mock text (backend/worker.py:136, 149) are constants.
- Import and module-level failures:
  - `backend/worker.py:10` imports `download_file_from_s3`, which `s3_service.py` does not define, so loading the module fails. The model treats the module as loaded.
  - `backend/app/api/file_mvp.py:15` imports a function that `aws_spot.py` does not define, and `aws_spot.py` replies with another status string. The queue call is an oracle, so these are not modelled.
  - `simulation/mock_external_service.py:17` uses `os` without importing it. The limiter is modelled as if the module loaded.
- Clock, randomness and floats:
  - `time.time()` and `datetime.utcnow()` appear as integer or string arguments;
  - `processing_time_seconds` is passed through unchecked;
  - the `toFixed(2)` display is not modelled;
  - the client's `Date.now()`/`Math.random()` id is an argument;
  - rate-limiter timestamps are whole seconds.
- UploadIntake.UploadSheetMusic: the uuid `task_id` and the `uploaded_at` timestamp are inputs, and the logging `print`s are left out.
- The connection pool's mechanics are left out:
  - `min_conn`/`max_conn`;
  - `getconn`/`putconn`/`release_db_connection`;
  - cursors and the JSON (de)serialisation of JSONB columns.

  A failing `getconn`, statement or commit is an argument: `getconnFails` or `TxFault`.
- `create_file_entry` (db/services/db_service-mvp.py:225-247) is left out, and so is the `files` table it writes. The `tasks` table has a foreign key to `files` (backend/test/integration/cross_cloud/test_db_from_aws_backend.py:90), so `create_task_entry` fails for a `file_id` with no `files` row. The model does not track `files`: that failure is one of the statement failures the `TxFault` argument stands for.
- TaskStore.TaskDatabase.CreateTaskEntry: the `tasks` schema (`db/init.sql`) is not part of this model. A duplicate `task_id` is taken to be a primary-key violation, and `status` takes the default `queued` that the integration test reads back. A `file_id` with no `files` row violates the foreign key; this is not derived from the tables, and a `StatementFails` fault stands for it.
- The earlier `get_db_connection` returns a mock connection whose statements do nothing. `EarlyTaskStore.SaveTaskResultEarly` models what its SQL says the statements do.
- Worker payload fields that are not strings are not modelled: a step `type`, a task id or a key that is `null` or a number. Optional string fields stand for them. `PyTypeName` guesses `int` for a whole-number JSON number. A `null` `processing_steps` or `analysis_tasks`, or a step that is not an object, raises outside the inner `try` (backend/worker.py:125-126). The model has no such values.
- The "path not set" check at backend/worker.py:104 has no branch in `FetchInput`. It can never fire: an S3 or OCI path always holds `/tmp/`, and an empty on-premises key already failed `os.path.exists`, which is false for the empty path.
- Worker.ProcessTask: it runs the step handler as intended. The handler as written raises on every step failure, and `AsWrittenTaskRaisesOnStepFailure` covers that. A failing `os.remove` of the temporary file is not modelled (backend/worker.py:289-294): the error is caught and printed, so only the attempt is recorded.
- Lower-casing is ASCII only; Python's and JavaScript's Unicode case mapping is not modelled.
- Browser plumbing:
  - the EventSource/SSE stream, `useEffect`, and the 5-second `setInterval`;
  - `apiService` and its HTTP handling;
  - React rendering beyond the section choices: a non-text translation or summary value, and the spinner.
- ClientTasks.App.HandleUpload: every progress callback is taken to arrive before the reply. The asynchronous interleaving of `setTasks` updates is not modelled.
- ClientTasks.App.Poll: the per-task async callbacks are applied one after another in filter order. Interleavings between them, and with a new interval, are not modelled.
- ClientTasks.ClientTask: `error` holds a string or nothing, because the client only ever stores strings there.
- No queue-consuming worker loop, acknowledgement or retry exists in the code (backend/worker.py:302-316 is commented out), so none is modelled.

## Findings

| source | as written | input that shows it | evidently intended | confidence | as-written member | corrected member |
|---|---|---|---|---|---|---|
| backend/worker.py:262 | The step-failure handler calls `print(..., exc_info=True)`. `print` accepts no `exc_info` keyword, so the handler raises a TypeError before recording `failed_critical` or setting `failed`; `process_task` raises instead of returning. | A translation step whose model setup raises, or a `generate_music_file` step with `output_format: 5` | Record `<type>_status = failed_critical`, set `failed`, skip the remaining steps and return the payload | high (not executed) | Worker.AsWrittenTaskRaisesOnStepFailure | Worker.IntendedRunStopsOnlyAtCriticalStep |
| frontend/src/App.jsx:99-101 | Polling selects only `queued` and `processing`. The upload endpoint answers `processing_queued` (backend/app/api/file_mvp.py:142), which the client stores as the task's status, so an accepted upload is never polled. | An upload answered with `{"task_id": "t1", "status": "processing_queued"}` | Poll a task the backend reports as queued | high (not executed) | ClientTasks.AsWrittenAcceptedUploadIsNeverPolled | ClientTasks.IntendedAcceptedUploadIsPolled |
| frontend/src/App.jsx:114 | `logger` is not declared in this file. A `completed` or `failed` status reply throws a ReferenceError into the catch branch, so the task ends as `polling_error` and `getTaskResult` is never called. The client's own test expects that call (frontend/tests/__tests__/App.test.js:192-196). | A status reply `{"status": "completed"}` | Store the status and then the fetched detailed result | high (not executed) | ClientTasks.AsWrittenFinishedPollIsPollingError | ClientTasks.IntendedCompletedPollStoresResult |
| backend/worker.py:87 | `boto3` is used but never imported, so every S3 download (and every result upload, line 228) raises a NameError. | Any descriptor with `file_location.type == "s3"` and a bucket | Download with an S3 client | high (not executed) | Worker.S3NeverWorksWithoutBoto | Worker.S3FetchWithClient |
