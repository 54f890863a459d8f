/**
 * The worker's `process_task`: fetch the score named by the task descriptor,
 * run every processing step and analysis task in order, and return the
 * final result payload, recording one entry per step in `processed_results`.
 *
 * Everything the worker asks of the outside world (the S3 client, the file
 * system, the language model) is an oracle of `Env`; the oracles used by a
 * step receive that step's position, so two calls need not agree.
 */
module Worker {
  import opened Wrappers
  import opened Json
  import opened Strings
  import opened Descriptor

  // ---------------------------------------------------------------------
  // Data model
  // ---------------------------------------------------------------------

  /** One value of `processed_results`. */
  datatype Entry =
    | Text(s: string)                                   // task_id, download_error, "<type>_status" flags
    | Metadata(fields: map<string, Json>)               // the descriptor's metadata, copied through
    | DownloadedFile(path: string, fileType: string)    // {"path", "type"}
    | MusicExtracted                                    // {"status": "success"}
    | TextExtracted(length: nat)                        // {"status": "success", "extracted_text_length"}
    | Translated(original: string, translated: string)  // {"status": "success", "original", "translated"}
    | TranslationFailed(error: string)                  // {"status": "failed", "error"}
    | TranslationSkipped                                // {"status": "skipped", "message": "No text found for translation"}
    | MusicGenerated(format: string, s3Key: string, s3Url: string)
    | GenerationFailed(error: string)                   // {"status": "failed", "error"}
    | GenerationSkipped                                 // {"status": "skipped", "message": "Music data not available"}

  /** The outside world, as seen by one run of the worker. */
  datatype Env = Env(
    s3Download: (string, string, string) -> Outcome,   // bucket, key, destination
    pathExists: string -> bool,                        // os.path.exists during the download stage
    llmSetup: (nat, string) -> Outcome,                // building prompt, ChatOpenAI(model) and the chain
    llmRun: (nat, string) -> Result<string>,           // chain.run(original_text)
    writeOutput: (nat, string) -> Outcome,             // writing the generated file
    existsAfterWrite: (nat, string) -> bool,           // os.path.exists on the generated file
    uploadResult: (nat, string, Option<string>, string) -> Outcome,  // path, bucket, key
    removeOutput: (nat, string) -> Outcome,            // os.remove on the generated file
    existsAtCleanup: string -> bool)                   // os.path.exists in the finally block

  /** What the steps of one task share. */
  datatype Job = Job(taskId: string, model: string, bucket: Option<string>, env: Env)

  /**
   * The worker's local state between steps: `processed_results`,
   * `overall_status`, the downloaded path, whether the music representation
   * is set, the extracted text, and the step types dispatched so far.
   */
  datatype Ctx = Ctx(
    results: map<string, Entry>,
    status: string,
    downloadedPath: Option<string>,
    hasMusic: bool,
    text: Option<string>,
    logged: seq<Option<string>>)

  datatype StepResult = Continue(ctx: Ctx) | Escaped(error: string)
  datatype RunResult = Finished(ctx: Ctx) | Aborted(ctx: Ctx, error: string)

  /** How the per-step exception handler behaves: as the code is written, or as intended. */
  datatype Policy = AsWritten | Intended

  /** The outcome of the download stage. */
  datatype Fetch =
    | Fetched(path: string, fileType: string)
    | FetchFailed(partial: Option<string>, recorded: string, raised: string)

  /** The returned `final_result_payload`. */
  datatype FinalPayload = FinalPayload(taskId: string, status: string, processingTimeSeconds: real, resultsSummary: map<string, Entry>)

  datatype TaskOutcome = Returned(payload: FinalPayload) | Raised(error: string)

  // ---------------------------------------------------------------------
  // Constants and small helpers
  // ---------------------------------------------------------------------

  const DefaultTaskId := "unknown-task"
  const DefaultModel := "gpt-3.5-turbo"
  const MusicKey := "music_data_extraction"
  const TextKey := "text_extraction"
  const TranslationKey := "shakespearean_translation"
  const GeneratedKey := "generated_music_file"
  /** The text the mock text extraction produces. */
  const MockText := "Extracted lyrics here. Andante con moto."
  const TranslationLimit := 3000

  const MissingLocation := "Missing file location in payload"
  const MissingLocationRaised := "Missing file location"
  const BucketRequired := "S3 파일 위치는 버킷 이름이 필요합니다."
  const UnsupportedFormat := "Unsupported music output format"

  function TaskIdOf(p: TaskPayload): string {
    if p.taskId.Some? then p.taskId.value else DefaultTaskId
  }

  function MetadataOf(p: TaskPayload): map<string, Json> {
    if p.metadata.Some? then p.metadata.value else map[]
  }

  function ModelOf(p: TaskPayload): string {
    if p.model.Some? then p.model.value else DefaultModel
  }

  /** `processing_steps + analysis_tasks`, each defaulting to the empty list. */
  function AllSteps(p: TaskPayload): seq<Step> {
    (if p.processingSteps.Some? then p.processingSteps.value else [])
      + (if p.analysisTasks.Some? then p.analysisTasks.value else [])
  }

  /** Python's rendering of an optional string inside an f-string. */
  function Render(s: Option<string>): string {
    if s.Some? then s.value else "None"
  }

  /** The key `f"{step_type}_status"`. */
  function StepKey(kind: Option<string>): (k: string)
    ensures EndsWithStatus(k)
  {
    var k := Render(kind) + "_status";
    assert k[|k| - 7..] == "_status";
    k
  }

  predicate EndsWithStatus(k: string) {
    |k| >= 7 && k[|k| - 7..] == "_status"
  }

  /** The keys a step may write besides its `_status` flag. */
  predicate IsOwnKey(k: string) {
    k == MusicKey || k == TextKey || k == TranslationKey || k == GeneratedKey
  }

  /** A key no step and no step-failure handler ever writes. */
  predicate Foreign(k: string) {
    !IsOwnKey(k) && !EndsWithStatus(k)
  }

  function OwnKey(step: Step): string {
    if step.stepType == Some("extract_music_data") then MusicKey
    else if step.stepType == Some("extract_text_from_score") then TextKey
    else if step.stepType == Some("translate_to_shakespearean") then TranslationKey
    else if step.stepType == Some("generate_music_file") then GeneratedKey
    else StepKey(step.stepType)
  }

  function TempPath(taskId: string, key: string): string {
    "/tmp/" + taskId + "_" + Basename(key)
  }

  function OutputPath(taskId: string, format: string): string {
    "/tmp/" + taskId + (if format == "midi" then ".mid" else ".mp3")
  }

  function ResultKey(taskId: string, path: string): string {
    "results/" + taskId + "/" + Basename(path)
  }

  function S3Url(bucket: Option<string>, key: string): string {
    "s3://" + Render(bucket) + "/" + key
  }

  /** The Python type name of a JSON value, as an AttributeError message names it. */
  function PyTypeName(v: Json): string {
    match v
    case JNull => "NoneType"
    case JBool(_) => "bool"
    case JNum(n) => if n.Floor as real == n then "int" else "float"
    case JStr(_) => "str"
    case JArr(_) => "list"
    case JObj(_) => "dict"
  }

  /** `step.get("output_format", "midi").lower()`. */
  function OutputFormat(step: Step): (r: Result<string>)
    ensures step.outputFormat.None? ==> r == Ok("midi")
    ensures r.Ok? <==> (step.outputFormat.None? || step.outputFormat.value.JStr?)
    ensures r.Ok? && step.outputFormat.Some? ==> r.value == Lower(step.outputFormat.value.s)
  {
    match step.outputFormat
    case None => Ok("midi")
    case Some(JStr(s)) => Ok(Lower(s))
    case Some(v) => Err("'" + PyTypeName(v) + "' object has no attribute 'lower'")
  }

  /** The text sent to the model: cut to 3000 characters plus an ellipsis when longer. */
  function TranslationInput(t: string): (sent: string)
    ensures |sent| <= TranslationLimit + 3
    ensures |t| <= TranslationLimit ==> sent == t
    ensures |t| > TranslationLimit ==> |sent| == TranslationLimit + 3 && sent[..TranslationLimit] == t[..TranslationLimit] && sent[TranslationLimit..] == "..."
  {
    if |t| > TranslationLimit then t[..TranslationLimit] + "..." else t
  }

  // ---------------------------------------------------------------------
  // Download stage
  // ---------------------------------------------------------------------

  /** The `FileNotFoundError` text for an on-premises path that does not exist. */
  function OnPremNotFound(key: string): string {
    "온프레미스 파일 찾을 수 없음: " + key
  }

  /**
   * The download stage, `file_location` handling included. An on-premises
   * key is checked with `os.path.exists`, which is false for the empty path,
   * so the later "path not set" check can never fire: every branch that
   * gets past its own checks has set a non-empty path.
   */
  function FetchInput(p: TaskPayload, env: Env): (f: Fetch)
    ensures f.Fetched? ==>
      f.path != "" && p.fileLocation.Some? && p.fileLocation.value.locType == Some(f.fileType)
      && f.fileType in {"s3", "oci", "onprem"}
    ensures (p.fileLocation.None? || p.fileLocation.value.locType.None? || p.fileLocation.value.key.None?)
      ==> f == FetchFailed(None, MissingLocation, MissingLocationRaised)
    ensures p.fileLocation.Some? && p.fileLocation.value.locType == Some("s3") && p.fileLocation.value.key.Some?
      && (p.fileLocation.value.bucket.None? || p.fileLocation.value.bucket.value == "")
      ==> f == FetchFailed(None, BucketRequired, BucketRequired)
    ensures p.fileLocation.Some? && p.fileLocation.value.locType == Some("oci") && p.fileLocation.value.key.Some?
      ==> f == Fetched(TempPath(TaskIdOf(p), p.fileLocation.value.key.value), "oci")
    ensures p.fileLocation.Some? && p.fileLocation.value.locType == Some("onprem") && p.fileLocation.value.key.Some?
      ==> var key := p.fileLocation.value.key.value;
          (f.Fetched? <==> key != "" && env.pathExists(key))
          && (f.Fetched? ==> f == Fetched(key, "onprem"))
          && (!f.Fetched? ==> f == FetchFailed(Some(key), OnPremNotFound(key), OnPremNotFound(key)))
  {
    var taskId := TaskIdOf(p);
    match p.fileLocation
    case None => FetchFailed(None, MissingLocation, MissingLocationRaised)
    case Some(loc) =>
      if loc.locType.None? || loc.key.None? then FetchFailed(None, MissingLocation, MissingLocationRaised)
      else
        var t := loc.locType.value;
        var key := loc.key.value;
        if t == "s3" then
          if loc.bucket.None? || loc.bucket.value == "" then FetchFailed(None, BucketRequired, BucketRequired)
          else
            var path := TempPath(taskId, key);
            match env.s3Download(loc.bucket.value, key, path)
            case Fail(e) => FetchFailed(Some(path), e, e)
            case Pass => Fetched(path, t)
        else if t == "oci" then
          Fetched(TempPath(taskId, key), t)
        else if t == "onprem" then
          if key == "" || !env.pathExists(key) then FetchFailed(Some(key), OnPremNotFound(key), OnPremNotFound(key))
          else Fetched(key, t)
        else
          var unsupported := "워커: 지원하지 않는 파일 위치 타입: " + t;
          FetchFailed(None, unsupported, unsupported)
  }

  // ---------------------------------------------------------------------
  // Steps
  // ---------------------------------------------------------------------

  /** The record a `generate_music_file` step leaves, if any, once the music data is available. */
  function GenerationRecord(format: string, i: nat, job: Job): (r: Option<Entry>)
    ensures r.Some? ==> r.value.MusicGenerated? || r.value.GenerationFailed?
    ensures format != "midi" && format != "mp3" ==> r == Some(GenerationFailed(UnsupportedFormat))
    ensures r.Some? && r.value.MusicGenerated? ==>
      r.value.format == format && r.value.s3Key == ResultKey(job.taskId, OutputPath(job.taskId, format))
      && r.value.s3Url == S3Url(job.bucket, r.value.s3Key)
  {
    if format != "midi" && format != "mp3" then Some(GenerationFailed(UnsupportedFormat))
    else
      var path := OutputPath(job.taskId, format);
      match job.env.writeOutput(i, path)
      case Fail(e) => Some(GenerationFailed(e))
      case Pass =>
        if !job.env.existsAfterWrite(i, path) then None
        else
          var key := ResultKey(job.taskId, path);
          match job.env.uploadResult(i, path, job.bucket, key)
          case Fail(e) => Some(GenerationFailed(e))
          case Pass =>
            match job.env.removeOutput(i, path)
            case Fail(e) => Some(GenerationFailed(e))
            case Pass => Some(MusicGenerated(format, key, S3Url(job.bucket, key)))
  }

  /** The `translate_to_shakespearean` branch of the inner `try`. */
  function TranslationBranch(c: Ctx, i: nat, job: Job): (r: StepResult)
    ensures r.Continue? ==> r.ctx == c.(results := r.ctx.results)
    ensures r.Continue? ==> r.ctx.results.Keys == c.results.Keys + {TranslationKey}
    ensures r.Continue? ==> forall k :: k in c.results && k != TranslationKey ==> r.ctx.results[k] == c.results[k]
  {
    if c.text.Some? && c.text.value != "" && Strip(c.text.value) != "" then
      match job.env.llmSetup(i, job.model)
      case Fail(e) => Escaped(e)
      case Pass =>
        var sent := TranslationInput(c.text.value);
        match job.env.llmRun(i, sent)
        case Err(e) => Continue(c.(results := c.results[TranslationKey := TranslationFailed(e)]))
        case Ok(out) => Continue(c.(results := c.results[TranslationKey := Translated(sent, Strip(out))]))
    else Continue(c.(results := c.results[TranslationKey := TranslationSkipped]))
  }

  /** The `generate_music_file` branch of the inner `try`. */
  function GenerationBranch(c: Ctx, step: Step, i: nat, job: Job): (r: StepResult)
    ensures r.Continue? ==> r.ctx == c.(results := r.ctx.results)
    ensures r.Continue? ==> r.ctx.results.Keys <= c.results.Keys + {GeneratedKey}
    ensures r.Continue? ==> forall k :: k in c.results && k != GeneratedKey ==> k in r.ctx.results && r.ctx.results[k] == c.results[k]
  {
    match OutputFormat(step)
    case Err(e) => Escaped(e)
    case Ok(format) =>
      if MusicKey in c.results && c.hasMusic then
        match GenerationRecord(format, i, job)
        case None => Continue(c)
        case Some(entry) => Continue(c.(results := c.results[GeneratedKey := entry]))
      else Continue(c.(results := c.results[GeneratedKey := GenerationSkipped]))
  }

  /** One pass of the loop body's inner `try`, for the step at position `i`. */
  function RunStep(c: Ctx, step: Step, i: nat, job: Job): (r: StepResult)
    ensures r.Continue? ==>
      r.ctx.status == c.status && r.ctx.logged == c.logged && r.ctx.downloadedPath == c.downloadedPath
    ensures r.Continue? ==> r.ctx.results.Keys <= c.results.Keys + {OwnKey(step)}
    ensures r.Continue? ==> forall k :: k in c.results && k != OwnKey(step) ==> k in r.ctx.results && r.ctx.results[k] == c.results[k]
    ensures r.Escaped? ==> CriticalKind(step.stepType)
  {
    var kind := step.stepType;
    if kind == Some("extract_music_data") then
      if c.downloadedPath.Some? && c.downloadedPath.value != "" then
        Continue(c.(hasMusic := true, results := c.results[MusicKey := MusicExtracted]))
      else Continue(c)
    else if kind == Some("extract_text_from_score") then
      if MusicKey in c.results && c.hasMusic then
        Continue(c.(text := Some(MockText), results := c.results[TextKey := TextExtracted(|MockText|)]))
      else Continue(c)
    else if kind == Some("translate_to_shakespearean") then
      TranslationBranch(c, i, job)
    else if kind == Some("generate_music_file") then
      GenerationBranch(c, step, i, job)
    else
      Continue(c.(results := c.results[StepKey(kind) := Text("skipped_unknown_type")]))
  }

  /** The keyword arguments Python's `print` accepts. */
  const PrintKeywords: set<string> := {"sep", "end", "file", "flush"}

  function InvalidKeyword(k: string): string {
    "'" + k + "' is an invalid keyword argument for print()"
  }

  /** Calling `print` with the given keyword arguments: a TypeError for the first one it does not accept. */
  function PrintCall(keywords: seq<string>): (r: Outcome)
    ensures r.Pass? <==> forall k :: k in keywords ==> k in PrintKeywords
  {
    if |keywords| == 0 then Pass
    else if keywords[0] !in PrintKeywords then Fail(InvalidKeyword(keywords[0]))
    else PrintCall(keywords[1..])
  }

  /** The state the step-failure handler leaves: a `failed_critical` flag and status "failed". */
  function CriticalRecorded(c: Ctx, kind: Option<string>): Ctx {
    c.(results := c.results[StepKey(kind) := Text("failed_critical")], status := "failed")
  }

  /** The outer `except` of the step loop, after which the loop breaks. */
  function HandleEscape(policy: Policy, c: Ctx, kind: Option<string>): RunResult {
    match policy
    case Intended => Finished(CriticalRecorded(c, kind))
    case AsWritten =>
      match PrintCall(["exc_info"])
      case Fail(e) => Aborted(c, e)
      case Pass => Finished(CriticalRecorded(c, kind))
  }

  /** The inner `try` of the loop body, as a function of the state, the step and its position. */
  type Pass = (Ctx, Step, nat) -> StepResult

  /** The inner `try` of the worker for a given job. */
  function PassOf(job: Job): Pass {
    (c: Ctx, step: Step, i: nat) => RunStep(c, step, i, job)
  }

  /**
   * The step loop from position `i` on, for any inner `try` `pass`: log the
   * step type, run the pass, and hand an escaped failure to the handler.
   */
  function Loop(pass: Pass, c: Ctx, steps: seq<Step>, i: nat, policy: Policy): RunResult
    requires i <= |steps|
    decreases |steps| - i
  {
    if i == |steps| then Finished(c)
    else
      var c1 := c.(logged := c.logged + [steps[i].stepType]);
      match pass(c1, steps[i], i)
      case Continue(c2) => Loop(pass, c2, steps, i + 1, policy)
      case Escaped(_) => HandleEscape(policy, c1, steps[i].stepType)
  }

  /** The worker's step loop from position `i` on. */
  function RunFrom(c: Ctx, steps: seq<Step>, i: nat, job: Job, policy: Policy): RunResult
    requires i <= |steps|
  {
    Loop(PassOf(job), c, steps, i, policy)
  }


  // ---------------------------------------------------------------------
  // The whole task
  // ---------------------------------------------------------------------

  function Initial(p: TaskPayload): Ctx {
    Ctx(map["task_id" := Text(TaskIdOf(p)), "metadata" := Metadata(MetadataOf(p))], "processing", None, false, None, [])
  }

  function JobOf(p: TaskPayload, config: StorageConfig, env: Env): Job {
    Job(TaskIdOf(p), ModelOf(p), config.bucketName, env)
  }

  /** The state right after a successful download. */
  function Started(p: TaskPayload, path: string, fileType: string): Ctx {
    var c := Initial(p);
    c.(results := c.results["downloaded_file" := DownloadedFile(path, fileType)], downloadedPath := Some(path))
  }

  /** The worker's local state when `process_task` leaves its outer `try`. */
  function ExitContext(p: TaskPayload, config: StorageConfig, env: Env): Ctx {
    match FetchInput(p, env)
    case FetchFailed(path, recorded, _) =>
      var c := Initial(p);
      c.(results := c.results["download_error" := Text(recorded)], status := "failed", downloadedPath := path)
    case Fetched(path, t) =>
      RunFrom(Started(p, path, t), AllSteps(p), 0, JobOf(p, config, env), Intended).ctx
  }

  /** Whether the `finally` block attempts to remove the temporary download. */
  predicate CleansUp(path: Option<string>, env: Env) {
    path.Some? && path.value != "" && env.existsAtCleanup(path.value) && Contains(path.value, "/tmp/")
  }

  /**
   * `process_task`: returns the final payload, or raises when the download
   * stage fails. `exit` is the local state at the end of the outer `try`,
   * and `removalAttempted` says whether the `finally` block attempts to remove the download.
   */
  method ProcessTask(p: TaskPayload, config: StorageConfig, env: Env, elapsed: real)
    returns (outcome: TaskOutcome, exit: Ctx, removalAttempted: bool)
    ensures exit == ExitContext(p, config, env)
    ensures FetchInput(p, env).FetchFailed? ==> outcome == Raised(FetchInput(p, env).raised)
    ensures FetchInput(p, env).Fetched? ==>
      outcome == Returned(FinalPayload(TaskIdOf(p), exit.status, elapsed, exit.results))
    ensures removalAttempted <==> CleansUp(exit.downloadedPath, env)
  {
    var taskId := TaskIdOf(p);
    var ctx := Initial(p);
    var fetched := FetchInput(p, env);
    match fetched {
      case FetchFailed(path, recorded, raised) =>
        ctx := ctx.(results := ctx.results["download_error" := Text(recorded)], status := "failed", downloadedPath := path);
        outcome := Raised(raised);
      case Fetched(path, fileType) =>
        ctx := ctx.(results := ctx.results["downloaded_file" := DownloadedFile(path, fileType)], downloadedPath := Some(path));
        var steps := AllSteps(p);
        var job := JobOf(p, config, env);
        ghost var start := ctx;
        var i := 0;
        while i < |steps|
          invariant 0 <= i <= |steps|
          invariant RunFrom(ctx, steps, i, job, Intended) == RunFrom(start, steps, 0, job, Intended)
        {
          var step := steps[i];
          ctx := ctx.(logged := ctx.logged + [step.stepType]);
          var r := RunStep(ctx, step, i, job);
          if r.Escaped? {
            ctx := CriticalRecorded(ctx, step.stepType);
            break;
          }
          ctx := r.ctx;
          i := i + 1;
        }
        assert ctx == RunFrom(start, steps, 0, job, Intended).ctx;
        outcome := Returned(FinalPayload(taskId, ctx.status, elapsed, ctx.results));
    }
    exit := ctx;
    removalAttempted := ctx.downloadedPath.Some? && ctx.downloadedPath.value != ""
      && env.existsAtCleanup(ctx.downloadedPath.value) && Contains(ctx.downloadedPath.value, "/tmp/");
  }

  // ---------------------------------------------------------------------
  // Invariants of the step loop
  // ---------------------------------------------------------------------

  /**
   * How the entries of `processed_results` depend on each other: text is
   * extracted only from extracted music data, music is generated only from
   * it, a translation records the text it sent, and the overall status is
   * "processing" or "failed" (never "completed").
   */
  predicate Coherent(c: Ctx) {
    (c.status == "processing" || c.status == "failed")
    && (MusicKey in c.results <==> c.hasMusic)
    && (MusicKey in c.results ==> c.results[MusicKey] == MusicExtracted)
    && (TextKey in c.results <==> c.text.Some?)
    && (TextKey in c.results ==> c.hasMusic && c.text == Some(MockText) && c.results[TextKey] == TextExtracted(|MockText|))
    && (GeneratedKey in c.results ==>
          (c.results[GeneratedKey].GenerationSkipped? || c.results[GeneratedKey].GenerationFailed?
           || c.results[GeneratedKey].MusicGenerated?)
          && (!c.results[GeneratedKey].GenerationSkipped? ==> c.hasMusic))
    && (TranslationKey in c.results ==>
          (c.results[TranslationKey].TranslationSkipped? || c.results[TranslationKey].TranslationFailed?
           || c.results[TranslationKey].Translated?)
          && (!c.results[TranslationKey].TranslationSkipped? ==> c.text.Some?)
          && (c.results[TranslationKey].Translated? ==> c.results[TranslationKey].original == TranslationInput(c.text.value)))
  }

  lemma ReservedKeysAreForeign()
    ensures Foreign("task_id") && Foreign("metadata") && Foreign("downloaded_file") && Foreign("download_error")
  {
    assert "task_id"[0..] != "_status";
    assert "metadata"[1..] != "_status";
    assert "downloaded_file"[8..] != "_status";
    assert "download_error"[7..] != "_status";
  }

  lemma OwnKeysHaveNoStatusSuffix()
    ensures !EndsWithStatus(MusicKey) && !EndsWithStatus(TextKey)
    ensures !EndsWithStatus(TranslationKey) && !EndsWithStatus(GeneratedKey)
  {
    assert MusicKey[|MusicKey| - 1] == 'n';
    assert TextKey[|TextKey| - 1] == 'n';
    assert TranslationKey[|TranslationKey| - 1] == 'n';
    assert GeneratedKey[|GeneratedKey| - 1] == 'e';
  }

  lemma StartedIsCoherent(p: TaskPayload, path: string, fileType: string)
    ensures Coherent(Started(p, path, fileType))
    ensures Foreign("task_id") && Foreign("metadata") && Foreign("downloaded_file")
  {
    ReservedKeysAreForeign();
  }

  /** What `process_task` leaves behind, whichever way the download and the steps go. */
  lemma ExitContextFacts(p: TaskPayload, config: StorageConfig, env: Env)
    ensures var exit := ExitContext(p, config, env);
      Coherent(exit)
      && "task_id" in exit.results && exit.results["task_id"] == Text(TaskIdOf(p))
      && "metadata" in exit.results && exit.results["metadata"] == Metadata(MetadataOf(p))
    ensures var exit := ExitContext(p, config, env);
      var f := FetchInput(p, env);
      f.FetchFailed? ==>
        exit.logged == [] && exit.status == "failed" && exit.downloadedPath == f.partial
        && "download_error" in exit.results && exit.results["download_error"] == Text(f.recorded)
    ensures var exit := ExitContext(p, config, env);
      var f := FetchInput(p, env);
      f.Fetched? ==>
        exit.downloadedPath == Some(f.path)
        && "downloaded_file" in exit.results && exit.results["downloaded_file"] == DownloadedFile(f.path, f.fileType)
        && (exit.status == "processing" ==> |exit.logged| == |AllSteps(p)|)
        && (exit.status == "failed" ==> StoppedAtCriticalStep(exit))
  {
    var f := FetchInput(p, env);
    if f.Fetched? {
      StartedRunFacts(p, f.path, f.fileType, JobOf(p, config, env));
    } else {
      OwnKeysDistinct();
    }
  }

  lemma StartedRunFacts(p: TaskPayload, path: string, fileType: string, job: Job)
    ensures var exit := RunFrom(Started(p, path, fileType), AllSteps(p), 0, job, Intended).ctx;
      Coherent(exit)
      && "task_id" in exit.results && exit.results["task_id"] == Text(TaskIdOf(p))
      && "metadata" in exit.results && exit.results["metadata"] == Metadata(MetadataOf(p))
      && exit.downloadedPath == Some(path)
      && "downloaded_file" in exit.results && exit.results["downloaded_file"] == DownloadedFile(path, fileType)
      && (exit.status == "processing" ==> |exit.logged| == |AllSteps(p)|)
      && (exit.status == "failed" ==> StoppedAtCriticalStep(exit))
  {
    var start := Started(p, path, fileType);
    var steps := AllSteps(p);
    StartedIsCoherent(p, path, fileType);
    var pass := PassOf(job);
    PassOfKeepsFrame(job);
    PassOfKeepsForeign(job);
    PassOfKeepsCoherent(job);
    RunKeepsCoherent(pass, start, steps, 0, Intended);
    IntendedRunStopsOnlyAtCriticalStep(pass, start, steps, 0);
    RunKeepsDownloadedPath(pass, start, steps, 0, Intended);
    RunKeepsForeignEntries(pass, start, steps, 0, Intended, "task_id");
    RunKeepsForeignEntries(pass, start, steps, 0, Intended, "metadata");
    RunKeepsForeignEntries(pass, start, steps, 0, Intended, "downloaded_file");
  }

  lemma {:induction false} RunKeepsDownloadedPath(pass: Pass, c: Ctx, steps: seq<Step>, i: nat, policy: Policy)
    requires PassKeepsFrame(pass)
    requires i <= |steps|
    ensures Loop(pass, c, steps, i, policy).ctx.downloadedPath == c.downloadedPath
    decreases |steps| - i
  {
    if i < |steps| {
      var c1 := c.(logged := c.logged + [steps[i].stepType]);
      match pass(c1, steps[i], i)
      case Continue(c2) => RunKeepsDownloadedPath(pass, c2, steps, i + 1, policy);
      case Escaped(_) =>
    }
  }

  lemma OwnKeysDistinct()
    ensures MusicKey != TextKey && MusicKey != TranslationKey && MusicKey != GeneratedKey
    ensures TextKey != TranslationKey && TextKey != GeneratedKey && TranslationKey != GeneratedKey
  {
    assert |MusicKey| == 21 && |TextKey| == 15 && |TranslationKey| == 25 && |GeneratedKey| == 20;
  }

  lemma RunStepKeepsCoherent(c: Ctx, step: Step, i: nat, job: Job)
    requires Coherent(c)
    ensures RunStep(c, step, i, job).Continue? ==> Coherent(RunStep(c, step, i, job).ctx)
  {
    var kind := step.stepType;
    if kind == Some("extract_music_data") {
      MusicStepKeepsCoherent(c, step, i, job);
    } else if kind == Some("extract_text_from_score") {
      TextStepKeepsCoherent(c, step, i, job);
    } else if kind == Some("translate_to_shakespearean") {
      TranslateStepKeepsCoherent(c, step, i, job);
    } else if kind == Some("generate_music_file") {
      GenerateStepKeepsCoherent(c, step, i, job);
    } else {
      UnknownStepKeepsCoherent(c, step, i, job);
    }
  }

  lemma MusicStepKeepsCoherent(c: Ctx, step: Step, i: nat, job: Job)
    requires Coherent(c) && step.stepType == Some("extract_music_data")
    ensures Coherent(RunStep(c, step, i, job).ctx)
  {
    OwnKeysDistinct();
  }

  lemma TextStepKeepsCoherent(c: Ctx, step: Step, i: nat, job: Job)
    requires Coherent(c) && step.stepType == Some("extract_text_from_score")
    ensures Coherent(RunStep(c, step, i, job).ctx)
  {
    OwnKeysDistinct();
  }

  lemma TranslateStepKeepsCoherent(c: Ctx, step: Step, i: nat, job: Job)
    requires Coherent(c) && step.stepType == Some("translate_to_shakespearean")
    ensures RunStep(c, step, i, job).Continue? ==> Coherent(RunStep(c, step, i, job).ctx)
  {
    OwnKeysDistinct();
  }

  lemma GenerateStepKeepsCoherent(c: Ctx, step: Step, i: nat, job: Job)
    requires Coherent(c) && step.stepType == Some("generate_music_file")
    ensures RunStep(c, step, i, job).Continue? ==> Coherent(RunStep(c, step, i, job).ctx)
  {
    OwnKeysDistinct();
  }

  lemma UnknownStepKeepsCoherent(c: Ctx, step: Step, i: nat, job: Job)
    requires Coherent(c)
    requires step.stepType !in {Some("extract_music_data"), Some("extract_text_from_score"),
                                Some("translate_to_shakespearean"), Some("generate_music_file")}
    ensures Coherent(RunStep(c, step, i, job).ctx)
  {
    OwnKeysHaveNoStatusSuffix();
  }

  lemma CriticalKeepsCoherent(c: Ctx, kind: Option<string>)
    requires Coherent(c)
    ensures Coherent(CriticalRecorded(c, kind))
  {
    OwnKeysHaveNoStatusSuffix();
  }

  /** A pass that continues leaves the status, the log and the download path as they were. */
  ghost predicate PassKeepsFrame(pass: Pass) {
    forall c: Ctx, step: Step, i: nat :: pass(c, step, i).Continue? ==>
      var next := pass(c, step, i).ctx;
      next.status == c.status && next.logged == c.logged && next.downloadedPath == c.downloadedPath
  }

  /** A pass that continues keeps every entry no step writes. */
  ghost predicate PassKeepsForeign(pass: Pass) {
    forall c: Ctx, step: Step, i: nat, k: string ::
      pass(c, step, i).Continue? && k in c.results && Foreign(k) ==>
        k in pass(c, step, i).ctx.results && pass(c, step, i).ctx.results[k] == c.results[k]
  }

  /** A pass that continues keeps `Coherent`. */
  ghost predicate PassKeepsCoherent(pass: Pass) {
    forall c: Ctx, step: Step, i: nat :: Coherent(c) && pass(c, step, i).Continue? ==> Coherent(pass(c, step, i).ctx)
  }

  /** Only a critical step's pass escapes. */
  ghost predicate PassEscapesOnlyAtCritical(pass: Pass) {
    forall c: Ctx, step: Step, i: nat :: pass(c, step, i).Escaped? ==> CriticalKind(step.stepType)
  }

  /** The worker's own inner `try` keeps the frame and escapes only at a critical step. */
  lemma PassOfKeepsFrame(job: Job)
    ensures PassKeepsFrame(PassOf(job)) && PassEscapesOnlyAtCritical(PassOf(job))
  {
  }

  /** The worker's own inner `try` keeps the entries no step writes. */
  lemma PassOfKeepsForeign(job: Job)
    ensures PassKeepsForeign(PassOf(job))
  {
    forall c: Ctx, step: Step, i: nat, k: string | k in c.results && Foreign(k)
      ensures RunStep(c, step, i, job).Continue? ==>
        k in RunStep(c, step, i, job).ctx.results && RunStep(c, step, i, job).ctx.results[k] == c.results[k]
    {
      OwnKeyIsNotForeign(step);
    }
  }

  /** No step writes a foreign key. */
  lemma OwnKeyIsNotForeign(step: Step)
    ensures !Foreign(OwnKey(step))
  {
  }

  /** The worker's own inner `try` keeps `Coherent`. */
  lemma PassOfKeepsCoherent(job: Job)
    ensures PassKeepsCoherent(PassOf(job))
  {
    forall c: Ctx, step: Step, i: nat | Coherent(c)
      ensures RunStep(c, step, i, job).Continue? ==> Coherent(RunStep(c, step, i, job).ctx)
    {
      RunStepKeepsCoherent(c, step, i, job);
    }
  }

  /** Every run of the step loop keeps `Coherent`. */
  lemma {:induction false} RunKeepsCoherent(pass: Pass, c: Ctx, steps: seq<Step>, i: nat, policy: Policy)
    requires PassKeepsCoherent(pass)
    requires i <= |steps| && Coherent(c)
    ensures Coherent(Loop(pass, c, steps, i, policy).ctx)
    decreases |steps| - i
  {
    if i < |steps| {
      var c1 := c.(logged := c.logged + [steps[i].stepType]);
      match pass(c1, steps[i], i)
      case Continue(c2) => RunKeepsCoherent(pass, c2, steps, i + 1, policy);
      case Escaped(_) => CriticalKeepsCoherent(c1, steps[i].stepType);
    }
  }

  /** The entries no step writes (task_id, metadata, the download record) survive the loop. */
  lemma {:induction false} RunKeepsForeignEntries(pass: Pass, c: Ctx, steps: seq<Step>, i: nat, policy: Policy, k: string)
    requires PassKeepsForeign(pass)
    requires i <= |steps| && k in c.results && Foreign(k)
    ensures k in Loop(pass, c, steps, i, policy).ctx.results
    ensures Loop(pass, c, steps, i, policy).ctx.results[k] == c.results[k]
    decreases |steps| - i
  {
    if i < |steps| {
      var c1 := c.(logged := c.logged + [steps[i].stepType]);
      match pass(c1, steps[i], i)
      case Continue(c2) => RunKeepsForeignEntries(pass, c2, steps, i + 1, policy, k);
      case Escaped(_) =>
    }
  }

  /** One more dispatched step in front of a log that follows the later step types. */
  lemma PrependKind(pre: seq<Option<string>>, steps: seq<Step>, i: nat, log: seq<Option<string>>)
    requires i < |steps|
    requires |pre| + 1 <= |log| <= |pre| + |steps| - i
    requires log[..|pre| + 1] == pre + [steps[i].stepType]
    requires forall j :: |pre| + 1 <= j < |log| ==> log[j] == steps[i + 1 + j - (|pre| + 1)].stepType
    ensures log[..|pre|] == pre
    ensures forall j :: |pre| <= j < |log| ==> log[j] == steps[i + j - |pre|].stepType
  {
    assert log[..|pre|] == log[..|pre| + 1][..|pre|];
    assert log[|pre|] == log[..|pre| + 1][|pre|];
  }

  /**
   * The steps are dispatched in list order, each at most once: past the
   * log it starts with, the run logs a prefix of the step types from `i`.
   */
  lemma {:induction false} RunLogsStepsInOrder(pass: Pass, c: Ctx, steps: seq<Step>, i: nat, policy: Policy)
    requires PassKeepsFrame(pass)
    requires i <= |steps|
    ensures var r := Loop(pass, c, steps, i, policy);
      |c.logged| <= |r.ctx.logged| <= |c.logged| + |steps| - i
      && r.ctx.logged[..|c.logged|] == c.logged
      && forall j :: |c.logged| <= j < |r.ctx.logged| ==> r.ctx.logged[j] == steps[i + j - |c.logged|].stepType
    decreases |steps| - i
  {
    if i < |steps| {
      var c1 := c.(logged := c.logged + [steps[i].stepType]);
      match pass(c1, steps[i], i)
      case Continue(c2) =>
        assert c2.logged == c1.logged;
        RunLogsStepsInOrder(pass, c2, steps, i + 1, policy);
        var r := Loop(pass, c2, steps, i + 1, policy);
        assert Loop(pass, c, steps, i, policy) == r;
        PrependKind(c.logged, steps, i, r.ctx.logged);
      case Escaped(_) =>
        var log := Loop(pass, c, steps, i, policy).ctx.logged;
        assert log == c1.logged;
        PrependKind(c.logged, steps, i, log);
    } else {
      assert c.logged[..|c.logged|] == c.logged;
    }
  }

  /** The step types whose failure escapes the inner `try`. */
  predicate CriticalKind(kind: Option<string>) {
    kind == Some("translate_to_shakespearean") || kind == Some("generate_music_file")
  }

  /** The last dispatched step is a critical one and its `failed_critical` flag is recorded. */
  predicate StoppedAtCriticalStep(c: Ctx) {
    |c.logged| > 0 && CriticalKind(c.logged[|c.logged| - 1])
    && StepKey(c.logged[|c.logged| - 1]) in c.results
    && c.results[StepKey(c.logged[|c.logged| - 1])] == Text("failed_critical")
  }

  lemma CriticalRecordedStops(c: Ctx, kind: Option<string>)
    requires |c.logged| > 0 && c.logged[|c.logged| - 1] == kind && CriticalKind(kind)
    ensures StoppedAtCriticalStep(CriticalRecorded(c, kind))
  {
  }

  /**
   * With the intended handler a run that starts in "processing" either
   * dispatches every step and stays "processing", or stops after a step
   * whose failure it records as `failed_critical` and ends "failed"; only a
   * translation or a generation step can fail that way.
   */
  lemma {:induction false} IntendedRunStopsOnlyAtCriticalStep(pass: Pass, c: Ctx, steps: seq<Step>, i: nat)
    requires PassKeepsFrame(pass)
    requires PassEscapesOnlyAtCritical(pass)
    requires i <= |steps| && c.status == "processing"
    ensures var r := Loop(pass, c, steps, i, Intended);
      r.Finished? && (r.ctx.status == "processing" || r.ctx.status == "failed")
      && (r.ctx.status == "processing" ==> |r.ctx.logged| == |c.logged| + |steps| - i)
      && (r.ctx.status == "failed" ==> |r.ctx.logged| > |c.logged| && StoppedAtCriticalStep(r.ctx))
    decreases |steps| - i
  {
    if i < |steps| {
      var c1 := c.(logged := c.logged + [steps[i].stepType]);
      match pass(c1, steps[i], i)
      case Continue(c2) =>
        assert c2.status == c.status && c2.logged == c1.logged;
        IntendedRunStopsOnlyAtCriticalStep(pass, c2, steps, i + 1);
        assert Loop(pass, c, steps, i, Intended) == Loop(pass, c2, steps, i + 1, Intended);
      case Escaped(_) =>
        var kind := steps[i].stepType;
        assert Loop(pass, c, steps, i, Intended) == Finished(CriticalRecorded(c1, kind));
        CriticalRecordedStops(c1, kind);
    }
  }

  /** A step of a type the worker does not know records exactly its `skipped_unknown_type` flag. */
  lemma UnknownStepIsOnlyFlagged(c: Ctx, step: Step, i: nat, job: Job)
    requires step.stepType !in {Some("extract_music_data"), Some("extract_text_from_score"),
                                Some("translate_to_shakespearean"), Some("generate_music_file")}
    ensures RunStep(c, step, i, job) == Continue(c.(results := c.results[StepKey(step.stepType) := Text("skipped_unknown_type")]))
    ensures step.stepType.None? ==> StepKey(step.stepType) == "None_status"
  {
  }

  // ---------------------------------------------------------------------
  // Recoverable step outcomes: recorded in `processed_results`, the run goes on
  // ---------------------------------------------------------------------

  /** A missing or blank text records a skipped translation, and the model is never consulted. */
  lemma BlankTextIsSkipped(c: Ctx, step: Step, i: nat, job: Job, other: Env)
    requires step.stepType == Some("translate_to_shakespearean")
    requires c.text.None? || AllSpace(c.text.value)
    ensures RunStep(c, step, i, job) == Continue(c.(results := c.results[TranslationKey := TranslationSkipped]))
    ensures RunStep(c, step, i, job.(env := other)) == RunStep(c, step, i, job)
  {
    if c.text.Some? {
      StripEmptyIffAllSpace(c.text.value);
    }
  }

  /** A model that cannot be set up makes the translation step escape with that error. */
  lemma ModelSetupFailureEscapes(c: Ctx, step: Step, i: nat, job: Job, e: string)
    requires step.stepType == Some("translate_to_shakespearean")
    requires c.text.Some? && !AllSpace(c.text.value)
    requires job.env.llmSetup(i, job.model) == Fail(e)
    ensures RunStep(c, step, i, job) == Escaped(e)
  {
    StripEmptyIffAllSpace(c.text.value);
  }

  /** An error from the model run is recorded as a failed translation, and the step continues. */
  lemma ModelErrorIsRecorded(c: Ctx, step: Step, i: nat, job: Job, e: string)
    requires step.stepType == Some("translate_to_shakespearean")
    requires c.text.Some? && !AllSpace(c.text.value)
    requires job.env.llmSetup(i, job.model).Pass?
    requires job.env.llmRun(i, TranslationInput(c.text.value)) == Err(e)
    ensures RunStep(c, step, i, job) == Continue(c.(results := c.results[TranslationKey := TranslationFailed(e)]))
  {
    StripEmptyIffAllSpace(c.text.value);
  }

  /** Without music data a generation step records `skipped`, and no file is written or uploaded. */
  lemma NoMusicGenerationSkipped(c: Ctx, step: Step, i: nat, job: Job, other: Env)
    requires step.stepType == Some("generate_music_file") && OutputFormat(step).Ok?
    requires !(MusicKey in c.results && c.hasMusic)
    ensures RunStep(c, step, i, job) == Continue(c.(results := c.results[GeneratedKey := GenerationSkipped]))
    ensures RunStep(c, step, i, job.(env := other)) == RunStep(c, step, i, job)
  {
  }

  /** A failing write, upload or removal of the generated file is recorded with its error text. */
  lemma GenerationFaultIsRecorded(format: string, i: nat, job: Job, e: string)
    requires format == "midi" || format == "mp3"
    requires var path := OutputPath(job.taskId, format);
      var key := ResultKey(job.taskId, path);
      job.env.writeOutput(i, path) == Fail(e)
      || (job.env.writeOutput(i, path).Pass? && job.env.existsAfterWrite(i, path)
          && job.env.uploadResult(i, path, job.bucket, key) == Fail(e))
      || (job.env.writeOutput(i, path).Pass? && job.env.existsAfterWrite(i, path)
          && job.env.uploadResult(i, path, job.bucket, key).Pass? && job.env.removeOutput(i, path) == Fail(e))
    ensures GenerationRecord(format, i, job) == Some(GenerationFailed(e))
  {
  }

  /** A generation failure is recorded under `generated_music_file`, and the step continues. */
  lemma GenerationFailureContinues(c: Ctx, step: Step, i: nat, job: Job, e: string)
    requires step.stepType == Some("generate_music_file") && OutputFormat(step).Ok?
    requires MusicKey in c.results && c.hasMusic
    requires GenerationRecord(OutputFormat(step).value, i, job) == Some(GenerationFailed(e))
    ensures RunStep(c, step, i, job) == Continue(c.(results := c.results[GeneratedKey := GenerationFailed(e)]))
  {
  }

  /** The uploaded result's key is `results/<task id>/<task id>.mid` (or `.mp3`). */
  lemma GeneratedKeyFormat(taskId: string, format: string)
    requires '/' !in taskId && (format == "midi" || format == "mp3")
    ensures ResultKey(taskId, OutputPath(taskId, format))
      == "results/" + taskId + "/" + taskId + (if format == "midi" then ".mid" else ".mp3")
  {
    var ext := if format == "midi" then ".mid" else ".mp3";
    assert '/' !in ext;
    assert '/' !in taskId + ext;
    assert OutputPath(taskId, format) == "/tmp" + "/" + (taskId + ext);
    BasenameOfJoin("/tmp", taskId + ext);
  }

  // ---------------------------------------------------------------------
  // The step-failure handler as written
  // ---------------------------------------------------------------------

  const ExcInfoError := InvalidKeyword("exc_info")

  /**
   * As written, the handler's `print(..., exc_info=True)` raises a TypeError,
   * so a failing step neither records `failed_critical` nor sets "failed":
   * the TypeError leaves `process_task`. Where the written handler does not
   * abort, both handlers agree; where it aborts, the intended handler
   * finishes with the failure recorded on the same state.
   */
  lemma {:induction false} AsWrittenHandlerRaisesTypeError(pass: Pass, c: Ctx, steps: seq<Step>, i: nat)
    requires PassKeepsFrame(pass)
    requires i <= |steps|
    ensures var w := Loop(pass, c, steps, i, AsWritten);
      var f := Loop(pass, c, steps, i, Intended);
      (w.Finished? ==> w == f && w.ctx.status == c.status)
      && (w.Aborted? ==>
            w.error == ExcInfoError && w.ctx.status == c.status && |w.ctx.logged| > 0
            && f == Finished(CriticalRecorded(w.ctx, w.ctx.logged[|w.ctx.logged| - 1])))
    decreases |steps| - i
  {
    assert PrintCall(["exc_info"]) == Fail(ExcInfoError) by {
      var kws := ["exc_info"];
      assert kws[0] == "exc_info" && |kws[0]| == 8;
      assert kws[0] !in PrintKeywords;
    }
    if i < |steps| {
      var c1 := c.(logged := c.logged + [steps[i].stepType]);
      match pass(c1, steps[i], i)
      case Continue(c2) => AsWrittenHandlerRaisesTypeError(pass, c2, steps, i + 1);
      case Escaped(_) =>
    }
  }

  /** As written, a task whose intended run ends "failed" raises the TypeError instead of returning. */
  lemma AsWrittenTaskRaisesOnStepFailure(p: TaskPayload, config: StorageConfig, env: Env)
    requires FetchInput(p, env).Fetched? && ExitContext(p, config, env).status == "failed"
    ensures RunFrom(Started(p, FetchInput(p, env).path, FetchInput(p, env).fileType), AllSteps(p), 0,
                    JobOf(p, config, env), AsWritten)
            .Aborted?
    ensures RunFrom(Started(p, FetchInput(p, env).path, FetchInput(p, env).fileType), AllSteps(p), 0,
                    JobOf(p, config, env), AsWritten)
            .error == ExcInfoError
  {
    var job := JobOf(p, config, env);
    PassOfKeepsFrame(job);
    AsWrittenHandlerRaisesTypeError(PassOf(job), Started(p, FetchInput(p, env).path, FetchInput(p, env).fileType), AllSteps(p), 0);
  }

  // ---------------------------------------------------------------------
  // The S3 client as written: `boto3` is used but never imported
  // ---------------------------------------------------------------------

  const BotoNameError := "name 'boto3' is not defined"

  /** The environment as the module is written: every `boto3` call raises a NameError. */
  function BotoUnimported(env: Env): (e: Env)
    ensures forall b, k, d :: e.s3Download(b, k, d) == Fail(BotoNameError)
  {
    env.(s3Download := (b: string, k: string, d: string) => Fail(BotoNameError),
         uploadResult := (i: nat, path: string, b: Option<string>, k: string) => Fail(BotoNameError))
  }

  predicate IsS3Location(p: TaskPayload) {
    p.fileLocation.Some? && p.fileLocation.value.locType == Some("s3") && p.fileLocation.value.key.Some?
    && p.fileLocation.value.bucket.Some? && p.fileLocation.value.bucket.value != ""
  }

  /** As written, no S3 download can succeed and no generated file can be uploaded. */
  lemma S3NeverWorksWithoutBoto(p: TaskPayload, env: Env, format: string, i: nat, job: Job)
    ensures IsS3Location(p) ==>
      FetchInput(p, BotoUnimported(env))
        == FetchFailed(Some(TempPath(TaskIdOf(p), p.fileLocation.value.key.value)), BotoNameError, BotoNameError)
    ensures var r := GenerationRecord(format, i, job.(env := BotoUnimported(job.env)));
      r.None? || r.value.GenerationFailed?
  {
  }

  /** With a working client, an S3 location is fetched to `/tmp/<task id>_<basename of key>`. */
  lemma S3FetchWithClient(p: TaskPayload, env: Env)
    requires IsS3Location(p)
    ensures var loc := p.fileLocation.value;
      var path := TempPath(TaskIdOf(p), loc.key.value);
      FetchInput(p, env) == (if env.s3Download(loc.bucket.value, loc.key.value, path).Pass?
                             then Fetched(path, "s3")
                             else FetchFailed(Some(path), env.s3Download(loc.bucket.value, loc.key.value, path).error,
                                              env.s3Download(loc.bucket.value, loc.key.value, path).error))
  {
  }
}
