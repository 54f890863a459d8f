/**
 * The sheet-music upload endpoint: check the storage configuration and the
 * file name, check the extension against the allow-list, store the file under
 * a per-task key, build the task descriptor and hand it to the queue.
 * The task id, the clock, the upload and the queue call are arguments.
 */
module UploadIntake {
  import opened Wrappers
  import opened Json
  import opened Strings
  import opened Descriptor

  datatype Response =
    | Accepted(message: string, taskId: string, uploadedKey: string, status: string)
    | HttpError(code: int, detail: string)

  /** The accepted extensions, in the order the error message lists them. */
  const Allowed: seq<string> := [".pdf", ".png", ".jpg", ".jpeg", ".musicxml", ".mxl", ".mid"]

  const NoFileName := "No file name provided."
  const QueueFailed := "Failed to queue processing task."
  const UploadFailed := "S3 파일 업로드 실패"
  const AcceptedMessage := "Sheet music uploaded and processing requested."
  const QueuedStatus := "processing_queued"
  const SentStatus := "task_sent_to_sqs"

  function ConfigError(storageType: string): string {
    "Server configuration error: Storage bucket name is not set for type " + storageType + "."
  }

  function InternalError(e: string): string {
    "An internal server error occurred: " + e
  }

  function UnsupportedFormat(ext: string): string {
    "Unsupported file format: " + ext + ". Supported formats are: " + Join(Allowed, ", ")
  }

  /** Whether `p[lo..hi]` holds a character other than '.'. */
  predicate HasNonDot(p: string, lo: int, hi: int)
    requires 0 <= lo && hi <= |p|
    decreases hi - lo
  {
    lo < hi && (p[lo] != '.' || HasNonDot(p, lo + 1, hi))
  }

  /**
   * `os.path.splitext(p)[1]`: from the last '.' of the last path component
   * on, unless that component has only dots before it (".pdf" has none).
   */
  function Extension(p: string): (ext: string)
    ensures ext == "" || (ext[0] == '.' && |ext| <= |p| && ext == p[|p| - |ext|..] && '.' !in ext[1..] && '/' !in ext)
  {
    var sep := LastIndexOf(p, '/');
    var dot := LastIndexOf(p, '.');
    if dot > sep && HasNonDot(p, sep + 1, dot) then p[dot..] else ""
  }

  /** The storage key `sheetmusic/<task id>/<basename of the file name>`. */
  function ObjectKey(taskId: string, filename: string): (key: string)
    ensures StartsWith(key, "sheetmusic/" + taskId + "/")
  {
    var prefix := "sheetmusic/" + taskId + "/";
    var key := prefix + Basename(filename);
    assert key[..|prefix|] == prefix;
    key
  }

  /**
   * The key keeps exactly the file name's base name after its prefix: any
   * directories in the client's file name are dropped.
   */
  lemma ObjectKeyKeepsBasename(taskId: string, filename: string)
    ensures Basename(ObjectKey(taskId, filename)) == Basename(filename)
    ensures |ObjectKey(taskId, filename)| == |"sheetmusic/" + taskId + "/"| + |Basename(filename)|
  {
    BasenameOfJoin("sheetmusic/" + taskId, Basename(filename));
  }

  /** Some character of `b` other than '.' comes before some '.' of `b`. */
  predicate DotAfterNonDot(b: string) {
    exists i, j :: 0 <= i < j < |b| && b[i] != '.' && b[j] == '.'
  }

  lemma {:induction false} HasNonDotIff(p: string, lo: int, hi: int)
    requires 0 <= lo && hi <= |p|
    ensures HasNonDot(p, lo, hi) <==> exists k :: lo <= k < hi && p[k] != '.'
    decreases hi - lo
  {
    if lo < hi {
      HasNonDotIff(p, lo + 1, hi);
    }
  }

  /**
   * `Extension` is `os.path.splitext` on the base name: the name has an
   * extension exactly when a '.' follows some other character in its last
   * component, and the extension is then the end of that component from
   * its last '.' on.
   */
  lemma ExtensionOfLastComponent(p: string)
    ensures Extension(p) != "" <==> DotAfterNonDot(Basename(p))
    ensures var ext := Extension(p); var b := Basename(p);
      ext != "" ==> |ext| <= |b| && ext == b[|b| - |ext|..] && ext[0] == '.' && '.' !in ext[1..]
  {
    ExtensionIffDotAfterNonDot(p);
    ExtensionInLastComponent(p);
  }

  lemma {:induction false} ExtensionIffDotAfterNonDot(p: string)
    ensures Extension(p) != "" <==> DotAfterNonDot(Basename(p))
  {
    var sep := LastIndexOf(p, '/');
    var dot := LastIndexOf(p, '.');
    assert Extension(p) != "" <==> dot > sep && HasNonDot(p, sep + 1, dot);
    assert Basename(p) == p[sep + 1..];
    DotAfterNonDotIffHasNonDot(p, sep, dot);
  }

  /** The search `Extension` makes, stated on the last component `p[sep + 1..]`. */
  lemma {:induction false} DotAfterNonDotIffHasNonDot(p: string, sep: int, dot: int)
    requires sep == LastIndexOf(p, '/') && dot == LastIndexOf(p, '.')
    ensures DotAfterNonDot(p[sep + 1..]) <==> dot > sep && HasNonDot(p, sep + 1, dot)
  {
    HasNonDotIff(p, sep + 1, dot);
    if dot > sep && HasNonDot(p, sep + 1, dot) {
      var k :| sep + 1 <= k < dot && p[k] != '.';
      ExtensionHasDotAfterNonDot(p, sep, dot, k);
    } else {
      NoExtensionNoDotAfterNonDot(p, sep, dot);
    }
  }

  lemma {:induction false} ExtensionInLastComponent(p: string)
    ensures var ext := Extension(p); var b := Basename(p);
      ext != "" ==> |ext| <= |b| && ext == b[|b| - |ext|..] && ext[0] == '.' && '.' !in ext[1..]
  {
    var sep := LastIndexOf(p, '/');
    assert |Basename(p)| == |p| - sep - 1;
  }

  lemma {:induction false} ExtensionHasDotAfterNonDot(p: string, sep: int, dot: int, k: int)
    requires -1 <= sep < k < dot < |p| && p[dot] == '.' && p[k] != '.'
    ensures DotAfterNonDot(p[sep + 1..])
  {
    var b := p[sep + 1..];
    var i, j := k - (sep + 1), dot - (sep + 1);
    assert b[i] == p[k] && b[j] == p[dot];
  }

  lemma {:induction false} NoExtensionNoDotAfterNonDot(p: string, sep: int, dot: int)
    requires sep == LastIndexOf(p, '/') && dot == LastIndexOf(p, '.')
    requires !(dot > sep && exists k :: sep + 1 <= k < dot && p[k] != '.')
    ensures !DotAfterNonDot(p[sep + 1..])
  {
    var b := p[sep + 1..];
    forall i, j | 0 <= i < j < |b|
      ensures !(b[i] != '.' && b[j] == '.')
    {
      assert b[i] == p[sep + 1 + i] && b[j] == p[sep + 1 + j];
      if b[j] == '.' {
        assert sep + 1 + j <= dot;
      }
    }
  }

  /** The three processing steps every descriptor carries, in order. */
  function StandardSteps(outputFormat: string): seq<Step> {
    [Step(Some("extract_music_data"), None),
     Step(Some("extract_text_from_score"), None),
     Step(Some("generate_music_file"), Some(JStr(outputFormat)))]
  }

  const TranslateStep := Step(Some("translate_to_shakespearean"), None)

  function UploadMetadata(filename: string, ext: string, uploadedAt: string, outputFormat: string, translate: bool): map<string, Json> {
    map["original_filename" := JStr(filename),
        "original_file_extension" := JStr(ext),
        "uploaded_at" := JStr(uploadedAt),
        "requested_output_format" := JStr(outputFormat),
        "request_shakespearean_translation" := JBool(translate)]
  }

  /** Whether the queue's reply is truthy and reports the message as sent. */
  predicate QueueAccepted(reply: Option<map<string, Json>>) {
    reply.Some? && |reply.value| > 0 && "status" in reply.value && reply.value["status"] == JStr(SentStatus)
  }

  /** The outcome of the checks made before anything is uploaded. */
  datatype Checked = Rejected(resp: Response) | Passed(filename: string, ext: string)

  /** The configuration check, then the file-name check, then the extension check. */
  function CheckUpload(config: StorageConfig, filename: Option<string>): (c: Checked)
    ensures !Truthy(config.bucketName) ==> c == Rejected(HttpError(500, ConfigError(config.storageType)))
    ensures Truthy(config.bucketName) && !Truthy(filename) ==> c == Rejected(HttpError(400, NoFileName))
    ensures Truthy(config.bucketName) && Truthy(filename) && Lower(Extension(filename.value)) !in Allowed ==>
      c == Rejected(HttpError(400, UnsupportedFormat(Lower(Extension(filename.value)))))
    ensures c.Passed? <==> Truthy(config.bucketName) && Truthy(filename) && Lower(Extension(filename.value)) in Allowed
    ensures c.Passed? ==> c.filename == filename.value && c.ext == Lower(Extension(filename.value))
  {
    if !Truthy(config.bucketName) then Rejected(HttpError(500, ConfigError(config.storageType)))
    else if !Truthy(filename) then Rejected(HttpError(400, NoFileName))
    else
      var ext := Lower(Extension(filename.value));
      if ext !in Allowed then Rejected(HttpError(400, UnsupportedFormat(ext)))
      else Passed(filename.value, ext)
  }

  /** The descriptor for an accepted upload, as the queue receives it. */
  predicate IsIntakeDescriptor(d: TaskPayload, config: StorageConfig, filename: string, ext: string,
                               outputFormat: string, translate: bool, taskId: string, uploadedAt: string) {
    d.taskId == Some(taskId)
    && d.fileLocation == Some(Location(Some(config.storageType), config.bucketName, Some(ObjectKey(taskId, filename))))
    && d.processingSteps == Some(StandardSteps(outputFormat))
    && d.analysisTasks == Some(if translate then [TranslateStep] else [])
    && d.metadata == Some(UploadMetadata(filename, ext, uploadedAt, outputFormat, translate))
    && d.model.None?
  }

  /**
   * The part of `upload_sheet_music` after the checks: upload the file under
   * its per-task key, build the descriptor, queue it and pick the response.
   */
  method StoreAndQueue(config: StorageConfig, fn: string, ext: string, outputFormat: string, translate: bool,
                       taskId: string, uploadedAt: string,
                       upload: (Option<string>, string) -> Result<string>,
                       send: TaskPayload -> Result<Option<map<string, Json>>>)
    returns (resp: Response, dispatched: Option<TaskPayload>)
    ensures dispatched.Some? <==> upload(config.bucketName, ObjectKey(taskId, fn)).Ok? && upload(config.bucketName, ObjectKey(taskId, fn)).value != ""
    ensures dispatched.Some? ==> IsIntakeDescriptor(dispatched.value, config, fn, ext, outputFormat, translate, taskId, uploadedAt)
    ensures resp.Accepted? <==> dispatched.Some? && send(dispatched.value).Ok? && QueueAccepted(send(dispatched.value).value)
    ensures resp.Accepted? ==> resp == Accepted(AcceptedMessage, taskId, ObjectKey(taskId, fn), QueuedStatus)
    ensures resp.HttpError? ==> resp.code == 500
  {
    var key := ObjectKey(taskId, fn);
    var url := upload(config.bucketName, key);
    if url.Err? {
      return HttpError(500, InternalError(url.error)), None;
    }
    if url.value == "" {
      return HttpError(500, InternalError(UploadFailed)), None;
    }
    var analysis: seq<Step> := [];
    if translate {
      analysis := analysis + [TranslateStep];
    }
    var payload := TaskPayload(Some(taskId), Some(Location(Some(config.storageType), config.bucketName, Some(key))),
                               Some(StandardSteps(outputFormat)), Some(analysis),
                               Some(UploadMetadata(fn, ext, uploadedAt, outputFormat, translate)), None);
    assert analysis == if translate then [TranslateStep] else [];
    assert IsIntakeDescriptor(payload, config, fn, ext, outputFormat, translate, taskId, uploadedAt);
    dispatched := Some(payload);
    var reply := send(payload);
    if reply.Err? {
      return HttpError(500, InternalError(reply.error)), dispatched;
    }
    if QueueAccepted(reply.value) {
      resp := Accepted(AcceptedMessage, taskId, key, QueuedStatus);
    } else {
      resp := HttpError(500, QueueFailed);
    }
  }

  /**
   * `upload_sheet_music`. `upload(bucket, key)` stands for the storage upload
   * (an empty URL is a failed upload), `send` for the queue call; `dispatched`
   * is the descriptor handed to the queue, if the handler got that far.
   */
  method UploadSheetMusic(config: StorageConfig, filename: Option<string>, outputFormat: string, translate: bool,
                          taskId: string, uploadedAt: string,
                          upload: (Option<string>, string) -> Result<string>,
                          send: TaskPayload -> Result<Option<map<string, Json>>>)
    returns (resp: Response, dispatched: Option<TaskPayload>)
    ensures CheckUpload(config, filename).Rejected? ==> resp == CheckUpload(config, filename).resp && dispatched.None?
    ensures dispatched.Some? <==>
      (CheckUpload(config, filename).Passed?
       && upload(config.bucketName, ObjectKey(taskId, filename.value)).Ok?
       && upload(config.bucketName, ObjectKey(taskId, filename.value)).value != "")
    ensures dispatched.Some? ==>
      IsIntakeDescriptor(dispatched.value, config, filename.value, CheckUpload(config, filename).ext,
                         outputFormat, translate, taskId, uploadedAt)
    ensures resp.Accepted? <==> dispatched.Some? && send(dispatched.value).Ok? && QueueAccepted(send(dispatched.value).value)
    ensures resp.Accepted? ==> resp == Accepted(AcceptedMessage, taskId, ObjectKey(taskId, filename.value), QueuedStatus)
    ensures resp.HttpError? ==> resp.code == 400 || resp.code == 500
  {
    var checked := CheckUpload(config, filename);
    if checked.Rejected? {
      return checked.resp, None;
    }
    resp, dispatched := StoreAndQueue(config, checked.filename, checked.ext, outputFormat, translate, taskId, uploadedAt, upload, send);
  }

  /** The unsupported-format detail starts with the fixed prefix the API tests look for. */
  lemma UnsupportedDetailPrefix(ext: string)
    ensures StartsWith(UnsupportedFormat(ext), "Unsupported file format: ")
  {
    var d := UnsupportedFormat(ext);
    assert d[..|"Unsupported file format: "|] == "Unsupported file format: ";
  }

  /** The extension check ignores case: `Score.PDF` has the allowed extension `.pdf`. */
  lemma MixedCaseExtension()
    ensures Lower(Extension("Score.PDF")) == ".pdf" && ".pdf" in Allowed
  {
    var a := "Score.PDF";
    assert a[5] == '.' && a[6] != '.' && a[7] != '.' && a[8] != '.';
    assert LastIndexOf(a, '/') == -1;
    assert LastIndexOf(a, '.') == 5;
    assert HasNonDot("Score.PDF", 0, 5);
    assert "Score.PDF"[5..] == ".PDF";
    assert Lower(".PDF") == ".pdf" by {
      var l := Lower(".PDF");
      assert |l| == 4 && l[0] == '.' && l[1] == 'p' && l[2] == 'd' && l[3] == 'f';
    }
  }

  /** A name that is only ".pdf" has no extension, nor has one whose only dot is in a directory. */
  lemma NoExtensionExamples()
    ensures Extension(".pdf") == ""
    ensures Extension("scores.v2/part") == ""
  {
    var d := ".pdf";
    assert d[0] == '.' && d[1] != '.' && d[2] != '.' && d[3] != '.';
    assert LastIndexOf(d, '/') == -1;
    assert LastIndexOf(d, '.') == 0;
    assert !HasNonDot(".pdf", 0, 0);
    var b := "scores.v2/part";
    assert b[9] == '/' && b[6] == '.';
    assert forall j :: 9 < j < |b| ==> b[j] != '/' && b[j] != '.';
    assert b[7] != '.' && b[8] != '.';
    assert LastIndexOf(b, '/') == 9;
    assert LastIndexOf(b, '.') == 6;
  }

  /** `lyrics.txt` has the extension `.txt`, which is not allowed. */
  lemma TextExtensionRejected()
    ensures Extension("lyrics.txt") == ".txt" && ".txt" !in Allowed
  {
    var c := "lyrics.txt";
    assert c[6] == '.' && c[7] != '.' && c[8] != '.' && c[9] != '.';
    assert LastIndexOf(c, '/') == -1;
    assert LastIndexOf(c, '.') == 6;
    assert HasNonDot("lyrics.txt", 0, 6);
    assert "lyrics.txt"[6..] == ".txt";
  }
}
