/**
 * The upload endpoint and the worker together: the descriptor the endpoint
 * queues is one the worker runs to the end when every outside call succeeds.
 */
module PipelineScenarios {
  import opened Wrappers
  import opened Json
  import opened Strings
  import opened Descriptor
  import opened UploadIntake
  import opened Worker

  /** The worker downloads the uploaded score to `/tmp/<task id>_<basename of the file name>`. */
  lemma IntakeKeyDownloadPath(taskId: string, filename: string)
    ensures TempPath(taskId, ObjectKey(taskId, filename)) == "/tmp/" + taskId + "_" + Basename(filename)
  {
    BasenameOfJoin("sheetmusic/" + taskId, Basename(filename));
    assert ObjectKey(taskId, filename) == "sheetmusic/" + taskId + "/" + Basename(filename);
  }

  /** The descriptor's location is fetched from S3 to the temporary path, and its steps are the intake's. */
  lemma QueuedDescriptorIsFetched(d: TaskPayload, config: StorageConfig, filename: string, ext: string,
                                  translate: bool, taskId: string, uploadedAt: string, env: Env)
    requires IsIntakeDescriptor(d, config, filename, ext, "midi", translate, taskId, uploadedAt)
    requires config.storageType == "s3" && config.bucketName.Some? && config.bucketName.value != ""
    requires env.s3Download(config.bucketName.value, ObjectKey(taskId, filename),
                            "/tmp/" + taskId + "_" + Basename(filename)) == Pass
    ensures FetchInput(d, env) == Fetched("/tmp/" + taskId + "_" + Basename(filename), "s3")
    ensures AllSteps(d) == StandardSteps("midi") + (if translate then [TranslateStep] else [])
    ensures TaskIdOf(d) == taskId && ModelOf(d) == DefaultModel
  {
    IntakeKeyDownloadPath(taskId, filename);
  }

  /** The placeholder text the worker extracts is not blank and is sent to the model whole. */
  lemma MockTextIsSentWhole()
    ensures MockText != "" && Strip(MockText) != "" && TranslationInput(MockText) == MockText
  {
    assert MockText[0] == 'E';
    StripEmptyIffAllSpace(MockText);
  }

  /** The key and location a MIDI result is uploaded under. */
  function MidiKey(taskId: string): string {
    "results/" + taskId + "/" + taskId + ".mid"
  }

  predicate MidiOraclesSucceed(job: Job) {
    var out := "/tmp/" + job.taskId + ".mid";
    job.env.writeOutput(2, out) == Pass && job.env.existsAfterWrite(2, out)
    && job.env.uploadResult(2, out, job.bucket, MidiKey(job.taskId)) == Pass
    && job.env.removeOutput(2, out) == Pass
  }

  /** With working oracles, the third step generates and uploads the MIDI file. */
  lemma MidiGenerationSucceeds(c: Ctx, job: Job)
    requires MusicKey in c.results && c.hasMusic
    requires '/' !in job.taskId && MidiOraclesSucceed(job)
    ensures RunStep(c, Step(Some("generate_music_file"), Some(JStr("midi"))), 2, job) ==
      Continue(c.(results := c.results[GeneratedKey := MusicGenerated("midi", MidiKey(job.taskId),
                                                                S3Url(job.bucket, MidiKey(job.taskId)))]))
  {
    GeneratedKeyFormat(job.taskId, "midi");
    assert Lower("midi") == "midi";
    assert OutputPath(job.taskId, "midi") == "/tmp/" + job.taskId + ".mid";
  }

  /** A downloaded score yields the (placeholder) music data. */
  lemma MusicExtractionSucceeds(c: Ctx, job: Job)
    requires c.downloadedPath.Some? && c.downloadedPath.value != ""
    ensures RunStep(c, Step(Some("extract_music_data"), None), 0, job) ==
      Continue(c.(hasMusic := true, results := c.results[MusicKey := MusicExtracted]))
  {
  }

  /** Extracted music data yields the placeholder text. */
  lemma TextExtractionSucceeds(c: Ctx, job: Job)
    requires MusicKey in c.results && c.hasMusic
    ensures RunStep(c, Step(Some("extract_text_from_score"), None), 1, job) ==
      Continue(c.(text := Some(MockText), results := c.results[TextKey := TextExtracted(|MockText|)]))
  {
  }

  /** A step that continues hands its state to the rest of the run. */
  lemma ContinueRun(c: Ctx, steps: seq<Step>, i: nat, job: Job, next: Ctx)
    requires i < |steps|
    requires RunStep(c.(logged := c.logged + [steps[i].stepType]), steps[i], i, job) == Continue(next)
    ensures RunFrom(c, steps, i, job, Intended) == RunFrom(next, steps, i + 1, job, Intended)
  {
  }

  /** The music extraction at position 0 hands its state to the rest of the run. */
  lemma MusicStepContinues(c: Ctx, steps: seq<Step>, job: Job)
    requires |steps| > 0 && steps[0] == Step(Some("extract_music_data"), None)
    requires c.downloadedPath.Some? && c.downloadedPath.value != ""
    ensures RunFrom(c, steps, 0, job, Intended) ==
      RunFrom(c.(logged := c.logged + [steps[0].stepType], hasMusic := true,
                 results := c.results[MusicKey := MusicExtracted]), steps, 1, job, Intended)
  {
    var c1 := c.(logged := c.logged + [steps[0].stepType]);
    MusicExtractionSucceeds(c1, job);
    ContinueRun(c, steps, 0, job, c1.(hasMusic := true, results := c1.results[MusicKey := MusicExtracted]));
  }

  /** The text extraction at position 1 hands its state to the rest of the run. */
  lemma TextStepContinues(c: Ctx, steps: seq<Step>, job: Job)
    requires |steps| > 1 && steps[1] == Step(Some("extract_text_from_score"), None)
    requires MusicKey in c.results && c.hasMusic
    ensures RunFrom(c, steps, 1, job, Intended) ==
      RunFrom(c.(logged := c.logged + [steps[1].stepType], text := Some(MockText),
                 results := c.results[TextKey := TextExtracted(|MockText|)]), steps, 2, job, Intended)
  {
    var c1 := c.(logged := c.logged + [steps[1].stepType]);
    TextExtractionSucceeds(c1, job);
    ContinueRun(c, steps, 1, job, c1.(text := Some(MockText), results := c1.results[TextKey := TextExtracted(|MockText|)]));
  }

  /** The MIDI generation at position 2 hands its state to the rest of the run. */
  lemma MidiStepContinues(c: Ctx, steps: seq<Step>, job: Job)
    requires |steps| > 2 && steps[2] == Step(Some("generate_music_file"), Some(JStr("midi")))
    requires MusicKey in c.results && c.hasMusic
    requires '/' !in job.taskId && MidiOraclesSucceed(job)
    ensures RunFrom(c, steps, 2, job, Intended) ==
      RunFrom(c.(logged := c.logged + [steps[2].stepType],
                 results := c.results[GeneratedKey := MusicGenerated("midi", MidiKey(job.taskId),
                                                                     S3Url(job.bucket, MidiKey(job.taskId)))]),
              steps, 3, job, Intended)
  {
    var c1 := c.(logged := c.logged + [steps[2].stepType]);
    MidiGenerationSucceeds(c1, job);
    ContinueRun(c, steps, 2, job, c1.(results := c1.results[GeneratedKey := MusicGenerated("midi", MidiKey(job.taskId),
                                                                S3Url(job.bucket, MidiKey(job.taskId)))]));
  }

  /** The three standard steps run on a downloaded score with working oracles. */
  lemma StandardStepsRun(c0: Ctx, steps: seq<Step>, job: Job)
    requires |steps| >= 3 && steps[..3] == StandardSteps("midi")
    requires c0.downloadedPath.Some? && c0.downloadedPath.value != ""
    requires '/' !in job.taskId && MidiOraclesSucceed(job)
    ensures RunFrom(c0, steps, 0, job, Intended) ==
      RunFrom(c0.(hasMusic := true, text := Some(MockText),
                  logged := c0.logged + [Some("extract_music_data"), Some("extract_text_from_score"),
                                         Some("generate_music_file")],
                  results := c0.results[MusicKey := MusicExtracted][TextKey := TextExtracted(|MockText|)]
                               [GeneratedKey := MusicGenerated("midi", MidiKey(job.taskId),
                                                               S3Url(job.bucket, MidiKey(job.taskId)))]),
              steps, 3, job, Intended)
  {
    assert steps[0] == Step(Some("extract_music_data"), None);
    assert steps[1] == Step(Some("extract_text_from_score"), None);
    assert steps[2] == Step(Some("generate_music_file"), Some(JStr("midi")));
    MusicStepContinues(c0, steps, job);
    var c2 := c0.(logged := c0.logged + [steps[0].stepType], hasMusic := true,
                  results := c0.results[MusicKey := MusicExtracted]);
    TextStepContinues(c2, steps, job);
    var c4 := c2.(logged := c2.logged + [steps[1].stepType], text := Some(MockText),
                  results := c2.results[TextKey := TextExtracted(|MockText|)]);
    MidiStepContinues(c4, steps, job);
    var c6 := c4.(logged := c4.logged + [steps[2].stepType],
                  results := c4.results[GeneratedKey := MusicGenerated("midi", MidiKey(job.taskId),
                                                                       S3Url(job.bucket, MidiKey(job.taskId)))]);
    ThreeEntries(c0.logged, Some("extract_music_data"), Some("extract_text_from_score"), Some("generate_music_file"));
  }

  lemma ThreeEntries<T>(s: seq<T>, a: T, b: T, c: T)
    ensures s + [a] + [b] + [c] == s + [a, b, c]
  {
  }

  /** With a working model, the translation step records the model's answer for the whole text. */
  lemma TranslationSucceeds(c: Ctx, job: Job)
    requires c.text == Some(MockText)
    requires job.env.llmSetup(3, job.model) == Pass && job.env.llmRun(3, MockText).Ok?
    ensures RunStep(c, TranslateStep, 3, job) ==
      Continue(c.(results := c.results[TranslationKey := Translated(MockText, Strip(job.env.llmRun(3, MockText).value))]))
  {
    MockTextIsSentWhole();
  }

  /**
   * A descriptor queued for a MIDI result, fetched from S3 and processed
   * with every outside call succeeding, runs the three processing steps
   * and then the translation if one was asked for; it extracts the text,
   * records the model's translation of all of it, uploads the result as
   * `results/<task id>/<task id>.mid`, and stays "processing".
   */
  lemma QueuedMidiTaskRunsToTheEnd(d: TaskPayload, config: StorageConfig, filename: string, ext: string,
                                   translate: bool, taskId: string, uploadedAt: string,
                                   workerConfig: StorageConfig, env: Env)
    requires IsIntakeDescriptor(d, config, filename, ext, "midi", translate, taskId, uploadedAt)
    requires config.storageType == "s3" && config.bucketName.Some? && config.bucketName.value != ""
    requires '/' !in taskId
    requires env.s3Download(config.bucketName.value, ObjectKey(taskId, filename),
                            "/tmp/" + taskId + "_" + Basename(filename)) == Pass
    requires var out := "/tmp/" + taskId + ".mid";
      env.writeOutput(2, out) == Pass && env.existsAfterWrite(2, out)
      && env.uploadResult(2, out, workerConfig.bucketName, "results/" + taskId + "/" + taskId + ".mid") == Pass
      && env.removeOutput(2, out) == Pass
    requires translate ==> env.llmSetup(3, DefaultModel) == Pass && env.llmRun(3, MockText).Ok?
    ensures var exit := ExitContext(d, workerConfig, env);
      var key := "results/" + taskId + "/" + taskId + ".mid";
      exit.status == "processing"
      && exit.downloadedPath == Some("/tmp/" + taskId + "_" + Basename(filename))
      && exit.logged == [Some("extract_music_data"), Some("extract_text_from_score"), Some("generate_music_file")]
                        + (if translate then [Some("translate_to_shakespearean")] else [])
      && MusicKey in exit.results && exit.results[MusicKey] == MusicExtracted
      && TextKey in exit.results && exit.results[TextKey] == TextExtracted(|MockText|)
      && GeneratedKey in exit.results
      && exit.results[GeneratedKey] == MusicGenerated("midi", key, S3Url(workerConfig.bucketName, key))
      && (translate <==> TranslationKey in exit.results)
      && (translate ==>
            exit.results[TranslationKey] == Translated(MockText, Strip(env.llmRun(3, MockText).value)))
  {
    QueuedDescriptorIsFetched(d, config, filename, ext, translate, taskId, uploadedAt, env);
    var path := "/tmp/" + taskId + "_" + Basename(filename);
    var job := JobOf(d, workerConfig, env);
    var steps := AllSteps(d);
    var c0 := Started(d, path, "s3");
    assert steps[..3] == StandardSteps("midi");
    StandardStepsRun(c0, steps, job);
    var key := MidiKey(taskId);
    var c6 := c0.(hasMusic := true, text := Some(MockText),
                  logged := c0.logged + [Some("extract_music_data"), Some("extract_text_from_score"),
                                         Some("generate_music_file")],
                  results := c0.results[MusicKey := MusicExtracted][TextKey := TextExtracted(|MockText|)]
                               [GeneratedKey := MusicGenerated("midi", key, S3Url(job.bucket, key))]);
    assert TranslationKey !in c0.results;
    if translate {
      assert steps[3] == TranslateStep;
      var c7 := c6.(logged := c6.logged + [steps[3].stepType]);
      TranslationSucceeds(c7, job);
      var c8 := c7.(results := c7.results[TranslationKey := Translated(MockText, Strip(env.llmRun(3, MockText).value))]);
      assert RunFrom(c8, steps, 4, job, Intended) == Finished(c8);
    } else {
      assert RunFrom(c6, steps, 3, job, Intended) == Finished(c6);
    }
  }
}
