/** The client's details view of one task: which result sections it renders. */
module TaskDetails {
  import opened Wrappers
  import opened Json
  import opened Strings
  import opened ClientTasks

  const CompletedWithErrorsStatus := "completed_with_errors"
  const PartialErrorsDefault := "Task completed with some errors."
  /** The `TypeError` a truthy location that is not a string raises at `startsWith`. */
  const StartsWithNotAFunction := "musicFileLocation.startsWith is not a function"

  /** The music section: the file location and whether an audio player is rendered for it. */
  datatype MusicSection = MusicSection(location: string, audio: bool)

  datatype DetailsView =
    | LoadingView(notice: string)
    | ResultsView(
        filename: string,
        status: Json,
        translation: Option<Json>,
        music: Option<MusicSection>,
        analysis: Option<Json>,
        errorBox: Option<string>,
        warning: Option<string>)
    | RenderFailed(error: string)

  /** The loading view's subject, `task?.filename || task?.id`; JSX renders `undefined` as nothing. */
  function Subject(task: Option<ClientTask>): string {
    if task.None? then ""
    else if task.value.filename != "" then task.value.filename
    else task.value.id
  }

  /** `task.result.detailed_results || {}`. */
  function DetailedResults(result: Option<Json>): (r: Json)
    ensures JsTruthyOpt(Member(result, "detailed_results")) ==> Some(r) == Member(result, "detailed_results")
    ensures !JsTruthyOpt(Member(result, "detailed_results")) ==> r == JObj(map[])
  {
    var d := Member(result, "detailed_results");
    if JsTruthyOpt(d) then d.value else JObj(map[])
  }

  /** `detailedResults.generated_music_file?.s3_key || detailedResults.generated_music_file?.url`. */
  function MusicLocation(detailed: Json): Option<Json> {
    var file := Member(Some(detailed), "generated_music_file");
    JsOr(Member(file, "s3_key"), Member(file, "url"))
  }

  /** `detailedResults.shakespearean_translation?.translated`. */
  function TranslatedText(detailed: Json): Option<Json> {
    Member(Member(Some(detailed), "shakespearean_translation"), "translated")
  }

  /** `detailedResults.analysis_summary`. */
  function AnalysisSummary(detailed: Json): Option<Json> {
    Member(Some(detailed), "analysis_summary")
  }

  /** The rendered view (TaskDetails.jsx, lines 9-90). */
  function Details(task: Option<ClientTask>): DetailsView {
    if task.None? || !JsTruthyOpt(task.value.result) then
      LoadingView("Loading or no result data available for task " + Subject(task) + "...")
    else
      var t := task.value;
      var detailed := DetailedResults(t.result);
      var location := MusicLocation(detailed);
      var translated := TranslatedText(detailed);
      var analysis := AnalysisSummary(detailed);
      if JsTruthyOpt(location) && !location.value.JStr? then RenderFailed(StartsWithNotAFunction)
      else
        ResultsView(
          t.filename,
          t.status,
          if JsTruthyOpt(translated) then translated else None,
          if JsTruthyOpt(location)
          then Some(MusicSection(location.value.s, StartsWith(location.value.s, "http")))
          else None,
          if JsTruthyOpt(analysis) then analysis else None,
          if t.status == JStr(Failed) && t.error.Some? && t.error.value != "" then t.error else None,
          if t.status == JStr(CompletedWithErrorsStatus)
          then Some(OrText(t.error, PartialErrorsDefault))
          else None)
  }

  /** Only the loading view shows when there is no task or its result is falsy. */
  lemma LoadingIffNoResult(task: Option<ClientTask>)
    ensures Details(task).LoadingView? <==> task.None? || !JsTruthyOpt(task.value.result)
  {
  }

  /** A result without truthy `detailed_results` renders no translation, music or analysis section. */
  lemma NoDetailedResultsNoSections(t: ClientTask)
    requires JsTruthyOpt(t.result)
    requires !JsTruthyOpt(Member(t.result, "detailed_results"))
    ensures Details(Some(t)).ResultsView?
    ensures Details(Some(t)).translation.None?
    ensures Details(Some(t)).music.None?
    ensures Details(Some(t)).analysis.None?
  {
    var d := DetailedResults(t.result);
    assert d == JObj(map[]);
    assert Member(Some(d), "generated_music_file").None?;
  }

  /**
   * The music section shows the `s3_key` when it is truthy and the `url`
   * otherwise; it is absent when neither is, and the audio player is
   * rendered exactly for an `http` location.
   */
  lemma MusicSectionChoice(t: ClientTask)
    requires Details(Some(t)).ResultsView?
    ensures var file := Member(Some(DetailedResults(t.result)), "generated_music_file");
      var m := Details(Some(t)).music;
      (m.Some? <==> JsTruthyOpt(Member(file, "s3_key")) || JsTruthyOpt(Member(file, "url")))
      && (m.Some? && JsTruthyOpt(Member(file, "s3_key")) ==> Member(file, "s3_key") == Some(JStr(m.value.location)))
      && (m.Some? && !JsTruthyOpt(Member(file, "s3_key")) ==> Member(file, "url") == Some(JStr(m.value.location)))
      && (m.Some? ==> (m.value.audio <==> StartsWith(m.value.location, "http")))
  {
  }

  /** A truthy music location that is not a string makes the render throw. */
  lemma NonStringLocationFailsRender(t: ClientTask)
    requires JsTruthyOpt(t.result)
    requires var l := MusicLocation(DetailedResults(t.result)); JsTruthyOpt(l) && !l.value.JStr?
    ensures Details(Some(t)) == RenderFailed(StartsWithNotAFunction)
  {
  }

  /** The translation section shows exactly when the translated text is truthy. */
  lemma TranslationShownIff(t: ClientTask)
    requires Details(Some(t)).ResultsView?
    ensures Details(Some(t)).translation.Some? <==> JsTruthyOpt(TranslatedText(DetailedResults(t.result)))
    ensures Details(Some(t)).translation.Some? ==>
      Details(Some(t)).translation == TranslatedText(DetailedResults(t.result))
  {
  }

  /**
   * The error box needs status `'failed'` and a non-empty error; a task
   * completed with errors always shows a warning, with a fallback text.
   */
  lemma ErrorSectionsIff(t: ClientTask)
    requires Details(Some(t)).ResultsView?
    ensures Details(Some(t)).errorBox.Some? <==>
      t.status == JStr(Failed) && t.error.Some? && t.error.value != ""
    ensures Details(Some(t)).errorBox.Some? ==> Details(Some(t)).errorBox == t.error
    ensures Details(Some(t)).warning.Some? <==> t.status == JStr(CompletedWithErrorsStatus)
    ensures t.status == JStr(CompletedWithErrorsStatus) && (t.error.None? || t.error == Some("")) ==>
      Details(Some(t)).warning == Some(PartialErrorsDefault)
  {
  }

  /** A stored S3 key (`results/...`) shows as a location without an audio player. */
  lemma StoredKeyHasNoPlayer(t: ClientTask, key: string)
    requires JsTruthyOpt(t.result)
    requires key != "" && key[0] == 'r'
    requires Member(Some(DetailedResults(t.result)), "generated_music_file") ==
      Some(JObj(map["s3_key" := JStr(key)]))
    ensures Details(Some(t)).ResultsView?
    ensures Details(Some(t)).music == Some(MusicSection(key, false))
  {
    var file := Member(Some(DetailedResults(t.result)), "generated_music_file");
    assert Member(file, "s3_key") == Some(JStr(key));
  }
}
