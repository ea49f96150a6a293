/**
 * The single-page app's session state and its transitions: start-up from
 * storage, running an analysis, attaching a review, resetting, opening a
 * journal entry, and the gate that picks the panel to show.
 */
module App {
  import opened Wrappers
  import opened JsBuiltins
  import opened Types
  import opened GeminiService

  const LogsKey := "vancelle_logs"
  const SettingsKey := "vancelle_settings"
  const DefaultSettings := Settings(10000.0, 1.0)
  const UnknownErrorText := "An unknown error occurred during analysis."

  /** The app's state record; `logs` are kept newest first. */
  datatype AppState = AppState(
    activeTab: Tab,
    chartImage: Option<string>,
    analysisResult: Option<AnalysisResult>,
    isLoading: bool,
    error: Option<string>,
    logs: seq<TradeLog>,
    settings: Settings)

  /** Browser local storage, key to stored text. */
  type Storage = map<string, string>

  /**
   * `saved ? JSON.parse(saved) : fallback`: an absent or empty (falsy) entry
   * gives the fallback; otherwise the parse decides, `None` meaning it threw.
   */
  function LoadDocument<T>(store: Storage, key: string, parse: string -> Option<T>, fallback: T): (r: Option<T>)
    ensures key !in store || store[key] == "" ==> r == Some(fallback)
    ensures key in store && store[key] != "" ==> r == parse(store[key])
  {
    if key in store && store[key] != "" then parse(store[key]) else Some(fallback)
  }

  /** Start-up fails (the component throws while mounting) when a stored document does not parse. */
  datatype StartupError = LogsUnparsable | SettingsUnparsable

  /** The state the app mounts with. Logs are read before settings, so a bad log document is reported first. */
  function InitialState(store: Storage, parseLogs: string -> Option<seq<TradeLog>>, parseSettings: string -> Option<Settings>)
    : (r: Result<AppState, StartupError>)
    ensures var logs := LoadDocument(store, LogsKey, parseLogs, []);
      var settings := LoadDocument(store, SettingsKey, parseSettings, DefaultSettings);
      && (r == Failure(LogsUnparsable) <==> logs.None?)
      && (r == Failure(SettingsUnparsable) <==> logs.Some? && settings.None?)
      && (r.Success? ==> r.value == AppState(Analyze, None, None, false, None, logs.value, settings.value))
  {
    match LoadDocument(store, LogsKey, parseLogs, [])
    case None => Failure(LogsUnparsable)
    case Some(logs) =>
      match LoadDocument(store, SettingsKey, parseSettings, DefaultSettings)
      case None => Failure(SettingsUnparsable)
      case Some(settings) => Success(AppState(Analyze, None, None, false, None, logs, settings))
  }

  /** With nothing stored, the app starts on the analyze tab with no logs and the default settings. */
  lemma EmptyStorageDefaults(parseLogs: string -> Option<seq<TradeLog>>, parseSettings: string -> Option<Settings>)
    ensures InitialState(map[], parseLogs, parseSettings)
      == Success(AppState(Analyze, None, None, false, None, [], Settings(10000.0, 1.0)))
  {
  }

  /** The two storage effects: every change of logs or settings rewrites that key in full. */
  function Persist(store: Storage, s: AppState, encodeLogs: seq<TradeLog> -> string, encodeSettings: Settings -> string)
    : (r: Storage)
    ensures r.Keys == store.Keys + {LogsKey, SettingsKey}
    ensures r[LogsKey] == encodeLogs(s.logs) && r[SettingsKey] == encodeSettings(s.settings)
    ensures forall k :: k in store && k != LogsKey && k != SettingsKey ==> r[k] == store[k]
  {
    store[LogsKey := encodeLogs(s.logs)][SettingsKey := encodeSettings(s.settings)]
  }

  /** Reloading after persisting restores the same logs, in order, and the same settings. */
  lemma ReloadRestores(
    store: Storage, s: AppState,
    encodeLogs: seq<TradeLog> -> string, parseLogs: string -> Option<seq<TradeLog>>,
    encodeSettings: Settings -> string, parseSettings: string -> Option<Settings>)
    requires parseLogs(encodeLogs(s.logs)) == Some(s.logs) && encodeLogs(s.logs) != ""
    requires parseSettings(encodeSettings(s.settings)) == Some(s.settings) && encodeSettings(s.settings) != ""
    ensures InitialState(Persist(store, s, encodeLogs, encodeSettings), parseLogs, parseSettings)
      == Success(AppState(Analyze, None, None, false, None, s.logs, s.settings))
  {
  }

  /** The upload callback: only the chart image changes. */
  function UploadImage(s: AppState, url: string): (r: AppState)
    ensures r.chartImage == Some(url)
    ensures r.(chartImage := s.chartImage) == s
  {
    s.(chartImage := Some(url))
  }

  /** The navigation callback: only the active tab changes. */
  function SelectTab(s: AppState, t: Tab): (r: AppState)
    ensures r.activeTab == t
    ensures r.(activeTab := s.activeTab) == s
  {
    s.(activeTab := t)
  }

  /** The settings callback: only the settings change. */
  function ChangeSettings(s: AppState, settings: Settings): (r: AppState)
    ensures r.settings == settings
    ensures r.(settings := s.settings) == s
  {
    s.(settings := settings)
  }

  /** The user-visible text for a thrown value. */
  function ErrorMessage(e: Thrown): (m: string)
    ensures e.ErrorInstance? ==> m == e.message
    ensures e.StringThrown? ==> m == e.text
    ensures e.OtherThrown? && e.truthy && e.messageField.StringMessage? ==> m == e.messageField.text
    ensures e.OtherThrown? && !(e.truthy && e.messageField.StringMessage?) ==> m == UnknownErrorText
  {
    match e
    case ErrorInstance(message) => message
    case StringThrown(text) => text
    case OtherThrown(truthy, field) =>
      if truthy && field.StringMessage? then field.text else UnknownErrorText
  }

  /**
   * The three ways of carrying a message agree: an Error, a thrown string and
   * a plain object with a string `message` all show the same text, and only
   * a value without a usable message shows the fixed text.
   */
  lemma ThrownFormsAgree(m: string, e: Thrown)
    ensures ErrorMessage(ErrorInstance(m)) == ErrorMessage(StringThrown(m)) == ErrorMessage(OtherThrown(true, StringMessage(m))) == m
    ensures ErrorMessage(e) == UnknownErrorText <==>
      (e.OtherThrown? && !(e.truthy && e.messageField.StringMessage?))
      || (e.ErrorInstance? && e.message == UnknownErrorText)
      || (e.StringThrown? && e.text == UnknownErrorText)
      || (e.OtherThrown? && e.truthy && e.messageField.StringMessage? && e.messageField.text == UnknownErrorText)
  {
  }

  /** How the awaited call ended: it returned a result, or it threw. */
  datatype CallOutcome = Returned(result: AnalysisResult) | Threw(thrown: Thrown)

  /** The state while the call is awaited: loading, error cleared, nothing else touched. */
  function BeginAnalysis(s: AppState): (r: AppState)
    ensures r.isLoading && r.error.None?
    ensures r.(isLoading := s.isLoading, error := s.error) == s
  {
    s.(isLoading := true, error := None)
  }

  /** The journal entry a completed analysis creates; the clock readings are parameters. */
  function NewLog(id: string, timestamp: int, request: AnalysisRequest, result: AnalysisResult): (r: TradeLog)
    ensures r.id == id && r.timestamp == timestamp
    ensures r.image == request.image && r.result == result
    ensures r.review.None?
  {
    TradeLog(id, timestamp, request.image, result, None)
  }

  /**
   * The part of `handleAnalysis` after the await, on the state the app is in
   * by then: only a COMPLETE result is journalled, a returned result always
   * opens the decision tab, a throw only sets the error text, and loading
   * ends on every path. The log update is functional (`prev => ...`), so it
   * prepends to the logs as they are when the call ends.
   */
  function FinishAnalysis(s: AppState, request: AnalysisRequest, call: CallOutcome, id: string, timestamp: int)
    : (r: AppState)
    requires s.isLoading
    ensures !r.isLoading
    ensures r.chartImage == s.chartImage && r.settings == s.settings
    ensures call.Returned? ==>
      && r.analysisResult == Some(call.result) && r.activeTab == Decision && r.error == s.error
      && (call.result.status == Complete ==>
            |r.logs| == |s.logs| + 1 && r.logs[0] == NewLog(id, timestamp, request, call.result) && r.logs[1..] == s.logs)
      && (call.result.status == Incomplete ==> r.logs == s.logs)
    ensures call.Threw? ==>
      && r.logs == s.logs && r.analysisResult == s.analysisResult && r.activeTab == s.activeTab
      && r.error == Some(ErrorMessage(call.thrown))
  {
    match call
    case Returned(result) =>
      var logs := if result.status == Complete then [NewLog(id, timestamp, request, result)] + s.logs else s.logs;
      s.(analysisResult := Some(result), logs := logs, activeTab := Decision, isLoading := false)
    case Threw(thrown) =>
      s.(error := Some(ErrorMessage(thrown)), isLoading := false)
  }

  /**
   * `handleAnalysis` with nothing happening during the await: begin, then
   * finish. The bottom navigation stays mounted while loading, so a tab can
   * also be selected in between; `TabPickedWhileWaitingSurvivesThrow`
   * composes that case.
   */
  function HandleAnalysis(s: AppState, request: AnalysisRequest, call: CallOutcome, id: string, timestamp: int)
    : (r: AppState)
    ensures !r.isLoading
    ensures r.chartImage == s.chartImage && r.settings == s.settings
    ensures call.Returned? ==>
      && r.analysisResult == Some(call.result) && r.activeTab == Decision && r.error.None?
      && (call.result.status == Complete ==>
            |r.logs| == |s.logs| + 1 && r.logs[0] == NewLog(id, timestamp, request, call.result) && r.logs[1..] == s.logs)
      && (call.result.status == Incomplete ==> r.logs == s.logs)
    ensures call.Threw? ==>
      && r.logs == s.logs && r.analysisResult == s.analysisResult && r.activeTab == s.activeTab
      && r.error == Some(ErrorMessage(call.thrown))
  {
    FinishAnalysis(BeginAnalysis(s), request, call, id, timestamp)
  }

  /**
   * A tab picked in the bottom navigation while the call is awaited is still
   * the active tab after a throw, while a returned result switches to the
   * decision tab regardless.
   */
  lemma TabPickedWhileWaitingSurvivesThrow(s: AppState, t: Tab, request: AnalysisRequest, call: CallOutcome, id: string, timestamp: int)
    ensures var r := FinishAnalysis(SelectTab(BeginAnalysis(s), t), request, call, id, timestamp);
      && (call.Threw? ==> r.activeTab == t && r.error == Some(ErrorMessage(call.thrown)))
      && (call.Returned? ==> r.activeTab == Decision)
  {
  }

  /** Sets `review` on every log whose image is the current chart image; the rest stay as they are. */
  function AttachReview(logs: seq<TradeLog>, image: Option<string>, review: TradeReview): (r: seq<TradeLog>)
    ensures |r| == |logs|
    ensures forall i :: 0 <= i < |logs| && Some(logs[i].image) == image ==> r[i] == logs[i].(review := Some(review))
    ensures forall i :: 0 <= i < |logs| && Some(logs[i].image) != image ==> r[i] == logs[i]
  {
    if |logs| == 0 then []
    else
      var head := if Some(logs[0].image) == image then logs[0].(review := Some(review)) else logs[0];
      [head] + AttachReview(logs[1..], image, review)
  }

  /** Attaching the same review again changes nothing. */
  lemma {:induction false} AttachReviewIdempotent(logs: seq<TradeLog>, image: Option<string>, review: TradeReview)
    ensures AttachReview(AttachReview(logs, image, review), image, review) == AttachReview(logs, image, review)
  {
    var once := AttachReview(logs, image, review);
    var twice := AttachReview(once, image, review);
    assert forall i :: 0 <= i < |logs| ==> once[i].image == logs[i].image;
    assert forall i :: 0 <= i < |logs| ==> twice[i] == once[i];
  }

  /** `handleReviewSubmit`: review the matching logs, then reset the session. */
  function ReviewSubmit(s: AppState, review: TradeReview): (r: AppState)
    ensures r.logs == AttachReview(s.logs, s.chartImage, review)
    ensures r.chartImage.None? && r.analysisResult.None? && r.error.None? && r.activeTab == Analyze
    ensures r.isLoading == s.isLoading && r.settings == s.settings
  {
    Reset(s.(logs := AttachReview(s.logs, s.chartImage, review)))
  }

  /** `resetApp`: back to an empty analyze tab; logs, settings and loading are kept. */
  function Reset(s: AppState): (r: AppState)
    ensures r.chartImage.None? && r.analysisResult.None? && r.error.None? && r.activeTab == Analyze
    ensures r.logs == s.logs && r.settings == s.settings && r.isLoading == s.isLoading
  {
    s.(chartImage := None, analysisResult := None, error := None, activeTab := Analyze)
  }

  /** Clicking a journal entry reopens its image and result on the decision tab. */
  function OpenLog(s: AppState, i: nat): (r: AppState)
    requires i < |s.logs|
    ensures r.chartImage == Some(s.logs[i].image) && r.analysisResult == Some(s.logs[i].result)
    ensures r.activeTab == Decision
    ensures r.logs == s.logs && r.settings == s.settings && r.isLoading == s.isLoading && r.error == s.error
  {
    s.(chartImage := Some(s.logs[i].image), analysisResult := Some(s.logs[i].result), activeTab := Decision)
  }

  /** How many logs carry a review (`logs.filter(l => l.review).length`). */
  function ReviewedCount(logs: seq<TradeLog>): (r: nat)
    ensures r <= |logs|
    ensures r == 0 <==> forall i :: 0 <= i < |logs| ==> logs[i].review.None?
  {
    if |logs| == 0 then 0 else (if logs[0].review.Some? then 1 else 0) + ReviewedCount(logs[1..])
  }

  /** How many logs carry a WIN review. */
  function WinCount(logs: seq<TradeLog>): (r: nat)
    ensures r <= |logs|
    ensures r == 0 <==> forall i :: 0 <= i < |logs| ==> logs[i].review.None? || logs[i].review.value.outcome != Win
  {
    if |logs| == 0 then 0
    else (if logs[0].review.Some? && logs[0].review.value.outcome == Win then 1 else 0) + WinCount(logs[1..])
  }

  lemma {:induction false} WinsAtMostReviewed(logs: seq<TradeLog>)
    ensures WinCount(logs) <= ReviewedCount(logs) <= |logs|
  {
    if |logs| > 0 {
      WinsAtMostReviewed(logs[1..]);
    }
  }

  /** Attaching a review never un-reviews a log, and leaves every matching log reviewed. */
  lemma {:induction false} AttachReviewCounts(logs: seq<TradeLog>, image: Option<string>, review: TradeReview)
    ensures ReviewedCount(AttachReview(logs, image, review)) >= ReviewedCount(logs)
    ensures (exists i :: 0 <= i < |logs| && Some(logs[i].image) == image && logs[i].review.None?) ==>
      ReviewedCount(AttachReview(logs, image, review)) > ReviewedCount(logs)
  {
    if |logs| > 0 {
      var r := AttachReview(logs, image, review);
      AttachReviewCounts(logs[1..], image, review);
      assert r[1..] == AttachReview(logs[1..], image, review);
      if exists i :: 0 <= i < |logs| && Some(logs[i].image) == image && logs[i].review.None? {
        var i :| 0 <= i < |logs| && Some(logs[i].image) == image && logs[i].review.None?;
        if i > 0 {
          assert logs[1..][i - 1] == logs[i];
        }
      }
    }
  }

  /**
   * `Math.round(wins / total * 100)` in exact arithmetic: the nearest
   * integer to the percentage, halves rounded up.
   */
  function RoundPercent(wins: nat, total: nat): (r: nat)
    requires 0 < total && wins <= total
    ensures r <= 100
    ensures 2 * r * total - total <= 200 * wins < 2 * r * total + total
  {
    var q := (200 * wins + total) / (2 * total);
    var rem := (200 * wins + total) % (2 * total);
    assert 200 * wins + total == 2 * total * q + rem && 0 <= rem < 2 * total;
    assert 2 * total * q <= 201 * total;
    q
  }

  /** The learn tab's win rate: 0 with no reviews, else the rounded share of WIN reviews. */
  function WinRate(logs: seq<TradeLog>): (r: nat)
    ensures r <= 100
    ensures ReviewedCount(logs) == 0 ==> r == 0
    ensures ReviewedCount(logs) > 0 ==>
      var total := ReviewedCount(logs);
      2 * r * total - total <= 200 * WinCount(logs) < 2 * r * total + total
  {
    WinsAtMostReviewed(logs);
    var total := ReviewedCount(logs);
    if total > 0 then RoundPercent(WinCount(logs), total) else 0
  }

  /** The panel `renderContent` returns. */
  datatype Panel =
    | SpinnerPanel
    | AnalyzePanel(image: Option<string>, error: Option<string>)
    | DecisionPanel(result: AnalysisResult, chart: string)
    | NoSessionPanel
    | SettingsPanel(settings: Settings)
    | LearnPanel(winRate: nat, reviewed: nat)
    | JournalPanel(entries: seq<TradeLog>)

  /**
   * The render gate. The `Tab.SETTINGS` case compares against a member
   * `Tab` does not have (it is `undefined` at run time), so the settings
   * panel is never chosen; EXPLAIN falls through to the analyze panel.
   */
  function RenderContent(s: AppState): (p: Panel)
    ensures p.SpinnerPanel? <==> s.isLoading
    ensures p.AnalyzePanel? <==> !s.isLoading && (s.activeTab == Analyze || s.activeTab == Explain)
    ensures p.AnalyzePanel? ==> p.image == s.chartImage && p.error == s.error
    ensures p.DecisionPanel? <==>
      !s.isLoading && s.activeTab == Decision && s.analysisResult.Some? && s.chartImage.Some? && s.chartImage.value != ""
    ensures p.DecisionPanel? ==> Some(p.result) == s.analysisResult && Some(p.chart) == s.chartImage
    ensures p.NoSessionPanel? <==> !s.isLoading && s.activeTab == Decision && !p.DecisionPanel?
    ensures p.LearnPanel? <==> !s.isLoading && s.activeTab == Learn
    ensures p.LearnPanel? ==> p.winRate == WinRate(s.logs) && p.reviewed == ReviewedCount(s.logs)
    ensures p.JournalPanel? ==> p.entries == s.logs
    ensures !p.SettingsPanel?
  {
    if s.isLoading then SpinnerPanel
    else
      match s.activeTab
      case Analyze => AnalyzePanel(s.chartImage, s.error)
      case Decision =>
        if s.analysisResult.Some? && s.chartImage.Some? && s.chartImage.value != "" then
          DecisionPanel(s.analysisResult.value, s.chartImage.value)
        else NoSessionPanel
      case Learn => LearnPanel(WinRate(s.logs), ReviewedCount(s.logs))
      case Journal => JournalPanel(s.logs)
      case Explain => AnalyzePanel(s.chartImage, s.error)
  }

  /** While the call is awaited, only the spinner shows. */
  lemma SpinnerWhileAwaiting(s: AppState)
    ensures RenderContent(BeginAnalysis(s)) == SpinnerPanel
  {
  }

  /**
   * End to end: analysing the uploaded chart shows the returned result on
   * the decision panel, and a COMPLETE result heads the journal.
   */
  lemma AnalysisShowsDecision(s: AppState, request: AnalysisRequest, result: AnalysisResult, id: string, timestamp: int)
    requires s.chartImage == Some(request.image) && request.image != ""
    ensures var r := HandleAnalysis(s, request, Returned(result), id, timestamp);
      && RenderContent(r) == DecisionPanel(result, request.image)
      && (result.status == Complete ==> r.logs[0].result == result && r.logs[0].image == request.image)
  {
  }

  /** A review submitted right after a COMPLETE analysis lands on the new journal entry. */
  lemma ReviewLandsOnNewLog(s: AppState, request: AnalysisRequest, result: AnalysisResult, id: string, timestamp: int, review: TradeReview)
    requires s.chartImage == Some(request.image) && result.status == Complete
    ensures var r := ReviewSubmit(HandleAnalysis(s, request, Returned(result), id, timestamp), review);
      && r.logs[0].review == Some(review)
      && r.logs[0].result == result
      && ReviewedCount(r.logs) >= 1
  {
    var after := HandleAnalysis(s, request, Returned(result), id, timestamp);
    var r := ReviewSubmit(after, review);
    assert r.logs[0] == after.logs[0].(review := Some(review));
    assert r.logs[0].review.Some?;
  }

  /** Reopening a journal entry shows it on the decision panel. */
  lemma OpenLogShowsDecision(s: AppState, i: nat)
    requires i < |s.logs| && !s.isLoading && s.logs[i].image != ""
    ensures RenderContent(OpenLog(s, i)) == DecisionPanel(s.logs[i].result, s.logs[i].image)
  {
  }

  /** Logs ordered newest first by timestamp, as prepending keeps them. */
  predicate NewestFirst(logs: seq<TradeLog>) {
    forall i, j :: 0 <= i < j < |logs| ==> logs[i].timestamp >= logs[j].timestamp
  }

  /** With a clock that does not run backwards, an analysis keeps the journal newest first. */
  lemma HandleAnalysisKeepsNewestFirst(s: AppState, request: AnalysisRequest, call: CallOutcome, id: string, timestamp: int)
    requires NewestFirst(s.logs)
    requires forall i :: 0 <= i < |s.logs| ==> s.logs[i].timestamp <= timestamp
    ensures NewestFirst(HandleAnalysis(s, request, call, id, timestamp).logs)
  {
    var r := HandleAnalysis(s, request, call, id, timestamp);
    if call.Returned? && call.result.status == Complete {
      forall i, j | 0 <= i < j < |r.logs|
        ensures r.logs[i].timestamp >= r.logs[j].timestamp
      {
        assert r.logs[j] == s.logs[j - 1];
        if i > 0 {
          assert r.logs[i] == s.logs[i - 1];
        }
      }
    }
  }

  /**
   * The app hands its newest-first logs to `analyzeChart`, whose
   * `slice(-3)` therefore picks the three OLDEST entries: no entry in the
   * window is newer than any entry left out.
   */
  lemma LearningWindowIsOldest(logs: seq<TradeLog>)
    requires NewestFirst(logs)
    ensures var w := HistoryWindow(logs);
      forall k, a :: 0 <= k < |w| && 0 <= a < |logs| - |w| ==> w[k].timestamp <= logs[a].timestamp
  {
    var w := HistoryWindow(logs);
    forall k, a | 0 <= k < |w| && 0 <= a < |logs| - |w|
      ensures w[k].timestamp <= logs[a].timestamp
    {
      WindowKeepsOrder(logs, k);
    }
  }
}
