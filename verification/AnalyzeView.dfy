/**
 * The analyze form: pair, timeframe and notes, the enabled state of the
 * submit button, and the request a click emits.
 */
module AnalyzeView {
  import opened Wrappers
  import opened JsBuiltins
  import opened Types

  const Timeframes: seq<string> := ["15m", "30m", "1H", "4H", "Daily"]

  datatype Form = Form(pair: string, selectedTimeframe: string, notes: string)

  const InitialForm := Form("", "", "")

  /** The form's input events; a timeframe button is named by its position in `Timeframes`. */
  datatype FormEvent = TypePair(input: string) | PickTimeframe(index: nat) | TypeNotes(text: string)

  /** Only the five timeframe buttons exist. */
  predicate ValidEvent(e: FormEvent) {
    e.PickTimeframe? ==> e.index < |Timeframes|
  }

  /** One input event; each changes its own field only, and the pair is stored upper-cased. */
  function Step(f: Form, e: FormEvent): (r: Form)
    requires ValidEvent(e)
    ensures e.TypePair? ==> r.pair == ToUpperCase(e.input) && r.(pair := f.pair) == f
    ensures e.PickTimeframe? ==> r.selectedTimeframe == Timeframes[e.index] && r.(selectedTimeframe := f.selectedTimeframe) == f
    ensures e.TypeNotes? ==> r.notes == e.text && r.(notes := f.notes) == f
  {
    match e
    case TypePair(input) => f.(pair := ToUpperCase(input))
    case PickTimeframe(i) => f.(selectedTimeframe := Timeframes[i])
    case TypeNotes(text) => f.(notes := text)
  }

  /** The state after a sequence of events, first event first. */
  function Run(f: Form, events: seq<FormEvent>): Form
    requires forall i :: 0 <= i < |events| ==> ValidEvent(events[i])
    decreases |events|
  {
    if |events| == 0 then f else Run(Step(f, events[0]), events[1..])
  }

  /** What the form always satisfies: no timeframe or a listed one, and a pair without lower-case letters. */
  predicate Consistent(f: Form) {
    && (f.selectedTimeframe == "" || f.selectedTimeframe in Timeframes)
    && forall i :: 0 <= i < |f.pair| ==> !('a' <= f.pair[i] <= 'z')
  }

  /** The form the view mounts with is consistent. */
  lemma InitialFormConsistent()
    ensures Consistent(InitialForm)
  {
  }

  /** Every sequence of events keeps a consistent form consistent. */
  lemma {:induction false} RunKeepsConsistent(f: Form, events: seq<FormEvent>)
    requires Consistent(f)
    requires forall i :: 0 <= i < |events| ==> ValidEvent(events[i])
    ensures Consistent(Run(f, events))
    decreases |events|
  {
    if |events| > 0 {
      RunKeepsConsistent(Step(f, events[0]), events[1..]);
    }
  }

  /** The submit button is enabled exactly when both the pair and the timeframe are non-empty. */
  function CanSubmit(f: Form): (b: bool)
    ensures b <==> f.pair != "" && f.selectedTimeframe != ""
  {
    !(f.pair == "" || f.selectedTimeframe == "")
  }

  /** `handleAnalysisClick`: a request only when a (non-empty) chart image is loaded, built from the form as it stands. */
  function HandleAnalysisClick(chartImage: Option<string>, f: Form): (r: Option<AnalysisRequest>)
    ensures r.Some? <==> chartImage.Some? && chartImage.value != ""
    ensures r.Some? ==> r.value == AnalysisRequest(chartImage.value, f.pair, f.selectedTimeframe, f.notes)
  {
    if chartImage.Some? && chartImage.value != "" then
      Some(AnalysisRequest(chartImage.value, f.pair, f.selectedTimeframe, f.notes))
    else None
  }

  /** A click on the submit button: a disabled button delivers no click. */
  function ClickBegin(chartImage: Option<string>, f: Form): (r: Option<AnalysisRequest>)
    ensures r.Some? <==> CanSubmit(f) && chartImage.Some? && chartImage.value != ""
    ensures r.Some? ==> r == HandleAnalysisClick(chartImage, f)
  {
    if CanSubmit(f) then HandleAnalysisClick(chartImage, f) else None
  }

  /** A request emitted from a reachable form names a listed timeframe and an upper-case, non-empty pair. */
  lemma EmittedRequestIsWellFormed(chartImage: Option<string>, events: seq<FormEvent>)
    requires forall i :: 0 <= i < |events| ==> ValidEvent(events[i])
    requires ClickBegin(chartImage, Run(InitialForm, events)).Some?
    ensures var request := ClickBegin(chartImage, Run(InitialForm, events)).value;
      && request.timeframe in Timeframes
      && request.pair != ""
      && forall i :: 0 <= i < |request.pair| ==> !('a' <= request.pair[i] <= 'z')
  {
    InitialFormConsistent();
    RunKeepsConsistent(InitialForm, events);
  }
}
