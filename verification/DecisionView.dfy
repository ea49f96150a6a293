/**
 * The decision screen: which panels show for a result, the annotation
 * overlay geometry and colours, the reasoning toggle, and the outcome
 * buttons of the review form.
 */
module DecisionView {
  import opened Wrappers
  import opened Types

  const BullHex := "#00f59b"
  const BearHex := "#ff3b3b"
  const NeutralHex := "#94a3b8"

  /** The stroke colour of a layer; the three colour tags get three distinct colours. */
  function LayerHex(c: LayerColor): (h: string)
    ensures c == Bull <==> h == BullHex
    ensures c == Bear <==> h == BearHex
    ensures c == Neutral <==> h == NeutralHex
  {
    match c
    case Bull => BullHex
    case Bear => BearHex
    case Neutral => NeutralHex
  }

  function Abs(a: real): real { if a < 0.0 then -a else a }
  function MinReal(a: real, b: real): real { if a <= b then a else b }

  /** An SVG element of the overlay, with the point its caption is drawn at. */
  datatype Shape =
    | Line(from: Point, to: Point, hex: string, caption: string, captionAt: Point)
    | Rect(x: real, y: real, width: real, height: real, hex: string, caption: string, captionAt: Point)

  /** Reading `.x` of a missing corner (`points[0]` or `points[1]` undefined) throws while rendering. */
  datatype RenderFault = MissingCorner

  /** The rectangle has non-negative size and its two edges on each axis are exactly the corners' coordinates. */
  predicate SpansCorners(r: Shape, p: Point, q: Point)
    requires r.Rect?
  {
    && r.width >= 0.0 && r.height >= 0.0
    && {r.x, r.x + r.width} == {p.x, q.x}
    && {r.y, r.y + r.height} == {p.y, q.y}
  }

  /**
   * The element drawn for one layer: a line between the first two points of
   * a TRENDLINE (nothing with fewer than two), the rectangle spanned by the
   * first two points of a ZONE or LIQUIDITY_GAP (which throws with fewer
   * than two), nothing for FIBONACCI and MARKER.
   */
  function LayerShape(layer: DrawingLayer): (r: Result<Option<Shape>, RenderFault>)
    ensures layer.kind == Trendline ==> r.Success? && (r.value.Some? <==> |layer.points| >= 2)
    ensures (layer.kind == Zone || layer.kind == LiquidityGap) ==> (r.Success? <==> |layer.points| >= 2)
    ensures (layer.kind == Zone || layer.kind == LiquidityGap) && r.Success? ==> r.value.Some? && r.value.value.Rect?
    ensures (layer.kind == Fibonacci || layer.kind == Marker) ==> r == Success(None)
    ensures r.Success? && r.value.Some? ==>
      && |layer.points| >= 2
      && r.value.value.hex == LayerHex(layer.color) && r.value.value.caption == layer.caption
      && (r.value.value.Line? <==> layer.kind == Trendline)
      && (r.value.value.Line? ==> r.value.value.from == layer.points[0] && r.value.value.to == layer.points[1])
      && (r.value.value.Line? ==> r.value.value.captionAt == Point(layer.points[1].x, layer.points[1].y - 1.0))
      && (r.value.value.Rect? ==> SpansCorners(r.value.value, layer.points[0], layer.points[1]))
      && (r.value.value.Rect? ==> r.value.value.captionAt == Point(r.value.value.x, r.value.value.y - 1.0))
  {
    var hex := LayerHex(layer.color);
    var ps := layer.points;
    match layer.kind
    case Trendline =>
      if |ps| >= 2 then Success(Some(Line(ps[0], ps[1], hex, layer.caption, Point(ps[1].x, ps[1].y - 1.0))))
      else Success(None)
    case Zone => ZoneRect(ps, hex, layer.caption)
    case LiquidityGap => ZoneRect(ps, hex, layer.caption)
    case Fibonacci => Success(None)
    case Marker => Success(None)
  }

  /** The rectangle of a ZONE or LIQUIDITY_GAP layer. */
  function ZoneRect(ps: seq<Point>, hex: string, caption: string): (r: Result<Option<Shape>, RenderFault>)
    ensures r.Success? <==> |ps| >= 2
    ensures r.Success? ==> r.value.Some? && r.value.value.Rect? && SpansCorners(r.value.value, ps[0], ps[1])
    ensures r.Success? ==> r.value.value.hex == hex && r.value.value.caption == caption
    ensures r.Success? ==> r.value.value.captionAt == Point(r.value.value.x, r.value.value.y - 1.0)
  {
    if |ps| < 2 then Failure(MissingCorner)
    else
      var x := MinReal(ps[0].x, ps[1].x);
      var y := MinReal(ps[0].y, ps[1].y);
      Success(Some(Rect(x, y, Abs(ps[1].x - ps[0].x), Abs(ps[1].y - ps[0].y), hex, caption, Point(x, y - 1.0))))
  }

  /** A rectangle drawn from points on the 0-100 plane stays on the plane. */
  lemma RectStaysOnScale(layer: DrawingLayer)
    requires LayerOnScale(layer)
    requires LayerShape(layer).Success? && LayerShape(layer).value.Some? && LayerShape(layer).value.value.Rect?
    ensures var r := LayerShape(layer).value.value;
      0.0 <= r.x && r.x + r.width <= 100.0 && 0.0 <= r.y && r.y + r.height <= 100.0
  {
    var r := LayerShape(layer).value.value;
    assert OnScale(layer.points[0]) && OnScale(layer.points[1]);
    assert r.x in {layer.points[0].x, layer.points[1].x};
    assert r.x + r.width in {layer.points[0].x, layer.points[1].x};
    assert r.y in {layer.points[0].y, layer.points[1].y};
    assert r.y + r.height in {layer.points[0].y, layer.points[1].y};
  }

  /** The overlay for all layers: the drawn shapes in layer order, or the fault of the first layer that throws. */
  function Overlay(layers: seq<DrawingLayer>): (r: Result<seq<Shape>, RenderFault>)
    ensures r.Success? <==> forall i :: 0 <= i < |layers| ==> LayerShape(layers[i]).Success?
    ensures r.Success? ==> |r.value| <= |layers|
    ensures r.Success? ==> forall i :: 0 <= i < |layers| && LayerShape(layers[i]).value.Some? ==>
      LayerShape(layers[i]).value.value in r.value
    ensures r.Success? ==> forall k :: 0 <= k < |r.value| ==>
      exists i :: 0 <= i < |layers| && LayerShape(layers[i]) == Success(Some(r.value[k]))
  {
    if |layers| == 0 then Success([])
    else
      match LayerShape(layers[0])
      case Failure(e) => Failure(e)
      case Success(first) =>
        match Overlay(layers[1..])
        case Failure(e) =>
          assert !(forall i :: 0 <= i < |layers[1..]| ==> LayerShape(layers[1..][i]).Success?);
          Failure(e)
        case Success(rest) =>
          assert forall i :: 1 <= i < |layers| ==> layers[i] == layers[1..][i - 1];
          Success(if first.Some? then [first.value] + rest else rest)
  }

  /** The overlay of consecutive layer runs is the overlay of the first run followed by that of the second. */
  lemma {:induction false} OverlayAppends(a: seq<DrawingLayer>, b: seq<DrawingLayer>)
    ensures Overlay(a + b).Success? <==> Overlay(a).Success? && Overlay(b).Success?
    ensures Overlay(a + b).Success? ==> Overlay(a + b).value == Overlay(a).value + Overlay(b).value
    decreases |a|
  {
    if |a| == 0 {
      assert a + b == b;
    } else {
      var ab := a + b;
      assert ab[0] == a[0];
      assert ab[1..] == a[1..] + b;
      OverlayAppends(a[1..], b);
      match LayerShape(a[0])
      case Failure(_) =>
      case Success(first) =>
        if Overlay(a[1..]).Success? && Overlay(b).Success? {
          var rest := Overlay(a[1..]).value + Overlay(b).value;
          assert Overlay(ab).value == (if first.Some? then [first.value] + rest else rest);
        }
    }
  }

  const DefaultWaitReason := "Market structure currently ambiguous. Awaiting clearer structural print."
  const DefaultWaitDuration := "Indefinite"

  /** `text || fallback`: an absent or empty text is replaced. */
  function OrDefault(text: Option<string>, fallback: string): (r: string)
    ensures text.Some? && text.value != "" ==> r == text.value
    ensures text.None? || text.value == "" ==> r == fallback
  {
    if text.Some? && text.value != "" then text.value else fallback
  }

  /** The colour family of the verdict banner. */
  datatype Accent = BullAccent | BearAccent | CautionAccent

  function DirectiveAccent(d: Directive): (a: Accent)
    ensures d == Buy <==> a == BullAccent
    ensures d == Sell <==> a == BearAccent
    ensures d == Wait <==> a == CautionAccent
  {
    match d
    case Buy => BullAccent
    case Sell => BearAccent
    case Wait => CautionAccent
  }

  /** The observation panel's two texts. */
  datatype Observation = Observation(reason: string, duration: string)

  /** What the decision screen shows for a result. */
  datatype Screen =
    | Halted(missing: seq<string>)
    | Verdict(
        directive: Directive,
        accent: Accent,
        shapes: seq<Shape>,
        execution: Option<ExecutionPlan>,
        observation: Option<Observation>)

  /**
   * The screen for a result: an INCOMPLETE status halts whatever the
   * directive says; otherwise the execution panel shows exactly when a plan
   * is present and the directive is not WAIT, and the observation panel
   * exactly when it is WAIT. Rendering throws when the overlay does.
   */
  function DecisionScreen(result: AnalysisResult): (r: Result<Screen, RenderFault>)
    ensures result.status == Incomplete ==> r == Success(Halted(result.missingData.GetOr([])))
    ensures result.status == Complete ==> (r.Success? <==> Overlay(result.drawingLayers).Success?)
    ensures result.status == Complete && r.Success? ==>
      r.value.Verdict? && r.value.accent == DirectiveAccent(result.tradeDirective)
    ensures r.Success? && r.value.Verdict? ==>
      var v := r.value;
      && result.status == Complete
      && v.directive == result.tradeDirective
      && v.shapes == Overlay(result.drawingLayers).value
      && (v.execution.Some? <==> result.executionPlan.Some? && result.tradeDirective != Wait)
      && (v.execution.Some? ==> v.execution == result.executionPlan)
      && (v.observation.Some? <==> result.tradeDirective == Wait)
      && !(v.execution.Some? && v.observation.Some?)
      && (v.observation.Some? ==>
            v.observation.value == Observation(OrDefault(result.waitReason, DefaultWaitReason), OrDefault(result.waitDuration, DefaultWaitDuration)))
  {
    if result.status == Incomplete then Success(Halted(result.missingData.GetOr([])))
    else
      match Overlay(result.drawingLayers)
      case Failure(e) => Failure(e)
      case Success(shapes) =>
        var isWait := result.tradeDirective == Wait;
        var execution := if result.executionPlan.Some? && !isWait then result.executionPlan else None;
        var observation :=
          if isWait then Some(Observation(OrDefault(result.waitReason, DefaultWaitReason), OrDefault(result.waitDuration, DefaultWaitDuration)))
          else None;
        Success(Verdict(result.tradeDirective, DirectiveAccent(result.tradeDirective), shapes, execution, observation))
  }

  /** For a result that keeps the documented rule, the execution panel shows exactly when it carries a plan. */
  lemma DocumentedResultShowsItsPlan(result: AnalysisResult)
    requires Documented(result) && result.status == Complete
    requires DecisionScreen(result).Success?
    ensures DecisionScreen(result).value.execution == result.executionPlan
  {
  }

  /** The reasoning drawer: nothing open, the strategy text, or the opposite-case text. */
  datatype Reasoning = NoReasoning | Strategy | Opposite

  /** A click on a reasoning button: the open one closes, the other one opens in its place. */
  function ToggleReasoning(active: Reasoning, clicked: Reasoning): (r: Reasoning)
    requires clicked != NoReasoning
    ensures active == clicked ==> r == NoReasoning
    ensures active != clicked ==> r == clicked
  {
    if active == clicked then NoReasoning else clicked
  }

  /** Clicking the same button twice from a closed drawer, or from its own open state, restores the drawer. */
  lemma ToggleTwiceRestores(active: Reasoning, clicked: Reasoning)
    requires clicked != NoReasoning && (active == NoReasoning || active == clicked)
    ensures ToggleReasoning(ToggleReasoning(active, clicked), clicked) == active
  {
  }

  /** The text the open drawer shows. */
  function ReasoningText(active: Reasoning, result: AnalysisResult): (t: Option<string>)
    ensures t.None? <==> active == NoReasoning
    ensures active == Strategy ==> t == Some(result.whyThisStrategy)
    ensures active == Opposite ==> t == Some(result.whyNotOpposite)
  {
    match active
    case NoReasoning => None
    case Strategy => Some(result.whyThisStrategy)
    case Opposite => Some(result.whyNotOpposite)
  }

  /** The captions of the four outcome buttons, in display order. */
  const OutcomeLabels: seq<string> := ["WIN", "LOSS", "B/E", "SKIP"]

  /**
   * The outcome a button selects: B/E and SKIP are renamed, WIN and LOSS
   * pass through as they are; no other caption exists.
   */
  function OutcomeForLabel(caption: string): (o: Option<Outcome>)
    ensures o.Some? <==> caption in OutcomeLabels
    ensures o.Some? && caption != "B/E" && caption != "SKIP" ==> OutcomeName(o.value) == caption
    ensures caption == "B/E" ==> o == Some(Breakeven)
    ensures caption == "SKIP" ==> o == Some(Skipped)
  {
    if caption == "B/E" then Some(Breakeven)
    else if caption == "SKIP" then Some(Skipped)
    else if caption == "WIN" then Some(Win)
    else if caption == "LOSS" then Some(Loss)
    else None
  }

  /** The four buttons select four different outcomes, and every outcome has its button. */
  lemma OutcomeLabelsBijective()
    ensures forall i :: 0 <= i < |OutcomeLabels| ==> OutcomeForLabel(OutcomeLabels[i]).Some?
    ensures forall i, j :: 0 <= i < j < |OutcomeLabels| ==>
      OutcomeForLabel(OutcomeLabels[i]) != OutcomeForLabel(OutcomeLabels[j])
    ensures forall o: Outcome :: exists i :: 0 <= i < |OutcomeLabels| && OutcomeForLabel(OutcomeLabels[i]) == Some(o)
  {
    assert OutcomeForLabel(OutcomeLabels[0]) == Some(Win);
    assert OutcomeForLabel(OutcomeLabels[1]) == Some(Loss);
    assert OutcomeForLabel(OutcomeLabels[2]) == Some(Breakeven);
    assert OutcomeForLabel(OutcomeLabels[3]) == Some(Skipped);
    forall o: Outcome
      ensures exists i :: 0 <= i < |OutcomeLabels| && OutcomeForLabel(OutcomeLabels[i]) == Some(o)
    {
      var i := match o case Win => 0 case Loss => 1 case Breakeven => 2 case Skipped => 3;
      assert OutcomeForLabel(OutcomeLabels[i]) == Some(o);
    }
  }

  /** The submit button: a review only once an outcome is chosen, always with empty notes. */
  function SubmitReview(selected: Option<Outcome>): (r: Option<TradeReview>)
    ensures r.Some? <==> selected.Some?
    ensures r.Some? ==> r.value.outcome == selected.value && r.value.notes == ""
  {
    match selected
    case None => None
    case Some(o) => Some(TradeReview(o, ""))
  }
}
