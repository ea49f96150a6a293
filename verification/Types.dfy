/**
 * The records and enumerations of `types.ts`, with the invariants its
 * comments document, and the wire names each enumeration member has in JSON.
 */
module Types {
  import opened Wrappers

  /** The navigation tabs. There are five; there is no settings tab. */
  datatype Tab = Analyze | Decision | Explain | Learn | Journal

  const AllTabs: seq<Tab> := [Analyze, Decision, Explain, Learn, Journal]

  function TabName(t: Tab): string {
    match t
    case Analyze => "ANALYZE"
    case Decision => "DECISION"
    case Explain => "EXPLAIN"
    case Learn => "LEARN"
    case Journal => "JOURNAL"
  }

  /** The enumeration lists every tab once, and no tab is called SETTINGS. */
  lemma TabsAreFive()
    ensures |AllTabs| == 5
    ensures forall t: Tab :: t in AllTabs
    ensures forall i, j :: 0 <= i < j < |AllTabs| ==> TabName(AllTabs[i]) != TabName(AllTabs[j])
    ensures forall t: Tab :: TabName(t) != "SETTINGS"
  {
    forall t: Tab ensures t in AllTabs {
      match t
      case Analyze => assert AllTabs[0] == t;
      case Decision => assert AllTabs[1] == t;
      case Explain => assert AllTabs[2] == t;
      case Learn => assert AllTabs[3] == t;
      case Journal => assert AllTabs[4] == t;
    }
  }

  datatype LayerKind = Trendline | Zone | Fibonacci | Marker | LiquidityGap
  datatype LayerColor = Bull | Bear | Neutral

  /** A point of an annotation; the documented scale is 0 to 100 on both axes. */
  datatype Point = Point(x: real, y: real)

  /** An annotation overlay; `caption` is the source's `label`, a reserved word in Dafny. */
  datatype DrawingLayer = DrawingLayer(kind: LayerKind, points: seq<Point>, caption: string, color: LayerColor)

  predicate OnScale(p: Point) {
    0.0 <= p.x <= 100.0 && 0.0 <= p.y <= 100.0
  }

  /** Every point of the layer lies on the 0-100 plane. */
  predicate LayerOnScale(layer: DrawingLayer) {
    forall i :: 0 <= i < |layer.points| ==> OnScale(layer.points[i])
  }

  datatype ExecutionPlan = ExecutionPlan(
    entry: string,
    stopLoss: string,
    takeProfit: seq<string>,
    riskRewardRatio: string,
    positionSizing: string)

  datatype Status = Complete | Incomplete
  datatype Directive = Buy | Sell | Wait

  datatype TechnicalFactors = TechnicalFactors(momentum: string, volatility: string, confluencePoints: seq<string>)
  datatype ScenarioAnalysis = ScenarioAnalysis(primary: string, invalidation: string, alternative: string)

  /** What the remote service returns, stored verbatim in the journal. */
  datatype AnalysisResult = AnalysisResult(
    status: Status,
    missingData: Option<seq<string>>,
    marketOverview: string,
    bias: string,
    pair: string,
    timeframe: string,
    tradeDirective: Directive,
    waitReason: Option<string>,
    waitDuration: Option<string>,
    executionPlan: Option<ExecutionPlan>,
    riskManagement: string,
    drawingLayers: seq<DrawingLayer>,
    qualityScore: int,
    reasoningConfidence: string,
    whyThisStrategy: string,
    whyNotOpposite: string,
    technicalFactors: TechnicalFactors,
    scenarioAnalysis: ScenarioAnalysis)

  /** The documented (not enforced) invariants of a result: a plan only for BUY or SELL, points on scale. */
  predicate Documented(r: AnalysisResult) {
    && (r.executionPlan.Some? ==> r.tradeDirective != Wait)
    && forall i :: 0 <= i < |r.drawingLayers| ==> LayerOnScale(r.drawingLayers[i])
  }

  datatype Outcome = Win | Loss | Breakeven | Skipped
  datatype TradeReview = TradeReview(outcome: Outcome, notes: string)

  /** One journal entry; the review is attached later, if ever. */
  datatype TradeLog = TradeLog(id: string, timestamp: int, image: string, result: AnalysisResult, review: Option<TradeReview>)

  /** The risk preferences (declared in views/SettingsView.tsx, shared with the app). */
  datatype Settings = Settings(accountBalance: real, riskPerTrade: real)

  /** The request the analyze form emits (declared inline in App.tsx and views/AnalyzeView.tsx). */
  datatype AnalysisRequest = AnalysisRequest(image: string, pair: string, timeframe: string, notes: string)

  // Wire names of the enumerations, as they appear in JSON.

  function StatusName(s: Status): string {
    match s
    case Complete => "COMPLETE"
    case Incomplete => "INCOMPLETE"
  }

  function DirectiveName(d: Directive): string {
    match d
    case Buy => "BUY"
    case Sell => "SELL"
    case Wait => "WAIT"
  }

  function KindName(k: LayerKind): string {
    match k
    case Trendline => "TRENDLINE"
    case Zone => "ZONE"
    case Fibonacci => "FIBONACCI"
    case Marker => "MARKER"
    case LiquidityGap => "LIQUIDITY_GAP"
  }

  function ColorName(c: LayerColor): string {
    match c
    case Bull => "bull"
    case Bear => "bear"
    case Neutral => "neutral"
  }

  function OutcomeName(o: Outcome): string {
    match o
    case Win => "WIN"
    case Loss => "LOSS"
    case Breakeven => "BREAKEVEN"
    case Skipped => "SKIPPED"
  }

  /** Reads a status back from its wire name; only the two names are accepted. */
  function ParseStatus(s: string): (r: Option<Status>)
    ensures r.Some? ==> StatusName(r.value) == s
    ensures forall st: Status :: s == StatusName(st) ==> r == Some(st)
  {
    if s == "COMPLETE" then Some(Complete)
    else if s == "INCOMPLETE" then Some(Incomplete)
    else None
  }

  /** Reads a directive back from its wire name; only the three names are accepted. */
  function ParseDirective(s: string): (r: Option<Directive>)
    ensures r.Some? ==> DirectiveName(r.value) == s
    ensures forall d: Directive :: s == DirectiveName(d) ==> r == Some(d)
  {
    if s == "BUY" then Some(Buy)
    else if s == "SELL" then Some(Sell)
    else if s == "WAIT" then Some(Wait)
    else None
  }

  /** Reads a layer kind back from its wire name; only the five names are accepted. */
  function ParseKind(s: string): (r: Option<LayerKind>)
    ensures r.Some? ==> KindName(r.value) == s
    ensures forall k: LayerKind :: s == KindName(k) ==> r == Some(k)
  {
    if s == "TRENDLINE" then Some(Trendline)
    else if s == "ZONE" then Some(Zone)
    else if s == "FIBONACCI" then Some(Fibonacci)
    else if s == "MARKER" then Some(Marker)
    else if s == "LIQUIDITY_GAP" then Some(LiquidityGap)
    else None
  }

  /** Reads a layer colour back from its wire name; only the three names are accepted. */
  function ParseColor(s: string): (r: Option<LayerColor>)
    ensures r.Some? ==> ColorName(r.value) == s
    ensures forall c: LayerColor :: s == ColorName(c) ==> r == Some(c)
  {
    if s == "bull" then Some(Bull)
    else if s == "bear" then Some(Bear)
    else if s == "neutral" then Some(Neutral)
    else None
  }
}
