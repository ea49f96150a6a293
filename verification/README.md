# Vancelle Trades — a Dafny model of the diagnostic app's core

Vancelle Trades is a single-page app for Forex chart diagnostics. The user uploads a chart image and fills in a small form (currency pair, timeframe, notes). The app sends the image to a remote generative model. The model is constrained by a JSON response schema and answers with a structured analysis:
- a status;
- a BUY/SELL/WAIT directive;
- an optional execution plan;
- drawing layers on a 0–100 scale;
- a quality score;
- explanations.

The app shows the analysis on a decision screen. COMPLETE analyses are kept newest-first in a journal that persists in browser storage. The user can attach an outcome review to a journal entry, and the win rate over reviewed entries is shown on the Learn tab.

This project models that core in Dafny and proves properties of the model:

- `Wrappers.dfy`: `Option` and `Result`, used for every error path.
- `JsBuiltins.dfy`: the JavaScript built-ins whose exact behaviour the app relies on:
  - `String.prototype.split`, `indexOf` and ASCII `toUpperCase`;
  - `Array.prototype.indexOf` and `slice` with a negative start.
- `Types.dfy`: the records of `types.ts` (tabs, drawing layers, execution plan, analysis result, trade log, review) and the string names of their enumerations, each with its parser.
- `ResponseSchema.dfy`: the response schema handed to the model, as data, and a conformance predicate for JSON values.
- `GeminiService.dfy`: the local half of `analyzeChart`:
  - splitting the data URL;
  - the learning-context window;
  - the request;
  - passing the remote answer or error through.
- `App.dfy`: the top-level session state and its handlers:
  - start-up from storage and persistence;
  - `handleAnalysis`, `handleReviewSubmit` and `resetApp`;
  - opening a journal entry;
  - win-rate arithmetic;
  - the panel chosen by `renderContent`.
- `DecisionView.dfy`: the decision screen:
  - the annotation overlay;
  - the INCOMPLETE halt;
  - directive accents, the execution/wait panels and the reasoning toggle;
  - outcome selection and review submission.
- `AnalyzeView.dfy`: the analyze form's state machine and its submit guard.
- `SettingsView.dfy`: the two numeric edits of the settings page.
- `Spinner.dfy`: the rotating status messages of the loading spinner.

Side effects are parameters:
- browser storage is a `map<string, string>`;
- JSON encoding and decoding are function parameters;
- the remote model is a function from request to a parsed result or a thrown value;
- the clock (`Date.now()`) is an `id`/`timestamp` parameter;
- timer ticks are a tick count.

## Model

| member | source | states |
|---|---|---|
| JsBuiltins.IndexOf | services/geminiService.ts:87-88 | The position of the first occurrence of a character, or none exactly when it does not occur |
| JsBuiltins.Split | services/geminiService.ts:87-88 | `split` yields at least one part, no part contains the separator, joining the parts gives back the input, and the first part is the text before the first separator |
| JsBuiltins.SplitJoin | services/geminiService.ts:87-88 | Splitting the join of separator-free parts recovers exactly those parts |
| JsBuiltins.SplitAfterFreePrefix | services/geminiService.ts:87-88 | A separator-free prefix followed by the separator becomes the first part, and the rest splits on its own |
| JsBuiltins.SplitSecond | services/geminiService.ts:87-88 | When the separator occurs, a second part exists and is the text after the first separator up to the next one |
| JsBuiltins.SplitHasSecond | services/geminiService.ts:87-88 | `split(...)[1]` is defined exactly when the separator occurs |
| JsBuiltins.UpTo | services/geminiService.ts:88 | The result is the prefix of the input that stops right before the first separator, or the whole input when there is none |
| JsBuiltins.UpToAfterFreePrefix | services/geminiService.ts:87-88 | For a separator-free prefix, the first separator is right after it and the text before it is the prefix |
| JsBuiltins.ToUpperCase | views/AnalyzeView.tsx:102 | ASCII upper-casing keeps the length, maps each character independently and leaves no lower-case ASCII letter. Non-ASCII characters are kept as they are |
| JsBuiltins.ToUpperCaseIdempotent | views/AnalyzeView.tsx:102 | Upper-casing the pair a second time changes nothing |
| JsBuiltins.ArrayIndexOf | components/Spinner.tsx:19 | `indexOf` is -1 exactly when absent, otherwise the first position holding the value |
| JsBuiltins.Slice | services/geminiService.ts:23 | `slice(start)` has the JavaScript length for negative and non-negative starts and is a suffix of the input |
| Types.TabsAreFive | types.ts:2-8 | There are exactly five tabs with distinct names, and none is SETTINGS |
| Types.ParseStatus | types.ts:26 | Status names and parsed statuses are inverse in both directions |
| Types.ParseDirective | types.ts:32 | Directive names and parsed directives are inverse in both directions |
| Types.ParseKind | types.ts:11 | Layer-type names and parsed layer types are inverse in both directions |
| Types.ParseColor | types.ts:14 | Layer-colour names and parsed colours are inverse in both directions |
| ResponseSchema.EnumsMatchTypes | services/geminiService.ts:29-73 | The schema's enum lists contain every status, directive, layer type and colour name, and every listed string parses |
| ResponseSchema.Conforms | services/geminiService.ts:26-84 | The validator `AnalysisSchema` is read against. Strings match their enum lists, integers are whole, arrays conform item by item, and objects hold their required keys with every declared key present conforming. Undeclared keys are free |
| ResponseSchema.ConformingHeader | services/geminiService.ts:26-84 | A conforming reply is an object with all required fields, a parseable status and directive, and an integral quality score |
| ResponseSchema.ConformingLayers | services/geminiService.ts:56-73 | In a conforming reply every drawing layer is an object whose type and colour, when present, parse |
| ResponseSchema.AddConformingField | services/geminiService.ts:26-84 | Adding a conforming value under a declared key keeps every declared field conforming |
| ResponseSchema.MinimalReply | services/geminiService.ts:83 | The reply built from the six required fields is an object holding exactly the required fields |
| ResponseSchema.MinimalReplyConforms | services/geminiService.ts:83 | A reply with only the six required fields conforms, for every status, directive and score |
| ResponseSchema.EveryRequiredFieldIsNeeded | services/geminiService.ts:83 | No object lacking any one of the six required fields conforms, whatever else it holds |
| ResponseSchema.SchemaAdmitsWaitWithPlan | services/geminiService.ts:35-47 | The schema accepts a WAIT reply that carries an execution plan; the no-plan-for-WAIT rule is prose only |
| GeminiService.SplitDataUrl | services/geminiService.ts:87-88 | Splitting throws exactly when there is no `:` before the first comma. Otherwise the MIME type lies between the first `:` and the next `;`. The payload is the text after the first comma up to any next one, or `undefined` without a comma |
| GeminiService.DataUrlRoundTrip | services/geminiService.ts:87-88 | A `data:<mime>;base64,<payload>` URL splits back into that MIME type and payload |
| GeminiService.HeaderOnlyUrlHasNoPayload | services/geminiService.ts:87-88 | A `data:<mime>;base64` URL without a comma still yields its MIME type, with an `undefined` payload |
| GeminiService.HistoryWindow | services/geminiService.ts:23 | The window is the last min(3, n) entries of the history, in order |
| GeminiService.LearningContext | services/geminiService.ts:23 | No learning context for an empty history, otherwise exactly the last min(3, n) entries |
| GeminiService.WindowKeepsOrder | services/geminiService.ts:23 | The k-th entry of the window is the matching entry of the history's tail |
| GeminiService.BuildRequest | services/geminiService.ts:86-93 | The request fails exactly when splitting throws, that is with no `:` before the first comma. Otherwise it carries the split image, with an `undefined` payload when there is no comma. It also carries the learning context, the model name, the cue, the JSON MIME type and the schema |
| GeminiService.RequestCarriesImage | services/geminiService.ts:86-93 | A well-formed data URL reaches the model as exactly its MIME type and payload, with the history window |
| GeminiService.AnalyzeChart | services/geminiService.ts:86-95 | A URL with no `:` before its first comma fails without consulting the model. Every other URL, one without a comma included, is sent, and the model's answer or error is passed on unchanged |
| App.LoadDocument | App.tsx:19-27 | A missing or empty stored entry gives the default; otherwise the parse of the stored text, failure included |
| App.InitialState | App.tsx:13-27 | Start-up fails exactly when a stored document does not parse, logs reported first. Otherwise it has the ANALYZE tab, no image, result or error, no loading, and the stored or default logs and settings |
| App.EmptyStorageDefaults | App.tsx:19-27 | With empty storage the app starts with no logs and a 10000 balance at 1% risk |
| App.Persist | App.tsx:29-35 | Persisting writes the encoded logs and settings under their two keys and leaves every other key as it was |
| App.ReloadRestores | App.tsx:19-35 | When decoding inverts encoding, reloading from persisted storage restores the logs and settings |
| App.UploadImage | App.tsx:88 | Uploading sets the chart image and changes nothing else |
| App.SelectTab | App.tsx:13 | Selecting a tab changes only the active tab |
| App.ChangeSettings | App.tsx:95 | A settings change replaces only the settings |
| App.ErrorMessage | App.tsx:55-62 | An Error gives its message, a string gives itself, a truthy object with a string message gives it, and anything else gives the fixed unknown-error text |
| App.ThrownFormsAgree | App.tsx:55-62 | An Error, a thrown string and an object with a string message carrying the same text all show that text. The fixed unknown-error text appears exactly for values without a usable message, or whose message is that text |
| App.BeginAnalysis | App.tsx:38-39 | Starting an analysis sets loading, clears the error and touches nothing else |
| App.FinishAnalysis | App.tsx:40-66 | After the await, on whatever state the app is in by then, loading is off. A returned result is stored and the DECISION tab is shown, and only a COMPLETE result prepends a new log. A thrown value only sets the error message |
| App.HandleAnalysis | App.tsx:37-67 | With nothing else happening during the await, the same holds relative to the state before the click, and the error is cleared on return |
| App.TabPickedWhileWaitingSurvivesThrow | App.tsx:37-67 | A tab picked while the call is awaited stays active after a throw, and a returned result switches to DECISION regardless |
| App.NewLog | App.tsx:44-49 | The new journal entry keeps the request's image, the result and the two clock readings, and starts unreviewed |
| App.AttachReview | App.tsx:69-72 | The review is attached to exactly the entries whose image is the current chart, and every other entry is unchanged |
| App.AttachReviewIdempotent | App.tsx:69-72 | Submitting the same review twice has the same effect as once |
| App.ReviewSubmit | App.tsx:69-81 | Submitting a review updates the matching logs, then resets the session to the ANALYZE tab |
| App.Reset | App.tsx:76-81 | Reset clears image, result and error, returns to ANALYZE and keeps logs and settings |
| App.OpenLog | App.tsx:124 | Opening a journal entry shows its image and result on the DECISION tab and keeps everything else |
| App.ReviewedCount | App.tsx:97 | The reviewed count is at most the number of entries, and zero exactly when no entry carries a review |
| App.WinCount | App.tsx:98 | The win count is at most the number of entries, and zero exactly when no entry carries a WIN review |
| App.WinsAtMostReviewed | App.tsx:96-98 | Wins never exceed reviewed entries, which never exceed entries |
| App.AttachReviewCounts | App.tsx:69-72 | Attaching a review never lowers the reviewed count, and raises it when a matching entry was unreviewed |
| App.RoundPercent | App.tsx:99 | The result is the nearest whole percent of wins over total in exact arithmetic, half rounding up, and is at most 100. The program's double arithmetic can differ by one, e.g. 23 of 40 |
| App.WinRate | App.tsx:96-99 | The win rate is 0 with no reviews, otherwise the rounded percentage of wins among reviewed entries |
| App.RenderContent | App.tsx:83-140 | The spinner shows exactly while loading. Otherwise each tab maps to its panel, and DECISION shows the verdict only with both a result and an image. The settings page is never reached |
| App.SpinnerWhileAwaiting | App.tsx:84 | While an analysis is awaited the spinner is shown |
| App.AnalysisShowsDecision | App.tsx:89-91 | After a returned analysis the decision screen shows that result on that chart |
| App.ReviewLandsOnNewLog | App.tsx:43-72 | A review submitted right after a COMPLETE analysis lands on the log just created |
| App.OpenLogShowsDecision | App.tsx:124 | Opening a journal entry renders its result on its chart |
| App.HandleAnalysisKeepsNewestFirst | App.tsx:43-50 | Prepending a log stamped no earlier than the others keeps the journal newest-first |
| App.LearningWindowIsOldest | App.tsx:41 | With a newest-first journal, the three-entry learning window holds the oldest entries |
| DecisionView.LayerHex | views/DecisionView.tsx:16 | bull, bear and neutral map to three distinct stroke colours, one each |
| DecisionView.LayerShape | views/DecisionView.tsx:17-35 | A trendline draws a line between its first two points, and nothing with fewer. A zone or gap draws the rectangle its first two points span, and fails with fewer, as the indexed read throws. Fibonacci and markers draw nothing. Colour and caption are the layer's. A line's caption sits 1 above its second point, a rectangle's 1 above its top-left corner |
| DecisionView.ZoneRect | views/DecisionView.tsx:25-34 | A rectangle exists exactly with two points. It spans their corners, carries the colour and caption, and puts the caption 1 above its top-left corner |
| DecisionView.RectStaysOnScale | views/DecisionView.tsx:25-34 | A rectangle drawn from on-scale points stays within the 0–100 viewBox |
| DecisionView.Overlay | views/DecisionView.tsx:12-39 | The overlay renders exactly when every layer renders. It then holds every drawn layer's shape, each of its shapes is some layer's shape, and there is at most one shape per layer |
| DecisionView.OverlayAppends | views/DecisionView.tsx:15 | The shapes appear in layer order: the overlay of two consecutive runs of layers is the first run's shapes followed by the second's |
| DecisionView.OrDefault | views/DecisionView.tsx:143-146 | Missing or empty text falls back to the default, otherwise it is shown as given |
| DecisionView.DirectiveAccent | views/DecisionView.tsx:66-69 | BUY, SELL and WAIT each get their own accent, and no two share one |
| DecisionView.DecisionScreen | views/DecisionView.tsx:46-149 | INCOMPLETE halts with the missing items. COMPLETE renders exactly when the overlay does, and then as a verdict in the directive's accent. The plan shows exactly for a non-WAIT directive with a plan, and the observation panel exactly for WAIT, with its texts defaulted |
| DecisionView.DocumentedResultShowsItsPlan | views/DecisionView.tsx:111 | A result that follows the plan-only-for-BUY/SELL rule shows exactly its plan |
| DecisionView.ToggleReasoning | views/DecisionView.tsx:98-99 | Clicking the open reasoning closes it, and clicking another one opens that |
| DecisionView.ToggleTwiceRestores | views/DecisionView.tsx:98-99 | Starting with the drawer closed or with the clicked reasoning open, two clicks on that button restore the starting state |
| DecisionView.ReasoningText | views/DecisionView.tsx:101-107 | Text shows exactly when a reasoning is open: the strategy's or the opposite's |
| DecisionView.OutcomeForLabel | views/DecisionView.tsx:174-175 | Exactly the four button labels select an outcome. WIN and LOSS select themselves, B/E selects BREAKEVEN and SKIP selects SKIPPED |
| DecisionView.OutcomeLabelsBijective | views/DecisionView.tsx:174-175 | The four buttons select four different outcomes and cover every outcome |
| DecisionView.SubmitReview | views/DecisionView.tsx:178 | A review is submitted exactly when an outcome is selected, with that outcome and empty notes |
| AnalyzeView.Step | views/AnalyzeView.tsx:102-119 | Each form event changes only its own field. The pair is upper-cased and the timeframe is taken from the list |
| AnalyzeView.InitialFormConsistent | views/AnalyzeView.tsx:16-18 | The form mounts with an empty pair and no timeframe, which is consistent |
| AnalyzeView.RunKeepsConsistent | views/AnalyzeView.tsx:102-119 | Every sequence of form events keeps a consistent form consistent: an upper-case pair and a listed or empty timeframe |
| AnalyzeView.CanSubmit | views/AnalyzeView.tsx:129 | The button is enabled exactly when both pair and timeframe are non-empty |
| AnalyzeView.HandleAnalysisClick | views/AnalyzeView.tsx:31-40 | A request is emitted exactly when an image is present, and it carries the image and the form fields |
| AnalyzeView.ClickBegin | views/AnalyzeView.tsx:127-129 | A click reaches the handler only when enabled, and emits exactly when enabled with an image |
| AnalyzeView.EmittedRequestIsWellFormed | views/AnalyzeView.tsx:102-129 | Any request a user can trigger has a non-empty upper-case pair and one of the five timeframes |
| SettingsView.NumberOrZero | views/SettingsView.tsx:17 | A value that does not parse becomes 0, and a parsed value is kept |
| SettingsView.HandleBalanceChange | views/SettingsView.tsx:16-18 | A balance edit sets only the balance |
| SettingsView.HandleRiskChange | views/SettingsView.tsx:20-22 | A risk edit sets only the risk |
| SettingsView.EditsIdempotent | views/SettingsView.tsx:16-22 | Repeating an edit, or overwriting it, leaves only the last value |
| SettingsView.EditsCommute | views/SettingsView.tsx:16-22 | Balance and risk edits commute |
| Spinner.PairwiseDistinctHasNoRepeats | components/Spinner.tsx:5-13 | Pairwise distinct messages have no repeats |
| Spinner.PositionIsIndexOf | components/Spinner.tsx:19 | The scan used for a tick agrees with `indexOf` |
| Spinner.FoundAtOwnPosition | components/Spinner.tsx:19 | In a list without repeats, every message is found at its own position |
| Spinner.NextIn | components/Spinner.tsx:18-22 | A tick always lands on a listed message, and an unknown message restarts at the first |
| Spinner.NextIsModuloStep | components/Spinner.tsx:19-21 | The tick equals the component's `(indexOf + 1) % length` |
| Spinner.NextInAdvances | components/Spinner.tsx:18-22 | A tick moves from each message to the next, wrapping from the last to the first |
| Spinner.AdvanceSplit | components/Spinner.tsx:16-23 | Ticks compose: n ticks are k ticks followed by n − k |
| Spinner.AdvanceNoWrap | components/Spinner.tsx:16-23 | Before the end of the list, t ticks move t places forward |
| Spinner.FullCycle | components/Spinner.tsx:16-23 | A full cycle of ticks brings every message back |
| Spinner.NextMessage | components/Spinner.tsx:18-22 | The spinner's tick always shows one of its seven messages |
| Spinner.MessagesDistinct | components/Spinner.tsx:5-13 | The seven messages are distinct |
| Spinner.CycleIsComplete | components/Spinner.tsx:5-23 | Seven ticks return every message, and from the initial message the first seven ticks show all seven in order |

## Left out

- The remote generation is left out. `getSystemInstruction` builds the prose locally (services/geminiService.ts:10-24), and `generateContent` is called locally (services/geminiService.ts:89); only the generation itself runs remotely. The prose is not modelled. `JSON.parse(response.text)` runs locally (services/geminiService.ts:94), but it depends on the text the model returns, and the `as AnalysisResult` cast after it checks nothing. All of this is one parameter `remote` of `GeminiService.AnalyzeChart`, which returns either a typed result or a thrown value. Only the history window inside the prompt is modelled.
- The `API_KEY` check at module load (services/geminiService.ts:5-6) is left out: it happens before any modelled operation.
- Browser storage is a map, and JSON encoding and decoding are function parameters. `JSON.parse` throwing on corrupt storage is a failed start-up (`None`); the app has no recovery for it.
- `FileReader`, drag and drop, JSX markup, CSS classes, `console.error` and the `BottomNav` and `PlaceholderView` components are presentation or browser I/O. They are left out; the panel names in `App.Panel` stand for the rendered components.
- The timers are left out: `setInterval` becomes a tick count and `Date.now()` becomes `id`/`timestamp` parameters.
- Floating point is left out:
  - `Math.round(wins / total * 100)` is exact rational rounding half up (`App.RoundPercent`);
  - `parseFloat(...)` is an `Option<real>`, with `None` for NaN; `|| 0` then gives 0 for `None` and keeps a parsed value, 0 included;
  - there are no infinities;
  - drawing coordinates are exact reals.
- JsBuiltins.ToUpperCase: only ASCII letters are raised. JavaScript's `toUpperCase` also maps non-ASCII letters (é to É) and can change the length (`'ß'.toUpperCase() === 'SS'`), so "keeps the length" holds of the model only.
- JSON duplicate keys and key order are left out: objects are maps.
- The `showReview` toggle and the highlighted outcome button in `DecisionView` are purely visual and left out.
- App.HandleAnalysis: it takes the outcome of the `analyzeChart` call as a parameter (`CallOutcome`) rather than calling `GeminiService.AnalyzeChart`. App.tsx:41 passes the whole form object where `analyzeChart` expects a data-URL string. At run time `split` would then not be a function of an object, so every call ends in the catch branch. The model keeps the two sides separate and covers both outcomes of the call.
- GeminiService.AnalyzeChart: a URL with a `:` but no comma is sent with an `undefined` payload, as in the source (`InlineData.data` is `None`). What the remote side then does is part of `remote`.
- DecisionView.DecisionScreen: it takes the typed `AnalysisResult`, in which every field that types.ts declares as required is filled in. The declared schema makes every property of `executionPlan` and `technicalFactors` optional, so a conforming BUY reply can carry `"executionPlan": {}`. On such a reply views/DecisionView.tsx:125 (`takeProfit[0]`) throws, and so does the technical-factors panel on `"technicalFactors": {}`. Those throws are left out: the model assumes replies fill every field types.ts declares.
- App.RoundPercent: it rounds the exact ratio half up, while `Math.round((wins / total) * 100)` rounds the double product. The two can differ by one: 23 wins of 40 give `Math.round(57.49999999999999) = 57` in the program and 58 here.
- App.WinRate: it inherits App.RoundPercent's exact rounding. 23 WIN reviews of 40 show 57% in the program and 58% here.
- Spinner.Advance: it carries no contract of its own. Its properties are stated through `Spinner.CycleIsComplete` and the list-generic lemmas.
- The model follows the code where it departs from what names or comments suggest:
  - the learning context is `slice(-3)` of a newest-first journal, so it holds the three oldest entries (`App.LearningWindowIsOldest`);
  - a review is matched to journal entries by image, so every entry with the same image receives it;
  - the settings page exists but no tab leads to it (`App.RenderContent`, `Types.TabsAreFive`);
  - a WAIT reply with an execution plan conforms to the schema; the view simply hides the plan.
