/**
 * The local half of `analyzeChart`: splitting the image data URL into MIME
 * type and payload, choosing the history window for the learning context,
 * and assembling the one request sent to the remote model. The remote call
 * and the parsing of its reply are a parameter, `remote`.
 */
module GeminiService {
  import opened Wrappers
  import opened JsBuiltins
  import opened Types
  import ResponseSchema

  /** A value a JavaScript `throw` (or a rejected promise) can carry, as far as the app inspects it. */
  datatype Thrown =
    | ErrorInstance(message: string)
    | StringThrown(text: string)
    | OtherThrown(truthy: bool, messageField: MessageField)

  /** The `message` property of a thrown value that is neither an Error nor a string. */
  datatype MessageField = NoMessage | StringMessage(text: string) | NonStringMessage

  /** The inline image part of the request; a `data` of `None` is the `undefined` that `split(',')[1]` gives without a comma. */
  datatype InlineData = InlineData(mimeType: string, data: Option<string>)

  /**
   * Why a data URL could not be split: no `:` before the first comma, so
   * `split(':')[1]` is `undefined` and the `split(';')` after it at line 88
   * throws a TypeError. A URL without a comma does not throw: the payload
   * is just `undefined`, and the request is sent with it.
   */
  datatype SplitError = NoMimeSeparator

  /**
   * `url.split(',')[1]` as payload and
   * `url.split(',')[0].split(':')[1].split(';')[0]` as MIME type.
   */
  function SplitDataUrl(url: string): (r: Result<InlineData, SplitError>)
    ensures var prefix := UpTo(url, ',');
      && (r.Failure? <==> ':' !in prefix)
      && (r.Success? ==>
            && (r.value.data.None? <==> ',' !in url)
            && (r.value.data.Some? ==> r.value.data.value == UpTo(url[IndexOf(url, ',').value + 1..], ','))
            && r.value.mimeType == UpTo(UpTo(prefix[IndexOf(prefix, ':').value + 1..], ':'), ';'))
  {
    var parts := Split(url, ',');
    var head := Split(parts[0], ':');
    SplitHasSecond(url, ',');
    SplitHasSecond(parts[0], ':');
    if |head| < 2 then Failure(NoMimeSeparator)
    else if |parts| < 2 then
      SplitSecond(parts[0], ':');
      Success(InlineData(Split(head[1], ';')[0], None))
    else
      SplitSecond(url, ',');
      SplitSecond(parts[0], ':');
      Success(InlineData(Split(head[1], ';')[0], Some(parts[1])))
  }

  /** A well-formed base64 data URL splits back into the MIME type and payload it was built from. */
  lemma DataUrlRoundTrip(mime: string, payload: string)
    requires ':' !in mime && ';' !in mime && ',' !in mime
    requires ',' !in payload
    ensures SplitDataUrl("data:" + mime + ";base64," + payload) == Success(InlineData(mime, Some(payload)))
  {
    var prefix := "data:" + mime + ";base64";
    assert "data:" + mime + ";base64," + payload == prefix + [','] + payload;
    assert ',' !in prefix;
    UpToAfterFreePrefix(prefix, ',', payload);
    UpToFree(payload, ',');
    MimeOfHeader(mime);
  }

  /** Without a comma the MIME type is still found, and the payload is `undefined`. */
  lemma HeaderOnlyUrlHasNoPayload(mime: string)
    requires ':' !in mime && ';' !in mime && ',' !in mime
    ensures SplitDataUrl("data:" + mime + ";base64") == Success(InlineData(mime, None))
  {
    var header := "data:" + mime + ";base64";
    assert header == "data:" + mime + [';'] + "base64";
    assert ',' !in header;
    UpToFree(header, ',');
    MimeOfHeader(mime);
  }

  /** The header `data:<mime>;base64` yields `<mime>` as the MIME type. */
  lemma MimeOfHeader(mime: string)
    requires ':' !in mime && ';' !in mime
    ensures var header := "data:" + mime + ";base64";
      && ':' in header
      && UpTo(UpTo(header[IndexOf(header, ':').value + 1..], ':'), ';') == mime
  {
    var header := "data:" + mime + ";base64";
    var rest := mime + ";base64";
    assert header == "data" + [':'] + rest;
    UpToAfterFreePrefix("data", ':', rest);
    assert ':' !in rest;
    UpToFree(rest, ':');
    assert rest == mime + [';'] + "base64";
    UpToAfterFreePrefix(mime, ';', "base64");
  }

  /** `history.slice(-3)`: the last three entries, or all of them when there are fewer. */
  function HistoryWindow<T>(history: seq<T>): (w: seq<T>)
    ensures |w| == Min(3, |history|)
    ensures history == history[..|history| - |w|] + w
  {
    Slice(history, -3)
  }

  /** The LEARNING CONTEXT line of the system instruction: none for an empty history, else the window. */
  function LearningContext<T>(history: seq<T>): (c: Option<seq<T>>)
    ensures c.None? <==> |history| == 0
    ensures c.Some? ==> |c.value| == Min(3, |history|) && c.value == history[|history| - |c.value|..]
  {
    if |history| > 0 then Some(HistoryWindow(history)) else None
  }

  /** The window keeps the original relative order: its k-th entry is the matching entry of the tail. */
  lemma WindowKeepsOrder<T>(history: seq<T>, k: nat)
    requires k < |HistoryWindow(history)|
    ensures HistoryWindow(history)[k] == history[|history| - Min(3, |history|) + k]
  {
    var w := HistoryWindow(history);
    assert history[|history| - |w| + k] == (history[..|history| - |w|] + w)[|history| - |w| + k];
  }

  const ModelName := "gemini-3-flash-preview"
  const RequestCue := "Diagnostic request: Forex chart analysis."
  const ResponseMimeType := "application/json"

  /** The one request `analyzeChart` sends. */
  datatype GenerateRequest<T> = GenerateRequest(
    model: string,
    image: InlineData,
    cue: string,
    learningContext: Option<seq<T>>,
    responseMimeType: string,
    responseSchema: ResponseSchema.Schema)

  /** What can go wrong in `analyzeChart`: a malformed data URL, or a rejection from the remote side. */
  datatype ServiceError = MalformedDataUrl(reason: SplitError) | RemoteError(thrown: Thrown)

  /** Assembles the request for an image data URL and a history (which defaults to empty). */
  function BuildRequest<T>(url: string, history: seq<T>): (r: Result<GenerateRequest<T>, SplitError>)
    ensures r.Failure? <==> SplitDataUrl(url).Failure?
    ensures r.Failure? ==> r.error == SplitDataUrl(url).error
    ensures r.Success? ==>
      && r.value.image == SplitDataUrl(url).value
      && r.value.learningContext == LearningContext(history)
      && r.value.model == ModelName && r.value.cue == RequestCue
      && r.value.responseMimeType == ResponseMimeType
      && r.value.responseSchema == ResponseSchema.AnalysisSchema
  {
    match SplitDataUrl(url)
    case Failure(e) => Failure(e)
    case Success(image) =>
      Success(GenerateRequest(ModelName, image, RequestCue, LearningContext(history), ResponseMimeType, ResponseSchema.AnalysisSchema))
  }

  /** A FileReader-style data URL reaches the model as exactly its MIME type and payload, with the history window. */
  lemma RequestCarriesImage<T>(mime: string, payload: string, history: seq<T>)
    requires ':' !in mime && ';' !in mime && ',' !in mime
    requires ',' !in payload
    ensures var r := BuildRequest("data:" + mime + ";base64," + payload, history);
      && r.Success?
      && r.value.image == InlineData(mime, Some(payload))
      && r.value.learningContext == LearningContext(history)
  {
    DataUrlRoundTrip(mime, payload);
  }

  /**
   * `analyzeChart(imageDataUrl, history)`: the remote model is consulted
   * only when the URL splits, exactly once, with the assembled request, and
   * its answer (a parsed result or a thrown value) is passed on unchanged.
   */
  function AnalyzeChart<T>(url: string, history: seq<T>, remote: GenerateRequest<T> -> Result<AnalysisResult, Thrown>)
    : (r: Result<AnalysisResult, ServiceError>)
    ensures SplitDataUrl(url).Failure? ==> r == Failure(MalformedDataUrl(SplitDataUrl(url).error))
    ensures SplitDataUrl(url).Success? ==>
      var request := BuildRequest(url, history).value;
      && (r.Success? <==> remote(request).Success?)
      && (r.Success? ==> r.value == remote(request).value)
      && (r.Failure? ==> r.error == RemoteError(remote(request).error))
  {
    match BuildRequest(url, history)
    case Failure(e) => Failure(MalformedDataUrl(e))
    case Success(request) =>
      match remote(request)
      case Success(result) => Success(result)
      case Failure(thrown) => Failure(RemoteError(thrown))
  }
}
