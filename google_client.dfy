/** The Google client (`providers/google/client/mod.rs`): the requests it
    builds for `generateContent` and `streamGenerateContent`, the errors of
    a non-streaming exchange, the classification of event-source items, and
    the truncation of the event stream after its first error or finished
    response. */
module GoogleClient {
  import opened Common
  import opened Strings
  import opened EventSource

  // ---------------------------------------------------------------------
  // Wire types (the fields of `client/types.rs` the core inspects)
  // ---------------------------------------------------------------------

  datatype FunctionCall = FunctionCall(name: string, args: Json)

  /** A part of a candidate's content: text, a function call, both or
      neither. */
  datatype Part = Part(text: Option<string>, functionCall: Option<FunctionCall>)

  datatype Candidate = Candidate(parts: seq<Part>, finishReason: Option<string>)

  /** `GenerateContentResponse`; `usage` is `usage_metadata` converted to
      the crate's usage record. */
  datatype GenerateContentResponse = GenerateContentResponse(candidates: seq<Candidate>, usage: Option<Usage>)

  /** `GoogleStreamEvent`: a decoded response, or data that decoded to no
      response, kept verbatim. */
  datatype GoogleStreamEvent = Response(response: GenerateContentResponse) | NotSupported(raw: string)

  // ---------------------------------------------------------------------
  // The provider and its requests
  // ---------------------------------------------------------------------

  datatype Settings = Settings(baseUrl: string, apiKey: string)

  /** `GoogleOptions`: the model, the converted request (a JSON value) and
      whether the call streams, which is never serialised. */
  datatype GoogleOptions = GoogleOptions(model: string, request: Option<Json>, streaming: bool)

  datatype Google = Google(settings: Settings, options: GoogleOptions)

  /** The path of a non-streaming call. */
  function GeneratePath(model: string): string {
    "models/" + model + ":generateContent"
  }

  /** The path of a streaming call. */
  function StreamPath(model: string): string {
    "models/" + model + ":streamGenerateContent"
  }

  /** The query a streaming call sets on its URL. */
  const StreamQuery := "alt=sse"

  /** `headers`: JSON content and the API key. */
  function Headers(g: Google): (h: seq<(string, string)>)
    ensures ("content-type", "application/json") in h
    ensures ("x-goog-api-key", g.settings.apiKey) in h
    ensures |h| == 2
  {
    [("content-type", "application/json"), ("x-goog-api-key", g.settings.apiKey)]
  }

  /** `body`: the serialised request when there is one, else `{}`;
      `serialise` is `serde_json::to_string`. */
  function Body(g: Google, serialise: Json -> string): (body: string)
    ensures g.options.request.None? ==> body == "{}"
    ensures g.options.request.Some? ==> body == serialise(g.options.request.value)
  {
    match g.options.request
    case Some(request) => serialise(request)
    case None => "{}"
  }

  /** The URL operations of the `url` crate: parsing the base URL, and
      joining a path onto it. */
  datatype UrlOps = UrlOps(parse: string -> Option<string>, join: (string, string) -> Option<string>)

  /** The URL of a call: the base must parse and the path must join onto
      it. */
  function Endpoint(base: string, path: string, urls: UrlOps): (r: Result<string>)
    ensures urls.parse(base).None? ==> r == Err(InvalidInput("Invalid base URL"))
    ensures urls.parse(base).Some? && urls.join(urls.parse(base).value, path).None? ==>
      r == Err(InvalidInput("Failed to join base URL and path"))
    ensures r.Ok? <==> urls.parse(base).Some? && urls.join(urls.parse(base).value, path).Some?
    ensures r.Ok? ==> r.value == urls.join(urls.parse(base).value, path).value
  {
    match urls.parse(base)
    case None => Err(InvalidInput("Invalid base URL"))
    case Some(url) =>
      match urls.join(url, path)
      case None => Err(InvalidInput("Failed to join base URL and path"))
      case Some(joined) => Ok(joined)
  }

  /** A request as it goes on the wire. */
  datatype Request = Request(url: string, query: Option<string>, headers: seq<(string, string)>, body: string)

  /** The request of `send` to the base URL `base`. */
  function GenerateRequest(g: Google, base: string, urls: UrlOps, serialise: Json -> string): (r: Result<Request>)
    ensures r.Ok? <==> Endpoint(base, GeneratePath(g.options.model), urls).Ok?
    ensures r.Ok? ==> r.value == Request(Endpoint(base, GeneratePath(g.options.model), urls).value, None,
                                          Headers(g), Body(g, serialise))
    ensures r.Err? ==> r.error == Endpoint(base, GeneratePath(g.options.model), urls).error
  {
    match Endpoint(base, GeneratePath(g.options.model), urls)
    case Err(e) => Err(e)
    case Ok(url) => Ok(Request(url, None, Headers(g), Body(g, serialise)))
  }

  /** The request of `send_and_stream` to the base URL `base`: the streaming
      path, with the query `alt=sse`. */
  function StreamRequest(g: Google, base: string, urls: UrlOps, serialise: Json -> string): (r: Result<Request>)
    ensures r.Ok? <==> Endpoint(base, StreamPath(g.options.model), urls).Ok?
    ensures r.Ok? ==> r.value == Request(Endpoint(base, StreamPath(g.options.model), urls).value, Some(StreamQuery),
                                          Headers(g), Body(g, serialise))
    ensures r.Err? ==> r.error == Endpoint(base, StreamPath(g.options.model), urls).error
  {
    match Endpoint(base, StreamPath(g.options.model), urls)
    case Err(e) => Err(e)
    case Ok(url) => Ok(Request(url, Some(StreamQuery), Headers(g), Body(g, serialise)))
  }

  /** Different models are sent to different paths, both streaming and
      not. */
  lemma PathsDetermineModel(a: string, b: string)
    ensures GeneratePath(a) == GeneratePath(b) ==> a == b
    ensures StreamPath(a) == StreamPath(b) ==> a == b
  {
    if GeneratePath(a) == GeneratePath(b) {
      ModelOfPath(a, ":generateContent");
      ModelOfPath(b, ":generateContent");
    }
    if StreamPath(a) == StreamPath(b) {
      ModelOfPath(a, ":streamGenerateContent");
      ModelOfPath(b, ":streamGenerateContent");
    }
  }

  /** The model is what lies between the `models/` prefix and the suffix. */
  lemma ModelOfPath(model: string, suffix: string)
    ensures ("models/" + model + suffix)[7..|"models/" + model + suffix| - |suffix|] == model
  {
    var p := "models/" + model + suffix;
    assert forall i :: 0 <= i < |model| ==> p[7 + i] == model[i];
  }

  /** The streaming flag and the model never reach the body: only the
      request is serialised. */
  lemma BodyIgnoresModelAndStreaming(g: Google, model: string, streaming: bool, serialise: Json -> string)
    ensures Body(g.(options := g.options.(model := model, streaming := streaming)), serialise) == Body(g, serialise)
  {
  }

  // ---------------------------------------------------------------------
  // A non-streaming exchange
  // ---------------------------------------------------------------------

  /** What the server did with a sent request: it could not be sent, its
      body could not be read, or it was answered with a status and a body
      text. */
  datatype Reply = SendFailed(message: string) | Unreadable(message: string) | Replied(status: int, text: string)

  predicate IsSuccess(status: int) {
    200 <= status <= 299
  }

  /** `send`. The error type of this client carries only a message; such an
      error is an `ApiError` without a status here. `displayStatus` is the
      `Display` rendering of a status code, and `decode` is
      `serde_json::from_str` for a response. */
  function Send(g: Google, base: string, urls: UrlOps, serialise: Json -> string, reply: Reply,
                displayStatus: int -> string, decode: string -> Decoded<GenerateContentResponse>)
    : (r: Result<GenerateContentResponse>)
    ensures GenerateRequest(g, base, urls, serialise).Err? ==> r == Err(GenerateRequest(g, base, urls, serialise).error)
    ensures GenerateRequest(g, base, urls, serialise).Ok? ==>
      match reply
      case SendFailed(m) => r == Err(ApiError(None, m))
      case Unreadable(m) => r == Err(ApiError(None, m))
      case Replied(status, text) =>
        (!IsSuccess(status) ==> r == Err(ApiError(None, "Status: " + displayStatus(status) + ", Body: " + text)))
        && (IsSuccess(status) ==> match decode(text)
                                  case Decoded(v) => r == Ok(v)
                                  case DecodeError(e) => r == Err(ApiError(None, "Decoding error: " + e + ", Body: " + text)))
    ensures r.Ok? ==> reply.Replied? && IsSuccess(reply.status) && decode(reply.text) == Decoded(r.value)
  {
    match GenerateRequest(g, base, urls, serialise)
    case Err(e) => Err(e)
    case Ok(_) =>
      match reply
      case SendFailed(m) => Err(ApiError(None, m))
      case Unreadable(m) => Err(ApiError(None, m))
      case Replied(status, text) =>
        if !IsSuccess(status) then Err(ApiError(None, "Status: " + displayStatus(status) + ", Body: " + text))
        else match decode(text)
          case Decoded(v) => Ok(v)
          case DecodeError(e) => Err(ApiError(None, "Decoding error: " + e + ", Body: " + text))
  }

  // ---------------------------------------------------------------------
  // Event-source classification
  // ---------------------------------------------------------------------

  /** `parse_stream_sse`. `parse` is `serde_json::from_str` for a JSON value,
      and `fromValue` decodes a value into a response (`None` when it is no
      response). There is no end-of-stream sentinel: every message is
      parsed. */
  function ParseStreamSse(item: SseItem, parse: string -> Decoded<Json>,
                          fromValue: Json -> Option<GenerateContentResponse>): (r: Result<GoogleStreamEvent>)
    ensures item == Event(Open) ==> r == Ok(GoogleStreamEvent.NotSupported("{}"))
    ensures item.Event? && item.event.Message? ==>
      match parse(item.event.data)
      case DecodeError(m) => r == Err(ApiError(None, "Invalid JSON in SSE data: " + m))
      case Decoded(v) => r == Ok(if fromValue(v).Some? then Response(fromValue(v).value) else GoogleStreamEvent.NotSupported(item.event.data))
    ensures item.Failure? ==> r == Err(ApiError(None, item.error.display))
  {
    match item
    case Event(Open) => Ok(GoogleStreamEvent.NotSupported("{}"))
    case Event(Message(data)) =>
      (match parse(data)
       case DecodeError(m) => Err(ApiError(None, "Invalid JSON in SSE data: " + m))
       case Decoded(v) =>
         match fromValue(v)
         case Some(response) => Ok(Response(response))
         case None => Ok(GoogleStreamEvent.NotSupported(data)))
    case Failure(e) => Err(ApiError(None, e.display))
  }

  /** The event source's errors lose their status in this client: an
      invalid status is reported by its rendering alone. */
  lemma InvalidStatusLosesStatus(status: int, display: string, parse: string -> Decoded<Json>,
                                 fromValue: Json -> Option<GenerateContentResponse>)
    ensures ParseStreamSse(Failure(InvalidStatusCode(status, display)), parse, fromValue) == Err(ApiError(None, display))
  {
  }

  /** A candidate is finished when it has a finish reason. */
  predicate Finished(c: Candidate) {
    c.finishReason.Some?
  }

  /** `end_stream`: a response with some finished candidate. Data that
      did not decode never ends the stream. */
  predicate EndStream(e: GoogleStreamEvent)
    ensures EndStream(e) ==> e.Response? && |e.response.candidates| > 0
  {
    e.Response? && exists j :: 0 <= j < |e.response.candidates| && Finished(e.response.candidates[j])
  }

  /** The item after which the stream yields nothing more: an error, or an
      event that ends the stream. */
  predicate Terminal(item: Result<GoogleStreamEvent>) {
    item.Err? || EndStream(item.value)
  }

  /** The stream up to and including its first terminal item. */
  function UntilEnd(items: seq<Result<GoogleStreamEvent>>): seq<Result<GoogleStreamEvent>>
    decreases |items|
  {
    if items == [] then []
    else if Terminal(items[0]) then [items[0]]
    else [items[0]] + UntilEnd(items[1..])
  }

  /** The truncated stream is a prefix of the stream; only its last item
      may be terminal; it is shorter only when it ends with a terminal
      item. */
  lemma {:induction false} UntilEndSpec(items: seq<Result<GoogleStreamEvent>>)
    ensures |UntilEnd(items)| <= |items| && UntilEnd(items) == items[..|UntilEnd(items)|]
    ensures forall j :: 0 <= j < |UntilEnd(items)| - 1 ==> !Terminal(UntilEnd(items)[j])
    ensures |UntilEnd(items)| < |items| ==> UntilEnd(items) != [] && Terminal(UntilEnd(items)[|UntilEnd(items)| - 1])
    decreases |items|
  {
    if items != [] && !Terminal(items[0]) {
      var rest := UntilEnd(items[1..]);
      UntilEndSpec(items[1..]);
      assert UntilEnd(items) == [items[0]] + rest;
      assert items[..|rest| + 1] == [items[0]] + items[1..][..|rest|];
    }
  }

  /** A stream without terminal items is passed through whole. */
  lemma {:induction false} UntilEndNoTerminal(items: seq<Result<GoogleStreamEvent>>)
    requires forall j :: 0 <= j < |items| ==> !Terminal(items[j])
    ensures UntilEnd(items) == items
    decreases |items|
  {
    if items != [] {
      UntilEndNoTerminal(items[1..]);
    }
  }

  /** Truncating twice is truncating once. */
  lemma {:induction false} UntilEndIdempotent(items: seq<Result<GoogleStreamEvent>>)
    ensures UntilEnd(UntilEnd(items)) == UntilEnd(items)
    decreases |items|
  {
    if items != [] && !Terminal(items[0]) {
      UntilEndIdempotent(items[1..]);
      assert ([items[0]] + UntilEnd(items[1..]))[1..] == UntilEnd(items[1..]);
    }
  }

  /** The `scan` with the `ended` flag: an item is forwarded while the flag
      is down, and the flag goes up after an error or an event that ends the
      stream; once it is up the stream ends. */
  method Scan(items: seq<Result<GoogleStreamEvent>>) returns (out: seq<Result<GoogleStreamEvent>>)
    ensures out == UntilEnd(items)
  {
    out := [];
    var ended := false;
    var j := 0;
    while j < |items| && !ended
      invariant 0 <= j <= |items|
      invariant !ended ==> UntilEnd(items) == out + UntilEnd(items[j..])
      invariant ended ==> out == UntilEnd(items)
      decreases |items| - j
    {
      assert items[j..][0] == items[j] && items[j..][1..] == items[j + 1..];
      ended := Terminal(items[j]);
      out := out + [items[j]];
      if !ended {
        AppendAssoc(out[..|out| - 1], [items[j]], UntilEnd(items[j + 1..]));
        assert out[..|out| - 1] + [items[j]] == out;
      }
      j := j + 1;
    }
    if !ended {
      assert items[j..] == [];
      assert out + [] == out;
    }
  }

  /** The event source a streaming request opened, or the error of opening
      it (`eventsource()` fails only on a request that cannot be cloned). */
  datatype Opened = Opened(items: seq<SseItem>) | CannotOpen(message: string)

  /** `send_and_stream`: the streaming request is built; the event source's
      items are classified one by one and the stream ends after its first
      error or finished response. */
  method SendAndStream(g: Google, base: string, urls: UrlOps, serialise: Json -> string, source: Opened,
                       parse: string -> Decoded<Json>, fromValue: Json -> Option<GenerateContentResponse>)
    returns (r: Result<seq<Result<GoogleStreamEvent>>>)
    ensures StreamRequest(g, base, urls, serialise).Err? ==> r == Err(StreamRequest(g, base, urls, serialise).error)
    ensures StreamRequest(g, base, urls, serialise).Ok? && source.CannotOpen? ==>
      r == Err(ApiError(None, "SSE stream error: " + source.message))
    ensures StreamRequest(g, base, urls, serialise).Ok? && source.Opened? ==>
      r.Ok? && r.value == UntilEnd(Classified(source.items, parse, fromValue))
  {
    var request := StreamRequest(g, base, urls, serialise);
    if request.Err? {
      return Err(request.error);
    }
    match source
    case CannotOpen(m) =>
      r := Err(ApiError(None, "SSE stream error: " + m));
    case Opened(items) =>
      var out := Scan(Classified(items, parse, fromValue));
      r := Ok(out);
  }

  /** The event source's items, classified one by one. */
  function Classified(items: seq<SseItem>, parse: string -> Decoded<Json>,
                      fromValue: Json -> Option<GenerateContentResponse>): (r: seq<Result<GoogleStreamEvent>>)
    ensures |r| == |items|
    ensures forall j :: 0 <= j < |items| ==> r[j] == ParseStreamSse(items[j], parse, fromValue)
  {
    seq(|items|, j requires 0 <= j < |items| => ParseStreamSse(items[j], parse, fromValue))
  }
}
