/** The Codex language model (`providers/codex/language_model.rs`): the
    non-streaming entry point that always refuses, and `stream_text`, which
    establishes the event stream under the retry policy and maps every
    Responses-API event to the crate's chunks. */
module CodexModel {
  import opened Common
  import opened CodexProvider
  import opened CodexClient
  import Retry

  /** `name`: the model of the stored options. */
  function Name(c: Codex): string {
    c.lmOptions.model
  }

  /** The error `generate_text` returns. */
  const StreamingOnly := Other("Codex provider supports streaming only; use stream_text()")

  /** `generate_text`: the provider only streams, so every request fails with
      the same error and the provider is left as it was. */
  method GenerateText(c: Codex, options: LmOptions) returns (c': Codex, r: Result<LanguageModelResponse>)
    ensures c' == c
    ensures r == Err(StreamingOnly)
  {
    c' := c;
    r := Err(StreamingOnly);
  }

  // ---------------------------------------------------------------------
  // A completed response
  // ---------------------------------------------------------------------

  /** The JSON value of a function call's argument text:
      `from_str(arguments).unwrap_or_default()`. */
  function Arguments(arguments: string, parse: string -> Decoded<Json>): (v: Json)
    ensures parse(arguments).DecodeError? ==> v == JNull
  {
    match parse(arguments)
    case Decoded(value) => value
    case DecodeError(_) => JNull
  }

  /** The finished content an output item contributes, if any: the first
      content of a message when it is output text, the first summary of a
      reasoning item, every function call; nothing for the rest. */
  function ItemContent(item: MessageItem, parse: string -> Decoded<Json>): (r: Option<Content>)
    ensures item.OutputMessage? ==> (r.Some? <==> |item.content| > 0 && item.content[0].OutputText?)
    ensures item.OutputMessage? && r.Some? ==> r.value == TextContent(item.content[0].text)
    ensures item.ReasoningItem? ==> (r.Some? <==> |item.summary| > 0)
    ensures item.ReasoningItem? && r.Some? ==> r.value == ReasoningContent(item.summary[0], None)
    ensures item.FunctionCall? ==>
      r == Some(ToolCallContent(ToolCallInfo(Some(item.callId), item.name, Arguments(item.arguments, parse))))
    ensures item.OtherItem? ==> r.None?
  {
    match item
    case OutputMessage(content) =>
      if |content| > 0 && content[0].OutputText? then Some(TextContent(content[0].text)) else None
    case ReasoningItem(summary) =>
      if |summary| > 0 then Some(ReasoningContent(summary[0], None)) else None
    case FunctionCall(callId, name, arguments) =>
      Some(ToolCallContent(ToolCallInfo(Some(callId), name, Arguments(arguments, parse))))
    case OtherItem(_) => None
  }

  /** The `Done` chunks of the output items, in order, each with `usage`. */
  function DoneChunks(output: seq<MessageItem>, usage: Usage, parse: string -> Decoded<Json>): seq<StreamChunk>
    decreases |output|
  {
    if output == [] then []
    else
      var init := DoneChunks(output[..|output| - 1], usage, parse);
      match ItemContent(output[|output| - 1], parse)
      case Some(content) => init + [Done(AssistantMessage(content, Some(usage)))]
      case None => init
  }

  /** The items that contribute a chunk. */
  predicate Contributes(item: MessageItem, parse: string -> Decoded<Json>) {
    ItemContent(item, parse).Some?
  }

  /** The number of output items that contribute a chunk. */
  function Contributing(output: seq<MessageItem>, parse: string -> Decoded<Json>): nat
    decreases |output|
  {
    if output == [] then 0
    else (if Contributes(output[0], parse) then 1 else 0) + Contributing(output[1..], parse)
  }

  /** The arm for `ResponseCompleted`: the loop over the output that pushes a
      `Done` for every contributing item, all with the response's usage (the
      default when it has none). */
  method CompletedChunks(response: OpenAIResponse, parse: string -> Decoded<Json>) returns (result: seq<StreamChunk>)
    ensures result == DoneChunks(response.output.GetOr([]), response.usage.GetOr(DefaultUsage), parse)
  {
    var usage := response.usage.GetOr(DefaultUsage);
    var output := response.output.GetOr([]);
    result := [];
    for j := 0 to |output|
      invariant result == DoneChunks(output[..j], usage, parse)
    {
      assert output[..j + 1][..j] == output[..j];
      var content := ItemContent(output[j], parse);
      if content.Some? {
        result := result + [Done(AssistantMessage(content.value, Some(usage)))];
      }
    }
    assert output[..|output|] == output;
  }

  /** Every chunk of a completed response is a `Done` carrying the same
      usage. */
  lemma {:induction false} DoneChunksShareUsage(output: seq<MessageItem>, usage: Usage, parse: string -> Decoded<Json>)
    ensures forall j :: 0 <= j < |DoneChunks(output, usage, parse)| ==>
      DoneChunks(output, usage, parse)[j].Done? && DoneChunks(output, usage, parse)[j].message.usage == Some(usage)
    decreases |output|
  {
    if output != [] {
      DoneChunksShareUsage(output[..|output| - 1], usage, parse);
    }
  }

  /** The chunks of two runs of output are the chunks of each run, in
      order. */
  lemma {:induction false} DoneChunksAppend(a: seq<MessageItem>, b: seq<MessageItem>, usage: Usage,
                                            parse: string -> Decoded<Json>)
    ensures DoneChunks(a + b, usage, parse) == DoneChunks(a, usage, parse) + DoneChunks(b, usage, parse)
    decreases |b|
  {
    if b == [] {
      assert a + b == a;
    } else {
      var init := b[..|b| - 1];
      assert (a + b)[..|a + b| - 1] == a + init;
      assert (a + b)[|a + b| - 1] == b[|b| - 1];
      DoneChunksAppend(a, init, usage, parse);
      match ItemContent(b[|b| - 1], parse)
      case Some(content) =>
        AppendAssoc(DoneChunks(a, usage, parse), DoneChunks(init, usage, parse),
                    [Done(AssistantMessage(content, Some(usage)))]);
      case None =>
    }
  }

  /** One output item yields one chunk holding its content when it
      contributes, and none otherwise. */
  lemma DoneChunksSingle(item: MessageItem, usage: Usage, parse: string -> Decoded<Json>)
    ensures Contributes(item, parse) ==>
      DoneChunks([item], usage, parse) == [Done(AssistantMessage(ItemContent(item, parse).value, Some(usage)))]
    ensures !Contributes(item, parse) ==> DoneChunks([item], usage, parse) == []
  {
    assert [item][..0] == [];
  }

  /** There is one chunk per contributing output item. */
  lemma {:induction false} DoneChunksCount(output: seq<MessageItem>, usage: Usage, parse: string -> Decoded<Json>)
    ensures |DoneChunks(output, usage, parse)| == Contributing(output, parse)
    decreases |output|
  {
    if output != [] {
      assert output == [output[0]] + output[1..];
      DoneChunksAppend([output[0]], output[1..], usage, parse);
      DoneChunksSingle(output[0], usage, parse);
      DoneChunksCount(output[1..], usage, parse);
    }
  }

  /** Every function call is reported, whatever its arguments; arguments
      that do not parse become the null value. */
  lemma FunctionCallAlwaysReported(callId: string, name: string, arguments: string, usage: Usage,
                                   parse: string -> Decoded<Json>)
    ensures parse(arguments).DecodeError? ==>
      DoneChunks([FunctionCall(callId, name, arguments)], usage, parse)
      == [Done(AssistantMessage(ToolCallContent(ToolCallInfo(Some(callId), name, JNull)), Some(usage)))]
  {
    DoneChunksSingle(FunctionCall(callId, name, arguments), usage, parse);
  }

  // ---------------------------------------------------------------------
  // The mapping of stream items
  // ---------------------------------------------------------------------

  /** The reason of a `Failed` chunk for an error event. */
  function FailureReason(code: Option<string>, message: string): string {
    code.GetOr("unknown") + ": " + message
  }

  /** The chunks of one stream item. `debug` is the `Debug` rendering of an
      event, used for the events the model does not handle. */
  function EventChunks(item: Result<StreamEvent>, parse: string -> Decoded<Json>, debug: StreamEvent -> string)
    : (r: Result<seq<StreamChunk>>)
    ensures item.Err? <==> r.Err?
    ensures item.Err? ==> r.error == item.error
    ensures r.Ok? && !item.value.ResponseCompleted? ==> |r.value| == 1 && r.value[0].Delta?
    ensures r.Ok? && item.value.ResponseCompleted? ==> forall j :: 0 <= j < |r.value| ==> r.value[j].Done?
    ensures item.Ok? && item.value.ResponseOutputTextDelta? ==> r.value == [Delta(Text(item.value.delta))]
    ensures item.Ok? && item.value.ResponseReasoningSummaryTextDelta? ==>
      r.value == [Delta(Reasoning(item.value.delta))]
    ensures item.Ok? && item.value.ResponseIncomplete? ==>
      r.value == [Delta(Incomplete(item.value.response.incompleteReason.GetOr("Unknown")))]
    ensures item.Ok? && item.value.ResponseError? ==>
      r.value == [Delta(Failed(FailureReason(item.value.code, item.value.message)))]
    ensures item.Ok? && (item.value.OtherEvent? || item.value.NotSupported?) ==>
      r.value == [Delta(ChunkType.NotSupported(debug(item.value)))]
  {
    match item
    case Err(e) => Err(e)
    case Ok(event) =>
      match event
      case ResponseOutputTextDelta(delta) => Ok([Delta(Text(delta))])
      case ResponseReasoningSummaryTextDelta(delta) => Ok([Delta(Reasoning(delta))])
      case ResponseCompleted(response) =>
        var output := response.output.GetOr([]);
        var usage := response.usage.GetOr(DefaultUsage);
        DoneChunksShareUsage(output, usage, parse);
        Ok(DoneChunks(output, usage, parse))
      case ResponseIncomplete(response) => Ok([Delta(Incomplete(response.incompleteReason.GetOr("Unknown")))])
      case ResponseError(code, message) => Ok([Delta(Failed(FailureReason(code, message)))])
      case OtherEvent(_) => Ok([Delta(ChunkType.NotSupported(debug(event)))])
      case NotSupported(_) => Ok([Delta(ChunkType.NotSupported(debug(event)))])
  }

  /** The mapped stream: item by item, in order. */
  function MapEvents(items: seq<Result<StreamEvent>>, parse: string -> Decoded<Json>, debug: StreamEvent -> string)
    : (r: seq<Result<seq<StreamChunk>>>)
    ensures |r| == |items|
    ensures forall j :: 0 <= j < |items| ==> r[j] == EventChunks(items[j], parse, debug)
  {
    seq(|items|, j requires 0 <= j < |items| => EventChunks(items[j], parse, debug))
  }

  /** The outcome of the k-th establishment attempt, given what the k-th
      request returned. */
  function Attempts(outcome: nat -> HttpOutcome): nat -> Result<seq<BodyItem>> {
    (k: nat) => Connect(outcome(k))
  }

  /** `stream_text`: the converted options keep the stored model and switch
      streaming on; establishment follows the retry policy; an established
      body is split into events by the producer, and the receiver maps
      each event. outcome(k) is what the k-th request returned, and
      `budget` is how many items the receiver takes before it is dropped
      (`None`: it reads to the end). */
  method StreamText(c: Codex, converted: LmOptions, outcome: nat -> HttpOutcome, budget: Option<nat>,
                    codec: Codec, debug: StreamEvent -> string)
    returns (c': Codex, r: Result<seq<Result<seq<StreamChunk>>>>, waits: seq<nat>)
    ensures c' == c.(lmOptions := converted.(model := c.lmOptions.model, stream := Some(true)))
    ensures |waits| == Retry.Retries(Attempts(outcome)) && waits == Retry.Backoff(|waits|)
    ensures Attempts(outcome)(|waits|).Err? ==> r == Err(Attempts(outcome)(|waits|).error)
    ensures Attempts(outcome)(|waits|).Ok? ==>
      r == Ok(MapEvents(Deliver(Generated(Attempts(outcome)(|waits|).value, codec), budget), codec.parseJson, debug))
  {
    c' := c.(lmOptions := converted.(model := c.lmOptions.model, stream := Some(true)));
    var established;
    established, waits := Retry.Establish(Attempts(outcome));
    if established.Err? {
      return c', Err(established.error), waits;
    }
    var events := Produce(established.value, budget, codec);
    r := Ok(MapEvents(events, codec.parseJson, debug));
  }

  // ---------------------------------------------------------------------
  // Properties of the stream
  // ---------------------------------------------------------------------

  /** Streaming keeps the model the provider was built with. */
  lemma StreamKeepsModel(c: Codex, converted: LmOptions)
    ensures Name(c.(lmOptions := converted.(model := c.lmOptions.model, stream := Some(true)))) == Name(c)
  {
  }

  /** A rate-limited request is retried only while retries remain: when
      every request is answered with 429, six are sent and the last 429 is
      returned. */
  lemma PersistentRateLimitSurfaces(outcome: nat -> HttpOutcome)
    requires forall k :: outcome(k) == Responded(TooManyRequests, [])
    ensures Retry.Retries(Attempts(outcome)) == Retry.MaxRetries
    ensures Attempts(outcome)(Retry.MaxRetries) == Err(ApiError(Some(TooManyRequests), ""))
  {
    forall k: nat ensures Retry.IsRateLimited(Attempts(outcome)(k)) {
      assert Attempts(outcome)(k) == Err(ApiError(Some(TooManyRequests), ErrorBodyText([])));
    }
    Retry.AlwaysRateLimited(Attempts(outcome));
    assert Attempts(outcome)(Retry.MaxRetries) == Err(ApiError(Some(TooManyRequests), ErrorBodyText([])));
  }

  /** Only a completed response produces `Done` chunks: in the mapped
      stream, the items with a `Done` come from completed responses. */
  lemma DoneOnlyFromCompleted(items: seq<Result<StreamEvent>>, parse: string -> Decoded<Json>,
                              debug: StreamEvent -> string, j: nat, k: nat)
    requires j < |items|
    requires MapEvents(items, parse, debug)[j].Ok?
    requires k < |MapEvents(items, parse, debug)[j].value|
    requires MapEvents(items, parse, debug)[j].value[k].Done?
    ensures items[j].Ok? && items[j].value.ResponseCompleted?
  {
  }
}
