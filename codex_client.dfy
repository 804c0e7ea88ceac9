/** The Codex HTTP client (`providers/codex/client.rs`): the request it sends,
    the classification of event-source items, and the producer task that
    splits the response body into server-sent-event frames and forwards the
    decoded events over a channel. */
module CodexClient {
  import opened Common
  import opened Strings
  import opened EventSource
  import opened CodexProvider
  import Retry

  // ---------------------------------------------------------------------
  // Wire types of the OpenAI Responses API that the core inspects
  // ---------------------------------------------------------------------

  datatype OutputContent = OutputText(text: string) | Refusal(refusal: string)

  /** `MessageItem`: one item of a finished response's output. */
  datatype MessageItem =
    | OutputMessage(content: seq<OutputContent>)
    | ReasoningItem(summary: seq<string>)
    | FunctionCall(callId: string, name: string, arguments: string)
    | OtherItem(kind: string)

  /** `OpenAIResponse`, reduced to its output, usage and the reason in
      `incomplete_details`. */
  datatype OpenAIResponse = OpenAIResponse(
    output: Option<seq<MessageItem>>,
    usage: Option<Usage>,
    incompleteReason: Option<string>)

  /** `OpenAiStreamEvent`. `OtherEvent` stands for every variant the core does
      not inspect (created, in-progress, item added, ...), by its type name;
      `NotSupported` carries text that did not decode. */
  datatype StreamEvent =
    | ResponseOutputTextDelta(delta: string)
    | ResponseReasoningSummaryTextDelta(delta: string)
    | ResponseCompleted(response: OpenAIResponse)
    | ResponseIncomplete(response: OpenAIResponse)
    | ResponseError(code: Option<string>, message: string)
    | OtherEvent(eventType: string)
    | NotSupported(raw: string)

  /** The event that marks the end of the stream. */
  const EndMarker := StreamEvent.NotSupported("[END]")

  /** The serde calls used on event text: parsing JSON text into a value, and
      decoding a value into an event (`None` when it matches no variant).
      `serde_json::from_str::<OpenAiStreamEvent>` is the two in sequence. */
  datatype Codec = Codec(parseJson: string -> Decoded<Json>, fromValue: Json -> Option<StreamEvent>)

  function FromStr(s: string, codec: Codec): Option<StreamEvent> {
    match codec.parseJson(s)
    case Decoded(v) => codec.fromValue(v)
    case DecodeError(_) => None
  }

  // ---------------------------------------------------------------------
  // Request
  // ---------------------------------------------------------------------

  /** `Codex::body`: the serialised options (`serialised`, or `{}` when
      serialisation fails) with `instructions` and `store: false` set when it
      is an object. */
  function Body(c: Codex, serialised: Option<Json>): (body: Json)
    ensures serialised.None? ==>
      body == JObject(map["instructions" := JString(c.settings.instructions), "store" := JBool(false)])
    ensures serialised.Some? && !serialised.value.JObject? ==> body == serialised.value
    ensures serialised.Some? && serialised.value.JObject? ==>
      body.JObject?
      && body.members.Keys == serialised.value.members.Keys + {"instructions", "store"}
      && body.members["instructions"] == JString(c.settings.instructions)
      && body.members["store"] == JBool(false)
      && (forall k :: k in serialised.value.members && k != "instructions" && k != "store"
                      ==> body.members[k] == serialised.value.members[k])
  {
    var value := serialised.GetOr(JObject(map[]));
    match value
    case JObject(m) =>
      JObject(m["instructions" := JString(c.settings.instructions)]["store" := JBool(false)])
    case _ => value
  }

  /** How the HTTP exchange ended: the request failed (with the status the
      error reports, if any), or a response arrived with a status and a body
      stream. */
  datatype HttpOutcome =
    | RequestFailed(failureStatus: Option<int>, message: string)
    | Responded(status: int, body: seq<BodyItem>)

  /** One item of the response's byte stream: a chunk (as text) or a
      transport error. */
  datatype BodyItem = Bytes(text: string) | BodyError(message: string)

  predicate IsSuccess(status: int) {
    200 <= status < 300
  }

  /** The text before the first body error. */
  function Received(body: seq<BodyItem>): string
    decreases |body|
  {
    if body == [] then ""
    else match body[0]
      case Bytes(s) => s + Received(body[1..])
      case BodyError(_) => ""
  }

  /** The message of the first body error, if any. */
  function BodyFailure(body: seq<BodyItem>): Option<string>
    decreases |body|
  {
    if body == [] then None
    else match body[0]
      case Bytes(_) => BodyFailure(body[1..])
      case BodyError(m) => Some(m)
  }

  /** `response.text()` on an unsuccessful response. */
  function ErrorBodyText(body: seq<BodyItem>): string {
    match BodyFailure(body)
    case None => Received(body)
    case Some(m) => "<failed to read body: " + m + ">"
  }

  /** The part of `send_and_stream` before the producer is spawned: a failed
      request or an unsuccessful status is an error, otherwise the body
      stream is handed on. */
  function Connect(o: HttpOutcome): (r: Result<seq<BodyItem>>)
    ensures o.RequestFailed? ==> r == Err(ApiError(o.failureStatus, "SSE stream request failed: " + o.message))
    ensures o.Responded? && !IsSuccess(o.status) ==> r == Err(ApiError(Some(o.status), ErrorBodyText(o.body)))
    ensures o.Responded? && IsSuccess(o.status) ==> r == Ok(o.body)
    ensures Retry.IsRateLimited(r) <==>
      (o.RequestFailed? && o.failureStatus == Some(TooManyRequests)) || (o.Responded? && o.status == TooManyRequests)
  {
    match o
    case RequestFailed(status, message) => Err(ApiError(status, "SSE stream request failed: " + message))
    case Responded(status, body) =>
      if IsSuccess(status) then Ok(body) else Err(ApiError(Some(status), ErrorBodyText(body)))
  }

  // ---------------------------------------------------------------------
  // Event-source classification
  // ---------------------------------------------------------------------

  /** `Codex::parse_stream_sse`. */
  function ParseStreamSse(item: SseItem, codec: Codec): (r: Result<StreamEvent>)
    ensures item == Event(Open) ==> r == Ok(StreamEvent.NotSupported("{}"))
    ensures item.Event? && item.event.Message? && (Trim(item.event.data) == "[DONE]" || item.event.data == "")
            ==> r == Ok(EndMarker)
    ensures item.Event? && item.event.Message? && Trim(item.event.data) != "[DONE]" && item.event.data != ""
            ==> (match codec.parseJson(item.event.data)
                 case DecodeError(msg) => r == Err(ApiError(None, "Invalid JSON in SSE data: " + msg))
                 case Decoded(v) =>
                   r == Ok(if codec.fromValue(v).Some? then codec.fromValue(v).value
                           else StreamEvent.NotSupported(item.event.data)))
    ensures item.Failure? ==>
      r == Err(ApiError(if item.error.InvalidStatusCode? then Some(item.error.status) else None,
                        item.error.display))
  {
    match item
    case Event(Open) => Ok(StreamEvent.NotSupported("{}"))
    case Event(Message(data)) =>
      if Trim(data) == "[DONE]" || data == "" then Ok(EndMarker)
      else (match codec.parseJson(data)
            case DecodeError(msg) => Err(ApiError(None, "Invalid JSON in SSE data: " + msg))
            case Decoded(v) => Ok(codec.fromValue(v).GetOr(StreamEvent.NotSupported(data))))
    case Failure(e) =>
      var status := if e.InvalidStatusCode? then Some(e.status) else None;
      Err(ApiError(status, e.display))
  }

  /** `Codex::end_stream`: the events after which the producer stops
      sending, and the end marker. */
  predicate EndStream(e: StreamEvent)
    ensures EndStream(e) <==> IsStop(Ok(e)) || e == EndMarker
  {
    e.ResponseCompleted? || e == EndMarker || e.ResponseError?
  }

  /** Both end-of-stream sentinels of the event source, `[DONE]` (with any
      surrounding whitespace) and empty data, classify as an event that ends
      the stream, never as an error. */
  lemma SentinelsEndStream(data: string, codec: Codec)
    requires Trim(data) == "[DONE]" || data == ""
    ensures ParseStreamSse(Event(Message(data)), codec).Ok?
    ensures EndStream(ParseStreamSse(Event(Message(data)), codec).value)
  {
  }

  /** The only events that end the stream are the completed and error events
      and the end marker: text deltas and undecodable data keep it open. */
  lemma DeltasDoNotEndStream(data: string, codec: Codec)
    requires data != "[END]"
    ensures !EndStream(ResponseOutputTextDelta(data)) && !EndStream(ResponseReasoningSummaryTextDelta(data))
    ensures !EndStream(StreamEvent.NotSupported(data))
  {
  }

  // ---------------------------------------------------------------------
  // Frames of the response body
  // ---------------------------------------------------------------------

  /** A blank line (`"\n\n"`) starts at `i`. */
  predicate SepAt(s: string, i: int) {
    0 <= i && i + 1 < |s| && s[i] == '\n' && s[i + 1] == '\n'
  }

  /** The first blank line at or after `k`. */
  function FirstSepFrom(s: string, k: nat): (r: Option<nat>)
    ensures r.Some? ==> k <= r.value && SepAt(s, r.value)
    decreases |s| - k
  {
    if k + 1 >= |s| then None
    else if s[k] == '\n' && s[k + 1] == '\n' then Some(k)
    else FirstSepFrom(s, k + 1)
  }

  /** `find("\n\n")`. */
  function FirstSep(s: string): (r: Option<nat>)
    ensures r.Some? ==> SepAt(s, r.value)
  {
    FirstSepFrom(s, 0)
  }

  lemma {:induction false} FirstSepFromSpec(s: string, k: nat)
    ensures var r := FirstSepFrom(s, k);
      && (r.Some? ==> k <= r.value && SepAt(s, r.value) && forall j :: k <= j < r.value ==> !SepAt(s, j))
      && (r.None? ==> forall j :: k <= j ==> !SepAt(s, j))
    decreases |s| - k
  {
    if k + 1 < |s| && !(s[k] == '\n' && s[k + 1] == '\n') {
      FirstSepFromSpec(s, k + 1);
    }
  }

  /** `find` gives the first blank line, and `None` when there is none. */
  lemma FirstSepSpec(s: string)
    ensures FirstSep(s).Some? ==> SepAt(s, FirstSep(s).value)
    ensures FirstSep(s).Some? ==> forall j :: 0 <= j < FirstSep(s).value ==> !SepAt(s, j)
    ensures FirstSep(s).None? ==> forall j :: 0 <= j ==> !SepAt(s, j)
  {
    FirstSepFromSpec(s, 0);
  }

  lemma {:induction false} FirstSepFromUnique(s: string, k: nat, i: nat)
    requires k <= i && SepAt(s, i) && forall j :: k <= j < i ==> !SepAt(s, j)
    ensures FirstSepFrom(s, k) == Some(i)
    decreases i - k
  {
    if k < i {
      assert !SepAt(s, k);
      FirstSepFromUnique(s, k + 1, i);
    }
  }

  /** Appending text never moves a blank line already present. */
  lemma FirstSepAppend(x: string, y: string)
    requires FirstSep(x).Some?
    ensures FirstSep(x + y) == FirstSep(x)
  {
    var i := FirstSep(x).value;
    FirstSepSpec(x);
    forall j | 0 <= j < i
      ensures !SepAt(x + y, j)
    {
      assert !SepAt(x, j);
    }
    FirstSepFromUnique(x + y, 0, i);
  }

  /** Complete frames and the unterminated remainder. */
  datatype Frames = Frames(frames: seq<string>, rest: string)

  /** The frames of a text: the pieces before each blank line, in order, and
      what follows the last blank line. */
  function SplitFrames(s: string): (r: Frames)
    ensures FirstSep(r.rest).None?
    decreases |s|
  {
    match FirstSep(s)
    case None => Frames([], s)
    case Some(i) =>
      var tail := SplitFrames(s[i + 2..]);
      Frames([s[..i]] + tail.frames, tail.rest)
  }

  /** The text the frames came from: each frame followed by its blank line. */
  function Joined(frames: seq<string>): string
    decreases |frames|
  {
    if frames == [] then "" else frames[0] + "\n\n" + Joined(frames[1..])
  }

  /** A text without a blank line has no `find("\n\n")` match. */
  lemma NoSepNoFirst(s: string)
    requires forall j :: !SepAt(s, j)
    ensures FirstSep(s).None?
  {
  }

  /** The first frame of a text and what follows its blank line. */
  lemma CutAtFirst(s: string, i: nat)
    requires FirstSep(s) == Some(i)
    ensures s == s[..i] + "\n\n" + s[i + 2..]
    ensures SplitFrames(s) == Frames([s[..i]] + SplitFrames(s[i + 2..]).frames, SplitFrames(s[i + 2..]).rest)
  {
    assert s[i..i + 2] == "\n\n";
    assert s == s[..i] + s[i..i + 2] + s[i + 2..];
  }

  /** The split loses nothing: the frames, each followed by its blank line,
      and then the remainder, give back the text. */
  lemma {:induction false} SplitFramesJoin(s: string)
    ensures Joined(SplitFrames(s).frames) + SplitFrames(s).rest == s
    decreases |s|
  {
    match FirstSep(s)
    case None =>
    case Some(i) =>
      var tail := s[i + 2..];
      CutAtFirst(s, i);
      SplitFramesJoin(tail);
      var t := SplitFrames(tail);
      var frames := [s[..i]] + t.frames;
      assert frames[0] == s[..i] && frames[1..] == t.frames;
      calc {
        Joined(frames) + t.rest;
        (s[..i] + "\n\n" + Joined(t.frames)) + t.rest;
        { AppendAssoc(s[..i] + "\n\n", Joined(t.frames), t.rest); }
        s[..i] + "\n\n" + (Joined(t.frames) + t.rest);
        s[..i] + "\n\n" + tail;
      }
  }

  /** The split cuts at every blank line: no frame holds one. */
  lemma {:induction false} SplitFramesClean(s: string)
    ensures forall j :: 0 <= j < |SplitFrames(s).frames| ==> FirstSep(SplitFrames(s).frames[j]).None?
    decreases |s|
  {
    match FirstSep(s)
    case None =>
    case Some(i) =>
      var tail := s[i + 2..];
      CutAtFirst(s, i);
      FirstSepSpec(s);
      SplitFramesClean(tail);
      var frame := s[..i];
      var t := SplitFrames(tail);
      forall j | SepAt(frame, j) ensures false {
        assert SepAt(s, j);
      }
      NoSepNoFirst(frame);
      forall j | 0 <= j < |[frame] + t.frames|
        ensures FirstSep(([frame] + t.frames)[j]).None?
      {
        if j > 0 {
          assert ([frame] + t.frames)[j] == t.frames[j - 1];
        }
      }
  }

  /** Splitting a concatenation: the frames of `x`, then the frames of
      `x`'s remainder followed by `y`. */
  lemma {:induction false} SplitFramesAppend(x: string, y: string)
    ensures SplitFrames(x + y).frames == SplitFrames(x).frames + SplitFrames(SplitFrames(x).rest + y).frames
    ensures SplitFrames(x + y).rest == SplitFrames(SplitFrames(x).rest + y).rest
    decreases |x|
  {
    match FirstSep(x)
    case None =>
      assert SplitFrames(x) == Frames([], x);
      assert [] + SplitFrames(x + y).frames == SplitFrames(x + y).frames;
    case Some(i) =>
      FirstSepAppend(x, y);
      var tail := x[i + 2..];
      assert (x + y)[i + 2..] == tail + y;
      assert (x + y)[..i] == x[..i];
      SplitFramesAppend(tail, y);
      assert SplitFrames(x) == Frames([x[..i]] + SplitFrames(tail).frames, SplitFrames(tail).rest);
      assert SplitFrames(x + y) == Frames([x[..i]] + SplitFrames(tail + y).frames, SplitFrames(tail + y).rest);
      AppendAssoc([x[..i]], SplitFrames(tail).frames, SplitFrames(SplitFrames(tail).rest + y).frames);
  }

  // ---------------------------------------------------------------------
  // Events of frames
  // ---------------------------------------------------------------------

  /** The payload of a `data:` line, after trailing carriage returns are
      removed and leading whitespace of the payload is skipped. A line has a
      payload exactly when it starts with `data:`, and the payload never
      starts with whitespace. */
  function DataLine(line: string): (r: Option<string>)
    ensures r.Some? <==> StartsWith(TrimEndMatches(line, '\r'), "data:")
    ensures r.Some? ==> r.value == [] || !IsWhitespace(r.value[0])
  {
    match StripPrefix(TrimEndMatches(line, '\r'), "data:")
    case Some(rest) => Some(TrimStart(rest))
    case None => None
  }

  /** The payloads of the data lines among `lines`, in order: never more
      payloads than lines, none starting with whitespace. */
  function DataLines(lines: seq<string>): (r: seq<string>)
    ensures |r| <= |lines|
    ensures forall j :: 0 <= j < |r| ==> r[j] == [] || !IsWhitespace(r[j][0])
    decreases |lines|
  {
    if lines == [] then []
    else
      var init := DataLines(lines[..|lines| - 1]);
      match DataLine(lines[|lines| - 1])
      case Some(d) => init + [d]
      case None => init
  }

  /** A frame has no data exactly when none of its lines is a data line. */
  lemma {:induction false} DataLinesSpec(lines: seq<string>)
    ensures DataLines(lines) == [] <==> forall j :: 0 <= j < |lines| ==> DataLine(lines[j]).None?
    decreases |lines|
  {
    if lines != [] {
      var init := lines[..|lines| - 1];
      var last := lines[|lines| - 1];
      DataLinesSpec(init);
      assert forall j :: 0 <= j < |init| ==> init[j] == lines[j];
      if DataLine(last).Some? {
        assert DataLines(lines) == DataLines(init) + [DataLine(last).value];
      } else {
        assert DataLines(lines) == DataLines(init);
        assert (forall j :: 0 <= j < |lines| ==> DataLine(lines[j]).None?)
          <==> (forall j :: 0 <= j < |init| ==> DataLine(init[j]).None?);
      }
    }
  }

  /** The loop over a frame's lines that collects its data payloads. */
  method CollectDataLines(raw: string) returns (dataLines: seq<string>)
    ensures dataLines == DataLines(Lines(raw))
  {
    var lines := Lines(raw);
    dataLines := [];
    for j := 0 to |lines|
      invariant dataLines == DataLines(lines[..j])
    {
      assert lines[..j + 1][..j] == lines[..j];
      var line := TrimEndMatches(lines[j], '\r');
      var stripped := StripPrefix(line, "data:");
      if stripped.Some? {
        dataLines := dataLines + [TrimStart(stripped.value)];
      }
    }
    assert lines[..|lines|] == lines;
  }

  /** The event of a frame whose data payloads are `dataLines` (at least
      one): the end marker for `[DONE]` or blank data, otherwise the decoded
      event, or the data itself when it does not decode. */
  function DataEvent(dataLines: seq<string>, codec: Codec): (r: StreamEvent)
    ensures Trim(Join(dataLines, "\n")) == "[DONE]" || IsBlank(Join(dataLines, "\n")) ==> r == EndMarker
    ensures Trim(Join(dataLines, "\n")) != "[DONE]" && !IsBlank(Join(dataLines, "\n")) ==>
      r == FromStr(Join(dataLines, "\n"), codec).GetOr(StreamEvent.NotSupported(Join(dataLines, "\n")))
  {
    TrimEmptyIffBlank(Join(dataLines, "\n"));
    var data := Join(dataLines, "\n");
    if Trim(data) == "[DONE]" || Trim(data) == "" then EndMarker
    else FromStr(data, codec).GetOr(StreamEvent.NotSupported(data))
  }

  /** The event of one frame; a frame without data lines yields none. */
  function FrameEvent(raw: string, codec: Codec): (r: Option<StreamEvent>)
    ensures r.None? <==> DataLines(Lines(raw)) == []
  {
    var dataLines := DataLines(Lines(raw));
    if dataLines == [] then None else Some(DataEvent(dataLines, codec))
  }

  /** The event of the text left when the body ends, if it is not blank. */
  function TrailingEvent(buffer: string, codec: Codec): (r: Option<StreamEvent>)
    ensures r.None? <==> IsBlank(buffer)
    ensures Trim(buffer) == "[DONE]" ==> r == Some(EndMarker)
  {
    TrimEmptyIffBlank(buffer);
    var trailing := Trim(buffer);
    if trailing == "" then None
    else if trailing == "[DONE]" then Some(EndMarker)
    else Some(FromStr(trailing, codec).GetOr(StreamEvent.NotSupported(trailing)))
  }

  /** The channel item for one frame, if it has one: a frame yields an
      item exactly when one of its lines is a data line, and never an
      error. */
  function FrameItem(raw: string, codec: Codec): (r: seq<Result<StreamEvent>>)
    ensures |r| <= 1 && forall j :: 0 <= j < |r| ==> r[j].Ok?
    ensures r == [] <==> forall j :: 0 <= j < |Lines(raw)| ==> DataLine(Lines(raw)[j]).None?
  {
    DataLinesSpec(Lines(raw));
    var ev := FrameEvent(raw, codec);
    if ev.Some? then [Ok(ev.value)] else []
  }

  /** The channel items for a run of frames. */
  function FrameItems(frames: seq<string>, codec: Codec): (r: seq<Result<StreamEvent>>)
    ensures |r| <= |frames|
    ensures forall j :: 0 <= j < |r| ==> r[j].Ok?
    decreases |frames|
  {
    if frames == [] then [] else FrameItem(frames[0], codec) + FrameItems(frames[1..], codec)
  }

  lemma {:induction false} FrameItemsAppend(a: seq<string>, b: seq<string>, codec: Codec)
    ensures FrameItems(a + b, codec) == FrameItems(a, codec) + FrameItems(b, codec)
    decreases |a|
  {
    if a != [] {
      assert (a + b)[0] == a[0] && (a + b)[1..] == a[1..] + b;
      FrameItemsAppend(a[1..], b, codec);
      AppendAssoc(FrameItem(a[0], codec), FrameItems(a[1..], codec), FrameItems(b, codec));
    } else {
      assert a + b == b;
    }
  }

  /** What the producer emits after the last frame: the body error, or else
      the trailing event. */
  function Tail(buffer: string, failure: Option<string>, codec: Codec): (r: seq<Result<StreamEvent>>)
    ensures |r| <= 1
    ensures failure.Some? ==> r == [Err(ApiError(None, "SSE body stream error: " + failure.value))]
    ensures failure.None? ==> (r == [] <==> IsBlank(buffer)) && forall j :: 0 <= j < |r| ==> r[j].Ok?
  {
    match failure
    case Some(m) => [Err(ApiError(None, "SSE body stream error: " + m))]
    case None =>
      match TrailingEvent(buffer, codec)
      case Some(e) => [Ok(e)]
      case None => []
  }

  /** Every item the producer would emit for `body` with nobody hanging up:
      the events of the frames of the whole text received, then the body
      error or the trailing event. Only the last item can be an error. */
  function Generated(body: seq<BodyItem>, codec: Codec): (r: seq<Result<StreamEvent>>)
    ensures forall j :: 0 <= j < |r| - 1 ==> r[j].Ok?
    ensures BodyFailure(body).Some? ==> |r| > 0 && r[|r| - 1].Err?
  {
    var split := SplitFrames(Received(body));
    FrameItems(split.frames, codec) + Tail(split.rest, BodyFailure(body), codec)
  }

  /** The producer's items from a buffer that holds no blank line and the
      body items still to come, chunk by chunk as the producer reads them. */
  function GeneratedFrom(buffer: string, rest: seq<BodyItem>, codec: Codec): seq<Result<StreamEvent>>
    decreases |rest|
  {
    if rest == [] then Tail(buffer, None, codec)
    else match rest[0]
      case BodyError(m) => Tail(buffer, Some(m), codec)
      case Bytes(s) =>
        var split := SplitFrames(buffer + s);
        FrameItems(split.frames, codec) + GeneratedFrom(split.rest, rest[1..], codec)
  }

  /** How the body is cut into chunks does not matter: reading it chunk by
      chunk yields the items of the whole text. */
  lemma {:induction false} ChunkingIrrelevant(buffer: string, rest: seq<BodyItem>, codec: Codec)
    requires FirstSep(buffer).None?
    ensures GeneratedFrom(buffer, rest, codec)
            == FrameItems(SplitFrames(buffer + Received(rest)).frames, codec)
               + Tail(SplitFrames(buffer + Received(rest)).rest, BodyFailure(rest), codec)
    decreases |rest|
  {
    if rest == [] {
      assert buffer + Received(rest) == buffer;
    } else {
      match rest[0]
      case BodyError(m) =>
        assert buffer + Received(rest) == buffer;
      case Bytes(s) =>
        var split := SplitFrames(buffer + s);
        var later := Received(rest[1..]);
        var whole := SplitFrames(split.rest + later);
        var failure := BodyFailure(rest[1..]);
        assert Received(rest) == s + later && BodyFailure(rest) == failure;
        AppendAssoc(buffer, s, later);
        SplitFramesAppend(buffer + s, later);
        assert SplitFrames(buffer + Received(rest)) == Frames(split.frames + whole.frames, whole.rest);
        calc {
          GeneratedFrom(buffer, rest, codec);
          FrameItems(split.frames, codec) + GeneratedFrom(split.rest, rest[1..], codec);
          { ChunkingIrrelevant(split.rest, rest[1..], codec); }
          FrameItems(split.frames, codec) + (FrameItems(whole.frames, codec) + Tail(whole.rest, failure, codec));
          { AppendAssoc(FrameItems(split.frames, codec), FrameItems(whole.frames, codec), Tail(whole.rest, failure, codec)); }
          (FrameItems(split.frames, codec) + FrameItems(whole.frames, codec)) + Tail(whole.rest, failure, codec);
          { FrameItemsAppend(split.frames, whole.frames, codec); }
          FrameItems(split.frames + whole.frames, codec) + Tail(whole.rest, failure, codec);
        }
    }
  }

  // ---------------------------------------------------------------------
  // Delivery over the channel
  // ---------------------------------------------------------------------

  /** Events after which the producer stops. */
  predicate IsStop(item: Result<StreamEvent>) {
    item.Ok? && (item.value.ResponseCompleted? || item.value.ResponseError?)
  }

  /** Nothing more can be delivered after `d`: the budget is used up or
      the last item stopped the producer. */
  predicate Closed(d: seq<Result<StreamEvent>>, budget: Option<nat>) {
    budget == Some(|d|) || (|d| > 0 && IsStop(d[|d| - 1]))
  }

  /** The items that reach the consumer when it drops the receiver after
      taking `budget` items (`None`: it never does): sending stops when a
      send fails and after a completed or error event. */
  function Deliver(items: seq<Result<StreamEvent>>, budget: Option<nat>): seq<Result<StreamEvent>>
    decreases |items|
  {
    if items == [] || budget == Some(0) then []
    else if IsStop(items[0]) then [items[0]]
    else [items[0]] + Deliver(items[1..], if budget.Some? then Some(budget.value - 1) else None)
  }

  /** What is delivered is a prefix of what is generated, within the budget;
      it stops short only when the budget is used up or at a completed or
      error event, and no such event is followed by anything. */
  lemma {:induction false} DeliverIsPrefix(items: seq<Result<StreamEvent>>, budget: Option<nat>)
    ensures var r := Deliver(items, budget);
      && |r| <= |items| && r == items[..|r|]
      && (budget.Some? ==> |r| <= budget.value)
      && (forall j :: 0 <= j < |r| - 1 ==> !IsStop(r[j]))
      && (|r| < |items| ==> Closed(r, budget))
    decreases |items|
  {
    if items != [] && budget != Some(0) && !IsStop(items[0]) {
      var next := if budget.Some? then Some(budget.value - 1) else None;
      DeliverIsPrefix(items[1..], next);
      var r := Deliver(items[1..], next);
      assert Deliver(items, budget) == [items[0]] + r;
      assert items[..|r| + 1] == [items[0]] + items[1..][..|r|];
    }
  }

  /** The items sent so far can all be followed by more. */
  predicate CanContinue(sent: seq<Result<StreamEvent>>, budget: Option<nat>) {
    (forall j :: 0 <= j < |sent| ==> !IsStop(sent[j])) && (budget.None? || |sent| <= budget.value)
  }

  lemma CanContinueSnoc(sent: seq<Result<StreamEvent>>, x: Result<StreamEvent>, budget: Option<nat>)
    requires CanContinue(sent, budget) && !IsStop(x) && (budget.None? || |sent| < budget.value)
    ensures CanContinue(sent + [x], budget)
  {
  }

  function Remaining(budget: Option<nat>, used: nat): Option<nat>
    requires budget.None? || used <= budget.value
  {
    if budget.Some? then Some(budget.value - used) else None
  }

  lemma {:induction false} DeliverAfter(sent: seq<Result<StreamEvent>>, more: seq<Result<StreamEvent>>, budget: Option<nat>)
    requires CanContinue(sent, budget)
    ensures Deliver(sent + more, budget) == sent + Deliver(more, Remaining(budget, |sent|))
    decreases |sent|
  {
    if sent == [] {
      assert sent + more == more;
    } else {
      assert (sent + more)[0] == sent[0] && (sent + more)[1..] == sent[1..] + more;
      var next := if budget.Some? then Some(budget.value - 1) else None;
      DeliverAfter(sent[1..], more, next);
    }
  }

  lemma {:induction false} DeliverClosed(items: seq<Result<StreamEvent>>, more: seq<Result<StreamEvent>>, budget: Option<nat>)
    requires Closed(Deliver(items, budget), budget)
    ensures Deliver(items + more, budget) == Deliver(items, budget)
    decreases |items|
  {
    if items == [] {
      assert items + more == more;
    } else if budget != Some(0) && !IsStop(items[0]) {
      assert (items + more)[0] == items[0] && (items + more)[1..] == items[1..] + more;
      DeliverClosed(items[1..], more, if budget.Some? then Some(budget.value - 1) else None);
    } else {
      assert (items + more)[0] == items[0];
    }
  }

  /** Delivery at the producer's next send: nothing more when the budget is
      used up, and nothing after a completed or error event. */
  lemma DeliverNext(sent: seq<Result<StreamEvent>>, x: Result<StreamEvent>, more: seq<Result<StreamEvent>>,
                    budget: Option<nat>)
    requires CanContinue(sent, budget)
    ensures budget == Some(|sent|) ==> Deliver(sent + ([x] + more), budget) == sent
    ensures budget != Some(|sent|) && IsStop(x) ==> Deliver(sent + ([x] + more), budget) == sent + [x]
    ensures budget == Some(|sent|) ==> Closed(sent, budget)
    ensures budget != Some(|sent|) && IsStop(x) ==> Closed(sent + [x], budget)
  {
    DeliverAfter(sent, [x] + more, budget);
    assert ([x] + more)[0] == x;
    assert sent + [] == sent;
  }

  /** Cutting the first frame off a buffer. */
  lemma CutFrame(buffer: string, codec: Codec)
    requires FirstSep(buffer).Some?
    ensures var idx := FirstSep(buffer).value;
      var next := buffer[idx + 2..];
      && SplitFrames(buffer).rest == SplitFrames(next).rest
      && FrameItems(SplitFrames(buffer).frames, codec)
         == FrameItem(buffer[..idx], codec) + FrameItems(SplitFrames(next).frames, codec)
  {
    var idx := FirstSep(buffer).value;
    var next := buffer[idx + 2..];
    assert SplitFrames(buffer).frames == [buffer[..idx]] + SplitFrames(next).frames;
    assert ([buffer[..idx]] + SplitFrames(next).frames)[1..] == SplitFrames(next).frames;
  }

  /** One turn of the producer's inner loop, for the frame `raw`: collects
      its data lines and, when there are any, sends its event. `stop` says
      the producer ends here, because the send failed or the event was a
      completed or error event; `more` stands for whatever would follow. */
  method SendFrame(raw: string, sent0: seq<Result<StreamEvent>>, budget: Option<nat>, codec: Codec,
                   ghost more: seq<Result<StreamEvent>>)
    returns (sent: seq<Result<StreamEvent>>, stop: bool)
    requires CanContinue(sent0, budget)
    ensures stop ==> sent == Deliver(sent0 + (FrameItem(raw, codec) + more), budget) && Closed(sent, budget)
    ensures !stop ==> sent == sent0 + FrameItem(raw, codec) && CanContinue(sent, budget)
  {
    var dataLines := CollectDataLines(raw);
    if |dataLines| == 0 {
      assert sent0 + [] == sent0;
      return sent0, false;
    }
    var event := DataEvent(dataLines, codec);
    DeliverNext(sent0, Ok(event), more, budget);
    if budget == Some(|sent0|) {
      return sent0, true;
    }
    sent := sent0 + [Ok(event)];
    if IsStop(Ok(event)) {
      return sent, true;
    }
    CanContinueSnoc(sent0, Ok(event), budget);
    stop := false;
  }

  /** One turn of the producer's inner loop: cuts the first frame off the
      buffer and handles it. */
  method CutAndSend(buffer0: string, sent0: seq<Result<StreamEvent>>, budget: Option<nat>, codec: Codec)
    returns (buffer: string, sent: seq<Result<StreamEvent>>, stop: bool)
    requires FirstSep(buffer0).Some? && CanContinue(sent0, budget)
    ensures stop ==> sent == Deliver(sent0 + FrameItems(SplitFrames(buffer0).frames, codec), budget)
    ensures stop ==> Closed(sent, budget)
    ensures !stop ==> |buffer| < |buffer0| && SplitFrames(buffer).rest == SplitFrames(buffer0).rest
    ensures !stop ==> CanContinue(sent, budget)
    ensures !stop ==> sent + FrameItems(SplitFrames(buffer).frames, codec)
                      == sent0 + FrameItems(SplitFrames(buffer0).frames, codec)
  {
    var idx := FirstSep(buffer0).value;
    var raw := buffer0[..idx];
    CutFrame(buffer0, codec);
    buffer := buffer0[idx + 2..];
    ghost var more := FrameItems(SplitFrames(buffer).frames, codec);
    sent, stop := SendFrame(raw, sent0, budget, codec, more);
    if !stop {
      AppendAssoc(sent0, FrameItem(raw, codec), more);
    }
  }

  /** The inner loop of the producer: handles every complete frame in the
      buffer, until there is none left or the producer ends. */
  method DrainFrames(buffer0: string, sent0: seq<Result<StreamEvent>>, budget: Option<nat>, codec: Codec)
    returns (buffer: string, sent: seq<Result<StreamEvent>>, finished: bool)
    requires CanContinue(sent0, budget)
    ensures finished ==> sent == Deliver(sent0 + FrameItems(SplitFrames(buffer0).frames, codec), budget)
    ensures finished ==> Closed(sent, budget)
    ensures !finished ==> buffer == SplitFrames(buffer0).rest && CanContinue(sent, budget)
    ensures !finished ==> sent == sent0 + FrameItems(SplitFrames(buffer0).frames, codec)
  {
    ghost var target := sent0 + FrameItems(SplitFrames(buffer0).frames, codec);
    buffer, sent := buffer0, sent0;
    while FirstSep(buffer).Some?
      invariant CanContinue(sent, budget)
      invariant SplitFrames(buffer).rest == SplitFrames(buffer0).rest
      invariant target == sent + FrameItems(SplitFrames(buffer).frames, codec)
      decreases |buffer|
    {
      var stop;
      buffer, sent, stop := CutAndSend(buffer, sent, budget, codec);
      if stop {
        return buffer, sent, true;
      }
    }
    assert SplitFrames(buffer) == Frames([], buffer);
    assert sent + [] == sent;
    finished := false;
  }

  /** The producer's handling of one chunk of the body: appends it to the
      buffer and handles the complete frames. `later` stands for the body
      items still to come. */
  method TakeChunk(chunk: string, buffer0: string, sent0: seq<Result<StreamEvent>>, budget: Option<nat>,
                   codec: Codec, ghost later: seq<BodyItem>)
    returns (buffer: string, sent: seq<Result<StreamEvent>>, finished: bool)
    requires FirstSep(buffer0).None? && CanContinue(sent0, budget)
    ensures finished ==> sent == Deliver(sent0 + GeneratedFrom(buffer0, [Bytes(chunk)] + later, codec), budget)
    ensures !finished ==> FirstSep(buffer).None? && CanContinue(sent, budget)
    ensures !finished ==> sent + GeneratedFrom(buffer, later, codec)
                          == sent0 + GeneratedFrom(buffer0, [Bytes(chunk)] + later, codec)
  {
    ghost var frames := SplitFrames(buffer0 + chunk);
    ghost var rest := GeneratedFrom(frames.rest, later, codec);
    assert ([Bytes(chunk)] + later)[0] == Bytes(chunk) && ([Bytes(chunk)] + later)[1..] == later;
    assert GeneratedFrom(buffer0, [Bytes(chunk)] + later, codec) == FrameItems(frames.frames, codec) + rest;
    AppendAssoc(sent0, FrameItems(frames.frames, codec), rest);
    buffer, sent, finished := DrainFrames(buffer0 + chunk, sent0, budget, codec);
    if finished {
      DeliverClosed(sent0 + FrameItems(frames.frames, codec), rest, budget);
    }
  }

  /** The producer's last act when the body ends: a non-blank remainder is
      sent as one more event. */
  method FlushTrailing(buffer: string, sent0: seq<Result<StreamEvent>>, budget: Option<nat>, codec: Codec)
    returns (sent: seq<Result<StreamEvent>>)
    requires CanContinue(sent0, budget)
    ensures sent == Deliver(sent0 + Tail(buffer, None, codec), budget)
  {
    DeliverAfter(sent0, Tail(buffer, None, codec), budget);
    sent := sent0;
    if Trim(buffer) != "" {
      var trailing := Trim(buffer);
      var event := if trailing == "[DONE]" then EndMarker
                   else FromStr(trailing, codec).GetOr(StreamEvent.NotSupported(trailing));
      if budget != Some(|sent0|) {
        sent := sent0 + [Ok(event)];
      }
    } else {
      TrimEmptyIffBlank(buffer);
      assert sent0 + [] == sent0;
    }
  }

  /** The producer's handling of a body error: it is sent, and the producer
      ends. */
  method SendBodyError(message: string, buffer: string, sent0: seq<Result<StreamEvent>>, budget: Option<nat>,
                       codec: Codec, ghost later: seq<BodyItem>)
    returns (sent: seq<Result<StreamEvent>>)
    requires CanContinue(sent0, budget)
    ensures sent == Deliver(sent0 + GeneratedFrom(buffer, [BodyError(message)] + later, codec), budget)
  {
    var item := Err(ApiError(None, "SSE body stream error: " + message));
    assert ([BodyError(message)] + later)[0] == BodyError(message);
    assert GeneratedFrom(buffer, [BodyError(message)] + later, codec) == [item];
    DeliverAfter(sent0, [item], budget);
    sent := sent0;
    if budget != Some(|sent0|) {
      sent := sent0 + [item];
    } else {
      assert sent0 + [] == sent0;
    }
  }

  /** The producer's handling of body item k. */
  method ReadItem(body: seq<BodyItem>, k: nat, buffer0: string, sent0: seq<Result<StreamEvent>>,
                  budget: Option<nat>, codec: Codec)
    returns (buffer: string, sent: seq<Result<StreamEvent>>, finished: bool)
    requires k < |body|
    requires FirstSep(buffer0).None? && CanContinue(sent0, budget)
    ensures finished ==> sent == Deliver(sent0 + GeneratedFrom(buffer0, body[k..], codec), budget)
    ensures !finished ==> FirstSep(buffer).None? && CanContinue(sent, budget)
    ensures !finished ==> sent + GeneratedFrom(buffer, body[k + 1..], codec)
                          == sent0 + GeneratedFrom(buffer0, body[k..], codec)
  {
    ghost var later := body[k + 1..];
    assert body[k..] == [body[k]] + later;
    match body[k]
    case BodyError(m) =>
      sent := SendBodyError(m, buffer0, sent0, budget, codec, later);
      return buffer0, sent, true;
    case Bytes(chunk) =>
      buffer, sent, finished := TakeChunk(chunk, buffer0, sent0, budget, codec, later);
  }

  /** Reading the body chunk by chunk from an empty buffer. */
  lemma GeneratedInChunks(body: seq<BodyItem>, codec: Codec)
    ensures Generated(body, codec) == GeneratedFrom("", body, codec)
  {
    ChunkingIrrelevant("", body, codec);
    assert "" + Received(body) == Received(body);
  }

  /** The producer's loop over the body items: it stops early when a body
      error or the receiver ends the stream, and otherwise leaves the
      remainder of the text in `buffer`. */
  method ReadBody(body: seq<BodyItem>, budget: Option<nat>, codec: Codec)
    returns (buffer: string, sent: seq<Result<StreamEvent>>, finished: bool)
    ensures finished ==> sent == Deliver(GeneratedFrom("", body, codec), budget)
    ensures !finished ==> FirstSep(buffer).None? && CanContinue(sent, budget)
    ensures !finished ==> sent + Tail(buffer, None, codec) == GeneratedFrom("", body, codec)
  {
    ghost var target := GeneratedFrom("", body, codec);
    assert body[0..] == body && [] + target == target;
    buffer := "";
    sent := [];
    finished := false;
    var k := 0;
    while k < |body|
      invariant 0 <= k <= |body|
      invariant FirstSep(buffer).None? && CanContinue(sent, budget)
      invariant target == sent + GeneratedFrom(buffer, body[k..], codec)
    {
      buffer, sent, finished := ReadItem(body, k, buffer, sent, budget, codec);
      if finished {
        return;
      }
      k := k + 1;
    }
    assert body[k..] == [];
  }

  /** The producer task: reads the body chunk by chunk and sends the events
      of its frames; a body error is sent and ends the producer, and at the end
      of the body a non-blank remainder is sent as one more event. It
      delivers exactly the items of the whole text. */
  method Produce(body: seq<BodyItem>, budget: Option<nat>, codec: Codec) returns (sent: seq<Result<StreamEvent>>)
    ensures sent == Deliver(Generated(body, codec), budget)
  {
    GeneratedInChunks(body, codec);
    var buffer, finished;
    buffer, sent, finished := ReadBody(body, budget, codec);
    if !finished {
      sent := FlushTrailing(buffer, sent, budget, codec);
    }
  }
}
