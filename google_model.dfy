/** The Google language model (`providers/google/language_model.rs`):
    `generate_text` flattens the parts of every candidate into content
    items, and `stream_text` maps every streamed response to text and tool
    call deltas, with one `Done` for each finished candidate. */
module GoogleModel {
  import opened Common
  import opened Strings
  import opened GoogleClient

  /** `name`: the model of the stored options. */
  function Name(g: Google): string {
    g.options.model
  }

  /** The tool call of a function call part; the code sets no id. */
  function CallInfo(fc: FunctionCall): ToolCallInfo {
    ToolCallInfo(None, fc.name, fc.args)
  }

  // ---------------------------------------------------------------------
  // generate_text
  // ---------------------------------------------------------------------

  /** The content items of one part: its text, then its function call. */
  function PartContents(p: Part): (r: seq<Content>)
    ensures |r| == (if p.text.Some? then 1 else 0) + (if p.functionCall.Some? then 1 else 0)
    ensures p.text.Some? ==> r[0] == TextContent(p.text.value)
    ensures p.functionCall.Some? ==> r[|r| - 1] == ToolCallContent(CallInfo(p.functionCall.value))
  {
    (if p.text.Some? then [TextContent(p.text.value)] else [])
    + (if p.functionCall.Some? then [ToolCallContent(CallInfo(p.functionCall.value))] else [])
  }

  /** The content items of a run of parts, in order. */
  function PartsContents(parts: seq<Part>): seq<Content>
    decreases |parts|
  {
    if parts == [] then [] else PartsContents(parts[..|parts| - 1]) + PartContents(parts[|parts| - 1])
  }

  /** The content items of a run of candidates, in order. */
  function CandidatesContents(cs: seq<Candidate>): seq<Content>
    decreases |cs|
  {
    if cs == [] then [] else CandidatesContents(cs[..|cs| - 1]) + PartsContents(cs[|cs| - 1].parts)
  }

  /** The items of a candidate's parts: the nested loops' inner loop. */
  method CollectParts(collected0: seq<Content>, parts: seq<Part>) returns (collected: seq<Content>)
    ensures collected == collected0 + PartsContents(parts)
  {
    collected := collected0;
    for k := 0 to |parts|
      invariant collected == collected0 + PartsContents(parts[..k])
    {
      assert parts[..k + 1][..k] == parts[..k];
      var part := parts[k];
      if part.text.Some? {
        collected := collected + [TextContent(part.text.value)];
      }
      if part.functionCall.Some? {
        collected := collected + [ToolCallContent(CallInfo(part.functionCall.value))];
      }
      AppendAssoc(collected0, PartsContents(parts[..k]), PartContents(part));
    }
    assert parts[..|parts|] == parts;
  }

  /** The items of all candidates: the outer loop. */
  method CollectCandidates(cs: seq<Candidate>) returns (collected: seq<Content>)
    ensures collected == CandidatesContents(cs)
  {
    collected := [];
    for i := 0 to |cs|
      invariant collected == CandidatesContents(cs[..i])
    {
      assert cs[..i + 1][..i] == cs[..i];
      collected := CollectParts(collected, cs[i].parts);
    }
    assert cs[..|cs|] == cs;
  }

  /** `generate_text`: the request is stored and streaming switched off; the
      exchange is `send` with the updated provider; a response is flattened
      into its content items with its usage. */
  method GenerateText(g: Google, request: Json, urls: UrlOps, serialise: Json -> string, reply: Reply,
                      displayStatus: int -> string, decode: string -> Decoded<GenerateContentResponse>)
    returns (g': Google, r: Result<LanguageModelResponse>)
    ensures g' == g.(options := g.options.(request := Some(request), streaming := false))
    ensures Send(g', g.settings.baseUrl, urls, serialise, reply, displayStatus, decode).Err? ==>
      r == Err(Send(g', g.settings.baseUrl, urls, serialise, reply, displayStatus, decode).error)
    ensures Send(g', g.settings.baseUrl, urls, serialise, reply, displayStatus, decode).Ok? ==>
      var response := Send(g', g.settings.baseUrl, urls, serialise, reply, displayStatus, decode).value;
      r == Ok(LanguageModelResponse(CandidatesContents(response.candidates), response.usage))
  {
    g' := g.(options := g.options.(request := Some(request), streaming := false));
    var sent := Send(g', g.settings.baseUrl, urls, serialise, reply, displayStatus, decode);
    if sent.Err? {
      return g', Err(sent.error);
    }
    var collected := CollectCandidates(sent.value.candidates);
    r := Ok(LanguageModelResponse(collected, sent.value.usage));
  }

  /** The flattening of two runs of parts is the flattening of each, in
      order. */
  lemma {:induction false} PartsContentsAppend(a: seq<Part>, b: seq<Part>)
    ensures PartsContents(a + b) == PartsContents(a) + PartsContents(b)
    decreases |b|
  {
    if b == [] {
      assert a + b == a;
    } else {
      var init := b[..|b| - 1];
      assert (a + b)[..|a + b| - 1] == a + init;
      assert (a + b)[|a + b| - 1] == b[|b| - 1];
      PartsContentsAppend(a, init);
      AppendAssoc(PartsContents(a), PartsContents(init), PartContents(b[|b| - 1]));
    }
  }

  /** The number of text parts and of function call parts. */
  function TextParts(parts: seq<Part>): nat
    decreases |parts|
  {
    if parts == [] then 0 else TextParts(parts[..|parts| - 1]) + (if parts[|parts| - 1].text.Some? then 1 else 0)
  }

  function CallParts(parts: seq<Part>): nat
    decreases |parts|
  {
    if parts == [] then 0
    else CallParts(parts[..|parts| - 1]) + (if parts[|parts| - 1].functionCall.Some? then 1 else 0)
  }

  /** There is one item per text and one per function call, and every item
      is text or a tool call. */
  lemma {:induction false} PartsContentsCount(parts: seq<Part>)
    ensures |PartsContents(parts)| == TextParts(parts) + CallParts(parts)
    ensures forall j :: 0 <= j < |PartsContents(parts)| ==>
      PartsContents(parts)[j].TextContent? || PartsContents(parts)[j].ToolCallContent?
    decreases |parts|
  {
    if parts != [] {
      PartsContentsCount(parts[..|parts| - 1]);
    }
  }

  // ---------------------------------------------------------------------
  // stream_text
  // ---------------------------------------------------------------------

  /** The deltas of one part: its text, then its function call serialised
      (`serialiseCall` is `serde_json::to_string`, whose failure gives the
      empty string). */
  function PartDeltas(p: Part, serialiseCall: FunctionCall -> Option<string>): (r: seq<StreamChunk>)
    ensures |r| == (if p.text.Some? then 1 else 0) + (if p.functionCall.Some? then 1 else 0)
    ensures forall j :: 0 <= j < |r| ==> r[j].Delta?
    ensures p.text.Some? ==> r[0].kind == Text(p.text.value)
    ensures p.functionCall.Some? ==> r[|r| - 1].kind == ToolCall(serialiseCall(p.functionCall.value).GetOr(""))
  {
    (if p.text.Some? then [Delta(Text(p.text.value))] else [])
    + (if p.functionCall.Some? then [Delta(ToolCall(serialiseCall(p.functionCall.value).GetOr("")))] else [])
  }

  /** The deltas of a run of parts, in order: one per text and one per
      function call, and never a `Done`. */
  function Deltas(parts: seq<Part>, serialiseCall: FunctionCall -> Option<string>): (r: seq<StreamChunk>)
    ensures |r| == TextParts(parts) + CallParts(parts)
    ensures forall j :: 0 <= j < |r| ==> r[j].Delta?
    decreases |parts|
  {
    if parts == [] then []
    else Deltas(parts[..|parts| - 1], serialiseCall) + PartDeltas(parts[|parts| - 1], serialiseCall)
  }

  /** `find_map` over the parts: the first function call. */
  function FirstCall(parts: seq<Part>): (r: Option<FunctionCall>)
    ensures r.None? <==> forall j :: 0 <= j < |parts| ==> parts[j].functionCall.None?
    ensures r.Some? ==> exists j :: 0 <= j < |parts| && parts[j].functionCall == r
                          && forall i :: 0 <= i < j ==> parts[i].functionCall.None?
    decreases |parts|
  {
    if parts == [] then None
    else if parts[0].functionCall.Some? then parts[0].functionCall
    else
      var r := FirstCall(parts[1..]);
      assert r.Some? ==> exists j :: 0 <= j < |parts| && parts[j].functionCall == r
                          && forall i :: 0 <= i < j ==> parts[i].functionCall.None? by {
        if r.Some? {
          var j :| 0 <= j < |parts[1..]| && parts[1..][j].functionCall == r
                   && forall i :: 0 <= i < j ==> parts[1..][i].functionCall.None?;
          assert parts[j + 1].functionCall == r;
          assert forall i :: 0 <= i < j + 1 ==> parts[i].functionCall.None? by {
            forall i | 0 <= i < j + 1 ensures parts[i].functionCall.None? {
              if i > 0 {
                assert parts[i] == parts[1..][i - 1];
              }
            }
          }
        }
      }
      r
  }

  /** `filter_map` over the parts: their texts, in order. */
  function Texts(parts: seq<Part>): seq<string>
    decreases |parts|
  {
    if parts == [] then []
    else
      var init := Texts(parts[..|parts| - 1]);
      match parts[|parts| - 1].text
      case Some(t) => init + [t]
      case None => init
  }

  /** The content of a finished candidate's `Done`: its first function
      call if it has one, else all its texts joined. */
  function DoneContent(parts: seq<Part>): (r: Content)
    ensures r.ToolCallContent? <==> exists j :: 0 <= j < |parts| && parts[j].functionCall.Some?
    ensures r.ToolCallContent? ==> r.tool.id.None?
    ensures r.TextContent? ==> r.text == Concat(Texts(parts))
  {
    match FirstCall(parts)
    case Some(fc) => ToolCallContent(CallInfo(fc))
    case None => TextContent(Concat(Texts(parts)))
  }

  /** The chunks of one candidate: its part deltas, then a `Done` when it is
      finished. */
  function CandidateChunks(c: Candidate, usage: Option<Usage>, serialiseCall: FunctionCall -> Option<string>)
    : (r: seq<StreamChunk>)
    ensures |r| == TextParts(c.parts) + CallParts(c.parts) + (if Finished(c) then 1 else 0)
    ensures forall j :: 0 <= j < |r| ==> (r[j].Done? <==> Finished(c) && j == |r| - 1)
    ensures Finished(c) ==> r[|r| - 1].message == AssistantMessage(DoneContent(c.parts), usage)
  {
    Deltas(c.parts, serialiseCall)
    + (if Finished(c) then [Done(AssistantMessage(DoneContent(c.parts), usage))] else [])
  }

  /** The chunks of a run of candidates, in order. */
  function ResponseChunks(cs: seq<Candidate>, usage: Option<Usage>, serialiseCall: FunctionCall -> Option<string>)
    : seq<StreamChunk>
    decreases |cs|
  {
    if cs == [] then []
    else ResponseChunks(cs[..|cs| - 1], usage, serialiseCall) + CandidateChunks(cs[|cs| - 1], usage, serialiseCall)
  }

  /** The inner loop over one candidate's parts. */
  method PushDeltas(chunks0: seq<StreamChunk>, parts: seq<Part>, serialiseCall: FunctionCall -> Option<string>)
    returns (chunks: seq<StreamChunk>)
    ensures chunks == chunks0 + Deltas(parts, serialiseCall)
  {
    chunks := chunks0;
    for k := 0 to |parts|
      invariant chunks == chunks0 + Deltas(parts[..k], serialiseCall)
    {
      assert parts[..k + 1][..k] == parts[..k];
      var part := parts[k];
      if part.text.Some? {
        chunks := chunks + [Delta(Text(part.text.value))];
      }
      if part.functionCall.Some? {
        chunks := chunks + [Delta(ToolCall(serialiseCall(part.functionCall.value).GetOr("")))];
      }
      AppendAssoc(chunks0, Deltas(parts[..k], serialiseCall), PartDeltas(part, serialiseCall));
    }
    assert parts[..|parts|] == parts;
  }

  /** The arm for a streamed response: the outer loop over the candidates
      pushing each candidate's deltas and, for a finished one, its `Done`. */
  method StreamedResponseChunks(response: GenerateContentResponse, serialiseCall: FunctionCall -> Option<string>)
    returns (chunks: seq<StreamChunk>)
    ensures chunks == ResponseChunks(response.candidates, response.usage, serialiseCall)
  {
    var cs := response.candidates;
    chunks := [];
    for i := 0 to |cs|
      invariant chunks == ResponseChunks(cs[..i], response.usage, serialiseCall)
    {
      assert cs[..i + 1][..i] == cs[..i];
      var before := chunks;
      chunks := PushDeltas(chunks, cs[i].parts, serialiseCall);
      if cs[i].finishReason.Some? {
        chunks := chunks + [Done(AssistantMessage(DoneContent(cs[i].parts), response.usage))];
      }
      AppendAssoc(before, Deltas(cs[i].parts, serialiseCall),
                  if Finished(cs[i]) then [Done(AssistantMessage(DoneContent(cs[i].parts), response.usage))] else []);
    }
    assert cs[..|cs|] == cs;
  }

  /** The chunks of one stream item. */
  function EventChunks(item: Result<GoogleStreamEvent>, serialiseCall: FunctionCall -> Option<string>)
    : (r: Result<seq<StreamChunk>>)
    ensures item.Err? <==> r.Err?
    ensures item.Err? ==> r.error == item.error
    ensures item.Ok? && item.value.NotSupported? ==> r.value == [Delta(ChunkType.NotSupported(item.value.raw))]
    ensures item.Ok? && item.value.Response? ==>
      r.value == ResponseChunks(item.value.response.candidates, item.value.response.usage, serialiseCall)
  {
    match item
    case Err(e) => Err(e)
    case Ok(Response(response)) => Ok(ResponseChunks(response.candidates, response.usage, serialiseCall))
    case Ok(NotSupported(m)) => Ok([Delta(ChunkType.NotSupported(m))])
  }

  /** The mapped stream: item by item, in order. */
  function MapEvents(items: seq<Result<GoogleStreamEvent>>, serialiseCall: FunctionCall -> Option<string>)
    : (r: seq<Result<seq<StreamChunk>>>)
    ensures |r| == |items|
    ensures forall j :: 0 <= j < |items| ==> r[j] == EventChunks(items[j], serialiseCall)
  {
    seq(|items|, j requires 0 <= j < |items| => EventChunks(items[j], serialiseCall))
  }

  /** `stream_text`: the request is stored and streaming switched on; there
      is no retry; the stream of the updated provider is mapped item by
      item. */
  method StreamText(g: Google, request: Json, urls: UrlOps, serialise: Json -> string, source: Opened,
                    parse: string -> Decoded<Json>, fromValue: Json -> Option<GenerateContentResponse>,
                    serialiseCall: FunctionCall -> Option<string>)
    returns (g': Google, r: Result<seq<Result<seq<StreamChunk>>>>)
    ensures g' == g.(options := g.options.(request := Some(request), streaming := true))
    ensures StreamRequest(g', g.settings.baseUrl, urls, serialise).Err? ==>
      r == Err(StreamRequest(g', g.settings.baseUrl, urls, serialise).error)
    ensures StreamRequest(g', g.settings.baseUrl, urls, serialise).Ok? && source.CannotOpen? ==>
      r == Err(ApiError(None, "SSE stream error: " + source.message))
    ensures StreamRequest(g', g.settings.baseUrl, urls, serialise).Ok? && source.Opened? ==>
      r == Ok(MapEvents(UntilEnd(Classified(source.items, parse, fromValue)), serialiseCall))
  {
    g' := g.(options := g.options.(request := Some(request), streaming := true));
    var events := SendAndStream(g', g.settings.baseUrl, urls, serialise, source, parse, fromValue);
    if events.Err? {
      return g', Err(events.error);
    }
    r := Ok(MapEvents(events.value, serialiseCall));
  }

  // ---------------------------------------------------------------------
  // Properties of the streamed chunks
  // ---------------------------------------------------------------------

  /** The number of `Done` chunks. */
  function DoneCount(chunks: seq<StreamChunk>): nat
    decreases |chunks|
  {
    if chunks == [] then 0 else DoneCount(chunks[..|chunks| - 1]) + (if chunks[|chunks| - 1].Done? then 1 else 0)
  }

  /** The number of finished candidates. */
  function FinishedCount(cs: seq<Candidate>): nat
    decreases |cs|
  {
    if cs == [] then 0 else FinishedCount(cs[..|cs| - 1]) + (if Finished(cs[|cs| - 1]) then 1 else 0)
  }

  lemma {:induction false} DoneCountAppend(a: seq<StreamChunk>, b: seq<StreamChunk>)
    ensures DoneCount(a + b) == DoneCount(a) + DoneCount(b)
    decreases |b|
  {
    if b == [] {
      assert a + b == a;
    } else {
      assert (a + b)[..|a + b| - 1] == a + b[..|b| - 1];
      DoneCountAppend(a, b[..|b| - 1]);
    }
  }

  lemma NoDoneAmongDeltas(chunks: seq<StreamChunk>)
    requires forall j :: 0 <= j < |chunks| ==> chunks[j].Delta?
    ensures DoneCount(chunks) == 0
    decreases |chunks|
  {
    if chunks != [] {
      NoDoneAmongDeltas(chunks[..|chunks| - 1]);
    }
  }

  /** A candidate yields one `Done` if it is finished and none otherwise. */
  lemma CandidateDoneCount(c: Candidate, usage: Option<Usage>, serialiseCall: FunctionCall -> Option<string>)
    ensures DoneCount(CandidateChunks(c, usage, serialiseCall)) == (if Finished(c) then 1 else 0)
  {
    NoDoneAmongDeltas(Deltas(c.parts, serialiseCall));
    var tail := if Finished(c) then [Done(AssistantMessage(DoneContent(c.parts), usage))] else [];
    DoneCountAppend(Deltas(c.parts, serialiseCall), tail);
    assert DoneCount(tail) == (if Finished(c) then 1 else 0) by {
      if Finished(c) {
        assert tail[..0] == [];
      }
    }
  }

  /** A response yields exactly one `Done` per finished candidate. */
  lemma {:induction false} OneDonePerFinishedCandidate(cs: seq<Candidate>, usage: Option<Usage>,
                                                       serialiseCall: FunctionCall -> Option<string>)
    ensures DoneCount(ResponseChunks(cs, usage, serialiseCall)) == FinishedCount(cs)
    decreases |cs|
  {
    if cs != [] {
      var init := cs[..|cs| - 1];
      var c := cs[|cs| - 1];
      OneDonePerFinishedCandidate(init, usage, serialiseCall);
      CandidateDoneCount(c, usage, serialiseCall);
      DoneCountAppend(ResponseChunks(init, usage, serialiseCall), CandidateChunks(c, usage, serialiseCall));
    }
  }

  /** Some candidate is finished exactly when the finished count is
      positive. */
  lemma {:induction false} FinishedCountPositive(cs: seq<Candidate>)
    ensures FinishedCount(cs) > 0 <==> exists j :: 0 <= j < |cs| && Finished(cs[j])
    decreases |cs|
  {
    if cs != [] {
      var init := cs[..|cs| - 1];
      FinishedCountPositive(init);
      if exists j :: 0 <= j < |init| && Finished(init[j]) {
        var j :| 0 <= j < |init| && Finished(init[j]);
        assert cs[j] == init[j];
      }
      if exists j :: 0 <= j < |cs| && Finished(cs[j]) {
        var j :| 0 <= j < |cs| && Finished(cs[j]);
        if j < |init| {
          assert init[j] == cs[j];
        }
      }
    }
  }

  /** A streamed response ends the stream exactly when its chunks hold a
      `Done`. */
  lemma EndStreamIffDone(response: GenerateContentResponse, serialiseCall: FunctionCall -> Option<string>)
    ensures EndStream(Response(response)) <==>
      DoneCount(ResponseChunks(response.candidates, response.usage, serialiseCall)) > 0
  {
    OneDonePerFinishedCandidate(response.candidates, response.usage, serialiseCall);
    FinishedCountPositive(response.candidates);
  }

  /** Every `Done` of a response carries the response's usage. */
  lemma {:induction false} DoneCarriesUsage(cs: seq<Candidate>, usage: Option<Usage>,
                                            serialiseCall: FunctionCall -> Option<string>)
    ensures forall j :: 0 <= j < |ResponseChunks(cs, usage, serialiseCall)| ==>
      (ResponseChunks(cs, usage, serialiseCall)[j].Done? ==> ResponseChunks(cs, usage, serialiseCall)[j].message.usage == usage)
    decreases |cs|
  {
    if cs != [] {
      DoneCarriesUsage(cs[..|cs| - 1], usage, serialiseCall);
    }
  }

  /** The texts among a run of chunks' text deltas, in order. */
  function DeltaTexts(chunks: seq<StreamChunk>): seq<string>
    decreases |chunks|
  {
    if chunks == [] then []
    else
      var init := DeltaTexts(chunks[..|chunks| - 1]);
      var last := chunks[|chunks| - 1];
      if last.Delta? && last.kind.Text? then init + [last.kind.text] else init
  }

  lemma {:induction false} DeltaTextsAppend(a: seq<StreamChunk>, b: seq<StreamChunk>)
    ensures DeltaTexts(a + b) == DeltaTexts(a) + DeltaTexts(b)
    decreases |b|
  {
    if b == [] {
      assert a + b == a;
    } else {
      var init := b[..|b| - 1];
      assert (a + b)[..|a + b| - 1] == a + init;
      assert (a + b)[|a + b| - 1] == b[|b| - 1];
      DeltaTextsAppend(a, init);
      var last := b[|b| - 1];
      if last.Delta? && last.kind.Text? {
        AppendAssoc(DeltaTexts(a), DeltaTexts(init), [last.kind.text]);
      }
    }
  }

  /** The texts streamed for a candidate's parts are its texts. */
  lemma {:induction false} StreamedTextsAreTexts(parts: seq<Part>, serialiseCall: FunctionCall -> Option<string>)
    ensures DeltaTexts(Deltas(parts, serialiseCall)) == Texts(parts)
    decreases |parts|
  {
    if parts != [] {
      var p := parts[|parts| - 1];
      StreamedTextsAreTexts(parts[..|parts| - 1], serialiseCall);
      DeltaTextsAppend(Deltas(parts[..|parts| - 1], serialiseCall), PartDeltas(p, serialiseCall));
      var call := if p.functionCall.Some? then [Delta(ToolCall(serialiseCall(p.functionCall.value).GetOr("")))] else [];
      var text := if p.text.Some? then [Delta(Text(p.text.value))] else [];
      DeltaTextsAppend(text, call);
      assert DeltaTexts(call) == [] by {
        if p.functionCall.Some? {
          assert call[..0] == [];
        }
      }
      assert DeltaTexts(text) == (if p.text.Some? then [p.text.value] else []) by {
        if p.text.Some? {
          assert text[..0] == [];
        }
      }
      assert DeltaTexts(text) + [] == DeltaTexts(text);
    }
  }

  /** A finished candidate without function calls ends in a `Done` whose
      text is exactly the concatenation of the text deltas streamed before
      it for that candidate; with a function call, the `Done` holds the
      first one. */
  lemma DoneSummarisesCandidate(c: Candidate, usage: Option<Usage>, serialiseCall: FunctionCall -> Option<string>)
    requires Finished(c)
    ensures var chunks := CandidateChunks(c, usage, serialiseCall);
      |chunks| > 0 && chunks[|chunks| - 1].Done? && chunks[|chunks| - 1].message.usage == usage
      && chunks[..|chunks| - 1] == Deltas(c.parts, serialiseCall)
      && (FirstCall(c.parts).None? ==>
            chunks[|chunks| - 1].message.content == TextContent(Concat(DeltaTexts(chunks[..|chunks| - 1]))))
      && (FirstCall(c.parts).Some? ==>
            chunks[|chunks| - 1].message.content == ToolCallContent(CallInfo(FirstCall(c.parts).value)))
  {
    var chunks := CandidateChunks(c, usage, serialiseCall);
    assert chunks[..|chunks| - 1] == Deltas(c.parts, serialiseCall);
    StreamedTextsAreTexts(c.parts, serialiseCall);
  }

  /** An unfinished candidate yields only deltas. */
  lemma UnfinishedYieldsNoDone(c: Candidate, usage: Option<Usage>, serialiseCall: FunctionCall -> Option<string>)
    requires !Finished(c)
    ensures CandidateChunks(c, usage, serialiseCall) == Deltas(c.parts, serialiseCall)
  {
    assert Deltas(c.parts, serialiseCall) + [] == Deltas(c.parts, serialiseCall);
  }
}
