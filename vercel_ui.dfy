/** The Vercel AI SDK UI integration (`integrations/vercel_aisdk_ui.rs`):
    the builder that collects the stream options, and the conversion of a
    text stream's chunks into UI message chunks under those options, with one
    message id for the whole stream. */
module VercelUi {
  import opened Common

  /** `VercelUIStream`: the UI message chunks (provider metadata, which the
      conversion never sets, is left out). */
  datatype UiChunk =
    | TextStart(id: string)
    | TextDelta(id: string, delta: string)
    | TextEnd(id: string)
    | ReasoningStart(id: string)
    | ReasoningDelta(id: string, delta: string)
    | ReasoningEnd(id: string)
    | ToolCallStart(id: string, toolCallId: string, toolName: string)
    | ToolCallDelta(id: string, toolCallId: string, delta: string)
    | ToolCallEnd(id: string, toolCallId: string, result: Json)
    | Error(errorText: string)
    | NotSupported(errorText: string)

  /** `VercelUIStreamOptions`; the id generator is a function of no
      arguments. */
  datatype UiOptions = UiOptions(
    sendReasoning: bool,
    sendStart: bool,
    sendFinish: bool,
    generateMessageId: Option<() -> string>)

  /** `VercelUIStreamOptions::default()`. */
  function DefaultOptions(): (o: UiOptions)
    ensures !o.sendReasoning && !o.sendStart && !o.sendFinish && o.generateMessageId.None?
  {
    UiOptions(false, false, false, None)
  }

  /** `VercelUIStreamBuilder`: a context, the options being configured, and
      the framework's build function. Every setter sets its own option and
      leaves the rest alone. */
  class UiStreamBuilder<C, T> {
    var context: C
    var options: UiOptions
    const buildFn: (C, UiOptions) -> T

    /** `new`: the given context and build function, default options. */
    constructor(context: C, buildFn: (C, UiOptions) -> T)
      ensures this.context == context && this.buildFn == buildFn
      ensures options == DefaultOptions()
    {
      this.context := context;
      this.buildFn := buildFn;
      options := DefaultOptions();
    }

    method SendReasoning()
      modifies this
      ensures options == old(options).(sendReasoning := true)
      ensures context == old(context)
    {
      options := options.(sendReasoning := true);
    }

    method SendStart()
      modifies this
      ensures options == old(options).(sendStart := true)
      ensures context == old(context)
    {
      options := options.(sendStart := true);
    }

    method SendFinish()
      modifies this
      ensures options == old(options).(sendFinish := true)
      ensures context == old(context)
    {
      options := options.(sendFinish := true);
    }

    method WithIdGenerator(generator: () -> string)
      modifies this
      ensures options == old(options).(generateMessageId := Some(generator))
      ensures context == old(context)
    {
      options := options.(generateMessageId := Some(generator));
    }

    /** `build`: the build function applied to the context and the options,
        unchanged. */
    method Build() returns (t: T)
      ensures t == buildFn(context, options)
    {
      t := buildFn(context, options);
    }
  }

  /** The three flags end up set whatever the order of the setters. */
  method ConfigureAll<C, T>(b: UiStreamBuilder<C, T>)
    modifies b
    ensures b.options.sendReasoning && b.options.sendStart && b.options.sendFinish
    ensures b.options.generateMessageId == old(b.options.generateMessageId)
    ensures b.context == old(b.context)
  {
    b.SendFinish();
    b.SendReasoning();
    b.SendStart();
  }

  /** The message id of a stream: the generator's result if there is a
      generator, else `msg_` followed by the simple form of a fresh UUID
      (`uuid`). */
  function MessageId(options: UiOptions, uuid: string): (id: string)
    ensures options.generateMessageId.None? ==> id == "msg_" + uuid
    ensures options.generateMessageId.Some? ==> id == options.generateMessageId.value()
  {
    match options.generateMessageId
    case Some(generate) => generate()
    case None => "msg_" + uuid
  }

  /** The chunk ids: every UI chunk but the error ones carries the message
      id. */
  predicate HasId(u: UiChunk) {
    !u.Error? && !u.NotSupported?
  }

  /** The UI chunk of one stream chunk, if it is kept. */
  function Convert(chunk: ChunkType, options: UiOptions, id: string): (r: Option<UiChunk>)
    ensures chunk.Start? ==> (r.Some? <==> options.sendStart) && (r.Some? ==> r.value == TextStart(id))
    ensures chunk.Text? ==> r == Some(TextDelta(id, chunk.text))
    ensures chunk.Reasoning? ==>
      (r.Some? <==> options.sendReasoning) && (r.Some? ==> r.value == ReasoningDelta(id, chunk.text))
    ensures chunk.ToolCall? ==> r == Some(ToolCallStart(id, "unknown", "unknown"))
    ensures chunk.End? ==> (r.Some? <==> options.sendFinish) && (r.Some? ==> r.value == TextEnd(id))
    ensures chunk.Failed? || chunk.Incomplete? ==> r == Some(Error(chunk.reason))
    ensures chunk.NotSupported? ==> r.None?
    ensures r.Some? && HasId(r.value) ==> r.value.id == id
  {
    match chunk
    case Start => if options.sendStart then Some(TextStart(id)) else None
    case Text(delta) => Some(TextDelta(id, delta))
    case Reasoning(delta) => if options.sendReasoning then Some(ReasoningDelta(id, delta)) else None
    case ToolCall(_) => Some(ToolCallStart(id, "unknown", "unknown"))
    case End(_) => if options.sendFinish then Some(TextEnd(id)) else None
    case Failed(error) => Some(Error(error))
    case Incomplete(error) => Some(Error(error))
    case NotSupported(_) => None
  }

  /** The kept chunks' UI chunks, in order, each wrapped in `Ok`: never
      more items than chunks, never an error item, and every chunk with an
      id carries `id`. */
  function Converted(chunks: seq<ChunkType>, options: UiOptions, id: string): (r: seq<Result<UiChunk>>)
    ensures |r| <= |chunks|
    ensures forall j :: 0 <= j < |r| ==> r[j].Ok? && (HasId(r[j].value) ==> r[j].value.id == id)
    decreases |chunks|
  {
    if chunks == [] then []
    else
      var init := Converted(chunks[..|chunks| - 1], options, id);
      match Convert(chunks[|chunks| - 1], options, id)
      case Some(u) => init + [Ok(u)]
      case None => init
  }

  /** `into_vercel_ui_stream`: the message id is computed once and every
      chunk is converted with it. The UI stream is never longer than the
      chunk stream and holds no error item; all its ids are the one message
      id; every text delta reaches it in order; and it carries reasoning
      exactly when reasoning is requested and the stream has some. */
  function IntoUiStream(chunks: seq<ChunkType>, options: UiOptions, uuid: string): (r: seq<Result<UiChunk>>)
    ensures |r| <= |chunks|
    ensures forall j :: 0 <= j < |r| ==> r[j].Ok? && (HasId(r[j].value) ==> r[j].value.id == MessageId(options, uuid))
    ensures UiTexts(r) == StreamTexts(chunks)
    ensures HasReasoningDelta(r) <==> options.sendReasoning && HasReasoning(chunks)
  {
    var id := MessageId(options, uuid);
    TextsReachUi(chunks, options, id);
    ReasoningIffRequested(chunks, options, id);
    Converted(chunks, options, id)
  }

  /** The conversion preserves order: converting two runs of chunks is
      converting each. */
  lemma {:induction false} ConvertedAppend(a: seq<ChunkType>, b: seq<ChunkType>, options: UiOptions, id: string)
    ensures Converted(a + b, options, id) == Converted(a, options, id) + Converted(b, options, id)
    decreases |b|
  {
    if b == [] {
      assert a + b == a;
    } else {
      var init := b[..|b| - 1];
      assert (a + b)[..|a + b| - 1] == a + init;
      assert (a + b)[|a + b| - 1] == b[|b| - 1];
      ConvertedAppend(a, init, options, id);
      match Convert(b[|b| - 1], options, id)
      case Some(u) =>
        AppendAssoc(Converted(a, options, id), Converted(init, options, id), [Ok(u)]);
      case None =>
    }
  }

  /** A single chunk converts to its UI chunk, or to nothing. */
  lemma ConvertedSingle(chunk: ChunkType, options: UiOptions, id: string)
    ensures Converted([chunk], options, id) ==
      (if Convert(chunk, options, id).Some? then [Ok(Convert(chunk, options, id).value)] else [])
  {
    assert [chunk][..0] == [];
  }

  /** A UI reasoning delta. */
  predicate IsReasoningDelta(item: Result<UiChunk>) {
    item.Ok? && item.value.ReasoningDelta?
  }

  /** Some item is a UI reasoning delta. */
  predicate HasReasoningDelta(items: seq<Result<UiChunk>>) {
    exists j :: 0 <= j < |items| && IsReasoningDelta(items[j])
  }

  /** Some chunk is a reasoning delta. */
  predicate HasReasoning(chunks: seq<ChunkType>) {
    exists j :: 0 <= j < |chunks| && chunks[j].Reasoning?
  }

  /** Reasoning reaches the UI exactly when it is requested and the stream
      has some. */
  lemma {:induction false} ReasoningIffRequested(chunks: seq<ChunkType>, options: UiOptions, id: string)
    ensures HasReasoningDelta(Converted(chunks, options, id)) <==> options.sendReasoning && HasReasoning(chunks)
    decreases |chunks|
  {
    if chunks != [] {
      var init := chunks[..|chunks| - 1];
      var last := chunks[|chunks| - 1];
      ReasoningIffRequested(init, options, id);
      var out := Converted(chunks, options, id);
      var before := Converted(init, options, id);
      var tail := if Convert(last, options, id).Some? then [Ok(Convert(last, options, id).value)] else [];
      assert out == before + tail;
      assert HasReasoningDelta(tail) <==> options.sendReasoning && last.Reasoning? by {
        if Convert(last, options, id).Some? {
          assert tail[0] == Ok(Convert(last, options, id).value);
          match last
          case Reasoning(_) =>
          case _ =>
        }
      }
      if HasReasoningDelta(out) {
        var j :| 0 <= j < |out| && IsReasoningDelta(out[j]);
        if j < |before| {
          assert IsReasoningDelta(before[j]);
          var i :| 0 <= i < |init| && init[i].Reasoning?;
          assert chunks[i] == init[i];
        } else {
          assert IsReasoningDelta(tail[j - |before|]);
        }
      }
      if options.sendReasoning && HasReasoning(chunks) {
        var i :| 0 <= i < |chunks| && chunks[i].Reasoning?;
        if i < |init| {
          assert init[i] == chunks[i];
          var j :| 0 <= j < |before| && IsReasoningDelta(before[j]);
          assert out[j] == before[j];
        } else {
          var j :| 0 <= j < |tail| && IsReasoningDelta(tail[j]);
          assert out[|before| + j] == tail[j];
        }
      }
    }
  }

  /** Every text delta of the stream reaches the UI, in order: the deltas of
      the UI's text chunks are the stream's texts. */
  function StreamTexts(chunks: seq<ChunkType>): seq<string>
    decreases |chunks|
  {
    if chunks == [] then []
    else StreamTexts(chunks[..|chunks| - 1]) + (if chunks[|chunks| - 1].Text? then [chunks[|chunks| - 1].text] else [])
  }

  function UiTexts(items: seq<Result<UiChunk>>): seq<string>
    decreases |items|
  {
    if items == [] then []
    else
      var last := items[|items| - 1];
      UiTexts(items[..|items| - 1]) + (if last.Ok? && last.value.TextDelta? then [last.value.delta] else [])
  }

  lemma {:induction false} TextsReachUi(chunks: seq<ChunkType>, options: UiOptions, id: string)
    ensures UiTexts(Converted(chunks, options, id)) == StreamTexts(chunks)
    decreases |chunks|
  {
    if chunks != [] {
      var init := chunks[..|chunks| - 1];
      var last := chunks[|chunks| - 1];
      TextsReachUi(init, options, id);
      var before := Converted(init, options, id);
      match Convert(last, options, id)
      case Some(u) =>
        assert Converted(chunks, options, id) == before + [Ok(u)];
        assert (before + [Ok(u)])[..|before|] == before;
      case None =>
        assert StreamTexts(chunks) == StreamTexts(init) + [];
    }
  }
}
