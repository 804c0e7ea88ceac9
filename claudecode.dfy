/** The ClaudeCode provider: an Anthropic-compatible endpoint whose streamed
    content blocks are accumulated per block index and finalised into one
    `Done` chunk per block when the message stops. */
module ClaudeCode {
  import opened Common
  import opened Strings
  import Retry

  // ---------------------------------------------------------------------
  // Anthropic wire types
  // ---------------------------------------------------------------------

  /** A content block, as opened by `ContentBlockStart` or as found in a
      non-streaming response. */
  datatype ContentBlock =
    | TextBlock(text: string)
    | ThinkingBlock(signature: string, thinking: string)
    | RedactedThinkingBlock(data: string)
    | ToolUseBlock(id: string, name: string, input: Json)

  /** An incremental update to an open content block. */
  datatype BlockDelta =
    | TextDelta(text: string)
    | ThinkingDelta(thinking: string)
    | SignatureDelta(signature: string)
    | ToolUseDelta(partialJson: string)

  /** `AnthropicStreamEvent`. */
  datatype StreamEvent =
    | MessageStart
    | ContentBlockStart(index: nat, block: ContentBlock)
    | ContentBlockDelta(index: nat, delta: BlockDelta)
    | ContentBlockStop(index: nat)
    | MessageDelta(usage: Usage)
    | MessageStop
    | ErrorEvent(errorType: string, message: string)
    | NotSupported(raw: string)

  /** A non-streaming Messages API response. */
  datatype MessagesResponse = MessagesResponse(content: seq<ContentBlock>, usage: Usage)

  // ---------------------------------------------------------------------
  // Blocks being accumulated
  // ---------------------------------------------------------------------

  /** A block under construction: running text, running thinking text with
      the latest signature, the opaque redacted payload, or a tool call with
      its running JSON text. */
  datatype AccumulatedBlock =
    | AccText(text: string)
    | AccThinking(thinking: string, signature: Option<string>)
    | AccRedactedThinking(data: string)
    | AccToolUse(id: string, name: string, json: string)

  /** The block `ContentBlockStart` stores: empty running content, except a
      redacted block, which arrives complete. It has the kind of the block
      that opened it and is what the block has accumulated before any
      delta arrives. */
  function Opened(b: ContentBlock): (r: AccumulatedBlock)
    ensures KindMatches(r, ResponseContent(b))
    ensures forall i :: r == Accumulated(b, [], i)
  {
    match b
    case TextBlock(_) => AccText("")
    case ThinkingBlock(_, _) => AccThinking("", None)
    case RedactedThinkingBlock(data) => AccRedactedThinking(data)
    case ToolUseBlock(id, name, _) => AccToolUse(id, name, "")
  }

  /** The kind-matching rule: which deltas a block takes. */
  predicate Applies(blk: AccumulatedBlock, d: BlockDelta) {
    || (blk.AccText? && d.TextDelta?)
    || (blk.AccThinking? && (d.ThinkingDelta? || d.SignatureDelta?))
    || (blk.AccToolUse? && d.ToolUseDelta?)
  }

  /** The text a block has accumulated so far. */
  function Running(blk: AccumulatedBlock): string {
    match blk
    case AccText(t) => t
    case AccThinking(t, _) => t
    case AccRedactedThinking(data) => data
    case AccToolUse(_, _, json) => json
  }

  /** The block after a delta it takes: the block keeps its kind and its
      identity; a fragment extends the running text, a signature replaces
      the previous one and leaves the text alone. */
  function Absorb(blk: AccumulatedBlock, d: BlockDelta): (r: AccumulatedBlock)
    requires Applies(blk, d)
    ensures r.AccText? == blk.AccText? && r.AccThinking? == blk.AccThinking? && r.AccToolUse? == blk.AccToolUse?
    ensures blk.AccToolUse? ==> r.id == blk.id && r.name == blk.name
    ensures !d.SignatureDelta? ==> Running(r) == Running(blk) + Payload(d)
    ensures d.SignatureDelta? ==> Running(r) == Running(blk) && r.signature == Some(d.signature)
    ensures blk.AccThinking? && !d.SignatureDelta? ==> r.signature == blk.signature
  {
    match d
    case TextDelta(t) => AccText(blk.text + t)
    case ThinkingDelta(t) => blk.(thinking := blk.thinking + t)
    case SignatureDelta(s) => blk.(signature := Some(s))
    case ToolUseDelta(p) => blk.(json := blk.json + p)
  }

  /** The marker chunk the stream emits for an event it only records. */
  function Unsupported(name: string): seq<StreamChunk> {
    [Delta(ChunkType.NotSupported("AnthropicStreamEvent::" + name))]
  }

  function StartName(b: ContentBlock): string {
    match b
    case TextBlock(_) => "ContentBlockStart::Text"
    case ThinkingBlock(_, _) => "ContentBlockStart::Thinking"
    case RedactedThinkingBlock(_) => "ContentBlockStart::RedactedThinking"
    case ToolUseBlock(_, _, _) => "ContentBlockStart::ToolUse"
  }

  /** The chunks a delta that its block takes is echoed as: one delta
      carrying the fragment. Thinking text is echoed as `Text`, not as
      `Reasoning`; a signature is only reported. */
  function Echo(d: BlockDelta): (r: seq<StreamChunk>)
    ensures |r| == 1 && r[0].Delta?
    ensures d.TextDelta? || d.ThinkingDelta? ==> r[0].kind == Text(Payload(d))
    ensures d.ToolUseDelta? ==> r[0].kind == ToolCall(Payload(d))
    ensures d.SignatureDelta? ==> r[0].kind.NotSupported?
  {
    match d
    case TextDelta(t) => [Delta(Text(t))]
    case ThinkingDelta(t) => [Delta(Text(t))]
    case SignatureDelta(_) => Unsupported("SignatureDelta")
    case ToolUseDelta(p) => [Delta(ToolCall(p))]
  }

  /** The JSON text a finished tool block is parsed from: whitespace-only
      text stands for the empty object. */
  function ToolJsonSource(json: string): string {
    if IsBlank(json) then "{}" else json
  }

  /** Finalised content has the kind of its block. */
  predicate KindMatches(blk: AccumulatedBlock, c: Content) {
    match blk
    case AccText(_) => c.TextContent?
    case AccThinking(_, _) => c.ReasoningContent?
    case AccRedactedThinking(_) => c.ReasoningContent?
    case AccToolUse(_, _, _) => c.ToolCallContent? || c.NotSupportedContent?
  }

  /** The content item a block is finalised into at `MessageStop`. `parse`
      is `serde_json::from_str`. */
  function Finalize(blk: AccumulatedBlock, parse: string -> Decoded<Json>): (c: Content)
    ensures KindMatches(blk, c)
    ensures blk.AccText? ==> c == TextContent(blk.text)
    ensures blk.AccThinking? ==> c == ReasoningContent(blk.thinking, blk.signature)
    ensures blk.AccRedactedThinking? ==> c == ReasoningContent(blk.data, None)
    ensures blk.AccToolUse? ==>
      match parse(ToolJsonSource(blk.json))
      case Decoded(input) => c == ToolCallContent(ToolCallInfo(Some(blk.id), blk.name, input))
      case DecodeError(_) => c == NotSupportedContent("Invalid tool json: " + blk.json)
  {
    match blk
    case AccText(t) => TextContent(t)
    case AccThinking(t, sig) => ReasoningContent(t, sig)
    case AccRedactedThinking(data) => ReasoningContent(data, None)
    case AccToolUse(id, name, json) =>
      match parse(ToolJsonSource(json))
      case Decoded(input) => ToolCallContent(ToolCallInfo(Some(id), name, input))
      case DecodeError(_) => NotSupportedContent("Invalid tool json: " + json)
  }

  /** The `Done` chunk of one block. */
  function FinalChunk(blk: AccumulatedBlock, usage: Option<Usage>, parse: string -> Decoded<Json>): StreamChunk {
    Done(AssistantMessage(Finalize(blk, parse), usage))
  }

  // ---------------------------------------------------------------------
  // The state after a sequence of stream items, as a function
  // ---------------------------------------------------------------------

  /** The effect of one stream item on the block map: a start adds (or
      reopens) its index, nothing else adds or removes one, and only the
      block the item addresses can change. */
  function NextBlocks(blocks: map<nat, AccumulatedBlock>, item: Result<StreamEvent>): (r: map<nat, AccumulatedBlock>)
    ensures StartsAny(item) ==> r.Keys == blocks.Keys + {item.value.index}
    ensures !StartsAny(item) ==> r.Keys == blocks.Keys
    ensures forall j :: j in blocks && !StartsAt(item, j) && !DeltaAt(item, j) ==> r[j] == blocks[j]
  {
    if item.Err? then blocks
    else
      match item.value
      case ContentBlockStart(i, b) => blocks[i := Opened(b)]
      case ContentBlockDelta(i, d) =>
        if i in blocks && Applies(blocks[i], d) then blocks[i := Absorb(blocks[i], d)] else blocks
      case _ => blocks
  }

  /** The block map after the items, in order, from the empty map. Its
      indices are exactly those some `ContentBlockStart` opened. */
  function ReplayBlocks(items: seq<Result<StreamEvent>>): (r: map<nat, AccumulatedBlock>)
    ensures r.Keys == StartedIndices(items)
  {
    if items == [] then map[]
    else NextBlocks(ReplayBlocks(items[..|items| - 1]), items[|items| - 1])
  }

  predicate IsUsage(item: Result<StreamEvent>) {
    item.Ok? && item.value.MessageDelta?
  }

  /** The usage of the last `MessageDelta` among the items: none when there
      is no `MessageDelta`, else the usage of one that no other follows. */
  function LastUsage(items: seq<Result<StreamEvent>>): (r: Option<Usage>)
    ensures r.None? <==> forall j :: 0 <= j < |items| ==> !IsUsage(items[j])
    ensures r.Some? ==> exists j :: 0 <= j < |items| && items[j] == Ok(MessageDelta(r.value))
                                   && forall k :: j < k < |items| ==> !IsUsage(items[k])
    decreases |items|
  {
    if items == [] then None
    else
      var init := items[..|items| - 1];
      var last := items[|items| - 1];
      assert forall j :: 0 <= j < |init| ==> init[j] == items[j];
      if IsUsage(last) then
        assert items[|items| - 1] == Ok(MessageDelta(last.value.usage));
        Some(last.value.usage)
      else LastUsage(init)
  }

  predicate StartsAt(item: Result<StreamEvent>, i: nat) {
    item.Ok? && item.value.ContentBlockStart? && item.value.index == i
  }

  predicate StartsAny(item: Result<StreamEvent>) {
    item.Ok? && item.value.ContentBlockStart?
  }

  /** The block indices some `ContentBlockStart` among the items opened. */
  function StartedIndices(items: seq<Result<StreamEvent>>): set<nat> {
    if items == [] then {}
    else
      var last := items[|items| - 1];
      StartedIndices(items[..|items| - 1]) + (if last.Ok? && last.value.ContentBlockStart? then {last.value.index} else {})
  }

  /** The vendor contract the accumulator relies on: every delta addresses a
      block index that an earlier item opened. */
  ghost predicate DeltasTargetOpenBlocks(items: seq<Result<StreamEvent>>) {
    forall j :: 0 <= j < |items| && items[j].Ok? && items[j].value.ContentBlockDelta? ==>
      items[j].value.index in StartedIndices(items[..j])
  }

  // What a block holds after its start: the concatenation of the fragments
  // of its own kind addressed to its index, whatever else arrives.

  datatype DeltaKind = TextKind | ThinkingKind | SignatureKind | JsonKind

  function KindOf(d: BlockDelta): DeltaKind {
    match d
    case TextDelta(_) => TextKind
    case ThinkingDelta(_) => ThinkingKind
    case SignatureDelta(_) => SignatureKind
    case ToolUseDelta(_) => JsonKind
  }

  function Payload(d: BlockDelta): string {
    match d
    case TextDelta(t) => t
    case ThinkingDelta(t) => t
    case SignatureDelta(s) => s
    case ToolUseDelta(p) => p
  }

  /** The payloads, in order, of the deltas of the given kind at index i. */
  function Fragments(items: seq<Result<StreamEvent>>, i: nat, kind: DeltaKind): seq<string> {
    if items == [] then []
    else
      var last := items[|items| - 1];
      Fragments(items[..|items| - 1], i, kind)
      + (if last.Ok? && last.value.ContentBlockDelta? && last.value.index == i && KindOf(last.value.delta) == kind
         then [Payload(last.value.delta)] else [])
  }

  /** The block a start of `b` at index i has become after `post`. */
  function Accumulated(b: ContentBlock, post: seq<Result<StreamEvent>>, i: nat): AccumulatedBlock {
    match b
    case TextBlock(_) => AccText(Concat(Fragments(post, i, TextKind)))
    case ThinkingBlock(_, _) =>
      var sigs := Fragments(post, i, SignatureKind);
      AccThinking(Concat(Fragments(post, i, ThinkingKind)), if sigs == [] then None else Some(sigs[|sigs| - 1]))
    case RedactedThinkingBlock(data) => AccRedactedThinking(data)
    case ToolUseBlock(id, name, _) => AccToolUse(id, name, Concat(Fragments(post, i, JsonKind)))
  }

  /** Whether the item is a delta addressed to index i. */
  predicate DeltaAt(x: Result<StreamEvent>, i: nat) {
    x.Ok? && x.value.ContentBlockDelta? && x.value.index == i
  }

  lemma FragmentsSnoc(init: seq<Result<StreamEvent>>, x: Result<StreamEvent>, i: nat, kind: DeltaKind)
    ensures Fragments(init + [x], i, kind)
      == Fragments(init, i, kind)
         + (if DeltaAt(x, i) && KindOf(x.value.delta) == kind then [Payload(x.value.delta)] else [])
  {
    assert (init + [x])[..|init|] == init;
  }

  /** An item that is not a delta at i leaves the block at i as it was. */
  lemma AccumulateOther(b: ContentBlock, init: seq<Result<StreamEvent>>, x: Result<StreamEvent>, i: nat)
    requires !DeltaAt(x, i)
    ensures Accumulated(b, init + [x], i) == Accumulated(b, init, i)
  {
    forall kind: DeltaKind
      ensures Fragments(init + [x], i, kind) == Fragments(init, i, kind)
    {
      FragmentsSnoc(init, x, i, kind);
      assert Fragments(init, i, kind) + [] == Fragments(init, i, kind);
    }
  }

  /** A delta at i is absorbed by the block at i when the block takes it,
      and changes nothing otherwise. */
  lemma AccumulateDelta(b: ContentBlock, init: seq<Result<StreamEvent>>, i: nat, d: BlockDelta)
    ensures Applies(Accumulated(b, init, i), d) ==>
      Accumulated(b, init + [Ok(ContentBlockDelta(i, d))], i) == Absorb(Accumulated(b, init, i), d)
    ensures !Applies(Accumulated(b, init, i), d) ==>
      Accumulated(b, init + [Ok(ContentBlockDelta(i, d))], i) == Accumulated(b, init, i)
  {
    var x: Result<StreamEvent> := Ok(ContentBlockDelta(i, d));
    match b
    case TextBlock(_) =>
      FragmentsGrows(init, x, i, TextKind);
    case ThinkingBlock(_, _) =>
      FragmentsGrows(init, x, i, ThinkingKind);
      FragmentsGrows(init, x, i, SignatureKind);
    case RedactedThinkingBlock(_) =>
    case ToolUseBlock(_, _, _) =>
      FragmentsGrows(init, x, i, JsonKind);
  }

  /** The fragments of one kind after a delta at i: one more if the delta
      has that kind, and their concatenation grows by its payload. */
  lemma FragmentsGrows(init: seq<Result<StreamEvent>>, x: Result<StreamEvent>, i: nat, kind: DeltaKind)
    requires DeltaAt(x, i)
    ensures KindOf(x.value.delta) == kind ==>
      Fragments(init + [x], i, kind) == Fragments(init, i, kind) + [Payload(x.value.delta)]
      && Concat(Fragments(init + [x], i, kind)) == Concat(Fragments(init, i, kind)) + Payload(x.value.delta)
    ensures KindOf(x.value.delta) != kind ==> Fragments(init + [x], i, kind) == Fragments(init, i, kind)
  {
    FragmentsSnoc(init, x, i, kind);
    if KindOf(x.value.delta) == kind {
      ConcatSnoc(Fragments(init, i, kind), Payload(x.value.delta));
    } else {
      assert Fragments(init, i, kind) + [] == Fragments(init, i, kind);
    }
  }

  /** One item after the start: the block at i moves on by the item's
      fragment of its own kind, if the block takes it. */
  lemma AccumulateStep(b: ContentBlock, init: seq<Result<StreamEvent>>, x: Result<StreamEvent>, i: nat,
                       before: map<nat, AccumulatedBlock>)
    requires i in before && before[i] == Accumulated(b, init, i)
    requires !StartsAt(x, i)
    ensures i in NextBlocks(before, x) && NextBlocks(before, x)[i] == Accumulated(b, init + [x], i)
  {
    if DeltaAt(x, i) {
      AccumulateDelta(b, init, i, x.value.delta);
      assert x == Ok(ContentBlockDelta(i, x.value.delta));
    } else {
      AccumulateOther(b, init, x, i);
    }
  }

  /** After a block is opened at index i, and until the next start at i, the
      block holds the concatenation of the text (thinking text, JSON) deltas
      addressed to i, in arrival order, and the last signature; deltas of
      another kind change nothing. */
  lemma {:induction false} BlockAccumulates(pre: seq<Result<StreamEvent>>, i: nat, b: ContentBlock, post: seq<Result<StreamEvent>>)
    requires forall j :: 0 <= j < |post| ==> !StartsAt(post[j], i)
    ensures i in ReplayBlocks(pre + [Ok(ContentBlockStart(i, b))] + post)
    ensures ReplayBlocks(pre + [Ok(ContentBlockStart(i, b))] + post)[i] == Accumulated(b, post, i)
    decreases |post|
  {
    var s: Result<StreamEvent> := Ok(ContentBlockStart(i, b));
    var h := pre + [s] + post;
    if post == [] {
      assert h[..|h| - 1] == pre;
    } else {
      var init := post[..|post| - 1];
      var x := post[|post| - 1];
      assert h[..|h| - 1] == pre + [s] + init;
      BlockAccumulates(pre, i, b, init);
      assert ReplayBlocks(h) == NextBlocks(ReplayBlocks(pre + [s] + init), x);
      assert post == init + [x];
      AccumulateStep(b, init, x, i, ReplayBlocks(pre + [s] + init));
    }
  }

  // ---------------------------------------------------------------------
  // The per-stream state machine
  // ---------------------------------------------------------------------

  /** `StreamState`: the blocks opened so far by index, and the last usage
      record. `history` is the items consumed, for the specification. */
  class StreamState {
    var blocks: map<nat, AccumulatedBlock>
    var usage: Option<Usage>
    ghost var history: seq<Result<StreamEvent>>

    ghost predicate Valid()
      reads this
    {
      blocks == ReplayBlocks(history) && usage == LastUsage(history)
    }

    constructor ()
      ensures Valid() && history == []
      ensures blocks == map[] && usage == None
    {
      blocks := map[];
      usage := None;
      history := [];
    }

    /** `MessageStop`: one `Done` chunk per stored block, in an unspecified
        order, each carrying its finalised content and the stored usage. */
    method Finish(parse: string -> Decoded<Json>) returns (chunks: seq<StreamChunk>)
      ensures |chunks| == |blocks.Keys|
      ensures IsFinalisation(chunks, blocks, usage, parse)
    {
      var remaining := blocks.Keys;
      var collected: seq<Content> := [];
      ghost var order: seq<nat> := [];
      while remaining != {}
        invariant remaining <= blocks.Keys
        invariant |order| == |collected|
        invariant |order| + |remaining| == |blocks.Keys|
        invariant forall j :: 0 <= j < |order| ==> order[j] in blocks && order[j] !in remaining
        invariant forall j :: 0 <= j < |order| ==> collected[j] == Finalize(blocks[order[j]], parse)
        invariant forall j, k :: 0 <= j < k < |order| ==> order[j] != order[k]
        invariant forall i :: i in blocks && i !in remaining ==> i in order
        decreases remaining
      {
        var i :| i in remaining;
        collected := collected + [Finalize(blocks[i], parse)];
        order := order + [i];
        remaining := remaining - {i};
      }
      var u := usage;
      chunks := seq(|collected|, j requires 0 <= j < |collected| => Done(AssistantMessage(collected[j], u)));
      assert IsKeyOrder(order, blocks.Keys);
    }

    /** A `ContentBlockDelta` for the open block `i`: a fragment of the
        block's kind is appended to it and echoed, any other is reported as
        unsupported and changes nothing. */
    method ApplyDelta(i: nat, d: BlockDelta) returns (chunks: seq<StreamChunk>)
      requires i in blocks
      modifies this
      ensures usage == old(usage) && history == old(history)
      ensures Applies(old(blocks)[i], d) ==> chunks == Echo(d) && blocks == old(blocks)[i := Absorb(old(blocks)[i], d)]
      ensures !Applies(old(blocks)[i], d) ==> chunks == Unsupported("ContentBlockDelta") && blocks == old(blocks)
    {
      var blk := blocks[i];
      match (blk, d) {
        case (AccText(text), TextDelta(dt)) =>
          blocks := blocks[i := AccText(text + dt)];
          chunks := [Delta(Text(dt))];
        case (AccThinking(thinking, sig), ThinkingDelta(dt)) =>
          blocks := blocks[i := AccThinking(thinking + dt, sig)];
          chunks := [Delta(Text(dt))];
        case (AccThinking(thinking, _), SignatureDelta(ds)) =>
          blocks := blocks[i := AccThinking(thinking, Some(ds))];
          chunks := Unsupported("SignatureDelta");
        case (AccToolUse(id, name, json), ToolUseDelta(p)) =>
          blocks := blocks[i := AccToolUse(id, name, json + p)];
          chunks := [Delta(ToolCall(p))];
        case _ =>
          chunks := Unsupported("ContentBlockDelta");
      }
    }

    /** One step of the stream's `scan`: consume one item, update the state,
        and return the chunks it yields. A delta for a never-opened index is
        `unreachable!` in the code, so the caller must rule it out. */
    method Step(item: Result<StreamEvent>, parse: string -> Decoded<Json>) returns (out: Result<seq<StreamChunk>>)
      requires Valid()
      requires item.Ok? && item.value.ContentBlockDelta? ==> item.value.index in blocks
      modifies this
      ensures Valid() && history == old(history) + [item]
      ensures item.Err? ==> out == Err(item.error) && blocks == old(blocks) && usage == old(usage)
      ensures item.Ok? ==> out.Ok?
      ensures item.Ok? ==>
        match item.value
        case MessageStart =>
          out.value == [Delta(Start)] && blocks == old(blocks) && usage == old(usage)
        case ContentBlockStart(i, b) =>
          out.value == Unsupported(StartName(b)) && blocks == old(blocks)[i := Opened(b)] && usage == old(usage)
        case ContentBlockDelta(i, d) =>
          usage == old(usage) &&
          if Applies(old(blocks)[i], d) then
            out.value == Echo(d) && blocks == old(blocks)[i := Absorb(old(blocks)[i], d)]
          else
            out.value == Unsupported("ContentBlockDelta") && blocks == old(blocks)
        case ContentBlockStop(_) =>
          out.value == Unsupported("ContentBlockStop") && blocks == old(blocks) && usage == old(usage)
        case MessageDelta(u) =>
          out.value == Unsupported("MessageDelta") && blocks == old(blocks) && usage == Some(u)
        case MessageStop =>
          |out.value| == |old(blocks).Keys| && IsFinalisation(out.value, old(blocks), old(usage), parse)
          && blocks == old(blocks) && usage == old(usage)
        case ErrorEvent(t, m) =>
          out.value == [Delta(Failed(t + ": " + m))] && blocks == old(blocks) && usage == old(usage)
        case NotSupported(txt) =>
          out.value == [Delta(ChunkType.NotSupported(txt))] && blocks == old(blocks) && usage == old(usage)
    {
      history := history + [item];
      assert history[..|history| - 1] == old(history);
      if item.Err? {
        return Err(item.error);
      }
      match item.value {
        case MessageStart =>
          out := Ok([Delta(Start)]);
        case ContentBlockStart(i, b) =>
          blocks := blocks[i := Opened(b)];
          out := Ok(Unsupported(StartName(b)));
        case ContentBlockDelta(i, d) =>
          var chunks := ApplyDelta(i, d);
          out := Ok(chunks);
        case ContentBlockStop(_) =>
          out := Ok(Unsupported("ContentBlockStop"));
        case MessageDelta(u) =>
          usage := Some(u);
          out := Ok(Unsupported("MessageDelta"));
        case MessageStop =>
          var chunks := Finish(parse);
          out := Ok(chunks);
        case ErrorEvent(t, m) =>
          out := Ok([Delta(Failed(t + ": " + m))]);
        case NotSupported(txt) =>
          out := Ok([Delta(ChunkType.NotSupported(txt))]);
      }
    }
  }

  /** The order a finalisation visits the blocks in: every index exactly once. */
  ghost predicate IsKeyOrder(order: seq<nat>, keys: set<nat>) {
    && (forall j, k :: 0 <= j < k < |order| ==> order[j] != order[k])
    && (forall j :: 0 <= j < |order| ==> order[j] in keys)
    && (forall i :: i in keys ==> i in order)
  }

  /** `chunks` holds one `Done` per block, in some order of the block indices. */
  ghost predicate IsFinalisation(chunks: seq<StreamChunk>, blocks: map<nat, AccumulatedBlock>, usage: Option<Usage>,
                                 parse: string -> Decoded<Json>) {
    exists order: seq<nat> ::
      && IsKeyOrder(order, blocks.Keys)
      && |order| == |chunks|
      && forall j :: 0 <= j < |order| ==> order[j] in blocks && chunks[j] == FinalChunk(blocks[order[j]], usage, parse)
  }

  /** The chunks an event other than `MessageStop` yields, given the blocks
      opened before it: exactly one delta, which echoes a fragment its block
      takes, reports the event, or carries the error or the unknown event. */
  function EventOutput(ev: StreamEvent, blocks: map<nat, AccumulatedBlock>): (r: seq<StreamChunk>)
    requires !ev.MessageStop?
    ensures |r| == 1 && r[0].Delta?
    ensures ev.ContentBlockDelta? && ev.index in blocks && Applies(blocks[ev.index], ev.delta) ==> r == Echo(ev.delta)
    ensures r[0].kind.Text? <==> ev.ContentBlockDelta? && ev.index in blocks && Applies(blocks[ev.index], ev.delta)
                                 && (ev.delta.TextDelta? || ev.delta.ThinkingDelta?)
  {
    match ev
    case MessageStart => [Delta(Start)]
    case ContentBlockStart(_, b) => Unsupported(StartName(b))
    case ContentBlockDelta(i, d) =>
      if i in blocks && Applies(blocks[i], d) then Echo(d) else Unsupported("ContentBlockDelta")
    case ContentBlockStop(_) => Unsupported("ContentBlockStop")
    case MessageDelta(_) => Unsupported("MessageDelta")
    case ErrorEvent(t, m) => [Delta(Failed(t + ": " + m))]
    case NotSupported(txt) => [Delta(ChunkType.NotSupported(txt))]
  }

  /** What the scan yields for `item` after the items `before`: an error
      passes through unchanged; a `MessageStop` yields one `Done` per
      distinct index opened so far, with the replayed blocks and the last
      usage; any other event yields its `EventOutput` against the blocks
      replayed from `before`. */
  ghost predicate Normalised(item: Result<StreamEvent>, before: seq<Result<StreamEvent>>, r: Result<seq<StreamChunk>>,
                             parse: string -> Decoded<Json>) {
    (r.Ok? <==> item.Ok?)
    && (item.Err? ==> r == Err(item.error))
    && (item.Ok? && item.value.MessageStop? ==>
          |r.value| == |StartedIndices(before)|
          && IsFinalisation(r.value, ReplayBlocks(before), LastUsage(before), parse))
    && (item.Ok? && !item.value.MessageStop? ==> r.value == EventOutput(item.value, ReplayBlocks(before)))
  }

  /** One step of the scan, as the loop over the stream sees it. */
  method StepItem(state: StreamState, item: Result<StreamEvent>, parse: string -> Decoded<Json>)
    returns (r: Result<seq<StreamChunk>>)
    requires state.Valid()
    requires item.Ok? && item.value.ContentBlockDelta? ==> item.value.index in StartedIndices(state.history)
    modifies state
    ensures state.Valid() && state.history == old(state.history) + [item]
    ensures Normalised(item, old(state.history), r, parse)
  {
    r := state.Step(item, parse);
  }

  /** The whole `scan`: a fresh state threaded through the items. Every item
      yields one output; an upstream error passes through unchanged, and a
      `MessageStop` yields exactly one `Done` per distinct index opened so far. */
  method NormaliseStream(items: seq<Result<StreamEvent>>, parse: string -> Decoded<Json>)
    returns (out: seq<Result<seq<StreamChunk>>>)
    requires DeltasTargetOpenBlocks(items)
    ensures |out| == |items|
    ensures forall j :: 0 <= j < |items| ==> (out[j].Ok? <==> items[j].Ok?)
    ensures forall j :: 0 <= j < |items| && items[j].Err? ==> out[j] == Err(items[j].error)
    ensures forall j :: 0 <= j < |items| && items[j].Ok? && items[j].value.MessageStop? ==>
      |out[j].value| == |StartedIndices(items[..j])|
      && IsFinalisation(out[j].value, ReplayBlocks(items[..j]), LastUsage(items[..j]), parse)
    ensures forall j :: 0 <= j < |items| ==> Normalised(items[j], items[..j], out[j], parse)
  {
    var state := new StreamState();
    out := [];
    var n := 0;
    while n < |items|
      invariant 0 <= n <= |items|
      invariant state.Valid() && state.history == items[..n]
      invariant |out| == n
      invariant forall j :: 0 <= j < n ==> Normalised(items[j], items[..j], out[j], parse)
    {
      var r := StepItem(state, items[n], parse);
      ghost var prev := out;
      out := out + [r];
      assert items[..n + 1] == items[..n] + [items[n]];
      forall j | 0 <= j < n + 1
        ensures Normalised(items[j], items[..j], out[j], parse)
      {
        if j < n {
          assert out[j] == prev[j];
        }
      }
      n := n + 1;
    }
    forall j | 0 <= j < |items|
      ensures (out[j].Ok? <==> items[j].Ok?) && (items[j].Err? ==> out[j] == Err(items[j].error))
      ensures items[j].Ok? && items[j].value.MessageStop? ==>
        |out[j].value| == |StartedIndices(items[..j])|
        && IsFinalisation(out[j].value, ReplayBlocks(items[..j]), LastUsage(items[..j]), parse)
    {
      assert Normalised(items[j], items[..j], out[j], parse);
    }
  }

  // ---------------------------------------------------------------------
  // The provider
  // ---------------------------------------------------------------------

  /** `AnthropicOptions`: the model, the stream flag, and the rest of the
      request as one JSON value. */
  datatype AnthropicOptions = AnthropicOptions(model: string, stream: Option<bool>, request: Json)

  /** `AnthropicProviderSettings`. */
  datatype Settings = Settings(providerName: string, baseUrl: string, apiKey: string, path: Option<string>)

  /** The provider value: settings and the options of the last request. */
  datatype Provider = Provider(settings: Settings, options: AnthropicOptions)

  /** The request path: the configured one, else "/messages". */
  function RequestPath(p: Provider): (path: string)
    ensures p.settings.path.Some? ==> path == p.settings.path.value
    ensures p.settings.path.None? ==> path == "/messages"
  {
    p.settings.path.GetOr("/messages")
  }

  /** The content item of one block of a non-streaming response. */
  function ResponseContent(b: ContentBlock): Content {
    match b
    case TextBlock(t) => TextContent(t)
    case ThinkingBlock(sig, t) => ReasoningContent(t, Some(sig))
    case RedactedThinkingBlock(data) => ReasoningContent(data, None)
    case ToolUseBlock(id, name, input) => ToolCallContent(ToolCallInfo(Some(id), name, input))
  }

  /** `generate_text`: the request options are the caller's, with the stored
      model kept; a response maps block by block, in order, and carries the
      response usage; a send error is returned as is. `converted` is the
      caller's options after conversion, `sent` the outcome of `send`. */
  method GenerateText(p: Provider, converted: AnthropicOptions, sent: Result<MessagesResponse>)
    returns (p': Provider, r: Result<LanguageModelResponse>)
    ensures p' == p.(options := converted.(model := p.options.model))
    ensures sent.Err? ==> r == Err(sent.error)
    ensures sent.Ok? ==> (r.Ok? && r.value.usage == Some(sent.value.usage)
                          && |r.value.contents| == |sent.value.content|
                          && forall j :: 0 <= j < |sent.value.content| ==>
                               r.value.contents[j] == ResponseContent(sent.value.content[j]))
  {
    p' := p.(options := converted.(model := p.options.model));
    if sent.Err? {
      return p', Err(sent.error);
    }
    var blocks := sent.value.content;
    var collected: seq<Content> := [];
    var n := 0;
    while n < |blocks|
      invariant 0 <= n <= |blocks|
      invariant |collected| == n
      invariant forall j :: 0 <= j < n ==> collected[j] == ResponseContent(blocks[j])
    {
      collected := collected + [ResponseContent(blocks[n])];
      n := n + 1;
    }
    r := Ok(LanguageModelResponse(collected, Some(sent.value.usage)));
  }

  /** `stream_text`: the stored model is kept and streaming is switched on;
      establishment follows the retry policy; an established stream is
      normalised item by item. attempt(k) is the outcome of the k-th
      establishment attempt. */
  method StreamText(p: Provider, converted: AnthropicOptions, attempt: nat -> Result<seq<Result<StreamEvent>>>,
                    parse: string -> Decoded<Json>)
    returns (p': Provider, r: Result<seq<Result<seq<StreamChunk>>>>, waits: seq<nat>)
    requires forall k :: attempt(k).Ok? ==> DeltasTargetOpenBlocks(attempt(k).value)
    ensures p' == p.(options := converted.(stream := Some(true), model := p.options.model))
    ensures |waits| == Retry.Retries(attempt) && waits == Retry.Backoff(|waits|)
    ensures attempt(|waits|).Err? ==> r == Err(attempt(|waits|).error)
    ensures attempt(|waits|).Ok? ==> r.Ok? && |r.value| == |attempt(|waits|).value|
    ensures attempt(|waits|).Ok? ==> forall j :: 0 <= j < |r.value| ==>
      Normalised(attempt(|waits|).value[j], attempt(|waits|).value[..j], r.value[j], parse)
  {
    p' := p.(options := converted.(stream := Some(true), model := p.options.model));
    var established;
    established, waits := Retry.Establish(attempt);
    if established.Err? {
      return p', Err(established.error), waits;
    }
    var out := NormaliseStream(established.value, parse);
    r := Ok(out);
  }

  /** `ClaudeCodeBuilder`. */
  datatype Builder = Builder(settings: Settings, options: AnthropicOptions)

  /** `build`: the base URL must validate (`validateBaseUrl` is the crate's
      `validate_base_url`) and the key must be non-empty; it is not trimmed.
      The built provider keeps the builder's options. */
  function Build(b: Builder, validateBaseUrl: string -> Result<string>): (r: Result<Provider>)
    ensures validateBaseUrl(b.settings.baseUrl).Err? ==> r == Err(validateBaseUrl(b.settings.baseUrl).error)
    ensures validateBaseUrl(b.settings.baseUrl).Ok? && b.settings.apiKey == "" ==> r == Err(MissingField("api_key"))
    ensures r.Ok? <==> validateBaseUrl(b.settings.baseUrl).Ok? && b.settings.apiKey != ""
    ensures r.Ok? ==> (r.value.options == b.options
                       && r.value.settings == b.settings.(baseUrl := validateBaseUrl(b.settings.baseUrl).value))
  {
    var url := validateBaseUrl(b.settings.baseUrl);
    if url.Err? then Err(url.error)
    else if b.settings.apiKey == "" then Err(MissingField("api_key"))
    else Ok(Provider(b.settings.(baseUrl := url.value), b.options))
  }

  // ---------------------------------------------------------------------
  // Properties relating the pieces
  // ---------------------------------------------------------------------

  /** A tool block whose JSON text does not parse is finalised as a
      `NotSupported` content item naming the text, never as an error. */
  lemma InvalidToolJsonIsNotSupported(id: string, name: string, json: string, parse: string -> Decoded<Json>)
    requires parse(ToolJsonSource(json)).DecodeError?
    ensures Finalize(AccToolUse(id, name, json), parse) == NotSupportedContent("Invalid tool json: " + json)
  {
  }

  /** A tool block that received no JSON, or only whitespace, is parsed as
      "{}". */
  lemma BlankToolJsonIsEmptyObject(id: string, name: string, json: string, parse: string -> Decoded<Json>, empty: Json)
    requires IsBlank(json) && parse("{}") == Decoded(empty)
    ensures Finalize(AccToolUse(id, name, json), parse) == ToolCallContent(ToolCallInfo(Some(id), name, empty))
  {
  }

  /** Streaming and non-streaming agree: a block accumulated from the
      fragments of a response block finalises to that block's content. */
  lemma StreamingAgreesWithResponse(b: ContentBlock, json: string, parse: string -> Decoded<Json>)
    requires b.ToolUseBlock? ==> parse(ToolJsonSource(json)) == Decoded(b.input)
    ensures Finalize(StreamedForm(b, json), parse) == ResponseContent(b)
  {
  }

  /** The accumulated form of a complete block (`json` is the streamed
      argument text of a tool block). */
  function StreamedForm(b: ContentBlock, json: string): AccumulatedBlock {
    match b
    case TextBlock(t) => AccText(t)
    case ThinkingBlock(sig, t) => AccThinking(t, Some(sig))
    case RedactedThinkingBlock(data) => AccRedactedThinking(data)
    case ToolUseBlock(id, name, _) => AccToolUse(id, name, json)
  }

  /** Start a text block, receive "Hel" and "lo": the one block is the text
      "Hello", and it finalises to that text. */
  lemma HelloScenario(parse: string -> Decoded<Json>)
    ensures
      var items: seq<Result<StreamEvent>> := [Ok(ContentBlockStart(0, TextBlock(""))),
                                              Ok(ContentBlockDelta(0, TextDelta("Hel"))),
                                              Ok(ContentBlockDelta(0, TextDelta("lo")))];
      ReplayBlocks(items) == map[0 := AccText("Hello")]
      && Finalize(ReplayBlocks(items)[0], parse) == TextContent("Hello")
  {
    var items: seq<Result<StreamEvent>> := [Ok(ContentBlockStart(0, TextBlock(""))),
                                            Ok(ContentBlockDelta(0, TextDelta("Hel"))),
                                            Ok(ContentBlockDelta(0, TextDelta("lo")))];
    assert items[..1][..0] == [];
    assert items[..2][..1] == items[..1];
    assert items[..|items| - 1] == items[..2];
    assert ReplayBlocks(items[..1]) == NextBlocks(map[], items[0]) == map[0 := AccText("")];
    assert "" + "Hel" == "Hel" && "Hel" + "lo" == "Hello";
    assert ReplayBlocks(items[..2]) == NextBlocks(map[0 := AccText("")], items[1]) == map[0 := AccText("Hel")];
  }
}
