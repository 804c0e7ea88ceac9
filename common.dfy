/** The crate's vendor-independent vocabulary: the error type, a value model of
    JSON, token usage, the finalised content items and the streamed chunks that
    every provider normalises its vendor events into. */
module Common {

  datatype Option<+T> = None | Some(value: T) {
    function GetOr(default: T): T {
      match this
      case Some(v) => v
      case None => default
    }
  }

  /** The crate's error type, restricted to the variants the core produces.
      `ApiError` carries the HTTP status when one is known. */
  datatype Error =
    | ApiError(statusCode: Option<int>, details: string)
    | MissingField(field: string)
    | InvalidInput(message: string)
    | Other(message: string)

  datatype Result<+T> = Ok(value: T) | Err(error: Error)

  /** HTTP 429 Too Many Requests. */
  const TooManyRequests: int := 429

  /** A value model of `serde_json::Value`; numbers are integers and the
      order of object members is not modelled. `JNull` is `Value::default()`. */
  datatype Json =
    | JNull
    | JBool(b: bool)
    | JNumber(n: int)
    | JString(s: string)
    | JArray(items: seq<Json>)
    | JObject(members: map<string, Json>)

  /** The outcome of a serde decoding call: a value, or serde's error message. */
  datatype Decoded<+T> = Decoded(value: T) | DecodeError(message: string)

  /** Token accounting attached to finished messages. The vendor usage
      records are taken to convert into this one field for field. */
  datatype Usage = Usage(inputTokens: nat, outputTokens: nat)

  /** `Usage::default()`. */
  const DefaultUsage := Usage(0, 0)

  /** A tool invocation. `id` is `None` where the code never sets it. */
  datatype ToolCallInfo = ToolCallInfo(id: Option<string>, name: string, input: Json)

  /** `LanguageModelResponseContentType`: one finalised content item. A
      reasoning item keeps the thinking signature its extensions carry. */
  datatype Content =
    | TextContent(text: string)
    | ReasoningContent(reasoning: string, signature: Option<string>)
    | ToolCallContent(tool: ToolCallInfo)
    | NotSupportedContent(message: string)

  /** `AssistantMessage`: a finalised content item with the usage of its turn. */
  datatype AssistantMessage = AssistantMessage(content: Content, usage: Option<Usage>)

  /** `LanguageModelStreamChunkType`: the payload of a streamed delta. */
  datatype ChunkType =
    | Start
    | Text(text: string)
    | Reasoning(text: string)
    | ToolCall(fragment: string)
    | End(message: AssistantMessage)
    | Failed(reason: string)
    | Incomplete(reason: string)
    | NotSupported(raw: string)

  /** `LanguageModelStreamChunk`: a delta, or a finished message. */
  datatype StreamChunk = Delta(kind: ChunkType) | Done(message: AssistantMessage)

  /** Concatenation of sequences is associative. */
  lemma AppendAssoc<T>(a: seq<T>, b: seq<T>, c: seq<T>)
    ensures a + (b + c) == (a + b) + c
  {
  }

  /** A response of `generate_text`. */
  datatype LanguageModelResponse = LanguageModelResponse(contents: seq<Content>, usage: Option<Usage>)
}
