# aisdk-rs streaming core in Dafny

This project models the streaming protocol-normalisation engine of the Rust
crate `aisdk`. The engine takes the vendor event streams of three providers
and turns them into one vendor-independent sequence of chunks. The three
providers are ClaudeCode (Anthropic Messages), Codex (OpenAI Responses) and
Google (Gemini). The model also covers the crate's integration with the
Vercel AI SDK UI, which turns those chunks into UI message chunks.

The modules follow the source files:

| module | file | what it holds |
|---|---|---|
| `Common` | common.dfy | the crate's error type, a value model of JSON, usage, content items and stream chunks |
| `Strings` | strings.dfy | the pieces of Rust's `str` API the code uses (`trim`, `trim_start`, `trim_end_matches`, `strip_prefix`, `lines`, `join`) |
| `Retry` | retry.dfy | the establishment retry loop that ClaudeCode and Codex share: 429 only, at most five retries, waits of 1, 2, 4, 8 and 16 seconds |
| `EventSource` | eventsource.dfy | the items an SSE event source yields: an event or a transport error |
| `ClaudeCode` | claudecode.dfy | `StreamState`, a class that accumulates content blocks by index and finalises them at `MessageStop`; also `generate_text`, `stream_text` and `build` |
| `CodexProvider` | codex_provider.dfy | `Codex` values and `CodexBuilder`, with the builder's setters and `build` |
| `CodexClient` | codex_client.dfy | `body`, `parse_stream_sse` and `end_stream`, plus the producer loop of `send_and_stream`, which splits the byte stream into SSE frames |
| `CodexModel` | codex_model.dfy | `generate_text` and `stream_text`, including the event-to-chunk mapping |
| `GoogleClient` | google_client.dfy | paths, headers and body; `send`, `parse_stream_sse` and `end_stream`; the `ended` scan that truncates the stream |
| `GoogleModel` | google_model.dfy | `generate_text` part flattening and the mapping from streamed responses to chunks |
| `VercelUi` | vercel_ui.dfy | `VercelUIStreamBuilder`, modelled as a class, and the chunk filter `into_vercel_ui_stream` |

Loops in the source are methods with loop invariants, proved against a
function that states the result outright. Examples:

- `StreamState.Finish` and `NormaliseStream` are proved against `ReplayBlocks` and `IsFinalisation`.
- `CodexClient.Produce` is proved against `Deliver(Generated(..))`.
- `GoogleClient.Scan` is proved against `UntilEnd`.

Lemmas then prove what the source promises about those functions.

Calls into code that is not part of the model are passed in as function parameters:

- `serde_json` parsing and decoding;
- serialising a function call or a request;
- `Debug` and `Display` renderings;
- URL parsing and joining;
- `validate_base_url`;
- the id generator.

HTTP exchanges are passed in as data. `outcome(k)` or `attempt(k)` is the
result of the k-th request, and a body is a sequence of chunks and transport
errors.

## Model

| member | source | states |
|---|---|---|
| Retry.Establish | src/providers/claudecode/mod.rs:252-272 | the loop retries exactly the leading run of 429 errors, capped at five; it records the waits 1, 2, 4, ... and returns the outcome of the first attempt it does not retry |
| Retry.Retries | src/providers/codex/language_model.rs:46-66 | the retry count is at most five; every attempt before it was a 429; below five, the attempt at that index is not a 429 |
| Retry.Backoff | src/providers/claudecode/mod.rs:254-267 | one wait per retry made |
| Retry.BackoffSchedule | src/providers/claudecode/mod.rs:254-267 | the five waits are 1, 2, 4, 8 and 16 seconds |
| Retry.TotalWait | src/providers/claudecode/mod.rs:254-267 | n retries wait 2^n - 1 seconds in all, so never more than 31 seconds |
| Retry.FourRateLimitsThenOther | src/providers/codex/language_model.rs:50-65 | four 429s and then another outcome give four waits (1, 2, 4, 8); the fifth attempt's outcome is surfaced |
| Retry.AlwaysRateLimited | src/providers/codex/language_model.rs:56-64 | when every attempt is a 429, five retries are made and the sixth attempt's 429 is surfaced |
| Retry.OtherErrorNotRetried | src/providers/claudecode/mod.rs:270 | an error other than 429 on the first attempt is surfaced with no retry |
| Strings.TrimStart | src/providers/codex/client.rs:165 | the result is a suffix of the input; everything dropped is whitespace; the result does not start with whitespace |
| Strings.TrimEmptyIffBlank | src/providers/codex/mod.rs:139-140 | a trimmed string is empty exactly when the input was all whitespace |
| Strings.TrimIdempotent | src/providers/codex/mod.rs:113 | trimming twice is trimming once |
| Strings.TrimEndMatches | src/providers/codex/client.rs:163 | the result is a prefix of the input; only trailing copies of the character are removed, and the result does not end in one |
| Strings.Trim | src/providers/codex/mod.rs:113 | the result is a contiguous slice of the input with only whitespace before and after it, and it neither starts nor ends with whitespace |
| Strings.StripPrefix | src/providers/codex/client.rs:164 | returns the rest after the prefix exactly when the string starts with it |
| ClaudeCode.StreamState.constructor | src/providers/claudecode/mod.rs:292-296 | a fresh state holds no blocks and no usage, and agrees with the replay of an empty history |
| ClaudeCode.StreamState.ApplyDelta | src/providers/claudecode/mod.rs:353-373 | a delta of the open block's kind is absorbed into that block only and echoed (thinking text as `Text`); a mismatched delta changes nothing and yields one `NotSupported` |
| ClaudeCode.StreamState.Finish | src/providers/claudecode/mod.rs:383-428 | exactly one `Done` per stored block, in some order of the block indices; each holds that block's finalised content and the stored usage |
| ClaudeCode.StreamState.Step | src/providers/claudecode/mod.rs:321-437 | per event: the chunks it yields and the new blocks and usage. A start overwrites its index; `MessageDelta` replaces the usage; `ContentBlockStop` changes nothing; an `Error` yields `Failed("type: message")`; an `Err` passes through. The state stays equal to the replay of the history |
| ClaudeCode.Finalize | src/providers/claudecode/mod.rs:386-420 | text gives text; thinking and redacted thinking give reasoning (thinking keeps its signature); a tool block gives a tool call if its JSON parses, else `NotSupported("Invalid tool json: ..")`; the content kind always matches the block kind |
| ClaudeCode.Opened | src/providers/claudecode/mod.rs:326-352 | a started block opens an empty accumulator of its own kind (a redacted block holds its data, a tool block its id and name), the same whatever came before |
| ClaudeCode.Absorb | src/providers/claudecode/mod.rs:353-373 | an applicable delta keeps the block's kind (and a tool block's id and name) and appends its fragment to the running text, thinking or JSON; a signature delta replaces only the signature |
| ClaudeCode.Echo | src/providers/claudecode/mod.rs:353-373 | an applicable delta yields one delta: text and thinking as `Text`, tool JSON as `ToolCall`, a signature as `NotSupported` |
| ClaudeCode.NextBlocks | src/providers/claudecode/mod.rs:326-382 | a start adds or overwrites its own index; no other event adds an index; blocks that are neither started nor given a delta are unchanged |
| ClaudeCode.ReplayBlocks | src/providers/claudecode/mod.rs:313-382 | the stored block indices are exactly the indices some `ContentBlockStart` opened |
| ClaudeCode.LastUsage | src/providers/claudecode/mod.rs:379-382 | none exactly when no `MessageDelta` came; otherwise the usage of the last `MessageDelta` |
| ClaudeCode.EventOutput | src/providers/claudecode/mod.rs:321-434 | every event but `MessageStop` yields exactly one delta; it is a `Text` exactly for an applicable text or thinking delta, and an applicable delta is echoed |
| ClaudeCode.AccumulateDelta | src/providers/claudecode/mod.rs:353-373 | a delta that applies to a block absorbs its fragment; one that does not leaves it unchanged |
| ClaudeCode.AccumulateStep | src/providers/claudecode/mod.rs:353-377 | one more item moves a block by that item's fragment of the block's own kind, and by nothing else |
| ClaudeCode.BlockAccumulates | src/providers/claudecode/mod.rs:326-382 | until its index is opened again, a block holds the in-order concatenation of its own kind's fragments, plus the last signature for a thinking block |
| ClaudeCode.StepItem | src/providers/claudecode/mod.rs:315-437 | one scan step on a valid state: an error passes through; an event other than `MessageStop` yields its `EventOutput` over the blocks replayed so far; a `MessageStop` yields one `Done` per index opened so far |
| ClaudeCode.NormaliseStream | src/providers/claudecode/mod.rs:313-439 | one output per input item, `Ok` exactly for `Ok` inputs; errors pass through unchanged; each `MessageStop` yields one `Done` per distinct index opened before it, with the replayed blocks and the last usage; every other event yields its `EventOutput` over the blocks replayed before it |
| ClaudeCode.RequestPath | src/providers/claudecode/mod.rs:126-131 | the configured path, or `/messages` |
| ClaudeCode.GenerateText | src/providers/claudecode/mod.rs:186-244 | the stored model is kept; blocks map to content one to one and in order; the response usage is attached; a send error is returned as is |
| ClaudeCode.StreamText | src/providers/claudecode/mod.rs:246-442 | streaming is switched on and the model kept; the retry policy decides the attempt; an established stream is normalised item by item as `NormaliseStream` states, each item with the chunks `Normalised` fixes for it |
| ClaudeCode.Build | src/providers/claudecode/mod.rs:560-575 | fails with the URL error, or `MissingField("api_key")` for an empty key (not trimmed); otherwise keeps the options and the validated URL |
| ClaudeCode.InvalidToolJsonIsNotSupported | src/providers/claudecode/mod.rs:406-418 | tool JSON that does not parse becomes a `NotSupported` content item naming the JSON, never an error |
| ClaudeCode.BlankToolJsonIsEmptyObject | src/providers/claudecode/mod.rs:407 | whitespace-only tool JSON is parsed as `{}` |
| ClaudeCode.StreamingAgreesWithResponse | src/providers/claudecode/mod.rs:203-237 | a block streamed in full finalises to the same content that `generate_text` builds from the complete block |
| ClaudeCode.HelloScenario | src/providers/claudecode/mod.rs:329-358 | a text block that receives "Hel" and "lo" holds "Hello" and finalises to that text |
| CodexProvider.DefaultSettings | src/providers/codex/settings.rs:26-39 | provider `codex`, the ChatGPT backend URL, path `/responses`, empty instructions, and the environment key trimmed (empty when unset) |
| CodexProvider.OptionsFor | src/providers/codex/mod.rs:36-39 | options naming the model, with every other field at its default |
| CodexProvider.DefaultCodex | src/providers/codex/mod.rs:32-68 | `default` and `model_name(n)`: default settings and model n |
| CodexProvider.DefaultBuilder | src/providers/codex/mod.rs:86-102 | default settings and the model type's name |
| CodexProvider.WithModelName | src/providers/codex/mod.rs:80-83 | replaces the model only |
| CodexProvider.WithBaseUrl | src/providers/codex/mod.rs:106-109 | replaces the base URL only |
| CodexProvider.WithApiKey | src/providers/codex/mod.rs:112-115 | stores exactly the trimmed key and changes nothing else; the stored key is empty exactly when the key given was blank |
| CodexProvider.WithProviderName | src/providers/codex/mod.rs:118-121 | replaces the provider name only |
| CodexProvider.WithPath | src/providers/codex/mod.rs:124-127 | stores `Some(path)` only |
| CodexProvider.WithInstructions | src/providers/codex/mod.rs:130-133 | replaces the instructions only |
| CodexProvider.BuildAsWritten | src/providers/codex/mod.rs:136-158 | URL error first, then `MissingField("api_key")` for a blank key; on success the trimmed non-empty key and the validated URL are stored, name, path and instructions are kept, and the model is the type's own name |
| CodexProvider.BuildDropsModelName | src/providers/codex/mod.rs:144-147 | a model name set on the builder is lost by `build` as written |
| CodexProvider.Build | src/providers/codex/mod.rs:136-158 | as `BuildAsWritten`, except that the provider keeps the builder's options |
| CodexProvider.BuildKeepsModelName | src/providers/codex/mod.rs:80-83 | with the corrected `build`, the model set on the builder is the provider's model |
| CodexProvider.ApiKeyDecidesBuild | src/providers/codex/mod.rs:112-142 | with a valid URL, `build` fails exactly when the key given to the setter was blank, and otherwise stores the trimmed key |
| CodexProvider.RequestPath | src/providers/codex/client.rs:22-27 | the configured path, or `/responses` |
| CodexProvider.Headers | src/providers/codex/client.rs:33-44 | JSON content type, an event-stream accept header, and `Bearer` with the trimmed key |
| CodexProvider.BuiltProviderBearer | src/providers/codex/client.rs:37-41 | a built provider's bearer token is its stored key, unchanged |
| CodexClient.Body | src/providers/codex/client.rs:50-62 | an object gains `instructions` and `store: false` and keeps its other members; any other value is sent as is; a failed serialisation becomes `{instructions, store}` |
| CodexClient.Connect | src/providers/codex/client.rs:122-144 | a failed request carries its status if any; a non-2xx status carries the status and the body text; a 2xx hands the body on; the result is a 429 exactly when the status was 429 |
| CodexClient.ParseStreamSse | src/providers/codex/client.rs:64-96 | `Open` gives `NotSupported("{}")`; `[DONE]` or empty data gives the end marker; invalid JSON is an error; JSON that matches no event is `NotSupported(data)`; only an invalid-status transport error keeps its status |
| CodexClient.EndStream | src/providers/codex/client.rs:98-102 | the stream ends exactly at a completed or error event (the events that stop the producer) or at the end marker |
| CodexClient.SentinelsEndStream | src/providers/codex/client.rs:71-72 | `[DONE]` (whitespace allowed) and empty data classify as an event that ends the stream |
| CodexClient.DeltasDoNotEndStream | src/providers/codex/client.rs:98-102 | text and reasoning deltas, and other unsupported text, do not end the stream |
| CodexClient.FirstSepSpec | src/providers/codex/client.rs:157 | `find("\n\n")` gives the first blank-line position, and none when there is none |
| CodexClient.SplitFrames | src/providers/codex/client.rs:157-159 | the buffer left after splitting holds no blank line |
| CodexClient.SplitFramesJoin | src/providers/codex/client.rs:157-159 | the frames, each followed by `\n\n`, and then the remaining buffer give back the input exactly |
| CodexClient.SplitFramesClean | src/providers/codex/client.rs:157-159 | no frame holds a blank line |
| CodexClient.SplitFramesAppend | src/providers/codex/client.rs:153-159 | splitting text that arrives in two parts gives the frames of the first part, then the frames of its remainder joined to the second part |
| CodexClient.DataLine | src/providers/codex/client.rs:162-166 | a line yields data exactly when it starts with `data:` once trailing `\r` is removed, and the data has no leading whitespace |
| CodexClient.DataLines | src/providers/codex/client.rs:161-167 | never more payloads than lines, and no payload starts with whitespace |
| CodexClient.DataLinesSpec | src/providers/codex/client.rs:161-171 | a frame has no data lines exactly when none of its lines is a `data:` line |
| CodexClient.CollectDataLines | src/providers/codex/client.rs:161-167 | the loop collects exactly the data lines of the frame, in order |
| CodexClient.DataEvent | src/providers/codex/client.rs:169-180 | `[DONE]` (whitespace allowed) or blank data gives the end marker; other data gives the decoded event, or `NotSupported(data)` when it does not decode |
| CodexClient.FrameEvent | src/providers/codex/client.rs:169-180 | a frame yields an event exactly when it has a data line |
| CodexClient.TrailingEvent | src/providers/codex/client.rs:201-211 | the remainder yields an event exactly when it is not blank; `[DONE]` gives the end marker |
| CodexClient.FrameItem | src/providers/codex/client.rs:169-191 | at most one item, never an error; no item exactly when none of the frame's lines is a `data:` line |
| CodexClient.FrameItems | src/providers/codex/client.rs:157-180 | frames give at most one event each, never an error |
| CodexClient.FrameItemsAppend | src/providers/codex/client.rs:157-192 | the items of two runs of frames are the items of each, in order |
| CodexClient.Tail | src/providers/codex/client.rs:194-212 | a body error gives one `Err("SSE body stream error: ..")`; otherwise one event for a non-blank remainder and none for a blank one |
| CodexClient.Generated | src/providers/codex/client.rs:149-216 | every item but the last is `Ok`, and a body error makes the last item an `Err` |
| CodexClient.ChunkingIrrelevant | src/providers/codex/client.rs:152-159 | reading chunk by chunk yields the items of the whole text received, however it was cut into chunks |
| CodexClient.DeliverIsPrefix | src/providers/codex/client.rs:182-191 | what reaches the receiver is a prefix of the items, within the budget, with no stop event before its last item; a shorter prefix ends at a closed point |
| CodexClient.Deliver | src/providers/codex/client.rs:182-191 | defined by recursion over the items; its properties are those of `DeliverIsPrefix`, `DeliverAfter` and `Produce` |
| CodexClient.DeliverAfter | src/providers/codex/client.rs:182-184 | delivering after an open prefix delivers the rest within the remaining budget |
| CodexClient.SendFrame | src/providers/codex/client.rs:169-191 | a frame's event is sent; the producer stops after a completed or error event, or when the receiver is gone |
| CodexClient.CutAndSend | src/providers/codex/client.rs:157-191 | one pass of the inner loop cuts the first frame off the buffer and sends its event; the remainder of the split and the items still to send are kept |
| CodexClient.DrainFrames | src/providers/codex/client.rs:157-192 | the inner loop sends the events of every complete frame in the buffer and leaves the remainder, unless it stops first |
| CodexClient.TakeChunk | src/providers/codex/client.rs:153-192 | a chunk is appended to the buffer and the frames it completes are sent |
| CodexClient.SendBodyError | src/providers/codex/client.rs:194-199 | a body error sends one `Err` and ends the producer |
| CodexClient.FlushTrailing | src/providers/codex/client.rs:201-212 | at the end of the body, a non-blank remainder is sent as one last event |
| CodexClient.ReadItem | src/providers/codex/client.rs:152-200 | one body item: a chunk is taken in, or a body error is sent and the producer ends |
| CodexClient.ReadBody | src/providers/codex/client.rs:151-200 | the loop over the body items keeps the items sent plus the items still to come equal to the items of the whole body |
| CodexClient.GeneratedInChunks | src/providers/codex/client.rs:149-216 | the items of the whole body are those the chunked reading generates from an empty buffer |
| CodexClient.Produce | src/providers/codex/client.rs:149-216 | the producer delivers exactly the items of the whole received text, cut off as the receiver and the stop events dictate |
| CodexModel.GenerateText | src/providers/codex/language_model.rs:28-35 | every request fails with `Other("Codex provider supports streaming only; ..")` and the provider is unchanged |
| CodexModel.Arguments | src/providers/codex/language_model.rs:116 | arguments that do not parse become JSON `null`, the default value |
| CodexModel.ItemContent | src/providers/codex/language_model.rs:86-124 | a message contributes its first content when that is output text; a reasoning item its first summary; a function call always contributes a tool call with its call id, name and parsed arguments; other items contribute nothing |
| CodexModel.DoneChunks | src/providers/codex/language_model.rs:85-125 | defined by recursion over the output items; its properties are those of `DoneChunksShareUsage`, `DoneChunksAppend`, `DoneChunksSingle` and `DoneChunksCount` |
| CodexModel.CompletedChunks | src/providers/codex/language_model.rs:79-128 | the loop yields the `Done` chunks of the output items in order, with the usage (default when absent) |
| CodexModel.DoneChunksShareUsage | src/providers/codex/language_model.rs:91-121 | every chunk of a completed response is a `Done` carrying that response's usage |
| CodexModel.DoneChunksAppend | src/providers/codex/language_model.rs:85-125 | the chunks follow the order of the output items |
| CodexModel.DoneChunksSingle | src/providers/codex/language_model.rs:86-124 | an item yields one `Done` with its content, or nothing when it contributes none |
| CodexModel.DoneChunksCount | src/providers/codex/language_model.rs:85-125 | one `Done` per contributing item, the other items being skipped |
| CodexModel.FunctionCallAlwaysReported | src/providers/codex/language_model.rs:108-122 | a function call with unparsable arguments is still reported, with null input |
| CodexModel.EventChunks | src/providers/codex/language_model.rs:68-149 | text delta gives `Text`; reasoning delta gives `Reasoning`; completed gives only `Done`s; incomplete gives `Incomplete(reason or "Unknown")`; error gives `Failed("code or unknown: message")`; any other event gives one `NotSupported(debug)`; `Err` passes through |
| CodexModel.MapEvents | src/providers/codex/language_model.rs:68 | each stream item is mapped on its own, in order |
| CodexModel.StreamText | src/providers/codex/language_model.rs:38-152 | streaming is switched on and the model kept; the retry policy decides the attempt; an established body yields the mapped events that the producer delivers |
| CodexModel.StreamKeepsModel | src/providers/codex/language_model.rs:41-44 | the model name after `stream_text` is the one before |
| CodexModel.PersistentRateLimitSurfaces | src/providers/codex/language_model.rs:46-66 | a server that always answers 429 gets five retries, and the error surfaced is `ApiError(429, body)` |
| CodexModel.DoneOnlyFromCompleted | src/providers/codex/language_model.rs:79-128 | a `Done` chunk only ever comes from a completed-response event |
| GoogleClient.Headers | src/providers/google/client/mod.rs:46-51 | JSON content type and the `x-goog-api-key` header, nothing else |
| GoogleClient.Body | src/providers/google/client/mod.rs:57-64 | the serialised request when present, else `{}` |
| GoogleClient.Endpoint | src/providers/google/client/mod.rs:68-75 | `Invalid base URL` or `Failed to join base URL and path` on failure, else the joined URL |
| GoogleClient.GenerateRequest | src/providers/google/client/mod.rs:66-81 | posts to `models/<model>:generateContent` with no query, the headers and the body |
| GoogleClient.StreamRequest | src/providers/google/client/mod.rs:114-130 | posts to `models/<model>:streamGenerateContent` with query `alt=sse` |
| GoogleClient.PathsDetermineModel | src/providers/google/client/mod.rs:72 | different models give different paths |
| GoogleClient.ModelOfPath | src/providers/google/client/mod.rs:119 | the model can be read back from the path |
| GoogleClient.BodyIgnoresModelAndStreaming | src/providers/google/client/mod.rs:15-25 | model and streaming flag never enter the body |
| GoogleClient.Send | src/providers/google/client/mod.rs:66-104 | transport, status (`Status: .., Body: ..`) and decoding (`Decoding error: .., Body: ..`) errors; success exactly for a 2xx reply that decodes |
| GoogleClient.ParseStreamSse | src/providers/google/client/mod.rs:149-168 | `Open` gives `NotSupported("{}")`; invalid JSON is an error; JSON that is not a response is `NotSupported(data)`; a transport error keeps only its message |
| GoogleClient.InvalidStatusLosesStatus | src/providers/google/client/mod.rs:166 | an invalid-status transport error keeps only its message |
| GoogleClient.EndStream | src/providers/google/client/mod.rs:170-177 | only a response with a candidate can end the stream; undecoded data never does |
| GoogleClient.UntilEndSpec | src/providers/google/client/mod.rs:134-144 | the output is a prefix of the input; nothing before its last item is terminal; when it is shorter, it ends at the first error or finished response |
| GoogleClient.UntilEndNoTerminal | src/providers/google/client/mod.rs:137-143 | a stream with no error and no finished response is forwarded whole |
| GoogleClient.UntilEndIdempotent | src/providers/google/client/mod.rs:137-143 | truncating twice is truncating once |
| GoogleClient.Scan | src/providers/google/client/mod.rs:135-144 | the scan with the `ended` flag yields exactly the truncated stream |
| GoogleClient.SendAndStream | src/providers/google/client/mod.rs:106-147 | request errors, then `SSE stream error: ..`; otherwise the classified events up to and including the first terminal one |
| GoogleClient.Classified | src/providers/google/client/mod.rs:134 | each event-source item is classified on its own, in order |
| GoogleModel.PartContents | src/providers/google/language_model.rs:38-45 | a part's text and then its function call, as content items |
| GoogleModel.CollectParts | src/providers/google/language_model.rs:37-46 | the inner loop appends the contents of the parts in order |
| GoogleModel.CollectCandidates | src/providers/google/language_model.rs:36-47 | the outer loop collects the parts of every candidate in order |
| GoogleModel.GenerateText | src/providers/google/language_model.rs:23-53 | the request is stored and streaming turned off; a send error is returned; otherwise the flattened contents and the usage |
| GoogleModel.PartsContentsAppend | src/providers/google/language_model.rs:37-46 | the contents follow the order of the parts |
| GoogleModel.PartsContentsCount | src/providers/google/language_model.rs:37-46 | one item per text and one per function call, and nothing else |
| GoogleModel.FirstCall | src/providers/google/language_model.rs:84-89 | `find_map`: the first part's function call, or none when no part has one |
| GoogleModel.PartDeltas | src/providers/google/language_model.rs:69-80 | one delta per text and per function call, all deltas: the text first, the serialised call (empty on failure) last |
| GoogleModel.Deltas | src/providers/google/language_model.rs:68-81 | one delta per text part and per function-call part, and never a `Done` |
| GoogleModel.DoneContent | src/providers/google/language_model.rs:84-102 | a tool call with no id exactly when some part has a function call; otherwise the parts' texts joined |
| GoogleModel.CandidateChunks | src/providers/google/language_model.rs:68-108 | one chunk per text and per call, plus one when finished; the only `Done` is the last chunk of a finished candidate, holding its `DoneContent` and the usage |
| GoogleModel.ResponseChunks | src/providers/google/language_model.rs:67-109 | defined by recursion over the candidates; its properties are those of `OneDonePerFinishedCandidate`, `DoneCarriesUsage` and `EndStreamIffDone` |
| GoogleModel.PushDeltas | src/providers/google/language_model.rs:68-81 | the part loop pushes each part's text delta and then its tool-call delta, in order |
| GoogleModel.StreamedResponseChunks | src/providers/google/language_model.rs:63-110 | the candidate loop yields the deltas and the `Done` of every candidate |
| GoogleModel.EventChunks | src/providers/google/language_model.rs:62-118 | a response gives its candidates' chunks; `NotSupported` passes through as one delta; `Err` passes through |
| GoogleModel.MapEvents | src/providers/google/language_model.rs:62 | each stream item is mapped on its own, in order |
| GoogleModel.StreamText | src/providers/google/language_model.rs:55-121 | the request is stored and streaming switched on; the truncated stream is mapped event by event |
| GoogleModel.CandidateDoneCount | src/providers/google/language_model.rs:83-108 | a candidate yields one `Done` if finished and none otherwise |
| GoogleModel.OneDonePerFinishedCandidate | src/providers/google/language_model.rs:67-109 | a response yields exactly one `Done` per finished candidate |
| GoogleModel.FinishedCountPositive | src/providers/google/client/mod.rs:173 | some candidate is finished exactly when the finished count is positive |
| GoogleModel.EndStreamIffDone | src/providers/google/client/mod.rs:170-177 | a streamed response ends the stream exactly when its chunks hold a `Done` |
| GoogleModel.DoneCarriesUsage | src/providers/google/language_model.rs:65-107 | every `Done` carries the response's usage |
| GoogleModel.StreamedTextsAreTexts | src/providers/google/language_model.rs:69-73 | the text deltas are the parts' texts, in order |
| GoogleModel.DoneSummarisesCandidate | src/providers/google/language_model.rs:83-108 | a finished candidate's `Done` comes after its deltas and holds its first function call, or else the concatenation of the text deltas before it |
| GoogleModel.UnfinishedYieldsNoDone | src/providers/google/language_model.rs:83 | an unfinished candidate yields its deltas only |
| VercelUi.DefaultOptions | src/integrations/vercel_aisdk_ui.rs:130-143 | all flags off and no id generator |
| VercelUi.UiStreamBuilder.constructor | src/integrations/vercel_aisdk_ui.rs:173-182 | the given context and build function, with default options |
| VercelUi.UiStreamBuilder.SendReasoning | src/integrations/vercel_aisdk_ui.rs:185-188 | sets its own flag only |
| VercelUi.UiStreamBuilder.SendStart | src/integrations/vercel_aisdk_ui.rs:191-194 | sets its own flag only |
| VercelUi.UiStreamBuilder.SendFinish | src/integrations/vercel_aisdk_ui.rs:197-200 | sets its own flag only |
| VercelUi.UiStreamBuilder.WithIdGenerator | src/integrations/vercel_aisdk_ui.rs:203-209 | sets the generator only |
| VercelUi.UiStreamBuilder.Build | src/integrations/vercel_aisdk_ui.rs:212-214 | the build function applied to the context and the options, unchanged |
| VercelUi.ConfigureAll | src/integrations/vercel_aisdk_ui.rs:185-200 | the three setters together set all three flags and nothing else |
| VercelUi.MessageId | src/integrations/vercel_aisdk_ui.rs:232-236 | the generator's id if there is one, else `msg_` followed by the UUID |
| VercelUi.Convert | src/integrations/vercel_aisdk_ui.rs:239-289 | `Start`, `End` and `Reasoning` are kept exactly when their flag is set; `Text` becomes a text delta; a tool call becomes `ToolCallStart` with `unknown` for the call id and the tool name; `Failed` and `Incomplete` become `Error`; `NotSupported` is dropped; ids are the message id |
| VercelUi.Converted | src/integrations/vercel_aisdk_ui.rs:238-292 | never more items than chunks, never an `Err`, and every id is the one message id |
| VercelUi.IntoUiStream | src/integrations/vercel_aisdk_ui.rs:228-293 | never longer than the chunk stream and never an `Err`; every id is the one message id; every text delta reaches the UI in order; reasoning appears exactly when requested and present |
| VercelUi.ConvertedAppend | src/integrations/vercel_aisdk_ui.rs:238-292 | the filter preserves order |
| VercelUi.ConvertedSingle | src/integrations/vercel_aisdk_ui.rs:291 | a chunk gives its UI chunk or nothing |
| VercelUi.ReasoningIffRequested | src/integrations/vercel_aisdk_ui.rs:253-259 | a reasoning delta reaches the UI exactly when reasoning is requested and the stream has some |
| VercelUi.TextsReachUi | src/integrations/vercel_aisdk_ui.rs:247-251 | every text delta reaches the UI, unchanged and in order |

## Left out

- I/O and concurrency are not modelled: HTTP, `tokio::spawn`, the `mpsc` channel and the `sleep` between retries. Requests are given as their outcomes and the waits are recorded. A receiver that is dropped is modelled as a number of items after which sends fail (`budget`).
- Calls into libraries are parameters, not models: `serde_json`, `Debug` and `Display` output, URL parsing and joining, `validate_base_url`, and UUID generation (the UUID is an input string).
- `String::from_utf8_lossy` is taken as the identity on each chunk's text. A multi-byte character split across two chunks is therefore not replaced.
- Vendor usage records are taken to convert to the crate's `Usage` field for field. JSON numbers are integers, and the member order of JSON objects is not modelled.
- HashMap iteration order at `MessageStop` is stated as "some order of the block indices", since the code does not fix it.
- A delta for a ClaudeCode block index that was never opened is `unreachable!` in the code. It is a precondition here (`DeltasTargetOpenBlocks`).
- `&mut self` on `generate_text` and `stream_text` is modelled by returning the updated provider value.
- ClaudeCode `parse_stream_sse`, `end_stream` and `send_and_stream` delegate to the Anthropic provider, which is not part of this model. ClaudeCode `headers`, `body`, the builder setters, `model_name`, `Default` and `default_settings` are configuration plumbing and are also left out.
- ClaudeCode.StreamText: states the normalisation of the established stream item by item. It does not model the lazy stream object itself.
- Google's error type carries only a message; such errors appear here as `ApiError` without a status. The `println!` debug lines in `send` are left out.
- The Google provider settings and builder (`src/providers/google/mod.rs`) and the Google wire types (`types.rs`) are not part of this model. The types are reduced to the fields the core reads.
- Provider metadata on UI chunks is always `None` in the code and is left out.
- The retry loop follows the code: it retries while fewer than five retries were made. Five 429s in a row are therefore followed by a sixth attempt, and that attempt's 429 is surfaced (`Retry.AlwaysRateLimited`). A reading in which the fifth 429 is surfaced without a sixth attempt does not match the code.
- The OpenAI client glue, the embedding-model stubs, the capability tables and the other providers' macro invocations are outside the core.

## Findings

| source | as written | input that shows it | evidently intended | confidence | as-written member | corrected member |
|---|---|---|---|---|---|---|
| src/providers/codex/mod.rs:144-147 | `CodexBuilder::build` rebuilds the options from `M::MODEL_NAME`, discarding the builder's options | `Codex::<DynamicModel>::builder().model_name("gpt-5.3-codex").api_key("k").build()` yields a provider whose model is the dynamic type's name, not `gpt-5.3-codex` | the provider keeps the model set with `model_name` (lines 80-83), as `ClaudeCodeBuilder::build` does | high; not executed | CodexProvider.BuildAsWritten, CodexProvider.BuildDropsModelName | CodexProvider.Build, CodexProvider.BuildKeepsModelName |
