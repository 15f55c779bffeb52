# FeatherGate core, modelled in Dafny

FeatherGate is an HTTP gateway. Clients send it OpenAI-style chat requests, and it forwards each one to the provider named by the model string (`openai/…`, `anthropic/…`, `gemini/…`). It translates the request into the provider's own dialect. It translates the answer back, both as a single JSON response and as a server-sent event stream. It also counts requests for a Prometheus endpoint.

This project models the request types and their validation, and the model configuration with its `provider/model-id` strings. It also models routing and the three provider adapters, including both stream translators. The server's event-stream helpers, the HTTP handlers with their status mapping, the error type and the request counters are modelled too.

Layout:
- Each source file has one module: `Types`, `Configuration`, `Routing`, `OpenAi`, `Anthropic`, `Gemini`, `Streaming`, `Handlers`, `Errors` and `Metrics`.
- A few shared modules sit beside them:
  - `Wrappers` and `Ints` hold `Option`/`Result` and the fixed-width integers.
  - `Text` holds the Rust string operations the code relies on: `find`, `lines`, `split`, `trim_end_matches`, `take` and decimal formatting.
  - `SseFrames` is the `"\n\n"` framing that both stream parsers and the serialiser share.
  - `JsonEscape` is the hand-written JSON escaping.
  - `ChunkFormat` is the hand-assembled OpenAI chunk that both translators emit.
  - `Upstream` is the base URL choice, the 4096-character error truncation and the send/decode exchange the adapters share.
  - `FrameLoop` is the functional specification of the buffer-draining loops.

How the source's form carries over:
- The two stream translators keep mutable state across deliveries, so each is a class. `Anthropic.AnthropicStream` has the fields `buffer` and `messageId`; `Gemini.GeminiStream` has `buffer` and a fixed `chunkId`.
- Their `while` loops (`process_sse_buffer`, `process_gemini_buffer`) are methods. Each is proved equal to the recursive function `FrameLoop.Drain`, and the lemmas about streams are proved about `Drain`.
- Both `convert_request` functions are `for` loops. They are methods proved equal to a fold, and lemmas characterise the fold in declarative terms.
- The request counters are a class with three `u64` fields that wrap around.
- Everything else is pure and modelled as functions.

Several things become parameters: the network exchange, JSON decoding and serialisation, the clock and the UUID source.

## Model

| member | source | states |
|---|---|---|
| Errors.GatewayError.ToString | src/error.rs:4-33 | every variant displays as its own label, ": ", then what it carries (an upstream error its decimal status, " - " and the message) |
| Errors.Config | src/error.rs:37-39 | builds a `ConfigError` carrying exactly the message; its text is the config heading followed by the message |
| Errors.Internal | src/error.rs:41-43 | builds an `InternalError` carrying exactly the message, with the internal-error heading |
| Errors.Upstream | src/error.rs:45-50 | builds an `UpstreamError` with exactly the given status and message; displays as heading, decimal status, " - ", message |
| Errors.UpstreamTextDetermines | src/error.rs:29 | two upstream errors with the same display text have the same status and message (the text can be read back) |
| Errors.DisplayDeterminesError | src/error.rs:4-33 | two errors with the same display text are the same error: the text names the failure and what it carries |
| Ints.WrappingAddU32 | src/providers/anthropic.rs:215 | the sum of two u32 values when it fits, and the sum less 2^32 otherwise |
| Types.UserMessage | src/types/mod.rs:59-64 | role is "user", content kept verbatim |
| Types.AssistantMessage | src/types/mod.rs:67-72 | role is "assistant", content kept verbatim |
| Types.SystemMessage | src/types/mod.rs:75-80 | role is "system", content kept verbatim |
| Types.ConstructorsDistinct | src/types/mod.rs:59-80 | messages from different constructors never coincide, whatever their contents |
| Types.SimpleResponse | src/types/mod.rs:113-129 | object "chat.completion", exactly one choice with index 0 holding the assistant message, finish "stop", no usage |
| Types.Validate | src/types/mod.rs:20-47 | Ok exactly when temperature (if present) is in [0,2], top_p (if present) in [0,1] and messages are non-empty; each error variant occurs exactly when its check is the first one to fail, and carries the offending value |
| Types.ValidateIgnoresOtherFields | src/types/mod.rs:20-47 | model, max_tokens and stream never influence validation |
| Types.ValidationError.Describe | src/types/mod.rs:22-43 | the refusal text names the parameter that failed and ends with the rejected value; an empty message list is reported as such |
| Types.DescribeTellsKind | src/types/mod.rs:22-43 | refusals of different kinds never read alike, whatever the float formatting |
| Configuration.DefaultApiBase | src/config/mod.rs:30-32 | the default base is the empty string |
| Configuration.ApiBaseField | src/config/mod.rs:26-32 | an omitted `api_base` reads as empty, a present one verbatim |
| Configuration.FindModel | src/config/mod.rs:82-86 | None exactly when no entry has the name; otherwise the first entry with that name |
| Configuration.FindModelFirstWins | src/config/mod.rs:82-86 | whenever entry i is the first one with the name, lookup returns entry i |
| Configuration.Validate | src/config/mod.rs:61-79 | Ok exactly when the list is non-empty and every entry has non-empty name, model and key; an empty list gives its own message; every failure is a `ConfigError` naming the first incomplete entry |
| Configuration.ParseModelString | src/config/mod.rs:90-109 | every failure is `InvalidModelString` |
| Configuration.ParseModelStringCorrect | src/config/mod.rs:90-109 | succeeds exactly on strings with one `/` and non-empty sides; on success provider + "/" + id rebuilds the input and neither part holds a `/` |
| Configuration.ParseFormatted | src/config/mod.rs:90-109 | joining a non-empty provider and id with `/` parses back to the same pair (round trip) |
| Routing.ProviderOf | src/providers/routing.rs:25-30 | only the three known tags select an adapter, and the selected adapter's tag is the input |
| Routing.ProviderOfTag | src/providers/routing.rs:25-30 | each adapter's tag selects that adapter |
| Routing.Resolve | src/providers/routing.rs:12-31 | an unknown model name fails with `ModelNotFound(name)` before any parsing; a malformed model string propagates its parse error; an unknown tag fails with `UnsupportedProvider(tag)`; a known tag succeeds with that provider and the configured entry |
| Routing.RoutesByTag | src/providers/routing.rs:12-31 | an entry whose model string is "tag/id" is routed to the provider of its tag, and fails as unsupported for any other tag |
| Routing.Dispatch | src/providers/routing.rs:12-31 | a resolution failure is returned unchanged; otherwise the adapter matching the tag is called on the entry and the request |
| Routing.StreamingResolvesAlike | src/providers/routing.rs:34-53 | the streaming route fails with the same error, or calls the same provider, as the blocking route |
| Routing.DetermineProvider | src/providers/routing.rs:56-59 | Ok exactly on well-formed model strings; the result is the non-empty part before the `/` |
| Routing.DetermineProviderOfTag | src/providers/routing.rs:56-59 | a known tag joined with a non-empty id gives back that tag |
| JsonEscape.EscapeJson | src/providers/anthropic.rs:456-462 | a string without the five special characters is returned unchanged |
| JsonEscape.EscapeJsonIsEscapeEach | src/providers/anthropic.rs:456-462 | the chain of five replacements, backslash first, equals escaping each character on its own (no double escaping) |
| JsonEscape.EscapeJsonSafe | src/providers/anthropic.rs:456-462 | the result has no raw line feed, carriage return or tab, and every `"` in it is preceded by a backslash |
| JsonEscape.UnescapeEscapeJson | src/providers/gemini.rs:389-395 | the escaping is injective: unescaping its output gives back the input |
| JsonEscape.ControlCharactersPassThrough | src/providers/anthropic.rs:456-462 | control characters other than the three handled ones are left as they are |
| SseFrames.CutFrame | src/providers/anthropic.rs:357-359 | None exactly when the buffer holds no "\n\n"; otherwise buffer = frame + "\n\n" + rest, with the frame free of "\n\n" and the rest strictly shorter |
| SseFrames.CutFrameOf | src/providers/gemini.rs:326-328 | a frame without "\n\n" followed by the terminator is cut off exactly |
| SseFrames.SplitFrames | src/providers/anthropic.rs:357-359 | every frame cut is free of the terminator and the leftover holds none |
| SseFrames.JoinSplitFrames | src/providers/anthropic.rs:351-366 | the frames and the leftover put back together are the buffer: nothing is lost or reordered |
| SseFrames.SplitJoinFrames | src/providers/anthropic.rs:351-366 | frames joined with terminators split back into the same frames and leftover |
| SseFrames.DataFrame | src/server/streaming.rs:5-8 | a data frame starts with "data: ", ends with a blank line and is eight characters longer than its payload |
| SseFrames.ReadDataFrame | src/providers/gemini.rs:326-330 | a single-line payload written as a frame is cut back as "data: " + payload and stripped back to the payload |
| SseFrames.SplitDataFrames | src/server/streaming.rs:5-13 | single-line payloads written one after another split back into their frames in order, with nothing left over |
| ChunkFormat.ChunkFrame | src/providers/anthropic.rs:426-453 | a chunk is always a data frame |
| ChunkFormat.ChunkJsonSingleLine | src/providers/gemini.rs:361-386 | when id, model and finish hold no line feed, the chunk JSON is one line, whatever the content |
| ChunkFormat.ChunkFrameReadsBack | src/providers/anthropic.rs:426-453 | a chunk frame followed by more input is cut off as exactly one frame whose payload is the chunk JSON |
| ChunkFormat.DeltaContentReadsBack | src/providers/gemini.rs:372-373 | the delta object holds the escaped content, which unescapes to the original text |
| Upstream.BaseUrl | src/providers/openai.rs:32-36 | an empty configured base falls back to the provider's default, otherwise it is used as given |
| Upstream.Endpoint | src/providers/openai.rs:37 | the URL is the base with its trailing slashes removed, followed by the path |
| Upstream.EndpointIgnoresTrailingSlashes | src/providers/openai.rs:37 | adding slashes at the end of the base does not change the URL |
| Upstream.UpstreamFailure | src/providers/openai.rs:49-63 | an `UpstreamError` with the reply status whose message is the heading plus a prefix of the body: all of it up to 4096 characters, exactly 4096 otherwise |
| Upstream.Exchange | src/providers/openai.rs:42-67 | a transport failure is an `HttpError`; a non-2xx reply is exactly the case of an `UpstreamError`; a 2xx body that does not decode is an `HttpError` with the decoder's text; success is a 2xx reply whose body decodes, and yields the decoded value |
| Upstream.OpenStream | src/providers/openai.rs:86-110 | the stream opens exactly on a 2xx reply; otherwise a transport or upstream error as above |
| OpenAi.RequestUrl | src/providers/openai.rs:32-37 | the URL ends with "/chat/completions"; an empty base uses the OpenAI default, any other base loses its trailing slashes |
| OpenAi.BuildPost | src/providers/openai.rs:38-45 | the body is the canonical request unchanged, with bearer authorisation and JSON content type |
| OpenAi.ForwardRequest | src/providers/openai.rs:25-68 | the answer is the exchange of that post, with the OpenAI error heading |
| OpenAi.ForwardRequestStream | src/providers/openai.rs:71-118 | the stream opens exactly when the exchange succeeds, and then is the pass-through of the deliveries |
| OpenAi.PassThrough | src/providers/openai.rs:112-117 | one item per delivery, same order; upstream bytes unchanged, transport errors become `HttpError` |
| OpenAi.PassThroughKeepsText | src/providers/openai.rs:112-117 | the text the client receives is exactly the upstream text |
| FrameLoop.Drain | src/providers/anthropic.rs:351-366 | what remains is a suffix of the buffer; no output means no "\n\n" remains; a buffer without "\n\n" is left untouched |
| FrameLoop.DrainRemovesWholeFrames | src/providers/anthropic.rs:357-365 | draining removes whole frames only, from the front, and keeps the unterminated tail; with no output every frame is consumed, with output at least one frame is |
| FrameLoop.DrainHandlesFramesInOrder | src/providers/anthropic.rs:357-365 | frames are handled in order: with no output all were handled silently and the state is the one reached over them; with output every removed frame but the last was silent, and the output and new state are what the last removed frame gave |
| FrameLoop.DrainAppend | src/providers/gemini.rs:326-336 | appending input after a buffer that yields no output is the same as draining the leftover with that input |
| FrameLoop.OutputLeavesLaterFrames | src/providers/anthropic.rs:357-365 | at most one frame's output per call: the frames after it stay in the buffer |
| FrameLoop.SilentFrameIsSkipped | src/providers/gemini.rs:330-335 | a frame that emits nothing is dropped and the loop moves on to the next |
| FrameLoop.DrainOutputIsHandled | src/providers/anthropic.rs:360-363 | any output is the output of some frame's handling |
| Anthropic.NonSystem | src/providers/anthropic.rs:150-161 | the kept messages are never system messages, and no more than the input |
| Anthropic.LastSystem | src/providers/anthropic.rs:150-161 | None exactly when there is no system message; otherwise the content of the last one |
| Anthropic.AnthropicBody | src/providers/anthropic.rs:163-170 | model id and stream as given, temperature copied, max_tokens the request's or 1024; no message with role "system" is sent, and the system field is absent exactly when there is no system message |
| Anthropic.ConvertRequest | src/providers/anthropic.rs:148-172 | the loop builds the system-free message list and the last system text; max_tokens defaults to 1024; not streaming |
| Anthropic.ConvertRequestStream | src/providers/anthropic.rs:175-179 | the same conversion with stream set to true |
| Anthropic.NonSystemConcat | src/providers/anthropic.rs:150-161 | filtering distributes over concatenation (order is kept) |
| Anthropic.NonSystemKeepsOthers | src/providers/anthropic.rs:150-161 | without system messages every message is kept, in place, with role and content unchanged |
| Anthropic.SystemMessageDropped | src/providers/anthropic.rs:150-161 | a system message anywhere is removed and the messages around it stay in order |
| Anthropic.LastSystemConcat | src/providers/anthropic.rs:157-159 | a later system message overrides every earlier one |
| Anthropic.TextsOf | src/providers/anthropic.rs:184-190 | only text blocks contribute |
| Anthropic.TextsOfConcat | src/providers/anthropic.rs:184-190 | texts are collected in block order |
| Anthropic.TextsOfSkipsOtherBlocks | src/providers/anthropic.rs:184-190 | a non-text block contributes nothing to the content |
| Anthropic.MapStopReason | src/providers/anthropic.rs:193-197 | "end_turn" becomes "stop", "max_tokens" becomes "length", anything else passes through |
| Anthropic.MapStopReasonIdempotent | src/providers/anthropic.rs:193-197 | mapping twice is mapping once |
| Anthropic.ConvertResponse | src/providers/anthropic.rs:182-218 | id and model copied; one choice, index 0, assistant text = the concatenated text blocks; finish mapped or absent; prompt/completion copied; total is the sum when it fits in 32 bits, wrapped otherwise |
| Anthropic.RequestUrl | src/providers/anthropic.rs:234-239 | ends with "/v1/messages"; empty base uses the Anthropic default, any other loses its trailing slashes |
| Anthropic.BuildPost | src/providers/anthropic.rs:242-247 | carries the api key header, the "2023-06-01" version header and the converted body |
| Anthropic.ForwardRequest | src/providers/anthropic.rs:221-271 | a malformed model string fails before sending; otherwise the exchange of the converted request, with the Anthropic heading, then converted back |
| Anthropic.ForwardRequestStream | src/providers/anthropic.rs:274-325 | a malformed model string fails before sending; otherwise the stream opens exactly when the exchange succeeds |
| Anthropic.StreamStopReason | src/providers/anthropic.rs:406-410 | only "max_tokens" gives "length"; every other reason gives "stop" |
| Anthropic.StopReasonMappingsAgree | src/providers/anthropic.rs:193-197 | the streaming and blocking mappings agree on the two known reasons and differ only on the others |
| Anthropic.EventOutput | src/providers/anthropic.rs:392-423 | exactly text deltas, message deltas with a stop reason and message stop produce output; a text delta gives a chunk with the current id and the text; message stop gives the done frame |
| Anthropic.IdAfter | src/providers/anthropic.rs:394-396 | only message_start changes the id, to the message's own id |
| Anthropic.LastData | src/providers/anthropic.rs:372-378 | None exactly when no line starts with "data: "; otherwise the payload of the last such line |
| Anthropic.FrameEvent | src/providers/anthropic.rs:369-384 | a frame without a data line gives no event; otherwise the decoding of the last data payload |
| Anthropic.HandleFrame | src/providers/anthropic.rs:369-384 | an undecodable frame emits nothing and keeps the id; a decoded one follows the event table |
| Anthropic.AnthropicStream.constructor | src/providers/anthropic.rs:335-336 | the stream starts with an empty buffer and an empty message id |
| Anthropic.AnthropicStream.ConvertEventToOpenai | src/providers/anthropic.rs:387-423 | outputs the event table's output for the old id and updates the id as the table says |
| Anthropic.AnthropicStream.ParseSseEvent | src/providers/anthropic.rs:369-384 | the line loop finds the last data line and gives the frame's handling |
| Anthropic.AnthropicStream.ProcessBuffer | src/providers/anthropic.rs:351-366 | the loop leaves buffer, id and output exactly as the frame-drain specification does |
| Anthropic.AnthropicStream.Feed | src/providers/anthropic.rs:338-346 | a transport error is passed on as `HttpError` with the buffer untouched; data is appended and drained |
| Anthropic.EventLineThenDataLine | src/providers/anthropic.rs:372-378 | a frame with an event line and a data line yields the data payload |
| Anthropic.TextDeltaUsesStartedId | src/providers/anthropic.rs:392-401 | a text delta after message_start carries the started message's id |
| Anthropic.TwoDeltasInOneDelivery | src/providers/anthropic.rs:357-365 | two frames in one delivery: the first call outputs only the first chunk and keeps the second frame buffered |
| Gemini.GeminiRole | src/providers/gemini.rs:97-101 | "assistant" becomes "model", every other role is unchanged |
| Gemini.Step | src/providers/gemini.rs:94-116 | a system message only replaces the pending system text; any other message appends exactly one turn and keeps the earlier ones |
| Gemini.Run | src/providers/gemini.rs:94-116 | the turns already made are kept; each non-system message adds exactly one turn; no turn gets the role "system" |
| Gemini.GenerationConfigOf | src/providers/gemini.rs:118-129 | present exactly when one of temperature, max_tokens, top_p is set, and then copies all three |
| Gemini.GeminiBody | src/providers/gemini.rs:131-134 | the config is present exactly when a generation parameter is set; at most one turn per message, one for each when there is no system message, and none with the role "system" |
| Gemini.ConvertRequest | src/providers/gemini.rs:89-135 | the loop computes the fold of the step over the messages |
| Gemini.FirstTurn | src/providers/gemini.rs:103-112 | the first turn has the mapped role and a single part |
| Gemini.RunConcat | src/providers/gemini.rs:94-116 | the fold over two halves is the fold over the second starting from the first's result |
| Gemini.RunOverSystems | src/providers/gemini.rs:94-100 | leading system messages make no turn and leave the last one's text pending |
| Gemini.RunAfterFirstTurn | src/providers/gemini.rs:94-116 | after the first turn every non-system message becomes one turn, in order, and system messages are dropped |
| Gemini.FirstTurnCarriesSystemPrompt | src/providers/gemini.rs:107-109 | after the leading system messages, the first turn carries the last system text and a blank line before its content when it is a user turn, and every later message is a plain turn, so the system text is added at most once |
| Gemini.OnlySystemsGiveNoTurns | src/providers/gemini.rs:94-116 | system messages never become turns |
| Gemini.LateSystemMessageDropped | src/providers/gemini.rs:94-116 | a system message after the first turn is discarded |
| Gemini.PartTexts | src/providers/gemini.rs:146-152 | one text per part, in order |
| Gemini.MapFinishReason | src/providers/gemini.rs:155-159 | "STOP" becomes "stop", "MAX_TOKENS" becomes "length", anything else passes through |
| Gemini.ConvertResponse | src/providers/gemini.rs:138-182 | fails with `InternalError` exactly when there are no candidates; otherwise the first candidate's parts joined, the given model, id "chatcmpl-" plus the UUID, mapped finish and usage copied verbatim |
| Gemini.OnlyFirstCandidateCounts | src/providers/gemini.rs:145-152 | adding candidates after the first changes nothing |
| Gemini.PartsJoinWithoutSeparator | src/providers/gemini.rs:146-152 | part texts are concatenated in order with no separator |
| Gemini.RequestUrl | src/providers/gemini.rs:198-207 | ends with the path; empty base uses the Gemini default, any other loses its trailing slashes |
| Gemini.BuildPost | src/providers/gemini.rs:209-216 | carries the `x-goog-api-key` header, JSON content type and the converted body |
| Gemini.ForwardRequest | src/providers/gemini.rs:185-238 | a malformed model string fails before sending; otherwise the exchange at the generate path, then the response conversion |
| Gemini.ForwardRequestStream | src/providers/gemini.rs:241-295 | a malformed model string fails before sending; otherwise the stream opens at the stream path exactly when the exchange succeeds |
| Gemini.StreamFinishReason | src/providers/gemini.rs:349-353 | only "MAX_TOKENS" gives "length"; every other reason gives "stop" |
| Gemini.ParseGeminiChunk | src/providers/gemini.rs:340-358 | a chunk exactly when the payload decodes with a first candidate that has a first part; the chunk carries that part's text and the mapped finish |
| Gemini.HandleFrame | src/providers/gemini.rs:330-334 | a frame not starting with "data: " emits nothing; otherwise the parse of the rest |
| Gemini.GeminiStream.constructor | src/providers/gemini.rs:304-305 | an empty buffer and one id, "chatcmpl-" followed by the UUID, for the whole stream |
| Gemini.GeminiStream.ProcessBuffer | src/providers/gemini.rs:320-337 | the loop leaves buffer and output exactly as the frame-drain specification does |
| Gemini.GeminiStream.Feed | src/providers/gemini.rs:307-316 | a transport error is passed on as `HttpError` with the buffer untouched; data is appended and drained |
| Gemini.DataFrameGivesChunk | src/providers/gemini.rs:326-334 | a data frame whose payload parses yields its chunk and leaves the rest buffered |
| Gemini.EventLineFrameIgnored | src/providers/gemini.rs:330 | a frame that begins with an event line is dropped even when it holds data |
| Gemini.ChunksCarryStreamId | src/providers/gemini.rs:305 | every chunk a stream emits carries the stream's single id |
| Streaming.FormatSseChunk | src/server/streaming.rs:5-8 | "data: " + the serialised chunk + a blank line; a failed serialisation gives "data: \n\n" |
| Streaming.FormatSseDone | src/server/streaming.rs:11-13 | the done marker is the data frame of "[DONE]" |
| Streaming.Payloads | src/server/streaming.rs:5-8 | one payload per chunk, empty where serialisation fails |
| Streaming.StreamTextIsDataFrames | src/server/streaming.rs:5-13 | chunk frames followed by the done frame are the data frames of the payloads then "[DONE]" |
| Streaming.StreamReadsBack | src/server/streaming.rs:116-124 | such a stream ends in "[DONE]\n\n" and reads back as one frame per chunk, in order, then the marker |
| Streaming.StreamEndsWithDone | src/server/streaming.rs:116-124 | every stream written this way ends with "[DONE]\n\n" |
| Metrics.Bump | src/metrics/mod.rs:18-27 | one more modulo 2^64 |
| Metrics.Metrics.constructor | src/metrics/mod.rs:13-15 | all counters at zero, balanced |
| Metrics.Metrics.RecordSuccess | src/metrics/mod.rs:18-21 | total and successful go up by one, failed unchanged, balance kept |
| Metrics.Metrics.RecordFailure | src/metrics/mod.rs:24-27 | total and failed go up by one, successful unchanged, balance kept |
| Metrics.Metrics.ExportPrometheus | src/metrics/mod.rs:30-45 | the text's lines are help, type and value of each counter, in order, each ending with a bare line feed (no carriage return anywhere) |
| Metrics.BalancedIsExact | src/metrics/mod.rs:18-27 | while the counts fit in 64 bits, total equals successful plus failed |
| Metrics.BumpBoth | src/metrics/mod.rs:18-27 | bumping total together with one outcome keeps the balance |
| Metrics.ValueLineReadsBack | src/metrics/mod.rs:30-45 | a value line is the name, a space and decimal digits that read back as the counter |
| Handlers.SelectPage | src/server/handlers.rs:20-26 | exactly the four method/path pairs are served; all others are not found |
| Handlers.Lookup | src/server/handlers.rs:31-34 | a reader of the `json!` objects (not code of these lines): a key is found exactly when some field has it; it returns the first such field, which agrees with `json!` (last duplicate wins) only because the objects built here have distinct keys |
| Handlers.HealthCheck | src/server/handlers.rs:30-45 | 200, JSON, status "ok" and service "feathergate" |
| Handlers.ModelEntry | src/server/handlers.rs:52-58 | id is the model name, object "model", owned by "feathergate" |
| Handlers.ModelEntries | src/server/handlers.rs:49-59 | one entry per configured model, in order |
| Handlers.ListModels | src/server/handlers.rs:48-75 | 200, JSON object "list" whose data is exactly the model entries, one per registered model in order, each with id, object "model" and owned_by "feathergate" |
| Handlers.MetricsEndpoint | src/server/handlers.rs:78-91 | 200, plain text whose lines are the counter exposition, ending in a line feed and holding no carriage return |
| Handlers.NotFound | src/server/handlers.rs:232-241 | 404, no headers, body "Not Found" |
| Handlers.ErrorJson | src/server/handlers.rs:145-150 | one "error" object carrying the message and the type |
| Handlers.StatusFor | src/server/handlers.rs:152-159 | model not found 404, unsupported provider 400, upstream status when it is a valid code and 500 otherwise, all else 500 |
| Handlers.ValidationFailure | src/server/handlers.rs:105-121 | 400 JSON error of type "invalid_request_error" with the validation text |
| Handlers.RoutingFailure | src/server/handlers.rs:143-170 | the mapped status and a JSON error of type "feathergate_error" with the error text |
| Handlers.StreamFailure | src/server/handlers.rs:205-226 | 200 event stream whose body is the error frame then the done frame |
| Handlers.StreamOpened | src/server/handlers.rs:183-203 | 200 event stream carrying the provider stream, with exactly the headers Content-Type text/event-stream, Cache-Control no-cache, Connection keep-alive and X-Accel-Buffering no |
| Handlers.ChatCompletionsStream | src/server/handlers.rs:175-229 | always 200; counted a success exactly when the route succeeds, and then answers with `StreamOpened` of that stream (all four streaming headers); otherwise the error stream |
| Handlers.ChatCompletions | src/server/handlers.rs:94-172 | invalid requests are answered 400 and never counted or routed; only stream == true takes the streaming path; others answer the route's response or its error |
| Handlers.HandleRequest | src/server/handlers.rs:16-27 | each page gets its response; a body that fails to decode is an error; the counters move by exactly the tally and stay balanced |
| Handlers.InvalidRequestNeverRouted | src/server/handlers.rs:105-121 | for an invalid request the answer does not depend on the configuration or the adapters |
| Handlers.UnknownModelAnswers | src/server/handlers.rs:152-153 | a valid request for an unknown model is counted a failure; the blocking path answers 404, the streaming path the in-stream `ModelNotFound` error |
| Handlers.StreamFailureReadsBack | src/server/handlers.rs:215 | the error stream reads back as the error frame then the done frame, nothing left over |

## Left out

- Network I/O: HTTP sends, the shared clients and the response byte streams are not modelled. The exchange is a `send` parameter that answers with a status and body, or a transport failure, and a stream is the sequence of deliveries it yields.
- A failure of `response.text()` while reading an error body is not modelled; that body is always a string.
- A failure of the final `response.json()` is folded into the decode parameter; its error becomes `HttpError` with the decoder's text.
- serde encoding and decoding are parameters (`decode`, `decodeEvent`, `decodeChunk`, `serialize`, `render`), because they are a foreign library. `Types.ChatRequest` holds only the fields the logic reads.
- `SystemTime::now()` (the `created` field) and `Uuid::new_v4()` are parameters, because they are non-deterministic.
- `String::from_utf8_lossy` is not modelled: deliveries are taken as already-decoded strings.
- `Config::from_file` and `replace_env_vars` are not modelled, because they do file I/O, YAML parsing, environment reads and regex matching.
- The server's accept loop, signal handling and shutdown are not modelled, because they are concurrency and I/O.
- Atomics and the `global_metrics` singleton are not modelled. `Handlers.HandleRequest` takes the counters as an argument, and their updates are sequential.
- `temperature` and `top_p` are reals, not `f32`: NaN, which the source's range checks reject, is not represented. The refusal text formats the value through the `showFloat` parameter.
- `to_sse_bytes` is not modelled, because it only turns a string into its bytes and strings are the model's byte type.
- Anthropic.ConvertResponse: the u32 sum of input and output tokens wraps modulo 2^32 as in a release build; the panic of a debug build on overflow is not modelled.
- Handlers.HandleRequest: a body that fails to decode is returned as the error string, not as hyper's error response; how the server renders that error is not part of this model.
- The trait in `src/providers/mod.rs`, the module list in `src/lib.rs`, the benchmarks, the integration test and the Python client are not part of this model, because they hold no core logic.
