/** The Gemini adapter: translation of the canonical request into a
    `generateContent` request (system prompt folded into the first user
    turn), of the response back, and of the event stream into OpenAI-style
    chunks. JSON decoding (`decode`, `decodeChunk`), the uuid drawn for an id
    and the clock reading `created` are parameters. */
module Gemini {
  import opened Wrappers
  import opened Ints
  import opened Text
  import opened Errors
  import opened Types
  import opened Configuration
  import opened Upstream
  import opened SseFrames
  import opened ChunkFormat
  import opened FrameLoop

  const DefaultBase := "https://generativelanguage.googleapis.com"
  const ErrorHeading := "Gemini API 错误: "
  const NoCandidatesMessage := "Gemini 响应中没有 candidates"
  const IdPrefix := "chatcmpl-"

  datatype GeminiPart = GeminiPart(text: string)
  datatype GeminiContent = GeminiContent(role: string, parts: seq<GeminiPart>)

  datatype GenerationConfig = GenerationConfig(
    temperature: Option<real>,
    maxOutputTokens: Option<u32>,
    topP: Option<real>)

  datatype GeminiRequest = GeminiRequest(contents: seq<GeminiContent>, generationConfig: Option<GenerationConfig>)

  datatype Candidate = Candidate(parts: seq<GeminiPart>, finishReason: Option<string>)
  datatype UsageMetadata = UsageMetadata(promptTokenCount: u32, candidatesTokenCount: u32, totalTokenCount: u32)
  datatype GeminiResponse = GeminiResponse(candidates: seq<Candidate>, usageMetadata: Option<UsageMetadata>)

  // ---------------------------------------------------------------------------
  // convert_request

  /** Gemini calls the assistant "model"; every other role is kept. */
  function GeminiRole(role: string): (r: string)
    ensures role == "assistant" ==> r == "model"
    ensures role != "assistant" ==> r == role
  {
    if role == "assistant" then "model" else role
  }

  /** One turn per message, its text as the only part. */
  function Turn(m: Message): GeminiContent {
    GeminiContent(GeminiRole(m.role), [GeminiPart(m.content)])
  }

  /** The loop state of `convert_request`: the turns so far and the system
      text still waiting to be merged. */
  datatype Fold = Fold(contents: seq<GeminiContent>, pending: Option<string>)

  const Start := Fold([], None)

  /** One iteration: a system message (re)sets the pending text; any other
      message becomes a turn, and the very first turn, when it is a user turn,
      takes the pending text in front of its own, separated by a blank line. */
  function Step(f: Fold, m: Message): (g: Fold)
    ensures IsSystem(m) ==> g == Fold(f.contents, Some(m.content))
    ensures !IsSystem(m) ==> |g.contents| == |f.contents| + 1 && g.contents[..|f.contents|] == f.contents
    ensures !IsSystem(m) ==> g.contents[|f.contents|].role == GeminiRole(m.role)
  {
    if IsSystem(m) then Fold(f.contents, Some(m.content))
    else
      var role := GeminiRole(m.role);
      if role == "user" && f.pending.Some? && f.contents == [] then
        Fold(f.contents + [GeminiContent(role, [GeminiPart(f.pending.value + "\n\n" + m.content)])], None)
      else
        Fold(f.contents + [GeminiContent(role, [GeminiPart(m.content)])], f.pending)
  }

  /** The loop run over a list of messages, from a given state: the turns
      already made are kept, every non-system message adds exactly one turn,
      and no turn is ever given the role "system". */
  function Run(f: Fold, ms: seq<Message>): (g: Fold)
    ensures |f.contents| <= |g.contents| <= |f.contents| + |ms|
    ensures g.contents[..|f.contents|] == f.contents
    ensures (forall i :: 0 <= i < |ms| ==> !IsSystem(ms[i])) ==> |g.contents| == |f.contents| + |ms|
    ensures (forall i :: 0 <= i < |f.contents| ==> f.contents[i].role != "system") ==>
              forall i :: 0 <= i < |g.contents| ==> g.contents[i].role != "system"
  {
    if ms == [] then f
    else
      var init := ms[..|ms| - 1];
      assert forall i :: 0 <= i < |init| ==> init[i] == ms[i];
      var h := Run(f, init);
      var g := Step(h, ms[|ms| - 1]);
      assert g.contents[..|f.contents|] == h.contents[..|f.contents|] by {
        assert g.contents[..|h.contents|] == h.contents;
      }
      g
  }

  /** The generation settings, sent only when at least one is given. */
  function GenerationConfigOf(req: ChatRequest): (r: Option<GenerationConfig>)
    ensures r.Some? <==> req.temperature.Some? || req.maxTokens.Some? || req.topP.Some?
    ensures r.Some? ==> r.value == GenerationConfig(req.temperature, req.maxTokens, req.topP)
  {
    if req.temperature.Some? || req.maxTokens.Some? || req.topP.Some? then
      Some(GenerationConfig(req.temperature, req.maxTokens, req.topP))
    else None
  }

  /** The request `convert_request` builds. */
  function GeminiBody(req: ChatRequest): (r: GeminiRequest)
    ensures r.generationConfig.Some? <==> req.temperature.Some? || req.maxTokens.Some? || req.topP.Some?
    ensures |r.contents| <= |req.messages| && forall i :: 0 <= i < |r.contents| ==> r.contents[i].role != "system"
    ensures (forall i :: 0 <= i < |req.messages| ==> !IsSystem(req.messages[i])) ==> |r.contents| == |req.messages|
  {
    GeminiRequest(Run(Start, req.messages).contents, GenerationConfigOf(req))
  }

  /** `convert_request` */
  method ConvertRequest(req: ChatRequest) returns (out: GeminiRequest)
    ensures out == GeminiBody(req)
  {
    var contents: seq<GeminiContent> := [];
    var systemContent: Option<string> := None;
    for i := 0 to |req.messages|
      invariant Fold(contents, systemContent) == Run(Start, req.messages[..i])
    {
      var msg := req.messages[i];
      assert req.messages[..i + 1][..i] == req.messages[..i];
      if msg.role == "system" {
        systemContent := Some(msg.content);
      } else {
        var role := if msg.role == "assistant" then "model" else msg.role;
        var text := msg.content;
        if role == "user" && systemContent.Some? && contents == [] {
          text := systemContent.value + "\n\n" + text;
          systemContent := None;
        }
        contents := contents + [GeminiContent(role, [GeminiPart(text)])];
      }
    }
    assert req.messages[..|req.messages|] == req.messages;
    var config: Option<GenerationConfig> := None;
    if req.temperature.Some? || req.maxTokens.Some? || req.topP.Some? {
      config := Some(GenerationConfig(req.temperature, req.maxTokens, req.topP));
    }
    out := GeminiRequest(contents, config);
  }

  /** Reference definition: the turns of the non-system messages, in order,
      each as it is. */
  function Turns(ms: seq<Message>): seq<GeminiContent> {
    if ms == [] then []
    else Turns(ms[..|ms| - 1]) + (if IsSystem(ms[|ms| - 1]) then [] else [Turn(ms[|ms| - 1])])
  }

  /** The first turn: its text carries the last of the leading system
      messages when it is a user turn and there is one. */
  function FirstTurn(systems: seq<Message>, first: Message): (t: GeminiContent)
    ensures t.role == GeminiRole(first.role) && |t.parts| == 1
  {
    if first.role == "user" && systems != [] then
      GeminiContent("user", [GeminiPart(systems[|systems| - 1].content + "\n\n" + first.content)])
    else Turn(first)
  }

  lemma {:induction false} RunConcat(f: Fold, a: seq<Message>, b: seq<Message>)
    ensures Run(f, a + b) == Run(Run(f, a), b)
    decreases |b|
  {
    if b == [] {
      assert a + b == a;
    } else {
      var ab := a + b;
      assert ab[..|ab| - 1] == a + b[..|b| - 1];
      assert ab[|ab| - 1] == b[|b| - 1];
      RunConcat(f, a, b[..|b| - 1]);
      RunStep(f, ab);
      RunStep(Run(f, a), b);
    }
  }

  lemma RunStep(f: Fold, ms: seq<Message>)
    requires ms != []
    ensures Run(f, ms) == Step(Run(f, ms[..|ms| - 1]), ms[|ms| - 1])
  {
  }

  /** Before the first turn only system messages have been seen: no turns,
      and the last of them waits. */
  lemma {:induction false} RunOverSystems(systems: seq<Message>)
    requires forall i :: 0 <= i < |systems| ==> IsSystem(systems[i])
    ensures Run(Start, systems) ==
              Fold([], if systems == [] then None else Some(systems[|systems| - 1].content))
  {
    if systems != [] {
      RunOverSystems(systems[..|systems| - 1]);
    }
  }

  /** After the first turn, the loop only appends turns as they are. */
  lemma {:induction false} RunAfterFirstTurn(f: Fold, rest: seq<Message>)
    requires f.contents != []
    ensures Run(f, rest).contents == f.contents + Turns(rest)
  {
    if rest != [] {
      RunAfterFirstTurn(f, rest[..|rest| - 1]);
      var g := Run(f, rest[..|rest| - 1]);
      assert g.contents != [] by {
        assert |g.contents| >= |f.contents|;
      }
    }
  }

  /** What `convert_request` produces for a conversation that opens with
      system messages: the first turn (carrying the system text when it is a
      user turn) and then every later non-system message as it is. */
  lemma FirstTurnCarriesSystemPrompt(systems: seq<Message>, first: Message, rest: seq<Message>)
    requires forall i :: 0 <= i < |systems| ==> IsSystem(systems[i])
    requires !IsSystem(first)
    ensures Run(Start, systems + [first] + rest).contents == [FirstTurn(systems, first)] + Turns(rest)
  {
    RunConcat(Start, systems + [first], rest);
    RunConcat(Start, systems, [first]);
    RunOverSystems(systems);
    assert [first][..0] == [];
    var f := Run(Start, systems + [first]);
    assert f.contents == [FirstTurn(systems, first)];
    RunAfterFirstTurn(f, rest);
  }

  /** A conversation of system messages only has no turns at all. */
  lemma OnlySystemsGiveNoTurns(systems: seq<Message>)
    requires forall i :: 0 <= i < |systems| ==> IsSystem(systems[i])
    ensures Run(Start, systems).contents == []
  {
    RunOverSystems(systems);
  }

  /** A system message after the first turn is dropped: it changes nothing
      in the request. */
  lemma LateSystemMessageDropped(ms: seq<Message>, sys: Message, rest: seq<Message>)
    requires Run(Start, ms).contents != []
    requires IsSystem(sys)
    ensures Run(Start, ms + [sys] + rest).contents == Run(Start, ms).contents + Turns(rest)
  {
    RunConcat(Start, ms + [sys], rest);
    RunConcat(Start, ms, [sys]);
    assert [sys][..0] == [];
    RunAfterFirstTurn(Run(Start, ms + [sys]), rest);
  }

  // ---------------------------------------------------------------------------
  // convert_response

  function PartTexts(parts: seq<GeminiPart>): (r: seq<string>)
    ensures |r| == |parts| && forall i :: 0 <= i < |r| ==> r[i] == parts[i].text
  {
    if parts == [] then [] else [parts[0].text] + PartTexts(parts[1..])
  }

  /** The blocking finish reason: the two known reasons are renamed, any
      other passes through. */
  function MapFinishReason(reason: string): (r: string)
    ensures reason == "STOP" ==> r == "stop"
    ensures reason == "MAX_TOKENS" ==> r == "length"
    ensures reason != "STOP" && reason != "MAX_TOKENS" ==> r == reason
  {
    if reason == "STOP" then "stop"
    else if reason == "MAX_TOKENS" then "length"
    else reason
  }

  /** `convert_response`: no candidate is an internal error; otherwise the
      first candidate's parts, joined, are the one assistant choice. */
  function ConvertResponse(resp: GeminiResponse, model: string, uuid: string, created: u64): (r: Result<ChatResponse, GatewayError>)
    ensures r.Err? <==> resp.candidates == []
    ensures r.Err? ==> r.error == InternalError(NoCandidatesMessage)
    ensures r.Ok? ==>
              var c := resp.candidates[0];
              && r.value.id == IdPrefix + uuid && r.value.objectKind == "chat.completion"
              && r.value.created == created && r.value.model == model
              && |r.value.choices| == 1 && r.value.choices[0].index == 0
              && r.value.choices[0].message == AssistantMessage(Concat(PartTexts(c.parts)))
              && (c.finishReason.None? ==> r.value.choices[0].finishReason.None?)
              && (c.finishReason.Some? ==> r.value.choices[0].finishReason == Some(MapFinishReason(c.finishReason.value)))
              && (resp.usageMetadata.None? <==> r.value.usage.None?)
              && (resp.usageMetadata.Some? ==>
                    var m := resp.usageMetadata.value;
                    r.value.usage == Some(Usage(m.promptTokenCount, m.candidatesTokenCount, m.totalTokenCount)))
  {
    if resp.candidates == [] then Err(Internal(NoCandidatesMessage))
    else
      var c := resp.candidates[0];
      var finish := match c.finishReason
        case None => None
        case Some(reason) => Some(MapFinishReason(reason));
      var usage := match resp.usageMetadata
        case None => None
        case Some(m) => Some(Usage(m.promptTokenCount, m.candidatesTokenCount, m.totalTokenCount));
      Ok(ChatResponse(IdPrefix + uuid, "chat.completion", created, model,
                      [Choice(0, AssistantMessage(Concat(PartTexts(c.parts))), finish)], usage))
  }

  /** Candidates after the first are ignored. */
  lemma OnlyFirstCandidateCounts(resp: GeminiResponse, more: seq<Candidate>, model: string, uuid: string, created: u64)
    requires resp.candidates != []
    ensures ConvertResponse(resp.(candidates := resp.candidates + more), model, uuid, created)
            == ConvertResponse(resp, model, uuid, created)
  {
    assert (resp.candidates + more)[0] == resp.candidates[0];
  }

  /** The parts' texts are joined with nothing in between: splitting a
      candidate's parts anywhere gives the same content. */
  lemma {:induction false} PartsJoinWithoutSeparator(a: seq<GeminiPart>, b: seq<GeminiPart>)
    ensures Concat(PartTexts(a + b)) == Concat(PartTexts(a)) + Concat(PartTexts(b))
  {
    assert PartTexts(a + b) == PartTexts(a) + PartTexts(b);
    ConcatAppend(PartTexts(a), PartTexts(b));
  }

  // ---------------------------------------------------------------------------
  // forward_request / forward_request_stream (HTTP as a parameter)

  function GeneratePath(modelId: string): string {
    "/v1beta/models/" + modelId + ":generateContent"
  }

  function StreamPath(modelId: string): string {
    "/v1beta/models/" + modelId + ":streamGenerateContent?alt=sse"
  }

  /** The URL names the model; the key is never part of it. */
  function RequestUrl(entry: ModelConfig, path: string): (r: string)
    ensures EndsWith(r, path)
    ensures entry.params.apiBase == "" ==> r == DefaultBase + path
    ensures entry.params.apiBase != "" ==> r == Endpoint(entry.params.apiBase, path)
  {
    EndpointOfPlainBase(DefaultBase, path);
    Endpoint(BaseUrl(entry.params.apiBase, DefaultBase), path)
  }

  /** The POST: the key travels in the `x-goog-api-key` header. */
  function BuildPost(entry: ModelConfig, path: string, body: GeminiRequest): (p: Post<GeminiRequest>)
    ensures p.url == RequestUrl(entry, path) && p.body == body
    ensures Header("x-goog-api-key", entry.params.apiKey) in p.headers
    ensures Header("Content-Type", "application/json") in p.headers
  {
    Post(RequestUrl(entry, path),
         [Header("Content-Type", "application/json"), Header("x-goog-api-key", entry.params.apiKey)],
         body)
  }

  /** `forward_request` */
  function ForwardRequest(entry: ModelConfig, req: ChatRequest, send: Post<GeminiRequest> -> Reply,
                          decode: string -> Result<GeminiResponse, string>, uuid: string, created: u64): (r: Result<ChatResponse, GatewayError>)
    ensures ParseModelString(entry.params.model).Err? ==> r == Err(ParseModelString(entry.params.model).error)
    ensures ParseModelString(entry.params.model).Ok? ==>
              var modelId := ParseModelString(entry.params.model).value.1;
              var reply := send(BuildPost(entry, GeneratePath(modelId), GeminiBody(req)));
              && (r.Ok? <==> reply.Answered? && IsSuccess(reply.status) && decode(reply.body).Ok?
                             && decode(reply.body).value.candidates != [])
              && (r.Ok? ==> Ok(r.value) == ConvertResponse(decode(reply.body).value, modelId, uuid, created))
              && (reply.Answered? && !IsSuccess(reply.status) ==>
                    r == Err(UpstreamFailure(reply.status, ErrorHeading, reply.body)))
  {
    match ParseModelString(entry.params.model)
    case Err(e) => Err(e)
    case Ok((_, modelId)) =>
      match Exchange(BuildPost(entry, GeneratePath(modelId), GeminiBody(req)), send, ErrorHeading, decode)
      case Err(e) => Err(e)
      case Ok(resp) => ConvertResponse(resp, modelId, uuid, created)
  }

  /** `forward_request_stream` up to the creation of the translating stream:
      on success, the model id the stream is built with. */
  function ForwardRequestStream(entry: ModelConfig, req: ChatRequest, send: Post<GeminiRequest> -> Reply): (r: Result<string, GatewayError>)
    ensures ParseModelString(entry.params.model).Err? ==> r == Err(ParseModelString(entry.params.model).error)
    ensures ParseModelString(entry.params.model).Ok? ==>
              var modelId := ParseModelString(entry.params.model).value.1;
              var reply := send(BuildPost(entry, StreamPath(modelId), GeminiBody(req)));
              && (r.Ok? <==> reply.Answered? && IsSuccess(reply.status))
              && (r.Ok? ==> r.value == modelId)
              && (reply.Answered? && !IsSuccess(reply.status) ==>
                    r == Err(UpstreamFailure(reply.status, ErrorHeading, reply.body)))
  {
    match ParseModelString(entry.params.model)
    case Err(e) => Err(e)
    case Ok((_, modelId)) =>
      match OpenStream(BuildPost(entry, StreamPath(modelId), GeminiBody(req)), send, ErrorHeading)
      case Err(e) => Err(e)
      case Ok(_) => Ok(modelId)
  }

  // ---------------------------------------------------------------------------
  // The stream (create_gemini_stream and its helpers)

  /** The streaming finish reason: only "MAX_TOKENS" becomes "length". */
  function StreamFinishReason(reason: string): (r: string)
    ensures r == "stop" || r == "length"
    ensures r == "length" <==> reason == "MAX_TOKENS"
  {
    if reason == "STOP" then "stop"
    else if reason == "MAX_TOKENS" then "length"
    else "stop"
  }

  /** `parse_gemini_chunk`: a payload that decodes and has a first candidate
      with a first part becomes a chunk carrying that part's text; the other
      parts and candidates are not looked at. */
  function ParseGeminiChunk(data: string, chunkId: string, modelId: string,
                            decodeChunk: string -> Option<GeminiResponse>, created: u64): (r: Option<string>)
    ensures r.Some? <==> decodeChunk(data).Some? && decodeChunk(data).value.candidates != []
                         && decodeChunk(data).value.candidates[0].parts != []
    ensures r.Some? ==>
              var c := decodeChunk(data).value.candidates[0];
              var finish := if c.finishReason.Some? then Some(StreamFinishReason(c.finishReason.value)) else None;
              r.value == ChunkFrame(chunkId, created, modelId, Some(c.parts[0].text), finish)
  {
    match decodeChunk(data)
    case None => None
    case Some(resp) =>
      if resp.candidates == [] || resp.candidates[0].parts == [] then None
      else
        var c := resp.candidates[0];
        var finish := match c.finishReason
          case None => None
          case Some(reason) => Some(StreamFinishReason(reason));
        Some(ChunkFrame(chunkId, created, modelId, Some(c.parts[0].text), finish))
  }

  /** One frame: it counts only when it starts with "data: " (a leading
      `event:` line makes it ignored). The stream keeps no state besides the
      buffer, hence the unit state. */
  function HandleFrame(frame: string, chunkId: string, modelId: string,
                       decodeChunk: string -> Option<GeminiResponse>, created: u64): (e: Emit<()>)
    ensures !StartsWith(frame, DataPrefix) ==> e.output.None?
    ensures StartsWith(frame, DataPrefix) ==>
              e.output == ParseGeminiChunk(frame[|DataPrefix|..], chunkId, modelId, decodeChunk, created)
  {
    match StripPrefix(frame, DataPrefix)
    case None => Emit(None, ())
    case Some(data) => Emit(ParseGeminiChunk(data, chunkId, modelId, decodeChunk, created), ())
  }

  function Handler(chunkId: string, modelId: string, decodeChunk: string -> Option<GeminiResponse>, created: u64): ((string, ()) -> Emit<()>) {
    (frame, u) => HandleFrame(frame, chunkId, modelId, decodeChunk, created)
  }

  class GeminiStream {
    var buffer: string
    /** One id for every chunk of the stream, drawn when it is created. */
    const chunkId: string
    const modelId: string
    const decodeChunk: string -> Option<GeminiResponse>

    /** `create_gemini_stream`: an empty buffer and the id "chatcmpl-<uuid>". */
    constructor (modelId: string, uuid: string, decodeChunk: string -> Option<GeminiResponse>)
      ensures buffer == "" && chunkId == IdPrefix + uuid
      ensures this.modelId == modelId && this.decodeChunk == decodeChunk
    {
      this.modelId := modelId;
      this.decodeChunk := decodeChunk;
      chunkId := IdPrefix + uuid;
      buffer := "";
    }

    /** `process_gemini_buffer`: cut frames off the front until one gives a
      chunk. */
    method ProcessBuffer(created: u64) returns (out: Option<string>)
      modifies this`buffer
      ensures Drained(out, buffer, ()) == Drain(old(buffer), (), Handler(chunkId, modelId, decodeChunk, created))
    {
      var handle := Handler(chunkId, modelId, decodeChunk, created);
      var pos := FindTerminator(buffer);
      while pos.Some?
        invariant pos == FindTerminator(buffer)
        invariant Drain(buffer, (), handle) == Drain(old(buffer), (), handle)
        decreases |buffer|
      {
        var line := buffer[..pos.value];
        buffer := buffer[pos.value + 2..];
        var data := StripPrefix(line, DataPrefix);
        if data.Some? {
          var chunk := ParseGeminiChunk(data.value, chunkId, modelId, decodeChunk, created);
          if chunk.Some? {
            return chunk;
          }
        }
        pos := FindTerminator(buffer);
      }
      out := None;
    }

    /** One upstream delivery: a transport error is passed on; bytes are
      appended and the buffer drained. */
    method Feed(delivery: Result<string, string>, created: u64) returns (out: Option<Result<string, GatewayError>>)
      modifies this`buffer
      ensures delivery.Err? ==> out == Some(Err(HttpError(delivery.error))) && buffer == old(buffer)
      ensures delivery.Ok? ==>
                var d := Drain(old(buffer) + delivery.value, (), Handler(chunkId, modelId, decodeChunk, created));
                && buffer == d.buffer
                && out == (if d.output.Some? then Some(Ok(d.output.value)) else None)
    {
      match delivery {
        case Err(e) =>
          out := Some(Err(HttpError(e)));
        case Ok(bytes) =>
          buffer := buffer + bytes;
          var chunk := ProcessBuffer(created);
          out := if chunk.Some? then Some(Ok(chunk.value)) else None;
      }
    }
  }

  /** A data frame whose payload decodes to a chunk is answered with that
      chunk at once, and what follows it stays buffered. */
  lemma DataFrameGivesChunk(payload: string, rest: string, chunkId: string, modelId: string,
                            decodeChunk: string -> Option<GeminiResponse>, created: u64)
    requires '\n' !in payload
    requires ParseGeminiChunk(payload, chunkId, modelId, decodeChunk, created).Some?
    ensures Drain(DataFrame(payload) + rest, (), Handler(chunkId, modelId, decodeChunk, created))
            == Drained(ParseGeminiChunk(payload, chunkId, modelId, decodeChunk, created), rest, ())
  {
    ReadDataFrame(payload, rest);
  }

  /** A frame that opens with an `event:` line yields nothing, even when its
      data line would decode: unlike the Anthropic stream, only frames that
      start with "data: " are read. */
  lemma EventLineFrameIgnored(eventName: string, payload: string, rest: string, chunkId: string, modelId: string,
                              decodeChunk: string -> Option<GeminiResponse>, created: u64)
    requires '\n' !in eventName && '\n' !in payload
    ensures var frame := "event: " + eventName + "\n" + DataPrefix + payload;
            Drain(frame + "\n\n" + rest, (), Handler(chunkId, modelId, decodeChunk, created))
            == Drain(rest, (), Handler(chunkId, modelId, decodeChunk, created))
  {
    var frame := "event: " + eventName + "\n" + DataPrefix + payload;
    assert frame[0] == 'e';
    assert !StartsWith(frame, DataPrefix);
    assert CleanFrame(frame) by {
      var s := frame + "\n";
      assert s == ("event: " + eventName) + "\n" + (DataPrefix + payload) + "\n";
      forall j | 0 <= j < |s| ensures !TerminatorAt(s, j) {
        if j < |"event: " + eventName| {
          assert s[j] == ("event: " + eventName)[j];
          assert s[j] != '\n';
        } else if j == |"event: " + eventName| {
          assert s[j + 1] == 'd';
        } else if j < |s| - 1 {
          assert s[j] == (DataPrefix + payload)[j - |"event: " + eventName| - 1];
          assert s[j] != '\n';
        }
      }
    }
    SilentFrameIsSkipped(frame, rest, (), Handler(chunkId, modelId, decodeChunk, created));
  }

  /** Every chunk a stream emits carries the stream's one id and model and
      has a content field. */
  lemma ChunksCarryStreamId(buffer: string, chunkId: string, modelId: string,
                            decodeChunk: string -> Option<GeminiResponse>, created: u64)
    ensures var d := Drain(buffer, (), Handler(chunkId, modelId, decodeChunk, created));
            d.output.Some? ==>
              exists content: string, finish: Option<string> ::
                d.output.value == ChunkFrame(chunkId, created, modelId, Some(content), finish)
  {
    var handle := Handler(chunkId, modelId, decodeChunk, created);
    var d := Drain(buffer, (), handle);
    if d.output.Some? {
      DrainOutputIsHandled(buffer, (), handle);
      var frame: string, u: () :| handle(frame, u).output == d.output;
      assert handle(frame, u) == HandleFrame(frame, chunkId, modelId, decodeChunk, created);
      FrameChunkCarriesStreamId(frame, chunkId, modelId, decodeChunk, created);
    }
  }

  /** What one frame yields, if anything, is a chunk under the stream's id. */
  lemma FrameChunkCarriesStreamId(frame: string, chunkId: string, modelId: string,
                                  decodeChunk: string -> Option<GeminiResponse>, created: u64)
    ensures var out := HandleFrame(frame, chunkId, modelId, decodeChunk, created).output;
            out.Some? ==>
              exists content: string, finish: Option<string> ::
                out.value == ChunkFrame(chunkId, created, modelId, Some(content), finish)
  {
    var out := HandleFrame(frame, chunkId, modelId, decodeChunk, created).output;
    if out.Some? {
      var data := frame[|DataPrefix|..];
      var c := decodeChunk(data).value.candidates[0];
      var finish := if c.finishReason.Some? then Some(StreamFinishReason(c.finishReason.value)) else None;
      assert out.value == ChunkFrame(chunkId, created, modelId, Some(c.parts[0].text), finish);
    }
  }
}
