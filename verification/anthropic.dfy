/** The Anthropic adapter: translation of the canonical request into a
    Messages API request, of the Messages API response back into a canonical
    response, and of the Messages API event stream into OpenAI-style chunks.
    JSON decoding is a parameter (`decode`, `decodeEvent`); the clock reading
    of a response or chunk is the parameter `created`. */
module Anthropic {
  import opened Wrappers
  import opened Ints
  import opened Text
  import opened Errors
  import opened Types
  import opened Configuration
  import opened Upstream
  import opened SseFrames
  import opened ChunkFormat
  import opened FrameLoop

  const DefaultBase := "https://api.anthropic.com"
  const MessagesPath := "/v1/messages"
  const ApiVersion := "2023-06-01"
  const ErrorHeading := "Anthropic API 错误: "
  const DefaultMaxTokens: u32 := 1024

  datatype AnthropicMessage = AnthropicMessage(role: string, content: string)

  datatype AnthropicRequest = AnthropicRequest(
    model: string,
    messages: seq<AnthropicMessage>,
    system: Option<string>,
    maxTokens: u32,
    temperature: Option<real>,
    stream: Option<bool>)

  datatype ContentBlock = ContentBlock(blockType: string, text: string)

  datatype AnthropicUsage = AnthropicUsage(inputTokens: u32, outputTokens: u32)

  datatype AnthropicResponse = AnthropicResponse(
    id: string,
    responseType: string,
    role: string,
    content: seq<ContentBlock>,
    model: string,
    stopReason: Option<string>,
    usage: AnthropicUsage)

  datatype DeltaData = TextDelta(text: string) | InputJsonDelta(partialJson: string)

  /** The event kinds of the Messages API stream. */
  datatype AnthropicEvent =
    | MessageStart(messageId: string, messageModel: string)
    | ContentBlockStart(index: u32, blockType: string)
    | ContentBlockDelta(index: u32, delta: DeltaData)
    | ContentBlockStop(index: u32)
    | MessageDelta(stopReason: Option<string>)
    | MessageStop
    | Ping
    | Error(message: string)

  // ---------------------------------------------------------------------------
  // convert_request / convert_request_stream

  function AsAnthropic(m: Message): AnthropicMessage {
    AnthropicMessage(m.role, m.content)
  }

  /** The non-system messages, in order, as Anthropic messages. */
  function NonSystem(ms: seq<Message>): (r: seq<AnthropicMessage>)
    ensures |r| <= |ms|
    ensures forall i :: 0 <= i < |r| ==> r[i].role != "system"
  {
    if ms == [] then []
    else
      var init := NonSystem(ms[..|ms| - 1]);
      if IsSystem(ms[|ms| - 1]) then init else init + [AsAnthropic(ms[|ms| - 1])]
  }

  /** Index of the last system message, if any. */
  function LastSystemIndex(ms: seq<Message>): (r: Option<nat>)
    ensures r.None? <==> forall i :: 0 <= i < |ms| ==> !IsSystem(ms[i])
    ensures r.Some? ==> r.value < |ms| && IsSystem(ms[r.value])
                        && forall j :: r.value < j < |ms| ==> !IsSystem(ms[j])
  {
    if ms == [] then None
    else if IsSystem(ms[|ms| - 1]) then Some(|ms| - 1)
    else
      assert forall i :: 0 <= i < |ms| - 1 ==> ms[..|ms| - 1][i] == ms[i];
      LastSystemIndex(ms[..|ms| - 1])
  }

  /** The content of the last system message, if any: each system message
      overwrites the one before. */
  function LastSystem(ms: seq<Message>): (r: Option<string>)
    ensures r.None? <==> forall i :: 0 <= i < |ms| ==> !IsSystem(ms[i])
    ensures r.Some? ==> r.value == ms[LastSystemIndex(ms).value].content
  {
    match LastSystemIndex(ms)
    case None => None
    case Some(k) => Some(ms[k].content)
  }

  /** The request `convert_request` (stream None) and `convert_request_stream`
      (stream Some(true)) build. */
  function AnthropicBody(req: ChatRequest, modelId: string, stream: Option<bool>): (r: AnthropicRequest)
    ensures r.model == modelId && r.stream == stream && r.temperature == req.temperature
    ensures req.maxTokens.Some? ==> r.maxTokens == req.maxTokens.value
    ensures req.maxTokens.None? ==> r.maxTokens == 1024
    ensures |r.messages| <= |req.messages| && forall i :: 0 <= i < |r.messages| ==> r.messages[i].role != "system"
    ensures r.system.None? <==> forall i :: 0 <= i < |req.messages| ==> !IsSystem(req.messages[i])
  {
    AnthropicRequest(modelId, NonSystem(req.messages), LastSystem(req.messages),
                     req.maxTokens.GetOr(DefaultMaxTokens), req.temperature, stream)
  }

  /** `convert_request`: one pass over the messages, keeping the others and
      overwriting the system text with each system message met. */
  method ConvertRequest(req: ChatRequest, modelId: string) returns (out: AnthropicRequest)
    ensures out == AnthropicBody(req, modelId, None)
    ensures out.maxTokens == (if req.maxTokens.Some? then req.maxTokens.value else 1024)
  {
    var system: Option<string> := None;
    var messages: seq<AnthropicMessage> := [];
    for i := 0 to |req.messages|
      invariant messages == NonSystem(req.messages[..i])
      invariant system == LastSystem(req.messages[..i])
    {
      var msg := req.messages[i];
      assert req.messages[..i + 1][..i] == req.messages[..i];
      if msg.role == "system" {
        system := Some(msg.content);
      } else {
        messages := messages + [AnthropicMessage(msg.role, msg.content)];
      }
    }
    assert req.messages[..|req.messages|] == req.messages;
    out := AnthropicRequest(modelId, messages, system, req.maxTokens.GetOr(DefaultMaxTokens), req.temperature, None);
  }

  /** `convert_request_stream`: the same request with `stream` set. */
  method ConvertRequestStream(req: ChatRequest, modelId: string) returns (out: AnthropicRequest)
    ensures out == AnthropicBody(req, modelId, Some(true))
  {
    out := ConvertRequest(req, modelId);
    out := out.(stream := Some(true));
  }

  /** Filtering distributes over concatenation, so the kept messages keep
      their relative order. */
  lemma {:induction false} NonSystemConcat(a: seq<Message>, b: seq<Message>)
    ensures NonSystem(a + b) == NonSystem(a) + NonSystem(b)
    decreases |b|
  {
    if b == [] {
      assert a + b == a;
    } else {
      var ab := a + b;
      assert ab[..|ab| - 1] == a + b[..|b| - 1];
      assert ab[|ab| - 1] == b[|b| - 1];
      NonSystemConcat(a, b[..|b| - 1]);
    }
  }

  /** A conversation without system messages is passed on message for
      message, role and content unchanged. */
  lemma {:induction false} NonSystemKeepsOthers(ms: seq<Message>)
    requires forall i :: 0 <= i < |ms| ==> !IsSystem(ms[i])
    ensures |NonSystem(ms)| == |ms|
    ensures forall i :: 0 <= i < |ms| ==> NonSystem(ms)[i] == AnthropicMessage(ms[i].role, ms[i].content)
  {
    if ms != [] {
      NonSystemKeepsOthers(ms[..|ms| - 1]);
    }
  }

  /** A system message anywhere removes exactly itself from the list. */
  lemma SystemMessageDropped(before: seq<Message>, sys: Message, after: seq<Message>)
    requires IsSystem(sys)
    ensures NonSystem(before + [sys] + after) == NonSystem(before) + NonSystem(after)
  {
    NonSystemConcat(before + [sys], after);
    NonSystemConcat(before, [sys]);
    assert NonSystem([sys]) == [] by {
      assert [sys][..0] == [];
    }
  }

  /** The last system message wins, wherever the earlier ones were. */
  lemma {:induction false} LastSystemConcat(a: seq<Message>, b: seq<Message>)
    ensures LastSystem(a + b) == if LastSystem(b).Some? then LastSystem(b) else LastSystem(a)
    decreases |b|
  {
    if b == [] {
      assert a + b == a;
    } else {
      var ab := a + b;
      assert ab[..|ab| - 1] == a + b[..|b| - 1];
      assert ab[|ab| - 1] == b[|b| - 1];
      LastSystemConcat(a, b[..|b| - 1]);
    }
  }

  // ---------------------------------------------------------------------------
  // convert_response

  /** The texts of the blocks typed "text", in order. */
  function TextsOf(blocks: seq<ContentBlock>): (r: seq<string>)
    ensures |r| <= |blocks|
  {
    if blocks == [] then []
    else (if blocks[0].blockType == "text" then [blocks[0].text] else []) + TextsOf(blocks[1..])
  }

  lemma {:induction false} TextsOfConcat(a: seq<ContentBlock>, b: seq<ContentBlock>)
    ensures TextsOf(a + b) == TextsOf(a) + TextsOf(b)
  {
    if a == [] {
      assert a + b == b;
    } else {
      var head := if a[0].blockType == "text" then [a[0].text] else [];
      assert (a + b)[0] == a[0] && (a + b)[1..] == a[1..] + b;
      assert TextsOf(a) == head + TextsOf(a[1..]);
      assert TextsOf(a + b) == head + TextsOf(a[1..] + b);
      TextsOfConcat(a[1..], b);
      assert head + (TextsOf(a[1..]) + TextsOf(b)) == (head + TextsOf(a[1..])) + TextsOf(b);
    }
  }

  /** Blocks of any other type (tool use, thinking) contribute nothing. */
  lemma TextsOfSkipsOtherBlocks(a: seq<ContentBlock>, other: ContentBlock, b: seq<ContentBlock>)
    requires other.blockType != "text"
    ensures Concat(TextsOf(a + [other] + b)) == Concat(TextsOf(a)) + Concat(TextsOf(b))
  {
    TextsOfConcat(a + [other], b);
    TextsOfConcat(a, [other]);
    assert TextsOf([other]) == [];
    assert TextsOf(a) + [] == TextsOf(a);
    ConcatAppend(TextsOf(a), TextsOf(b));
  }

  /** The non-streaming finish reason: the two known reasons are renamed,
      any other passes through. */
  function MapStopReason(reason: string): (r: string)
    ensures reason == "end_turn" ==> r == "stop"
    ensures reason == "max_tokens" ==> r == "length"
    ensures reason != "end_turn" && reason != "max_tokens" ==> r == reason
  {
    if reason == "end_turn" then "stop"
    else if reason == "max_tokens" then "length"
    else reason
  }

  /** Mapping a mapped reason again changes nothing. */
  lemma MapStopReasonIdempotent(reason: string)
    ensures MapStopReason(MapStopReason(reason)) == MapStopReason(reason)
  {
    assert "stop" != "end_turn" && "stop" != "max_tokens" by {
      assert "stop"[0] != "end_turn"[0] && "stop"[0] != "max_tokens"[0];
    }
    assert "length" != "end_turn" && "length" != "max_tokens" by {
      assert "length"[0] != "end_turn"[0] && "length"[0] != "max_tokens"[0];
    }
  }

  /** `convert_response`: one assistant choice carrying the text blocks in
      order, id and model copied, usage summed (as u32, wrapping). */
  function ConvertResponse(resp: AnthropicResponse, created: u64): (r: ChatResponse)
    ensures r.id == resp.id && r.model == resp.model && r.objectKind == "chat.completion" && r.created == created
    ensures |r.choices| == 1 && r.choices[0].index == 0
    ensures r.choices[0].message == AssistantMessage(Concat(TextsOf(resp.content)))
    ensures resp.stopReason.None? ==> r.choices[0].finishReason.None?
    ensures resp.stopReason.Some? ==> r.choices[0].finishReason == Some(MapStopReason(resp.stopReason.value))
    ensures r.usage.Some? && r.usage.value.promptTokens == resp.usage.inputTokens
            && r.usage.value.completionTokens == resp.usage.outputTokens
    ensures r.usage.value.totalTokens == WrappingAddU32(resp.usage.inputTokens, resp.usage.outputTokens)
    ensures resp.usage.inputTokens + resp.usage.outputTokens < 0x1_0000_0000 ==>
              r.usage.value.totalTokens == resp.usage.inputTokens + resp.usage.outputTokens
    ensures resp.usage.inputTokens + resp.usage.outputTokens >= 0x1_0000_0000 ==>
              r.usage.value.totalTokens == resp.usage.inputTokens + resp.usage.outputTokens - 0x1_0000_0000
  {
    var content := Concat(TextsOf(resp.content));
    var finish := match resp.stopReason
      case None => None
      case Some(reason) => Some(MapStopReason(reason));
    var u := resp.usage;
    ChatResponse(resp.id, "chat.completion", created, resp.model,
                 [Choice(0, AssistantMessage(content), finish)],
                 Some(Usage(u.inputTokens, u.outputTokens, WrappingAddU32(u.inputTokens, u.outputTokens))))
  }

  // ---------------------------------------------------------------------------
  // forward_request / forward_request_stream (HTTP as a parameter)

  function RequestUrl(entry: ModelConfig): (r: string)
    ensures EndsWith(r, MessagesPath)
    ensures entry.params.apiBase == "" ==> r == DefaultBase + MessagesPath
    ensures entry.params.apiBase != "" ==> r == Endpoint(entry.params.apiBase, MessagesPath)
  {
    EndpointOfPlainBase(DefaultBase, MessagesPath);
    Endpoint(BaseUrl(entry.params.apiBase, DefaultBase), MessagesPath)
  }

  /** The POST: the key travels in `x-api-key`, with the pinned API version. */
  function BuildPost(entry: ModelConfig, body: AnthropicRequest): (p: Post<AnthropicRequest>)
    ensures p.url == RequestUrl(entry) && p.body == body
    ensures Header("x-api-key", entry.params.apiKey) in p.headers
    ensures Header("anthropic-version", ApiVersion) in p.headers
  {
    Post(RequestUrl(entry),
         [Header("x-api-key", entry.params.apiKey), Header("anthropic-version", ApiVersion),
          Header("Content-Type", "application/json")],
         body)
  }

  /** `forward_request`: the model id comes from the entry's model string
      (a malformed one fails before anything is sent); the converted request
      is sent and a decoded reply is converted back. */
  function ForwardRequest(entry: ModelConfig, req: ChatRequest, send: Post<AnthropicRequest> -> Reply,
                          decode: string -> Result<AnthropicResponse, string>, created: u64): (r: Result<ChatResponse, GatewayError>)
    ensures ParseModelString(entry.params.model).Err? ==> r == Err(ParseModelString(entry.params.model).error)
    ensures ParseModelString(entry.params.model).Ok? ==>
              var reply := send(BuildPost(entry, AnthropicBody(req, ParseModelString(entry.params.model).value.1, None)));
              && (r.Ok? <==> reply.Answered? && IsSuccess(reply.status) && decode(reply.body).Ok?)
              && (r.Ok? ==> r.value == ConvertResponse(decode(reply.body).value, created))
              && (reply.Answered? && !IsSuccess(reply.status) ==>
                    r == Err(UpstreamFailure(reply.status, ErrorHeading, reply.body)))
  {
    match ParseModelString(entry.params.model)
    case Err(e) => Err(e)
    case Ok((_, modelId)) =>
      match Exchange(BuildPost(entry, AnthropicBody(req, modelId, None)), send, ErrorHeading, decode)
      case Err(e) => Err(e)
      case Ok(resp) => Ok(ConvertResponse(resp, created))
  }

  /** `forward_request_stream` up to the creation of the translating stream:
      on success, the model id the stream is built with. */
  function ForwardRequestStream(entry: ModelConfig, req: ChatRequest, send: Post<AnthropicRequest> -> Reply): (r: Result<string, GatewayError>)
    ensures ParseModelString(entry.params.model).Err? ==> r == Err(ParseModelString(entry.params.model).error)
    ensures ParseModelString(entry.params.model).Ok? ==>
              var modelId := ParseModelString(entry.params.model).value.1;
              var reply := send(BuildPost(entry, AnthropicBody(req, modelId, Some(true))));
              && (r.Ok? <==> reply.Answered? && IsSuccess(reply.status))
              && (r.Ok? ==> r.value == modelId)
              && (reply.Answered? && !IsSuccess(reply.status) ==>
                    r == Err(UpstreamFailure(reply.status, ErrorHeading, reply.body)))
  {
    match ParseModelString(entry.params.model)
    case Err(e) => Err(e)
    case Ok((_, modelId)) =>
      match OpenStream(BuildPost(entry, AnthropicBody(req, modelId, Some(true))), send, ErrorHeading)
      case Err(e) => Err(e)
      case Ok(_) => Ok(modelId)
  }

  // ---------------------------------------------------------------------------
  // The event table (convert_event_to_openai)

  /** The streaming finish reason: only "max_tokens" becomes "length";
      everything else, known or not, becomes "stop". */
  function StreamStopReason(reason: string): (r: string)
    ensures r == "stop" || r == "length"
    ensures r == "length" <==> reason == "max_tokens"
  {
    if reason == "end_turn" then "stop"
    else if reason == "max_tokens" then "length"
    else "stop"
  }

  /** On the two reasons both mappings know, they agree; on any other reason
      the blocking path passes it through while the stream says "stop". */
  lemma StopReasonMappingsAgree(reason: string)
    ensures reason == "end_turn" || reason == "max_tokens" ==> StreamStopReason(reason) == MapStopReason(reason)
    ensures reason != "end_turn" && reason != "max_tokens" ==>
              StreamStopReason(reason) == "stop" && MapStopReason(reason) == reason
  {
  }

  /** What one decoded event sends downstream, given the message id so far. */
  function EventOutput(ev: AnthropicEvent, messageId: string, modelId: string, created: u64): (r: Option<string>)
    ensures r.Some? <==> (ev.ContentBlockDelta? && ev.delta.TextDelta?) || (ev.MessageDelta? && ev.stopReason.Some?) || ev.MessageStop?
    ensures ev.MessageStop? ==> r == Some(DoneFrame)
    ensures ev.ContentBlockDelta? && ev.delta.TextDelta? ==>
              r == Some(ChunkFrame(messageId, created, modelId, Some(ev.delta.text), None))
    ensures ev.MessageDelta? && ev.stopReason.Some? ==>
              r == Some(ChunkFrame(messageId, created, modelId, None, Some(StreamStopReason(ev.stopReason.value))))
  {
    match ev
    case ContentBlockDelta(_, TextDelta(text)) => Some(ChunkFrame(messageId, created, modelId, Some(text), None))
    case MessageDelta(Some(reason)) => Some(ChunkFrame(messageId, created, modelId, None, Some(StreamStopReason(reason))))
    case MessageStop => Some(DoneFrame)
    case _ => None
  }

  /** The message id after an event: `message_start` replaces it, nothing
      else touches it. */
  function IdAfter(ev: AnthropicEvent, messageId: string): (r: string)
    ensures ev.MessageStart? ==> r == ev.messageId
    ensures !ev.MessageStart? ==> r == messageId
  {
    if ev.MessageStart? then ev.messageId else messageId
  }

  // ---------------------------------------------------------------------------
  // parse_sse_event

  /** Index of the last line starting with "data: ". */
  function LastDataIndex(lines: seq<string>): (r: Option<nat>)
    ensures r.None? <==> forall i :: 0 <= i < |lines| ==> !StartsWith(lines[i], DataPrefix)
    ensures r.Some? ==> r.value < |lines| && StartsWith(lines[r.value], DataPrefix)
                        && forall j :: r.value < j < |lines| ==> !StartsWith(lines[j], DataPrefix)
  {
    if lines == [] then None
    else if StartsWith(lines[|lines| - 1], DataPrefix) then Some(|lines| - 1)
    else
      assert forall i :: 0 <= i < |lines| - 1 ==> lines[..|lines| - 1][i] == lines[i];
      LastDataIndex(lines[..|lines| - 1])
  }

  /** The payload of the last data line: earlier data lines are overwritten. */
  function LastData(lines: seq<string>): (r: Option<string>)
    ensures r.None? <==> forall i :: 0 <= i < |lines| ==> !StartsWith(lines[i], DataPrefix)
    ensures r.Some? ==> var k := LastDataIndex(lines).value;
                        DataPrefix + r.value == lines[k]
  {
    match LastDataIndex(lines)
    case None => None
    case Some(k) => StripPrefix(lines[k], DataPrefix)
  }

  /** The event a frame carries, if its last data line decodes. */
  function FrameEvent(frame: string, decodeEvent: string -> Option<AnthropicEvent>): (r: Option<AnthropicEvent>)
    ensures LastData(Lines(frame)).None? ==> r.None?
    ensures LastData(Lines(frame)).Some? ==> r == decodeEvent(LastData(Lines(frame)).value)
  {
    match LastData(Lines(frame))
    case None => None
    case Some(data) => decodeEvent(data)
  }

  /** Handling of one frame: a frame without a decodable event is dropped
      and changes nothing. */
  function HandleFrame(frame: string, messageId: string, modelId: string,
                       decodeEvent: string -> Option<AnthropicEvent>, created: u64): (e: Emit<string>)
    ensures FrameEvent(frame, decodeEvent).None? ==> e == Emit(None, messageId)
    ensures FrameEvent(frame, decodeEvent).Some? ==>
              var ev := FrameEvent(frame, decodeEvent).value;
              e == Emit(EventOutput(ev, messageId, modelId, created), IdAfter(ev, messageId))
  {
    match FrameEvent(frame, decodeEvent)
    case None => Emit(None, messageId)
    case Some(ev) => Emit(EventOutput(ev, messageId, modelId, created), IdAfter(ev, messageId))
  }

  function Handler(modelId: string, decodeEvent: string -> Option<AnthropicEvent>, created: u64): (string, string) -> Emit<string> {
    (frame, messageId) => HandleFrame(frame, messageId, modelId, decodeEvent, created)
  }

  // ---------------------------------------------------------------------------
  // The translating stream (create_anthropic_stream and its helpers)

  class AnthropicStream {
    var buffer: string
    var messageId: string
    const modelId: string
    const decodeEvent: string -> Option<AnthropicEvent>

    /** The state `create_anthropic_stream` starts from. */
    constructor (modelId: string, decodeEvent: string -> Option<AnthropicEvent>)
      ensures buffer == "" && messageId == ""
      ensures this.modelId == modelId && this.decodeEvent == decodeEvent
    {
      this.modelId := modelId;
      this.decodeEvent := decodeEvent;
      buffer := "";
      messageId := "";
    }

    /** `convert_event_to_openai` */
    method ConvertEventToOpenai(ev: AnthropicEvent, created: u64) returns (out: Option<string>)
      modifies this`messageId
      ensures out == EventOutput(ev, old(messageId), modelId, created)
      ensures messageId == IdAfter(ev, old(messageId))
    {
      match ev {
        case MessageStart(id, _) =>
          messageId := id;
          out := None;
        case ContentBlockDelta(_, delta) =>
          if delta.TextDelta? {
            out := Some(ChunkFrame(messageId, created, modelId, Some(delta.text), None));
          } else {
            out := None;
          }
        case MessageDelta(stopReason) =>
          var finish := match stopReason
            case Some(r) => Some(StreamStopReason(r))
            case None => None;
          if finish.Some? {
            out := Some(ChunkFrame(messageId, created, modelId, None, finish));
          } else {
            out := None;
          }
        case MessageStop =>
          out := Some(DoneFrame);
        case _ =>
          out := None;
      }
    }

    /** `parse_sse_event`: keep the payload of the last data line, decode it,
      and translate the event. */
    method ParseSseEvent(frame: string, created: u64) returns (out: Option<string>)
      modifies this`messageId
      ensures Emit(out, messageId) == HandleFrame(frame, old(messageId), modelId, decodeEvent, created)
    {
      var lines := Lines(frame);
      var dataLine: Option<string> := None;
      for i := 0 to |lines|
        invariant dataLine == LastData(lines[..i])
      {
        assert lines[..i + 1][..i] == lines[..i];
        var data := StripPrefix(lines[i], DataPrefix);
        if data.Some? {
          dataLine := data;
        }
      }
      assert lines[..|lines|] == lines;
      if dataLine.None? {
        return None;
      }
      var ev := decodeEvent(dataLine.value);
      if ev.None? {
        return None;
      }
      out := ConvertEventToOpenai(ev.value, created);
    }

    /** `process_sse_buffer`: cut frames off the front until one produces
      output; `created` is the clock reading for the chunk it may build. */
    method ProcessBuffer(created: u64) returns (out: Option<string>)
      modifies this`buffer, this`messageId
      ensures Drained(out, buffer, messageId) == Drain(old(buffer), old(messageId), Handler(modelId, decodeEvent, created))
    {
      var handle := Handler(modelId, decodeEvent, created);
      var pos := FindTerminator(buffer);
      while pos.Some?
        invariant pos == FindTerminator(buffer)
        invariant Drain(buffer, messageId, handle) == Drain(old(buffer), old(messageId), handle)
        decreases |buffer|
      {
        var frame := buffer[..pos.value];
        buffer := buffer[pos.value + 2..];
        out := ParseSseEvent(frame, created);
        if out.Some? {
          return;
        }
        pos := FindTerminator(buffer);
      }
      out := None;
    }

    /** One upstream delivery (lines 338-347): a transport error is passed on
      without touching the state; bytes are appended and the buffer drained. */
    method Feed(delivery: Result<string, string>, created: u64) returns (out: Option<Result<string, GatewayError>>)
      modifies this`buffer, this`messageId
      ensures delivery.Err? ==>
                out == Some(Err(HttpError(delivery.error))) && buffer == old(buffer) && messageId == old(messageId)
      ensures delivery.Ok? ==>
                var d := Drain(old(buffer) + delivery.value, old(messageId), Handler(modelId, decodeEvent, created));
                && buffer == d.buffer && messageId == d.state
                && out == (if d.output.Some? then Some(Ok(d.output.value)) else None)
    {
      match delivery {
        case Err(e) =>
          out := Some(Err(HttpError(e)));
        case Ok(bytes) =>
          buffer := buffer + bytes;
          var chunk := ProcessBuffer(created);
          out := if chunk.Some? then Some(Ok(chunk.value)) else None;
      }
    }
  }

  // ---------------------------------------------------------------------------
  // Properties of the stream

  /** A frame as the Messages API writes it, an `event:` line then a `data:`
      line, is read by its data line. */
  lemma {:induction false} EventLineThenDataLine(eventName: string, payload: string)
    requires '\n' !in eventName && '\n' !in payload
    ensures LastData(Lines("event: " + eventName + "\n" + DataPrefix + payload)) == Some(payload)
  {
    var first := "event: " + eventName;
    var second := DataPrefix + payload;
    assert '\n' !in first by {
      assert '\n' !in "event: ";
    }
    assert '\n' !in second by {
      assert '\n' !in DataPrefix;
    }
    assert "event: " + eventName + "\n" + DataPrefix + payload == first + "\n" + second;
    LinesOfTwo(first, second);
    var lines := [StripCr(first), second];
    assert StartsWith(second, DataPrefix) by {
      assert second[..|DataPrefix|] == DataPrefix;
    }
    assert LastDataIndex(lines) == Some(1);
    assert StripPrefix(second, DataPrefix) == Some(payload) by {
      assert second[|DataPrefix|..] == payload;
    }
  }

  /** A message's stream, one frame per event, turns into the text chunks
      under the id from `message_start`, the finish chunk, then the done
      marker: here, two successive deliveries of a text delta and of the
      end of the message, after the start. */
  lemma {:induction false} TextDeltaUsesStartedId(startFrame: string, deltaFrame: string, rest: string,
                                                  id: string, model: string, text: string,
                                                  modelId: string, decodeEvent: string -> Option<AnthropicEvent>,
                                                  created: u64, messageId: string)
    requires CleanFrame(startFrame) && CleanFrame(deltaFrame)
    requires FrameEvent(startFrame, decodeEvent) == Some(MessageStart(id, model))
    requires FrameEvent(deltaFrame, decodeEvent) == Some(ContentBlockDelta(0, TextDelta(text)))
    ensures Drain(startFrame + "\n\n" + deltaFrame + "\n\n" + rest, messageId, Handler(modelId, decodeEvent, created))
            == Drained(Some(ChunkFrame(id, created, modelId, Some(text), None)), rest, id)
  {
    var handle := Handler(modelId, decodeEvent, created);
    var later := deltaFrame + "\n\n" + rest;
    assert startFrame + "\n\n" + deltaFrame + "\n\n" + rest == startFrame + "\n\n" + later;
    HandlerOnEvent(startFrame, messageId, modelId, decodeEvent, created, MessageStart(id, model));
    SilentFrameIsSkipped(startFrame, later, messageId, handle);
    HandlerOnEvent(deltaFrame, id, modelId, decodeEvent, created, ContentBlockDelta(0, TextDelta(text)));
    OutputLeavesLaterFrames(deltaFrame, rest, id, handle);
  }

  /** The handler applied to a frame that carries a decoded event. */
  lemma HandlerOnEvent(frame: string, messageId: string, modelId: string,
                       decodeEvent: string -> Option<AnthropicEvent>, created: u64, ev: AnthropicEvent)
    requires FrameEvent(frame, decodeEvent) == Some(ev)
    ensures Handler(modelId, decodeEvent, created)(frame, messageId)
            == Emit(EventOutput(ev, messageId, modelId, created), IdAfter(ev, messageId))
  {
  }

  /** At most one chunk per delivery: two text deltas arriving together give
      only the first chunk, and the second frame waits in the buffer for the
      next delivery. */
  lemma TwoDeltasInOneDelivery(first: string, second: string, t1: string, t2: string,
                               modelId: string, decodeEvent: string -> Option<AnthropicEvent>,
                               created: u64, messageId: string)
    requires CleanFrame(first) && CleanFrame(second)
    requires FrameEvent(first, decodeEvent) == Some(ContentBlockDelta(0, TextDelta(t1)))
    requires FrameEvent(second, decodeEvent) == Some(ContentBlockDelta(0, TextDelta(t2)))
    ensures Drain(first + "\n\n" + second + "\n\n", messageId, Handler(modelId, decodeEvent, created))
            == Drained(Some(ChunkFrame(messageId, created, modelId, Some(t1), None)), second + "\n\n", messageId)
  {
    var handle := Handler(modelId, decodeEvent, created);
    assert first + "\n\n" + second + "\n\n" == first + "\n\n" + (second + "\n\n");
    HandlerOnEvent(first, messageId, modelId, decodeEvent, created, ContentBlockDelta(0, TextDelta(t1)));
    OutputLeavesLaterFrames(first, second + "\n\n", messageId, handle);
  }
}
