/** The canonical (OpenAI-shaped) wire types: chat request, message, response,
    stream chunk; request validation, the message constructors and
    `ChatResponse::simple`. `f32` fields are modelled as `real`. */
module Types {
  import opened Wrappers
  import opened Ints
  import opened Text

  datatype Message = Message(role: string, content: string)

  /** A system message, which the providers that take the system prompt
      apart from the turns handle specially. */
  predicate IsSystem(m: Message) {
    m.role == "system"
  }

  datatype ChatRequest = ChatRequest(
    model: string,
    messages: seq<Message>,
    temperature: Option<real>,
    maxTokens: Option<u32>,
    stream: Option<bool>,
    topP: Option<real>)

  datatype Usage = Usage(promptTokens: u32, completionTokens: u32, totalTokens: u32)

  datatype Choice = Choice(index: u32, message: Message, finishReason: Option<string>)

  datatype ChatResponse = ChatResponse(
    id: string,
    objectKind: string,
    created: u64,
    model: string,
    choices: seq<Choice>,
    usage: Option<Usage>)

  datatype Delta = Delta(role: Option<string>, content: Option<string>)

  datatype StreamChoice = StreamChoice(index: u32, delta: Delta, finishReason: Option<string>)

  datatype ChatStreamChunk = ChatStreamChunk(
    id: string,
    objectKind: string,
    created: u64,
    model: string,
    choices: seq<StreamChoice>)

  // ---------------------------------------------------------------------------
  // Message constructors

  /** `Message::user` */
  function UserMessage(content: string): (m: Message)
    ensures m.role == "user" && m.content == content
  {
    Message("user", content)
  }

  /** `Message::assistant` */
  function AssistantMessage(content: string): (m: Message)
    ensures m.role == "assistant" && m.content == content
  {
    Message("assistant", content)
  }

  /** `Message::system` */
  function SystemMessage(content: string): (m: Message)
    ensures m.role == "system" && m.content == content
  {
    Message("system", content)
  }

  /** The three constructors give three different roles, so a message's role
      tells which constructor made it. */
  lemma ConstructorsDistinct(a: string, b: string)
    ensures UserMessage(a) != AssistantMessage(b)
    ensures UserMessage(a) != SystemMessage(b)
    ensures AssistantMessage(a) != SystemMessage(b)
  {
    assert "user"[0] != "assistant"[0];
    assert "user"[0] != "system"[0];
    assert "assistant"[0] != "system"[0];
  }

  // ---------------------------------------------------------------------------
  // ChatResponse::simple

  /** `ChatResponse::simple(model, content)`; the uuid-based id and the clock
      reading are parameters. */
  function SimpleResponse(model: string, content: string, id: string, created: u64): (r: ChatResponse)
    ensures r.objectKind == "chat.completion" && r.model == model && r.id == id
    ensures |r.choices| == 1 && r.choices[0].index == 0
    ensures r.choices[0].message == AssistantMessage(content)
    ensures r.choices[0].finishReason == Some("stop")
    ensures r.usage.None?
  {
    ChatResponse(id, "chat.completion", created, model,
                 [Choice(0, AssistantMessage(content), Some("stop"))], None)
  }

  // ---------------------------------------------------------------------------
  // ChatRequest::validate

  /** Why a request was refused; `Describe` gives the text the gateway sends. */
  datatype ValidationError =
    | TemperatureOutOfRange(temperature: real)
    | TopPOutOfRange(topP: real)
    | EmptyMessages
  {
    /** The refusal text; `showFloat` stands for Rust's `f32` formatting. It
        names the parameter that failed and ends with the rejected value. */
    function Describe(showFloat: real -> string): (r: string)
      ensures TemperatureOutOfRange? ==> StartsWith(r, "temperature ") && EndsWith(r, showFloat(temperature))
      ensures TopPOutOfRange? ==> StartsWith(r, "top_p ") && EndsWith(r, showFloat(topP))
      ensures EmptyMessages? ==> StartsWith(r, "messages ")
    {
      var r := match this
        case TemperatureOutOfRange(t) => "temperature 必须在 0.0 到 2.0 之间，当前值: " + showFloat(t)
        case TopPOutOfRange(p) => "top_p 必须在 0.0 到 1.0 之间，当前值: " + showFloat(p)
        case EmptyMessages => "messages 不能为空";
      assert TemperatureOutOfRange? ==> r[|r| - |showFloat(temperature)|..] == showFloat(temperature);
      assert TopPOutOfRange? ==> r[|r| - |showFloat(topP)|..] == showFloat(topP);
      r
    }
  }

  /** Refusals of different kinds never read alike, whatever the float
      formatting: the text tells which check failed. */
  lemma DescribeTellsKind(e1: ValidationError, e2: ValidationError, showFloat: real -> string)
    requires e1.Describe(showFloat) == e2.Describe(showFloat)
    ensures e1.TemperatureOutOfRange? <==> e2.TemperatureOutOfRange?
    ensures e1.TopPOutOfRange? <==> e2.TopPOutOfRange?
    ensures e1.EmptyMessages? <==> e2.EmptyMessages?
  {
    var r := e1.Describe(showFloat);
    assert e1.TemperatureOutOfRange? ==> r[0] == 't' && r[1] == 'e';
    assert e1.TopPOutOfRange? ==> r[0] == 't' && r[1] == 'o';
    assert e1.EmptyMessages? ==> r[0] == 'm';
    assert e2.TemperatureOutOfRange? ==> r[0] == 't' && r[1] == 'e';
    assert e2.TopPOutOfRange? ==> r[0] == 't' && r[1] == 'o';
    assert e2.EmptyMessages? ==> r[0] == 'm';
  }

  predicate TemperatureInRange(t: real) {
    0.0 <= t <= 2.0
  }

  predicate TopPInRange(p: real) {
    0.0 <= p <= 1.0
  }

  /** `ChatRequest::validate`: temperature first, then top_p, then messages; the
      first failing check is reported. */
  function Validate(req: ChatRequest): (r: Result<(), ValidationError>)
    ensures r.Ok? <==>
              (req.temperature.Some? ==> TemperatureInRange(req.temperature.value))
              && (req.topP.Some? ==> TopPInRange(req.topP.value))
              && |req.messages| > 0
    ensures (r.Err? && r.error.TemperatureOutOfRange?)
              <==> req.temperature.Some? && !TemperatureInRange(req.temperature.value)
    ensures r.Err? && r.error.TemperatureOutOfRange? ==> r.error.temperature == req.temperature.value
    ensures (r.Err? && r.error.TopPOutOfRange?) <==>
              (req.temperature.Some? ==> TemperatureInRange(req.temperature.value))
              && req.topP.Some? && !TopPInRange(req.topP.value)
    ensures r.Err? && r.error.TopPOutOfRange? ==> r.error.topP == req.topP.value
    ensures (r == Err(EmptyMessages)) <==>
              (req.temperature.Some? ==> TemperatureInRange(req.temperature.value))
              && (req.topP.Some? ==> TopPInRange(req.topP.value))
              && |req.messages| == 0
  {
    if req.temperature.Some? && !TemperatureInRange(req.temperature.value) then
      Err(TemperatureOutOfRange(req.temperature.value))
    else if req.topP.Some? && !TopPInRange(req.topP.value) then
      Err(TopPOutOfRange(req.topP.value))
    else if |req.messages| == 0 then
      Err(EmptyMessages)
    else
      Ok(())
  }

  /** Validation looks only at temperature, top_p and the message list:
      model, max_tokens and stream never change its verdict. */
  lemma ValidateIgnoresOtherFields(req: ChatRequest, model: string, maxTokens: Option<u32>, stream: Option<bool>)
    ensures Validate(req.(model := model, maxTokens := maxTokens, stream := stream)) == Validate(req)
  {
  }
}
