/** The HTTP layer: the route table, the four pages and the chat-completions
    endpoint with its validation, stream choice, error-to-status mapping and
    request counting. JSON bodies are kept as JSON values (`Json`); the one
    body the server writes out by hand around a JSON value, the in-stream
    error, takes the renderer `render` as a parameter. The adapters are
    plugged in as `Routing.Adapters`. */
module Handlers {
  import opened Wrappers
  import opened Ints
  import opened Text
  import opened Errors
  import opened Types
  import opened Configuration
  import opened Routing
  import opened SseFrames
  import M = Metrics

  datatype HttpMethod = Get | Post | OtherMethod(name: string)

  /** The pages of the route table. */
  datatype Page = HealthPage | ModelsPage | MetricsPage | CompletionsPage | NotFoundPage

  /** `handle_request`'s match on method and path. */
  function SelectPage(verb: HttpMethod, path: string): (p: Page)
    ensures p == HealthPage <==> verb == Get && path == "/health"
    ensures p == ModelsPage <==> verb == Get && path == "/v1/models"
    ensures p == MetricsPage <==> verb == Get && path == "/metrics"
    ensures p == CompletionsPage <==> verb == Post && path == "/v1/chat/completions"
  {
    if verb == Get && path == "/health" then HealthPage
    else if verb == Get && path == "/v1/models" then ModelsPage
    else if verb == Get && path == "/metrics" then MetricsPage
    else if verb == Post && path == "/v1/chat/completions" then CompletionsPage
    else NotFoundPage
  }

  /** A JSON value as the `json!` macro builds it. */
  datatype Json = JString(text: string) | JArray(items: seq<Json>) | JObject(fields: seq<Field>)
  datatype Field = Field(key: string, value: Json)

  /** The value under `key` in an object's fields. */
  function Lookup(fields: seq<Field>, key: string): (r: Option<Json>)
    ensures r.None? <==> forall i :: 0 <= i < |fields| ==> fields[i].key != key
    ensures r.Some? ==> exists i :: 0 <= i < |fields| && fields[i] == Field(key, r.value)
  {
    if fields == [] then None
    else if fields[0].key == key then Some(fields[0].value)
    else
      var r := Lookup(fields[1..], key);
      assert forall i :: 0 < i < |fields| ==> fields[i] == fields[1..][i - 1];
      r
  }

  datatype Header = Header(name: string, value: string)

  /** The event stream a streaming adapter hands back: chunks of bytes, each
      delivered or failed. */
  type ByteStream = seq<Result<string, GatewayError>>

  /** What a response carries: plain text, a JSON value, the completion
      (written with its serde layout), or an event stream. */
  datatype Body = Text(text: string) | JsonValue(json: Json) | Completion(response: ChatResponse) | EventStream(stream: ByteStream)

  datatype HttpResponse = HttpResponse(status: u16, headers: seq<Header>, body: Body)

  const JsonContent := Header("Content-Type", "application/json")
  const EventStreamContent := Header("Content-Type", "text/event-stream")
  const NoCache := Header("Cache-Control", "no-cache")

  /** `health_check` */
  function HealthCheck(): (r: HttpResponse)
    ensures r.status == 200 && r.headers == [JsonContent] && r.body.JsonValue? && r.body.json.JObject?
    ensures Lookup(r.body.json.fields, "status") == Some(JString("ok"))
    ensures Lookup(r.body.json.fields, "service") == Some(JString("feathergate"))
  {
    HttpResponse(200, [JsonContent],
                 JsonValue(JObject([Field("status", JString("ok")), Field("service", JString("feathergate"))])))
  }

  /** The `/v1/models` entry of one model. */
  function ModelEntry(name: string): (j: Json)
    ensures j.JObject?
    ensures Lookup(j.fields, "id") == Some(JString(name))
    ensures Lookup(j.fields, "object") == Some(JString("model"))
    ensures Lookup(j.fields, "owned_by") == Some(JString("feathergate"))
  {
    var fields := [Field("id", JString(name)), Field("object", JString("model")), Field("owned_by", JString("feathergate"))];
    assert "owned_by"[0] != "id"[0] && "owned_by"[1] != "object"[1];
    assert fields[1..][1..] == [Field("owned_by", JString("feathergate"))];
    assert Lookup(fields[1..][1..], "owned_by") == Some(JString("feathergate"));
    assert Lookup(fields[1..], "owned_by") == Lookup(fields[1..][1..], "owned_by");
    assert Lookup(fields, "owned_by") == Lookup(fields[1..], "owned_by");
    JObject(fields)
  }

  /** One entry per configured model, in registry order. */
  function ModelEntries(list: seq<ModelConfig>): (r: seq<Json>)
    ensures |r| == |list|
    ensures forall i :: 0 <= i < |r| ==> r[i] == ModelEntry(list[i].modelName)
  {
    if list == [] then [] else [ModelEntry(list[0].modelName)] + ModelEntries(list[1..])
  }

  /** `list_models`: the logical names, in registry order, as a list object. */
  function ListModels(cfg: Config): (r: HttpResponse)
    ensures r.status == 200 && r.headers == [JsonContent] && r.body.JsonValue? && r.body.json.JObject?
    ensures Lookup(r.body.json.fields, "object") == Some(JString("list"))
    ensures var data := Lookup(r.body.json.fields, "data");
            && data.Some? && data.value.JArray? && |data.value.items| == |cfg.modelList|
            && forall i :: 0 <= i < |cfg.modelList| ==>
                 data.value.items[i].JObject?
                 && Lookup(data.value.items[i].fields, "id") == Some(JString(cfg.modelList[i].modelName))
                 && Lookup(data.value.items[i].fields, "owned_by") == Some(JString("feathergate"))
    ensures Lookup(r.body.json.fields, "data") == Some(JArray(ModelEntries(cfg.modelList)))
  {
    HttpResponse(200, [JsonContent],
                 JsonValue(JObject([Field("object", JString("list")), Field("data", JArray(ModelEntries(cfg.modelList)))])))
  }

  /** `metrics_endpoint`: the counters' exposition text. */
  function MetricsEndpoint(m: M.Metrics): (r: HttpResponse)
    reads m
    ensures r.status == 200 && r.headers == [Header("Content-Type", "text/plain")] && r.body.Text?
    ensures Lines(r.body.text) == M.ExpositionLines(m.total as nat, m.successful as nat, m.failed as nat)
    ensures r.body.text[|r.body.text| - 1] == '\n' && '\r' !in r.body.text
  {
    HttpResponse(200, [Header("Content-Type", "text/plain")], Text(m.ExportPrometheus()))
  }

  /** `not_found` */
  function NotFound(): (r: HttpResponse)
    ensures r.status == 404 && r.headers == [] && r.body == Text("Not Found")
  {
    HttpResponse(404, [], Text("Not Found"))
  }

  /** The `{"error": {"message": ..., "type": ...}}` object. */
  function ErrorJson(message: string, kind: string): (j: Json)
    ensures j.JObject? && |j.fields| == 1 && j.fields[0].key == "error" && j.fields[0].value.JObject?
    ensures Lookup(j.fields[0].value.fields, "message") == Some(JString(message))
    ensures Lookup(j.fields[0].value.fields, "type") == Some(JString(kind))
  {
    JObject([Field("error", JObject([Field("message", JString(message)), Field("type", JString(kind))]))])
  }

  /** `StatusCode::from_u16`: the codes from 100 to 999. */
  predicate ValidStatus(code: u16) {
    100 <= code <= 999
  }

  /** The status of a routing failure. */
  function StatusFor(e: GatewayError): (s: u16)
    ensures ValidStatus(s)
    ensures e.ModelNotFound? ==> s == 404
    ensures e.UnsupportedProvider? ==> s == 400
    ensures e.UpstreamError? && ValidStatus(e.status) ==> s == e.status
    ensures e.UpstreamError? && !ValidStatus(e.status) ==> s == 500
    ensures !e.ModelNotFound? && !e.UnsupportedProvider? && !e.UpstreamError? ==> s == 500
  {
    match e
    case ModelNotFound(_) => 404
    case UnsupportedProvider(_) => 400
    case UpstreamError(status, _) => if ValidStatus(status) then status else 500
    case _ => 500
  }

  /** The answer to a request that fails validation. */
  function ValidationFailure(e: ValidationError, showFloat: real -> string): (r: HttpResponse)
    ensures r.status == 400 && r.headers == [JsonContent]
    ensures r.body == JsonValue(ErrorJson(e.Describe(showFloat), "invalid_request_error"))
  {
    HttpResponse(400, [JsonContent], JsonValue(ErrorJson(e.Describe(showFloat), "invalid_request_error")))
  }

  /** The answer to a blocking request whose routing failed: the mapped
      status with the error's display text. */
  function RoutingFailure(e: GatewayError): (r: HttpResponse)
    ensures r.status == StatusFor(e) && r.headers == [JsonContent]
    ensures r.body == JsonValue(ErrorJson(e.ToString(), "feathergate_error"))
  {
    HttpResponse(StatusFor(e), [JsonContent], JsonValue(ErrorJson(e.ToString(), "feathergate_error")))
  }

  /** The answer to a streaming request whose routing failed: status 200
      and an event stream of the error event then the end marker. */
  function StreamFailure(e: GatewayError, render: Json -> string): (r: HttpResponse)
    ensures r.status == 200 && r.headers == [EventStreamContent, NoCache] && r.body.Text?
    ensures r.body.text == DataFrame(render(ErrorJson(e.ToString(), "feathergate_error"))) + DoneFrame
  {
    var json := render(ErrorJson(e.ToString(), "feathergate_error"));
    HttpResponse(200, [EventStreamContent, NoCache], Text(DataPrefix + json + "\n\n" + DoneFrame))
  }

  const KeepAlive := Header("Connection", "keep-alive")
  /** Tells an Nginx proxy in front of the server not to buffer the stream. */
  const NoProxyBuffering := Header("X-Accel-Buffering", "no")

  /** The answer to a streaming request whose routing succeeded. */
  function StreamOpened(stream: ByteStream): (r: HttpResponse)
    ensures r.status == 200 && r.body == EventStream(stream)
    ensures r.headers == [EventStreamContent, NoCache, KeepAlive, NoProxyBuffering]
    ensures EventStreamContent in r.headers && NoCache in r.headers
  {
    HttpResponse(200, [EventStreamContent, NoCache, KeepAlive, NoProxyBuffering], EventStream(stream))
  }

  /** Which counter a request moves. */
  datatype Tally = Untallied | Succeeded | Failed

  datatype Handled = Handled(response: HttpResponse, tally: Tally)

  /** `chat_completions_stream` */
  function ChatCompletionsStream(req: ChatRequest, cfg: Config, streaming: Adapters<ByteStream>, render: Json -> string): (h: Handled)
    ensures h.tally != Untallied && h.response.status == 200
    ensures h.tally == Succeeded <==> Dispatch(cfg, req, streaming).Ok?
    ensures h.tally == Succeeded ==> h.response.body == EventStream(Dispatch(cfg, req, streaming).value)
    ensures h.tally == Succeeded ==> h.response == StreamOpened(Dispatch(cfg, req, streaming).value)
    ensures h.tally == Failed ==> h.response == StreamFailure(Dispatch(cfg, req, streaming).error, render)
  {
    match Dispatch(cfg, req, streaming)
    case Ok(stream) => Handled(StreamOpened(stream), Succeeded)
    case Err(e) => Handled(StreamFailure(e, render), Failed)
  }

  /** `chat_completions` after the body is decoded: validation first (no
      adapter runs and nothing is counted when it fails), then only an
      explicit `stream: true` takes the streaming path; every validated
      request is counted once, as a success or a failure. */
  function ChatCompletions(req: ChatRequest, cfg: Config, blocking: Adapters<ChatResponse>, streaming: Adapters<ByteStream>,
                              showFloat: real -> string, render: Json -> string): (h: Handled)
    ensures h.tally == Untallied <==> Types.Validate(req).Err?
    ensures Types.Validate(req).Err? ==> h.response == ValidationFailure(Types.Validate(req).error, showFloat)
    ensures Types.Validate(req).Ok? && req.stream == Some(true) ==> h == ChatCompletionsStream(req, cfg, streaming, render)
    ensures Types.Validate(req).Ok? && req.stream != Some(true) ==>
              && (h.tally == Succeeded <==> Dispatch(cfg, req, blocking).Ok?)
              && (h.tally == Succeeded ==>
                    h.response == HttpResponse(200, [JsonContent], Completion(Dispatch(cfg, req, blocking).value)))
              && (h.tally == Failed ==> h.response == RoutingFailure(Dispatch(cfg, req, blocking).error))
  {
    match Types.Validate(req)
    case Err(e) => Handled(ValidationFailure(e, showFloat), Untallied)
    case Ok(_) =>
      if req.stream == Some(true) then ChatCompletionsStream(req, cfg, streaming, render)
      else
        match Dispatch(cfg, req, blocking)
        case Ok(response) => Handled(HttpResponse(200, [JsonContent], Completion(response)), Succeeded)
        case Err(e) => Handled(RoutingFailure(e), Failed)
  }

  /** What the server does with one request; `Err` is a request whose body
      could not be read or decoded, which ends the connection without a
      response. */
  method HandleRequest(metrics: M.Metrics, verb: HttpMethod, path: string, body: Result<ChatRequest, string>,
                          cfg: Config, blocking: Adapters<ChatResponse>, streaming: Adapters<ByteStream>,
                          showFloat: real -> string, render: Json -> string) returns (r: Result<HttpResponse, string>)
    modifies metrics
    ensures SelectPage(verb, path) == HealthPage ==> r == Ok(HealthCheck())
    ensures SelectPage(verb, path) == ModelsPage ==> r == Ok(ListModels(cfg))
    ensures SelectPage(verb, path) == MetricsPage ==> r == Ok(old(MetricsEndpoint(metrics)))
    ensures SelectPage(verb, path) == NotFoundPage ==> r == Ok(NotFound())
    ensures SelectPage(verb, path) == CompletionsPage && body.Err? ==> r == Err(body.error)
    ensures SelectPage(verb, path) == CompletionsPage && body.Ok? ==>
              var h := ChatCompletions(body.value, cfg, blocking, streaming, showFloat, render);
              && r == Ok(h.response)
              && (h.tally == Succeeded ==>
                    metrics.total == M.Bump(old(metrics.total)) && metrics.successful == M.Bump(old(metrics.successful))
                    && metrics.failed == old(metrics.failed))
              && (h.tally == Failed ==>
                    metrics.total == M.Bump(old(metrics.total)) && metrics.failed == M.Bump(old(metrics.failed))
                    && metrics.successful == old(metrics.successful))
              && (h.tally == Untallied ==>
                    metrics.total == old(metrics.total) && metrics.successful == old(metrics.successful)
                    && metrics.failed == old(metrics.failed))
    ensures SelectPage(verb, path) != CompletionsPage || body.Err? ==>
              metrics.total == old(metrics.total) && metrics.successful == old(metrics.successful)
              && metrics.failed == old(metrics.failed)
    ensures old(metrics.Balanced()) ==> metrics.Balanced()
  {
    var page := SelectPage(verb, path);
    match page {
      case HealthPage => r := Ok(HealthCheck());
      case ModelsPage => r := Ok(ListModels(cfg));
      case MetricsPage => r := Ok(MetricsEndpoint(metrics));
      case NotFoundPage => r := Ok(NotFound());
      case CompletionsPage =>
        if body.Err? {
          r := Err(body.error);
        } else {
          var h := ChatCompletions(body.value, cfg, blocking, streaming, showFloat, render);
          if h.tally == Succeeded {
            metrics.RecordSuccess();
          } else if h.tally == Failed {
            metrics.RecordFailure();
          }
          r := Ok(h.response);
        }
    }
  }

  /** An invalid request is answered without looking at the registry or any
      adapter: the answer is the same whatever they are. */
  lemma InvalidRequestNeverRouted(req: ChatRequest, cfg1: Config, cfg2: Config,
                                     blocking1: Adapters<ChatResponse>, blocking2: Adapters<ChatResponse>,
                                     streaming1: Adapters<ByteStream>, streaming2: Adapters<ByteStream>,
                                     showFloat: real -> string, render: Json -> string)
    requires Types.Validate(req).Err?
    ensures ChatCompletions(req, cfg1, blocking1, streaming1, showFloat, render)
            == ChatCompletions(req, cfg2, blocking2, streaming2, showFloat, render)
    ensures ChatCompletions(req, cfg1, blocking1, streaming1, showFloat, render).response.status == 400
  {
  }

  /** An unknown model name is a 404 on the blocking path, and a 200 event
      stream carrying the error on the streaming path. */
  lemma UnknownModelAnswers(req: ChatRequest, cfg: Config, blocking: Adapters<ChatResponse>, streaming: Adapters<ByteStream>,
                               showFloat: real -> string, render: Json -> string)
    requires Types.Validate(req).Ok? && FindModel(cfg, req.model).None?
    ensures var h := ChatCompletions(req, cfg, blocking, streaming, showFloat, render);
            && h.tally == Failed
            && (req.stream != Some(true) ==> h.response.status == 404)
            && (req.stream == Some(true) ==> h.response == StreamFailure(ModelNotFound(req.model), render))
  {
  }

  /** The in-stream error reads back as two events: the error object, then
      the end marker, with nothing left over, when the rendered JSON is one
      line (serde_json escapes line feeds inside strings). */
  lemma StreamFailureReadsBack(e: GatewayError, render: Json -> string)
    requires '\n' !in render(ErrorJson(e.ToString(), "feathergate_error"))
    ensures var json := render(ErrorJson(e.ToString(), "feathergate_error"));
            SplitFrames(StreamFailure(e, render).body.text) == Framing([DataPrefix + json, DataPrefix + "[DONE]"], "")
  {
    var json := render(ErrorJson(e.ToString(), "feathergate_error"));
    DoneFrameIsDataFrame();
    assert StreamFailure(e, render).body.text == DataFrame(json) + DataFrame("[DONE]");
    assert '\n' !in "[DONE]";
    SplitTwoDataFrames(json, "[DONE]");
  }
}
