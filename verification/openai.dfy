/** The OpenAI adapter: the canonical request already is the OpenAI request,
    so the adapter only picks the endpoint, adds the bearer key, and passes
    the request, the response and (when streaming) the upstream bytes
    through unchanged. */
module OpenAi {
  import opened Wrappers
  import opened Text
  import opened Errors
  import opened Types
  import opened Configuration
  import opened Upstream

  const DefaultBase := "https://api.openai.com/v1"
  const CompletionsPath := "/chat/completions"
  const ErrorHeading := "OpenAI API 错误: "

  /** The request URL: the configured base (or the public one when empty),
      trailing slashes dropped, then "/chat/completions". */
  function RequestUrl(entry: ModelConfig): (r: string)
    ensures EndsWith(r, CompletionsPath)
    ensures entry.params.apiBase == "" ==> r == DefaultBase + CompletionsPath
    ensures entry.params.apiBase != "" ==> r == Endpoint(entry.params.apiBase, CompletionsPath)
  {
    EndpointOfPlainBase(DefaultBase, CompletionsPath);
    Endpoint(BaseUrl(entry.params.apiBase, DefaultBase), CompletionsPath)
  }

  /** The POST the adapter sends: the canonical request is the body as it is. */
  function BuildPost(entry: ModelConfig, req: ChatRequest): (p: Post<ChatRequest>)
    ensures p.body == req
    ensures p.url == RequestUrl(entry)
    ensures Header("Authorization", "Bearer " + entry.params.apiKey) in p.headers
    ensures Header("Content-Type", "application/json") in p.headers
  {
    Post(RequestUrl(entry),
         [Header("Authorization", "Bearer " + entry.params.apiKey), Header("Content-Type", "application/json")],
         req)
  }

  /** `forward_request`: the decoded upstream response is the result, with no
      change; a non-2xx reply is an `UpstreamError` quoting at most 4096
      characters of the body after "OpenAI API 错误: ". */
  function ForwardRequest(entry: ModelConfig, req: ChatRequest, send: Post<ChatRequest> -> Reply,
                          decode: string -> Result<ChatResponse, string>): (r: Result<ChatResponse, GatewayError>)
    ensures var reply := send(BuildPost(entry, req));
            && (r.Ok? <==> reply.Answered? && IsSuccess(reply.status) && decode(reply.body).Ok?)
            && (r.Ok? ==> decode(reply.body) == Ok(r.value))
            && (reply.SendFailed? ==> r == Err(HttpError(reply.reason)))
            && (reply.Answered? && !IsSuccess(reply.status) ==>
                  r.Err? && r.error.UpstreamError? && r.error.status == reply.status
                  && r.error.message == ErrorHeading + Take(reply.body, ErrorBodyLimit))
  {
    Exchange(BuildPost(entry, req), send, ErrorHeading, decode)
  }

  /** The streamed body as the gateway forwards it: every delivery in order,
      the bytes unchanged and a transport failure wrapped as `HttpError`. */
  function PassThrough(deliveries: seq<Result<string, string>>): (r: seq<Result<string, GatewayError>>)
    ensures |r| == |deliveries|
    ensures forall i :: 0 <= i < |r| ==> (r[i].Ok? <==> deliveries[i].Ok?)
    ensures forall i :: 0 <= i < |r| && r[i].Ok? ==> r[i].value == deliveries[i].value
    ensures forall i :: 0 <= i < |r| && r[i].Err? ==> r[i].error == HttpError(deliveries[i].error)
  {
    if deliveries == [] then []
    else
      var head := match deliveries[0]
        case Ok(bytes) => Ok(bytes)
        case Err(e) => Err(HttpError(e));
      var tail := PassThrough(deliveries[1..]);
      assert forall i :: 1 <= i < |deliveries| ==> ([head] + tail)[i] == tail[i - 1] && deliveries[i] == deliveries[1..][i - 1];
      [head] + tail
  }

  /** `forward_request_stream`: the same POST and status check, then the
      upstream deliveries passed through. */
  function ForwardRequestStream(entry: ModelConfig, req: ChatRequest, send: Post<ChatRequest> -> Reply,
                                deliveries: seq<Result<string, string>>): (r: Result<seq<Result<string, GatewayError>>, GatewayError>)
    ensures var reply := send(BuildPost(entry, req));
            && (r.Ok? <==> reply.Answered? && IsSuccess(reply.status))
            && (r.Ok? ==> r.value == PassThrough(deliveries))
            && (reply.SendFailed? ==> r == Err(HttpError(reply.reason)))
            && (reply.Answered? && !IsSuccess(reply.status) ==>
                  r.Err? && r.error.UpstreamError? && r.error.status == reply.status
                  && r.error.message == ErrorHeading + Take(reply.body, ErrorBodyLimit))
  {
    match OpenStream(BuildPost(entry, req), send, ErrorHeading)
    case Err(e) => Err(e)
    case Ok(_) => Ok(PassThrough(deliveries))
  }

  /** Passing through keeps the stream's text: the successful deliveries,
      concatenated, are the upstream bytes. */
  lemma {:induction false} PassThroughKeepsText(deliveries: seq<Result<string, string>>)
    ensures OkTexts(PassThrough(deliveries)) == UpstreamTexts(deliveries)
    ensures Concat(OkTexts(PassThrough(deliveries))) == Concat(UpstreamTexts(deliveries))
  {
    if deliveries != [] {
      PassThroughKeepsText(deliveries[1..]);
      var out := PassThrough(deliveries);
      assert out[1..] == PassThrough(deliveries[1..]);
      assert out[0].Ok? <==> deliveries[0].Ok?;
      assert OkTexts(out) == (if out[0].Ok? then [out[0].value] else []) + OkTexts(out[1..]);
    }
  }

  function OkTexts(items: seq<Result<string, GatewayError>>): seq<string> {
    if items == [] then [] else (if items[0].Ok? then [items[0].value] else []) + OkTexts(items[1..])
  }

  function UpstreamTexts(deliveries: seq<Result<string, string>>): seq<string> {
    if deliveries == [] then [] else (if deliveries[0].Ok? then [deliveries[0].value] else []) + UpstreamTexts(deliveries[1..])
  }
}
