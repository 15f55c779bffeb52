/** What the three adapters share about talking to an upstream API: the base
    URL with its fallback, the endpoint built from it, and the blocking
    exchange (send, check the status, decode the body) with the error each
    step produces. The HTTP client itself is a parameter: `send` stands for
    building and sending the POST, `decode` for `response.json()`. */
module Upstream {
  import opened Wrappers
  import opened Ints
  import opened Text
  import opened Errors

  datatype Header = Header(name: string, value: string)

  /** An outgoing POST: URL, headers and the JSON body (kept as a value). */
  datatype Post<B> = Post(url: string, headers: seq<Header>, body: B)

  /** What a send gives back: a transport failure (its text), or a status
      with the body text. */
  datatype Reply = SendFailed(reason: string) | Answered(status: u16, body: string)

  /** `StatusCode::is_success`: 2xx. */
  predicate IsSuccess(status: u16) {
    200 <= status <= 299
  }

  /** `if api_base.is_empty() { fallback } else { api_base }`. */
  function BaseUrl(configured: string, fallback: string): (r: string)
    ensures configured == "" ==> r == fallback
    ensures configured != "" ==> r == configured
  {
    if configured == "" then fallback else configured
  }

  /** `format!("{}{}", base.trim_end_matches('/'), path)`: the base with its
      trailing slashes dropped, then the path. */
  function Endpoint(base: string, path: string): (r: string)
    ensures EndsWith(r, path) && |r| >= |path|
    ensures var stem := r[..|r| - |path|];
            StartsWith(base, stem)
            && (stem == [] || stem[|stem| - 1] != '/')
            && forall k :: |stem| <= k < |base| ==> base[k] == '/'
  {
    var stem := TrimEndChar(base, '/');
    var r := stem + path;
    assert r[..|r| - |path|] == stem;
    assert r[|r| - |path|..] == path;
    r
  }

  /** A base without a trailing slash is used as it is. */
  lemma EndpointOfPlainBase(base: string, path: string)
    requires base == [] || base[|base| - 1] != '/'
    ensures Endpoint(base, path) == base + path
  {
  }

  /** Any number of trailing slashes on the base give the same endpoint. */
  lemma {:induction false} EndpointIgnoresTrailingSlashes(base: string, slashes: nat, path: string)
    ensures Endpoint(base + Repeat('/', slashes), path) == Endpoint(base, path)
    decreases slashes
  {
    if slashes > 0 {
      var s := base + Repeat('/', slashes);
      assert s[..|s| - 1] == base + Repeat('/', slashes - 1);
      assert s[|s| - 1] == '/';
      assert TrimEndChar(s, '/') == TrimEndChar(s[..|s| - 1], '/');
      EndpointIgnoresTrailingSlashes(base, slashes - 1, path);
      assert TrimEndChar(base + Repeat('/', slashes - 1), '/') == TrimEndChar(base, '/');
    } else {
      assert base + Repeat('/', slashes) == base;
    }
  }

  function Repeat(c: char, n: nat): (r: string)
    ensures |r| == n && forall i :: 0 <= i < n ==> r[i] == c
  {
    if n == 0 then [] else Repeat(c, n - 1) + [c]
  }

  /** How much of an error body is quoted (`chars().take(4096)`). */
  const ErrorBodyLimit := 4096

  /** `FeatherGateError::upstream(status, format!("{label}{body}"))` with the
      body cut to its first 4096 characters. */
  function UpstreamFailure(status: u16, heading: string, body: string): (e: GatewayError)
    ensures e.UpstreamError? && e.status == status
    ensures StartsWith(e.message, heading) && |e.message| <= |heading| + ErrorBodyLimit
    ensures StartsWith(body, e.message[|heading|..])
    ensures |body| <= ErrorBodyLimit ==> e.message == heading + body
    ensures |body| > ErrorBodyLimit ==> |e.message| == |heading| + ErrorBodyLimit
  {
    var quoted := Take(body, ErrorBodyLimit);
    var msg := heading + quoted;
    assert msg[..|heading|] == heading && msg[|heading|..] == quoted;
    Upstream(status, msg)
  }

  /** The blocking exchange of every adapter: a transport failure becomes
      `HttpError`, a non-2xx status becomes `UpstreamError` quoting the body,
      a 2xx body that does not decode becomes `HttpError`, and otherwise the
      decoded body is the result. */
  function Exchange<B, T>(post: Post<B>, send: Post<B> -> Reply, heading: string, decode: string -> Result<T, string>): (r: Result<T, GatewayError>)
    ensures send(post).SendFailed? ==> r == Err(HttpError(send(post).reason))
    ensures (r.Err? && r.error.UpstreamError?) <==> send(post).Answered? && !IsSuccess(send(post).status)
    ensures r.Err? && r.error.UpstreamError? ==> r.error == UpstreamFailure(send(post).status, heading, send(post).body)
    ensures r.Ok? <==> send(post).Answered? && IsSuccess(send(post).status) && decode(send(post).body).Ok?
    ensures r.Ok? ==> decode(send(post).body) == Ok(r.value)
    ensures send(post).Answered? && IsSuccess(send(post).status) && decode(send(post).body).Err? ==>
              r == Err(HttpError(decode(send(post).body).error))
  {
    match send(post)
    case SendFailed(reason) => Err(HttpError(reason))
    case Answered(status, body) =>
      if !IsSuccess(status) then Err(UpstreamFailure(status, heading, body))
      else
        match decode(body)
        case Err(detail) => Err(HttpError(detail))
        case Ok(v) => Ok(v)
  }

  /** The opening of a streaming exchange: the same send and status check,
      with the body left unread on success. */
  function OpenStream<B>(post: Post<B>, send: Post<B> -> Reply, heading: string): (r: Result<(), GatewayError>)
    ensures r.Ok? <==> send(post).Answered? && IsSuccess(send(post).status)
    ensures send(post).SendFailed? ==> r == Err(HttpError(send(post).reason))
    ensures send(post).Answered? && !IsSuccess(send(post).status) ==>
              r == Err(UpstreamFailure(send(post).status, heading, send(post).body))
  {
    match send(post)
    case SendFailed(reason) => Err(HttpError(reason))
    case Answered(status, body) =>
      if !IsSuccess(status) then Err(UpstreamFailure(status, heading, body)) else Ok(())
  }
}
