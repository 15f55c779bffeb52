/** Provider dispatch: look the logical model name up in the registry, read
    the provider tag off its "provider/model-id" string, and hand the request
    to the matching adapter. The blocking and the streaming entry points share
    this resolution and differ only in which family of adapters they call. */
module Routing {
  import opened Wrappers
  import opened Text
  import opened Errors
  import opened Types
  import opened Configuration

  datatype Provider = OpenAi | Anthropic | Gemini

  /** The tag that names each provider in a model string. */
  function Tag(p: Provider): string {
    match p
    case OpenAi => "openai"
    case Anthropic => "anthropic"
    case Gemini => "gemini"
  }

  /** The `match provider.as_str()` arms: the three known tags, nothing else. */
  function ProviderOf(tag: string): (r: Option<Provider>)
    ensures r.Some? <==> tag == "openai" || tag == "anthropic" || tag == "gemini"
    ensures r.Some? ==> Tag(r.value) == tag
  {
    if tag == "openai" then Some(OpenAi)
    else if tag == "anthropic" then Some(Anthropic)
    else if tag == "gemini" then Some(Gemini)
    else None
  }

  /** Every provider's tag selects that provider again. */
  lemma ProviderOfTag(p: Provider)
    ensures ProviderOf(Tag(p)) == Some(p)
  {
  }

  /** What the router settles on before calling an adapter. */
  datatype Route = Route(provider: Provider, entry: ModelConfig)

  /** The resolution steps shared by `route_request` and
      `route_request_stream`: registry lookup (ModelNotFound), model-string
      parse (its error unchanged), provider tag (UnsupportedProvider). */
  function Resolve(cfg: Config, req: ChatRequest): (r: Result<Route, GatewayError>)
    ensures FindModel(cfg, req.model).None? <==> r == Err(ModelNotFound(req.model))
    ensures FindModel(cfg, req.model).Some? && ParseModelString(FindModel(cfg, req.model).value.params.model).Err? ==>
              r == Err(ParseModelString(FindModel(cfg, req.model).value.params.model).error)
    ensures FindModel(cfg, req.model).Some? && ParseModelString(FindModel(cfg, req.model).value.params.model).Ok? ==>
              var entry := FindModel(cfg, req.model).value;
              var tag := ParseModelString(entry.params.model).value.0;
              && (ProviderOf(tag).None? ==> r == Err(UnsupportedProvider(tag)))
              && (ProviderOf(tag).Some? ==> r == Ok(Route(ProviderOf(tag).value, entry)))
    ensures r.Err? && r.error.UnsupportedProvider? ==>
              ProviderOf(r.error.provider).None?
              && StartsWith(FindModel(cfg, req.model).value.params.model, r.error.provider + "/")
    ensures r.Err? ==> r.error.ModelNotFound? || r.error.InvalidModelString? || r.error.UnsupportedProvider?
    ensures r.Ok? ==> FindModel(cfg, req.model) == Some(r.value.entry)
                      && r.value.entry.modelName == req.model
                      && StartsWith(r.value.entry.params.model, Tag(r.value.provider) + "/")
  {
    match FindModel(cfg, req.model)
    case None => Err(ModelNotFound(req.model))
    case Some(entry) =>
      ParseModelStringCorrect(entry.params.model);
      match ParseModelString(entry.params.model)
      case Err(e) => Err(e)
      case Ok((tag, _)) =>
        match ProviderOf(tag)
        case None => Err(UnsupportedProvider(tag))
        case Some(p) => Ok(Route(p, entry))
  }

  /** A registry entry whose model string is a tag and an id joined by '/'
      is routed to the provider of that tag, and to none for any other tag:
      "openai/gpt-4" reaches the OpenAI adapter, "mistral/x" is unsupported. */
  lemma RoutesByTag(cfg: Config, req: ChatRequest, tag: string, modelId: string)
    requires FindModel(cfg, req.model).Some?
    requires FindModel(cfg, req.model).value.params.model == tag + "/" + modelId
    requires tag != "" && modelId != "" && '/' !in tag && '/' !in modelId
    ensures ProviderOf(tag).Some? ==> Resolve(cfg, req) == Ok(Route(ProviderOf(tag).value, FindModel(cfg, req.model).value))
    ensures ProviderOf(tag).None? ==> Resolve(cfg, req) == Err(UnsupportedProvider(tag))
  {
    ParseFormatted(tag, modelId);
  }

  /** One adapter per provider; `T` is the blocking response or the byte
      stream, depending on the entry point. */
  datatype Adapters<T> = Adapters(
    openai: (ModelConfig, ChatRequest) -> Result<T, GatewayError>,
    anthropic: (ModelConfig, ChatRequest) -> Result<T, GatewayError>,
    gemini: (ModelConfig, ChatRequest) -> Result<T, GatewayError>)
  {
    function For(p: Provider): (ModelConfig, ChatRequest) -> Result<T, GatewayError> {
      match p
      case OpenAi => openai
      case Anthropic => anthropic
      case Gemini => gemini
    }
  }

  /** `route_request` (with the blocking adapters) and `route_request_stream`
      (with the streaming ones): a resolution failure is returned as is and
      no adapter runs; otherwise exactly the selected adapter runs, on the
      registry entry and the untouched request. */
  function Dispatch<T>(cfg: Config, req: ChatRequest, adapters: Adapters<T>): (r: Result<T, GatewayError>)
    ensures Resolve(cfg, req).Err? ==> r == Err(Resolve(cfg, req).error)
    ensures Resolve(cfg, req).Ok? ==>
              r == adapters.For(Resolve(cfg, req).value.provider)(Resolve(cfg, req).value.entry, req)
  {
    match Resolve(cfg, req)
    case Err(e) => Err(e)
    case Ok(route) => adapters.For(route.provider)(route.entry, req)
  }

  /** Whatever adapters are plugged in, the blocking and the streaming entry
      points fail with the same resolution error, or both reach the adapter of
      the same provider. */
  lemma StreamingResolvesAlike<A, B>(cfg: Config, req: ChatRequest, blocking: Adapters<A>, streaming: Adapters<B>)
    ensures Resolve(cfg, req).Err? ==>
              Dispatch(cfg, req, blocking).Err? && Dispatch(cfg, req, streaming).Err?
              && Dispatch(cfg, req, blocking).error == Dispatch(cfg, req, streaming).error
    ensures Resolve(cfg, req).Ok? ==>
              var route := Resolve(cfg, req).value;
              Dispatch(cfg, req, blocking) == blocking.For(route.provider)(route.entry, req)
              && Dispatch(cfg, req, streaming) == streaming.For(route.provider)(route.entry, req)
  {
  }

  /** `determine_provider`: the provider part of a well-formed model string. */
  function DetermineProvider(model: string): (r: Result<string, GatewayError>)
    ensures r.Ok? <==> WellFormedModelString(model)
    ensures r.Ok? ==> r.value != "" && '/' !in r.value && StartsWith(model, r.value + "/")
    ensures r.Err? ==> r.error.InvalidModelString?
  {
    ParseModelStringCorrect(model);
    match ParseModelString(model)
    case Err(e) => Err(e)
    case Ok((p, m)) =>
      assert model == (p + "/") + m;
      Ok(p)
  }

  /** A qualified name built from a provider's tag is routed to that provider. */
  lemma DetermineProviderOfTag(p: Provider, modelId: string)
    requires modelId != "" && '/' !in modelId
    ensures DetermineProvider(Tag(p) + "/" + modelId) == Ok(Tag(p))
  {
    ParseFormatted(Tag(p), modelId);
  }
}
