/** The model registry (`Config`): its entries, the lookup by logical name,
    the validation run after loading, and the parser of provider-qualified
    model strings "provider/model-id". */
module Configuration {
  import opened Wrappers
  import opened Text
  import opened Errors

  datatype LitellmParams = LitellmParams(model: string, apiKey: string, apiBase: string)

  datatype ModelConfig = ModelConfig(modelName: string, params: LitellmParams)

  datatype Config = Config(modelList: seq<ModelConfig>)

  // ---------------------------------------------------------------------------
  // api_base default

  /** `default_api_base()`: what an omitted `api_base` becomes. */
  function DefaultApiBase(): (r: string)
    ensures |r| == 0
  {
    ""
  }

  /** The `api_base` field after deserialisation: the configured text, or the
      default when the key is absent. */
  function ApiBaseField(configured: Option<string>): (r: string)
    ensures configured.None? ==> r == ""
    ensures configured.Some? ==> r == configured.value
  {
    configured.GetOr(DefaultApiBase())
  }

  // ---------------------------------------------------------------------------
  // find_model

  /** `Config::find_model`: the first entry whose `model_name` equals `name`. */
  function FindModel(cfg: Config, name: string): (r: Option<ModelConfig>)
    ensures r.None? <==> forall i :: 0 <= i < |cfg.modelList| ==> cfg.modelList[i].modelName != name
    ensures r.Some? ==> exists i :: 0 <= i < |cfg.modelList| && cfg.modelList[i] == r.value && FirstNamed(cfg.modelList, name, i)
  {
    match FirstIndexNamed(cfg.modelList, name, 0)
    case None => None
    case Some(i) => Some(cfg.modelList[i])
  }

  /** Entry i is named `name` and no earlier entry is. */
  predicate FirstNamed(list: seq<ModelConfig>, name: string, i: int)
    requires 0 <= i < |list|
  {
    list[i].modelName == name && forall j :: 0 <= j < i ==> list[j].modelName != name
  }

  /** The linear scan behind `iter().find`, starting at `from`. */
  function FirstIndexNamed(list: seq<ModelConfig>, name: string, from: nat): (r: Option<nat>)
    requires from <= |list|
    requires forall j :: 0 <= j < from ==> list[j].modelName != name
    ensures r.None? <==> forall i :: 0 <= i < |list| ==> list[i].modelName != name
    ensures r.Some? ==> r.value < |list| && FirstNamed(list, name, r.value)
    decreases |list| - from
  {
    if from == |list| then None
    else if list[from].modelName == name then Some(from)
    else FirstIndexNamed(list, name, from + 1)
  }

  /** The lookup returns the earliest entry carrying the name, whatever
      entries with the same name follow it. */
  lemma {:induction false} FindModelFirstWins(cfg: Config, name: string, i: nat)
    requires i < |cfg.modelList| && FirstNamed(cfg.modelList, name, i)
    ensures FindModel(cfg, name) == Some(cfg.modelList[i])
  {
    var r := FirstIndexNamed(cfg.modelList, name, 0);
    assert r.Some?;
    assert !(r.value < i) && !(i < r.value);
  }

  // ---------------------------------------------------------------------------
  // Config::validate

  const EmptyModelListMessage := "model_list 不能为空"
  const EmptyModelNameMessage := "model_name 不能为空"
  const EmptyModelMessage := "model 参数不能为空"
  const EmptyApiKeyMessage := "api_key 不能为空"

  /** An entry passes validation: name, model string and key are non-empty
      (the base URL may be empty). */
  predicate EntryComplete(m: ModelConfig) {
    m.modelName != "" && m.params.model != "" && m.params.apiKey != ""
  }

  /** The complaint about one entry, in the order the checks run. */
  function EntryProblem(m: ModelConfig): (r: Option<GatewayError>)
    ensures r.None? <==> EntryComplete(m)
  {
    if m.modelName == "" then Some(Errors.Config(EmptyModelNameMessage))
    else if m.params.model == "" then Some(Errors.Config(EmptyModelMessage))
    else if m.params.apiKey == "" then Some(Errors.Config(EmptyApiKeyMessage))
    else None
  }

  /** `Config::validate`. */
  function Validate(cfg: Config): (r: Result<(), GatewayError>)
    ensures r.Ok? <==> |cfg.modelList| > 0 && forall i :: 0 <= i < |cfg.modelList| ==> EntryComplete(cfg.modelList[i])
    ensures |cfg.modelList| == 0 ==> r == Err(ConfigError(EmptyModelListMessage))
    ensures r.Err? ==> r.error.ConfigError?
    ensures r.Err? && |cfg.modelList| > 0 ==>
              exists i :: 0 <= i < |cfg.modelList| && EntryProblem(cfg.modelList[i]) == Some(r.error)
                          && forall j :: 0 <= j < i ==> EntryComplete(cfg.modelList[j])
  {
    if |cfg.modelList| == 0 then Err(Errors.Config(EmptyModelListMessage))
    else ValidateEntries(cfg.modelList)
  }

  function ValidateEntries(list: seq<ModelConfig>): (r: Result<(), GatewayError>)
    ensures r.Ok? <==> forall i :: 0 <= i < |list| ==> EntryComplete(list[i])
    ensures r.Err? ==> r.error.ConfigError?
    ensures r.Err? ==>
              exists i :: 0 <= i < |list| && EntryProblem(list[i]) == Some(r.error)
                          && forall j :: 0 <= j < i ==> EntryComplete(list[j])
  {
    if list == [] then Ok(())
    else
      match EntryProblem(list[0])
      case Some(e) => Err(e)
      case None =>
        var r := ValidateEntries(list[1..]);
        if r.Err? then
          var i :| 0 <= i < |list[1..]| && EntryProblem(list[1..][i]) == Some(r.error)
                   && forall j :: 0 <= j < i ==> EntryComplete(list[1..][j]);
          assert EntryProblem(list[i + 1]) == Some(r.error);
          r
        else
          r
  }

  // ---------------------------------------------------------------------------
  // parse_model_string

  const BadShapePrefix := "期望格式 'provider/model-id'，得到: "
  const EmptyPartPrefix := "提供商和模型 ID 不能为空: "

  /** `parse_model_string`: split on every '/'; exactly two pieces, both
      non-empty, or an `InvalidModelString` error quoting the input. */
  function ParseModelString(model: string): (r: Result<(string, string), GatewayError>)
    ensures r.Err? ==> r.error.InvalidModelString?
  {
    var parts := Split(model, '/');
    if |parts| != 2 then
      Err(InvalidModelString(BadShapePrefix + model))
    else if parts[0] == "" || parts[1] == "" then
      Err(InvalidModelString(EmptyPartPrefix + model))
    else
      Ok((parts[0], parts[1]))
  }

  /** The strings that parse: exactly one '/', with text on both sides. */
  predicate WellFormedModelString(s: string) {
    CountChar(s, '/') == 1 && s[0] != '/' && s[|s| - 1] != '/'
  }

  /** Parsing succeeds exactly on well-formed strings, and then the two parts
      joined by '/' give the input back. */
  lemma {:induction false} ParseModelStringCorrect(s: string)
    ensures ParseModelString(s).Ok? <==> WellFormedModelString(s)
    ensures ParseModelString(s).Ok? ==>
              var (p, m) := ParseModelString(s).value;
              p + "/" + m == s && p != "" && m != "" && '/' !in p && '/' !in m
  {
    var parts := Split(s, '/');
    SplitCount(s, '/');
    SplitJoin(s, '/');
    if |parts| == 2 {
      assert JoinWith(parts, '/') == parts[0] + ['/'] + parts[1];
      assert s == parts[0] + "/" + parts[1];
      if parts[0] != "" && parts[1] != "" {
        assert s[0] == parts[0][0];
        assert s[|s| - 1] == parts[1][|parts[1]| - 1];
      } else if parts[0] == "" {
        assert s[0] == '/';
      } else {
        assert s[|s| - 1] == '/';
      }
    } else {
      assert CountChar(s, '/') != 1;
    }
  }

  /** Every provider/model pair without '/' survives formatting and parsing. */
  lemma ParseFormatted(provider: string, modelId: string)
    requires provider != "" && modelId != "" && '/' !in provider && '/' !in modelId
    ensures ParseModelString(provider + "/" + modelId) == Ok((provider, modelId))
  {
    SplitTwo(provider, modelId, '/');
  }
}
