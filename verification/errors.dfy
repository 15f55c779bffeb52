/** The gateway's error type (`FeatherGateError`), its three convenience
    constructors and its `Display` texts. Errors that wrap a foreign library
    error (I/O, YAML, JSON, HTTP) carry that error's own text. */
module Errors {
  import opened Ints
  import opened Text

  datatype GatewayError =
    | ConfigError(message: string)
    | IoError(detail: string)
    | YamlError(detail: string)
    | JsonError(detail: string)
    | HttpError(detail: string)
    | ModelNotFound(name: string)
    | UnsupportedProvider(provider: string)
    | InvalidModelString(message: string)
    | UpstreamError(status: u16, message: string)
    | InternalError(message: string)
  {
    /** The words in front of the colon in each variant's display text. */
    function Label(): string {
      match this
      case ConfigError(_) => "配置错误"
      case IoError(_) => "IO 错误"
      case YamlError(_) => "YAML 解析错误"
      case JsonError(_) => "JSON 解析错误"
      case HttpError(_) => "HTTP 请求错误"
      case ModelNotFound(_) => "模型未找到"
      case UnsupportedProvider(_) => "提供商不支持"
      case InvalidModelString(_) => "无效的模型字符串"
      case UpstreamError(_, _) => "上游 API 错误"
      case InternalError(_) => "内部错误"
    }

    /** The text a variant carries. */
    function Detail(): string {
      match this
      case ConfigError(m) => m
      case IoError(d) => d
      case YamlError(d) => d
      case JsonError(d) => d
      case HttpError(d) => d
      case ModelNotFound(n) => n
      case UnsupportedProvider(p) => p
      case InvalidModelString(m) => m
      case UpstreamError(_, m) => m
      case InternalError(m) => m
    }

    /** The `#[error(...)]` text of each variant: its label, a colon and a
        space, then what it carries; an upstream error shows its decimal
        status and " - " in front of the message. */
    function ToString(): (r: string)
      ensures StartsWith(r, Label() + ": ") && EndsWith(r, Detail())
      ensures !UpstreamError? ==> |r| == |Label()| + 2 + |Detail()|
    {
      var head := Label() + ": ";
      var r := if UpstreamError? then head + NatToString(status) + " - " + message else head + Detail();
      assert r[..|head|] == head;
      assert r[|r| - |Detail()|..] == Detail();
      r
    }
  }

  /** `FeatherGateError::config(msg)` */
  function Config(msg: string): (e: GatewayError)
    ensures e.ConfigError? && e.message == msg
    ensures e.ToString() == "配置错误: " + msg
  {
    ConfigError(msg)
  }

  /** `FeatherGateError::internal(msg)` */
  function Internal(msg: string): (e: GatewayError)
    ensures e.InternalError? && e.message == msg
    ensures e.ToString() == "内部错误: " + msg
  {
    InternalError(msg)
  }

  /** `FeatherGateError::upstream(status, message)` */
  function Upstream(status: u16, message: string): (e: GatewayError)
    ensures e.UpstreamError? && e.status == status && e.message == message
    ensures e.ToString() == "上游 API 错误: " + NatToString(status) + " - " + message
  {
    UpstreamError(status, message)
  }

  lemma UpstreamTextSplits(s: u16, m: string)
    ensures Upstream(s, m).ToString() == "上游 API 错误: " + (NatToString(s) + (" - " + m))
  {
    var h, d := "上游 API 错误: ", NatToString(s);
    assert h + d + " - " + m == h + (d + (" - " + m));
  }

  lemma DropCommonPrefix(h: string, a: string, b: string)
    requires h + a == h + b
    ensures a == b
  {
    assert a == (h + a)[|h|..];
    assert b == (h + b)[|h|..];
  }

  /** The display text of an upstream error determines its status and message:
      the decimal status is followed by a space, which is not a digit. */
  lemma {:induction false} UpstreamTextDetermines(s1: u16, m1: string, s2: u16, m2: string)
    requires Upstream(s1, m1).ToString() == Upstream(s2, m2).ToString()
    ensures s1 == s2 && m1 == m2
  {
    var d1, d2 := NatToString(s1), NatToString(s2);
    UpstreamTextSplits(s1, m1);
    UpstreamTextSplits(s2, m2);
    DropCommonPrefix("上游 API 错误: ", d1 + (" - " + m1), d2 + (" - " + m2));
    SameDigitsPrefix(d1, " - " + m1, d2, " - " + m2);
    DigitsOfNatToString(s1);
    DigitsOfNatToString(s2);
    DropCommonPrefix(" - ", m1, m2);
  }

  /** The labels start with ten different characters, so the first character
      of a display text tells the variant. */
  lemma LabelInitialDetermines(e1: GatewayError, e2: GatewayError)
    requires e1.Label()[0] == e2.Label()[0]
    ensures e1.Label() == e2.Label()
    ensures e1.UpstreamError? <==> e2.UpstreamError?
  {
  }

  /** Two errors with the same display text are the same error: an error
      body names the failure it reports, and what it carries. */
  lemma {:induction false} DisplayDeterminesError(e1: GatewayError, e2: GatewayError)
    requires e1.ToString() == e2.ToString()
    ensures e1 == e2
  {
    var t := e1.ToString();
    assert t[0] == (e1.Label() + ": ")[0] == e1.Label()[0];
    assert t[0] == (e2.Label() + ": ")[0] == e2.Label()[0];
    LabelInitialDetermines(e1, e2);
    if e1.UpstreamError? {
      UpstreamTextDetermines(e1.status, e1.message, e2.status, e2.message);
    } else {
      var n := |e1.Label()| + 2;
      assert e1.Detail() == t[n..] == e2.Detail();
    }
  }

  /** Two digit strings each followed by a text that starts with a non-digit:
      if the concatenations agree, so do the parts. */
  lemma SameDigitsPrefix(d1: string, r1: string, d2: string, r2: string)
    requires forall i :: 0 <= i < |d1| ==> IsDigit(d1[i])
    requires forall i :: 0 <= i < |d2| ==> IsDigit(d2[i])
    requires |r1| > 0 && !IsDigit(r1[0]) && |r2| > 0 && !IsDigit(r2[0])
    requires d1 + r1 == d2 + r2
    ensures d1 == d2 && r1 == r2
  {
    var s := d1 + r1;
    assert s[|d1|] == r1[0];
    assert s[|d2|] == r2[0];
    assert forall k :: 0 <= k < |d1| ==> IsDigit(s[k]) by {
      forall k | 0 <= k < |d1| ensures IsDigit(s[k]) { assert s[k] == d1[k]; }
    }
    assert forall k :: 0 <= k < |d2| ==> IsDigit(s[k]) by {
      forall k | 0 <= k < |d2| ensures IsDigit(s[k]) { assert s[k] == (d2 + r2)[k] == d2[k]; }
    }
    assert |d1| == |d2|;
    assert d1 == s[..|d1|] && d2 == s[..|d2|];
    assert r1 == s[|d1|..] && r2 == s[|d2|..];
  }
}
