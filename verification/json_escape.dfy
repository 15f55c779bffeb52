/** The hand-written string escaping used when the stream translators splice
    text into a JSON chunk (`escape_json` in the Anthropic adapter and the
    identical `escape_json_gemini` in the Gemini adapter). It escapes only
    backslash, double quote, LF, CR and TAB; the other control characters that
    section 7 of RFC 8259 requires to be escaped pass through unchanged. */
module JsonEscape {
  import opened Wrappers
  import opened Text

  /** The five replacements in the order the source applies them, backslash
      first so that the backslashes introduced later are not doubled. */
  function EscapeJson(s: string): (r: string)
    ensures '\\' !in s && '"' !in s && '\n' !in s && '\r' !in s && '\t' !in s ==> r == s
  {
    var a := ReplaceChar(s, '\\', "\\\\");
    var b := ReplaceChar(a, '"', "\\\"");
    var c := ReplaceChar(b, '\n', "\\n");
    var d := ReplaceChar(c, '\r', "\\r");
    ReplaceChar(d, '\t', "\\t")
  }

  /** Reference definition: the escape of one character. */
  function EscapeChar(ch: char): string {
    if ch == '\\' then "\\\\"
    else if ch == '"' then "\\\""
    else if ch == '\n' then "\\n"
    else if ch == '\r' then "\\r"
    else if ch == '\t' then "\\t"
    else [ch]
  }

  /** Reference definition: each character escaped on its own. */
  function EscapeEach(s: string): string {
    if s == [] then [] else EscapeChar(s[0]) + EscapeEach(s[1..])
  }

  lemma EscapeJsonConcat(a: string, b: string)
    ensures EscapeJson(a + b) == EscapeJson(a) + EscapeJson(b)
  {
    ReplaceCharConcat(a, b, '\\', "\\\\");
    var a1, b1 := ReplaceChar(a, '\\', "\\\\"), ReplaceChar(b, '\\', "\\\\");
    ReplaceCharConcat(a1, b1, '"', "\\\"");
    var a2, b2 := ReplaceChar(a1, '"', "\\\""), ReplaceChar(b1, '"', "\\\"");
    ReplaceCharConcat(a2, b2, '\n', "\\n");
    var a3, b3 := ReplaceChar(a2, '\n', "\\n"), ReplaceChar(b2, '\n', "\\n");
    ReplaceCharConcat(a3, b3, '\r', "\\r");
    var a4, b4 := ReplaceChar(a3, '\r', "\\r"), ReplaceChar(b3, '\r', "\\r");
    ReplaceCharConcat(a4, b4, '\t', "\\t");
  }

  lemma EscapeJsonOneChar(ch: char)
    ensures EscapeJson([ch]) == EscapeChar(ch)
  {
    var s := [ch];
    assert ReplaceChar(s, '\\', "\\\\") == (if ch == '\\' then "\\\\" else s) + ReplaceChar([], '\\', "\\\\");
    var a := ReplaceChar(s, '\\', "\\\\");
    if ch == '\\' {
      assert a == "\\\\";
    } else {
      assert a == s;
      assert ReplaceChar(a, '"', "\\\"") == (if ch == '"' then "\\\"" else s) + ReplaceChar([], '"', "\\\"");
      var b := ReplaceChar(a, '"', "\\\"");
      if ch != '"' {
        assert b == s;
        assert ReplaceChar(b, '\n', "\\n") == (if ch == '\n' then "\\n" else s) + ReplaceChar([], '\n', "\\n");
        var c := ReplaceChar(b, '\n', "\\n");
        if ch != '\n' {
          assert c == s;
          assert ReplaceChar(c, '\r', "\\r") == (if ch == '\r' then "\\r" else s) + ReplaceChar([], '\r', "\\r");
          var d := ReplaceChar(c, '\r', "\\r");
          if ch != '\r' {
            assert d == s;
            assert ReplaceChar(d, '\t', "\\t") == (if ch == '\t' then "\\t" else s) + ReplaceChar([], '\t', "\\t");
          }
        }
      }
    }
  }

  /** The chain of replacements escapes every character independently. */
  lemma {:induction false} EscapeJsonIsEscapeEach(s: string)
    ensures EscapeJson(s) == EscapeEach(s)
  {
    if s == [] {
    } else {
      assert s == [s[0]] + s[1..];
      EscapeJsonConcat([s[0]], s[1..]);
      EscapeJsonOneChar(s[0]);
      EscapeJsonIsEscapeEach(s[1..]);
    }
  }

  /** The characters the escaping never leaves raw. */
  predicate Unbroken(ch: char) {
    ch != '\n' && ch != '\r' && ch != '\t'
  }

  /** The shape of escaped text: nothing raw, every quote after a backslash,
      and no quote in front. */
  predicate Escaped(r: string) {
    (forall i :: 0 <= i < |r| ==> Unbroken(r[i]))
    && (forall i :: 0 <= i < |r| && r[i] == '"' ==> 0 < i && r[i - 1] == '\\')
    && (r == [] || r[0] != '"')
  }

  lemma EscapeCharEscaped(ch: char)
    ensures Escaped(EscapeChar(ch))
  {
  }

  /** Escaped pieces stay escaped when put together. */
  lemma EscapedConcat(a: string, b: string)
    requires Escaped(a) && Escaped(b)
    ensures Escaped(a + b)
  {
    var r := a + b;
    forall i | 0 <= i < |r| ensures Unbroken(r[i]) {
      if i < |a| {
        assert r[i] == a[i];
      } else {
        assert r[i] == b[i - |a|];
      }
    }
    forall i | 0 <= i < |r| && r[i] == '"' ensures 0 < i && r[i - 1] == '\\' {
      if i < |a| {
        assert r[i] == a[i];
        assert r[i - 1] == a[i - 1];
      } else {
        assert b[i - |a|] == '"';
        assert i - |a| > 0;
        assert r[i - 1] == b[i - |a| - 1];
      }
    }
    if a == [] {
      assert r == b;
    } else {
      assert r[0] == a[0];
    }
  }

  lemma {:induction false} EscapeEachShape(s: string)
    ensures Escaped(EscapeEach(s))
  {
    if s != [] {
      EscapeEachShape(s[1..]);
      EscapeCharEscaped(s[0]);
      EscapedConcat(EscapeChar(s[0]), EscapeEach(s[1..]));
    }
  }

  /** The escaped text holds no raw line feed, carriage return or tab, and
      every double quote in it directly follows a backslash. */
  lemma EscapeJsonSafe(s: string)
    ensures '\n' !in EscapeJson(s) && '\r' !in EscapeJson(s) && '\t' !in EscapeJson(s)
    ensures forall i :: 0 <= i < |EscapeJson(s)| && EscapeJson(s)[i] == '"' ==> 0 < i && EscapeJson(s)[i - 1] == '\\'
  {
    EscapeJsonIsEscapeEach(s);
    EscapeEachShape(s);
    var r := EscapeJson(s);
    forall i | 0 <= i < |r| ensures r[i] != '\n' && r[i] != '\r' && r[i] != '\t' {
      assert Unbroken(r[i]);
    }
  }

  /** The character a JSON escape sequence `\x` stands for, for the five
      escapes this encoder produces. */
  function EscapeCode(x: char): (r: Option<char>)
    ensures r.Some? ==> EscapeChar(r.value) == ['\\', x]
  {
    if x == '\\' then Some('\\')
    else if x == '"' then Some('"')
    else if x == 'n' then Some('\n')
    else if x == 'r' then Some('\r')
    else if x == 't' then Some('\t')
    else None
  }

  /** Decoder for the body of a JSON string restricted to those five escapes. */
  function Unescape(r: string): Option<string>
    decreases |r|
  {
    if r == [] then Some([])
    else if r[0] == '\\' then
      if |r| < 2 then None
      else
        match EscapeCode(r[1])
        case None => None
        case Some(ch) =>
          match Unescape(r[2..])
          case None => None
          case Some(t) => Some([ch] + t)
    else
      match Unescape(r[1..])
      case None => None
      case Some(t) => Some([r[0]] + t)
  }

  /** Decoding the escaped text gives the original back. */
  lemma {:induction false} UnescapeEscapeJson(s: string)
    ensures Unescape(EscapeJson(s)) == Some(s)
  {
    EscapeJsonIsEscapeEach(s);
    UnescapeEscapeEach(s);
  }

  lemma {:induction false} UnescapeEscapeEach(s: string)
    ensures Unescape(EscapeEach(s)) == Some(s)
  {
    if s != [] {
      var head, tail := EscapeChar(s[0]), EscapeEach(s[1..]);
      UnescapeEscapeEach(s[1..]);
      var r := head + tail;
      assert EscapeEach(s) == r;
      if |head| == 2 {
        assert r[0] == '\\' && r[2..] == tail;
      } else {
        assert r[0] == s[0] && r[1..] == tail;
      }
      assert s == [s[0]] + s[1..];
    }
  }

  /** The other C0 control characters are copied raw, so the output is not a
      complete JSON string escaper in the sense of RFC 8259. */
  lemma ControlCharactersPassThrough(ch: char)
    requires ch < ' ' && Unbroken(ch)
    ensures EscapeJson([ch]) == [ch]
  {
    EscapeJsonOneChar(ch);
  }
}
