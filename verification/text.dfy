/** The parts of Rust's `str` API that the gateway relies on, written out over
    `string` (a sequence of Unicode scalar values, as Rust's `char`):
    `find("\n\n")`, `lines()`, `strip_prefix`, `split`, `replace`,
    `trim_end_matches`, `chars().take(n)`, `join("")` and decimal formatting. */
module Text {
  import opened Wrappers

  // ---------------------------------------------------------------------------
  // Prefixes

  /** `s.starts_with(p)` */
  predicate StartsWith(s: string, p: string) {
    |p| <= |s| && s[..|p|] == p
  }

  /** `s.ends_with(p)` */
  predicate EndsWith(s: string, p: string) {
    |p| <= |s| && s[|s| - |p|..] == p
  }

  /** `s.strip_prefix(p)`: what follows p, when s starts with p. */
  function StripPrefix(s: string, p: string): (r: Option<string>)
    ensures r.Some? <==> StartsWith(s, p)
    ensures r.Some? ==> p + r.value == s
  {
    if StartsWith(s, p) then Some(s[|p|..]) else None
  }

  // ---------------------------------------------------------------------------
  // The blank line "\n\n" that ends an SSE frame

  /** The two-character sequence "\n\n" starts at index i of s. */
  predicate TerminatorAt(s: string, i: int) {
    0 <= i && i + 1 < |s| && s[i] == '\n' && s[i + 1] == '\n'
  }

  /** s contains no "\n\n" anywhere. */
  predicate NoTerminator(s: string) {
    forall j :: 0 <= j < |s| ==> !TerminatorAt(s, j)
  }

  /** `s.find("\n\n")`: the index of the first "\n\n", if there is one. */
  function FindTerminator(s: string): (r: Option<nat>)
    ensures r.Some? ==> TerminatorAt(s, r.value)
    ensures r.Some? ==> forall j :: 0 <= j < r.value ==> !TerminatorAt(s, j)
    ensures r.None? <==> NoTerminator(s)
  {
    FindTerminatorFrom(s, 0)
  }

  function FindTerminatorFrom(s: string, i: nat): (r: Option<nat>)
    requires i <= |s|
    requires forall j :: 0 <= j < i ==> !TerminatorAt(s, j)
    ensures r.Some? ==> i <= r.value && TerminatorAt(s, r.value)
    ensures r.Some? ==> forall j :: 0 <= j < r.value ==> !TerminatorAt(s, j)
    ensures r.None? <==> NoTerminator(s)
    decreases |s| - i
  {
    if i + 1 >= |s| then None
    else if s[i] == '\n' && s[i + 1] == '\n' then assert TerminatorAt(s, i); Some(i)
    else FindTerminatorFrom(s, i + 1)
  }

  /** A string without any '\n' has no "\n\n". */
  lemma NoNewlineNoTerminator(s: string)
    requires '\n' !in s
    ensures NoTerminator(s)
  {
    forall j | 0 <= j < |s| ensures s[j] != '\n' {
      assert s[j] in s;
    }
  }

  // ---------------------------------------------------------------------------
  // Single characters

  /** The index of the first c in s (`s.find(c)`). */
  function FindChar(s: string, c: char): (r: Option<nat>)
    ensures r.Some? ==> r.value < |s| && s[r.value] == c && c !in s[..r.value]
    ensures r.None? <==> c !in s
  {
    if s == [] then None
    else if s[0] == c then Some(0)
    else
      match FindChar(s[1..], c)
      case None => None
      case Some(i) =>
        assert s[..i + 1] == [s[0]] + s[1..][..i];
        Some(i + 1)
  }

  /** How many times c occurs in s. */
  function CountChar(s: string, c: char): nat {
    if s == [] then 0 else (if s[0] == c then 1 else 0) + CountChar(s[1..], c)
  }

  lemma CountCharConcat(a: string, b: string, c: char)
    ensures CountChar(a + b, c) == CountChar(a, c) + CountChar(b, c)
  {
    if a == [] {
      assert a + b == b;
    } else {
      assert (a + b)[1..] == a[1..] + b;
      CountCharConcat(a[1..], b, c);
    }
  }

  lemma CountCharAbsent(s: string, c: char)
    ensures CountChar(s, c) == 0 <==> c !in s
  {
    if s != [] {
      CountCharAbsent(s[1..], c);
      assert s == [s[0]] + s[1..];
    }
  }

  // ---------------------------------------------------------------------------
  // lines()

  /** Drop one '\r' at the end of a line. */
  function StripCr(line: string): (r: string)
    ensures |r| <= |line| && r == line[..|r|]
  {
    if |line| > 0 && line[|line| - 1] == '\r' then line[..|line| - 1] else line
  }

  /** `s.lines()`: the pieces between the '\n's; a '\r' just before a '\n' is
      dropped with it, a last piece without '\n' is kept as it is (with any '\r'),
      and a final '\n' does not start an empty last line. */
  function Lines(s: string): (r: seq<string>)
    ensures forall i :: 0 <= i < |r| ==> '\n' !in r[i]
    decreases |s|
  {
    if s == [] then []
    else
      match FindChar(s, '\n')
      case None => [s]
      case Some(i) =>
        var line := StripCr(s[..i]);
        assert '\n' !in line by {
          assert line == s[..i][..|line|];
          forall k | 0 <= k < |line| ensures line[k] != '\n' {
            assert line[k] == s[..i][k];
          }
        }
        [line] + Lines(s[i + 1..])
  }

  /** The text of lines, each followed by '\n'. */
  function Unlines(ls: seq<string>): string {
    if ls == [] then [] else ls[0] + "\n" + Unlines(ls[1..])
  }

  /** Joining lines adds no character other than the line feeds. */
  lemma {:induction false} UnlinesAddsOnlyLineFeeds(ls: seq<string>, c: char)
    requires c != '\n'
    requires forall i :: 0 <= i < |ls| ==> c !in ls[i]
    ensures c !in Unlines(ls)
  {
    if ls != [] {
      UnlinesAddsOnlyLineFeeds(ls[1..], c);
    }
  }

  /** A line that `lines()` returns unchanged: no '\n' in it and no '\r' at its end. */
  predicate PlainLine(l: string) {
    '\n' !in l && (l == [] || l[|l| - 1] != '\r')
  }

  /** Joining two texts without a line feed gives none. */
  lemma NoLineFeedJoin(a: string, b: string)
    requires '\n' !in a && '\n' !in b
    ensures '\n' !in a + b
  {
  }

  /** `lines()` undoes `Unlines` on plain lines. */
  lemma {:induction false} LinesUnlines(ls: seq<string>)
    requires forall i :: 0 <= i < |ls| ==> PlainLine(ls[i])
    ensures Lines(Unlines(ls)) == ls
  {
    if ls != [] {
      var l, more := ls[0], Unlines(ls[1..]);
      assert Unlines(ls) == l + ("\n" + more);
      LinesAfterPlain(l, more);
      LinesUnlines(ls[1..]);
      assert [l] + ls[1..] == ls;
    }
  }

  /** A plain line followed by '\n' is the first line, as it is. */
  lemma LinesAfterPlain(l: string, rest: string)
    requires PlainLine(l)
    ensures Lines(l + ("\n" + rest)) == [l] + Lines(rest)
  {
    var s := l + ("\n" + rest);
    FindCharAfterPlain(l, rest);
    LinesStep(s, |l|);
    assert s[..|l|] == l;
    assert s[|l| + 1..] == rest;
    assert StripCr(l) == l;
  }

  /** One step of `lines()`: the text up to the first '\n', then the lines after it. */
  lemma LinesStep(s: string, i: nat)
    requires FindChar(s, '\n') == Some(i)
    ensures i < |s| && Lines(s) == [StripCr(s[..i])] + Lines(s[i + 1..])
  {
  }

  /** A non-empty piece without '\n' is one line. */
  lemma LinesOfOne(s: string)
    requires s != [] && '\n' !in s
    ensures Lines(s) == [s]
  {
  }

  /** Two pieces joined by '\n': two lines, the first with a final '\r' dropped. */
  lemma LinesOfTwo(first: string, second: string)
    requires '\n' !in first && second != [] && '\n' !in second
    ensures Lines(first + "\n" + second) == [StripCr(first), second]
  {
    var s := first + "\n" + second;
    assert s == first + ("\n" + second);
    FindCharAfterPlain(first, second);
    assert s[..|first|] == first;
    assert s[|first| + 1..] == second;
    LinesOfOne(second);
  }

  lemma FindCharAfterPlain(l: string, rest: string)
    requires '\n' !in l
    ensures FindChar(l + ("\n" + rest), '\n') == Some(|l|)
  {
    var s := l + ("\n" + rest);
    assert s[..|l|] == l;
    FindCharIsFirst(s, '\n', |l|);
  }

  /** FindChar finds the first occurrence. */
  lemma {:induction false} FindCharIsFirst(s: string, c: char, k: nat)
    requires k < |s| && s[k] == c && c !in s[..k]
    ensures FindChar(s, c) == Some(k)
  {
    if k > 0 {
      assert s[0] == s[..k][0];
      assert s[1..][..k - 1] == s[..k][1..];
      FindCharIsFirst(s[1..], c, k - 1);
    }
  }

  // ---------------------------------------------------------------------------
  // split(c)

  /** `s.split(c).collect()`: the pieces between the occurrences of c. */
  function Split(s: string, c: char): (r: seq<string>)
    ensures |r| >= 1
    ensures forall i :: 0 <= i < |r| ==> c !in r[i]
    decreases |s|
  {
    match FindChar(s, c)
    case None => [s]
    case Some(i) => [s[..i]] + Split(s[i + 1..], c)
  }

  /** `parts.join(&c.to_string())` */
  function JoinWith(parts: seq<string>, c: char): string
    requires |parts| >= 1
  {
    if |parts| == 1 then parts[0] else parts[0] + [c] + JoinWith(parts[1..], c)
  }

  /** Splitting then joining with the same separator gives back the input. */
  lemma {:induction false} SplitJoin(s: string, c: char)
    ensures JoinWith(Split(s, c), c) == s
    decreases |s|
  {
    match FindChar(s, c)
    case None =>
    case Some(i) =>
      var parts := Split(s, c);
      assert parts == [s[..i]] + Split(s[i + 1..], c);
      assert parts[1..] == Split(s[i + 1..], c);
      assert JoinWith(parts, c) == s[..i] + [c] + JoinWith(Split(s[i + 1..], c), c);
      SplitJoin(s[i + 1..], c);
      assert s == s[..i] + [c] + s[i + 1..];
  }

  /** There is one more piece than there are separators. */
  lemma {:induction false} SplitCount(s: string, c: char)
    ensures |Split(s, c)| == CountChar(s, c) + 1
    decreases |s|
  {
    match FindChar(s, c)
    case None =>
      CountCharAbsent(s, c);
    case Some(i) =>
      SplitCount(s[i + 1..], c);
      assert s == s[..i] + ([c] + s[i + 1..]);
      CountCharConcat(s[..i], [c] + s[i + 1..], c);
      CountCharConcat([c], s[i + 1..], c);
      CountCharAbsent(s[..i], c);
  }

  /** Joining two separator-free pieces and splitting again gives the pieces back. */
  lemma SplitTwo(a: string, b: string, c: char)
    requires c !in a && c !in b
    ensures Split(a + [c] + b, c) == [a, b]
  {
    var s := a + [c] + b;
    assert s[..|a|] == a;
    FindCharIsFirst(s, c, |a|);
    assert s[|a| + 1..] == b;
    assert FindChar(b, c) == None;
  }

  // ---------------------------------------------------------------------------
  // replace(c, rep)

  /** `s.replace(c, rep)`: every c becomes rep, everything else stays. */
  function ReplaceChar(s: string, c: char, rep: string): (r: string)
    ensures c !in rep ==> c !in r
    ensures c !in s ==> r == s
  {
    if s == [] then [] else (if s[0] == c then rep else [s[0]]) + ReplaceChar(s[1..], c, rep)
  }

  /** Replacing distributes over concatenation. */
  lemma {:induction false} ReplaceCharConcat(a: string, b: string, c: char, rep: string)
    ensures ReplaceChar(a + b, c, rep) == ReplaceChar(a, c, rep) + ReplaceChar(b, c, rep)
  {
    if a == [] {
      assert a + b == b;
    } else {
      assert (a + b)[0] == a[0];
      assert (a + b)[1..] == a[1..] + b;
      ReplaceCharConcat(a[1..], b, c, rep);
    }
  }

  // ---------------------------------------------------------------------------
  // trim_end_matches(c), chars().take(n), join("")

  /** `s.trim_end_matches(c)`: s without its trailing run of c. */
  function TrimEndChar(s: string, c: char): (r: string)
    ensures |r| <= |s| && r == s[..|r|]
    ensures r == [] || r[|r| - 1] != c
    ensures forall k :: |r| <= k < |s| ==> s[k] == c
  {
    if s != [] && s[|s| - 1] == c then TrimEndChar(s[..|s| - 1], c) else s
  }

  /** `s.chars().take(n).collect()` */
  function Take(s: string, n: nat): (r: string)
    ensures |r| == if |s| <= n then |s| else n
    ensures StartsWith(s, r)
  {
    if |s| <= n then s else s[..n]
  }

  /** `parts.join("")` */
  function Concat(parts: seq<string>): string {
    if parts == [] then [] else parts[0] + Concat(parts[1..])
  }

  lemma {:induction false} ConcatAppend(a: seq<string>, b: seq<string>)
    ensures Concat(a + b) == Concat(a) + Concat(b)
  {
    if a == [] {
      assert a + b == b;
    } else {
      assert (a + b)[0] == a[0];
      assert (a + b)[1..] == a[1..] + b;
      ConcatAppend(a[1..], b);
    }
  }

  // ---------------------------------------------------------------------------
  // Decimal formatting of unsigned integers (`{}` on u16/u64)

  predicate IsDigit(ch: char) {
    '0' <= ch <= '9'
  }

  function DigitChar(d: nat): (ch: char)
    requires d < 10
    ensures IsDigit(ch) && ch as int - '0' as int == d
  {
    ['0', '1', '2', '3', '4', '5', '6', '7', '8', '9'][d]
  }

  /** The decimal text of n, most significant digit first, no leading zeros. */
  function NatToString(n: nat): (r: string)
    ensures |r| >= 1
    ensures forall i :: 0 <= i < |r| ==> IsDigit(r[i])
    ensures r[0] == '0' ==> n == 0
  {
    if n < 10 then [DigitChar(n)] else NatToString(n / 10) + [DigitChar(n % 10)]
  }

  /** The value of a string of decimal digits. */
  function DigitsValue(s: string): nat
    requires forall i :: 0 <= i < |s| ==> IsDigit(s[i])
  {
    if s == [] then 0
    else
      assert IsDigit(s[|s| - 1]);
      DigitsValue(s[..|s| - 1]) * 10 + (s[|s| - 1] as int - '0' as int)
  }

  /** Reading the decimal text back gives the number: the text determines it. */
  lemma {:induction false} DigitsOfNatToString(n: nat)
    ensures DigitsValue(NatToString(n)) == n
  {
    if n >= 10 {
      var r := NatToString(n);
      assert r[..|r| - 1] == NatToString(n / 10);
      DigitsOfNatToString(n / 10);
    }
  }

  /** Decimal text has no line break in it. */
  lemma NatToStringPlain(n: nat)
    ensures PlainLine(NatToString(n))
  {
    var r := NatToString(n);
    assert forall k :: 0 <= k < |r| ==> IsDigit(r[k]);
  }
}
