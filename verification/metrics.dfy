/** The request counters and their Prometheus text exposition. The three
    counters are unsigned 64-bit atomics whose increments wrap around. */
module Metrics {
  import opened Ints
  import opened Text

  const Modulus := 0x1_0000_0000_0000_0000

  /** `fetch_add(1)` on a u64: one more, or zero after the largest value. */
  function Bump(n: u64): (r: u64)
    ensures n < 0xFFFF_FFFF_FFFF_FFFF ==> r == n + 1
    ensures n == 0xFFFF_FFFF_FFFF_FFFF ==> r == 0
    ensures r as int == (n as int + 1) % Modulus
  {
    if n == 0xFFFF_FFFF_FFFF_FFFF then 0 else n + 1
  }

  const MetricPrefix := "feathergate_requests_"
  const TotalName := MetricPrefix + "total"
  const SuccessfulName := MetricPrefix + "successful"
  const FailedName := MetricPrefix + "failed"

  function HelpLine(name: string, text: string): string {
    "# HELP " + name + " " + text
  }

  function TypeLine(name: string): string {
    "# TYPE " + name + " counter"
  }

  function ValueLine(name: string, value: nat): string {
    name + " " + NatToString(value)
  }

  /** The exposition, line by line: help, type and value of each counter. */
  function ExpositionLines(total: nat, successful: nat, failed: nat): seq<string> {
    [HelpLine(TotalName, "Total number of requests"), TypeLine(TotalName), ValueLine(TotalName, total),
     HelpLine(SuccessfulName, "Successful requests"), TypeLine(SuccessfulName), ValueLine(SuccessfulName, successful),
     HelpLine(FailedName, "Failed requests"), TypeLine(FailedName), ValueLine(FailedName, failed)]
  }

  class Metrics {
    var total: u64
    var successful: u64
    var failed: u64

    /** Every recorded request was recorded as exactly one of the two
        outcomes (modulo the wrap-around of the counters). */
    predicate Balanced()
      reads this
    {
      (total as int - successful as int - failed as int) % Modulus == 0
    }

    /** `Metrics::new`: all counters at zero. */
    constructor ()
      ensures total == 0 && successful == 0 && failed == 0
      ensures Balanced()
    {
      total := 0;
      successful := 0;
      failed := 0;
    }

    /** `record_success` */
    method RecordSuccess()
      modifies this
      ensures total == Bump(old(total)) && successful == Bump(old(successful)) && failed == old(failed)
      ensures old(Balanced()) ==> Balanced()
    {
      total := Bump(total);
      successful := Bump(successful);
      BumpBoth(old(total), old(successful), failed);
    }

    /** `record_failure` */
    method RecordFailure()
      modifies this
      ensures total == Bump(old(total)) && failed == Bump(old(failed)) && successful == old(successful)
      ensures old(Balanced()) ==> Balanced()
    {
      total := Bump(total);
      failed := Bump(failed);
      BumpBoth(old(total), old(failed), successful);
    }

    /** `export_prometheus`: the text whose lines are the exposition lines,
        each ending in a line feed. */
    function ExportPrometheus(): (r: string)
      reads this
      ensures Lines(r) == ExpositionLines(total as nat, successful as nat, failed as nat)
      ensures r[|r| - 1] == '\n'
      ensures '\r' !in r
    {
      var ls := ExpositionLines(total as nat, successful as nat, failed as nat);
      ExpositionLinesPlain(total as nat, successful as nat, failed as nat);
      LinesUnlines(ls);
      UnlinesEndsWithLineFeed(ls);
      ExpositionLinesNoCr(total as nat, successful as nat, failed as nat);
      UnlinesAddsOnlyLineFeeds(ls, '\r');
      Unlines(ls)
    }
  }

  /** While the two outcome counters together stay below 2^64, a balanced
      state has exactly total == successful + failed. */
  lemma BalancedIsExact(m: Metrics)
    requires m.Balanced()
    requires m.successful as int + m.failed as int < Modulus
    ensures m.total as int == m.successful as int + m.failed as int
  {
    var d := m.total as int - m.successful as int - m.failed as int;
    assert -Modulus < d < Modulus;
  }

  /** Bumping two counters keeps their difference modulo 2^64. */
  lemma BumpBoth(a: u64, b: u64, c: u64)
    ensures (a as int - b as int - c as int) % Modulus == 0 ==>
              (Bump(a) as int - Bump(b) as int - c as int) % Modulus == 0
  {
    var d := a as int - b as int - c as int;
    var d' := Bump(a) as int - Bump(b) as int - c as int;
    if a == 0xFFFF_FFFF_FFFF_FFFF && b != 0xFFFF_FFFF_FFFF_FFFF {
      assert d' == d - Modulus;
    } else if a != 0xFFFF_FFFF_FFFF_FFFF && b == 0xFFFF_FFFF_FFFF_FFFF {
      assert d' == d + Modulus;
    } else {
      assert d' == d;
    }
  }

  lemma UnlinesEndsWithLineFeed(ls: seq<string>)
    requires ls != []
    ensures |Unlines(ls)| > 0 && Unlines(ls)[|Unlines(ls)| - 1] == '\n'
  {
    if |ls| > 1 {
      UnlinesEndsWithLineFeed(ls[1..]);
    }
  }

  lemma {:induction false} ExpositionLinesPlain(total: nat, successful: nat, failed: nat)
    ensures forall i :: 0 <= i < 9 ==> PlainLine(ExpositionLines(total, successful, failed)[i])
  {
    assert '\n' !in MetricPrefix;
    NoLineFeedJoin(MetricPrefix, "total");
    NoLineFeedJoin(MetricPrefix, "successful");
    NoLineFeedJoin(MetricPrefix, "failed");
    HelpLinePlain(TotalName, "Total number of requests");
    HelpLinePlain(SuccessfulName, "Successful requests");
    HelpLinePlain(FailedName, "Failed requests");
    TypeLinePlain(TotalName);
    TypeLinePlain(SuccessfulName);
    TypeLinePlain(FailedName);
    ValueLinePlain(TotalName, total);
    ValueLinePlain(SuccessfulName, successful);
    ValueLinePlain(FailedName, failed);
  }

  /** No exposition line holds a carriage return. */
  lemma {:induction false} ExpositionLinesNoCr(total: nat, successful: nat, failed: nat)
    ensures forall i :: 0 <= i < 9 ==> '\r' !in ExpositionLines(total, successful, failed)[i]
  {
    assert '\r' !in MetricPrefix;
    assert '\r' !in TotalName && '\r' !in SuccessfulName && '\r' !in FailedName;
    assert '\r' !in "Total number of requests" && '\r' !in "Successful requests" && '\r' !in "Failed requests";
    LinesNoCr(TotalName, "Total number of requests", total);
    LinesNoCr(SuccessfulName, "Successful requests", successful);
    LinesNoCr(FailedName, "Failed requests", failed);
  }

  lemma LinesNoCr(name: string, text: string, value: nat)
    requires '\r' !in name && '\r' !in text
    ensures '\r' !in HelpLine(name, text) && '\r' !in TypeLine(name) && '\r' !in ValueLine(name, value)
  {
    var d := NatToString(value);
    assert forall k :: 0 <= k < |d| ==> IsDigit(d[k]);
  }

  lemma HelpLinePlain(name: string, text: string)
    requires '\n' !in name && '\n' !in text && text != [] && text[|text| - 1] != '\r'
    ensures PlainLine(HelpLine(name, text))
  {
    NoLineFeedJoin("# HELP " + name + " ", text);
  }

  lemma TypeLinePlain(name: string)
    requires '\n' !in name
    ensures PlainLine(TypeLine(name))
  {
    NoLineFeedJoin("# TYPE " + name, " counter");
  }

  lemma ValueLinePlain(name: string, value: nat)
    requires '\n' !in name
    ensures PlainLine(ValueLine(name, value))
  {
    NatToStringPlain(value);
    NoLineFeedJoin(name + " ", NatToString(value));
  }

  /** A scraper reading the value line of a counter gets the counter back:
      the line is the metric name, a space, and the decimal digits of the
      value. */
  lemma ValueLineReadsBack(name: string, value: nat)
    ensures var line := ValueLine(name, value);
            StartsWith(line, name + " ")
            && (forall i :: |name| + 1 <= i < |line| ==> IsDigit(line[i]))
            && DigitsValue(line[|name| + 1..]) == value
  {
    var line := ValueLine(name, value);
    assert line[|name| + 1..] == NatToString(value);
    assert line[..|name| + 1] == name + " ";
    DigitsOfNatToString(value);
  }
}
