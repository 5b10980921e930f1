/**
 * A concrete stand-in for Python's `float` and `int` on plain decimal tokens, and worked
 * examples of lines and runs under it.
 */
module Decimal {
  import opened Wrappers
  import opened LineClassifier

  function DigitValue(c: char): Option<nat> {
    if '0' <= c <= '9' then Some(c as nat - '0' as nat) else None
  }

  /** A non-empty run of decimal digits, read as a natural number. */
  function ParseDigits(s: string): (r: Option<nat>)
    ensures r.Some? ==> s != []
    decreases |s|
  {
    if s == [] then None
    else
      match DigitValue(s[|s| - 1])
      case None => None
      case Some(d) =>
        if |s| == 1 then Some(d)
        else match ParseDigits(s[..|s| - 1])
          case None => None
          case Some(n) => Some(10 * n + d)
  }

  function Pow10(n: nat): (r: nat)
    ensures r >= 1
  {
    if n == 0 then 1 else 10 * Pow10(n - 1)
  }

  function ParseInt(s: string): Option<int> {
    if s != [] && s[0] == '-' then
      match ParseDigits(s[1..]) case None => None case Some(n) => Some(-(n as int))
    else ParseDigits(s)
  }

  /** Digits, optionally followed by a point and more digits. */
  function ParseUnsignedReal(s: string): Option<real> {
    if '.' !in s then
      match ParseDigits(s) case None => None case Some(n) => Some(n as real)
    else
      var dot := IndexOfDot(s);
      match (ParseDigits(s[..dot]), ParseDigits(s[dot + 1..]))
      case (Some(w), Some(f)) => Some(w as real + f as real / Pow10(|s| - dot - 1) as real)
      case _ => None
  }

  function IndexOfDot(s: string): (k: nat)
    requires '.' in s
    ensures k < |s| && s[k] == '.' && '.' !in s[..k]
  {
    if s[0] == '.' then 0
    else
      assert '.' in s[1..] by { assert s == [s[0]] + s[1..]; }
      var k := 1 + IndexOfDot(s[1..]);
      assert s[..k] == [s[0]] + s[1..][..k - 1];
      k
  }

  function ParseReal(s: string): Option<real> {
    if s != [] && s[0] == '-' then
      match ParseUnsignedReal(s[1..]) case None => None case Some(v) => Some(-v)
    else ParseUnsignedReal(s)
  }

  const DecimalNumerals: Numerals := Numerals(ParseReal, ParseInt)
}

module Examples {
  import opened Wrappers
  import opened PyStr
  import opened LineClassifier
  import opened Decimal
  import Columns
  import opened Latency
  import opened RunAccumulator
  import RunDriver

  lemma ParseTwelveAndAHalf()
    ensures ParseReal("12.5") == Some(12.5)
  {
    assert IndexOfDot("12.5") == 2;
    assert ParseDigits("12") == Some(12) by {
      assert "12"[..1] == "1";
    }
    assert ParseDigits("5") == Some(5);
    assert "12.5"[..2] == "12" && "12.5"[3..] == "5";
  }

  /** The runtime figure of `"Took: 12.5\n"` is the piece `"12.5\n"` cut at its newline. */
  lemma TwelveAndAHalfPiece()
    ensures Split("12.5\n")[0] == "12.5\n" && UpToNewline("12.5\n") == "12.5"
  {
    var rest := "12.5\n";
    SplitSpaceFree(rest);
    assert rest[1..] == "2.5\n" && rest[2..] == ".5\n" && rest[3..] == "5\n" && rest[4..] == "\n";
  }

  /** A runtime line: the newline after the figure is cut before parsing. */
  lemma TookLineGivesRuntime()
    ensures Classify(DecimalNumerals, "Took: 12.5\n") == Ok(Runtime(12.5))
  {
    var rest := "12.5\n";
    assert TookMarker + " " + rest == "Took: 12.5\n";
    TwelveAndAHalfPiece();
    ParseTwelveAndAHalf();
    TookLine(DecimalNumerals, rest);
  }

  /** A bare `Took:` line is a fault, not an unrecognised line. */
  lemma TookWithoutFigureFails()
    ensures Classify(DecimalNumerals, "Took:").Err?
  {
    TookWithoutRuntime(DecimalNumerals);
  }

  lemma JoinFour(a: string, b: string, c: string, d: string)
    ensures Join([a, b, c, d] + []) == a + " " + b + " " + c + " " + d
  {
    var pieces := [a, b, c, d] + [];
    assert pieces[1..] == [b, c, d] && pieces[1..][1..] == [c, d] && pieces[1..][1..][1..] == [d];
    assert Join([c, d]) == c + " " + d;
    assert Join([b, c, d]) == b + " " + (c + " " + d);
    assert Join(pieces) == a + " " + (b + " " + (c + " " + d));
  }

  lemma SeparatedCount()
    ensures ParseInt(RemoveCommas("1,234")) == Some(1234)
  {
    assert RemoveCommas("1,234") == "1234" by {
      assert "1,234"[1..] == ",234" && ",234"[1..] == "234";
      assert "234"[1..] == "34" && "34"[1..] == "4" && "4"[1..] == "";
    }
    assert ParseDigits("1234") == Some(1234) by {
      assert "1234"[..3] == "123" && "123"[..2] == "12" && "12"[..1] == "1";
    }
  }

  /** A counter line `2 msec 1,234 cycles:ukhHG`, with a thousands separator in its count. */
  lemma SampleWithSeparator()
    ensures Classify(DecimalNumerals, Join(["2", "msec", "1,234", "cycles:ukhHG"]))
      == Ok(Sample(2.0, 1234, "cycles:ukhHG"))
  {
    SeparatedCount();
    assert ParseReal("2") == Some(2.0);
    assert "cycles:ukhHG" in Columns.ValidCols by {
      assert "cycles:ukhHG" == Columns.ValidCols[9];
    }
    SampleLine(DecimalNumerals, "2", "1,234", "cycles:ukhHG", []);
    assert ["2", "msec", "1,234", "cycles:ukhHG"] + [] == ["2", "msec", "1,234", "cycles:ukhHG"];
  }

  /** A counter name that still carries the line's newline is not a known counter, so
      the line is unrecognised whatever the numbers say. */
  lemma NewlineAfterNameIsUnrecognised(p: Numerals)
    ensures Classify(p, "2 msec 7 cycles:ukhHG\n") == Ok(Unrecognised)
  {
    var line := "2 msec 7 cycles:ukhHG\n";
    assert Join(["2", "msec", "7", "cycles:ukhHG\n"] + []) == line by {
      JoinFour("2", "msec", "7", "cycles:ukhHG\n");
    }
    assert "cycles:ukhHG\n" !in Columns.ValidCols by {
      forall k | 0 <= k < |Columns.ValidCols| ensures Columns.ValidCols[k] != "cycles:ukhHG\n" {
        assert |Columns.ValidCols[k]| != 13;
      }
    }
    SampleLine(p, "2", "7", "cycles:ukhHG\n", []);
  }

  /** No walks at all: the divide-by-zero warning and a latency of 0.0. */
  lemma NoWalks(t: Totals)
    requires t == [0, 0, 0, 0, 0, 0, 0, 0, 0, 7]
    ensures DivideByZeroWarning(t) && PageWalkLatency(t) == 0.0
  {
    WalkColumns();
  }

  /** 30 pending over 10 completed load walks: a latency of 3.0. */
  lemma ThreeCyclesPerWalk(t: Totals)
    requires t == [10, 30, 0, 0, 0, 0, 0, 0, 0, 0]
    ensures !DivideByZeroWarning(t) && PageWalkLatency(t) == 3.0
  {
    WalkColumns();
    assert Completed(t) == 10 && Pending(t) == 30;
  }

  /** The scan of the first run over three lines stamped 3.0, 4.0 and 1.0 stops at the
      third, having accepted the second as its last sample. */
  lemma FirstScanStops(p: Numerals, lines: seq<string>)
    requires |lines| == 3
    requires At(p, lines, 0) == Ok(Sample(3.0, 30, "dtlb_load_misses.walk_pending"))
    requires At(p, lines, 1) == Ok(Sample(4.0, 10, "dtlb_load_misses.walk_completed"))
    requires At(p, lines, 2) == Ok(Sample(1.0, 7, "cycles:ukhHG"))
    ensures FirstHalt(p, lines, 0, 0) == 2 && MaxTime(p, lines, 0, 2) == 4.0
    ensures LastSampleLine(p, lines, 0, 2) == 1
  {
    assert MaxTime(p, lines, 0, 1) == 3.0;
    assert !Halts(p, lines, 0, 0) && !Halts(p, lines, 0, 1) && Halts(p, lines, 0, 2);
    assert FirstHalt(p, lines, 0, 1) == 2;
  }

  /** The two samples the first run accepts are credited to their columns. */
  lemma FirstScanTotals(p: Numerals, lines: seq<string>)
    requires |lines| == 3
    requires At(p, lines, 0) == Ok(Sample(3.0, 30, "dtlb_load_misses.walk_pending"))
    requires At(p, lines, 1) == Ok(Sample(4.0, 10, "dtlb_load_misses.walk_completed"))
    ensures TotalsOver(p, lines, 0, 2) == [10, 30, 0, 0, 0, 0, 0, 0, 0, 0]
  {
    WalkColumns();
    assert TotalsOver(p, lines, 0, 1) == [0, 30, 0, 0, 0, 0, 0, 0, 0, 0];
  }

  /** A log of three samples and a last line: timestamps 3.0 and 4.0, then a drop to 1.0
      that starts a second run at line 2. The first run sees 30 pending and 10 completed
      walks, a latency of 3.0. */
  lemma FirstOfTwoRuns(p: Numerals, a: string, b: string, c: string, last: string)
    requires Classify(p, a) == Ok(Sample(3.0, 30, "dtlb_load_misses.walk_pending"))
    requires Classify(p, b) == Ok(Sample(4.0, 10, "dtlb_load_misses.walk_completed"))
    requires Classify(p, c) == Ok(Sample(1.0, 7, "cycles:ukhHG"))
    ensures var run := RunSpec(p, [a, b, c, last], 0);
      && run.Ok? && run.value.next == 2 && run.value.endTime == 4.0 && run.value.endLine == 1
      && run.value.latency == 3.0 && !run.value.warned && run.value.runtime == 0.0
  {
    var lines := Examined([a, b, c, last]);
    assert lines == [a, b, c];
    FirstScanStops(p, lines);
    FirstScanTotals(p, lines);
    ThreeCyclesPerWalk(TotalsOver(p, lines, 0, 2));
  }

  /** The second run of the same log: only the sample at line 2 is read, the last line
      never is, and with no walks the latency falls back to 0.0 with a warning. */
  lemma SecondOfTwoRuns(p: Numerals, a: string, b: string, c: string, last: string)
    requires Classify(p, c) == Ok(Sample(1.0, 7, "cycles:ukhHG"))
    ensures var run := RunSpec(p, [a, b, c, last], 2);
      && run.Ok? && run.value.next == 0 && run.value.totals == [0, 0, 0, 0, 0, 0, 0, 0, 0, 7]
      && run.value.latency == 0.0 && run.value.warned && run.value.runtime == 0.0
  {
    var lines := Examined([a, b, c, last]);
    assert lines == [a, b, c];
    assert At(p, lines, 2) == Classify(p, c);
    assert FirstHalt(p, lines, 2, 2) == 3 by {
      assert !Halts(p, lines, 2, 2);
    }
    assert TotalsOver(p, lines, 2, 3) == [0, 0, 0, 0, 0, 0, 0, 0, 0, 7];
    NoWalks(TotalsOver(p, lines, 2, 3));
  }

  /** The three samples of that log are stamped at or after 0.0. */
  lemma TwoRunsTimes(p: Numerals, a: string, b: string, c: string, last: string)
    requires Classify(p, a) == Ok(Sample(3.0, 30, "dtlb_load_misses.walk_pending"))
    requires Classify(p, b) == Ok(Sample(4.0, 10, "dtlb_load_misses.walk_completed"))
    requires Classify(p, c) == Ok(Sample(1.0, 7, "cycles:ukhHG"))
    requires Classify(p, last) == Ok(Unrecognised)
    ensures RunDriver.NonNegativeTimes(p, [a, b, c, last])
  {
  }

  /** The driver goes through exactly the two runs of that log. */
  lemma TwoRunsChain(p: Numerals, a: string, b: string, c: string, last: string)
    requires Classify(p, a) == Ok(Sample(3.0, 30, "dtlb_load_misses.walk_pending"))
    requires Classify(p, b) == Ok(Sample(4.0, 10, "dtlb_load_misses.walk_completed"))
    requires Classify(p, c) == Ok(Sample(1.0, 7, "cycles:ukhHG"))
    requires Classify(p, last) == Ok(Unrecognised)
    ensures RunDriver.NonNegativeTimes(p, [a, b, c, last])
    ensures RunSpec(p, [a, b, c, last], 0).Ok? && RunSpec(p, [a, b, c, last], 2).Ok?
    ensures RunDriver.Runs(p, [a, b, c, last], 0)
      == Ok([RunSpec(p, [a, b, c, last], 0).value, RunSpec(p, [a, b, c, last], 2).value])
  {
    var file := [a, b, c, last];
    TwoRunsTimes(p, a, b, c, last);
    FirstOfTwoRuns(p, a, b, c, last);
    SecondOfTwoRuns(p, a, b, c, last);
    ChainOfTwo(p, file, RunSpec(p, file, 0).value, RunSpec(p, file, 2).value);
  }

  /** The figures the driver collects from that log's two runs. */
  lemma TwoRunsFigures(p: Numerals, a: string, b: string, c: string, last: string)
    requires Classify(p, a) == Ok(Sample(3.0, 30, "dtlb_load_misses.walk_pending"))
    requires Classify(p, b) == Ok(Sample(4.0, 10, "dtlb_load_misses.walk_completed"))
    requires Classify(p, c) == Ok(Sample(1.0, 7, "cycles:ukhHG"))
    requires Classify(p, last) == Ok(Unrecognised)
    ensures RunDriver.NonNegativeTimes(p, [a, b, c, last])
    ensures var runs := RunDriver.Runs(p, [a, b, c, last], 0);
      && runs.Ok? && |runs.value| == 2 && runs.value[0].runtime == 0.0 && runs.value[0].latency == 3.0
      && runs.value[1].runtime == 0.0 && runs.value[1].latency == 0.0
  {
    TwoRunsChain(p, a, b, c, last);
    FirstOfTwoRuns(p, a, b, c, last);
    SecondOfTwoRuns(p, a, b, c, last);
  }

  /** Two runs, the first resuming at line 2 and the second at 0, are all the driver reads. */
  lemma ChainOfTwo(p: Numerals, file: seq<string>, r1: RunAccumulator.Run, r2: RunAccumulator.Run)
    requires RunDriver.NonNegativeTimes(p, file)
    requires RunSpec(p, file, 0) == Ok(r1) && r1.next == 2
    requires RunSpec(p, file, 2) == Ok(r2) && r2.next == 0
    ensures RunDriver.Runs(p, file, 0) == Ok([r1, r2])
  {
    RunDriver.RunsStep(p, file, 2);
    RunDriver.RunsStep(p, file, 0);
    assert [r1] + [r2] == [r1, r2];
  }

  /** The mean of two values is their midpoint. */
  lemma MeanOfTwo(x: real, y: real)
    ensures RunDriver.Mean([x, y]) == (x + y) / 2.0
  {
    assert [x, y][..1] == [x];
    assert [x][..0] == [];
    assert RunDriver.Sum([x]) == x;
    assert RunDriver.Sum([x, y]) == x + y;
  }

  /** The summary of two runs lists their figures in order and averages each pair. */
  lemma SummaryOfTwo(r1: RunAccumulator.Run, r2: RunAccumulator.Run)
    ensures var summary := RunDriver.Summarise([r1, r2]);
      && summary.runtimes == [r1.runtime, r2.runtime]
      && summary.latencies == [r1.latency, r2.latency]
      && summary.meanRuntime == (r1.runtime + r2.runtime) / 2.0
      && summary.meanLatency == (r1.latency + r2.latency) / 2.0
  {
    assert RunDriver.RuntimesOf([r1, r2]) == [r1.runtime, r2.runtime];
    assert RunDriver.LatenciesOf([r1, r2]) == [r1.latency, r2.latency];
    MeanOfTwo(r1.runtime, r2.runtime);
    MeanOfTwo(r1.latency, r2.latency);
  }

  /** The report of a log the driver reads in two runs lists both runs' figures and
      averages each pair. */
  lemma ReportOfTwo(p: Numerals, file: seq<string>, t1: real, t2: real, l1: real, l2: real)
    requires RunDriver.NonNegativeTimes(p, file)
    requires var r := RunDriver.Runs(p, file, 0);
      && r.Ok? && |r.value| == 2 && r.value[0].runtime == t1 && r.value[1].runtime == t2
      && r.value[0].latency == l1 && r.value[1].latency == l2
    ensures var report := RunDriver.Report(p, file);
      && report.Ok? && report.value.runtimes == [t1, t2] && report.value.latencies == [l1, l2]
      && report.value.meanRuntime == (t1 + t2) / 2.0 && report.value.meanLatency == (l1 + l2) / 2.0
  {
    var runs := RunDriver.Runs(p, file, 0).value;
    assert runs == [runs[0], runs[1]];
    SummaryOfTwo(runs[0], runs[1]);
  }

  /** A log whose first sample is stamped below 0.0 ends after one empty run, even though a
      later sample is negative too: the scan never gets past line 0. */
  lemma NegativeAfterDropAtZero(p: Numerals, a: string, b: string, last: string)
    requires Classify(p, a) == Ok(Sample(-1.0, 5, "cycles:ukhHG"))
    requires Classify(p, b) == Ok(Sample(-2.0, 5, "cycles:ukhHG"))
    ensures !RunDriver.NonNegativeTimes(p, [a, b, last]) && RunDriver.FirstRunIsLast(p, [a, b, last])
    ensures var runs := RunDriver.Runs(p, [a, b, last], 0);
      runs.Ok? && |runs.value| == 1 && runs.value[0].next == 0
  {
    var file := [a, b, last];
    assert file[0] == a && file[1] == b;
    RunDriver.DropAtFirstLineEndsDriver(p, file);
  }

  /** What the whole program reports for that log: no `Took:` lines, so both runtimes are
      0.0; latencies 3.0 and 0.0, averaging 1.5. */
  lemma TwoRunsReport(p: Numerals, a: string, b: string, c: string, last: string)
    requires Classify(p, a) == Ok(Sample(3.0, 30, "dtlb_load_misses.walk_pending"))
    requires Classify(p, b) == Ok(Sample(4.0, 10, "dtlb_load_misses.walk_completed"))
    requires Classify(p, c) == Ok(Sample(1.0, 7, "cycles:ukhHG"))
    requires Classify(p, last) == Ok(Unrecognised)
    ensures RunDriver.NonNegativeTimes(p, [a, b, c, last])
    ensures var report := RunDriver.Report(p, [a, b, c, last]);
      && report.Ok? && report.value.runtimes == [0.0, 0.0] && report.value.meanRuntime == 0.0
      && report.value.latencies == [3.0, 0.0] && report.value.meanLatency == 1.5
  {
    var file := [a, b, c, last];
    TwoRunsFigures(p, a, b, c, last);
    ReportOfTwo(p, file, 0.0, 0.0, 3.0, 0.0);
    assert (0.0 + 0.0) / 2.0 == 0.0 && (3.0 + 0.0) / 2.0 == 1.5;
  }
}
