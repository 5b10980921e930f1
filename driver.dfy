/**
 * The top-level loop: calls `read_run` from line 0, then from each resume line, collecting
 * one runtime and one latency per run until the resume line comes back as 0, and then
 * averages both.
 */
module RunDriver {
  import opened Wrappers
  import opened LineClassifier
  import opened RunAccumulator

  /** Every sample a later run could start on carries a non-negative timestamp, as perf's
      do. Line 0 and the last line are free: a drop at line 0 ends the input, and the last
      line is never read. */
  predicate NonNegativeTimes(p: Numerals, file: seq<string>) {
    forall i :: 0 < i < |file| - 1 && Classify(p, file[i]).Ok? && Classify(p, file[i]).value.Sample?
      ==> Classify(p, file[i]).value.time >= 0.0
  }

  /** The first call of `read_run` is also the last: it crashes or returns resume line 0,
      so the driver stops whatever the later lines hold. */
  predicate FirstRunIsLast(p: Numerals, file: seq<string>) {
    RunSpec(p, file, 0).Err? || RunSpec(p, file, 0).value.next == 0
  }

  /** A sample stamped below 0.0 on line 0, where the first scan stops at once. */
  predicate DropsAtZero(p: Numerals, file: seq<string>) {
    && 1 < |file|
    && Classify(p, file[0]).Ok? && Classify(p, file[0]).value.Sample?
    && Classify(p, file[0]).value.time < 0.0
  }

  /** A non-zero resume line lies strictly after the start line, so the driver makes
      progress, and inside the file. A first run that is the last never gives one, so a
      driver that gets one reads only non-negative timestamps from then on. */
  lemma RunAdvances(p: Numerals, file: seq<string>, start: nat)
    requires NonNegativeTimes(p, file) || (start == 0 && FirstRunIsLast(p, file))
    requires RunSpec(p, file, start).Ok? && RunSpec(p, file, start).value.next != 0
    ensures NonNegativeTimes(p, file)
    ensures start < RunSpec(p, file, start).value.next < |file| - 1
  {
    if !NonNegativeTimes(p, file) {
      assert false;
    } else {
      ResumeIsFirstDrop(p, file, start);
      var next, lines := RunSpec(p, file, start).value.next, Examined(file);
      assert Classify(p, file[next]) == At(p, lines, next);
    }
  }

  /** A sample with a negative timestamp at a later start line stops the scan at once, so
      `read_run` hands back its own start line and the driver would call it again forever. */
  lemma NegativeStartRepeats(p: Numerals, file: seq<string>, start: nat)
    requires 0 < start < |file| - 1
    requires Classify(p, file[start]).Ok? && Classify(p, file[start]).value.Sample?
    requires Classify(p, file[start]).value.time < 0.0
    ensures RunSpec(p, file, start).Ok? && RunSpec(p, file, start).value.next == start
  {
    var lines := Examined(file);
    assert At(p, lines, start) == Classify(p, file[start]);
    assert Halts(p, lines, start, start);
  }

  /** A drop below 0.0 on the very first line reads as the end of the input: the run comes
      back empty with resume line 0. */
  lemma DropAtFirstLineLooksLikeEnd(p: Numerals, file: seq<string>)
    requires DropsAtZero(p, file)
    ensures RunSpec(p, file, 0).Ok?
    ensures RunSpec(p, file, 0).value.next == 0 && RunSpec(p, file, 0).value.totals == NoCounts
  {
    var lines := Examined(file);
    assert At(p, lines, 0) == Classify(p, file[0]);
    assert Halts(p, lines, 0, 0);
  }

  /** The runs the driver goes through from `start`: one per call of `read_run`, the last
      being the one whose resume line is 0; a crash on the way ends everything. */
  function Runs(p: Numerals, file: seq<string>, start: nat): (r: Result<seq<Run>, Crash>)
    requires NonNegativeTimes(p, file) || (start == 0 && FirstRunIsLast(p, file))
    ensures r.Ok? ==> |r.value| >= 1 && r.value[|r.value| - 1].next == 0
    decreases |file| - start
  {
    match RunSpec(p, file, start)
    case Err(e) => Err(e)
    case Ok(run) =>
      if run.next == 0 then Ok([run])
      else
        RunAdvances(p, file, start);
        match Runs(p, file, run.next)
        case Err(e) => Err(e)
        case Ok(rest) => LastAfterPrepend(run, rest); Ok([run] + rest)
  }

  lemma LastAfterPrepend(run: Run, rest: seq<Run>)
    requires |rest| >= 1
    ensures ([run] + rest)[|rest|] == rest[|rest| - 1]
  {
  }

  /** A drop below 0.0 on the very first line makes the driver stop after one empty run,
      exactly as if the input had ended there. */
  lemma DropAtFirstLineEndsDriver(p: Numerals, file: seq<string>)
    requires DropsAtZero(p, file)
    ensures FirstRunIsLast(p, file)
    ensures Runs(p, file, 0).Ok? && |Runs(p, file, 0).value| == 1
    ensures Runs(p, file, 0).value[0].next == 0 && Runs(p, file, 0).value[0].totals == NoCounts
  {
    DropAtFirstLineLooksLikeEnd(p, file);
  }

  /** The driver's first run is `read_run(start)`; it is the last when its resume line is 0,
      and is otherwise followed by the runs from that resume line. */
  lemma RunsCons(p: Numerals, file: seq<string>, start: nat)
    requires NonNegativeTimes(p, file) && Runs(p, file, start).Ok?
    ensures RunSpec(p, file, start).Ok? && RunSpec(p, file, start) == Ok(Runs(p, file, start).value[0])
    ensures var run := RunSpec(p, file, start).value;
      run.next == 0 ==> Runs(p, file, start).value == [run]
    ensures var run := RunSpec(p, file, start).value;
      run.next != 0 ==>
        && start < run.next < |file|
        && Runs(p, file, run.next).Ok?
        && Runs(p, file, start).value == [run] + Runs(p, file, run.next).value
  {
    if RunSpec(p, file, start).Ok? && RunSpec(p, file, start).value.next != 0 {
      RunAdvances(p, file, start);
    }
  }

  /** Each run is what `read_run` gives at the previous run's resume line, and every run but
      the last has a non-zero resume line, past the start. */
  lemma {:induction false} RunsChain(p: Numerals, file: seq<string>, start: nat)
    requires NonNegativeTimes(p, file) && Runs(p, file, start).Ok?
    ensures var rs := Runs(p, file, start).value;
      && RunSpec(p, file, start) == Ok(rs[0])
      && (forall k :: 0 <= k < |rs| - 1 ==> rs[k].next != 0 && RunSpec(p, file, rs[k].next) == Ok(rs[k + 1]))
      && (forall k :: 0 <= k < |rs| - 1 ==> start < rs[k].next)
    decreases |file| - start
  {
    RunsCons(p, file, start);
    var rs := Runs(p, file, start).value;
    var run := rs[0];
    if run.next != 0 {
      RunsChain(p, file, run.next);
      var rest := Runs(p, file, run.next).value;
      assert rs == [run] + rest;
      forall k | 0 <= k < |rs| - 1
        ensures rs[k].next != 0 && RunSpec(p, file, rs[k].next) == Ok(rs[k + 1])
        ensures start < rs[k].next
      {
        if k > 0 {
          assert rs[k] == rest[k - 1] && rs[k + 1] == rest[k];
        }
      }
    }
  }

  /** The resume lines of the driver's runs strictly increase. */
  lemma RunsIncrease(p: Numerals, file: seq<string>, start: nat)
    requires NonNegativeTimes(p, file) && Runs(p, file, start).Ok?
    ensures var rs := Runs(p, file, start).value;
      forall k :: 0 < k < |rs| - 1 ==> rs[k - 1].next < rs[k].next
  {
    RunsChain(p, file, start);
    ChainIncreases(p, file, Runs(p, file, start).value);
  }

  /** Runs chained through non-zero resume lines have strictly increasing resume lines. */
  lemma ChainIncreases(p: Numerals, file: seq<string>, rs: seq<Run>)
    requires NonNegativeTimes(p, file)
    requires forall k :: 0 <= k < |rs| - 1 ==> rs[k].next != 0 && RunSpec(p, file, rs[k].next) == Ok(rs[k + 1])
    ensures forall k :: 0 < k < |rs| - 1 ==> rs[k - 1].next < rs[k].next
  {
    forall k | 0 < k < |rs| - 1 ensures rs[k - 1].next < rs[k].next {
      assert RunSpec(p, file, rs[k - 1].next) == Ok(rs[k]);
      RunAdvances(p, file, rs[k - 1].next);
    }
  }

  function Sum(xs: seq<real>): real
    decreases |xs|
  {
    if xs == [] then 0.0 else Sum(xs[..|xs| - 1]) + xs[|xs| - 1]
  }

  /** `statistics.mean`, over exact reals. */
  function Mean(xs: seq<real>): real
    requires |xs| > 0
  {
    Sum(xs) / |xs| as real
  }

  /** The sum of values within bounds lies within the scaled bounds. */
  lemma {:induction false} SumBetween(xs: seq<real>, lo: real, hi: real)
    requires forall k :: 0 <= k < |xs| ==> lo <= xs[k] <= hi
    ensures |xs| as real * lo <= Sum(xs) <= |xs| as real * hi
    decreases |xs|
  {
    if xs != [] {
      SumBetween(xs[..|xs| - 1], lo, hi);
    }
  }

  /** The mean lies between the smallest and the largest value. */
  lemma MeanBetween(xs: seq<real>, lo: real, hi: real)
    requires |xs| > 0
    requires forall k :: 0 <= k < |xs| ==> lo <= xs[k] <= hi
    ensures lo <= Mean(xs) <= hi
  {
    SumBetween(xs, lo, hi);
    var n := |xs| as real;
    assert Mean(xs) * n == Sum(xs);
  }

  /** The values the driver collects and prints at the end. */
  datatype Summary = Summary(runtimes: seq<real>, latencies: seq<real>,
                             meanRuntime: real, meanLatency: real)

  function RuntimesOf(runs: seq<Run>): (xs: seq<real>)
    ensures |xs| == |runs| && forall k :: 0 <= k < |runs| ==> xs[k] == runs[k].runtime
  {
    seq(|runs|, k requires 0 <= k < |runs| => runs[k].runtime)
  }

  function LatenciesOf(runs: seq<Run>): (xs: seq<real>)
    ensures |xs| == |runs| && forall k :: 0 <= k < |runs| ==> xs[k] == runs[k].latency
  {
    seq(|runs|, k requires 0 <= k < |runs| => runs[k].latency)
  }

  lemma CollectedAppend(done: seq<Run>, run: Run)
    ensures RuntimesOf(done + [run]) == RuntimesOf(done) + [run.runtime]
    ensures LatenciesOf(done + [run]) == LatenciesOf(done) + [run.latency]
  {
  }

  /** The per-run runtimes and latencies, in run order, and their means. */
  function Summarise(runs: seq<Run>): Summary
    requires |runs| >= 1
  {
    var runtimes, latencies := RuntimesOf(runs), LatenciesOf(runs);
    Summary(runtimes, latencies, Mean(runtimes), Mean(latencies))
  }

  /** What the whole program computes from a log: the summary of the driver's runs, or the
      crash that ends it. */
  function Report(p: Numerals, file: seq<string>): Result<Summary, Crash>
    requires NonNegativeTimes(p, file) || FirstRunIsLast(p, file)
  {
    match Runs(p, file, 0)
    case Err(e) => Err(e)
    case Ok(runs) => Ok(Summarise(runs))
  }

  function Prepend(done: seq<Run>, r: Result<seq<Run>, Crash>): Result<seq<Run>, Crash> {
    match r
    case Err(e) => Err(e)
    case Ok(rs) => Ok(done + rs)
  }

  /** One call of `read_run` followed by the rest of the driver's runs. */
  lemma RunsStep(p: Numerals, file: seq<string>, start: nat)
    requires NonNegativeTimes(p, file) || (start == 0 && FirstRunIsLast(p, file))
    requires RunSpec(p, file, start).Ok?
    ensures var run := RunSpec(p, file, start).value;
      Runs(p, file, start)
        == Prepend([run], if run.next == 0 then Ok([]) else Runs(p, file, run.next))
  {
    var run := RunSpec(p, file, start).value;
    if run.next == 0 {
      assert [run] + [] == [run];
    }
  }

  lemma PrependTwice(done: seq<Run>, run: Run, r: Result<seq<Run>, Crash>)
    ensures Prepend(done, Prepend([run], r)) == Prepend(done + [run], r)
  {
    if r.Ok? {
      assert done + ([run] + r.value) == (done + [run]) + r.value;
    }
  }

  /** The driver loop as written: one runtime and one latency appended per call of
      `read_run`, stopping exactly when the resume line is 0. */
  method Analyse(p: Numerals, file: seq<string>) returns (r: Result<Summary, Crash>)
    requires NonNegativeTimes(p, file) || FirstRunIsLast(p, file)
    ensures r == Report(p, file)
    ensures r.Ok? ==> |r.value.runtimes| == |r.value.latencies| >= 1
  {
    var lineNum := 0;
    var runCount := 1;
    var runtimes: seq<real> := [];
    var latencies: seq<real> := [];
    ghost var done: seq<Run> := [];
    assert Runs(p, file, 0) == Prepend([], Runs(p, file, 0)) by {
      if Runs(p, file, 0).Ok? {
        assert [] + Runs(p, file, 0).value == Runs(p, file, 0).value;
      }
    }
    while true
      invariant lineNum < |file| || lineNum == 0
      invariant NonNegativeTimes(p, file) || (lineNum == 0 && FirstRunIsLast(p, file))
      invariant runtimes == RuntimesOf(done) && latencies == LatenciesOf(done)
      invariant runCount == |done| + 1
      invariant Runs(p, file, 0) == Prepend(done, Runs(p, file, lineNum))
      decreases |file| - lineNum
    {
      var run := ReadRun(p, file, lineNum);
      if run.Err? {
        return Err(run.error);
      }
      RunsStep(p, file, lineNum);
      ghost var rest := if run.value.next == 0 then Ok([]) else Runs(p, file, run.value.next);
      PrependTwice(done, run.value, rest);
      CollectedAppend(done, run.value);
      runtimes := runtimes + [run.value.runtime];
      latencies := latencies + [run.value.latency];
      done := done + [run.value];
      if run.value.next == 0 {
        assert done + [] == done;
        break;
      }
      RunAdvances(p, file, lineNum);
      lineNum := run.value.next;
      runCount := runCount + 1;
    }
    r := Ok(Summary(runtimes, latencies, Mean(runtimes), Mean(latencies)));
  }
}
