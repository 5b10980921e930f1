/**
 * `read_run`: scans the log from a start line, accumulating counter totals until the
 * timestamp falls below the largest one seen so far, which marks the next run.
 */
module RunAccumulator {
  import opened Wrappers
  import opened Columns
  import opened LineClassifier
  import opened Latency

  /** What `read_run` returns (resume line, runtime, latency, totals), together with what
      it reports: whether the divide-by-zero warning fired, and the last accepted
      timestamp and its line. `next == 0` means the end of the input. */
  datatype Run = Run(next: nat, runtime: real, latency: real, warned: bool,
                     totals: Totals, endTime: real, endLine: nat)

  /** A fault escaping `read_line` on the given line ends the whole program. */
  datatype Crash = Crash(line: nat, fault: Fault)

  /** The lines `read_run` may look at: `range(line_num, len(file) - 1)` never reaches
      the last line of the file. */
  function Examined(file: seq<string>): (lines: seq<string>)
    ensures |lines| == if file == [] then 0 else |file| - 1
    ensures forall i :: 0 <= i < |lines| ==> lines[i] == file[i]
  {
    if file == [] then [] else file[..|file| - 1]
  }

  /** The classification of line `i`. */
  function At(p: Numerals, lines: seq<string>, i: nat): Result<Record, Fault>
    requires i < |lines|
  {
    Classify(p, lines[i])
  }

  predicate IsSampleAt(p: Numerals, lines: seq<string>, i: nat)
    requires i < |lines|
  {
    At(p, lines, i).Ok? && At(p, lines, i).value.Sample?
  }

  predicate IsRuntimeAt(p: Numerals, lines: seq<string>, i: nat)
    requires i < |lines|
  {
    At(p, lines, i).Ok? && At(p, lines, i).value.Runtime?
  }

  /** `end_time` after lines `lo .. k-1`: the running maximum of their sample timestamps,
      starting from 0.0. */
  function MaxTime(p: Numerals, lines: seq<string>, lo: nat, k: nat): real
    requires lo <= k <= |lines|
    decreases k - lo
  {
    if k == lo then 0.0
    else
      var m := MaxTime(p, lines, lo, k - 1);
      if IsSampleAt(p, lines, k - 1) && At(p, lines, k - 1).value.time >= m
      then At(p, lines, k - 1).value.time
      else m
  }

  /** `end_time` is the maximum of 0.0 and the timestamps of the samples scanned: it bounds
      each of them and is 0.0 or one of them. */
  lemma {:induction false} MaxTimeIsMaximum(p: Numerals, lines: seq<string>, lo: nat, k: nat)
    requires lo <= k <= |lines|
    ensures MaxTime(p, lines, lo, k) >= 0.0
    ensures forall j :: lo <= j < k && IsSampleAt(p, lines, j) ==> At(p, lines, j).value.time <= MaxTime(p, lines, lo, k)
    ensures MaxTime(p, lines, lo, k) == 0.0
         || exists j :: lo <= j < k && IsSampleAt(p, lines, j) && At(p, lines, j).value.time == MaxTime(p, lines, lo, k)
    decreases k - lo
  {
    if k > lo {
      MaxTimeIsMaximum(p, lines, lo, k - 1);
    }
  }

  /** `end_time` never decreases as the scan goes on. */
  lemma {:induction false} MaxTimeMonotone(p: Numerals, lines: seq<string>, lo: nat, k: nat, k': nat)
    requires lo <= k <= k' <= |lines|
    ensures MaxTime(p, lines, lo, k) <= MaxTime(p, lines, lo, k')
    decreases k' - k
  {
    if k < k' {
      MaxTimeMonotone(p, lines, lo, k, k' - 1);
    }
  }

  /** Line `i` ends the scan: reading it raises, or it is a sample whose timestamp lies
      strictly below the largest so far (a timestamp equal to it stays in the run). */
  predicate Halts(p: Numerals, lines: seq<string>, lo: nat, i: nat)
    requires lo <= i < |lines|
  {
    At(p, lines, i).Err? || (IsSampleAt(p, lines, i) && At(p, lines, i).value.time < MaxTime(p, lines, lo, i))
  }

  /** A sample stamped exactly at the running maximum stays in the run and leaves the
      maximum where it was. */
  lemma EqualTimeStaysInRun(p: Numerals, lines: seq<string>, lo: nat, i: nat)
    requires lo <= i < |lines| && IsSampleAt(p, lines, i)
    requires At(p, lines, i).value.time == MaxTime(p, lines, lo, i)
    ensures !Halts(p, lines, lo, i) && MaxTime(p, lines, lo, i + 1) == MaxTime(p, lines, lo, i)
  {
  }

  /** No line among `lo .. k-1` ends a scan begun at `lo`. */
  predicate NoHaltBefore(p: Numerals, lines: seq<string>, lo: nat, k: nat)
    requires lo <= k <= |lines|
  {
    forall j :: lo <= j < k ==> !Halts(p, lines, lo, j)
  }

  /** The first line at or after `k` that ends a scan begun at `lo`; `|lines|` if none. */
  function FirstHalt(p: Numerals, lines: seq<string>, lo: nat, k: nat): (h: nat)
    requires lo <= k <= |lines|
    ensures k <= h <= |lines|
    ensures forall j :: k <= j < h ==> !Halts(p, lines, lo, j)
    ensures h < |lines| ==> Halts(p, lines, lo, h)
    decreases |lines| - k
  {
    if k == |lines| || Halts(p, lines, lo, k) then k else FirstHalt(p, lines, lo, k + 1)
  }

  /** The sum of the counts of the samples named `name` among lines `lo .. k-1`. */
  function CountSum(p: Numerals, lines: seq<string>, lo: nat, k: nat, name: string): int
    requires lo <= k <= |lines|
    decreases k - lo
  {
    if k == lo then 0
    else
      var here := if IsSampleAt(p, lines, k - 1) && At(p, lines, k - 1).value.name == name
                  then At(p, lines, k - 1).value.count else 0;
      CountSum(p, lines, lo, k - 1, name) + here
  }

  /** `[0] * len(valid_cols)`: every column at zero. */
  const NoCounts: Totals := [0, 0, 0, 0, 0, 0, 0, 0, 0, 0]

  /** `event_counts[valid_cols.index(name)] += n`. */
  function Credit(t: Totals, name: string, n: int): Totals
    requires name in ValidCols
  {
    t[IndexOf(name) := t[IndexOf(name)] + n]
  }

  /** Crediting a sample adds its count to the column of its name and leaves every other
      column as it was. */
  lemma CreditOnlyItsColumn(t: Totals, name: string, n: int)
    requires name in ValidCols
    ensures forall c :: 0 <= c < |ValidCols| ==>
      Credit(t, name, n)[c] == t[c] + (if ValidCols[c] == name then n else 0)
  {
    forall c | 0 <= c < |ValidCols|
      ensures Credit(t, name, n)[c] == t[c] + (if ValidCols[c] == name then n else 0)
    {
      IndexOfUnique(name, c);
    }
  }

  /** The totals vector after lines `lo .. k-1`: each sample credits its count to its column. */
  function TotalsOver(p: Numerals, lines: seq<string>, lo: nat, k: nat): Totals
    requires lo <= k <= |lines|
    decreases k - lo
  {
    if k == lo then NoCounts
    else
      var t := TotalsOver(p, lines, lo, k - 1);
      if IsSampleAt(p, lines, k - 1)
      then Credit(t, At(p, lines, k - 1).value.name, At(p, lines, k - 1).value.count)
      else t
  }

  /** Each total is the sum of the counts of the samples that name its column, and of
      no other sample. */
  lemma {:induction false} TotalsAreSums(p: Numerals, lines: seq<string>, lo: nat, k: nat)
    requires lo <= k <= |lines|
    ensures forall c :: 0 <= c < |ValidCols| ==> TotalsOver(p, lines, lo, k)[c] == CountSum(p, lines, lo, k, ValidCols[c])
    decreases k - lo
  {
    if k > lo {
      TotalsAreSums(p, lines, lo, k - 1);
      if IsSampleAt(p, lines, k - 1) {
        var name := At(p, lines, k - 1).value.name;
        forall c | 0 <= c < |ValidCols|
          ensures TotalsOver(p, lines, lo, k)[c] == CountSum(p, lines, lo, k, ValidCols[c])
        {
          IndexOfUnique(name, c);
        }
      }
    }
  }

  /** The value of the last `Took:` line among lines `lo .. k-1`, or 0.0 if there is none. */
  function LastRuntime(p: Numerals, lines: seq<string>, lo: nat, k: nat): real
    requires lo <= k <= |lines|
    decreases k - lo
  {
    if k == lo then 0.0
    else if IsRuntimeAt(p, lines, k - 1) then At(p, lines, k - 1).value.seconds
    else LastRuntime(p, lines, lo, k - 1)
  }

  /** The runtime reported is that of the last `Took:` line scanned ... */
  lemma {:induction false} LastRuntimeIsLast(p: Numerals, lines: seq<string>, lo: nat, j: nat, k: nat)
    requires lo <= j < k <= |lines| && IsRuntimeAt(p, lines, j)
    requires forall i :: j < i < k ==> !IsRuntimeAt(p, lines, i)
    ensures LastRuntime(p, lines, lo, k) == At(p, lines, j).value.seconds
    decreases k - j
  {
    if j < k - 1 {
      assert !IsRuntimeAt(p, lines, k - 1);
      LastRuntimeIsLast(p, lines, lo, j, k - 1);
    }
  }

  /** ... or 0.0 when no `Took:` line was scanned. */
  lemma {:induction false} NoRuntimeIsZero(p: Numerals, lines: seq<string>, lo: nat, k: nat)
    requires lo <= k <= |lines|
    requires forall i :: lo <= i < k ==> !IsRuntimeAt(p, lines, i)
    ensures LastRuntime(p, lines, lo, k) == 0.0
    decreases k - lo
  {
    if k > lo {
      NoRuntimeIsZero(p, lines, lo, k - 1);
    }
  }

  /** The index of the last sample among lines `lo .. k-1`, or 0 if there is none. */
  function LastSampleLine(p: Numerals, lines: seq<string>, lo: nat, k: nat): nat
    requires lo <= k <= |lines|
    decreases k - lo
  {
    if k == lo then 0
    else if IsSampleAt(p, lines, k - 1) then k - 1
    else LastSampleLine(p, lines, lo, k - 1)
  }

  /** Where a scan from `start` begins: past the end, the range is empty. */
  function Begin(lines: seq<string>, start: nat): (lo: nat)
    ensures lo <= |lines|
    ensures start <= |lines| ==> lo == start
  {
    if start <= |lines| then start else |lines|
  }

  /** What one call of `read_run(start)` yields, stated over the examined lines: the scan
      stops at the first line that halts it; everything before that line is accumulated. */
  function RunSpec(p: Numerals, file: seq<string>, start: nat): Result<Run, Crash> {
    var lines := Examined(file);
    var lo := Begin(lines, start);
    var h := FirstHalt(p, lines, lo, lo);
    if h < |lines| && At(p, lines, h).Err? then Err(Crash(h, At(p, lines, h).error))
    else
      var totals := TotalsOver(p, lines, lo, h);
      Ok(Run(if h < |lines| then h else 0, LastRuntime(p, lines, lo, h),
             PageWalkLatency(totals), DivideByZeroWarning(totals), totals,
             MaxTime(p, lines, lo, h), LastSampleLine(p, lines, lo, h)))
  }

  /** One line that does not halt the scan extends every accumulated quantity by itself. */
  lemma Step(p: Numerals, lines: seq<string>, lo: nat, k: nat)
    requires lo <= k < |lines| && !Halts(p, lines, lo, k)
    ensures MaxTime(p, lines, lo, k + 1) ==
      if IsSampleAt(p, lines, k) then At(p, lines, k).value.time else MaxTime(p, lines, lo, k)
    ensures LastSampleLine(p, lines, lo, k + 1) ==
      if IsSampleAt(p, lines, k) then k else LastSampleLine(p, lines, lo, k)
    ensures LastRuntime(p, lines, lo, k + 1) ==
      if IsRuntimeAt(p, lines, k) then At(p, lines, k).value.seconds else LastRuntime(p, lines, lo, k)
    ensures TotalsOver(p, lines, lo, k + 1) ==
      if IsSampleAt(p, lines, k)
      then Credit(TotalsOver(p, lines, lo, k), At(p, lines, k).value.name, At(p, lines, k).value.count)
      else TotalsOver(p, lines, lo, k)
    ensures forall name :: CountSum(p, lines, lo, k + 1, name) == CountSum(p, lines, lo, k, name) +
                           (if IsSampleAt(p, lines, k) && At(p, lines, k).value.name == name
                            then At(p, lines, k).value.count else 0)
  {
  }

  /** A line that halts the scan, reached with none halting before it, is the first halt. */
  lemma FirstHaltAt(p: Numerals, lines: seq<string>, lo: nat, k: nat)
    requires lo <= k <= |lines|
    requires NoHaltBefore(p, lines, lo, k)
    requires k < |lines| ==> Halts(p, lines, lo, k)
    ensures FirstHalt(p, lines, lo, lo) == k
  {
  }

  lemma NoHaltExtends(p: Numerals, lines: seq<string>, lo: nat, k: nat)
    requires lo <= k < |lines| && NoHaltBefore(p, lines, lo, k) && !Halts(p, lines, lo, k)
    ensures NoHaltBefore(p, lines, lo, k + 1)
  {
  }

  /** `event_counts[valid_cols.index(name)] += n`, in place on the totals array. */
  method AddCount(counts: array<int>, name: string, n: int)
    requires counts.Length == |ValidCols| && name in ValidCols
    modifies counts
    ensures counts[..] == Credit(old(counts[..]), name, n)
  {
    var col := IndexOf(name);
    counts[col] := counts[col] + n;
  }

  /** `read_run` as written: a loop over the lines that updates the totals array in place. */
  method ReadRun(p: Numerals, file: seq<string>, lineNum: nat) returns (r: Result<Run, Crash>)
    ensures r == RunSpec(p, file, lineNum)
  {
    var endTime, endLine, nextLine, runtime := 0.0, 0, 0, 0.0;
    var counts := new int[|ValidCols|](_ => 0);
    assert counts[..] == NoCounts;
    ghost var lines := Examined(file);
    ghost var lo := Begin(lines, lineNum);
    ghost var k := lo;
    ghost var halted := false;
    var i := lineNum;
    while i < |file| - 1
      invariant lo <= k <= |lines|
      invariant i == k || (i == lineNum > |lines| && k == lo)
      invariant NoHaltBefore(p, lines, lo, k)
      invariant endTime == MaxTime(p, lines, lo, k)
      invariant endLine == LastSampleLine(p, lines, lo, k)
      invariant runtime == LastRuntime(p, lines, lo, k)
      invariant counts.Length == |ValidCols|
      invariant counts[..] == TotalsOver(p, lines, lo, k)
      invariant nextLine == 0 && !halted
      decreases |file| - i
    {
      var rec := ReadLine(p, file[i]);
      assert rec == At(p, lines, k);
      if rec.Err? {
        FirstHaltAt(p, lines, lo, k);
        return Err(Crash(i, rec.error));
      }
      if rec.value.Sample? {
        if rec.value.time >= endTime {
          assert !Halts(p, lines, lo, k);
          Step(p, lines, lo, k);
          endTime, endLine := rec.value.time, i;
          AddCount(counts, rec.value.name, rec.value.count);
          assert counts[..] == TotalsOver(p, lines, lo, k + 1);
        } else {
          nextLine, halted := i, true;
          FirstHaltAt(p, lines, lo, k);
          break;
        }
      } else {
        assert !Halts(p, lines, lo, k);
        Step(p, lines, lo, k);
        if rec.value.Runtime? {
          runtime := rec.value.seconds;
        }
        assert counts[..] == TotalsOver(p, lines, lo, k + 1);
      }
      NoHaltExtends(p, lines, lo, k);
      i, k := i + 1, k + 1;
    }
    if !halted {
      FirstHaltAt(p, lines, lo, k);
    }
    assert FirstHalt(p, lines, lo, lo) == k;
    assert nextLine == if k < |lines| then k else 0;
    var totals := counts[..];
    r := Ok(Run(nextLine, runtime, PageWalkLatency(totals), DivideByZeroWarning(totals),
                totals, endTime, endLine));
  }

  /** The resume line, when not 0, is the first sample in `[start, len(file) - 2]` whose
      timestamp lies below the running maximum: every line before it was read without
      stopping the scan. A resume line of 0 means no line stopped the scan, unless the very
      first line of the file did. */
  lemma ResumeIsFirstDrop(p: Numerals, file: seq<string>, start: nat)
    requires RunSpec(p, file, start).Ok?
    ensures var run, lines := RunSpec(p, file, start).value, Examined(file);
      run.next != 0 ==>
        && start <= run.next < |file| - 1
        && IsSampleAt(p, lines, run.next)
        && At(p, lines, run.next).value.time < MaxTime(p, lines, start, run.next)
        && NoHaltBefore(p, lines, start, run.next)
    ensures var run, lines := RunSpec(p, file, start).value, Examined(file);
      run.next == 0 ==>
        start >= |lines| || NoHaltBefore(p, lines, start, |lines|) || (start == 0 && Halts(p, lines, 0, 0))
  {
  }

  /** The last line of the file is never read: whatever it holds, the run is the same. */
  lemma LastLineIgnored(p: Numerals, file: seq<string>, start: nat, last: string)
    requires file != []
    ensures RunSpec(p, file[|file| - 1 := last], start) == RunSpec(p, file, start)
  {
    assert Examined(file[|file| - 1 := last]) == Examined(file);
  }

  /** Two line sequences that raise at the same lines and hold the same samples at the same
      lines; they may differ in their `Took:` and unrecognised lines. */
  predicate SameSamples(p: Numerals, l1: seq<string>, l2: seq<string>) {
    && |l1| == |l2|
    && forall i :: 0 <= i < |l1| ==>
         && At(p, l1, i).Err? == At(p, l2, i).Err?
         && IsSampleAt(p, l1, i) == IsSampleAt(p, l2, i)
         && (IsSampleAt(p, l1, i) ==> At(p, l1, i).value == At(p, l2, i).value)
  }

  lemma {:induction false} SameSamplesSameMax(p: Numerals, l1: seq<string>, l2: seq<string>, lo: nat, k: nat)
    requires SameSamples(p, l1, l2) && lo <= k <= |l1|
    ensures MaxTime(p, l1, lo, k) == MaxTime(p, l2, lo, k)
    ensures TotalsOver(p, l1, lo, k) == TotalsOver(p, l2, lo, k)
    ensures LastSampleLine(p, l1, lo, k) == LastSampleLine(p, l2, lo, k)
    decreases k - lo
  {
    if k > lo {
      SameSamplesSameMax(p, l1, l2, lo, k - 1);
    }
  }

  lemma {:induction false} SameSamplesSameHalt(p: Numerals, l1: seq<string>, l2: seq<string>, lo: nat, k: nat)
    requires SameSamples(p, l1, l2) && lo <= k <= |l1|
    ensures FirstHalt(p, l1, lo, k) == FirstHalt(p, l2, lo, k)
    decreases |l1| - k
  {
    if k < |l1| {
      SameSamplesSameMax(p, l1, l2, lo, k);
      assert Halts(p, l1, lo, k) == Halts(p, l2, lo, k);
      SameSamplesSameHalt(p, l1, l2, lo, k + 1);
    }
  }

  /** `Took:` lines never move the boundary: files that differ only in their `Took:` and
      unrecognised lines stop at the same line with the same totals, latency and end time;
      only the reported runtime may differ. */
  lemma RuntimeLinesDoNotMoveBoundary(p: Numerals, f1: seq<string>, f2: seq<string>, start: nat)
    requires SameSamples(p, Examined(f1), Examined(f2))
    ensures RunSpec(p, f1, start).Ok? == RunSpec(p, f2, start).Ok?
    ensures RunSpec(p, f1, start).Ok? ==>
      var r1, r2 := RunSpec(p, f1, start).value, RunSpec(p, f2, start).value;
      r1.next == r2.next && r1.totals == r2.totals && r1.latency == r2.latency
      && r1.warned == r2.warned && r1.endTime == r2.endTime && r1.endLine == r2.endLine
  {
    var l1, l2 := Examined(f1), Examined(f2);
    var lo := Begin(l1, start);
    SameSamplesSameHalt(p, l1, l2, lo, lo);
    SameSamplesSameMax(p, l1, l2, lo, FirstHalt(p, l1, lo, lo));
  }
}
