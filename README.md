# Page-walk counter, modelled in Dafny

`page_walk_counter.py` reads a perf log and splits it into benchmark runs. For each run
it reports the runtime and the page-walk latency (pending walks per completed walk). At
the end it averages both over all runs. This project models the script without its I/O:

- **`valid_cols`** (module `Columns`): the ten counter names a sample line may carry, and
  `valid_cols.index`.
- **`read_line`** (module `LineClassifier`, over the string helpers of module `PyStr`):
  - splits a line on single spaces;
  - reads a `Took:` line as the run's runtime;
  - otherwise fills timestamp, count and counter name from the pieces that are not empty
    and not `msec`.

  `Classify` is the specification. `ReadLine` and `ReadFields` are the source's code, with its loop, proved equal to it.
- **`get_pw_latency`** (module `Latency`): the pending sum over the completed sum, or 0.0
  with a divide-by-zero warning.
- **`read_run`** (module `RunAccumulator`):
  - scans from a start line, keeping the largest timestamp seen so far;
  - credits each accepted sample's count into a fixed-size counts array, in place;
  - stops at the first sample stamped strictly below that maximum and returns it as the
    resume line (0 when no such sample is found).

  `RunSpec` states the result declaratively. `ReadRun` is the source's loop over an
  `array<int>`, proved equal to it.
- **The driver loop** (module `RunDriver`): calls `read_run` until the resume line is 0,
  collecting one runtime and one latency per run, then averages them. `Runs` and `Report`
  are the specification, and `Analyse` is the loop.

Python's `float(...)` and `int(...)` are parameters: a `Numerals` value holding two partial
functions from a token to `Option`. The module `Decimal` gives one concrete instance that
reads plain decimal tokens. The module `Examples` works through concrete lines and a
two-run log.

`read_line` is not total: the runtime token of a `Took:` line is parsed outside the `try`
(page_walk_counter.py:44-45). So a bare `Took:` raises an index error, and an unparsable
runtime raises a value error. Both escape `read_line`, `read_run` and the program. The
model follows the code: `Classify` returns `Err(MissingRuntime)` or `Err(BadRuntime)`,
and `RunSpec`, `Runs` and `Report` carry that `Crash`, with the line it happened on, to
the top.

Counts are unbounded integers, and `int(...)` accepts a sign. So a count, and a total, may
be negative, exactly as in the code.

## Model

| member | source | states |
|---|---|---|
| PyStr.Split | page_walk_counter.py:43 | `line.split(" ")` gives at least one piece, and no piece contains a space |
| PyStr.SplitSpaceFree | page_walk_counter.py:43 | a string without spaces splits into itself alone |
| PyStr.SplitAtSpace | page_walk_counter.py:43 | splitting `a + " " + b` gives the pieces of `a` followed by the pieces of `b` |
| PyStr.SplitJoin | page_walk_counter.py:43 | splitting the space-join of space-free pieces gives those pieces back |
| PyStr.JoinSplit | page_walk_counter.py:43 | joining the pieces of a line with spaces gives the line back |
| PyStr.UpToNewline | page_walk_counter.py:45 | `split('\n')[0]` is a newline-free prefix of the token, stopping exactly at the first newline |
| PyStr.RemoveCommas | page_walk_counter.py:54 | the result has no comma, has every other character as often as the token, and is the token itself when it had no comma |
| PyStr.RemoveCommasAppend | page_walk_counter.py:54 | comma removal works piecewise over concatenation |
| Columns.IndexOf | page_walk_counter.py:112 | `valid_cols.index(name)` is a position holding `name`, and no earlier position holds it |
| Columns.ColumnsDistinct | page_walk_counter.py:23-26 | the ten counter names are pairwise distinct |
| Columns.IndexOfUnique | page_walk_counter.py:23-26 | a name occurs at position `j` if and only if `j` is its index |
| Latency.PageWalkLatency | page_walk_counter.py:75-85 | 0.0 when the three completed totals sum to zero (the warning case); otherwise the value that, times the completed sum, gives the pending sum |
| Latency.WalkColumns | page_walk_counter.py:76-81 | the pending columns are 1, 4 and 7, and the completed columns are 0, 3 and 6 |
| Latency.LatencyIgnoresOtherColumns | page_walk_counter.py:75-85 | totals that agree on the six walk columns give the same latency and the same warning, whatever the `walk_active` and `cycles` totals are |
| LineClassifier.Classify | page_walk_counter.py:39-64 | only a line whose first piece is `Took:` can fail or be a runtime, and a sample always names a counter in `valid_cols` |
| LineClassifier.ReadLine | page_walk_counter.py:39-64 | the `Took:` branch followed by the field scan computes exactly `Classify`, faults included |
| LineClassifier.ReadFields | page_walk_counter.py:46-64 | the scan over the pieces, with its early returns, yields exactly the record that the first three non-filler pieces determine: a sample when the timestamp and count parse and the name is known, unrecognised otherwise |
| LineClassifier.TookLine | page_walk_counter.py:44-45 | a `Took:` line yields the parse of its second piece cut at the newline, or a fault; no later piece is looked at |
| LineClassifier.TookWithoutRuntime | page_walk_counter.py:44-45 | a bare `Took:` line fails with the missing-runtime fault |
| LineClassifier.SampleLine | page_walk_counter.py:46-61 | a line `<time> msec <count> <name> ...` yields the sample (time, count with commas removed, name) when all three parse and the name is known, and is unrecognised otherwise; later pieces are ignored |
| LineClassifier.SameFieldsSameRecord | page_walk_counter.py:46-64 | two non-`Took:` lines with the same non-filler pieces are classified alike |
| LineClassifier.FillerIgnored | page_walk_counter.py:47-48 | inserting an empty piece or `msec` between two pieces never changes a non-`Took:` line's classification |
| LineClassifier.SampleNeedsThreeFields | page_walk_counter.py:50-59 | a sample comes only from three or more fields: its time and count are the parses of the first two, and its name is the third |
| RunAccumulator.Examined | page_walk_counter.py:106 | the scan ranges over every line but the last |
| RunAccumulator.MaxTimeIsMaximum | page_walk_counter.py:109-111 | `end_time` is at least 0.0, bounds every scanned sample's timestamp, and is 0.0 or one of them |
| RunAccumulator.MaxTimeMonotone | page_walk_counter.py:109-110 | `end_time` never decreases as the scan advances |
| RunAccumulator.EqualTimeStaysInRun | page_walk_counter.py:109-111 | a sample stamped exactly at `end_time` is accepted and leaves `end_time` unchanged |
| RunAccumulator.FirstHalt | page_walk_counter.py:106-115 | the stopping line is the first line that raises or holds a sample below the running maximum, or the end of the range when there is none |
| RunAccumulator.CreditOnlyItsColumn | page_walk_counter.py:112 | adding a sample changes only the entry of its counter name, by its count |
| RunAccumulator.TotalsAreSums | page_walk_counter.py:105-112 | each total is the sum of the counts of the accepted samples with that column's name |
| RunAccumulator.LastRuntimeIsLast | page_walk_counter.py:116-117 | the runtime is the value of the last `Took:` line before the stopping line |
| RunAccumulator.NoRuntimeIsZero | page_walk_counter.py:103 | the runtime stays 0.0 when no `Took:` line was scanned |
| RunAccumulator.AddCount | page_walk_counter.py:112 | the in-place `+=` turns the counts array into the credited totals |
| RunAccumulator.ReadRun | page_walk_counter.py:99-124 | the loop with `break` over the counts array returns exactly `RunSpec`, the crash included |
| RunAccumulator.ResumeIsFirstDrop | page_walk_counter.py:106-115 | a nonzero resume line is the first sample in `[start, len(file)-2]` below the running maximum, and every line before it was read without stopping; a resume line of 0 means the scan never stopped, or stopped at line 0 |
| RunAccumulator.LastLineIgnored | page_walk_counter.py:106 | changing the file's last line never changes a run |
| RunAccumulator.SameSamplesSameMax | page_walk_counter.py:108-112 | line sequences with the same samples at the same lines give the same `end_time`, totals and last sample line |
| RunAccumulator.SameSamplesSameHalt | page_walk_counter.py:108-115 | such line sequences stop at the same line |
| RunAccumulator.RuntimeLinesDoNotMoveBoundary | page_walk_counter.py:108-117 | files that differ only in `Took:` and unrecognised lines, and that raise at the same lines, give runs with the same resume line, totals, latency, warning and end time |
| RunDriver.RunAdvances | page_walk_counter.py:134-140 | wherever the driver is defined, a nonzero resume line lies strictly after the start line and inside the file, so the driver makes progress; a first run that is the last never gives one, so from then on the timestamps are non-negative |
| RunDriver.NegativeStartRepeats | page_walk_counter.py:132-140 | a run starting at a later line on a sample stamped below 0.0 returns its own start line, so the driver would call `read_run` on it forever |
| RunDriver.DropAtFirstLineLooksLikeEnd | page_walk_counter.py:138-139 | a stop at line 0 returns resume line 0 and no totals, which is indistinguishable from the end of input |
| RunDriver.DropAtFirstLineEndsDriver | page_walk_counter.py:132-140 | with a negative sample on line 0, whatever the later lines hold, the first run is the last and the driver finishes normally after that one run, with resume line 0 and no totals |
| RunDriver.Runs | page_walk_counter.py:132-140 | for a file with non-negative timestamps on lines 1 to len(file)-2, or whose first run is the last, the driver's runs, when it does not crash, are at least one, and the last has resume line 0 |
| RunDriver.RunsCons | page_walk_counter.py:134-140 | the first run is `read_run(start)`; it is the only run when its resume line is 0, and otherwise the rest are the runs from that resume line, which lies after `start` inside the file |
| RunDriver.RunsChain | page_walk_counter.py:134-140 | the first run is `read_run(start)`; each later run is `read_run` at the previous resume line; every run but the last has a nonzero resume line, past the start |
| RunDriver.RunsIncrease | page_walk_counter.py:134-140 | the resume lines of the driver's runs strictly increase |
| RunDriver.MeanBetween | page_walk_counter.py:141-142 | the average lies between any lower and upper bound of the values |
| RunDriver.Analyse | page_walk_counter.py:126-142 | the `while True` loop appends one runtime and one latency per call, stops when the resume line is 0, and yields exactly `Report`, or the crash |
| Examples.TookLineGivesRuntime | page_walk_counter.py:44-45 | `"Took: 12.5\n"` is the runtime 12.5 |
| Examples.TookWithoutFigureFails | page_walk_counter.py:44-45 | `"Took:"` alone is a fault |
| Examples.SampleWithSeparator | page_walk_counter.py:53-59 | `2 msec 1,234 cycles:ukhHG` is the sample (2.0, 1234, `cycles:ukhHG`) |
| Examples.NewlineAfterNameIsUnrecognised | page_walk_counter.py:57-61 | a counter name that still carries the line's newline is not in `valid_cols`, so the line is unrecognised |
| Examples.ThreeCyclesPerWalk | page_walk_counter.py:75-85 | 30 pending over 10 completed walks is a latency of 3.0 with no warning |
| Examples.NoWalks | page_walk_counter.py:82-84 | no completed walks gives the warning and 0.0 |
| Examples.FirstOfTwoRuns | page_walk_counter.py:99-124 | timestamps 3.0, 4.0, 1.0 give a first run that stops at line 2, ends at 4.0 on line 1, and has latency 3.0 |
| Examples.SecondOfTwoRuns | page_walk_counter.py:99-124 | the run from line 2 reads only that line, never the last, and returns resume line 0 |
| Examples.TwoRunsChain | page_walk_counter.py:132-140 | the driver reads that log as exactly `read_run(0)` then `read_run(2)` |
| Examples.SummaryOfTwo | page_walk_counter.py:141-142 | two runs report their runtimes and latencies in order, each averaged as the midpoint |
| Examples.ReportOfTwo | page_walk_counter.py:126-142 | a log read in two runs reports both runs' figures in order and their midpoints |
| Examples.NegativeAfterDropAtZero | page_walk_counter.py:132-140 | samples at -1.0 then -2.0 fail the non-negative timestamp condition, yet the driver is defined on them and stops after one run with resume line 0 |
| Examples.TwoRunsReport | page_walk_counter.py:126-142 | that log reports runtimes 0.0, 0.0 and latencies 3.0, 0.0, averaging 0.0 and 1.5 |

## Left out

- Argument checking, the usage message and the exit (page_walk_counter.py:11-15): process control. The file is a given sequence of lines, and reading it (page_walk_counter.py:17-21) is not modelled.
- All printing (page_walk_counter.py:83, 119-123, 133, 137, 141-142). A run keeps what it reports: the warning flag, the end time and the line of the last accepted sample.
- IEEE floating point. Timestamps, runtimes and latencies are exact reals, `/` is exact division, and `statistics.mean` is sum over length. NaN, infinities and rounding are not represented. In particular, a NaN timestamp that is neither `>=` nor `<` the end time cannot arise.
- `float(...)` and `int(...)` are abstract partial functions. The bare `except` (page_walk_counter.py:62-63) becomes a parse that returns `None`. The `Decimal` instance reads only plain decimal tokens: no exponents, underscores, surrounding whitespace, `inf` or `nan`.
- RunDriver.Analyse and RunDriver.Runs: they require that the samples on lines 1 to len(file)-2 are stamped at or after 0.0, or that the first call of `read_run` is also the last (it raises or returns resume line 0). The source checks neither. A negative sample on line 0 makes the first run the last, whatever the later lines hold (`RunDriver.DropAtFirstLineEndsDriver`), and the last line is never read. On an excluded file, the runs cover the lines in order, so the scan reaches the negative sample unless a crash comes first. If it reaches it, the source loops forever (`RunDriver.NegativeStartRepeats` shows the repeating step).
- A crash ends the model's result, but not what the source already printed for earlier runs, since printing is not modelled.
