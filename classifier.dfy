/** `read_line`: classifies one line of a perf log. */
module LineClassifier {
  import opened Wrappers
  import opened PyStr
  import opened Columns

  /** What a line holds once classified. A `Took:` line carries the run's runtime; a
      counter line carries (timestamp, count, counter name); anything else is unrecognised. */
  datatype Record =
    | Runtime(seconds: real)
    | Sample(time: real, count: int, name: string)
    | Unrecognised

  /** The exceptions that escape `read_line`: the runtime token is parsed outside the
      `try`, so a `Took:` line without a second token (an index error) or with an
      unparsable one (a value error) is not absorbed. */
  datatype Fault = MissingRuntime | BadRuntime

  /** Python's `float(...)` and `int(...)`, taken as given partial functions. */
  datatype Numerals = Numerals(toReal: string -> Option<real>, toInt: string -> Option<int>)

  const TookMarker: string := "Took:"

  /** Tokens that never fill a field: empty pieces (from repeated spaces) and the unit `msec`. */
  predicate IsFiller(piece: string) {
    piece == "" || piece == "msec"
  }

  /** The pieces that fill positional fields, in order. */
  function Fields(pieces: seq<string>): (fields: seq<string>)
    decreases |pieces|
  {
    if pieces == [] then []
    else (if IsFiller(pieces[0]) then [] else [pieces[0]]) + Fields(pieces[1..])
  }

  lemma {:induction false} FieldsAppend(a: seq<string>, b: seq<string>)
    ensures Fields(a + b) == Fields(a) + Fields(b)
    decreases |a|
  {
    if a == [] {
      assert a + b == b;
    } else {
      assert (a + b)[0] == a[0];
      assert (a + b)[1..] == a[1..] + b;
      FieldsAppend(a[1..], b);
    }
  }

  lemma FieldsOne(piece: string)
    ensures Fields([piece]) == if IsFiller(piece) then [] else [piece]
  {
    assert [piece][1..] == [];
  }

  /** The piece at `k`, when it is not filler, is the field that follows those before it. */
  lemma FieldAt(pieces: seq<string>, k: nat)
    requires k < |pieces| && !IsFiller(pieces[k])
    ensures Fields(pieces[..k + 1]) == Fields(pieces[..k]) + [pieces[k]]
    ensures Fields(pieces) == Fields(pieces[..k + 1]) + Fields(pieces[k + 1..])
  {
    assert pieces[..k + 1] == pieces[..k] + [pieces[k]];
    FieldsAppend(pieces[..k], [pieces[k]]);
    FieldsOne(pieces[k]);
    assert pieces == pieces[..k + 1] + pieces[k + 1..];
    FieldsAppend(pieces[..k + 1], pieces[k + 1..]);
  }

  /** A filler piece adds no field. */
  lemma FillerAt(pieces: seq<string>, k: nat)
    requires k < |pieces| && IsFiller(pieces[k])
    ensures Fields(pieces[..k + 1]) == Fields(pieces[..k])
  {
    assert pieces[..k + 1] == pieces[..k] + [pieces[k]];
    FieldsAppend(pieces[..k], [pieces[k]]);
    FieldsOne(pieces[k]);
  }

  /** The runtime a `Took:` line reports: its second piece up to the newline, parsed. */
  function RuntimeRecord(p: Numerals, pieces: seq<string>): Result<Record, Fault> {
    if |pieces| < 2 then Err(MissingRuntime)
    else match p.toReal(UpToNewline(pieces[1]))
      case None => Err(BadRuntime)
      case Some(v) => Ok(Runtime(v))
  }

  /** A sample needs three fields: a timestamp, a count (commas removed) and a known name. */
  function SampleRecord(p: Numerals, fields: seq<string>): Record {
    if |fields| < 3 then Unrecognised
    else match (p.toReal(fields[0]), p.toInt(RemoveCommas(fields[1])))
      case (Some(t), Some(c)) => if fields[2] in ValidCols then Sample(t, c, fields[2]) else Unrecognised
      case _ => Unrecognised
  }

  /** The classification of a line. Only a line whose first piece is `Took:` can fail, and
      only such a line is a runtime; a sample always names a known counter. */
  function Classify(p: Numerals, line: string): (r: Result<Record, Fault>)
    ensures r.Err? ==> Split(line)[0] == TookMarker
    ensures r.Ok? && r.value.Runtime? ==> Split(line)[0] == TookMarker
    ensures r.Ok? && r.value.Sample? ==> r.value.name in ValidCols
  {
    var pieces := Split(line);
    if pieces[0] == TookMarker then RuntimeRecord(p, pieces)
    else Ok(SampleRecord(p, Fields(pieces)))
  }

  /** A sample is never a partial record: it takes three fields, its name is the third
      and its timestamp and count are the parses of the first two. */
  lemma SampleNeedsThreeFields(p: Numerals, line: string)
    requires Classify(p, line).Ok? && Classify(p, line).value.Sample?
    ensures var fields, s := Fields(Split(line)), Classify(p, line).value;
      && |fields| >= 3 && fields[2] == s.name
      && p.toReal(fields[0]) == Some(s.time) && p.toInt(RemoveCommas(fields[1])) == Some(s.count)
  {
  }

  /** `read_line` as written: a `Took:` line is read at once; any other line goes through
      the scan over its pieces. */
  method ReadLine(p: Numerals, line: string) returns (r: Result<Record, Fault>)
    ensures r == Classify(p, line)
  {
    var pieces := Split(line);
    if pieces[0] == TookMarker {
      if |pieces| < 2 {
        return Err(MissingRuntime);
      }
      var v := p.toReal(UpToNewline(pieces[1]));
      if v.None? {
        return Err(BadRuntime);
      }
      return Ok(Runtime(v.value));
    }
    var rec := ReadFields(p, pieces);
    return Ok(rec);
  }

  /** The loop of `read_line`: fills the timestamp, then the count, then checks the name,
      skipping filler, with an early return at the first failure. */
  method ReadFields(p: Numerals, pieces: seq<string>) returns (r: Record)
    ensures r == SampleRecord(p, Fields(pieces))
  {
    ghost var fields := Fields(pieces);
    var time, count, col := 0.0, 0, 0;
    for k := 0 to |pieces|
      invariant col == |Fields(pieces[..k])| && col <= 2
      invariant col >= 1 ==> p.toReal(Fields(pieces[..k])[0]) == Some(time)
      invariant col == 2 ==> p.toInt(RemoveCommas(Fields(pieces[..k])[1])) == Some(count)
    {
      var piece := pieces[k];
      if IsFiller(piece) {
        FillerAt(pieces, k);
        continue;
      }
      FieldAt(pieces, k);
      assert fields[col] == piece;
      assert col >= 1 ==> fields[0] == Fields(pieces[..k])[0];
      if col == 0 {
        var t := p.toReal(piece);
        if t.None? {
          return Unrecognised;
        }
        time, col := t.value, 1;
      } else if col == 1 {
        var c := p.toInt(RemoveCommas(piece));
        if c.None? {
          return Unrecognised;
        }
        count, col := c.value, 2;
      } else {
        if piece in ValidCols {
          return Sample(time, count, piece);
        }
        return Unrecognised;
      }
    }
    assert pieces[..|pieces|] == pieces;
    assert |fields| < 3;
    return Unrecognised;
  }

  /** A `Took:` line reports the parse of its next piece, cut at the newline; no later
      piece is looked at, and a runtime that does not parse escapes as a fault. */
  lemma TookLine(p: Numerals, rest: string)
    ensures Classify(p, TookMarker + " " + rest) ==
      match p.toReal(UpToNewline(Split(rest)[0]))
      case None => Err(BadRuntime)
      case Some(v) => Ok(Runtime(v))
  {
    SplitAtSpace(TookMarker, rest);
    SplitSpaceFree(TookMarker);
  }

  /** A bare `Took:` has no runtime piece to read. */
  lemma TookWithoutRuntime(p: Numerals)
    ensures Classify(p, TookMarker) == Err(MissingRuntime)
  {
    SplitSpaceFree(TookMarker);
  }

  /** A counter line `<time> msec <count> <name> ...`: the timestamp, the count with its
      commas removed and the name fill the three fields in that order, later pieces are
      ignored, and any failure gives an unrecognised line rather than a partial record. */
  lemma SampleLine(p: Numerals, ts: string, cs: string, name: string, more: seq<string>)
    requires SpaceFree([ts, cs, name] + more)
    requires !IsFiller(ts) && !IsFiller(cs) && !IsFiller(name) && ts != TookMarker
    ensures var line := Join([ts, "msec", cs, name] + more);
      if p.toReal(ts).Some? && p.toInt(RemoveCommas(cs)).Some? && name in ValidCols
      then Classify(p, line) == Ok(Sample(p.toReal(ts).value, p.toInt(RemoveCommas(cs)).value, name))
      else Classify(p, line) == Ok(Unrecognised)
  {
    var pieces := [ts, "msec", cs, name] + more;
    assert SpaceFree(pieces) by {
      forall k | 0 <= k < |pieces| ensures ' ' !in pieces[k] {
        if k >= 4 {
          assert pieces[k] == ([ts, cs, name] + more)[k - 1];
        } else if k != 1 {
          assert pieces[k] == ([ts, cs, name] + more)[if k == 0 then 0 else k - 1];
        }
      }
    }
    SplitJoin(pieces);
    FieldsAppend([ts, "msec", cs, name], more);
    assert Fields([ts, "msec", cs, name]) == [ts, cs, name] by {
      FieldsAppend([ts], [cs, name]);
      FieldsAppend([cs], [name]);
      FieldsAppend([ts], ["msec"]);
      FieldsAppend([ts, "msec"], [cs, name]);
      FieldsOne(ts);
      FieldsOne("msec");
      FieldsOne(cs);
      FieldsOne(name);
      assert [ts, "msec", cs, name] == [ts, "msec"] + [cs, name];
      assert [ts, "msec"] == [ts] + ["msec"];
      assert [cs, name] == [cs] + [name];
    }
  }

  /** Two non-`Took:` lines with the same fields are classified alike. */
  lemma SameFieldsSameRecord(p: Numerals, x: string, y: string)
    requires Split(x)[0] != TookMarker && Split(y)[0] != TookMarker
    requires Fields(Split(x)) == Fields(Split(y))
    ensures Classify(p, x) == Classify(p, y)
  {
  }

  /** A filler piece inserted between two pieces, an extra `msec` or an empty piece from a
      doubled space, never changes what a non-`Took:` line is classified as. */
  lemma FillerIgnored(p: Numerals, a: string, filler: string, b: string)
    requires IsFiller(filler) && Split(a)[0] != TookMarker
    ensures Classify(p, a + " " + filler + " " + b) == Classify(p, a + " " + b)
  {
    var x, y := a + " " + filler + " " + b, a + " " + b;
    assert Split(y) == Split(a) + Split(b) by {
      SplitAtSpace(a, b);
    }
    assert Split(x) == Split(a) + ([filler] + Split(b)) by {
      assert x == a + " " + (filler + " " + b);
      SplitAtSpace(a, filler + " " + b);
      SplitAtSpace(filler, b);
      SplitSpaceFree(filler);
    }
    assert Fields(Split(x)) == Fields(Split(y)) by {
      FieldsAppend(Split(a), [filler] + Split(b));
      FieldsAppend([filler], Split(b));
      FieldsOne(filler);
      FieldsAppend(Split(a), Split(b));
    }
    assert Split(x)[0] == Split(a)[0] == Split(y)[0];
    SameFieldsSameRecord(p, x, y);
  }
}
