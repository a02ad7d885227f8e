/**
 * The straw consolidation script (consolidate_straws.py): the leak-rate
 * gate, the search of the leak summary file for a straw's latest test,
 * recording a manually entered rate, the leak decision for a straw, the
 * review loop that replaces straws on the pallet, and the two ledger lines
 * that mark the consolidated pallet as laser-cut and length-measured.
 *
 * Console prompts are oracle arguments; `strptime`, `float()`, the clock and
 * `.2E` formatting are parameters (`Env`).
 */
module Consolidate {
  import opened Builtins
  import opened Ledger
  import opened CheckStraw

  // ---------------------------------------------------------------------------
  // The gate
  // ---------------------------------------------------------------------------

  const MaxRate: real := 0.0000965
  const MaxError: real := 0.00000965

  /** `rateIsAcceptable`: both strictly positive, both at most their limit. */
  predicate RateIsAcceptable(rate: real, error: real) {
    0.0 < rate <= MaxRate && 0.0 < error <= MaxError
  }

  /** The lower bounds are exclusive and the upper bounds inclusive. */
  lemma RateGateBoundaries(rate: real, error: real)
    ensures RateIsAcceptable(MaxRate, MaxError)
    ensures !RateIsAcceptable(0.0, error) && !RateIsAcceptable(rate, 0.0)
    ensures rate > MaxRate ==> !RateIsAcceptable(rate, error)
    ensures error > MaxError ==> !RateIsAcceptable(rate, error)
  {
  }

  // ---------------------------------------------------------------------------
  // The leak summary file
  // ---------------------------------------------------------------------------

  /**
   * The library calls the script relies on: `strptime` with the two formats
   * (a timestamp is an ordered number), `float()`, the clock reading as
   * written by `strftime("%Y-%m-%d %H:%M:%S")`, and `format(x, ".2E")`.
   */
  datatype Env = Env(
    dayFirst: string -> Option<int>,
    isoStamp: string -> Option<int>,
    number: string -> Option<real>,
    now: string,
    format: real -> string)

  /** One usable test of the straw: rate, error and when it was taken. */
  datatype Measurement = Measurement(rate: real, error: real, stamp: int)

  /**
   * One line of the summary file: ignored unless it mentions the straw (any
   * case); the timestamp in field 1 is tried in both formats and a failure of
   * the second escapes; fields 5 and 6 that are not numbers skip the line.
   */
  function ReadLine(env: Env, straw: string, line: string): Result<Option<Measurement>> {
    if !Contains(Upper(line), Upper(straw)) then Ok(None)
    else
      var f := Split(line, ',');
      if |f| < 2 then Err(IndexError)
      else
        var stamp := if env.dayFirst(f[1]).Some? then env.dayFirst(f[1]) else env.isoStamp(f[1]);
        if stamp.None? then Err(ValueError)
        else if |f| < 6 then Err(IndexError)
        else if env.number(f[5]).None? then Ok(None)
        else if |f| < 7 then Err(IndexError)
        else if env.number(f[6]).None? then Ok(None)
        else Ok(Some(Measurement(env.number(f[5]).value, env.number(f[6]).value, stamp.value)))
  }

  /** `found_data` after reading the given lines. */
  function Found(env: Env, straw: string, lines: seq<string>): Result<seq<Measurement>> {
    if lines == [] then Ok([])
    else
      match Found(env, straw, lines[..|lines| - 1])
      case Err(e) => Err(e)
      case Ok(ms) =>
        match ReadLine(env, straw, lines[|lines| - 1])
        case Err(e) => Err(e)
        case Ok(m) => Ok(ms + (if m.Some? then [m.value] else []))
  }

  /** `max(found_data, key=timestamp)`: the first of the latest tests. */
  function LatestIndex(ms: seq<Measurement>): (i: nat)
    requires |ms| > 0
    ensures i < |ms|
    ensures forall j :: 0 <= j < |ms| ==> ms[j].stamp <= ms[i].stamp
    ensures forall j :: 0 <= j < i ==> ms[j].stamp < ms[i].stamp
  {
    if |ms| == 1 then 0
    else
      var k := LatestIndex(ms[..|ms| - 1]);
      if ms[|ms| - 1].stamp > ms[k].stamp then |ms| - 1 else k
  }

  /** `checkSummaryFile(straw)` */
  function CheckSummary(env: Env, straw: string, lines: seq<string>): Result<bool> {
    match Found(env, straw, lines)
    case Err(e) => Err(e)
    case Ok(ms) =>
      if ms == [] then Ok(false)
      else
        var latest := ms[LatestIndex(ms)];
        Ok(RateIsAcceptable(latest.rate, latest.error))
  }

  /** A line that does not mention the straw changes nothing. */
  lemma UnrelatedLineIgnored(env: Env, straw: string, lines: seq<string>, line: string)
    requires !Contains(Upper(line), Upper(straw))
    ensures Found(env, straw, lines + [line]) == Found(env, straw, lines)
    ensures CheckSummary(env, straw, lines + [line]) == CheckSummary(env, straw, lines)
  {
    assert (lines + [line])[..|lines|] == lines;
    assert (lines + [line])[|lines|] == line;
    if Found(env, straw, lines).Ok? {
      assert Found(env, straw, lines).value + [] == Found(env, straw, lines).value;
    }
  }

  /** With no line mentioning the straw, the check is False. */
  lemma {:induction false} NoMentionFails(env: Env, straw: string, lines: seq<string>)
    requires forall i :: 0 <= i < |lines| ==> !Contains(Upper(lines[i]), Upper(straw))
    ensures Found(env, straw, lines) == Ok([])
    ensures CheckSummary(env, straw, lines) == Ok(false)
  {
    if lines != [] {
      NoMentionFails(env, straw, lines[..|lines| - 1]);
      assert ReadLine(env, straw, lines[|lines| - 1]) == Ok(None);
      assert Found(env, straw, lines[..|lines| - 1]).value + [] == [];
    }
  }

  /**
   * A line appended after the others whose test is strictly later than every
   * test found so far decides the check by its own rate and error.
   */
  lemma LatestLineDecides(env: Env, straw: string, lines: seq<string>, line: string, m: Measurement)
    requires Found(env, straw, lines).Ok?
    requires ReadLine(env, straw, line) == Ok(Some(m))
    requires forall x :: x in Found(env, straw, lines).value ==> x.stamp < m.stamp
    ensures CheckSummary(env, straw, lines + [line]) == Ok(RateIsAcceptable(m.rate, m.error))
  {
    assert (lines + [line])[..|lines|] == lines;
    var ms := Found(env, straw, lines).value + [m];
    assert Found(env, straw, lines + [line]) == Ok(ms);
    assert (lines + [line])[|lines|] == line;
    assert Found(env, straw, lines + [line]) == Ok(ms);
  }

  /** The fields of the row `recordNewRate` writes. */
  function RateFields(env: Env, straw: string, worker: string, chamber: string,
                      rate: real, error: real, location: string): seq<string> {
    [straw, env.now, "con", worker, "chamber" + chamber, env.format(rate), env.format(error), "DataLocation:" + location]
  }

  /** The row `recordNewRate` writes (the file's line terminator aside). */
  function RateRow(env: Env, straw: string, worker: string, chamber: string,
                   rate: real, error: real, location: string): string {
    Join(RateFields(env, straw, worker, chamber, rate, error, location), ",")
  }

  /** No comma in the fields before the free-text location. */
  predicate CommaFreeEntry(env: Env, straw: string, worker: string, chamber: string, rate: real, error: real) {
    ',' !in straw && ',' !in env.now && ',' !in worker && ',' !in chamber &&
    ',' !in env.format(rate) && ',' !in env.format(error)
  }

  lemma UpperPrefix(s: string, t: string)
    ensures Upper(s + t)[..|s|] == Upper(s)
  {
  }

  lemma JoinStartsWith(parts: seq<string>, sep: string)
    requires |parts| >= 1
    ensures StartsWith(Join(parts, sep), parts[0])
  {
    if |parts| > 1 {
      assert Join(parts, sep) == parts[0] + (sep + Join(parts[1..], sep));
    }
  }

  /**
   * The recorded row is read back from the positions `checkSummaryFile` uses:
   * the clock reading from field 1 in the second format, rate and error from
   * fields 5 and 6 as formatted.
   */
  lemma RecordedRowReadBack(env: Env, straw: string, worker: string, chamber: string,
                            rate: real, error: real, location: string)
    requires CommaFreeEntry(env, straw, worker, chamber, rate, error)
    requires env.dayFirst(env.now).None? && env.isoStamp(env.now).Some?
    requires env.number(env.format(rate)).Some? && env.number(env.format(error)).Some?
    ensures ReadLine(env, straw, RateRow(env, straw, worker, chamber, rate, error, location))
         == Ok(Some(Measurement(env.number(env.format(rate)).value, env.number(env.format(error)).value,
                                env.isoStamp(env.now).value)))
  {
    var fields := RateFields(env, straw, worker, chamber, rate, error, location);
    var row := RateRow(env, straw, worker, chamber, rate, error, location);
    JoinStartsWith(fields, ",");
    assert row == straw + row[|straw|..];
    UpperPrefix(straw, row[|straw|..]);
    assert StartsWith(Upper(row)[0..], Upper(straw));
    assert Contains(Upper(row), Upper(straw));
    // Only the location may hold commas: split the row at the comma before it.
    var head := fields[..7];
    assert fields == head + [fields[7]];
    JoinAppend(head, [fields[7]], ",");
    assert row == Join(head, ",") + [','] + fields[7];
    SplitConcat(Join(head, ","), fields[7], ',');
    assert forall i :: 0 <= i < |head| ==> ',' !in head[i] by {
      assert ',' !in "con";
      assert forall c :: c in "chamber" + chamber ==> c in "chamber" || c in chamber;
    }
    SplitJoin(head, ',');
    var f := Split(row, ',');
    assert f == head + Split(fields[7], ',');
    assert f[1] == env.now && f[5] == env.format(rate) && f[6] == env.format(error);
  }

  // ---------------------------------------------------------------------------
  // Recording and the leak decision (stateful: the summary file grows)
  // ---------------------------------------------------------------------------

  /** One set of answers to `getLeakInfoFromUser`. */
  datatype Entry = Entry(rate: real, error: real, chamber: string, location: string)

  /**
   * The operator's part in `passedLeakTest` for one straw: the values read
   * off a fit plot if one was found (None: no plot), whether they override an
   * unusual value there, the values entered by hand if they choose to (None:
   * they decline), and whether they override those.
   */
  datatype Operator = Operator(plot: Option<Entry>, plotOverride: bool, manual: Option<Entry>, manualOverride: bool)

  /** `checkAndRecord` on a list of summary lines: the verdict and the lines after it. */
  function RecordRate(env: Env, lines: seq<string>, straw: string, worker: string, e: Entry, override: bool)
    : (r: (bool, seq<string>))
    ensures r.0 <==> RateIsAcceptable(e.rate, e.error) || override
    ensures r.1 == lines + (if r.0 then [RateRow(env, straw, worker, e.chamber, e.rate, e.error, e.location)] else [])
  {
    var passed := RateIsAcceptable(e.rate, e.error) || override;
    (passed, lines + (if passed then [RateRow(env, straw, worker, e.chamber, e.rate, e.error, e.location)] else []))
  }

  /** `passedLeakTest(straw, worker)`: the verdict and the summary lines after it. */
  function LeakTest(env: Env, lines: seq<string>, straw: string, worker: string, op: Operator)
    : (Result<bool>, seq<string>)
  {
    match CheckSummary(env, straw, lines)
    case Err(e) => (Err(e), lines)
    case Ok(found) =>
      if found then (Ok(true), lines)
      else
        var (plotPassed, lines1) :=
          if op.plot.Some? then RecordRate(env, lines, straw, worker, op.plot.value, op.plotOverride) else (false, lines);
        if plotPassed then (Ok(true), lines1)
        else if op.manual.Some? then
          var (manualPassed, lines2) := RecordRate(env, lines1, straw, worker, op.manual.value, op.manualOverride);
          (Ok(manualPassed), lines2)
        else (Ok(false), lines1)
  }

  /**
   * The leak decision passes exactly when the summary already passes the
   * straw or an entry is accepted (in range or overridden); it only ever
   * appends, one row per accepted entry, and nothing when it raises.
   */
  lemma LeakTestMeaning(env: Env, lines: seq<string>, straw: string, worker: string, op: Operator)
    ensures var (r, after) := LeakTest(env, lines, straw, worker, op);
      (CheckSummary(env, straw, lines).Err? ==> r == CheckSummary(env, straw, lines) && after == lines) &&
      (CheckSummary(env, straw, lines) == Ok(true) ==> r == Ok(true) && after == lines) &&
      (CheckSummary(env, straw, lines) == Ok(false) ==>
         var plotOk := op.plot.Some? && (RateIsAcceptable(op.plot.value.rate, op.plot.value.error) || op.plotOverride);
         var manualOk := op.manual.Some? && (RateIsAcceptable(op.manual.value.rate, op.manual.value.error) || op.manualOverride);
         r == Ok(plotOk || manualOk) &&
         |lines| <= |after| <= |lines| + 2 && after[..|lines|] == lines &&
         (r == Ok(false) ==> after == lines))
  {
  }

  /** The leak summary file LeakTestResults.csv, one string per line. */
  class LeakSummary {
    var lines: seq<string>

    constructor(lines0: seq<string>)
      ensures lines == lines0
    {
      lines := lines0;
    }

    /** `checkSummaryFile`, with its loop; the file is only read. */
    method CheckSummaryFile(env: Env, straw: string) returns (r: Result<bool>)
      ensures r == CheckSummary(env, straw, lines)
    {
      var found: seq<Measurement> := [];
      var i := 0;
      while i < |lines|
        invariant 0 <= i <= |lines|
        invariant Found(env, straw, lines[..i]) == Ok(found)
      {
        assert lines[..i + 1][..i] == lines[..i];
        assert lines[..i + 1][i] == lines[i];
        var row := ReadLine(env, straw, lines[i]);
        if row.Err? {
          FoundAfterError(env, straw, lines, i, |lines|);
          assert lines[..|lines|] == lines;
          return Err(row.error);
        }
        assert Found(env, straw, lines[..i + 1]) == Ok(found + (if row.value.Some? then [row.value.value] else []));
        if row.value.Some? {
          found := found + [row.value.value];
        } else {
          assert found + [] == found;
        }
        i := i + 1;
      }
      assert lines[..i] == lines;
      if found == [] {
        return Ok(false);
      }
      var latest := found[LatestIndex(found)];
      return Ok(RateIsAcceptable(latest.rate, latest.error));
    }

    /** `checkAndRecord`: the gate or the override decides, and only a pass is recorded. */
    method CheckAndRecord(env: Env, straw: string, worker: string, e: Entry, override: bool) returns (passed: bool)
      modifies this
      ensures passed <==> RateIsAcceptable(e.rate, e.error) || override
      ensures lines == old(lines) + (if passed then [RateRow(env, straw, worker, e.chamber, e.rate, e.error, e.location)] else [])
    {
      passed := RateIsAcceptable(e.rate, e.error);
      if !passed && override {
        passed := true;
      }
      if passed {
        lines := lines + [RateRow(env, straw, worker, e.chamber, e.rate, e.error, e.location)];
      }
    }

    /** `passedLeakTest`: summary first, then a fit plot, then values entered by hand. */
    method PassedLeakTest(env: Env, straw: string, worker: string, op: Operator) returns (r: Result<bool>)
      modifies this
      ensures (r, lines) == LeakTest(env, old(lines), straw, worker, op)
    {
      var inSummary := CheckSummaryFile(env, straw);
      if inSummary.Err? {
        return Err(inSummary.error);
      }
      if inSummary.value {
        return Ok(true);
      }
      if op.plot.Some? {
        var passed := CheckAndRecord(env, straw, worker, op.plot.value, op.plotOverride);
        if passed {
          return Ok(true);
        }
      }
      if op.manual.Some? {
        var passed := CheckAndRecord(env, straw, worker, op.manual.value, op.manualOverride);
        if passed {
          return Ok(true);
        }
      }
      return Ok(false);
    }
  }

  lemma {:induction false} FoundAfterError(env: Env, straw: string, lines: seq<string>, i: nat, n: nat)
    requires i < n <= |lines| && Found(env, straw, lines[..i]).Ok? && ReadLine(env, straw, lines[i]).Err?
    ensures Found(env, straw, lines[..n]) == Err(ReadLine(env, straw, lines[i]).error)
    decreases n
  {
    if n == i + 1 {
      assert lines[..n][..i] == lines[..i];
    } else {
      FoundAfterError(env, straw, lines, i, n - 1);
      assert lines[..n][..n - 1] == lines[..n - 1];
    }
  }

  /**
   * A recorded test that is strictly the latest decides the summary check
   * afterwards by the values `checkSummaryFile` reads back from the written
   * row, that is `float()` of the `.2E` text (8.888e-5 is read back as
   * 8.89e-5): the rows `checkAndRecord` writes are the rows
   * `checkSummaryFile` reads. When the read-back values are within the
   * limits, the straw passes.
   */
  lemma RecordedRateIsFound(env: Env, lines: seq<string>, straw: string, worker: string, e: Entry, override: bool)
    requires CommaFreeEntry(env, straw, worker, e.chamber, e.rate, e.error)
    requires env.dayFirst(env.now).None? && env.isoStamp(env.now).Some?
    requires env.number(env.format(e.rate)).Some? && env.number(env.format(e.error)).Some?
    requires RateIsAcceptable(e.rate, e.error) || override
    requires Found(env, straw, lines).Ok?
    requires forall x :: x in Found(env, straw, lines).value ==> x.stamp < env.isoStamp(env.now).value
    ensures var (passed, after) := RecordRate(env, lines, straw, worker, e, override);
      var rate, error := env.number(env.format(e.rate)).value, env.number(env.format(e.error)).value;
      passed && CheckSummary(env, straw, after) == Ok(RateIsAcceptable(rate, error)) &&
      (RateIsAcceptable(rate, error) ==> CheckSummary(env, straw, after) == Ok(true))
  {
    RecordedRowReadBack(env, straw, worker, e.chamber, e.rate, e.error, e.location);
    var row := RateRow(env, straw, worker, e.chamber, e.rate, e.error, e.location);
    var m := Measurement(env.number(env.format(e.rate)).value, env.number(env.format(e.error)).value,
                         env.isoStamp(env.now).value);
    LatestLineDecides(env, straw, lines, row, m);
  }

  // ---------------------------------------------------------------------------
  // finalizeStraws
  // ---------------------------------------------------------------------------

  /**
   * One pass of the review loop: the operator confirms the pallet, or types
   * slot numbers until one is valid and scans a candidate straw, answering
   * the leak-test prompts for it with `op`.
   */
  datatype Round = Ready | Replace(typed: seq<string>, candidate: string, op: Operator)

  /** The slot prompt: the first answer `int(answer) - 1` puts in range(24). */
  function SlotOf(typed: seq<string>): (slot: Option<nat>)
    ensures slot.Some? ==> slot.value < 24
    ensures slot.Some? ==> exists i :: 0 <= i < |typed| && ParseInt(typed[i]) == Some(slot.value + 1)
  {
    if typed == [] then None
    else
      var n := ParseInt(typed[0]);
      if n.Some? && 1 <= n.value <= 24 then Some(n.value - 1)
      else
        var rest := SlotOf(typed[1..]);
        if rest.Some? then
          assert exists i :: 1 <= i < |typed| && ParseInt(typed[i]) == Some(rest.value + 1) by {
            var i :| 0 <= i < |typed[1..]| && ParseInt(typed[1..][i]) == Some(rest.value + 1);
            assert typed[1..][i] == typed[i + 1];
          }
          rest
        else None
  }

  /** The retry loop around the slot prompt; None when the answers run out. */
  method ReadSlot(typed: seq<string>) returns (slot: Option<nat>)
    ensures slot == SlotOf(typed)
  {
    var i := 0;
    while i < |typed|
      invariant 0 <= i <= |typed|
      invariant SlotOf(typed) == SlotOf(typed[i..])
    {
      var n := ParseInt(typed[i]);
      SlotStep(typed, i);
      if n.Some? && 1 <= n.value <= 24 {
        return Some(n.value - 1);
      }
      i := i + 1;
    }
    return None;
  }

  /** One answer of the prompt: either it names a slot or the prompt moves on. */
  lemma SlotStep(typed: seq<string>, i: nat)
    requires i < |typed|
    ensures var n := ParseInt(typed[i]);
      SlotOf(typed[i..]) == if n.Some? && 1 <= n.value <= 24 then Some(n.value - 1) else SlotOf(typed[i + 1..])
  {
    assert typed[i..][0] == typed[i];
    assert typed[i..][1..] == typed[i + 1..];
  }

  /** The pallet's straws under review and the summary file. */
  datatype Review = Review(straws: seq<string>, lines: seq<string>)

  /**
   * Replacing one slot: the candidate goes into the slot only when it passes
   * the leak decision; nothing else in the list changes.
   */
  function ReplaceSlot(env: Env, worker: string, st: Review, slot: nat, candidate: string, op: Operator)
    : (r: (Result<bool>, Review))
    ensures |r.1.straws| == |st.straws|
    ensures r.1.lines == LeakTest(env, st.lines, candidate, worker, op).1
    ensures forall j :: 0 <= j < |st.straws| && j != slot ==> r.1.straws[j] == st.straws[j]
    ensures r.1.straws != st.straws ==> LeakTest(env, st.lines, candidate, worker, op).0 == Ok(true)
    ensures slot < |st.straws| && LeakTest(env, st.lines, candidate, worker, op).0 == Ok(true) ==>
      r == (Ok(true), Review(st.straws[slot := candidate], r.1.lines))
  {
    var (v, lines) := LeakTest(env, st.lines, candidate, worker, op);
    match v
    case Err(e) => (Err(e), Review(st.straws, lines))
    case Ok(passed) =>
      if !passed then (Ok(false), Review(st.straws, lines))
      else if slot < |st.straws| then (Ok(true), Review(st.straws[slot := candidate], lines))
      else (Err(IndexError), Review(st.straws, lines))
  }

  /**
   * `finalizeStraws` over the operator's rounds: Ok(true) once they confirm,
   * Ok(false) when the rounds run out first (the script would still be
   * asking), an error when a leak decision raises.
   */
  function Finalize(env: Env, worker: string, st: Review, rounds: seq<Round>): (r: (Result<bool>, Review))
    ensures |r.1.straws| == |st.straws|
    decreases |rounds|
  {
    if rounds == [] then (Ok(false), st)
    else
      match rounds[0]
      case Ready => (Ok(true), st)
      case Replace(typed, candidate, op) =>
        match SlotOf(typed)
        case None => (Ok(false), st)
        case Some(slot) =>
          var (v, st1) := ReplaceSlot(env, worker, st, slot, candidate, op);
          if v.Err? then (Err(v.error), st1)
          else Finalize(env, worker, st1, rounds[1..])
  }

  /**
   * Every straw the review leaves in a slot either was there before or is a
   * candidate the operator scanned that passed the leak decision at its turn:
   * on the summary lines as the rounds before it left them.
   */
  lemma {:induction false} FinalizeKeepsOrReplaces(env: Env, worker: string, st: Review, rounds: seq<Round>, j: nat)
    requires j < |st.straws|
    ensures var after := Finalize(env, worker, st, rounds).1;
      after.straws[j] == st.straws[j] ||
      exists k ::
        && 0 <= k < |rounds|
        && rounds[k].Replace?
        && rounds[k].candidate == after.straws[j]
        && LeakTest(env, Finalize(env, worker, st, rounds[..k]).1.lines, rounds[k].candidate, worker, rounds[k].op).0
           == Ok(true)
    decreases |rounds|
  {
    if rounds != [] && rounds[0].Replace? {
      var slot := SlotOf(rounds[0].typed);
      if slot.Some? {
        var (v, st1) := ReplaceSlot(env, worker, st, slot.value, rounds[0].candidate, rounds[0].op);
        if v.Ok? {
          FinalizeKeepsOrReplaces(env, worker, st1, rounds[1..], j);
          var after := Finalize(env, worker, st1, rounds[1..]).1;
          if after.straws[j] != st1.straws[j] {
            var k :| && 0 <= k < |rounds[1..]|
                     && rounds[1..][k].Replace?
                     && rounds[1..][k].candidate == after.straws[j]
                     && LeakTest(env, Finalize(env, worker, st1, rounds[1..][..k]).1.lines,
                                 rounds[1..][k].candidate, worker, rounds[1..][k].op).0 == Ok(true);
            assert rounds[k + 1] == rounds[1..][k];
            assert rounds[..k + 1][0] == rounds[0] && rounds[..k + 1][1..] == rounds[1..][..k];
            assert Finalize(env, worker, st, rounds[..k + 1]).1 == Finalize(env, worker, st1, rounds[1..][..k]).1;
          } else if st1.straws[j] != st.straws[j] {
            assert st1.straws[j] == rounds[0].candidate;
            assert rounds[..0] == [];
            assert Finalize(env, worker, st, rounds[..0]).1 == st;
          }
        }
      }
    }
  }

  /** One replacement round once the slot is known: the leak decision, then the swap if it passed. */
  method ReplaceRound(summary: LeakSummary, straws: array<string>, env: Env, worker: string,
                      slot: nat, candidate: string, op: Operator) returns (v: Result<bool>)
    requires summary as object != straws
    modifies summary, straws
    ensures (v, Review(straws[..], summary.lines))
      == ReplaceSlot(env, worker, Review(old(straws[..]), old(summary.lines)), slot, candidate, op)
  {
    var passed := summary.PassedLeakTest(env, candidate, worker, op);
    if passed.Err? {
      return Err(passed.error);
    }
    if !passed.value {
      return Ok(false);
    }
    if slot >= straws.Length {
      return Err(IndexError);
    }
    straws[slot] := candidate;
    return Ok(true);
  }

  /** `finalizeStraws(straws_passed, worker)`: the list is changed in place. */
  method FinalizeStraws(summary: LeakSummary, straws: array<string>, env: Env, worker: string, rounds: seq<Round>)
    returns (r: Result<bool>)
    requires summary as object != straws
    modifies summary, straws
    ensures (r, Review(straws[..], summary.lines)) == Finalize(env, worker, Review(old(straws[..]), old(summary.lines)), rounds)
  {
    ghost var start := Review(straws[..], summary.lines);
    var i := 0;
    while i < |rounds|
      invariant 0 <= i <= |rounds|
      invariant Finalize(env, worker, start, rounds) == Finalize(env, worker, Review(straws[..], summary.lines), rounds[i..])
    {
      assert rounds[i..][1..] == rounds[i + 1..];
      match rounds[i]
      case Ready =>
        return Ok(true);
      case Replace(typed, candidate, op) =>
        var slot := ReadSlot(typed);
        if slot.None? {
          return Ok(false);
        }
        var v := ReplaceRound(summary, straws, env, worker, slot.value, candidate, op);
        if v.Err? {
          return Err(v.error);
        }
      i := i + 1;
    }
    assert rounds[i..] == [];
    return Ok(false);
  }

  // ---------------------------------------------------------------------------
  // run: the two ledger lines
  // ---------------------------------------------------------------------------

  /** One scan at the barcode prompt of `run`, with the operator's answers to the leak prompts. */
  datatype Scan = Scan(straw: string, op: Operator)

  /**
   * The scan-in loop of `run`: scans are taken until 24 straws have passed the
   * leak decision; a scan that fails is asked again for the same slot. The
   * result is Ok with fewer straws when the scans run out.
   */
  function ScanIn(env: Env, worker: string, lines: seq<string>, scans: seq<Scan>, straws: seq<string>)
    : (r: (Result<seq<string>>, seq<string>))
    requires |straws| <= 24
    ensures r.0.Ok? ==> |r.0.value| <= 24 && straws <= r.0.value
    decreases |scans|
  {
    if |straws| == 24 || scans == [] then (Ok(straws), lines)
    else
      var (v, lines1) := LeakTest(env, lines, scans[0].straw, worker, scans[0].op);
      if v.Err? then (Err(v.error), lines1)
      else ScanIn(env, worker, lines1, scans[1..], straws + (if v.value then [scans[0].straw] else []))
  }

  /**
   * Every straw the scan-in loop accepts was scanned, and passed the leak
   * decision at its turn: on the summary lines as the scans before it left them.
   */
  lemma {:induction false} ScanInAcceptsPassed(env: Env, worker: string, lines: seq<string>, scans: seq<Scan>,
                                               straws: seq<string>, j: nat)
    requires |straws| <= 24
    requires ScanIn(env, worker, lines, scans, straws).0.Ok?
    requires |straws| <= j < |ScanIn(env, worker, lines, scans, straws).0.value|
    ensures exists k ::
      && 0 <= k < |scans|
      && scans[k].straw == ScanIn(env, worker, lines, scans, straws).0.value[j]
      && LeakTest(env, ScanIn(env, worker, lines, scans[..k], straws).1, scans[k].straw, worker, scans[k].op).0
         == Ok(true)
    decreases |scans|
  {
    var (v, lines1) := LeakTest(env, lines, scans[0].straw, worker, scans[0].op);
    var next := straws + (if v.value then [scans[0].straw] else []);
    var out := ScanIn(env, worker, lines1, scans[1..], next).0.value;
    if j == |straws| && v.value {
      assert out[j] == next[j] == scans[0].straw;
      assert ScanIn(env, worker, lines, scans[..0], straws).1 == lines;
    } else {
      ScanInAcceptsPassed(env, worker, lines1, scans[1..], next, j);
      var k :| 0 <= k < |scans[1..]| && scans[1..][k].straw == out[j] &&
        LeakTest(env, ScanIn(env, worker, lines1, scans[1..][..k], next).1, scans[1..][k].straw, worker,
                 scans[1..][k].op).0 == Ok(true);
      assert scans[k + 1] == scans[1..][k];
      assert scans[..k + 1][0] == scans[0] && scans[..k + 1][1..] == scans[1..][..k];
      assert ScanIn(env, worker, lines, scans[..k + 1], straws).1 == ScanIn(env, worker, lines1, scans[1..][..k], next).1;
    }
  }

  /** One scan of the loop: the leak decision on it, then the rest of the scans. */
  lemma ScanInStep(env: Env, worker: string, lines: seq<string>, scans: seq<Scan>, i: nat, straws: seq<string>)
    requires i < |scans| && |straws| < 24
    ensures var (v, lines1) := LeakTest(env, lines, scans[i].straw, worker, scans[i].op);
      ScanIn(env, worker, lines, scans[i..], straws) ==
        if v.Err? then (Err(v.error), lines1)
        else ScanIn(env, worker, lines1, scans[i + 1..], straws + (if v.value then [scans[i].straw] else []))
  {
    assert scans[i..][0] == scans[i];
    assert scans[i..][1..] == scans[i + 1..];
  }

  /** The scan-in loop of `run`, appending to the list and to the summary file. */
  method ScanInStraws(summary: LeakSummary, env: Env, worker: string, scans: seq<Scan>) returns (r: Result<seq<string>>)
    modifies summary
    ensures (r, summary.lines) == ScanIn(env, worker, old(summary.lines), scans, [])
  {
    var strawsPassed: seq<string> := [];
    var i := 0;
    while i < |scans| && |strawsPassed| < 24
      invariant 0 <= i <= |scans| && |strawsPassed| <= 24
      invariant ScanIn(env, worker, old(summary.lines), scans, [])
             == ScanIn(env, worker, summary.lines, scans[i..], strawsPassed)
    {
      ghost var before := summary.lines;
      var passed := summary.PassedLeakTest(env, scans[i].straw, worker, scans[i].op);
      ScanInStep(env, worker, before, scans, i, strawsPassed);
      if passed.Err? {
        return Err(passed.error);
      }
      ghost var next := strawsPassed + (if passed.value then [scans[i].straw] else []);
      if passed.value {
        strawsPassed := strawsPassed + [scans[i].straw];
      } else {
        assert next == strawsPassed;
      }
      i := i + 1;
    }
    return Ok(strawsPassed);
  }

  /** `date + ",<step>," + ",P,".join(straws) + ",P," + worker` */
  function ConsolidationLine(date: string, step: string, straws: seq<string>, worker: string): string {
    date + "," + step + "," + (Join(straws, ",P,") + ",P,") + worker
  }

  /** The file's text with its last line ended: `text[-1][-1] != "\n"` adds a newline. */
  function Terminated(text: string): (t: string)
    requires text != ""
    ensures t != "" && t[|t| - 1] == '\n'
    ensures text <= t && Rows(t) == Rows(text)
  {
    NewlineRows(text);
    if text[|text| - 1] != '\n' then text + "\n" else text
  }

  /** The pallet file after `run`: the last line ended, then the laser and length lines. */
  function Consolidated(text: string, date: string, straws: seq<string>, worker: string): string
    requires text != ""
  {
    WithStepLines(text, date, "lasr", "leng", straws, worker)
  }

  /** The text with its last line ended and then two consolidation lines, one per step. */
  function WithStepLines(text: string, date: string, step1: string, step2: string, straws: seq<string>, worker: string): string
    requires text != ""
  {
    Terminated(text) + (ConsolidationLine(date, step1, straws, worker) + "\n")
      + (ConsolidationLine(date, step2, straws, worker) + "\n")
  }

  /** A pallet file, as text. */
  class PalletFile {
    var text: string

    constructor(text0: string)
      ensures text == text0
    {
      text := text0;
    }

    /** The append part of `run`; an empty file raises IndexError at `text[-1]`. */
    method AppendConsolidation(date: string, straws: seq<string>, worker: string) returns (r: Result<()>)
      modifies this
      ensures r.Err? <==> old(text) == ""
      ensures r.Err? ==> r.error == IndexError && text == old(text)
      ensures r.Ok? ==> text == Consolidated(old(text), date, straws, worker)
    {
      if text == "" {
        return Err(IndexError);
      }
      if text[|text| - 1] != '\n' {
        text := text + "\n";
      }
      text := text + (ConsolidationLine(date, "lasr", straws, worker) + "\n");
      text := text + (ConsolidationLine(date, "leng", straws, worker) + "\n");
      return Ok(());
    }
  }

  /** Each straw followed by "P", joined: `",P,".join(straws) + ",P"`. */
  lemma {:induction false} PassedJoin(straws: seq<string>)
    requires |straws| >= 1
    ensures Join(straws, ",P,") + ",P" == Join(PassedPairs(straws), ",")
  {
    var pp := PassedPairs(straws);
    var c, m := ",", "P";
    assert ",P," == c + m + c && ",P" == c + m;
    var s0 := straws[0];
    assert pp == [s0, m] + PassedPairs(straws[1..]);
    assert Join([s0, m], c) == s0 + c + m by {
      assert [s0, m][1..] == [m];
    }
    if |straws| == 1 {
      assert pp == [s0, m];
    } else {
      var rest := PassedPairs(straws[1..]);
      var j := Join(straws[1..], c + m + c);
      assert Join(rest, c) == j + (c + m) by {
        PassedJoin(straws[1..]);
      }
      assert Join(pp, c) == s0 + c + m + c + Join(rest, c) by {
        JoinAppend([s0, m], rest, c);
      }
      assert Join(straws, c + m + c) == s0 + (c + m + c) + j;
      RegroupPair(s0, c, m, j);
    }
  }

  lemma RegroupPair(s0: string, c: string, m: string, j: string)
    ensures s0 + (c + m + c) + j + (c + m) == s0 + c + m + c + (j + (c + m))
  {
  }

  /** The comma-join of a record with one worker, field group by field group. */
  lemma JoinRecord(date: string, step: string, pairs: seq<string>, worker: string, sep: string)
    requires |pairs| >= 1
    ensures Join(Record(date, step, pairs, [worker]), sep) == date + sep + step + sep + Join(pairs, sep) + sep + worker
  {
    var head := [date, step] + pairs;
    assert Record(date, step, pairs, [worker]) == head + [worker];
    JoinAppend(head, [worker], sep);
    JoinAppend([date, step], pairs, sep);
    assert [date, step][1..] == [step];
    assert Join([date, step], sep) == date + sep + step;
  }

  /** A consolidation line is the comma-join of its record's fields. */
  lemma ConsolidationLineFields(date: string, step: string, straws: seq<string>, worker: string)
    requires |straws| >= 1
    ensures ConsolidationLine(date, step, straws, worker) == Join(Record(date, step, PassedPairs(straws), [worker]), ",")
  {
    var c, cp := ",", ",P";
    assert ",P," == cp + c;
    PassedJoin(straws);
    JoinRecord(date, step, PassedPairs(straws), worker, c);
    var j := Join(straws, cp + c);
    assert ConsolidationLine(date, step, straws, worker) == date + c + step + c + (j + (cp + c)) + worker;
    assert Join(PassedPairs(straws), c) == j + cp;
    var x := date + c + step + c;
    AppendAssoc(j, cp, c);
    AppendAssoc(x, j + cp, c);
  }

  lemma {:induction false} PlainPairs(straws: seq<string>)
    requires forall i :: 0 <= i < |straws| ==> PlainField(straws[i])
    ensures forall i :: 0 <= i < |PassedPairs(straws)| ==> PlainField(PassedPairs(straws)[i])
  {
    if straws != [] {
      PlainPairs(straws[1..]);
      assert PassedPairs(straws) == [straws[0], "P"] + PassedPairs(straws[1..]);
    }
  }

  /** The csv row of a consolidation line is the record, field by field. */
  lemma {:induction false} ConsolidationRow(date: string, step: string, straws: seq<string>, worker: string)
    requires |straws| >= 1 && PlainField(date) && PlainField(step) && PlainField(worker)
    requires forall i :: 0 <= i < |straws| ==> PlainField(straws[i])
    ensures var line := ConsolidationLine(date, step, straws, worker);
      line != "" && '\n' !in line && Row(line) == Record(date, step, PassedPairs(straws), [worker])
  {
    var line := ConsolidationLine(date, step, straws, worker);
    var pp := PassedPairs(straws);
    var fields := Record(date, step, pp, [worker]);
    assert line == Join(fields, ",") by {
      ConsolidationLineFields(date, step, straws, worker);
    }
    assert |fields| >= 2 && forall i :: 0 <= i < |fields| ==> PlainField(fields[i]) by {
      PlainPairs(straws);
      PlainRecord(date, step, pp, [worker]);
    }
    LineRoundTrip(line, fields);
  }

  lemma LineRoundTrip(line: string, fields: Line)
    requires line == Join(fields, ",")
    requires |fields| >= 2 && forall i :: 0 <= i < |fields| ==> PlainField(fields[i])
    ensures line != "" && '\n' !in line && Row(line) == fields
  {
    RecordRoundTrip(fields);
  }

  /**
   * `run` leaves every existing row of the pallet file as it was and adds
   * exactly two rows, the laser-cut record and then the length record, each
   * holding every straw followed by "P", then the worker.
   */
  lemma ConsolidatedRows(text: string, date: string, straws: seq<string>, worker: string)
    requires text != "" && |straws| >= 1 && PlainField(date) && PlainField(worker)
    requires forall i :: 0 <= i < |straws| ==> PlainField(straws[i])
    ensures Rows(Consolidated(text, date, straws, worker)) ==
      Rows(text) + [Record(date, "lasr", PassedPairs(straws), [worker]), Record(date, "leng", PassedPairs(straws), [worker])]
  {
    StepNamesPlain();
    StepLinesRows(text, date, "lasr", "leng", straws, worker);
  }

  lemma StepLinesRows(text: string, date: string, step1: string, step2: string, straws: seq<string>, worker: string)
    requires text != "" && |straws| >= 1 && PlainField(date) && PlainField(worker)
    requires PlainField(step1) && PlainField(step2)
    requires forall i :: 0 <= i < |straws| ==> PlainField(straws[i])
    ensures Rows(WithStepLines(text, date, step1, step2, straws, worker)) ==
      Rows(text) + [Record(date, step1, PassedPairs(straws), [worker]), Record(date, step2, PassedPairs(straws), [worker])]
  {
    var a := ConsolidationLine(date, step1, straws, worker);
    var b := ConsolidationLine(date, step2, straws, worker);
    assert a != "" && '\n' !in a && Row(a) == Record(date, step1, PassedPairs(straws), [worker]) by {
      ConsolidationRow(date, step1, straws, worker);
    }
    assert b != "" && '\n' !in b && Row(b) == Record(date, step2, PassedPairs(straws), [worker]) by {
      ConsolidationRow(date, step2, straws, worker);
    }
    TwoLinesRows(text, a, b);
  }

  lemma {:induction false} TwoLinesRows(text: string, a: string, b: string)
    requires text != "" && a != "" && b != "" && '\n' !in a && '\n' !in b
    ensures text <= Terminated(text) + (a + "\n") + (b + "\n")
    ensures Rows(Terminated(text) + (a + "\n") + (b + "\n")) == Rows(text) + [Row(a), Row(b)]
  {
    var base := Terminated(text);
    var mid := base + (a + "\n");
    assert text <= mid by {
      assert text <= base;
    }
    assert mid != "" && mid[|mid| - 1] == '\n' && Rows(mid) == Rows(text) + [Row(a)] by {
      AppendTerminatedLine(base, a);
    }
    assert Rows(mid + (b + "\n")) == Rows(mid) + [Row(b)] by {
      AppendTerminatedLine(mid, b);
    }
    SnocTwice(Rows(text), Row(a), Row(b));
  }

  /** The step lines of a consolidation mark each of its straws passed. */
  lemma ConsolidationLineMarks(date: string, step: string, straws: seq<string>, worker: string, k: nat)
    requires k < |straws|
    ensures var line := Record(date, step, PassedPairs(straws), [worker]);
      line[1] == step && MarkedFrom(line, straws[k], 0) && line[|line| - 1] == worker
  {
    var pp := PassedPairs(straws);
    assert pp[2 * k] == straws[k] && pp[2 * k + 1] == "P";
    RecordPairMarks(date, step, pp, worker, straws[k], k);
  }

  /** A pair "straw, P" among a record's pairs marks that straw in the record. */
  lemma RecordPairMarks(date: string, step: string, pairs: seq<string>, worker: string, s: string, k: nat)
    requires 2 * k + 1 < |pairs| && pairs[2 * k] == s && pairs[2 * k + 1] == "P"
    ensures var line := Record(date, step, pairs, [worker]);
      line[1] == step && MarkedFrom(line, s, 0) && line[|line| - 1] == worker
  {
    var line := Record(date, step, pairs, [worker]);
    assert line[2 + 2 * k] == pairs[2 * k];
    assert line[2 + 2 * k + 1] == pairs[2 * k + 1];
  }

  /**
   * After `run`, the genealogy check can no longer answer "not passed" for a
   * consolidated straw at the laser or length step: whatever the earlier rows
   * left, the new rows set the flag, or the scan raises (earlier rows, or a
   * straw that is also the worker's name in the last field).
   */
  lemma ConsolidationPassesStraws(store: Store, cpal: string, text: string, date: string, straws: seq<string>,
                                  worker: string, k: nat, step: string, fuel: nat)
    requires text != "" && |straws| >= 1 && PlainField(date) && PlainField(worker)
    requires forall i :: 0 <= i < |straws| ==> PlainField(straws[i])
    requires k < |straws| && fuel > 0
    requires step == "lasr" || step == "leng"
    ensures var store1 := store[cpal := Rows(Consolidated(text, date, straws, worker))];
      StrawVerdict(store1, cpal, straws[k], step, fuel) != Ok(false)
  {
    var la := Record(date, "lasr", PassedPairs(straws), [worker]);
    var le := Record(date, "leng", PassedPairs(straws), [worker]);
    ConsolidatedHistory(text, date, straws, worker);
    ConsolidationLineMarks(date, "lasr", straws, worker, k);
    ConsolidationLineMarks(date, "leng", straws, worker, k);
    TrailingPairPasses(store[cpal := Rows(Consolidated(text, date, straws, worker))], cpal,
                       History(Rows(text)), la, le, straws[k], step, fuel);
  }

  /** The history after `run` is the history before it and then the two new records. */
  lemma ConsolidatedHistory(text: string, date: string, straws: seq<string>, worker: string)
    requires text != "" && |straws| >= 1 && PlainField(date) && PlainField(worker)
    requires forall i :: 0 <= i < |straws| ==> PlainField(straws[i])
    ensures History(Rows(Consolidated(text, date, straws, worker))) == History(Rows(text)) +
      [Record(date, "lasr", PassedPairs(straws), [worker]), Record(date, "leng", PassedPairs(straws), [worker])]
  {
    var la := Record(date, "lasr", PassedPairs(straws), [worker]);
    var le := Record(date, "leng", PassedPairs(straws), [worker]);
    ConsolidatedRows(text, date, straws, worker);
    HistoryTwoRows(Rows(text), la, le);
  }
}
