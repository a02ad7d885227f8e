/**
 * The genealogy check of `Check` (checkstraw.py): whether a straw on a
 * pallet passed a production step, read from the pallet ledgers, following
 * "adds" lines that move a straw to another pallet or replace it by another
 * straw. The recursion has no cycle guard; the model threads a `fuel`
 * argument standing for the frames left before Python's recursion limit,
 * and running out is the RecursionError the program would raise.
 */
module CheckStraw {
  import opened Builtins
  import opened Ledger

  /** The pallet ledgers: pallet name (e.g. "CPAL0123") to the csv rows of its file. */
  type Store = map<string, seq<Line>>

  /** What `check` does when no exception escapes: return, or raise StrawFailedError. */
  datatype Verdict = Passed | StrawFailed(message: string)

  // ---------------------------------------------------------------------------
  // strawPass
  // ---------------------------------------------------------------------------

  /**
   * `strawPass(CPAL, straw, step)` with `fuel` frames left. A missing pallet
   * file leaves the flag False.
   */
  function StrawVerdict(store: Store, cpal: string, straw: string, step: string, fuel: nat): (r: Result<bool>)
    ensures fuel == 0 ==> r == Err(RecursionError)
    ensures fuel > 0 && cpal !in store ==> r == Ok(false)
    decreases fuel, 0, 0
  {
    if fuel == 0 then Err(RecursionError)
    else if cpal !in store then Ok(false)
    else ScanHistory(store, cpal, straw, step, fuel - 1, History(store[cpal]), 0, false)
  }

  /** The loop over the history lines from line i on, with the flag at `pass`. */
  function ScanHistory(store: Store, cpal: string, straw: string, step: string, fuel: nat,
                       history: seq<Line>, i: nat, pass: bool): Result<bool>
    decreases fuel, 3, |history| - i
  {
    if i >= |history| then Ok(pass)
    else
      match ProcessLine(store, cpal, straw, step, fuel, history[i], pass)
      case Err(e) => Err(e)
      case Ok(p) => ScanHistory(store, cpal, straw, step, fuel, history, i + 1, p)
  }

  /** One history line: the step test, then (independently) the "adds" test. */
  function ProcessLine(store: Store, cpal: string, straw: string, step: string, fuel: nat,
                       line: Line, pass: bool): Result<bool>
    decreases fuel, 2, 0
  {
    if |line| < 2 then Err(IndexError)
    else
      var afterStep := if line[1] == step then ScanStepLine(line, straw, 0, pass) else Ok(pass);
      if afterStep.Err? then afterStep
      else if line[1] == "adds" then ScanAddsLine(store, cpal, straw, step, fuel, line, 0, afterStep.value)
      else afterStep
  }

  /** On a line of the step: the straw followed by "P" sets the flag. */
  function ScanStepLine(line: Line, straw: string, k: nat, pass: bool): Result<bool>
    decreases |line| - k
  {
    if k >= |line| then Ok(pass)
    else if line[k] != straw then ScanStepLine(line, straw, k + 1, pass)
    else if k + 1 >= |line| then Err(IndexError)
    else ScanStepLine(line, straw, k + 1, pass || line[k + 1] == "P")
  }

  /**
   * On an "adds" line: the straw followed by a pallet name replaces the flag
   * by the straw's verdict on that pallet; followed by a straw name, by that
   * straw's verdict on this pallet.
   */
  function ScanAddsLine(store: Store, cpal: string, straw: string, step: string, fuel: nat,
                        line: Line, k: nat, pass: bool): Result<bool>
    decreases fuel, 1, |line| - k
  {
    if k >= |line| then Ok(pass)
    else if line[k] != straw then ScanAddsLine(store, cpal, straw, step, fuel, line, k + 1, pass)
    else if k + 1 >= |line| then Err(IndexError)
    else
      var next := line[k + 1];
      var p1 := if StartsWith(next, "CPAL") then StrawVerdict(store, next, straw, step, fuel) else Ok(pass);
      if p1.Err? then p1
      else
        var p2 := if StartsWith(next, "ST") then StrawVerdict(store, cpal, next, step, fuel) else p1;
        if p2.Err? then p2
        else ScanAddsLine(store, cpal, straw, step, fuel, line, k + 1, p2.value)
  }

  /** `Check.strawPass`, with its loops. */
  method StrawPass(store: Store, cpal: string, straw: string, step: string, fuel: nat) returns (r: Result<bool>)
    ensures r == StrawVerdict(store, cpal, straw, step, fuel)
    decreases fuel, 0
  {
    if fuel == 0 {
      return Err(RecursionError);
    }
    if cpal !in store {
      return Ok(false);
    }
    var history := ReadHistory(store[cpal]);
    var pass := false;
    var i := 0;
    while i < |history|
      invariant 0 <= i <= |history|
      invariant StrawVerdict(store, cpal, straw, step, fuel)
             == ScanHistory(store, cpal, straw, step, fuel - 1, history, i, pass)
    {
      var line := history[i];
      if |line| < 2 {
        return Err(IndexError);
      }
      var p := pass;
      if line[1] == step {
        var scanned := ScanStep(line, straw, pass);
        if scanned.Err? {
          return scanned;
        }
        p := scanned.value;
      }
      if line[1] == "adds" {
        var scanned := ScanAdds(store, cpal, straw, step, fuel - 1, line, p);
        if scanned.Err? {
          return scanned;
        }
        p := scanned.value;
      }
      pass := p;
      i := i + 1;
    }
    return Ok(pass);
  }

  /** The loop of `strawPass` over a line of the step. */
  method ScanStep(line: Line, straw: string, pass: bool) returns (r: Result<bool>)
    ensures r == ScanStepLine(line, straw, 0, pass)
  {
    var p := pass;
    var index := 0;
    while index < |line|
      invariant 0 <= index <= |line|
      invariant ScanStepLine(line, straw, 0, pass) == ScanStepLine(line, straw, index, p)
    {
      if line[index] == straw {
        if index + 1 >= |line| {
          return Err(IndexError);
        }
        if line[index + 1] == "P" {
          p := true;
        }
      }
      index := index + 1;
    }
    return Ok(p);
  }

  /** The loop of `strawPass` over an "adds" line, recursing into other pallets and straws. */
  method ScanAdds(store: Store, cpal: string, straw: string, step: string, fuel: nat, line: Line, pass: bool)
    returns (r: Result<bool>)
    ensures r == ScanAddsLine(store, cpal, straw, step, fuel, line, 0, pass)
    decreases fuel, 1
  {
    var q := pass;
    var index := 0;
    while index < |line|
      invariant 0 <= index <= |line|
      invariant ScanAddsLine(store, cpal, straw, step, fuel, line, 0, pass)
             == ScanAddsLine(store, cpal, straw, step, fuel, line, index, q)
    {
      if line[index] == straw {
        if index + 1 >= |line| {
          return Err(IndexError);
        }
        if StartsWith(line[index + 1], "CPAL") {
          var sub := StrawPass(store, line[index + 1], straw, step, fuel);
          if sub.Err? {
            return sub;
          }
          q := sub.value;
        }
        if StartsWith(line[index + 1], "ST") {
          var sub := StrawPass(store, cpal, line[index + 1], step, fuel);
          if sub.Err? {
            return sub;
          }
          q := sub.value;
        }
      }
      index := index + 1;
    }
    return Ok(q);
  }

  // ---------------------------------------------------------------------------
  // What strawPass decides
  // ---------------------------------------------------------------------------

  /** Some field from k on is the straw, immediately followed by a "P" field. */
  predicate MarkedFrom(line: Line, straw: string, k: nat) {
    exists j :: k <= j < |line| - 1 && line[j] == straw && line[j + 1] == "P"
  }

  /** A line of the step on which the straw is marked passed. */
  predicate StepMarked(line: Line, straw: string, step: string) {
    |line| >= 2 && line[1] == step && MarkedFrom(line, straw, 0)
  }

  /** A line strawPass can read without an IndexError when no "adds" line is involved. */
  predicate LineFits(line: Line, straw: string, step: string) {
    |line| >= 2 && (line[1] == step ==> line[|line| - 1] != straw)
  }

  predicate NoAdds(history: seq<Line>) {
    forall j :: 0 <= j < |history| ==> |history[j]| < 2 || history[j][1] != "adds"
  }

  /**
   * The step test ORs in whether the straw is marked: a step line can only
   * set the flag, never clear it. A straw in the last field raises.
   */
  lemma {:induction false} StepLineScan(line: Line, straw: string, k: nat, pass: bool)
    requires k <= |line|
    ensures ScanStepLine(line, straw, k, pass) ==
      if k < |line| && line[|line| - 1] == straw then Err(IndexError)
      else Ok(pass || MarkedFrom(line, straw, k))
    decreases |line| - k
  {
    if k < |line| {
      if line[k] != straw {
        StepLineScan(line, straw, k + 1, pass);
        assert MarkedFrom(line, straw, k) == MarkedFrom(line, straw, k + 1);
      } else if k + 1 < |line| {
        StepLineScan(line, straw, k + 1, pass || line[k + 1] == "P");
        assert MarkedFrom(line, straw, k) == (line[k + 1] == "P" || MarkedFrom(line, straw, k + 1));
      }
    }
  }

  lemma {:induction false} NoAddsScan(store: Store, cpal: string, straw: string, step: string, fuel: nat,
                                      history: seq<Line>, i: nat, pass: bool)
    requires i <= |history| && NoAdds(history)
    ensures ScanHistory(store, cpal, straw, step, fuel, history, i, pass) ==
      if forall j :: i <= j < |history| ==> LineFits(history[j], straw, step)
      then Ok(pass || exists j :: i <= j < |history| && StepMarked(history[j], straw, step))
      else Err(IndexError)
    decreases |history| - i
  {
    if i < |history| {
      var line := history[i];
      if |line| >= 2 && line[1] == step {
        StepLineScan(line, straw, 0, pass);
      }
      var next := pass || StepMarked(line, straw, step);
      if LineFits(line, straw, step) {
        NoAddsScan(store, cpal, straw, step, fuel, history, i + 1, next);
        if exists j :: i <= j < |history| && StepMarked(history[j], straw, step) {
          var j :| i <= j < |history| && StepMarked(history[j], straw, step);
          if j > i {
            assert exists j' :: i + 1 <= j' < |history| && StepMarked(history[j'], straw, step);
          }
        }
      }
    }
  }

  /**
   * With no "adds" line in the pallet's history, strawPass is true exactly when
   * some non-empty line of the step has the straw followed by "P"; it raises
   * IndexError when a line has fewer than two fields or a line of the step
   * ends with the straw.
   */
  lemma NoAddsVerdict(store: Store, cpal: string, straw: string, step: string, fuel: nat)
    requires fuel > 0 && cpal in store && NoAdds(History(store[cpal]))
    ensures var h := History(store[cpal]);
      StrawVerdict(store, cpal, straw, step, fuel) ==
      if forall j :: 0 <= j < |h| ==> LineFits(h[j], straw, step)
      then Ok(exists line :: line in h && StepMarked(line, straw, step))
      else Err(IndexError)
  {
    var h := History(store[cpal]);
    NoAddsScan(store, cpal, straw, step, fuel - 1, h, 0, false);
    assert (exists line :: line in h && StepMarked(line, straw, step))
        == (exists j :: 0 <= j < |h| && StepMarked(h[j], straw, step));
  }

  /** Lines appended to a history are scanned after it, with the flag it leaves. */
  lemma {:induction false} ScanHistoryShift(store: Store, cpal: string, straw: string, step: string, fuel: nat,
                                            x: seq<Line>, y: seq<Line>, j: nat, pass: bool)
    requires j <= |y|
    ensures ScanHistory(store, cpal, straw, step, fuel, x + y, |x| + j, pass)
         == ScanHistory(store, cpal, straw, step, fuel, y, j, pass)
    decreases |y| - j
  {
    if j < |y| {
      assert (x + y)[|x| + j] == y[j];
      var r := ProcessLine(store, cpal, straw, step, fuel, y[j], pass);
      if r.Ok? {
        ScanHistoryShift(store, cpal, straw, step, fuel, x, y, j + 1, r.value);
      }
    }
  }

  lemma {:induction false} ScanHistoryAppend(store: Store, cpal: string, straw: string, step: string, fuel: nat,
                                             x: seq<Line>, y: seq<Line>, i: nat, pass: bool)
    requires i <= |x|
    ensures ScanHistory(store, cpal, straw, step, fuel, x + y, i, pass) ==
      match ScanHistory(store, cpal, straw, step, fuel, x, i, pass)
      case Err(e) => Err(e)
      case Ok(p) => ScanHistory(store, cpal, straw, step, fuel, y, 0, p)
    decreases |x| - i
  {
    if i < |x| {
      assert (x + y)[i] == x[i];
      var r := ProcessLine(store, cpal, straw, step, fuel, x[i], pass);
      if r.Ok? {
        ScanHistoryAppend(store, cpal, straw, step, fuel, x, y, i + 1, r.value);
      }
    } else {
      ScanHistoryShift(store, cpal, straw, step, fuel, x, y, 0, pass);
    }
  }

  /**
   * A line of the step that marks the straw sets the flag, unless the straw
   * is also its last field, which raises.
   */
  lemma MarkingLine(store: Store, cpal: string, s: string, step: string, fuel: nat, line: Line, pass: bool)
    requires |line| >= 2 && line[1] == step && step != "adds" && MarkedFrom(line, s, 0)
    ensures ProcessLine(store, cpal, s, step, fuel, line, pass) in {Ok(true), Err(IndexError)}
  {
    StepLineScan(line, s, 0, pass);
  }

  /**
   * A step line at the end of the history that marks the straw decides the
   * verdict: it can no longer be "not passed" (earlier lines, or the straw in
   * its last field, may still raise).
   */
  lemma TrailingMarkPasses(store: Store, cpal: string, h: seq<Line>, line: Line, s: string, step: string, fuel: nat)
    requires cpal in store && History(store[cpal]) == h + [line] && fuel > 0
    requires |line| >= 2 && line[1] == step && step != "adds"
    requires MarkedFrom(line, s, 0)
    ensures StrawVerdict(store, cpal, s, step, fuel) != Ok(false)
  {
    ScanHistoryAppend(store, cpal, s, step, fuel - 1, h, [line], 0, false);
    var pre := ScanHistory(store, cpal, s, step, fuel - 1, h, 0, false);
    if pre.Ok? {
      MarkingLine(store, cpal, s, step, fuel - 1, line, pre.value);
      assert ScanHistory(store, cpal, s, step, fuel - 1, [line], 1, true) == Ok(true);
    }
  }

  /** The same for a laser line followed by a length line, at either of the two steps. */
  lemma TrailingPairPasses(store: Store, cpal: string, h: seq<Line>, la: Line, le: Line, s: string, step: string, fuel: nat)
    requires cpal in store && History(store[cpal]) == h + [la, le] && fuel > 0
    requires |la| >= 2 && |le| >= 2
    requires la[1] == "lasr" && le[1] == "leng" && (step == "lasr" || step == "leng")
    requires MarkedFrom(la, s, 0) && MarkedFrom(le, s, 0)
    ensures StrawVerdict(store, cpal, s, step, fuel) != Ok(false)
  {
    ScanHistoryAppend(store, cpal, s, step, fuel - 1, h, [la, le], 0, false);
    var pre := ScanHistory(store, cpal, s, step, fuel - 1, h, 0, false);
    if pre.Ok? {
      assert "lasr" != "adds" && "leng" != "adds" && "lasr" != "leng";
      var p1 := ProcessLine(store, cpal, s, step, fuel - 1, la, pre.value);
      if step == "lasr" {
        MarkingLine(store, cpal, s, step, fuel - 1, la, pre.value);
        if p1.Ok? {
          assert ProcessLine(store, cpal, s, step, fuel - 1, le, true) == Ok(true);
          assert ScanHistory(store, cpal, s, step, fuel - 1, [la, le], 2, true) == Ok(true);
        }
      } else {
        assert p1 == Ok(pre.value);
        MarkingLine(store, cpal, s, step, fuel - 1, le, pre.value);
        var p2 := ProcessLine(store, cpal, s, step, fuel - 1, le, pre.value);
        if p2.Ok? {
          assert ScanHistory(store, cpal, s, step, fuel - 1, [la, le], 2, true) == Ok(true);
        }
      }
    }
  }

  /** In a station record the straw of slot k is followed by "P"; the last field is the last worker's. */
  lemma StationRecordMarks(date: string, step: string, straws: seq<string>, workers: seq<string>, k: nat)
    requires k < |straws| && straws[k] != ""
    ensures var r := Record(date, step, MarkedPairs(straws), WorkerFields(workers));
      |r| >= 2 && r[1] == step && MarkedFrom(r, straws[k], 0) &&
      r[|r| - 1] == WorkerFields(workers)[|WorkerFields(workers)| - 1]
  {
    var r := Record(date, step, MarkedPairs(straws), WorkerFields(workers));
    assert r[2 + 2 * k] == straws[k] && r[2 + 2 * k + 1] == "P";
  }

  lemma TwoStepLines(store: Store, cpal: string, s: string, step: string, fuel: nat, la: Line, le: Line, pass: bool)
    requires |la| >= 2 && |le| >= 2 && la[|la| - 1] != s && le[|le| - 1] != s
    requires la[1] == "lasr" && le[1] == "leng" && (step == "lasr" || step == "leng")
    requires MarkedFrom(la, s, 0) && MarkedFrom(le, s, 0)
    ensures ScanHistory(store, cpal, s, step, fuel, [la, le], 0, pass) == Ok(true)
  {
    assert "lasr" != "adds" && "leng" != "adds" && "lasr" != "leng";
    StepLineScan(la, s, 0, pass);
    StepLineScan(le, s, 0, pass || step == "lasr");
    var p1 := ProcessLine(store, cpal, s, step, fuel, la, pass);
    assert p1 == Ok(pass || step == "lasr");
    var p2 := ProcessLine(store, cpal, s, step, fuel, le, p1.value);
    assert p2 == Ok(true);
    assert ScanHistory(store, cpal, s, step, fuel, [la, le], 2, true) == Ok(true);
  }

  lemma PalletIsNotStraw(name: string)
    requires StartsWith(name, "CPAL")
    ensures !StartsWith(name, "ST")
  {
    assert name[0] == "CPAL"[0];
  }

  /** An "adds" line from k on that does not hold the straw leaves the flag alone. */
  lemma {:induction false} AddsLineWithoutStraw(store: Store, cpal: string, straw: string, step: string, fuel: nat,
                                                line: Line, k: nat, pass: bool)
    requires k <= |line|
    requires forall j :: k <= j < |line| ==> line[j] != straw
    ensures ScanAddsLine(store, cpal, straw, step, fuel, line, k, pass) == Ok(pass)
    decreases |line| - k
  {
    if k < |line| {
      AddsLineWithoutStraw(store, cpal, straw, step, fuel, line, k + 1, pass);
    }
  }

  lemma {:induction false} AddsLineSkip(store: Store, cpal: string, straw: string, step: string, fuel: nat,
                                        line: Line, k: nat, m: nat, pass: bool)
    requires k <= m <= |line|
    requires forall j :: k <= j < m ==> line[j] != straw
    ensures ScanAddsLine(store, cpal, straw, step, fuel, line, k, pass)
         == ScanAddsLine(store, cpal, straw, step, fuel, line, m, pass)
    decreases m - k
  {
    if k < m {
      AddsLineSkip(store, cpal, straw, step, fuel, line, k + 1, m, pass);
    }
  }

  /**
   * An "adds" match overwrites the flag: when the straw occurs once on the
   * line, followed by a pallet name, the outcome is the straw's verdict on
   * that pallet, whatever the flag was before.
   */
  lemma AddsToPalletOverwrites(store: Store, cpal: string, straw: string, step: string, fuel: nat,
                               line: Line, k: nat, pass: bool)
    requires k + 1 < |line| && line[k] == straw
    requires forall j :: 0 <= j < |line| && j != k ==> line[j] != straw
    requires StartsWith(line[k + 1], "CPAL")
    ensures ScanAddsLine(store, cpal, straw, step, fuel, line, 0, pass)
         == StrawVerdict(store, line[k + 1], straw, step, fuel)
  {
    AddsLineSkip(store, cpal, straw, step, fuel, line, 0, k, pass);
    var v := StrawVerdict(store, line[k + 1], straw, step, fuel);
    PalletIsNotStraw(line[k + 1]);
    if v.Ok? {
      AddsLineWithoutStraw(store, cpal, straw, step, fuel, line, k + 1, v.value);
    }
  }

  /**
   * Likewise for a replacement straw: the outcome is the new straw's verdict
   * on the same pallet, whatever the flag was before.
   */
  lemma AddsToStrawOverwrites(store: Store, cpal: string, straw: string, step: string, fuel: nat,
                              line: Line, k: nat, pass: bool)
    requires k + 1 < |line| && line[k] == straw
    requires forall j :: 0 <= j < |line| && j != k ==> line[j] != straw
    requires StartsWith(line[k + 1], "ST")
    ensures ScanAddsLine(store, cpal, straw, step, fuel, line, 0, pass)
         == StrawVerdict(store, cpal, line[k + 1], step, fuel)
  {
    AddsLineSkip(store, cpal, straw, step, fuel, line, 0, k, pass);
    var v := StrawVerdict(store, cpal, line[k + 1], step, fuel);
    if StartsWith(line[k + 1], "CPAL") {
      PalletIsNotStraw(line[k + 1]);
    }
    if v.Ok? {
      AddsLineWithoutStraw(store, cpal, straw, step, fuel, line, k + 1, v.value);
    }
  }

  /**
   * Because of the overwrite, a later "adds" line that moves the straw to a
   * pallet without a ledger turns an earlier pass into a failure.
   */
  lemma LaterAddsClearsPass(fuel: nat)
    requires fuel >= 2
    ensures var passed: Line := ["2020-01-01_08:00", "prep", "ST00001", "P", "alice"];
            var moved: Line := ["2020-01-02_08:00", "adds", "ST00001", "CPAL0002", "alice"];
            StrawVerdict(map["CPAL0001" := [passed]], "CPAL0001", "ST00001", "prep", fuel) == Ok(true) &&
            StrawVerdict(map["CPAL0001" := [passed, moved]], "CPAL0001", "ST00001", "prep", fuel) == Ok(false)
  {
    var passed: Line := ["2020-01-01_08:00", "prep", "ST00001", "P", "alice"];
    var moved: Line := ["2020-01-02_08:00", "adds", "ST00001", "CPAL0002", "alice"];
    var s1 := map["CPAL0001" := [passed]];
    var s2 := map["CPAL0001" := [passed, moved]];
    var f := fuel - 1;
    assert History([passed]) == [passed];
    assert History([passed, moved]) == [passed, moved] by {
      assert [passed, moved][..1] == [passed];
    }
    StepLineScan(passed, "ST00001", 0, false);
    assert MarkedFrom(passed, "ST00001", 0) by {
      assert passed[2] == "ST00001" && passed[3] == "P";
    }
    assert passed[1] != "adds" by { assert passed[1][0] != "adds"[0]; }
    assert ProcessLine(s1, "CPAL0001", "ST00001", "prep", f, passed, false) == Ok(true);
    assert ProcessLine(s2, "CPAL0001", "ST00001", "prep", f, passed, false) == Ok(true);
    assert ScanHistory(s1, "CPAL0001", "ST00001", "prep", f, [passed], 1, true) == Ok(true);
    assert "CPAL0002" !in s2;
    assert moved[3][..4] == "CPAL";
    AddsToPalletOverwrites(s2, "CPAL0001", "ST00001", "prep", f, moved, 2, true);
    assert moved[1] != "prep" by { assert moved[1][0] != "prep"[0]; }
    assert ProcessLine(s2, "CPAL0001", "ST00001", "prep", f, moved, true) == Ok(false);
    assert ScanHistory(s2, "CPAL0001", "ST00001", "prep", f, [passed, moved], 2, false) == Ok(false);
    assert ScanHistory(s2, "CPAL0001", "ST00001", "prep", f, [passed, moved], 1, true) == Ok(false);
  }

  /**
   * There is no cycle guard: a straw replaced by itself recurses until the
   * recursion limit, for any limit.
   */
  lemma {:induction false} SelfReplacementExhaustsStack(cpal: string, step: string, fuel: nat)
    requires step != "adds"
    ensures var loop: Line := ["2020-01-01_08:00", "adds", "ST00001", "ST00001", "alice"];
            StrawVerdict(map[cpal := [loop]], cpal, "ST00001", step, fuel) == Err(RecursionError)
  {
    var loop: Line := ["2020-01-01_08:00", "adds", "ST00001", "ST00001", "alice"];
    var store := map[cpal := [loop]];
    if fuel > 0 {
      var f := fuel - 1;
      SelfReplacementExhaustsStack(cpal, step, f);
      assert History([loop]) == [loop];
      assert loop[0] != "ST00001" && loop[1] != "ST00001";
      AddsLineSkip(store, cpal, "ST00001", step, f, loop, 0, 2, false);
      assert loop[3][..2] == "ST";
      assert loop[3][0] != "CPAL"[0];
      assert ScanAddsLine(store, cpal, "ST00001", step, f, loop, 2, false) == Err(RecursionError);
      assert ProcessLine(store, cpal, "ST00001", step, f, loop, false) == Err(RecursionError);
    }
  }

  // ---------------------------------------------------------------------------
  // Aggregation: palletPass, strawPassAll, palletPassAll
  // ---------------------------------------------------------------------------

  /** Evaluating calls in order: the first exception escapes, else all the values. */
  function Gather(rs: seq<Result<bool>>): (r: Result<seq<bool>>)
    ensures r.Ok? <==> forall i :: 0 <= i < |rs| ==> rs[i].Ok?
    ensures r.Ok? ==> |r.value| == |rs| && forall i :: 0 <= i < |rs| ==> r.value[i] == rs[i].value
  {
    if rs == [] then Ok([])
    else
      match Gather(rs[..|rs| - 1])
      case Err(e) => Err(e)
      case Ok(bs) =>
        match rs[|rs| - 1]
        case Err(e) => Err(e)
        case Ok(b) => Ok(bs + [b])
  }

  /** The exception that escapes is the one of the first call that raised. */
  lemma {:induction false} GatherFirstError(rs: seq<Result<bool>>)
    requires Gather(rs).Err?
    ensures exists i :: 0 <= i < |rs| && rs[i] == Err(Gather(rs).error) && forall j :: 0 <= j < i ==> rs[j].Ok?
  {
    var init := rs[..|rs| - 1];
    if Gather(init).Err? {
      GatherFirstError(init);
      var i :| 0 <= i < |init| && init[i] == Err(Gather(init).error) && forall j :: 0 <= j < i ==> init[j].Ok?;
      assert rs[i] == init[i];
      assert forall j :: 0 <= j < i ==> rs[j] == init[j];
    } else {
      var i := |rs| - 1;
      assert forall j :: 0 <= j < i ==> rs[j] == init[j];
    }
  }

  lemma {:induction false} GatherAfterError(rs: seq<Result<bool>>, i: nat, n: nat)
    requires i < n <= |rs| && Gather(rs[..i]).Ok? && rs[i].Err?
    ensures Gather(rs[..n]) == Err(rs[i].error)
    decreases n
  {
    if n == i + 1 {
      assert rs[..n][..i] == rs[..i];
    } else {
      GatherAfterError(rs, i, n - 1);
      assert rs[..n][..n - 1] == rs[..n - 1];
    }
  }

  /** `if results == []: return False` then `return all(results)`. */
  function AllResults(rs: seq<Result<bool>>): (r: Result<bool>)
    ensures r.Ok? <==> forall i :: 0 <= i < |rs| ==> rs[i].Ok?
    ensures r.Ok? ==> (r.value <==> |rs| > 0 && forall i :: 0 <= i < |rs| ==> rs[i].value)
  {
    match Gather(rs)
    case Err(e) => Err(e)
    case Ok(bs) => Ok(|bs| > 0 && forall i :: 0 <= i < |bs| ==> bs[i])
  }

  /** The fields of a line that begin with "ST", in order. */
  function StrawFields(line: Line): (straws: seq<string>)
    ensures forall s :: s in straws <==> s in line && StartsWith(s, "ST")
  {
    if line == [] then []
    else
      var last := line[|line| - 1];
      StrawFields(line[..|line| - 1]) + (if StartsWith(last, "ST") then [last] else [])
  }

  /** The straws of a pallet: the "ST" fields of the last line of its history. */
  function PalletStraws(store: Store, cpal: string): Result<seq<string>> {
    if cpal !in store then Ok([])
    else
      var h := History(store[cpal]);
      if h == [] then Err(IndexError) else Ok(StrawFields(h[|h| - 1]))
  }

  function StrawResults(store: Store, cpal: string, straws: seq<string>, step: string, fuel: nat): (rs: seq<Result<bool>>)
    ensures |rs| == |straws|
    ensures forall i :: 0 <= i < |straws| ==> rs[i] == StrawVerdict(store, cpal, straws[i], step, fuel)
  {
    seq(|straws|, i requires 0 <= i < |straws| => StrawVerdict(store, cpal, straws[i], step, fuel))
  }

  /** `palletPass(CPAL, step)` */
  function PalletVerdict(store: Store, cpal: string, step: string, fuel: nat): Result<bool> {
    match PalletStraws(store, cpal)
    case Err(e) => Err(e)
    case Ok(straws) => AllResults(StrawResults(store, cpal, straws, step, fuel))
  }

  /** The steps `strawPassAll` and `palletPassAll` require, in order. */
  const AllSteps: seq<string> := ["prep", "ohms", "C-O2", "leak", "lasr", "leng", "silv"]

  function StepResultsOfStraw(store: Store, cpal: string, straw: string, steps: seq<string>, fuel: nat): (rs: seq<Result<bool>>)
    ensures |rs| == |steps|
    ensures forall i :: 0 <= i < |steps| ==> rs[i] == StrawVerdict(store, cpal, straw, steps[i], fuel)
  {
    seq(|steps|, i requires 0 <= i < |steps| => StrawVerdict(store, cpal, straw, steps[i], fuel))
  }

  function StepResultsOfPallet(store: Store, cpal: string, steps: seq<string>, fuel: nat): (rs: seq<Result<bool>>)
    ensures |rs| == |steps|
    ensures forall i :: 0 <= i < |steps| ==> rs[i] == PalletVerdict(store, cpal, steps[i], fuel)
  {
    seq(|steps|, i requires 0 <= i < |steps| => PalletVerdict(store, cpal, steps[i], fuel))
  }

  /** `strawPassAll(CPAL, straw)` */
  function StrawPassAllVerdict(store: Store, cpal: string, straw: string, fuel: nat): Result<bool> {
    AllResults(StepResultsOfStraw(store, cpal, straw, AllSteps, fuel))
  }

  /** `palletPassAll(CPAL)` */
  function PalletPassAllVerdict(store: Store, cpal: string, fuel: nat): Result<bool> {
    AllResults(StepResultsOfPallet(store, cpal, AllSteps, fuel))
  }

  /**
   * palletPass is False when the pallet has no ledger or its last line names no
   * straw, raises IndexError on a ledger with no non-empty line, and otherwise
   * holds exactly when every straw of the last line passes the step.
   */
  lemma PalletVerdictMeaning(store: Store, cpal: string, step: string, fuel: nat)
    ensures cpal !in store ==> PalletVerdict(store, cpal, step, fuel) == Ok(false)
    ensures cpal in store && History(store[cpal]) == [] ==> PalletVerdict(store, cpal, step, fuel) == Err(IndexError)
    ensures cpal in store && History(store[cpal]) != [] ==>
      var h := History(store[cpal]);
      var straws := StrawFields(h[|h| - 1]);
      (straws == [] ==> PalletVerdict(store, cpal, step, fuel) == Ok(false)) &&
      (PalletVerdict(store, cpal, step, fuel) == Ok(true) <==>
         straws != [] && forall s :: s in straws ==> StrawVerdict(store, cpal, s, step, fuel) == Ok(true))
  {
    if cpal !in store {
      assert PalletStraws(store, cpal) == Ok([]);
      StrawResultsAllPass(store, cpal, [], step, fuel);
    } else if History(store[cpal]) == [] {
      assert PalletStraws(store, cpal) == Err(IndexError);
    } else {
      var h := History(store[cpal]);
      var straws := StrawFields(h[|h| - 1]);
      assert PalletStraws(store, cpal) == Ok(straws);
      assert PalletVerdict(store, cpal, step, fuel) == AllResults(StrawResults(store, cpal, straws, step, fuel));
      StrawResultsAllPass(store, cpal, straws, step, fuel);
    }
  }

  /** Over a list of straws, all() is True exactly when the list is non-empty and each straw passes. */
  lemma StrawResultsAllPass(store: Store, cpal: string, straws: seq<string>, step: string, fuel: nat)
    ensures straws == [] ==> AllResults(StrawResults(store, cpal, straws, step, fuel)) == Ok(false)
    ensures AllResults(StrawResults(store, cpal, straws, step, fuel)) == Ok(true) <==>
      straws != [] && forall s :: s in straws ==> StrawVerdict(store, cpal, s, step, fuel) == Ok(true)
  {
    var rs := StrawResults(store, cpal, straws, step, fuel);
    if forall s :: s in straws ==> StrawVerdict(store, cpal, s, step, fuel) == Ok(true) {
      forall i | 0 <= i < |rs|
        ensures rs[i] == Ok(true)
      {
        assert straws[i] in straws;
      }
    }
    if AllResults(rs) == Ok(true) {
      forall s | s in straws
        ensures StrawVerdict(store, cpal, s, step, fuel) == Ok(true)
      {
        var i :| 0 <= i < |straws| && straws[i] == s;
        assert rs[i].Ok?;
      }
    }
  }

  /** strawPassAll holds exactly when the straw passes each of the seven steps. */
  lemma StrawPassAllMeaning(store: Store, cpal: string, straw: string, fuel: nat)
    ensures StrawPassAllVerdict(store, cpal, straw, fuel) == Ok(true) <==>
      forall step :: step in AllSteps ==> StrawVerdict(store, cpal, straw, step, fuel) == Ok(true)
  {
    var rs := StepResultsOfStraw(store, cpal, straw, AllSteps, fuel);
    if forall step :: step in AllSteps ==> StrawVerdict(store, cpal, straw, step, fuel) == Ok(true) {
      forall i | 0 <= i < |rs|
        ensures rs[i] == Ok(true)
      {
        assert AllSteps[i] in AllSteps;
      }
    }
    if StrawPassAllVerdict(store, cpal, straw, fuel) == Ok(true) {
      forall step | step in AllSteps
        ensures StrawVerdict(store, cpal, straw, step, fuel) == Ok(true)
      {
        var i :| 0 <= i < |AllSteps| && AllSteps[i] == step;
        assert rs[i].Ok?;
      }
    }
  }

  /** palletPassAll holds exactly when the pallet passes each of the seven steps. */
  lemma PalletPassAllMeaning(store: Store, cpal: string, fuel: nat)
    ensures PalletPassAllVerdict(store, cpal, fuel) == Ok(true) <==>
      forall step :: step in AllSteps ==> PalletVerdict(store, cpal, step, fuel) == Ok(true)
  {
    var rs := StepResultsOfPallet(store, cpal, AllSteps, fuel);
    if forall step :: step in AllSteps ==> PalletVerdict(store, cpal, step, fuel) == Ok(true) {
      forall i | 0 <= i < |rs|
        ensures rs[i] == Ok(true)
      {
        assert AllSteps[i] in AllSteps;
      }
    }
    if PalletPassAllVerdict(store, cpal, fuel) == Ok(true) {
      forall step | step in AllSteps
        ensures PalletVerdict(store, cpal, step, fuel) == Ok(true)
      {
        var i :| 0 <= i < |AllSteps| && AllSteps[i] == step;
        assert rs[i].Ok?;
      }
    }
  }

  /** Builds `results` by calling in order; the first exception escapes. */
  method CollectStrawResults(store: Store, cpal: string, straws: seq<string>, step: string, fuel: nat)
    returns (r: Result<seq<bool>>)
    ensures r == Gather(StrawResults(store, cpal, straws, step, fuel))
  {
    ghost var rs := StrawResults(store, cpal, straws, step, fuel);
    var results: seq<bool> := [];
    var i := 0;
    while i < |straws|
      invariant 0 <= i <= |straws|
      invariant Gather(rs[..i]) == Ok(results)
    {
      var v := StrawPass(store, cpal, straws[i], step, fuel);
      if v.Err? {
        GatherAfterError(rs, i, |rs|);
        assert rs[..|rs|] == rs;
        return Err(v.error);
      }
      assert rs[..i + 1][..i] == rs[..i];
      results := results + [v.value];
      i := i + 1;
    }
    assert rs[..i] == rs;
    return Ok(results);
  }

  /** The loop of `palletPass` that keeps the fields of the last line beginning with "ST". */
  method ReadStrawFields(last: Line) returns (straws: seq<string>)
    ensures straws == StrawFields(last)
  {
    straws := [];
    var j := 0;
    while j < |last|
      invariant 0 <= j <= |last|
      invariant straws == StrawFields(last[..j])
    {
      assert last[..j + 1][..j] == last[..j];
      if StartsWith(last[j], "ST") {
        straws := straws + [last[j]];
      }
      j := j + 1;
    }
    assert last[..j] == last;
  }

  /** `Check.palletPass` */
  method PalletPass(store: Store, cpal: string, step: string, fuel: nat) returns (r: Result<bool>)
    ensures r == PalletVerdict(store, cpal, step, fuel)
  {
    var straws: seq<string> := [];
    if cpal in store {
      var history := ReadHistory(store[cpal]);
      if |history| == 0 {
        return Err(IndexError);
      }
      straws := ReadStrawFields(history[|history| - 1]);
    }
    var results := CollectStrawResults(store, cpal, straws, step, fuel);
    if results.Err? {
      return Err(results.error);
    }
    if results.value == [] {
      return Ok(false);
    }
    return Ok(forall i :: 0 <= i < |results.value| ==> results.value[i]);
  }

  /** `Check.strawPassAll` */
  method StrawPassAll(store: Store, cpal: string, straw: string, fuel: nat) returns (r: Result<bool>)
    ensures r == StrawPassAllVerdict(store, cpal, straw, fuel)
  {
    ghost var rs := StepResultsOfStraw(store, cpal, straw, AllSteps, fuel);
    var steps := AllSteps;
    var results: seq<bool> := [];
    var i := 0;
    while i < |steps|
      invariant 0 <= i <= |steps|
      invariant Gather(rs[..i]) == Ok(results)
    {
      var v := StrawPass(store, cpal, straw, steps[i], fuel);
      if v.Err? {
        GatherAfterError(rs, i, |rs|);
        assert rs[..|rs|] == rs;
        return Err(v.error);
      }
      assert rs[..i + 1][..i] == rs[..i];
      results := results + [v.value];
      i := i + 1;
    }
    assert rs[..i] == rs;
    if results == [] {
      return Ok(false);
    }
    return Ok(forall k :: 0 <= k < |results| ==> results[k]);
  }

  /** Builds the results of palletPass over the given steps, in order. */
  method CollectPalletResults(store: Store, cpal: string, steps: seq<string>, fuel: nat)
    returns (r: Result<seq<bool>>)
    ensures r == Gather(StepResultsOfPallet(store, cpal, steps, fuel))
  {
    ghost var rs := StepResultsOfPallet(store, cpal, steps, fuel);
    var results: seq<bool> := [];
    var i := 0;
    while i < |steps|
      invariant 0 <= i <= |steps|
      invariant Gather(rs[..i]) == Ok(results)
    {
      var v := PalletPass(store, cpal, steps[i], fuel);
      if v.Err? {
        GatherAfterError(rs, i, |rs|);
        assert rs[..|rs|] == rs;
        return Err(v.error);
      }
      assert rs[..i + 1][..i] == rs[..i];
      results := results + [v.value];
      i := i + 1;
    }
    assert rs[..i] == rs;
    return Ok(results);
  }

  /** `Check.palletPassAll` */
  method PalletPassAll(store: Store, cpal: string, fuel: nat) returns (r: Result<bool>)
    ensures r == PalletPassAllVerdict(store, cpal, fuel)
  {
    var results := CollectPalletResults(store, cpal, AllSteps, fuel);
    if results.Err? {
      return Err(results.error);
    }
    if results.value == [] {
      return Ok(false);
    }
    return Ok(forall k :: 0 <= k < |results.value| ==> results.value[k]);
  }

  // ---------------------------------------------------------------------------
  // check
  // ---------------------------------------------------------------------------

  const StepCodes: seq<string> := ["made", "prep", "ohms", "C-O2", "infl", "leak", "lasr", "leng", "silv"]
  const StepNames: seq<string> := ["Straw Made", "Straw Prep", "Resistance Test", "CO2 End Piece Epoxy",
                                   "Inflation", "Leak Test", "Laser Cut", "Length Measurement", "Silver Epoxy"]

  /** `steps_dict`: step code to display name. */
  function StepsDict(): map<string, string> {
    map["made" := "Straw Made", "prep" := "Straw Prep", "ohms" := "Resistance Test",
        "C-O2" := "CO2 End Piece Epoxy", "infl" := "Inflation", "leak" := "Leak Test",
        "lasr" := "Laser Cut", "leng" := "Length Measurement", "silv" := "Silver Epoxy"]
  }

  /** The dict has exactly the nine codes, each mapped to the name at its position. */
  lemma StepsDictEntries()
    ensures forall k :: k in StepsDict() <==> k in StepCodes
    ensures forall i :: 0 <= i < |StepCodes| ==> StepsDict()[StepCodes[i]] == StepNames[i]
  {
  }

  lemma DistinctStepCodes()
    ensures forall i, j :: 0 <= i < j < |StepCodes| ==> StepCodes[i] != StepCodes[j]
  {
  }

  lemma SameMap(a: map<string, string>, b: map<string, string>, keys: seq<string>, values: seq<string>)
    requires |keys| == |values|
    requires forall k :: k in a <==> k in keys
    requires forall k :: k in b <==> k in keys
    requires forall j :: 0 <= j < |keys| ==> a[keys[j]] == values[j] && b[keys[j]] == values[j]
    ensures a == b
  {
    forall k | k in a
      ensures a[k] == b[k]
    {
      var j :| 0 <= j < |keys| && keys[j] == k;
    }
  }

  /** The loop that fills `steps_dict` from the two parallel lists. */
  method BuildStepsDict() returns (d: map<string, string>)
    ensures d == StepsDict()
  {
    DistinctStepCodes();
    d := map[];
    var index := 0;
    while index < |StepCodes|
      invariant 0 <= index <= |StepCodes|
      invariant forall k :: k in d <==> k in StepCodes[..index]
      invariant forall j :: 0 <= j < index ==> d[StepCodes[j]] == StepNames[j]
    {
      assert StepCodes[..index + 1] == StepCodes[..index] + [StepCodes[index]];
      d := d[StepCodes[index] := StepNames[index]];
      index := index + 1;
    }
    assert StepCodes[..index] == StepCodes;
    StepsDictEntries();
    SameMap(d, StepsDict(), StepCodes, StepNames);
  }

  /** The requested steps whose result is False, in request order. */
  function FailedSteps(steps: seq<string>, results: seq<bool>): (failed: seq<string>)
    requires |steps| == |results|
    ensures |failed| <= |steps|
    ensures forall s :: s in failed ==> exists i :: 0 <= i < |steps| && steps[i] == s && !results[i]
    ensures |failed| == 0 <==> forall i :: 0 <= i < |results| ==> results[i]
  {
    if steps == [] then []
    else
      var n := |steps| - 1;
      var earlier := FailedSteps(steps[..n], results[..n]);
      assert forall s :: s in earlier ==> exists i :: 0 <= i < n && steps[i] == s && !results[i] by {
        forall s | s in earlier
          ensures exists i :: 0 <= i < n && steps[i] == s && !results[i]
        {
          var i :| 0 <= i < n && steps[..n][i] == s && !results[..n][i];
          assert steps[i] == s && !results[i];
        }
      }
      earlier + (if results[n] then [] else [steps[n]])
  }

  /**
   * The failed list keeps request order: the failures of a concatenation are
   * the failures of the first part followed by those of the second.
   */
  lemma {:induction false} FailedStepsAppend(s1: seq<string>, r1: seq<bool>, s2: seq<string>, r2: seq<bool>)
    requires |s1| == |r1| && |s2| == |r2|
    ensures FailedSteps(s1 + s2, r1 + r2) == FailedSteps(s1, r1) + FailedSteps(s2, r2)
  {
    if s2 != [] {
      var n := |s2| - 1;
      FailedStepsAppend(s1, r1, s2[..n], r2[..n]);
      assert (s1 + s2)[..|s1| + n] == s1 + s2[..n];
      assert (r1 + r2)[..|r1| + n] == r1 + r2[..n];
    } else {
      assert s1 + s2 == s1 && r1 + r2 == r1;
    }
  }

  /** `list(map(lambda x: steps_dict[x], failed))`: KeyError on a code the dict lacks. */
  function DisplayNames(codes: seq<string>, dict: map<string, string>): (r: Result<seq<string>>)
    ensures r.Ok? <==> forall c :: c in codes ==> c in dict
    ensures r.Ok? ==> |r.value| == |codes| && forall i :: 0 <= i < |codes| ==> r.value[i] == dict[codes[i]]
    ensures r.Err? ==> r.error == KeyError
  {
    if codes == [] then Ok([])
    else if codes[0] !in dict then Err(KeyError)
    else
      match DisplayNames(codes[1..], dict)
      case Err(e) => Err(e)
      case Ok(rest) => Ok([dict[codes[0]]] + rest)
  }

  /** `Check.check(CPAL, steps)` */
  function CheckVerdict(store: Store, cpal: string, steps: seq<string>, fuel: nat): Result<Verdict> {
    match Gather(StepResultsOfPallet(store, cpal, steps, fuel))
    case Err(e) => Err(e)
    case Ok(results) =>
      if forall i :: 0 <= i < |results| ==> results[i] then Ok(Passed)
      else
        match DisplayNames(FailedSteps(steps, results), StepsDict())
        case Err(e) => Err(e)
        case Ok(names) => Ok(StrawFailed(cpal + " failed step(s): " + Join(names, ", ")))
  }

  /** The loop collecting the requested steps whose result is False. */
  method CollectFailed(steps: seq<string>, results: seq<bool>) returns (failed: seq<string>)
    requires |steps| == |results|
    ensures failed == FailedSteps(steps, results)
  {
    failed := [];
    var i := 0;
    while i < |steps|
      invariant 0 <= i <= |steps|
      invariant failed == FailedSteps(steps[..i], results[..i])
    {
      assert steps[..i + 1][..i] == steps[..i];
      assert results[..i + 1][..i] == results[..i];
      if !results[i] {
        failed := failed + [steps[i]];
      }
      i := i + 1;
    }
    assert steps[..i] == steps && results[..i] == results;
  }

  /** `Check.check`, with its loops. */
  method Check(store: Store, cpal: string, steps: seq<string>, fuel: nat) returns (r: Result<Verdict>)
    ensures r == CheckVerdict(store, cpal, steps, fuel)
  {
    var gathered := CollectPalletResults(store, cpal, steps, fuel);
    if gathered.Err? {
      return Err(gathered.error);
    }
    var results := gathered.value;
    var stepsDict := BuildStepsDict();
    if forall i :: 0 <= i < |results| ==> results[i] {
      return Ok(Passed);
    }
    var failed := CollectFailed(steps, results);
    var names := DisplayNames(failed, stepsDict);
    if names.Err? {
      return Err(names.error);
    }
    return Ok(StrawFailed(cpal + " failed step(s): " + Join(names.value, ", ")));
  }

  /**
   * check returns normally exactly when palletPass holds for every requested
   * step; an empty list of steps always returns normally.
   */
  lemma CheckPassesIffAllSteps(store: Store, cpal: string, steps: seq<string>, fuel: nat)
    ensures CheckVerdict(store, cpal, steps, fuel) == Ok(Passed) <==>
      forall i :: 0 <= i < |steps| ==> PalletVerdict(store, cpal, steps[i], fuel) == Ok(true)
    ensures CheckVerdict(store, cpal, [], fuel) == Ok(Passed)
  {
    var rs := StepResultsOfPallet(store, cpal, steps, fuel);
    var g := Gather(rs);
    if g.Ok? && !(forall i :: 0 <= i < |g.value| ==> g.value[i]) {
      var failed := FailedSteps(steps, g.value);
      assert |failed| != 0;
    }
    assert StepResultsOfPallet(store, cpal, [], fuel) == [];
  }

  /** Failing steps outside the nine known codes make check raise KeyError instead. */
  lemma CheckUnknownStep(store: Store, cpal: string, steps: seq<string>, fuel: nat, i: nat)
    requires i < |steps| && steps[i] !in StepCodes
    requires forall j :: 0 <= j < |steps| ==> PalletVerdict(store, cpal, steps[j], fuel).Ok?
    requires PalletVerdict(store, cpal, steps[i], fuel) == Ok(false)
    ensures CheckVerdict(store, cpal, steps, fuel) == Err(KeyError)
  {
    var rs := StepResultsOfPallet(store, cpal, steps, fuel);
    var results := Gather(rs).value;
    assert !results[i];
    FailedStepsMember(steps, results, i);
  }

  lemma {:induction false} FailedStepsMember(steps: seq<string>, results: seq<bool>, i: nat)
    requires |steps| == |results| && i < |steps| && !results[i]
    ensures steps[i] in FailedSteps(steps, results)
  {
    var n := |steps| - 1;
    if i < n {
      FailedStepsMember(steps[..n], results[..n], i);
    }
  }

  /**
   * The message lists the display names of the failing steps in request
   * order: a pallet whose prep passes and whose resistance test fails is
   * reported as "<CPAL> failed step(s): Resistance Test".
   */
  lemma CheckMessageForOhms(store: Store, cpal: string, fuel: nat)
    requires PalletVerdict(store, cpal, "prep", fuel) == Ok(true)
    requires PalletVerdict(store, cpal, "ohms", fuel) == Ok(false)
    ensures CheckVerdict(store, cpal, ["prep", "ohms"], fuel) == Ok(StrawFailed(cpal + " failed step(s): " + "Resistance Test"))
  {
    var steps := ["prep", "ohms"];
    var rs := StepResultsOfPallet(store, cpal, steps, fuel);
    assert rs[0] == Ok(true) && rs[1] == Ok(false);
    var results := Gather(rs).value;
    assert results[0] && !results[1];
    assert results == [true, false];
    OhmsFailure();
    assert !(forall i :: 0 <= i < |results| ==> results[i]);
    assert DisplayNames(FailedSteps(steps, results), StepsDict()) == Ok(["Resistance Test"]);
  }

  /** The pallet verdicts of the requested steps, when every one of them returns. */
  function StepValues(store: Store, cpal: string, steps: seq<string>, fuel: nat): (results: seq<bool>)
    requires forall i :: 0 <= i < |steps| ==> PalletVerdict(store, cpal, steps[i], fuel).Ok?
    ensures |results| == |steps|
    ensures forall i :: 0 <= i < |steps| ==> PalletVerdict(store, cpal, steps[i], fuel) == Ok(results[i])
  {
    seq(|steps|, i requires 0 <= i < |steps| => PalletVerdict(store, cpal, steps[i], fuel).value)
  }

  lemma GatheredValues(store: Store, cpal: string, steps: seq<string>, fuel: nat)
    requires forall i :: 0 <= i < |steps| ==> PalletVerdict(store, cpal, steps[i], fuel).Ok?
    ensures Gather(StepResultsOfPallet(store, cpal, steps, fuel)) == Ok(StepValues(store, cpal, steps, fuel))
  {
    var rs := StepResultsOfPallet(store, cpal, steps, fuel);
    var results := StepValues(store, cpal, steps, fuel);
    assert forall k :: 0 <= k < |rs| ==> rs[k] == Ok(results[k]);
    assert Gather(rs).value == results by {
      assert |Gather(rs).value| == |results|;
      forall k | 0 <= k < |results|
        ensures Gather(rs).value[k] == results[k]
      {
        assert rs[k] == Ok(results[k]);
      }
    }
  }

  lemma CheckVerdictOfValues(store: Store, cpal: string, steps: seq<string>, fuel: nat, results: seq<bool>, i: nat)
    requires |results| == |steps| && Gather(StepResultsOfPallet(store, cpal, steps, fuel)) == Ok(results)
    requires i < |results| && !results[i]
    requires DisplayNames(FailedSteps(steps, results), StepsDict()).Ok?
    ensures CheckVerdict(store, cpal, steps, fuel) ==
      Ok(StrawFailed(cpal + " failed step(s): " + Join(DisplayNames(FailedSteps(steps, results), StepsDict()).value, ", ")))
  {
  }

  lemma KnownFailuresNamed(steps: seq<string>, results: seq<bool>)
    requires |steps| == |results|
    requires forall i :: 0 <= i < |steps| ==> steps[i] in StepCodes
    ensures DisplayNames(FailedSteps(steps, results), StepsDict()).Ok?
  {
    StepsDictEntries();
    var failed := FailedSteps(steps, results);
    forall c | c in failed
      ensures c in StepsDict()
    {
      var i :| 0 <= i < |steps| && steps[i] == c && !results[i];
    }
  }

  /**
   * For any list of known step codes whose pallet verdicts all return and one
   * of which is False, check raises StrawFailedError whose message lists the
   * display names of exactly the failing steps, in request order.
   */
  lemma CheckFailureMessage(store: Store, cpal: string, steps: seq<string>, fuel: nat)
    requires forall i :: 0 <= i < |steps| ==> steps[i] in StepCodes
    requires forall i :: 0 <= i < |steps| ==> PalletVerdict(store, cpal, steps[i], fuel).Ok?
    requires exists i :: 0 <= i < |steps| && PalletVerdict(store, cpal, steps[i], fuel) == Ok(false)
    ensures var failed := FailedSteps(steps, StepValues(store, cpal, steps, fuel));
      exists names: seq<string> ::
        && |names| == |failed|
        && (forall j :: 0 <= j < |failed| ==> failed[j] in StepsDict() && names[j] == StepsDict()[failed[j]])
        && CheckVerdict(store, cpal, steps, fuel) == Ok(StrawFailed(cpal + " failed step(s): " + Join(names, ", ")))
  {
    var results := StepValues(store, cpal, steps, fuel);
    GatheredValues(store, cpal, steps, fuel);
    var i :| 0 <= i < |steps| && PalletVerdict(store, cpal, steps[i], fuel) == Ok(false);
    assert !results[i];
    KnownFailuresNamed(steps, results);
    CheckVerdictOfValues(store, cpal, steps, fuel, results, i);
    var failed := FailedSteps(steps, results);
    var names := DisplayNames(failed, StepsDict()).value;
    assert forall j :: 0 <= j < |failed| ==> failed[j] in StepsDict() && names[j] == StepsDict()[failed[j]];
  }

  lemma OhmsFailure()
    ensures FailedSteps(["prep", "ohms"], [true, false]) == ["ohms"]
    ensures DisplayNames(["ohms"], StepsDict()) == Ok(["Resistance Test"])
    ensures Join(["Resistance Test"], ", ") == "Resistance Test"
  {
    assert ["prep", "ohms"][..1] == ["prep"] && [true, false][..1] == [true];
    assert FailedSteps(["prep"], [true]) == [] by {
      assert ["prep"][..0] == [] && [true][..0] == [];
    }
    StepsDictEntries();
    assert StepCodes[2] == "ohms";
    DisplayNameOfOne("ohms", StepsDict());
  }

  lemma DisplayNameOfOne(code: string, dict: map<string, string>)
    requires code in dict
    ensures DisplayNames([code], dict) == Ok([dict[code]])
  {
    assert [code][1..] == [];
    assert DisplayNames([], dict) == Ok([]);
    assert [dict[code]] + [] == [dict[code]];
  }
}
