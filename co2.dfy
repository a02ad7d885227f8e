/**
 * The CO2 end-piece insertion station. The operator enters a pallet number,
 * an epoxy batch and a DP190 batch; when all are well formed and the pallet
 * passed preparation and resistance, a stopwatch starts. Finishing appends
 * one "C-O2" line to the pallet file and clears the entries.
 */
module CO2 {
  import opened Builtins
  import opened Ledger
  import CheckStraw

  /** The station's step name in the pallet files. */
  const StationID := "C-O2"

  // ---------------------------------------------------------------------------
  // Batch numbers
  // ---------------------------------------------------------------------------

  /**
   * `verifyEpoxyBatch` as written: `CO2.` + date + `.` + two digits, 13
   * characters. The date is checked only when characters 4..8 are digits,
   * and the year is parsed from characters 8..9, so a non-digit at 9 raises
   * ValueError. `year` is the current calendar year.
   */
  function VerifyEpoxyBatch(batch: string, year: int): (r: Result<bool>)
    ensures r.Err? ==> r.error == ValueError
  {
    EpoxyBatchAsWritten(Upper(Strip(batch)), year)
  }

  /** The checks of `verifyEpoxyBatch` on the upper-cased, stripped entry. */
  function EpoxyBatchAsWritten(eb: string, year: int): (r: Result<bool>)
    ensures r.Err? ==> r.error == ValueError
  {
    if |eb| != 13 then Ok(false)
    else if !StartsWith(eb, "CO2.") then Ok(false)
    else
      var date: Result<bool> :=
        if !IsNumeric(eb[4..9]) then Ok(true)
        else
          match (ParseInt(eb[4..6]), ParseInt(eb[6..8]), ParseInt(eb[8..10]))
          case (Some(month), Some(day), Some(yy)) =>
            Ok(0 <= month < 13 && 1 <= day < 32 && 17 <= yy < year - 2000 + 1)
          case (Some(month), Some(day), None) =>
            if !(0 <= month < 13) || !(1 <= day < 32) then Ok(false) else Err(ValueError)
          case _ => Err(ValueError);
      match date
      case Err(e) => Err(e)
      case Ok(ok) => Ok(ok && eb[10] == '.' && IsNumeric(eb[11..13]))
  }

  /** The number written by two digits. */
  function TwoDigits(tens: char, ones: char): nat
    requires IsDigit(tens) && IsDigit(ones)
  {
    DigitValue(tens) * 10 + DigitValue(ones)
  }

  /** Characters i to j - 1 are digits. */
  predicate DigitsAt(s: string, i: nat, j: nat)
    requires i <= j <= |s|
  {
    forall k :: i <= k < j ==> IsDigit(s[k])
  }

  /**
   * The epoxy check with the crash removed: "CO2.", then a date that is
   * checked whenever characters 4..8 are digits (and then must be six digits:
   * month 0-12, day 1-31, year from 17 to the current one), ".", two digits.
   * A date that is not numeric is still not checked, as in the program.
   */
  predicate VerifyEpoxyBatchFixed(batch: string, year: int) {
    EpoxyBatchWellFormed(Upper(Strip(batch)), year)
  }

  /** The corrected checks on the upper-cased, stripped entry. */
  predicate EpoxyBatchWellFormed(eb: string, year: int) {
    |eb| == 13 && StartsWith(eb, "CO2.") &&
    (IsNumeric(eb[4..9]) ==>
      DigitsAt(eb, 4, 10) &&
      TwoDigits(eb[4], eb[5]) < 13 && 1 <= TwoDigits(eb[6], eb[7]) < 32 &&
      17 <= TwoDigits(eb[8], eb[9]) <= year - 2000) &&
    eb[10] == '.' && DigitsAt(eb, 11, 13)
  }

  lemma DigitsParse(s: string)
    requires IsNumeric(s)
    ensures ParseInt(s) == Some(DigitsValue(s))
  {
    StripDigits(s);
    assert IsDigit(s[0]);
  }

  /** A two-character slice of digits parses to its two-digit value. */
  lemma PairParses(s: string, i: nat)
    requires i + 2 <= |s| && IsDigit(s[i]) && IsDigit(s[i + 1])
    ensures ParseInt(s[i..i + 2]) == Some(TwoDigits(s[i], s[i + 1]))
  {
    var t := s[i..i + 2];
    assert t[0] == s[i] && t[1] == s[i + 1];
    assert t[..1] == [s[i]];
    assert DigitsValue(t[..1]) == DigitValue(s[i]) by {
      assert t[..1][..0] == [];
    }
    DigitsParse(t);
  }

  /** Where the whole date is digits, the check as written decides, and agrees with the corrected one. */
  lemma EpoxyFixedAgrees(batch: string, year: int)
    requires var eb := Upper(Strip(batch)); |eb| == 13 && DigitsAt(eb, 4, 10)
    ensures VerifyEpoxyBatch(batch, year) == Ok(VerifyEpoxyBatchFixed(batch, year))
  {
    EpoxyAgreesOn(Upper(Strip(batch)), year);
  }

  lemma EpoxyAgreesOn(eb: string, year: int)
    requires |eb| == 13 && DigitsAt(eb, 4, 10)
    ensures EpoxyBatchAsWritten(eb, year) == Ok(EpoxyBatchWellFormed(eb, year))
  {
    assert IsNumeric(eb[4..9]) by {
      forall k | 0 <= k < 5
        ensures IsDigit(eb[4..9][k])
      {
        assert eb[4..9][k] == eb[4 + k];
      }
    }
    assert ParseInt(eb[4..6]) == Some(TwoDigits(eb[4], eb[5])) by { PairParses(eb, 4); }
    assert ParseInt(eb[6..8]) == Some(TwoDigits(eb[6], eb[7])) by { PairParses(eb, 6); }
    assert ParseInt(eb[8..10]) == Some(TwoDigits(eb[8], eb[9])) by { PairParses(eb, 8); }
    assert IsNumeric(eb[11..13]) <==> DigitsAt(eb, 11, 13) by {
      assert eb[11..13][0] == eb[11] && eb[11..13][1] == eb[12];
    }
  }

  /**
   * The corrected check never raises, and it returns what the check as written
   * returns whenever that one returns: the two differ only where the program
   * raises ValueError, and there the corrected check refuses the batch.
   */
  lemma EpoxyFixedMatches(batch: string, year: int)
    ensures var r := VerifyEpoxyBatch(batch, year);
      r == Ok(VerifyEpoxyBatchFixed(batch, year)) ||
      (r == Err(ValueError) && !VerifyEpoxyBatchFixed(batch, year))
  {
    EpoxyMatchesOn(Upper(Strip(batch)), year);
  }

  lemma EpoxyMatchesOn(eb: string, year: int)
    ensures var r := EpoxyBatchAsWritten(eb, year);
      r == Ok(EpoxyBatchWellFormed(eb, year)) || (r == Err(ValueError) && !EpoxyBatchWellFormed(eb, year))
  {
    if |eb| == 13 && StartsWith(eb, "CO2.") {
      assert IsNumeric(eb[11..13]) <==> DigitsAt(eb, 11, 13) by {
        assert eb[11..13][0] == eb[11] && eb[11..13][1] == eb[12];
      }
      if DigitsAt(eb, 4, 10) {
        EpoxyAgreesOn(eb, year);
      } else if IsNumeric(eb[4..9]) {
        assert DigitsAt(eb, 4, 9) by {
          forall k | 4 <= k < 9
            ensures IsDigit(eb[k])
          {
            assert eb[k] == eb[4..9][k - 4];
          }
        }
        assert !IsDigit(eb[9]);
        PairParses(eb, 4);
        PairParses(eb, 6);
        var y := eb[8..10];
        assert y[0] == eb[8] && y[1] == eb[9];
        DigitThenOther(y);
      }
    }
  }

  /** `int()` of a digit followed by a non-digit: the digit alone (trailing blank) or ValueError. */
  lemma DigitThenOther(y: string)
    requires |y| == 2 && IsDigit(y[0]) && !IsDigit(y[1])
    ensures ParseInt(y) == None || ParseInt(y) == Some(DigitValue(y[0]))
  {
    assert StripLeft(y) == y;
    if IsSpace(y[1]) {
      assert y[..1] == [y[0]];
      assert StripRight(y) == StripRight([y[0]]) == [y[0]];
      assert Strip(y) == [y[0]];
      assert DigitsValue([y[0]]) == DigitValue(y[0]) by {
        assert [y[0]][..0] == [];
      }
    } else {
      assert StripRight(y) == y;
      assert !IsNumeric(Strip(y));
    }
  }

  /** A batch the corrected check accepts is also accepted as written. */
  lemma EpoxyFixedAccepted(batch: string, year: int)
    requires VerifyEpoxyBatchFixed(batch, year)
    ensures VerifyEpoxyBatch(batch, year) == Ok(true)
  {
    EpoxyFixedMatches(batch, year);
  }

  lemma UpperOfUpper(s: string)
    requires forall i :: 0 <= i < |s| ==> !('a' <= s[i] <= 'z')
    ensures Upper(s) == s
  {
  }

  /** As written, a non-digit in the date's last place raises ValueError. */
  lemma EpoxyYearRaises(year: int)
    ensures VerifyEpoxyBatch("CO2.01011X.12", year) == Err(ValueError)
  {
    var b := "CO2.01011X.12";
    UpperStripExample(b);
    BadYearExample(b);
    EpoxyDateRaises(b, year);
  }

  /** The corrected check refuses the same entry instead of raising. */
  lemma EpoxyYearRefused(year: int)
    ensures !VerifyEpoxyBatchFixed("CO2.01011X.12", year)
  {
    var b := "CO2.01011X.12";
    UpperStripExample(b);
    BadYearExample(b);
    assert !IsDigit(b[9]);
  }

  lemma UpperStripExample(b: string)
    requires b == "CO2.01011X.12"
    ensures Upper(Strip(b)) == b
  {
    assert StripLeft(b) == b;
    assert StripRight(b) == b;
    UpperOfUpper(b);
  }

  lemma BadYearExample(b: string)
    requires b == "CO2.01011X.12"
    ensures |b| == 13 && StartsWith(b, "CO2.") && IsNumeric(b[4..9])
    ensures ParseInt(b[4..6]) == Some(1) && ParseInt(b[6..8]) == Some(1)
    ensures ParseInt(b[8..10]) == None
  {
    assert b[4..6] == "01" && b[6..8] == "01" && b[8..10] == "1X";
    assert IsNumeric(b[4..9]) by { assert b[4..9] == "01011"; }
    assert ParseInt(b[4..6]) == Some(1) by { DigitsParse("01"); }
    assert ParseInt(b[8..10]) == None by {
      assert StripLeft("1X") == "1X";
      assert StripRight("1X") == "1X";
      assert !IsDigit("1X"[1]);
    }
  }

  /** A valid month and day followed by a year int() refuses: the ValueError escapes. */
  lemma EpoxyDateRaises(eb: string, year: int)
    requires |eb| == 13 && StartsWith(eb, "CO2.") && IsNumeric(eb[4..9])
    requires ParseInt(eb[4..6]) == Some(1) && ParseInt(eb[6..8]) == Some(1)
    requires ParseInt(eb[8..10]) == None
    ensures EpoxyBatchAsWritten(eb, year) == Err(ValueError)
  {
  }

  /** A date that is not digits is not checked at all, as written and after the correction. */
  lemma EpoxyLettersAccepted(year: int)
    ensures VerifyEpoxyBatch("CO2.ABCDEF.12", year) == Ok(true)
    ensures VerifyEpoxyBatchFixed("CO2.ABCDEF.12", year)
  {
    var b := "CO2.ABCDEF.12";
    assert Upper(Strip(b)) == b by {
      assert StripLeft(b) == b;
      assert StripRight(b) == b;
      UpperOfUpper(b);
    }
    assert !IsDigit(b[4..9][0]);
    assert !IsDigit(b[4]);
    assert b[11..13] == "12";
  }

  /** `verifyDP190Batch`: "DP190." and three digits, after upper-casing and stripping. */
  predicate VerifyDP190Batch(batch: string) {
    var s := Strip(Upper(batch));
    if |s| == 9 then StartsWith(s, "DP190.") && IsNumeric(s[6..9]) else false
  }

  /** An accepted DP190 batch reads "DP190." then three digits; every such text, in either case, is accepted. */
  lemma DP190Format(batch: string, digits: string)
    ensures VerifyDP190Batch(batch) ==>
      var s := Strip(Upper(batch)); s == "DP190." + s[6..] && |s[6..]| == 3 && AllDigits(s[6..])
    ensures |digits| == 3 && AllDigits(digits) ==>
      VerifyDP190Batch("DP190." + digits) && VerifyDP190Batch("dp190." + digits)
  {
    if VerifyDP190Batch(batch) {
      var s := Strip(Upper(batch));
      assert s[6..] == s[6..9];
      assert s == s[..6] + s[6..];
    }
    if |digits| == 3 && AllDigits(digits) {
      DP190Accepts(digits);
    }
  }

  lemma DP190Accepts(digits: string)
    requires |digits| == 3 && AllDigits(digits)
    ensures VerifyDP190Batch("DP190." + digits) && VerifyDP190Batch("dp190." + digits)
  {
    var lower := "dp190." + digits;
    var upper := "DP190." + digits;
    assert Upper(upper) == upper;
    assert Upper(lower) == upper by {
      forall i | 0 <= i < |digits| ensures UpperChar(digits[i]) == digits[i] {
        assert IsDigit(digits[i]);
      }
      assert forall i :: 0 <= i < |lower| ==> Upper(lower)[i] == upper[i];
    }
    assert Strip(upper) == upper by { StripDigitsTail("DP190.", digits); }
    assert upper[6..9] == digits;
  }

  lemma StripDigitsTail(head: string, digits: string)
    requires head == "DP190." && |digits| == 3 && AllDigits(digits)
    ensures Strip(head + digits) == head + digits
  {
    var s := head + digits;
    assert StripLeft(s) == s;
    assert s[|s| - 1] == digits[2];
    assert IsDigit(digits[2]);
  }

  // ---------------------------------------------------------------------------
  // The stopwatch display
  // ---------------------------------------------------------------------------

  /** Python's `int()` on a float: truncation toward zero. */
  function Trunc(x: real): int {
    if x >= 0.0 then x.Floor else -((-x).Floor)
  }

  /** The hours, minutes and seconds shown for `running` seconds since the start. */
  function Display(running: real): (int, int, int) {
    (Trunc(running / 3600.0), Trunc(running / 60.0) % 60, Trunc(running) % 60)
  }

  lemma FloorDiv(r: real, d: nat)
    requires r >= 0.0 && d > 0
    ensures (r / d as real).Floor == r.Floor / d
  {
    var n := r.Floor;
    var q := n / d;
    var x := r / d as real;
    assert q * d <= n < q * d + d;
    assert (q * d) as real <= r < (q * d + d) as real;
    CastProduct(q, d);
    CastProduct(q + 1, d);
    assert r == x * d as real;
    DivideBoth(q as real, x, (q + 1) as real, d as real);
  }

  lemma CastProduct(a: int, b: int)
    ensures (a * b) as real == a as real * b as real
  {
  }

  /** Dividing `a d <= b d < c d` by a positive d. */
  lemma DivideBoth(a: real, b: real, c: real, d: real)
    requires d > 0.0
    requires a * d <= b * d < c * d
    ensures a <= b < c
  {
    var lo := (b - a) * d;
    var hi := (c - b) * d;
    assert lo >= 0.0 && hi > 0.0;
    assert b - a == lo / d;
    assert c - b == hi / d;
  }

  /** From a non-negative elapsed time, the display reads whole hours, minutes below 60 and seconds below 60. */
  lemma DisplayReadsElapsed(running: real)
    requires running >= 0.0
    ensures var (h, m, s) := Display(running);
      h >= 0 && 0 <= m < 60 && 0 <= s < 60 && h * 3600 + m * 60 + s == running.Floor
  {
    var n := running.Floor;
    FloorDiv(running, 3600);
    FloorDiv(running, 60);
    assert n / 3600 == (n / 60) / 60;
  }

  // ---------------------------------------------------------------------------
  // The station's state and what each action does to it
  // ---------------------------------------------------------------------------

  /** The text typed or scanned into the three entries. */
  datatype Inputs = Inputs(pallet: string, epoxy: string, dp190: string)

  datatype Bench = Bench(palletNum: string, palletID: string, epoxyBatch: string, dp190Batch: string,
                         straws: seq<string>, workers: seq<string>, timing: bool, startTime: real,
                         pallets: Directory)

  /** The steps a pallet must have passed before CO2 insertion. */
  const Prerequisites: seq<string> := ["prep", "ohms"]

  /** All three entries well formed (the model uses the corrected pallet and epoxy checks). */
  predicate EntriesValid(palletNum: string, epoxyBatch: string, dp190Batch: string, year: int) {
    VerifyPalletNumFixed(palletNum) && VerifyEpoxyBatchFixed(epoxyBatch, year) && VerifyDP190Batch(dp190Batch)
  }

  /**
   * `initialData`: the entries are stored; the pallet's CPALID is looked up;
   * with everything valid the genealogy check runs, and only a pass starts
   * the stopwatch. The result is the check's verdict (None when it did not run).
   */
  function AfterInitialData(b: Bench, inputs: Inputs, year: int, now: real, fuel: nat): (Result<Option<CheckStraw.Verdict>>, Bench) {
    var p := Upper(Strip(inputs.pallet));
    var e := Upper(Strip(inputs.epoxy));
    var d := Upper(Strip(inputs.dp190));
    var b1 := b.(palletNum := p, epoxyBatch := e, dp190Batch := d,
                 palletID := if p in b.pallets then b.pallets[p].id else b.palletID);
    if !(p in b.pallets && EntriesValid(p, e, d, year)) then (Ok(None), b1)
    else
      match CheckStraw.CheckVerdict(Contents(b.pallets), p, Prerequisites, fuel)
      case Err(x) => (Err(x), b1)
      case Ok(v) => (Ok(Some(v)), if v.Passed? then b1.(timing := true, startTime := now) else b1)
  }

  /**
   * The stopwatch starts exactly when all entries are valid, the pallet file
   * exists and the pallet passed both steps; then every straw on the pallet
   * passed preparation and resistance.
   */
  lemma InitialDataGate(b: Bench, inputs: Inputs, year: int, now: real, fuel: nat)
    requires !b.timing
    ensures var (r, b1) := AfterInitialData(b, inputs, year, now, fuel);
      var p := Upper(Strip(inputs.pallet));
      (b1.timing <==>
        p in b.pallets && EntriesValid(p, Upper(Strip(inputs.epoxy)), Upper(Strip(inputs.dp190)), year) &&
        CheckStraw.CheckVerdict(Contents(b.pallets), p, Prerequisites, fuel) == Ok(CheckStraw.Passed)) &&
      (b1.timing ==> (b1.startTime == now &&
        CheckStraw.PalletVerdict(Contents(b.pallets), p, "prep", fuel) == Ok(true) &&
        CheckStraw.PalletVerdict(Contents(b.pallets), p, "ohms", fuel) == Ok(true)))
  {
    var p := Upper(Strip(inputs.pallet));
    var e := Upper(Strip(inputs.epoxy));
    var d := Upper(Strip(inputs.dp190));
    var store := Contents(b.pallets);
    var b1 := AfterInitialData(b, inputs, year, now, fuel).1;
    if p in b.pallets && EntriesValid(p, e, d, year) {
      var verdict := CheckStraw.CheckVerdict(store, p, Prerequisites, fuel);
      if verdict == Ok(CheckStraw.Passed) {
        CheckStraw.CheckPassesIffAllSteps(store, p, Prerequisites, fuel);
        assert Prerequisites[0] == "prep" && Prerequisites[1] == "ohms";
      }
    }
  }

  /** The workers as the station writes them: lower case. */
  function LowerAll(workers: seq<string>): (lowered: seq<string>)
    ensures |lowered| == |workers|
    ensures forall i :: 0 <= i < |workers| ==> lowered[i] == Lower(workers[i])
  {
    seq(|workers|, i requires 0 <= i < |workers| => Lower(workers[i]))
  }

  /** The straws `saveData` writes: those held, then those of the file's last row. */
  function SavedStraws(b: Bench): seq<string>
    requires b.palletNum in b.pallets
  {
    b.straws + LastRowStraws(Rows(b.pallets[b.palletNum].text))
  }

  /** `saveData`: with the pallet file present, one "C-O2" line after a newline. */
  function AfterSaveData(b: Bench, now: string): Bench {
    if !FileAt(b.pallets, b.palletID, b.palletNum) then b
    else
      var text := WithStationLine(b.pallets[b.palletNum].text, now, StationID, SavedStraws(b), LowerAll(b.workers));
      b.(straws := SavedStraws(b), pallets := b.pallets[b.palletNum := PalletFile(b.palletID, text)])
  }

  /** `resetGUI`: the entries and straws are cleared; the stopwatch flag is left as it is. */
  function Reset(b: Bench): Bench {
    b.(palletID := "", palletNum := "", epoxyBatch := "", dp190Batch := "", straws := [])
  }

  lemma LowerPlain(w: string)
    requires PlainField(w)
    ensures PlainField(Lower(w))
  {
    assert forall i :: 0 <= i < |w| ==> Lower(w)[i] == LowerChar(w[i]);
  }

  /** A lower-cased name is the same name up to case and holds no capital; lower-casing again changes nothing. */
  lemma LowerCaseless(w: string)
    ensures Upper(Lower(w)) == Upper(w)
    ensures forall j :: 0 <= j < |Lower(w)| ==> !('A' <= Lower(w)[j] <= 'Z')
    ensures Lower(Lower(w)) == Lower(w)
  {
    assert forall j :: 0 <= j < |w| ==> Upper(Lower(w))[j] == UpperChar(LowerChar(w[j]));
  }

  /** The workers `saveData` writes are the session's workers up to case, without capitals, and lower-casing is idempotent. */
  lemma LowerAllCaseless(workers: seq<string>)
    ensures forall i :: 0 <= i < |workers| ==> Upper(LowerAll(workers)[i]) == Upper(workers[i])
    ensures forall i, j :: 0 <= i < |workers| && 0 <= j < |LowerAll(workers)[i]| ==> !('A' <= LowerAll(workers)[i][j] <= 'Z')
    ensures LowerAll(LowerAll(workers)) == LowerAll(workers)
  {
    forall i | 0 <= i < |workers|
      ensures Upper(LowerAll(workers)[i]) == Upper(workers[i])
      ensures forall j :: 0 <= j < |LowerAll(workers)[i]| ==> !('A' <= LowerAll(workers)[i][j] <= 'Z')
      ensures LowerAll(LowerAll(workers))[i] == LowerAll(workers)[i]
    {
      LowerCaseless(workers[i]);
    }
  }

  /**
   * `finish` on an existing pallet file: the history gains the "C-O2" record
   * of the straws and the lower-cased workers, and the entries are cleared.
   */
  lemma FinishHistory(b: Bench, now: string)
    requires FileAt(b.pallets, b.palletID, b.palletNum) && PlainField(now)
    requires forall i :: 0 <= i < |SavedStraws(b)| ==> PlainField(SavedStraws(b)[i])
    requires forall i :: 0 <= i < |b.workers| ==> PlainField(b.workers[i])
    ensures var b1 := Reset(AfterSaveData(b, now));
      b1.palletNum == "" && b1.straws == [] && b.palletNum in b1.pallets &&
      History(Rows(b1.pallets[b.palletNum].text)) ==
        History(Rows(b.pallets[b.palletNum].text)) +
        [Record(now, StationID, MarkedPairs(SavedStraws(b)), WorkerFields(LowerAll(b.workers)))]
  {
    var lowered := LowerAll(b.workers);
    forall i | 0 <= i < |lowered|
      ensures PlainField(lowered[i])
    {
      LowerPlain(b.workers[i]);
    }
    assert PlainField(StationID);
    AppendStationLine(b.pallets[b.palletNum].text, now, StationID, SavedStraws(b), lowered);
  }

  /**
   * After `finish` the genealogy check can no longer answer "not passed" at
   * the CO2 step for a straw the station wrote: the new line marks it, or the
   * scan raises (earlier lines, or a straw that is also the last field).
   */
  lemma FinishPassesStraws(store: CheckStraw.Store, b: Bench, now: string, k: nat, fuel: nat)
    requires FileAt(b.pallets, b.palletID, b.palletNum) && PlainField(now)
    requires forall i :: 0 <= i < |SavedStraws(b)| ==> PlainField(SavedStraws(b)[i])
    requires forall i :: 0 <= i < |b.workers| ==> PlainField(b.workers[i])
    requires k < |SavedStraws(b)| && SavedStraws(b)[k] != "" && fuel > 0
    ensures var b1 := Reset(AfterSaveData(b, now));
      b.palletNum in b1.pallets &&
      CheckStraw.StrawVerdict(store[b.palletNum := Rows(b1.pallets[b.palletNum].text)], b.palletNum,
                              SavedStraws(b)[k], StationID, fuel) != Ok(false)
  {
    var straws := SavedStraws(b);
    var ws := WorkerFields(LowerAll(b.workers));
    var s := straws[k];
    var b1 := Reset(AfterSaveData(b, now));
    var store1 := store[b.palletNum := Rows(b1.pallets[b.palletNum].text)];
    var h := History(Rows(b.pallets[b.palletNum].text));
    var r := Record(now, StationID, MarkedPairs(straws), ws);
    assert b.palletNum in b1.pallets && History(store1[b.palletNum]) == h + [r] by {
      FinishHistory(b, now);
    }
    CheckStraw.StationRecordMarks(now, StationID, straws, LowerAll(b.workers), k);
    CheckStraw.TrailingMarkPasses(store1, b.palletNum, h, r, s, StationID, fuel);
  }

  // ---------------------------------------------------------------------------
  // The station
  // ---------------------------------------------------------------------------

  /** The `for worker in self.sessionWorkers` loop: each worker lower-cased, commas between. */
  method WriteWorkers(workers: seq<string>) returns (written: string)
    ensures written == Join(LowerAll(workers), ",")
  {
    var lowered := LowerAll(workers);
    written := "";
    var i := 0;
    while i < |workers|
      invariant 0 <= i <= |workers|
      invariant i == 0 ==> written == ""
      invariant 0 < i < |workers| ==> written == Join(lowered[..i], ",") + ","
      invariant i == |workers| ==> written == Join(lowered, ",")
    {
      var next := written + Lower(workers[i]);
      assert next == Join(lowered[..i + 1], ",") by {
        if i == 0 {
          assert lowered[..1] == [lowered[0]];
        } else {
          JoinAppend(lowered[..i], [lowered[i]], ",");
          assert lowered[..i] + [lowered[i]] == lowered[..i + 1];
        }
      }
      written := next;
      if i + 1 == |workers| {
        assert lowered[..i + 1] == lowered;
      }
      if i != |workers| - 1 {
        written := written + ",";
      }
      i := i + 1;
    }
    assert lowered[..i] == lowered;
  }

  class CO2Station {
    var palletNum: string
    var palletID: string
    var epoxyBatch: string
    var dp190Batch: string
    var straws: seq<string>
    var sessionWorkers: seq<string>
    var timing: bool
    var startTime: real
    var pallets: Directory

    function State(): Bench
      reads this
    {
      Bench(palletNum, palletID, epoxyBatch, dp190Batch, straws, sessionWorkers, timing, startTime, pallets)
    }

    constructor (workers: seq<string>, directory: Directory)
      ensures State() == Bench("", "", "", "", [], workers, false, 0.0, directory)
    {
      palletNum := "";
      palletID := "";
      epoxyBatch := "";
      dp190Batch := "";
      straws := [];
      sessionWorkers := workers;
      timing := false;
      startTime := 0.0;
      pallets := directory;
    }

    /** `initialData` */
    method InitialData(inputs: Inputs, year: int, now: real, fuel: nat)
      returns (r: Result<Option<CheckStraw.Verdict>>)
      modifies this
      ensures (r, State()) == AfterInitialData(old(State()), inputs, year, now, fuel)
    {
      ghost var b0 := State();
      palletNum := Upper(Strip(inputs.pallet));
      epoxyBatch := Upper(Strip(inputs.epoxy));
      dp190Batch := Upper(Strip(inputs.dp190));
      var validNum := VerifyPalletNumFixed(palletNum);
      var validEpoxy := VerifyEpoxyBatchFixed(epoxyBatch, year);
      var validDP190 := VerifyDP190Batch(dp190Batch);
      var found := false;
      if palletNum in pallets {
        palletID := pallets[palletNum].id;
        found := true;
      }
      ghost var b1 := State();
      assert AfterInitialData(b0, inputs, year, now, fuel).1 == b1 ||
             AfterInitialData(b0, inputs, year, now, fuel).1 == b1.(timing := true, startTime := now);
      if !(found && validNum && validEpoxy && validDP190) {
        return Ok(None);
      }
      var verdict := CheckStraw.Check(Contents(pallets), palletNum, Prerequisites, fuel);
      if verdict.Err? {
        return Err(verdict.error);
      }
      if verdict.value.Passed? {
        StopWatch(now);
      }
      r := Ok(Some(verdict.value));
    }

    /** `stopWatch` */
    method StopWatch(now: real)
      modifies this
      ensures State() == old(State()).(timing := true, startTime := now)
    {
      startTime := now;
      timing := true;
    }

    /** `timeUp` */
    method TimeUp()
      modifies this
      ensures State() == old(State()).(timing := false)
    {
      timing := false;
    }

    /** `saveData` */
    method SaveData(now: string)
      modifies this
      ensures State() == AfterSaveData(old(State()), now)
    {
      if FileAt(pallets, palletID, palletNum) {
        var text := pallets[palletNum].text;
        var extra := ReadLastRowStraws(Rows(text));
        straws := straws + extra;
        var marks := WriteStrawMarks(straws);
        var workers := WriteWorkers(sessionWorkers);
        text := text + "\n" + (now + "," + StationID + "," + marks + workers);
        pallets := pallets[palletNum := PalletFile(palletID, text)];
      }
    }

    /** `resetGUI` */
    method ResetGUI()
      modifies this
      ensures State() == Reset(old(State()))
    {
      palletID := "";
      palletNum := "";
      epoxyBatch := "";
      dp190Batch := "";
      straws := [];
    }

    /** `finish`: save, then reset. */
    method Finish(now: string)
      modifies this
      ensures State() == Reset(AfterSaveData(old(State()), now))
    {
      SaveData(now);
      ResetGUI();
    }
  }
}
