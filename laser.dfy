/**
 * The laser-cutting station. The operator scans the pallet number, then the
 * barcodes FIRST, SECOND and FINISH, which arrive as key presses; the station
 * drives the laser software through two cuts and finally appends a "lasr" and
 * a "leng" line to the pallet file.
 *
 * The station's fields are a class; what each action does to them is also
 * written as a function on a value (`Bench`), and every method is proved to
 * do exactly what its function says.
 */
module Laser {
  import opened Builtins
  import opened Ledger
  import CheckStraw

  // ---------------------------------------------------------------------------
  // Keys and the scan buffer
  // ---------------------------------------------------------------------------

  /** A key press: a letter key (its letter, upper case), Return, or any other key. */
  datatype Key = Letter(c: char) | Return | OtherKey

  /** The station action a key press starts. */
  datatype Action = Idle | RunFirstCut | RunChooseCut | RunSaveData

  /**
   * The scan buffer after one key, written as the recogniser's transition
   * table. F restarts at "F" and S at "S", except where S continues a word.
   */
  function NextEntry(entry: string, key: Key): (next: string) {
    match key
    case OtherKey => entry
    case Return => if entry == "SECOND" || entry == "FINISH" then "" else entry
    case Letter(c) =>
      if c == 'F' then "F"
      else if c == 'S' then
        (if entry == "FIR" || entry == "FIRS" then "FIRS" else if entry == "FINI" then "FINIS" else "S")
      else if c == 'I' && entry == "F" then "FI"
      else if c == 'I' && entry == "FIN" then "FINI"
      else if c == 'R' && entry == "FI" then "FIR"
      else if c == 'N' && entry == "FI" then "FIN"
      else if c == 'T' && entry == "FIRS" then "FIRST"
      else if c == 'H' && entry == "FINIS" then "FINISH"
      else if c == 'E' && entry == "S" then "SE"
      else if c == 'C' && entry == "SE" then "SEC"
      else if c == 'O' && entry == "SEC" then "SECO"
      else if c == 'N' && entry == "SECO" then "SECON"
      else if c == 'D' && entry == "SECON" then "SECOND"
      else entry
  }

  /** The action Return starts on a completed word; no other key starts one. */
  function Triggered(entry: string, key: Key): Action {
    if key != Return then Idle
    else if entry == "FIRST" then RunFirstCut
    else if entry == "SECOND" then RunChooseCut
    else if entry == "FINISH" then RunSaveData
    else Idle
  }

  /** The buffer after a run of keys. */
  function Typed(entry: string, keys: seq<Key>): string
    decreases |keys|
  {
    if keys == [] then entry else Typed(NextEntry(entry, keys[0]), keys[1..])
  }

  /** Scanning FIRST then Return starts the first cut from any buffer, and leaves "FIRST" in the buffer. */
  lemma ScanFirst(entry: string)
    ensures Typed(entry, [Letter('F'), Letter('I'), Letter('R'), Letter('S'), Letter('T')]) == "FIRST"
    ensures Triggered("FIRST", Return) == RunFirstCut && NextEntry("FIRST", Return) == "FIRST"
  {
    var keys := [Letter('F'), Letter('I'), Letter('R'), Letter('S'), Letter('T')];
    assert keys[1..] == [Letter('I'), Letter('R'), Letter('S'), Letter('T')];
    assert keys[1..][1..] == [Letter('R'), Letter('S'), Letter('T')];
    assert keys[1..][1..][1..] == [Letter('S'), Letter('T')];
    assert keys[1..][1..][1..][1..] == [Letter('T')];
    assert NextEntry(entry, Letter('F')) == "F";
    assert Typed("FIRST", []) == "FIRST";
  }

  /** Scanning FINISH then Return starts saving from any buffer, and clears the buffer. */
  lemma ScanFinish(entry: string)
    ensures Typed(entry, [Letter('F'), Letter('I'), Letter('N'), Letter('I'), Letter('S'), Letter('H')]) == "FINISH"
    ensures Triggered("FINISH", Return) == RunSaveData && NextEntry("FINISH", Return) == ""
  {
    var keys := [Letter('F'), Letter('I'), Letter('N'), Letter('I'), Letter('S'), Letter('H')];
    assert keys[1..] == [Letter('I'), Letter('N'), Letter('I'), Letter('S'), Letter('H')];
    assert keys[1..][1..] == [Letter('N'), Letter('I'), Letter('S'), Letter('H')];
    assert keys[1..][1..][1..] == [Letter('I'), Letter('S'), Letter('H')];
    assert keys[1..][1..][1..][1..] == [Letter('S'), Letter('H')];
    assert keys[1..][1..][1..][1..][1..] == [Letter('H')];
    assert NextEntry(entry, Letter('F')) == "F";
    assert Typed("FINISH", []) == "FINISH";
  }

  /**
   * Scanning SECOND then Return starts the second cut and clears the buffer,
   * unless the buffer holds "FIR", "FIRS" or "FINI": there S continues the
   * other word and SECOND is lost.
   */
  lemma ScanSecond(entry: string)
    ensures entry != "FIR" && entry != "FIRS" && entry != "FINI" ==>
      Typed(entry, [Letter('S'), Letter('E'), Letter('C'), Letter('O'), Letter('N'), Letter('D')]) == "SECOND"
    ensures Triggered("SECOND", Return) == RunChooseCut && NextEntry("SECOND", Return) == ""
    ensures Typed("FIR", [Letter('S'), Letter('E'), Letter('C'), Letter('O'), Letter('N'), Letter('D')]) == "FIRS"
  {
    var keys := [Letter('S'), Letter('E'), Letter('C'), Letter('O'), Letter('N'), Letter('D')];
    assert keys[1..] == [Letter('E'), Letter('C'), Letter('O'), Letter('N'), Letter('D')];
    assert keys[1..][1..] == [Letter('C'), Letter('O'), Letter('N'), Letter('D')];
    assert keys[1..][1..][1..] == [Letter('O'), Letter('N'), Letter('D')];
    assert keys[1..][1..][1..][1..] == [Letter('N'), Letter('D')];
    assert keys[1..][1..][1..][1..][1..] == [Letter('D')];
    assert Typed("SECOND", []) == "SECOND";
    assert Typed("FIRS", []) == "FIRS";
  }

  /** F always restarts the buffer; a key outside the words leaves it alone and starts nothing. */
  lemma KeyRules(entry: string, key: Key)
    ensures key == Letter('F') ==> NextEntry(entry, key) == "F"
    ensures key == Letter('S') && entry != "FIR" && entry != "FIRS" && entry != "FINI" ==> NextEntry(entry, key) == "S"
    ensures (key == OtherKey || (key.Letter? && key.c !in "FIRSTECONDH")) ==>
      NextEntry(entry, key) == entry && Triggered(entry, key) == Idle
  {
  }

  // ---------------------------------------------------------------------------
  // The humidity bucket of the second cut
  // ---------------------------------------------------------------------------

  /** The relative humidities the second-cut programs are made for. */
  const HumidValues: seq<nat> := [10, 25, 40, 55]

  function SquaredDiff(h: real, v: nat): real {
    (h - v as real) * (h - v as real)
  }

  /** `diff.index(min(diff))`: the nearest value by squared difference, the first one on a tie. */
  predicate FirstNearest(h: real, i: nat) {
    i < |HumidValues| &&
    (forall j :: 0 <= j < |HumidValues| ==> SquaredDiff(h, HumidValues[i]) <= SquaredDiff(h, HumidValues[j])) &&
    (forall j :: 0 <= j < i ==> SquaredDiff(h, HumidValues[j]) > SquaredDiff(h, HumidValues[i]))
  }

  /** The bucket by midpoints: up to 17.5 the first, up to 32.5 the second, up to 47.5 the third. */
  function Bucket(h: real): (i: nat)
    ensures i < |HumidValues|
  {
    if h <= 17.5 then 0 else if h <= 32.5 then 1 else if h <= 47.5 then 2 else 3
  }

  lemma SquaredDiffGap(h: real, a: nat, b: nat)
    ensures SquaredDiff(h, a) - SquaredDiff(h, b) == (b as real - a as real) * (2.0 * h - a as real - b as real)
  {
  }

  /** The midpoint buckets are exactly the first nearest humidity value. */
  lemma BucketIsFirstNearest(h: real, i: nat)
    ensures FirstNearest(h, Bucket(h))
    ensures FirstNearest(h, i) ==> i == Bucket(h)
  {
    SquaredDiffGap(h, 10, 25);
    SquaredDiffGap(h, 10, 40);
    SquaredDiffGap(h, 10, 55);
    SquaredDiffGap(h, 25, 40);
    SquaredDiffGap(h, 25, 55);
    SquaredDiffGap(h, 40, 55);
  }

  /** The `diff` loop, `min(diff)` and `diff.index(...)` of `zerofour`/`twosix`. */
  method NearestHumidity(h: real) returns (index: nat)
    ensures FirstNearest(h, index)
    ensures index == Bucket(h)
  {
    var diff: seq<real> := [];
    for k := 0 to |HumidValues|
      invariant |diff| == k
      invariant forall j :: 0 <= j < k ==> diff[j] == SquaredDiff(h, HumidValues[j])
    {
      diff := diff + [SquaredDiff(h, HumidValues[k])];
    }
    var least := diff[0];
    for k := 1 to |diff|
      invariant forall j :: 0 <= j < k ==> least <= diff[j]
      invariant exists j :: 0 <= j < k && diff[j] == least
    {
      if diff[k] < least {
        least := diff[k];
      }
    }
    index := 0;
    while diff[index] != least
      invariant 0 <= index < |diff|
      invariant forall j :: 0 <= j < index ==> diff[j] != least
      invariant exists j :: index <= j < |diff| && diff[j] == least
      decreases |diff| - index
    {
      index := index + 1;
    }
    BucketIsFirstNearest(h, index);
  }

  /** The program file of the second cut for the pallet's parity and the humidity bucket. */
  function CutProgram(parity: int, bucket: nat): string
    requires bucket < |HumidValues|
  {
    "Cut 2 for " + (if parity == 0 then "0,4" else "2,6") + " - RH" + NatToString(HumidValues[bucket]) + ".ecp"
  }

  /** The cut-length table that goes with that program: `LaserInfo0,4RH<h>.csv` or `LaserInfo2,6RH<h>.csv`. */
  function CutInfoFile(parity: int, bucket: nat): string
    requires bucket < |HumidValues|
  {
    "LaserInfo" + (if parity == 0 then "0,4" else "2,6") + "RH" + NatToString(HumidValues[bucket]) + ".csv"
  }

  /**
   * `for row in reader: self.cutLengths.append(row[1])`: whether every row
   * has a second field, and the second fields appended before the first row
   * that has none raises IndexError.
   */
  function SecondFields(rows: seq<seq<string>>): (r: (bool, seq<string>))
    ensures r.0 <==> forall i :: 0 <= i < |rows| ==> |rows[i]| >= 2
    ensures |r.1| <= |rows|
    ensures forall i :: 0 <= i < |r.1| ==> |rows[i]| >= 2 && r.1[i] == rows[i][1]
    ensures r.0 ==> |r.1| == |rows|
    ensures !r.0 ==> |rows[|r.1|]| < 2
  {
    if rows == [] then (true, [])
    else
      var (ok, lengths) := SecondFields(rows[..|rows| - 1]);
      var last := rows[|rows| - 1];
      if !ok || |last| < 2 then (false, lengths)
      else (true, lengths + [last[1]])
  }

  /** The outcome of the read is fixed by the first row without a second field. */
  lemma SecondFieldsUnique(rows: seq<seq<string>>, ok: bool, lengths: seq<string>)
    requires ok <==> forall i :: 0 <= i < |rows| ==> |rows[i]| >= 2
    requires |lengths| <= |rows|
    requires forall i :: 0 <= i < |lengths| ==> |rows[i]| >= 2 && lengths[i] == rows[i][1]
    requires ok ==> |lengths| == |rows|
    requires !ok ==> |rows[|lengths|]| < 2
    ensures SecondFields(rows) == (ok, lengths)
  {
    var r := SecondFields(rows);
    assert r.1 == lengths by {
      forall i | 0 <= i < |lengths|
        ensures r.1[i] == lengths[i]
      {
      }
    }
  }

  /** The program file of the first cut. */
  const FirstProgram := "Cut 1.ecp"

  // ---------------------------------------------------------------------------
  // Straws to remove before cutting (`interpretEditPallet`)
  // ---------------------------------------------------------------------------

  /** A slot to empty: a failed straw (even an "Empty" one), or an incomplete slot holding a straw. */
  predicate Flagged(status: string, straw: string) {
    status == "Fail" || (status == "Incomplete" && straw != "Empty")
  }

  /**
   * The removal list over the first n slots. The status is always read; the
   * straw only when the status is "Fail" or "Incomplete"; a short list raises.
   */
  function Removals(straws: seq<string>, passfail: seq<string>, n: nat): (r: Result<seq<string>>)
    ensures r.Err? ==> r.error == IndexError
  {
    if n == 0 then Ok([])
    else
      match Removals(straws, passfail, n - 1)
      case Err(e) => Err(e)
      case Ok(rs) =>
        var i := n - 1;
        if i >= |passfail| then Err(IndexError)
        else if passfail[i] != "Fail" && passfail[i] != "Incomplete" then Ok(rs)
        else if i >= |straws| then Err(IndexError)
        else if Flagged(passfail[i], straws[i]) then Ok(rs + [straws[i]])
        else Ok(rs)
  }

  /** With 24 slots on both lists, the removal list holds exactly the straws of the flagged slots. */
  lemma {:induction false} RemovalsListed(straws: seq<string>, passfail: seq<string>, n: nat)
    requires n <= |straws| && n <= |passfail|
    ensures Removals(straws, passfail, n).Ok?
    ensures forall x :: x in Removals(straws, passfail, n).value <==>
      exists i :: 0 <= i < n && straws[i] == x && Flagged(passfail[i], straws[i])
  {
    if n > 0 {
      RemovalsListed(straws, passfail, n - 1);
      var rs := Removals(straws, passfail, n - 1).value;
      var i := n - 1;
      forall x
        ensures x in Removals(straws, passfail, n).value <==>
          exists j :: 0 <= j < n && straws[j] == x && Flagged(passfail[j], straws[j])
      {
        if x in rs {
          var j :| 0 <= j < n - 1 && straws[j] == x && Flagged(passfail[j], straws[j]);
        }
      }
    }
  }

  /** Too few statuses always raise IndexError, whatever the straws. */
  lemma {:induction false} ShortStatusesRaise(straws: seq<string>, passfail: seq<string>, n: nat)
    requires |passfail| < n
    ensures Removals(straws, passfail, n) == Err(IndexError)
  {
    if |passfail| < n - 1 {
      ShortStatusesRaise(straws, passfail, n - 1);
    }
  }

  /** Once the loop raises, it raises the same error whatever the later slots hold. */
  lemma {:induction false} RaiseStops(straws: seq<string>, passfail: seq<string>, i: nat, n: nat)
    requires i <= n && Removals(straws, passfail, i).Err?
    ensures Removals(straws, passfail, n) == Removals(straws, passfail, i)
    decreases n
  {
    if i < n {
      RaiseStops(straws, passfail, i, n - 1);
    }
  }

  /** The `for i in range(24)` loop of `interpretEditPallet`. */
  method FailedStraws(straws: seq<string>, passfail: seq<string>) returns (r: Result<seq<string>>)
    ensures r == Removals(straws, passfail, 24)
  {
    var removeStraws: seq<string> := [];
    for i := 0 to 24
      invariant Removals(straws, passfail, i) == Ok(removeStraws)
    {
      if i >= |passfail| {
        RaiseStops(straws, passfail, i + 1, 24);
        return Err(IndexError);
      }
      if passfail[i] == "Fail" || passfail[i] == "Incomplete" {
        if i >= |straws| {
          RaiseStops(straws, passfail, i + 1, 24);
          return Err(IndexError);
        }
        if Flagged(passfail[i], straws[i]) {
          removeStraws := removeStraws + [straws[i]];
        }
      }
    }
    r := Ok(removeStraws);
  }

  /**
   * `interpretEditPallet`: the removal list (None when the pallet was not leak
   * tested) and the new `palletInfoVerified`. The flag is set first, so an
   * exception in the loop leaves it set.
   */
  function PalletReview(lastTask: string, straws: seq<string>, passfail: seq<string>): (Result<Option<seq<string>>>, bool) {
    if lastTask != "leak" then (Ok(None), false)
    else
      match Removals(straws, passfail, 24)
      case Err(e) => (Err(e), true)
      case Ok(rs) => (Ok(Some(rs)), rs == [])
  }

  /** With full lists the pallet is verified exactly when it was leak tested and no slot is flagged. */
  lemma PalletReviewVerified(lastTask: string, straws: seq<string>, passfail: seq<string>)
    requires |straws| >= 24 && |passfail| >= 24
    ensures PalletReview(lastTask, straws, passfail).0.Ok?
    ensures PalletReview(lastTask, straws, passfail).1 <==>
      lastTask == "leak" && forall i :: 0 <= i < 24 ==> !Flagged(passfail[i], straws[i])
    ensures forall i :: lastTask == "leak" && 0 <= i < 24 && passfail[i] == "Fail" ==>
      straws[i] in PalletReview(lastTask, straws, passfail).0.value.value
  {
    RemovalsListed(straws, passfail, 24);
    if lastTask == "leak" {
      var rs := Removals(straws, passfail, 24).value;
      if rs != [] {
        assert rs[0] in rs;
      }
      if exists i :: 0 <= i < 24 && Flagged(passfail[i], straws[i]) {
        var i :| 0 <= i < 24 && Flagged(passfail[i], straws[i]);
        assert straws[i] in rs;
      }
    }
  }

  // ---------------------------------------------------------------------------
  // Pallet number and operator input
  // ---------------------------------------------------------------------------

  /**
   * What the operator, the bench sensors and the laser-cut directory supply
   * to the actions: the answer to "Have you done the first cut?", the
   * humidity, the clock readings of the two ledger lines, and the LaserInfo
   * csv files by name, as the rows `csv.reader` gives (a missing name is a
   * missing file).
   */
  datatype Operator = Operator(firstCutDone: bool, humidity: real, lasrTime: string, lengTime: string,
                               laserInfo: map<string, seq<seq<string>>>)

  /** An answer to the pallet-number dialog: typed text, or Cancel. */
  datatype Answer = Entered(text: string) | Cancelled

  /**
   * The pallet number `getPalletNum` settles on: each answer is stripped and
   * upper-cased; a rejected one asks again, Cancel gives up. The model uses
   * the corrected check here.
   */
  function ScannedPallet(answers: seq<Answer>): (r: Option<string>)
    ensures r.Some? ==> VerifyPalletNumFixed(r.value)
    decreases |answers|
  {
    if answers == [] then None
    else
      match answers[0]
      case Cancelled => None
      case Entered(t) =>
        var pallet := Upper(Strip(t));
        if VerifyPalletNumFixed(pallet) then Some(pallet) else ScannedPallet(answers[1..])
  }

  // ---------------------------------------------------------------------------
  // The station's state and what each action does to it
  // ---------------------------------------------------------------------------

  /**
   * The fields the actions read and write. `loaded` is the program last
   * opened in the laser software.
   */
  datatype Bench = Bench(step: int, palletNum: string, palletID: string, cutType: string,
                         cutLengths: seq<string>, straws: seq<string>, workers: seq<string>, verified: bool,
                         loaded: string, pallets: Directory)

  /** `firstCut` */
  function AfterFirstCut(b: Bench): Bench {
    b.(step := 1, loaded := FirstProgram)
  }

  /** The cut-length table for the parity exists and every row has a second field. */
  predicate CutInfoReadable(op: Operator, parity: int) {
    var name := CutInfoFile(parity, Bucket(op.humidity));
    name in op.laserInfo && SecondFields(op.laserInfo[name]).0
  }

  /**
   * `zerofour` (parity 0) or `twosix` (parity 1): set the cut type, read the
   * cut lengths of the nearest humidity's table, then open that program.
   * A missing table raises FileNotFoundError and a row without a second
   * field raises IndexError; either leaves the program unloaded.
   */
  function AfterCut(b: Bench, parity: int, op: Operator): (r: (Result<()>, Bench))
    ensures r.0.Ok? <==> CutInfoReadable(op, parity)
    ensures r.0.Err? ==> r.0.error in {FileNotFoundError, IndexError} && r.1.loaded == b.loaded
    ensures r.0.Ok? ==> r.1.loaded == CutProgram(parity, Bucket(op.humidity))
    ensures r.1.cutType == (if parity == 0 then "(0-4)" else "(2-6)")
    ensures |b.cutLengths| <= |r.1.cutLengths| && r.1.cutLengths[..|b.cutLengths|] == b.cutLengths
    ensures r.1 == b.(cutType := r.1.cutType, cutLengths := r.1.cutLengths, loaded := r.1.loaded)
  {
    var b1 := b.(cutType := if parity == 0 then "(0-4)" else "(2-6)");
    var name := CutInfoFile(parity, Bucket(op.humidity));
    if name !in op.laserInfo then (Err(FileNotFoundError), b1)
    else
      var (ok, lengths) := SecondFields(op.laserInfo[name]);
      var b2 := b1.(cutLengths := b.cutLengths + lengths);
      if !ok then (Err(IndexError), b2)
      else (Ok(()), b2.(loaded := CutProgram(parity, Bucket(op.humidity))))
  }

  /** `chooseCut`, with `zerofour` or `twosix`; an exception from either leaves step at 1. */
  function AfterChooseCut(b: Bench, op: Operator): (Result<()>, Bench) {
    if b.step != 1 && !op.firstCutDone then (Ok(()), b)
    else
      match ParseInt(PySlice(b.palletNum, 4, |b.palletNum|))
      case None => (Err(ValueError), b.(step := 1))
      case Some(n) =>
        var (r, b1) := AfterCut(b.(step := 1), n % 2, op);
        if r.Err? then (r, b1) else (Ok(()), b1.(step := 2))
  }

  /** `resetGUI` (the prompt for the next pallet is a separate action). */
  function Reset(b: Bench): Bench {
    b.(palletID := "", palletNum := "", cutType := "", cutLengths := [], straws := [], step := 0)
  }

  /** The pallet file's text after `saveData`: a "lasr" line and a "leng" line, each after a newline. */
  function LaserSaved(text: string, lasrTime: string, lengTime: string, straws: seq<string>, workers: seq<string>): string {
    WithStationLine(WithStationLine(text, lasrTime, "lasr", straws, workers), lengTime, "leng", straws, workers)
  }

  /** The straws `saveData` writes: those already held, then those of the file's last row. */
  function SavedStraws(b: Bench): seq<string>
    requires b.palletNum in b.pallets
  {
    b.straws + LastRowStraws(Rows(b.pallets[b.palletNum].text))
  }

  /** `saveData`: nothing unless the second cut is done; the pallet file gains two lines if it exists; then the reset. */
  function AfterSaveData(b: Bench, op: Operator): Bench {
    if b.step != 2 then b
    else if !FileAt(b.pallets, b.palletID, b.palletNum) then Reset(b)
    else
      var text := LaserSaved(b.pallets[b.palletNum].text, op.lasrTime, op.lengTime, SavedStraws(b), b.workers);
      Reset(b.(pallets := b.pallets[b.palletNum := PalletFile(b.palletID, text)]))
  }

  function Perform(action: Action, b: Bench, op: Operator): (Result<()>, Bench) {
    match action
    case Idle => (Ok(()), b)
    case RunFirstCut => (Ok(()), AfterFirstCut(b))
    case RunChooseCut => AfterChooseCut(b, op)
    case RunSaveData => (Ok(()), AfterSaveData(b, op))
  }

  /**
   * Declining the question leaves everything as it was. Otherwise `chooseCut`
   * returns exactly when the pallet number parses and the table of its parity
   * reads; then the parity chooses the cut and the step is 2. An exception
   * leaves the step at 1 and the program unloaded, and only the cut-length
   * list may have grown.
   */
  lemma ChooseCutOutcome(b: Bench, op: Operator)
    ensures var (r, b1) := AfterChooseCut(b, op);
      var parsed := ParseInt(PySlice(b.palletNum, 4, |b.palletNum|));
      (b.step != 1 && !op.firstCutDone ==> r.Ok? && b1 == b) &&
      (b.step == 1 || op.firstCutDone ==>
        (parsed.None? ==> r == Err(ValueError) && b1 == b.(step := 1)) &&
        (parsed.Some? ==> (r.Ok? <==> CutInfoReadable(op, parsed.value % 2))) &&
        (r.Err? ==> b1.step == 1 && b1.loaded == b.loaded && b1.straws == b.straws && b1.pallets == b.pallets) &&
        (r.Ok? ==>
           b1.step == 2 && b1.loaded != FirstProgram && (b1.cutType == "(0-4)" <==> parsed.value % 2 == 0)))
  {
    var parsed := ParseInt(PySlice(b.palletNum, 4, |b.palletNum|));
    if (b.step == 1 || op.firstCutDone) && parsed.Some? {
      var n := parsed.value;
      var (r, b1) := AfterCut(b.(step := 1), n % 2, op);
      if r.Ok? {
        assert b1.loaded == CutProgram(n % 2, Bucket(op.humidity));
        assert b1.loaded[0] == 'C' && b1.loaded[4] == '2';
      }
    }
  }

  /**
   * A pallet number accepted by the corrected check never raises ValueError
   * in `chooseCut`: the last digit's parity chooses the cut, and when that
   * parity's cut-length table reads, the program of the nearest humidity is
   * loaded and the step is 2.
   */
  lemma VerifiedPalletCut(b: Bench, op: Operator)
    requires VerifyPalletNumFixed(b.palletNum) && (b.step == 1 || op.firstCutDone)
    ensures var (r, b1) := AfterChooseCut(b, op);
      var parity := DigitValue(b.palletNum[7]) % 2;
      r != Err(ValueError) &&
      b1.cutType == (if parity == 0 then "(0-4)" else "(2-6)") &&
      (r.Ok? <==> CutInfoReadable(op, parity)) &&
      (r.Ok? ==> b1.step == 2 && b1.loaded == CutProgram(parity, Bucket(op.humidity)))
  {
    FixedPalletParses(b.palletNum);
    assert PySlice(b.palletNum, 4, |b.palletNum|) == b.palletNum[4..];
  }

  /** As written, a pallet number the check accepted can still make `chooseCut` raise ValueError. */
  lemma UnverifiedPalletRaises(b: Bench, op: Operator)
    requires b.palletNum == "CPAL123X" && b.step == 1
    ensures VerifyPalletNum(b.palletNum)
    ensures AfterChooseCut(b, op).0 == Err(ValueError)
  {
    UncheckedLastCharacter();
    assert PySlice(b.palletNum, 4, |b.palletNum|) == "CPAL123X"[4..];
  }

  /**
   * `saveData` on an existing pallet file: the file's history gains the
   * "lasr" record and the "leng" record of the straws, and the station is reset.
   */
  lemma SaveDataHistory(b: Bench, op: Operator)
    requires b.step == 2 && FileAt(b.pallets, b.palletID, b.palletNum)
    requires PlainField(op.lasrTime) && PlainField(op.lengTime)
    requires forall i :: 0 <= i < |SavedStraws(b)| ==> PlainField(SavedStraws(b)[i])
    requires forall i :: 0 <= i < |b.workers| ==> PlainField(b.workers[i])
    ensures var b1 := AfterSaveData(b, op);
      b1.step == 0 && b1.palletNum == "" && b1.straws == [] &&
      b.palletNum in b1.pallets && b1.pallets[b.palletNum].id == b.palletID &&
      History(Rows(b1.pallets[b.palletNum].text)) ==
        History(Rows(b.pallets[b.palletNum].text)) +
        [Record(op.lasrTime, "lasr", MarkedPairs(SavedStraws(b)), WorkerFields(b.workers)),
         Record(op.lengTime, "leng", MarkedPairs(SavedStraws(b)), WorkerFields(b.workers))]
  {
    LaserSavedHistory(b.pallets[b.palletNum].text, op.lasrTime, op.lengTime, SavedStraws(b), b.workers);
  }

  lemma LaserSavedHistory(text: string, lasrTime: string, lengTime: string, straws: seq<string>, workers: seq<string>)
    requires PlainField(lasrTime) && PlainField(lengTime)
    requires forall i :: 0 <= i < |straws| ==> PlainField(straws[i])
    requires forall i :: 0 <= i < |workers| ==> PlainField(workers[i])
    ensures History(Rows(LaserSaved(text, lasrTime, lengTime, straws, workers))) ==
      History(Rows(text)) +
      [Record(lasrTime, "lasr", MarkedPairs(straws), WorkerFields(workers)),
       Record(lengTime, "leng", MarkedPairs(straws), WorkerFields(workers))]
  {
    StepNamesPlain();
    AppendStationLines(text, lasrTime, "lasr", lengTime, "leng", straws, workers);
  }

  /**
   * After `saveData` the genealogy check can no longer answer "not passed" at
   * the laser or the length step for a straw it wrote: the two new lines mark
   * it passed, or the scan raises (earlier lines, or a straw that is also the
   * last field).
   */
  lemma SaveDataPassesStraws(store: CheckStraw.Store, b: Bench, op: Operator, k: nat, step: string, fuel: nat)
    requires b.step == 2 && FileAt(b.pallets, b.palletID, b.palletNum)
    requires PlainField(op.lasrTime) && PlainField(op.lengTime)
    requires forall i :: 0 <= i < |SavedStraws(b)| ==> PlainField(SavedStraws(b)[i])
    requires forall i :: 0 <= i < |b.workers| ==> PlainField(b.workers[i])
    requires k < |SavedStraws(b)| && SavedStraws(b)[k] != "" && fuel > 0
    requires step == "lasr" || step == "leng"
    ensures var b1 := AfterSaveData(b, op);
      b.palletNum in b1.pallets &&
      CheckStraw.StrawVerdict(store[b.palletNum := Rows(b1.pallets[b.palletNum].text)], b.palletNum,
                              SavedStraws(b)[k], step, fuel) != Ok(false)
  {
    var straws := SavedStraws(b);
    var s := straws[k];
    var b1 := AfterSaveData(b, op);
    var store1 := store[b.palletNum := Rows(b1.pallets[b.palletNum].text)];
    var h := History(Rows(b.pallets[b.palletNum].text));
    var la := Record(op.lasrTime, "lasr", MarkedPairs(straws), WorkerFields(b.workers));
    var le := Record(op.lengTime, "leng", MarkedPairs(straws), WorkerFields(b.workers));
    assert b.palletNum in b1.pallets && History(store1[b.palletNum]) == h + [la, le] by {
      SaveDataHistory(b, op);
    }
    CheckStraw.StationRecordMarks(op.lasrTime, "lasr", straws, b.workers, k);
    CheckStraw.StationRecordMarks(op.lengTime, "leng", straws, b.workers, k);
    CheckStraw.TrailingPairPasses(store1, b.palletNum, h, la, le, s, step, fuel);
  }

  // ---------------------------------------------------------------------------
  // The station
  // ---------------------------------------------------------------------------

  class LaserStation {
    var scanEntry: string
    var step: int
    var palletNum: string
    var palletID: string
    var cutType: string
    var cutLengths: seq<string>
    var straws: seq<string>
    var sessionWorkers: seq<string>
    var palletInfoVerified: bool
    var loaded: string
    var pallets: Directory

    function State(): Bench
      reads this
    {
      Bench(step, palletNum, palletID, cutType, cutLengths, straws, sessionWorkers, palletInfoVerified, loaded, pallets)
    }

    constructor (workers: seq<string>, directory: Directory)
      ensures scanEntry == "" && State() == Bench(0, "", "", "", [], [], workers, false, "", directory)
    {
      scanEntry := "";
      step := 0;
      palletNum := "";
      palletID := "";
      cutType := "";
      cutLengths := [];
      straws := [];
      sessionWorkers := workers;
      palletInfoVerified := false;
      loaded := "";
      pallets := directory;
    }

    /** `keyPressEvent`: the buffer follows the recogniser and a completed word starts its action. */
    method KeyPressEvent(key: Key, op: Operator) returns (r: Result<()>)
      modifies this
      ensures scanEntry == NextEntry(old(scanEntry), key)
      ensures (r, State()) == Perform(Triggered(old(scanEntry), key), old(State()), op)
    {
      r := Ok(());
      if key == Letter('F') {
        scanEntry := "F";
      }
      if key == Letter('I') && scanEntry == "F" {
        scanEntry := scanEntry + "I";
      }
      if key == Letter('R') && scanEntry == "FI" {
        scanEntry := scanEntry + "R";
      }
      if key == Letter('S') && scanEntry == "FIR" {
        scanEntry := scanEntry + "S";
      }
      if key == Letter('T') && scanEntry == "FIRS" {
        scanEntry := scanEntry + "T";
      }
      if key == Return && scanEntry == "FIRST" {
        FirstCut();
      }
      if key == Letter('S') && scanEntry != "FIR" && scanEntry != "FIRS" && scanEntry != "FINI" {
        scanEntry := "S";
      }
      if key == Letter('E') && scanEntry == "S" {
        scanEntry := scanEntry + "E";
      }
      if key == Letter('C') && scanEntry == "SE" {
        scanEntry := scanEntry + "C";
      }
      if key == Letter('O') && scanEntry == "SEC" {
        scanEntry := scanEntry + "O";
      }
      if key == Letter('N') && scanEntry == "SECO" {
        scanEntry := scanEntry + "N";
      }
      if key == Letter('D') && scanEntry == "SECON" {
        scanEntry := scanEntry + "D";
      }
      if key == Return && scanEntry == "SECOND" {
        scanEntry := "";
        r := ChooseCut(op);
      }
      if key == Letter('N') && scanEntry == "FI" {
        scanEntry := scanEntry + "N";
      }
      if key == Letter('I') && scanEntry == "FIN" {
        scanEntry := scanEntry + "I";
      }
      if key == Letter('S') && scanEntry == "FINI" {
        scanEntry := scanEntry + "S";
      }
      if key == Letter('H') && scanEntry == "FINIS" {
        scanEntry := scanEntry + "H";
      }
      if key == Return && scanEntry == "FINISH" {
        scanEntry := "";
        SaveData(op);
      }
    }

    /** `getPalletNum`: the accepted pallet number and the CPALID directory holding its file. */
    method GetPalletNum(answers: seq<Answer>)
      modifies this
      ensures scanEntry == old(scanEntry)
      ensures State() == match ScannedPallet(answers)
        case None => old(State())
        case Some(p) => old(State()).(palletNum := p, palletID := if p in pallets then pallets[p].id else old(palletID))
    {
      var i := 0;
      while i < |answers|
        invariant 0 <= i <= |answers|
        invariant ScannedPallet(answers[i..]) == ScannedPallet(answers)
        invariant unchanged(this)
      {
        assert answers[i..][1..] == answers[i + 1..];
        match answers[i]
        case Cancelled =>
          return;
        case Entered(t) =>
          var pallet := Upper(Strip(t));
          if VerifyPalletNumFixed(pallet) {
            palletNum := pallet;
            if pallet in pallets {
              palletID := pallets[pallet].id;
            }
            return;
          }
        i := i + 1;
      }
    }

    /** `interpretEditPallet`: the straws to remove and the verified flag. */
    method InterpretEditPallet(lastTask: string, palletStraws: seq<string>, passfail: seq<string>)
      returns (r: Result<Option<seq<string>>>)
      modifies this
      ensures scanEntry == old(scanEntry)
      ensures (r, State()) == var (v, ok) := PalletReview(lastTask, palletStraws, passfail);
        (v, old(State()).(verified := ok))
    {
      palletInfoVerified := true;
      if lastTask != "leak" {
        palletInfoVerified := false;
        return Ok(None);
      }
      var removeStraws := FailedStraws(palletStraws, passfail);
      if removeStraws.Err? {
        return Err(removeStraws.error);
      }
      if removeStraws.value != [] {
        palletInfoVerified := false;
      }
      r := Ok(Some(removeStraws.value));
    }

    /** `firstCut` */
    method FirstCut()
      modifies this
      ensures scanEntry == old(scanEntry)
      ensures State() == AfterFirstCut(old(State()))
    {
      loaded := FirstProgram;
      step := 1;
    }

    /** `chooseCut` */
    method ChooseCut(op: Operator) returns (r: Result<()>)
      modifies this
      ensures scanEntry == old(scanEntry)
      ensures (r, State()) == AfterChooseCut(old(State()), op)
    {
      if step != 1 {
        if op.firstCutDone {
          step := 1;
        } else {
          return Ok(());
        }
      }
      var parsed := ParseInt(PySlice(palletNum, 4, |palletNum|));
      if parsed.None? {
        return Err(ValueError);
      }
      var parity := parsed.value % 2;
      if parity == 0 {
        r := ZeroFour(op);
        if r.Err? {
          return;
        }
      }
      if parity == 1 {
        r := TwoSix(op);
        if r.Err? {
          return;
        }
      }
      step := 2;
      r := Ok(());
    }

    /** `zerofour` */
    method ZeroFour(op: Operator) returns (r: Result<()>)
      modifies this
      ensures scanEntry == old(scanEntry)
      ensures (r, State()) == AfterCut(old(State()), 0, op)
    {
      cutType := "(0-4)";
      var index := NearestHumidity(op.humidity);
      r := ReadCutLengths(op, 0, index);
      if r.Ok? {
        loaded := CutProgram(0, index);
      }
    }

    /** `twosix` */
    method TwoSix(op: Operator) returns (r: Result<()>)
      modifies this
      ensures scanEntry == old(scanEntry)
      ensures (r, State()) == AfterCut(old(State()), 1, op)
    {
      cutType := "(2-6)";
      var index := NearestHumidity(op.humidity);
      r := ReadCutLengths(op, 1, index);
      if r.Ok? {
        loaded := CutProgram(1, index);
      }
    }

    /** The `with open(...)` block of `zerofour` and `twosix`: every row's second field is appended. */
    method ReadCutLengths(op: Operator, parity: int, index: nat) returns (r: Result<()>)
      requires index < |HumidValues|
      modifies this
      ensures scanEntry == old(scanEntry)
      ensures var name := CutInfoFile(parity, index);
        if name !in op.laserInfo then r == Err(FileNotFoundError) && State() == old(State())
        else
          var (ok, lengths) := SecondFields(op.laserInfo[name]);
          r == (if ok then Ok(()) else Err(IndexError)) &&
          State() == old(State()).(cutLengths := old(cutLengths) + lengths)
    {
      var name := CutInfoFile(parity, index);
      if name !in op.laserInfo {
        return Err(FileNotFoundError);
      }
      var rows := op.laserInfo[name];
      ghost var added: seq<string> := [];
      var i := 0;
      while i < |rows|
        invariant 0 <= i <= |rows|
        invariant |added| == i && cutLengths == old(cutLengths) + added
        invariant forall k :: 0 <= k < i ==> |rows[k]| >= 2 && added[k] == rows[k][1]
        invariant scanEntry == old(scanEntry) && State() == old(State()).(cutLengths := cutLengths)
      {
        if |rows[i]| < 2 {
          SecondFieldsUnique(rows, false, added);
          return Err(IndexError);
        }
        cutLengths := cutLengths + [rows[i][1]];
        added := added + [rows[i][1]];
        i := i + 1;
      }
      SecondFieldsUnique(rows, true, added);
      r := Ok(());
    }

    /** `saveData` */
    method SaveData(op: Operator)
      modifies this
      ensures scanEntry == old(scanEntry)
      ensures State() == AfterSaveData(old(State()), op)
    {
      if step != 2 {
        return;
      }
      if FileAt(pallets, palletID, palletNum) {
        var text := pallets[palletNum].text;
        var extra := ReadLastRowStraws(Rows(text));
        straws := straws + extra;
        var marks := WriteStrawMarks(straws);
        var workers := Join(sessionWorkers, ",");
        var lasr := "lasr";
        var leng := "leng";
        text := text + "\n" + (op.lasrTime + "," + lasr + "," + marks + workers);
        text := text + "\n" + (op.lengTime + "," + leng + "," + marks + workers);
        pallets := pallets[palletNum := PalletFile(palletID, text)];
      }
      ResetGUI();
    }

    /** `resetGUI` */
    method ResetGUI()
      modifies this
      ensures scanEntry == old(scanEntry)
      ensures State() == Reset(old(State()))
    {
      palletID := "";
      palletNum := "";
      cutType := "";
      cutLengths := [];
      straws := [];
      step := 0;
    }
  }
}
