/**
 * Pallet ledgers. Each pallet CPALnnnn has a csv file whose rows are
 * `timestamp, step, straw1, status1, ..., straw24, status24, worker...`.
 * The stations append to the file as text; the genealogy check reads it
 * back through `csv.reader`, keeping the non-empty rows ("the history").
 */
module Ledger {
  import opened Builtins

  /** One csv row of a pallet file. */
  type Line = seq<string>

  /** `csv.reader` on one line of text: an empty line is an empty row. */
  function Row(text: string): Line {
    if text == "" then [] else Split(text, ',')
  }

  function RowsOf(lines: seq<string>): (rows: seq<Line>)
    ensures |rows| == |lines|
    ensures forall i :: 0 <= i < |lines| ==> rows[i] == Row(lines[i])
  {
    seq(|lines|, i requires 0 <= i < |lines| => Row(lines[i]))
  }

  /** The lines of a text; a final newline does not start one more line. */
  function TextLines(text: string): seq<string> {
    var pieces := Split(text, '\n');
    if pieces[|pieces| - 1] == "" then pieces[..|pieces| - 1] else pieces
  }

  /** `list(csv.reader(open(file)))` on a file holding `text`. */
  function Rows(text: string): seq<Line> {
    RowsOf(TextLines(text))
  }

  /** True when the text is empty or already ends with a newline. */
  predicate EndsLine(text: string) {
    text == "" || text[|text| - 1] == '\n'
  }

  /** The non-empty rows, in file order (`if line != []: history.append(line)`). */
  function History(rows: seq<Line>): (h: seq<Line>)
    ensures |h| <= |rows|
    ensures forall i :: 0 <= i < |h| ==> h[i] != []
  {
    if rows == [] then []
    else
      var last := rows[|rows| - 1];
      History(rows[..|rows| - 1]) + (if last == [] then [] else [last])
  }

  /** The history-building loop shared by `strawPass` and `palletPass`. */
  method ReadHistory(rows: seq<Line>) returns (history: seq<Line>)
    ensures history == History(rows)
  {
    history := [];
    var i := 0;
    while i < |rows|
      invariant 0 <= i <= |rows|
      invariant history == History(rows[..i])
    {
      assert rows[..i + 1][..i] == rows[..i];
      if rows[i] != [] {
        history := history + [rows[i]];
      }
      i := i + 1;
    }
    assert rows[..|rows|] == rows;
  }

  lemma {:induction false} HistoryAppend(rows: seq<Line>, extra: seq<Line>)
    ensures History(rows + extra) == History(rows) + History(extra)
  {
    if extra == [] {
      assert rows + extra == rows;
    } else {
      var n := |extra|;
      HistoryAppend(rows, extra[..n - 1]);
      assert (rows + extra)[..|rows + extra| - 1] == rows + extra[..n - 1];
      assert (rows + extra)[|rows + extra| - 1] == extra[n - 1];
    }
  }

  /** Every empty row is dropped from the history and every other row kept. */
  lemma {:induction false} HistoryMembers(rows: seq<Line>, r: Line)
    ensures r in History(rows) <==> r in rows && r != []
  {
    if rows != [] {
      HistoryMembers(rows[..|rows| - 1], r);
      assert rows == rows[..|rows| - 1] + [rows[|rows| - 1]];
    }
  }

  // ---------------------------------------------------------------------------
  // How appending text changes the rows
  // ---------------------------------------------------------------------------

  lemma RowsOfAppend(a: seq<string>, b: seq<string>)
    ensures RowsOf(a + b) == RowsOf(a) + RowsOf(b)
  {
  }

  /**
   * Appending a newline ends the last line; if the text already ended one
   * (or was empty), the newline is a blank line and csv reads an empty row.
   */
  lemma NewlineRows(text: string)
    ensures Rows(text + "\n") == Rows(text) + (if EndsLine(text) then [[]] else [])
  {
    SplitLastEmpty(text + "\n", '\n');
    assert (text + "\n")[..|text + "\n"| - 1] == text;
    var p := Split(text, '\n');
    assert TextLines(text + "\n") == p;
    if text == "" {
      assert p == [""];
    } else if text[|text| - 1] == '\n' {
      SplitLastEmpty(text, '\n');
      assert TextLines(text) == p[..|p| - 1];
      assert p == p[..|p| - 1] + [""];
      RowsOfAppend(p[..|p| - 1], [""]);
    } else {
      SplitLastNonEmpty(text, '\n');
    }
  }

  /** `file.write("\n" + line)` adds exactly the row of `line` after `text + "\n"`. */
  lemma AppendLineRows(text: string, line: string)
    requires line != [] && '\n' !in line
    ensures Rows(text + "\n" + line) == Rows(text + "\n") + [Row(line)]
  {
    SplitConcat(text, line, '\n');
    SplitNoSep(line, '\n');
    SplitConcat(text, "", '\n');
    assert text + "\n" + "" == text + "\n";
    var p := Split(text, '\n');
    assert TextLines(text + "\n" + line) == p + [line];
    assert TextLines(text + "\n") == p;
    RowsOfAppend(p, [line]);
  }

  /** Writing a line and its newline after a finished line adds exactly that line's row. */
  lemma AppendTerminatedLine(text: string, line: string)
    requires text != "" && text[|text| - 1] == '\n'
    requires line != [] && '\n' !in line
    ensures EndsLine(text + (line + "\n"))
    ensures Rows(text + (line + "\n")) == Rows(text) + [Row(line)]
  {
    var t0 := text[..|text| - 1];
    assert text == t0 + "\n";
    var x := t0 + "\n" + line;
    assert text + (line + "\n") == x + "\n";
    assert !EndsLine(x) by {
      LastOfAppend(t0 + "\n", line);
      assert line[|line| - 1] in line;
    }
    assert Rows(x) == Rows(text) + [Row(line)] by {
      AppendLineRows(t0, line);
    }
    assert Rows(x + "\n") == Rows(x) by {
      NewlineRows(x);
    }
  }

  lemma LastOfAppend(a: string, b: string)
    requires b != []
    ensures (a + b)[|a + b| - 1] == b[|b| - 1]
  {
  }

  // ---------------------------------------------------------------------------
  // Record layouts
  // ---------------------------------------------------------------------------

  /** Each straw followed by "P" (the consolidation script's `",P,".join(...) + ",P,"`). */
  function PassedPairs(straws: seq<string>): (fields: seq<string>)
    ensures |fields| == 2 * |straws|
    ensures forall k :: 0 <= k < |straws| ==> fields[2 * k] == straws[k] && fields[2 * k + 1] == "P"
  {
    if straws == [] then [] else [straws[0], "P"] + PassedPairs(straws[1..])
  }

  /** Each straw followed by "P", or by an empty status for an empty slot (the stations). */
  function MarkedPairs(straws: seq<string>): (fields: seq<string>)
    ensures |fields| == 2 * |straws|
    ensures forall k :: 0 <= k < |straws| ==>
      fields[2 * k] == straws[k] && fields[2 * k + 1] == (if straws[k] != "" then "P" else "")
  {
    if straws == [] then [] else [straws[0], if straws[0] != "" then "P" else ""] + MarkedPairs(straws[1..])
  }

  /** The fields `",".join(workers)` leaves after the last comma: one empty field when nobody is logged in. */
  function WorkerFields(workers: seq<string>): seq<string> {
    if workers == [] then [""] else workers
  }

  /** A ledger record: timestamp, step, the straw/status pairs, the workers. */
  function Record(date: string, step: string, pairs: seq<string>, workers: seq<string>): Line {
    [date, step] + pairs + workers
  }

  /** A field that survives a round trip through a csv line: no comma, no line break, no quote character. */
  predicate PlainField(s: string) { ',' !in s && '\n' !in s && '\r' !in s && '"' !in s }

  /** The step names the stations write are plain fields. */
  lemma StepNamesPlain()
    ensures PlainField("lasr") && PlainField("leng")
  {
    var a, b := "lasr", "leng";
    forall i | 0 <= i < 4
      ensures a[i] != ',' && a[i] != '\n' && b[i] != ',' && b[i] != '\n'
    {
    }
  }

  lemma {:induction false} PlainJoin(parts: seq<string>)
    requires forall i :: 0 <= i < |parts| ==> '\n' !in parts[i]
    ensures '\n' !in Join(parts, ",")
  {
    if |parts| > 1 {
      PlainJoin(parts[1..]);
      assert '\n' !in parts[0] + ",";
    }
  }

  lemma PlainRecord(date: string, step: string, pairs: seq<string>, workers: seq<string>)
    requires PlainField(date) && PlainField(step)
    requires forall i :: 0 <= i < |pairs| ==> PlainField(pairs[i])
    requires forall i :: 0 <= i < |workers| ==> PlainField(workers[i])
    ensures forall i :: 0 <= i < |Record(date, step, pairs, workers)| ==> PlainField(Record(date, step, pairs, workers)[i])
  {
    var fields := Record(date, step, pairs, workers);
    forall i | 0 <= i < |fields|
      ensures PlainField(fields[i])
    {
      if i < 2 {
        assert fields[i] == [date, step][i];
      } else if i < 2 + |pairs| {
        assert fields[i] == pairs[i - 2];
      } else {
        assert fields[i] == workers[i - 2 - |pairs|];
      }
    }
  }

  /** A record whose fields are plain is read back from its comma-join, and the line is one line. */
  lemma RecordRoundTrip(fields: Line)
    requires |fields| >= 2
    requires forall i :: 0 <= i < |fields| ==> PlainField(fields[i])
    ensures Join(fields, ",") != "" && '\n' !in Join(fields, ",") && Row(Join(fields, ",")) == fields
  {
    SplitJoin(fields, ',');
    PlainJoin(fields);
  }

  // ---------------------------------------------------------------------------
  // The line a station appends (laser and CO2 stations)
  // ---------------------------------------------------------------------------

  /** The status a station writes after a straw: "P" for a straw, nothing for an empty slot. */
  function Mark(straw: string): string {
    if straw != "" then "P" else ""
  }

  /** What the station's straw loop writes: each straw, a comma, its mark, a comma. */
  function StrawMarks(straws: seq<string>): string {
    if straws == [] then ""
    else
      var last := straws[|straws| - 1];
      StrawMarks(straws[..|straws| - 1]) + (last + "," + Mark(last) + ",")
  }

  /** A station line: the timestamp, the step, the straw marks, then the workers as written. */
  function StationLine(date: string, step: string, straws: seq<string>, workers: string): string {
    date + "," + step + "," + StrawMarks(straws) + workers
  }

  lemma MarkedPairsSnoc(straws: seq<string>, x: string)
    ensures MarkedPairs(straws + [x]) == MarkedPairs(straws) + [x, Mark(x)]
  {
    var a := MarkedPairs(straws + [x]);
    var b := MarkedPairs(straws) + [x, Mark(x)];
    assert |a| == |b|;
    forall i | 0 <= i < |a|
      ensures a[i] == b[i]
    {
      var k := i / 2;
      assert i == 2 * k || i == 2 * k + 1;
      assert (straws + [x])[k] == if k < |straws| then straws[k] else x;
    }
  }

  /** The straw marks followed by the joined workers are the comma-join of the pairs and the workers. */
  lemma {:induction false} MarksJoin(straws: seq<string>, ws: seq<string>)
    requires |ws| >= 1
    ensures StrawMarks(straws) + Join(ws, ",") == Join(MarkedPairs(straws) + ws, ",")
  {
    if straws == [] {
      assert MarkedPairs(straws) + ws == ws;
    } else {
      var rest := straws[..|straws| - 1];
      var x := straws[|straws| - 1];
      var c := ",";
      var piece := [x, Mark(x)];
      MarksJoin(rest, piece + ws);
      JoinAppend(piece, ws, c);
      assert piece[1..] == [Mark(x)];
      assert Join(piece, c) == x + c + Mark(x);
      assert rest + [x] == straws;
      MarkedPairsSnoc(rest, x);
      AppendAssoc(MarkedPairs(rest), piece, ws);
      AppendAssoc(StrawMarks(rest), x + c + Mark(x) + c, Join(ws, c));
    }
  }

  /** A station line is the comma-join of its record's fields (one empty field when nobody is logged in). */
  lemma StationLineFields(date: string, step: string, straws: seq<string>, workers: seq<string>)
    ensures StationLine(date, step, straws, Join(workers, ",")) ==
      Join(Record(date, step, MarkedPairs(straws), WorkerFields(workers)), ",")
  {
    var ws := WorkerFields(workers);
    var c := ",";
    assert Join(ws, c) == Join(workers, c);
    MarksJoin(straws, ws);
    var tail := MarkedPairs(straws) + ws;
    JoinAppend([date, step], tail, c);
    assert [date, step][1..] == [step];
    assert Join([date, step], c) == date + c + step;
    AppendAssoc([date, step], MarkedPairs(straws), ws);
    AppendAssoc(date + c + step + c, StrawMarks(straws), Join(ws, c));
  }

  /** Its csv row is the record, field by field, and the line is a single non-empty line. */
  lemma StationLineRow(date: string, step: string, straws: seq<string>, workers: seq<string>)
    requires PlainField(date) && PlainField(step)
    requires forall i :: 0 <= i < |straws| ==> PlainField(straws[i])
    requires forall i :: 0 <= i < |workers| ==> PlainField(workers[i])
    ensures var line := StationLine(date, step, straws, Join(workers, ","));
      line != "" && '\n' !in line &&
      Row(line) == Record(date, step, MarkedPairs(straws), WorkerFields(workers))
  {
    var pairs := MarkedPairs(straws);
    var ws := WorkerFields(workers);
    StationLineFields(date, step, straws, workers);
    PlainMarkedPairs(straws);
    assert forall i :: 0 <= i < |ws| ==> PlainField(ws[i]);
    PlainRecord(date, step, pairs, ws);
    RecordRoundTrip(Record(date, step, pairs, ws));
  }

  lemma {:induction false} PlainMarkedPairs(straws: seq<string>)
    requires forall i :: 0 <= i < |straws| ==> PlainField(straws[i])
    ensures forall i :: 0 <= i < |MarkedPairs(straws)| ==> PlainField(MarkedPairs(straws)[i])
  {
    if straws != [] {
      PlainMarkedPairs(straws[1..]);
      assert MarkedPairs(straws) == [straws[0], Mark(straws[0])] + MarkedPairs(straws[1..]);
    }
  }

  /**
   * `write("\n" + line)` on a file: a blank row first if the file already
   * ended its last line, then the row of the line.
   */
  lemma NewlineLineRows(text: string, line: string)
    requires line != [] && '\n' !in line
    ensures Rows(text + "\n" + line) == Rows(text) + (if EndsLine(text) then [[]] else []) + [Row(line)]
    ensures !EndsLine(text + "\n" + line)
  {
    AppendLineRows(text, line);
    NewlineRows(text);
    LastOfAppend(text + "\n", line);
    assert line[|line| - 1] in line;
  }

  /** The text after a station writes a newline and then its line. */
  function WithStationLine(text: string, date: string, step: string, straws: seq<string>, workers: seq<string>): string {
    text + "\n" + StationLine(date, step, straws, Join(workers, ","))
  }

  /** Writing a station line adds its record to the history, and the text no longer ends its last line. */
  lemma AppendStationLine(text: string, date: string, step: string, straws: seq<string>, workers: seq<string>)
    requires PlainField(date) && PlainField(step)
    requires forall i :: 0 <= i < |straws| ==> PlainField(straws[i])
    requires forall i :: 0 <= i < |workers| ==> PlainField(workers[i])
    ensures !EndsLine(WithStationLine(text, date, step, straws, workers))
    ensures History(Rows(WithStationLine(text, date, step, straws, workers))) ==
      History(Rows(text)) + [Record(date, step, MarkedPairs(straws), WorkerFields(workers))]
  {
    var line := StationLine(date, step, straws, Join(workers, ","));
    var r := Record(date, step, MarkedPairs(straws), WorkerFields(workers));
    var blank: seq<Line> := if EndsLine(text) then [[]] else [];
    var t := WithStationLine(text, date, step, straws, workers);
    assert t == text + "\n" + line;
    assert Rows(t) == Rows(text) + blank + [r] && !EndsLine(t) by {
      StationLineRow(date, step, straws, workers);
      NewlineLineRows(text, line);
    }
    HistoryBlankThenRow(Rows(text), blank, r);
  }

  /** Two non-empty rows appended are the two rows the history gains. */
  lemma HistoryTwoRows(rows: seq<Line>, a: Line, b: Line)
    requires a != [] && b != []
    ensures History(rows + [a, b]) == History(rows) + [a, b]
  {
    HistoryAppend(rows, [a, b]);
    assert History([a, b]) == [a, b] by {
      assert [a, b][..1] == [a];
    }
  }

  /** A row after an optional blank row is the one row the history gains. */
  lemma HistoryBlankThenRow(rows: seq<Line>, blank: seq<Line>, r: Line)
    requires blank == [] || blank == [[]]
    requires r != []
    ensures History(rows + blank + [r]) == History(rows) + [r]
  {
    AppendAssoc(rows, blank, [r]);
    HistoryAppend(rows, blank + [r]);
    assert History(blank + [r]) == [r] by {
      assert (blank + [r])[..|blank|] == blank;
    }
  }

  /** Two station lines written one after the other add their two records. */
  lemma AppendStationLines(text: string, date1: string, step1: string, date2: string, step2: string,
                           straws: seq<string>, workers: seq<string>)
    requires PlainField(date1) && PlainField(step1) && PlainField(date2) && PlainField(step2)
    requires forall i :: 0 <= i < |straws| ==> PlainField(straws[i])
    requires forall i :: 0 <= i < |workers| ==> PlainField(workers[i])
    ensures History(Rows(WithStationLine(WithStationLine(text, date1, step1, straws, workers), date2, step2, straws, workers))) ==
      History(Rows(text)) +
      [Record(date1, step1, MarkedPairs(straws), WorkerFields(workers)),
       Record(date2, step2, MarkedPairs(straws), WorkerFields(workers))]
  {
    var t1 := WithStationLine(text, date1, step1, straws, workers);
    var r1 := Record(date1, step1, MarkedPairs(straws), WorkerFields(workers));
    var r2 := Record(date2, step2, MarkedPairs(straws), WorkerFields(workers));
    var t2 := WithStationLine(t1, date2, step2, straws, workers);
    var h := History(Rows(text));
    var h1 := History(Rows(t1));
    assert h1 == h + [r1] by {
      AppendStationLine(text, date1, step1, straws, workers);
    }
    assert History(Rows(t2)) == h1 + [r2] by {
      AppendStationLine(t1, date2, step2, straws, workers);
    }
    SnocTwice(h, r1, r2);
  }

  /** A pallet file as a station sees it: the CPALID directory holding it and its text. */
  datatype PalletFile = PalletFile(id: string, text: string)

  /** The pallet directory: pallet name (CPALnnnn) to its file. */
  type Directory = map<string, PalletFile>

  /** What `csv.reader` gives for each pallet file of the directory. */
  function Contents(pallets: Directory): map<string, seq<Line>> {
    map p | p in pallets :: Rows(pallets[p].text)
  }

  /** `palletDirectory / palletID / (palletNum + ".csv")` is a file. */
  predicate FileAt(pallets: Directory, palletID: string, palletNum: string) {
    palletNum in pallets && pallets[palletNum].id == palletID
  }

  /** The station's straw loop, writing each straw, a comma, its mark and a comma. */
  method WriteStrawMarks(straws: seq<string>) returns (marks: string)
    ensures marks == StrawMarks(straws)
  {
    marks := "";
    var i := 0;
    while i < |straws|
      invariant 0 <= i <= |straws|
      invariant marks == StrawMarks(straws[..i])
    {
      assert straws[..i + 1][..i] == straws[..i];
      var status := if straws[i] != "" then "P" else "";
      marks := marks + (straws[i] + "," + status + ",");
      i := i + 1;
    }
    assert straws[..i] == straws;
  }

  // ---------------------------------------------------------------------------
  // Reading the straws of the last row (identical in the laser and CO2 stations)
  // ---------------------------------------------------------------------------

  /** How many of the fields 2, 4, ..., 48 lie below index e. */
  function EvenSlotsBelow(e: nat): (n: nat)
    ensures 2 * n < e || n == 0
  {
    if e <= 2 then 0 else if (e - 1) / 2 < 24 then (e - 1) / 2 else 24
  }

  /**
   * Fields 2, 4, ..., 48 of a row, as far as the row reaches: its straw slots.
   * Every field the source's test `1 < entry < 50 and entry % 2 == 0` selects
   * is kept, at position entry / 2 - 1, and nothing else is.
   */
  function SlotStraws(row: Line): (straws: seq<string>)
    ensures |straws| <= 24
    ensures forall e :: 1 < e < 50 && e % 2 == 0 && e < |row| ==> e / 2 - 1 < |straws| && straws[e / 2 - 1] == row[e]
    ensures forall k :: 0 <= k < |straws| ==> 2 + 2 * k < |row| && 2 + 2 * k < 50
  {
    seq(EvenSlotsBelow(|row|), k requires 0 <= k < EvenSlotsBelow(|row|) => row[2 + 2 * k])
  }

  /** The loop `for entry in range(len(row)): if 1 < entry < 50 and entry % 2 == 0: append`. */
  method ReadSlotStraws(row: Line) returns (straws: seq<string>)
    ensures straws == SlotStraws(row)
    ensures |row| >= 50 ==> |straws| == 24
  {
    straws := [];
    var entry := 0;
    while entry < |row|
      invariant 0 <= entry <= |row|
      invariant |straws| == EvenSlotsBelow(entry)
      invariant forall k :: 0 <= k < |straws| ==> straws[k] == row[2 + 2 * k]
    {
      if entry > 1 && entry < 50 {
        if entry % 2 == 0 {
          straws := straws + [row[entry]];
        }
      }
      entry := entry + 1;
    }
  }

  /** The straws of the last row read by `csv.reader` (which may be an empty row), none for an empty file. */
  function LastRowStraws(rows: seq<Line>): (straws: seq<string>)
    ensures |straws| <= 24
  {
    if rows == [] then [] else SlotStraws(rows[|rows| - 1])
  }

  /** The `for row in range(len(pallet)): if row == len(pallet) - 1: ...` loop. */
  method ReadLastRowStraws(rows: seq<Line>) returns (straws: seq<string>)
    ensures straws == LastRowStraws(rows)
  {
    straws := [];
    var row := 0;
    while row < |rows|
      invariant 0 <= row <= |rows|
      invariant straws == if row == |rows| && row > 0 then SlotStraws(rows[row - 1]) else []
    {
      if row == |rows| - 1 {
        straws := ReadSlotStraws(rows[row]);
      }
      row := row + 1;
    }
  }

  // ---------------------------------------------------------------------------
  // Pallet number format (`verifyPalletNum` in the laser station,
  // `verifyPalletNumber` in the CO2 station: the same code)
  // ---------------------------------------------------------------------------

  predicate VerifyPalletNum(palletNum: string) {
    var verify := if |palletNum| == 8 then IsNumeric(palletNum[4..7]) else false;
    if !StartsWith(Upper(palletNum), "CPAL") then false else verify
  }

  /** The check is: eight characters, "CPAL" in any case, digits at 4, 5 and 6; character 7 is never looked at. */
  lemma PalletNumFormat(palletNum: string, c: char)
    ensures VerifyPalletNum(palletNum) <==>
      |palletNum| == 8 && Upper(palletNum[..4]) == "CPAL" &&
      IsDigit(palletNum[4]) && IsDigit(palletNum[5]) && IsDigit(palletNum[6])
    ensures |palletNum| == 8 ==> (VerifyPalletNum(palletNum) <==> VerifyPalletNum(palletNum[..7] + [c]))
  {
    if |palletNum| == 8 {
      assert Upper(palletNum)[..4] == Upper(palletNum[..4]);
      var q := palletNum[..7] + [c];
      assert Upper(q)[..4] == Upper(palletNum[..4]);
      assert q[4..7] == palletNum[4..7];
    }
  }

  /**
   * The pallet-number check with the fourth digit included: eight characters,
   * "CPAL" in any case, then four digits.
   */
  predicate VerifyPalletNumFixed(palletNum: string) {
    |palletNum| == 8 && IsNumeric(palletNum[4..8]) && StartsWith(Upper(palletNum), "CPAL")
  }

  /** The check as written accepts a number whose last character is not a digit, and `int()` rejects its tail. */
  lemma UncheckedLastCharacter()
    ensures VerifyPalletNum("CPAL123X")
    ensures ParseInt("CPAL123X"[4..]) == None
  {
    assert "CPAL123X"[4..7] == "123";
    assert Upper("CPAL123X")[..4] == "CPAL";
    var t := "123X";
    assert "CPAL123X"[4..] == t;
    assert StripLeft(t) == t;
    assert StripRight(t) == t;
    assert !IsDigit(t[3]);
  }

  /** With the corrected check the tail always parses, and its parity is that of the last digit. */
  lemma FixedPalletParses(palletNum: string)
    requires VerifyPalletNumFixed(palletNum)
    ensures VerifyPalletNum(palletNum)
    ensures ParseInt(palletNum[4..]) == Some(DigitsValue(palletNum[4..]))
    ensures DigitsValue(palletNum[4..]) % 2 == DigitValue(palletNum[7]) % 2
  {
    var tail := palletNum[4..];
    assert tail == palletNum[4..8];
    assert palletNum[4..7] == tail[..3];
    StripDigits(tail);
    assert !(tail[0] == '+' || tail[0] == '-') by {
      assert IsDigit(tail[0]);
    }
    var prefix := tail[..3];
    assert DigitsValue(tail) == DigitsValue(prefix) * 10 + DigitValue(tail[3]);
  }
}
