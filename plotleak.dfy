/**
 * The leak-rate plotting script for panels: parsing the elapsed-time column
 * of a leak data file into days, the panel name in a data file's name, the
 * default start of the fit, and the window of readings the fit uses.
 * Floating-point numbers are modelled as reals.
 */
module PlotLeak {
  import opened Builtins

  // ---------------------------------------------------------------------------
  // Default fit start
  // ---------------------------------------------------------------------------

  /** Default relative time, in days, after which the fit begins. */
  const FitStartDefault: real := 0.2

  /**
   * The fit start when the user gives none: 0 for a test shorter than
   * 0.3 days, 0.2 for one shorter than 2 days, a tenth of the duration after that.
   */
  function GetFitStartTime(total: real): (t0: real) {
    if total < FitStartDefault + 0.1 then 0.0
    else if total * 0.1 < FitStartDefault then FitStartDefault
    else total * 0.1
  }

  /** The three regimes of the default, with the second threshold written as a duration. */
  lemma FitStartRegimes(total: real)
    ensures total < 0.3 ==> GetFitStartTime(total) == 0.0
    ensures 0.3 <= total < 2.0 ==> GetFitStartTime(total) == 0.2
    ensures 2.0 <= total ==> GetFitStartTime(total) == total / 10.0
  {
  }

  /**
   * The default start never lies before the beginning of the test, and for
   * a test of at least 0.3 days it lies strictly before its end.
   */
  lemma FitStartWithinTest(total: real)
    ensures 0.0 <= GetFitStartTime(total)
    ensures 0.3 <= total ==> GetFitStartTime(total) < total
  {
  }

  /** A longer test never starts its fit earlier. */
  lemma FitStartMonotone(a: real, b: real)
    requires a <= b
    ensures GetFitStartTime(a) <= GetFitStartTime(b)
  {
  }

  // ---------------------------------------------------------------------------
  // Elapsed time
  // ---------------------------------------------------------------------------

  const SecondsPerDay: int := 86400

  /** The total seconds of a `timedelta(days, hours, minutes, seconds)`. */
  function TotalSeconds(days: int, hours: int, minutes: int, seconds: int): int {
    days * SecondsPerDay + hours * 3600 + minutes * 60 + seconds
  }

  /** The largest number of days a timedelta can hold. */
  const MaxDeltaDays: int := 999999999

  /**
   * `get_time`: "D.HH:MM:SS" (or "HH:MM:SS" for less than a day) as
   * elapsed days. Unpacking the wrong number of pieces, or a piece that
   * int() refuses, raises ValueError; a timedelta whose day count (after
   * normalisation, rounded down) leaves +-999999999 raises OverflowError.
   */
  function GetTime(s: string): (r: Result<real>)
    ensures r.Err? ==> r.error == ValueError || r.error == OverflowError
  {
    var pieces := if '.' in s then Split(s, '.') else ["0", s];
    if |pieces| != 2 then Err(ValueError)
    else
      match ParseInt(pieces[0])
      case None => Err(ValueError)
      case Some(d) =>
        var fields := Split(pieces[1], ':');
        if |fields| != 3 then Err(ValueError)
        else
          match (ParseInt(fields[0]), ParseInt(fields[1]), ParseInt(fields[2]))
          case (Some(h), Some(m), Some(sec)) =>
            var total := TotalSeconds(d, h, m, sec);
            if total / SecondsPerDay < -MaxDeltaDays || MaxDeltaDays < total / SecondsPerDay then
              Err(OverflowError)
            else
              Ok(total as real / SecondsPerDay as real)
          case _ => Err(ValueError)
  }

  /**
   * "HH:MM:SS", the form the data file writes for less than a day: three
   * runs of digits, zero-padded or not ("00:05:30" as well as "0:5:30").
   */
  function Clock(hs: string, ms: string, ss: string): string {
    hs + ":" + ms + ":" + ss
  }

  /** Digits hold no separator. */
  lemma DigitsNoSeparators(s: string)
    requires AllDigits(s)
    ensures '.' !in s && ':' !in s
  {
    forall i | 0 <= i < |s|
      ensures s[i] != '.' && s[i] != ':'
    {
      assert IsDigit(s[i]);
    }
  }

  /** A clock of digit fields holds no "." and splits back into its three fields. */
  lemma ClockFields(hs: string, ms: string, ss: string)
    requires IsNumeric(hs) && IsNumeric(ms) && IsNumeric(ss)
    ensures '.' !in Clock(hs, ms, ss)
    ensures Split(Clock(hs, ms, ss), ':') == [hs, ms, ss]
  {
    var parts := [hs, ms, ss];
    DigitsNoSeparators(hs);
    DigitsNoSeparators(ms);
    DigitsNoSeparators(ss);
    assert Join(parts, ":") == Clock(hs, ms, ss) by {
      assert Join(parts[2..], ":") == parts[2];
      assert Join(parts[1..], ":") == parts[1] + ":" + parts[2];
    }
    SplitJoin(parts, ':');
    assert '.' !in ":";
  }

  /** The three clock fields int() back to the numbers their digits denote. */
  lemma ClockParses(hs: string, ms: string, ss: string)
    requires IsNumeric(hs) && IsNumeric(ms) && IsNumeric(ss)
    ensures var f := Split(Clock(hs, ms, ss), ':');
      |f| == 3 && ParseInt(f[0]) == Some(DigitsValue(hs))
      && ParseInt(f[1]) == Some(DigitsValue(ms)) && ParseInt(f[2]) == Some(DigitsValue(ss))
  {
    ClockFields(hs, ms, ss);
    ParseIntDigits(hs);
    ParseIntDigits(ms);
    ParseIntDigits(ss);
  }

  /** Less than a day: "HH:MM:SS" is (3600 H + 60 M + S) / 86400 days. */
  lemma GetTimeClock(hs: string, ms: string, ss: string)
    requires IsNumeric(hs) && IsNumeric(ms) && IsNumeric(ss)
    requires TotalSeconds(0, DigitsValue(hs), DigitsValue(ms), DigitsValue(ss)) < MaxDeltaDays * SecondsPerDay
    ensures GetTime(Clock(hs, ms, ss))
      == Ok(TotalSeconds(0, DigitsValue(hs), DigitsValue(ms), DigitsValue(ss)) as real / 86400.0)
  {
    var c := Clock(hs, ms, ss);
    assert '.' !in c by {
      ClockFields(hs, ms, ss);
    }
    assert ParseInt("0") == Some(0) by {
      ParseIntDigits("0");
    }
    ClockParses(hs, ms, ss);
    GetTimeOfPieces(c, "0", c, 0, DigitsValue(hs), DigitsValue(ms), DigitsValue(ss));
  }

  /** More than a day: "D.HH:MM:SS" is (86400 D + 3600 H + 60 M + S) / 86400 days. */
  lemma GetTimeDays(ds: string, hs: string, ms: string, ss: string)
    requires IsNumeric(ds) && IsNumeric(hs) && IsNumeric(ms) && IsNumeric(ss)
    requires TotalSeconds(DigitsValue(ds), DigitsValue(hs), DigitsValue(ms), DigitsValue(ss))
      < MaxDeltaDays * SecondsPerDay
    ensures GetTime(ds + "." + Clock(hs, ms, ss))
      == Ok(TotalSeconds(DigitsValue(ds), DigitsValue(hs), DigitsValue(ms), DigitsValue(ss)) as real / 86400.0)
  {
    var c := Clock(hs, ms, ss);
    var s := ds + "." + c;
    assert '.' in s && Split(s, '.') == [ds, c] by {
      ClockFields(hs, ms, ss);
      DayPieces(ds, c);
    }
    assert ParseInt(ds) == Some(DigitsValue(ds)) by {
      ParseIntDigits(ds);
    }
    ClockParses(hs, ms, ss);
    assert (if '.' in s then Split(s, '.') else ["0", s]) == [ds, c];
    GetTimeOfPieces(s, ds, c, DigitsValue(ds), DigitsValue(hs), DigitsValue(ms), DigitsValue(ss));
  }

  /** `get_time` once the day piece and the three clock fields are known to parse. */
  lemma GetTimeOfPieces(s: string, p: string, c: string, d: int, h: int, m: int, sec: int)
    requires (if '.' in s then Split(s, '.') else ["0", s]) == [p, c] && ParseInt(p) == Some(d)
    requires var f := Split(c, ':');
      |f| == 3 && ParseInt(f[0]) == Some(h) && ParseInt(f[1]) == Some(m) && ParseInt(f[2]) == Some(sec)
    requires 0 <= TotalSeconds(d, h, m, sec) < MaxDeltaDays * SecondsPerDay
    ensures GetTime(s) == Ok(TotalSeconds(d, h, m, sec) as real / 86400.0)
  {
  }

  /** "D.<clock>" splits at its one "." into the day digits and the clock. */
  lemma DayPieces(ds: string, c: string)
    requires IsNumeric(ds) && '.' !in c
    ensures '.' in ds + "." + c && Split(ds + "." + c, '.') == [ds, c]
  {
    var s := ds + "." + c;
    DigitsNoSeparators(ds);
    assert s[|ds|] == '.';
    SplitConcat(ds, c, '.');
    SplitNoSep(ds, '.');
    SplitNoSep(c, '.');
  }

  /** A zero-padded reading as the data file writes it: five and a half minutes. */
  lemma PaddedClockExample()
    ensures GetTime("00:05:30") == Ok(330.0 / 86400.0)
  {
    assert "00:05:30" == Clock("00", "05", "30");
    assert IsNumeric("00") && IsNumeric("05") && IsNumeric("30");
    assert DigitsValue("05") == 5 by { assert "05"[..1] == "0"; }
    assert DigitsValue("30") == 30 by { assert "30"[..1] == "3"; }
    assert DigitsValue("00") == 0 by { assert "00"[..1] == "0"; }
    assert TotalSeconds(0, 0, 5, 30) == 330;
    GetTimeClock("00", "05", "30");
  }

  /** Two day separators are one piece too many to unpack. */
  lemma GetTimeTwoDots(a: string, b: string, c: string)
    ensures GetTime(a + "." + b + "." + c) == Err(ValueError)
  {
    var s := a + "." + b + "." + c;
    assert s[|a|] == '.';
    assert s == a + ['.'] + (b + ['.'] + c);
    SplitConcat(a, b + ['.'] + c, '.');
    SplitConcat(b, c, '.');
  }

  /** "H:M" has one field too few to unpack into hours, minutes and seconds. */
  lemma GetTimeTwoFields(a: string, b: string)
    requires '.' !in a && '.' !in b && ':' !in a && ':' !in b
    ensures GetTime(a + ":" + b) == Err(ValueError)
  {
    var s := a + ":" + b;
    forall i | 0 <= i < |s|
      ensures s[i] != '.'
    {
      if i < |a| {
        assert s[i] == a[i];
      } else if i > |a| {
        assert s[i] == b[i - |a| - 1];
      }
    }
    SplitConcat(a, b, ':');
    SplitNoSep(a, ':');
    SplitNoSep(b, ':');
  }

  // ---------------------------------------------------------------------------
  // Panel name
  // ---------------------------------------------------------------------------

  /** The pattern `MN\d\d\d` matches at position i. */
  predicate PanelAt(s: string, i: int) {
    0 <= i && i + 5 <= |s| && s[i] == 'M' && s[i + 1] == 'N'
    && IsDigit(s[i + 2]) && IsDigit(s[i + 3]) && IsDigit(s[i + 4])
  }

  /** The leftmost match at or after position i, as `re.search` finds it. */
  function FindPanel(s: string, i: nat): (r: Option<nat>)
    decreases |s| - i
    ensures r.Some? ==> i <= r.value && PanelAt(s, r.value)
    ensures r.Some? ==> forall k :: i <= k < r.value ==> !PanelAt(s, k)
    ensures r.None? ==> forall k :: i <= k ==> !PanelAt(s, k)
  {
    if |s| < i + 5 then None
    else if PanelAt(s, i) then Some(i)
    else FindPanel(s, i + 1)
  }

  /**
   * `re.search(r"MN\d\d\d", filename).group(0)`: the first panel name in
   * the file name; with no match `.group` is called on None and raises
   * AttributeError.
   */
  function GetPanelID(filename: string): (r: Result<string>)
    ensures r.Ok? <==> exists k :: PanelAt(filename, k)
    ensures r.Err? ==> r.error == AttributeError
    ensures r.Ok? ==> |r.value| == 5 && r.value[..2] == "MN"
    ensures r.Ok? ==> exists j :: PanelAt(filename, j) && (forall k :: 0 <= k < j ==> !PanelAt(filename, k))
                                  && r.value == filename[j..j + 5]
  {
    match FindPanel(filename, 0)
    case Some(j) => Ok(filename[j..j + 5])
    case None => Err(AttributeError)
  }

  /** A file name "<prefix>MN<ddd><rest>" whose prefix holds no 'M' names panel MN<ddd>. */
  lemma PanelAfterPrefix(prefix: string, digits: string, rest: string)
    requires 'M' !in prefix
    requires |digits| == 3 && AllDigits(digits)
    ensures GetPanelID(prefix + "MN" + digits + rest) == Ok("MN" + digits)
  {
    var s := prefix + "MN" + digits + rest;
    var p := |prefix|;
    assert PanelAt(s, p);
    var r := FindPanel(s, 0);
    forall k | 0 <= k < p
      ensures !PanelAt(s, k)
    {
      assert s[k] == prefix[k];
    }
    assert s[p..p + 5] == "MN" + digits;
  }

  /** The file name the script documents. */
  lemma DocumentedFilename()
    ensures GetPanelID("201109_1257_MN061test6.txt") == Ok("MN061")
  {
    var prefix := "201109_1257_";
    var name := prefix + "MN" + "061" + "test6.txt";
    assert name == "201109_1257_MN061test6.txt";
    assert GetPanelID(name) == Ok("MN" + "061") by {
      assert 'M' !in prefix;
      PanelAfterPrefix(prefix, "061", "test6.txt");
    }
    assert "MN" + "061" == "MN061";
  }

  // ---------------------------------------------------------------------------
  // Fit window
  // ---------------------------------------------------------------------------

  /** One row of a leak data file, with time already in elapsed days. */
  datatype Reading = Reading(time: real, pressure: real)

  /** `df.loc[(time > start) & (time < end)]`: the rows strictly inside the window, in order. */
  function Window(rows: seq<Reading>, start: real, end: real): (w: seq<Reading>)
    ensures |w| <= |rows|
    ensures forall x :: x in w <==> x in rows && start < x.time < end
  {
    if |rows| == 0 then []
    else
      var w := Window(rows[..|rows| - 1], start, end);
      var x := rows[|rows| - 1];
      assert rows == rows[..|rows| - 1] + [x];
      if start < x.time < end then w + [x] else w
  }

  /** The window keeps the file's order: it filters each part of the file separately. */
  lemma {:induction false} WindowAppend(a: seq<Reading>, b: seq<Reading>, start: real, end: real)
    ensures Window(a + b, start, end) == Window(a, start, end) + Window(b, start, end)
  {
    if |b| > 0 {
      var b' := b[..|b| - 1];
      assert (a + b)[..|a + b| - 1] == a + b';
      WindowAppend(a, b', start, end);
    } else {
      assert a + b == a;
    }
  }

  /** `df["TIME(DAYS)"].iat[-1]`: the last row's time; an empty file raises IndexError. */
  function TotalDuration(rows: seq<Reading>): (r: Result<real>)
    ensures r.Ok? <==> |rows| > 0
    ensures r.Err? ==> r.error == IndexError
  {
    if |rows| == 0 then Err(IndexError) else Ok(rows[|rows| - 1].time)
  }

  /** A command-line option is used only when it is truthy: given and non-zero. */
  predicate Given(o: Option<real>) {
    o.Some? && o.value != 0.0
  }

  /** The fit start and end: the options when given, the defaults otherwise. */
  function FitRange(total: real, startOption: Option<real>, endOption: Option<real>): (range: (real, real))
    ensures Given(startOption) ==> range.0 == startOption.value
    ensures !Given(startOption) ==> range.0 == GetFitStartTime(total)
    ensures Given(endOption) ==> range.1 == endOption.value
    ensures !Given(endOption) ==> range.1 == total
    ensures !Given(startOption) ==> 0.0 <= range.0
    ensures !Given(startOption) && !Given(endOption) && 0.3 <= total ==> range.0 < range.1
  {
    FitStartWithinTest(total);
    (if Given(startOption) then startOption.value else GetFitStartTime(total),
     if Given(endOption) then endOption.value else total)
  }

  /** The readings the fit uses, from a file and the two options. */
  function FitRows(rows: seq<Reading>, startOption: Option<real>, endOption: Option<real>): (r: Result<seq<Reading>>)
    ensures r.Ok? <==> |rows| > 0
    ensures r.Ok? ==> forall x :: x in r.value ==> x in rows
  {
    match TotalDuration(rows)
    case Err(e) => Err(e)
    case Ok(total) =>
      var range := FitRange(total, startOption, endOption);
      Ok(Window(rows, range.0, range.1))
  }

  /**
   * With the default end the window stops strictly before the test's
   * duration, so the file's last reading is never part of the fit.
   */
  lemma DefaultFitDropsLast(rows: seq<Reading>, startOption: Option<real>, endOption: Option<real>)
    requires |rows| > 0
    requires !Given(endOption)
    ensures rows[|rows| - 1] !in FitRows(rows, startOption, endOption).value
  {
  }

  /**
   * An explicit start of 0 is falsy and is replaced by the default: for a
   * test of 0.3 days or more the readings up to the default start are left out.
   */
  lemma ZeroStartIsDefault(rows: seq<Reading>, endOption: Option<real>)
    requires |rows| > 0
    ensures FitRows(rows, Some(0.0), endOption) == FitRows(rows, None, endOption)
  {
  }

  /** A reading is fitted exactly when it lies strictly between the chosen start and end. */
  lemma FitRowsMembership(rows: seq<Reading>, startOption: Option<real>, endOption: Option<real>, x: Reading)
    requires |rows| > 0
    ensures var range := FitRange(rows[|rows| - 1].time, startOption, endOption);
      x in FitRows(rows, startOption, endOption).value <==> x in rows && range.0 < x.time < range.1
  {
  }
}
