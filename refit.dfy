/**
 * Re-fitting a straw's leak rate from a raw data file: the rule that trims
 * points from both ends of the measured series, and the chamber number read
 * from the file name. The least-squares fit and the chamber volumes belong
 * to helper modules that are not part of this model.
 */
module Refit {
  import opened Builtins

  // ---------------------------------------------------------------------------
  // Trimming a series
  // ---------------------------------------------------------------------------

  /** `max(nstart - 1, 0)`: the start of the kept run before clamping. */
  function SkipStart(nstart: int): nat {
    if nstart - 1 > 0 then nstart - 1 else 0
  }

  /**
   * `container[max(nstart - 1, 0) : len(container) - nend]`: skip points at
   * the beginning and at the end of a series, with Python's slice clamping.
   */
  function Truncate<T>(c: seq<T>, nstart: int, nend: int): (r: seq<T>)
    ensures |r| <= |c|
  {
    PySlice(c, SkipStart(nstart), |c| - nend)
  }

  /** Where in a series of length n the kept run begins. */
  function TruncateOffset(n: nat, nstart: int): (k: nat)
    ensures k <= n
  {
    ClampIndex(SkipStart(nstart), n)
  }

  /** Whatever the bounds, the result is one contiguous run of the input. */
  lemma TruncateContiguous<T>(c: seq<T>, nstart: int, nend: int)
    ensures TruncateOffset(|c|, nstart) + |Truncate(c, nstart, nend)| <= |c|
    ensures Truncate(c, nstart, nend)
      == c[TruncateOffset(|c|, nstart)..TruncateOffset(|c|, nstart) + |Truncate(c, nstart, nend)|]
  {
  }

  /** nstart of 0 or 1 keeps the first point; nend in range drops exactly nend points from the end. */
  lemma TruncateKeepsFirst<T>(c: seq<T>, nstart: int, nend: int)
    requires nstart <= 1
    requires 0 <= nend <= |c|
    ensures Truncate(c, nstart, nend) == c[..|c| - nend]
    ensures nend == 0 ==> Truncate(c, nstart, nend) == c
  {
  }

  /** nstart = k >= 1 drops k - 1 points from the front and nend drops nend from the back. */
  lemma TruncateDrops<T>(c: seq<T>, nstart: int, nend: int)
    requires 1 <= nstart
    requires 0 <= nend
    requires nstart - 1 + nend <= |c|
    ensures Truncate(c, nstart, nend) == c[nstart - 1..|c| - nend]
    ensures |Truncate(c, nstart, nend)| == |c| - (nstart - 1) - nend
  {
  }

  /** When the two skips overlap nothing is left. */
  lemma TruncateOverlap<T>(c: seq<T>, nstart: int, nend: int)
    requires 0 <= nend <= |c|
    requires SkipStart(nstart) + nend >= |c|
    ensures Truncate(c, nstart, nend) == []
  {
  }

  /**
   * An end skip larger than the series makes the stop negative, and Python
   * then counts it from the end again: `c[0:-k]` keeps all but k points.
   */
  lemma TruncateNegativeStop<T>(c: seq<T>, nstart: int, nend: int)
    requires nstart <= 1
    requires |c| < nend
    ensures nend <= 2 * |c| ==> Truncate(c, nstart, nend) == c[..2 * |c| - nend]
    ensures nend > 2 * |c| ==> Truncate(c, nstart, nend) == []
  {
  }

  /** A negative end skip is clamped to the length: nothing is dropped from the end. */
  lemma TruncateNegativeEnd<T>(c: seq<T>, nstart: int, nend: int)
    requires nend < 0
    ensures Truncate(c, nstart, nend) == c[TruncateOffset(|c|, nstart)..]
  {
  }

  // ---------------------------------------------------------------------------
  // The three measured series
  // ---------------------------------------------------------------------------

  /** One measured point of a raw data file. */
  datatype Point = Point(timestamp: real, ppm: real, ppmErr: real)

  /** The three parallel series read as one series of points. */
  function Points(timestamp: seq<real>, ppm: seq<real>, ppmErr: seq<real>): (ps: seq<Point>)
    requires |timestamp| == |ppm| == |ppmErr|
    ensures |ps| == |timestamp|
    ensures forall i :: 0 <= i < |ps| ==> ps[i] == Point(timestamp[i], ppm[i], ppmErr[i])
  {
    seq(|timestamp|, i requires 0 <= i < |timestamp| => Point(timestamp[i], ppm[i], ppmErr[i]))
  }

  /**
   * The timestamp, PPM and PPM error series are trimmed with the same bounds,
   * so equally long inputs stay equally long and every kept timestamp stays
   * paired with its own PPM reading and error.
   */
  lemma TruncateAligned(timestamp: seq<real>, ppm: seq<real>, ppmErr: seq<real>, nstart: int, nend: int)
    requires |timestamp| == |ppm| == |ppmErr|
    ensures |Truncate(timestamp, nstart, nend)| == |Truncate(ppm, nstart, nend)|
      == |Truncate(ppmErr, nstart, nend)|
    ensures Points(Truncate(timestamp, nstart, nend), Truncate(ppm, nstart, nend), Truncate(ppmErr, nstart, nend))
      == Truncate(Points(timestamp, ppm, ppmErr), nstart, nend)
  {
    var t := Truncate(timestamp, nstart, nend);
    var p := Truncate(ppm, nstart, nend);
    var e := Truncate(ppmErr, nstart, nend);
    var whole := Points(timestamp, ppm, ppmErr);
    var cut := Truncate(whole, nstart, nend);
    TruncateContiguous(timestamp, nstart, nend);
    TruncateContiguous(ppm, nstart, nend);
    TruncateContiguous(ppmErr, nstart, nend);
    TruncateContiguous(whole, nstart, nend);
    var lhs := Points(t, p, e);
    assert |lhs| == |cut|;
    forall i | 0 <= i < |cut|
      ensures lhs[i] == cut[i]
    {
      var k := TruncateOffset(|timestamp|, nstart) + i;
      assert t[i] == timestamp[k] && p[i] == ppm[k] && e[i] == ppmErr[k];
      assert cut[i] == whole[k];
    }
  }

  // ---------------------------------------------------------------------------
  // The chamber number
  // ---------------------------------------------------------------------------

  /**
   * `int(filename[15:17])`, and when that raises, `int(filename[15:16])`,
   * whose ValueError propagates.
   */
  function Chamber(filename: string): Result<int> {
    match ParseInt(PySlice(filename, 15, 17))
    case Some(n) => Ok(n)
    case None =>
      match ParseInt(PySlice(filename, 15, 16))
      case Some(n) => Ok(n)
      case None => Err(ValueError)
  }

  /** Two digits at positions 15 and 16 are the chamber number. */
  lemma ChamberTwoDigits(filename: string)
    requires 17 <= |filename|
    requires IsDigit(filename[15]) && IsDigit(filename[16])
    ensures Chamber(filename) == Ok(10 * DigitValue(filename[15]) + DigitValue(filename[16]))
  {
    var t := filename[15..17];
    assert PySlice(filename, 15, 17) == t;
    StripDigits(t);
    assert ParseInt(t) == Some(DigitsValue(t));
    assert t[..1][..0] == [];
    assert DigitsValue(t[..1]) == DigitValue(t[0]);
    assert DigitsValue(t) == DigitsValue(t[..1]) * 10 + DigitValue(t[1]);
  }

  /** A digit at 15 followed by something int() refuses falls back to the one digit. */
  lemma ChamberOneDigit(filename: string)
    requires 17 <= |filename|
    requires IsDigit(filename[15])
    requires !IsDigit(filename[16]) && !IsSpace(filename[16])
    ensures Chamber(filename) == Ok(DigitValue(filename[15]))
  {
    var t := filename[15..17];
    assert PySlice(filename, 15, 17) == t;
    assert StripLeft(t) == t;
    assert StripRight(t) == t;
    assert !IsNumeric(t) by { assert !IsDigit(t[1]); }
    var u := filename[15..16];
    assert PySlice(filename, 15, 16) == u;
    StripDigits(u);
    assert ParseInt(u) == Some(DigitsValue(u));
    assert u[..0] == [];
    assert DigitsValue(u) == DigitValue(u[0]);
  }

  /** A file name of sixteen characters whose last one is a digit: that digit. */
  lemma ChamberAtEnd(filename: string)
    requires |filename| == 16
    requires IsDigit(filename[15])
    ensures Chamber(filename) == Ok(DigitValue(filename[15]))
  {
    var u := filename[15..16];
    assert PySlice(filename, 15, 17) == u;
    StripDigits(u);
    assert ParseInt(u) == Some(DigitsValue(u));
    assert u[..0] == [];
    assert DigitsValue(u) == DigitValue(u[0]);
  }

  /** A name too short to reach position 15 raises ValueError: int('') fails twice. */
  lemma ChamberTooShort(filename: string)
    requires |filename| <= 15
    ensures Chamber(filename) == Err(ValueError)
  {
    assert PySlice(filename, 15, 17) == [];
    assert PySlice(filename, 15, 16) == [];
  }

  /** A letter at position 15 raises ValueError. */
  lemma ChamberLetter(filename: string)
    requires 16 <= |filename|
    requires 'A' <= filename[15] <= 'Z' || 'a' <= filename[15] <= 'z'
    ensures Chamber(filename) == Err(ValueError)
  {
    var c := filename[15];
    if |filename| == 16 {
      assert PySlice(filename, 15, 17) == [c];
    } else {
      var t := filename[15..17];
      assert PySlice(filename, 15, 17) == t;
      assert StripLeft(t) == t;
      assert StripRight(t) == t || StripRight(t) == [c];
    }
    assert PySlice(filename, 15, 16) == [c];
    assert StripLeft([c]) == [c];
  }
}
