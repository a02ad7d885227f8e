/**
 * The Python builtins the station scripts lean on, on ASCII text:
 * exceptions as results, `str.upper`, `str.lower`, `str.strip`,
 * `str.startswith`, `in` on strings, `str.split`, `str.join`, slicing with
 * clamped indices, `str.isnumeric` and `int()` on a string.
 */
module Builtins {

  /** The exceptions the modelled code raises and does not catch. */
  datatype PyError =
    | IndexError | ValueError | KeyError | RecursionError | AttributeError | OverflowError
    | FileNotFoundError

  /** The outcome of a Python call: a value, or an exception that propagates. */
  datatype Result<+T> = Ok(value: T) | Err(error: PyError)

  datatype Option<+T> = None | Some(value: T)

  predicate IsDigit(c: char) { '0' <= c <= '9' }

  predicate AllDigits(s: string) { forall i :: 0 <= i < |s| ==> IsDigit(s[i]) }

  /** `s.isnumeric()`: false on the empty string. */
  predicate IsNumeric(s: string) { |s| > 0 && AllDigits(s) }

  /** `c.isspace()` for the ASCII range: space, \t \n \v \f \r and the separators 0x1c-0x1f. */
  predicate IsSpace(c: char) {
    c == ' ' || ('\t' <= c <= '\r') || (28 <= c as int <= 31)
  }

  function UpperChar(c: char): char {
    if 'a' <= c <= 'z' then (c as int - 32) as char else c
  }

  function LowerChar(c: char): char {
    if 'A' <= c <= 'Z' then (c as int + 32) as char else c
  }

  /** `s.upper()` */
  function Upper(s: string): (u: string)
    ensures |u| == |s|
  {
    seq(|s|, i requires 0 <= i < |s| => UpperChar(s[i]))
  }

  /** `s.lower()` */
  function Lower(s: string): (l: string)
    ensures |l| == |s|
  {
    seq(|s|, i requires 0 <= i < |s| => LowerChar(s[i]))
  }

  /** `s.startswith(p)` */
  predicate StartsWith(s: string, p: string) {
    |p| <= |s| && s[..|p|] == p
  }

  /** `p in s` for strings: p occurs as a contiguous substring of s. */
  predicate Contains(s: string, p: string) {
    exists i | 0 <= i <= |s| - |p| :: StartsWith(s[i..], p)
  }

  function StripLeft(s: string): string {
    if |s| > 0 && IsSpace(s[0]) then StripLeft(s[1..]) else s
  }

  function StripRight(s: string): string {
    if |s| > 0 && IsSpace(s[|s| - 1]) then StripRight(s[..|s| - 1]) else s
  }

  /** `s.strip()` */
  function Strip(s: string): string {
    StripRight(StripLeft(s))
  }

  /** `s.split(c)`: the pieces between the occurrences of c; never empty. */
  function Split(s: string, c: char): (pieces: seq<string>)
    ensures |pieces| >= 1
  {
    if |s| == 0 then [""]
    else
      var rest := Split(s[1..], c);
      if s[0] == c then [""] + rest else [[s[0]] + rest[0]] + rest[1..]
  }

  /** `sep.join(parts)` */
  function Join(parts: seq<string>, sep: string): string {
    if |parts| == 0 then ""
    else if |parts| == 1 then parts[0]
    else parts[0] + sep + Join(parts[1..], sep)
  }

  /** Python's normalisation of a slice bound against a length n. */
  function ClampIndex(i: int, n: nat): (k: nat)
    ensures k <= n
  {
    if i < 0 then (if i + n < 0 then 0 else i + n)
    else if i > n then n
    else i
  }

  /** `s[a:b]` for any integers a and b, negative ones counting from the end. */
  function PySlice<T>(s: seq<T>, a: int, b: int): seq<T> {
    var i := ClampIndex(a, |s|);
    var j := ClampIndex(b, |s|);
    if i < j then s[i..j] else []
  }

  function DigitValue(c: char): nat
    requires IsDigit(c)
  {
    c as int - '0' as int
  }

  /** The number a string of decimal digits denotes. */
  function DigitsValue(s: string): nat
    requires AllDigits(s)
  {
    if |s| == 0 then 0 else DigitsValue(s[..|s| - 1]) * 10 + DigitValue(s[|s| - 1])
  }

  /**
   * `int(s)` on a string: surrounding whitespace is ignored, one sign is
   * allowed, and the rest must be a non-empty run of decimal digits; anything
   * else raises ValueError (None here).
   */
  function ParseInt(s: string): Option<int> {
    var t := Strip(s);
    if |t| > 0 && (t[0] == '+' || t[0] == '-') then
      if IsNumeric(t[1..]) then
        var v: int := DigitsValue(t[1..]);
        Some(if t[0] == '-' then -v else v)
      else None
    else if IsNumeric(t) then Some(DigitsValue(t))
    else None
  }

  function DigitChar(d: nat): (c: char)
    requires d < 10
    ensures IsDigit(c) && DigitValue(c) == d
  {
    ('0' as int + d) as char
  }

  /** `str(n)` for a natural number. */
  function NatToString(n: nat): (s: string)
    ensures IsNumeric(s)
  {
    if n < 10 then [DigitChar(n)] else NatToString(n / 10) + [DigitChar(n % 10)]
  }

  // ---------------------------------------------------------------------------
  // Lemmas about splitting and joining
  // ---------------------------------------------------------------------------

  /** One step of `Split`: the first character either separates or joins the first piece. */
  lemma SplitCons(ch: char, t: string, c: char)
    ensures ch == c ==> Split([ch] + t, c) == [""] + Split(t, c)
    ensures ch != c ==> Split([ch] + t, c) == [[ch] + Split(t, c)[0]] + Split(t, c)[1..]
  {
    assert ([ch] + t)[0] == ch && ([ch] + t)[1..] == t;
  }

  /** Splitting at one separator splits the text into the pieces of either side. */
  lemma {:induction false} SplitConcat(x: string, y: string, c: char)
    ensures Split(x + [c] + y, c) == Split(x, c) + Split(y, c)
  {
    var sy := Split(y, c);
    if |x| == 0 {
      assert x + [c] + y == [c] + y;
      SplitCons(c, y, c);
    } else {
      var t := x[1..] + [c] + y;
      var r := Split(x[1..], c);
      var st := Split(t, c);
      assert st == r + sy by {
        SplitConcat(x[1..], y, c);
      }
      assert x + [c] + y == [x[0]] + t;
      assert x == [x[0]] + x[1..];
      SplitCons(x[0], t, c);
      SplitCons(x[0], x[1..], c);
      if x[0] == c {
        AppendAssoc([""], r, sy);
      } else {
        var head := [[x[0]] + r[0]];
        assert st[0] == r[0];
        assert st[1..] == r[1..] + sy;
        AppendAssoc(head, r[1..], sy);
      }
    }
  }

  /** Text without the separator splits into one piece, itself. */
  lemma {:induction false} SplitNoSep(s: string, c: char)
    requires c !in s
    ensures Split(s, c) == [s]
  {
    if |s| > 0 {
      assert c !in s[1..];
      SplitNoSep(s[1..], c);
      assert [s[0]] + s[1..] == s;
    }
  }

  /** Splitting joined pieces that contain no separator gives the pieces back. */
  lemma {:induction false} SplitJoin(parts: seq<string>, c: char)
    requires |parts| >= 1
    requires forall i :: 0 <= i < |parts| ==> c !in parts[i]
    ensures Split(Join(parts, [c]), c) == parts
  {
    if |parts| == 1 {
      SplitNoSep(parts[0], c);
    } else {
      SplitJoin(parts[1..], c);
      SplitNoSep(parts[0], c);
      SplitConcat(parts[0], Join(parts[1..], [c]), c);
      assert [parts[0]] + parts[1..] == parts;
    }
  }

  lemma SnocTwice<T>(s: seq<T>, a: T, b: T)
    ensures (s + [a]) + [b] == s + [a, b]
  {
  }

  lemma AppendAssoc<T>(a: seq<T>, b: seq<T>, c: seq<T>)
    ensures a + (b + c) == (a + b) + c
  {
  }

  /** Joining two non-empty lists puts one separator between their joins. */
  lemma {:induction false} JoinAppend(a: seq<string>, b: seq<string>, sep: string)
    requires |a| >= 1 && |b| >= 1
    ensures Join(a + b, sep) == Join(a, sep) + sep + Join(b, sep)
  {
    if |a| == 1 {
      assert (a + b)[1..] == b;
    } else {
      JoinAppend(a[1..], b, sep);
      assert (a + b)[1..] == a[1..] + b;
    }
  }

  /** The last piece is non-empty when the text does not end with the separator. */
  lemma {:induction false} SplitLastNonEmpty(s: string, c: char)
    requires |s| > 0 && s[|s| - 1] != c
    ensures Split(s, c)[|Split(s, c)| - 1] != []
  {
    if |s| > 1 {
      SplitLastNonEmpty(s[1..], c);
    }
  }

  /** The last piece is empty when the text ends with the separator. */
  lemma SplitLastEmpty(s: string, c: char)
    requires |s| > 0 && s[|s| - 1] == c
    ensures Split(s, c) == Split(s[..|s| - 1], c) + [""]
  {
    SplitConcat(s[..|s| - 1], "", c);
    assert s[..|s| - 1] + [c] + "" == s;
  }

  // ---------------------------------------------------------------------------
  // Lemmas about int() and str()
  // ---------------------------------------------------------------------------

  lemma {:induction false} NatToStringValue(n: nat)
    ensures DigitsValue(NatToString(n)) == n
  {
    if n >= 10 {
      NatToStringValue(n / 10);
      var s := NatToString(n);
      assert s[..|s| - 1] == NatToString(n / 10);
    }
  }

  lemma StripDigits(s: string)
    requires IsNumeric(s)
    ensures Strip(s) == s
  {
    assert StripLeft(s) == s;
  }

  /** `int(s)` of a run of digits, leading zeros included, is the number it denotes. */
  lemma ParseIntDigits(s: string)
    requires IsNumeric(s)
    ensures ParseInt(s) == Some(DigitsValue(s))
  {
    StripDigits(s);
  }

  /** `int(str(n)) == n` */
  lemma ParseIntNatToString(n: nat)
    ensures ParseInt(NatToString(n)) == Some(n)
  {
    var s := NatToString(n);
    StripDigits(s);
    NatToStringValue(n);
  }
}
