/**
 * The `sscanf` reading used by the property-list getters: a format is a
 * sequence of literal characters and `%d` conversions; scanning stops at the
 * first literal that does not match or conversion that finds no number, and
 * yields the numbers converted so far. The decimal formatter is its inverse.
 */
module TextScan {
  import opened Wrappers
  import opened Int32

  /** One item of a scan format: a literal character, or `%d`. */
  datatype FormatItem = Lit(c: char) | Dec

  predicate IsDigit(c: char) { '0' <= c <= '9' }

  /** The white-space characters that `%d` skips. */
  predicate IsSpace(c: char) { c == ' ' || c == '\t' || c == '\n' || c == '\r' || c == '\U{B}' || c == '\U{C}' }

  /** The length of the run of digits at the start of `s`. */
  function DigitRun(s: string): (n: nat)
    ensures n <= |s|
    ensures forall i :: 0 <= i < n ==> IsDigit(s[i])
    ensures n < |s| ==> !IsDigit(s[n])
  {
    if s == [] || !IsDigit(s[0]) then 0 else 1 + DigitRun(s[1..])
  }

  /** The length of the run of white space at the start of `s`. */
  function SpaceRun(s: string): (n: nat)
    ensures n <= |s|
    ensures forall i :: 0 <= i < n ==> IsSpace(s[i])
    ensures n < |s| ==> !IsSpace(s[n])
  {
    if s == [] || !IsSpace(s[0]) then 0 else 1 + SpaceRun(s[1..])
  }

  function DigitValue(c: char): nat
    requires IsDigit(c)
  {
    c as int - '0' as int
  }

  /** The value of a string of decimal digits. */
  function DigitsValue(d: string): nat
    requires forall i :: 0 <= i < |d| ==> IsDigit(d[i])
  {
    if d == [] then 0 else DigitsValue(d[..|d| - 1]) * 10 + DigitValue(d[|d| - 1])
  }

  /** The decimal digits of a natural number, without leading zeros. */
  function NatDigits(n: nat): (d: string)
    ensures |d| >= 1
    ensures forall i :: 0 <= i < |d| ==> IsDigit(d[i])
  {
    var last := ('0' as int + n % 10) as char;
    if n < 10 then [last] else NatDigits(n / 10) + [last]
  }

  /** The decimal text of an integer, with a leading '-' when it is negative. */
  function FormatInt(v: int): (s: string)
    ensures |s| >= 1
    ensures s[0] == '-' <==> v < 0
    ensures forall i :: 0 <= i < |s| && (i > 0 || v >= 0) ==> IsDigit(s[i])
  {
    if v < 0 then "-" + NatDigits(-v) else NatDigits(v)
  }

  /**
   * One `%d` conversion: skip white space, read an optional sign and at
   * least one digit. Yields the value and the number of characters consumed,
   * or nothing when no digit follows or the value does not fit in an `int`.
   */
  function ScanInt(s: string): (r: Option<(i32, nat)>)
    ensures r.Some? ==> 0 < r.value.1 <= |s|
  {
    var ws := SpaceRun(s);
    var t := s[ws..];
    var signLen := if |t| > 0 && (t[0] == '-' || t[0] == '+') then 1 else 0;
    var u := t[signLen..];
    var k := DigitRun(u);
    if k == 0 then None
    else
      var magnitude := DigitsValue(u[..k]);
      var v: int := if signLen == 1 && t[0] == '-' then -(magnitude as int) else magnitude;
      if IsI32(v) then Some((v, ws + signLen + k)) else None
  }

  /** The number of `%d` conversions in a format. */
  function Conversions(fmt: seq<FormatItem>): nat
  {
    if fmt == [] then 0 else (if fmt[0].Dec? then 1 else 0) + Conversions(fmt[1..])
  }

  /** The values `sscanf` assigns, in order: at most one per conversion. */
  function Scan(s: string, fmt: seq<FormatItem>): (vals: seq<i32>)
    ensures |vals| <= Conversions(fmt)
  {
    if fmt == [] then []
    else match fmt[0]
      case Lit(c) => if |s| > 0 && s[0] == c then Scan(s[1..], fmt[1..]) else []
      case Dec =>
        match ScanInt(s)
        case None => []
        case Some(p) => [p.0] + Scan(s[p.1..], fmt[1..])
  }

  /** The text `sprintf` writes for a format and one value per conversion. */
  function Render(fmt: seq<FormatItem>, vals: seq<int>): string
    requires |vals| == Conversions(fmt)
  {
    if fmt == [] then ""
    else match fmt[0]
      case Lit(c) => [c] + Render(fmt[1..], vals)
      case Dec => FormatInt(vals[0]) + Render(fmt[1..], vals[1..])
  }

  /** A conversion is never directly followed by another one or by a digit. */
  predicate Separated(fmt: seq<FormatItem>)
  {
    |fmt| <= 1 || ((fmt[0].Dec? ==> fmt[1].Lit? && !IsDigit(fmt[1].c)) && Separated(fmt[1..]))
  }

  lemma {:induction false} DigitsValueOfNatDigits(n: nat)
    ensures DigitsValue(NatDigits(n)) == n
    decreases n
  {
    var d := NatDigits(n);
    if n >= 10 {
      DigitsValueOfNatDigits(n / 10);
      assert d[..|d| - 1] == NatDigits(n / 10);
    }
  }

  lemma {:induction false} DigitRunOfDigits(d: string, rest: string)
    requires forall i :: 0 <= i < |d| ==> IsDigit(d[i])
    requires rest == [] || !IsDigit(rest[0])
    ensures DigitRun(d + rest) == |d|
    decreases |d|
  {
    if d != [] {
      assert (d + rest)[1..] == d[1..] + rest;
      DigitRunOfDigits(d[1..], rest);
    }
  }

  /** Scanning the decimal text of an `int` reads it back and consumes exactly that text. */
  lemma ScanFormatted(v: i32, rest: string)
    requires rest == [] || !IsDigit(rest[0])
    ensures ScanInt(FormatInt(v) + rest) == Some((v, |FormatInt(v)|))
  {
    if v < 0 {
      ScanNegative(v, rest);
    } else {
      ScanNonNegative(v, rest);
    }
  }

  lemma ScanNonNegative(v: i32, rest: string)
    requires v >= 0
    requires rest == [] || !IsDigit(rest[0])
    ensures ScanInt(FormatInt(v) + rest) == Some((v, |FormatInt(v)|))
  {
    var d := NatDigits(v);
    var s := d + rest;
    assert SpaceRun(s) == 0 by { assert IsDigit(s[0]); }
    assert s[0..] == s;
    DigitRunOfDigits(d, rest);
    assert s[..|d|] == d;
    DigitsValueOfNatDigits(v);
  }

  lemma ScanNegative(v: i32, rest: string)
    requires v < 0
    requires rest == [] || !IsDigit(rest[0])
    ensures ScanInt(FormatInt(v) + rest) == Some((v, |FormatInt(v)|))
  {
    var mag: nat := -(v as int);
    var d := NatDigits(mag);
    assert FormatInt(v) + rest == "-" + d + rest;
    DigitsValueOfNatDigits(mag);
    ScanMinusDigits(d, rest, mag);
  }

  /** A minus sign, digits worth `mag` and a non-digit are read as `-mag`. */
  lemma {:induction false} ScanMinusDigits(d: string, rest: string, mag: nat)
    requires |d| >= 1 && forall i :: 0 <= i < |d| ==> IsDigit(d[i])
    requires rest == [] || !IsDigit(rest[0])
    requires DigitsValue(d) == mag && IsI32(-(mag as int))
    ensures ScanInt("-" + d + rest) == Some((-(mag as int), 1 + |d|))
  {
    var s := "-" + d + rest;
    assert SpaceRun(s) == 0 by { assert s[0] == '-'; }
    assert s[0..] == s;
    var u := s[1..];
    assert u == d + rest;
    DigitRunOfDigits(d, rest);
    assert u[..|d|] == d;
  }

  /** A matching literal is consumed and scanning goes on with the rest of the format. */
  lemma ScanLiteralStep(c: char, tail: string, fmt: seq<FormatItem>)
    requires fmt != [] && fmt[0] == Lit(c)
    ensures Scan([c] + tail, fmt) == Scan(tail, fmt[1..])
  {
    assert ([c] + tail)[1..] == tail;
  }

  /** A rendered number is read back and scanning goes on right after it. */
  lemma ScanDecimalStep(v: i32, tail: string, fmt: seq<FormatItem>)
    requires fmt != [] && fmt[0] == Dec
    requires tail == [] || !IsDigit(tail[0])
    ensures Scan(FormatInt(v) + tail, fmt) == [v] + Scan(tail, fmt[1..])
  {
    ScanFormatted(v, tail);
    assert (FormatInt(v) + tail)[|FormatInt(v)|..] == tail;
  }

  lemma RoundTripLiteralCase(fmt: seq<FormatItem>, vals: seq<i32>)
    requires fmt != [] && fmt[0].Lit? && |vals| == Conversions(fmt)
    requires Scan(Render(fmt[1..], vals), fmt[1..]) == vals
    ensures Scan(Render(fmt, vals), fmt) == vals
  {
    var tail := Render(fmt[1..], vals);
    assert Render(fmt, vals) == [fmt[0].c] + tail;
    ScanLiteralStep(fmt[0].c, tail, fmt);
  }

  lemma RoundTripDecimalCase(fmt: seq<FormatItem>, vals: seq<i32>)
    requires fmt != [] && fmt[0].Dec? && |vals| == Conversions(fmt) && Separated(fmt)
    requires Scan(Render(fmt[1..], vals[1..]), fmt[1..]) == vals[1..]
    ensures Scan(Render(fmt, vals), fmt) == vals
  {
    var tail := Render(fmt[1..], vals[1..]);
    assert Render(fmt, vals) == FormatInt(vals[0]) + tail;
    assert tail == [] || !IsDigit(tail[0]) by {
      if |fmt| > 1 {
        assert tail == [fmt[1].c] + Render(fmt[2..], vals[1..]);
      }
    }
    ScanDecimalStep(vals[0], tail, fmt);
  }

  /**
   * Scanning rendered text with the same format reads back every value,
   * provided no conversion is directly followed by another or by a digit.
   */
  lemma {:induction false} ScanRenderRoundTrip(fmt: seq<FormatItem>, vals: seq<i32>)
    requires |vals| == Conversions(fmt) && Separated(fmt)
    ensures Scan(Render(fmt, vals), fmt) == vals
    decreases |fmt|
  {
    if fmt != [] {
      if fmt[0].Lit? {
        ScanRenderRoundTrip(fmt[1..], vals);
        RoundTripLiteralCase(fmt, vals);
      } else {
        ScanRenderRoundTrip(fmt[1..], vals[1..]);
        RoundTripDecimalCase(fmt, vals);
      }
    }
  }
}
