/**
 * JavaScript's `parseFloat` on finite decimal text: leading white space is
 * skipped, then the longest prefix that forms a decimal literal (optional
 * sign, digits with an optional fraction, an optional exponent) is read; if
 * no prefix forms one the result is NaN, written `None` here. Values are exact
 * reals, not rounded doubles.
 */
module NumberParsing {
  import opened Wrappers

  predicate IsDigit(c: char) { '0' <= c <= '9' }

  predicate AllDigits(s: string) { forall i :: 0 <= i < |s| ==> IsDigit(s[i]) }

  /** The white space and line terminators that `parseFloat` skips before the number. */
  predicate IsStrWhiteSpace(c: char) {
    || c == '\t' || c == '\n' || c == '\U{000B}' || c == '\U{000C}' || c == '\r' || c == ' '
    || c == '\U{00A0}' || c == '\U{1680}' || ('\U{2000}' <= c <= '\U{200A}')
    || c == '\U{2028}' || c == '\U{2029}' || c == '\U{202F}' || c == '\U{205F}'
    || c == '\U{3000}' || c == '\U{FEFF}'
  }

  /** `s` without its leading white space. */
  function TrimStart(s: string): (t: string)
    ensures t == [] || !IsStrWhiteSpace(t[0])
  {
    if |s| > 0 && IsStrWhiteSpace(s[0]) then TrimStart(s[1..]) else s
  }

  /** The length of the longest all-digit prefix of `s`. */
  function DigitRun(s: string): (n: nat)
    ensures n <= |s|
    ensures n == |s| || !IsDigit(s[n])
  {
    if |s| > 0 && IsDigit(s[0]) then 1 + DigitRun(s[1..]) else 0
  }

  /** The value of a decimal digit (only ever applied to digits). */
  function DigitValue(c: char): nat {
    if IsDigit(c) then (c as int) - ('0' as int) else 0
  }

  /** The natural number a string of decimal digits denotes. */
  function DigitsValue(ds: string): nat {
    if ds == [] then 0 else 10 * DigitsValue(ds[..|ds| - 1]) + DigitValue(ds[|ds| - 1])
  }

  function Pow10(n: nat): (p: nat)
    ensures p >= 1
  {
    if n == 0 then 1 else 10 * Pow10(n - 1)
  }

  /** x * 10^e for a signed exponent e, one factor of ten at a time. */
  function ScaleByPow10(x: real, e: int): real
    decreases if e < 0 then -e else e
  {
    if e == 0 then x
    else if e > 0 then 10.0 * ScaleByPow10(x, e - 1)
    else ScaleByPow10(x, e + 1) / 10.0
  }

  /** A negative exponent divides by the power of ten. */
  lemma {:induction false} ScaleDown(x: real, n: nat)
    ensures ScaleByPow10(x, -(n as int)) == x / Pow10(n) as real
  {
    if n > 0 {
      ScaleDown(x, n - 1);
      var p := Pow10(n - 1) as real;
      assert ScaleByPow10(x, -(n as int)) == (x / p) / 10.0;
      assert (x / p) / 10.0 == x / (10.0 * p);
    }
  }

  /** Scaling keeps a value non-negative. */
  lemma {:induction false} ScaleNonNegative(x: real, e: int)
    requires x >= 0.0
    ensures ScaleByPow10(x, e) >= 0.0
    decreases if e < 0 then -e else e
  {
    if e > 0 {
      ScaleNonNegative(x, e - 1);
    } else if e < 0 {
      ScaleNonNegative(x, e + 1);
    }
  }

  /** The pieces of a decimal literal: sign, integer digits, fraction digits, exponent. */
  datatype DecimalLiteral = DecimalLiteral(
    negative: bool,
    intDigits: string,
    fracDigits: string,
    expNegative: bool,
    expDigits: string)

  /** An optional leading '+' or '-': whether it was '-', and the rest. */
  function SplitSign(s: string): (bool, string) {
    if |s| > 0 && s[0] == '-' then (true, s[1..])
    else if |s| > 0 && s[0] == '+' then (false, s[1..])
    else (false, s)
  }

  /** The exponent part at the start of `s`, if there is a complete one ('e' or 'E', optional sign, at least one digit). */
  function ScanExponent(s: string): (bool, string) {
    if |s| > 0 && (s[0] == 'e' || s[0] == 'E') then
      var (negative, rest) := SplitSign(s[1..]);
      var k := DigitRun(rest);
      if k > 0 then (negative, rest[..k]) else (false, "")
    else (false, "")
  }

  /** Integer digits, fraction digits and the text after them, read from the start of a string. */
  datatype Mantissa = Mantissa(intDigits: string, fracDigits: string, rest: string)

  /** The digits before and after an optional '.' at the start of `s`. */
  function ScanMantissa(s: string): Mantissa {
    var i := DigitRun(s);
    if i < |s| && s[i] == '.' then
      var f := DigitRun(s[i + 1..]);
      Mantissa(s[..i], s[i + 1..][..f], s[i + 1..][f..])
    else
      Mantissa(s[..i], "", s[i..])
  }

  /** The longest prefix of `s` that is a finite decimal literal, if any. */
  function ScanDecimalLiteral(s: string): Option<DecimalLiteral> {
    var (negative, rest) := SplitSign(s);
    var m := ScanMantissa(rest);
    if |m.intDigits| + |m.fracDigits| == 0 then None
    else
      var (expNegative, expDigits) := ScanExponent(m.rest);
      Some(DecimalLiteral(negative, m.intDigits, m.fracDigits, expNegative, expDigits))
  }

  /** The exact value a well-formed literal denotes. */
  function LiteralValue(l: DecimalLiteral): real {
    var exponent: int := if l.expNegative then -(DigitsValue(l.expDigits) as int) else DigitsValue(l.expDigits);
    var magnitude := ScaleByPow10(DigitsValue(l.intDigits + l.fracDigits) as real, exponent - |l.fracDigits|);
    if l.negative then -magnitude else magnitude
  }

  /** `parseFloat(s)`; `None` is NaN. */
  function ParseFloat(s: string): Option<real> {
    match ScanDecimalLiteral(TrimStart(s))
    case None => None
    case Some(l) => Some(LiteralValue(l))
  }

  /** Text that starts with a digit, or with '.' and then a digit. */
  predicate StartsWithUnsignedNumber(t: string) {
    (|t| > 0 && IsDigit(t[0])) || (|t| > 1 && t[0] == '.' && IsDigit(t[1]))
  }

  /** Text that starts a decimal literal, possibly after a sign. */
  predicate StartsWithNumber(t: string) {
    || StartsWithUnsignedNumber(t)
    || (|t| > 0 && (t[0] == '+' || t[0] == '-') && StartsWithUnsignedNumber(t[1..]))
  }

  /** `parseFloat` yields NaN exactly when, after the white space, no number starts. */
  lemma ParseFloatFailsIff(s: string)
    ensures ParseFloat(s).None? <==> !StartsWithNumber(TrimStart(s))
  {
    var t := TrimStart(s);
    var (negative, rest) := SplitSign(t);
    assert StartsWithNumber(t) <==> StartsWithUnsignedNumber(rest);
    var i := DigitRun(rest);
    assert i > 0 <==> |rest| > 0 && IsDigit(rest[0]) by {
      if i > 0 { assert rest[..i][0] == rest[0]; }
    }
    if i == 0 {
      var afterInt := rest[i..];
      assert afterInt == rest;
      if |rest| > 1 && rest[0] == '.' {
        var f := DigitRun(rest[1..]);
        assert f > 0 <==> IsDigit(rest[1]) by {
          if f > 0 { assert rest[1..][..f][0] == rest[1]; }
        }
      }
    }
  }

  /** The literal read from digits followed by text that cannot continue a number. */
  lemma ScanDigitsThenStop(ds: string, tail: string)
    requires |ds| > 0 && AllDigits(ds)
    requires tail == [] || (!IsDigit(tail[0]) && tail[0] != '.' && tail[0] != 'e' && tail[0] != 'E')
    ensures ScanDecimalLiteral(ds + tail) == Some(DecimalLiteral(false, ds, "", false, ""))
  {
    var s := ds + tail;
    assert s[0] == ds[0];
    assert SplitSign(s) == (false, s);
    DigitRunAppend(ds, tail);
    assert s[..|ds|] == ds;
    assert s[|ds|..] == tail;
    assert ScanMantissa(s) == Mantissa(ds, "", tail);
    assert ScanExponent(tail) == (false, "");
  }

  /** A digit run followed by text that cannot continue a number: the text is ignored. */
  lemma ParseFloatIgnoresTrailing(ds: string, tail: string)
    requires |ds| > 0 && AllDigits(ds)
    requires tail == [] || (!IsDigit(tail[0]) && tail[0] != '.' && tail[0] != 'e' && tail[0] != 'E')
    ensures ParseFloat(ds + tail) == Some(DigitsValue(ds) as real)
  {
    var s := ds + tail;
    assert s[0] == ds[0];
    TrimStartKeepsNonSpace(s);
    ScanDigitsThenStop(ds, tail);
    IntegerLiteralValue(ds);
  }

  /** Text that does not start with white space is not trimmed. */
  lemma TrimStartKeepsNonSpace(s: string)
    requires |s| > 0 && !IsStrWhiteSpace(s[0])
    ensures TrimStart(s) == s
  {
  }

  /** A literal with only integer digits denotes their number. */
  lemma IntegerLiteralValue(ds: string)
    requires |ds| > 0 && AllDigits(ds)
    ensures LiteralValue(DecimalLiteral(false, ds, "", false, "")) == DigitsValue(ds) as real
  {
    assert ds + "" == ds;
    assert DigitsValue("") == 0;
    assert Pow10(0) == 1;
  }

  /** Every string of digits is read as the number it denotes. */
  lemma ParseFloatOfDigits(ds: string)
    requires |ds| > 0 && AllDigits(ds)
    ensures ParseFloat(ds) == Some(DigitsValue(ds) as real)
  {
    ParseFloatIgnoresTrailing(ds, "");
    assert ds + "" == ds;
  }

  lemma {:induction false} DigitRunAppend(ds: string, tail: string)
    requires AllDigits(ds)
    requires tail == [] || !IsDigit(tail[0])
    ensures DigitRun(ds + tail) == |ds|
  {
    if |ds| > 0 {
      assert (ds + tail)[1..] == ds[1..] + tail;
      DigitRunAppend(ds[1..], tail);
    }
  }

  /** The decimal digits of a natural number, as `String(n)` writes them. */
  function NatToString(n: nat): (s: string)
    ensures |s| > 0 && AllDigits(s)
  {
    var d := ['0' + ((n % 10) as char)];
    if n < 10 then d else NatToString(n / 10) + d
  }

  lemma {:induction false} NatToStringValue(n: nat)
    ensures DigitsValue(NatToString(n)) == n
  {
    var s := NatToString(n);
    assert s[..|s| - 1] == if n < 10 then [] else NatToString(n / 10);
    if n >= 10 {
      NatToStringValue(n / 10);
    }
  }

  /** Reading back a printed natural number gives the number. */
  lemma ParseFloatNatRoundTrip(n: nat)
    ensures ParseFloat(NatToString(n)) == Some(n as real)
  {
    ParseFloatOfDigits(NatToString(n));
    NatToStringValue(n);
  }

  /** The mantissa read from digits, a '.', more digits and text that cannot continue them. */
  lemma ScanMantissaDecimal(ip: string, fp: string, tail: string)
    requires AllDigits(ip) && AllDigits(fp)
    requires tail == [] || !IsDigit(tail[0])
    ensures ScanMantissa(ip + "." + fp + tail) == Mantissa(ip, fp, tail)
  {
    var s := ip + "." + fp + tail;
    var afterDot := fp + tail;
    assert s == ip + ("." + afterDot);
    DigitRunAppend(ip, "." + afterDot);
    assert s[..|ip|] == ip;
    assert s[|ip|] == '.';
    assert s[|ip| + 1..] == afterDot;
    DigitRunAppend(fp, tail);
    assert afterDot[..|fp|] == fp;
    assert afterDot[|fp|..] == tail;
  }

  /** Digits, a '.', more digits, then text that cannot continue a number. */
  lemma ParseFloatOfDecimal(ip: string, fp: string, tail: string)
    requires |ip| > 0 && AllDigits(ip) && AllDigits(fp)
    requires tail == [] || (!IsDigit(tail[0]) && tail[0] != 'e' && tail[0] != 'E')
    ensures ParseFloat(ip + "." + fp + tail) == Some(DigitsValue(ip + fp) as real / Pow10(|fp|) as real)
  {
    var s := ip + "." + fp + tail;
    assert s[0] == ip[0];
    TrimStartKeepsNonSpace(s);
    ScanDecimal(ip, fp, tail);
    DecimalLiteralValue(ip, fp);
  }

  lemma ScanDecimal(ip: string, fp: string, tail: string)
    requires |ip| > 0 && AllDigits(ip) && AllDigits(fp)
    requires tail == [] || (!IsDigit(tail[0]) && tail[0] != 'e' && tail[0] != 'E')
    ensures ScanDecimalLiteral(ip + "." + fp + tail) == Some(DecimalLiteral(false, ip, fp, false, ""))
  {
    var s := ip + "." + fp + tail;
    assert s[0] == ip[0];
    assert SplitSign(s) == (false, s);
    ScanMantissaDecimal(ip, fp, tail);
    assert ScanExponent(tail) == (false, "");
  }

  /** A literal without sign or exponent denotes its digits divided by ten per fraction digit. */
  lemma DecimalLiteralValue(ip: string, fp: string)
    requires |ip| > 0 && AllDigits(ip) && AllDigits(fp)
    ensures LiteralValue(DecimalLiteral(false, ip, fp, false, "")) == DigitsValue(ip + fp) as real / Pow10(|fp|) as real
  {
    assert DigitsValue("") == 0;
    ScaleDown(DigitsValue(ip + fp) as real, |fp|);
  }

  /** A price as the API sends it: "12.50" reads as 12.5. */
  lemma ParseFloatDecimalExample()
    ensures ParseFloat("12.50") == Some(12.5)
  {
    ScanDecimalExample();
    DecimalValueExample();
    assert TrimStart("12.50") == "12.50";
  }

  lemma ScanDecimalExample()
    ensures ScanDecimalLiteral("12.50") == Some(DecimalLiteral(false, "12", "50", false, ""))
  {
    assert ScanMantissa("12.50") == Mantissa("12", "50", "") by {
      assert DigitRun("12.50") == 2;
      assert "12.50"[3..] == "50";
      assert DigitRun("50") == 2;
    }
  }

  lemma DecimalValueExample()
    ensures LiteralValue(DecimalLiteral(false, "12", "50", false, "")) == 12.5
  {
    assert "12" + "50" == "1250";
    assert DigitsValue("1250") == 1250 by {
      assert "1250"[..3] == "125";
      assert "125"[..2] == "12";
      assert "12"[..1] == "1";
      assert "1"[..0] == "";
    }
    assert Pow10(2) == 100;
    DecimalLiteralValue("12", "50");
  }

  /** An exponent scales the mantissa: "1e3" reads as 1000. */
  lemma ParseFloatExponentExample()
    ensures ParseFloat("1e3") == Some(1000.0)
  {
    ScanExponentExample();
    ExponentValueExample();
    assert TrimStart("1e3") == "1e3";
  }

  lemma ScanExponentExample()
    ensures ScanDecimalLiteral("1e3") == Some(DecimalLiteral(false, "1", "", false, "3"))
  {
    assert ScanMantissa("1e3") == Mantissa("1", "", "e3") by {
      assert DigitRun("1e3") == 1;
      assert "1e3"[..1] == "1";
      assert "1e3"[1..] == "e3";
    }
    assert ScanExponent("e3") == (false, "3") by {
      assert "e3"[1..] == "3";
      assert SplitSign("3") == (false, "3");
      assert DigitRun("3") == 1;
      assert "3"[..1] == "3";
    }
  }

  lemma ExponentValueExample()
    ensures LiteralValue(DecimalLiteral(false, "1", "", false, "3")) == 1000.0
  {
    assert "1" + "" == "1";
    assert "1"[..0] == "";
    assert "3"[..0] == "";
    assert Pow10(3) == 1000;
  }

  /** Leading white space is skipped and a sign is read: "  -2" reads as -2. */
  lemma ParseFloatSignExample()
    ensures ParseFloat("  -2") == Some(-2.0)
  {
    assert TrimStart("  -2") == "-2";
    assert ScanDecimalLiteral("-2") == Some(DecimalLiteral(true, "2", "", false, "")) by {
      assert SplitSign("-2") == (true, "2");
      assert ScanMantissa("2") == Mantissa("2", "", "");
    }
    IntegerLiteralValue("2");
    assert "2"[..0] == "";
  }

  /** Text without a number reads as NaN: "abc" and "." alike. */
  lemma ParseFloatFailureExamples()
    ensures ParseFloat("abc") == None
    ensures ParseFloat(".") == None
  {
    assert TrimStart("abc") == "abc";
    ParseFloatFailsIff("abc");
    assert TrimStart(".") == ".";
    ParseFloatFailsIff(".");
  }
}
