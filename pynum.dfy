/** Python's `int(str)`, `float(str)` and `round(x, 2)` as the application uses
    them, and the application's `safe_float` (app.py:46-56). Numbers are exact:
    an `int` is unbounded and a `float` is the real number its decimal text denotes. */
module PyNum {
  import opened Wrappers
  import opened PyText

  predicate IsDigit(c: char) {
    '0' <= c <= '9'
  }

  /** Every character of `s` is an ASCII digit. */
  predicate AllDigits(s: string) {
    forall i :: 0 <= i < |s| ==> IsDigit(s[i])
  }

  /** Python's "digitpart": ASCII digits, with single underscores allowed
      between two digits (`1_000`). */
  predicate IsDigitPart(s: string)
    decreases |s|
  {
    |s| > 0 && IsDigit(s[0]) &&
    (|s| == 1 || IsDigitPart(s[1..]) || (s[1] == '_' && IsDigitPart(s[2..])))
  }

  /** The number the digits of `s` spell, underscores skipped. */
  function PartValue(s: string): nat
    decreases |s|
  {
    if s == [] then 0
    else if IsDigit(s[|s| - 1]) then 10 * PartValue(s[..|s| - 1]) + (s[|s| - 1] as int - '0' as int)
    else PartValue(s[..|s| - 1])
  }

  /** How many digits `s` holds, underscores skipped. */
  function DigitCount(s: string): nat
    decreases |s|
  {
    if s == [] then 0 else (if IsDigit(s[0]) then 1 else 0) + DigitCount(s[1..])
  }

  /** An optional leading `+` or `-`: whether it was `-`, and the rest. */
  function SplitSign(t: string): (bool, string) {
    if t != [] && (t[0] == '-' || t[0] == '+') then (t[0] == '-', t[1..]) else (false, t)
  }

  /** Python's `int(s)` for a string: surrounding whitespace, an optional sign
      and a digitpart; None where Python raises ValueError. */
  function PyInt(s: string): (r: Option<int>)
    ensures Strip(s) == "" ==> r == None
    ensures r.Some? && r.value < 0 ==> Strip(s)[0] == '-'
  {
    IntLiteral(Strip(s))
  }

  /** The value of an integer literal without surrounding whitespace. */
  function IntLiteral(t: string): Option<int> {
    var sign := SplitSign(t);
    if IsDigitPart(sign.1) then
      Some(if sign.0 then -(PartValue(sign.1) as int) else PartValue(sign.1) as int)
    else None
  }

  /** The position of the first character of `s` that is in `cs`, or `|s|`. */
  function FindChar(s: string, cs: set<char>): (k: nat)
    ensures k <= |s|
    ensures k < |s| ==> s[k] in cs
    ensures forall i :: 0 <= i < k ==> s[i] !in cs
  {
    if s == [] || s[0] in cs then 0 else 1 + FindChar(s[1..], cs)
  }

  function Pow10(n: nat): (r: real)
    ensures r >= 1.0
  {
    if n == 0 then 1.0 else 10.0 * Pow10(n - 1)
  }

  /** 10 to the power `e`, for any integer `e`. */
  function Scale(e: int): (r: real)
    ensures r > 0.0
  {
    if e >= 0 then Pow10(e) else 1.0 / Pow10(-e)
  }

  /** A mantissa `digits`, `digits.`, `digits.digits` or `.digits`. */
  function ParseMantissa(m: string): (r: Option<real>)
    ensures r.Some? ==> r.value >= 0.0
  {
    var j := FindChar(m, {'.'});
    if j == |m| then
      (if IsDigitPart(m) then Some(PartValue(m) as real) else None)
    else
      var ip, fp := m[..j], m[j + 1..];
      if (ip == [] && fp == []) || (ip != [] && !IsDigitPart(ip)) || (fp != [] && !IsDigitPart(fp)) then None
      else Some(PartValue(ip) as real + PartValue(fp) as real / Pow10(DigitCount(fp)))
  }

  /** The exponent after `e` or `E`: an optional sign and a digitpart. */
  function ParseExponent(e: string): Option<int> {
    var sign := SplitSign(e);
    if IsDigitPart(sign.1) then
      Some(if sign.0 then -(PartValue(sign.1) as int) else PartValue(sign.1) as int)
    else None
  }

  /** Python's `float(s)` for a string holding a decimal literal (surrounding
      whitespace, sign, mantissa, exponent); None where Python raises ValueError. */
  function PyFloat(s: string): (r: Option<real>)
    ensures Strip(s) == "" ==> r == None
    ensures r.Some? && r.value < 0.0 ==> Strip(s)[0] == '-'
  {
    FloatLiteral(Strip(s))
  }

  /** The value of a decimal floating-point literal without surrounding whitespace. */
  function FloatLiteral(t: string): (r: Option<real>)
    ensures t == "" ==> r == None
    ensures r.Some? && r.value < 0.0 ==> t[0] == '-'
  {
    var sign := SplitSign(t);
    var v := UnsignedFloat(sign.1);
    if v.None? then None else Some(if sign.0 then -v.value else v.value)
  }

  /** The value of a literal after its sign: a mantissa and an optional exponent. */
  function UnsignedFloat(body: string): (r: Option<real>)
    ensures r.Some? ==> r.value >= 0.0
  {
    var k := FindChar(body, {'e', 'E'});
    var mantissa := ParseMantissa(body[..k]);
    var exponent := if k == |body| then Some(0) else ParseExponent(body[k + 1..]);
    if mantissa.None? || exponent.None? then None
    else
      var v := mantissa.value * Scale(exponent.value);
      assert v >= 0.0;
      Some(v)
  }

  /** `float()` strips its argument itself, so stripping first changes nothing. */
  lemma PyFloatStrip(s: string)
    ensures PyFloat(Strip(s)) == PyFloat(s)
  {
    StripIdempotent(s);
  }

  /** app.py's `safe_float`: None for None, for an empty or whitespace-only
      string and for a string `float()` rejects; otherwise exactly what
      `float()` gives. */
  function SafeFloat(val: Option<string>): (r: Option<real>)
    ensures val.None? ==> r == None
    ensures val.Some? ==> r == PyFloat(val.value)
    ensures val.Some? && Strip(val.value) == "" ==> r == None
  {
    if val.None? then None
    else
      var v := Strip(val.value);
      PyFloatStrip(val.value);
      if v == "" then None else PyFloat(v)
  }

  /** A string that starts and ends with a digit is its own strip. */
  lemma StripUnspaced(s: string)
    requires s != [] && IsDigit(s[0]) && IsDigit(s[|s| - 1])
    ensures Strip(s) == s
  {
    assert !IsSpace(s[0]) && !IsSpace(s[|s| - 1]);
    StripTrimmed(s);
  }

  /** A string of ASCII digits is a digitpart. */
  lemma {:induction false} DigitsAreDigitPart(s: string)
    requires s != [] && forall i :: 0 <= i < |s| ==> IsDigit(s[i])
    ensures IsDigitPart(s)
    decreases |s|
  {
    if |s| > 1 {
      DigitsAreDigitPart(s[1..]);
    }
  }

  /** `int()` reads a string of ASCII digits as its decimal value (leading
      zeros allowed, as in `int("0900") == 900`). */
  lemma PyIntOfDigits(s: string)
    requires s != [] && forall i :: 0 <= i < |s| ==> IsDigit(s[i])
    ensures PyInt(s) == Some(PartValue(s) as int)
  {
    assert IsDigit(s[0]) && IsDigit(s[|s| - 1]);
    StripUnspaced(s);
    assert SplitSign(s) == (false, s);
    DigitsAreDigitPart(s);
  }

  /** A string of ASCII digits has as many digits as characters. */
  lemma {:induction false} DigitCountOfDigits(s: string)
    requires AllDigits(s)
    ensures DigitCount(s) == |s|
    decreases |s|
  {
    if s != [] {
      DigitCountOfDigits(s[1..]);
    }
  }

  /** A string of ASCII digits holds no character of a set without digits. */
  lemma FindCharInDigits(s: string, cs: set<char>)
    requires AllDigits(s) && forall c :: c in cs ==> !IsDigit(c)
    ensures FindChar(s, cs) == |s|
  {
  }

  /** The first `.` of `ip.fp` is the one after `ip`. */
  lemma FindPoint(ip: string, fp: string)
    requires AllDigits(ip)
    ensures FindChar(ip + "." + fp, {'.'}) == |ip|
  {
    var m := ip + "." + fp;
    var j := FindChar(m, {'.'});
    assert m[|ip|] in {'.'};
    assert forall i :: 0 <= i < |ip| ==> m[i] == ip[i];
  }

  /** The mantissa `ip` made of ASCII digits has the value its digits spell. */
  lemma WholeMantissa(ip: string)
    requires ip != [] && AllDigits(ip)
    ensures ParseMantissa(ip) == Some(PartValue(ip) as real)
  {
    FindCharInDigits(ip, {'.'});
    DigitsAreDigitPart(ip);
  }

  /** The mantissa `ip.fp` made of ASCII digits has the value its digits spell. */
  lemma PointMantissa(ip: string, fp: string)
    requires ip != [] && fp != [] && AllDigits(ip) && AllDigits(fp)
    ensures ParseMantissa(ip + "." + fp) == Some(PartValue(ip) as real + PartValue(fp) as real / Pow10(|fp|))
  {
    PointSplit(ip, fp);
    DigitsAreDigitPart(ip);
    DigitsAreDigitPart(fp);
    DigitCountOfDigits(fp);
    MantissaAtPoint(ip + "." + fp, ip, fp);
  }

  /** `ip.fp` splits at its first `.` into `ip` and `fp`. */
  lemma PointSplit(ip: string, fp: string)
    requires AllDigits(ip)
    ensures FindChar(ip + "." + fp, {'.'}) == |ip| < |ip + "." + fp|
    ensures (ip + "." + fp)[..|ip|] == ip && (ip + "." + fp)[|ip| + 1..] == fp
  {
    FindPoint(ip, fp);
  }

  /** A mantissa whose first `.` splits it into two digitparts, the second
      of them all digits. */
  lemma MantissaAtPoint(m: string, ip: string, fp: string)
    requires FindChar(m, {'.'}) == |ip| < |m|
    requires m[..|ip|] == ip && m[|ip| + 1..] == fp
    requires IsDigitPart(ip) && IsDigitPart(fp) && DigitCount(fp) == |fp|
    ensures ParseMantissa(m) == Some(PartValue(ip) as real + PartValue(fp) as real / Pow10(|fp|))
  {
  }

  /** A literal `t` without sign or exponent: `float()` reads its mantissa. */
  lemma FloatLiteralOfMantissa(t: string)
    requires t != [] && IsDigit(t[0]) && 'e' !in t && 'E' !in t
    ensures FloatLiteral(t) == ParseMantissa(t)
  {
    assert SplitSign(t) == (false, t);
    assert FindChar(t, {'e', 'E'}) == |t|;
    assert t[..|t|] == t;
    assert UnsignedFloat(t) == ParseMantissa(t);
  }

  /** An unsigned literal `t` with a leading minus reads as the negation of
      `t`, and is rejected exactly when `t` is. */
  lemma FloatLiteralNegate(t: string)
    requires t != [] && IsDigit(t[0])
    ensures FloatLiteral("-" + t).Some? <==> FloatLiteral(t).Some?
    ensures FloatLiteral(t).Some? ==> FloatLiteral("-" + t) == Some(-FloatLiteral(t).value)
  {
    assert SplitSign(t) == (false, t);
    assert ("-" + t)[1..] == t;
    assert SplitSign("-" + t) == (true, t);
  }

  /** `float()` of an unsigned literal that starts with a digit and does not
      end in whitespace, with a leading minus: the negation of `float()` of
      the literal, and rejected exactly when the literal is. */
  lemma PyFloatNegate(t: string)
    requires t != [] && IsDigit(t[0]) && !IsSpace(t[|t| - 1])
    ensures PyFloat("-" + t).Some? <==> PyFloat(t).Some?
    ensures PyFloat(t).Some? ==> PyFloat("-" + t) == Some(-PyFloat(t).value)
  {
    var n := "-" + t;
    assert n[0] == '-' && n[|n| - 1] == t[|t| - 1];
    assert PyFloat(t) == FloatLiteral(t) by {
      StripTrimmed(t);
    }
    assert PyFloat(n) == FloatLiteral(n) by {
      StripTrimmed(n);
    }
    FloatLiteralNegate(t);
  }

  /** A literal `t` without sign or exponent that starts and ends with a
      digit: `float()` reads it as its mantissa. */
  lemma PyFloatOfMantissa(t: string)
    requires t != [] && IsDigit(t[0]) && IsDigit(t[|t| - 1]) && 'e' !in t && 'E' !in t
    ensures PyFloat(t) == ParseMantissa(t)
  {
    FloatLiteralOfMantissa(t);
    StripTrimmed(t);
  }

  /** `ip.fp` made of ASCII digits starts and ends with a digit and has no exponent mark. */
  lemma DecimalShape(ip: string, fp: string)
    requires ip != [] && fp != [] && AllDigits(ip) && AllDigits(fp)
    ensures var m := ip + "." + fp; IsDigit(m[0]) && IsDigit(m[|m| - 1]) && 'e' !in m && 'E' !in m
    ensures var m := ip + "." + fp; !IsSpace(m[0]) && !IsSpace(m[|m| - 1])
  {
    var m := ip + "." + fp;
    assert m[0] == ip[0] && m[|m| - 1] == fp[|fp| - 1];
    assert IsDigit(m[0]) && IsDigit(m[|m| - 1]);
    assert forall i :: 0 <= i < |m| ==> IsDigit(m[i]) || m[i] == '.' by {
      forall i | 0 <= i < |m|
        ensures IsDigit(m[i]) || m[i] == '.'
      {
        if i < |ip| { assert m[i] == ip[i]; } else if i > |ip| { assert m[i] == fp[i - |ip| - 1]; }
      }
    }
  }

  /** `float()` of a whole number made of ASCII digits is the number it spells. */
  lemma PyFloatOfWhole(ip: string)
    requires ip != [] && AllDigits(ip)
    ensures PyFloat(ip) == Some(PartValue(ip) as real)
  {
    WholeMantissa(ip);
    assert IsDigit(ip[0]) && IsDigit(ip[|ip| - 1]) && 'e' !in ip && 'E' !in ip;
    PyFloatOfMantissa(ip);
  }

  /** `float()` of a decimal literal `ip.fp` made of ASCII digits is the number it spells. */
  lemma PyFloatOfDecimal(ip: string, fp: string)
    requires ip != [] && fp != [] && AllDigits(ip) && AllDigits(fp)
    ensures PyFloat(ip + "." + fp) == Some(PartValue(ip) as real + PartValue(fp) as real / Pow10(|fp|))
  {
    PointMantissa(ip, fp);
    DecimalShape(ip, fp);
    PyFloatOfMantissa(ip + "." + fp);
  }

  /** `safe_float` of a literal surrounded by whitespace is `float()` of the literal. */
  lemma SafeFloatPadded(l: string, t: string, r: string)
    requires forall i :: 0 <= i < |l| ==> IsSpace(l[i])
    requires forall i :: 0 <= i < |r| ==> IsSpace(r[i])
    requires t != [] && !IsSpace(t[0]) && !IsSpace(t[|t| - 1])
    ensures SafeFloat(Some(l + t + r)) == PyFloat(t)
  {
    StripPadded(l, t, r);
    PyFloatStrip(l + t + r);
  }

  /** `safe_float` of a whole number made of ASCII digits, surrounded by
      whitespace, is the number it spells. */
  lemma SafeFloatOfWhole(l: string, ip: string, r: string)
    requires ip != [] && AllDigits(ip)
    requires forall i :: 0 <= i < |l| ==> IsSpace(l[i])
    requires forall i :: 0 <= i < |r| ==> IsSpace(r[i])
    ensures SafeFloat(Some(l + ip + r)) == Some(PartValue(ip) as real)
  {
    assert IsDigit(ip[0]) && IsDigit(ip[|ip| - 1]);
    SafeFloatPadded(l, ip, r);
    PyFloatOfWhole(ip);
  }

  /** `safe_float` of a decimal literal `ip.fp` made of ASCII digits,
      surrounded by whitespace, is the number it spells. */
  lemma SafeFloatOfDecimal(l: string, ip: string, fp: string, r: string)
    requires ip != [] && fp != [] && AllDigits(ip) && AllDigits(fp)
    requires forall i :: 0 <= i < |l| ==> IsSpace(l[i])
    requires forall i :: 0 <= i < |r| ==> IsSpace(r[i])
    ensures SafeFloat(Some(l + (ip + "." + fp) + r)) == Some(PartValue(ip) as real + PartValue(fp) as real / Pow10(|fp|))
  {
    DecimalShape(ip, fp);
    PyFloatOfDecimal(ip, fp);
    SafeFloatPadded(l, ip + "." + fp, r);
  }

  /** Python's `round(x)` on an exact value: the nearest integer, ties to even. */
  function RoundHalfEven(x: real): (n: int)
    ensures x - 0.5 <= n as real <= x + 0.5
    ensures n as real - x == 0.5 || x - n as real == 0.5 ==> n % 2 == 0
  {
    var f := x.Floor;
    var frac := x - f as real;
    if frac < 0.5 then f else if frac > 0.5 then f + 1 else if f % 2 == 0 then f else f + 1
  }

  /** Python's `round(d, 2)`: a whole number of hundredths, within half a
      hundredth of `d`. */
  function Round2(d: real): (r: real)
    ensures d - 0.005 <= r <= d + 0.005
    ensures (r * 100.0).Floor as real == r * 100.0
  {
    RoundHalfEven(d * 100.0) as real / 100.0
  }
}
