/** The number built-ins of JavaScript that the pages rely on:
    `Number.parseInt`, `Number.parseFloat`, `Number.prototype.toString`,
    `Math.round`, and the truncation `parseInt` performs on a decimal text.
    Numbers are exact (`int` or `real`); NaN is `None`. */
module JsNumber {
  import opened Common
  import opened JsText

  /** Value of `c` as a digit in base 16 (`hex`) or 10, or -1 when it is not one. */
  function DigitValue(c: char, hex: bool): int
  {
    if '0' <= c <= '9' then c as int - '0' as int
    else if hex && 'a' <= c <= 'f' then c as int - 'a' as int + 10
    else if hex && 'A' <= c <= 'F' then c as int - 'A' as int + 10
    else -1
  }

  predicate IsDigit(c: char, hex: bool)
  {
    DigitValue(c, hex) >= 0
  }

  predicate AllDigits(s: string, hex: bool)
  {
    forall i :: 0 <= i < |s| ==> IsDigit(s[i], hex)
  }

  /** The longest prefix of `s` made of digits of base 16 (`hex`) or 10. */
  function DigitPrefix(s: string, hex: bool): (r: string)
    ensures r <= s && AllDigits(r, hex)
    ensures |r| < |s| ==> !IsDigit(s[|r|], hex)
  {
    if s != [] && IsDigit(s[0], hex) then [s[0]] + DigitPrefix(s[1..], hex) else []
  }

  /** The value of a digit string in base 16 (`hex`) or 10, most significant digit first. */
  function DigitsValue(ds: string, hex: bool): nat
    requires AllDigits(ds, hex)
  {
    if ds == [] then 0
    else if hex then DigitsValue(ds[..|ds| - 1], hex) * 16 + DigitValue(ds[|ds| - 1], hex)
    else DigitsValue(ds[..|ds| - 1], hex) * 10 + DigitValue(ds[|ds| - 1], hex)
  }

  /** `t` with one leading sign character removed. */
  function Unsigned(t: string): string
  {
    if |t| > 0 && (t[0] == '-' || t[0] == '+') then t[1..] else t
  }

  /** The unsigned part of `parseInt`: a `0x`/`0X` prefix selects base 16, then the
      longest run of digits is read; `None` when that run is empty. */
  function ParseMagnitude(u: string): Option<nat>
  {
    var hex := |u| >= 2 && u[0] == '0' && (u[1] == 'x' || u[1] == 'X');
    var z := DigitPrefix(if hex then u[2..] else u, hex);
    if z == [] then None else Some(DigitsValue(z, hex))
  }

  /** `Number.parseInt(s)` with no radix: leading white space skipped, an optional sign,
      then the magnitude; NaN (`None`) when no digit can be read. */
  function ParseInt(s: string): Option<int>
  {
    var t := TrimStart(s);
    match ParseMagnitude(Unsigned(t))
    case None => None
    case Some(m) => Some(if |t| > 0 && t[0] == '-' then -(m as int) else m)
  }

  /** `Number.parseInt(s) || default`: NaN and 0 are both falsy and give `default`. */
  function ParseIntOr(s: string, default: int): int
  {
    match ParseInt(s)
    case None => default
    case Some(n) => if n == 0 then default else n
  }

  function DigitChar(d: nat): (c: char)
    requires d < 10
    ensures IsDigit(c, false) && DigitValue(c, false) == d
  {
    ('0' as int + d) as char
  }

  /** Decimal digits of `n`, no leading zeros. */
  function NatToDigits(n: nat): (r: string)
    ensures |r| >= 1 && AllDigits(r, false)
  {
    if n < 10 then [DigitChar(n)] else NatToDigits(n / 10) + [DigitChar(n % 10)]
  }

  /** `Number.prototype.toString` on an integer. */
  function IntToString(n: int): string
  {
    if n < 0 then "-" + NatToDigits(-n) else NatToDigits(n)
  }

  /** Digits of a fraction `0 <= f < 1`, stopping when it is exhausted or after `fuel` digits. */
  function FracDigits(f: real, fuel: nat): (r: string)
    requires 0.0 <= f < 1.0
    ensures AllDigits(r, false)
    decreases fuel
  {
    if f == 0.0 || fuel == 0 then []
    else
      var d := (f * 10.0).Floor;
      [DigitChar(d)] + FracDigits(f * 10.0 - d as real, fuel - 1)
  }

  /** Truncation toward zero, what `parseInt` keeps of a decimal text. */
  function Trunc(x: real): (r: int)
    ensures x >= 0.0 ==> 0 <= r && r as real <= x < r as real + 1.0
    ensures x < 0.0 ==> r <= 0 && r as real - 1.0 < x <= r as real
  {
    if x >= 0.0 then x.Floor else -((-x).Floor)
  }

  /** How many fraction digits the decimal text keeps. */
  const FractionDigitLimit: nat := 17

  /** The text after the integer part: empty for a whole number, otherwise a point and
      the fraction's digits (cut after 17 of them). */
  function FractionText(f: real): (r: string)
    requires 0.0 <= f < 1.0
    ensures r == [] <==> f == 0.0
    ensures r != [] ==> r[0] == '.'
  {
    if f == 0.0 then "" else "." + FracDigits(f, FractionDigitLimit)
  }

  /** Decimal text of a non-negative number: integer part, then the fraction. */
  function UnsignedText(a: real): string
    requires a >= 0.0
  {
    NatToDigits(a.Floor) + FractionText(a - a.Floor as real)
  }

  /** `Number.prototype.toString` in plain decimal notation: sign, integer part, fraction. */
  function NumberText(x: real): string
  {
    if x < 0.0 then "-" + UnsignedText(-x) else UnsignedText(x)
  }

  /** `Math.round`: the nearest integer, halves rounded up. */
  function Round(x: real): (r: int)
    ensures r as real - 0.5 <= x < r as real + 0.5
  {
    (x + 0.5).Floor
  }

  /** The exponent part `e[+-]digits` of a decimal literal, 0 when absent. */
  function ExponentOf(s: string): int
  {
    if |s| >= 2 && (s[0] == 'e' || s[0] == 'E') then
      var neg := s[1] == '-';
      var ds := DigitPrefix(if s[1] == '-' || s[1] == '+' then s[2..] else s[1..], false);
      if ds == [] then 0 else if neg then -(DigitsValue(ds, false) as int) else DigitsValue(ds, false)
    else 0
  }

  /** The value of the fraction digits `ds` after a decimal point. */
  function FractionValue(ds: string): (r: real)
    requires AllDigits(ds, false)
    ensures 0.0 <= r <= 1.0
  {
    if ds == [] then 0.0 else (DigitValue(ds[0], false) as real + FractionValue(ds[1..])) / 10.0
  }

  /** `m` times ten to the power `e`. */
  function Scaled(m: real, e: int): real
    decreases if e < 0 then -e else e
  {
    if e == 0 then m else if e > 0 then Scaled(m * 10.0, e - 1) else Scaled(m / 10.0, e + 1)
  }

  /** `Number.parseFloat(s)`: leading white space skipped, an optional sign, digits with an
      optional fraction and exponent; NaN (`None`) when no digit precedes or follows the point. */
  function ParseFloat(s: string): Option<real>
  {
    var t := TrimStart(s);
    var neg := |t| > 0 && t[0] == '-';
    var u := if |t| > 0 && (t[0] == '-' || t[0] == '+') then t[1..] else t;
    var ip := DigitPrefix(u, false);
    var rest := u[|ip|..];
    var dot := |rest| > 0 && rest[0] == '.';
    var fp := if dot then DigitPrefix(rest[1..], false) else [];
    if ip == [] && fp == [] then None
    else
      var tail := if dot then rest[1 + |fp|..] else rest;
      var m := DigitsValue(ip, false) as real + FractionValue(fp);
      var v := Scaled(m, ExponentOf(tail));
      Some(if neg then -v else v)
  }

  // ---------------------------------------------------------------------------
  // Facts about the parsers

  lemma {:induction false} DigitsValueOfNatToDigits(n: nat)
    ensures DigitsValue(NatToDigits(n), false) == n
  {
    if n >= 10 {
      var ds := NatToDigits(n);
      assert ds[..|ds| - 1] == NatToDigits(n / 10);
      DigitsValueOfNatToDigits(n / 10);
    }
  }

  /** The digit run stops exactly where the digits stop. */
  lemma {:induction false} DigitPrefixOfDigits(ds: string, rest: string, hex: bool)
    requires AllDigits(ds, hex)
    requires rest == [] || !IsDigit(rest[0], hex)
    ensures DigitPrefix(ds + rest, hex) == ds
  {
    if ds != [] {
      assert (ds + rest)[1..] == ds[1..] + rest;
      DigitPrefixOfDigits(ds[1..], rest, hex);
    } else {
      assert ds + rest == rest;
    }
  }

  /** Reading back the digits of a natural number, followed by nothing or by a fraction,
      gives that number. */
  lemma {:induction false} ParseMagnitudeOfDigits(m: nat, rest: string)
    requires rest == [] || rest[0] == '.'
    ensures ParseMagnitude(NatToDigits(m) + rest) == Some(m)
  {
    var ds := NatToDigits(m);
    var u := ds + rest;
    DigitsValueOfNatToDigits(m);
    DigitPrefixOfDigits(ds, rest, false);
    if |u| >= 2 {
      if |ds| >= 2 {
        assert u[1] == ds[1] && IsDigit(ds[1], false);
      } else {
        assert u[1] == rest[0];
      }
      assert u[1] != 'x' && u[1] != 'X';
    }
    assert DigitPrefix(u, false) == ds;
  }

  /** A text that starts with a sign or a digit has no white space to skip. */
  lemma {:induction false} TrimStartOfNumeral(s: string)
    requires s != [] && (s[0] == '-' || '0' <= s[0] <= '9')
    ensures TrimStart(s) == s
  {
  }

  /** Behind an optional minus sign, a text that starts with a digit is read by
      `parseInt` as its magnitude, negated when the sign is there. */
  lemma {:induction false} ParseIntOfSigned(neg: bool, u: string, m: nat, t: string, k: int)
    requires u != [] && IsDigit(u[0], false) && ParseMagnitude(u) == Some(m)
    requires t == (if neg then "-" else "") + u
    requires k == (if neg then -(m as int) else m)
    ensures ParseInt(t) == Some(k)
  {
    assert t[0] == (if neg then '-' else u[0]);
    TrimStartOfNumeral(t);
    assert Unsigned(t) == u;
  }

  /** Reading back the decimal text of an integer, followed by nothing or by a fraction,
      gives that integer. */
  lemma {:induction false} ParseIntOfDecimal(n: int, rest: string)
    requires rest == [] || rest[0] == '.'
    ensures ParseInt(IntToString(n) + rest) == Some(n)
  {
    var m: nat := if n < 0 then -n else n;
    var u := NatToDigits(m) + rest;
    assert IntToString(n) + rest == (if n < 0 then "-" else "") + u;
    ParseMagnitudeOfDigits(m, rest);
    ParseIntOfSigned(n < 0, u, m, IntToString(n) + rest, n);
  }

  /** `parseInt` of any integer's text is that integer (`toString` and `parseInt` are inverse). */
  lemma {:induction false} ParseIntOfIntToString(n: int)
    ensures ParseInt(IntToString(n)) == Some(n)
  {
    ParseIntOfDecimal(n, []);
    assert IntToString(n) + [] == IntToString(n);
  }

  /** `parseInt` of the decimal text of a non-negative number, behind an optional minus
      sign, keeps its integer part, negated when the sign is there. */
  lemma {:induction false} ParseIntOfUnsignedText(neg: bool, a: real, t: string, k: int)
    requires a >= 0.0
    requires t == (if neg then "-" else "") + UnsignedText(a)
    requires k == (if neg then -(a.Floor as int) else a.Floor)
    ensures ParseInt(t) == Some(k)
  {
    var rest := FractionText(a - a.Floor as real);
    var u := NatToDigits(a.Floor) + rest;
    assert UnsignedText(a) == u;
    assert t == (if neg then "-" else "") + u;
    ParseMagnitudeOfDigits(a.Floor, rest);
    ParseIntOfSigned(neg, u, a.Floor, t, k);
  }

  /** `parseInt` of a number's decimal text truncates the number toward zero. */
  lemma {:induction false} ParseIntOfNumberText(x: real)
    ensures ParseInt(NumberText(x)) == Some(Trunc(x))
  {
    if x < 0.0 {
      ParseIntOfUnsignedText(true, -x, NumberText(x), Trunc(x));
    } else {
      assert NumberText(x) == "" + UnsignedText(x);
      ParseIntOfUnsignedText(false, x, NumberText(x), Trunc(x));
    }
  }

  /** With no fraction and no exponent, `parseFloat` reads the digits' value. */
  lemma {:induction false} ParseFloatOfDigits(t: string, ds: string, neg: bool)
    requires ds != [] && AllDigits(ds, false)
    requires t == (if neg then "-" else "") + ds
    ensures ParseFloat(t) == Some(if neg then -(DigitsValue(ds, false) as real) else DigitsValue(ds, false) as real)
  {
    DigitPrefixOfDigits(ds, [], false);
    assert ds + [] == ds;
    assert TrimStart(t) == t;
    var u := if |t| > 0 && (t[0] == '-' || t[0] == '+') then t[1..] else t;
    assert u == ds;
    assert ds[|ds|..] == [];
    assert ExponentOf([]) == 0;
  }

  /** `parseFloat` of an integer's text is that integer. */
  lemma {:induction false} ParseFloatOfIntToString(n: int)
    ensures ParseFloat(IntToString(n)) == Some(n as real)
  {
    var m: nat := if n < 0 then -n else n;
    DigitsValueOfNatToDigits(m);
    ParseFloatOfDigits(IntToString(n), NatToDigits(m), n < 0);
  }

  /** A whole number prints as the integer it is. */
  lemma {:induction false} NumberTextOfInt(k: int)
    ensures NumberText(k as real) == IntToString(k)
  {
    var a := (if k < 0 then -k else k) as real;
    assert a.Floor == (if k < 0 then -k else k);
    assert FractionText(a - a.Floor as real) == "";
  }

  /** Text without any decimal digit is NaN for `parseInt`. */
  lemma {:induction false} ParseIntWithoutDigits(s: string)
    requires forall i :: 0 <= i < |s| ==> !('0' <= s[i] <= '9')
    ensures ParseInt(s) == None
  {
    TrimStartSpec(s);
    var u := Unsigned(TrimStart(s));
    assert forall i :: 0 <= i < |u| ==> !('0' <= u[i] <= '9');
    assert u == [] || !IsDigit(u[0], false);
  }
}
