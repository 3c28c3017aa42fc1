/**
 * JVM number handling used by the telemetry code: `String.toInt()`/`toLong()` with their range
 * checks, `toString()` of an integer, truncating `/` and `%`, and the decimal subset of
 * `toDoubleOrNull()` (read as an exact `real`).
 */
module Numbers {
  import opened Wrappers
  import opened Strings

  const INT_MIN: int := -0x8000_0000
  const INT_MAX: int := 0x7FFF_FFFF
  const LONG_MIN: int := -0x8000_0000_0000_0000
  const LONG_MAX: int := 0x7FFF_FFFF_FFFF_FFFF

  function Abs(x: int): nat { if x < 0 then -x else x }

  /** JVM integer division: the quotient is truncated toward zero. */
  function Quot(a: int, b: int): (q: int)
    requires b != 0
    ensures Abs(a - q * b) < Abs(b)
    ensures a - q * b == 0 || ((a - q * b < 0) == (a < 0))
    ensures a >= 0 && b > 0 ==> q == a / b
  {
    var q0 := Abs(a) / Abs(b);
    var r0 := Abs(a) % Abs(b);
    assert Abs(a) == q0 * Abs(b) + r0;
    if (a < 0) == (b < 0) then
      assert a - q0 * b == (if a < 0 then -r0 else r0);
      q0
    else
      assert a - (-q0) * b == (if a < 0 then -r0 else r0);
      -q0
  }

  /** JVM remainder: the sign follows the dividend. */
  function Rem(a: int, b: int): (r: int)
    requires b != 0
    ensures a == Quot(a, b) * b + r
    ensures Abs(r) < Abs(b)
    ensures r == 0 || ((r < 0) == (a < 0))
  {
    a - Quot(a, b) * b
  }

  function DigitValue(c: char): (d: nat)
    requires IsAsciiDigit(c)
    ensures d < 10
  {
    c as int - '0' as int
  }

  function DigitChar(d: nat): (c: char)
    requires d < 10
    ensures IsAsciiDigit(c) && DigitValue(c) == d
  {
    ('0' as int + d) as char
  }

  /** The value of a string of decimal digits, most significant first. */
  function DigitsValue(s: string): nat
    requires AllDigits(s)
  {
    if s == [] then 0 else 10 * DigitsValue(s[..|s| - 1]) + DigitValue(s[|s| - 1])
  }

  /** Decimal rendering of a natural number, without leading zeros. */
  function RenderNat(n: nat): (r: string)
    ensures r != [] && AllDigits(r)
    ensures DigitsValue(r) == n
    ensures r[0] == '0' ==> n == 0
  {
    if n < 10 then [DigitChar(n)]
    else
      var r := RenderNat(n / 10) + [DigitChar(n % 10)];
      assert r[..|r| - 1] == RenderNat(n / 10);
      r
  }

  /** `Int.toString()` / `Long.toString()`. */
  function Render(n: int): (r: string)
    ensures r != []
    ensures n >= 0 ==> r == RenderNat(n)
    ensures n < 0 ==> r == "-" + RenderNat(-n)
  {
    if n < 0 then "-" + RenderNat(-n) else RenderNat(n)
  }

  /**
   * `java.lang.Long.parseLong` / `Integer.parseInt` on ASCII text: an optional sign, at least
   * one digit, and a value inside `lo..hi`; anything else throws NumberFormatException (None).
   */
  function ParseInteger(s: string, lo: int, hi: int): (r: Option<int>)
    ensures r.Some? ==> lo <= r.value <= hi
  {
    if s == [] then None
    else
      var body := if s[0] == '-' || s[0] == '+' then s[1..] else s;
      if body == [] || !AllDigits(body) then None
      else
        var v: int := if s[0] == '-' then -(DigitsValue(body) as int) else DigitsValue(body);
        if lo <= v <= hi then Some(v) else None
  }

  /** `String.toInt()`. */
  function ParseInt(s: string): Option<int> { ParseInteger(s, INT_MIN, INT_MAX) }

  /** `String.toLong()`. */
  function ParseLong(s: string): Option<int> { ParseInteger(s, LONG_MIN, LONG_MAX) }

  /** Text that starts with neither a sign nor a digit is not a number. */
  lemma ParseNonNumeric(s: string, lo: int, hi: int)
    requires s != [] && !IsAsciiDigit(s[0]) && s[0] != '-' && s[0] != '+'
    ensures ParseInteger(s, lo, hi) == None
  {
  }

  /** Parsing the rendering of an in-range integer gives the integer back. */
  lemma ParseRender(n: int, lo: int, hi: int)
    requires lo <= n <= hi
    ensures ParseInteger(Render(n), lo, hi) == Some(n)
  {
    var s := Render(n);
    if n < 0 {
      assert s[0] == '-' && s[1..] == RenderNat(-n);
    } else {
      assert IsAsciiDigit(s[0]);
    }
  }

  /** A rendered integer is made of digits after an optional leading minus sign. */
  lemma RenderCharacters(n: int)
    ensures forall i :: 0 <= i < |Render(n)| ==>
      (IsAsciiDigit(Render(n)[i]) || (i == 0 && Render(n)[i] == '-'))
  {
    var s := Render(n);
    if n < 0 {
      forall i | 0 <= i < |s| ensures IsAsciiDigit(s[i]) || (i == 0 && s[i] == '-') {
        if i > 0 { assert s[i] == RenderNat(-n)[i - 1]; }
      }
    }
  }

  function Pow10(k: nat): (p: nat)
    ensures p >= 1
  {
    if k == 0 then 1 else 10 * Pow10(k - 1)
  }

  /** Unsigned decimal: digits, optionally a point and more digits, with at least one digit. */
  function DecimalMagnitude(s: string): (r: Option<real>)
    ensures r.Some? ==> r.value >= 0.0
  {
    var pieces := Split(s, '.');
    if |pieces| == 1 then
      if s != [] && AllDigits(s) then Some(DigitsValue(s) as real) else None
    else if |pieces| == 2 then
      var ip, fp := pieces[0], pieces[1];
      if (ip != [] || fp != []) && AllDigits(ip) && AllDigits(fp)
      then Some(DigitsValue(ip) as real + DigitsValue(fp) as real / Pow10(|fp|) as real)
      else None
    else None
  }

  /**
   * `String.toDoubleOrNull()` restricted to plain decimal notation: an optional sign followed by
   * a decimal magnitude.
   */
  function ParseDecimal(s: string): Option<real> {
    if s != [] && (s[0] == '-' || s[0] == '+') then
      match DecimalMagnitude(s[1..])
      case None => None
      case Some(m) => Some(if s[0] == '-' then -m else m)
    else DecimalMagnitude(s)
  }

  /** A rendered integer reads back as the same decimal number. */
  lemma ParseDecimalRender(n: int)
    ensures ParseDecimal(Render(n)) == Some(n as real)
  {
    var digits := RenderNat(Abs(n));
    assert forall i :: 0 <= i < |digits| ==> digits[i] != '.';
    SplitNoSeparator(digits, '.');
    if n < 0 {
      assert Render(n)[1..] == digits;
    }
  }

  /** The not-available tokens of the log format never read as numbers. */
  lemma SentinelsDoNotParse()
    ensures ParseDecimal("N/A") == None
    ensures ParseDecimal("-") == None
    ensures ParseDecimal("") == None
  {
    assert Split("N/A", '.') == ["N/A"] by { SplitNoSeparator("N/A", '.'); }
    assert !AllDigits("N/A") by { assert !IsAsciiDigit("N/A"[0]); }
    assert "-"[1..] == "";
    assert Split("", '.') == [""];
  }
}
