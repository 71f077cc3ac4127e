/**
 * JavaScript's conversions between numbers and strings, for the integer
 * values the front end passes around (page numbers, genre ids, item ids):
 * `String(n)`, `parseInt(s)` and `Number(s)`.
 */
module Numbers {
  import opened Strings

  /**
   * A JavaScript number as far as the model evaluates it: an integer, NaN,
   * or a numeric literal with a fraction part, an exponent or `Infinity`,
   * whose value the model keeps as its text.
   */
  datatype Num = Int(value: int) | NaN | Unevaluated(literal: string)

  /** The value of `c` as a digit in any radix up to 36, or 36 when it is none. */
  function DigitOf(c: char): (d: nat)
    ensures d <= 36
  {
    if '0' <= c <= '9' then (c - '0') as nat
    else if 'a' <= c <= 'z' then (c - 'a') as nat + 10
    else if 'A' <= c <= 'Z' then (c - 'A') as nat + 10
    else 36
  }

  /** `c` is a digit of base `radix`. */
  predicate IsDigit(c: char, radix: nat) {
    DigitOf(c) < radix
  }

  /** Every character of `s` is a digit of base `radix`. */
  predicate AllDigits(s: string, radix: nat) {
    forall i :: 0 <= i < |s| ==> IsDigit(s[i], radix)
  }

  /** The value of a string of base-`radix` digits, most significant first. */
  function DigitsValue(s: string, radix: nat): nat
    requires AllDigits(s, radix)
  {
    if s == [] then 0 else DigitsValue(s[..|s| - 1], radix) * radix + DigitOf(s[|s| - 1])
  }

  /** The longest prefix of `s` made of base-`radix` digits. */
  function DigitPrefix(s: string, radix: nat): (r: string)
    ensures |r| <= |s| && r == s[..|r|] && AllDigits(r, radix)
    ensures |r| < |s| ==> !IsDigit(s[|r|], radix)
  {
    if s != [] && IsDigit(s[0], radix) then [s[0]] + DigitPrefix(s[1..], radix) else ""
  }

  /** The decimal digit for `d`. */
  function DecimalDigit(d: nat): (c: char)
    requires d < 10
    ensures IsDigit(c, 10) && DigitOf(c) == d
  {
    ('0' as int + d) as char
  }

  /** `String(n)` for a non-negative integer: its decimal digits without leading zeros. */
  function NatToString(n: nat): (s: string)
    ensures s != [] && AllDigits(s, 10)
    ensures DigitsValue(s, 10) == n
    ensures s[0] == '0' ==> n == 0 && s == "0"
  {
    if n < 10 then [DecimalDigit(n)]
    else
      var s := NatToString(n / 10) + [DecimalDigit(n % 10)];
      assert s[..|s| - 1] == NatToString(n / 10);
      s
  }

  /** `String(n)` for an integer. */
  function IntToString(n: int): (s: string)
    ensures s != []
    ensures ',' !in s
  {
    if n < 0 then "-" + NatToString(-n) else NatToString(n)
  }

  /** The sign of an optionally signed numeral and the text after the sign. */
  function SplitSign(s: string): (r: (int, string))
    ensures r.0 == 1 || r.0 == -1
    ensures r.1 == s || (s != [] && (s[0] == '+' || s[0] == '-') && r.1 == s[1..])
  {
    if s != [] && s[0] == '-' then (-1, s[1..])
    else if s != [] && s[0] == '+' then (1, s[1..])
    else (1, s)
  }

  /**
   * `parseInt(s)` without a radix: leading white space, an optional sign,
   * `0x` or `0X` selecting base 16, then the longest run of digits; NaN
   * when that run is empty.
   */
  function ParseInt(s: string): (r: Num)
    ensures r.Int? || r.NaN?
  {
    var signed := SplitSign(TrimStart(s));
    ParseUnsigned(signed.0, signed.1)
  }

  /** The part of `parseInt` after the sign: radix prefix and digit run. */
  function ParseUnsigned(sign: int, body: string): (r: Num)
    ensures r.Int? || r.NaN?
  {
    var hex := StartsWith(body, "0x") || StartsWith(body, "0X");
    var radix := if hex then 16 else 10;
    var digits := DigitPrefix(if hex then body[2..] else body, radix);
    if digits == [] then NaN else Int(sign * DigitsValue(digits, radix))
  }

  /** A decimal numeral with a fraction part or an exponent, or `Infinity` (after the sign). */
  predicate IsDecimalLiteral(s: string) {
    s == "Infinity" ||
    var mantissa := if 'e' in s || 'E' in s then s[..ExponentStart(s)] else s;
    var exponent := if 'e' in s || 'E' in s then s[ExponentStart(s) + 1..] else "";
    var intPart := if '.' in mantissa then mantissa[..IndexOf(mantissa, '.')] else mantissa;
    var fracPart := if '.' in mantissa then mantissa[IndexOf(mantissa, '.') + 1..] else "";
    && AllDigits(intPart, 10) && AllDigits(fracPart, 10)
    && |intPart| + |fracPart| > 0
    && (exponent == "" ==> 'e' !in s && 'E' !in s)
    && (exponent != "" ==> var e := SplitSign(exponent).1; e != "" && AllDigits(e, 10))
  }

  /** The position of the first `e` or `E` in `s`. */
  function ExponentStart(s: string): (i: nat)
    requires 'e' in s || 'E' in s
    ensures i < |s| && (s[i] == 'e' || s[i] == 'E')
  {
    if s[0] == 'e' || s[0] == 'E' then 0 else 1 + ExponentStart(s[1..])
  }

  /**
   * `Number(s)`: the trimmed text read as a whole; the empty text is 0,
   * `0x`/`0o`/`0b` literals are unsigned, anything that is not a numeral is NaN.
   */
  function ToNumber(s: string): (r: Num)
  {
    var t := Trim(s);
    if t == "" then Int(0)
    else if |t| >= 2 && t[0] == '0' && t[1] in "xXoObB" then
      var radix := if t[1] in "xX" then 16 else if t[1] in "oO" then 8 else 2;
      var digits := t[2..];
      if digits != [] && AllDigits(digits, radix) then Int(DigitsValue(digits, radix)) else NaN
    else
      var (sign, body) := SplitSign(t);
      if body != [] && AllDigits(body, 10) then Int(sign * DigitsValue(body, 10))
      else if IsDecimalLiteral(body) then Unevaluated(t)
      else NaN
  }

  /** `String(x)` for a number as the model represents it. */
  function NumToString(x: Num): string {
    match x
    case Int(n) => IntToString(n)
    case NaN => "NaN"
    case Unevaluated(t) => t
  }

  /** `parseInt` reads back every integer that `String` writes. */
  lemma ParseIntOfString(n: int)
    ensures ParseInt(IntToString(n)) == Int(n)
  {
    var s := IntToString(n);
    var m: nat := if n < 0 then -n else n;
    var digits := NatToString(m);
    NumeralHasNoSpace(s);
    var sign := if n < 0 then -1 else 1;
    assert SplitSign(s) == (sign, digits);
    ParseUnsignedOfDigits(sign, m);
  }

  /** A numeral written by `String` does not start with white space. */
  lemma NumeralHasNoSpace(s: string)
    requires s != [] && (s[0] == '-' || IsDigit(s[0], 10))
    ensures TrimStart(s) == s
  {
  }

  /** The digits `String` writes for `m` are read back as `m`. */
  lemma ParseUnsignedOfDigits(sign: int, m: nat)
    ensures ParseUnsigned(sign, NatToString(m)) == Int(sign * m)
  {
    var digits := NatToString(m);
    assert !StartsWith(digits, "0x") && !StartsWith(digits, "0X");
    DigitPrefixOfDigits(digits, 10);
  }

  /** A run of digits is its own longest digit prefix. */
  lemma {:induction false} DigitPrefixOfDigits(s: string, radix: nat)
    requires AllDigits(s, radix)
    ensures DigitPrefix(s, radix) == s
  {
    if s != [] {
      DigitPrefixOfDigits(s[1..], radix);
    }
  }

  /** `Number` reads back every integer that `String` writes. */
  lemma ToNumberOfString(n: int)
    ensures ToNumber(IntToString(n)) == Int(n)
  {
    var s := IntToString(n);
    var digits := NatToString(if n < 0 then -n else n);
    TrimOfNumeral(s);
    assert SplitSign(s).1 == digits;
  }

  /** `Number("1")` is 1. */
  lemma ToNumberOfOne()
    ensures ToNumber("1") == Int(1)
  {
    ToNumberOfString(1);
    assert IntToString(1) == "1";
  }

  /** A numeral written by `String` has no white space to trim. */
  lemma TrimOfNumeral(s: string)
    requires s != [] && (s[0] == '-' || IsDigit(s[0], 10))
    requires AllDigits(s[1..], 10)
    ensures Trim(s) == s
  {
    NumeralHasNoSpace(s);
    assert !IsSpace(s[|s| - 1]);
  }

  /** The decimal text of every id, in order. */
  function IdStrings(ids: seq<int>): (r: seq<string>)
    ensures |r| == |ids|
    ensures forall i :: 0 <= i < |ids| ==> r[i] == IntToString(ids[i])
  {
    if ids == [] then [] else [IntToString(ids[0])] + IdStrings(ids[1..])
  }

  /** `ids.join(',')` for a list of integer ids. */
  function JoinIds(ids: seq<int>): (s: string)
    ensures s == "" <==> ids == []
  {
    if ids != [] then JoinNonEmpty(IdStrings(ids), ','); Join(IdStrings(ids), ',')
    else ""
  }
}
