/**
 * The two JavaScript number/text conversions the statistics page relies on:
 * the global `parseInt` with no radix (ECMAScript section 19.2.5), used as
 * "parse-or-zero" by the quota renderer, and the decimal rendering of a
 * non-negative integer, used when query parameters are written out.
 * Numbers are mathematical integers: rounding of values beyond 2^53 is not modelled.
 */
module NumberText {

  /** What `parseInt` returns: `NaN`, or an integer value. */
  datatype Parsed = NaN | Num(value: int)

  /** The characters `String.prototype.trimStart` removes: WhiteSpace and LineTerminator. */
  predicate IsJsWhitespace(c: char) {
    c == ' ' || c == '\t' || c == '\n' || c == '\r' || c == '\U{0B}' || c == '\U{0C}'
    || c == '\U{A0}' || c == '\U{1680}' || ('\U{2000}' <= c <= '\U{200A}')
    || c == '\U{2028}' || c == '\U{2029}' || c == '\U{202F}' || c == '\U{205F}'
    || c == '\U{3000}' || c == '\U{FEFF}'
  }

  /** Strips leading whitespace. */
  function TrimStart(s: string): (r: string)
    ensures |r| <= |s| && r == s[|s| - |r|..]
    ensures forall i :: 0 <= i < |s| - |r| ==> IsJsWhitespace(s[i])
    ensures r == [] || !IsJsWhitespace(r[0])
  {
    if s != [] && IsJsWhitespace(s[0]) then TrimStart(s[1..]) else s
  }

  predicate IsDecimalDigit(c: char) {
    '0' <= c <= '9'
  }

  /** A digit of the given radix (10 or 16), in either letter case. */
  predicate IsDigit(c: char, radix: nat) {
    if radix == 16 then IsDecimalDigit(c) || 'a' <= c <= 'f' || 'A' <= c <= 'F'
    else IsDecimalDigit(c)
  }

  function DigitValue(c: char): (d: nat)
    ensures IsDecimalDigit(c) ==> d < 10
    ensures IsDigit(c, 16) ==> d < 16
  {
    if IsDecimalDigit(c) then c as nat - '0' as nat
    else if 'a' <= c <= 'f' then c as nat - 'a' as nat + 10
    else if 'A' <= c <= 'F' then c as nat - 'A' as nat + 10
    else 0
  }

  /** The length of the longest prefix of `s` made of digits of `radix`. */
  function DigitPrefixLength(s: string, radix: nat): (n: nat)
    ensures n <= |s|
    ensures forall i :: 0 <= i < n ==> IsDigit(s[i], radix)
    ensures n < |s| ==> !IsDigit(s[n], radix)
  {
    if s == [] || !IsDigit(s[0], radix) then 0 else 1 + DigitPrefixLength(s[1..], radix)
  }

  /** The value of a digit string, most significant digit first. */
  function DigitsValue(z: string, radix: nat): nat {
    if z == [] then 0 else DigitsValue(z[..|z| - 1], radix) * radix + DigitValue(z[|z| - 1])
  }

  /** The text after leading whitespace and one optional sign character. */
  function Unsigned(s: string): string {
    var t := TrimStart(s);
    if t != [] && (t[0] == '+' || t[0] == '-') then t[1..] else t
  }

  /** Whether the first non-whitespace character is a minus sign. */
  predicate IsNegative(s: string) {
    var t := TrimStart(s);
    t != [] && t[0] == '-'
  }

  /** Reads the digits after the sign: a "0x"/"0X" prefix selects radix 16, otherwise radix 10. */
  function ReadMagnitude(u: string): (r: Parsed)
    ensures r.Num? ==> r.value >= 0
  {
    var hex := |u| >= 2 && u[0] == '0' && (u[1] == 'x' || u[1] == 'X');
    var radix := if hex then 16 else 10;
    var body := if hex then u[2..] else u;
    var n := DigitPrefixLength(body, radix);
    if n == 0 then NaN else Num(DigitsValue(body[..n], radix))
  }

  /** The global `parseInt(s)` with the radix left undefined (a reference definition). */
  function ParseInt(s: string): (r: Parsed)
    ensures r.Num? && !IsNegative(s) ==> r.value >= 0
    ensures r.Num? && IsNegative(s) ==> r.value <= 0
  {
    match ReadMagnitude(Unsigned(s))
    case NaN => NaN
    case Num(m) => Num(if IsNegative(s) then -m else m)
  }

  /** `parseInt(s) || 0`: `NaN` (and the negative zero) become 0. */
  function ParseIntOrZero(s: string): (v: int)
    ensures ParseInt(s) == NaN ==> v == 0
    ensures ParseInt(s).Num? ==> v == ParseInt(s).value
  {
    match ParseInt(s)
    case NaN => 0
    case Num(m) => m
  }

  function DigitChar(d: nat): (c: char)
    requires d < 10
    ensures IsDecimalDigit(c) && DigitValue(c) == d
  {
    ('0' as nat + d) as char
  }

  /** `String(n)` for a non-negative integer: its shortest decimal form. */
  function DecimalString(n: nat): (s: string)
    ensures s != []
    ensures forall i :: 0 <= i < |s| ==> IsDecimalDigit(s[i])
    ensures s[0] == '0' ==> n == 0 && s == "0"
  {
    if n < 10 then [DigitChar(n)] else DecimalString(n / 10) + [DigitChar(n % 10)]
  }

  /** `String(v)` for any integer. */
  function IntString(v: int): (s: string)
    ensures v >= 0 ==> s == DecimalString(v)
    ensures v < 0 ==> s == "-" + DecimalString(-v)
  {
    if v >= 0 then DecimalString(v) else "-" + DecimalString(-v)
  }

  lemma {:induction false} DecimalStringValue(n: nat)
    ensures DigitsValue(DecimalString(n), 10) == n
  {
    if n >= 10 {
      var s := DecimalString(n);
      assert s[..|s| - 1] == DecimalString(n / 10);
      DecimalStringValue(n / 10);
    }
  }

  lemma {:induction false} DigitPrefixOfDigits(z: string, rest: string)
    requires forall i :: 0 <= i < |z| ==> IsDecimalDigit(z[i])
    requires rest == [] || !IsDecimalDigit(rest[0])
    ensures DigitPrefixLength(z + rest, 10) == |z|
  {
    if z != [] {
      assert (z + rest)[1..] == z[1..] + rest;
      DigitPrefixOfDigits(z[1..], rest);
    } else {
      assert z + rest == rest;
    }
  }

  /** Text starting with a digit has no white space or sign to strip. */
  lemma UnsignedOfDigitStart(s: string)
    requires s != [] && IsDecimalDigit(s[0])
    ensures Unsigned(s) == s && !IsNegative(s)
  {
    assert !IsJsWhitespace(s[0]);
    assert TrimStart(s) == s;
  }

  /** The magnitude read from `String(n)`, followed by text that neither continues it nor makes it hexadecimal. */
  lemma ReadMagnitudeOfDecimal(n: nat, rest: string)
    requires rest == [] || (!IsDecimalDigit(rest[0]) && (n != 0 || (rest[0] != 'x' && rest[0] != 'X')))
    ensures ReadMagnitude(DecimalString(n) + rest) == Num(n)
  {
    var d := DecimalString(n);
    var s := d + rest;
    assert !(|s| >= 2 && s[0] == '0' && (s[1] == 'x' || s[1] == 'X')) by {
      if |d| >= 2 {
        assert s[0] == d[0] && s[1] == d[1];
      } else if |s| >= 2 {
        assert s[1] == rest[0];
      }
    }
    DigitPrefixOfDigits(d, rest);
    assert s[..|d|] == d;
    DecimalStringValue(n);
  }

  /**
   * `parseInt` reads back what `String(n)` writes, and stops at the first
   * character that is not a digit, as in `parseInt("12abc") == 12` and
   * `parseInt("5x") == 5`. (Only "0" followed by "x" or "X" switches to
   * hexadecimal, so that one case is excluded.)
   */
  lemma ParseIntOfDecimalPrefix(n: nat, rest: string)
    requires rest == [] || (!IsDecimalDigit(rest[0]) && (n != 0 || (rest[0] != 'x' && rest[0] != 'X')))
    ensures ParseInt(DecimalString(n) + rest) == Num(n)
    ensures ParseIntOrZero(DecimalString(n) + rest) == n
  {
    var s := DecimalString(n) + rest;
    assert s[0] == DecimalString(n)[0];
    UnsignedOfDigitStart(s);
    ReadMagnitudeOfDecimal(n, rest);
  }

  /** Text not starting with white space is its own trimmed form. */
  lemma TrimStartOfNonSpace(s: string)
    requires s != [] && !IsJsWhitespace(s[0])
    ensures TrimStart(s) == s
  {
  }

  /** A leading minus sign negates the value read. */
  lemma ParseIntOfNegativeDecimal(n: nat)
    ensures ParseInt("-" + DecimalString(n)) == Num(-(n as int))
  {
    var d := DecimalString(n);
    var s := "-" + d;
    TrimStartOfNonSpace(s);
    assert s[1..] == d + [];
    ReadMagnitudeOfDecimal(n, []);
    assert Unsigned(s) == d + [];
    assert IsNegative(s);
  }

  /** `parseInt` reads back `String(v)` for every integer `v`. */
  lemma ParseIntOfIntString(v: int)
    ensures ParseInt(IntString(v)) == Num(v)
  {
    if v >= 0 {
      ParseIntOfDecimalPrefix(v, []);
      assert DecimalString(v) + [] == DecimalString(v);
    } else {
      ParseIntOfNegativeDecimal(-v);
    }
  }

  /**
   * Text that does not start (after whitespace and a sign) with a decimal
   * digit is not a number: "parse-or-zero" yields 0 and never fails.
   */
  lemma ParseIntOfNonNumeric(s: string)
    requires Unsigned(s) == [] || !IsDecimalDigit(Unsigned(s)[0])
    ensures ParseInt(s) == NaN
    ensures ParseIntOrZero(s) == 0
  {
  }

  /** `parseInt` looks only at the text after leading white space. */
  lemma ParseIntSeesTrimmedText(s: string, t: string)
    requires TrimStart(s) == TrimStart(t)
    ensures ParseInt(s) == ParseInt(t)
  {
    assert Unsigned(s) == Unsigned(t);
    assert IsNegative(s) == IsNegative(t);
    assert ReadMagnitude(Unsigned(s)) == ReadMagnitude(Unsigned(t));
  }

  lemma TrimStartSkipsSpace(c: char, s: string)
    requires IsJsWhitespace(c)
    ensures TrimStart([c] + s) == TrimStart(s)
  {
    assert ([c] + s)[1..] == s;
  }

  /** Leading whitespace is ignored. */
  lemma ParseIntIgnoresLeadingWhitespace(c: char, s: string)
    requires IsJsWhitespace(c)
    ensures ParseInt([c] + s) == ParseInt(s)
  {
    TrimStartSkipsSpace(c, s);
    ParseIntSeesTrimmedText([c] + s, s);
  }

  /** The magnitude read from "0x1A" is hexadecimal 1A. */
  lemma HexMagnitude()
    ensures ReadMagnitude("0x1A") == Num(26)
  {
    var u := "0x1A";
    assert DigitPrefixLength("1A", 16) == 2 by {
      assert "1A"[1..] == "A" && "A"[1..] == [];
    }
    assert DigitsValue("1A", 16) == 26 by {
      assert "1A"[..1] == "1" && "1"[..0] == [];
    }
    assert u[2..] == "1A" && "1A"[..2] == "1A";
  }

  /** A "0x" prefix switches to hexadecimal. */
  lemma HexPrefixExample()
    ensures ParseIntOrZero("0x1A") == 26
  {
    var u := "0x1A";
    assert TrimStart(u) == u by { assert !IsJsWhitespace(u[0]); }
    assert !IsNegative(u);
    assert Unsigned(u) == u;
    HexMagnitude();
  }
}
