/**
 * The JavaScript string operations the services rely on: prefix tests,
 * number-to-text conversion as template literals do it (`${n}` on an
 * integer), and the global `parseInt` with no radix argument.
 */
module Strings {
  import opened Wrappers

  predicate StartsWith(s: string, prefix: string) {
    |prefix| <= |s| && s[..|prefix|] == prefix
  }

  predicate IsDecimalDigit(c: char) {
    '0' <= c <= '9'
  }

  function DigitChar(d: nat): (c: char)
    requires d < 10
    ensures IsDecimalDigit(c)
  {
    (48 + d) as char
  }

  /** The decimal text of a natural number, without leading zeros. */
  function NatToString(n: nat): (r: string)
    ensures |r| >= 1
    ensures forall i :: 0 <= i < |r| ==> IsDecimalDigit(r[i])
    ensures n >= 10 ==> |r| >= 2 && r[0] != '0'
    ensures 1 <= n < 10 ==> r[0] != '0'
    ensures |r| >= 2 ==> r[0] != '0'
    decreases n
  {
    if n < 10 then [DigitChar(n)] else NatToString(n / 10) + [DigitChar(n % 10)]
  }

  /** `String(n)` for an integer-valued JavaScript number. */
  function IntToString(n: int): (r: string)
    ensures forall i :: 0 <= i < |r| ==> r[i] != ':'
  {
    if n < 0 then "-" + NatToString(-n) else NatToString(n)
  }

  // ---------------------------------------------------------------------
  // parseInt(string) with the radix left undefined (ECMA-262, section
  // 19.2.5): skip leading white space, take an optional sign, switch to
  // radix 16 after a "0x"/"0X" prefix, then read the longest run of digits;
  // no digit at all gives NaN, here None.
  // ---------------------------------------------------------------------

  /** WhiteSpace and LineTerminator code points of ECMA-262 (section 12.2, 12.3). */
  predicate IsJsSpace(c: char) {
    var n := c as int;
    n == 9 || n == 10 || n == 11 || n == 12 || n == 13 || n == 32 || n == 0xA0
    || n == 0x1680 || (0x2000 <= n <= 0x200A) || n == 0x2028 || n == 0x2029
    || n == 0x202F || n == 0x205F || n == 0x3000 || n == 0xFEFF
  }

  function TrimStart(s: string): (r: string)
    ensures |r| <= |s| && r == s[|s| - |r|..]
    ensures forall i :: 0 <= i < |s| - |r| ==> IsJsSpace(s[i])
    ensures r == [] || !IsJsSpace(r[0])
  {
    if s != [] && IsJsSpace(s[0]) then TrimStart(s[1..]) else s
  }

  /** The value of a digit in radices up to 36; 36 for a character that is no digit. */
  function DigitValue(c: char): nat {
    if '0' <= c <= '9' then c as nat - '0' as nat
    else if 'a' <= c <= 'z' then c as nat - 'a' as nat + 10
    else if 'A' <= c <= 'Z' then c as nat - 'A' as nat + 10
    else 36
  }

  predicate IsDigitIn(c: char, radix: nat) {
    DigitValue(c) < radix
  }

  /** Length of the longest prefix of `s` made of digits of the radix. */
  function DigitRun(s: string, radix: nat): (n: nat)
    ensures n <= |s|
    ensures forall i :: 0 <= i < n ==> IsDigitIn(s[i], radix)
    ensures n < |s| ==> !IsDigitIn(s[n], radix)
  {
    if s == [] || !IsDigitIn(s[0], radix) then 0 else 1 + DigitRun(s[1..], radix)
  }

  /** Positional value of a string of digits, most significant first. */
  function DigitsValue(s: string, radix: nat): nat
    requires forall i :: 0 <= i < |s| ==> IsDigitIn(s[i], radix)
  {
    if s == [] then 0
    else
      var high := DigitsValue(s[..|s| - 1], radix);
      NonNegativeProduct(high, radix);
      high * radix + DigitValue(s[|s| - 1])
  }

  lemma NonNegativeProduct(a: nat, b: nat)
    ensures a * b >= 0
  {
  }

  /** The unsigned part of `parseInt`: radix 16 after a "0x"/"0X" prefix, else 10, then the digit run. */
  function ParseUnsigned(unsigned: string): Option<nat> {
    var hex := |unsigned| >= 2 && unsigned[0] == '0' && (unsigned[1] == 'x' || unsigned[1] == 'X');
    var radix := if hex then 16 else 10;
    var digits := if hex then unsigned[2..] else unsigned;
    var n := DigitRun(digits, radix);
    if n == 0 then None
    else Some(DigitsValue(digits[..n], radix))
  }

  /** `parseInt` after the white space: an optional sign, then the unsigned part. */
  function ParseSigned(s: string): Option<int> {
    if s != [] && s[0] == '-' then
      match ParseUnsigned(s[1..])
      case None => None
      case Some(v) => Some(-(v as int))
    else if s != [] && s[0] == '+' then
      match ParseUnsigned(s[1..])
      case None => None
      case Some(v) => Some(v)
    else
      match ParseUnsigned(s)
      case None => None
      case Some(v) => Some(v)
  }

  function ParseInt(input: string): Option<int> {
    ParseSigned(TrimStart(input))
  }

  lemma {:induction false} NatToStringValue(n: nat)
    ensures DigitsValue(NatToString(n), 10) == n
    decreases n
  {
    var s := NatToString(n);
    if n >= 10 {
      NatToStringValue(n / 10);
      assert s[..|s| - 1] == NatToString(n / 10);
    }
  }

  /** A decimal text as `String` writes a natural number: digits only, no leading zero. */
  predicate DecimalText(digits: string) {
    && |digits| >= 1
    && (forall i :: 0 <= i < |digits| ==> IsDecimalDigit(digits[i]))
    && (|digits| >= 2 ==> digits[0] != '0')
  }

  lemma ParseUnsignedDecimal(digits: string)
    requires DecimalText(digits)
    ensures ParseUnsigned(digits) == Some(DigitsValue(digits, 10))
  {
    assert DigitRun(digits, 10) == |digits|;
    assert digits[..|digits|] == digits;
  }

  /** A text that does not start with white space is read by the sign stage directly. */
  lemma ParseIntNoSpace(text: string)
    requires text != [] && !IsJsSpace(text[0])
    ensures ParseInt(text) == ParseSigned(text)
  {
    assert TrimStart(text) == text;
  }

  /** A leading minus negates what the unsigned stage reads after it. */
  lemma ParseSignedMinus(digits: string, v: nat)
    requires ParseUnsigned(digits) == Some(v)
    ensures ParseSigned("-" + digits) == Some(-(v as int))
  {
    assert ("-" + digits)[1..] == digits;
  }

  /** `parseInt` reads a decimal text as its value. */
  lemma ParseIntDecimal(digits: string)
    requires DecimalText(digits)
    ensures ParseInt(digits) == Some(DigitsValue(digits, 10))
  {
    var c := digits[0];
    assert IsDecimalDigit(c);
    assert c != '-' && c != '+' && !IsJsSpace(c);
    ParseIntNoSpace(digits);
    ParseUnsignedDecimal(digits);
  }

  /** A minus sign before a text the unsigned stage reads as `v` makes `parseInt` read `-v`. */
  lemma ParseIntNegated(digits: string, v: nat)
    requires ParseUnsigned(digits) == Some(v)
    ensures ParseInt("-" + digits) == Some(-(v as int))
  {
    ParseSignedMinus(digits, v);
    assert ("-" + digits)[0] == '-';
    ParseIntNoSpace("-" + digits);
  }

  /** `parseInt` reads back exactly the number `String` wrote. */
  lemma ParseIntToString(n: int)
    ensures ParseInt(IntToString(n)) == Some(n)
  {
    var m: nat := if n < 0 then -n else n;
    var digits := NatToString(m);
    NatToStringValue(m);
    ParseIntDecimal(digits);
    ParseUnsignedDecimal(digits);
    ParseIntNegated(digits, m);
    assert IntToString(n) == if n < 0 then "-" + digits else digits;
  }

  /** Different integers have different decimal texts. */
  lemma IntToStringInjective(a: int, b: int)
    requires IntToString(a) == IntToString(b)
    ensures a == b
  {
    ParseIntToString(a);
    ParseIntToString(b);
  }
}
