/**
 * Decimal numerals as JavaScript writes and reads them: `Number.prototype.toString()`
 * on an integer and `parseInt(s, 10)`, restricted to integers (no fractions,
 * exponents or precision loss above 2^53).
 */
module Decimal {
  import opened Wrappers

  predicate IsDigit(c: char) {
    '0' <= c <= '9'
  }

  predicate AllDigits(s: string) {
    forall i :: 0 <= i < |s| ==> IsDigit(s[i])
  }

  function DigitChar(d: int): (c: char)
    requires 0 <= d < 10
    ensures IsDigit(c) && c as int - '0' as int == d
  {
    ('0' as int + d) as char
  }

  /** The value of a string of decimal digits, most significant first. */
  function DigitsValue(s: string): (v: nat)
    requires AllDigits(s)
    ensures s != [] ==> v % 10 == s[|s| - 1] as int - '0' as int
  {
    if s == [] then 0
    else DigitsValue(s[..|s| - 1]) * 10 + (s[|s| - 1] as int - '0' as int)
  }

  /** `n.toString()` for a non-negative integer: its shortest decimal numeral. */
  function NatToString(n: nat): (s: string)
    ensures |s| >= 1 && AllDigits(s)
    ensures s[0] == '0' ==> n == 0
  {
    if n < 10 then [DigitChar(n)]
    else NatToString(n / 10) + [DigitChar(n % 10)]
  }

  /** `i.toString()` for any integer: a minus sign before the numeral of |i|. */
  function IntToString(i: int): (s: string)
    ensures |s| >= 1
    ensures i < 0 <==> s[0] == '-'
    ensures i >= 0 ==> AllDigits(s)
  {
    if i < 0 then "-" + NatToString(-i) else NatToString(i)
  }

  /** The characters `parseInt` skips before the sign (the ECMAScript
      WhiteSpace and LineTerminator characters, without the other Unicode
      space separators). */
  predicate IsJsSpace(c: char) {
    c == '\t' || c == '\U{000B}' || c == '\U{000C}' || c == ' ' || c == '\U{00A0}' ||
    c == '\U{FEFF}' || c == '\n' || c == '\r' || c == '\U{2028}' || c == '\U{2029}'
  }

  /** `s` without its leading white space. */
  function TrimStart(s: string): (t: string)
    ensures |t| <= |s| && t == s[|s| - |t|..]
    ensures t == [] || !IsJsSpace(t[0])
    ensures forall i :: 0 <= i < |s| - |t| ==> IsJsSpace(s[i])
  {
    if s != [] && IsJsSpace(s[0]) then
      var t := TrimStart(s[1..]);
      assert forall i :: 1 <= i < |s| - |t| ==> s[i] == s[1..][i - 1];
      t
    else s
  }

  /** The longest prefix of `s` made of decimal digits. */
  function DigitPrefix(s: string): (p: string)
    ensures |p| <= |s| && p == s[..|p|] && AllDigits(p)
    ensures |p| < |s| ==> !IsDigit(s[|p|])
  {
    if s != [] && IsDigit(s[0]) then [s[0]] + DigitPrefix(s[1..]) else []
  }

  /** `parseInt(s, 10)`: skip leading white space, read an optional sign and
      then as many digits as follow; `None` stands for `NaN` (no digit at all). */
  function ParseInt(s: string): (r: Option<int>)
    ensures r.None? <==> DigitPrefix(Unsigned(TrimStart(s))) == []
  {
    ParseSigned(TrimStart(s))
  }

  /** `parseInt` after the white space: sign, then digits. */
  function ParseSigned(t: string): (r: Option<int>)
    ensures r.None? <==> DigitPrefix(Unsigned(t)) == []
  {
    var digits := DigitPrefix(Unsigned(t));
    if digits == [] then None
    else if t[0] == '-' then Some(-(DigitsValue(digits) as int))
    else Some(DigitsValue(digits) as int)
  }

  /** What follows an optional leading `+` or `-`. */
  function Unsigned(t: string): (u: string)
    ensures |u| <= |t| && u == t[|t| - |u|..]
    ensures |u| < |t| <==> t != [] && (t[0] == '-' || t[0] == '+')
  {
    if t != [] && (t[0] == '-' || t[0] == '+') then t[1..] else t
  }

  lemma {:induction false} DigitsValueSnoc(s: string, c: char)
    requires AllDigits(s) && IsDigit(c)
    ensures AllDigits(s + [c])
    ensures DigitsValue(s + [c]) == DigitsValue(s) * 10 + (c as int - '0' as int)
  {
    assert (s + [c])[..|s + [c]| - 1] == s;
  }

  /** The numeral `NatToString` writes denotes the number it was written for. */
  lemma {:induction false} NatToStringValue(n: nat)
    ensures DigitsValue(NatToString(n)) == n
  {
    if n < 10 {
      assert NatToString(n)[..0] == [];
    } else {
      NatToStringValue(n / 10);
      DigitsValueSnoc(NatToString(n / 10), DigitChar(n % 10));
    }
  }

  lemma {:induction false} DigitPrefixOfDigits(s: string)
    requires AllDigits(s)
    ensures DigitPrefix(s) == s
  {
    if s != [] {
      DigitPrefixOfDigits(s[1..]);
    }
  }

  lemma TrimStartUnspaced(t: string)
    requires t != [] && !IsJsSpace(t[0])
    ensures TrimStart(t) == t
  {
  }

  /** `parseInt` reads a numeral as its value. */
  lemma ParseIntOfNumeral(numeral: string)
    requires numeral != [] && AllDigits(numeral)
    ensures ParseInt(numeral) == Some(DigitsValue(numeral) as int)
  {
    assert TrimStart(numeral) == numeral by {
      assert IsDigit(numeral[0]);
      TrimStartUnspaced(numeral);
    }
    assert Unsigned(numeral) == numeral;
    DigitPrefixOfDigits(numeral);
  }

  lemma MinusSignSkipped(numeral: string)
    requires numeral != [] && IsDigit(numeral[0])
    ensures TrimStart("-" + numeral) == "-" + numeral
    ensures Unsigned("-" + numeral) == numeral
  {
    TrimStartUnspaced("-" + numeral);
  }

  /** `parseInt` reads a minus sign followed by a numeral as the negated value. */
  lemma ParseIntOfNegativeNumeral(numeral: string)
    requires numeral != [] && AllDigits(numeral)
    ensures ParseInt("-" + numeral) == Some(-(DigitsValue(numeral) as int))
  {
    MinusSignSkipped(numeral);
    DigitPrefixOfDigits(numeral);
  }

  /** Round trip: `parseInt(String(i), 10) == i` for every integer `i`. */
  lemma ParseIntOfIntToString(i: int)
    ensures ParseInt(IntToString(i)) == Some(i)
  {
    var n: nat := if i < 0 then -i else i;
    NatToStringValue(n);
    if i < 0 {
      ParseIntOfNegativeNumeral(NatToString(n));
    } else {
      ParseIntOfNumeral(NatToString(n));
    }
  }
}
