/** Python 2's `str(n)` for integers and `int(s)` for strings, in base 10. */
module Decimal {
  import opened Common

  predicate IsDigit(c: char)
  {
    '0' <= c <= '9'
  }

  predicate AllDigits(s: string)
  {
    forall k :: 0 <= k < |s| ==> IsDigit(s[k])
  }

  function DigitChar(d: nat): (c: char)
    requires d < 10
    ensures IsDigit(c) && c as int - '0' as int == d
  {
    ('0' as int + d) as char
  }

  /** The decimal digits of `n`, most significant first, without leading zeros. */
  function NatToString(n: nat): (r: string)
    ensures |r| > 0 && AllDigits(r)
    ensures |r| > 1 ==> r[0] != '0'
    decreases n
  {
    if n < 10 then [DigitChar(n)] else NatToString(n / 10) + [DigitChar(n % 10)]
  }

  /** Python's `str(i)`: a '-' before the digits of a negative number. */
  function IntToString(i: int): string
  {
    if i < 0 then "-" + NatToString(-i) else NatToString(i)
  }

  /** The number a string of decimal digits denotes. */
  function DigitsValue(s: string): nat
    requires AllDigits(s)
    decreases |s|
  {
    if s == [] then 0 else DigitsValue(s[..|s| - 1]) * 10 + (s[|s| - 1] as int - '0' as int)
  }

  /** The characters Python 2's `int()` skips around a number. */
  predicate IsSpace(c: char)
  {
    c == ' ' || c == '\t' || c == '\n' || c == '\r' || c as int == 11 || c as int == 12
  }

  function StripLeft(s: string): string
    decreases |s|
  {
    if s != [] && IsSpace(s[0]) then StripLeft(s[1..]) else s
  }

  function StripRight(s: string): string
    decreases |s|
  {
    if s != [] && IsSpace(s[|s| - 1]) then StripRight(s[..|s| - 1]) else s
  }

  /** Python 2's `int(s)`: optional surrounding blanks, an optional sign followed by optional
      blanks (the sign is consumed before the unsigned conversion skips blanks again), then at
      least one digit. `None` when `int` raises `ValueError`. */
  function ParseInt(s: string): Option<int>
  {
    var t := StripRight(StripLeft(s));
    if |t| > 0 && (t[0] == '-' || t[0] == '+') then
      var digits := StripLeft(t[1..]);
      if |digits| > 0 && AllDigits(digits) then
        var n: int := DigitsValue(digits);
        Some(if t[0] == '-' then -n else n)
      else None
    else if |t| > 0 && AllDigits(t) then Some(DigitsValue(t))
    else None
  }

  lemma {:induction false} DigitsRoundTrip(n: nat)
    ensures DigitsValue(NatToString(n)) == n
    decreases n
  {
    if n >= 10 {
      var s := NatToString(n);
      assert s[..|s| - 1] == NatToString(n / 10);
      DigitsRoundTrip(n / 10);
    }
  }

  /** `int(str(i)) == i` for every integer. */
  lemma ParseIntRoundTrip(i: int)
    ensures ParseInt(IntToString(i)) == Some(i)
  {
    var s := IntToString(i);
    assert StripLeft(s) == s;
    assert StripRight(s) == s;
    if i < 0 {
      assert s[1..] == NatToString(-i);
      assert StripLeft(s[1..]) == s[1..];
      DigitsRoundTrip(-i);
    } else {
      DigitsRoundTrip(i);
    }
  }

  /** Blanks between the sign and the digits are accepted: `int("- 5") == -5`. */
  lemma BlankAfterSign(n: nat, blanks: string)
    requires forall k :: 0 <= k < |blanks| ==> blanks[k] == ' '
    ensures ParseInt("-" + blanks + NatToString(n)) == Some(-(n as int))
    ensures ParseInt("+" + blanks + NatToString(n)) == Some(n as int)
  {
    SignedDigits('-', blanks, n);
    SignedDigits('+', blanks, n);
  }

  lemma SignedDigits(sign: char, blanks: string, n: nat)
    requires sign == '-' || sign == '+'
    requires forall k :: 0 <= k < |blanks| ==> blanks[k] == ' '
    ensures ParseInt([sign] + blanks + NatToString(n)) == Some(if sign == '-' then -(n as int) else n as int)
  {
    var digits := NatToString(n);
    var s := [sign] + blanks + digits;
    assert StripLeft(s) == s;
    assert s[|s| - 1] == digits[|digits| - 1];
    assert StripRight(s) == s;
    assert s[1..] == blanks + digits;
    StripAllBlanks(blanks, digits);
    DigitsRoundTrip(n);
  }

  /** Stripping leading blanks off blanks followed by a digit string leaves the digits. */
  lemma {:induction false} StripAllBlanks(blanks: string, digits: string)
    requires forall k :: 0 <= k < |blanks| ==> blanks[k] == ' '
    requires |digits| > 0 && AllDigits(digits)
    ensures StripLeft(blanks + digits) == digits
    decreases |blanks|
  {
    if blanks != [] {
      assert (blanks + digits)[1..] == blanks[1..] + digits;
      StripAllBlanks(blanks[1..], digits);
    }
  }
}
