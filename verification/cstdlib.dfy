/** `atoi` as the C standard defines it (section 7.22.1.2 of ISO/IEC 9899):
    skip leading white space, read an optional sign, then the longest run of
    decimal digits; no digits give 0. Integers are unbounded here: the
    undefined behaviour of an out-of-range value is not modelled. */
module CStdlib {

  predicate IsSpace(c: char) {
    c == ' ' || c == '\t' || c == '\n' || c == '\U{B}' || c == '\U{C}' || c == '\r'
  }

  predicate IsDigit(c: char) {
    '0' <= c <= '9'
  }

  predicate AllDigits(s: string) {
    forall i :: 0 <= i < |s| ==> IsDigit(s[i])
  }

  function DigitValue(c: char): (d: nat)
    requires IsDigit(c)
    ensures d < 10
  {
    (c as int) - ('0' as int)
  }

  function DigitChar(d: nat): (c: char)
    requires d < 10
    ensures IsDigit(c) && DigitValue(c) == d
  {
    (('0' as int) + d) as char
  }

  /** The input with its leading white space removed. */
  function SkipSpace(s: string): (t: string)
    ensures |t| <= |s| && t == s[|s| - |t|..]
    ensures t == [] || !IsSpace(t[0])
  {
    if s != [] && IsSpace(s[0]) then SkipSpace(s[1..]) else s
  }

  /** The longest prefix of `s` made of digits. */
  function LeadingDigits(s: string): (d: string)
    ensures d <= s && AllDigits(d)
    ensures |d| == |s| || !IsDigit(s[|d|])
  {
    if s != [] && IsDigit(s[0]) then [s[0]] + LeadingDigits(s[1..]) else []
  }

  /** The value of a digit string read in base 10, most significant first. */
  function DigitsValue(d: string): nat
    requires AllDigits(d)
  {
    if d == [] then 0 else DigitsValue(d[..|d| - 1]) * 10 + DigitValue(d[|d| - 1])
  }

  /** Whether the white-space-free text starts a number: a digit, or a sign
      followed by a digit. */
  predicate StartsNumber(t: string) {
    (t != [] && IsDigit(t[0])) || (|t| > 1 && (t[0] == '-' || t[0] == '+') && IsDigit(t[1]))
  }

  /** `atoi`. Without a number after the white space the result is 0; a
      leading minus gives a result of at most 0, anything else one of at
      least 0. */
  function Atoi(s: string): (r: int)
    ensures !StartsNumber(SkipSpace(s)) ==> r == 0
    ensures SkipSpace(s) != [] && SkipSpace(s)[0] == '-' ==> r <= 0
    ensures !(SkipSpace(s) != [] && SkipSpace(s)[0] == '-') ==> r >= 0
  {
    var t := SkipSpace(s);
    if t != [] && t[0] == '-' then 0 - DigitsValue(LeadingDigits(t[1..]))
    else if t != [] && t[0] == '+' then DigitsValue(LeadingDigits(t[1..]))
    else DigitsValue(LeadingDigits(t))
  }

  /** Decimal text of a natural number, without leading zeros. */
  function FormatNat(n: nat): (s: string)
    ensures s != [] && AllDigits(s)
    decreases n
  {
    if n < 10 then [DigitChar(n)] else FormatNat(n / 10) + [DigitChar(n % 10)]
  }

  /** Decimal text of an integer, as `printf("%d")` writes it. */
  function FormatInt(n: int): string {
    if n < 0 then "-" + FormatNat(-n) else FormatNat(n)
  }

  lemma {:induction false} DigitsValueOfFormat(n: nat)
    ensures DigitsValue(FormatNat(n)) == n
    decreases n
  {
    var s := FormatNat(n);
    if n >= 10 {
      DigitsValueOfFormat(n / 10);
      assert s[..|s| - 1] == FormatNat(n / 10);
    }
  }

  lemma {:induction false} LeadingDigitsOfDigitsThen(d: string, rest: string)
    requires AllDigits(d)
    requires rest == [] || !IsDigit(rest[0])
    ensures LeadingDigits(d + rest) == d
    decreases |d|
  {
    if d != [] {
      assert (d + rest)[1..] == d[1..] + rest;
      LeadingDigitsOfDigitsThen(d[1..], rest);
    } else {
      assert d + rest == rest;
    }
  }

  lemma {:induction false} DigitsThenRestAtoi(d: string, rest: string)
    requires d != [] && AllDigits(d)
    requires rest == [] || !IsDigit(rest[0])
    ensures Atoi(d + rest) == DigitsValue(d)
  {
    var s := d + rest;
    assert s[0] == d[0] && IsDigit(s[0]);
    assert SkipSpace(s) == s by {
      assert !IsSpace(s[0]);
    }
    assert s[0] != '-' && s[0] != '+';
    LeadingDigitsOfDigitsThen(d, rest);
  }

  lemma {:induction false} SignedDigitsThenRestAtoi(d: string, rest: string)
    requires d != [] && AllDigits(d)
    requires rest == [] || !IsDigit(rest[0])
    ensures Atoi("-" + (d + rest)) == 0 - DigitsValue(d)
  {
    var s := d + rest;
    var m := "-" + s;
    assert m[0] == '-' && m[1..] == s;
    assert SkipSpace(m) == m by {
      assert !IsSpace(m[0]);
    }
    LeadingDigitsOfDigitsThen(d, rest);
  }

  /** `atoi` reads back what `%d` wrote, whatever non-digit text follows. */
  lemma {:induction false} AtoiFormatInt(n: int, rest: string)
    requires rest == [] || !IsDigit(rest[0])
    ensures Atoi(FormatInt(n) + rest) == n
  {
    if n < 0 {
      NegativeFormatAtoi(n, rest);
    } else {
      var d := FormatNat(n);
      DigitsValueOfFormat(n);
      DigitsThenRestAtoi(d, rest);
    }
  }

  lemma {:induction false} NegativeFormatAtoi(n: int, rest: string)
    requires n < 0
    requires rest == [] || !IsDigit(rest[0])
    ensures Atoi(FormatInt(n) + rest) == n
  {
    var m: nat := -n;
    var d := FormatNat(m);
    var s := FormatInt(n) + rest;
    assert s == "-" + (d + rest) by {
      assert FormatInt(n) == "-" + d;
    }
    DigitsValueOfFormat(m);
    SignedDigitsThenRestAtoi(d, rest);
  }

  /** Digits with nothing around them are read as they stand. */
  lemma {:induction false} AtoiOfDigits(d: string)
    requires d != [] && AllDigits(d)
    ensures Atoi(d) == DigitsValue(d)
  {
    DigitsThenRestAtoi(d, []);
    assert d + [] == d;
  }
}
