/**
 * JavaScript's `parseInt(s, 10)` on strings, as section 19.2.5 of ECMA-262
 * defines it: leading white space is skipped, one sign is read, then the
 * longest run of decimal digits; no digits gives NaN (`None` here).
 */
module JsParseInt {
  import opened Wrappers

  /** StrWhiteSpaceChar: white space and line terminators. */
  predicate IsWhiteSpace(c: char) {
    var n := c as int;
    n == 0x09 || n == 0x0A || n == 0x0B || n == 0x0C || n == 0x0D || n == 0x20 ||
    n == 0xA0 || n == 0x1680 || (0x2000 <= n <= 0x200A) || n == 0x2028 || n == 0x2029 ||
    n == 0x202F || n == 0x205F || n == 0x3000 || n == 0xFEFF
  }

  predicate IsDigit(c: char) {
    '0' <= c <= '9'
  }

  predicate AllDigits(s: string) {
    forall i :: 0 <= i < |s| ==> IsDigit(s[i])
  }

  function DigitValue(c: char): (d: nat)
    requires IsDigit(c)
    ensures d < 10
  {
    c as int - '0' as int
  }

  function DigitChar(d: nat): (c: char)
    requires d < 10
    ensures IsDigit(c) && DigitValue(c) == d
  {
    ('0' as int + d) as char
  }

  /** The string with its leading white space removed. */
  function TrimStart(s: string): (r: string)
    ensures |r| <= |s| && r == s[|s| - |r|..]
    ensures r == [] || !IsWhiteSpace(r[0])
  {
    if s != [] && IsWhiteSpace(s[0]) then TrimStart(s[1..]) else s
  }

  /** The longest prefix of `s` made only of decimal digits. */
  function DigitPrefix(s: string): (r: string)
    ensures |r| <= |s| && r == s[..|r|]
    ensures AllDigits(r)
    ensures |r| == |s| || !IsDigit(s[|r|])
  {
    if s != [] && IsDigit(s[0]) then [s[0]] + DigitPrefix(s[1..]) else []
  }

  /** The number a string of decimal digits denotes, most significant first. */
  function DigitsValue(ds: string): nat
    requires AllDigits(ds)
  {
    if ds == [] then 0 else DigitsValue(ds[..|ds| - 1]) * 10 + DigitValue(ds[|ds| - 1])
  }

  /** Whether the number is negative: the first character after the white space is a minus sign. */
  predicate Negative(s: string) {
    var t := TrimStart(s);
    t != [] && t[0] == '-'
  }

  /** What follows the leading white space and at most one sign. */
  function Unsigned(s: string): string {
    var t := TrimStart(s);
    if t != [] && (t[0] == '+' || t[0] == '-') then t[1..] else t
  }

  /** `parseInt(s, 10)`; `None` stands for NaN. */
  function ParseInt10(s: string): (r: Option<int>)
    ensures r.None? <==> Unsigned(s) == [] || !IsDigit(Unsigned(s)[0])
  {
    var digits := DigitPrefix(Unsigned(s));
    var magnitude: int := DigitsValue(digits);
    if digits == [] then None else Some(if Negative(s) then -magnitude else magnitude)
  }

  /** The decimal numeral of `n`, without leading zeros. */
  function Decimal(n: nat): (s: string)
    ensures s != [] && AllDigits(s)
    ensures |s| > 1 ==> s[0] != '0'
  {
    if n < 10 then [DigitChar(n)] else Decimal(n / 10) + [DigitChar(n % 10)]
  }

  lemma {:induction false} DecimalValue(n: nat)
    ensures DigitsValue(Decimal(n)) == n
  {
    if n >= 10 {
      var s := Decimal(n);
      assert s[..|s| - 1] == Decimal(n / 10);
      DecimalValue(n / 10);
    }
  }

  /** Reading digits stops at the first character that is not a digit. */
  lemma {:induction false} DigitPrefixOfDigits(ds: string, rest: string)
    requires AllDigits(ds)
    requires rest == [] || !IsDigit(rest[0])
    ensures DigitPrefix(ds + rest) == ds
  {
    if ds == [] {
    } else {
      assert (ds + rest)[1..] == ds[1..] + rest;
      DigitPrefixOfDigits(ds[1..], rest);
    }
  }

  /** A string that starts with a digit parses to the value of its leading digits. */
  lemma ParseLeadingDigits(s: string)
    requires s != [] && IsDigit(s[0])
    ensures ParseInt10(s) == Some(DigitsValue(DigitPrefix(s)))
  {
    assert !IsWhiteSpace(s[0]);
    assert TrimStart(s) == s;
    assert Unsigned(s) == s && !Negative(s);
  }

  /** A string that starts with something other than white space, a sign or a digit is NaN. */
  lemma ParseNoLeadingDigit(s: string)
    requires s != [] && !IsWhiteSpace(s[0]) && !IsDigit(s[0]) && s[0] != '+' && s[0] != '-'
    ensures ParseInt10(s).None?
  {
    assert TrimStart(s) == s;
    assert Unsigned(s) == s;
  }

  /** Once the sign and the digits are known, the result follows. */
  lemma NegativeDigits(s: string, ds: string)
    requires Negative(s) && ds != [] && DigitPrefix(Unsigned(s)) == ds
    ensures ParseInt10(s) == Some(-(DigitsValue(ds) as int))
  {
  }

  /** A leading minus sign is the sign, and what follows it is read as digits. */
  lemma AfterMinusSign(t: string)
    ensures Unsigned(['-'] + t) == t && Negative(['-'] + t)
  {
    var s := ['-'] + t;
    assert s[0] == '-' && !IsWhiteSpace('-');
    assert TrimStart(s) == s;
    assert s[1..] == t;
  }

  /** Digits followed by a unit parse to the value of the digits. */
  lemma ParseDigitsWithUnit(ds: string, unit: string)
    requires ds != [] && AllDigits(ds)
    requires unit == [] || !IsDigit(unit[0])
    ensures ParseInt10(ds + unit) == Some(DigitsValue(ds))
  {
    var s := ds + unit;
    assert s[0] == ds[0];
    ParseLeadingDigits(s);
    DigitPrefixOfDigits(ds, unit);
  }

  /** A minus sign, digits and a unit parse to the negated value of the digits. */
  lemma ParseMinusDigitsWithUnit(ds: string, unit: string)
    requires ds != [] && AllDigits(ds)
    requires unit == [] || !IsDigit(unit[0])
    ensures ParseInt10(['-'] + (ds + unit)) == Some(-(DigitsValue(ds) as int))
  {
    var t := ds + unit;
    AfterMinusSign(t);
    DigitPrefixOfDigits(ds, unit);
    NegativeDigits(['-'] + t, ds);
  }

  /** A numeral followed by a unit such as "px" parses back to its number. */
  lemma ParseDecimal(n: nat, unit: string)
    requires unit == [] || !IsDigit(unit[0])
    ensures ParseInt10(Decimal(n) + unit) == Some(n)
  {
    ParseDigitsWithUnit(Decimal(n), unit);
    DecimalValue(n);
  }

  /** A minus sign in front negates the parsed number. */
  lemma ParseNegativeDecimal(n: nat, unit: string)
    requires unit == [] || !IsDigit(unit[0])
    ensures ParseInt10(['-'] + (Decimal(n) + unit)) == Some(-(n as int))
  {
    var ds := Decimal(n);
    assert ParseInt10(['-'] + (ds + unit)) == Some(-(DigitsValue(ds) as int)) by {
      ParseMinusDigitsWithUnit(ds, unit);
    }
    assert DigitsValue(ds) == n by {
      DecimalValue(n);
    }
  }
}
