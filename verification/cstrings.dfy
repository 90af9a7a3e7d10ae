/** The C string operations the argument handling relies on: the emptiness
    check `s[0] == '\0'`, comparison with a literal (plain equality, since a
    C string holds no NUL before its end), and `atoi`.

    `atoi` skips leading white space (as `isspace` in the C locale defines it),
    reads an optional sign and then as many decimal digits as follow; it
    returns 0 when no digit follows. Values that would not fit a C `int`
    (undefined behaviour in C) are not modelled: the result is the exact value.
 */
module CStrings {

  /** The characters of a C string before its terminating NUL. */
  type CString = s: string | '\0' !in s

  /** `s[0] == '\0'`: the string has no characters before its terminator. */
  predicate IsEmpty(s: CString) {
    |s| == 0
  }

  /** White space in the C locale: space, tab, newline, vertical tab, form feed, carriage return. */
  predicate IsSpace(c: char) {
    c == ' ' || c == '\t' || c == '\n' || c == '\U{000B}' || c == '\U{000C}' || c == '\r'
  }

  predicate IsDigit(c: char) {
    '0' <= c <= '9'
  }

  predicate AllDigits(s: string) {
    forall i :: 0 <= i < |s| ==> IsDigit(s[i])
  }

  /** What remains of `s` after its leading white space. */
  function SkipSpace(s: string): (r: string)
    ensures |r| <= |s| && r == s[|s| - |r|..]
    ensures forall i :: 0 <= i < |s| - |r| ==> IsSpace(s[i])
    ensures |r| == 0 || !IsSpace(r[0])
  {
    if |s| > 0 && IsSpace(s[0]) then SkipSpace(s[1..]) else s
  }

  /** The longest prefix of `s` made of decimal digits. */
  function LeadingDigits(s: string): (r: string)
    ensures |r| <= |s| && r == s[..|r|]
    ensures AllDigits(r)
    ensures |r| < |s| ==> !IsDigit(s[|r|])
  {
    if |s| > 0 && IsDigit(s[0]) then [s[0]] + LeadingDigits(s[1..]) else []
  }

  /** The value of a string of decimal digits, most significant first. */
  function DigitsValue(d: string): nat
    requires AllDigits(d)
  {
    if |d| == 0 then 0
    else DigitsValue(d[..|d| - 1]) * 10 + (d[|d| - 1] as int - '0' as int)
  }

  /** C's `atoi`. */
  function Atoi(s: string): int {
    SignedDigits(SkipSpace(s))
  }

  /** The value `atoi` reads once the leading white space is gone: an optional
      sign followed by the leading digits. */
  function SignedDigits(t: string): int {
    if |t| > 0 && t[0] == '-' then -(DigitsValue(LeadingDigits(t[1..])) as int)
    else if |t| > 0 && t[0] == '+' then DigitsValue(LeadingDigits(t[1..]))
    else DigitsValue(LeadingDigits(t))
  }

  /** The decimal rendering of a natural number, without leading zeros. */
  function NatToString(n: nat): (r: string)
    ensures |r| > 0 && AllDigits(r)
    ensures n > 0 ==> r[0] != '0'
  {
    var last := ['0' + (n % 10) as char];
    if n < 10 then last else NatToString(n / 10) + last
  }

  /** The decimal rendering of an integer, with a leading '-' when negative. */
  function IntToString(n: int): (r: CString)
    ensures |r| > 0 && (n < 0 <==> r[0] == '-')
  {
    if n < 0 then "-" + NatToString(-n) else NatToString(n)
  }

  // ---------------------------------------------------------------------
  // atoi reads back what the decimal rendering writes
  // ---------------------------------------------------------------------

  lemma {:induction false} DigitsValueOfNatToString(n: nat)
    ensures DigitsValue(NatToString(n)) == n
    decreases n
  {
    var r := NatToString(n);
    if n >= 10 {
      DigitsValueOfNatToString(n / 10);
      assert r[..|r| - 1] == NatToString(n / 10);
    }
  }

  /** The digit run stops exactly where the digits stop. */
  lemma {:induction false} LeadingDigitsOfDigitsThen(d: string, rest: string)
    requires AllDigits(d)
    requires |rest| == 0 || !IsDigit(rest[0])
    ensures LeadingDigits(d + rest) == d
    decreases |d|
  {
    if |d| > 0 {
      assert (d + rest)[1..] == d[1..] + rest;
      LeadingDigitsOfDigitsThen(d[1..], rest);
    } else {
      assert d + rest == rest;
    }
  }

  /** Leading white space is skipped in full and nothing after it is. */
  lemma {:induction false} SkipSpaceOfSpaceThen(ws: string, t: string)
    requires forall i :: 0 <= i < |ws| ==> IsSpace(ws[i])
    requires |t| == 0 || !IsSpace(t[0])
    ensures SkipSpace(ws + t) == t
    decreases |ws|
  {
    if |ws| > 0 {
      assert (ws + t)[1..] == ws[1..] + t;
      SkipSpaceOfSpaceThen(ws[1..], t);
    } else {
      assert ws + t == t;
    }
  }

  /** `atoi` of a decimal rendering, after any leading white space and before
      anything that is not a digit, gives back the number. */
  lemma AtoiOfDecimal(ws: string, n: int, rest: string)
    requires forall i :: 0 <= i < |ws| ==> IsSpace(ws[i])
    requires |rest| == 0 || !IsDigit(rest[0])
    ensures Atoi(ws + IntToString(n) + rest) == n
  {
    var t := IntToString(n) + rest;
    assert ws + IntToString(n) + rest == ws + t;
    SkipSpaceOfSpaceThen(ws, t);
    SignedDigitsOfDecimal(n, rest);
  }

  /** Past the white space, the sign and the digit run give back the number. */
  lemma SignedDigitsOfDecimal(n: int, rest: string)
    requires |rest| == 0 || !IsDigit(rest[0])
    ensures SignedDigits(IntToString(n) + rest) == n
  {
    if n < 0 {
      assert IntToString(n) == "-" + NatToString(-n);
      NegativeDigitsOfDecimal(-n, rest);
    } else {
      assert IntToString(n) == NatToString(n);
      UnsignedDigitsOfDecimal(n, rest);
    }
  }

  lemma UnsignedDigitsOfDecimal(m: nat, rest: string)
    requires |rest| == 0 || !IsDigit(rest[0])
    ensures SignedDigits(NatToString(m) + rest) == m
  {
    DigitsValueOfNatToString(m);
    LeadingDigitsOfDigitsThen(NatToString(m), rest);
  }

  lemma NegativeDigitsOfDecimal(m: nat, rest: string)
    requires m > 0 && (|rest| == 0 || !IsDigit(rest[0]))
    ensures SignedDigits("-" + NatToString(m) + rest) == -(m as int)
  {
    var t := "-" + NatToString(m) + rest;
    assert t[0] == '-' && t[1..] == NatToString(m) + rest;
    DigitsValueOfNatToString(m);
    LeadingDigitsOfDigitsThen(NatToString(m), rest);
  }

  /** `atoi` of a decimal rendering on its own gives back the number. */
  lemma AtoiOfIntToString(n: int)
    ensures Atoi(IntToString(n)) == n
  {
    var d := IntToString(n);
    assert "" + d + "" == d;
    AtoiOfDecimal("", n, "");
  }

  /** Text that does not start (after white space and an optional sign) with a
      digit reads as 0. */
  lemma AtoiWithoutDigits(s: string)
    requires var t := SkipSpace(s);
      var u := if |t| > 0 && (t[0] == '-' || t[0] == '+') then t[1..] else t;
      |u| == 0 || !IsDigit(u[0])
    ensures Atoi(s) == 0
  {
  }
}
