/** Decimal integers as strconv prints and parses them: int is 64 bits wide. */
module Decimal {
  import opened Strings

  const MIN_INT := -0x8000_0000_0000_0000
  const MAX_INT := 0x7FFF_FFFF_FFFF_FFFF

  predicate InRange(n: int) {
    MIN_INT <= n <= MAX_INT
  }

  predicate IsDigit(c: char) {
    '0' <= c <= '9'
  }

  predicate AllDigits(s: string) {
    forall i :: 0 <= i < |s| ==> IsDigit(s[i])
  }

  function DigitsValue(s: string): nat
    requires AllDigits(s)
  {
    if s == "" then 0 else DigitsValue(s[..|s| - 1]) * 10 + (s[|s| - 1] as int - '0' as int)
  }

  predicate IsSign(c: char) {
    c == '+' || c == '-'
  }

  /** strconv.Atoi (and ParseInt in base 10): an optional sign, at least one
      digit, and a value that fits the integer width. */
  function Atoi(s: string): (r: Option<int>)
    ensures r.Some? ==> InRange(r.value)
  {
    var digits := if s != "" && IsSign(s[0]) then s[1..] else s;
    if digits == "" || !AllDigits(digits) then None
    else
      var magnitude: int := DigitsValue(digits);
      var n := if s[0] == '-' then -magnitude else magnitude;
      if InRange(n) then Some(n) else None
  }

  function NatText(n: nat): (s: string)
    ensures |s| >= 1 && AllDigits(s)
  {
    var last := [('0' as int + n % 10) as char];
    if n < 10 then last else NatText(n / 10) + last
  }

  /** fmt's %d. */
  function IntText(n: int): string {
    if n < 0 then "-" + NatText(-n) else NatText(n)
  }

  lemma {:induction false} NatTextValue(n: nat)
    ensures DigitsValue(NatText(n)) == n
  {
    var s := NatText(n);
    if n >= 10 {
      NatTextValue(n / 10);
      assert s[..|s| - 1] == NatText(n / 10);
    } else {
      assert s[..|s| - 1] == "";
    }
  }

  /** Parsing a printed integer of the machine's width gives it back. */
  lemma AtoiIntText(n: int)
    requires InRange(n)
    ensures Atoi(IntText(n)) == Some(n)
  {
    if n < 0 {
      NatTextValue(-n);
      assert IntText(n)[1..] == NatText(-n);
    } else {
      NatTextValue(n);
      assert IsDigit(NatText(n)[0]);
    }
  }

  /** What Atoi reads: a sign or none, then at least one digit, and a value in range. */
  lemma AtoiExactly(sign: string, digits: string)
    requires sign in {"", "+", "-"} && digits != "" && AllDigits(digits)
    ensures var magnitude: int := DigitsValue(digits);
            var n := if sign == "-" then -magnitude else magnitude;
            Atoi(sign + digits) == if InRange(n) then Some(n) else None
  {
    var s := sign + digits;
    if sign == "" {
      assert s == digits && !IsSign(s[0]);
    } else {
      assert s[1..] == digits;
    }
  }

  /** And it reads nothing else. */
  lemma AtoiReadsOnly(s: string) returns (sign: string, digits: string)
    requires Atoi(s).Some?
    ensures sign in {"", "+", "-"} && digits != "" && AllDigits(digits) && s == sign + digits
  {
    sign := if IsSign(s[0]) then [s[0]] else "";
    digits := s[|sign|..];
    assert s[0..] == s;
  }

  /** Each digit counts ten times the ones behind it, so leading zeros count nothing. */
  lemma {:induction false} LeadingDigit(c: char, digits: string)
    requires IsDigit(c) && AllDigits(digits)
    ensures AllDigits([c] + digits)
    ensures DigitsValue([c] + digits) == (c as int - '0' as int) * Power(|digits|) + DigitsValue(digits)
  {
    var s := [c] + digits;
    if digits == "" {
      assert s[..|s| - 1] == "";
    } else {
      var front := digits[..|digits| - 1];
      assert s[..|s| - 1] == [c] + front;
      LeadingDigit(c, front);
    }
  }

  function Power(n: nat): nat {
    if n == 0 then 1 else Power(n - 1) * 10
  }
}
