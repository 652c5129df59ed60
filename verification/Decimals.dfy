/** Decimal numbers as strconv.Itoa writes and strconv.Atoi reads them. */
module Decimals {
  import opened Wrappers

  const MAX_INT := 0x7fff_ffff_ffff_ffff
  const MIN_INT := -0x8000_0000_0000_0000

  predicate IsDigit(c: char) {
    '0' <= c <= '9'
  }

  predicate AllDigits(s: string) {
    forall i | 0 <= i < |s| :: IsDigit(s[i])
  }

  function Digit(n: nat): (c: char)
    requires n < 10
    ensures IsDigit(c)
  {
    '0' + n as char
  }

  function Digits(n: nat): (s: string)
    ensures s != "" && AllDigits(s)
  {
    if n < 10 then [Digit(n)] else Digits(n / 10) + [Digit(n % 10)]
  }

  function Itoa(n: int): (s: string)
    ensures s != ""
    ensures forall i | 0 <= i < |s| :: IsDigit(s[i]) || (i == 0 && s[0] == '-')
    ensures IsDigit(s[|s| - 1])
  {
    if n < 0 then "-" + Digits(-n) else Digits(n)
  }

  function Value(s: string): nat
    requires AllDigits(s)
  {
    if s == "" then 0
    else
      var last := s[|s| - 1];
      assert IsDigit(last);
      Value(s[..|s| - 1]) * 10 + (last as int - '0' as int)
  }

  /** A sign, at least one digit, nothing else, and no overflow. */
  function Atoi(s: string): Option<int> {
    var signed := s != "" && (s[0] == '-' || s[0] == '+');
    var digits := if signed then s[1..] else s;
    if digits == "" || !AllDigits(digits) then None
    else
      var v: int := if signed && s[0] == '-' then 0 - Value(digits) else Value(digits);
      if MIN_INT <= v <= MAX_INT then Some(v) else None
  }

  lemma {:induction false} ValueDigits(n: nat)
    ensures Value(Digits(n)) == n
  {
    if n >= 10 { ValueDigits(n / 10); }
    assert Digits(n)[..|Digits(n)| - 1] == if n < 10 then "" else Digits(n / 10);
  }

  lemma ItoaValue(n: int)
    ensures var s := Itoa(n);
            if s[0] == '-' then AllDigits(s[1..]) && n == 0 - Value(s[1..]) && n < 0 else AllDigits(s) && n == Value(s)
  {
    if n < 0 {
      ValueDigits(-n);
      assert Itoa(n)[1..] == Digits(-n);
    } else {
      ValueDigits(n);
      assert IsDigit(Digits(n)[0]);
    }
  }

  /** What was written is read back. */
  lemma AtoiItoa(n: int)
    requires MIN_INT <= n <= MAX_INT
    ensures Atoi(Itoa(n)) == Some(n)
  {
    ItoaValue(n);
    if n >= 0 { assert IsDigit(Itoa(n)[0]); }
  }

  lemma ItoaInjective(n: int, m: int)
    requires Itoa(n) == Itoa(m)
    ensures n == m
  {
    ItoaValue(n);
    ItoaValue(m);
  }

  /** What is read holds nothing but digits and a sign. */
  lemma AtoiReads(s: string)
    requires Atoi(s).Some?
    ensures forall i | 0 <= i < |s| :: IsDigit(s[i]) || s[i] == '-' || s[i] == '+'
  {
    if s != "" && (s[0] == '-' || s[0] == '+') {
      assert AllDigits(s[1..]);
      forall i | 0 < i < |s| ensures IsDigit(s[i]) { assert s[1..][i - 1] == s[i]; }
    } else {
      assert AllDigits(s);
    }
  }
}
