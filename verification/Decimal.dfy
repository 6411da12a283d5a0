/** Numbers as decimal text. */
module Decimal {
  import opened Basics

  predicate IsDigit(ch: char) { '0' <= ch <= '9' }

  function Value(ch: char): nat
    requires IsDigit(ch)
  {
    ch as int - '0' as int
  }

  function Digit(n: nat): char
    requires n < 10
  {
    ('0' as int + n) as char
  }

  /** The decimal notation of n. */
  function Digits(n: nat): string {
    if n < 10 then [Digit(n)] else Digits(n / 10) + [Digit(n % 10)]
  }

  predicate AllDigits(s: string) { forall i :: 0 <= i < |s| ==> IsDigit(s[i]) }

  function Number(s: string): nat
    requires AllDigits(s)
  {
    if s == [] then 0 else Number(s[..|s| - 1]) * 10 + Value(s[|s| - 1])
  }

  /** A sign may come before the digits. */
  function Atoi(s: string): Option<int> {
    if s == [] then None
    else if s[0] == '+' || s[0] == '-' then
      if |s| == 1 || !AllDigits(s[1..]) then None
      else if s[0] == '-' then Some(-(Number(s[1..]) as int))
      else Some(Number(s[1..]))
    else if AllDigits(s) then Some(Number(s))
    else None
  }

  lemma {:induction false} NumberOfDigits(n: nat)
    ensures Digits(n) != [] && AllDigits(Digits(n)) && Number(Digits(n)) == n
  {
    if n >= 10 {
      NumberOfDigits(n / 10);
      assert Digits(n)[..|Digits(n)| - 1] == Digits(n / 10);
    }
  }

  /** Reading back a number. */
  lemma AtoiDigits(n: nat)
    ensures Atoi(Digits(n)) == Some(n)
  {
    NumberOfDigits(n);
    assert IsDigit(Digits(n)[0]);
  }
}
