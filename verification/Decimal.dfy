/**
 Decimal text of numbers, as std::to_string writes and std::from_chars reads it.
 */
module Decimal {

  predicate IsDigit(c: char) {
    '0' <= c <= '9'
  }

  predicate AllDigits(s: string) {
    forall i :: 0 <= i < |s| ==> IsDigit(s[i])
  }

  function Digits(n: nat): (r: string)
    ensures |r| > 0 && AllDigits(r)
    ensures (n < 10 <==> |r| == 1) && (n < 100 ==> |r| <= 2) && (n < 1000 ==> |r| <= 3) && (n < 10000 ==> |r| <= 4)
  {
    (if n < 10 then "" else Digits(n / 10)) + ['0' + (n % 10) as char]
  }

  function Value(s: string): nat
    requires AllDigits(s)
  {
    if s == "" then 0 else 10 * Value(s[..|s| - 1]) + (s[|s| - 1] - '0') as nat
  }

  lemma {:induction false} ValueOfDigits(n: nat)
    ensures Value(Digits(n)) == n
  {
    var s := Digits(n);
    if n >= 10 {
      assert s[..|s| - 1] == Digits(n / 10);
      ValueOfDigits(n / 10);
    } else {
      assert s[..0] == "";
    }
  }

  lemma DigitsInjective(a: nat, b: nat)
    requires Digits(a) == Digits(b)
    ensures a == b
  {
    ValueOfDigits(a);
    ValueOfDigits(b);
  }

  /** With a minus sign for negative numbers. */
  function Text(n: int): string {
    if n < 0 then "-" + Digits(-n) else Digits(n)
  }

  /** What from_chars reads from all of `s`: an optional minus sign and at least
      one digit, leading zeros allowed. */
  function Read(s: string): (bool, int) {
    if s != "" && s[0] == '-' then
      if |s| > 1 && AllDigits(s[1..]) then
        var v: int := Value(s[1..]);
        (true, -v)
      else (false, 0)
    else if s != "" && AllDigits(s) then (true, Value(s))
    else (false, 0)
  }

  lemma ReadSigned(d: string)
    requires d != "" && AllDigits(d)
    ensures Read(d) == (true, Value(d)) && Read("-" + d) == (true, 0 - Value(d))
  {
    hide Value, AllDigits;
    assert ("-" + d)[1..] == d;
    assert d[0] != '-' by { FirstIsDigit(d); }
  }

  lemma FirstIsDigit(d: string)
    requires d != "" && AllDigits(d)
    ensures IsDigit(d[0])
  {
  }

  lemma ReadText(n: int)
    ensures Read(Text(n)) == (true, n)
  {
    var m: nat := if n < 0 then -n else n;
    ValueOfDigits(m);
    ReadSigned(Digits(m));
    hide Read, Digits, Value, AllDigits;
  }
}
