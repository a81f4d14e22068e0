/**
  Order numbers: the prefix "ORD" followed by the decimal form of the
  millisecond timestamp, as JavaScript's `'ORD' + Date.now()` spells it.
 */
module Decimal {

  function DigitChar(d: nat): (c: char)
    requires d < 10
    ensures '0' <= c <= '9'
  {
    ('0' as int + d) as char
  }

  function DigitValue(c: char): nat {
    if '0' <= c <= '9' then c as int - '0' as int else 0
  }

  /** The decimal digits of `n`, most significant first, without leading zeros. */
  function Digits(n: nat): (s: string)
    ensures |s| >= 1
    ensures forall i :: 0 <= i < |s| ==> '0' <= s[i] <= '9'
  {
    if n < 10 then [DigitChar(n)] else Digits(n / 10) + [DigitChar(n % 10)]
  }

  /** The value of a string of decimal digits. */
  function Parse(s: string): nat {
    if s == [] then 0 else Parse(s[..|s| - 1]) * 10 + DigitValue(s[|s| - 1])
  }

  lemma {:induction false} ParseDigits(n: nat)
    ensures Parse(Digits(n)) == n
  {
    var s := Digits(n);
    if n >= 10 {
      ParseDigits(n / 10);
      assert s[..|s| - 1] == Digits(n / 10);
    }
  }

  function OrderNumber(now: nat): (s: string)
    ensures |s| > 3 && s[..3] == "ORD"
    ensures Parse(s[3..]) == now
  {
    ParseDigits(now);
    assert ("ORD" + Digits(now))[3..] == Digits(now);
    "ORD" + Digits(now)
  }

  /** Distinct timestamps give distinct order numbers: a clash needs two orders in one millisecond. */
  lemma OrderNumberInjective(a: nat, b: nat)
    ensures OrderNumber(a) == OrderNumber(b) <==> a == b
  {
    if OrderNumber(a) == OrderNumber(b) {
      assert Parse(OrderNumber(a)[3..]) == Parse(OrderNumber(b)[3..]);
    }
  }
}
