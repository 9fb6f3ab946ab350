/** Decimal numbers as `printf`, `std::to_string` and `std::stol` write and read them. */
module Decimals {
  function Digit(d: nat): char
    requires d < 10
  {
    "0123456789"[d]
  }

  predicate IsDigit(c: char) {
    '0' <= c <= '9'
  }

  function Decimal(n: nat): string {
    (if n < 10 then "" else Decimal(n / 10)) + [Digit(n % 10)]
  }

  /** `std::to_string` of a signed number. */
  function Signed(n: int): string {
    if n < 0 then "-" + Decimal(-n) else Decimal(n)
  }

  function LeadingValue(s: string, acc: nat): nat {
    if s == "" || !IsDigit(s[0]) then acc else LeadingValue(s[1..], acc * 10 + (s[0] as int - '0' as int))
  }

  predicate Digits(s: string) {
    s != "" && forall i :: 0 <= i < |s| ==> IsDigit(s[i])
  }

  lemma {:induction false} LeadingConcat(a: string, b: string, acc: nat)
    requires forall i :: 0 <= i < |a| ==> IsDigit(a[i])
    ensures LeadingValue(a + b, acc) == LeadingValue(b, LeadingValue(a, acc))
  {
    if a == "" {
      assert a + b == b;
    } else {
      LeadingConcat(a[1..], b, acc * 10 + (a[0] as int - '0' as int));
      assert (a + b)[1..] == a[1..] + b;
    }
  }

  lemma {:induction false} DecimalValue(n: nat)
    ensures Digits(Decimal(n)) && LeadingValue(Decimal(n), 0) == n
  {
    var last := [Digit(n % 10)];
    assert last[1..] == "";
    if n < 10 {
      assert Decimal(n) == last;
    } else {
      DecimalValue(n / 10);
      LeadingConcat(Decimal(n / 10), last, 0);
    }
  }

  function Power10(k: nat): nat {
    if k == 0 then 1 else 10 * Power10(k - 1)
  }

  lemma {:induction false} DecimalLength(n: nat, k: nat)
    requires k > 0 && n < Power10(k)
    ensures |Decimal(n)| <= k
  {
    if n >= 10 {
      assert k > 1;
      DecimalLength(n / 10, k - 1);
    }
  }

  /** What digits in front of others are worth. */
  lemma {:induction false} LeadingValueFrom(s: string, acc: nat)
    requires forall i :: 0 <= i < |s| ==> IsDigit(s[i])
    ensures LeadingValue(s, acc) == acc * Power10(|s|) + LeadingValue(s, 0) && LeadingValue(s, 0) < Power10(|s|)
  {
    if s != "" {
      var n := s[0] as int - '0' as int;
      LeadingValueFrom(s[1..], acc * 10 + n);
      LeadingValueFrom(s[1..], n);
      Distribute(acc, n, Power10(|s| - 1));
      TopDigit(n, LeadingValue(s[1..], 0), Power10(|s| - 1));
    }
  }

  lemma Distribute(acc: nat, n: nat, p: nat)
    ensures (acc * 10 + n) * p == acc * (10 * p) + n * p
  {
  }

  lemma TopDigit(n: nat, rest: nat, p: nat)
    requires n <= 9 && rest < p
    ensures n * p + rest < 10 * p
  {
  }
}
