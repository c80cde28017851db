// Decimal numerals: as_string and std::to_string on non-negative numbers.
module Decimal {

  function Digit(n: nat): char
    requires n < 10
  {
    "0123456789"[n]
  }

  function Dec(n: nat): string { if n < 10 then [Digit(n)] else Dec(n / 10) + [Digit(n % 10)] }

  // The number a numeral denotes.
  function Number(s: string): nat {
    if s == "" then 0
    else
      var c := s[|s| - 1];
      10 * Number(s[..|s| - 1]) + if '0' <= c <= '9' then (c - '0') as nat else 0
  }

  // Numerals read back, so different numbers have different ones.
  lemma {:induction false} NumberDec(n: nat)
    ensures Number(Dec(n)) == n
  {
    if n < 10 {
      assert [Digit(n)][..0] == "";
    } else {
      NumberDec(n / 10);
      assert (Dec(n / 10) + [Digit(n % 10)])[..|Dec(n / 10)|] == Dec(n / 10);
    }
  }
}
