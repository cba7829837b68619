/** A number as it is written: decimal digits, no sign, no leading zero. */
module Decimal {
  predicate IsDigit(c: char) {
    '0' <= c <= '9'
  }

  predicate AllDigits(s: string) {
    forall i | 0 <= i < |s| :: IsDigit(s[i])
  }

  function Digit(n: nat): char
    requires n < 10
  {
    '0' + n as char
  }

  function Write(n: nat): (s: string)
    ensures s != [] && AllDigits(s)
  {
    if n < 10 then [Digit(n)] else Write(n / 10) + [Digit(n % 10)]
  }

  /** The number a text of digits names, leading zeros included. */
  function Read(s: string): nat
    requires AllDigits(s)
  {
    if s == [] then 0 else 10 * Read(s[..|s| - 1]) + (s[|s| - 1] - '0') as nat
  }

  lemma {:induction false} ReadWrite(n: nat)
    ensures Read(Write(n)) == n
  {
    if n >= 10 {
      ReadWrite(n / 10);
      assert Write(n)[..|Write(n)| - 1] == Write(n / 10);
    }
  }
}
