/**
 * Decimal digits, shared by the contact and NIC rules and by the booking
 * reference.
 */
module Digits {
  /** `\d` (and `[0-9]`) in a JavaScript regular expression: the ASCII digits only. */
  predicate IsDigit(c: char) {
    '0' <= c <= '9'
  }

  predicate AllDigits(s: string) {
    forall i :: 0 <= i < |s| ==> IsDigit(s[i])
  }
}
