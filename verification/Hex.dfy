/** Hexadecimal digits, by their ASCII codes. */
module Hex {
  import opened Bytes
  import opened Options

  function Digit(upper: bool, n: nat): byte
    requires n < 16
  {
    if n < 10 then 48 + n else if upper then 55 + n else 87 + n
  }

  function Value(c: int): Option<nat> {
    if 48 <= c <= 57 then Some(c - 48)
    else if 65 <= c <= 70 then Some(c - 55)
    else if 97 <= c <= 102 then Some(c - 87)
    else None
  }

  lemma RoundTrip(upper: bool, n: nat)
    requires n < 16
    ensures Value(Digit(upper, n)) == Some(n) && Digit(upper, n) != 58
  {
  }

  lemma Digits(n: nat)
    requires n < 16
    ensures Digit(true, n) as char == "0123456789ABCDEF"[n] && Digit(false, n) as char == "0123456789abcdef"[n]
  {
  }

  /** Nothing else is a digit. */
  lemma OnlyDigits(c: nat)
    requires c < 256
    ensures Value(c).Some? <==> c as char in "0123456789ABCDEFabcdef"
  {
  }
}
