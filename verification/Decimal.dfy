/** Decimal text as printf("%d") and Rust's to_string write it and as strtol reads it. */
module Decimal {

  function Digit(d: nat): char
    requires d < 10
  {
    '0' + d as char
  }

  predicate IsDigit(c: char) {
    '0' <= c <= '9'
  }

  predicate AllDigits(s: string) {
    forall i :: 0 <= i < |s| ==> IsDigit(s[i])
  }

  function DigitValue(c: char): nat
    requires IsDigit(c)
  {
    (c - '0') as nat
  }

  function Show(n: nat): string {
    if n < 10 then [Digit(n)] else Show(n / 10) + [Digit(n % 10)]
  }

  /** The number a digit string denotes; leading zeros are allowed. */
  function Value(s: string): nat
    requires AllDigits(s)
  {
    if s == [] then 0 else 10 * Value(s[..|s| - 1]) + DigitValue(s[|s| - 1])
  }

  /** No leading zero, except for "0" itself. */
  predicate Canonical(s: string) {
    s != [] && AllDigits(s) && (|s| > 1 ==> s[0] != '0')
  }

  function Pow10(k: nat): nat {
    if k == 0 then 1 else 10 * Pow10(k - 1)
  }

  lemma {:induction false} ShowThenValue(n: nat)
    ensures Canonical(Show(n)) && Value(Show(n)) == n
    ensures n != 0 ==> Show(n)[0] != '0'
  {
    if n >= 10 {
      ShowThenValue(n / 10);
      assert Show(n)[..|Show(n)| - 1] == Show(n / 10);
    }
  }

  lemma {:induction false} ValueThenShow(s: string)
    requires Canonical(s)
    ensures Show(Value(s)) == s
    ensures Value(s) == 0 ==> s == "0"
  {
    var front := s[..|s| - 1];
    if front == [] {
      assert s == [s[0]];
    } else {
      assert Canonical(front);
      ValueThenShow(front);
      assert s == front + [s[|s| - 1]];
    }
  }

  /** Fewer than k digits are needed below 10^k. */
  lemma {:induction false} ShowLength(n: nat, k: nat)
    requires 0 < k && n < Pow10(k)
    ensures |Show(n)| <= k
  {
    if n >= 10 {
      ShowLength(n / 10, k - 1);
    }
  }

  lemma ShowInjective(m: nat, n: nat)
    requires Show(m) == Show(n)
    ensures m == n
  {
    ShowThenValue(m);
    ShowThenValue(n);
  }

  const DIGITS := "0123456789"

  /** Digits are written with the last one last. */
  lemma ShowDigits(m: nat, d: nat)
    requires d < 10
    ensures Show(d) == [DIGITS[d]]
    ensures m > 0 ==> Show(10 * m + d) == Show(m) + [DIGITS[d]]
  {
  }

  /** And read so. */
  lemma ValueDigits(s: string, d: nat)
    requires d < 10 && forall i :: 0 <= i < |s| ==> s[i] in DIGITS
    ensures AllDigits(s) && AllDigits(s + [DIGITS[d]])
    ensures Value("") == 0 && Value(s + [DIGITS[d]]) == 10 * Value(s) + d
  {
    var t := s + [DIGITS[d]];
    assert t[..|t| - 1] == s;
  }
}
