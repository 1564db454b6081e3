/** Decimal printing (`%d`) and its inverse. */
module Decimal {

  predicate IsDigit(c: char) { '0' <= c <= '9' }

  predicate Digits(s: string) { forall i :: 0 <= i < |s| ==> IsDigit(s[i]) }

  function Dec(n: nat): (r: string)
    ensures r != [] && Digits(r)
  {
    var last := ['0' + (n % 10) as char];
    if n < 10 then last else Dec(n / 10) + last
  }

  /** The number a digit string denotes (leading zeros allowed, as in `strconv.Atoi`). */
  function Undec(s: string): nat
    requires Digits(s)
  {
    if s == [] then 0 else 10 * Undec(s[..|s| - 1]) + (s[|s| - 1] - '0') as nat
  }

  lemma {:induction false} UndecDec(n: nat)
    ensures Undec(Dec(n)) == n
  {
    if n >= 10 {
      UndecDec(n / 10);
      assert Dec(n)[..|Dec(n)| - 1] == Dec(n / 10);
    }
  }

  /** Each digit counts ten times the next. */
  lemma DigitsAreDecimal(n: nat, d: nat)
    requires d < 10
    ensures Dec(d) == ["0123456789"[d]] && (n > 0 ==> Dec(10 * n + d) == Dec(n) + ["0123456789"[d]])
  {
  }

  lemma DecInjective(m: nat, n: nat)
    requires Dec(m) == Dec(n)
    ensures m == n
  {
    UndecDec(m);
    UndecDec(n);
  }

  /** `%d` of a possibly negative number. */
  function SignedDec(n: int): (r: string)
    ensures r != []
    ensures forall i :: 0 <= i < |r| ==> IsDigit(r[i]) || r[i] == '-'
  {
    if n < 0 then "-" + Dec(-n) else Dec(n)
  }
}
