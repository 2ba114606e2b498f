/** Decimal numbers in paths. */
module Decimals {

  predicate IsDigit(c: char) { '0' <= c <= '9' }

  /** `fmt.Sprint(n)` */
  function Decimal(n: nat): (s: string)
    ensures |s| > 0 && forall c | c in s :: IsDigit(c)
  {
    var digit := [(n % 10) as char + '0'];
    if n < 10 then digit else Decimal(n / 10) + digit
  }

  function DigitValue(c: char): nat
    requires IsDigit(c)
  {
    c as int - '0' as int
  }

  function Value(s: string): nat
    requires forall c | c in s :: IsDigit(c)
  {
    if s == "" then 0 else 10 * Value(s[..|s| - 1]) + DigitValue(s[|s| - 1])
  }

  lemma {:induction false} ReadsBack(n: nat)
    ensures Value(Decimal(n)) == n
  {
    var digit := [(n % 10) as char + '0'];
    if n < 10 {
      assert digit[..0] == "";
    } else {
      ReadsBack(n / 10);
      assert (Decimal(n / 10) + digit)[..|Decimal(n / 10)|] == Decimal(n / 10);
    }
  }

  /** The directory that holds a user's uploads; different users have different ones. */
  function UserRoot(uid: nat): (s: string)
    ensures '/' !in s && s != ""
  {
    "user-" + Decimal(uid)
  }

  lemma UserRootsDiffer(a: nat, b: nat)
    ensures UserRoot(a) == UserRoot(b) ==> a == b
  {
    ReadsBack(a);
    ReadsBack(b);
    assert UserRoot(a)[5..] == Decimal(a) && UserRoot(b)[5..] == Decimal(b);
  }
}
