/** Small shared helpers: an optional value and decimal formatting of naturals. */
module Util {

  datatype Option<T> = None | Some(value: T)

  /** No element occurs twice. */
  predicate Distinct<T(==)>(s: seq<T>)
  {
    forall i, j :: 0 <= i < j < |s| ==> s[i] != s[j]
  }

  /** The decimal digit of `d`, which must be below ten. */
  function Digit(d: nat): (c: char)
    requires d < 10
    ensures '0' <= c <= '9' && c as int - '0' as int == d
  {
    "0123456789"[d]
  }

  /** Decimal notation of `n`, as Python's `str(n)` writes a non-negative int. */
  function NatToString(n: nat): (s: string)
    ensures |s| >= 1
    ensures forall i :: 0 <= i < |s| ==> '0' <= s[i] <= '9'
  {
    if n < 10 then [Digit(n)] else NatToString(n / 10) + [Digit(n % 10)]
  }

  /** The number a string of decimal digits denotes, read most significant digit first. */
  function DigitsValue(s: string): int
  {
    if |s| == 0 then 0 else 10 * DigitsValue(s[..|s| - 1]) + (s[|s| - 1] as int - '0' as int)
  }

  /** `NatToString` writes `n` itself: its digits read back to `n`. */
  lemma {:induction false} NatToStringValue(n: nat)
    ensures DigitsValue(NatToString(n)) == n
  {
    if n >= 10 {
      NatToStringValue(n / 10);
      var s := NatToString(n);
      assert s[..|s| - 1] == NatToString(n / 10);
    }
  }

  /** Different numbers are written differently, so the waypoint names `name_path1`, `name_path2`, ... differ. */
  lemma NatToStringInjective(n: nat, m: nat)
    ensures NatToString(n) == NatToString(m) ==> n == m
  {
    NatToStringValue(n);
    NatToStringValue(m);
  }

  // Euclidean remainder facts the solver does not find on its own.

  lemma MulMonotone(m: int, nb: int)
    requires nb >= 1
    ensures m >= 1 ==> m * nb >= nb
    ensures m <= -1 ==> m * nb <= -nb
  {
    if m >= 1 { MulStep(m - 1, nb); }
    else if m <= -1 { MulStep(-m - 1, nb); assert m * nb == -((-m - 1) * nb) - nb; }
  }

  lemma MulStep(m: nat, nb: int)
    requires nb >= 1
    ensures m * nb + nb >= nb
  {
  }

  lemma ModUnique(a: int, nb: int, q: int, r: int)
    requires nb >= 1 && a == q * nb + r && 0 <= r < nb
    ensures a % nb == r
  {
    var q2, r2 := a / nb, a % nb;
    assert (q - q2) * nb == r2 - r;
    MulMonotone(q - q2, nb);
  }

  lemma ModShift(a: nat, nb: int)
    requires nb >= 1
    ensures (a + nb) % nb == a % nb
  {
    var q, r := a / nb, a % nb;
    assert a + nb == (q + 1) * nb + r;
    ModUnique(a + nb, nb, q + 1, r);
  }
}
