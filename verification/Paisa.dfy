/** Money is whole paisa and share counts are whole, so the only inexact
    operation in the money path is `q2`: rounding a quotient to the paisa,
    half away from zero. */
module Paisa {

  function Abs(x: int): (r: nat)
    ensures r == x || r == -x
  {
    if x < 0 then -x else x
  }

  function Min(a: int, b: int): (r: int)
    ensures r <= a && r <= b && (r == a || r == b)
  {
    if a < b then a else b
  }

  function Max(a: int, b: int): (r: int)
    ensures r >= a && r >= b && (r == a || r == b)
  {
    if a < b then b else a
  }

  /** `r` is `num / den` rounded half-up: nearest, and a tie goes away from zero. */
  ghost predicate IsRounded(num: int, den: int, r: int)
    requires den > 0
  {
    && -den <= 2 * (r * den - num) <= den
    && (num >= 0 ==> -den < 2 * (r * den - num))
    && (num <= 0 ==> 2 * (r * den - num) < den)
  }

  /** `q2` of the exact quotient `num / den`, both in paisa. */
  function Q2(num: int, den: int): (r: int)
    requires den > 0
    ensures IsRounded(num, den, r)
  {
    if num >= 0 then
      DivisionBounds(2 * num + den, 2 * den);
      (2 * num + den) / (2 * den)
    else
      DivisionBounds(-2 * num + den, 2 * den);
      -((-2 * num + den) / (2 * den))
  }

  lemma DivisionBounds(a: int, d: int)
    requires d > 0
    ensures a / d * d <= a < a / d * d + d
  {
  }

  lemma ProductIsNonNegative(a: int, b: int)
    requires a >= 0 && b >= 0
    ensures a * b >= 0
  {
  }

  lemma Distributes(a: int, b: int, c: int)
    ensures (a + b) * c == a * c + b * c
    ensures (a - b) * c == a * c - b * c
  {
  }

  /** Multiples of `den` are at least `den` apart. */
  lemma MultiplesAreApart(r: int, s: int, den: int)
    requires den > 0
    ensures r < s ==> r * den + den <= s * den
  {
    if r < s {
      ProductIsNonNegative(s - r - 1, den);
      Distributes(s - r, 1, den);
      Distributes(s, r, den);
    }
  }

  /** A larger quotient never rounds to fewer paisa, whoever does the rounding. */
  lemma RoundedIsMonotone(a: int, b: int, den: int, r: int, s: int)
    requires den > 0 && a <= b
    requires IsRounded(a, den, r) && IsRounded(b, den, s)
    ensures r <= s
  {
    MultiplesAreApart(s, r, den);
  }

  /** Rounding is a function of the quotient: no two paisa amounts qualify. */
  lemma RoundedIsUnique(num: int, den: int, r: int, s: int)
    requires den > 0
    requires IsRounded(num, den, r) && IsRounded(num, den, s)
    ensures r == s
  {
    RoundedIsMonotone(num, num, den, r, s);
    RoundedIsMonotone(num, num, den, s, r);
  }

  lemma WholeIsRounded(n: int, den: int)
    requires den > 0
    ensures IsRounded(n * den, den, n)
  {
    MultiplesAreApart(0, n, den);
    MultiplesAreApart(n, 0, den);
  }

  /** A whole number of paisa rounds to itself. */
  lemma ExactRounds(n: int, den: int)
    requires den > 0
    ensures Q2(n * den, den) == n
  {
    WholeIsRounded(n, den);
    RoundedIsUnique(n * den, den, Q2(n * den, den), n);
  }

  /** Rounding a value between two whole paisa amounts stays between them. */
  lemma RoundedStaysWithin(num: int, den: int, r: int, lo: int, hi: int)
    requires den > 0 && lo * den <= num <= hi * den
    requires IsRounded(num, den, r)
    ensures lo <= r <= hi
  {
    WholeIsRounded(lo, den);
    WholeIsRounded(hi, den);
    RoundedIsMonotone(lo * den, num, den, lo, r);
    RoundedIsMonotone(num, hi * den, den, r, hi);
  }
}
