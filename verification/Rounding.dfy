/** Decimal rounding as `Decimal::round_dp` performs it: to nearest, ties to even. */
module Rounding {

  /** `n / d` rounded to the nearest integer; an exact half goes to the even neighbour. */
  function RoundDiv(n: int, d: int): (r: int)
    requires d > 0
  {
    var q := n / d;
    var twice := 2 * (n % d);
    if twice < d || (twice == d && q % 2 == 0) then q else q + 1
  }

  /** `r` is the value a ties-to-even rounding of `n / d` must return. */
  ghost predicate Nearest(n: int, d: int, r: int)
    requires d > 0
  {
    var e := 2 * (n - r * d);
    -d <= e <= d && ((e == d || e == -d) ==> r % 2 == 0)
  }

  /** The rounding error is at most half a unit, and a tie lands on an even value. */
  lemma RoundIsNearest(n: int, d: int)
    requires d > 0
    ensures Nearest(n, d, RoundDiv(n, d))
  {
    var q := n / d;
    var r := RoundDiv(n, d);
    assert n == q * d + n % d;
    assert (q + 1) * d == q * d + d;
  }

  /** Multiples of `d` are at least as far apart as their factors. */
  lemma Spread(r: int, s: int, d: int)
    requires d > 0
    ensures r > s ==> r * d - s * d >= d
    ensures r > s + 1 ==> r * d - s * d >= 2 * d
    ensures r <= s ==> r * d <= s * d
  {
    var gap := r - s;
    assert r * d - s * d == gap * d;
    if gap >= 2 {
      assert gap * d == 2 * d + (gap - 2) * d;
    } else if gap <= 0 {
      assert gap * d <= 0;
    }
  }

  /** Only one integer is nearest-with-ties-to-even, so `Nearest` determines the rounding. */
  lemma NearestIsUnique(n: int, d: int, r: int)
    requires d > 0 && Nearest(n, d, r)
    ensures r == RoundDiv(n, d)
  {
    var s := RoundDiv(n, d);
    RoundIsNearest(n, d);
    Spread(r, s, d);
    Spread(s, r, d);
  }

  /** Rounding is odd: a debit and its mirrored credit round to opposite amounts. */
  lemma RoundIsOdd(n: int, d: int)
    requires d > 0
    ensures RoundDiv(-n, d) == -RoundDiv(n, d)
  {
    RoundIsNearest(n, d);
    var r := RoundDiv(n, d);
    assert (-r) * d == -(r * d);
    NearestIsUnique(-n, d, -r);
  }

  /** An amount that already has the target precision is left alone. */
  lemma RoundIsIdentity(k: int, d: int)
    requires d > 0
    ensures RoundDiv(k * d, d) == k
  {
    NearestIsUnique(k * d, d, k);
  }
}
