/** Powers of ten over exact reals, and the two decade snaps the viewers apply to a
    positive magnitude `m`: `10 ** Math.ceil(Math.log10(m))` and
    `10 ** Math.floor(Math.log10(m))`. Both are characterised by an integer exponent,
    so no logarithm is needed. */
module Decades {

  /** 10^n for a natural exponent. */
  function Ten(n: nat): (r: real)
    ensures r >= (n + 1) as real
  {
    if n == 0 then 1.0 else 10.0 * Ten(n - 1)
  }

  /** 10^k for any integer exponent; a negative exponent gives the reciprocal. */
  function Pow10(k: int): (r: real)
    ensures r > 0.0
  {
    if k >= 0 then Ten(k) else 1.0 / Ten(-k)
  }

  /** One step up multiplies by ten, on both sides of zero. */
  lemma Pow10Step(k: int)
    ensures Pow10(k + 1) == 10.0 * Pow10(k)
  {
    if k < -1 {
      var t := Ten(-k - 1);
      assert Ten(-k) == 10.0 * t;
      calc {
        10.0 * Pow10(k);
        10.0 * (1.0 / (10.0 * t));
        1.0 / t;
        Pow10(k + 1);
      }
    }
  }

  /** Powers of ten grow strictly with the exponent. */
  lemma {:induction false} Pow10Increasing(j: int, k: int)
    requires j < k
    ensures Pow10(j) < Pow10(k)
    decreases k - j
  {
    Pow10Step(k - 1);
    if j < k - 1 {
      Pow10Increasing(j, k - 1);
    }
  }

  /** Comparing two powers of ten is comparing their exponents. */
  lemma Pow10Order(j: int, k: int)
    ensures Pow10(j) <= Pow10(k) <==> j <= k
    ensures Pow10(j) < Pow10(k) <==> j < k
  {
    if j < k {
      Pow10Increasing(j, k);
    } else if k < j {
      Pow10Increasing(k, j);
    }
  }

  /** If m is at most 1/t then t is at most 1/m. */
  lemma ReciprocalFlip(m: real, t: real)
    requires 0.0 < m && 0.0 < t && m <= 1.0 / t
    ensures t <= 1.0 / m
  {
    assert m * t <= (1.0 / t) * t;
    assert (1.0 / t) * t == 1.0;
    assert t == (m * t) / m;
  }

  /** ⌈log10 m⌉ for m > 0: the least k with m <= 10^k. */
  function CeilLog10(m: real): (k: int)
    requires m > 0.0
    ensures Pow10(k - 1) < m <= Pow10(k)
  {
    if m <= 1.0 then CeilDown(m, 0) else CeilUp(m, 1)
  }

  /** Search upward from an exponent already known to lie below m. */
  function CeilUp(m: real, k: int): (r: int)
    requires k >= 1 && Pow10(k - 1) < m
    ensures k <= r && Pow10(r - 1) < m <= Pow10(r)
    decreases m.Floor - k
  {
    if m <= Pow10(k) then k else CeilUp(m, k + 1)
  }

  /** Search downward from an exponent already known to lie at or above m. */
  function CeilDown(m: real, k: int): (r: int)
    requires k <= 0 && 0.0 < m <= Pow10(k)
    ensures r <= k && Pow10(r - 1) < m <= Pow10(r)
    decreases (1.0 / m).Floor + k
  {
    if Pow10(k - 1) < m then k
    else
      ReciprocalFlip(m, Ten(1 - k));
      CeilDown(m, k - 1)
  }

  /** ⌊log10 m⌋ for m > 0: the greatest k with 10^k <= m. */
  function FloorLog10(m: real): (k: int)
    requires m > 0.0
    ensures Pow10(k) <= m < Pow10(k + 1)
  {
    var c := CeilLog10(m);
    Pow10Step(c);
    if m == Pow10(c) then c else c - 1
  }

  /** The ceiling exponent is the only one that brackets m from above. */
  lemma CeilLog10Unique(m: real, k: int)
    requires m > 0.0
    ensures Pow10(k - 1) < m <= Pow10(k) <==> CeilLog10(m) == k
  {
    var c := CeilLog10(m);
    if Pow10(k - 1) < m <= Pow10(k) {
      Pow10Order(c - 1, k);
      Pow10Order(k - 1, c);
    }
  }

  /** A power of ten covers m exactly when its exponent is at least ⌈log10 m⌉. */
  lemma CeilLog10Least(m: real, k: int)
    requires m > 0.0
    ensures m <= Pow10(k) <==> CeilLog10(m) <= k
  {
    var c := CeilLog10(m);
    Pow10Order(c, k);
    Pow10Order(k, c - 1);
  }

  /** A power of ten fits under m exactly when its exponent is at most ⌊log10 m⌋. */
  lemma FloorLog10Greatest(m: real, k: int)
    requires m > 0.0
    ensures Pow10(k) <= m <==> k <= FloorLog10(m)
  {
    var f := FloorLog10(m);
    Pow10Order(k, f);
    Pow10Order(f + 1, k);
  }

  /** Snapping up is monotone: a larger magnitude never gets a smaller decade. */
  lemma CeilLog10Monotone(m1: real, m2: real)
    requires 0.0 < m1 <= m2
    ensures CeilLog10(m1) <= CeilLog10(m2)
  {
    CeilLog10Least(m1, CeilLog10(m2));
  }

  /** The two snaps agree on an exact power of ten and differ by one decade otherwise. */
  lemma FloorVersusCeil(m: real)
    requires m > 0.0
    ensures FloorLog10(m) == CeilLog10(m) <==> m == Pow10(CeilLog10(m))
    ensures FloorLog10(m) == CeilLog10(m) || FloorLog10(m) == CeilLog10(m) - 1
  {
  }
}
