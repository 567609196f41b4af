/** Integer helpers and the rounding rule of Python's built-in `round`
    applied to exact rational amounts. */
module Rounding {

  function Max(a: int, b: int): int { if a >= b then a else b }

  function Min(a: int, b: int): int { if a <= b then a else b }

  /** `round(num / den)` with ties to the even neighbour, as Python's `round`
      does on a value that is exactly `num / den`. Dafny's `/` and `%` are
      Euclidean, so for `den > 0` the quotient is the floor. */
  function RoundHalfEven(num: int, den: int): int
    requires den > 0
  {
    var q := num / den;
    var m := num % den;
    if 2 * m < den then q
    else if 2 * m > den then q + 1
    else if q % 2 == 0 then q
    else q + 1
  }

  /** The result is a nearest integer to `num / den`, and an exact tie goes to
      the even one. */
  lemma RoundHalfEvenNearest(num: int, den: int)
    requires den > 0
    ensures var r := RoundHalfEven(num, den);
      2 * num - den <= 2 * r * den <= 2 * num + den
    ensures var r := RoundHalfEven(num, den);
      (2 * r * den == 2 * num - den || 2 * r * den == 2 * num + den) ==> r % 2 == 0
  {
    var q, m := num / den, num % den;
    var qd := q * den;
    assert num == qd + m;
    var r := RoundHalfEven(num, den);
    if r == q {
      assert 2 * r * den == 2 * qd;
    } else {
      assert r == q + 1;
      assert 2 * r * den == 2 * qd + 2 * den;
    }
  }

  /** Rounding never reverses the order of two amounts over the same denominator. */
  lemma RoundHalfEvenMonotone(a: int, b: int, den: int)
    requires den > 0 && a <= b
    ensures RoundHalfEven(a, den) <= RoundHalfEven(b, den)
  {
    var qa, qb := a / den, b / den;
    DivMonotone(a, b, den);
    if qa == qb {
      assert a % den <= b % den;
    } else {
      assert RoundHalfEven(a, den) <= qa + 1 <= qb <= RoundHalfEven(b, den);
    }
  }

  /** Euclidean division by a positive number is monotone. */
  lemma DivMonotone(a: int, b: int, den: int)
    requires den > 0 && a <= b
    ensures a / den <= b / den
  {
    var qa, qb := a / den, b / den;
    if qa > qb {
      MulLe(qb + 1, qa, den);
      MulSucc(qb, den);
    }
  }

  lemma MulLe(x: int, y: int, d: int)
    requires x <= y && d >= 0
    ensures x * d <= y * d
  {
  }

  lemma MulSucc(x: int, d: int)
    ensures (x + 1) * d == x * d + d
  {
  }

  /** Rounding a non-negative amount gives a non-negative result, and a
      non-positive amount a non-positive one. */
  lemma RoundHalfEvenSign(num: int, den: int)
    requires den > 0
    ensures num >= 0 ==> RoundHalfEven(num, den) >= 0
    ensures num <= 0 ==> RoundHalfEven(num, den) <= 0
  {
    RoundHalfEvenMonotone(0, if num >= 0 then num else 0, den);
    RoundHalfEvenMonotone(if num <= 0 then num else 0, 0, den);
  }
}
