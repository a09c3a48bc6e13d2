/** Small facts about division and multiplication of reals, kept apart so
    that each is proved in a context of its own. */
module RealArith {

  lemma QuotientInUnitInterval(a: real, b: real)
    requires 0.0 < a <= b
    ensures 0.0 < a / b <= 1.0
  {
  }

  lemma QuotientInClosedUnitInterval(a: real, b: real)
    requires 0.0 <= a <= b && b > 0.0
    ensures 0.0 <= a / b <= 1.0
  {
  }

  lemma SelfQuotient(a: real)
    requires a != 0.0
    ensures a / a == 1.0
  {
  }

  lemma AddQuotients(a: real, b: real, n: real)
    requires n != 0.0
    ensures a / n + b / n == (a + b) / n
  {
  }

  lemma MulZero(v: real, d: real)
    requires d == 0.0
    ensures v * d == 0.0
  {
  }

  lemma MulSame(v: real, c: real, d: real)
    requires d == c
    ensures v * d == v * c
  {
  }

  lemma MulSucc(v: real, c: real, d: real)
    requires d == c + 1.0
    ensures v * d == v * c + v
  {
  }

  lemma QuotientWithin(s: real, c: real, lo: real, hi: real)
    requires c > 0.0 && lo * c <= s <= hi * c
    ensures lo <= s / c <= hi
  {
  }

  /** Dividing by a positive number keeps strict and non-strict order */
  lemma QuotientMonotone(a: real, b: real, t: real)
    requires t > 0.0
    ensures a < b <==> a / t < b / t
    ensures a == b <==> a / t == b / t
  {
  }
}
