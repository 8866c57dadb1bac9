/** Laws of the fixed-point library that callers rely on: periodicity and
    symmetry of the quadrant dispatch, monotonicity and accuracy of the
    tables, and the algebra of the saturating multiply. */
module FixedLaws {
  import opened Words
  import opened FixedMath

  /** Every trigonometric function reads only `a & ANGLESMASK`. */
  lemma TrigDependsOnlyOnMask(a: int, b: int)
    requires a % ANGLES == b % ANGLES
    ensures FixedSin(a) == FixedSin(b) && FixedCos(a) == FixedCos(b)
    ensures FixedTan(a) == FixedTan(b) && FixedCot(a) == FixedCot(b)
  {
    assert QuadrantOf(a) == QuadrantOf(b) && StepOf(a) == StepOf(b);
  }

  /** A quarter turn moves to the next quadrant and keeps the step. */
  lemma QuarterTurn(a: int)
    ensures QuadrantOf(a + QUARTER) == (QuadrantOf(a) + 1) % 4
    ensures StepOf(a + QUARTER) == StepOf(a)
  {
    var m := a % ANGLES;
    assert (a + QUARTER) % ANGLES == (m + QUARTER) % ANGLES;
  }

  lemma HalfTurn(a: int)
    ensures QuadrantOf(a + 2 * QUARTER) == (QuadrantOf(a) + 2) % 4
    ensures StepOf(a + 2 * QUARTER) == StepOf(a)
  {
    QuarterTurn(a);
    QuarterTurn(a + QUARTER);
  }

  lemma CosIsSinQuarterAhead(a: int)
    ensures FixedCos(a) == FixedSin(a + QUARTER)
  {
    QuarterTurn(a);
  }

  lemma SinHalfTurn(a: int)
    ensures FixedSin(a + 2 * QUARTER) == -FixedSin(a)
  {
    HalfTurn(a);
  }

  /** fixedTan has period 256. */
  lemma TanHalfTurn(a: int)
    ensures FixedTan(a + 2 * QUARTER) == FixedTan(a)
  {
    HalfTurn(a);
    var i := StepOf(a);
    if QuadrantOf(a) % 2 == 0 {
      assert FixedTan(a) == TanTable(i) == FixedTan(a + 2 * QUARTER);
    } else {
      assert FixedTan(a) == -TanTable(127 - i) == FixedTan(a + 2 * QUARTER);
    }
  }

  lemma CotIsNegatedTanQuarterAhead(a: int)
    ensures FixedCot(a) == -FixedTan(a + QUARTER)
  {
    QuarterTurn(a);
    var i := StepOf(a);
    if QuadrantOf(a) % 2 == 0 {
      assert FixedCot(a) == TanTable(127 - i) == -FixedTan(a + QUARTER);
    } else {
      assert FixedCot(a) == -TanTable(i) == -FixedTan(a + QUARTER);
    }
  }

  /** sinTable entries are ordered, not only neighbours. */
  lemma {:induction false} SinTableOrdered(i: int, j: int)
    requires 0 <= i < j < QUARTER
    ensures SinTable(i) < SinTable(j)
    decreases j - i
  {
    SinTableIncreasing();
    if i + 1 < j {
      SinTableOrdered(i + 1, j);
    }
  }

  /** fixedSin is strictly increasing on the first quadrant. */
  lemma SinIncreasingOnFirstQuadrant(a: int, b: int)
    requires 0 <= a < b < QUARTER
    ensures FixedSin(a) < FixedSin(b)
  {
    assert QuadrantOf(a) == 0 && StepOf(a) == a;
    assert QuadrantOf(b) == 0 && StepOf(b) == b;
    SinTableOrdered(a, b);
  }

  lemma FixedMulCommutes(a: int, b: int)
    requires IsInt32(a) && IsInt32(b)
    ensures FixedMul(a, b) == FixedMul(b, a)
  {
  }

  lemma FixedMulUnit(a: int)
    requires IsInt32(a)
    ensures FixedMul(a, FRACUNIT) == a
  {
  }

  lemma FixedMulZero(a: int)
    requires IsInt32(a)
    ensures FixedMul(a, 0) == 0
  {
  }

  /** A product whose exact magnitude stays within m * FRACUNIT is not
      saturated, and its 16.16 result stays within m. */
  lemma FixedMulWithin(a: int, b: int, m: int)
    requires IsInt32(a) && IsInt32(b) && 0 <= m <= INT_MAX
    requires Abs(a) * Abs(b) <= m * FRACUNIT
    ensures Abs(FixedMul(a, b)) <= m
    ensures FixedMul(a, b) == a * b / FRACUNIT
  {
    AbsOfProduct(a, b);
    assert -m * FRACUNIT <= a * b <= m * FRACUNIT;
  }

  lemma AbsOfProduct(a: int, b: int)
    ensures Abs(a * b) == Abs(a) * Abs(b)
  {
    if a < 0 && b < 0 {
      assert a * b == (-a) * (-b);
    } else if a < 0 {
      assert -(a * b) == (-a) * b;
    } else if b < 0 {
      assert -(a * b) == a * (-b);
    }
  }

  lemma MulBoth(a: int, b: int, c: int, d: int)
    requires 0 <= a <= b && 0 <= c <= d
    ensures a * c <= b * d
  {
    assert a * c <= b * c;
  }
}
