/** The 16.16 fixed-point library: `fixed_t` scalars, a 512-step angle
    circle, quarter-wave sine and tangent tables with quadrant dispatch, and the
    saturating multiply (source/fixed.c, include/fixed.h). */
module FixedMath {
  import opened Words

  const FRACBITS: nat := 16
  /** 1.0 in 16.16 fixed point. */
  const FRACUNIT: int := 0x1_0000
  /** Steps in a full turn; an angle is reduced with `& ANGLESMASK`. */
  const ANGLES: int := 512
  const ANGLESMASK: int := 511
  /** A quarter turn: the width of one quadrant. */
  const QUARTER: int := 128

  /** sinTable: the sine of the centre of each of the 128 steps of the first
      quadrant, in 16.16; neither 0 nor 1.0 is stored. */
  function SinTable(i: int): (v: int)
    requires 0 <= i < 128
    ensures 402 <= v <= 65534
  {
    if i < 64 then
      if i < 32 then
        if i < 16 then
          if i < 8 then
            if i < 4 then
              (if i < 2 then if i < 1 then 402 else 1206 else if i < 3 then 2010 else 2814)
            else
              (if i < 6 then if i < 5 then 3617 else 4420 else if i < 7 then 5222 else 6023)
          else
            if i < 12 then
              (if i < 10 then if i < 9 then 6823 else 7623 else if i < 11 then 8421 else 9218)
            else
              (if i < 14 then if i < 13 then 10013 else 10807 else if i < 15 then 11600 else 12390)
        else
          if i < 24 then
            if i < 20 then
              (if i < 18 then if i < 17 then 13179 else 13966 else if i < 19 then 14751 else 15533)
            else
              (if i < 22 then if i < 21 then 16313 else 17091 else if i < 23 then 17866 else 18638)
          else
            if i < 28 then
              (if i < 26 then if i < 25 then 19408 else 20175 else if i < 27 then 20938 else 21699)
            else
              (if i < 30 then if i < 29 then 22456 else 23210 else if i < 31 then 23960 else 24707)
      else
        if i < 48 then
          if i < 40 then
            if i < 36 then
              (if i < 34 then if i < 33 then 25450 else 26189 else if i < 35 then 26925 else 27656)
            else
              (if i < 38 then if i < 37 then 28383 else 29105 else if i < 39 then 29824 else 30538)
          else
            if i < 44 then
              (if i < 42 then if i < 41 then 31247 else 31952 else if i < 43 then 32651 else 33346)
            else
              (if i < 46 then if i < 45 then 34036 else 34721 else if i < 47 then 35400 else 36074)
        else
          if i < 56 then
            if i < 52 then
              (if i < 50 then if i < 49 then 36743 else 37406 else if i < 51 then 38064 else 38716)
            else
              (if i < 54 then if i < 53 then 39362 else 40002 else if i < 55 then 40636 else 41263)
          else
            if i < 60 then
              (if i < 58 then if i < 57 then 41885 else 42501 else if i < 59 then 43110 else 43712)
            else
              (if i < 62 then if i < 61 then 44308 else 44897 else if i < 63 then 45480 else 46055)
    else
      if i < 96 then
        if i < 80 then
          if i < 72 then
            if i < 68 then
              (if i < 66 then if i < 65 then 46624 else 47186 else if i < 67 then 47740 else 48288)
            else
              (if i < 70 then if i < 69 then 48828 else 49360 else if i < 71 then 49886 else 50403)
          else
            if i < 76 then
              (if i < 74 then if i < 73 then 50914 else 51416 else if i < 75 then 51911 else 52398)
            else
              (if i < 78 then if i < 77 then 52877 else 53348 else if i < 79 then 53811 else 54266)
        else
          if i < 88 then
            if i < 84 then
              (if i < 82 then if i < 81 then 54713 else 55152 else if i < 83 then 55582 else 56004)
            else
              (if i < 86 then if i < 85 then 56417 else 56822 else if i < 87 then 57219 else 57606)
          else
            if i < 92 then
              (if i < 90 then if i < 89 then 57986 else 58356 else if i < 91 then 58718 else 59070)
            else
              (if i < 94 then if i < 93 then 59414 else 59749 else if i < 95 then 60075 else 60392)
      else
        if i < 112 then
          if i < 104 then
            if i < 100 then
              (if i < 98 then if i < 97 then 60700 else 60998 else if i < 99 then 61288 else 61568)
            else
              (if i < 102 then if i < 101 then 61839 else 62100 else if i < 103 then 62353 else 62596)
          else
            if i < 108 then
              (if i < 106 then if i < 105 then 62829 else 63053 else if i < 107 then 63268 else 63473)
            else
              (if i < 110 then if i < 109 then 63668 else 63854 else if i < 111 then 64030 else 64197)
        else
          if i < 120 then
            if i < 116 then
              (if i < 114 then if i < 113 then 64353 else 64501 else if i < 115 then 64638 else 64766)
            else
              (if i < 118 then if i < 117 then 64884 else 64992 else if i < 119 then 65091 else 65179)
          else
            if i < 124 then
              (if i < 122 then if i < 121 then 65258 else 65327 else if i < 123 then 65386 else 65436)
            else
              (if i < 126 then if i < 125 then 65475 else 65505 else if i < 127 then 65524 else 65534)
  }

  /** tanTable: tangent of the centre of each of the 128 steps of the first quadrant, in 16.16. */
  function TanTable(i: int): (v: int)
    requires 0 <= i < 128
    ensures 402 <= v <= 10680573
  {
    if i < 64 then
      if i < 32 then
        if i < 16 then
          if i < 8 then
            if i < 4 then
              (if i < 2 then if i < 1 then 402 else 1206 else if i < 3 then 2011 else 2816)
            else
              (if i < 6 then if i < 5 then 3622 else 4430 else if i < 7 then 5238 else 6048)
          else
            if i < 12 then
              (if i < 10 then if i < 9 then 6861 else 7675 else if i < 11 then 8491 else 9310)
            else
              (if i < 14 then if i < 13 then 10132 else 10957 else if i < 15 then 11786 else 12618)
        else
          if i < 24 then
            if i < 20 then
              (if i < 18 then if i < 17 then 13454 else 14294 else if i < 19 then 15139 else 15989)
            else
              (if i < 22 then if i < 21 then 16843 else 17704 else if i < 23 then 18569 else 19441)
          else
            if i < 28 then
              (if i < 26 then if i < 25 then 20320 else 21205 else if i < 27 then 22097 else 22996)
            else
              (if i < 30 then if i < 29 then 23903 else 24819 else if i < 31 then 25743 else 26675)
      else
        if i < 48 then
          if i < 40 then
            if i < 36 then
              (if i < 34 then if i < 33 then 27618 else 28570 else if i < 35 then 29532 else 30505)
            else
              (if i < 38 then if i < 37 then 31489 else 32485 else if i < 39 then 33493 else 34514)
          else
            if i < 44 then
              (if i < 42 then if i < 41 then 35548 else 36596 else if i < 43 then 37658 else 38736)
            else
              (if i < 46 then if i < 45 then 39829 else 40939 else if i < 47 then 42065 else 43210)
        else
          if i < 56 then
            if i < 52 then
              (if i < 50 then if i < 49 then 44373 else 45556 else if i < 51 then 46759 else 47984)
            else
              (if i < 54 then if i < 53 then 49230 else 50500 else if i < 55 then 51794 else 53114)
          else
            if i < 60 then
              (if i < 58 then if i < 57 then 54460 else 55834 else if i < 59 then 57236 else 58669)
            else
              (if i < 62 then if i < 61 then 60134 else 61633 else if i < 63 then 63166 else 64736)
    else
      if i < 96 then
        if i < 80 then
          if i < 72 then
            if i < 68 then
              (if i < 66 then if i < 65 then 66345 else 67994 else if i < 67 then 69685 else 71422)
            else
              (if i < 70 then if i < 69 then 73205 else 75038 else if i < 71 then 76923 else 78864)
          else
            if i < 76 then
              (if i < 74 then if i < 73 then 80862 else 82922 else if i < 75 then 85047 else 87241)
            else
              (if i < 78 then if i < 77 then 89507 else 91851 else if i < 79 then 94277 else 96790)
        else
          if i < 88 then
            if i < 84 then
              (if i < 82 then if i < 81 then 99396 else 102101 else if i < 83 then 104911 else 107834)
            else
              (if i < 86 then if i < 85 then 110877 else 114049 else if i < 87 then 117360 else 120820)
          else
            if i < 92 then
              (if i < 90 then if i < 89 then 124439 else 128232 else if i < 91 then 132211 else 136392)
            else
              (if i < 94 then if i < 93 then 140792 else 145431 else if i < 95 then 150329 else 155512)
      else
        if i < 112 then
          if i < 104 then
            if i < 100 then
              (if i < 98 then if i < 97 then 161005 else 166839 else if i < 99 then 173050 else 179677)
            else
              (if i < 102 then if i < 101 then 186765 else 194367 else if i < 103 then 202544 else 211365)
          else
            if i < 108 then
              (if i < 106 then if i < 105 then 220913 else 231286 else if i < 107 then 242597 else 254986)
            else
              (if i < 110 then if i < 109 then 268616 else 283691 else if i < 111 then 300457 else 319222)
        else
          if i < 120 then
            if i < 116 then
              (if i < 114 then if i < 113 then 340373 else 364404 else if i < 115 then 391956 else 423871)
            else
              (if i < 118 then if i < 117 then 461291 else 505787 else if i < 119 then 559593 else 625996)
          else
            if i < 124 then
              (if i < 122 then if i < 121 then 710035 else 819849 else if i < 123 then 969498 else 1185538)
            else
              (if i < 126 then if i < 125 then 1524876 else 2135471 else if i < 127 then 3559833 else 10680573)
  }

  /** sinTable is strictly increasing, as the sine is on the first quadrant. */
  lemma SinTableIncreasing()
    ensures forall i :: 0 <= i < 127 ==> SinTable(i) < SinTable(i + 1)
  {
  }

  function Abs(x: int): int {
    if x < 0 then -x else x
  }

  /** Bits 7-8 of `a & ANGLESMASK`, the quadrant fixed.c switches on. As an
      unsigned angle wraps modulo 2^32, a multiple of 512, the reduction
      modulo ANGLES is the same for every representative of the angle. */
  function QuadrantOf(a: int): (q: int)
    ensures 0 <= q < 4
    ensures q * QUARTER <= a % ANGLES < (q + 1) * QUARTER
  {
    (a % ANGLES) / QUARTER
  }

  /** Bits 0-6 of `a & ANGLESMASK`: the step inside the quadrant. */
  function StepOf(a: int): (i: int)
    ensures 0 <= i < QUARTER
    ensures a % ANGLES == QuadrantOf(a) * QUARTER + i
  {
    (a % ANGLES) % QUARTER
  }

  /** fixedSin. The trailing `0` is the switch's `default` arm; the contract
      (|r| >= 402) shows that it is never taken. */
  function FixedSin(a: int): (r: int)
    ensures 402 <= Abs(r) <= 65534
    ensures r > 0 <==> a % ANGLES < 2 * QUARTER
  {
    var i := StepOf(a);
    var q := QuadrantOf(a);
    if q == 0 then SinTable(i)
    else if q == 1 then SinTable(127 - i)
    else if q == 2 then -SinTable(i)
    else if q == 3 then -SinTable(127 - i)
    else 0
  }

  /** fixedCos: the same table read with the quadrant roles shifted. */
  function FixedCos(a: int): (r: int)
    ensures 402 <= Abs(r) <= 65534
    ensures r > 0 <==> (a % ANGLES < QUARTER || 3 * QUARTER <= a % ANGLES)
  {
    var i := StepOf(a);
    var q := QuadrantOf(a);
    if q == 0 then SinTable(127 - i)
    else if q == 1 then -SinTable(i)
    else if q == 2 then -SinTable(127 - i)
    else if q == 3 then SinTable(i)
    else 0
  }

  /** fixedTan: positive in quadrants 0 and 2, negative in 1 and 3, never 0. */
  function FixedTan(a: int): (r: int)
    ensures 402 <= Abs(r) <= 10680573
    ensures r > 0 <==> QuadrantOf(a) % 2 == 0
  {
    var i := StepOf(a);
    var q := QuadrantOf(a);
    if q == 0 || q == 2 then TanTable(i)
    else if q == 1 || q == 3 then -TanTable(127 - i)
    else 0
  }

  /** fixedCot: the tangent table read backwards. */
  function FixedCot(a: int): (r: int)
    ensures 402 <= Abs(r) <= 10680573
    ensures r > 0 <==> QuadrantOf(a) % 2 == 0
  {
    var i := StepOf(a);
    var q := QuadrantOf(a);
    if q == 0 || q == 2 then TanTable(127 - i)
    else if q == 1 || q == 3 then -TanTable(i)
    else 0
  }

  /** fixedMul: the product of two int32 values fits in the int64 the source
      widens to; it is shifted right by FRACBITS (an arithmetic shift, which is
      floor division) and clamped to the int32 range. The result never wraps:
      it keeps the sign of the exact product. */
  function FixedMul(a: int, b: int): (r: int)
    requires IsInt32(a) && IsInt32(b)
    ensures IsInt32(r)
    ensures r < 0 <==> a * b < 0
    ensures IsInt32(a * b / FRACUNIT) ==> r == a * b / FRACUNIT
    ensures a * b / FRACUNIT > INT_MAX ==> r == INT_MAX
    ensures a * b / FRACUNIT < INT_MIN ==> r == INT_MIN
  {
    var wide := a * b / FRACUNIT;
    if wide < INT_MIN then INT_MIN else if wide > INT_MAX then INT_MAX else wide
  }
}
