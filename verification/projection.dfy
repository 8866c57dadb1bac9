/** The distance-to-height projector of source/main.c: `scalarTable` holds
    2^21 / (256 - k), the texture step of a wall 512 - 2k rows tall, and
    `FindHeight` turns a perpendicular distance into an on-screen height by
    binary search over that table scaled by 64. */
module Projection {
  import opened Words

  /** Rows of the logical screen. */
  const SCREEN_ROWS: int := 64
  /** The tallest projected height, for the nearest distance. */
  const MAX_HEIGHT: int := 512

  /** scalarTable: 16.16 texture steps, strictly increasing. */
  function ScalarTable(i: int): (v: int)
    requires 0 <= i < 256
    ensures 8192 <= v <= 0x20_0000
  {
    if i < 128 then
      if i < 64 then
        if i < 32 then
          if i < 16 then
            if i < 8 then
              if i < 4 then
                (if i < 2 then if i < 1 then 8192 else 8224 else if i < 3 then 8256 else 8289)
              else
                (if i < 6 then if i < 5 then 8322 else 8355 else if i < 7 then 8388 else 8422)
            else
              if i < 12 then
                (if i < 10 then if i < 9 then 8456 else 8490 else if i < 11 then 8525 else 8559)
              else
                (if i < 14 then if i < 13 then 8594 else 8630 else if i < 15 then 8665 else 8701)
          else
            if i < 24 then
              if i < 20 then
                (if i < 18 then if i < 17 then 8738 else 8774 else if i < 19 then 8811 else 8848)
              else
                (if i < 22 then if i < 21 then 8886 else 8924 else if i < 23 then 8962 else 9000)
            else
              if i < 28 then
                (if i < 26 then if i < 25 then 9039 else 9078 else if i < 27 then 9118 else 9157)
              else
                (if i < 30 then if i < 29 then 9198 else 9238 else if i < 31 then 9279 else 9320)
        else
          if i < 48 then
            if i < 40 then
              if i < 36 then
                (if i < 34 then if i < 33 then 9362 else 9404 else if i < 35 then 9446 else 9489)
              else
                (if i < 38 then if i < 37 then 9532 else 9576 else if i < 39 then 9619 else 9664)
            else
              if i < 44 then
                (if i < 42 then if i < 41 then 9709 else 9754 else if i < 43 then 9799 else 9845)
              else
                (if i < 46 then if i < 45 then 9892 else 9939 else if i < 47 then 9986 else 10034)
          else
            if i < 56 then
              if i < 52 then
                (if i < 50 then if i < 49 then 10082 else 10131 else if i < 51 then 10180 else 10230)
              else
                (if i < 54 then if i < 53 then 10280 else 10330 else if i < 55 then 10381 else 10433)
            else
              if i < 60 then
                (if i < 58 then if i < 57 then 10485 else 10538 else if i < 59 then 10591 else 10645)
              else
                (if i < 62 then if i < 61 then 10699 else 10754 else if i < 63 then 10810 else 10866)
      else
        if i < 96 then
          if i < 80 then
            if i < 72 then
              if i < 68 then
                (if i < 66 then if i < 65 then 10922 else 10979 else if i < 67 then 11037 else 11096)
              else
                (if i < 70 then if i < 69 then 11155 else 11214 else if i < 71 then 11275 else 11335)
            else
              if i < 76 then
                (if i < 74 then if i < 73 then 11397 else 11459 else if i < 75 then 11522 else 11586)
              else
                (if i < 78 then if i < 77 then 11650 else 11715 else if i < 79 then 11781 else 11848)
          else
            if i < 88 then
              if i < 84 then
                (if i < 82 then if i < 81 then 11915 else 11983 else if i < 83 then 12052 else 12122)
              else
                (if i < 86 then if i < 85 then 12192 else 12264 else if i < 87 then 12336 else 12409)
            else
              if i < 92 then
                (if i < 90 then if i < 89 then 12483 else 12557 else if i < 91 then 12633 else 12710)
              else
                (if i < 94 then if i < 93 then 12787 else 12865 else if i < 95 then 12945 else 13025)
        else
          if i < 112 then
            if i < 104 then
              if i < 100 then
                (if i < 98 then if i < 97 then 13107 else 13189 else if i < 99 then 13273 else 13357)
              else
                (if i < 102 then if i < 101 then 13443 else 13530 else if i < 103 then 13617 else 13706)
            else
              if i < 108 then
                (if i < 106 then if i < 105 then 13797 else 13888 else if i < 107 then 13981 else 14074)
              else
                (if i < 110 then if i < 109 then 14169 else 14266 else if i < 111 then 14364 else 14463)
          else
            if i < 120 then
              if i < 116 then
                (if i < 114 then if i < 113 then 14563 else 14665 else if i < 115 then 14768 else 14873)
              else
                (if i < 118 then if i < 117 then 14979 else 15087 else if i < 119 then 15196 else 15307)
            else
              if i < 124 then
                (if i < 122 then if i < 121 then 15420 else 15534 else if i < 123 then 15650 else 15768)
              else
                (if i < 126 then if i < 125 then 15887 else 16008 else if i < 127 then 16131 else 16256)
    else
      if i < 192 then
        if i < 160 then
          if i < 144 then
            if i < 136 then
              if i < 132 then
                (if i < 130 then if i < 129 then 16384 else 16513 else if i < 131 then 16644 else 16777)
              else
                (if i < 134 then if i < 133 then 16912 else 17050 else if i < 135 then 17189 else 17331)
            else
              if i < 140 then
                (if i < 138 then if i < 137 then 17476 else 17623 else if i < 139 then 17772 else 17924)
              else
                (if i < 142 then if i < 141 then 18078 else 18236 else if i < 143 then 18396 else 18558)
          else
            if i < 152 then
              if i < 148 then
                (if i < 146 then if i < 145 then 18724 else 18893 else if i < 147 then 19065 else 19239)
              else
                (if i < 150 then if i < 149 then 19418 else 19599 else if i < 151 then 19784 else 19972)
            else
              if i < 156 then
                (if i < 154 then if i < 153 then 20164 else 20360 else if i < 155 then 20560 else 20763)
              else
                (if i < 158 then if i < 157 then 20971 else 21183 else if i < 159 then 21399 else 21620)
        else
          if i < 176 then
            if i < 168 then
              if i < 164 then
                (if i < 162 then if i < 161 then 21845 else 22075 else if i < 163 then 22310 else 22550)
              else
                (if i < 166 then if i < 165 then 22795 else 23045 else if i < 167 then 23301 else 23563)
            else
              if i < 172 then
                (if i < 170 then if i < 169 then 23831 else 24105 else if i < 171 then 24385 else 24672)
              else
                (if i < 174 then if i < 173 then 24966 else 25266 else if i < 175 then 25575 else 25890)
          else
            if i < 184 then
              if i < 180 then
                (if i < 178 then if i < 177 then 26214 else 26546 else if i < 179 then 26886 else 27235)
              else
                (if i < 182 then if i < 181 then 27594 else 27962 else if i < 183 then 28339 else 28728)
            else
              if i < 188 then
                (if i < 186 then if i < 185 then 29127 else 29537 else if i < 187 then 29959 else 30393)
              else
                (if i < 190 then if i < 189 then 30840 else 31300 else if i < 191 then 31775 else 32263)
      else
        if i < 224 then
          if i < 208 then
            if i < 200 then
              if i < 196 then
                (if i < 194 then if i < 193 then 32768 else 33288 else if i < 195 then 33825 else 34379)
              else
                (if i < 198 then if i < 197 then 34952 else 35544 else if i < 199 then 36157 else 36792)
            else
              if i < 204 then
                (if i < 202 then if i < 201 then 37449 else 38130 else if i < 203 then 38836 else 39568)
              else
                (if i < 206 then if i < 205 then 40329 else 41120 else if i < 207 then 41943 else 42799)
          else
            if i < 216 then
              if i < 212 then
                (if i < 210 then if i < 209 then 43690 else 44620 else if i < 211 then 45590 else 46603)
              else
                (if i < 214 then if i < 213 then 47662 else 48770 else if i < 215 then 49932 else 51150)
            else
              if i < 220 then
                (if i < 218 then if i < 217 then 52428 else 53773 else if i < 219 then 55188 else 56679)
              else
                (if i < 222 then if i < 221 then 58254 else 59918 else if i < 223 then 61680 else 63550)
        else
          if i < 240 then
            if i < 232 then
              if i < 228 then
                (if i < 226 then if i < 225 then 65536 else 67650 else if i < 227 then 69905 else 72315)
              else
                (if i < 230 then if i < 229 then 74898 else 77672 else if i < 231 then 80659 else 83886)
            else
              if i < 236 then
                (if i < 234 then if i < 233 then 87381 else 91180 else if i < 235 then 95325 else 99864)
              else
                (if i < 238 then if i < 237 then 104857 else 110376 else if i < 239 then 116508 else 123361)
          else
            if i < 248 then
              if i < 244 then
                (if i < 242 then if i < 241 then 131072 else 139810 else if i < 243 then 149796 else 161319)
              else
                (if i < 246 then if i < 245 then 174762 else 190650 else if i < 247 then 209715 else 233016)
            else
              if i < 252 then
                (if i < 250 then if i < 249 then 262144 else 299593 else if i < 251 then 349525 else 419430)
              else
                (if i < 254 then if i < 253 then 524288 else 699050 else if i < 255 then 1048576 else 2097152)
  }

  lemma ScalarTableIncreasing()
    ensures forall i :: 0 <= i < 255 ==> ScalarTable(i) < ScalarTable(i + 1)
  {
  }

  /** The table entry for a height 512 - 2k, multiplied by half that height,
      never exceeds 2^21: this is what keeps every sampled texture row of a
      slice or sprite inside the 64-row texture. */
  lemma ScalarTableReciprocal()
    ensures forall k :: 0 <= k < 256 ==> ScalarTable(k) * (256 - k) <= 0x20_0000
  {
  }

  lemma {:induction false} ScalarTableOrdered(i: int, j: int)
    requires 0 <= i < j < 256
    ensures ScalarTable(i) < ScalarTable(j)
    decreases j - i
  {
    ScalarTableIncreasing();
    if i + 1 < j {
      ScalarTableOrdered(i + 1, j);
    }
  }

  /** The distance `scalarTable[k] << 6` at which a wall becomes 512 - 2k tall. */
  function Threshold(k: int): int
    requires 0 <= k < 256
  {
    ScalarTable(k) * 64
  }

  /** The largest index k <= top whose threshold does not exceed d, or -1
      when there is none: the reference the binary search is measured against. */
  function LastAtMost(d: int, top: int): (k: int)
    requires -1 <= top < 256
    ensures -1 <= k <= top
    ensures k >= 0 ==> Threshold(k) <= d
    ensures forall j :: k < j <= top ==> Threshold(j) > d
    decreases top + 1
  {
    if top < 0 then -1
    else if Threshold(top) <= d then top
    else LastAtMost(d, top - 1)
  }

  /** The height FindHeight returns for distance d: 512 - 2r for the largest
      r with scalarTable[r] << 6 <= d, and 512 when there is no such r. */
  function Height(d: int): (h: int)
    ensures 2 <= h <= MAX_HEIGHT && h % 2 == 0
  {
    var r := LastAtMost(d, 255);
    if r < 0 then MAX_HEIGHT else MAX_HEIGHT - 2 * r
  }

  /** Any index with the two defining properties is the one LastAtMost finds. */
  lemma {:induction false} LastAtMostUnique(d: int, top: int, r: int)
    requires -1 <= r <= top < 256
    requires r >= 0 ==> Threshold(r) <= d
    requires forall j :: r < j <= top ==> Threshold(j) > d
    ensures LastAtMost(d, top) == r
    decreases top + 1
  {
    if top > r {
      LastAtMostUnique(d, top - 1, r);
    }
  }

  /** FindHeight: the source's binary search, which returns early when a
      threshold equals d exactly. */
  method FindHeight(d: int) returns (h: int)
    requires IsInt32(d)
    ensures h == Height(d)
  {
    var l := 0;
    var r := 255;
    while l <= r
      invariant 0 <= l <= r + 1 <= 256
      invariant forall j :: 0 <= j < l ==> Threshold(j) < d
      invariant forall j :: r < j < 256 ==> Threshold(j) > d
    {
      var m := l + (r - l) / 2;
      if Threshold(m) == d {
        forall j | m < j < 256
          ensures Threshold(j) > d
        {
          ScalarTableOrdered(m, j);
        }
        LastAtMostUnique(d, 255, m);
        return MAX_HEIGHT - 2 * m;
      }
      if Threshold(m) < d {
        forall j | 0 <= j <= m
          ensures Threshold(j) < d
        {
          if j < m {
            ScalarTableOrdered(j, m);
          }
        }
        l := m + 1;
      } else {
        forall j | m <= j < 256
          ensures Threshold(j) > d
        {
          if m < j {
            ScalarTableOrdered(m, j);
          }
        }
        r := m - 1;
      }
    }
    LastAtMostUnique(d, 255, r);
    if r < 0 {
      return MAX_HEIGHT;
    }
    return MAX_HEIGHT - 2 * r;
  }

  /** Farther is never taller. */
  lemma {:induction false} LastAtMostMonotone(d1: int, d2: int, top: int)
    requires d1 <= d2
    requires -1 <= top < 256
    ensures LastAtMost(d1, top) <= LastAtMost(d2, top)
    decreases top + 1
  {
    if top >= 0 && Threshold(top) > d2 {
      LastAtMostMonotone(d1, d2, top - 1);
    }
  }

  lemma HeightMonotone(d1: int, d2: int)
    requires d1 <= d2
    ensures Height(d1) >= Height(d2)
  {
    LastAtMostMonotone(d1, d2, 255);
  }

  /** Every distance up to scalarTable[0] << 6 = 524288 (eight world units)
      projects to the full 512 rows. */
  lemma HeightNear(d: int)
    requires d <= 524288
    ensures Height(d) == MAX_HEIGHT
  {
    var r := LastAtMost(d, 255);
    if r > 0 {
      ScalarTableOrdered(0, r);
    }
  }

  /** A distance between the thresholds of k and k + 1 projects to
      512 - 2k rows. */
  lemma HeightBetween(d: int, k: int)
    requires 0 <= k < 256 && Threshold(k) <= d
    requires k < 255 ==> d < Threshold(k + 1)
    ensures Height(d) == MAX_HEIGHT - 2 * k
  {
    forall j | k < j <= 255
      ensures Threshold(j) > d
    {
      if j > k + 1 {
        ScalarTableOrdered(k + 1, j);
      }
    }
    LastAtMostUnique(d, 255, k);
  }

  /** The no-hit sentinel INT_MAX projects to the 2-row sliver. */
  lemma HeightOfNoHit()
    ensures Height(INT_MAX) == 2
  {
    assert LastAtMost(INT_MAX, 255) == 255;
  }
}
