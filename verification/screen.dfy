/** The logical screen the renderer draws into, and the perspective texture
    sampling shared by wall slices and sprites. The GBA's mode-4 page stores
    every logical pixel as a doubled byte on two physical rows; the model
    records one write per logical pixel. */
module Screen {
  import opened Words
  import opened FixedMath
  import opened Projection

  const SCREEN_COLS: int := 120
  /** Textures are 64 x 64 bytes, stored column by column. */
  const TEXTURE_SIZE: int := 64

  /** One store of a palette index at a logical (column, row). */
  datatype Pixel = Pixel(col: int, row: int, color: int)

  predicate IsTexture(t: seq<int>) {
    |t| == TEXTURE_SIZE * TEXTURE_SIZE
  }

  /** `scalarTable[(512 - size) >> 1]`: the 16.16 texture step of an object
      projected `size` rows tall. A full object spans at most the 2^22 of
      64 texels. */
  function StepFor(size: int): (s: int)
    requires 1 <= size <= MAX_HEIGHT
    ensures 8192 <= s <= 0x20_0000
    ensures size * s <= 0x40_0000
  {
    var k := (MAX_HEIGHT - size) / 2;
    var v := ScalarTable(k);
    ScalarTableReciprocal();
    SpanProduct(size, k, v);
    v
  }

  lemma SpanProduct(size: int, k: int, v: int)
    requires 0 <= k < 256 && 1 <= size <= 2 * (256 - k)
    requires 0 <= v && v * (256 - k) <= 0x20_0000
    ensures size * v <= 0x40_0000
  {
    MulMonotone(size, 2 * (256 - k), v);
  }

  lemma MulMonotone(a: int, b: int, c: int)
    requires a <= b && 0 <= c
    ensures a * c <= b * c
  {
  }

  /** The sample index j * s >> 16 of a point j rows into the object stays
      below 64 once j is below the object's size. */
  lemma SampleBound(j: int, size: int, s: int)
    requires 0 <= j < size && 0 <= s && size * s <= 0x40_0000
    ensures 0 <= j * s / FRACUNIT < TEXTURE_SIZE
  {
    MulMonotone(j, size, s);
  }

  /** The top row `(64 - size) >> 1` that centres an object of that height. */
  function TopRow(size: int): int {
    (SCREEN_ROWS - size) / 2
  }

  /** The texture row (or column) shown j rows (or columns) into an object
      projected `size` rows tall: the accumulated step, shifted right by
      FRACBITS. It always lies inside the texture. */
  function Sample(j: int, size: int): (t: int)
    requires 1 <= size <= MAX_HEIGHT
    requires 0 <= j < size
    ensures 0 <= t < TEXTURE_SIZE
  {
    var s := StepFor(size);
    SampleBound(j, size, s);
    j * s / FRACUNIT
  }

  /** An object of that height starting at TopRow either fits the screen or
      overhangs it on both sides. */
  lemma TopRowFits(size: int)
    requires 1 <= size <= MAX_HEIGHT
    ensures TopRow(size) >= 0 ==> size <= SCREEN_ROWS && TopRow(size) + size <= SCREEN_ROWS
    ensures TopRow(size) < 0 ==> SCREEN_ROWS - 1 - TopRow(size) < size
  {
  }
}
