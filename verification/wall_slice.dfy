/** DrawWallSlice (source/main.c): one screen column of a wall, stretched
    from a 64-texel texture column by fixed-point stepping and clipped at
    the top of the screen when the wall is taller than the screen. */
module WallSlice {
  import opened Words
  import opened FixedMath
  import opened Projection
  import opened Screen

  /** The value of `textureOffsetY` at the k-th row written: the clipped
      start `-wallY * scalar` (or 0) plus k steps. */
  function SliceOffset(wallY: int, scalar: int, k: int): int {
    (if wallY < 0 then -wallY * scalar else 0) + k * scalar
  }

  /** The running offset equals the offset of the row's distance from the
      unclipped top, so clipping shifts rows and texture together. */
  lemma SliceOffsetIsUnclipped(wallY: int, scalar: int, k: int)
    ensures SliceOffset(wallY, scalar, k) == ((if wallY < 0 then 0 else wallY) + k - wallY) * scalar
  {
    if wallY < 0 {
      assert (k - wallY) * scalar == k * scalar + -wallY * scalar;
    }
  }

  /** The k-th store of the slice's loop: row `first + k`, texel at the
      running offset. */
  function SlicePixel(texture: seq<int>, textureOffsetX: int, wallX: int, wallY: int, wallHeight: int, k: int): (p: Pixel)
    requires IsTexture(texture) && 0 <= textureOffsetX < TEXTURE_SIZE
    requires 1 <= wallHeight <= MAX_HEIGHT && wallY == TopRow(wallHeight)
    requires 0 <= k < (if wallY < 0 then SCREEN_ROWS else wallHeight)
    ensures p.col == wallX && p.row == (if wallY < 0 then 0 else wallY) + k
    ensures 0 <= p.row < SCREEN_ROWS
    ensures p.color == texture[textureOffsetX * TEXTURE_SIZE + Sample(p.row - wallY, wallHeight)]
  {
    var scalar := StepFor(wallHeight);
    var first := if wallY < 0 then 0 else wallY;
    TopRowFits(wallHeight);
    SliceOffsetIsUnclipped(wallY, scalar, k);
    assert Sample(first + k - wallY, wallHeight) == SliceOffset(wallY, scalar, k) / FRACUNIT;
    Pixel(wallX, first + k, texture[textureOffsetX * TEXTURE_SIZE + SliceOffset(wallY, scalar, k) / FRACUNIT])
  }

  /** The pixels DrawWallSlice writes, in order: `count + 1` rows down from
      the first visible row. The first row and the texture offset are moved
      past the clipped rows when wallY < 0, so that every pixel shows the
      texture row an unclipped slice would show there. */
  function DrawWallSlice(texture: seq<int>, textureOffsetX: int, wallX: int, wallY: int, wallHeight: int): (ps: seq<Pixel>)
    requires IsTexture(texture) && 0 <= textureOffsetX < TEXTURE_SIZE
    requires 0 <= wallX < SCREEN_COLS
    requires 1 <= wallHeight <= MAX_HEIGHT && wallY == TopRow(wallHeight)
    ensures wallY >= 0 ==> |ps| == wallHeight
    ensures wallY < 0 ==> |ps| == SCREEN_ROWS
    ensures forall k :: 0 <= k < |ps| ==> ps[k].col == wallX && ps[k].row == (if wallY < 0 then 0 else wallY) + k
    ensures forall k :: 0 <= k < |ps| ==> 0 <= ps[k].row < SCREEN_ROWS
    ensures forall k :: 0 <= k < |ps| ==> ps[k] == SlicePixel(texture, textureOffsetX, wallX, wallY, wallHeight, k)
  {
    var count := if wallY < 0 then SCREEN_ROWS else wallHeight;
    var ps := seq(count, k requires 0 <= k < count => SlicePixel(texture, textureOffsetX, wallX, wallY, wallHeight, k));
    assert forall k :: 0 <= k < count ==> ps[k] == SlicePixel(texture, textureOffsetX, wallX, wallY, wallHeight, k);
    ps
  }
}
