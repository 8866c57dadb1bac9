/** DrawSprite (source/main.c): a billboard scaled to `size` rows, clipped
    to the screen, drawn column by column behind the depth buffer with a
    transparent colour key, and the projection that places enemies and
    health pickups on screen. */
module Sprites {
  import opened Words
  import opened FixedMath
  import opened FixedLaws
  import opened Projection
  import opened Screen
  import opened World

  /** Texels of this palette index are transparent. */
  const COLOR_KEY: int := 0x0C
  /** The flat colour a damaged enemy is drawn in. */
  const DAMAGE_COLOR: int := 0x2A

  /** The arguments of one DrawSprite call after the sprite bitmap. */
  datatype SpriteCall = SpriteCall(x: int, y: int, size: int, distance: int, damage: int)

  /** What the caller guarantees: a height from FindHeight and the row
      that centres it. */
  predicate ValidCall(s: SpriteCall) {
    1 <= s.size <= MAX_HEIGHT && s.y == TopRow(s.size)
  }

  /** The early exit: nothing of the sprite reaches columns 0..119. */
  predicate OffScreen(s: SpriteCall) {
    s.x + s.size <= 0 || s.x > SCREEN_COLS - 1
  }

  /** First screen column and first row drawn, after clipping on the left
      and at the top. */
  function FirstCol(s: SpriteCall): int {
    if s.x < 0 then 0 else s.x
  }

  function FirstRow(s: SpriteCall): int {
    if s.y < 0 then 0 else s.y
  }

  /** One past the last row drawn: 64 when the sprite overhangs the
      screen, otherwise the full height. */
  function RowEnd(s: SpriteCall): int {
    if s.y < 0 then SCREEN_ROWS else s.y + s.size
  }

  /** One past the last column drawn, capped at the right screen edge. */
  function ColEnd(s: SpriteCall): int {
    if s.x + s.size > SCREEN_COLS then SCREEN_COLS else s.x + s.size
  }

  // ---------------------------------------------------------------------
  // The column loop as written
  // ---------------------------------------------------------------------

  /** `countX + 1` as the source computes it. The left-clip branch keeps
      every column up to the sprite's right edge; only the other branch
      caps the count at the screen's right edge. */
  function ColumnCountAsWritten(s: SpriteCall): int {
    if s.x < 0 then s.size + s.x
    else if s.x + s.size > SCREEN_COLS - 1 then SCREEN_COLS - s.x
    else s.size
  }

  /** The screen columns the source's column loop steps through (and
      reads `zBuffer` at), in order. */
  function ColumnsAsWritten(s: SpriteCall): (cs: seq<int>)
    requires 1 <= s.size
    ensures OffScreen(s) ==> cs == []
    ensures !OffScreen(s) ==> |cs| == ColumnCountAsWritten(s) >= 1
    ensures forall k :: 0 <= k < |cs| ==> cs[k] == FirstCol(s) + k
  {
    if OffScreen(s) then []
    else seq(ColumnCountAsWritten(s), k => FirstCol(s) + k)
  }

  /** The columns a correct loop steps through: from the first visible
      column up to and excluding ColEnd. */
  function ColumnsVisited(s: SpriteCall): (cs: seq<int>)
    ensures |cs| == if ColEnd(s) <= FirstCol(s) then 0 else ColEnd(s) - FirstCol(s)
    ensures forall k :: 0 <= k < |cs| ==> cs[k] == FirstCol(s) + k && 0 <= cs[k] < SCREEN_COLS
  {
    if ColEnd(s) <= FirstCol(s) then []
    else seq(ColEnd(s) - FirstCol(s), k => FirstCol(s) + k)
  }

  /** Every column from the first visible one up to ColEnd is visited. */
  lemma VisitedSpan(s: SpriteCall)
    ensures forall c :: FirstCol(s) <= c < ColEnd(s) ==> c in ColumnsVisited(s)
  {
    var cs := ColumnsVisited(s);
    forall c | FirstCol(s) <= c < ColEnd(s)
      ensures c in cs
    {
      assert cs[c - FirstCol(s)] == c;
    }
  }

  /** The loop as written stays on screen exactly when the sprite is not
      clipped on both sides at once; the capped loop visits the same
      columns in that case. */
  lemma ColumnsAsWrittenOnScreen(s: SpriteCall)
    requires 1 <= s.size
    ensures (forall c :: c in ColumnsAsWritten(s) ==> 0 <= c < SCREEN_COLS)
        <==> !(s.x < 0 && s.x + s.size > SCREEN_COLS)
    ensures !(s.x < 0 && s.x + s.size > SCREEN_COLS) ==> ColumnsAsWritten(s) == ColumnsVisited(s)
  {
    var cs := ColumnsAsWritten(s);
    if s.x < 0 && s.x + s.size > SCREEN_COLS {
      assert cs[SCREEN_COLS] == SCREEN_COLS && cs[SCREEN_COLS] in cs;
    } else if !OffScreen(s) {
      assert |cs| == ColEnd(s) - FirstCol(s);
      assert forall k :: 0 <= k < |cs| ==> 0 <= cs[k] < SCREEN_COLS;
    }
  }

  /** A sprite straight ahead at a depth in 2200256 .. 2236927 (about
      half a cell away) is 122 rows tall and starts at column -1; the loop
      as written then visits column 120, one past the screen, and reads
      `zBuffer[120]`. */
  lemma ColumnsAsWrittenOverrun(d: int)
    requires 2200256 <= d < 2236928
    ensures Height(d) == 122 && ScreenX(0, 122) == -1
    ensures 120 in ColumnsAsWritten(SpriteCall(-1, TopRow(122), 122, d, 0))
  {
    HeightBetween(d, 195);
    var cs := ColumnsAsWritten(SpriteCall(-1, TopRow(122), 122, d, 0));
    assert cs[120] == 120;
  }

  // ---------------------------------------------------------------------
  // The pixels of the corrected loop
  // ---------------------------------------------------------------------

  /** The texel at screen (c, r): the column and the row sampled by the
      accumulated step from the sprite's unclipped corner. */
  function Texel(sprite: seq<int>, s: SpriteCall, c: int, r: int): (t: int)
    requires IsTexture(sprite) && ValidCall(s)
    requires s.x <= c < s.x + s.size && FirstRow(s) <= r < RowEnd(s)
  {
    TopRowFits(s.size);
    sprite[Sample(c - s.x, s.size) * TEXTURE_SIZE + Sample(r - s.y, s.size)]
  }

  /** The colour stored for a texel: the texel itself, or DAMAGE_COLOR. */
  function Shade(damage: int, texel: int): (color: int)
    ensures texel != COLOR_KEY ==> color != COLOR_KEY
    ensures damage != 0 ==> color == DAMAGE_COLOR
  {
    if damage != 0 then DAMAGE_COLOR else texel
  }

  /** Pixel (c, r) is written: it lies in the clipped rectangle, the
      sprite is nearer than the wall of that column, and its texel is not
      transparent. */
  predicate Drawn(sprite: seq<int>, s: SpriteCall, zBuffer: seq<int>, c: int, r: int)
    requires IsTexture(sprite) && ValidCall(s) && |zBuffer| == SCREEN_COLS
  {
    FirstCol(s) <= c < ColEnd(s) && FirstRow(s) <= r < RowEnd(s)
    && s.distance < zBuffer[c] && Texel(sprite, s, c, r) != COLOR_KEY
  }

  /** The inner loop for column c from row r down. */
  function ColumnPixels(sprite: seq<int>, s: SpriteCall, zBuffer: seq<int>, c: int, r: int): (ps: seq<Pixel>)
    requires IsTexture(sprite) && ValidCall(s) && |zBuffer| == SCREEN_COLS
    requires FirstCol(s) <= c < ColEnd(s) && s.distance < zBuffer[c] && FirstRow(s) <= r
    ensures forall p :: p in ps ==> (p.col == c && r <= p.row && Drawn(sprite, s, zBuffer, p.col, p.row)
      && p.color == Shade(s.damage, Texel(sprite, s, p.col, p.row)))
    ensures forall rr :: (r <= rr && Drawn(sprite, s, zBuffer, c, rr)
      ==> Pixel(c, rr, Shade(s.damage, Texel(sprite, s, c, rr))) in ps)
    ensures forall i, j :: 0 <= i < j < |ps| ==> ps[i].row < ps[j].row
    decreases RowEnd(s) - r
  {
    if r >= RowEnd(s) then []
    else
      var t := Texel(sprite, s, c, r);
      var here := if t != COLOR_KEY then [Pixel(c, r, Shade(s.damage, t))] else [];
      here + ColumnPixels(sprite, s, zBuffer, c, r + 1)
  }

  /** Screen order of the writes: column by column, top to bottom. */
  predicate Before(p: Pixel, q: Pixel) {
    p.col < q.col || (p.col == q.col && p.row < q.row)
  }

  /** The outer loop from column c rightwards. */
  function SpritePixels(sprite: seq<int>, s: SpriteCall, zBuffer: seq<int>, c: int): (ps: seq<Pixel>)
    requires IsTexture(sprite) && ValidCall(s) && |zBuffer| == SCREEN_COLS
    requires FirstCol(s) <= c
    ensures forall p :: p in ps ==> (c <= p.col && Drawn(sprite, s, zBuffer, p.col, p.row)
      && p.color == Shade(s.damage, Texel(sprite, s, p.col, p.row)))
    ensures forall cc, rr :: (c <= cc && Drawn(sprite, s, zBuffer, cc, rr)
      ==> Pixel(cc, rr, Shade(s.damage, Texel(sprite, s, cc, rr))) in ps)
    ensures forall i, j :: 0 <= i < j < |ps| ==> Before(ps[i], ps[j])
    decreases ColEnd(s) - c
  {
    if c >= ColEnd(s) then []
    else
      var column := if s.distance < zBuffer[c] then ColumnPixels(sprite, s, zBuffer, c, FirstRow(s)) else [];
      var rest := SpritePixels(sprite, s, zBuffer, c + 1);
      assert forall p :: p in column ==> p.col == c;
      column + rest
  }

  /** DrawSprite with the right-edge cap applied to both branches: the
      writes, in screen order. */
  function DrawSprite(sprite: seq<int>, s: SpriteCall, zBuffer: seq<int>): (ps: seq<Pixel>)
    requires IsTexture(sprite) && ValidCall(s) && |zBuffer| == SCREEN_COLS
    ensures OffScreen(s) ==> ps == []
    ensures forall p :: p in ps ==> (Drawn(sprite, s, zBuffer, p.col, p.row)
      && 0 <= p.col < SCREEN_COLS && 0 <= p.row < SCREEN_ROWS
      && s.distance < zBuffer[p.col] && p.color != COLOR_KEY
      && (s.damage != 0 ==> p.color == DAMAGE_COLOR)
      && (s.damage == 0 ==> p.color == Texel(sprite, s, p.col, p.row)))
    ensures forall c, r :: (Drawn(sprite, s, zBuffer, c, r)
      ==> Pixel(c, r, Shade(s.damage, Texel(sprite, s, c, r))) in ps)
    ensures forall i, j :: 0 <= i < j < |ps| ==> Before(ps[i], ps[j])
    ensures forall p :: p in ps ==> p.col in ColumnsVisited(s)
  {
    TopRowFits(s.size);
    VisitedSpan(s);
    if OffScreen(s) then [] else SpritePixels(sprite, s, zBuffer, FirstCol(s))
  }

  // ---------------------------------------------------------------------
  // Projection
  // ---------------------------------------------------------------------

  /** The world coordinate of the centre of grid line g's cell,
      `(g << 22) + (32 << FRACBITS)`. */
  function CellCentre(g: int): int {
    g * CELL + 32 * FRACUNIT
  }

  /** The screen column of the sprite's left edge: the lateral offset
      scaled by the projected height (`fixedMul(x, size << 16) >> 6`), its
      integer part added to the screen centre 60, minus half the width. */
  function ScreenX(x: int, size: int): (sx: int)
    requires IsInt32(x) && 1 <= size <= MAX_HEIGHT
    ensures -708 <= sx <= 571
    ensures sx + size / 2 - 60 >= 0 <==> x >= 0
    ensures x == 0 ==> sx == 60 - size / 2
  {
    var r := FixedMul(x, size * FRACUNIT);
    ScaledSign(x, size * FRACUNIT, r);
    60 + r / 64 / FRACUNIT - size / 2
  }

  /** Scaling by a positive factor keeps the sign, and an int32 divided by
      2^22 lies in -512 .. 511. */
  lemma ScaledSign(x: int, m: int, r: int)
    requires IsInt32(x) && 0 < m <= INT_MAX && IsInt32(r) && (r < 0 <==> x * m < 0)
    ensures r / 64 / FRACUNIT < 0 <==> x < 0
    ensures -512 <= r / 64 / FRACUNIT < 512
  {
    if x < 0 {
      assert x * m < 0;
    } else {
      assert x * m >= 0;
    }
  }

  /** The DrawSprite call for an object in cell (gx, gy), as the sprite
      pass builds it for health pickups (damage 0) and enemies. */
  function ProjectSprite(cam: Camera, gx: int, gy: int, damage: int): (s: SpriteCall)
    requires ValidCamera(cam) && InGrid(gx, gy)
    ensures ValidCall(s) && s.damage == damage
    ensures IsInt32(s.distance) && s.distance == Depth(cam, CellCentre(gx), CellCentre(gy))
    ensures s.size == Height(s.distance)
    ensures IsInt32(s.x + s.size)
    ensures s.x + s.size / 2 - 60 >= 0 <==> Lateral(cam, CellCentre(gx), CellCentre(gy)) >= 0
  {
    var px := CellCentre(gx);
    var py := CellCentre(gy);
    var distance := Depth(cam, px, py);
    var size := Height(distance);
    SpriteCall(ScreenX(Lateral(cam, px, py), size), TopRow(size), size, distance, damage)
  }
}
