/** The game world the renderer looks at: a 64 x 64 grid of cell types,
    each cell 64 world units (64 << 16 in 16.16) wide, and the camera. */
module World {
  import opened Words
  import opened FixedMath
  import opened FixedLaws

  /** `mapWidth` and `mapHeight`. */
  const MAP_SIZE: int := 64
  /** The width of a cell, `64 << FRACBITS`; `x >> 22` is the cell of x. */
  const CELL: int := 0x40_0000
  /** The width of the whole grid, 64 cells. */
  const WORLD: int := 0x1000_0000

  /** Cell types of the map. */
  const EMPTY: int := 0
  const WALL: int := 1
  const DOOR: int := 2

  /** `mapData`: 4096 cell types, row after row. */
  predicate IsMap(m: seq<int>) {
    |m| == MAP_SIZE * MAP_SIZE
  }

  predicate InGrid(gx: int, gy: int) {
    0 <= gx < MAP_SIZE && 0 <= gy < MAP_SIZE
  }

  /** `gridY * mapWidth + gridX`. */
  function CellIndex(gx: int, gy: int): (i: int)
    requires InGrid(gx, gy)
    ensures 0 <= i < MAP_SIZE * MAP_SIZE
    ensures i / MAP_SIZE == gy && i % MAP_SIZE == gx
  {
    gy * MAP_SIZE + gx
  }

  /** The doors, enemies and pickups each live in 64 slots, one per cell
      of an 8 x 8 tiling of the map. */
  const SLOTS: int := 64

  /** `((gy & 7) << 3) + (gx & 7)`: the slot of cell (gx, gy), shared by
      every cell that agrees with it mod 8 in both coordinates. */
  function CellSlot(gx: int, gy: int): (i: int)
    requires InGrid(gx, gy)
    ensures 0 <= i < SLOTS
    ensures i / 8 == gy % 8 && i % 8 == gx % 8
  {
    (gy % 8) * 8 + gx % 8
  }

  /** `coord >> 22`: the grid line index at or below a world coordinate. */
  function GridOf(coord: int): int {
    coord / CELL
  }

  /** The player's position and view direction. The movement code keeps
      the position at least 9 units inside the grid and masks the angle
      to 0..511. */
  datatype Camera = Camera(x: int, y: int, angle: int)

  predicate ValidCamera(c: Camera) {
    0 <= c.x < WORLD && 0 <= c.y < WORLD && 0 <= c.angle < ANGLES
  }

  /** The largest offset from the camera the view transform accepts
      without overflowing `fixed_t`: 2^30 - 1. */
  const REACH: int := 0x3FFF_FFFF

  predicate InReach(cam: Camera, px: int, py: int) {
    Abs(px - cam.x) <= REACH && Abs(py - cam.y) <= REACH
  }

  /** The distance of point (px, py) along the view direction:
      `fixedMul(px - cameraX, fixedCos(cameraAngle)) - fixedMul(py - cameraY,
      fixedSin(cameraAngle))`. The world's y axis points down the screen,
      hence the minus sign. Neither product saturates and the difference
      fits `fixed_t`. */
  function Depth(cam: Camera, px: int, py: int): (d: int)
    requires InReach(cam, px, py)
    ensures IsInt32(d) && Abs(d) <= 2 * REACH
  {
    Shrinks(px - cam.x, FixedCos(cam.angle));
    Shrinks(py - cam.y, FixedSin(cam.angle));
    FixedMul(px - cam.x, FixedCos(cam.angle)) - FixedMul(py - cam.y, FixedSin(cam.angle))
  }

  /** The offset of point (px, py) across the view direction, positive to
      the right of the screen's centre: the `x` of the sprite projection. */
  function Lateral(cam: Camera, px: int, py: int): (x: int)
    requires InReach(cam, px, py)
    ensures IsInt32(x) && Abs(x) <= 2 * REACH
  {
    Shrinks(px - cam.x, FixedSin(cam.angle));
    Shrinks(py - cam.y, FixedCos(cam.angle));
    FixedMul(px - cam.x, FixedSin(cam.angle)) + FixedMul(py - cam.y, FixedCos(cam.angle))
  }

  /** Neither product of the view transform saturates: both equal the
      exact products shifted right by FRACBITS. */
  lemma TransformIsExact(cam: Camera, px: int, py: int)
    requires InReach(cam, px, py)
    ensures Depth(cam, px, py)
      == (px - cam.x) * FixedCos(cam.angle) / FRACUNIT - (py - cam.y) * FixedSin(cam.angle) / FRACUNIT
    ensures Lateral(cam, px, py)
      == (px - cam.x) * FixedSin(cam.angle) / FRACUNIT + (py - cam.y) * FixedCos(cam.angle) / FRACUNIT
  {
    Shrinks(px - cam.x, FixedCos(cam.angle));
    Shrinks(py - cam.y, FixedSin(cam.angle));
    Shrinks(px - cam.x, FixedSin(cam.angle));
    Shrinks(py - cam.y, FixedCos(cam.angle));
  }

  /** Multiplying an offset within REACH by a sine or cosine value neither
      saturates nor grows it. */
  lemma Shrinks(a: int, t: int)
    requires Abs(a) <= REACH && Abs(t) <= FRACUNIT
    ensures IsInt32(a) && IsInt32(t)
    ensures Abs(FixedMul(a, t)) <= REACH && FixedMul(a, t) == a * t / FRACUNIT
  {
    MulBoth(Abs(a), REACH, Abs(t), FRACUNIT);
    FixedMulWithin(a, t, REACH);
  }
}
