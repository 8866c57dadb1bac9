/** The per-column wall caster of `Render` (source/main.c): two grid
    traversals, one across horizontal grid lines stepping by the cotangent
    and one across vertical grid lines stepping by the tangent, then the
    choice of the nearer hit and its texture column. */
module Caster {
  import opened Words
  import opened FixedMath
  import opened FixedLaws
  import opened World
  import opened Doors

  /** The largest sideways step of one traversal, 64 * the largest
      tangent-table entry. */
  const MAX_STEP: int := 683556672

  /** The graphics-bitmap offsets of the four wall textures. */
  const WALL_TEXTURE_H: int := 0
  const DOOR_TEXTURE_V: int := 4096
  const DOOR_TEXTURE_H: int := 8192
  const WALL_TEXTURE_V: int := 12288

  /** Which grid lines a traversal crosses. */
  datatype Axis = Horizontal | Vertical

  /** A traversal's current intersection: `major` is the coordinate on the
      crossed grid line (y for Horizontal, x for Vertical), `minor` the
      other coordinate, each followed by its step. */
  datatype Ray = Ray(axis: Axis, major: int, minor: int, stepMajor: int, stepMinor: int)

  /** An enemy (types 3, 4) or health pickup (types 5, 6) cell the
      traversal passed through. */
  datatype Sighting = Sighting(kind: int, gx: int, gy: int)

  /** What a traversal leaves behind: the distance (INT_MAX for no hit),
      the last cell type read, the last door opening computed, the final
      intersection, how many cells it passed before stopping, and the
      entity cells it passed. `kind` and `doorOffset` are the source's
      intersection-type and door-offset variables, which keep their
      previous value when no cell assigns them. */
  datatype Trace = Trace(distance: int, kind: int, doorOffset: int, major: int, minor: int, steps: nat, sightings: seq<Sighting>)

  predicate IsEntity(kind: int) {
    3 <= kind <= 6
  }

  /** The cell the intersection lies on the far side of: the grid line
      below it when stepping in the negative direction. */
  function ProbeX(r: Ray): int {
    if r.axis == Horizontal then GridOf(r.minor)
    else GridOf(r.major) - (if r.stepMajor < 0 then 1 else 0)
  }

  function ProbeY(r: Ray): int {
    if r.axis == Horizontal then GridOf(r.major) - (if r.stepMajor < 0 then 1 else 0)
    else GridOf(r.minor)
  }

  /** `((minor + (step >> 1)) >> FRACBITS) & 63`: where the ray crosses
      the door's midline, in texels across the cell. */
  function DoorColumn(r: Ray): (c: int)
    ensures 0 <= c < 64
  {
    ((r.minor + r.stepMinor / 2) / FRACUNIT) % 64
  }

  /** The cell at the intersection ends the traversal: it is outside the
      grid, a wall, or a door still closed where the ray crosses its
      midline. */
  predicate Stops(m: seq<int>, ds: seq<Door>, r: Ray)
    requires IsMap(m) && |ds| == SLOTS
  {
    var gx := ProbeX(r);
    var gy := ProbeY(r);
    !InGrid(gx, gy)
    || m[CellIndex(gx, gy)] == WALL
    || (m[CellIndex(gx, gy)] == DOOR && DoorColumn(r) < DoorOpening(ds, gx, gy))
  }

  /** The type of the probed cell, or -1 outside the grid. */
  function ProbeKind(m: seq<int>, r: Ray): int
    requires IsMap(m)
  {
    if InGrid(ProbeX(r), ProbeY(r)) then m[CellIndex(ProbeX(r), ProbeY(r))] else -1
  }

  function Advance(r: Ray): Ray {
    r.(major := r.major + r.stepMajor, minor := r.minor + r.stepMinor)
  }

  /** The n-th intersection along the ray. */
  function Nth(r: Ray, n: nat): Ray
    decreases n
  {
    if n == 0 then r else Nth(Advance(r), n - 1)
  }

  /** The bounds every intersection of a traversal keeps while it is
      inside the grid; they keep all of the source's int32 arithmetic
      exact. */
  predicate RayInvariant(r: Ray) {
    (r.stepMajor == CELL || r.stepMajor == -CELL)
    && Abs(r.stepMinor) <= MAX_STEP
    && r.major % CELL == 0 && 0 <= r.major <= WORLD
    && -MAX_STEP <= r.minor <= WORLD + MAX_STEP
  }

  /** The world point of an intersection, (x, y). */
  function PointX(r: Ray): int {
    if r.axis == Horizontal then r.minor else r.major
  }

  function PointY(r: Ray): int {
    if r.axis == Horizontal then r.major else r.minor
  }

  /** A hit the caster can draw: a wall, or a door whose crossing texel
      lies in its closed part, which is at most a cell wide. */
  predicate Consistent(t: Trace) {
    t.distance < INT_MAX ==>
      t.kind == WALL || (t.kind == DOOR && (t.minor / FRACUNIT) % 64 < t.doorOffset <= 64)
  }

  /** Measure of the remaining traversal: the distance from the
      intersection to the grid edge it moves towards. */
  function Remaining(r: Ray): int {
    if r.stepMajor < 0 then r.major else WORLD - r.major
  }

  /** An intersection whose cell is in the grid lies inside the grid (up
      to the crossed line), its successor keeps the invariant and is one
      cell nearer the edge, and both it and its half step are within the
      view transform's reach of any camera in the grid. */
  lemma InGridBounds(r: Ray)
    requires RayInvariant(r) && InGrid(ProbeX(r), ProbeY(r))
    ensures 0 <= r.minor < WORLD
    ensures RayInvariant(Advance(r)) && 0 <= Remaining(Advance(r)) < Remaining(r)
  {
  }

  /** Intersections inside the grid, and their half steps, are within the
      view transform's reach of any camera in the grid. */
  lemma HitInReach(cam: Camera, r: Ray)
    requires ValidCamera(cam) && RayInvariant(r) && InGrid(ProbeX(r), ProbeY(r))
    ensures InReach(cam, PointX(r), PointY(r))
    ensures InReach(cam, PointX(HalfStep(r)), PointY(HalfStep(r)))
  {
    InGridBounds(r);
  }

  /** The intersection moved half a step on, onto a door's midline. */
  function HalfStep(r: Ray): Ray {
    r.(major := r.major + r.stepMajor / 2, minor := r.minor + r.stepMinor / 2)
  }

  /** The depth of a door hit: half a step past the intersection, on the
      door's midline. */
  function DoorHit(ds: seq<Door>, cam: Camera, r: Ray): (t: Trace)
    requires |ds| == SLOTS && ValidCamera(cam) && RayInvariant(r) && InGrid(ProbeX(r), ProbeY(r))
    requires DoorColumn(r) < DoorOpening(ds, ProbeX(r), ProbeY(r))
    ensures IsInt32(t.distance) && t.distance < INT_MAX && t.kind == DOOR && t.steps == 0 && t.sightings == []
    ensures ValidDoors(ds) ==> Consistent(t)
  {
    HitInReach(cam, r);
    var h := HalfStep(r);
    Trace(Depth(cam, PointX(h), PointY(h)), DOOR, DoorOpening(ds, ProbeX(r), ProbeY(r)), h.major, h.minor, 0, [])
  }

  /** The arms of the loop that `break`: leaving the grid gives INT_MAX;
      a wall gives the depth of the intersection; a door gives the depth of
      its midline, half a step further, and records its opening. */
  function Arrive(m: seq<int>, ds: seq<Door>, cam: Camera, r: Ray, kind: int, door: int): (t: Trace)
    requires IsMap(m) && |ds| == SLOTS && ValidCamera(cam) && RayInvariant(r)
    requires Stops(m, ds, r)
    ensures IsInt32(t.distance) && t.steps == 0 && t.sightings == []
    ensures t.distance == INT_MAX <==> !InGrid(ProbeX(r), ProbeY(r))
    ensures t.distance == INT_MAX || t.kind == WALL || t.kind == DOOR
    ensures ValidDoors(ds) ==> Consistent(t)
  {
    var gx := ProbeX(r);
    var gy := ProbeY(r);
    if !InGrid(gx, gy) then Trace(INT_MAX, kind, door, r.major, r.minor, 0, [])
    else
      HitInReach(cam, r);
      if m[CellIndex(gx, gy)] == WALL then
        Trace(Depth(cam, PointX(r), PointY(r)), WALL, door, r.major, r.minor, 0, [])
      else DoorHit(ds, cam, r)
  }

  /** The sighting a passed cell contributes, if it holds an entity. */
  function Seen(m: seq<int>, r: Ray): (ss: seq<Sighting>)
    requires IsMap(m) && InGrid(ProbeX(r), ProbeY(r))
    ensures forall s :: s in ss ==> IsEntity(s.kind) && InGrid(s.gx, s.gy) && m[CellIndex(s.gx, s.gy)] == s.kind
    ensures IsEntity(ProbeKind(m, r)) ==> ss == [Sighting(ProbeKind(m, r), ProbeX(r), ProbeY(r))]
    ensures !IsEntity(ProbeKind(m, r)) ==> ss == []
  {
    var k := m[CellIndex(ProbeX(r), ProbeY(r))];
    if IsEntity(k) then [Sighting(k, ProbeX(r), ProbeY(r))] else []
  }

  /** The `while (1)` loop of one traversal: pass cells until one stops
      the ray, remembering the last cell type, the last door opening and
      the entity cells passed. */
  function Walk(m: seq<int>, ds: seq<Door>, cam: Camera, r: Ray, kind: int, door: int): (t: Trace)
    requires IsMap(m) && |ds| == SLOTS && ValidCamera(cam) && RayInvariant(r)
    ensures IsInt32(t.distance)
    ensures t.distance == INT_MAX || t.kind == WALL || t.kind == DOOR
    ensures ValidDoors(ds) ==> Consistent(t)
    ensures forall s :: s in t.sightings ==> IsEntity(s.kind) && InGrid(s.gx, s.gy) && m[CellIndex(s.gx, s.gy)] == s.kind
    decreases Remaining(r)
  {
    if Stops(m, ds, r) then Arrive(m, ds, cam, r, kind, door)
    else
      InGridBounds(r);
      var k := m[CellIndex(ProbeX(r), ProbeY(r))];
      var door' := if k == DOOR then DoorOpening(ds, ProbeX(r), ProbeY(r)) else door;
      var rest := Walk(m, ds, cam, Advance(r), k, door');
      rest.(steps := rest.steps + 1, sightings := Seen(m, r) + rest.sightings)
  }

  /** The traversal stops at the first intersection whose cell stops the
      ray, after passing `steps` cells that do not; it reports INT_MAX
      exactly when that intersection is outside the grid. */
  lemma {:induction false} WalkStopsAtFirstBlocker(m: seq<int>, ds: seq<Door>, cam: Camera, r: Ray, kind: int, door: int)
    requires IsMap(m) && |ds| == SLOTS && ValidCamera(cam) && RayInvariant(r)
    ensures var t := Walk(m, ds, cam, r, kind, door);
      (forall j :: 0 <= j < t.steps ==> !Stops(m, ds, Nth(r, j)))
      && Stops(m, ds, Nth(r, t.steps))
      && (t.distance == INT_MAX <==> !InGrid(ProbeX(Nth(r, t.steps)), ProbeY(Nth(r, t.steps))))
    decreases Remaining(r)
  {
    if !Stops(m, ds, r) {
      InGridBounds(r);
      var k := m[CellIndex(ProbeX(r), ProbeY(r))];
      var door' := if k == DOOR then DoorOpening(ds, ProbeX(r), ProbeY(r)) else door;
      WalkStopsAtFirstBlocker(m, ds, cam, Advance(r), k, door');
      var rest := Walk(m, ds, cam, Advance(r), k, door');
      assert Walk(m, ds, cam, r, kind, door).steps == rest.steps + 1;
      assert Walk(m, ds, cam, r, kind, door).distance == rest.distance;
      assert Nth(r, rest.steps + 1) == Nth(Advance(r), rest.steps);
      forall j | 0 <= j < rest.steps + 1
        ensures !Stops(m, ds, Nth(r, j))
      {
        if j > 0 {
          assert Nth(r, j) == Nth(Advance(r), j - 1);
        }
      }
    } else {
      assert Walk(m, ds, cam, r, kind, door) == Arrive(m, ds, cam, r, kind, door);
    }
  }

  /** Every entity cell the traversal passes is reported, in order. */
  lemma {:induction false} WalkSeesEveryEntity(m: seq<int>, ds: seq<Door>, cam: Camera, r: Ray, kind: int, door: int)
    requires IsMap(m) && |ds| == SLOTS && ValidCamera(cam) && RayInvariant(r)
    ensures var t := Walk(m, ds, cam, r, kind, door);
      forall j :: 0 <= j < t.steps && IsEntity(ProbeKind(m, Nth(r, j))) ==>
        Sighting(ProbeKind(m, Nth(r, j)), ProbeX(Nth(r, j)), ProbeY(Nth(r, j))) in t.sightings
    decreases Remaining(r)
  {
    if !Stops(m, ds, r) {
      InGridBounds(r);
      var k := m[CellIndex(ProbeX(r), ProbeY(r))];
      var door' := if k == DOOR then DoorOpening(ds, ProbeX(r), ProbeY(r)) else door;
      WalkSeesEveryEntity(m, ds, cam, Advance(r), k, door');
    }
  }

  /** The values the traversal's variables had on entry reach only its
      reported type and door offset, and those only when it misses: a hit
      reports the type and opening of the cell it hit. */
  lemma {:induction false} WalkIgnoresEntry(m: seq<int>, ds: seq<Door>, cam: Camera, r: Ray,
                                             kind1: int, door1: int, kind2: int, door2: int)
    requires IsMap(m) && |ds| == SLOTS && ValidCamera(cam) && RayInvariant(r)
    ensures var t1 := Walk(m, ds, cam, r, kind1, door1);
      var t2 := Walk(m, ds, cam, r, kind2, door2);
      t1.(kind := 0, doorOffset := 0) == t2.(kind := 0, doorOffset := 0)
      && (t1.distance < INT_MAX ==> t1.kind == t2.kind && (t1.kind == DOOR ==> t1 == t2))
    decreases Remaining(r)
  {
    if !Stops(m, ds, r) {
      InGridBounds(r);
      var k := m[CellIndex(ProbeX(r), ProbeY(r))];
      var door' := if k == DOOR then DoorOpening(ds, ProbeX(r), ProbeY(r)) else door1;
      var door'' := if k == DOOR then DoorOpening(ds, ProbeX(r), ProbeY(r)) else door2;
      WalkIgnoresEntry(m, ds, cam, Advance(r), k, door', k, door'');
    }
  }

  // ---------------------------------------------------------------------
  // Setting up the two traversals of one column
  // ---------------------------------------------------------------------

  /** The ray angles at which a traversal runs parallel to its grid lines
      and is skipped with distance INT_MAX. */
  predicate Parallel(axis: Axis, ra: int) {
    if axis == Horizontal then ra == 0 || ra == 2 * QUARTER
    else ra == QUARTER || ra == 3 * QUARTER
  }

  /** The first intersection with a grid line of the given kind: the line
      through the camera's cell edge in the direction of the ray, the
      other coordinate moved along the ray by the cotangent (horizontal
      lines) or tangent (vertical lines), and the steps between
      successive lines. Angles grow anticlockwise with y pointing down the
      map, so rays with angle below 256 move towards smaller y and rays
      between 128 and 383 towards smaller x. */
  function FirstIntersection(cam: Camera, axis: Axis, ra: int): (r: Ray)
    requires ValidCamera(cam)
    ensures RayInvariant(r) && r.axis == axis
    ensures axis == Horizontal ==> (r.stepMajor < 0 <==> ra < 2 * QUARTER)
    ensures axis == Vertical ==> (r.stepMajor < 0 <==> QUARTER <= ra < 3 * QUARTER)
    ensures r.major == GridOf(if axis == Horizontal then cam.y else cam.x) * CELL + (if r.stepMajor < 0 then 0 else CELL)
  {
    var back := if axis == Horizontal then ra < 2 * QUARTER else QUARTER <= ra < 3 * QUARTER;
    var slope := if axis == Horizontal then FixedCot(ra) else FixedTan(ra);
    RayFrom(cam, axis, back, slope)
  }

  /** The first intersection for a given direction along the grid lines'
      normal and slope along them; any slope the tables hold keeps both
      products inside MAX_STEP, so no saturation occurs. */
  function RayFrom(cam: Camera, axis: Axis, back: bool, slope: int): (r: Ray)
    requires ValidCamera(cam) && Abs(slope) <= 10680573
    ensures RayInvariant(r) && r.axis == axis
    ensures r.stepMajor < 0 <==> back
    ensures r.major == GridOf(if axis == Horizontal then cam.y else cam.x) * CELL + (if back then 0 else CELL)
  {
    var own := if axis == Horizontal then cam.y else cam.x;
    var other := if axis == Horizontal then cam.x else cam.y;
    var major := GridOf(own) * CELL + (if back then 0 else CELL);
    var stepMajor := if back then -CELL else CELL;
    MulBoth(Abs(major - own), CELL, Abs(slope), 10680573);
    FixedMulWithin(major - own, slope, MAX_STEP);
    FixedMulWithin(stepMajor, slope, MAX_STEP);
    Ray(axis, major, other - FixedMul(major - own, slope), stepMajor, -FixedMul(stepMajor, slope))
  }

  /** One traversal of a column, with the values its variables held on
      entry. */
  function Traverse(m: seq<int>, ds: seq<Door>, cam: Camera, axis: Axis, ra: int, kind: int, door: int): (t: Trace)
    requires IsMap(m) && |ds| == SLOTS && ValidCamera(cam)
    ensures IsInt32(t.distance)
    ensures Parallel(axis, ra) ==> t.distance == INT_MAX && t.sightings == []
    ensures !Parallel(axis, ra) ==> t == Walk(m, ds, cam, FirstIntersection(cam, axis, ra), kind, door)
    ensures ValidDoors(ds) ==> Consistent(t)
    ensures forall s :: s in t.sightings ==> IsEntity(s.kind) && InGrid(s.gx, s.gy) && m[CellIndex(s.gx, s.gy)] == s.kind
  {
    var r := FirstIntersection(cam, axis, ra);
    if Parallel(axis, ra) then Trace(INT_MAX, kind, door, r.major, r.minor, 0, [])
    else Walk(m, ds, cam, r, kind, door)
  }

  // ---------------------------------------------------------------------
  // Choosing the nearer hit
  // ---------------------------------------------------------------------

  /** The arguments the column passes to DrawWallSlice (besides the
      height), and the value it stores in `zBuffer`. */
  datatype Column = Column(distance: int, texture: int, textureX: int)

  predicate FromHorizontal(c: Column) {
    c.texture == WALL_TEXTURE_H || c.texture == DOOR_TEXTURE_H
  }

  /** The nearer of the two traversals, ties going to the vertical one;
      its texture and texture column: the texel column of the crossing,
      mirrored on the faces seen from behind, or for a door shifted by
      the part of the door slid away. */
  function ChooseColumn(h: Trace, v: Trace, ra: int): (c: Column)
    ensures c.distance <= h.distance && c.distance <= v.distance
    ensures FromHorizontal(c) <==> h.distance < v.distance
    ensures FromHorizontal(c) ==> c.distance == h.distance
    ensures !FromHorizontal(c) ==> c.distance == v.distance
    ensures (c.texture == DOOR_TEXTURE_H || c.texture == DOOR_TEXTURE_V)
      <==> (if h.distance < v.distance then h.kind else v.kind) == DOOR
    ensures c.distance < INT_MAX && Consistent(h) && Consistent(v) ==> 0 <= c.textureX < 64
  {
    if h.distance < v.distance then
      var x := (h.minor / FRACUNIT) % 64;
      if h.kind == DOOR then Column(h.distance, DOOR_TEXTURE_H, x + 64 - h.doorOffset)
      else Column(h.distance, WALL_TEXTURE_H, if ra >= 2 * QUARTER then 63 - x else x)
    else
      var y := (v.minor / FRACUNIT) % 64;
      if v.kind == DOOR then Column(v.distance, DOOR_TEXTURE_V, y + 64 - v.doorOffset)
      else Column(v.distance, WALL_TEXTURE_V, if QUARTER <= ra < 3 * QUARTER then 63 - y else y)
  }

  /** When neither traversal hits, the vertical one is still chosen, with
      whatever type and door offset it last read: a door cell passed just
      before the ray left the grid yields texture column 127. */
  lemma BothMissStaleDoor()
    ensures ChooseColumn(Trace(INT_MAX, WALL, 0, 0, 0, 0, []),
                         Trace(INT_MAX, DOOR, 0, 0, 63 * FRACUNIT, 0, []), 0).textureX == 127
  {
  }

  /** The variables a column's traversals leave for the next column. */
  datatype Carry = Carry(hKind: int, hDoor: int, vKind: int, vDoor: int)

  /** Both traversals of one column and the choice between them. */
  datatype Cast = Cast(column: Column, h: Trace, v: Trace)

  /** What the rest of the frame relies on in a column's cast: a distance
      that fits in an int32, a texture column inside the texture when the
      column hits and the doors are consistent, and entity sightings that
      name entity cells of the map. */
  predicate SoundCast(m: seq<int>, ds: seq<Door>, c: Cast)
    requires IsMap(m)
  {
    && IsInt32(c.column.distance)
    && (ValidDoors(ds) && c.column.distance < INT_MAX ==> 0 <= c.column.textureX < 64)
    && (forall s :: s in c.h.sightings ==> IsEntity(s.kind) && InGrid(s.gx, s.gy) && m[CellIndex(s.gx, s.gy)] == s.kind)
    && (forall s :: s in c.v.sightings ==> IsEntity(s.kind) && InGrid(s.gx, s.gy) && m[CellIndex(s.gx, s.gy)] == s.kind)
  }

  /** One column: both traversals at the ray angle, from the variables the
      previous column left, and the nearer hit. */
  function CastColumn(m: seq<int>, ds: seq<Door>, cam: Camera, ra: int, carry: Carry): (c: Cast)
    requires IsMap(m) && |ds| == SLOTS && ValidCamera(cam)
    ensures SoundCast(m, ds, c)
  {
    var h := Traverse(m, ds, cam, Horizontal, ra, carry.hKind, carry.hDoor);
    var v := Traverse(m, ds, cam, Vertical, ra, carry.vKind, carry.vDoor);
    Cast(ChooseColumn(h, v, ra), h, v)
  }

  function CarryOf(c: Cast): Carry {
    Carry(c.h.kind, c.h.doorOffset, c.v.kind, c.v.doorOffset)
  }

  /** A column whose chosen traversal hits is drawn the same whatever the
      previous column left in the traversal variables. */
  lemma CastIgnoresCarryWhenHit(m: seq<int>, ds: seq<Door>, cam: Camera, ra: int, c1: Carry, c2: Carry)
    requires IsMap(m) && |ds| == SLOTS && ValidCamera(cam)
    requires CastColumn(m, ds, cam, ra, c1).column.distance < INT_MAX
    ensures CastColumn(m, ds, cam, ra, c1).column == CastColumn(m, ds, cam, ra, c2).column
  {
    if !Parallel(Horizontal, ra) {
      WalkIgnoresEntry(m, ds, cam, FirstIntersection(cam, Horizontal, ra), c1.hKind, c1.hDoor, c2.hKind, c2.hDoor);
    }
    if !Parallel(Vertical, ra) {
      WalkIgnoresEntry(m, ds, cam, FirstIntersection(cam, Vertical, ra), c1.vKind, c1.vDoor, c2.vKind, c2.vDoor);
    }
  }
}
