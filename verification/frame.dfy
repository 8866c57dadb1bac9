/** The wall pass of `Render` (source/main.c): 120 columns cast from
    left to right, each drawn as a wall slice with its distance kept in the
    depth buffer. In solid-planes mode the rows above and below the wall
    are blanked; otherwise the first floor row of every column with a short
    wall is recorded for the floor/ceiling pass. */
module Frame {
  import opened Words
  import opened FixedMath
  import opened World
  import opened Doors
  import opened Projection
  import opened Screen
  import opened Caster
  import opened Visplane
  import opened WallSlice

  /** Column 0 looks this many angle steps to the left of the camera. */
  const HALF_VIEW: int := 59

  /** The ray angle of column i: `(cameraAngle + 59) & 511`, less one step
      per column, modulo 512. */
  function ColumnAngle(cam: Camera, i: int): (ra: int)
    ensures 0 <= ra < ANGLES
  {
    (cam.angle + HALF_VIEW - i) % ANGLES
  }

  /** Moving one column to the right turns the ray one step clockwise. */
  lemma ColumnAngleSteps(cam: Camera, i: int)
    ensures ColumnAngle(cam, i + 1) == (ColumnAngle(cam, i) - 1) % ANGLES
  {
  }

  /** The traversal variables column i starts from: what column i - 1
      left, or for the first column `carry0`, whatever the stack held. */
  function CarryBefore(cs: seq<Cast>, carry0: Carry, i: int): Carry
    requires 0 <= i <= |cs|
  {
    if i == 0 then carry0 else CarryOf(cs[i - 1])
  }

  /** The casts of the first n columns, left to right: column i casts at
      ColumnAngle(cam, i) from the variables column i - 1 left. Each has a
      distance that fits in an int32, a texture column inside the texture
      when it hits and the doors are consistent, and reports only entity
      cells of the map. */
  function CastsUpTo(m: seq<int>, ds: seq<Door>, cam: Camera, carry0: Carry, n: nat): (cs: seq<Cast>)
    requires IsMap(m) && |ds| == SLOTS && ValidCamera(cam)
    ensures |cs| == n
    ensures forall i :: 0 <= i < n ==> SoundCast(m, ds, cs[i])
    decreases n
  {
    if n == 0 then []
    else
      var cs := CastsUpTo(m, ds, cam, carry0, n - 1);
      cs + [CastColumn(m, ds, cam, ColumnAngle(cam, n - 1), CarryBefore(cs, carry0, n - 1))]
  }

  datatype WallCall = WallCall(texture: int, textureX: int, x: int, wallY: int, height: int)

  /** `n` blanked (colour 0) rows of column x from row `from` down. */
  function BlankRows(x: int, from: int, n: nat): seq<Pixel> {
    seq(n, k => Pixel(x, from + k, 0))
  }

  /** The rows blanked above and below one wall slice. */
  datatype Blank = Blank(above: seq<Pixel>, below: seq<Pixel>)

  /** No blanking: a column whose wall fills it, or the textured-planes mode. */
  const NO_BLANK: Blank := Blank([], [])

  /** What the solid-planes mode blanks in column x around a wall of
      height h: `wallStart * 2` half-rows above the wall and as many below
      it, i.e. wallStart logical rows each; nothing for walls that fill
      the screen. */
  function Blanking(x: int, h: int): Blank
    requires 2 <= h <= MAX_HEIGHT && h % 2 == 0
  {
    if h < SCREEN_ROWS then Blank(BlankRows(x, 0, TopRow(h)), BlankRows(x, TopRow(h) + h, TopRow(h)))
    else NO_BLANK
  }

  /** In solid-planes mode every row of a column is written exactly once,
      top to bottom: the blanking above, the wall slice, the blanking
      below. */
  lemma SolidColumnCoversScreen(texture: seq<int>, textureX: int, x: int, h: int)
    requires IsTexture(texture) && 0 <= textureX < TEXTURE_SIZE && 0 <= x < SCREEN_COLS
    requires 2 <= h <= MAX_HEIGHT && h % 2 == 0
    ensures var ps := Blanking(x, h).above + DrawWallSlice(texture, textureX, x, TopRow(h), h) + Blanking(x, h).below;
      |ps| == SCREEN_ROWS && forall k :: 0 <= k < |ps| ==> ps[k].col == x && ps[k].row == k
  {
    var above := Blanking(x, h).above;
    var slice := DrawWallSlice(texture, textureX, x, TopRow(h), h);
    var below := Blanking(x, h).below;
    var ps := above + slice + below;
    forall k | 0 <= k < |ps|
      ensures ps[k].col == x && ps[k].row == k
    {
      if k < |above| {
        assert ps[k] == above[k];
      } else if k < |above| + |slice| {
        assert ps[k] == slice[k - |above|];
      } else {
        assert ps[k] == below[k - |above| - |slice|];
      }
    }
  }

  /** Otherwise a column with a short wall shows, row by row, exactly one
      of: the ceiling (the mirror row of a floor row), the wall slice, the
      floor from `wallStart + wallHeight` down. */
  lemma OpenColumnPartition(h: int, r: int)
    requires 2 <= h < SCREEN_ROWS && h % 2 == 0 && 0 <= r < SCREEN_ROWS
    ensures var bottom := TopRow(h) + h;
      HORIZON < bottom < SCREEN_ROWS
      && (r < TopRow(h) <==> bottom <= SCREEN_ROWS - 1 - r)
      && (if r < TopRow(h) then 1 else 0) + (if TopRow(h) <= r < bottom then 1 else 0)
         + (if bottom <= r then 1 else 0) == 1
  {
  }

  /** The first floor row `plane.top` records for a column with a wall of
      height h: the row below the wall when it is shorter than the screen,
      and the sentinel 64 (no floor) otherwise. */
  function FloorTop(h: int): (t: int)
    requires 2 <= h <= MAX_HEIGHT && h % 2 == 0
    ensures HORIZON < t <= SCREEN_ROWS
    ensures t < SCREEN_ROWS <==> h < SCREEN_ROWS
    ensures t < SCREEN_ROWS ==> t - h == TopRow(h) && SCREEN_ROWS - t == TopRow(h)
  {
    if h < SCREEN_ROWS then TopRow(h) + h else SCREEN_ROWS
  }

  /** The floor outline the wall pass leaves in `plane` for the
      floor/ceiling pass, given the wall heights of the 120 columns: the
      first floor row of each column, with sentinels, and the first and
      last columns with a wall shorter than the screen. In solid-planes
      mode nothing is recorded and the outline stays empty. */
  method OutlineFloor(heights: seq<int>, solid: bool) returns (top: seq<int>, minX: int, maxX: int)
    requires |heights| == SCREEN_COLS
    requires forall i :: 0 <= i < SCREEN_COLS ==> 2 <= heights[i] <= MAX_HEIGHT && heights[i] % 2 == 0
    ensures ValidPlane(top, minX, maxX)
    ensures solid ==> minX > maxX
    ensures !solid ==> forall i :: 0 <= i < SCREEN_COLS ==> Top(top, i) == FloorTop(heights[i])
    ensures !solid ==> forall i :: 0 <= i < SCREEN_COLS && heights[i] < SCREEN_ROWS ==> minX <= i <= maxX
    ensures minX <= maxX ==> heights[minX] < SCREEN_ROWS && heights[maxX] < SCREEN_ROWS
  {
    top := seq(SCREEN_COLS + 2, _ => SCREEN_ROWS);
    minX, maxX := SCREEN_COLS, -1;
    var i := 0;
    while i < SCREEN_COLS
      invariant 0 <= i <= SCREEN_COLS
      invariant |top| == SCREEN_COLS + 2 && top[0] == SCREEN_ROWS
      invariant forall k :: 0 <= k < |top| ==> HORIZON + 1 <= top[k] <= SCREEN_ROWS
      invariant forall k :: i < k < |top| ==> top[k] == SCREEN_ROWS
      invariant solid ==> minX == SCREEN_COLS && maxX == -1
      invariant forall k :: 0 < k <= i ==> top[k] == if solid then SCREEN_ROWS else FloorTop(heights[k - 1])
      invariant (minX == SCREEN_COLS && maxX == -1) || (0 <= minX <= maxX < i)
      invariant forall k :: 0 <= k < |top| && (k <= minX || maxX + 1 < k) ==> top[k] == SCREEN_ROWS
      invariant !solid ==> forall j :: 0 <= j < i && heights[j] < SCREEN_ROWS ==> minX <= j <= maxX
      invariant minX <= maxX ==> heights[minX] < SCREEN_ROWS && heights[maxX] < SCREEN_ROWS
    {
      var h := heights[i];
      if !solid && h < SCREEN_ROWS {
        if i < minX {
          minX := i;
        }
        if i > maxX {
          maxX := i;
        }
        top := top[i + 1 := TopRow(h) + h];
      }
      i := i + 1;
    }
    assert forall c :: -1 <= c <= SCREEN_COLS ==> Top(top, c) == top[c + 1];
  }

  /** The entity cells a list of casts passed, column by column, the
      horizontal traversal before the vertical one. */
  function Sightings(casts: seq<Cast>): (ss: seq<Sighting>)
  {
    if casts == [] then []
    else Sightings(casts[..|casts| - 1]) + casts[|casts| - 1].h.sightings + casts[|casts| - 1].v.sightings
  }

  /** The DrawWallSlice call for a column's cast. */
  function WallCallOf(c: Cast, x: int): (w: WallCall)
    requires IsInt32(c.column.distance)
    ensures w.x == x && 2 <= w.height <= MAX_HEIGHT && w.height % 2 == 0 && w.wallY == TopRow(w.height)
  {
    var h := Height(c.column.distance);
    WallCall(c.column.texture, c.column.textureX, x, TopRow(h), h)
  }

  /** The slice calls of the 120 columns, each with the height
      FindHeight gives for its distance, and the depth buffer. */
  method SliceCalls(casts: seq<Cast>) returns (calls: seq<WallCall>, zBuffer: seq<int>)
    requires |casts| == SCREEN_COLS && forall i :: 0 <= i < SCREEN_COLS ==> IsInt32(casts[i].column.distance)
    ensures |calls| == SCREEN_COLS && |zBuffer| == SCREEN_COLS
    ensures forall i :: 0 <= i < SCREEN_COLS ==> zBuffer[i] == casts[i].column.distance && calls[i] == WallCallOf(casts[i], i)
  {
    calls, zBuffer := [], [];
    var i := 0;
    while i < SCREEN_COLS
      invariant 0 <= i <= SCREEN_COLS && |calls| == i && |zBuffer| == i
      invariant forall j :: 0 <= j < i ==> zBuffer[j] == casts[j].column.distance && calls[j] == WallCallOf(casts[j], j)
    {
      var col := casts[i].column;
      var h := FindHeight(col.distance);
      calls := calls + [WallCall(col.texture, col.textureX, i, TopRow(h), h)];
      zBuffer := zBuffer + [col.distance];
      i := i + 1;
    }
  }

  /** What the wall pass leaves for the rest of the frame. */
  datatype Walls = Walls(calls: seq<WallCall>, zBuffer: seq<int>, blanks: seq<Blank>, top: seq<int>, minX: int, maxX: int)

  /** The wall pass over the casts of the 120 columns: one DrawWallSlice
      call per column, the distance kept in the depth buffer, and the
      blanking or floor outline around the wall. Each of these depends
      only on the column's own cast, so they are computed one after the
      other rather than interleaved per column. */
  method RenderWalls(casts: seq<Cast>, solid: bool) returns (w: Walls)
    requires |casts| == SCREEN_COLS && forall i :: 0 <= i < SCREEN_COLS ==> IsInt32(casts[i].column.distance)
    ensures |w.calls| == SCREEN_COLS && |w.zBuffer| == SCREEN_COLS && |w.blanks| == SCREEN_COLS
    ensures forall i :: 0 <= i < SCREEN_COLS ==>
      w.zBuffer[i] == casts[i].column.distance && w.calls[i] == WallCallOf(casts[i], i)
    ensures forall i :: 0 <= i < SCREEN_COLS ==> 2 <= w.calls[i].height <= MAX_HEIGHT && w.calls[i].height % 2 == 0
    ensures forall i :: 0 <= i < SCREEN_COLS ==>
      w.blanks[i] == if solid then Blanking(i, w.calls[i].height) else NO_BLANK
    ensures ValidPlane(w.top, w.minX, w.maxX)
    ensures solid ==> w.minX > w.maxX
    ensures !solid ==> forall i :: 0 <= i < SCREEN_COLS ==> Top(w.top, i) == FloorTop(w.calls[i].height)
    ensures !solid ==> forall i :: 0 <= i < SCREEN_COLS && w.calls[i].height < SCREEN_ROWS ==> w.minX <= i <= w.maxX
    ensures w.minX <= w.maxX ==> w.calls[w.minX].height < SCREEN_ROWS && w.calls[w.maxX].height < SCREEN_ROWS
  {
    var calls, zBuffer := SliceCalls(casts);
    var heights := seq(SCREEN_COLS, i requires 0 <= i < SCREEN_COLS => calls[i].height);
    var blanks := seq(SCREEN_COLS, i requires 0 <= i < SCREEN_COLS =>
      if solid then Blanking(i, calls[i].height) else NO_BLANK);
    var top, minX, maxX := OutlineFloor(heights, solid);
    w := Walls(calls, zBuffer, blanks, top, minX, maxX);
  }
}
