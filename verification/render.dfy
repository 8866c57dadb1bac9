/** One call of `Render` (source/main.c) as a whole: the 120 column casts,
    the wall pass, the floor/ceiling pass, and the sprite pass over the
    entities the rays passed. */
module Render {
  import opened Words
  import opened World
  import opened Doors
  import opened Projection
  import opened Screen
  import opened Caster
  import opened Visplane
  import opened WallSlice
  import opened Frame
  import opened Actors

  /** Row r of column c shows the wall exactly when it lies in the slice's
      unclipped span `wallStart .. wallStart + wallHeight - 1`. */
  predicate WallRow(h: int, r: int) {
    TopRow(h) <= r < TopRow(h) + h
  }

  /** The rows DrawWallSlice writes are exactly the wall rows on screen. */
  lemma SliceWritesWallRows(texture: seq<int>, textureX: int, x: int, h: int, r: int)
    requires IsTexture(texture) && 0 <= textureX < TEXTURE_SIZE && 0 <= x < SCREEN_COLS
    requires 2 <= h <= MAX_HEIGHT && h % 2 == 0 && 0 <= r < SCREEN_ROWS
    ensures WallRow(h, r) <==>
      exists k :: 0 <= k < |DrawWallSlice(texture, textureX, x, TopRow(h), h)| && DrawWallSlice(texture, textureX, x, TopRow(h), h)[k].row == r
  {
    var ps := DrawWallSlice(texture, textureX, x, TopRow(h), h);
    var first := if TopRow(h) < 0 then 0 else TopRow(h);
    if WallRow(h, r) {
      assert ps[r - first].row == r;
    }
  }

  /** Every screen pixel of a column shows exactly one of ceiling, wall and
      floor once the floor/ceiling pass has covered the outline the wall
      pass left: the floor spans cover row r when it is below the wall, and
      their mirrored ceiling row covers it when it is above. */
  lemma OpenScreenPartition(heights: seq<int>, top: seq<int>, minX: int, maxX: int, spans: seq<Span>, c: int, r: int)
    requires |heights| == SCREEN_COLS
    requires forall i :: 0 <= i < SCREEN_COLS ==> 2 <= heights[i] <= MAX_HEIGHT && heights[i] % 2 == 0
    requires ValidPlane(top, minX, maxX)
    requires forall i :: 0 <= i < SCREEN_COLS ==> Top(top, i) == FloorTop(heights[i])
    requires forall i :: 0 <= i < SCREEN_COLS && heights[i] < SCREEN_ROWS ==> minX <= i <= maxX
    requires forall c, r :: Covered(spans, c, r) <==> minX <= c <= maxX && Top(top, c) <= r < SCREEN_ROWS
    requires 0 <= c < SCREEN_COLS && 0 <= r < SCREEN_ROWS
    ensures (if Covered(spans, c, SCREEN_ROWS - 1 - r) then 1 else 0) + (if WallRow(heights[c], r) then 1 else 0)
      + (if Covered(spans, c, r) then 1 else 0) == 1
  {
    var h := heights[c];
    if h < SCREEN_ROWS {
      OpenColumnPartition(h, r);
    } else {
      assert !Covered(spans, c, r) && !Covered(spans, c, SCREEN_ROWS - 1 - r);
    }
  }

  /** The entity cells a list of casts passed are those of its columns'
      two traversals. */
  lemma {:induction false} SightingsOfColumns(casts: seq<Cast>, s: Sighting)
    ensures s in Sightings(casts) <==> exists i :: 0 <= i < |casts| && (s in casts[i].h.sightings || s in casts[i].v.sightings)
  {
    if casts != [] {
      var init := casts[..|casts| - 1];
      var last := casts[|casts| - 1];
      SightingsOfColumns(init, s);
      if s in Sightings(init) {
        var i :| 0 <= i < |init| && (s in init[i].h.sightings || s in init[i].v.sightings);
        assert casts[i] == init[i];
      }
      if exists i :: 0 <= i < |casts| && (s in casts[i].h.sightings || s in casts[i].v.sightings) {
        var i :| 0 <= i < |casts| && (s in casts[i].h.sightings || s in casts[i].v.sightings);
        if i < |init| {
          assert init[i] == casts[i];
        }
      }
    }
  }

  /** The casts of the 120 columns of a frame, each sound; those CastsUpTo
      gives are. */
  predicate SoundCasts(m: seq<int>, ds: seq<Door>, casts: seq<Cast>)
    requires IsMap(m)
  {
    |casts| == SCREEN_COLS && forall i :: 0 <= i < |casts| ==> SoundCast(m, ds, casts[i])
  }

  /** Every entity the casts passed lies in the grid. */
  lemma SeenInGrid(m: seq<int>, ds: seq<Door>, casts: seq<Cast>)
    requires IsMap(m) && SoundCasts(m, ds, casts)
    ensures AllInGrid(Sightings(casts))
  {
    var ss := Sightings(casts);
    forall k | 0 <= k < |ss|
      ensures InGrid(ss[k].gx, ss[k].gy)
    {
      SightingsOfColumns(casts, ss[k]);
      var i :| 0 <= i < |casts| && (ss[k] in casts[i].h.sightings || ss[k] in casts[i].v.sightings);
      assert SoundCast(m, ds, casts[i]);
    }
  }

  /** Each pixel of the 120 by 64 screen shows exactly one of: the ceiling
      (the mirror of a floor span's pixel), the wall, the floor. */
  ghost predicate Partitioned(calls: seq<WallCall>, spans: seq<Span>)
    requires |calls| == SCREEN_COLS
  {
    forall c, r :: 0 <= c < SCREEN_COLS && 0 <= r < SCREEN_ROWS ==>
      (if Covered(spans, c, SCREEN_ROWS - 1 - r) then 1 else 0) + (if WallRow(calls[c].height, r) then 1 else 0)
      + (if Covered(spans, c, r) then 1 else 0) == 1
  }

  /** The column-by-column partition, for the whole screen. */
  lemma ScreenPartitioned(calls: seq<WallCall>, heights: seq<int>, top: seq<int>, minX: int, maxX: int, spans: seq<Span>)
    requires |calls| == SCREEN_COLS && |heights| == SCREEN_COLS
    requires forall i :: 0 <= i < SCREEN_COLS ==> heights[i] == calls[i].height
    requires forall i :: 0 <= i < SCREEN_COLS ==> 2 <= heights[i] <= MAX_HEIGHT && heights[i] % 2 == 0
    requires ValidPlane(top, minX, maxX)
    requires forall i :: 0 <= i < SCREEN_COLS ==> Top(top, i) == FloorTop(heights[i])
    requires forall i :: 0 <= i < SCREEN_COLS && heights[i] < SCREEN_ROWS ==> minX <= i <= maxX
    requires forall c, r :: Covered(spans, c, r) <==> minX <= c <= maxX && Top(top, c) <= r < SCREEN_ROWS
    ensures Partitioned(calls, spans)
  {
    forall c, r | 0 <= c < SCREEN_COLS && 0 <= r < SCREEN_ROWS
      ensures (if Covered(spans, c, SCREEN_ROWS - 1 - r) then 1 else 0) + (if WallRow(calls[c].height, r) then 1 else 0)
        + (if Covered(spans, c, r) then 1 else 0) == 1
    {
      OpenScreenPartition(heights, top, minX, maxX, spans, c, r);
    }
  }

  /** The wall pass and the floor/ceiling pass over the 120 casts. In
      textured-planes mode they paint every pixel of the screen once; in
      solid-planes mode no span is drawn. */
  method PaintScreen(casts: seq<Cast>, cam: Camera, solid: bool, start0: seq<int>, cur0: seq<Vec>, step0: seq<Vec>)
    returns (walls: Walls, spans: seq<Span>)
    requires |casts| == SCREEN_COLS && forall i :: 0 <= i < SCREEN_COLS ==> IsInt32(casts[i].column.distance)
    requires ValidCamera(cam) && |start0| == BANDS && |cur0| == BANDS && |step0| == BANDS
    ensures |walls.calls| == SCREEN_COLS
    ensures forall i :: 0 <= i < SCREEN_COLS ==> walls.calls[i] == WallCallOf(casts[i], i)
    ensures solid ==> |spans| == 0
    ensures !solid ==> Partitioned(walls.calls, spans)
    ensures Disjoint(spans)
  {
    walls := RenderWalls(casts, solid);
    spans := [];
    if !solid {
      spans := FillPlanes(cam, walls.top, walls.minX, walls.maxX, start0, cur0, step0);
      var heights := seq(SCREEN_COLS, i requires 0 <= i < SCREEN_COLS => walls.calls[i].height);
      ScreenPartitioned(walls.calls, heights, walls.top, walls.minX, walls.maxX, spans);
    }
  }

  /** What one frame leaves: the wall pass, the floor and ceiling spans,
      the registries as the sprite pass found them, its draws and the
      registries after it. */
  datatype Output = Output(walls: Walls, spans: seq<Span>, noted: Registry, draws: seq<SpriteDraw>, registry: Registry)

  /** One frame from the casts of its 120 columns (those of
      `CastsUpTo(m, ds, cam, carry, SCREEN_COLS)`): the screen they paint,
      the entities they passed noted in the registries, and the sprite pass
      over them, which leaves every flag cleared. */
  method RenderFrame(m: seq<int>, ds: seq<Door>, casts: seq<Cast>, cam: Camera, g: Registry, solid: bool, frame: int,
                     start0: seq<int>, cur0: seq<Vec>, step0: seq<Vec>) returns (out: Output)
    requires IsMap(m) && SoundCasts(m, ds, casts) && ValidCamera(cam) && ValidRegistry(g) && 0 <= frame <= 1
    requires |start0| == BANDS && |cur0| == BANDS && |step0| == BANDS
    ensures |out.walls.calls| == SCREEN_COLS
    ensures forall i :: 0 <= i < SCREEN_COLS ==> out.walls.calls[i] == WallCallOf(casts[i], i)
    ensures solid ==> |out.spans| == 0
    ensures !solid ==> Partitioned(out.walls.calls, out.spans)
    ensures Disjoint(out.spans)
    ensures AllInGrid(Sightings(casts)) && out.noted == NoteAll(g, Sightings(casts))
    ensures out.draws == HealthDraws(cam, out.noted.healths) + EnemyDraws(cam, out.noted.enemies, frame)
    ensures |out.registry.enemies| == SLOTS && |out.registry.healths| == SLOTS
    ensures forall i :: 0 <= i < SLOTS ==> out.registry.enemies[i] == out.noted.enemies[i].(render := false)
    ensures forall i :: 0 <= i < SLOTS ==> out.registry.healths[i] == out.noted.healths[i].(render := false)
  {
    var walls, spans := PaintScreen(casts, cam, solid, start0, cur0, step0);
    SeenInGrid(m, ds, casts);
    var noted := NoteAll(g, Sightings(casts));
    var draws, after := SpritePass(cam, noted, frame);
    out := Output(walls, spans, noted, draws, after);
  }

  /** A flagged slot's draw is among the sprite pass's draws. */
  lemma HealthDrawn(cam: Camera, hs: seq<Actor>, j: int)
    requires ValidCamera(cam) && ValidSlots(hs) && 0 <= j < SLOTS && hs[j].render
    ensures HealthDraw(cam, hs[j]) in HealthDraws(cam, hs)
  {
    FlaggedExact(hs, SLOTS);
    var fs := Flagged(hs, SLOTS);
    var k :| 0 <= k < |fs| && fs[k] == j;
    assert HealthDraws(cam, hs)[k] == HealthDraw(cam, hs[j]);
  }

  lemma EnemyDrawn(cam: Camera, es: seq<Actor>, frame: int, j: int)
    requires ValidCamera(cam) && ValidSlots(es) && 0 <= frame <= 1 && 0 <= j < SLOTS && es[j].render
    ensures EnemyDraw(cam, es[j], frame) in EnemyDraws(cam, es, frame)
  {
    FlaggedExact(es, SLOTS);
    var fs := Flagged(es, SLOTS);
    var k :| 0 <= k < |fs| && fs[k] == j;
    assert EnemyDraws(cam, es, frame)[k] == EnemyDraw(cam, es[j], frame);
  }
}
