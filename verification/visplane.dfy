/** The floor and ceiling pass of `Render` (source/main.c), after Doom's
    visplanes: below every wall shorter than the screen the floor is drawn
    in horizontal spans, one per screen row, and the ceiling row mirrored
    about the horizon gets the same span. A row band stays open across
    consecutive columns whose wall ends above it and is painted in one go
    when it closes; the texture coordinates of a band are stepped across
    the screen and resumed, not recomputed, when the band reopens. */
module Visplane {
  import opened Words
  import opened FixedMath
  import opened FixedLaws
  import opened World
  import opened Projection
  import opened Screen

  /** Row bands: screen rows 32..63, band index `row - 32`. */
  const HORIZON: int := 32
  const BANDS: int := 32
  /** `fovInvCos` and `invViewWidth`. */
  const FOV_INV_COS: int := 92119
  const INV_VIEW_WIDTH: int := 512

  /** `planeDistanceTable`: the distance to the floor seen at band i. */
  function PlaneDistance(i: int): (v: int)
    requires 0 <= i < BANDS
    ensures 4260880 <= v <= 268435456
  {
    if i < 16 then
      if i < 8 then
        if i < 4 then
          (if i < 2 then if i < 1 then 268435456 else 89478485 else if i < 3 then 53687091 else 38347922)
        else
          (if i < 6 then if i < 5 then 29826161 else 24403223 else if i < 7 then 20648881 else 17895697)
      else
        if i < 12 then
          (if i < 10 then if i < 9 then 15790320 else 14128181 else if i < 11 then 12782640 else 11671106)
        else
          (if i < 14 then if i < 13 then 10737418 else 9942053 else if i < 15 then 9256395 else 8659208)
    else
      if i < 24 then
        if i < 20 then
          (if i < 18 then if i < 17 then 8134407 else 7669584 else if i < 19 then 7255012 else 6882960)
        else
          (if i < 22 then if i < 21 then 6547206 else 6242685 else if i < 23 then 5965232 else 5711392)
      else
        if i < 28 then
          (if i < 26 then if i < 25 then 5478274 else 5263440 else if i < 27 then 5064819 else 4880644)
        else
          (if i < 30 then if i < 29 then 4709393 else 4549753 else if i < 31 then 4400581 else 4260880)
  }

  /** A pair of 16.16 floor coordinates. */
  datatype Vec = Vec(x: int, y: int)

  predicate IsWord(v: Vec) {
    IsUint32(v.x) && IsUint32(v.y)
  }

  /** The coordinates k steps from `base`, as the 32-bit registers hold
      them: every addition and product of the pass wraps modulo 2^32. The
      signed `fixed_t` the source keeps has the same low 32 bits, so its
      `(v >> 16) & 63` is the same texel. */
  function Along(base: Vec, k: int, step: Vec): (v: Vec)
    ensures IsWord(v)
  {
    Vec(U32(base.x + k * step.x), U32(base.y + k * step.y))
  }

  /** The world point seen at the left edge of band i (column -4) and the
      step per column: the band's distance along the view direction
      rotated to the left edge (angle + 63) and to the right edge
      (angle - 64) of the view, the difference divided by the view width
      512. */
  datatype Band = Band(base: Vec, step: Vec)

  function BandFrame(cam: Camera, i: int): (b: Band)
    requires ValidCamera(cam) && 0 <= i < BANDS
    ensures IsInt32(b.base.x) && IsInt32(b.base.y) && IsInt32(b.step.x) && IsInt32(b.step.y)
  {
    var p := PlaneDistance(i);
    MulBoth(p, 268435456, FOV_INV_COS, FOV_INV_COS);
    FixedMulWithin(p, FOV_INV_COS, 377319424);
    var d := FixedMul(p, FOV_INV_COS);
    var x1 := Turn(d, FixedCos(cam.angle + 63));
    var y1 := -Turn(d, FixedSin(cam.angle + 63));
    var x2 := Turn(d, FixedCos(cam.angle - 64));
    var y2 := -Turn(d, FixedSin(cam.angle - 64));
    Band(Vec(cam.x + x1, cam.y + y1), Vec(FixedMul(x2 - x1, INV_VIEW_WIDTH), FixedMul(y2 - y1, INV_VIEW_WIDTH)))
  }

  /** `fixedMul(d, t)` for a distance d and a sine or cosine t: no longer
      than d. */
  function Turn(d: int, t: int): (r: int)
    requires 0 <= d <= 377319424 && Abs(t) <= FRACUNIT
    ensures Abs(r) <= d
  {
    MulBoth(Abs(d), d, Abs(t), FRACUNIT);
    FixedMulWithin(d, t, d);
    FixedMul(d, t)
  }

  /** The setup of every band for this frame. */
  function Frames(cam: Camera): (bands: seq<Band>)
    requires ValidCamera(cam)
    ensures |bands| == BANDS
    ensures forall i :: 0 <= i < BANDS ==> bands[i] == BandFrame(cam, i)
  {
    seq(BANDS, i requires 0 <= i < BANDS => BandFrame(cam, i))
  }

  /** Resuming k more columns on from where j columns took the register
      lands where j + k columns from the base would. */
  lemma AlongShift(base: Vec, step: Vec, j: int, k: int)
    ensures Along(Along(base, j, step), k, step) == Along(base, j + k, step)
  {
    assert base.x + j * step.x + k * step.x == base.x + (j + k) * step.x;
    assert base.y + j * step.y + k * step.y == base.y + (j + k) * step.y;
    U32AddLeft(base.x + j * step.x, k * step.x);
    U32AddLeft(base.y + j * step.y, k * step.y);
  }

  /** The floor texel under coordinates v:
      `((v.y >> 16) & 63) * 64 + ((v.x >> 16) & 63)`. */
  function TexIndex(v: Vec): (i: int)
    ensures 0 <= i < TEXTURE_SIZE * TEXTURE_SIZE
  {
    ((v.y / FRACUNIT) % 64) * 64 + (v.x / FRACUNIT) % 64
  }

  /** One painted span: row `row` of the floor and its mirror row
      `63 - row` of the ceiling, columns `first..last`, texture coordinates
      starting at `u` and moving by `du` per column. */
  datatype Span = Span(row: int, first: int, last: int, u: Vec, du: Vec)

  /** The texel a span shows k columns after its first. */
  function SpanTexel(s: Span, k: int): int {
    TexIndex(Along(s.u, k, s.du))
  }

  /** The inner `do ... while (count--)` of a closing band: for each column
      a floor pixel and a ceiling pixel from the same texel, then one step.
      Returns the floor writes, the ceiling writes and the coordinates left
      in the band's register. */
  method PaintSpan(s: Span, floor: seq<int>, ceiling: seq<int>) returns (fs: seq<Pixel>, cs: seq<Pixel>, end: Vec)
    requires IsTexture(floor) && IsTexture(ceiling) && s.first <= s.last && IsWord(s.u)
    ensures |fs| == |cs| == s.last - s.first + 1
    ensures forall k :: 0 <= k < |fs| ==> fs[k] == Pixel(s.first + k, s.row, floor[SpanTexel(s, k)])
    ensures forall k :: 0 <= k < |cs| ==> cs[k] == Pixel(s.first + k, SCREEN_ROWS - 1 - s.row, ceiling[SpanTexel(s, k)])
    ensures end == Along(s.u, s.last - s.first + 1, s.du)
  {
    fs, cs := [], [];
    var cur := s.u;
    var k := 0;
    while k <= s.last - s.first
      invariant 0 <= k <= s.last - s.first + 1
      invariant cur == Along(s.u, k, s.du)
      invariant |fs| == |cs| == k
      invariant forall j :: 0 <= j < k ==> fs[j] == Pixel(s.first + j, s.row, floor[SpanTexel(s, j)])
      invariant forall j :: 0 <= j < k ==> cs[j] == Pixel(s.first + j, SCREEN_ROWS - 1 - s.row, ceiling[SpanTexel(s, j)])
    {
      fs := fs + [Pixel(s.first + k, s.row, floor[TexIndex(cur)])];
      cs := cs + [Pixel(s.first + k, SCREEN_ROWS - 1 - s.row, ceiling[TexIndex(cur)])];
      AlongShift(s.u, s.du, k, 1);
      cur := Vec(U32(cur.x + s.du.x), U32(cur.y + s.du.y));
      k := k + 1;
    }
    end := cur;
  }

  // ---------------------------------------------------------------------
  // The column sweep
  // ---------------------------------------------------------------------

  /** `plane.top` with the two padding words around it: Top(top, c) is the
      first floor row of column c, and columns -1 and 120 are sentinels. */
  function Top(top: seq<int>, c: int): int
    requires |top| == SCREEN_COLS + 2 && -1 <= c <= SCREEN_COLS
  {
    top[c + 1]
  }

  /** What the wall pass leaves: sentinels of 64 at both ends, every first
      floor row below the horizon, and [minX, maxX] spanning every column
      whose floor is visible (empty when minX > maxX). */
  predicate ValidPlane(top: seq<int>, minX: int, maxX: int) {
    |top| == SCREEN_COLS + 2
    && top[0] == SCREEN_ROWS && top[SCREEN_COLS + 1] == SCREEN_ROWS
    && (forall k :: 0 <= k < |top| ==> HORIZON + 1 <= top[k] <= SCREEN_ROWS)
    && (minX <= maxX ==> 0 <= minX && maxX < SCREEN_COLS)
    && (forall c :: -1 <= c <= SCREEN_COLS && (c < minX || maxX < c) ==> Top(top, c) == SCREEN_ROWS)
  }

  predicate InSpan(s: Span, c: int, r: int) {
    s.row == r && s.first <= c <= s.last
  }

  /** Floor pixel (c, r), and with it ceiling pixel (c, 63 - r), is
      painted by one of the spans. */
  predicate Covered(spans: seq<Span>, c: int, r: int) {
    exists k :: 0 <= k < |spans| && InSpan(spans[k], c, r)
  }

  lemma CoveredAppend(spans: seq<Span>, s: Span)
    ensures forall c, r :: Covered(spans + [s], c, r) <==> Covered(spans, c, r) || InSpan(s, c, r)
  {
    var all := spans + [s];
    forall c, r | Covered(all, c, r)
      ensures Covered(spans, c, r) || InSpan(s, c, r)
    {
      var k :| 0 <= k < |all| && InSpan(all[k], c, r);
      if k < |spans| {
        assert InSpan(spans[k], c, r);
      }
    }
    forall c, r | Covered(spans, c, r)
      ensures Covered(all, c, r)
    {
      var k :| 0 <= k < |spans| && InSpan(spans[k], c, r);
      assert all[k] == spans[k];
    }
    forall c, r | InSpan(s, c, r)
      ensures Covered(all, c, r)
    {
      assert all[|spans|] == s;
    }
  }

  /** No floor pixel is painted by two spans. */
  ghost predicate Disjoint(spans: seq<Span>) {
    forall k1, k2, c, r :: 0 <= k1 < k2 < |spans| ==> !(InSpan(spans[k1], c, r) && InSpan(spans[k2], c, r))
  }

  /** Band i (row i + 32) is open over columns s..e: every one of them
      shows floor at that row, and the column before s does not. */
  predicate RunFacts(top: seq<int>, minX: int, i: int, s: int, e: int)
    requires |top| == SCREEN_COLS + 2
  {
    0 <= minX <= s <= e <= SCREEN_COLS && Top(top, s - 1) > i + HORIZON
    && forall c :: s <= c <= e ==> Top(top, c) <= i + HORIZON
  }

  /** Every band from row o down is open up to column e, from its
      recorded start. */
  predicate OpenRuns(top: seq<int>, minX: int, e: int, o: int, start: seq<int>)
    requires |top| == SCREEN_COLS + 2 && |start| == BANDS && HORIZON <= o
  {
    forall i :: o - HORIZON <= i < BANDS ==> RunFacts(top, minX, i, start[i], e)
  }

  /** The pixels painted once the sweep has reached column x, with the bands
      from row o down still open: every floor pixel left of x except those
      of the runs still open. */
  predicate Painted(top: seq<int>, minX: int, x: int, o: int, start: seq<int>, c: int, r: int)
    requires |top| == SCREEN_COLS + 2 && |start| == BANDS && HORIZON <= o
  {
    minX <= c < x && 0 <= c <= SCREEN_COLS && Top(top, c) <= r < SCREEN_ROWS
    && !(o <= r && start[r - HORIZON] <= c)
  }

  ghost predicate Coverage(spans: seq<Span>, top: seq<int>, minX: int, x: int, o: int, start: seq<int>)
    requires |top| == SCREEN_COLS + 2 && |start| == BANDS && HORIZON <= o
  {
    forall c, r :: Covered(spans, c, r) <==> Painted(top, minX, x, o, start, c, r)
  }

  /** Every span starts at the coordinates a fresh setup of its band at its
      first column computes, whether the band was set up afresh or resumed,
      and steps by the band's step; its row is below the horizon and its
      columns inside [minX, maxX]. */
  predicate FreshSpans(bands: seq<Band>, minX: int, maxX: int, spans: seq<Span>)
    requires |bands| == BANDS
  {
    forall k :: 0 <= k < |spans| ==>
      HORIZON + 1 <= spans[k].row < SCREEN_ROWS && minX <= spans[k].first <= spans[k].last <= maxX
      && spans[k].du == bands[spans[k].row - HORIZON].step
      && spans[k].u == Along(bands[spans[k].row - HORIZON].base, spans[k].first + 4, spans[k].du)
  }

  /** The band registers: `stop` is 0 (not painted this frame) or the
      column after the band's last painted span, and once painted the band
      holds its own step and the coordinates of column `stop`. */
  predicate Registers(bands: seq<Band>, bound: int, stop: seq<int>, cur: seq<Vec>, step: seq<Vec>)
    requires |bands| == |stop| == |cur| == |step| == BANDS
  {
    forall i :: 0 <= i < BANDS ==>
      (stop[i] == 0 || 1 <= stop[i] <= bound)
      && (stop[i] != 0 ==> step[i] == bands[i].step
                           && cur[i] == Along(bands[i].base, stop[i] + 4, step[i]))
  }

  /** Where band i's span from column `start` begins. A band not yet
      painted this frame (`stop == 0`) is set up afresh; one painted before
      resumes from its register, moving `start - stop` steps on from column
      `stop`. Either way the span begins where a fresh setup would put it,
      modulo 2^32. */
  function SpanStart(band: Band, start: int, stop: int, cur: Vec, step: Vec): (u: Vec)
    requires stop != 0 ==> step == band.step && cur == Along(band.base, stop + 4, step)
    ensures u == Along(band.base, start + 4, band.step)
  {
    if stop == 0 then
      Along(band.base, start + 4, band.step)
    else
      AlongShift(band.base, step, stop + 4, start - stop);
      Along(cur, start - stop, step)
  }

  /** The band registers after band i paints span s, which ends at column
      x - 1 and starts where a fresh setup would put it. */
  lemma RegistersAfterSpan(bands: seq<Band>, x: int, stop: seq<int>, cur: seq<Vec>, step: seq<Vec>, i: int, s: Span)
    requires |bands| == |stop| == |cur| == |step| == BANDS && 0 <= i < BANDS && 1 <= x
    requires Registers(bands, x, stop, cur, step)
    requires s.du == bands[i].step && s.u == Along(bands[i].base, s.first + 4, s.du)
    ensures Registers(bands, x, stop[i := x], cur[i := Along(s.u, x - s.first, s.du)], step[i := s.du])
  {
    AlongShift(bands[i].base, s.du, s.first + 4, x - s.first);
  }

  lemma FreshAppend(bands: seq<Band>, minX: int, maxX: int, spans: seq<Span>, s: Span)
    requires |bands| == BANDS && FreshSpans(bands, minX, maxX, spans)
    requires HORIZON + 1 <= s.row < SCREEN_ROWS && minX <= s.first <= s.last <= maxX
    requires s.du == bands[s.row - HORIZON].step
    requires s.u == Along(bands[s.row - HORIZON].base, s.first + 4, s.du)
    ensures FreshSpans(bands, minX, maxX, spans + [s])
  {
    assert (spans + [s])[|spans|] == s;
  }

  /** Closing band t1 at column x paints its open run and nothing else
      painted before. */
  lemma CloseBand(spans: seq<Span>, top: seq<int>, minX: int, x: int, t1: int, start: seq<int>, s: Span)
    requires |top| == SCREEN_COLS + 2 && |start| == BANDS && HORIZON < t1 < SCREEN_ROWS
    requires Coverage(spans, top, minX, x, t1, start) && OpenRuns(top, minX, x - 1, t1, start)
    requires Disjoint(spans)
    requires s.row == t1 && s.first == start[t1 - HORIZON] && s.last == x - 1
    ensures Coverage(spans + [s], top, minX, x, t1 + 1, start)
    ensures OpenRuns(top, minX, x - 1, t1 + 1, start)
    ensures Disjoint(spans + [s])
  {
    CoveredAppend(spans, s);
    assert RunFacts(top, minX, t1 - HORIZON, start[t1 - HORIZON], x - 1);
    var all := spans + [s];
    forall k1, k2, c, r | 0 <= k1 < k2 < |all|
      ensures !(InSpan(all[k1], c, r) && InSpan(all[k2], c, r))
    {
      if k2 == |spans| {
        assert all[k1] == spans[k1] && all[k2] == s;
        if InSpan(spans[k1], c, r) {
          assert Covered(spans, c, r);
        }
      } else {
        assert all[k1] == spans[k1] && all[k2] == spans[k2];
      }
    }
  }

  /** Moving on from column x to x + 1: runs still open at x - 1 and
      continuing at x, and runs opened at x, make up the bands open from
      row Top(x) down. */
  lemma NextColumn(spans: seq<Span>, top: seq<int>, minX: int, x: int, t1: int, start: seq<int>)
    requires |top| == SCREEN_COLS + 2 && |start| == BANDS && 0 <= minX <= x < SCREEN_COLS + 1
    requires HORIZON < Top(top, x) && HORIZON < Top(top, x - 1) && t1 <= SCREEN_ROWS
    requires t1 == if Top(top, x - 1) < Top(top, x) then Top(top, x) else Top(top, x - 1)
    requires Coverage(spans, top, minX, x, t1, start) && OpenRuns(top, minX, x - 1, t1, start)
    requires forall i :: Top(top, x) - HORIZON <= i < t1 - HORIZON ==> start[i] == x
    ensures Coverage(spans, top, minX, x + 1, Top(top, x), start)
    ensures OpenRuns(top, minX, x, Top(top, x), start)
  {
    forall i | Top(top, x) - HORIZON <= i < BANDS
      ensures RunFacts(top, minX, i, start[i], x)
    {
      if i >= t1 - HORIZON {
        assert RunFacts(top, minX, i, start[i], x - 1);
      }
    }
    forall c, r
      ensures Painted(top, minX, x, t1, start, c, r) <==> Painted(top, minX, x + 1, Top(top, x), start, c, r)
    {
      if Top(top, x) <= r < SCREEN_ROWS && r >= t1 {
        assert RunFacts(top, minX, r - HORIZON, start[r - HORIZON], x - 1);
      }
    }
  }

  /** Recording that band j opens at column x leaves everything about the
      bands from row o down as it was. */
  lemma OpenBand(spans: seq<Span>, top: seq<int>, minX: int, x: int, o: int, start: seq<int>, j: int)
    requires |top| == SCREEN_COLS + 2 && |start| == BANDS && HORIZON <= o <= SCREEN_ROWS && 0 <= j < o - HORIZON
    requires Coverage(spans, top, minX, x, o, start) && OpenRuns(top, minX, x - 1, o, start)
    ensures Coverage(spans, top, minX, x, o, start[j := x]) && OpenRuns(top, minX, x - 1, o, start[j := x])
  {
    var start' := start[j := x];
    forall c, r
      ensures Painted(top, minX, x, o, start, c, r) <==> Painted(top, minX, x, o, start', c, r)
    {
    }
    forall i | o - HORIZON <= i < BANDS
      ensures RunFacts(top, minX, i, start'[i], x - 1)
    {
      assert start'[i] == start[i];
    }
  }

  /** The first inner loop of a column step: every band from row Top(x - 1)
      down to just above Top(x) ends its run at column x - 1, and is painted. */
  method CloseBands(bands: seq<Band>, top: seq<int>, minX: int, maxX: int, x: int,
                    spans0: seq<Span>, start: seq<int>, stop0: seq<int>, cur0: seq<Vec>, step0: seq<Vec>)
    returns (spans: seq<Span>, stop: seq<int>, cur: seq<Vec>, step: seq<Vec>, t1: int)
    requires ValidPlane(top, minX, maxX) && minX <= maxX && minX <= x <= maxX + 1
    requires |bands| == |start| == |stop0| == |cur0| == |step0| == BANDS
    requires Coverage(spans0, top, minX, x, Top(top, x - 1), start)
    requires OpenRuns(top, minX, x - 1, Top(top, x - 1), start)
    requires Disjoint(spans0) && FreshSpans(bands, minX, maxX, spans0)
    requires Registers(bands, x - 1, stop0, cur0, step0)
    ensures t1 == if Top(top, x - 1) < Top(top, x) then Top(top, x) else Top(top, x - 1)
    ensures |stop| == |cur| == |step| == BANDS
    ensures Coverage(spans, top, minX, x, t1, start) && OpenRuns(top, minX, x - 1, t1, start)
    ensures Disjoint(spans) && FreshSpans(bands, minX, maxX, spans)
    ensures Registers(bands, x, stop, cur, step)
  {
    spans, stop, cur, step := spans0, stop0, cur0, step0;
    t1 := Top(top, x - 1);
    var t2 := Top(top, x);
    while t1 < t2
      invariant Top(top, x - 1) <= t1 && (Top(top, x - 1) < t2 ==> t1 <= t2)
      invariant t2 <= Top(top, x - 1) ==> t1 == Top(top, x - 1)
      invariant |stop| == |cur| == |step| == BANDS
      invariant Coverage(spans, top, minX, x, t1, start) && OpenRuns(top, minX, x - 1, t1, start)
      invariant Disjoint(spans) && FreshSpans(bands, minX, maxX, spans)
      invariant Registers(bands, x, stop, cur, step)
    {
      var i := t1 - HORIZON;
      assert RunFacts(top, minX, i, start[i], x - 1);
      var du := bands[i].step;
      var u := SpanStart(bands[i], start[i], stop[i], cur[i], step[i]);
      var s := Span(t1, start[i], x - 1, u, du);
      CloseBand(spans, top, minX, x, t1, start, s);
      FreshAppend(bands, minX, maxX, spans, s);
      RegistersAfterSpan(bands, x, stop, cur, step, i, s);
      spans := spans + [s];
      // The register as PaintSpan leaves it: x - start[i] steps on from u.
      cur := cur[i := Along(u, x - start[i], du)];
      step := step[i := du];
      stop := stop[i := x];
      t1 := t1 + 1;
    }
  }

  /** The second inner loop: every band from row Top(x) down to just above
      t1 starts a run at column x. */
  method OpenBands(spans: seq<Span>, top: seq<int>, minX: int, x: int, t1: int, start0: seq<int>)
    returns (start: seq<int>)
    requires |top| == SCREEN_COLS + 2 && |start0| == BANDS && 0 <= x <= SCREEN_COLS
    requires HORIZON < Top(top, x) <= SCREEN_ROWS && HORIZON < t1 <= SCREEN_ROWS
    requires Coverage(spans, top, minX, x, t1, start0) && OpenRuns(top, minX, x - 1, t1, start0)
    ensures |start| == BANDS
    ensures Coverage(spans, top, minX, x, t1, start) && OpenRuns(top, minX, x - 1, t1, start)
    ensures forall i :: Top(top, x) - HORIZON <= i < t1 - HORIZON ==> start[i] == x
  {
    start := start0;
    var t2 := Top(top, x);
    while t2 < t1
      invariant Top(top, x) <= t2 <= SCREEN_ROWS && (Top(top, x) <= t1 ==> t2 <= t1)
      invariant |start| == BANDS
      invariant Coverage(spans, top, minX, x, t1, start) && OpenRuns(top, minX, x - 1, t1, start)
      invariant forall i :: Top(top, x) - HORIZON <= i < t2 - HORIZON ==> start[i] == x
    {
      OpenBand(spans, top, minX, x, t1, start, t2 - HORIZON);
      start := start[t2 - HORIZON := x];
      t2 := t2 + 1;
    }
  }

  /** The floor/ceiling loop of `Render`. `start0`, `cur0` and `step0` are
      what the band registers hold from the previous frame; `stop` starts
      at 0 for every band. The result lists the spans painted, in order;
      PaintSpan paints each. */
  method FillPlanes(cam: Camera, top: seq<int>, minX: int, maxX: int,
                    start0: seq<int>, cur0: seq<Vec>, step0: seq<Vec>) returns (spans: seq<Span>)
    requires ValidCamera(cam) && ValidPlane(top, minX, maxX)
    requires |start0| == BANDS && |cur0| == BANDS && |step0| == BANDS
    ensures forall c, r :: Covered(spans, c, r) <==> minX <= c <= maxX && Top(top, c) <= r < SCREEN_ROWS
    ensures Disjoint(spans)
    ensures FreshSpans(Frames(cam), minX, maxX, spans)
  {
    spans := [];
    var bands := Frames(cam);
    if minX > maxX {
      return;
    }
    var start, stop, cur, step := start0, seq(BANDS, _ => 0), cur0, step0;
    var x := minX;
    while x <= maxX + 1
      invariant minX <= x <= maxX + 2
      invariant PlaneLoop(bands, top, minX, maxX, x, spans, start, stop, cur, step)
    {
      spans, start, stop, cur, step := PlaneColumn(bands, top, minX, maxX, x, spans, start, stop, cur, step);
      x := x + 1;
    }
    assert Top(top, x - 1) == SCREEN_ROWS;
  }

  /** The invariant of the column loop of FillPlanes before column x. */
  ghost predicate PlaneLoop(bands: seq<Band>, top: seq<int>, minX: int, maxX: int, x: int,
                            spans: seq<Span>, start: seq<int>, stop: seq<int>, cur: seq<Vec>, step: seq<Vec>)
  {
    && ValidPlane(top, minX, maxX) && minX <= maxX && minX <= x <= maxX + 2
    && |bands| == |start| == |stop| == |cur| == |step| == BANDS
    && Coverage(spans, top, minX, x, Top(top, x - 1), start)
    && OpenRuns(top, minX, x - 1, Top(top, x - 1), start)
    && Disjoint(spans) && FreshSpans(bands, minX, maxX, spans)
    && Registers(bands, x - 1, stop, cur, step)
  }

  /** One column of the floor/ceiling loop: close the bands whose run ends
      before column x, then open the bands whose run starts at it. */
  method PlaneColumn(bands: seq<Band>, top: seq<int>, minX: int, maxX: int, x: int,
                     spans0: seq<Span>, start0: seq<int>, stop0: seq<int>, cur0: seq<Vec>, step0: seq<Vec>)
    returns (spans: seq<Span>, start: seq<int>, stop: seq<int>, cur: seq<Vec>, step: seq<Vec>)
    requires x <= maxX + 1 && PlaneLoop(bands, top, minX, maxX, x, spans0, start0, stop0, cur0, step0)
    ensures PlaneLoop(bands, top, minX, maxX, x + 1, spans, start, stop, cur, step)
  {
    var t1;
    spans, stop, cur, step, t1 := CloseBands(bands, top, minX, maxX, x, spans0, start0, stop0, cur0, step0);
    start := OpenBands(spans, top, minX, x, t1, start0);
    NextColumn(spans, top, minX, x, t1, start);
  }
}
