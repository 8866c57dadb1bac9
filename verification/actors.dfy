/** The enemy and health-pickup registries of `Render` (source/main.c):
    entity cells the rays pass are noted in the slot of their cell, and
    the sprite pass draws every noted slot once and clears its flag. */
module Actors {
  import opened Words
  import opened FixedMath
  import opened World
  import opened Doors
  import opened Projection
  import opened Caster
  import opened Sprites

  /** The graphics-bitmap offsets of the sprite frames: two animation
      frames for each of the two enemy types, then the two pickups. */
  const FRAMES: seq<int> := [24576, 28672, 32768, 36864, 40960, 45056]

  /** The fields of an `enemy_t` or `health_t` slot that rendering reads
      or writes: the type, the cell, the render flag and (enemies only)
      the damage flag. */
  datatype Actor = Actor(variant: int, gx: int, gy: int, render: bool, damage: int)

  /** A slot names a cell of the grid, and a flagged slot has type 0 or 1.
      An unflagged slot may hold any type: `Update` stores the raw map
      value 3 or 4 when it claims an enemy slot, and only noting a passed
      entity sets the flag, which it does together with the type. */
  predicate ValidActor(a: Actor) {
    InGrid(a.gx, a.gy) && (a.render ==> 0 <= a.variant <= 1)
  }

  /** 64 slots, each valid; the zero-initialised slots of a fresh start
      and the slots `Update` claims qualify. */
  predicate ValidSlots(slots: seq<Actor>) {
    |slots| == SLOTS && forall i :: 0 <= i < |slots| ==> ValidActor(slots[i])
  }

  /** `Update` claims an enemy slot between frames, when the sprite pass
      has cleared every flag, and stores the raw map value (3 or 4) as its
      type; the slot stays valid, and so does its registry. */
  lemma ClaimedSlotValid(slots: seq<Actor>, i: int, t: int)
    requires ValidSlots(slots) && 0 <= i < SLOTS && !slots[i].render
    ensures ValidSlots(slots[i := slots[i].(variant := t)])
  {
  }

  datatype Registry = Registry(enemies: seq<Actor>, healths: seq<Actor>)

  predicate ValidRegistry(g: Registry) {
    ValidSlots(g.enemies) && ValidSlots(g.healths)
  }

  predicate IsEnemy(kind: int) {
    kind == 3 || kind == 4
  }

  predicate IsHealth(kind: int) {
    kind == 5 || kind == 6
  }

  /** A slot after the entity of sighting s is noted in it. */
  function Noted(a: Actor, s: Sighting): Actor {
    a.(variant := if IsEnemy(s.kind) then s.kind - 3 else s.kind - 5, gx := s.gx, gy := s.gy, render := true)
  }

  /** Noting one passed entity cell in the slot `((gy & 7) << 3) + (gx & 7)`
      of its registry. */
  function Note(g: Registry, s: Sighting): (r: Registry)
    requires ValidRegistry(g) && InGrid(s.gx, s.gy)
    ensures ValidRegistry(r)
    ensures IsEnemy(s.kind) ==>
      && r.healths == g.healths
      && r.enemies[CellSlot(s.gx, s.gy)] == Noted(g.enemies[CellSlot(s.gx, s.gy)], s)
      && (forall i :: 0 <= i < SLOTS && i != CellSlot(s.gx, s.gy) ==> r.enemies[i] == g.enemies[i])
    ensures IsHealth(s.kind) ==>
      && r.enemies == g.enemies
      && r.healths[CellSlot(s.gx, s.gy)] == Noted(g.healths[CellSlot(s.gx, s.gy)], s)
      && (forall i :: 0 <= i < SLOTS && i != CellSlot(s.gx, s.gy) ==> r.healths[i] == g.healths[i])
    ensures !IsEnemy(s.kind) && !IsHealth(s.kind) ==> r == g
  {
    var slot := CellSlot(s.gx, s.gy);
    if IsEnemy(s.kind) then g.(enemies := g.enemies[slot := Noted(g.enemies[slot], s)])
    else if IsHealth(s.kind) then g.(healths := g.healths[slot := Noted(g.healths[slot], s)])
    else g
  }

  predicate AllInGrid(ss: seq<Sighting>) {
    forall k :: 0 <= k < |ss| ==> InGrid(ss[k].gx, ss[k].gy)
  }

  /** Noting the passed entity cells in the order the rays passed them. */
  function NoteAll(g: Registry, ss: seq<Sighting>): (r: Registry)
    requires ValidRegistry(g) && AllInGrid(ss)
    ensures ValidRegistry(r)
    decreases |ss|
  {
    if ss == [] then g else NoteAll(Note(g, ss[0]), ss[1..])
  }

  /** Every passed enemy and pickup has its slot flagged for drawing, and
      flags already set stay set. */
  lemma {:induction false} NoteAllFlags(g: Registry, ss: seq<Sighting>)
    requires ValidRegistry(g) && AllInGrid(ss)
    ensures forall i :: 0 <= i < SLOTS && g.enemies[i].render ==> NoteAll(g, ss).enemies[i].render
    ensures forall i :: 0 <= i < SLOTS && g.healths[i].render ==> NoteAll(g, ss).healths[i].render
    ensures forall k :: 0 <= k < |ss| && IsEnemy(ss[k].kind) ==> NoteAll(g, ss).enemies[CellSlot(ss[k].gx, ss[k].gy)].render
    ensures forall k :: 0 <= k < |ss| && IsHealth(ss[k].kind) ==> NoteAll(g, ss).healths[CellSlot(ss[k].gx, ss[k].gy)].render
    decreases |ss|
  {
    if ss != [] {
      var g' := Note(g, ss[0]);
      NoteAllFlags(g', ss[1..]);
      forall k | 1 <= k < |ss|
        ensures ss[k] == ss[1..][k - 1]
      {
      }
    }
  }

  /** The enemy registry (`enemy` true) or the pickup registry. */
  function SlotsOf(g: Registry, enemy: bool): seq<Actor> {
    if enemy then g.enemies else g.healths
  }

  /** Sighting s is an entity of that registry in a cell that maps to
      slot i. */
  predicate Claims(s: Sighting, enemy: bool, i: int) {
    (if enemy then IsEnemy(s.kind) else IsHealth(s.kind)) && InGrid(s.gx, s.gy) && CellSlot(s.gx, s.gy) == i
  }

  /** ss[j] claims slot i and no later sighting does. */
  predicate LastClaim(ss: seq<Sighting>, enemy: bool, i: int, j: int) {
    0 <= j < |ss| && Claims(ss[j], enemy, i) && forall j' :: j < j' < |ss| ==> !Claims(ss[j'], enemy, i)
  }

  /** Cells that agree mod 8 share a slot and overwrite each other: after
      noting, a slot holds the type and cell of the last entity that
      claimed it, flagged, with its damage flag untouched; a slot no
      entity claimed is unchanged. */
  lemma {:induction false} NoteAllKeepsLast(g: Registry, ss: seq<Sighting>, enemy: bool, i: int)
    requires ValidRegistry(g) && AllInGrid(ss) && 0 <= i < SLOTS
    ensures forall j :: LastClaim(ss, enemy, i, j) ==>
      SlotsOf(NoteAll(g, ss), enemy)[i] == Noted(SlotsOf(g, enemy)[i], ss[j])
    ensures (forall j :: 0 <= j < |ss| ==> !Claims(ss[j], enemy, i)) ==>
      SlotsOf(NoteAll(g, ss), enemy)[i] == SlotsOf(g, enemy)[i]
    decreases |ss|
  {
    if ss != [] {
      var g' := Note(g, ss[0]);
      var tail := ss[1..];
      assert NoteAll(g, ss) == NoteAll(g', tail);
      NoteAllKeepsLast(g', tail, enemy, i);
      var before := SlotsOf(g, enemy)[i];
      var noted := SlotsOf(g', enemy)[i];
      assert Claims(ss[0], enemy, i) ==> noted == Noted(before, ss[0]);
      assert !Claims(ss[0], enemy, i) ==> noted == before;
      forall j | LastClaim(ss, enemy, i, j)
        ensures SlotsOf(NoteAll(g, ss), enemy)[i] == Noted(before, ss[j])
      {
        if j == 0 {
          assert forall j' :: 0 <= j' < |tail| ==> !Claims(tail[j'], enemy, i) by {
            forall j' | 0 <= j' < |tail|
              ensures !Claims(tail[j'], enemy, i)
            {
              assert tail[j'] == ss[j' + 1];
            }
          }
        } else {
          assert tail[j - 1] == ss[j];
          assert LastClaim(tail, enemy, i, j - 1) by {
            forall j' | j - 1 < j' < |tail|
              ensures !Claims(tail[j'], enemy, i)
            {
              assert tail[j'] == ss[j' + 1];
            }
          }
        }
      }
      if forall j :: 0 <= j < |ss| ==> !Claims(ss[j], enemy, i) {
        assert !Claims(ss[0], enemy, i);
        forall j' | 0 <= j' < |tail|
          ensures !Claims(tail[j'], enemy, i)
        {
          assert tail[j'] == ss[j' + 1];
        }
      }
    }
  }

  // ---------------------------------------------------------------------
  // The sprite pass
  // ---------------------------------------------------------------------

  /** One DrawSprite call: the sprite frame's bitmap offset and the
      projected call. */
  datatype SpriteDraw = SpriteDraw(sprite: int, call: SpriteCall)

  /** The draw of a flagged pickup slot: its type's frame, no damage tint. */
  function HealthDraw(cam: Camera, a: Actor): (d: SpriteDraw)
    requires ValidCamera(cam) && ValidActor(a) && a.render
    ensures d.sprite == FRAMES[4 + a.variant] && d.call.damage == 0
  {
    SpriteDraw(FRAMES[4 + a.variant], ProjectSprite(cam, a.gx, a.gy, 0))
  }

  /** The draw of a flagged enemy slot: its type's current animation frame
      (`frame` is 0 or 1), tinted when its damage flag is set. */
  function EnemyDraw(cam: Camera, a: Actor, frame: int): (d: SpriteDraw)
    requires ValidCamera(cam) && ValidActor(a) && a.render && 0 <= frame <= 1
    ensures d.sprite == FRAMES[a.variant * 2 + frame] && d.call.damage == a.damage
  {
    SpriteDraw(FRAMES[a.variant * 2 + frame], ProjectSprite(cam, a.gx, a.gy, a.damage))
  }

  /** The flagged slots among the first n, in slot order. */
  function Flagged(slots: seq<Actor>, n: nat): (fs: seq<nat>)
    requires n <= |slots|
    ensures forall k :: 0 <= k < |fs| ==> fs[k] < n && slots[fs[k]].render
  {
    if n == 0 then []
    else Flagged(slots, n - 1) + (if slots[n - 1].render then [n - 1] else [])
  }

  /** Flagged lists each flagged slot once, in increasing order, and
      nothing else. */
  lemma {:induction false} FlaggedExact(slots: seq<Actor>, n: nat)
    requires n <= |slots|
    ensures forall j :: 0 <= j < n ==> (j in Flagged(slots, n) <==> slots[j].render)
    ensures forall k1, k2 :: 0 <= k1 < k2 < |Flagged(slots, n)| ==> Flagged(slots, n)[k1] < Flagged(slots, n)[k2]
  {
    if n > 0 {
      FlaggedExact(slots, n - 1);
    }
  }

  /** The pickup draws of the sprite pass, one per flagged slot in slot
      order. */
  function HealthDraws(cam: Camera, hs: seq<Actor>): (ds: seq<SpriteDraw>)
    requires ValidCamera(cam) && ValidSlots(hs)
    ensures |ds| == |Flagged(hs, SLOTS)|
    ensures forall k :: 0 <= k < |ds| ==> ds[k].sprite == FRAMES[4 + hs[Flagged(hs, SLOTS)[k]].variant] && ds[k].call.damage == 0
  {
    var fs := Flagged(hs, SLOTS);
    seq(|fs|, k requires 0 <= k < |fs| => HealthDraw(cam, hs[fs[k]]))
  }

  function EnemyDraws(cam: Camera, es: seq<Actor>, frame: int): (ds: seq<SpriteDraw>)
    requires ValidCamera(cam) && ValidSlots(es) && 0 <= frame <= 1
    ensures |ds| == |Flagged(es, SLOTS)|
    ensures forall k :: 0 <= k < |ds| ==>
      var a := es[Flagged(es, SLOTS)[k]];
      ds[k].sprite == FRAMES[a.variant * 2 + frame] && ds[k].call.damage == a.damage
  {
    var fs := Flagged(es, SLOTS);
    seq(|fs|, k requires 0 <= k < |fs| => EnemyDraw(cam, es[fs[k]], frame))
  }

  /** The flag-clearing loop of the sprite pass over one registry: it
      yields the flagged slots in order and clears every flag. */
  method ClearFlags(slots0: seq<Actor>) returns (fs: seq<nat>, slots: seq<Actor>)
    requires |slots0| == SLOTS
    ensures fs == Flagged(slots0, SLOTS)
    ensures |slots| == SLOTS && forall i :: 0 <= i < SLOTS ==> slots[i] == slots0[i].(render := false)
  {
    slots := slots0;
    fs := [];
    var i := 0;
    while i < SLOTS
      invariant 0 <= i <= SLOTS && |slots| == SLOTS
      invariant fs == Flagged(slots0, i)
      invariant forall j :: 0 <= j < i ==> slots[j] == slots0[j].(render := false)
      invariant forall j :: i <= j < SLOTS ==> slots[j] == slots0[j]
    {
      if slots[i].render {
        fs := fs + [i];
      }
      slots := slots[i := slots[i].(render := false)];
      i := i + 1;
    }
  }

  /** The sprite pass: pickups, then enemies, each in slot order; every
      flagged slot is drawn and its flag cleared, and nothing else in the
      registries changes. */
  method SpritePass(cam: Camera, g: Registry, frame: int) returns (draws: seq<SpriteDraw>, r: Registry)
    requires ValidCamera(cam) && ValidRegistry(g) && 0 <= frame <= 1
    ensures draws == HealthDraws(cam, g.healths) + EnemyDraws(cam, g.enemies, frame)
    ensures |r.enemies| == SLOTS && |r.healths| == SLOTS
    ensures forall i :: 0 <= i < SLOTS ==> r.healths[i] == g.healths[i].(render := false)
    ensures forall i :: 0 <= i < SLOTS ==> r.enemies[i] == g.enemies[i].(render := false)
  {
    var hf, hs := ClearFlags(g.healths);
    var ef, es := ClearFlags(g.enemies);
    var hd := seq(|hf|, k requires 0 <= k < |hf| => HealthDraw(cam, g.healths[hf[k]]));
    var ed := seq(|ef|, k requires 0 <= k < |ef| => EnemyDraw(cam, g.enemies[ef[k]], frame));
    draws := hd + ed;
    r := Registry(es, hs);
  }
}
