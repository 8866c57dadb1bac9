/** The door animation of `Update` (source/main.c): 64 door slots, each a
    four-state machine that waits, slides open, waits while the player is
    clear of the doorway, and slides shut. The caster reads the slot's
    `offset` to decide how much of the doorway is still closed. */
module Doors {
  import opened Words
  import opened FixedMath
  import opened World

  /** How far a door slides per tick, about 4.27 world units. */
  const DOOR_SPEED: int := 279620
  /** Tics spent waiting before sliding open and before sliding shut. */
  const DOOR_WAIT: int := 30
  /** The offset of a fully closed door, `64 << FRACBITS`. */
  const DOOR_SHUT: int := 0x40_0000
  /** `mapIndex` of an unused slot. */
  const NO_CELL: int := -1

  /** `state` 0, 1, 2 and 3 of `door_t`. */
  datatype DoorState = Waiting | Opening | Open | Closing

  datatype Door = Door(mapIndex: int, state: DoorState, offset: int, tics: int)

  /** The initial value of every slot, and the value a slot returns to. */
  const IDLE: Door := Door(NO_CELL, Waiting, DOOR_SHUT, 0)

  /** What every slot satisfies from the start and after every tick: an
      unused slot is idle, a used one names a map cell, the offset stays
      within a cell and the tic counter below DOOR_WAIT; a waiting door is
      shut, an open one fully open, and a sliding one has a zero counter. */
  predicate ValidDoor(d: Door) {
    (d.mapIndex == NO_CELL ==> d == IDLE)
    && (d.mapIndex == NO_CELL || 0 <= d.mapIndex < MAP_SIZE * MAP_SIZE)
    && 0 <= d.offset <= DOOR_SHUT
    && 0 <= d.tics < DOOR_WAIT
    && (d.state == Waiting ==> d.offset == DOOR_SHUT)
    && (d.state == Open ==> d.offset == 0)
    && (d.state == Opening || d.state == Closing ==> d.tics == 0)
  }

  predicate ValidDoors(ds: seq<Door>) {
    |ds| == SLOTS && forall i :: 0 <= i < |ds| ==> ValidDoor(ds[i])
  }

  /** One tick of one slot; `playerCell` is the map index of the player's
      cell. */
  function TickDoor(d: Door, playerCell: int): (r: Door)
    ensures d.mapIndex == NO_CELL ==> r == d
    ensures ValidDoor(d) ==> ValidDoor(r)
    ensures d.mapIndex != NO_CELL && d.state == Waiting && ValidDoor(d) ==>
      (r.state == Opening <==> d.tics == DOOR_WAIT - 1) && r.offset == d.offset
    ensures d.mapIndex != NO_CELL && d.state == Opening ==>
      (r.state == Open <==> d.offset < DOOR_SPEED)
      && r.offset == (if d.offset < DOOR_SPEED then 0 else d.offset - DOOR_SPEED)
    ensures d.mapIndex != NO_CELL && d.state == Open && ValidDoor(d) ==>
      (d.mapIndex == playerCell ==> r == d)
      && (r.state == Closing <==> d.mapIndex != playerCell && d.tics == DOOR_WAIT - 1)
    ensures d.mapIndex != NO_CELL && d.state == Closing && ValidDoor(d) ==>
      (r == IDLE <==> d.offset + DOOR_SPEED > DOOR_SHUT)
      && (r != IDLE ==> r == d.(offset := d.offset + DOOR_SPEED))
  {
    if d.mapIndex == NO_CELL then d
    else match d.state
      case Waiting =>
        var tics := U32(d.tics + 1);
        if tics == DOOR_WAIT then d.(state := Opening, tics := 0) else d.(tics := tics)
      case Opening =>
        var offset := d.offset - DOOR_SPEED;
        if offset < 0 then d.(state := Open, offset := 0) else d.(offset := offset)
      case Open =>
        if d.mapIndex != playerCell then
          var tics := U32(d.tics + 1);
          if tics == DOOR_WAIT then d.(state := Closing, tics := 0) else d.(tics := tics)
        else d
      case Closing =>
        var offset := d.offset + DOOR_SPEED;
        if offset > DOOR_SHUT then d.(mapIndex := NO_CELL, state := Waiting, offset := DOOR_SHUT)
        else d.(offset := offset)
  }

  /** The door loop of `Update`: every slot ticks once, independently. */
  function TickDoors(ds: seq<Door>, playerCell: int): (rs: seq<Door>)
    ensures |rs| == |ds|
    ensures forall i :: 0 <= i < |ds| ==> rs[i] == TickDoor(ds[i], playerCell)
    ensures ValidDoors(ds) ==> ValidDoors(rs)
  {
    seq(|ds|, i requires 0 <= i < |ds| => TickDoor(ds[i], playerCell))
  }

  /** Walking up to a door cell (gx, gy): its slot is claimed for the cell
      and starts waiting, fully closed, unless it already belongs to the
      cell. */
  function ActivateDoor(ds: seq<Door>, gx: int, gy: int): (rs: seq<Door>)
    requires |ds| == SLOTS && InGrid(gx, gy)
    ensures |rs| == SLOTS
    ensures rs[CellSlot(gx, gy)].mapIndex == CellIndex(gx, gy)
    ensures ds[CellSlot(gx, gy)].mapIndex == CellIndex(gx, gy) ==> rs == ds
    ensures ds[CellSlot(gx, gy)].mapIndex != CellIndex(gx, gy) ==>
      rs[CellSlot(gx, gy)] == Door(CellIndex(gx, gy), Waiting, DOOR_SHUT, 0)
    ensures forall i :: 0 <= i < SLOTS && i != CellSlot(gx, gy) ==> rs[i] == ds[i]
    ensures ValidDoors(ds) ==> ValidDoors(rs)
  {
    var slot := CellSlot(gx, gy);
    var cell := CellIndex(gx, gy);
    if ds[slot].mapIndex != cell then ds[slot := Door(cell, Waiting, DOOR_SHUT, 0)] else ds
  }

  /** `offset >> 16` of the slot when it belongs to cell (gx, gy), and 64
      (a closed door) when the slot serves another cell or none. */
  function DoorOpening(ds: seq<Door>, gx: int, gy: int): (w: int)
    requires |ds| == SLOTS && InGrid(gx, gy)
    ensures ValidDoors(ds) ==> 0 <= w <= 64
    ensures ds[CellSlot(gx, gy)].mapIndex != CellIndex(gx, gy) ==> w == 64
    ensures ValidDoors(ds) && w < 64 ==> ds[CellSlot(gx, gy)].mapIndex == CellIndex(gx, gy)
  {
    var d := ds[CellSlot(gx, gy)];
    if d.mapIndex == CellIndex(gx, gy) then d.offset / FRACUNIT else 64
  }

  // ---------------------------------------------------------------------
  // Timing of a whole cycle
  // ---------------------------------------------------------------------

  /** n ticks of one slot with the player standing still. */
  function Ticks(d: Door, playerCell: int, n: nat): (r: Door)
    ensures d.mapIndex == NO_CELL ==> r == d
    ensures ValidDoor(d) ==> ValidDoor(r)
    decreases n
  {
    if n == 0 then d else Ticks(TickDoor(d, playerCell), playerCell, n - 1)
  }

  /** A freshly claimed door waits DOOR_WAIT - 1 ticks and starts opening
      on the DOOR_WAIT-th. */
  lemma {:induction false} WaitingCountsUp(m: int, p: int, t: int, n: nat)
    requires 0 <= m < MAP_SIZE * MAP_SIZE && 0 <= t && t + n <= DOOR_WAIT - 1
    ensures Ticks(Door(m, Waiting, DOOR_SHUT, t), p, n) == Door(m, Waiting, DOOR_SHUT, t + n)
    decreases n
  {
    if n > 0 {
      assert TickDoor(Door(m, Waiting, DOOR_SHUT, t), p) == Door(m, Waiting, DOOR_SHUT, t + 1);
      WaitingCountsUp(m, p, t + 1, n - 1);
    }
  }

  lemma StartsOpeningAfterWait(m: int, p: int)
    requires 0 <= m < MAP_SIZE * MAP_SIZE
    ensures Ticks(Door(m, Waiting, DOOR_SHUT, 0), p, DOOR_WAIT - 1) == Door(m, Waiting, DOOR_SHUT, DOOR_WAIT - 1)
    ensures Ticks(Door(m, Waiting, DOOR_SHUT, 0), p, DOOR_WAIT) == Door(m, Opening, DOOR_SHUT, 0)
  {
    WaitingCountsUp(m, p, 0, DOOR_WAIT - 1);
    TicksSplit(Door(m, Waiting, DOOR_SHUT, 0), p, DOOR_WAIT - 1, 1);
  }

  /** While opening, each tick removes DOOR_SPEED from the offset; 16
      ticks take a shut door to fully open (16 * DOOR_SPEED exceeds the
      64 << 16 of a cell by 4279916 - 4194304, 15 ticks fall 4 short). */
  lemma {:induction false} OpeningSlides(m: int, p: int, n: nat)
    requires 0 <= m < MAP_SIZE * MAP_SIZE && n <= 15
    ensures Ticks(Door(m, Opening, DOOR_SHUT, 0), p, n) == Door(m, Opening, DOOR_SHUT - n * DOOR_SPEED, 0)
  {
    if n > 0 {
      OpeningSlides(m, p, n - 1);
      TicksSplit(Door(m, Opening, DOOR_SHUT, 0), p, n - 1, 1);
    }
  }

  lemma OpensInSixteenTicks(m: int, p: int)
    requires 0 <= m < MAP_SIZE * MAP_SIZE
    ensures Ticks(Door(m, Opening, DOOR_SHUT, 0), p, 15).state == Opening
    ensures Ticks(Door(m, Opening, DOOR_SHUT, 0), p, 16) == Door(m, Open, 0, 0)
  {
    OpeningSlides(m, p, 15);
    TicksSplit(Door(m, Opening, DOOR_SHUT, 0), p, 15, 1);
    LastTick(Door(m, Opening, DOOR_SHUT - 15 * DOOR_SPEED, 0), p);
  }

  /** While closing, each tick adds DOOR_SPEED; on the 16th tick the
      offset passes 64 << 16 and the slot is released. */
  lemma {:induction false} ClosingSlides(m: int, p: int, n: nat)
    requires 0 <= m < MAP_SIZE * MAP_SIZE && n <= 15
    ensures Ticks(Door(m, Closing, 0, 0), p, n) == Door(m, Closing, n * DOOR_SPEED, 0)
  {
    if n > 0 {
      ClosingSlides(m, p, n - 1);
      TicksSplit(Door(m, Closing, 0, 0), p, n - 1, 1);
    }
  }

  lemma ReleasedAfterClosing(m: int, p: int)
    requires 0 <= m < MAP_SIZE * MAP_SIZE
    ensures Ticks(Door(m, Closing, 0, 0), p, 15).state == Closing
    ensures Ticks(Door(m, Closing, 0, 0), p, 16) == IDLE
  {
    ClosingSlides(m, p, 15);
    TicksSplit(Door(m, Closing, 0, 0), p, 15, 1);
    LastTick(Door(m, Closing, 15 * DOOR_SPEED, 0), p);
  }

  /** An open door counts the ticks the player spends outside its cell and
      starts closing on the DOOR_WAIT-th. */
  lemma {:induction false} OpenCountsUp(m: int, p: int, t: int, n: nat)
    requires 0 <= m < MAP_SIZE * MAP_SIZE && m != p && 0 <= t && t + n <= DOOR_WAIT - 1
    ensures Ticks(Door(m, Open, 0, t), p, n) == Door(m, Open, 0, t + n)
    decreases n
  {
    if n > 0 {
      assert TickDoor(Door(m, Open, 0, t), p) == Door(m, Open, 0, t + 1);
      OpenCountsUp(m, p, t + 1, n - 1);
    }
  }

  lemma StartsClosingAfterWait(m: int, p: int)
    requires 0 <= m < MAP_SIZE * MAP_SIZE && m != p
    ensures Ticks(Door(m, Open, 0, 0), p, DOOR_WAIT - 1).state == Open
    ensures Ticks(Door(m, Open, 0, 0), p, DOOR_WAIT) == Door(m, Closing, 0, 0)
  {
    OpenCountsUp(m, p, 0, DOOR_WAIT - 1);
    TicksSplit(Door(m, Open, 0, 0), p, DOOR_WAIT - 1, 1);
  }

  /** An open door with the player in its doorway never starts closing. */
  lemma {:induction false} HeldOpenWhileOccupied(m: int, t: int, n: nat)
    requires 0 <= m < MAP_SIZE * MAP_SIZE && 0 <= t < DOOR_WAIT
    ensures Ticks(Door(m, Open, 0, t), m, n) == Door(m, Open, 0, t)
  {
    if n > 0 {
      HeldOpenWhileOccupied(m, t, n - 1);
    }
  }

  /** The sixteenth tick of a slide: four units short of a full cell,
      the door stops fully open, or is released fully shut. */
  lemma LastTick(d: Door, p: int)
    requires 0 <= d.mapIndex < MAP_SIZE * MAP_SIZE
    requires d == Door(d.mapIndex, Opening, 4, 0) || d == Door(d.mapIndex, Closing, DOOR_SHUT - 4, 0)
    ensures Ticks(d, p, 1) == TickDoor(d, p)
    ensures d.state == Opening ==> TickDoor(d, p) == Door(d.mapIndex, Open, 0, 0)
    ensures d.state == Closing ==> TickDoor(d, p) == IDLE
  {
  }

  lemma {:induction false} TicksSplit(d: Door, p: int, a: nat, b: nat)
    ensures Ticks(d, p, a + b) == Ticks(Ticks(d, p, a), p, b)
    decreases a
  {
    if a > 0 {
      var d1 := TickDoor(d, p);
      TicksSplit(d1, p, a - 1, b);
      assert Ticks(d, p, a + b) == Ticks(d1, p, a - 1 + b);
      assert Ticks(d, p, a) == Ticks(d1, p, a - 1);
    }
  }
}
