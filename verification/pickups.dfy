/** Two small clamps of `Update` (source/main.c): picking up a health
    pack, and the blood curtain that closes over the screen after the
    player dies. */
module Pickups {
  import opened Words

  const MAX_HEALTH: int := 100
  /** The cell kinds of the small and the large health pack. */
  const SMALL_PACK: int := 5
  const LARGE_PACK: int := 6
  const EMPTY_CELL: int := 0

  /** The player's health and the kind of the cell they stand in. */
  datatype Standing = Standing(health: int, cell: int)

  function PackValue(cell: int): int {
    if cell == SMALL_PACK then 10 else if cell == LARGE_PACK then 25 else 0
  }

  /** Stepping onto a cell: a pack is taken only when health is below 100;
      taking it empties the cell and adds 10 or 25, capped at 100. Health
      never rises above 100 this way and never falls. */
  function TakePack(s: Standing): (r: Standing)
    ensures r.cell != s.cell <==> (s.cell == SMALL_PACK || s.cell == LARGE_PACK) && s.health < MAX_HEALTH
    ensures r.cell != s.cell ==>
      && r.cell == EMPTY_CELL && r.health > s.health
      && r.health == if s.health + PackValue(s.cell) > MAX_HEALTH then MAX_HEALTH else s.health + PackValue(s.cell)
    ensures r.cell == s.cell ==> r == s
    ensures s.health <= MAX_HEALTH ==> s.health <= r.health <= MAX_HEALTH
  {
    if (s.cell == SMALL_PACK || s.cell == LARGE_PACK) && s.health < MAX_HEALTH then
      var h := s.health + PackValue(s.cell);
      Standing(if h > MAX_HEALTH then MAX_HEALTH else h, EMPTY_CELL)
    else s
  }

  // ---------------------------------------------------------------------
  // The blood curtain
  // ---------------------------------------------------------------------

  const COLS: int := 120
  const CURTAIN: int := 64
  /** The covered area that ends the curtain: every column at 64 rows. */
  const FULL_AREA: int := 7680
  /** The curtain grows on every fourth call. */
  const BLOOD_PERIOD: int := 3

  /** One column's growth: the `uint32_t` sum, capped at 64. */
  function Rise(h: int, speed: int): (r: int)
    ensures 0 <= r <= CURTAIN
    ensures 0 <= h && 0 <= speed && h + speed < WORD ==> r == if h + speed > CURTAIN then CURTAIN else h + speed
  {
    var sum := U32(h + speed);
    if sum > CURTAIN then CURTAIN else sum
  }

  predicate Columns(hs: seq<int>) {
    |hs| == COLS && forall i :: 0 <= i < |hs| ==> 0 <= hs[i] <= CURTAIN
  }

  predicate Speeds(speeds: seq<int>) {
    |speeds| == COLS && forall i :: 0 <= i < |speeds| ==> IsUint32(speeds[i])
  }

  /** The column heights after one growth step. */
  function Risen(hs: seq<int>, speeds: seq<int>): (r: seq<int>)
    requires Columns(hs) && Speeds(speeds)
    ensures Columns(r)
  {
    seq(COLS, i requires 0 <= i < COLS => Rise(hs[i], speeds[i]))
  }

  function Sum(hs: seq<int>): int {
    if hs == [] then 0 else Sum(hs[..|hs| - 1]) + hs[|hs| - 1]
  }

  predicate Closed(hs: seq<int>) {
    forall i :: 0 <= i < |hs| ==> hs[i] == CURTAIN
  }

  /** With every column at most 64 high, the area is at most 64 per column,
      and reaches that bound exactly when every column is at 64. */
  lemma {:induction false} SumFull(hs: seq<int>)
    requires forall i :: 0 <= i < |hs| ==> 0 <= hs[i] <= CURTAIN
    ensures 0 <= Sum(hs) <= CURTAIN * |hs|
    ensures Sum(hs) == CURTAIN * |hs| <==> Closed(hs)
  {
    if hs != [] {
      var init := hs[..|hs| - 1];
      SumFull(init);
      if Sum(hs) == CURTAIN * |hs| {
        forall i | 0 <= i < |hs|
          ensures hs[i] == CURTAIN
        {
          if i < |hs| - 1 {
            assert init[i] == hs[i];
          }
        }
      }
      if Closed(hs) {
        assert Closed(init) by {
          forall i | 0 <= i < |init|
            ensures init[i] == CURTAIN
          {
            assert init[i] == hs[i];
          }
        }
      }
    }
  }

  /** One growth step: every column rises by its speed up to 64, and the
      curtain is complete exactly when the summed area is 7680. */
  method BloodStep(hs0: seq<int>, speeds: seq<int>) returns (hs: seq<int>, full: bool)
    requires Columns(hs0) && Speeds(speeds)
    ensures hs == Risen(hs0, speeds)
    ensures full <==> Closed(hs)
  {
    hs := hs0;
    var area := 0;
    var i := 0;
    while i < COLS
      invariant 0 <= i <= COLS && |hs| == COLS
      invariant forall j :: 0 <= j < i ==> hs[j] == Rise(hs0[j], speeds[j])
      invariant forall j :: i <= j < COLS ==> hs[j] == hs0[j]
      invariant area == Sum(hs[..i]) && 0 <= area <= CURTAIN * i
    {
      var h := U32(hs[i] + speeds[i]);
      if h > CURTAIN {
        h := CURTAIN;
      }
      hs := hs[i := h];
      assert hs[..i + 1][..i] == hs[..i];
      area := U32(area + h);
      i := i + 1;
    }
    assert hs == hs[..COLS];
    SumFull(hs);
    full := area == FULL_AREA;
  }

  /** The blood state: column heights and the call counter. */
  datatype Blood = Blood(heights: seq<int>, tics: int)

  /** One call in the dying state: the counter advances, and on every
      fourth call the curtain grows; `done` reports the move to the
      game-over state. */
  method BloodTick(b: Blood, speeds: seq<int>) returns (r: Blood, done: bool)
    requires Columns(b.heights) && Speeds(speeds) && 0 <= b.tics <= BLOOD_PERIOD
    ensures Columns(r.heights) && 0 <= r.tics <= BLOOD_PERIOD
    ensures b.tics < BLOOD_PERIOD ==> r == Blood(b.heights, b.tics + 1) && !done
    ensures b.tics == BLOOD_PERIOD ==> r == Blood(Risen(b.heights, speeds), 0) && (done <==> Closed(r.heights))
  {
    var tics := b.tics + 1;
    if tics > BLOOD_PERIOD {
      var hs, full := BloodStep(b.heights, speeds);
      r := Blood(hs, 0);
      done := full;
    } else {
      r := Blood(b.heights, tics);
      done := false;
    }
  }

  /** The column heights after n growth steps. */
  function RisenN(hs: seq<int>, speeds: seq<int>, n: nat): (r: seq<int>)
    requires Columns(hs) && Speeds(speeds)
    ensures Columns(r)
  {
    if n == 0 then hs else Risen(RisenN(hs, speeds, n - 1), speeds)
  }

  /** With the speeds the game draws (2 to 5), every column has grown by
      at least 2 per step until it reaches 64. */
  lemma {:induction false} RisenNGrows(hs: seq<int>, speeds: seq<int>, n: nat)
    requires Columns(hs) && Speeds(speeds)
    requires forall i :: 0 <= i < COLS ==> 2 <= speeds[i] <= 5
    ensures forall i :: 0 <= i < COLS ==> RisenN(hs, speeds, n)[i] >= if hs[i] + 2 * n > CURTAIN then CURTAIN else hs[i] + 2 * n
  {
    if n > 0 {
      RisenNGrows(hs, speeds, n - 1);
    }
  }

  /** So the curtain closes within 32 growth steps, from any start. */
  lemma CurtainCloses(hs: seq<int>, speeds: seq<int>)
    requires Columns(hs) && Speeds(speeds)
    requires forall i :: 0 <= i < COLS ==> 2 <= speeds[i] <= 5
    ensures Closed(RisenN(hs, speeds, 32))
  {
    RisenNGrows(hs, speeds, 32);
  }
}
