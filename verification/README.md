# Eternal Horror renderer core, modelled in Dafny

Eternal Horror is a Game Boy Advance first-person game. Its engine draws
every frame from integer arithmetic alone. This project models that integer
core and proves what its callers rely on:

- the 16.16 fixed-point library (`fixedSin`, `fixedCos`, `fixedTan`,
  `fixedCot` over two 128-entry tables, and the saturating `fixedMul`);
- the distance-to-height projector `FindHeight`, a binary search over the
  increasing `scalarTable`;
- `DrawWallSlice` and `DrawSprite`, each as the list of (column, row, colour)
  stores it makes on the 120 x 64 logical screen, with clipping, the depth
  test and the colour key;
- the per-column wall caster of `Render`: the horizontal traversal (using
  `fixedCot`) and the vertical one (using `fixedTan`) over the 64 x 64 map,
  door cells, the choice of the nearer hit and its texture column, and the
  enemy and pickup cells a ray passes;
- the 120-column wall pass, solid-planes blanking, and the floor outline in
  `plane.top`. The two padding words are modelled as an array of 122 entries;
- the Doom-style visplane pass that paints floor and ceiling spans;
- the sprite pass that projects and draws flagged pickups and enemies and
  clears their flags;
- the door tick of `Update`, the health-pack clamp, and the blood curtain.

Modules follow the program: `Words` (32-bit words), `FixedMath` and
`FixedLaws` (fixed.c), `Projection`, `Screen`, `WallSlice`, `Sprites`,
`World`, `Doors`, `Caster`, `Frame`, `Visplane`, `Actors`, `Pickups` and
`Render` (main.c).

Integer conventions:

- `>>` on a signed value is floor division.
- `& 511` on an angle is `% 512`.
- A `uint32_t` store is `U32(x) = x % 2^32`.
- The 64-bit product inside `fixedMul` is exact, then clamped to the int32 range.

A frame is `Render.RenderFrame` applied to the casts of its 120 columns. Those
casts are `Frame.CastsUpTo(m, ds, cam, carry, 120)`, every one of which
satisfies `Caster.SoundCast`.

## Model

| member | source | states |
|---|---|---|
| Words.U32 | include/fixed.h:25-26 | the stored word lies in 0 .. 2^32 - 1 and equals the value whenever the value already fits |
| Words.U32AddLeft | source/main.c:1338-1344 | reducing a summand mod 2^32 before an unsigned addition leaves the stored word unchanged |
| Words.U32MulLeft | source/main.c:1338-1339 | reducing a factor mod 2^32 before an unsigned multiplication leaves the stored word unchanged |
| FixedMath.SinTable | source/fixed.c:21-31 | every sinTable entry lies in 402 .. 65534 |
| FixedMath.TanTable | source/fixed.c:33-43 | every tanTable entry lies in 402 .. 10680573 |
| FixedMath.SinTableIncreasing | source/fixed.c:21-31 | sinTable is strictly increasing |
| FixedMath.QuadrantOf | source/fixed.c:47 | the quadrant `(a & 511 & 0x180) >> 7` is always 0..3, the quarter turn that holds `a mod 512`, so no `default` arm is reachable |
| FixedMath.StepOf | source/fixed.c:48 | the in-quadrant index is 0..127, and quadrant * 128 + index recovers `a mod 512` |
| FixedMath.FixedSin | source/fixed.c:45-57 | 402 <= abs(fixedSin a) <= 65534, so it is never 0 or 1.0; it is positive exactly on the first half turn |
| FixedMath.FixedCos | source/fixed.c:59-71 | 402 <= abs(fixedCos a) <= 65534; it is positive exactly in quadrants 0 and 3 |
| FixedMath.FixedTan | source/fixed.c:73-83 | 402 <= abs(fixedTan a) <= 10680573, never 0; positive exactly in quadrants 0 and 2 |
| FixedMath.FixedCot | source/fixed.c:85-95 | 402 <= abs(fixedCot a) <= 10680573, never 0; positive exactly in quadrants 0 and 2 |
| FixedMath.FixedMul | source/fixed.c:97-101 | the result is an int32 that is negative exactly when a * b is negative (a tiny product rounds to 0); it is floor(a*b / 2^16) when that fits, and INT_MAX or INT_MIN when it does not, so it saturates and never wraps |
| FixedLaws.TrigDependsOnlyOnMask | source/fixed.c:47-48 | angles equal mod 512 give equal sin, cos, tan and cot |
| FixedLaws.QuarterTurn | source/fixed.c:47-48 | a quarter turn moves to the next quadrant and keeps the table index |
| FixedLaws.HalfTurn | source/fixed.c:47-48 | a half turn moves two quadrants on and keeps the table index |
| FixedLaws.CosIsSinQuarterAhead | source/fixed.c:45-71 | fixedCos(a) == fixedSin(a + 128) |
| FixedLaws.SinHalfTurn | source/fixed.c:45-57 | fixedSin(a + 256) == -fixedSin(a) |
| FixedLaws.TanHalfTurn | source/fixed.c:73-83 | fixedTan has period 256 |
| FixedLaws.CotIsNegatedTanQuarterAhead | source/fixed.c:73-95 | fixedCot(a) == -fixedTan(a + 128) |
| FixedLaws.SinTableOrdered | source/fixed.c:21-31 | any two sinTable entries are ordered as their indices |
| FixedLaws.SinIncreasingOnFirstQuadrant | source/fixed.c:45-57 | fixedSin is strictly increasing on angles 0..127 |
| FixedLaws.FixedMulCommutes | source/fixed.c:99-100 | fixedMul(a, b) == fixedMul(b, a) |
| FixedLaws.FixedMulUnit | source/fixed.c:99-100 | fixedMul(a, 65536) == a |
| FixedLaws.FixedMulZero | source/fixed.c:99-100 | fixedMul(a, 0) == 0 |
| FixedLaws.FixedMulWithin | source/fixed.c:99-100 | a product whose exact magnitude is at most m * 2^16 is not clamped and has magnitude at most m |
| Projection.ScalarTable | source/main.c:69-87 | every scalarTable entry lies in 8192 .. 2^21 |
| Projection.ScalarTableIncreasing | source/main.c:69-87 | scalarTable is strictly increasing, which the binary search needs |
| Projection.ScalarTableReciprocal | source/main.c:69-87 | scalarTable[k] * (256 - k) <= 2^21 for every k, so a texture step times the height it scales never passes 64 texels |
| Projection.LastAtMost | source/main.c:199-221 | the result is the largest index k whose threshold `scalarTable[k] << 6` is at most d, or -1 when there is none |
| Projection.LastAtMostUnique | source/main.c:199-221 | any index with those two properties is the one LastAtMost gives |
| Projection.Height | source/main.c:199-221 | the height is even and lies in 2..512 |
| Projection.FindHeight | source/main.c:199-221 | the binary search, early return on an exact match included, returns 512 - 2r for the largest r whose threshold is at most d, or 512 when there is none |
| Projection.LastAtMostMonotone | source/main.c:199-221 | a larger distance never finds a smaller index |
| Projection.HeightMonotone | source/main.c:199-221 | FindHeight is non-increasing in the distance |
| Projection.HeightNear | source/main.c:199-221 | every distance up to 524288 projects to the full 512 rows |
| Projection.HeightBetween | source/main.c:199-221 | a distance from the threshold of k up to that of k + 1 projects to 512 - 2k rows |
| Projection.HeightOfNoHit | source/main.c:199-221 | the INT_MAX no-hit distance projects to 2 rows |
| Screen.StepFor | source/main.c:227 | the step `scalarTable[(512 - size) >> 1]` lies in 8192 .. 2^21, and size * step <= 2^22 |
| Screen.SampleBound | source/main.c:246 | j rows into an object of that size, `j * step >> 16` is a texel index in 0..63 |
| Screen.Sample | source/main.c:246 | the sampled texture row is in 0..63 |
| Screen.TopRowFits | source/main.c:1265 | a slice starting at `(64 - h) >> 1` lies within rows 0..63 when that row is not negative; otherwise it covers every row |
| WallSlice.SliceOffsetIsUnclipped | source/main.c:230-240 | the running texture offset on the k-th row written equals the offset of that row's distance from the unclipped top |
| WallSlice.SlicePixel | source/main.c:242-252 | the k-th store is in column wallX at row first + k, within 0..63, and shows the texel of that row's distance from the slice top |
| WallSlice.DrawWallSlice | source/main.c:223-253 | exactly wallHeight rows when wallY >= 0 and exactly rows 0..63 when wallY < 0, all in column wallX, all on screen, each the texel of its row |
| Render.SliceWritesWallRows | source/main.c:1264-1265 | the slice writes row r exactly when r is between the slice top and top + height - 1 |
| World.CellIndex | source/main.c:1123 | `gridY * mapWidth + gridX` lies in the map and recovers (gx, gy) |
| World.Depth | source/main.c:1127 | the view-space depth of a grid point within reach is an int32 |
| World.Lateral | source/main.c:1388 | the lateral offset of a grid point within reach is an int32 |
| World.TransformIsExact | source/main.c:1387-1388 | neither fixedMul of the view transform saturates: both are the exact floor quotients |
| World.Shrinks | source/main.c:1387-1388 | multiplying an offset within reach by a sine or cosine value neither clamps nor grows it |
| World.CellSlot | source/main.c:525 | the slot `((gy & 7) << 3) + (gx & 7)` is in 0..63 and its row and column are gy mod 8 and gx mod 8 |
| Doors.TickDoor | source/main.c:961-1012 | an unused slot is untouched; each of the four states steps as the loop does; and the invariant is kept: the offset is in 0 .. 64<<16, tics stay below 30, and a used slot names a map cell |
| Doors.TickDoors | source/main.c:961-1012 | every slot ticks independently and the invariant holds for all 64 slots |
| Doors.ActivateDoor | source/main.c:521-533 | the door's slot is claimed for its cell; it resets to closed and waiting only if it belonged elsewhere; no other slot changes; the invariant is kept |
| Doors.DoorOpening | source/main.c:1130 | the open width the caster compares against is in 0..64, and 64 when the slot belongs to another cell |
| Doors.Ticks | source/main.c:961-1012 | n ticks keep the invariant and leave an unused slot alone |
| Doors.WaitingCountsUp | source/main.c:967-976 | a waiting door counts its tics up by one per tick |
| Doors.StartsOpeningAfterWait | source/main.c:967-976 | a claimed door starts opening on the 30th tick |
| Doors.OpeningSlides | source/main.c:977-986 | while opening, each tick removes 279620 from the offset |
| Doors.OpensInSixteenTicks | source/main.c:977-986 | an opening door is fully open, offset 0, after exactly 16 ticks |
| Doors.ClosingSlides | source/main.c:1000-1010 | while closing, each tick adds 279620 to the offset |
| Doors.ReleasedAfterClosing | source/main.c:1000-1010 | a closing door frees its slot after exactly 16 ticks |
| Doors.OpenCountsUp | source/main.c:987-999 | an open door counts the tics the player spends outside its cell |
| Doors.StartsClosingAfterWait | source/main.c:987-999 | an open door starts closing on the 30th tick with the player away |
| Doors.HeldOpenWhileOccupied | source/main.c:989 | an open door never starts closing while the player stands in its cell |
| Doors.TicksSplit | source/main.c:961-1012 | a + b ticks equal a ticks followed by b ticks |
| Caster.DoorColumn | source/main.c:1130 | the half-stepped in-cell coordinate `& 63` lies in 0..63 |
| Caster.InGridBounds | source/main.c:1114-1121 | an intersection whose cell is in the grid lies inside the world, and the next one is strictly nearer the grid edge, so the loop ends |
| Caster.HitInReach | source/main.c:1127-1134 | a hit inside the grid, and its door midpoint, are within reach of the view transform |
| Caster.DoorHit | source/main.c:1130-1136 | a door stops the ray half a step on, at an int32 distance below INT_MAX, with a texel below the door's open width |
| Caster.Arrive | source/main.c:1117-1136 | leaving the grid gives INT_MAX and nothing else does; a hit is a wall or a door |
| Caster.Seen | source/main.c:1137-1152 | a passed cell is reported exactly when it holds an enemy or pickup, with its type and cell |
| Caster.Walk | source/main.c:1112-1156 | the traversal's distance is an int32, a finite hit is a wall or a door, and every reported entity is one in the map |
| Caster.WalkStopsAtFirstBlocker | source/main.c:1112-1156 | the traversal passes `steps` cells that do not stop it and stops at the next; it gives INT_MAX exactly when that one is outside the grid |
| Caster.WalkSeesEveryEntity | source/main.c:1137-1152 | every enemy or pickup cell the traversal passes is reported |
| Caster.WalkIgnoresEntry | source/main.c:1105-1106 | the stale type and door offset a traversal starts with change only what it reports after a miss |
| Caster.FirstIntersection | source/main.c:1088-1173 | the first grid line lies behind or ahead of the camera's cell as the ray points back or forward: rows for angles below 256, columns for angles 128..383 |
| Caster.RayFrom | source/main.c:1159-1173 | the first intersection is the camera's own grid line when the ray points back and the next line when it points forward, with the major step pointing the same way |
| Caster.Traverse | source/main.c:1108-1121 | a traversal parallel to its grid lines (angles 0 and 256, or 128 and 384) gives INT_MAX and passes nothing; otherwise it is the walk from the first intersection |
| Caster.ChooseColumn | source/main.c:1229-1262 | the nearer traversal is chosen, ties going to the vertical one; the texture column is 0..63 when the chosen traversal hit |
| Caster.BothMissStaleDoor | source/main.c:1254-1257 | when both traversals miss and the last cell typed was a door, the texture column can be 127 |
| Caster.CastColumn | source/main.c:1084-1262 | every column's distance is an int32, its texture column is 0..63 when it hits, and every entity it reports is in the grid |
| Caster.CastIgnoresCarryWhenHit | source/main.c:1233-1262 | a column that hits is drawn the same whatever the previous column left in the traversal variables |
| Frame.ColumnAngle | source/main.c:1084 | every column's ray angle is in 0..511 |
| Frame.ColumnAngleSteps | source/main.c:1307 | each column's ray is one step clockwise of the previous one |
| Frame.CastsUpTo | source/main.c:1086-1308 | there is one cast per column and each one is sound |
| Frame.SolidColumnCoversScreen | source/main.c:1267-1292 | in solid-planes mode the blanking above, the slice, and the blanking below write every row of the column once, in order |
| Frame.OpenColumnPartition | source/main.c:1294-1303 | with a short wall, each row of the column is exactly one of ceiling mirror, wall, floor |
| Frame.FloorTop | source/main.c:1302 | `wallStart + wallHeight` is the first floor row; it is below the horizon, and it is 64 exactly when the wall fills the column |
| Frame.OutlineFloor | source/main.c:1294-1303 | the floor outline records the first floor row of every short wall, and minX..maxX spans every such column; solid mode leaves it empty |
| Frame.WallCallOf | source/main.c:1264-1280 | the slice call is for column x, with an even height in 2..512 from FindHeight and top row `(64 - h) >> 1` |
| Frame.SliceCalls | source/main.c:1280-1305 | zBuffer[i] is column i's distance and slice call i is column i's |
| Frame.RenderWalls | source/main.c:1264-1307 | the wall pass gives one slice call per column with an even height in 2..512, the zBuffer of column distances, the blanking of solid mode, and the floor outline of textured mode |
| Visplane.PlaneDistance | source/main.c:89-93 | every planeDistanceTable entry lies in 4260880 .. 2^28 |
| Visplane.BandFrame | source/main.c:1329-1337 | a band's setup is four int32 values |
| Visplane.Turn | source/main.c:1330-1333 | a distance times a sine or cosine value is no larger than the distance |
| Visplane.Along | source/main.c:1338-1339 | the uint32 coordinate registers after k steps are 32-bit words |
| Visplane.AlongShift | source/main.c:1343-1344 | j steps followed by k steps equal j + k steps, mod 2^32 |
| Visplane.TexIndex | source/main.c:1353-1355 | the floor texel index `ty * 64 + tx` lies in 0..4095 |
| Visplane.PaintSpan | source/main.c:1347-1366 | a span paints each column of its run once on its floor row and its ceiling mirror row, at the texel under the running coordinates, and ends one step past its last column |
| Visplane.SpanStart | source/main.c:1327-1345 | a band resumed with stop != 0 reaches the same start coordinates as a fresh setup at its start column |
| Visplane.CoveredAppend | source/main.c:1347-1366 | adding a span covers exactly its own pixels in addition |
| Visplane.RegistersAfterSpan | source/main.c:1364-1368 | after a span the band's registers stand at its base plus (x + 4) steps and its stop is x >= 1, so 0 still means "not started" |
| Visplane.FreshAppend | source/main.c:1329-1339 | every span starts where a fresh setup of its band would |
| Visplane.CloseBand | source/main.c:1323-1371 | closing a band paints its open run, nothing else, and no pixel twice |
| Visplane.NextColumn | source/main.c:1318-1322 | moving one column on keeps the coverage and open-run invariants |
| Visplane.OpenBand | source/main.c:1373-1377 | recording a band's start column keeps both invariants |
| Visplane.CloseBands | source/main.c:1323-1371 | the first inner loop closes every band the outline leaves, keeping all invariants |
| Visplane.OpenBands | source/main.c:1373-1377 | the second inner loop opens every band the outline enters at column x |
| Visplane.PlaneColumn | source/main.c:1318-1378 | one column of the sweep keeps the loop invariant |
| Visplane.FillPlanes | source/main.c:1310-1378 | floor pixel (c, r), with its ceiling mirror, is painted exactly when minX <= c <= maxX and top[c] <= r <= 63; no pixel is painted twice; every span starts at fresh-setup coordinates |
| Render.OpenScreenPartition | source/main.c:1294-1378 | in one column, each row shows exactly one of ceiling, wall and floor |
| Render.ScreenPartitioned | source/main.c:1294-1378 | the same, for every pixel of the screen |
| Render.PaintScreen | source/main.c:1264-1378 | the wall and plane passes give the slice calls; textured mode partitions the screen among ceiling, wall and floor; solid mode paints no span |
| Render.SightingsOfColumns | source/main.c:1137-1152 | an entity cell is among a frame's sightings exactly when some column's traversal passed it |
| Render.SeenInGrid | source/main.c:1139-1151 | every cell the rays noted is in the grid, so its slot index is valid |
| Render.RenderFrame | source/main.c:1070-1415 | one frame: the slice calls, the screen partition, the registries noted from the rays, the sprite draws of the flagged slots, and every flag cleared |
| Render.HealthDrawn | source/main.c:1381-1397 | a flagged pickup slot's draw is among the sprite pass's draws |
| Render.EnemyDrawn | source/main.c:1399-1415 | a flagged enemy slot's draw is among the sprite pass's draws |
| Sprites.ColumnsAsWritten | source/main.c:270-280 | the column loop as written starts at the clipped left edge and runs `countX + 1` columns, none when off screen |
| Sprites.ColumnsVisited | source/main.c:270-280 | the corrected loop visits the on-screen columns of the sprite, each in 0..119 |
| Sprites.ColumnsAsWrittenOnScreen | source/main.c:270-280 | the loop as written stays on screen, and equals the corrected one, unless the sprite overhangs both edges |
| Sprites.ColumnsAsWrittenOverrun | source/main.c:270-279 | a sprite straight ahead at a depth in 2200256 .. 2236927 is 122 wide and starts at column -1, and the loop as written then reaches column 120 |
| Sprites.Shade | source/main.c:306-310 | a damaged enemy is drawn in colour 0x2A, and a visible texel never becomes the key colour |
| Sprites.ColumnPixels | source/main.c:303-313 | the inner loop writes, top to bottom, exactly the visible rows of column c that are not keyed out |
| Sprites.SpritePixels | source/main.c:299-321 | the outer loop writes exactly the drawn pixels from column c on, column by column |
| Sprites.DrawSprite | source/main.c:255-322 | nothing when off screen; otherwise exactly the pixels inside the clipped rectangle, in front of the zBuffer and not keyed out, in screen order, and only in the columns of the capped loop (ColumnsVisited) |
| Sprites.ScreenX | source/main.c:1390-1391 | the sprite's centre is right of the screen centre exactly when the lateral offset is not negative |
| Sprites.ScaledSign | source/main.c:1390-1391 | scaling the lateral offset keeps its sign and bounds the column offset |
| Sprites.ProjectSprite | source/main.c:1387-1392 | the sprite call has the cell centre's depth, FindHeight of it as size, the centred top row, and lies left or right as the cell does |
| Actors.ClaimedSlotValid | source/main.c:546-551 | an unflagged enemy slot that `Update` claims, storing the raw map value as its type, leaves a valid registry |
| Actors.Note | source/main.c:1137-1152 | an enemy cell flags its enemy slot, a pickup cell its pickup slot, with type and cell; nothing else changes |
| Actors.NoteAll | source/main.c:1137-1152 | noting every passed cell keeps 64 valid slots in each registry: every slot in the grid, and every flagged slot of type 0 or 1, while unflagged enemy slots may hold the 3 or 4 that `Update` stores when it claims them (main.c:551) |
| Actors.NoteAllFlags | source/main.c:1137-1152 | flags stay set, and every passed enemy and pickup has its slot flagged |
| Actors.NoteAllKeepsLast | source/main.c:1137-1152 | cells that agree mod 8 overwrite each other's slot: a slot holds the type and cell of the last passed entity of its kind that maps to it, flagged, damage untouched; a slot no such entity maps to is unchanged |
| Actors.HealthDraw | source/main.c:1393-1394 | a flagged pickup is drawn with frame `frames[4 + type]` and no damage tint |
| Actors.EnemyDraw | source/main.c:1411-1412 | a flagged enemy is drawn with frame `frames[type * 2 + frame]` and its damage |
| Actors.Flagged | source/main.c:1381-1385 | the listed slots are among the first n and are flagged |
| Actors.FlaggedExact | source/main.c:1381-1385 | a slot is listed exactly when flagged, each once, in increasing order |
| Actors.HealthDraws | source/main.c:1381-1397 | one pickup draw per flagged slot, in slot order, each with its type's frame |
| Actors.EnemyDraws | source/main.c:1399-1415 | one enemy draw per flagged slot, in slot order, each with its frame and damage |
| Actors.ClearFlags | source/main.c:1395 | the loop visits the flagged slots in order and clears every flag, changing nothing else |
| Actors.SpritePass | source/main.c:1381-1415 | pickups are drawn before enemies, and afterwards every slot is as before with its flag cleared |
| Pickups.TakePack | source/main.c:476-499 | a pack is taken exactly when health is below 100; taking it empties the cell and raises health by 10 or 25, capped at 100; otherwise nothing changes |
| Pickups.Rise | source/main.c:1032-1035 | a column's blood height is capped at 64 |
| Pickups.Risen | source/main.c:1030-1038 | after a step every column is still within 0..64 |
| Pickups.SumFull | source/main.c:1040 | the covered area is at most 64 per column, and reaches it exactly when every column is at 64 |
| Pickups.BloodStep | source/main.c:1028-1041 | one growth step raises each column by its speed up to 64, and `area == 7680` exactly when the curtain is closed |
| Pickups.BloodTick | source/main.c:1024-1044 | the curtain grows on every fourth call only, and the game moves on exactly when it is closed |
| Pickups.RisenN | source/main.c:1024-1044 | repeated steps keep every column within 0..64 |
| Pickups.RisenNGrows | source/main.c:1504 | with speeds of 2 to 5 (`rand() % 4 + 2`), each column grows at least 2 per step until it reaches 64 |
| Pickups.CurtainCloses | source/main.c:1504 | with those speeds the curtain closes within 32 growth steps from any start |

## Left out

- Screen output is modelled as lists of (column, row, colour) stores. The 16-bit video writes, the doubled rows, page flipping, `yTable`/`xTable` and palette packing are left out, because they only place those stores in memory.
- Input handling, player movement and collision, enemy AI and combat, level loading, the HUD, the hand sprite and the game-state machine are outside the renderer core. The camera is a parameter that the movement code is assumed to keep inside the grid (`World.ValidCamera`).
- The blood speeds come from `rand()` and are a parameter. Only their range 2..5 is used.
- The stale traversal variables (the cell type and door offset a column's traversal leaves behind) are an explicit `Caster.Carry` threaded from column to column. The other per-frame registers are parameters.
- The 120-column loop of `Render` is the recursive `Frame.CastsUpTo`, not a loop method. Its results are passed to `Render.RenderFrame` through the `Render.SoundCasts` precondition.
- The wall pass is reordered. In the source, blanking, slice drawing and marking `plane.top` interleave within each column. Here each column's calls are collected first and the floor outline is built afterwards. Each column's stores are the same.
- Texture and sprite bitmaps are sequences of palette indices. The offsets of the graphics bitmap sections are kept as constants.
- Caster.CastColumn: the texture column is only promised to be 0..63 when the column hits, because after a double miss it can read a stale door offset (see `Caster.BothMissStaleDoor`).
- WallSlice.DrawWallSlice: requires a texture column in 0..63, so the 2-row slice main.c:1280 draws after such a double miss, with texture column 127, is not modelled; neither is `Frame.SolidColumnCoversScreen` for such a column.
- Actors.HealthDraws: relates each draw to its flagged slot's frame and damage, but not to the pixels DrawSprite would then write.
- Actors.EnemyDraws: likewise, relates each draw to its slot's frame and damage only.
- Visplane.Along: the `uint32_t` products `(start + 4) * stepX` wrap mod 2^32. The model states that wrap and proves the register equalities mod 2^32, but it does not convert the wrapped value back into a signed `fixed_t`.
- FixedLaws: sine and cosine identities beyond the quarter- and half-turn laws, such as sin² + cos² ≈ 1, are not stated. They hold only approximately for the rounded tables.
- The floor and ceiling colours are given by `Visplane.PaintSpan` per span. The pixel-level interleaving of floor and ceiling stores is not modelled.

## Findings

| source | as written | input that shows it | evidently intended | confidence | as-written member | corrected member |
|---|---|---|---|---|---|---|
| source/main.c:270-279 | when the sprite is clipped on the left, `countX = spriteSize + spriteX - 1` has no right-edge cap, unlike the other branch | a sprite straight ahead at a depth in 2200256 .. 2236927, about half a cell away: FindHeight gives 122 and spriteX = 60 - 61 = -1, and the column loop runs to column 120 and reads `zBuffer[120]` one past its end | cap the column count at the right edge in both branches, so the loop stays in columns 0..119 | not executed | Sprites.ColumnsAsWritten (shown by Sprites.ColumnsAsWrittenOverrun) | Sprites.DrawSprite, whose stores all lie in Sprites.ColumnsVisited, columns 0..119 |
