# Orion neighbourhood generator and galaxy starfield, in Dafny

This project models the procedural parts of the portfolio site's 3D scenes.

- **The Orion neighbourhood** (`components/deep-dives/OrionDeepDive.tsx`). From a `CityConfig` (count, spread, maxHeight, seed), the `useMemo` callback of the `Neighborhood` component builds a 3 × 3 grid of blocks. Its output is:
  - four grid lines `i = 0..3`, each giving a road along x and one along z, a sidewalk on each side of each road and, on lines 0 and 2, four lamps (8 roads, 16 sidewalks, 8 lamps in all);
  - per block, an optional park;
  - per lot of each block, four buildings (one per side), up to the building cap `max(12, count)`;
  - per block corner, an optional tree.

  Every random choice comes from one seeded generator, `createRng`, a mulberry32 variant.
- **`regenerate`** bumps the seed by one.
- **The galaxy background** (`components/Scene.tsx`). Each `GalaxyLayer` seeds its own `createRng`. It then fills a position buffer and a colour buffer, three numbers per particle, using three generator calls per particle.

The files:

| file | module | role |
|---|---|---|
| `rng.dfy` | `Mulberry32` | The generator, shared by both scenes. It has a state function, a 32-bit mixing function, and the `Rng` class with its one mutable field `t`. |
| `layout.dfy` | `OrionLayout` | The record types and the grid. One lot and one building as functions of their draws. The shape predicates every part satisfies. |
| `stages.dfy` | `OrionStages` | Generation as a pure function. Each stage (a lot, a park, a corner tree, a block, the nine blocks) maps the output so far and the number of draws so far to the same after the stage. |
| `generator.dfy` | `Orion` | The generator as imperative code along the source's own closures and loops. Each method is proved to compute exactly its stage function. |
| `properties.dfy` | `OrionProperties` | What the generated neighbourhood satisfies: counts, draw accounting, shapes, placement and order, `regenerate`, the slider ranges. |
| `galaxy.dfy` | `Starfield` | The particle-buffer fill of `GalaxyLayer`, with its indexing, draw accounting and ranges. |

The methods in `Orion` follow the source's control flow:
- `Generate` runs the street loop, then the `bx`/`bz` block loops.
- `PlaceBlock` runs the park, the lot loop and the corner loop.
- `PlaceLot` runs the lot's draws and the four `addBuilding` calls.

Each method takes the generator object and advances it call by call. Its postcondition equates the new state with a stage function of the old state. Each method also carries ghost "sites" (block, lot or corner, side), which let block-based properties such as "the core block is commercial" be stated.

Several functions are written as `F(x) = DeferredF(x, 1)`, where `DeferredF(x, 0)` is the real body and each further level only defers it: `Draw`, `LotStage`, `BlockStage`, `BuildingsOk`, `MakeHouse`, `LotOf` and `Shape`. This changes no value. It keeps the arithmetic of one part out of the proofs about the whole, which see such a function through its contract. A proof that needs the body asserts `F(x) == DeferredF(x, 0)`.

Two consequences of the code's arithmetic are worth knowing:
- **Grid span.** The streets and blocks cover `max(18, spread)` exactly only when it is at least 27.6, because the block size is floored at 6 (`components/deep-dives/OrionDeepDive.tsx:92`). Below that they overrun it. With spread 18 the street lines fall at -7.8, 0.6, 9 and 17.4, and the last road lies beyond `+9`. This is stated by:
  - `OrionLayout.GridFor`, as an if-and-only-if;
  - `OrionLayout.WideGridIsCentred`, for spans of at least 27.6;
  - `OrionLayout.DefaultGridOverflows`, for spread 18.
- **Sidewalks.** Each line carries four sidewalks, one on each side of each of its two roads (lines 108-111).

## Model

| member | source | states |
|---|---|---|
| Mulberry32.Seeded | components/deep-dives/OrionDeepDive.tsx:16-18 | Definition: the state after the first `t \|= 0` is `seed + 0x6d2b79f5` reduced modulo 2^32. |
| Mulberry32.StateAfter | components/deep-dives/OrionDeepDive.tsx:16-19 | Definition: each call adds `0x6d2b79f5` to the state with 32-bit wrap-around. |
| Mulberry32.Mix | components/deep-dives/OrionDeepDive.tsx:20-22 | Definition: the xor, logical-shift and `Math.imul` mixing, on 32-bit words. |
| Mulberry32.SeedsAgreeModulo | components/deep-dives/OrionDeepDive.tsx:16-18 | Seeds that agree modulo 2^32 give the same state and the same value at every call. |
| Mulberry32.Output | components/deep-dives/OrionDeepDive.tsx:20-22 | The mixed word read unsigned and divided by 2^32 lies in [0, 1). |
| Mulberry32.Draw | components/deep-dives/OrionDeepDive.tsx:17-23 | The value of call `k` lies in [0, 1). |
| Mulberry32.Draws | components/deep-dives/OrionDeepDive.tsx:17-23 | `n` consecutive calls give `n` values, all in [0, 1). |
| Mulberry32.DrawsIndex | components/deep-dives/OrionDeepDive.tsx:17-23 | Element `i` of the values of calls `k..k+n-1` is the value of call `k + i`, in call order. |
| Mulberry32.DrawsOfList | components/deep-dives/OrionDeepDive.tsx:17-23 | Any list holding the values of calls `k`, `k+1`, … in order equals `Draws(seed, k, n)`. |
| Mulberry32.StateClosedForm | components/deep-dives/OrionDeepDive.tsx:16-19 | After `k` calls the state is `seed + (k + 1) * 0x6d2b79f5` modulo 2^32. |
| Mulberry32.NextSeedShiftsStream | components/deep-dives/OrionDeepDive.tsx:16-19 | Seeds `s` and `s + 1` give states that differ by exactly one (mod 2^32) at every call, so they never coincide. |
| Mulberry32.Rng.constructor | components/Scene.tsx:6-15 | `createRng(seed)` starts a generator that has made no calls, whose state is the seeded state. This copy of `createRng` has the same text as the one at `components/deep-dives/OrionDeepDive.tsx:15-24`, and one class models both. |
| Mulberry32.Rng.Next | components/deep-dives/OrionDeepDive.tsx:17-23 | One call advances the state by one step, returns exactly `Draw(seed, k)` for the call number `k`, and the value is in [0, 1). |
| OrionLayout.GridFor | components/deep-dives/OrionDeepDive.tsx:91-94 | The grid is well formed. The span is `max(18, spread)`. Blocks and streets cover at least the span, and tile it exactly if and only if the span is at least 27.6. |
| OrionLayout.GridLine | components/deep-dives/OrionDeepDive.tsx:104 | Definition: the centre `pos` of grid line `i`, `roadStart + i * (blockSize + streetWidth)`. |
| OrionLayout.BlockCentre | components/deep-dives/OrionDeepDive.tsx:127-128 | Definition: the centre `centerX` or `centerZ` of block `b`, `blockStart + b * (blockSize + streetWidth)`. |
| OrionLayout.BlockMin | components/deep-dives/OrionDeepDive.tsx:129-132 | Definition: the block's low edge, `blockMinX` or `blockMinZ`, half a block below its centre. |
| OrionLayout.BlockMax | components/deep-dives/OrionDeepDive.tsx:129-132 | Definition: the block's high edge, `blockMaxX` or `blockMaxZ`, half a block above its centre. |
| OrionLayout.IsCore | components/deep-dives/OrionDeepDive.tsx:133 | Definition: the core block is `bx = 1` and `bz = 1`. |
| OrionLayout.OnMainStreet | components/deep-dives/OrionDeepDive.tsx:180 | Definition: a block is on a main street when `bx = 1` or `bz = 1`. |
| OrionLayout.LotCentre | components/deep-dives/OrionDeepDive.tsx:173-192 | Definition: the centre of lot `i` along a block edge, `blockMin + (i + 0.5) * lotSpan`, the first argument of the first two `addBuilding` calls. |
| OrionLayout.BlockBetweenRoads | components/deep-dives/OrionDeepDive.tsx:127-132 | Block `b` spans exactly from the inner edge of road line `b` to the inner edge of road line `b + 1`. |
| OrionLayout.WideGridIsCentred | components/deep-dives/OrionDeepDive.tsx:91-94 | When the span is at least 27.6, the outer road edges sit exactly at `±span/2`. |
| OrionLayout.DefaultGridOverflows | components/deep-dives/OrionDeepDive.tsx:91-94 | For spread 18: block size 6, two lots, street lines at -7.8, 0.6, 9, 17.4, and the last road lies beyond `+span/2`. |
| OrionLayout.LotCentreInBlock | components/deep-dives/OrionDeepDive.tsx:172-173 | Each lot centre `(i + 0.5) * lotSpan` from the block edge lies strictly inside the block. |
| OrionLayout.LotOf | components/deep-dives/OrionDeepDive.tsx:172-181 | A lot has setback in [0.6, 0.9) and width and depth within their limits. The core block is commercial and blocks off the main streets are residential. On the other main-street blocks, a lot is commercial exactly when its fourth draw exceeds 0.6. |
| OrionLayout.LotFromDraws | components/deep-dives/OrionDeepDive.tsx:174-181 | The same, for the lot computed from its draws in call order: setback, width, depth, then the commercial draw on main-street blocks outside the core. |
| OrionLayout.WindowCount | components/deep-dives/OrionDeepDive.tsx:152-153 | Window rows and columns lie in 2..5, equal the floor of the extent between 2 and 6, and are clamped below 3 and from 5 up. |
| OrionLayout.HouseHeight | components/deep-dives/OrionDeepDive.tsx:145-146 | Height is at least 1.6. When `maxHeight >= 4`, commercial heights lie in [0.7, 1.3) × maxHeight and residential heights in [0.4, 1) × maxHeight. |
| OrionLayout.MakeHouse | components/deep-dives/OrionDeepDive.tsx:143-170 | A building keeps the position, size, rotation and kind it was asked for. Heights and roof heights are bounded as above. Windows lie in 2..5. Commercial roofs are flat, and a residential roof is gable exactly when its roof draw exceeds 0.2. Colours lie in their HSL ranges. |
| OrionLayout.HouseOf | components/deep-dives/OrionDeepDive.tsx:145-153 | The same, for the building computed from its draws in call order. |
| OrionLayout.HouseDrawTotalConcat | components/deep-dives/OrionDeepDive.tsx:145-151 | The draws used by two runs of buildings add up: 6 per residential building, 5 per commercial one. |
| OrionLayout.ParkOf | components/deep-dives/OrionDeepDive.tsx:135-137 | A park is centred on its block, is square, and is 28% to 46% of the block size wide. |
| OrionLayout.MakeTree | components/deep-dives/OrionDeepDive.tsx:219-226 | A tree lies within 0.2 of its corner point on each axis, with height in [0.6, 1.3) and canopy in [0.5, 1.1). |
| OrionLayout.SideX | components/deep-dives/OrionDeepDive.tsx:183-214 | Definition: the x coordinate of the four `addBuilding` calls of a lot. |
| OrionLayout.SideZ | components/deep-dives/OrionDeepDive.tsx:183-214 | Definition: the z coordinate of the four `addBuilding` calls of a lot. |
| OrionLayout.SideTurns | components/deep-dives/OrionDeepDive.tsx:188-212 | Definition: the rotations 0, π, -π/2 and π/2 of the four calls, as quarter turns. |
| OrionLayout.CornerX | components/deep-dives/OrionDeepDive.tsx:219 | Definition: the corner point's x, 0.8 sidewalk widths inside the block. |
| OrionLayout.CornerZ | components/deep-dives/OrionDeepDive.tsx:220 | Definition: the corner point's z, 0.8 sidewalk widths inside the block. |
| OrionLayout.RoadsAt | components/deep-dives/OrionDeepDive.tsx:104-106 | Definition: the two full-span roads of one line. |
| OrionLayout.SidewalksAt | components/deep-dives/OrionDeepDive.tsx:108-111 | Definition: the four sidewalks of one line. |
| OrionLayout.LampsAt | components/deep-dives/OrionDeepDive.tsx:115-118 | Definition: the four lamps of one line, sharing one height. |
| OrionLayout.WidthLimit | components/deep-dives/OrionDeepDive.tsx:176 | Definition: `max(1.2, lotSpan - 0.6)`. |
| OrionLayout.DepthLimit | components/deep-dives/OrionDeepDive.tsx:177 | Definition: `max(1.2, blockSize / 2 - setback - 0.7)`. |
| OrionLayout.LotDraws | components/deep-dives/OrionDeepDive.tsx:174-181 | Definition: a lot makes 4 calls on a main-street block outside the core and 3 elsewhere. |
| OrionLayout.HouseDraws | components/deep-dives/OrionDeepDive.tsx:146-151 | Definition: a building makes 5 calls if commercial and 6 if residential. |
| OrionLayout.LampHeight | components/deep-dives/OrionDeepDive.tsx:114 | A lamp height lies in [1.1, 1.7). |
| OrionStages.StreetRoads | components/deep-dives/OrionDeepDive.tsx:103-106 | `n` street lines give `2n` roads. |
| OrionStages.StreetSidewalks | components/deep-dives/OrionDeepDive.tsx:108-111 | `n` street lines give `4n` sidewalks. |
| OrionStages.StreetLamps | components/deep-dives/OrionDeepDive.tsx:113-119 | Lines `0..n-1` give four lamps per even line. |
| OrionStages.Added | components/deep-dives/OrionDeepDive.tsx:143-144 | Of `k` further `addBuilding` calls, at most `k` add a building. The count never passes the cap, and it reaches the cap whenever a call is refused. |
| OrionStages.LotAt | components/deep-dives/OrionDeepDive.tsx:174-181 | The lot drawn at call `k` satisfies the lot bounds. |
| OrionStages.SideHouse | components/deep-dives/OrionDeepDive.tsx:143-214 | Definition: the building that the `addBuilding` call for one side of a lot pushes, made by `MakeHouse` from that side's position and rotation, the lot's size and kind, and the next 5 or 6 calls. |
| OrionStages.LotHouses | components/deep-dives/OrionDeepDive.tsx:183-214 | The first `n` sides of a lot give `n` buildings. |
| OrionStages.LotSites | components/deep-dives/OrionDeepDive.tsx:183-214 | The first `n` sides of a lot give `n` sites. |
| OrionStages.LotStage | components/deep-dives/OrionDeepDive.tsx:172-215 | One pass of the lot loop leaves the parks and trees as they were. |
| OrionStages.LotsStage | components/deep-dives/OrionDeepDive.tsx:172-215 | The lot loop leaves the parks and trees as they were. |
| OrionStages.ParkStage | components/deep-dives/OrionDeepDive.tsx:135-138 | The park step leaves the buildings and trees as they were. |
| OrionStages.TreeStage | components/deep-dives/OrionDeepDive.tsx:218-227 | A corner step leaves the buildings and parks as they were. |
| OrionStages.TreesStage | components/deep-dives/OrionDeepDive.tsx:217-228 | The corner loop leaves the buildings and parks as they were. |
| OrionStages.PlanOf | components/deep-dives/OrionDeepDive.tsx:91-123 | The grid is the well-formed `GridFor(spread)`, the building cap is `max(12, count)`, and the height scale and seed are the configuration's. |
| OrionStages.BlockStage | components/deep-dives/OrionDeepDive.tsx:127-228 | Definition: the park step, the lot loop and the corner loop of one block, in that order. |
| OrionStages.BlocksStage | components/deep-dives/OrionDeepDive.tsx:125-230 | Definition: the blocks in order, `bx` outer and `bz` inner. |
| OrionStages.CityStage | components/deep-dives/OrionDeepDive.tsx:86-230 | Definition: the nine blocks, starting after the two lamp calls of the street loop. |
| OrionStages.CityOf | components/deep-dives/OrionDeepDive.tsx:86-233 | Definition: the six lists the callback returns. |
| Orion.LayStreets | components/deep-dives/OrionDeepDive.tsx:103-120 | The street loop makes one call per even line and produces exactly the roads, sidewalks and lamps of the four lines. |
| Orion.AddBuilding | components/deep-dives/OrionDeepDive.tsx:143-170 | At the cap the call returns without drawing. Otherwise it makes 5 (commercial) or 6 (residential) calls and appends exactly the building those draws produce. |
| Orion.DrawLot | components/deep-dives/OrionDeepDive.tsx:174-181 | The lot's calls, 3 or 4 of them, produce exactly `LotAt` of the call number. |
| Orion.PlaceLot | components/deep-dives/OrionDeepDive.tsx:172-215 | The output and call count after one lot are exactly `LotStage` of those before it. |
| Orion.SideStep | components/deep-dives/OrionDeepDive.tsx:183-214 | One `addBuilding` call of the lot extends the lot's buildings, sites and call count by one side. |
| Orion.PlacePark | components/deep-dives/OrionDeepDive.tsx:135-138 | The park step is exactly `ParkStage`. |
| Orion.PlantTree | components/deep-dives/OrionDeepDive.tsx:218-227 | A corner step is exactly `TreeStage`. |
| Orion.PlaceBlock | components/deep-dives/OrionDeepDive.tsx:127-228 | One block is exactly `BlockStage`. |
| Orion.Generate | components/deep-dives/OrionDeepDive.tsx:86-233 | The `useMemo` callback of `Neighborhood` returns exactly `CityOf(config)`, the pure model of the whole city. |
| OrionProperties.Regenerate | components/deep-dives/OrionDeepDive.tsx:478-480 | `regenerate` keeps count, spread and maxHeight, and bumps the seed by one. |
| OrionProperties.DefaultCity | components/deep-dives/OrionDeepDive.tsx:471-476 | The page's starting configuration (64 buildings, spread 18, maxHeight 8, seed 1) gives two lots per block edge and a city of exactly 64 buildings. |
| OrionProperties.RegenerateChangesEveryState | components/deep-dives/OrionDeepDive.tsx:478-480 | After `regenerate`, the generator's state at every call number differs from before, and is exactly one more modulo 2^32. |
| OrionProperties.StreetRoadsIndex | components/deep-dives/OrionDeepDive.tsx:103-106 | Road `2i + k` is road `k` of line `i`. |
| OrionProperties.StreetSidewalksIndex | components/deep-dives/OrionDeepDive.tsx:108-111 | Sidewalk `4i + k` is sidewalk `k` of line `i`. |
| OrionProperties.StreetGridLayout | components/deep-dives/OrionDeepDive.tsx:103-111 | There are 8 roads and 16 sidewalks. Line `i` sits at `-span/2 + 1.2 + i(blockSize + 2.4)`, with a full-span road along each axis. Each sidewalk touches a long edge of its road. |
| OrionProperties.StreetLampsLayout | components/deep-dives/OrionDeepDive.tsx:113-119 | Exactly 8 lamps, on lines 0 and 2, from two consecutive calls. The four lamps of a line share one height, and every height lies in [1.1, 1.7). |
| OrionProperties.SideHouseAt | components/deep-dives/OrionDeepDive.tsx:183-214 | The building on each side of a lot faces that side and sits at the lot's offset. It has the lot's width, depth and kind and satisfies every building bound. |
| OrionProperties.LotHousesShareLot | components/deep-dives/OrionDeepDive.tsx:172-214 | All buildings of one lot share its width, depth and commercial flag. |
| OrionProperties.LotHousesDraws | components/deep-dives/OrionDeepDive.tsx:183-214 | The buildings of one lot use 5 or 6 calls each. |
| OrionProperties.LotSitesIndex | components/deep-dives/OrionDeepDive.tsx:183-214 | The buildings of a lot come in side order 0, 1, 2, 3. |
| OrionProperties.BuildingsOkLot | components/deep-dives/OrionDeepDive.tsx:172-214 | Appending the buildings of one lot keeps every building valid, keeps the order by (block, lot, side), and keeps the buildings of a lot alike. |
| OrionProperties.LotStageOk | components/deep-dives/OrionDeepDive.tsx:172-215 | One lot pass preserves the building invariant. |
| OrionProperties.LotsStageOk | components/deep-dives/OrionDeepDive.tsx:172-215 | The lot loop preserves the building invariant. |
| OrionProperties.ParkStageOk | components/deep-dives/OrionDeepDive.tsx:135-138 | The park step preserves "at most one centred park per block, in block order". |
| OrionProperties.TreeStageOk | components/deep-dives/OrionDeepDive.tsx:218-227 | A corner step preserves "at most one tree per corner, near it, in order". |
| OrionProperties.TreesStageOk | components/deep-dives/OrionDeepDive.tsx:217-228 | The corner loop preserves the tree invariant. |
| OrionProperties.BlockStageOk | components/deep-dives/OrionDeepDive.tsx:127-228 | One block preserves all three invariants. |
| OrionProperties.BlocksStageOk | components/deep-dives/OrionDeepDive.tsx:125-230 | The block loops preserve all three invariants. |
| OrionProperties.CityPlaced | components/deep-dives/OrionDeepDive.tsx:86-233 | Every generated city satisfies the building, park and tree invariants. |
| OrionProperties.CityBuilding | components/deep-dives/OrionDeepDive.tsx:143-214 | Every building of every city has height ≥ 1.6, roof ≥ 0.35 and 2..5 window rows and columns. Commercial buildings have flat roofs. The core is commercial and blocks off the main streets are residential. Width and depth lie within their limits, and the building faces its side. |
| OrionProperties.LotsStageCount | components/deep-dives/OrionDeepDive.tsx:143-144 | After `n` lots the building count is `min(cap, before + 4n)`. |
| OrionProperties.TreesStageCount | components/deep-dives/OrionDeepDive.tsx:217-228 | The corner loop adds at most one tree per corner. |
| OrionProperties.BlockStageCount | components/deep-dives/OrionDeepDive.tsx:127-228 | One block adds `min(cap - before, 4 * lots)` buildings, at most one park and at most four trees. |
| OrionProperties.BlocksStageCount | components/deep-dives/OrionDeepDive.tsx:125-230 | The block loops add buildings up to the cap, 4 per lot, at most one park per block and at most four trees per block. |
| OrionProperties.CityCounts | components/deep-dives/OrionDeepDive.tsx:123-144 | A city has exactly `min(max(12, count), 36 * lots)` buildings, never more than the cap, at most 9 parks and at most 36 trees. |
| OrionProperties.SliderCities | components/deep-dives/OrionDeepDive.tsx:504-540 | For every slider setting the blocks have two lots, and a city has exactly `min(count, 72)` buildings. |
| OrionProperties.LotStageDraws | components/deep-dives/OrionDeepDive.tsx:172-215 | A lot uses its 3 or 4 own calls plus the calls of its buildings. |
| OrionProperties.LotsStageDraws | components/deep-dives/OrionDeepDive.tsx:172-215 | The lot loop uses `n` times the lot's own calls plus the calls of its buildings. |
| OrionProperties.TreesStageDraws | components/deep-dives/OrionDeepDive.tsx:217-228 | The corner loop uses one call per corner plus four per tree. |
| OrionProperties.BlockStageDraws | components/deep-dives/OrionDeepDive.tsx:127-228 | A block uses 5 calls plus one per park, plus the lots' own calls, plus the calls of buildings and trees. |
| OrionProperties.BlocksStageDraws | components/deep-dives/OrionDeepDive.tsx:125-230 | The same, summed over the blocks. |
| OrionProperties.CityDraws | components/deep-dives/OrionDeepDive.tsx:86-233 | A city uses exactly `47 + 31 * lots + parks + 5 or 6 per building + 4 per tree` calls. |
| Starfield.Shape | components/Scene.tsx:49-56 | Definition: radius `sqrt(u0) * radius`, angle `u1 * 2π + r / 4`, position `(cos(angle) r, (u2 - 1/2) depth, sin(angle) r)`, and colour `lerp(a, b, min(1, r / radius))`. |
| Starfield.ParticleAt | components/Scene.tsx:48-56 | Definition: particle `i` is `Shape` of calls `3i`, `3i + 1` and `3i + 2`. |
| Starfield.SceneLayers | components/Scene.tsx:144-146 | Definition: the three layers' counts 1600, 800 and 500, radii 12, 6 and 18, depths 6, 3 and 10, and seeds 42, 1337 and 7. |
| Starfield.Positions | components/Scene.tsx:43-57 | The position buffer of `n` particles holds `3n` numbers. |
| Starfield.Colours | components/Scene.tsx:44-57 | The colour buffer of `n` particles holds `3n` numbers. |
| Starfield.FillLayer | components/Scene.tsx:41-59 | The fill allocates two fresh buffers of `3 * count` numbers. Slot `3i + j` holds component `j` of particle `i`, which is built from generator calls `3i`, `3i + 1` and `3i + 2` of the layer's seed, so the same layer always gives the same buffers. |
| Starfield.NextParticle | components/Scene.tsx:49-53 | One particle takes three calls, in order radius, angle, height. |
| Starfield.Put | components/Scene.tsx:54 | `set([v0, v1, v2], 3i)` writes slots `3i..3i+2` and keeps every other slot. |
| Starfield.BufferSlots | components/Scene.tsx:48-57 | Slot `j` of either buffer belongs to particle `j / 3`, component `j % 3`. |
| Starfield.ParticleRanges | components/Scene.tsx:49-55 | Suppose the radius and depth are positive and the square root maps [0, 1) into [0, 1). Then every particle lies strictly inside the disc of that radius, and its blend factor `min(1, r / radius)` is never clamped and lies in [0, 1). Its height lies in `[-depth/2, depth/2)`. |
| Starfield.ParticleOnCircle | components/Scene.tsx:50-52 | With a cosine and sine on the unit circle, a particle's distance from the axis is `r`. |
| Starfield.SceneLayersOutOfStep | components/Scene.tsx:144-146 | There are three layers, with seeds 42, 1337 and 7. At every call number their generators are in three different states. |

## Left out

- Rendering is not modelled: React, the three.js meshes and materials, the animation in `useFrame`, WebGL context-loss handling, and the UI overlay apart from the slider ranges.
- Numbers are mathematical reals. The rounding of doubles and the storage of particles as 32-bit floats are not captured.
- The generator's seed is an integer. A fractional or non-finite seed is not modelled.
- `CityConfig.count` is an integer. The page only ever sets it to whole numbers (the starting 64 and a slider in steps of 8), so a fractional count is not modelled.
- `getStyle()` colour strings are kept as the HSL triples they are made from; the CSS string formatting is not modelled.
- A building's `rotationY` is kept as a number of quarter turns (0, 2, -1, 1 for 0, π, -π/2, π/2). Its `position` is kept as `x` and `z`, since the height coordinate is always 0.
- The four `addBuilding` calls of a lot are written in `Orion.PlaceLot` as a loop over sides 0 to 3. `SideX`, `SideZ` and `SideTurns` give the same arguments, in the same order.
- Buildings of neighbouring lots may overlap. No non-overlap property is claimed, and the grid's span bound holds only for spans of at least 27.6 (see above).
- `Math.sqrt`, `Math.cos`, `Math.sin`, `Math.PI` and `THREE.Color.lerp` belong to the runtime and the rendering library. They are parameters of the galaxy model (`Starfield.Maths`), and the lemmas that need something of them state it as a hypothesis.
- `THREE.Color` parsing of `colorA` and `colorB` is not modelled. The two colours are given as channel triples.
- Starfield.FillLayer: requires a non-zero radius. With radius 0 the source divides 0 by 0 and colours every particle with NaN.
- Starfield.FillLayer: the particle count is a natural number. A negative count makes `new Float32Array` throw in the source, and is not modelled.
- React state (`setConfig`) is not modelled. `regenerate` is a function from the old configuration to the new one.
