/**
 * The neighbourhood generator as a pure function of its configuration.
 *
 * Generation is a sequence of stages (a lot, a park, a corner tree, a block,
 * the nine blocks), each a function from the output accumulated so far, and
 * the number of generator calls made so far, to the same after the stage.
 * The methods in module Orion are proved to compute exactly these functions;
 * the properties of the city are proved about the functions.
 */
module OrionStages {
  import opened Mulberry32
  import opened OrionLayout

  /** What stays fixed during one generation: the grid, the height scale, the building cap and the seed. */
  datatype Plan = Plan(g: Grid, maxHeight: real, cap: int, seed: int)

  /**
   * The output accumulated so far, with the site each element was generated
   * for, and the number of generator calls made so far.
   */
  datatype Gen = Gen(
    buildings: seq<House>, buildingSites: seq<Site>,
    parks: seq<Strip>, parkSites: seq<Site>,
    trees: seq<Tree>, treeSites: seq<Site>,
    draws: nat)

  // ---------------------------------------------------------------------
  // Streets
  // ---------------------------------------------------------------------

  /** The roads of lines 0 .. n - 1, in line order. */
  function StreetRoads(g: Grid, n: nat): (rs: seq<Strip>)
    ensures |rs| == 2 * n
  {
    if n == 0 then [] else StreetRoads(g, n - 1) + RoadsAt(g, n - 1)
  }

  /** The sidewalks of lines 0 .. n - 1, in line order. */
  function StreetSidewalks(g: Grid, n: nat): (ws: seq<Strip>)
    ensures |ws| == 4 * n
  {
    if n == 0 then [] else StreetSidewalks(g, n - 1) + SidewalksAt(g, n - 1)
  }

  /** The lamps of lines 0 .. n - 1: only the even lines get lamps, and each such line one draw, from call `k` on. */
  function StreetLamps(g: Grid, seed: int, k: nat, n: nat): (ls: seq<LightPole>)
    ensures |ls| == 4 * LampLines(n)
  {
    if n == 0 then []
    else if (n - 1) % 2 == 0 then
      StreetLamps(g, seed, k, n - 1) + LampsAt(g, n - 1, LampHeight(Draw(seed, k + LampLines(n - 1))))
    else StreetLamps(g, seed, k, n - 1)
  }

  /** How many of the lines 0 .. n - 1 are even. */
  function LampLines(n: nat): nat
  {
    (n + 1) / 2
  }

  // ---------------------------------------------------------------------
  // Lots
  // ---------------------------------------------------------------------

  /** How many of `k` further requests are granted when `n` buildings exist and at most `cap` may. */
  function Added(n: int, cap: int, k: nat): (a: nat)
    ensures a <= k
    ensures n < cap ==> n + a <= cap
    ensures n < cap && a < k ==> n + a == cap
    ensures n >= cap ==> a == 0
  {
    if n >= cap then 0 else IntMin(k, cap - n)
  }

  /** The lot drawn in block (bx, bz) when the generator is at call `k`. */
  function LotAt(p: Plan, bx: int, bz: int, k: nat): (l: Lot)
    requires WellFormed(p.g)
    ensures LotOk(p.g, bx, bz, l)
  {
    LotOf(p.g, bx, bz, Draws(p.seed, k, LotDraws(bx, bz)))
  }

  /** The building on side `side` of lot `lot`, drawn from call `k` on. */
  function SideHouse(p: Plan, bx: int, bz: int, lot: int, l: Lot, side: int, k: nat): House
  {
    MakeHouse(p.maxHeight, SideX(p.g, bx, lot, l, side), SideZ(p.g, bz, lot, l, side),
              l.width, l.depth, SideTurns(side), l.commercial, Draws(p.seed, k, HouseDraws(l.commercial)))
  }

  /**
   * The first `n` buildings of lot `lot`, in side order, when the generator
   * is at call `k` after the lot's own draws.
   */
  function LotHouses(p: Plan, bx: int, bz: int, lot: int, l: Lot, k: nat, n: nat): (hs: seq<House>)
    ensures |hs| == n
  {
    if n == 0 then []
    else LotHouses(p, bx, bz, lot, l, k, n - 1) + [SideHouse(p, bx, bz, lot, l, n - 1, k + KindDraws(n - 1, l.commercial))]
  }

  /** The sites of the first `n` sides of lot `lot` of block (bx, bz). */
  function LotSites(bx: int, bz: int, lot: int, n: nat): (ss: seq<Site>)
    ensures |ss| == n
  {
    if n == 0 then [] else LotSites(bx, bz, lot, n - 1) + [Site(bx, bz, lot, n - 1)]
  }

  /** One pass of the lot loop: the lot's draws, then the four `addBuilding` calls. */
  function LotStage(p: Plan, bx: int, bz: int, lot: int, st: Gen): (st': Gen)
    requires WellFormed(p.g)
    ensures st'.parks == st.parks && st'.parkSites == st.parkSites
    ensures st'.trees == st.trees && st'.treeSites == st.treeSites
  {
    DeferredLot(p, bx, bz, lot, st, 1)
  }

  /**
   * `DeferredLot(p, bx, bz, lot, st, 0)` is the lot pass; each further level
   * only defers it, so that reasoning about the lot loop sees `LotStage`
   * folded unless a proof asks for what one lot does.
   * The recursion on `levels` is a folding device, not an induction: it computes nothing beyond level 0.
   */
  function DeferredLot(p: Plan, bx: int, bz: int, lot: int, st: Gen, levels: nat): (st': Gen)
    requires WellFormed(p.g)
    ensures st'.parks == st.parks && st'.parkSites == st.parkSites
    ensures st'.trees == st.trees && st'.treeSites == st.treeSites
  {
    if levels > 0 then DeferredLot(p, bx, bz, lot, st, levels - 1)
    else
      var l := LotAt(p, bx, bz, st.draws);
      var k := st.draws + LotDraws(bx, bz);
      var n := Added(|st.buildings|, p.cap, 4);
      st.(buildings := st.buildings + LotHouses(p, bx, bz, lot, l, k, n),
          buildingSites := st.buildingSites + LotSites(bx, bz, lot, n),
          draws := k + KindDraws(n, l.commercial))
  }

  /** Lots 0 .. n - 1 of block (bx, bz). */
  function LotsStage(p: Plan, bx: int, bz: int, n: nat, st: Gen): (st': Gen)
    requires WellFormed(p.g)
    ensures st'.parks == st.parks && st'.parkSites == st.parkSites
    ensures st'.trees == st.trees && st'.treeSites == st.treeSites
  {
    if n == 0 then st else LotStage(p, bx, bz, n - 1, LotsStage(p, bx, bz, n - 1, st))
  }

  // ---------------------------------------------------------------------
  // Parks, trees, blocks
  // ---------------------------------------------------------------------

  /** The park draw of block (bx, bz) and, when it exceeds 0.4, the size draw and the park. */
  function ParkStage(p: Plan, bx: int, bz: int, st: Gen): (st': Gen)
    requires WellFormed(p.g)
    ensures st'.buildings == st.buildings && st'.buildingSites == st.buildingSites
    ensures st'.trees == st.trees && st'.treeSites == st.treeSites
  {
    if Draw(p.seed, st.draws) > 0.4 then
      st.(parks := st.parks + [ParkOf(p.g, bx, bz, Draw(p.seed, st.draws + 1))],
          parkSites := st.parkSites + [Site(bx, bz, 0, 0)],
          draws := st.draws + 2)
    else st.(draws := st.draws + 1)
  }

  /** The draw for corner `corner` of block (bx, bz) and, when it exceeds 0.5, the four draws of its tree. */
  function TreeStage(p: Plan, bx: int, bz: int, corner: int, st: Gen): (st': Gen)
    requires InGrid(bx, bz) && 0 <= corner < 4
    ensures st'.buildings == st.buildings && st'.buildingSites == st.buildingSites
    ensures st'.parks == st.parks && st'.parkSites == st.parkSites
  {
    if Draw(p.seed, st.draws) > 0.5 then
      st.(trees := st.trees + [MakeTree(p.g, bx, bz, corner, Draws(p.seed, st.draws + 1, 4))],
          treeSites := st.treeSites + [Site(bx, bz, corner, 0)],
          draws := st.draws + 5)
    else st.(draws := st.draws + 1)
  }

  /** Corners 0 .. n - 1 of block (bx, bz). */
  function TreesStage(p: Plan, bx: int, bz: int, n: nat, st: Gen): (st': Gen)
    requires InGrid(bx, bz) && n <= 4
    ensures st'.buildings == st.buildings && st'.buildingSites == st.buildingSites
    ensures st'.parks == st.parks && st'.parkSites == st.parkSites
  {
    if n == 0 then st else TreeStage(p, bx, bz, n - 1, TreesStage(p, bx, bz, n - 1, st))
  }

  /** One block: park, lots, corner trees. */
  function BlockStage(p: Plan, bx: int, bz: int, st: Gen): Gen
    requires WellFormed(p.g) && InGrid(bx, bz)
  {
    DeferredBlock(p, bx, bz, st, 1)
  }

  /**
   * `DeferredBlock(p, bx, bz, st, 0)` runs the park, the lots and the trees
   * of the block; each further level only defers that. Reasoning about the
   * sequence of blocks sees `BlockStage` one level up, so the contents of a
   * block stay folded unless a proof asks for them.
   * The recursion on `levels` is a folding device, not an induction: it computes nothing beyond level 0.
   */
  function DeferredBlock(p: Plan, bx: int, bz: int, st: Gen, levels: nat): Gen
    requires WellFormed(p.g) && InGrid(bx, bz)
  {
    if levels == 0 then TreesStage(p, bx, bz, 4, LotsStage(p, bx, bz, p.g.lots, ParkStage(p, bx, bz, st)))
    else DeferredBlock(p, bx, bz, st, levels - 1)
  }

  /** Block number `b` in generation order, bx outer and bz inner. */
  function BlockX(b: nat): int { b / BlockCount }
  function BlockZ(b: nat): int { b % BlockCount }

  /** Blocks 0 .. n - 1 in generation order. */
  function BlocksStage(p: Plan, n: nat, st: Gen): Gen
    requires WellFormed(p.g) && n <= BlockCount * BlockCount
  {
    if n == 0 then st else BlockStage(p, BlockX(n - 1), BlockZ(n - 1), BlocksStage(p, n - 1, st))
  }

  // ---------------------------------------------------------------------
  // The whole city
  // ---------------------------------------------------------------------

  /** The user-facing configuration (`CityConfig`). */
  datatype CityConfig = CityConfig(count: int, spread: real, maxHeight: real, seed: int)

  /** The cap `max(12, count)` and the grid derived from `spread`. */
  function PlanOf(c: CityConfig): (p: Plan)
    ensures WellFormed(p.g) && p.g == GridFor(c.spread)
    ensures p.cap == IntMax(12, c.count) && p.cap >= 12 && p.cap >= c.count
    ensures p.maxHeight == c.maxHeight && p.seed == c.seed
  {
    Plan(GridFor(c.spread), c.maxHeight, IntMax(12, c.count), c.seed)
  }

  /** Everything after the nine blocks; the street loop has made its two calls before them. */
  function CityStage(c: CityConfig): Gen
  {
    BlocksStage(PlanOf(c), BlockCount * BlockCount, Gen([], [], [], [], [], [], 2))
  }

  /** The six lists the `useMemo` callback of `Neighborhood` returns. */
  function CityOf(c: CityConfig): Neighborhood
  {
    var p := PlanOf(c);
    var st := CityStage(c);
    Neighborhood(st.buildings, StreetRoads(p.g, BlockCount + 1), StreetSidewalks(p.g, BlockCount + 1),
                 st.trees, StreetLamps(p.g, c.seed, 0, BlockCount + 1), st.parks)
  }
}
