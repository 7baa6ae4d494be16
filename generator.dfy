/**
 * The body of the `useMemo` callback in `Neighborhood`: lays
 * the street grid, then walks the 3 x 3 blocks (bx outer, bz inner) placing
 * an optional park, the lots with up to four buildings each, and up to four
 * corner trees, all driven by one seeded generator. Each stage is a method
 * over the generator object and the lists it appends to, proved to compute
 * the matching stage function of module OrionStages. The sites passed along
 * with the lists exist only for the specification.
 */
module Orion {
  import opened Mulberry32
  import opened OrionLayout
  import opened OrionStages

  /**
   * The street loop: two roads and four sidewalks per line, and four lamps
   * on the even lines 0 and 2, each group sharing one drawn height.
   */
  method LayStreets(rng: Rng, g: Grid) returns (roads: seq<Strip>, sidewalks: seq<Strip>, lamps: seq<LightPole>)
    requires rng.Valid()
    modifies rng
    ensures rng.Valid() && rng.draws == old(rng.draws) + LampLines(BlockCount + 1)
    ensures roads == StreetRoads(g, BlockCount + 1) && sidewalks == StreetSidewalks(g, BlockCount + 1)
    ensures lamps == StreetLamps(g, rng.seed, old(rng.draws), BlockCount + 1)
  {
    ghost var k0 := rng.draws;
    roads, sidewalks, lamps := [], [], [];
    var i := 0;
    while i <= BlockCount
      invariant 0 <= i <= BlockCount + 1
      invariant rng.Valid() && rng.draws == k0 + LampLines(i)
      invariant roads == StreetRoads(g, i) && sidewalks == StreetSidewalks(g, i)
      invariant lamps == StreetLamps(g, rng.seed, k0, i)
    {
      var pos := GridLine(g, i);
      roads := roads + [Strip(0.0, pos, g.totalSpan, StreetWidth), Strip(pos, 0.0, StreetWidth, g.totalSpan)];
      var off := StreetWidth / 2.0 + SidewalkWidth / 2.0;
      sidewalks := sidewalks + [Strip(0.0, pos - off, g.totalSpan, SidewalkWidth),
                                Strip(0.0, pos + off, g.totalSpan, SidewalkWidth),
                                Strip(pos - off, 0.0, SidewalkWidth, g.totalSpan),
                                Strip(pos + off, 0.0, SidewalkWidth, g.totalSpan)];
      if i % 2 == 0 {
        var drawn := rng.Next();
        var poleHeight := 1.1 + drawn * 0.6;
        var edge := g.totalSpan / 2.0 - StreetWidth * 0.6;
        lamps := lamps + [LightPole(pos, -edge, poleHeight), LightPole(pos, edge, poleHeight),
                          LightPole(-edge, pos, poleHeight), LightPole(edge, pos, poleHeight)];
      }
      i := i + 1;
    }
  }

  /**
   * `addBuilding`: once `cap` buildings exist it returns at once, drawing
   * nothing; otherwise it draws the building's height, roof and colours and
   * appends it.
   */
  method AddBuilding(rng: Rng, maxHeight: real, cap: int, buildings: seq<House>,
                     x: real, z: real, width: real, depth: real, quarterTurns: int, isCommercial: bool)
    returns (buildings': seq<House>)
    requires rng.Valid()
    modifies rng
    ensures rng.Valid()
    ensures |buildings| >= cap ==> buildings' == buildings && rng.draws == old(rng.draws)
    ensures |buildings| < cap ==>
      && rng.draws == old(rng.draws) + HouseDraws(isCommercial)
      && buildings' == buildings + [MakeHouse(maxHeight, x, z, width, depth, quarterTurns, isCommercial,
                                              Draws(rng.seed, old(rng.draws), HouseDraws(isCommercial)))]
  {
    if |buildings| >= cap {
      return buildings;
    }
    ghost var k0 := rng.draws;
    var heightDraw := rng.Next();
    var u := [heightDraw];
    if !isCommercial {
      var roofDraw := rng.Next();
      u := u + [roofDraw];
    }
    var bodySaturation := rng.Next();
    var bodyLightness := rng.Next();
    var roofLightness := rng.Next();
    var windowLightness := rng.Next();
    u := u + [bodySaturation, bodyLightness, roofLightness, windowLightness];
    DrawsOfList(rng.seed, k0, u);
    buildings' := buildings + [MakeHouse(maxHeight, x, z, width, depth, quarterTurns, isCommercial, u)];
  }

  /**
   * The lot's own draws: setback, width, depth and, on a main street outside
   * the core, the draw that decides whether the lot is commercial.
   */
  method DrawLot(rng: Rng, p: Plan, bx: int, bz: int) returns (l: Lot)
    requires rng.Valid() && rng.seed == p.seed && WellFormed(p.g)
    modifies rng
    ensures rng.Valid() && rng.draws == old(rng.draws) + LotDraws(bx, bz)
    ensures l == LotAt(p, bx, bz, old(rng.draws))
  {
    ghost var k0 := rng.draws;
    var setbackDraw := rng.Next();
    var widthDraw := rng.Next();
    var depthDraw := rng.Next();
    var u := [setbackDraw, widthDraw, depthDraw];
    if OnMainStreet(bx, bz) && !IsCore(bx, bz) {
      var commercialDraw := rng.Next();
      u := u + [commercialDraw];
    }
    DrawsOfList(rng.seed, k0, u);
    l := LotOf(p.g, bx, bz, u);
  }

  /**
   * The body of the lot loop: draw the lot, then offer the buildings facing
   * the north, south, east and west edges of the block.
   */
  method PlaceLot(rng: Rng, p: Plan, bx: int, bz: int, lot: int, buildings: seq<House>, ghost sites: seq<Site>,
                  ghost st: Gen)
    returns (buildings': seq<House>, ghost sites': seq<Site>)
    requires rng.Valid() && rng.seed == p.seed && WellFormed(p.g)
    requires st.buildings == buildings && st.buildingSites == sites && st.draws == rng.draws
    modifies rng
    ensures rng.Valid()
    ensures st.(buildings := buildings', buildingSites := sites', draws := rng.draws) == LotStage(p, bx, bz, lot, st)
  {
    assert LotStage(p, bx, bz, lot, st) == DeferredLot(p, bx, bz, lot, st, 0);
    var l := DrawLot(rng, p, bx, bz);
    ghost var k1 := rng.draws;
    buildings', sites' := buildings, sites;
    // The four `addBuilding` calls, for sides 0 (rotation 0), 1 (pi), 2 (-pi/2) and 3 (pi/2).
    for side := 0 to 4
      invariant rng.Valid() && rng.seed == p.seed
      invariant var m := Added(|buildings|, p.cap, side);
                && buildings' == buildings + LotHouses(p, bx, bz, lot, l, k1, m)
                && sites' == sites + LotSites(bx, bz, lot, m)
                && rng.draws == k1 + KindDraws(m, l.commercial)
    {
      ghost var prev, prevSites, d := buildings', sites', rng.draws;
      buildings' := AddBuilding(rng, p.maxHeight, p.cap, buildings', SideX(p.g, bx, lot, l, side), SideZ(p.g, bz, lot, l, side),
                                l.width, l.depth, SideTurns(side), l.commercial);
      sites' := if |prev| < p.cap then sites' + [Site(bx, bz, lot, side)] else sites';
      SideStep(p, bx, bz, lot, l, k1, buildings, sites, prev, prevSites, d, side, buildings', sites', rng.draws);
    }
  }

  /**
   * One `addBuilding` call of a lot: if the calls for sides 0 .. side - 1
   * produced the lot's first `Added(|buildings|, cap, side)` buildings and
   * draws, the call for `side` produces the first `Added(|buildings|, cap, side + 1)`.
   */
  lemma SideStep(p: Plan, bx: int, bz: int, lot: int, l: Lot, k: nat, buildings: seq<House>, sites: seq<Site>,
                 cur: seq<House>, curSites: seq<Site>, draws: nat, side: nat,
                 next: seq<House>, nextSites: seq<Site>, draws': nat)
    requires var m := Added(|buildings|, p.cap, side);
             && cur == buildings + LotHouses(p, bx, bz, lot, l, k, m)
             && curSites == sites + LotSites(bx, bz, lot, m)
             && draws == k + KindDraws(m, l.commercial)
    requires |cur| >= p.cap ==> next == cur && nextSites == curSites && draws' == draws
    requires |cur| < p.cap ==>
      && next == cur + [SideHouse(p, bx, bz, lot, l, side, draws)]
      && nextSites == curSites + [Site(bx, bz, lot, side)]
      && draws' == draws + HouseDraws(l.commercial)
    ensures var m := Added(|buildings|, p.cap, side + 1);
            && next == buildings + LotHouses(p, bx, bz, lot, l, k, m)
            && nextSites == sites + LotSites(bx, bz, lot, m)
            && draws' == k + KindDraws(m, l.commercial)
  {
    var m := Added(|buildings|, p.cap, side);
    if |cur| < p.cap {
      assert m == side && Added(|buildings|, p.cap, side + 1) == m + 1;
      assert next == buildings + (LotHouses(p, bx, bz, lot, l, k, m) + [SideHouse(p, bx, bz, lot, l, side, draws)]);
      assert nextSites == sites + (LotSites(bx, bz, lot, m) + [Site(bx, bz, lot, side)]);
    } else {
      assert Added(|buildings|, p.cap, side + 1) == m;
    }
  }

  /**
   * The body of the bz loop: the park, the lot loop and the corner-tree loop
   * of block (bx, bz).
   */
  method PlaceBlock(rng: Rng, p: Plan, bx: int, bz: int,
                    buildings: seq<House>, ghost buildingSites: seq<Site>,
                    parks: seq<Strip>, ghost parkSites: seq<Site>,
                    trees: seq<Tree>, ghost treeSites: seq<Site>)
    returns (buildings': seq<House>, ghost buildingSites': seq<Site>,
             parks': seq<Strip>, ghost parkSites': seq<Site>,
             trees': seq<Tree>, ghost treeSites': seq<Site>)
    requires rng.Valid() && rng.seed == p.seed && WellFormed(p.g) && InGrid(bx, bz)
    modifies rng
    ensures rng.Valid()
    ensures Gen(buildings', buildingSites', parks', parkSites', trees', treeSites', rng.draws)
         == BlockStage(p, bx, bz, Gen(buildings, buildingSites, parks, parkSites, trees, treeSites, old(rng.draws)))
  {
    ghost var st0 := Gen(buildings, buildingSites, parks, parkSites, trees, treeSites, rng.draws);
    assert BlockStage(p, bx, bz, st0) == DeferredBlock(p, bx, bz, st0, 0);
    buildings', buildingSites', parks', parkSites', trees', treeSites' :=
      buildings, buildingSites, parks, parkSites, trees, treeSites;

    parks', parkSites' := PlacePark(rng, p, bx, bz, parks', parkSites', st0);
    ghost var st1 := Gen(buildings', buildingSites', parks', parkSites', trees', treeSites', rng.draws);

    var i := 0;
    while i < p.g.lots
      invariant 0 <= i <= p.g.lots
      invariant rng.Valid() && rng.seed == p.seed
      invariant Gen(buildings', buildingSites', parks', parkSites', trees', treeSites', rng.draws)
             == LotsStage(p, bx, bz, i, st1)
    {
      ghost var st := Gen(buildings', buildingSites', parks', parkSites', trees', treeSites', rng.draws);
      buildings', buildingSites' := PlaceLot(rng, p, bx, bz, i, buildings', buildingSites', st);
      i := i + 1;
    }
    ghost var st2 := Gen(buildings', buildingSites', parks', parkSites', trees', treeSites', rng.draws);

    var t := 0;
    while t < 4
      invariant 0 <= t <= 4
      invariant rng.Valid() && rng.seed == p.seed
      invariant Gen(buildings', buildingSites', parks', parkSites', trees', treeSites', rng.draws)
             == TreesStage(p, bx, bz, t, st2)
    {
      ghost var st := Gen(buildings', buildingSites', parks', parkSites', trees', treeSites', rng.draws);
      trees', treeSites' := PlantTree(rng, p, bx, bz, t, trees', treeSites', st);
      t := t + 1;
    }
  }

  /**
   * The park of block (bx, bz): one draw decides whether there is one, and a
   * park takes one more draw for its size. `st` is the generation state
   * before the call.
   */
  method PlacePark(rng: Rng, p: Plan, bx: int, bz: int, parks: seq<Strip>, ghost parkSites: seq<Site>, ghost st: Gen)
    returns (parks': seq<Strip>, ghost parkSites': seq<Site>)
    requires rng.Valid() && rng.seed == p.seed && WellFormed(p.g)
    requires st.parks == parks && st.parkSites == parkSites && st.draws == rng.draws
    modifies rng
    ensures rng.Valid()
    ensures st.(parks := parks', parkSites := parkSites', draws := rng.draws) == ParkStage(p, bx, bz, st)
  {
    parks', parkSites' := parks, parkSites;
    var parkDraw := rng.Next();
    if parkDraw > 0.4 {
      var sizeDraw := rng.Next();
      parks' := parks' + [ParkOf(p.g, bx, bz, sizeDraw)];
      parkSites' := parkSites' + [Site(bx, bz, 0, 0)];
    }
  }

  /**
   * The body of the corner loop: one draw decides whether corner `corner`
   * gets a tree; a tree takes four more draws for its offsets, height and
   * canopy. `st` is the generation state before the call.
   */
  method PlantTree(rng: Rng, p: Plan, bx: int, bz: int, corner: int, trees: seq<Tree>, ghost treeSites: seq<Site>,
                   ghost st: Gen)
    returns (trees': seq<Tree>, ghost treeSites': seq<Site>)
    requires rng.Valid() && rng.seed == p.seed && InGrid(bx, bz) && 0 <= corner < 4
    requires st.trees == trees && st.treeSites == treeSites && st.draws == rng.draws
    modifies rng
    ensures rng.Valid()
    ensures st.(trees := trees', treeSites := treeSites', draws := rng.draws) == TreeStage(p, bx, bz, corner, st)
  {
    trees', treeSites' := trees, treeSites;
    var treeDraw := rng.Next();
    if treeDraw > 0.5 {
      var dx := rng.Next();
      var dz := rng.Next();
      var heightDraw := rng.Next();
      var canopyDraw := rng.Next();
      DrawsOfList(rng.seed, st.draws + 1, [dx, dz, heightDraw, canopyDraw]);
      trees' := trees' + [MakeTree(p.g, bx, bz, corner, [dx, dz, heightDraw, canopyDraw])];
      treeSites' := treeSites' + [Site(bx, bz, corner, 0)];
    }
  }

  /**
   * The generator: a fresh `createRng(seed)`, the street loop, then the nine
   * blocks. Same configuration, same city: the result is a function of the
   * configuration alone.
   */
  method Generate(c: CityConfig) returns (city: Neighborhood)
    ensures city == CityOf(c)
  {
    var rng := new Rng(c.seed);
    var g := GridFor(c.spread);
    var roads, sidewalks, lamps := LayStreets(rng, g);
    var p := Plan(g, c.maxHeight, IntMax(12, c.count), c.seed);
    assert p == PlanOf(c);
    var buildings, parks, trees := [], [], [];
    ghost var buildingSites, parkSites, treeSites := [], [], [];
    ghost var st0 := Gen([], [], [], [], [], [], 2);
    var bx := 0;
    while bx < BlockCount
      invariant 0 <= bx <= BlockCount
      invariant rng.Valid() && rng.seed == c.seed
      invariant Gen(buildings, buildingSites, parks, parkSites, trees, treeSites, rng.draws)
             == BlocksStage(p, BlockCount * bx, st0)
    {
      var bz := 0;
      while bz < BlockCount
        invariant 0 <= bz <= BlockCount
        invariant rng.Valid() && rng.seed == c.seed
        invariant Gen(buildings, buildingSites, parks, parkSites, trees, treeSites, rng.draws)
               == BlocksStage(p, BlockCount * bx + bz, st0)
      {
        assert BlockX(BlockCount * bx + bz) == bx && BlockZ(BlockCount * bx + bz) == bz;
        buildings, buildingSites, parks, parkSites, trees, treeSites :=
          PlaceBlock(rng, p, bx, bz, buildings, buildingSites, parks, parkSites, trees, treeSites);
        bz := bz + 1;
      }
      bx := bx + 1;
    }
    city := Neighborhood(buildings, roads, sidewalks, trees, lamps, parks);
  }
}
