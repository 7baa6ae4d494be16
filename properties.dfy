/**
 * What the generated neighbourhood satisfies, proved about the stage
 * functions of module OrionStages (which the generator methods compute):
 * the street grid and its lamps, where every building, park and tree stands,
 * how many buildings there are, and how many generator calls were made.
 */
module OrionProperties {
  import opened Mulberry32
  import opened OrionLayout
  import opened OrionStages

  // ---------------------------------------------------------------------
  // Configuration
  // ---------------------------------------------------------------------

  /** The configuration the deep-dive page starts from. */
  const DefaultConfig: CityConfig := CityConfig(64, 18.0, 8.0, 1)

  /** The "regenerate" button: the same configuration with the next seed. */
  function Regenerate(c: CityConfig): (c': CityConfig)
    ensures c'.count == c.count && c'.spread == c.spread && c'.maxHeight == c.maxHeight
    ensures c'.seed == c.seed + 1
  {
    c.(seed := c.seed + 1)
  }

  /** A regenerated city draws from a state stream that differs from the old one at every call. */
  lemma RegenerateChangesEveryState(c: CityConfig, k: nat)
    ensures StateAfter(Regenerate(c).seed, k) != StateAfter(c.seed, k)
    ensures StateAfter(Regenerate(c).seed, k) == (StateAfter(c.seed, k) + 1) % Modulus
  {
    NextSeedShiftsStream(c.seed, k);
  }

  /**
   * The city the page opens with: spread 18 gives two lots per block edge,
   * so the 64 requested buildings all fit (the nine blocks hold 72).
   */
  lemma DefaultCity()
    ensures GridFor(DefaultConfig.spread).lots == 2
    ensures |CityOf(DefaultConfig).buildings| == 64
  {
    DefaultGridOverflows();
    CityCounts(DefaultConfig);
  }

  /** The values the three sliders can produce. */
  predicate SliderConfig(c: CityConfig)
  {
    && 16 <= c.count <= 144 && c.count % 8 == 0
    && 10.0 <= c.spread <= 30.0
    && 4.0 <= c.maxHeight <= 14.0
  }

  // ---------------------------------------------------------------------
  // Streets
  // ---------------------------------------------------------------------

  lemma {:induction false} StreetRoadsIndex(g: Grid, n: nat)
    ensures forall i, k :: 0 <= i < n && 0 <= k < 2 ==> StreetRoads(g, n)[2 * i + k] == RoadsAt(g, i)[k]
  {
    if n > 0 {
      StreetRoadsIndex(g, n - 1);
      var rs, rs0 := StreetRoads(g, n), StreetRoads(g, n - 1);
      assert rs == rs0 + RoadsAt(g, n - 1);
      forall i, k | 0 <= i < n && 0 <= k < 2
        ensures rs[2 * i + k] == RoadsAt(g, i)[k]
      {
        if i < n - 1 {
          assert rs[2 * i + k] == rs0[2 * i + k];
        }
      }
    }
  }

  lemma {:induction false} StreetSidewalksIndex(g: Grid, n: nat)
    ensures forall i, k :: 0 <= i < n && 0 <= k < 4 ==> StreetSidewalks(g, n)[4 * i + k] == SidewalksAt(g, i)[k]
  {
    if n > 0 {
      StreetSidewalksIndex(g, n - 1);
      var ws, ws0 := StreetSidewalks(g, n), StreetSidewalks(g, n - 1);
      assert ws == ws0 + SidewalksAt(g, n - 1);
      forall i, k | 0 <= i < n && 0 <= k < 4
        ensures ws[4 * i + k] == SidewalksAt(g, i)[k]
      {
        if i < n - 1 {
          assert ws[4 * i + k] == ws0[4 * i + k];
        }
      }
    }
  }

  /**
   * The street grid: 8 roads and 16 sidewalks. Line `i` sits at
   * `-totalSpan / 2 + 1.2 + i * (blockSize + 2.4)` and carries, in this order,
   * a full-span road along x centred on it, a full-span road along z centred
   * on it, and four sidewalks each flush against one long edge of a road.
   */
  lemma StreetGridLayout(g: Grid)
    requires WellFormed(g)
    ensures var roads, walks := StreetRoads(g, BlockCount + 1), StreetSidewalks(g, BlockCount + 1);
      && |roads| == 8 && |walks| == 16
      && forall i :: 0 <= i <= BlockCount ==>
           var pos := GridLine(g, i);
           && pos == -g.totalSpan / 2.0 + 1.2 + i as real * (g.blockSize + 2.4)
           && roads[2 * i] == Strip(0.0, pos, g.totalSpan, StreetWidth)
           && roads[2 * i + 1] == Strip(pos, 0.0, StreetWidth, g.totalSpan)
           && walks[4 * i].z + SidewalkWidth / 2.0 == pos - StreetWidth / 2.0
           && walks[4 * i + 1].z - SidewalkWidth / 2.0 == pos + StreetWidth / 2.0
           && walks[4 * i + 2].x + SidewalkWidth / 2.0 == pos - StreetWidth / 2.0
           && walks[4 * i + 3].x - SidewalkWidth / 2.0 == pos + StreetWidth / 2.0
  {
    var roads, walks := StreetRoads(g, BlockCount + 1), StreetSidewalks(g, BlockCount + 1);
    StreetRoadsIndex(g, BlockCount + 1);
    StreetSidewalksIndex(g, BlockCount + 1);
    forall i | 0 <= i <= BlockCount
      ensures roads[2 * i] == RoadsAt(g, i)[0] && roads[2 * i + 1] == RoadsAt(g, i)[1]
      ensures walks[4 * i] == SidewalksAt(g, i)[0] && walks[4 * i + 1] == SidewalksAt(g, i)[1]
      ensures walks[4 * i + 2] == SidewalksAt(g, i)[2] && walks[4 * i + 3] == SidewalksAt(g, i)[3]
    {
      assert roads[2 * i + 0] == RoadsAt(g, i)[0];
      assert walks[4 * i + 0] == SidewalksAt(g, i)[0];
    }
  }

  /**
   * The 8 lamps: four on line 0 sharing the height drawn by call `k`, then
   * four on line 2 sharing the height drawn by call `k + 1`, each height in
   * [1.1, 1.7); each group stands at both ends of its line and of the
   * crossing line.
   */
  lemma StreetLampsLayout(g: Grid, seed: int, k: nat)
    ensures var lamps := StreetLamps(g, seed, k, BlockCount + 1);
      && lamps == LampsAt(g, 0, LampHeight(Draw(seed, k))) + LampsAt(g, 2, LampHeight(Draw(seed, k + 1)))
      && |lamps| == 8
      && (forall j :: 0 <= j < 4 ==> lamps[j].height == lamps[0].height)
      && (forall j :: 4 <= j < 8 ==> lamps[j].height == lamps[4].height)
      && (forall j :: 0 <= j < 8 ==> 1.1 <= lamps[j].height < 1.7)
  {
    assert StreetLamps(g, seed, k, 1) == LampsAt(g, 0, LampHeight(Draw(seed, k)));
    assert StreetLamps(g, seed, k, 3) == StreetLamps(g, seed, k, 2) + LampsAt(g, 2, LampHeight(Draw(seed, k + 1)));
  }

  // ---------------------------------------------------------------------
  // Buildings of one lot
  // ---------------------------------------------------------------------

  /** The building on any side of a lot stands where `HouseAt` says and takes the lot's dimensions and kind. */
  lemma SideHouseAt(p: Plan, bx: int, bz: int, lot: int, l: Lot, side: int, k: nat)
    requires WellFormed(p.g) && InGrid(bx, bz) && 0 <= lot < p.g.lots && 0 <= side < 4 && LotOk(p.g, bx, bz, l)
    ensures var h := SideHouse(p, bx, bz, lot, l, side, k);
      && HouseAt(p.g, p.maxHeight, h, Site(bx, bz, lot, side))
      && h.width == l.width && h.depth == l.depth && h.isCommercial == l.commercial
  {
    var h := SideHouse(p, bx, bz, lot, l, side, k);
    assert Setback(p.g, h, Site(bx, bz, lot, side)) == l.setback;
  }

  /** Every building of a lot takes the lot's width, depth and kind. */
  lemma {:induction false} LotHousesShareLot(p: Plan, bx: int, bz: int, lot: int, l: Lot, k: nat, n: nat)
    ensures forall side :: 0 <= side < n ==>
      var h := LotHouses(p, bx, bz, lot, l, k, n)[side];
      h.width == l.width && h.depth == l.depth && h.isCommercial == l.commercial
  {
    if n > 0 {
      LotHousesShareLot(p, bx, bz, lot, l, k, n - 1);
      var hs, hs0 := LotHouses(p, bx, bz, lot, l, k, n), LotHouses(p, bx, bz, lot, l, k, n - 1);
      forall side | 0 <= side < n - 1
        ensures hs[side] == hs0[side]
      {
      }
    }
  }

  /** A lot's buildings take 5 draws each when it is commercial, 6 when it is residential. */
  lemma {:induction false} LotHousesDraws(p: Plan, bx: int, bz: int, lot: int, l: Lot, k: nat, n: nat)
    ensures HouseDrawTotal(LotHouses(p, bx, bz, lot, l, k, n)) == KindDraws(n, l.commercial)
  {
    if n > 0 {
      LotHousesDraws(p, bx, bz, lot, l, k, n - 1);
      var hs := LotHouses(p, bx, bz, lot, l, k, n);
      assert hs[..n - 1] == LotHouses(p, bx, bz, lot, l, k, n - 1);
    }
  }

  lemma {:induction false} LotSitesIndex(bx: int, bz: int, lot: int, n: nat)
    ensures forall side :: 0 <= side < n ==> LotSites(bx, bz, lot, n)[side] == Site(bx, bz, lot, side)
  {
    if n > 0 {
      LotSitesIndex(bx, bz, lot, n - 1);
      var ss, ss0 := LotSites(bx, bz, lot, n), LotSites(bx, bz, lot, n - 1);
      forall side | 0 <= side < n - 1
        ensures ss[side] == ss0[side]
      {
      }
    }
  }

  // ---------------------------------------------------------------------
  // Keeping the buildings in order
  // ---------------------------------------------------------------------

  /** The last site of `sites`, if any, is ranked before `r`. */
  predicate Before(sites: seq<Site>, r: int)
  {
    sites == [] || Rank(sites[|sites| - 1]) < r
  }

  /** A site ranked after the last one extends the order. */
  lemma InOrderSnoc(sites: seq<Site>, s: Site)
    requires InOrder(sites) && Before(sites, Rank(s))
    ensures InOrder(sites + [s])
  {
    var sites' := sites + [s];
    forall i, j | 0 <= i < j < |sites'|
      ensures Rank(sites'[i]) < Rank(sites'[j])
    {
      if j == |sites| {
        assert sites'[i] == sites[i];
        if i < |sites| - 1 {
          assert Rank(sites[i]) < Rank(sites[|sites| - 1]);
        }
      } else {
        assert sites'[i] == sites[i] && sites'[j] == sites[j];
      }
    }
  }

  /** Every site of an ordered list ending before rank `r` is ranked before `r`. */
  lemma AllBefore(sites: seq<Site>, r: int)
    requires InOrder(sites) && Before(sites, r)
    ensures forall i :: 0 <= i < |sites| ==> Rank(sites[i]) < r
  {
    forall i | 0 <= i < |sites|
      ensures Rank(sites[i]) < r
    {
      if i < |sites| - 1 {
        assert Rank(sites[i]) < Rank(sites[|sites| - 1]);
      }
    }
  }

  lemma HousesAtSnoc(g: Grid, maxHeight: real, bs: seq<House>, sites: seq<Site>, h: House, s: Site)
    requires |bs| == |sites| && HouseAt(g, maxHeight, h, s)
    requires forall i :: 0 <= i < |bs| ==> HouseAt(g, maxHeight, bs[i], sites[i])
    ensures forall i :: 0 <= i < |bs| + 1 ==> HouseAt(g, maxHeight, (bs + [h])[i], (sites + [s])[i])
  {
    forall i | 0 <= i < |bs| + 1
      ensures HouseAt(g, maxHeight, (bs + [h])[i], (sites + [s])[i])
    {
      if i < |bs| {
        assert (bs + [h])[i] == bs[i] && (sites + [s])[i] == sites[i];
      }
    }
  }

  /** One more building, ranked after everything earlier and matching its lot mates, keeps the buildings in order. */
  lemma BuildingsOkSnoc(g: Grid, maxHeight: real, bs: seq<House>, sites: seq<Site>, h: House, s: Site)
    requires |bs| == |sites|
    requires BuildingsOk(g, maxHeight, bs, sites) && HouseAt(g, maxHeight, h, s) && Before(sites, Rank(s))
    requires forall i :: 0 <= i < |bs| && SameLotSite(sites[i], s) ==> SameLot(bs[i], h)
    ensures BuildingsOk(g, maxHeight, bs + [h], sites + [s])
  {
    assert BuildingsOk(g, maxHeight, bs, sites) == DeferredBuildingsOk(g, maxHeight, bs, sites, 0);
    assert BuildingsOk(g, maxHeight, bs + [h], sites + [s]) == DeferredBuildingsOk(g, maxHeight, bs + [h], sites + [s], 0);
    HousesAtSnoc(g, maxHeight, bs, sites, h, s);
    InOrderSnoc(sites, s);
    var bs', sites' := bs + [h], sites + [s];
    forall i, j | 0 <= i < j < |bs'| && SameLotSite(sites'[i], sites'[j])
      ensures SameLot(bs'[i], bs'[j])
    {
      assert sites'[i] == sites[i] && bs'[i] == bs[i];
      if j < |bs| {
        assert sites'[j] == sites[j] && bs'[j] == bs[j];
      }
    }
  }

  /** Every building ranked before a lot stands on another lot. */
  lemma EarlierLots(p: Plan, bs: seq<House>, sites: seq<Site>, bx: int, bz: int, lot: int)
    requires BuildingsOk(p.g, p.maxHeight, bs, sites) && Before(sites, Rank(Site(bx, bz, lot, 0)))
    ensures |bs| == |sites|
    ensures forall i :: 0 <= i < |sites| ==> !SameLotSite(sites[i], Site(bx, bz, lot, 0))
  {
    assert BuildingsOk(p.g, p.maxHeight, bs, sites) == DeferredBuildingsOk(p.g, p.maxHeight, bs, sites, 0);
    AllBefore(sites, Rank(Site(bx, bz, lot, 0)));
    forall i | 0 <= i < |sites|
      ensures !SameLotSite(sites[i], Site(bx, bz, lot, 0))
    {
      assert HouseAt(p.g, p.maxHeight, bs[i], sites[i]);
    }
  }

  /**
   * Adding the next building of a lot keeps the buildings in order. It
   * matches every earlier building on the same lot: those are the lot's own
   * earlier buildings, since everything before the lot is ranked before it.
   */
  lemma LotStep(p: Plan, bs: seq<House>, sites: seq<Site>,
                bx: int, bz: int, lot: int, l: Lot, k: nat, m: nat)
    requires WellFormed(p.g) && InGrid(bx, bz) && 0 <= lot < p.g.lots && m < 4 && LotOk(p.g, bx, bz, l)
    requires BuildingsOk(p.g, p.maxHeight, bs, sites) && Before(sites, Rank(Site(bx, bz, lot, 0)))
    requires BuildingsOk(p.g, p.maxHeight, bs + LotHouses(p, bx, bz, lot, l, k, m), sites + LotSites(bx, bz, lot, m))
    requires Before(sites + LotSites(bx, bz, lot, m), Rank(Site(bx, bz, lot, m)))
    ensures BuildingsOk(p.g, p.maxHeight, bs + LotHouses(p, bx, bz, lot, l, k, m + 1), sites + LotSites(bx, bz, lot, m + 1))
  {
    var hs0, ss0 := LotHouses(p, bx, bz, lot, l, k, m), LotSites(bx, bz, lot, m);
    var bs', sites' := bs + hs0, sites + ss0;
    var h := SideHouse(p, bx, bz, lot, l, m, k + KindDraws(m, l.commercial));
    var s := Site(bx, bz, lot, m);
    EarlierLots(p, bs, sites, bx, bz, lot);
    assert HouseAt(p.g, p.maxHeight, h, s) by {
      SideHouseAt(p, bx, bz, lot, l, m, k + KindDraws(m, l.commercial));
    }
    assert forall i :: 0 <= i < |bs'| && SameLotSite(sites'[i], s) ==> SameLot(bs'[i], h) by {
      LotHousesShareLot(p, bx, bz, lot, l, k, m);
      forall i | 0 <= i < |bs'| && SameLotSite(sites'[i], s)
        ensures SameLot(bs'[i], h)
      {
        if i < |bs| {
          assert false;
        } else {
          assert bs'[i] == hs0[i - |bs|];
        }
      }
    }
    BuildingsOkSnoc(p.g, p.maxHeight, bs', sites', h, s);
    assert bs + (hs0 + [h]) == (bs + hs0) + [h];
    assert sites + (ss0 + [s]) == (sites + ss0) + [s];
  }

  /**
   * Appending the first `n` buildings of a lot, with their sites, to buildings
   * that all come before the lot keeps every building in place and in order.
   */
  lemma {:induction false} BuildingsOkLot(p: Plan, bs: seq<House>, sites: seq<Site>,
                                          bx: int, bz: int, lot: int, k0: nat, n: nat)
    requires WellFormed(p.g) && InGrid(bx, bz) && 0 <= lot < p.g.lots && n <= 4
    requires BuildingsOk(p.g, p.maxHeight, bs, sites) && Before(sites, Rank(Site(bx, bz, lot, 0)))
    ensures var l, k := LotAt(p, bx, bz, k0), k0 + LotDraws(bx, bz);
      && BuildingsOk(p.g, p.maxHeight, bs + LotHouses(p, bx, bz, lot, l, k, n), sites + LotSites(bx, bz, lot, n))
      && Before(sites + LotSites(bx, bz, lot, n), Rank(Site(bx, bz, lot, n)))
  {
    if n == 0 {
      assert bs + [] == bs;
      assert sites + [] == sites;
    } else {
      BuildingsOkLot(p, bs, sites, bx, bz, lot, k0, n - 1);
      LotStep(p, bs, sites, bx, bz, lot, LotAt(p, bx, bz, k0), k0 + LotDraws(bx, bz), n - 1);
    }
  }

  /** One pass of the lot loop keeps the buildings in place and in order. */
  lemma LotStageOk(p: Plan, bx: int, bz: int, lot: int, st: Gen)
    requires WellFormed(p.g) && InGrid(bx, bz) && 0 <= lot < p.g.lots
    requires BuildingsOk(p.g, p.maxHeight, st.buildings, st.buildingSites)
    requires Before(st.buildingSites, Rank(Site(bx, bz, lot, 0)))
    ensures var st' := LotStage(p, bx, bz, lot, st);
      BuildingsOk(p.g, p.maxHeight, st'.buildings, st'.buildingSites)
      && Before(st'.buildingSites, Rank(Site(bx, bz, lot + 1, 0)))
  {
    assert LotStage(p, bx, bz, lot, st) == DeferredLot(p, bx, bz, lot, st, 0);
    BuildingsOkLot(p, st.buildings, st.buildingSites, bx, bz, lot, st.draws, Added(|st.buildings|, p.cap, 4));
  }

  lemma {:induction false} LotsStageOk(p: Plan, bx: int, bz: int, n: nat, st: Gen)
    requires WellFormed(p.g) && InGrid(bx, bz) && n <= p.g.lots
    requires BuildingsOk(p.g, p.maxHeight, st.buildings, st.buildingSites)
    requires Before(st.buildingSites, Rank(Site(bx, bz, 0, 0)))
    ensures var st' := LotsStage(p, bx, bz, n, st);
      BuildingsOk(p.g, p.maxHeight, st'.buildings, st'.buildingSites)
      && Before(st'.buildingSites, Rank(Site(bx, bz, n, 0)))
  {
    if n > 0 {
      LotsStageOk(p, bx, bz, n - 1, st);
      LotStageOk(p, bx, bz, n - 1, LotsStage(p, bx, bz, n - 1, st));
    }
  }

  // ---------------------------------------------------------------------
  // Parks and trees
  // ---------------------------------------------------------------------

  lemma ParkStageOk(p: Plan, bx: int, bz: int, st: Gen)
    requires WellFormed(p.g) && InGrid(bx, bz)
    requires ParksOk(p.g, st.parks, st.parkSites) && Before(st.parkSites, Rank(Site(bx, bz, 0, 0)))
    ensures var st' := ParkStage(p, bx, bz, st);
      ParksOk(p.g, st'.parks, st'.parkSites) && Before(st'.parkSites, Rank(Site(bx, bz, 0, 0)) + 1)
  {
    var st' := ParkStage(p, bx, bz, st);
    if Draw(p.seed, st.draws) > 0.4 {
      var s := Site(bx, bz, 0, 0);
      InOrderSnoc(st.parkSites, s);
      forall i | 0 <= i < |st'.parks|
        ensures ParkAt(p.g, st'.parks[i], st'.parkSites[i])
      {
        if i < |st.parks| {
          assert st'.parks[i] == st.parks[i] && st'.parkSites[i] == st.parkSites[i];
        }
      }
    }
  }

  lemma TreeStageOk(p: Plan, bx: int, bz: int, corner: int, st: Gen)
    requires InGrid(bx, bz) && 0 <= corner < 4
    requires TreesOk(p.g, st.trees, st.treeSites) && Before(st.treeSites, Rank(Site(bx, bz, corner, 0)))
    ensures var st' := TreeStage(p, bx, bz, corner, st);
      TreesOk(p.g, st'.trees, st'.treeSites) && Before(st'.treeSites, Rank(Site(bx, bz, corner + 1, 0)))
  {
    var st' := TreeStage(p, bx, bz, corner, st);
    if Draw(p.seed, st.draws) > 0.5 {
      var s := Site(bx, bz, corner, 0);
      InOrderSnoc(st.treeSites, s);
      forall i | 0 <= i < |st'.trees|
        ensures TreeAt(p.g, st'.trees[i], st'.treeSites[i])
      {
        if i < |st.trees| {
          assert st'.trees[i] == st.trees[i] && st'.treeSites[i] == st.treeSites[i];
        }
      }
    }
  }

  lemma {:induction false} TreesStageOk(p: Plan, bx: int, bz: int, n: nat, st: Gen)
    requires InGrid(bx, bz) && n <= 4
    requires TreesOk(p.g, st.trees, st.treeSites) && Before(st.treeSites, Rank(Site(bx, bz, 0, 0)))
    ensures var st' := TreesStage(p, bx, bz, n, st);
      TreesOk(p.g, st'.trees, st'.treeSites) && Before(st'.treeSites, Rank(Site(bx, bz, n, 0)))
  {
    if n > 0 {
      TreesStageOk(p, bx, bz, n - 1, st);
      TreeStageOk(p, bx, bz, n - 1, TreesStage(p, bx, bz, n - 1, st));
    }
  }

  // ---------------------------------------------------------------------
  // Blocks and the whole city
  // ---------------------------------------------------------------------

  /** Every building, park and tree stands where its site says, each list in generation order. */
  ghost predicate Placed(p: Plan, st: Gen)
  {
    && BuildingsOk(p.g, p.maxHeight, st.buildings, st.buildingSites)
    && ParksOk(p.g, st.parks, st.parkSites)
    && TreesOk(p.g, st.trees, st.treeSites)
  }

  /** Everything generated so far comes before rank `r`. */
  predicate Frontier(st: Gen, r: int)
  {
    Before(st.buildingSites, r) && Before(st.parkSites, r) && Before(st.treeSites, r)
  }

  lemma BlockStageOk(p: Plan, bx: int, bz: int, st: Gen)
    requires WellFormed(p.g) && InGrid(bx, bz)
    requires Placed(p, st) && Frontier(st, Rank(Site(bx, bz, 0, 0)))
    ensures Placed(p, BlockStage(p, bx, bz, st)) && Frontier(BlockStage(p, bx, bz, st), Rank(Site(bx, bz, 0, 0)) + 16)
  {
    assert BlockStage(p, bx, bz, st) == DeferredBlock(p, bx, bz, st, 0);
    var st1 := ParkStage(p, bx, bz, st);
    ParkStageOk(p, bx, bz, st);
    var st2 := LotsStage(p, bx, bz, p.g.lots, st1);
    LotsStageOk(p, bx, bz, p.g.lots, st1);
    TreesStageOk(p, bx, bz, 4, st2);
  }

  lemma {:induction false} BlocksStageOk(p: Plan, n: nat, st: Gen)
    requires WellFormed(p.g) && n <= BlockCount * BlockCount
    requires Placed(p, st) && Frontier(st, 0)
    ensures Placed(p, BlocksStage(p, n, st)) && Frontier(BlocksStage(p, n, st), BlockRank(n))
  {
    if n > 0 {
      BlocksStageOk(p, n - 1, st);
      var b := n - 1;
      assert BlockCount * BlockX(b) + BlockZ(b) == b;
      BlockStageOk(p, BlockX(b), BlockZ(b), BlocksStage(p, n - 1, st));
    }
  }

  /**
   * The generated city: every building stands on its lot side (shape,
   * kind, setback, centring, rotation), the buildings of one lot share their
   * dimensions and kind and come in side order; every park is centred on
   * its block; every tree is near its corner; each list in generation order.
   */
  lemma CityPlaced(c: CityConfig)
    ensures Placed(PlanOf(c), CityStage(c))
  {
    var p := PlanOf(c);
    assert BuildingsOk(p.g, p.maxHeight, [], []) == DeferredBuildingsOk(p.g, p.maxHeight, [], [], 0);
    BlocksStageOk(p, BlockCount * BlockCount, Gen([], [], [], [], [], [], 2));
  }

  /**
   * What every generated building satisfies, spelled out: at least 1.6 tall
   * with a roof at least 0.35 high, 2 to 5 window rows and columns, flat
   * roofs on commercial buildings, commercial throughout the core block and
   * residential off the two main streets, within the lot limits, and turned
   * to face its side of the block.
   */
  lemma CityBuilding(c: CityConfig, i: int)
    requires 0 <= i < |CityOf(c).buildings|
    ensures |CityStage(c).buildingSites| == |CityOf(c).buildings|
    ensures var g, h, s := GridFor(c.spread), CityOf(c).buildings[i], CityStage(c).buildingSites[i];
      && h.height >= 1.6 && h.roofHeight >= 0.35
      && 2 <= h.windowRows <= 5 && 2 <= h.windowCols <= 5
      && (h.isCommercial ==> h.roofType == Flat)
      && (IsCore(s.bx, s.bz) ==> h.isCommercial)
      && (!OnMainStreet(s.bx, s.bz) ==> !h.isCommercial)
      && h.width <= WidthLimit(g) && h.depth <= DepthLimit(g, Setback(g, h, s))
      && h.quarterTurns == SideTurns(s.side)
  {
    CityPlaced(c);
    var p, st := PlanOf(c), CityStage(c);
    assert BuildingsOk(p.g, p.maxHeight, st.buildings, st.buildingSites)
        == DeferredBuildingsOk(p.g, p.maxHeight, st.buildings, st.buildingSites, 0);
    assert HouseAt(p.g, p.maxHeight, CityStage(c).buildings[i], CityStage(c).buildingSites[i]);
  }

  // ---------------------------------------------------------------------
  // How many
  // ---------------------------------------------------------------------

  lemma {:induction false} LotsStageCount(p: Plan, bx: int, bz: int, n: nat, st: Gen)
    requires WellFormed(p.g) && |st.buildings| <= p.cap
    ensures |LotsStage(p, bx, bz, n, st).buildings| == IntMin(p.cap, |st.buildings| + 4 * n)
  {
    if n > 0 {
      LotsStageCount(p, bx, bz, n - 1, st);
      var s := LotsStage(p, bx, bz, n - 1, st);
      assert LotStage(p, bx, bz, n - 1, s) == DeferredLot(p, bx, bz, n - 1, s, 0);
    }
  }

  lemma {:induction false} TreesStageCount(p: Plan, bx: int, bz: int, n: nat, st: Gen)
    requires InGrid(bx, bz) && n <= 4
    ensures |TreesStage(p, bx, bz, n, st).trees| <= |st.trees| + n
  {
    if n > 0 {
      TreesStageCount(p, bx, bz, n - 1, st);
    }
  }

  lemma BlockStageCount(p: Plan, bx: int, bz: int, st: Gen)
    requires WellFormed(p.g) && InGrid(bx, bz) && |st.buildings| <= p.cap
    ensures var st' := BlockStage(p, bx, bz, st);
      && |st'.buildings| == IntMin(p.cap, |st.buildings| + 4 * p.g.lots)
      && |st'.parks| <= |st.parks| + 1
      && |st'.trees| <= |st.trees| + 4
  {
    assert BlockStage(p, bx, bz, st) == DeferredBlock(p, bx, bz, st, 0);
    var st1 := ParkStage(p, bx, bz, st);
    LotsStageCount(p, bx, bz, p.g.lots, st1);
    TreesStageCount(p, bx, bz, 4, LotsStage(p, bx, bz, p.g.lots, st1));
  }

  lemma {:induction false} BlocksStageCount(p: Plan, n: nat, st: Gen)
    requires WellFormed(p.g) && n <= BlockCount * BlockCount && |st.buildings| <= p.cap
    ensures var st' := BlocksStage(p, n, st);
      && |st'.buildings| == IntMin(p.cap, |st.buildings| + 4 * p.g.lots * n)
      && |st'.parks| <= |st.parks| + n
      && |st'.trees| <= |st.trees| + 4 * n
  {
    if n > 0 {
      BlocksStageCount(p, n - 1, st);
      BlockStageCount(p, BlockX(n - 1), BlockZ(n - 1), BlocksStage(p, n - 1, st));
      assert 4 * p.g.lots * (n - 1) + 4 * p.g.lots == 4 * p.g.lots * n;
    }
  }

  /**
   * The city holds `min(max(12, count), 36 * lots)` buildings: the cap, unless
   * the nine blocks run out of lot sides first. At most one park per block
   * and four trees per block.
   */
  lemma CityCounts(c: CityConfig)
    ensures var st, lots := CityStage(c), GridFor(c.spread).lots;
      && |st.buildings| == IntMin(IntMax(12, c.count), 36 * lots)
      && |st.buildings| <= IntMax(12, c.count)
      && |st.parks| <= 9 && |st.trees| <= 36
  {
    var p := PlanOf(c);
    BlocksStageCount(p, BlockCount * BlockCount, Gen([], [], [], [], [], [], 2));
  }

  /**
   * With the slider values the grid always has 2 lots per block edge, so a
   * city never holds more than 72 buildings however far the count slider
   * (up to 144) is pushed.
   */
  lemma SliderCities(c: CityConfig)
    requires SliderConfig(c)
    ensures GridFor(c.spread).lots == 2
    ensures |CityStage(c).buildings| == IntMin(c.count, 72)
  {
    var g := GridFor(c.spread);
    assert g.lotBase == 2.4;
    assert 2.0 <= g.blockSize / g.lotBase < 3.0;
    CityCounts(c);
  }

  // ---------------------------------------------------------------------
  // Draw accounting
  // ---------------------------------------------------------------------

  /**
   * The calls accounted for by the output itself: one size draw per park,
   * 5 or 6 per building, four per tree.
   */
  function Explained(st: Gen): int
  {
    |st.parks| + HouseDrawTotal(st.buildings) + 4 * |st.trees|
  }

  /** The calls that do not show in the output: `draws - Explained`. */
  function Overhead(st: Gen): int
  {
    st.draws - Explained(st)
  }

  lemma LotStageDraws(p: Plan, bx: int, bz: int, lot: int, st: Gen)
    requires WellFormed(p.g)
    ensures Overhead(LotStage(p, bx, bz, lot, st)) == Overhead(st) + LotDraws(bx, bz)
  {
    assert LotStage(p, bx, bz, lot, st) == DeferredLot(p, bx, bz, lot, st, 0);
    var l := LotAt(p, bx, bz, st.draws);
    var k, n := st.draws + LotDraws(bx, bz), Added(|st.buildings|, p.cap, 4);
    HouseDrawTotalConcat(st.buildings, LotHouses(p, bx, bz, lot, l, k, n));
    LotHousesDraws(p, bx, bz, lot, l, k, n);
  }

  lemma {:induction false} LotsStageDraws(p: Plan, bx: int, bz: int, n: nat, st: Gen)
    requires WellFormed(p.g)
    ensures Overhead(LotsStage(p, bx, bz, n, st)) == Overhead(st) + n * LotDraws(bx, bz)
  {
    if n > 0 {
      LotsStageDraws(p, bx, bz, n - 1, st);
      LotStageDraws(p, bx, bz, n - 1, LotsStage(p, bx, bz, n - 1, st));
      assert (n - 1) * LotDraws(bx, bz) + LotDraws(bx, bz) == n * LotDraws(bx, bz);
    }
  }

  lemma {:induction false} TreesStageDraws(p: Plan, bx: int, bz: int, n: nat, st: Gen)
    requires InGrid(bx, bz) && n <= 4
    ensures Overhead(TreesStage(p, bx, bz, n, st)) == Overhead(st) + n
  {
    if n > 0 {
      TreesStageDraws(p, bx, bz, n - 1, st);
    }
  }

  /** A block makes 1 park draw, `lots` times its lot draws, and 4 corner draws beyond what its output explains. */
  lemma BlockStageDraws(p: Plan, bx: int, bz: int, st: Gen)
    requires WellFormed(p.g) && InGrid(bx, bz)
    ensures Overhead(BlockStage(p, bx, bz, st)) == Overhead(st) + 5 + p.g.lots * LotDraws(bx, bz)
  {
    assert BlockStage(p, bx, bz, st) == DeferredBlock(p, bx, bz, st, 0);
    var st1 := ParkStage(p, bx, bz, st);
    LotsStageDraws(p, bx, bz, p.g.lots, st1);
    TreesStageDraws(p, bx, bz, 4, LotsStage(p, bx, bz, p.g.lots, st1));
  }

  /** Lot draws per lot summed over blocks 0 .. n - 1. */
  function LotDrawsUpTo(n: nat): nat
  {
    if n == 0 then 0 else LotDrawsUpTo(n - 1) + LotDraws(BlockX(n - 1), BlockZ(n - 1))
  }

  lemma {:induction false} BlocksStageDraws(p: Plan, n: nat, st: Gen)
    requires WellFormed(p.g) && n <= BlockCount * BlockCount
    ensures Overhead(BlocksStage(p, n, st)) == Overhead(st) + 5 * n + p.g.lots * LotDrawsUpTo(n)
  {
    if n > 0 {
      BlocksStageDraws(p, n - 1, st);
      var b := n - 1;
      BlockStageDraws(p, BlockX(b), BlockZ(b), BlocksStage(p, n - 1, st));
      assert p.g.lots * LotDrawsUpTo(n) == p.g.lots * LotDrawsUpTo(n - 1) + p.g.lots * LotDraws(BlockX(b), BlockZ(b));
    }
  }

  /**
   * The number of generator calls is fixed by the output: 2 lamp draws, per
   * block one park draw and four corner draws, per lot 3 draws (4 on the
   * main-street blocks outside the core, 31 per lot index over the nine
   * blocks), plus one per park, 5 or 6 per building and 4 per tree.
   */
  lemma CityDraws(c: CityConfig)
    ensures var st := CityStage(c);
      st.draws == 47 + 31 * GridFor(c.spread).lots + |st.parks| + HouseDrawTotal(st.buildings) + 4 * |st.trees|
  {
    var p := PlanOf(c);
    BlocksStageDraws(p, BlockCount * BlockCount, Gen([], [], [], [], [], [], 2));
    assert LotDrawsUpTo(9) == 31;
  }
}
