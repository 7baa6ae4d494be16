/**
 * The value side of the Orion neighbourhood generator: the records it emits,
 * the street grid it derives from the configuration, and the pure step
 * functions that turn a handful of generator draws into one lot, one
 * building, one tree or one park. Geometry is `real`; the JavaScript doubles
 * are not rounded here.
 */
module OrionLayout {
  import opened Mulberry32

  /** Fixed grid density: 3 x 3 blocks between 4 x 4 streets. */
  const BlockCount: int := 3
  const StreetWidth: real := 2.4
  const SidewalkWidth: real := 0.9
  /** Gap kept free between the buildings of opposite sides of a block. */
  const CenterGap: real := 1.4

  function Max(a: real, b: real): real { if a >= b then a else b }
  function Min(a: real, b: real): real { if a <= b then a else b }
  function IntMax(a: int, b: int): int { if a >= b then a else b }
  function IntMin(a: int, b: int): int { if a <= b then a else b }

  // ---------------------------------------------------------------------
  // Records (the `HouseData`, `RoadStrip`, ... types)
  // ---------------------------------------------------------------------

  datatype RoofType = Gable | Flat

  /** A colour given to `setHSL`; the CSS string it is turned into is not modelled. */
  datatype Hsl = Hsl(hue: real, saturation: real, lightness: real)

  /**
   * One building. Its position is `[x, 0, z]`; `rotationY` is
   * `quarterTurns * pi / 2`, one of 0, pi, -pi/2, pi/2.
   */
  datatype House = House(
    x: real, z: real,
    width: real, depth: real, height: real, roofHeight: real,
    roofType: RoofType,
    bodyColor: Hsl, roofColor: Hsl, windowColor: Hsl,
    windowRows: int, windowCols: int,
    quarterTurns: int,
    isCommercial: bool)

  /** An axis-aligned footprint: road strips, sidewalk strips and park patches. */
  datatype Strip = Strip(x: real, z: real, width: real, depth: real)

  datatype Tree = Tree(x: real, z: real, height: real, canopy: real)

  datatype LightPole = LightPole(x: real, z: real, height: real)

  datatype Neighborhood = Neighborhood(
    buildings: seq<House>,
    roads: seq<Strip>,
    sidewalks: seq<Strip>,
    trees: seq<Tree>,
    lamps: seq<LightPole>,
    parks: seq<Strip>)

  // ---------------------------------------------------------------------
  // The street grid
  // ---------------------------------------------------------------------

  /** The constants the generator derives from `spread` before it places anything. */
  datatype Grid = Grid(
    totalSpan: real, blockSize: real, roadStart: real, blockStart: real,
    lotBase: real, lots: int, lotSpan: real)

  /** What every grid computed by `GridFor` satisfies. */
  predicate WellFormed(g: Grid)
  {
    && g.totalSpan >= 18.0
    && g.blockSize >= 6.0
    && g.roadStart == -g.totalSpan / 2.0 + StreetWidth / 2.0
    && g.blockStart == g.roadStart + StreetWidth / 2.0 + g.blockSize / 2.0
    && g.lotBase >= 2.4
    && 2 <= g.lots <= 4
    && g.lotSpan > 0.0
    && g.lots as real * g.lotSpan == g.blockSize
  }

  /**
   * The span is at least 18; a block is at least 6 wide, and otherwise a
   * third of what the four streets leave; a block edge is split into
   * `lots = max(2, floor(blockSize / lotBase))` lots of equal span.
   */
  function GridFor(spread: real): (g: Grid)
    ensures WellFormed(g)
    ensures g.totalSpan == Max(18.0, spread)
    ensures 3.0 * g.blockSize + 4.0 * StreetWidth >= g.totalSpan
    ensures 3.0 * g.blockSize + 4.0 * StreetWidth == g.totalSpan <==> g.totalSpan >= 27.6
  {
    var totalSpan := Max(18.0, spread);
    var blockSize := Max(6.0, (totalSpan - (BlockCount + 1) as real * StreetWidth) / BlockCount as real);
    var roadStart := -totalSpan / 2.0 + StreetWidth / 2.0;
    var blockStart := roadStart + StreetWidth / 2.0 + blockSize / 2.0;
    var lotBase := Max(2.4, blockSize / 4.2);
    var ratio := blockSize / lotBase;
    assert ratio <= 4.2 by {
      assert blockSize <= 4.2 * lotBase;
    }
    var lots := IntMax(2, ratio.Floor);
    var lotSpan := blockSize / lots as real;
    Grid(totalSpan, blockSize, roadStart, blockStart, lotBase, lots, lotSpan)
  }

  /** Centre line of street `i` (both axes use the same lines). */
  function GridLine(g: Grid, i: int): real
  {
    g.roadStart + i as real * (g.blockSize + StreetWidth)
  }

  /** Centre of block `b` along one axis. */
  function BlockCentre(g: Grid, b: int): real
  {
    g.blockStart + b as real * (g.blockSize + StreetWidth)
  }

  function BlockMin(g: Grid, b: int): real { BlockCentre(g, b) - g.blockSize / 2.0 }
  function BlockMax(g: Grid, b: int): real { BlockCentre(g, b) + g.blockSize / 2.0 }

  /** Block `b` fills exactly the space between the roads on lines `b` and `b + 1`. */
  lemma BlockBetweenRoads(g: Grid, b: int)
    requires WellFormed(g)
    ensures BlockMin(g, b) == GridLine(g, b) + StreetWidth / 2.0
    ensures BlockMax(g, b) == GridLine(g, b + 1) - StreetWidth / 2.0
  {
    assert (b + 1) as real * (g.blockSize + StreetWidth)
        == b as real * (g.blockSize + StreetWidth) + (g.blockSize + StreetWidth);
  }

  /**
   * When the span is at least 27.6 the outer roads end exactly at the edges
   * of the span, so the grid is centred.
   */
  lemma WideGridIsCentred(spread: real)
    requires Max(18.0, spread) >= 27.6
    ensures var g := GridFor(spread);
      GridLine(g, 0) - StreetWidth / 2.0 == -g.totalSpan / 2.0
      && GridLine(g, BlockCount) + StreetWidth / 2.0 == g.totalSpan / 2.0
  {
  }

  /**
   * Below 27.6 the 6-unit floor on the block size pushes the grid past the
   * span: with the default spread 18 the lines are at -7.8, 0.6, 9 and 17.4,
   * and the last road lies entirely beyond +totalSpan/2.
   */
  lemma DefaultGridOverflows()
    ensures var g := GridFor(18.0);
      && g.totalSpan == 18.0 && g.blockSize == 6.0 && g.lots == 2
      && GridLine(g, 0) == -7.8 && GridLine(g, 1) == 0.6
      && GridLine(g, 2) == 9.0 && GridLine(g, 3) == 17.4
      && GridLine(g, 3) - StreetWidth / 2.0 > g.totalSpan / 2.0
  {
    var g := GridFor(18.0);
    assert g.lotBase == 2.4;
    assert (6.0 / 2.4).Floor == 2;
  }

  // ---------------------------------------------------------------------
  // Blocks and lots
  // ---------------------------------------------------------------------

  predicate IsCore(bx: int, bz: int) { bx == 1 && bz == 1 }

  /** A block on one of the two central cross streets. */
  predicate OnMainStreet(bx: int, bz: int) { bx == 1 || bz == 1 }

  /**
   * Draws one lot consumes before its buildings: setback, width, depth, and
   * a commercial draw only on a main-street block that is not the core
   * (`isCore || (mainStreet && rng() > 0.6)` short-circuits otherwise).
   */
  function LotDraws(bx: int, bz: int): (n: nat)
    ensures n == 3 || n == 4
    ensures n == 4 <==> OnMainStreet(bx, bz) && !IsCore(bx, bz)
  {
    if OnMainStreet(bx, bz) && !IsCore(bx, bz) then 4 else 3
  }

  function WidthLimit(g: Grid): real { Max(1.2, g.lotSpan - 0.6) }

  function DepthLimit(g: Grid, setback: real): real
  {
    Max(1.2, g.blockSize / 2.0 - setback - CenterGap / 2.0)
  }

  /** The dimensions shared by the (up to) four buildings of one lot. */
  datatype Lot = Lot(setback: real, width: real, depth: real, commercial: bool)

  /** What every lot satisfies, whatever its draws. */
  predicate LotOk(g: Grid, bx: int, bz: int, l: Lot)
  {
    && 0.6 <= l.setback < 0.9
    && 1.2 <= l.width <= WidthLimit(g)
    && 1.2 <= l.depth <= DepthLimit(g, l.setback)
    && (IsCore(bx, bz) ==> l.commercial)
    && (!OnMainStreet(bx, bz) ==> !l.commercial)
  }

  /**
   * `l` is a lot the draws `u` can produce in block (bx, bz): within the
   * limits, and on a main-street block other than the core commercial
   * exactly when the commercial draw exceeds 0.6.
   */
  predicate LotFrom(g: Grid, bx: int, bz: int, u: seq<real>, l: Lot)
    requires |u| == LotDraws(bx, bz)
  {
    && LotOk(g, bx, bz, l)
    && (OnMainStreet(bx, bz) && !IsCore(bx, bz) ==> (l.commercial <==> u[3] > 0.6))
  }

  /** The lot that the draws `u` (in call order) produce in block (bx, bz). */
  function LotOf(g: Grid, bx: int, bz: int, u: seq<real>): (l: Lot)
    requires WellFormed(g) && |u| == LotDraws(bx, bz) && UnitDraws(u)
    ensures LotFrom(g, bx, bz, u, l)
  {
    DeferredLotOf(g, bx, bz, u, 1)
  }

  /**
   * `DeferredLotOf(g, bx, bz, u, 0)` is `LotFromDraws(g, bx, bz, u)`; each
   * further level only defers that, so that proofs about many lots see
   * `LotOf` through its contract alone.
   * The recursion on `levels` is a folding device, not an induction: it computes nothing beyond level 0.
   */
  function DeferredLotOf(g: Grid, bx: int, bz: int, u: seq<real>, levels: nat): (l: Lot)
    requires WellFormed(g) && |u| == LotDraws(bx, bz) && UnitDraws(u)
    ensures LotFrom(g, bx, bz, u, l)
  {
    if levels > 0 then DeferredLotOf(g, bx, bz, u, levels - 1) else LotFromDraws(g, bx, bz, u)
  }

  /** The computation of the lot from its draws. */
  function LotFromDraws(g: Grid, bx: int, bz: int, u: seq<real>): (l: Lot)
    requires WellFormed(g) && |u| == LotDraws(bx, bz) && UnitDraws(u)
    ensures LotFrom(g, bx, bz, u, l)
  {
    var setback := 0.6 + u[0] * 0.3;
    var widthLimit := WidthLimit(g);
    var depthLimit := DepthLimit(g, setback);
    assert g.lotBase * (0.75 + u[1] * 0.45) >= 1.2 by {
      assert 0.75 + u[1] * 0.45 >= 0.75;
    }
    assert g.blockSize * (0.2 + u[2] * 0.08) >= 1.2 by {
      assert 0.2 + u[2] * 0.08 >= 0.2;
    }
    var width := Min(g.lotBase * (0.75 + u[1] * 0.45), widthLimit);
    var depth := Min(g.blockSize * (0.2 + u[2] * 0.08), depthLimit);
    var commercial := IsCore(bx, bz) || (OnMainStreet(bx, bz) && u[3] > 0.6);
    Lot(setback, width, depth, commercial)
  }

  /** Centre of lot `lot` along an edge of block `b`. */
  function LotCentre(g: Grid, b: int, lot: int): real
  {
    BlockMin(g, b) + (lot as real + 0.5) * g.lotSpan
  }

  /** The lot centres lie strictly inside their block. */
  lemma LotCentreInBlock(g: Grid, b: int, lot: int)
    requires WellFormed(g) && 0 <= lot < g.lots
    ensures BlockMin(g, b) < LotCentre(g, b, lot) < BlockMax(g, b)
  {
    var gap := g.lots as real - (lot as real + 0.5);
    assert gap > 0.0;
    assert gap * g.lotSpan > 0.0;
    assert (lot as real + 0.5) * g.lotSpan == g.blockSize - gap * g.lotSpan;
  }

  /**
   * `rotationY / (pi / 2)` of the building on side `side` of a lot: the four
   * `addBuilding` calls use 0, pi, -pi/2 and pi/2 in that order.
   */
  function SideTurns(side: int): int
  {
    if side == 0 then 0 else if side == 1 then 2 else if side == 2 then -1 else 1
  }

  /** Position of the building on side `side` of lot `lot`, as the four calls compute it. */
  function SideX(g: Grid, bx: int, lot: int, l: Lot, side: int): real
  {
    if side <= 1 then LotCentre(g, bx, lot)
    else if side == 2 then BlockMax(g, bx) - l.depth / 2.0 - l.setback
    else BlockMin(g, bx) + l.depth / 2.0 + l.setback
  }

  function SideZ(g: Grid, bz: int, lot: int, l: Lot, side: int): real
  {
    if side == 0 then BlockMax(g, bz) - l.depth / 2.0 - l.setback
    else if side == 1 then BlockMin(g, bz) + l.depth / 2.0 + l.setback
    else LotCentre(g, bz, lot)
  }

  // ---------------------------------------------------------------------
  // Buildings (`addBuilding`)
  // ---------------------------------------------------------------------

  /** Draws one placed building consumes: height, roof type (residential only), four colour draws. */
  function HouseDraws(isCommercial: bool): nat
  {
    if isCommercial then 5 else 6
  }

  /** Draws consumed by `n` placed buildings of one kind. */
  function KindDraws(n: int, isCommercial: bool): int
  {
    if isCommercial then 5 * n else 6 * n
  }

  /** `min(5, max(2, floor(extent)))`: one window row (column) per unit, clamped to 2..5. */
  function WindowCount(extent: real): (n: int)
    ensures 2 <= n <= 5
    ensures 2.0 <= extent < 6.0 ==> n == extent.Floor
    ensures extent < 3.0 ==> n == 2
    ensures extent >= 5.0 ==> n == 5
  {
    IntMin(5, IntMax(2, extent.Floor))
  }

  /** Blue-grey body, warm roof, lit blue-white windows. */
  predicate BodyShade(c: Hsl) { c.hue == 0.55 && 0.15 <= c.saturation < 0.35 && 0.22 <= c.lightness < 0.57 }
  predicate RoofShade(c: Hsl) { c.hue == 0.08 && c.saturation == 0.2 && 0.2 <= c.lightness < 0.4 }
  predicate WindowShade(c: Hsl) { c.hue == 0.55 && c.saturation == 0.6 && 0.6 <= c.lightness < 0.8 }

  /** What every building satisfies, whatever its draws. */
  predicate HouseShape(maxHeight: real, h: House)
  {
    && h.height >= 1.6
    && h.roofHeight >= 0.35
    && h.roofHeight >= h.height * (if h.isCommercial then 0.18 else 0.28)
    && 2 <= h.windowRows <= 5 && h.windowRows == WindowCount(h.height)
    && 2 <= h.windowCols <= 5 && h.windowCols == WindowCount(h.width)
    && (h.isCommercial ==> h.roofType == Flat)
    && BodyShade(h.bodyColor) && RoofShade(h.roofColor) && WindowShade(h.windowColor)
    && (maxHeight >= 4.0 ==>
          if h.isCommercial then 0.7 * maxHeight <= h.height < 1.3 * maxHeight
          else 0.4 * maxHeight <= h.height < maxHeight)
  }

  /**
   * `h` is the building `addBuilding` pushes once it has drawn `u`: shaped as
   * every building is, at the given place, size, rotation and kind, with a
   * gable roof exactly when a residential building's roof draw exceeds 0.2.
   */
  predicate HouseFrom(maxHeight: real, x: real, z: real, width: real, depth: real,
                      quarterTurns: int, isCommercial: bool, u: seq<real>, h: House)
    requires |u| == HouseDraws(isCommercial)
  {
    && HouseShape(maxHeight, h)
    && h.x == x && h.z == z && h.width == width && h.depth == depth
    && h.quarterTurns == quarterTurns && h.isCommercial == isCommercial
    && (!isCommercial ==> (h.roofType == Gable <==> u[1] > 0.2))
  }

  /**
   * The building `addBuilding` pushes once it has drawn `u`, in call order:
   * height, roof type (residential only), body saturation and lightness,
   * roof lightness, window lightness.
   */
  function MakeHouse(maxHeight: real, x: real, z: real, width: real, depth: real,
                     quarterTurns: int, isCommercial: bool, u: seq<real>): (h: House)
    requires |u| == HouseDraws(isCommercial) && UnitDraws(u)
    ensures HouseFrom(maxHeight, x, z, width, depth, quarterTurns, isCommercial, u, h)
  {
    DeferredHouse(maxHeight, x, z, width, depth, quarterTurns, isCommercial, u, 1)
  }

  /**
   * `DeferredHouse(..., 0)` is `HouseOf(...)`; each further level only defers
   * that, so that proofs about many buildings see `MakeHouse` through its
   * contract alone.
   * The recursion on `levels` is a folding device, not an induction: it computes nothing beyond level 0.
   */
  function DeferredHouse(maxHeight: real, x: real, z: real, width: real, depth: real,
                         quarterTurns: int, isCommercial: bool, u: seq<real>, levels: nat): (h: House)
    requires |u| == HouseDraws(isCommercial) && UnitDraws(u)
    ensures HouseFrom(maxHeight, x, z, width, depth, quarterTurns, isCommercial, u, h)
  {
    if levels > 0 then DeferredHouse(maxHeight, x, z, width, depth, quarterTurns, isCommercial, u, levels - 1)
    else HouseOf(maxHeight, x, z, width, depth, quarterTurns, isCommercial, u)
  }

  /**
   * Height from the height draw: at least 1.6; from 0.7 to 1.3 times the
   * maximum for commercial buildings and 0.4 to 1 times it for residential
   * ones, whenever the maximum is at least 4.
   */
  function HouseHeight(maxHeight: real, isCommercial: bool, u: real): (height: real)
    requires 0.0 <= u < 1.0
    ensures height >= 1.6
    ensures maxHeight >= 4.0 ==>
      if isCommercial then 0.7 * maxHeight <= height < 1.3 * maxHeight
      else 0.4 * maxHeight <= height < maxHeight
  {
    var heightBase := if isCommercial then maxHeight * 0.7 else maxHeight * 0.4;
    var extra := u * (maxHeight * 0.6);
    assert maxHeight >= 4.0 ==> 0.0 <= extra < maxHeight * 0.6 by {
      if maxHeight >= 4.0 {
        assert (1.0 - u) * (maxHeight * 0.6) > 0.0;
      }
    }
    Max(1.6, heightBase + extra)
  }

  /** The computation of the building from its draws. */
  function HouseOf(maxHeight: real, x: real, z: real, width: real, depth: real,
                   quarterTurns: int, isCommercial: bool, u: seq<real>): (h: House)
    requires |u| == HouseDraws(isCommercial) && UnitDraws(u)
    ensures HouseFrom(maxHeight, x, z, width, depth, quarterTurns, isCommercial, u, h)
  {
    var c := if isCommercial then 0 else 1;
    var height := HouseHeight(maxHeight, isCommercial, u[0]);
    var roofType := if isCommercial then Flat else if u[1] > 0.2 then Gable else Flat;
    var roofHeight := Max(0.35, height * (if isCommercial then 0.18 else 0.28));
    var bodyColor := Hsl(0.55, 0.15 + u[1 + c] * 0.2, 0.22 + u[2 + c] * 0.35);
    var roofColor := Hsl(0.08, 0.2, 0.2 + u[3 + c] * 0.2);
    var windowColor := Hsl(0.55, 0.6, 0.6 + u[4 + c] * 0.2);
    House(x, z, width, depth, height, roofHeight, roofType, bodyColor, roofColor, windowColor,
          WindowCount(height), WindowCount(width), quarterTurns, isCommercial)
  }

  // ---------------------------------------------------------------------
  // Where things stand: sites and the per-element invariants
  // ---------------------------------------------------------------------

  /**
   * Where an element was generated: block (bx, bz), then the lot (buildings)
   * or the corner (trees) in `slot`, and the side of the lot in `side`.
   * Parks use slot 0 and side 0, trees side 0.
   */
  datatype Site = Site(bx: int, bz: int, slot: int, side: int)

  /** Position in generation order: bx outer, bz inner, then slot, then side. */
  function Rank(s: Site): int
  {
    ((s.bx * 3 + s.bz) * 4 + s.slot) * 4 + s.side
  }

  /** Rank of the first thing generated in block number `n` (bx-major). */
  function BlockRank(n: int): int { 16 * n }

  predicate InGrid(bx: int, bz: int) { 0 <= bx < BlockCount && 0 <= bz < BlockCount }

  /** Distance from the block edge the building faces to the building's footprint. */
  function Setback(g: Grid, h: House, s: Site): real
  {
    if s.side == 0 then BlockMax(g, s.bz) - h.depth / 2.0 - h.z
    else if s.side == 1 then h.z - h.depth / 2.0 - BlockMin(g, s.bz)
    else if s.side == 2 then BlockMax(g, s.bx) - h.depth / 2.0 - h.x
    else h.x - h.depth / 2.0 - BlockMin(g, s.bx)
  }

  /**
   * Building `h` stands on lot `s.slot` of side `s.side` of block (s.bx, s.bz):
   * centred on the lot along the edge, set back 0.6 to 0.9 from that edge,
   * turned to face it, and shaped as every building is.
   */
  predicate HouseAt(g: Grid, maxHeight: real, h: House, s: Site)
  {
    && InGrid(s.bx, s.bz) && 0 <= s.slot < g.lots && 0 <= s.side < 4
    && HouseShape(maxHeight, h)
    && h.quarterTurns == SideTurns(s.side)
    && (IsCore(s.bx, s.bz) ==> h.isCommercial)
    && (!OnMainStreet(s.bx, s.bz) ==> !h.isCommercial)
    && 1.2 <= h.width <= WidthLimit(g)
    && 1.2 <= h.depth <= DepthLimit(g, Setback(g, h, s))
    && 0.6 <= Setback(g, h, s) < 0.9
    && (if s.side <= 1 then h.x == LotCentre(g, s.bx, s.slot) else h.z == LotCentre(g, s.bz, s.slot))
  }

  /** The buildings of one lot share width, depth and kind. */
  predicate SameLot(a: House, b: House)
  {
    a.width == b.width && a.depth == b.depth && a.isCommercial == b.isCommercial
  }

  /** Sites strictly increasing in generation order (no site used twice). */
  ghost predicate InOrder(sites: seq<Site>)
  {
    forall i, j :: 0 <= i < j < |sites| ==> Rank(sites[i]) < Rank(sites[j])
  }

  /**
   * The buildings, with their sites: each stands where its site says, they
   * come in generation order (so, within a lot, in side order 0, 1, 2, 3:
   * rotations 0, pi, -pi/2, pi/2), and the buildings of one lot share its
   * width, depth and kind.
   */
  ghost predicate BuildingsOk(g: Grid, maxHeight: real, bs: seq<House>, sites: seq<Site>)
  {
    DeferredBuildingsOk(g, maxHeight, bs, sites, 1)
  }

  /**
   * `DeferredBuildingsOk(g, maxHeight, bs, sites, 0)` is the definition; each
   * further level only defers it, so that proofs about long sequences see
   * `BuildingsOk` folded unless they ask for its parts.
   * The recursion on `levels` is a folding device, not an induction: it computes nothing beyond level 0.
   */
  ghost predicate DeferredBuildingsOk(g: Grid, maxHeight: real, bs: seq<House>, sites: seq<Site>, levels: nat)
  {
    if levels > 0 then DeferredBuildingsOk(g, maxHeight, bs, sites, levels - 1)
    else
    && |bs| == |sites|
    && (forall i :: 0 <= i < |bs| ==> HouseAt(g, maxHeight, bs[i], sites[i]))
    && InOrder(sites)
    && (forall i, j :: 0 <= i < j < |bs| && SameLotSite(sites[i], sites[j]) ==> SameLot(bs[i], bs[j]))
  }

  /** Two sites on the same lot of the same block. */
  predicate SameLotSite(a: Site, b: Site)
  {
    a.bx == b.bx && a.bz == b.bz && a.slot == b.slot
  }

  /** Draws consumed by the buildings `hs`: 5 per commercial, 6 per residential one. */
  function HouseDrawTotal(hs: seq<House>): nat
  {
    if hs == [] then 0
    else HouseDrawTotal(hs[..|hs| - 1]) + HouseDraws(hs[|hs| - 1].isCommercial)
  }

  lemma {:induction false} HouseDrawTotalConcat(a: seq<House>, b: seq<House>)
    ensures HouseDrawTotal(a + b) == HouseDrawTotal(a) + HouseDrawTotal(b)
    decreases |b|
  {
    if b != [] {
      assert (a + b)[..|a + b| - 1] == a + b[..|b| - 1];
      HouseDrawTotalConcat(a, b[..|b| - 1]);
    } else {
      assert a + b == a;
    }
  }

  // ---------------------------------------------------------------------
  // Parks, trees, lamps, streets
  // ---------------------------------------------------------------------

  /** The park of block (bx, bz), from its size draw. */
  function ParkOf(g: Grid, bx: int, bz: int, u: real): (p: Strip)
    requires WellFormed(g) && 0.0 <= u < 1.0
    ensures p.x == BlockCentre(g, bx) && p.z == BlockCentre(g, bz)
    ensures p.width == p.depth
    ensures 0.28 * g.blockSize <= p.width < 0.46 * g.blockSize
  {
    var parkSize := g.blockSize * (0.28 + u * 0.18);
    assert g.blockSize * (u * 0.18) < g.blockSize * 0.18;
    Strip(BlockCentre(g, bx), BlockCentre(g, bz), parkSize, parkSize)
  }

  /** A park patch centred on its block, square, 28% to 46% of the block wide. */
  predicate ParkAt(g: Grid, p: Strip, s: Site)
  {
    && InGrid(s.bx, s.bz) && s.slot == 0 && s.side == 0
    && p.x == BlockCentre(g, s.bx) && p.z == BlockCentre(g, s.bz)
    && p.width == p.depth
    && 0.28 * g.blockSize <= p.width < 0.46 * g.blockSize
  }

  /** At most one park per block, in block order. */
  ghost predicate ParksOk(g: Grid, ps: seq<Strip>, sites: seq<Site>)
  {
    && |ps| == |sites|
    && (forall i :: 0 <= i < |ps| ==> ParkAt(g, ps[i], sites[i]))
    && InOrder(sites)
  }

  /** Corner `corner` of block (bx, bz), pulled in by 0.8 sidewalk widths. */
  function CornerX(g: Grid, bx: int, corner: int): real
  {
    if corner % 2 == 0 then BlockMin(g, bx) + SidewalkWidth * 0.8 else BlockMax(g, bx) - SidewalkWidth * 0.8
  }

  function CornerZ(g: Grid, bz: int, corner: int): real
  {
    if corner < 2 then BlockMin(g, bz) + SidewalkWidth * 0.8 else BlockMax(g, bz) - SidewalkWidth * 0.8
  }

  /** A tree within 0.2 of its corner point on each axis, 0.6 to 1.3 tall, canopy 0.5 to 1.1. */
  predicate TreeAt(g: Grid, t: Tree, s: Site)
  {
    && InGrid(s.bx, s.bz) && 0 <= s.slot < 4 && s.side == 0
    && -0.2 <= t.x - CornerX(g, s.bx, s.slot) < 0.2
    && -0.2 <= t.z - CornerZ(g, s.bz, s.slot) < 0.2
    && 0.6 <= t.height < 1.3
    && 0.5 <= t.canopy < 1.1
  }

  /** The tree planted at corner `corner` of block (bx, bz), from its four draws. */
  function MakeTree(g: Grid, bx: int, bz: int, corner: int, u: seq<real>): (t: Tree)
    requires InGrid(bx, bz) && 0 <= corner < 4
    requires |u| == 4 && UnitDraws(u)
    ensures TreeAt(g, t, Site(bx, bz, corner, 0))
  {
    Tree(CornerX(g, bx, corner) + (u[0] - 0.5) * 0.4,
         CornerZ(g, bz, corner) + (u[1] - 0.5) * 0.4,
         0.6 + u[2] * 0.7,
         0.5 + u[3] * 0.6)
  }

  /** At most one tree per corner, in generation order. */
  ghost predicate TreesOk(g: Grid, ts: seq<Tree>, sites: seq<Site>)
  {
    && |ts| == |sites|
    && (forall i :: 0 <= i < |ts| ==> TreeAt(g, ts[i], sites[i]))
    && InOrder(sites)
  }

  /** Height shared by the four lamps of one street line. */
  function LampHeight(u: real): (h: real)
    requires 0.0 <= u < 1.0
    ensures 1.1 <= h < 1.7
  {
    1.1 + u * 0.6
  }

  /** The four lamps of line `i`: both ends of the line, both ends of its crossing line. */
  function LampsAt(g: Grid, i: int, height: real): seq<LightPole>
  {
    var pos := GridLine(g, i);
    var edge := g.totalSpan / 2.0 - StreetWidth * 0.6;
    [LightPole(pos, -edge, height), LightPole(pos, edge, height),
     LightPole(-edge, pos, height), LightPole(edge, pos, height)]
  }

  /** The two roads of line `i`: one along x at z = line, one along z at x = line, both full span. */
  function RoadsAt(g: Grid, i: int): seq<Strip>
  {
    var pos := GridLine(g, i);
    [Strip(0.0, pos, g.totalSpan, StreetWidth), Strip(pos, 0.0, StreetWidth, g.totalSpan)]
  }

  /** The four sidewalks of line `i`, each touching one long edge of one of its roads. */
  function SidewalksAt(g: Grid, i: int): seq<Strip>
  {
    var pos := GridLine(g, i);
    var off := StreetWidth / 2.0 + SidewalkWidth / 2.0;
    [Strip(0.0, pos - off, g.totalSpan, SidewalkWidth), Strip(0.0, pos + off, g.totalSpan, SidewalkWidth),
     Strip(pos - off, 0.0, SidewalkWidth, g.totalSpan), Strip(pos + off, 0.0, SidewalkWidth, g.totalSpan)]
  }
}
