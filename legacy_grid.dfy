/**
 * The earlier grid module: a structured grid whose minimum-zoom array is
 * written only on the thinned lattice, the thinned plate carree grid's
 * dimensions and bounds, and an unstructured grid whose data copy breaks
 * on the length of the output array.
 *
 * xyThinFromMaxZoom and the structured thinDataArray of this module are
 * the same as the ones in StructuredGrids, and the unstructured
 * constructor's dimensions are those of NewUnstructuredGrid without an
 * explicit zoom array; they are reused from there.
 */
module LegacyGrids {
  import opened Wrappers
  import opened Utils
  import opened StructuredGrids
  import opened UnstructuredGrids

  // ----- StructuredGrid.getMinVisibleZoom -----

  /** The array position of lattice point (a * thin_y, b * thin_x). */
  function StrideCell(g: StructuredGrid, a: nat, b: nat): nat
  {
    Cell(g.ni, a * g.ThinY(), b * g.ThinX())
  }

  /** The zoom stored for index point (ilat, ilon); thin_fac is 2^thinExp, not divided. */
  function LegacyZoom(thinExp: nat, ilat: nat, ilon: nat): int
  {
    Uint8(1 + Halvings(ilat, ilon, thinExp))
  }

  /** A typed-array store: out-of-range writes are dropped. */
  function Put(s: seq<int>, k: nat, v: int): (r: seq<int>)
    ensures |r| == |s|
    ensures forall m | 0 <= m < |s| :: r[m] == (if m == k then v else s[m])
  {
    if k < |s| then s[k := v] else s
  }

  /** The array after the first b writes of lattice row a. */
  function RowWrites(s: seq<int>, g: StructuredGrid, thinExp: nat, a: nat, b: nat): (r: seq<int>)
    ensures |r| == |s|
  {
    if b == 0 then s
    else Put(RowWrites(s, g, thinExp, a, b - 1), StrideCell(g, a, b - 1),
             LegacyZoom(thinExp, a * g.ThinY(), (b - 1) * g.ThinX()))
  }

  /** The array after the first a lattice rows, starting from zeros. */
  function AllWrites(g: StructuredGrid, thinExp: nat, a: nat): (r: seq<int>)
    ensures |r| == g.ni * g.nj
  {
    if a == 0 then seq(g.ni * g.nj, _ => 0)
    else RowWrites(AllWrites(g, thinExp, a - 1), g, thinExp, a - 1, g.ni)
  }

  /**
   * The strided loops: ilat steps by thin_y below nj * thin_y and ilon by
   * thin_x below ni * thin_x, writing min_zoom[ilat * ni + ilon].
   */
  method GetMinVisibleZoom(g: StructuredGrid, thinExp: nat) returns (minZoom: array<int>)
    ensures fresh(minZoom)
    ensures minZoom[..] == AllWrites(g, thinExp, g.nj)
  {
    minZoom := new int[g.ni * g.nj](_ => 0);
    assert minZoom[..] == AllWrites(g, thinExp, 0);
    var ilat := 0;
    ghost var a := 0;
    while ilat < g.nj * g.ThinY()
      invariant a <= g.nj && ilat == a * g.ThinY()
      invariant minZoom[..] == AllWrites(g, thinExp, a)
    {
      LatticeRow(minZoom, g, thinExp, ilat, a);
      ilat := ilat + g.ThinY();
      a := a + 1;
      NextStride(a, g.nj, g.ThinY(), ilat);
    }
    StepExact(a, g.nj, g.ThinY());
  }

  lemma NextStride(a: nat, n: nat, t: nat, i: nat)
    requires t >= 1 && a >= 1 && i == (a - 1) * t + t && (a - 1) * t < n * t
    ensures a <= n && i == a * t
  {
    StepBound(a, n, t);
  }

  /** One pass of the outer loop: lattice row a, that is ilat = a * thin_y. */
  method LatticeRow(minZoom: array<int>, g: StructuredGrid, thinExp: nat, ilat: nat, ghost a: nat)
    requires ilat == a * g.ThinY() && minZoom.Length == g.ni * g.nj
    modifies minZoom
    ensures minZoom[..] == RowWrites(old(minZoom[..]), g, thinExp, a, g.ni)
  {
    var ilon := 0;
    ghost var b := 0;
    ghost var before := minZoom[..];
    while ilon < g.ni * g.ThinX()
      invariant b <= g.ni && ilon == b * g.ThinX()
      invariant minZoom[..] == RowWrites(before, g, thinExp, a, b)
      decreases g.ni - b
    {
      ilon, b := LatticePoint(minZoom, g, thinExp, ilat, a, ilon, b, before);
    }
    StepExact(b, g.ni, g.ThinX());
  }

  /** One pass of the inner loop: lattice point b of row a, that is ilon = b * thin_x. */
  method LatticePoint(minZoom: array<int>, g: StructuredGrid, thinExp: nat, ilat: nat, ghost a: nat,
                      ilon: nat, ghost b: nat, ghost before: seq<int>)
    returns (nextIlon: nat, ghost nextB: nat)
    requires ilat == a * g.ThinY() && ilon == b * g.ThinX() && ilon < g.ni * g.ThinX()
    requires minZoom[..] == RowWrites(before, g, thinExp, a, b)
    modifies minZoom
    ensures nextB == b + 1 && nextB <= g.ni && nextIlon == nextB * g.ThinX()
    ensures minZoom[..] == RowWrites(before, g, thinExp, a, nextB)
  {
    var idx := Cell(g.ni, ilat, ilon);
    assert idx == StrideCell(g, a, b);
    var z := GetMinZoom(ilat, ilon, thinExp);
    if idx < minZoom.Length {
      minZoom[idx] := Uint8(z);
    }
    nextIlon := ilon + g.ThinX();
    nextB := b + 1;
    StepBound(nextB, g.ni, g.ThinX());
  }

  /** A stride loop's counter stays within its bound. */
  lemma StepBound(b: nat, n: nat, t: nat)
    requires t >= 1 && (b - 1) * t < n * t
    ensures b <= n
  {
    if b > n {
      MulMono(n + 1, b, t);
    }
  }

  /** A stride loop ends after exactly n steps. */
  lemma StepExact(b: nat, n: nat, t: nat)
    requires t >= 1 && b <= n && b * t >= n * t
    ensures b == n
  {
    if b < n {
      MulMono(b + 1, n, t);
    }
  }

  /** Entries no lattice point of row a writes to keep their value. */
  lemma {:induction false} RowWritesOther(s: seq<int>, g: StructuredGrid, thinExp: nat, a: nat, b: nat, k: nat)
    requires k < |s|
    requires forall b2 | 0 <= b2 < b :: StrideCell(g, a, b2) != k
    ensures RowWrites(s, g, thinExp, a, b)[k] == s[k]
  {
    if b > 0 {
      RowWritesOther(s, g, thinExp, a, b - 1, k);
    }
  }

  /** Entries off the thinned lattice are never written and stay 0. */
  lemma {:induction false} OffLatticeZero(g: StructuredGrid, thinExp: nat, a: nat, k: nat)
    requires k < g.ni * g.nj
    requires forall a2, b2 | 0 <= a2 < a && 0 <= b2 < g.ni :: StrideCell(g, a2, b2) != k
    ensures AllWrites(g, thinExp, a)[k] == 0
  {
    if a > 0 {
      OffLatticeZero(g, thinExp, a - 1, k);
      RowWritesOther(AllWrites(g, thinExp, a - 1), g, thinExp, a - 1, g.ni, k);
    }
  }

  /** Without thinning, row a writes exactly its own ni entries. */
  lemma {:induction false} UnitRow(s: seq<int>, g: StructuredGrid, thinExp: nat, a: nat, b: nat, k: nat)
    requires g.thinXExp == 0 && g.thinYExp == 0 && k < |s| && b <= g.ni
    ensures Cell(g.ni, a, 0) <= k < Cell(g.ni, a, 0) + b ==>
      RowWrites(s, g, thinExp, a, b)[k] == LegacyZoom(thinExp, a, k - Cell(g.ni, a, 0))
    ensures !(Cell(g.ni, a, 0) <= k < Cell(g.ni, a, 0) + b) ==> RowWrites(s, g, thinExp, a, b)[k] == s[k]
  {
    if b > 0 {
      UnitRow(s, g, thinExp, a, b - 1, k);
    }
  }

  /** Without thinning, every point of the first a rows holds its own zoom. */
  lemma {:induction false} UnitRows(g: StructuredGrid, thinExp: nat, a: nat, j: nat, i: nat)
    requires g.thinXExp == 0 && g.thinYExp == 0
    requires j < a <= g.nj && i < g.ni
    ensures Cell(g.ni, j, i) < g.ni * g.nj
    ensures AllWrites(g, thinExp, a)[Cell(g.ni, j, i)] == LegacyZoom(thinExp, j, i)
  {
    CellInRange(g.ni, g.nj, j, i);
    var prev := AllWrites(g, thinExp, a - 1);
    UnitRow(prev, g, thinExp, a - 1, g.ni, Cell(g.ni, j, i));
    if j < a - 1 {
      UnitRows(g, thinExp, a - 1, j, i);
      CellBefore(g.ni, j, i, a - 1, 0);
    }
  }

  /**
   * With thin_x = thin_y = 1 the entry of point (ilon, ilat) is
   * getMinZoom(ilat, ilon, thin_fac), as in the newer version.
   */
  lemma UnthinnedZoom(g: StructuredGrid, thinExp: nat, ilat: nat, ilon: nat)
    requires g.thinXExp == 0 && g.thinYExp == 0 && ilat < g.nj && ilon < g.ni
    ensures Cell(g.ni, ilat, ilon) < g.ni * g.nj
    ensures AllWrites(g, thinExp, g.nj)[Cell(g.ni, ilat, ilon)] == PointZoom(g, thinExp, ilat, ilon)
  {
    UnitRows(g, thinExp, g.nj, ilat, ilon);
  }

  // ----- PlateCarreeGrid.getThinnedGrid -----

  datatype PlateCarreeGrid = PlateCarreeGrid(grid: StructuredGrid, llLon: real, llLat: real, urLon: real, urLat: real)

  /** ceil(n / t) for a positive integer t. */
  function CeilDiv(n: nat, t: nat): (c: nat)
    requires t >= 1
    ensures n >= 1 ==> c >= 1
  {
    DivAtLeastOne(n + t - 1, t);
    (n + t - 1) / t
  }

  lemma DivAtLeastOne(m: nat, t: nat)
    requires 1 <= t
    ensures m >= t ==> m / t >= 1
  {
  }

  /** ceil(n / t) is the number of lattice points 0, t, 2t, ... below n. */
  lemma CeilDivCounts(n: nat, t: nat)
    requires t >= 1 && n >= 1
    ensures CeilDiv(n, t) >= 1
    ensures (CeilDiv(n, t) - 1) * t <= n - 1 < CeilDiv(n, t) * t
    ensures (n - 1) == (CeilDiv(n, t) - 1) * t + (n - 1) % t
  {
    var c := CeilDiv(n, t);
    var q := (n - 1) / t;
    var r := (n - 1) % t;
    assert n - 1 == q * t + r;
    assert n + t - 1 == (q + 1) * t + r;
    DivOfSum(q + 1, t, r);
    assert c == q + 1;
  }

  lemma DivOfSum(q: nat, t: nat, r: nat)
    requires t >= 1 && r < t
    ensures (q * t + r) / t == q
  {
    var n := q * t + r;
    var d := n / t;
    assert n == d * t + n % t;
    MulStep(q, d, t);
    MulStep(d, q, t);
  }

  /** A strictly larger multiplier gives a product at least one factor larger. */
  lemma MulStep(a: nat, b: nat, t: nat)
    ensures a < b ==> a * t + t <= b * t
  {
    if a < b {
      MulMono(a + 1, b, t);
    }
  }

  /** The thinned grid's dimensions and thinning factors, as getThinnedGrid computes them. */
  function ThinnedDims(g: StructuredGrid, thinExp: nat, mapMaxZoom: int): (t: StructuredGrid)
  {
    var n := InaccessibleTiers(thinExp, mapMaxZoom);
    var f := XyThinFromMaxZoom(thinExp, mapMaxZoom);
    StructuredGrid(CeilDiv(g.ni, f.0), CeilDiv(g.nj, f.1), g.thinXExp + n, g.thinYExp + n)
  }

  /**
   * The thinned grid has one point per kept lattice column and row, and
   * its thinning factors are the old ones times the new ones.
   */
  lemma ThinnedDimsCount(g: StructuredGrid, thinExp: nat, mapMaxZoom: int)
    requires g.ni >= 1 && g.nj >= 1
    ensures var t := ThinnedDims(g, thinExp, mapMaxZoom);
      var f := XyThinFromMaxZoom(thinExp, mapMaxZoom);
      (t.ni - 1) * f.0 <= g.ni - 1 < t.ni * f.0 &&
      (t.nj - 1) * f.1 <= g.nj - 1 < t.nj * f.1 &&
      t.ThinX() == g.ThinX() * f.0 && t.ThinY() == g.ThinY() * f.1
  {
    var n := InaccessibleTiers(thinExp, mapMaxZoom);
    var f := XyThinFromMaxZoom(thinExp, mapMaxZoom);
    CeilDivCounts(g.ni, f.0);
    CeilDivCounts(g.nj, f.1);
    Pow2Add(g.thinXExp, n);
    Pow2Add(g.thinYExp, n);
  }

  /**
   * Thinning an unthinned grid onto these dimensions reads only existing
   * data: every index thinDataArray computes lies inside the original array.
   */
  lemma ThinnedReadsInRange(g: StructuredGrid, thinExp: nat, mapMaxZoom: int, i: nat, j: nat)
    requires g.ni >= 1 && g.nj >= 1 && g.thinXExp == 0 && g.thinYExp == 0
    requires i < ThinnedDims(g, thinExp, mapMaxZoom).ni && j < ThinnedDims(g, thinExp, mapMaxZoom).nj
    ensures OldIndex(ThinnedDims(g, thinExp, mapMaxZoom), g, i, j) < g.ni * g.nj
  {
    var t := ThinnedDims(g, thinExp, mapMaxZoom);
    var f := XyThinFromMaxZoom(thinExp, mapMaxZoom);
    ThinnedDimsCount(g, thinExp, mapMaxZoom);
    var x := i * f.0;
    var y := j * f.1;
    MulMono(i, t.ni - 1, f.0);
    MulMono(j, t.nj - 1, f.1);
    MulAssoc(g.ni, j, f.1);
    IndexBound(g.ni, g.nj, x, y);
  }

  lemma MulAssoc(a: nat, b: nat, c: nat)
    ensures a * b * c == a * (b * c)
  {
  }

  /** A column and row within the grid give a position within its array. */
  lemma IndexBound(ni: nat, nj: nat, x: nat, y: nat)
    requires 1 <= ni && 1 <= nj && x < ni && y < nj
    ensures x + ni * y < ni * nj
  {
    MulMono(y + 1, nj, ni);
  }

  /**
   * getThinnedGrid as written: the east and north edges drop the trailing
   * columns and rows with a spacing of (ur - ll) / n.
   */
  function ThinnedPlateCarree(pc: PlateCarreeGrid, thinExp: nat, mapMaxZoom: int): (t: PlateCarreeGrid)
    requires pc.grid.ni >= 1 && pc.grid.nj >= 1
    ensures t.grid == ThinnedDims(pc.grid, thinExp, mapMaxZoom)
    ensures t.llLon == pc.llLon && t.llLat == pc.llLat
  {
    var f := XyThinFromMaxZoom(thinExp, mapMaxZoom);
    var dlon := (pc.urLon - pc.llLon) / (pc.grid.ni as real);
    var dlat := (pc.urLat - pc.llLat) / (pc.grid.nj as real);
    var niRemove := (pc.grid.ni - 1) % f.0;
    var njRemove := (pc.grid.nj - 1) % f.1;
    PlateCarreeGrid(ThinnedDims(pc.grid, thinExp, mapMaxZoom), pc.llLon, pc.llLat,
      pc.urLon - (niRemove as real) * dlon, pc.urLat - (njRemove as real) * dlat)
  }

  /** The constructor spaces ni points evenly from ll_lon to ur_lon. */
  function LonSpacing(pc: PlateCarreeGrid): real
    requires pc.grid.ni >= 2
  {
    (pc.urLon - pc.llLon) / ((pc.grid.ni - 1) as real)
  }

  /** The longitude of column i. */
  function ColumnLon(pc: PlateCarreeGrid, i: nat): real
    requires pc.grid.ni >= 2
  {
    pc.llLon + (i as real) * LonSpacing(pc)
  }

  /**
   * Four columns from 0 to 3, thinned by two, keep columns 0 and 2, but
   * the thinned grid's east edge is put at 2.25 instead of 2.
   */
  lemma ThinnedEastEdgeMisplaced()
    ensures var pc := PlateCarreeGrid(StructuredGrid(4, 4, 0, 0), 0.0, 0.0, 3.0, 3.0);
      var t := ThinnedPlateCarree(pc, 1, 1);
      t.grid.ni == 2 && t.grid.ThinX() == 2 &&
      t.urLon == 2.25 && ColumnLon(pc, (t.grid.ni - 1) * 2) == 2.0
  {
    var pc := PlateCarreeGrid(StructuredGrid(4, 4, 0, 0), 0.0, 0.0, 3.0, 3.0);
    assert XyThinFromMaxZoom(1, 1) == (2, 2);
    assert Pow2(1) == 2;
    assert ThinnedDims(pc.grid, 1, 1).ni == 2;
  }

  /**
   * getThinnedGrid with the constructor's spacing (ur - ll) / (n - 1): the
   * thinned grid's edges are the last kept column and row.
   */
  function CorrectedThinnedPlateCarree(pc: PlateCarreeGrid, thinExp: nat, mapMaxZoom: int): (t: PlateCarreeGrid)
    requires pc.grid.ni >= 1 && pc.grid.nj >= 1
    ensures t.grid == ThinnedDims(pc.grid, thinExp, mapMaxZoom)
    ensures t.llLon == pc.llLon && t.llLat == pc.llLat
  {
    var f := XyThinFromMaxZoom(thinExp, mapMaxZoom);
    var niRemove := (pc.grid.ni - 1) % f.0;
    var njRemove := (pc.grid.nj - 1) % f.1;
    var dlon := if pc.grid.ni >= 2 then LonSpacing(pc) else 0.0;
    var dlat := if pc.grid.nj >= 2 then (pc.urLat - pc.llLat) / ((pc.grid.nj - 1) as real) else 0.0;
    PlateCarreeGrid(ThinnedDims(pc.grid, thinExp, mapMaxZoom), pc.llLon, pc.llLat,
      pc.urLon - (niRemove as real) * dlon, pc.urLat - (njRemove as real) * dlat)
  }

  /** The corrected east edge is the longitude of the last kept column. */
  lemma CorrectedEastEdge(pc: PlateCarreeGrid, thinExp: nat, mapMaxZoom: int)
    requires pc.grid.ni >= 2 && pc.grid.nj >= 1
    ensures var t := CorrectedThinnedPlateCarree(pc, thinExp, mapMaxZoom);
      var f := XyThinFromMaxZoom(thinExp, mapMaxZoom);
      t.urLon == ColumnLon(pc, (t.grid.ni - 1) * f.0)
  {
    var t := CorrectedThinnedPlateCarree(pc, thinExp, mapMaxZoom);
    var tx := XyThinFromMaxZoom(thinExp, mapMaxZoom).0;
    CorrectedEdgeCells(pc, thinExp, mapMaxZoom);
    EdgeAtLastColumn(pc, t.urLon, (t.grid.ni - 1) * tx, (pc.grid.ni - 1) % tx);
  }

  /** An edge moved back by rem columns from the last column n - 1 is column n - 1 - rem. */
  lemma EdgeAtLastColumn(pc: PlateCarreeGrid, urT: real, last: nat, rem: nat)
    requires pc.grid.ni >= 2 && last + rem == pc.grid.ni - 1
    requires urT == pc.urLon - (rem as real) * LonSpacing(pc)
    ensures urT == ColumnLon(pc, last)
  {
    EdgeArith(pc.urLon, pc.llLon, pc.grid.ni - 1, last, rem);
  }

  /** The corrected east edge in terms of the removed columns and the kept column count. */
  lemma CorrectedEdgeCells(pc: PlateCarreeGrid, thinExp: nat, mapMaxZoom: int)
    requires pc.grid.ni >= 2 && pc.grid.nj >= 1
    ensures var t := CorrectedThinnedPlateCarree(pc, thinExp, mapMaxZoom);
      var tx := XyThinFromMaxZoom(thinExp, mapMaxZoom).0;
      (t.grid.ni - 1) * tx + (pc.grid.ni - 1) % tx == pc.grid.ni - 1 &&
      t.urLon == pc.urLon - (((pc.grid.ni - 1) % tx) as real) * LonSpacing(pc)
  {
    CeilDivCounts(pc.grid.ni, XyThinFromMaxZoom(thinExp, mapMaxZoom).0);
  }

  /** Moving the edge back by the removed columns lands on the last kept column. */
  lemma EdgeArith(ur: real, ll: real, n1: nat, last: nat, rem: nat)
    requires n1 >= 1 && last + rem == n1
    ensures ur - (rem as real) * ((ur - ll) / (n1 as real)) == ll + (last as real) * ((ur - ll) / (n1 as real))
  {
    var d := (ur - ll) / (n1 as real);
    RealDistrib(last as real, rem as real, d);
    DivTimes(ur - ll, n1 as real);
  }

  lemma RealDistrib(x: real, y: real, d: real)
    ensures x * d + y * d == (x + y) * d
  {
  }

  lemma DivTimes(a: real, b: real)
    requires b != 0.0
    ensures b * (a / b) == a
  {
  }

  // ----- transform -----

  /** PlateCarreeGrid and UnstructuredGrid work in lon/lat: the transform is the identity both ways. */
  function IdentityTransform(x: real, y: real, inverse: bool): (r: (real, real))
    ensures r.0 == x && r.1 == y
  {
    (x, y)
  }

  // ----- UnstructuredGrid -----

  /** getThinnedGrid: the points whose zoom from the cache is within the map's maximum zoom. */
  function ThinnedUnstructured(g: UnstructuredGrid, cached: seq<int>, mapMaxZoom: int): (t: UnstructuredGrid)
    ensures t.zoomArg.None?
    ensures IsSubseq(t.coords, g.coords)
  {
    KeptIsSubseq(g.coords, cached, mapMaxZoom, 0);
    assert g.coords[0..] == g.coords;
    NewUnstructuredGrid(KeptCoords(g.coords, cached, mapMaxZoom, 0), None)
  }

  /**
   * thinDataArray as written: the walk breaks once i_new reaches
   * new_data.length, that is ni * nj, instead of coords.length.
   */
  method ThinDataArray<T>(g: UnstructuredGrid, original: UnstructuredGrid, ary: seq<T>, zero: T, missing: T)
    returns (r: Result<array<T>>)
    ensures r.Err? <==> Walk(g.coords, original.coords, g.ni * g.nj, |original.coords|).Crashed?
    ensures r.Ok? ==> (fresh(r.value) &&
      r.value[..] == Copied(g.coords, original.coords, ary, g.ni * g.nj, seq(g.ni * g.nj, _ => zero), missing, |original.coords|))
  {
    r := CursorCopy(g.coords, original.coords, ary, g.ni * g.nj, g.ni * g.nj, zero, missing);
  }

  /** A walk over a prefix of the original list matches every point of the prefix in turn. */
  lemma {:induction false} PrefixWalk(orig: seq<Coord>, m: nat, cap: nat, i: nat)
    requires i <= m <= |orig| && cap > m
    ensures Walk(orig[..m], orig, cap, i) == Running(i)
  {
    if i > 0 {
      PrefixWalk(orig, m, cap, i - 1);
    }
  }

  /**
   * Below 4096 points ni * nj is the point count, so the break is the
   * intended one; from 4096 points on it is larger, and a thinned grid
   * holding the first 4096 of 4097 points makes the walk read past the
   * thinned list.
   */
  lemma LegacyThinCrashes(orig: seq<Coord>)
    requires |orig| == 4097
    ensures var t := NewUnstructuredGrid(orig[..4096], None);
      t.ni * t.nj == 8192 &&
      Walk(t.coords, orig, t.ni * t.nj, |orig|).Crashed?
  {
    var t := NewUnstructuredGrid(orig[..4096], None);
    assert t.ni == 4096 && t.nj == 2;
    PrefixWalk(orig, 4096, 8192, 4096);
  }

  /** The corrected walk, breaking at coords.length, fills every slot of the same input. */
  lemma CorrectedThinFills(orig: seq<Coord>)
    requires |orig| == 4097
    ensures var t := NewUnstructuredGrid(orig[..4096], None);
      Walk(t.coords, orig, |t.coords|, |orig|) == Stopped(4096)
  {
    PrefixWalk(orig, 4096, 4097, 4095);
    assert Walk(orig[..4096], orig, 4096, 4095) == Walk(orig[..4096], orig, 4097, 4095) by {
      SameWalkBelowCap(orig[..4096], orig, 4096, 4097, 4095);
    }
    assert Walk(orig[..4096], orig, 4096, 4096) == Stopped(4096);
  }

  /** Two caps above the cursor give the same walk. */
  lemma {:induction false} SameWalkBelowCap(thin: seq<Coord>, orig: seq<Coord>, cap1: nat, cap2: nat, i: nat)
    requires i <= |orig| && cap1 > i && cap2 > i
    ensures Walk(thin, orig, cap1, i) == Walk(thin, orig, cap2, i)
  {
    if i > 0 {
      SameWalkBelowCap(thin, orig, cap1, cap2, i - 1);
    }
  }
}
