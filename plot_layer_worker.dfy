/**
 * The buffer builders of the plot-layer worker: billboard anchors with
 * the minimum zoom packed into the texture coordinate, the triangle
 * strips of a grid's domain, and the vertex layout of extruded
 * polylines. Each fills preallocated Float32Arrays at advancing cursors.
 */
module PlotLayerWorker {
  import opened Wrappers
  import opened Buffers
  import MS = MarchingSquares

  type Pt = (real, real)

  /** `new LngLat(lon, lat).toMercatorCoord()`; the checks and projection are modelled in MapCoords. */
  type Mercator = (real, real) -> Pt

  function Floats(p: Pt): seq<real>
  {
    [p.0, p.1]
  }

  function Min(a: real, b: real): real
  {
    if a <= b then a else b
  }

  /** xs[k], or 0 where the source would read past the end (a read the methods rule out before using it). */
  function At(xs: seq<real>, k: nat): real
  {
    if k < |xs| then xs[k] else 0.0
  }

  /** a / (n - 1) for a grid index a < n; on a one-point axis this is 0 / 0, NaN. */
  function Ratio(a: nat, n: nat): (r: MS.Sample)
    requires a < n
    ensures r.NaN? <==> n == 1
  {
    if n == 1 then MS.NaN else MS.Num(a as real / (n - 1) as real)
  }

  lemma RatioBounds(a: nat, n: nat)
    requires a < n && n >= 2
    ensures 0.0 <= Ratio(a, n).v <= 1.0
  {
    var d := (n - 1) as real;
    assert a as real <= d;
    assert Ratio(a, n).v * d == a as real;
  }

  // ----- makeBBElements -----

  /** The inputs of makeBBElements: coordinates and minimum zooms of an ni x nj grid, row-major. */
  datatype PointField = PointField(lats: seq<real>, lons: seq<real>, minZoom: seq<int>, ni: nat, nj: nat)

  /** `min_zoom.filter(mz => mz <= map_max_zoom).length`: the points the buffers are sized for. */
  function CountAccessible(minZoom: seq<int>, maxZoom: int): (n: nat)
    ensures n <= |minZoom|
  {
    CountBelow(minZoom, maxZoom, |minZoom|)
  }

  /** How many of the first k zooms are at most maxZoom. */
  function CountBelow(minZoom: seq<int>, maxZoom: int, k: nat): (n: nat)
    requires k <= |minZoom|
    ensures n <= k
  {
    if k == 0 then 0 else CountBelow(minZoom, maxZoom, k - 1) + (if minZoom[k - 1] <= maxZoom then 1 else 0)
  }

  /** `min_zoom[idx]`, undefined past the end. */
  function ZoomAt(minZoom: seq<int>, idx: nat): Option<int>
  {
    if idx < |minZoom| then Some(minZoom[idx]) else None
  }

  /**
   * A point is drawn unless its zoom is above the map's maximum or one of
   * its coordinates is missing; a missing zoom compares false and is drawn.
   */
  predicate Shown(f: PointField, maxZoom: int, idx: nat)
  {
    idx < |f.lats| && idx < |f.lons| && !(idx < |f.minZoom| && f.minZoom[idx] > maxZoom)
  }

  /** The first texture coordinate min(ilon / (ni - 1), 0.99999) + zoom. */
  function PackedZoom(ilon: nat, ni: nat, zoom: Option<int>): MS.Sample
    requires ilon < ni
  {
    match Ratio(ilon, ni)
    case NaN => MS.NaN
    case Num(r) => if zoom.None? then MS.NaN else MS.Num(Min(r, 0.99999) + zoom.value as real)
  }

  /** The packing is lossless: the integer part of the texture coordinate is the zoom. */
  lemma PackedZoomFloor(ilon: nat, ni: nat, z: int)
    requires ilon < ni
    ensures PackedZoom(ilon, ni, Some(z)).Num? <==> ni >= 2
    ensures PackedZoom(ilon, ni, Some(z)).Num? ==> PackedZoom(ilon, ni, Some(z)).v.Floor == z
  {
    if ni >= 2 {
      RatioBounds(ilon, ni);
      var t := PackedZoom(ilon, ni, Some(z)).v;
      assert z as real <= t < z as real + 1.0;
    }
  }

  /** The two position floats a grid point contributes, if it is drawn. */
  function BBPoint(f: PointField, maxZoom: int, merc: Mercator, ilat: nat, ilon: nat): seq<real>
  {
    var idx := RowMajor(f.ni, ilat, ilon);
    if Shown(f, maxZoom, idx) then Floats(merc(f.lons[idx], f.lats[idx])) else []
  }

  /** The two texture floats a grid point contributes, if it is drawn. */
  function BBTex(f: PointField, maxZoom: int, ilat: nat, ilon: nat): seq<MS.Sample>
    requires ilat < f.nj && ilon < f.ni
  {
    var idx := RowMajor(f.ni, ilat, ilon);
    if Shown(f, maxZoom, idx) then [PackedZoom(ilon, f.ni, ZoomAt(f.minZoom, idx)), Ratio(ilat, f.nj)] else []
  }

  function BBPointsRow(f: PointField, maxZoom: int, merc: Mercator, ilat: nat, m: nat): seq<real>
  {
    if m == 0 then [] else BBPointsRow(f, maxZoom, merc, ilat, m - 1) + BBPoint(f, maxZoom, merc, ilat, m - 1)
  }

  /** The position floats of rows 0 .. r - 1, in the order the loops visit them. */
  function BBPoints(f: PointField, maxZoom: int, merc: Mercator, r: nat): seq<real>
  {
    if r == 0 then [] else BBPoints(f, maxZoom, merc, r - 1) + BBPointsRow(f, maxZoom, merc, r - 1, f.ni)
  }

  function BBTexRow(f: PointField, maxZoom: int, ilat: nat, m: nat): seq<MS.Sample>
    requires ilat < f.nj && m <= f.ni
  {
    if m == 0 then [] else BBTexRow(f, maxZoom, ilat, m - 1) + BBTex(f, maxZoom, ilat, m - 1)
  }

  function BBTexes(f: PointField, maxZoom: int, r: nat): seq<MS.Sample>
    requires r <= f.nj
  {
    if r == 0 then [] else BBTexes(f, maxZoom, r - 1) + BBTexRow(f, maxZoom, r - 1, f.ni)
  }

  /**
   * makeBBElements: both buffers hold two floats per point whose zoom is at
   * most the map's maximum, and receive the drawn points in row-major order.
   */
  method MakeBBElements(f: PointField, maxZoom: int, merc: Mercator) returns (pts: seq<real>, texCoords: seq<MS.Sample>)
    ensures |pts| == 2 * CountAccessible(f.minZoom, maxZoom) && |texCoords| == |pts|
    ensures pts == Written(Fill(|pts|, 0.0), 0, BBPoints(f, maxZoom, merc, f.nj))
    ensures texCoords == Written(Fill(|texCoords|, MS.Num(0.0)), 0, BBTexes(f, maxZoom, f.nj))
  {
    var n := 2 * CountAccessible(f.minZoom, maxZoom);
    var ptsA := new real[n](_ => 0.0);
    var texA := new MS.Sample[n](_ => MS.Num(0.0));
    assert ptsA[..] == Fill(n, 0.0);
    assert texA[..] == Fill(n, MS.Num(0.0));
    var cp: nat, ct: nat := 0, 0;
    var ilat: nat := 0;
    while ilat < f.nj
      invariant ilat <= f.nj
      invariant WroteFrom(ptsA[..], cp, Fill(n, 0.0), 0, BBPoints(f, maxZoom, merc, ilat))
      invariant WroteFrom(texA[..], ct, Fill(n, MS.Num(0.0)), 0, BBTexes(f, maxZoom, ilat))
    {
      ghost var p1, t1, cp1, ct1 := ptsA[..], texA[..], cp, ct;
      cp, ct := BBRow(ptsA, texA, f, maxZoom, merc, ilat, cp, ct);
      BBPointsStep(f, maxZoom, merc, ilat, Fill(n, 0.0), p1, cp1, ptsA[..], cp);
      BBTexesStep(f, maxZoom, ilat, Fill(n, MS.Num(0.0)), t1, ct1, texA[..], ct);
      ilat := ilat + 1;
    }
    pts := ptsA[..];
    texCoords := texA[..];
  }

  lemma BBPointsStep(f: PointField, maxZoom: int, merc: Mercator, r: nat, a0: seq<real>, a1: seq<real>, c1: nat, a2: seq<real>, c2: nat)
    requires WroteFrom(a1, c1, a0, 0, BBPoints(f, maxZoom, merc, r))
    requires WroteFrom(a2, c2, a1, c1, BBPointsRow(f, maxZoom, merc, r, f.ni))
    ensures WroteFrom(a2, c2, a0, 0, BBPoints(f, maxZoom, merc, r + 1))
  {
    WroteChain(a0, 0, a1, c1, a2, c2, BBPoints(f, maxZoom, merc, r), BBPointsRow(f, maxZoom, merc, r, f.ni));
  }

  lemma BBTexesStep(f: PointField, maxZoom: int, r: nat, a0: seq<MS.Sample>, a1: seq<MS.Sample>, c1: nat, a2: seq<MS.Sample>, c2: nat)
    requires r < f.nj
    requires WroteFrom(a1, c1, a0, 0, BBTexes(f, maxZoom, r))
    requires WroteFrom(a2, c2, a1, c1, BBTexRow(f, maxZoom, r, f.ni))
    ensures WroteFrom(a2, c2, a0, 0, BBTexes(f, maxZoom, r + 1))
  {
    WroteChain(a0, 0, a1, c1, a2, c2, BBTexes(f, maxZoom, r), BBTexRow(f, maxZoom, r, f.ni));
  }

  /** Row ilat of the inner loop before point ilon: both buffers written from (p0, cp0) and (t0, ct0). */
  ghost predicate BBRowWritten(f: PointField, maxZoom: int, merc: Mercator, ilat: nat, ilon: nat,
                               p0: seq<real>, cp0: nat, t0: seq<MS.Sample>, ct0: nat,
                               p: seq<real>, cp: nat, t: seq<MS.Sample>, ct: nat)
    requires ilat < f.nj && ilon <= f.ni
  {
    WroteFrom(p, cp, p0, cp0, BBPointsRow(f, maxZoom, merc, ilat, ilon)) &&
    WroteFrom(t, ct, t0, ct0, BBTexRow(f, maxZoom, ilat, ilon))
  }

  /** One row of the inner loop of makeBBElements, from the cursors it starts at. */
  method BBRow(ptsA: array<real>, texA: array<MS.Sample>, f: PointField, maxZoom: int, merc: Mercator, ilat: nat, cp0: nat, ct0: nat)
    returns (cp: nat, ct: nat)
    requires ilat < f.nj
    modifies ptsA, texA
    ensures WroteFrom(ptsA[..], cp, old(ptsA[..]), cp0, BBPointsRow(f, maxZoom, merc, ilat, f.ni))
    ensures WroteFrom(texA[..], ct, old(texA[..]), ct0, BBTexRow(f, maxZoom, ilat, f.ni))
  {
    cp, ct := cp0, ct0;
    RowStartIsProduct(f.ni, ilat);
    var ilon: nat := 0;
    while ilon < f.ni
      invariant ilon <= f.ni
      invariant BBRowWritten(f, maxZoom, merc, ilat, ilon, old(ptsA[..]), cp0, old(texA[..]), ct0, ptsA[..], cp, texA[..], ct)
    {
      ilon, cp, ct := BBPointWrites(ptsA, texA, f, maxZoom, merc, ilat, ilon, cp, ct, old(ptsA[..]), cp0, old(texA[..]), ct0);
    }
  }

  /** One pass of the inner loop: point (ilat, ilon), written unless it is skipped. */
  method BBPointWrites(ptsA: array<real>, texA: array<MS.Sample>, f: PointField, maxZoom: int, merc: Mercator,
                       ilat: nat, ilon: nat, cp1: nat, ct1: nat,
                       ghost p0: seq<real>, ghost cp0: nat, ghost t0: seq<MS.Sample>, ghost ct0: nat)
    returns (next: nat, cp: nat, ct: nat)
    requires ilat < f.nj && ilon < f.ni && RowStart(f.ni, ilat) == ilat * f.ni
    requires BBRowWritten(f, maxZoom, merc, ilat, ilon, p0, cp0, t0, ct0, ptsA[..], cp1, texA[..], ct1)
    modifies ptsA, texA
    ensures next == ilon + 1
    ensures BBRowWritten(f, maxZoom, merc, ilat, next, p0, cp0, t0, ct0, ptsA[..], cp, texA[..], ct)
  {
    ghost var p1, t1 := ptsA[..], texA[..];
    cp, ct := cp1, ct1;
    var idx := ilat * f.ni + ilon;
    var skip := (idx < |f.minZoom| && f.minZoom[idx] > maxZoom) || idx >= |f.lons| || idx >= |f.lats|;
    if !skip {
      var p := merc(f.lons[idx], f.lats[idx]);
      var tc := [PackedZoom(ilon, f.ni, ZoomAt(f.minZoom, idx)), Ratio(ilat, f.nj)];
      cp := Emit(ptsA, cp, [p.0, p.1]);
      ct := Emit(texA, ct, tc);
    } else {
      WroteNothing(p1, cp1);
      WroteNothing(t1, ct1);
    }
    next := ilon + 1;
    BBRowWrittenStep(f, maxZoom, merc, ilat, ilon, next, p0, cp0, t0, ct0, p1, cp1, t1, ct1, ptsA[..], cp, texA[..], ct);
  }

  lemma BBRowWrittenStep(f: PointField, maxZoom: int, merc: Mercator, ilat: nat, ilon: nat, next: nat,
                         p0: seq<real>, cp0: nat, t0: seq<MS.Sample>, ct0: nat,
                         p1: seq<real>, cp1: nat, t1: seq<MS.Sample>, ct1: nat,
                         p2: seq<real>, cp2: nat, t2: seq<MS.Sample>, ct2: nat)
    requires ilat < f.nj && ilon < f.ni && next == ilon + 1
    requires BBRowWritten(f, maxZoom, merc, ilat, ilon, p0, cp0, t0, ct0, p1, cp1, t1, ct1)
    requires WroteFrom(p2, cp2, p1, cp1, BBPoint(f, maxZoom, merc, ilat, ilon))
    requires WroteFrom(t2, ct2, t1, ct1, BBTex(f, maxZoom, ilat, ilon))
    ensures BBRowWritten(f, maxZoom, merc, ilat, next, p0, cp0, t0, ct0, p2, cp2, t2, ct2)
  {
    BBPointsRowStep(f, maxZoom, merc, ilat, ilon, p0, cp0, p1, cp1, p2, cp2);
    BBTexRowStep(f, maxZoom, ilat, ilon, t0, ct0, t1, ct1, t2, ct2);
  }

  lemma BBPointsRowStep(f: PointField, maxZoom: int, merc: Mercator, ilat: nat, ilon: nat,
                        a0: seq<real>, c0: nat, a1: seq<real>, c1: nat, a2: seq<real>, c2: nat)
    requires WroteFrom(a1, c1, a0, c0, BBPointsRow(f, maxZoom, merc, ilat, ilon))
    requires WroteFrom(a2, c2, a1, c1, BBPoint(f, maxZoom, merc, ilat, ilon))
    ensures WroteFrom(a2, c2, a0, c0, BBPointsRow(f, maxZoom, merc, ilat, ilon + 1))
  {
    WroteChain(a0, c0, a1, c1, a2, c2, BBPointsRow(f, maxZoom, merc, ilat, ilon), BBPoint(f, maxZoom, merc, ilat, ilon));
  }

  lemma BBTexRowStep(f: PointField, maxZoom: int, ilat: nat, ilon: nat,
                     a0: seq<MS.Sample>, c0: nat, a1: seq<MS.Sample>, c1: nat, a2: seq<MS.Sample>, c2: nat)
    requires ilat < f.nj && ilon < f.ni
    requires WroteFrom(a1, c1, a0, c0, BBTexRow(f, maxZoom, ilat, ilon))
    requires WroteFrom(a2, c2, a1, c1, BBTex(f, maxZoom, ilat, ilon))
    ensures WroteFrom(a2, c2, a0, c0, BBTexRow(f, maxZoom, ilat, ilon + 1))
  {
    WroteChain(a0, c0, a1, c1, a2, c2, BBTexRow(f, maxZoom, ilat, ilon), BBTex(f, maxZoom, ilat, ilon));
  }

  /** Row r up to column m holds two floats per drawn point among its first m. */
  lemma {:induction false} BBPointsRowCount(f: PointField, maxZoom: int, merc: Mercator, r: nat, m: nat)
    requires RowMajor(f.ni, r, m) <= |f.minZoom| <= |f.lats| && |f.minZoom| <= |f.lons|
    ensures |BBPointsRow(f, maxZoom, merc, r, m)| + 2 * CountBelow(f.minZoom, maxZoom, RowStart(f.ni, r))
      == 2 * CountBelow(f.minZoom, maxZoom, RowMajor(f.ni, r, m))
  {
    if m > 0 {
      BBPointsRowCount(f, maxZoom, merc, r, m - 1);
    }
  }

  /** Rows 0 .. r - 1 hold two floats per drawn point among them. */
  lemma {:induction false} BBPointsCount(f: PointField, maxZoom: int, merc: Mercator, r: nat)
    requires RowStart(f.ni, r) <= |f.minZoom| <= |f.lats| && |f.minZoom| <= |f.lons|
    ensures |BBPoints(f, maxZoom, merc, r)| == 2 * CountBelow(f.minZoom, maxZoom, RowStart(f.ni, r))
  {
    if r > 0 {
      BBPointsCount(f, maxZoom, merc, r - 1);
      BBPointsRowCount(f, maxZoom, merc, r - 1, f.ni);
    }
  }

  lemma {:induction false} BBTexRowCount(f: PointField, maxZoom: int, r: nat, m: nat)
    requires r < f.nj && m <= f.ni
    requires RowMajor(f.ni, r, m) <= |f.minZoom| <= |f.lats| && |f.minZoom| <= |f.lons|
    ensures |BBTexRow(f, maxZoom, r, m)| + 2 * CountBelow(f.minZoom, maxZoom, RowStart(f.ni, r))
      == 2 * CountBelow(f.minZoom, maxZoom, RowMajor(f.ni, r, m))
  {
    if m > 0 {
      BBTexRowCount(f, maxZoom, r, m - 1);
    }
  }

  lemma {:induction false} BBTexCount(f: PointField, maxZoom: int, r: nat)
    requires r <= f.nj
    requires RowStart(f.ni, r) <= |f.minZoom| <= |f.lats| && |f.minZoom| <= |f.lons|
    ensures |BBTexes(f, maxZoom, r)| == 2 * CountBelow(f.minZoom, maxZoom, RowStart(f.ni, r))
  {
    if r > 0 {
      BBTexCount(f, maxZoom, r - 1);
      BBTexRowCount(f, maxZoom, r - 1, f.ni);
    }
  }

  /** With one coordinate and zoom per grid point the drawn points fill both buffers exactly. */
  lemma BBFillsExactly(f: PointField, maxZoom: int, merc: Mercator)
    requires |f.lats| == |f.lons| == |f.minZoom| == f.ni * f.nj
    ensures |BBPoints(f, maxZoom, merc, f.nj)| == 2 * CountAccessible(f.minZoom, maxZoom)
    ensures |BBTexes(f, maxZoom, f.nj)| == 2 * CountAccessible(f.minZoom, maxZoom)
  {
    RowStartIsProduct(f.ni, f.nj);
    BBPointsFill(f, maxZoom, merc);
    BBTexFill(f, maxZoom);
  }

  lemma BBPointsFill(f: PointField, maxZoom: int, merc: Mercator)
    requires |f.lats| == |f.lons| == |f.minZoom| == RowStart(f.ni, f.nj)
    ensures |BBPoints(f, maxZoom, merc, f.nj)| == 2 * CountAccessible(f.minZoom, maxZoom)
  {
    BBPointsCount(f, maxZoom, merc, f.nj);
  }

  lemma BBTexFill(f: PointField, maxZoom: int)
    requires |f.lats| == |f.lons| == |f.minZoom| == RowStart(f.ni, f.nj)
    ensures |BBTexes(f, maxZoom, f.nj)| == 2 * CountAccessible(f.minZoom, maxZoom)
  {
    BBTexCount(f, maxZoom, f.nj);
  }

  // ----- makeDomainVerticesAndTexCoords -----

  /** The texture coordinate x * (1 - 2 * margin) + margin; NaN stays NaN. */
  function Margined(x: MS.Sample, margin: real): MS.Sample
  {
    match x
    case NaN => MS.NaN
    case Num(v) => MS.Num(v * (1.0 - 2.0 * margin) + margin)
  }

  /**
   * Every coordinate that the strips of columns 0 .. c - 1 read is present:
   * the last one is point (c, nj - 1).
   */
  predicate ColumnsReadable(lats: seq<real>, lons: seq<real>, ni: nat, nj: nat, c: nat)
  {
    c == 0 || nj == 0 || (RowMajor(ni, nj - 1, c) < |lats| && RowMajor(ni, nj - 1, c) < |lons|)
  }

  /**
   * The source reads past the end of a coordinate array exactly when this
   * fails: both arrays hold the ni * nj grid points (RowStart(ni, nj) is
   * ni * nj, counted row by row).
   */
  predicate DomainReadable(lats: seq<real>, lons: seq<real>, ni: nat, nj: nat)
  {
    ni < 2 || nj == 0 || (|lats| >= RowStart(ni, nj) && |lons| >= RowStart(ni, nj))
  }

  /** The floats one point pair of row j writes: four, and two more on the first and on the last row. */
  function PieceLength(nj: nat, j: nat): nat
  {
    (if j == 0 then 2 else 0) + 4 + (if j + 1 == nj then 2 else 0)
  }

  /** The floats of rows 0 .. m - 1 of a column strip. */
  function ColumnLength(nj: nat, m: nat): nat
  {
    if m == 0 then 0 else 4 * m + (if m == nj then 4 else 2)
  }

  /**
   * The vertex floats written at column i, row j: the points (i, j) and
   * (i + 1, j), with (i, j) doubled on the first row and (i + 1, j) doubled
   * on the last row, so consecutive column strips join through degenerate
   * triangles.
   */
  function DomainPiece(lats: seq<real>, lons: seq<real>, ni: nat, nj: nat, merc: Mercator, i: nat, j: nat): (r: seq<real>)
    requires i + 1 < ni && j < nj
    ensures |r| == PieceLength(nj, j)
  {
    var idx := RowMajor(ni, j, i);
    var pt := Floats(merc(At(lons, idx), At(lats, idx)));
    var ptNext := Floats(merc(At(lons, idx + 1), At(lats, idx + 1)));
    (if j == 0 then pt else []) + pt + ptNext + (if j == nj - 1 then ptNext else [])
  }

  /** The texture floats written at column i, row j, in the same pattern. */
  function DomainTexPiece(ni: nat, nj: nat, marginR: real, marginS: real, i: nat, j: nat): (r: seq<MS.Sample>)
    requires i + 1 < ni && j < nj
    ensures |r| == PieceLength(nj, j)
  {
    var r := Margined(Ratio(i, ni), marginR);
    var rNext := Margined(Ratio(i + 1, ni), marginR);
    var s := Margined(Ratio(j, nj), marginS);
    (if j == 0 then [r, s] else []) + [r, s, rNext, s] + (if j == nj - 1 then [rNext, s] else [])
  }

  /** A column strip: two floats per point of rows 0 .. m - 1, with the first and last points doubled. */
  function DomainColumn(lats: seq<real>, lons: seq<real>, ni: nat, nj: nat, merc: Mercator, i: nat, m: nat): (r: seq<real>)
    requires i + 1 < ni && m <= nj
    ensures |r| == ColumnLength(nj, m)
  {
    if m == 0 then []
    else DomainColumn(lats, lons, ni, nj, merc, i, m - 1) + DomainPiece(lats, lons, ni, nj, merc, i, m - 1)
  }

  /** The vertex floats of the strips of columns 0 .. c - 1. */
  function DomainVertices(lats: seq<real>, lons: seq<real>, ni: nat, nj: nat, merc: Mercator, c: nat): (r: seq<real>)
    requires c < ni
    ensures |r| == if nj == 0 then 0 else DomainLength(c, nj)
  {
    if c == 0 then [] else DomainVertices(lats, lons, ni, nj, merc, c - 1) + DomainColumn(lats, lons, ni, nj, merc, c - 1, nj)
  }

  function DomainTexColumn(ni: nat, nj: nat, marginR: real, marginS: real, i: nat, m: nat): (r: seq<MS.Sample>)
    requires i + 1 < ni && m <= nj
    ensures |r| == ColumnLength(nj, m)
  {
    if m == 0 then [] else DomainTexColumn(ni, nj, marginR, marginS, i, m - 1) + DomainTexPiece(ni, nj, marginR, marginS, i, m - 1)
  }

  function DomainTexCoords(ni: nat, nj: nat, marginR: real, marginS: real, c: nat): (r: seq<MS.Sample>)
    requires c < ni
    ensures |r| == if nj == 0 then 0 else DomainLength(c, nj)
  {
    if c == 0 then [] else DomainTexCoords(ni, nj, marginR, marginS, c - 1) + DomainTexColumn(ni, nj, marginR, marginS, c - 1, nj)
  }

  datatype DomainBuffers = DomainBuffers(vertices: seq<real>, texCoords: seq<MS.Sample>)

  /** The element count of both buffers for the given number of columns, counted column by column. */
  function DomainLength(columns: nat, nj: nat): nat
  {
    if columns == 0 then 0 else DomainLength(columns - 1, nj) + 4 * nj + 4
  }

  /** The allocation 2 * 2 * (ni - 1) * (nj + 1) of the source, with columns = ni - 1. */
  lemma {:induction false} DomainLengthFormula(columns: nat, nj: nat)
    ensures DomainLength(columns, nj) == 2 * 2 * columns * (nj + 1)
  {
    if columns > 0 {
      DomainLengthFormula(columns - 1, nj);
      assert 2 * 2 * (columns - 1) * (nj + 1) + 4 * nj + 4 == 2 * 2 * columns * (nj + 1);
    }
  }

  /**
   * makeDomainVerticesAndTexCoords: a negative buffer length (ni = 0) and a
   * missing coordinate throw; otherwise both buffers are the column strips
   * written from the start of zero-filled arrays.
   */
  method MakeDomainVerticesAndTexCoords(lats: seq<real>, lons: seq<real>, ni: nat, nj: nat,
                                        marginR: real, marginS: real, merc: Mercator)
    returns (r: Result<DomainBuffers>)
    ensures r.Err? <==> ni == 0 || !DomainReadable(lats, lons, ni, nj)
    ensures r.Ok? ==> (r.value.vertices
      == Written(Fill(2 * 2 * (ni - 1) * (nj + 1), 0.0), 0, DomainVertices(lats, lons, ni, nj, merc, ni - 1)))
    ensures r.Ok? ==> (r.value.texCoords
      == Written(Fill(2 * 2 * (ni - 1) * (nj + 1), MS.Num(0.0)), 0, DomainTexCoords(ni, nj, marginR, marginS, ni - 1)))
  {
    if ni == 0 {
      return Err("Invalid typed array length");
    }
    var len := 2 * 2 * (ni - 1) * (nj + 1);
    var verts := NewFill(len, 0.0);
    var tex := NewFill(len, MS.Num(0.0));
    var ok, cv, ct := DomainStrips(verts, tex, lats, lons, ni, nj, marginR, marginS, merc);
    if !ok {
      return Err("Invalid LngLat object");
    }
    return Ok(DomainBuffers(verts[..], tex[..]));
  }

  /**
   * The column loop of makeDomainVerticesAndTexCoords after columns
   * 0 .. i - 1: the coordinates read so far exist, and both buffers hold
   * those columns' strips written from index 0.
   */
  ghost predicate StripsWritten(lats: seq<real>, lons: seq<real>, ni: nat, nj: nat, marginR: real, marginS: real,
                                merc: Mercator, i: nat, v0: seq<real>, t0: seq<MS.Sample>,
                                v: seq<real>, cv: nat, t: seq<MS.Sample>, ct: nat)
    requires i < ni
  {
    && ColumnsReadable(lats, lons, ni, nj, i)
    && WroteFrom(v, cv, v0, 0, DomainVertices(lats, lons, ni, nj, merc, i))
    && WroteFrom(t, ct, t0, 0, DomainTexCoords(ni, nj, marginR, marginS, i))
  }

  /** The column loop of makeDomainVerticesAndTexCoords: it stops, with an error, at the first missing coordinate. */
  method DomainStrips(verts: array<real>, tex: array<MS.Sample>, lats: seq<real>, lons: seq<real>, ni: nat, nj: nat,
                      marginR: real, marginS: real, merc: Mercator)
    returns (ok: bool, cv: nat, ct: nat)
    requires ni >= 1
    modifies verts, tex
    ensures ok <==> DomainReadable(lats, lons, ni, nj)
    ensures ok ==> StripsWritten(lats, lons, ni, nj, marginR, marginS, merc, ni - 1, old(verts[..]), old(tex[..]), verts[..], cv, tex[..], ct)
  {
    ghost var v0, t0 := verts[..], tex[..];
    cv, ct := 0, 0;
    var i: nat := 0;
    while i < ni - 1
      invariant i <= ni - 1
      invariant StripsWritten(lats, lons, ni, nj, marginR, marginS, merc, i, v0, t0, verts[..], cv, tex[..], ct)
    {
      ok, i, cv, ct := DomainStripStep(verts, tex, lats, lons, ni, nj, marginR, marginS, merc, i, v0, t0, cv, ct);
      if !ok {
        return;
      }
    }
    ColumnsReadableAll(lats, lons, ni, nj);
    ok := true;
  }

  /** Once the last column's coordinates exist, every coordinate the loop reads exists. */
  lemma ColumnsReadableAll(lats: seq<real>, lons: seq<real>, ni: nat, nj: nat)
    requires ni >= 1 && ColumnsReadable(lats, lons, ni, nj, ni - 1)
    ensures DomainReadable(lats, lons, ni, nj)
  {
    if ni >= 2 && nj >= 1 {
      RowStartIsProduct(ni, nj);
      assert RowMajor(ni, nj - 1, ni - 1) + 1 == RowStart(ni, nj);
    }
  }

  /** One iteration of the column loop, as a step of StripsWritten. */
  method DomainStripStep(verts: array<real>, tex: array<MS.Sample>, lats: seq<real>, lons: seq<real>, ni: nat, nj: nat,
                         marginR: real, marginS: real, merc: Mercator, i: nat,
                         ghost v0: seq<real>, ghost t0: seq<MS.Sample>, cv0: nat, ct0: nat)
    returns (ok: bool, next: nat, cv: nat, ct: nat)
    requires i + 1 < ni
    requires StripsWritten(lats, lons, ni, nj, marginR, marginS, merc, i, v0, t0, verts[..], cv0, tex[..], ct0)
    modifies verts, tex
    ensures !ok ==> !DomainReadable(lats, lons, ni, nj)
    ensures ok ==> next == i + 1
    ensures ok ==> StripsWritten(lats, lons, ni, nj, marginR, marginS, merc, next, v0, t0, verts[..], cv, tex[..], ct)
  {
    ghost var v1, t1 := verts[..], tex[..];
    ok, cv, ct := DomainColumnWrites(verts, tex, lats, lons, ni, nj, marginR, marginS, merc, i, cv0, ct0);
    next := i + 1;
    if ok {
      StripsStep(lats, lons, ni, nj, marginR, marginS, merc, i, next, v0, t0, v1, cv0, t1, ct0, verts[..], cv, tex[..], ct);
    }
  }

  lemma StripsStep(lats: seq<real>, lons: seq<real>, ni: nat, nj: nat, marginR: real, marginS: real,
                   merc: Mercator, i: nat, next: nat, v0: seq<real>, t0: seq<MS.Sample>,
                   v1: seq<real>, cv1: nat, t1: seq<MS.Sample>, ct1: nat, v2: seq<real>, cv2: nat, t2: seq<MS.Sample>, ct2: nat)
    requires i + 1 < ni && next == i + 1
    requires StripsWritten(lats, lons, ni, nj, marginR, marginS, merc, i, v0, t0, v1, cv1, t1, ct1)
    requires ColumnWritten(lats, lons, ni, nj, marginR, marginS, merc, i, nj, v1, cv1, t1, ct1, v2, cv2, t2, ct2)
    ensures StripsWritten(lats, lons, ni, nj, marginR, marginS, merc, next, v0, t0, v2, cv2, t2, ct2)
  {
    DomainVerticesStep(lats, lons, ni, nj, merc, i, v0, v1, cv1, v2, cv2);
    DomainTexStep(ni, nj, marginR, marginS, i, t0, t1, ct1, t2, ct2);
  }

  /**
   * With at least one row the strips fill both buffers exactly: no zero of
   * the allocation is left over. The allocation is DomainLength(ni - 1, nj),
   * which DomainLengthFormula shows to be the source's 2 * 2 * (ni - 1) * (nj + 1).
   */
  lemma DomainFillsExactly(lats: seq<real>, lons: seq<real>, ni: nat, nj: nat, merc: Mercator, marginR: real, marginS: real)
    requires ni >= 1 && nj >= 1
    ensures var vs := DomainVertices(lats, lons, ni, nj, merc, ni - 1);
      Written(Fill(DomainLength(ni - 1, nj), 0.0), 0, vs) == vs
    ensures var ts := DomainTexCoords(ni, nj, marginR, marginS, ni - 1);
      Written(Fill(DomainLength(ni - 1, nj), MS.Num(0.0)), 0, ts) == ts
  {
    DomainVerticesFill(lats, lons, ni, nj, merc, DomainLength(ni - 1, nj));
    DomainTexFill(ni, nj, marginR, marginS, DomainLength(ni - 1, nj));
  }

  /** The vertex strips fill a zero-filled buffer of their length n. */
  lemma DomainVerticesFill(lats: seq<real>, lons: seq<real>, ni: nat, nj: nat, merc: Mercator, n: nat)
    requires ni >= 1 && nj >= 1 && n == DomainLength(ni - 1, nj)
    ensures var vs := DomainVertices(lats, lons, ni, nj, merc, ni - 1);
      Written(Fill(n, 0.0), 0, vs) == vs
  {
    WrittenWhole(Fill(n, 0.0), DomainVertices(lats, lons, ni, nj, merc, ni - 1));
  }

  /** The texture strips fill a zero-filled buffer of their length n. */
  lemma DomainTexFill(ni: nat, nj: nat, marginR: real, marginS: real, n: nat)
    requires ni >= 1 && nj >= 1 && n == DomainLength(ni - 1, nj)
    ensures var ts := DomainTexCoords(ni, nj, marginR, marginS, ni - 1);
      Written(Fill(n, MS.Num(0.0)), 0, ts) == ts
  {
    WrittenWhole(Fill(n, MS.Num(0.0)), DomainTexCoords(ni, nj, marginR, marginS, ni - 1));
  }

  lemma DomainVerticesStep(lats: seq<real>, lons: seq<real>, ni: nat, nj: nat, merc: Mercator, i: nat,
                           a0: seq<real>, a1: seq<real>, c1: nat, a2: seq<real>, c2: nat)
    requires i + 1 < ni
    requires WroteFrom(a1, c1, a0, 0, DomainVertices(lats, lons, ni, nj, merc, i))
    requires WroteFrom(a2, c2, a1, c1, DomainColumn(lats, lons, ni, nj, merc, i, nj))
    ensures WroteFrom(a2, c2, a0, 0, DomainVertices(lats, lons, ni, nj, merc, i + 1))
  {
    WroteChain(a0, 0, a1, c1, a2, c2, DomainVertices(lats, lons, ni, nj, merc, i), DomainColumn(lats, lons, ni, nj, merc, i, nj));
  }

  lemma DomainTexStep(ni: nat, nj: nat, marginR: real, marginS: real, i: nat,
                      a0: seq<MS.Sample>, a1: seq<MS.Sample>, c1: nat, a2: seq<MS.Sample>, c2: nat)
    requires i + 1 < ni
    requires WroteFrom(a1, c1, a0, 0, DomainTexCoords(ni, nj, marginR, marginS, i))
    requires WroteFrom(a2, c2, a1, c1, DomainTexColumn(ni, nj, marginR, marginS, i, nj))
    ensures WroteFrom(a2, c2, a0, 0, DomainTexCoords(ni, nj, marginR, marginS, i + 1))
  {
    WroteChain(a0, 0, a1, c1, a2, c2, DomainTexCoords(ni, nj, marginR, marginS, i), DomainTexColumn(ni, nj, marginR, marginS, i, nj));
  }

  /**
   * The inner loop of makeDomainVerticesAndTexCoords for column i after rows
   * 0 .. j - 1: the coordinates read so far exist, and both buffers hold
   * those rows' writes from their cursors at the start of the column.
   */
  ghost predicate ColumnWritten(lats: seq<real>, lons: seq<real>, ni: nat, nj: nat, marginR: real, marginS: real,
                                merc: Mercator, i: nat, j: nat, v0: seq<real>, cv0: nat, t0: seq<MS.Sample>, ct0: nat,
                                v: seq<real>, cv: nat, t: seq<MS.Sample>, ct: nat)
    requires i + 1 < ni && j <= nj
  {
    && (j == 0 || (RowMajor(ni, j - 1, i + 1) < |lats| && RowMajor(ni, j - 1, i + 1) < |lons|))
    && WroteFrom(v, cv, v0, cv0, DomainColumn(lats, lons, ni, nj, merc, i, j))
    && WroteFrom(t, ct, t0, ct0, DomainTexColumn(ni, nj, marginR, marginS, i, j))
  }

  /**
   * The inner loop of makeDomainVerticesAndTexCoords for column i; ok is
   * false when a coordinate it reads is missing, which throws in the source.
   */
  method DomainColumnWrites(verts: array<real>, tex: array<MS.Sample>, lats: seq<real>, lons: seq<real>, ni: nat, nj: nat,
                            marginR: real, marginS: real, merc: Mercator, i: nat, cv0: nat, ct0: nat)
    returns (ok: bool, cv: nat, ct: nat)
    requires i + 1 < ni
    modifies verts, tex
    ensures !ok ==> nj >= 1 && !DomainReadable(lats, lons, ni, nj)
    ensures ok ==> ColumnWritten(lats, lons, ni, nj, marginR, marginS, merc, i, nj,
                                 old(verts[..]), cv0, old(tex[..]), ct0, verts[..], cv, tex[..], ct)
  {
    ghost var v0, t0 := verts[..], tex[..];
    cv, ct := cv0, ct0;
    var j: nat := 0;
    while j < nj
      invariant j <= nj
      invariant ColumnWritten(lats, lons, ni, nj, marginR, marginS, merc, i, j, v0, cv0, t0, ct0, verts[..], cv, tex[..], ct)
    {
      RowStartIsProduct(ni, j);
      var idx := i + j * ni;
      if !(idx + 1 < |lons| && idx + 1 < |lats|) {
        RowMajorInGrid(ni, nj, j, i + 1);
        RowStartIsProduct(ni, nj);
        return false, cv, ct;
      }
      j, cv, ct := DomainRowWrites(verts, tex, lats, lons, ni, nj, marginR, marginS, merc, i, j, v0, cv0, t0, ct0, cv, ct);
    }
    ok := true;
  }

  /** One iteration of the inner loop, as a step of ColumnWritten. */
  method DomainRowWrites(verts: array<real>, tex: array<MS.Sample>, lats: seq<real>, lons: seq<real>, ni: nat, nj: nat,
                         marginR: real, marginS: real, merc: Mercator, i: nat, j: nat,
                         ghost v0: seq<real>, cv0: nat, ghost t0: seq<MS.Sample>, ct0: nat, cv1: nat, ct1: nat)
    returns (next: nat, cv: nat, ct: nat)
    requires i + 1 < ni && j < nj
    requires RowMajor(ni, j, i + 1) < |lons| && RowMajor(ni, j, i + 1) < |lats|
    requires ColumnWritten(lats, lons, ni, nj, marginR, marginS, merc, i, j, v0, cv0, t0, ct0, verts[..], cv1, tex[..], ct1)
    modifies verts, tex
    ensures next == j + 1
    ensures ColumnWritten(lats, lons, ni, nj, marginR, marginS, merc, i, next, v0, cv0, t0, ct0, verts[..], cv, tex[..], ct)
  {
    ghost var v1, t1 := verts[..], tex[..];
    cv, ct := DomainPieceWrites(verts, tex, lats, lons, ni, nj, marginR, marginS, merc, i, j, cv1, ct1);
    next := j + 1;
    ColumnWrittenStep(lats, lons, ni, nj, marginR, marginS, merc, i, j, next, v0, cv0, t0, ct0, v1, cv1, t1, ct1, verts[..], cv, tex[..], ct);
  }

  lemma ColumnWrittenStep(lats: seq<real>, lons: seq<real>, ni: nat, nj: nat, marginR: real, marginS: real,
                          merc: Mercator, i: nat, j: nat, next: nat, v0: seq<real>, cv0: nat, t0: seq<MS.Sample>, ct0: nat,
                          v1: seq<real>, cv1: nat, t1: seq<MS.Sample>, ct1: nat, v2: seq<real>, cv2: nat, t2: seq<MS.Sample>, ct2: nat)
    requires i + 1 < ni && j < nj && next == j + 1
    requires RowMajor(ni, j, i + 1) < |lons| && RowMajor(ni, j, i + 1) < |lats|
    requires ColumnWritten(lats, lons, ni, nj, marginR, marginS, merc, i, j, v0, cv0, t0, ct0, v1, cv1, t1, ct1)
    requires WroteFrom(v2, cv2, v1, cv1, DomainPiece(lats, lons, ni, nj, merc, i, j))
    requires WroteFrom(t2, ct2, t1, ct1, DomainTexPiece(ni, nj, marginR, marginS, i, j))
    ensures ColumnWritten(lats, lons, ni, nj, marginR, marginS, merc, i, next, v0, cv0, t0, ct0, v2, cv2, t2, ct2)
  {
    DomainColumnStep(lats, lons, ni, nj, merc, i, j, next, v0, cv0, v1, cv1, v2, cv2);
    DomainTexColumnStep(ni, nj, marginR, marginS, i, j, next, t0, ct0, t1, ct1, t2, ct2);
  }

  /** The vertex and texture floats of column i, row j, each at its buffer's cursor. */
  method DomainPieceWrites(verts: array<real>, tex: array<MS.Sample>, lats: seq<real>, lons: seq<real>, ni: nat, nj: nat,
                           marginR: real, marginS: real, merc: Mercator, i: nat, j: nat, cv0: nat, ct0: nat)
    returns (cv: nat, ct: nat)
    requires i + 1 < ni && j < nj
    requires RowMajor(ni, j, i + 1) < |lons| && RowMajor(ni, j, i + 1) < |lats|
    modifies verts, tex
    ensures WroteFrom(verts[..], cv, old(verts[..]), cv0, DomainPiece(lats, lons, ni, nj, merc, i, j))
    ensures WroteFrom(tex[..], ct, old(tex[..]), ct0, DomainTexPiece(ni, nj, marginR, marginS, i, j))
  {
    RowStartIsProduct(ni, j);
    var idx := i + j * ni;
    var pt := merc(lons[idx], lats[idx]);
    var ptNext := merc(lons[idx + 1], lats[idx + 1]);
    var r := Margined(Ratio(i, ni), marginR);
    var rNext := Margined(Ratio(i + 1, ni), marginR);
    var s := Margined(Ratio(j, nj), marginS);
    var piece := (if j == 0 then Floats(pt) else []) + Floats(pt) + Floats(ptNext) + (if j == nj - 1 then Floats(ptNext) else []);
    var texPiece := (if j == 0 then [r, s] else []) + [r, s, rNext, s] + (if j == nj - 1 then [rNext, s] else []);
    assert piece == DomainPiece(lats, lons, ni, nj, merc, i, j);
    cv := Emit(verts, cv0, piece);
    ct := Emit(tex, ct0, texPiece);
  }

  lemma DomainColumnStep(lats: seq<real>, lons: seq<real>, ni: nat, nj: nat, merc: Mercator, i: nat, j: nat, next: nat,
                         a0: seq<real>, c0: nat, a1: seq<real>, c1: nat, a2: seq<real>, c2: nat)
    requires i + 1 < ni && j < nj && next == j + 1
    requires WroteFrom(a1, c1, a0, c0, DomainColumn(lats, lons, ni, nj, merc, i, j))
    requires WroteFrom(a2, c2, a1, c1, DomainPiece(lats, lons, ni, nj, merc, i, j))
    ensures WroteFrom(a2, c2, a0, c0, DomainColumn(lats, lons, ni, nj, merc, i, next))
  {
    WroteChain(a0, c0, a1, c1, a2, c2, DomainColumn(lats, lons, ni, nj, merc, i, j), DomainPiece(lats, lons, ni, nj, merc, i, j));
  }

  lemma DomainTexColumnStep(ni: nat, nj: nat, marginR: real, marginS: real, i: nat, j: nat, next: nat,
                            a0: seq<MS.Sample>, c0: nat, a1: seq<MS.Sample>, c1: nat, a2: seq<MS.Sample>, c2: nat)
    requires i + 1 < ni && j < nj && next == j + 1
    requires WroteFrom(a1, c1, a0, c0, DomainTexColumn(ni, nj, marginR, marginS, i, j))
    requires WroteFrom(a2, c2, a1, c1, DomainTexPiece(ni, nj, marginR, marginS, i, j))
    ensures WroteFrom(a2, c2, a0, c0, DomainTexColumn(ni, nj, marginR, marginS, i, next))
  {
    WroteChain(a0, c0, a1, c1, a2, c2, DomainTexColumn(ni, nj, marginR, marginS, i, j), DomainTexPiece(ni, nj, marginR, marginS, i, j));
  }

  lemma {:induction false} DomainColumnStart(lats: seq<real>, lons: seq<real>, ni: nat, nj: nat, merc: Mercator, i: nat, m: nat)
    requires i + 1 < ni && 1 <= m <= nj
    ensures |DomainPiece(lats, lons, ni, nj, merc, i, 0)| >= 4
    ensures |DomainColumn(lats, lons, ni, nj, merc, i, m)| >= 4
    ensures DomainColumn(lats, lons, ni, nj, merc, i, m)[..4] == DomainPiece(lats, lons, ni, nj, merc, i, 0)[..4]
  {
    if m >= 2 {
      DomainColumnStart(lats, lons, ni, nj, merc, i, m - 1);
    }
  }

  /**
   * A column strip starts with its first vertex twice and ends with its last
   * vertex twice: the degenerate triangles that join it to its neighbours.
   */
  lemma DomainStripDegenerate(lats: seq<real>, lons: seq<real>, ni: nat, nj: nat, merc: Mercator, i: nat)
    requires i + 1 < ni && nj >= 1
    ensures var col := DomainColumn(lats, lons, ni, nj, merc, i, nj);
      |col| >= 4 && col[0..2] == col[2..4] && col[|col| - 4..|col| - 2] == col[|col| - 2..]
  {
    DomainColumnStart(lats, lons, ni, nj, merc, i, nj);
    var col := DomainColumn(lats, lons, ni, nj, merc, i, nj);
    var last := DomainPiece(lats, lons, ni, nj, merc, i, nj - 1);
    assert col == DomainColumn(lats, lons, ni, nj, merc, i, nj - 1) + last;
    assert col[|col| - 4..] == last[|last| - 4..];
  }

  // ----- makePolylines -----

  /** One input line: lon/lat vertices and optional per-vertex offsets, per-vertex data and a zoom. */
  datatype LineData = LineData(vertices: seq<Pt>, offsets: Option<seq<Pt>>, data: Option<seq<real>>, zoom: Option<real>)

  /** The output buffers; a component is present when the first line has it. */
  datatype Polyline = Polyline(vertices: seq<real>, extrusion: seq<real>, offsets: Option<seq<real>>,
                               data: Option<seq<MS.Sample>>, zoom: Option<seq<real>>)

  /** Math.hypot. */
  type Hypot = (real, real) -> real

  /** The unit normal (dy, -dx) / |d| of the segment from the first point to the second. */
  type Normal = (Pt, Pt) -> Pt

  /** The vertices in Mercator coordinates. */
  function Projected(vs: seq<Pt>, merc: Mercator): (ps: seq<Pt>)
    ensures |ps| == |vs|
  {
    seq(|vs|, k requires 0 <= k < |vs| => merc(vs[k].0, vs[k].1))
  }

  /** The points the normals are computed from: the offsets if given, else the projected vertices. */
  function ExtrusionSource(line: LineData, merc: Mercator): seq<Pt>
  {
    if line.offsets.Some? then line.offsets.value else Projected(line.vertices, merc)
  }

  /**
   * A line the loop cannot draw: it has no vertices, or fewer than two
   * extrusion points, or fewer extrusion points than vertices. Each reads
   * an undefined point and throws.
   */
  predicate LineThrows(line: LineData)
  {
    var n := |line.vertices|;
    var m := if line.offsets.Some? then |line.offsets.value| else n;
    n == 0 || m < 2 || m < n
  }

  /** The first k lines can all be drawn. */
  predicate Drawable(lines: seq<LineData>, k: nat)
  {
    forall i :: 0 <= i < k && i < |lines| ==> !LineThrows(lines[i])
  }

  lemma DrawableStep(lines: seq<LineData>, k: nat)
    requires Drawable(lines, k) && k < |lines| && !LineThrows(lines[k])
    ensures Drawable(lines, k + 1)
  {
  }

  /**
   * The sizes are taken from the first line's components: an empty offsets
   * or data list has no first element to measure and throws.
   */
  predicate LayoutThrows(first: LineData)
  {
    first.offsets == Some([]) || first.data == Some([])
  }

  /** The cumulative length along the projected vertices up to vertex k, starting at 0.0001. */
  function CumLen(ps: seq<Pt>, hypot: Hypot, k: nat): real
    requires k < |ps|
  {
    if k == 0 then 0.0001 else CumLen(ps, hypot, k - 1) + hypot(ps[k - 1].0 - ps[k].0, ps[k - 1].1 - ps[k].1)
  }

  function Vertex3(p: Pt, len: real): seq<real>
  {
    [p.0, p.1, len]
  }

  /** Segment k: both ends twice, the length negated on one copy of each. */
  function VertexSegment(ps: seq<Pt>, hypot: Hypot, k: nat): seq<real>
    requires 1 <= k < |ps|
  {
    Vertex3(ps[k - 1], -CumLen(ps, hypot, k - 1)) + Vertex3(ps[k - 1], CumLen(ps, hypot, k - 1))
    + Vertex3(ps[k], -CumLen(ps, hypot, k)) + Vertex3(ps[k], CumLen(ps, hypot, k))
  }

  function VerticesUpTo(ps: seq<Pt>, hypot: Hypot, k: nat): (r: seq<real>)
    requires 1 <= k <= |ps|
    ensures |r| == 12 * k - 9
  {
    if k == 1 then Vertex3(ps[0], CumLen(ps, hypot, 0))
    else VerticesUpTo(ps, hypot, k - 1) + VertexSegment(ps, hypot, k - 1)
  }

  /** The vertex floats of one line: the first vertex, every segment, the last vertex. */
  function LineVertices(ps: seq<Pt>, hypot: Hypot): (r: seq<real>)
    requires |ps| >= 1
    ensures |r| == 3 * (4 * |ps| - 2)
  {
    VerticesUpTo(ps, hypot, |ps|) + Vertex3(ps[|ps| - 1], CumLen(ps, hypot, |ps| - 1))
  }

  function Flip(e: Pt, flip: bool): Pt
  {
    if flip then (e.0, -e.1) else e
  }

  function Neg(e: Pt): Pt
  {
    (-e.0, -e.1)
  }

  /** The extrusion of segment k; the y component is flipped for Mercator vertices. */
  function SegNormal(line: LineData, merc: Mercator, normal: Normal, k: nat): Pt
    requires 1 <= k < |ExtrusionSource(line, merc)|
  {
    var es := ExtrusionSource(line, merc);
    Flip(normal(es[k - 1], es[k]), line.offsets.None?)
  }

  function ExtrusionSegment(line: LineData, merc: Mercator, normal: Normal, k: nat): seq<real>
    requires 1 <= k < |ExtrusionSource(line, merc)|
  {
    var e := SegNormal(line, merc, normal, k);
    Floats(e) + Floats(Neg(e)) + Floats(e) + Floats(Neg(e))
  }

  function ExtrusionUpTo(line: LineData, merc: Mercator, normal: Normal, k: nat): (r: seq<real>)
    requires !LineThrows(line) && 1 <= k <= |line.vertices|
    ensures |r| == 8 * k - 6
  {
    if k == 1 then Floats(SegNormal(line, merc, normal, 1))
    else ExtrusionUpTo(line, merc, normal, k - 1) + ExtrusionSegment(line, merc, normal, k - 1)
  }

  /** The extrusion floats of one line; the last vertex takes the negated last normal. */
  function LineExtrusion(line: LineData, merc: Mercator, normal: Normal): (r: seq<real>)
    requires !LineThrows(line)
    ensures |r| == 2 * (4 * |line.vertices| - 2)
  {
    var n := |line.vertices|;
    ExtrusionUpTo(line, merc, normal, n) + Floats(Neg(SegNormal(line, merc, normal, if n >= 2 then n - 1 else 1)))
  }

  function OffsetsUpTo(os: seq<Pt>, k: nat): (r: seq<real>)
    requires 1 <= k <= |os|
    ensures |r| == 8 * k - 6
  {
    if k == 1 then Floats(os[0])
    else OffsetsUpTo(os, k - 1) + Floats(os[k - 2]) + Floats(os[k - 2]) + Floats(os[k - 1]) + Floats(os[k - 1])
  }

  /** The offset floats of one line: o0, then (o_{k-1}, o_{k-1}, o_k, o_k) per segment, then the last. */
  function LineOffsets(os: seq<Pt>): (r: seq<real>)
    requires |os| >= 1
    ensures |r| == 2 * (4 * |os| - 2)
  {
    OffsetsUpTo(os, |os|) + Floats(os[|os| - 1])
  }

  function DataUpTo(ds: seq<real>, k: nat): (r: seq<MS.Sample>)
    requires 1 <= k <= |ds|
    ensures |r| == 4 * k - 3 && r[0] == MS.Num(ds[0])
  {
    if k == 1 then [MS.Num(ds[0])]
    else DataUpTo(ds, k - 1) + [MS.Num(ds[k - 2]), MS.Num(ds[k - 2]), MS.Num(ds[k - 1]), MS.Num(ds[k - 1])]
  }

  /** The data values of one line in the same layout; an empty list writes undefined, NaN, twice. */
  function LineDataValues(ds: seq<real>): (r: seq<MS.Sample>)
    ensures |ds| >= 1 ==> |r| == 4 * |ds| - 2 && r[0] == MS.Num(ds[0]) && r[|r| - 1] == MS.Num(ds[|ds| - 1])
  {
    if |ds| == 0 then [MS.NaN, MS.NaN] else DataUpTo(ds, |ds|) + [MS.Num(ds[|ds| - 1])]
  }

  /** What one line writes to each buffer; a line that throws writes nothing the result keeps. */
  function LineVertexWrites(line: LineData, merc: Mercator, hypot: Hypot): seq<real>
  {
    if LineThrows(line) then [] else LineVertices(Projected(line.vertices, merc), hypot)
  }

  function LineExtrusionWrites(line: LineData, merc: Mercator, normal: Normal): seq<real>
  {
    if LineThrows(line) then [] else LineExtrusion(line, merc, normal)
  }

  /** Only a line that has offsets writes them (and advances the offsets cursor). */
  function LineOffsetWrites(line: LineData): seq<real>
  {
    if LineThrows(line) || line.offsets.None? then [] else LineOffsets(line.offsets.value)
  }

  function LineDataWrites(line: LineData): seq<MS.Sample>
  {
    if LineThrows(line) || line.data.None? then [] else LineDataValues(line.data.value)
  }

  /** A line with a zoom repeats it once per output vertex, 4 n - 2 times. */
  function LineZoomWrites(line: LineData): seq<real>
  {
    if LineThrows(line) || line.zoom.None? then [] else Fill(4 * |line.vertices| - 2, line.zoom.value)
  }

  /** The output vertices of lines 0 .. k - 1, 4 n - 2 for a line of n vertices. */
  function OutUpTo(lines: seq<LineData>, k: nat): int
    requires k <= |lines|
  {
    if k == 0 then 0 else OutUpTo(lines, k - 1) + 4 * |lines[k - 1].vertices| - 2
  }

  /** The writes of lines 0 .. k - 1 to the vertex buffer, in order. */
  function AllVertices(lines: seq<LineData>, merc: Mercator, hypot: Hypot, k: nat): (r: seq<real>)
    requires k <= |lines|
    ensures Drawable(lines, k) ==> |r| == 3 * OutUpTo(lines, k)
  {
    if k == 0 then [] else AllVertices(lines, merc, hypot, k - 1) + LineVertexWrites(lines[k - 1], merc, hypot)
  }

  function AllExtrusion(lines: seq<LineData>, merc: Mercator, normal: Normal, k: nat): (r: seq<real>)
    requires k <= |lines|
    ensures Drawable(lines, k) ==> |r| == 2 * OutUpTo(lines, k)
  {
    if k == 0 then [] else AllExtrusion(lines, merc, normal, k - 1) + LineExtrusionWrites(lines[k - 1], merc, normal)
  }

  function AllOffsets(lines: seq<LineData>, k: nat): seq<real>
    requires k <= |lines|
  {
    if k == 0 then [] else AllOffsets(lines, k - 1) + LineOffsetWrites(lines[k - 1])
  }

  function AllData(lines: seq<LineData>, k: nat): seq<MS.Sample>
    requires k <= |lines|
  {
    if k == 0 then [] else AllData(lines, k - 1) + LineDataWrites(lines[k - 1])
  }

  function AllZoom(lines: seq<LineData>, k: nat): seq<real>
    requires k <= |lines|
  {
    if k == 0 then [] else AllZoom(lines, k - 1) + LineZoomWrites(lines[k - 1])
  }

  /** The vertex count of lines 0 .. k - 1; at least one per line when they are drawable. */
  function TotalVertices(lines: seq<LineData>, k: nat): (n: nat)
    requires k <= |lines|
    ensures Drawable(lines, k) ==> n >= k
  {
    if k == 0 then 0 else TotalVertices(lines, k - 1) + |lines[k - 1].vertices|
  }

  /** `n_verts * 4 - lines.length * 2`: every line contributes 4 n - 2 output vertices. */
  function OutVertices(lines: seq<LineData>): (n: int)
    ensures Drawable(lines, |lines|) ==> n >= 2 * |lines|
  {
    4 * TotalVertices(lines, |lines|) - 2 * |lines|
  }

  /**
   * The segment loop before segment ivt: the running length and the last
   * normal, and both buffers written from (v0, cv0) and (e0, ce0) up to
   * vertex ivt.
   */
  ghost predicate GeometryWritten(line: LineData, merc: Mercator, hypot: Hypot, normal: Normal, ivt: nat,
                                  v0: seq<real>, cv0: nat, e0: seq<real>, ce0: nat,
                                  v: seq<real>, cv: nat, e: seq<real>, ce: nat, lenThis: real, ext: Pt)
    requires !LineThrows(line) && 1 <= ivt <= |line.vertices|
  {
    lenThis == CumLen(Projected(line.vertices, merc), hypot, ivt - 1) &&
    ext == SegNormal(line, merc, normal, if ivt >= 2 then ivt - 1 else 1) &&
    WroteFrom(v, cv, v0, cv0, VerticesUpTo(Projected(line.vertices, merc), hypot, ivt)) &&
    WroteFrom(e, ce, e0, ce0, ExtrusionUpTo(line, merc, normal, ivt))
  }

  /** One iteration of the segment loop: segment ivt of the vertex and extrusion buffers. */
  method SegmentWrites(vA: array<real>, eA: array<real>, line: LineData, merc: Mercator, hypot: Hypot, normal: Normal,
                       ivt: nat, lenPrev: real, extPrev: Pt, cv0: nat, ce0: nat,
                       ghost v0: seq<real>, ghost cvStart: nat, ghost e0: seq<real>, ghost ceStart: nat)
    returns (next: nat, cv: nat, ce: nat, lenThis: real, ext: Pt)
    requires vA != eA
    requires !LineThrows(line) && 1 <= ivt < |line.vertices|
    requires GeometryWritten(line, merc, hypot, normal, ivt, v0, cvStart, e0, ceStart, vA[..], cv0, eA[..], ce0, lenPrev, extPrev)
    modifies vA, eA
    ensures next == ivt + 1
    ensures GeometryWritten(line, merc, hypot, normal, next, v0, cvStart, e0, ceStart, vA[..], cv, eA[..], ce, lenThis, ext)
  {
    ghost var v1, e1 := vA[..], eA[..];
    var verts := Projected(line.vertices, merc);
    var es := ExtrusionSource(line, merc);
    var ptThis, ptPrev := verts[ivt], verts[ivt - 1];
    ext := Flip(normal(es[ivt - 1], es[ivt]), line.offsets.None?);
    lenThis := lenPrev + hypot(verts[ivt - 1].0 - verts[ivt].0, verts[ivt - 1].1 - verts[ivt].1);
    var vseg := Vertex3(ptPrev, -lenPrev) + Vertex3(ptPrev, lenPrev) + Vertex3(ptThis, -lenThis) + Vertex3(ptThis, lenThis);
    var eseg := Floats(ext) + Floats(Neg(ext)) + Floats(ext) + Floats(Neg(ext));
    assert vseg == VertexSegment(verts, hypot, ivt);
    assert eseg == ExtrusionSegment(line, merc, normal, ivt);
    cv, ce := Emit2(vA, eA, cv0, ce0, vseg, eseg);
    next := ivt + 1;
    GeometryStep(line, merc, hypot, normal, ivt, next, v0, cvStart, e0, ceStart, v1, cv0, e1, ce0, vA[..], cv, eA[..], ce, lenThis, ext);
  }

  /** A segment written after the first ivt vertices extends the loop state to vertex ivt + 1. */
  lemma GeometryStep(line: LineData, merc: Mercator, hypot: Hypot, normal: Normal, ivt: nat, next: nat,
                     v0: seq<real>, cv0: nat, e0: seq<real>, ce0: nat,
                     v1: seq<real>, cv1: nat, e1: seq<real>, ce1: nat,
                     v2: seq<real>, cv2: nat, e2: seq<real>, ce2: nat, lenThis: real, ext: Pt)
    requires !LineThrows(line) && 1 <= ivt < |line.vertices| && next == ivt + 1
    requires WroteFrom(v1, cv1, v0, cv0, VerticesUpTo(Projected(line.vertices, merc), hypot, ivt))
    requires WroteFrom(e1, ce1, e0, ce0, ExtrusionUpTo(line, merc, normal, ivt))
    requires WroteFrom(v2, cv2, v1, cv1, VertexSegment(Projected(line.vertices, merc), hypot, ivt))
    requires WroteFrom(e2, ce2, e1, ce1, ExtrusionSegment(line, merc, normal, ivt))
    requires lenThis == CumLen(Projected(line.vertices, merc), hypot, ivt)
    requires ext == SegNormal(line, merc, normal, ivt)
    ensures GeometryWritten(line, merc, hypot, normal, next, v0, cv0, e0, ce0, v2, cv2, e2, ce2, lenThis, ext)
  {
    VerticesUpToStep(Projected(line.vertices, merc), hypot, ivt, v0, cv0, v1, cv1, v2, cv2);
    ExtrusionUpToStep(line, merc, normal, ivt, e0, ce0, e1, ce1, e2, ce2);
  }

  /** The vertex and extrusion writes of one line: its first vertex, the segment loop, its last vertex. */
  method LineGeometryWrites(vA: array<real>, eA: array<real>, line: LineData, merc: Mercator, hypot: Hypot, normal: Normal,
                            cv0: nat, ce0: nat)
    returns (cv: nat, ce: nat)
    requires vA != eA
    requires !LineThrows(line)
    modifies vA, eA
    ensures WroteFrom(vA[..], cv, old(vA[..]), cv0, LineVertices(Projected(line.vertices, merc), hypot))
    ensures WroteFrom(eA[..], ce, old(eA[..]), ce0, LineExtrusion(line, merc, normal))
  {
    var verts := Projected(line.vertices, merc);
    var es := ExtrusionSource(line, merc);
    var ptThis := verts[0];
    var lenThis := 0.0001;
    var ext := Flip(normal(es[0], es[1]), line.offsets.None?);
    cv, ce := Emit2(vA, eA, cv0, ce0, Vertex3(ptThis, lenThis), Floats(ext));
    assert Vertex3(ptThis, lenThis) == VerticesUpTo(verts, hypot, 1);
    var ivt: nat := 1;
    while ivt < |verts|
      invariant 1 <= ivt <= |verts|
      invariant GeometryWritten(line, merc, hypot, normal, ivt, old(vA[..]), cv0, old(eA[..]), ce0, vA[..], cv, eA[..], ce, lenThis, ext)
    {
      ivt, cv, ce, lenThis, ext := SegmentWrites(vA, eA, line, merc, hypot, normal, ivt, lenThis, ext, cv, ce,
                                                 old(vA[..]), cv0, old(eA[..]), ce0);
    }
    ghost var v1, e1, cv1, ce1 := vA[..], eA[..], cv, ce;
    ptThis := verts[|verts| - 1];
    cv, ce := Emit2(vA, eA, cv, ce, Vertex3(ptThis, lenThis), Floats(Neg(ext)));
    LineVerticesEnd(verts, hypot, |verts|, old(vA[..]), cv0, v1, cv1, vA[..], cv);
    LineExtrusionEnd(line, merc, normal, |verts|, old(eA[..]), ce0, e1, ce1, eA[..], ce);
  }

  lemma VerticesUpToStep(ps: seq<Pt>, hypot: Hypot, k: nat, a0: seq<real>, c0: nat, a1: seq<real>, c1: nat, a2: seq<real>, c2: nat)
    requires 1 <= k < |ps|
    requires WroteFrom(a1, c1, a0, c0, VerticesUpTo(ps, hypot, k))
    requires WroteFrom(a2, c2, a1, c1, VertexSegment(ps, hypot, k))
    ensures WroteFrom(a2, c2, a0, c0, VerticesUpTo(ps, hypot, k + 1))
  {
    WroteChain(a0, c0, a1, c1, a2, c2, VerticesUpTo(ps, hypot, k), VertexSegment(ps, hypot, k));
  }

  lemma ExtrusionUpToStep(line: LineData, merc: Mercator, normal: Normal, k: nat,
                          a0: seq<real>, c0: nat, a1: seq<real>, c1: nat, a2: seq<real>, c2: nat)
    requires !LineThrows(line) && 1 <= k < |line.vertices|
    requires WroteFrom(a1, c1, a0, c0, ExtrusionUpTo(line, merc, normal, k))
    requires WroteFrom(a2, c2, a1, c1, ExtrusionSegment(line, merc, normal, k))
    ensures WroteFrom(a2, c2, a0, c0, ExtrusionUpTo(line, merc, normal, k + 1))
  {
    WroteChain(a0, c0, a1, c1, a2, c2, ExtrusionUpTo(line, merc, normal, k), ExtrusionSegment(line, merc, normal, k));
  }

  /** The last vertex closes the line's vertex layout; n is the vertex count. */
  lemma LineVerticesEnd(ps: seq<Pt>, hypot: Hypot, n: nat, a0: seq<real>, c0: nat, a1: seq<real>, c1: nat, a2: seq<real>, c2: nat)
    requires 1 <= n == |ps|
    requires WroteFrom(a1, c1, a0, c0, VerticesUpTo(ps, hypot, n))
    requires WroteFrom(a2, c2, a1, c1, Vertex3(ps[n - 1], CumLen(ps, hypot, n - 1)))
    ensures WroteFrom(a2, c2, a0, c0, LineVertices(ps, hypot))
  {
    WroteChain(a0, c0, a1, c1, a2, c2, VerticesUpTo(ps, hypot, n), Vertex3(ps[n - 1], CumLen(ps, hypot, n - 1)));
  }

  /** The negated last normal closes the line's extrusion layout. */
  lemma LineExtrusionEnd(line: LineData, merc: Mercator, normal: Normal, n: nat,
                         a0: seq<real>, c0: nat, a1: seq<real>, c1: nat, a2: seq<real>, c2: nat)
    requires !LineThrows(line) && n == |line.vertices|
    requires WroteFrom(a1, c1, a0, c0, ExtrusionUpTo(line, merc, normal, n))
    requires WroteFrom(a2, c2, a1, c1, Floats(Neg(SegNormal(line, merc, normal, if n >= 2 then n - 1 else 1))))
    ensures WroteFrom(a2, c2, a0, c0, LineExtrusion(line, merc, normal))
  {
    WroteChain(a0, c0, a1, c1, a2, c2, ExtrusionUpTo(line, merc, normal, n), Floats(Neg(SegNormal(line, merc, normal, if n >= 2 then n - 1 else 1))));
  }

  /** The offsets, data and zoom writes of one line, each only when the output has that buffer. */
  method ComponentWrites(oA: array<real>, dA: array<MS.Sample>, zA: array<real>, line: LineData,
                         hasOffsets: bool, hasData: bool, hasZoom: bool, co0: nat, cd0: nat, cz0: nat)
    returns (co: nat, cd: nat, cz: nat)
    requires oA != zA
    requires !LineThrows(line)
    modifies oA, dA, zA
    ensures WroteFrom(oA[..], co, old(oA[..]), co0, if hasOffsets then LineOffsetWrites(line) else [])
    ensures WroteFrom(dA[..], cd, old(dA[..]), cd0, if hasData then LineDataWrites(line) else [])
    ensures WroteFrom(zA[..], cz, old(zA[..]), cz0, if hasZoom then LineZoomWrites(line) else [])
  {
    var offsets := if hasOffsets && line.offsets.Some? then LineOffsets(line.offsets.value) else [];
    var zoom := if hasZoom && line.zoom.Some? then Fill(4 * |line.vertices| - 2, line.zoom.value) else [];
    co, cz := Emit2(oA, zA, co0, cz0, offsets, zoom);
    if hasData && line.data.Some? {
      cd := Emit(dA, cd0, LineDataValues(line.data.value));
    } else {
      cd := cd0;
    }
  }

  lemma AllVerticesStep(lines: seq<LineData>, merc: Mercator, hypot: Hypot, k: nat,
                        a0: seq<real>, a1: seq<real>, c1: nat, a2: seq<real>, c2: nat)
    requires k < |lines| && !LineThrows(lines[k])
    requires WroteFrom(a1, c1, a0, 0, AllVertices(lines, merc, hypot, k))
    requires WroteFrom(a2, c2, a1, c1, LineVertices(Projected(lines[k].vertices, merc), hypot))
    ensures WroteFrom(a2, c2, a0, 0, AllVertices(lines, merc, hypot, k + 1))
  {
    WroteChain(a0, 0, a1, c1, a2, c2, AllVertices(lines, merc, hypot, k), LineVertexWrites(lines[k], merc, hypot));
  }

  lemma AllExtrusionStep(lines: seq<LineData>, merc: Mercator, normal: Normal, k: nat,
                         a0: seq<real>, a1: seq<real>, c1: nat, a2: seq<real>, c2: nat)
    requires k < |lines| && !LineThrows(lines[k])
    requires WroteFrom(a1, c1, a0, 0, AllExtrusion(lines, merc, normal, k))
    requires WroteFrom(a2, c2, a1, c1, LineExtrusion(lines[k], merc, normal))
    ensures WroteFrom(a2, c2, a0, 0, AllExtrusion(lines, merc, normal, k + 1))
  {
    WroteChain(a0, 0, a1, c1, a2, c2, AllExtrusion(lines, merc, normal, k), LineExtrusionWrites(lines[k], merc, normal));
  }

  lemma AllOffsetsStep(lines: seq<LineData>, k: nat, has: bool, a0: seq<real>, a1: seq<real>, c1: nat, a2: seq<real>, c2: nat)
    requires k < |lines|
    requires WroteFrom(a1, c1, a0, 0, if has then AllOffsets(lines, k) else [])
    requires WroteFrom(a2, c2, a1, c1, if has then LineOffsetWrites(lines[k]) else [])
    ensures WroteFrom(a2, c2, a0, 0, if has then AllOffsets(lines, k + 1) else [])
  {
    WroteChain(a0, 0, a1, c1, a2, c2, if has then AllOffsets(lines, k) else [], if has then LineOffsetWrites(lines[k]) else []);
  }

  lemma AllDataStep(lines: seq<LineData>, k: nat, has: bool, a0: seq<MS.Sample>, a1: seq<MS.Sample>, c1: nat, a2: seq<MS.Sample>, c2: nat)
    requires k < |lines|
    requires WroteFrom(a1, c1, a0, 0, if has then AllData(lines, k) else [])
    requires WroteFrom(a2, c2, a1, c1, if has then LineDataWrites(lines[k]) else [])
    ensures WroteFrom(a2, c2, a0, 0, if has then AllData(lines, k + 1) else [])
  {
    WroteChain(a0, 0, a1, c1, a2, c2, if has then AllData(lines, k) else [], if has then LineDataWrites(lines[k]) else []);
  }

  lemma AllZoomStep(lines: seq<LineData>, k: nat, has: bool, a0: seq<real>, a1: seq<real>, c1: nat, a2: seq<real>, c2: nat)
    requires k < |lines|
    requires WroteFrom(a1, c1, a0, 0, if has then AllZoom(lines, k) else [])
    requires WroteFrom(a2, c2, a1, c1, if has then LineZoomWrites(lines[k]) else [])
    ensures WroteFrom(a2, c2, a0, 0, if has then AllZoom(lines, k + 1) else [])
  {
    WroteChain(a0, 0, a1, c1, a2, c2, if has then AllZoom(lines, k) else [], if has then LineZoomWrites(lines[k]) else []);
  }

  /**
   * The five buffers of makePolylines after lines 0 .. k - 1: each is its
   * zero fill with those lines' writes at the front, and each cursor stands
   * just past them. A component's buffer is present when the first line has
   * that component.
   */
  ghost predicate LinesWritten(lines: seq<LineData>, merc: Mercator, hypot: Hypot, normal: Normal, k: nat,
                               v: seq<real>, e: seq<real>, o: seq<real>, d: seq<MS.Sample>, z: seq<real>,
                               cv: nat, ce: nat, co: nat, cd: nat, cz: nat)
    requires 0 < |lines| && k <= |lines|
  {
    && WroteFrom(v, cv, Fill(|v|, 0.0), 0, AllVertices(lines, merc, hypot, k))
    && WroteFrom(e, ce, Fill(|e|, 0.0), 0, AllExtrusion(lines, merc, normal, k))
    && WroteFrom(o, co, Fill(|o|, 0.0), 0, if lines[0].offsets.Some? then AllOffsets(lines, k) else [])
    && WroteFrom(d, cd, Fill(|d|, MS.Num(0.0)), 0, if lines[0].data.Some? then AllData(lines, k) else [])
    && WroteFrom(z, cz, Fill(|z|, 0.0), 0, if lines[0].zoom.Some? then AllZoom(lines, k) else [])
  }

  /** Drawing line k after lines 0 .. k - 1 gives the buffers of lines 0 .. k. */
  lemma LinesWrittenStep(lines: seq<LineData>, merc: Mercator, hypot: Hypot, normal: Normal, k: nat, next: nat,
                         v: seq<real>, e: seq<real>, o: seq<real>, d: seq<MS.Sample>, z: seq<real>,
                         cv: nat, ce: nat, co: nat, cd: nat, cz: nat,
                         v': seq<real>, e': seq<real>, o': seq<real>, d': seq<MS.Sample>, z': seq<real>,
                         cv': nat, ce': nat, co': nat, cd': nat, cz': nat)
    requires k < |lines| && next == k + 1 && !LineThrows(lines[k])
    requires LinesWritten(lines, merc, hypot, normal, k, v, e, o, d, z, cv, ce, co, cd, cz)
    requires WroteFrom(v', cv', v, cv, LineVertices(Projected(lines[k].vertices, merc), hypot))
    requires WroteFrom(e', ce', e, ce, LineExtrusion(lines[k], merc, normal))
    requires WroteFrom(o', co', o, co, if lines[0].offsets.Some? then LineOffsetWrites(lines[k]) else [])
    requires WroteFrom(d', cd', d, cd, if lines[0].data.Some? then LineDataWrites(lines[k]) else [])
    requires WroteFrom(z', cz', z, cz, if lines[0].zoom.Some? then LineZoomWrites(lines[k]) else [])
    ensures LinesWritten(lines, merc, hypot, normal, next, v', e', o', d', z', cv', ce', co', cd', cz')
  {
    AllVerticesStep(lines, merc, hypot, k, Fill(|v|, 0.0), v, cv, v', cv');
    AllExtrusionStep(lines, merc, normal, k, Fill(|e|, 0.0), e, ce, e', ce');
    AllOffsetsStep(lines, k, lines[0].offsets.Some?, Fill(|o|, 0.0), o, co, o', co');
    AllDataStep(lines, k, lines[0].data.Some?, Fill(|d|, MS.Num(0.0)), d, cd, d', cd');
    AllZoomStep(lines, k, lines[0].zoom.Some?, Fill(|z|, 0.0), z, cz, z', cz');
  }

  /** One iteration of the loop of makePolylines: everything drawable line li writes, each buffer at its own cursor. */
  method LineWrites(vA: array<real>, eA: array<real>, oA: array<real>, dA: array<MS.Sample>, zA: array<real>,
                    lines: seq<LineData>, li: nat, merc: Mercator, hypot: Hypot, normal: Normal,
                    cv0: nat, ce0: nat, co0: nat, cd0: nat, cz0: nat)
    returns (next: nat, cv: nat, ce: nat, co: nat, cd: nat, cz: nat)
    requires vA != eA && oA != zA && vA != oA && vA != zA && eA != oA && eA != zA
    requires li < |lines| && !LineThrows(lines[li])
    requires LinesWritten(lines, merc, hypot, normal, li, vA[..], eA[..], oA[..], dA[..], zA[..], cv0, ce0, co0, cd0, cz0)
    modifies vA, eA, oA, dA, zA
    ensures next == li + 1
    ensures LinesWritten(lines, merc, hypot, normal, next, vA[..], eA[..], oA[..], dA[..], zA[..], cv, ce, co, cd, cz)
  {
    ghost var v, e, o, d, z := vA[..], eA[..], oA[..], dA[..], zA[..];
    var line := lines[li];
    cv, ce := LineGeometryWrites(vA, eA, line, merc, hypot, normal, cv0, ce0);
    co, cd, cz := ComponentWrites(oA, dA, zA, line, lines[0].offsets.Some?, lines[0].data.Some?, lines[0].zoom.Some?, co0, cd0, cz0);
    next := li + 1;
    LinesWrittenStep(lines, merc, hypot, normal, li, next, v, e, o, d, z, cv0, ce0, co0, cd0, cz0,
                     vA[..], eA[..], oA[..], dA[..], zA[..], cv, ce, co, cd, cz);
  }

  /** Before the first line: zero-filled buffers with every cursor at 0. */
  lemma LinesWrittenStart(lines: seq<LineData>, merc: Mercator, hypot: Hypot, normal: Normal,
                          v: seq<real>, e: seq<real>, o: seq<real>, d: seq<MS.Sample>, z: seq<real>)
    requires 0 < |lines|
    requires v == Fill(|v|, 0.0) && e == Fill(|e|, 0.0) && o == Fill(|o|, 0.0)
    requires d == Fill(|d|, MS.Num(0.0)) && z == Fill(|z|, 0.0)
    ensures LinesWritten(lines, merc, hypot, normal, 0, v, e, o, d, z, 0, 0, 0, 0, 0)
  {
  }

  /** The loop of makePolylines: it stops, with an error, at the first line it cannot draw. */
  method DrawLines(vA: array<real>, eA: array<real>, oA: array<real>, dA: array<MS.Sample>, zA: array<real>,
                   lines: seq<LineData>, merc: Mercator, hypot: Hypot, normal: Normal)
    returns (ok: bool, cv: nat, ce: nat, co: nat, cd: nat, cz: nat)
    requires vA != eA && oA != zA && vA != oA && vA != zA && eA != oA && eA != zA
    requires 0 < |lines|
    requires LinesWritten(lines, merc, hypot, normal, 0, vA[..], eA[..], oA[..], dA[..], zA[..], 0, 0, 0, 0, 0)
    modifies vA, eA, oA, dA, zA
    ensures ok <==> Drawable(lines, |lines|)
    ensures ok ==> LinesWritten(lines, merc, hypot, normal, |lines|, vA[..], eA[..], oA[..], dA[..], zA[..], cv, ce, co, cd, cz)
  {
    cv, ce, co, cd, cz := 0, 0, 0, 0, 0;
    var li: nat := 0;
    while li < |lines|
      invariant li <= |lines|
      invariant Drawable(lines, li)
      invariant LinesWritten(lines, merc, hypot, normal, li, vA[..], eA[..], oA[..], dA[..], zA[..], cv, ce, co, cd, cz)
    {
      if LineThrows(lines[li]) {
        return false, cv, ce, co, cd, cz;
      }
      DrawableStep(lines, li);
      li, cv, ce, co, cd, cz := LineWrites(vA, eA, oA, dA, zA, lines, li, merc, hypot, normal, cv, ce, co, cd, cz);
    }
    ok := true;
  }

  /**
   * The polyline makePolylines returns for drawable lines: every buffer is
   * its lines' layouts written from the start of a zero-filled array of
   * OutVertices times the component's width, and a component is present
   * exactly when the first line has it.
   */
  ghost predicate PolylineLayout(lines: seq<LineData>, merc: Mercator, hypot: Hypot, normal: Normal, p: Polyline)
    requires 0 < |lines| && Drawable(lines, |lines|)
  {
    && p.vertices == Written(Fill(3 * OutVertices(lines), 0.0), 0, AllVertices(lines, merc, hypot, |lines|))
    && p.extrusion == Written(Fill(2 * OutVertices(lines), 0.0), 0, AllExtrusion(lines, merc, normal, |lines|))
    && p.offsets == (if lines[0].offsets.Some? then Some(Written(Fill(2 * OutVertices(lines), 0.0), 0, AllOffsets(lines, |lines|))) else None)
    && p.data == (if lines[0].data.Some? then Some(Written(Fill(OutVertices(lines), MS.Num(0.0)), 0, AllData(lines, |lines|))) else None)
    && p.zoom == (if lines[0].zoom.Some? then Some(Written(Fill(OutVertices(lines), 0.0), 0, AllZoom(lines, |lines|))) else None)
  }

  /** After the last line, the five buffers are the polyline's layout. */
  lemma LinesWrittenLayout(lines: seq<LineData>, merc: Mercator, hypot: Hypot, normal: Normal, n: int,
                           v: seq<real>, e: seq<real>, o: seq<real>, d: seq<MS.Sample>, z: seq<real>,
                           cv: nat, ce: nat, co: nat, cd: nat, cz: nat)
    requires 0 < |lines| && Drawable(lines, |lines|) && n == OutVertices(lines)
    requires |v| == 3 * n && |e| == 2 * n
    requires |o| == (if lines[0].offsets.Some? then 2 * n else 0)
    requires |d| == (if lines[0].data.Some? then n else 0)
    requires |z| == (if lines[0].zoom.Some? then n else 0)
    requires LinesWritten(lines, merc, hypot, normal, |lines|, v, e, o, d, z, cv, ce, co, cd, cz)
    ensures PolylineLayout(lines, merc, hypot, normal,
                           Polyline(v, e, if lines[0].offsets.Some? then Some(o) else None,
                                    if lines[0].data.Some? then Some(d) else None,
                                    if lines[0].zoom.Some? then Some(z) else None))
  {
  }

  /**
   * makePolylines: no lines, or a first line without vertices, gives empty
   * buffers; a layout or drawing error throws; otherwise every buffer is its
   * lines' layouts written from the start of a zero-filled array of
   * OutVertices times the component's width.
   */
  method MakePolylines(lines: seq<LineData>, merc: Mercator, hypot: Hypot, normal: Normal) returns (r: Result<Polyline>)
    ensures (|lines| == 0 || |lines[0].vertices| == 0) ==> r == Ok(Polyline([], [], None, None, None))
    ensures |lines| > 0 && |lines[0].vertices| > 0 ==> (r.Err? <==> LayoutThrows(lines[0]) || !Drawable(lines, |lines|))
    ensures r.Ok? && |lines| > 0 && |lines[0].vertices| > 0 ==> (
      && Drawable(lines, |lines|)
      && PolylineLayout(lines, merc, hypot, normal, r.value))
  {
    if |lines| == 0 || |lines[0].vertices| == 0 {
      return Ok(Polyline([], [], None, None, None));
    }
    if LayoutThrows(lines[0]) {
      return Err("Cannot read properties of undefined (reading 'length')");
    }
    var nOut := OutVertices(lines);
    if nOut < 0 {
      return Err("Invalid typed array length");
    }
    var hasOffsets, hasData, hasZoom := lines[0].offsets.Some?, lines[0].data.Some?, lines[0].zoom.Some?;
    var vA := NewFill(3 * nOut, 0.0);
    var eA := NewFill(2 * nOut, 0.0);
    var oA := NewFill(if hasOffsets then 2 * nOut else 0, 0.0);
    var dA := NewFill(if hasData then nOut else 0, MS.Num(0.0));
    var zA := NewFill(if hasZoom then nOut else 0, 0.0);
    LinesWrittenStart(lines, merc, hypot, normal, vA[..], eA[..], oA[..], dA[..], zA[..]);
    var ok, cv, ce, co, cd, cz := DrawLines(vA, eA, oA, dA, zA, lines, merc, hypot, normal);
    if !ok {
      return Err("Cannot read properties of undefined (reading '0')");
    }
    assert |vA[..]| == 3 * nOut && |eA[..]| == 2 * nOut;
    assert |oA[..]| == (if lines[0].offsets.Some? then 2 * nOut else 0);
    assert |dA[..]| == (if lines[0].data.Some? then nOut else 0);
    assert |zA[..]| == (if lines[0].zoom.Some? then nOut else 0);
    LinesWrittenLayout(lines, merc, hypot, normal, nOut, vA[..], eA[..], oA[..], dA[..], zA[..], cv, ce, co, cd, cz);
    r := Ok(Polyline(vA[..], eA[..],
                     if hasOffsets then Some(oA[..]) else None,
                     if hasData then Some(dA[..]) else None,
                     if hasZoom then Some(zA[..]) else None));
  }

  // ----- polyline sizes -----

  /** Summed line by line, the output vertices are the allocation's `n_verts * 4 - lines.length * 2`. */
  lemma {:induction false} OutUpToTotal(lines: seq<LineData>, k: nat)
    requires k <= |lines|
    ensures OutUpTo(lines, k) == 4 * TotalVertices(lines, k) - 2 * k
  {
    if k > 0 {
      OutUpToTotal(lines, k - 1);
    }
  }

  /**
   * The allocation of makePolylines is exact for the vertex and extrusion
   * buffers: the lines' writes fill them completely, so no zero from the
   * fill is left over and nothing is dropped.
   */
  lemma PolylineFillsExactly(lines: seq<LineData>, merc: Mercator, hypot: Hypot, normal: Normal, p: Polyline)
    requires 0 < |lines| && Drawable(lines, |lines|)
    requires PolylineLayout(lines, merc, hypot, normal, p)
    ensures p.vertices == AllVertices(lines, merc, hypot, |lines|)
    ensures p.extrusion == AllExtrusion(lines, merc, normal, |lines|)
  {
    OutUpToTotal(lines, |lines|);
    WrittenWhole(Fill(3 * OutVertices(lines), 0.0), AllVertices(lines, merc, hypot, |lines|));
    WrittenWhole(Fill(2 * OutVertices(lines), 0.0), AllExtrusion(lines, merc, normal, |lines|));
  }

  /** With non-negative segment lengths the cumulative length never decreases and stays at least 0.0001. */
  lemma {:induction false} CumLenMonotone(ps: seq<Pt>, hypot: Hypot, k: nat, l: nat)
    requires k <= l < |ps|
    requires forall x: real, y: real :: hypot(x, y) >= 0.0
    ensures 0.0001 <= CumLen(ps, hypot, k) <= CumLen(ps, hypot, l)
  {
    if l > k {
      CumLenMonotone(ps, hypot, k, l - 1);
      assert hypot(ps[l - 1].0 - ps[l].0, ps[l - 1].1 - ps[l].1) >= 0.0;
    } else if k > 0 {
      CumLenMonotone(ps, hypot, k - 1, k - 1);
      assert hypot(ps[k - 1].0 - ps[k].0, ps[k - 1].1 - ps[k].1) >= 0.0;
    }
  }

  /**
   * The third components of a segment's four vertices are -L, +L of the
   * previous vertex and -L, +L of this one; the first output vertex carries
   * the starting length 0.0001.
   */
  lemma SegmentLengths(ps: seq<Pt>, hypot: Hypot, k: nat)
    requires 1 <= k < |ps|
    ensures var s := VertexSegment(ps, hypot, k);
      && s[2] == -CumLen(ps, hypot, k - 1) && s[5] == CumLen(ps, hypot, k - 1)
      && s[8] == -CumLen(ps, hypot, k) && s[11] == CumLen(ps, hypot, k)
      && s[0] == s[3] == ps[k - 1].0 && s[6] == s[9] == ps[k].0
    ensures LineVertices(ps, hypot)[2] == 0.0001
  {
    VerticesUpToStart(ps, hypot, |ps|);
    assert LineVertices(ps, hypot)[..3] == VerticesUpTo(ps, hypot, |ps|)[..3];
  }

  lemma {:induction false} VerticesUpToStart(ps: seq<Pt>, hypot: Hypot, k: nat)
    requires 1 <= k <= |ps|
    ensures |VerticesUpTo(ps, hypot, k)| >= 3 && VerticesUpTo(ps, hypot, k)[..3] == Vertex3(ps[0], 0.0001)
  {
    if k > 1 {
      VerticesUpToStart(ps, hypot, k - 1);
    }
  }
}
