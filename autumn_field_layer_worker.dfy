/**
 * The buffer builders of the field-layer worker: wind barbs as six-vertex
 * strips with the barb's texture cell, the two-vertex-per-latitude domain
 * outline, and the slotted polyline layout. Like the plot-layer worker they
 * fill preallocated Float32Arrays at advancing cursors.
 */
module AutumnFieldLayerWorker {
  import opened Wrappers
  import opened Buffers
  import Utils
  import MS = MarchingSquares
  import PLW = PlotLayerWorker

  type Pt = PLW.Pt

  // ----- makeBarbElements -----

  /** The barb texture's layout: a barb is width x height pixels of a texWidth x texHeight atlas, texWrap knots per row. */
  datatype BarbDims = BarbDims(width: real, height: real, texWrap: int, texWidth: real, texHeight: real)

  /** The atlas layout is usable: a positive wrap and a non-empty texture. */
  predicate DimsOk(dims: BarbDims)
  {
    dims.texWrap > 0 && dims.texWidth != 0.0 && dims.texHeight != 0.0
  }

  /** The corner each of the six strip vertices of a barb takes; the first and last are repeated. */
  const CORNERS: seq<int> := [0, 0, 1, 2, 3, 3]

  /** Math.round: the nearest integer, halves rounded up. */
  function Round(x: real): (n: int)
    ensures x - 0.5 < n as real <= x + 0.5
  {
    (x + 0.5).Floor
  }

  /** `Math.round(speed / 5) * 5`: the speed rounded to the nearest multiple of 5 knots. */
  function BarbMag(speed: real): (m: int)
    ensures m % 5 == 0
    ensures speed - 2.5 < m as real <= speed + 2.5
  {
    var k := Round(speed / 5.0);
    assert speed / 5.0 - 0.5 < k as real <= speed / 5.0 + 0.5;
    5 * k
  }

  /** The remainder of JavaScript's `%`: it truncates, so it takes the sign of the dividend. */
  function JsRem(a: int, b: int): (r: int)
    requires b != 0
    ensures a >= 0 ==> r == a % b
  {
    if a >= 0 then a % b else -((-a) % b)
  }

  /** The column of a barb in the atlas, `(barb_mag % BARB_TEX_WRAP) / 5`. */
  function IBarb(mag: int, wrap: int): real
    requires wrap != 0
  {
    JsRem(mag, wrap) as real / 5.0
  }

  /** The row of a barb in the atlas, `Math.floor(barb_mag / BARB_TEX_WRAP)`. */
  function JBarb(mag: int, wrap: int): int
    requires wrap != 0
  {
    (mag as real / wrap as real).Floor
  }

  /**
   * For a non-negative magnitude and a wrap that is a multiple of 5, the
   * atlas cell is a whole column below wrap / 5 and a row, and the
   * magnitude is recovered from it as row * wrap + 5 * column.
   */
  lemma BarbCell(mag: int, wrap: int)
    requires mag >= 0 && mag % 5 == 0 && wrap > 0 && wrap % 5 == 0
    ensures var i := (mag % wrap) / 5;
      && IBarb(mag, wrap) == i as real
      && 0 <= i < wrap / 5
      && JBarb(mag, wrap) == mag / wrap
      && mag == JBarb(mag, wrap) * wrap + 5 * i
  {
    var q, r := mag / wrap, mag % wrap;
    assert mag == q * wrap + r && 0 <= r < wrap;
    assert r % 5 == 0 by {
      assert r == mag - q * wrap;
      assert q * wrap == 5 * (q * (wrap / 5));
    }
    assert 5 * (r / 5) == r;
    assert JsRem(mag, wrap) as real / 5.0 == (r / 5) as real;
    FloorOfQuotient(mag, wrap, q, r);
  }

  lemma FloorOfQuotient(a: int, b: int, q: int, r: int)
    requires b > 0 && a == q * b + r && 0 <= r < b
    ensures (a as real / b as real).Floor == q
  {
    var x := a as real / b as real;
    assert x * b as real == a as real;
    assert q as real * b as real <= a as real < (q + 1) as real * b as real;
    assert q as real <= x < (q + 1) as real;
  }

  /** What a barb shows: its magnitude and direction, or nothing where u or v is undefined (NaN). */
  datatype Barb = Barb(mag: int, angle: real)

  /**
   * The barb at grid index idx: the magnitude from Math.hypot(u, v) and the
   * angle `90 - atan2(-v, -u) * 180 / pi`, both supplied as functions; a read
   * past the end of u or v yields undefined and so NaN.
   */
  function BarbAt(us: seq<real>, vs: seq<real>, idx: nat, hypot: PLW.Hypot, angle: (real, real) -> real): Option<Barb>
  {
    if idx < |us| && idx < |vs| then Some(Barb(BarbMag(hypot(us[idx], vs[idx])), angle(us[idx], vs[idx]))) else None
  }

  /** The grid's inputs to makeBarbElements; thinning is by the factor 2^thinExp. */
  datatype BarbField = BarbField(lats: seq<real>, lons: seq<real>, us: seq<real>, vs: seq<real>, thinExp: nat)

  /** The barb of point (ilat, ilon), read at ilat * n_lons + ilon. */
  function PointBarb(f: BarbField, hypot: PLW.Hypot, angle: (real, real) -> real, ilat: nat, ilon: nat): Option<Barb>
  {
    BarbAt(f.us, f.vs, RowMajor(|f.lons|, ilat, ilon), hypot, angle)
  }

  /** The six strip vertices of a barb: the Mercator position and the minimum zoom, repeated per corner. */
  function CornerPts(p: Pt, zoom: real, k: nat): (r: seq<real>)
    ensures |r| == 3 * k
  {
    if k == 0 then [] else CornerPts(p, zoom, k - 1) + [p.0, p.1, zoom]
  }

  /** The offset pairs of the first k corners: the corner index and the barb angle. */
  function CornerOffsets(angle: MS.Sample, k: nat): (r: seq<MS.Sample>)
    requires k <= |CORNERS|
    ensures |r| == 2 * k
  {
    if k == 0 then [] else CornerOffsets(angle, k - 1) + [MS.Num(CORNERS[k - 1] as real), angle]
  }

  function Angle(b: Option<Barb>): MS.Sample
  {
    if b.Some? then MS.Num(b.value.angle) else MS.NaN
  }

  /**
   * The twelve texture floats of a barb: the corners (i, j), (i, j),
   * (i + 1, j), (i, j + 1), (i + 1, j + 1), (i + 1, j + 1) of its atlas
   * cell, scaled by the barb's share of the atlas; NaN without a barb.
   */
  function BarbTex(b: Option<Barb>, dims: BarbDims): (r: seq<MS.Sample>)
    requires DimsOk(dims)
    ensures |r| == 12
  {
    if b.None? then Fill(12, MS.NaN)
    else
      var wf, hf := dims.width / dims.texWidth, dims.height / dims.texHeight;
      var i, j := IBarb(b.value.mag, dims.texWrap), JBarb(b.value.mag, dims.texWrap) as real;
      var i0, i1, j0, j1 := MS.Num(i * wf), MS.Num((i + 1.0) * wf), MS.Num(j * hf), MS.Num((j + 1.0) * hf);
      [i0, j0, i0, j0, i1, j0, i0, j1, i1, j1, i1, j1]
  }

  /** The 18 position floats of point (ilat, ilon). */
  function BarbPoint(f: BarbField, merc: PLW.Mercator, ilat: nat, ilon: nat): (r: seq<real>)
    requires ilat < |f.lats| && ilon < |f.lons|
    ensures |r| == 18
  {
    var zoom := 1 + Utils.Halvings(ilat, ilon, f.thinExp);
    CornerPts(merc(f.lons[ilon], f.lats[ilat]), zoom as real, 6)
  }

  /** The 12 offset floats of point (ilat, ilon). */
  function BarbOffset(f: BarbField, hypot: PLW.Hypot, angle: (real, real) -> real, ilat: nat, ilon: nat): (r: seq<MS.Sample>)
    ensures |r| == 12
  {
    CornerOffsets(Angle(PointBarb(f, hypot, angle, ilat, ilon)), 6)
  }

  function BarbPointsRow(f: BarbField, merc: PLW.Mercator, ilat: nat, m: nat): (r: seq<real>)
    requires ilat < |f.lats| && m <= |f.lons|
    ensures |r| == 18 * m
  {
    if m == 0 then [] else BarbPointsRow(f, merc, ilat, m - 1) + BarbPoint(f, merc, ilat, m - 1)
  }

  /** The position floats of rows 0 .. r - 1, in the order the loops visit them. */
  function BarbPoints(f: BarbField, merc: PLW.Mercator, r: nat): (s: seq<real>)
    requires r <= |f.lats|
    ensures |s| == 18 * RowStart(|f.lons|, r)
  {
    if r == 0 then [] else BarbPoints(f, merc, r - 1) + BarbPointsRow(f, merc, r - 1, |f.lons|)
  }

  function BarbOffsetsRow(f: BarbField, hypot: PLW.Hypot, angle: (real, real) -> real, ilat: nat, m: nat): (r: seq<MS.Sample>)
    ensures |r| == 12 * m
  {
    if m == 0 then [] else BarbOffsetsRow(f, hypot, angle, ilat, m - 1) + BarbOffset(f, hypot, angle, ilat, m - 1)
  }

  function BarbOffsets(f: BarbField, hypot: PLW.Hypot, angle: (real, real) -> real, r: nat): (s: seq<MS.Sample>)
    ensures |s| == 12 * RowStart(|f.lons|, r)
  {
    if r == 0 then [] else BarbOffsets(f, hypot, angle, r - 1) + BarbOffsetsRow(f, hypot, angle, r - 1, |f.lons|)
  }

  function BarbTexRow(f: BarbField, hypot: PLW.Hypot, angle: (real, real) -> real, dims: BarbDims, ilat: nat, m: nat): (r: seq<MS.Sample>)
    requires DimsOk(dims)
    ensures |r| == 12 * m
  {
    if m == 0 then [] else BarbTexRow(f, hypot, angle, dims, ilat, m - 1) + BarbTex(PointBarb(f, hypot, angle, ilat, m - 1), dims)
  }

  function BarbTexes(f: BarbField, hypot: PLW.Hypot, angle: (real, real) -> real, dims: BarbDims, r: nat): (s: seq<MS.Sample>)
    requires DimsOk(dims)
    ensures |s| == 12 * RowStart(|f.lons|, r)
  {
    if r == 0 then [] else BarbTexes(f, hypot, angle, dims, r - 1) + BarbTexRow(f, hypot, angle, dims, r - 1, |f.lons|)
  }

  /** The three outputs of makeBarbElements. */
  datatype BarbBuffers = BarbBuffers(pts: seq<real>, offset: seq<MS.Sample>, texCoords: seq<MS.Sample>)

  /**
   * makeBarbElements: 18 position floats and 12 offset and texture floats
   * per grid point, which fill the buffers of n_lats * n_lons * 6 * 3 and
   * n_lats * n_lons * 6 * 2 floats exactly, in row-major order.
   */
  method MakeBarbElements(f: BarbField, dims: BarbDims, merc: PLW.Mercator, hypot: PLW.Hypot, angle: (real, real) -> real)
    returns (r: BarbBuffers)
    requires DimsOk(dims)
    ensures |r.pts| == |f.lats| * |f.lons| * 6 * 3
    ensures |r.offset| == |r.texCoords| == |f.lats| * |f.lons| * 6 * 2
    ensures r.pts == BarbPoints(f, merc, |f.lats|)
    ensures r.offset == BarbOffsets(f, hypot, angle, |f.lats|)
    ensures r.texCoords == BarbTexes(f, hypot, angle, dims, |f.lats|)
  {
    var nLats, nLons := |f.lats|, |f.lons|;
    var nPts, nTc := nLats * nLons * 6 * 3, nLats * nLons * 6 * 2;
    var ptsA := NewFill(nPts, 0.0);
    var offA := NewFill(nTc, MS.Num(0.0));
    var texA := NewFill(nTc, MS.Num(0.0));
    var cp: nat, ct: nat := 0, 0;
    var ilat: nat := 0;
    WroteNothing(ptsA[..], 0);
    WroteNothing(offA[..], 0);
    WroteNothing(texA[..], 0);
    while ilat < nLats
      invariant ilat <= nLats
      invariant BarbsWritten(f, dims, merc, hypot, angle, ilat, Fill(nPts, 0.0), Fill(nTc, MS.Num(0.0)),
                             ptsA[..], offA[..], texA[..], cp, ct)
    {
      ilat, cp, ct := BarbRow(ptsA, offA, texA, f, dims, merc, hypot, angle, ilat, cp, ct,
                              Fill(nPts, 0.0), Fill(nTc, MS.Num(0.0)));
    }
    BarbsComplete(f, dims, merc, hypot, angle, ptsA[..], offA[..], texA[..], cp, ct);
    r := BarbBuffers(ptsA[..], offA[..], texA[..]);
  }

  /** After the last row the writes cover the zero-filled buffers exactly. */
  lemma BarbsComplete(f: BarbField, dims: BarbDims, merc: PLW.Mercator, hypot: PLW.Hypot, angle: (real, real) -> real,
                      p: seq<real>, o: seq<MS.Sample>, t: seq<MS.Sample>, cp: nat, ct: nat)
    requires DimsOk(dims)
    requires BarbsWritten(f, dims, merc, hypot, angle, |f.lats|, Fill(|f.lats| * |f.lons| * 6 * 3, 0.0),
                          Fill(|f.lats| * |f.lons| * 6 * 2, MS.Num(0.0)), p, o, t, cp, ct)
    ensures |p| == |f.lats| * |f.lons| * 6 * 3 && p == BarbPoints(f, merc, |f.lats|)
    ensures |o| == |t| == |f.lats| * |f.lons| * 6 * 2
    ensures o == BarbOffsets(f, hypot, angle, |f.lats|) && t == BarbTexes(f, hypot, angle, dims, |f.lats|)
  {
    var n := |f.lats| * |f.lons|;
    RowStartIsProduct(|f.lons|, |f.lats|);
    assert RowStart(|f.lons|, |f.lats|) == n;
    assert n * 6 * 3 == 18 * n && n * 6 * 2 == 12 * n;
    WrittenWhole(Fill(n * 6 * 3, 0.0), BarbPoints(f, merc, |f.lats|));
    WrittenWhole(Fill(n * 6 * 2, MS.Num(0.0)), BarbOffsets(f, hypot, angle, |f.lats|));
    WrittenWhole(Fill(n * 6 * 2, MS.Num(0.0)), BarbTexes(f, hypot, angle, dims, |f.lats|));
  }

  /** The three buffers after rows 0 .. ilat - 1, written from the start of their zero fills. */
  ghost predicate BarbsWritten(f: BarbField, dims: BarbDims, merc: PLW.Mercator, hypot: PLW.Hypot, angle: (real, real) -> real,
                               ilat: nat, p0: seq<real>, t0: seq<MS.Sample>,
                               p: seq<real>, o: seq<MS.Sample>, t: seq<MS.Sample>, cp: nat, ct: nat)
    requires ilat <= |f.lats| && DimsOk(dims)
  {
    && WroteFrom(p, cp, p0, 0, BarbPoints(f, merc, ilat))
    && WroteFrom(o, ct, t0, 0, BarbOffsets(f, hypot, angle, ilat))
    && WroteFrom(t, ct, t0, 0, BarbTexes(f, hypot, angle, dims, ilat))
  }

  /** Row ilat of the inner loop before point ilon, written from the cursors the row started at. */
  ghost predicate BarbRowWritten(f: BarbField, dims: BarbDims, merc: PLW.Mercator, hypot: PLW.Hypot, angle: (real, real) -> real,
                                 ilat: nat, ilon: nat, p0: seq<real>, cp0: nat, o0: seq<MS.Sample>, t0: seq<MS.Sample>, ct0: nat,
                                 p: seq<real>, o: seq<MS.Sample>, t: seq<MS.Sample>, cp: nat, ct: nat)
    requires ilat < |f.lats| && ilon <= |f.lons| && DimsOk(dims)
  {
    && WroteFrom(p, cp, p0, cp0, BarbPointsRow(f, merc, ilat, ilon))
    && WroteFrom(o, ct, o0, ct0, BarbOffsetsRow(f, hypot, angle, ilat, ilon))
    && WroteFrom(t, ct, t0, ct0, BarbTexRow(f, hypot, angle, dims, ilat, ilon))
  }

  /** One pass of the outer forEach: row ilat. */
  method BarbRow(ptsA: array<real>, offA: array<MS.Sample>, texA: array<MS.Sample>, f: BarbField, dims: BarbDims,
                 merc: PLW.Mercator, hypot: PLW.Hypot, angle: (real, real) -> real, ilat: nat, cp0: nat, ct0: nat,
                 ghost p0: seq<real>, ghost t0: seq<MS.Sample>)
    returns (next: nat, cp: nat, ct: nat)
    requires offA != texA && DimsOk(dims) && ilat < |f.lats|
    requires BarbsWritten(f, dims, merc, hypot, angle, ilat, p0, t0, ptsA[..], offA[..], texA[..], cp0, ct0)
    modifies ptsA, offA, texA
    ensures next == ilat + 1
    ensures BarbsWritten(f, dims, merc, hypot, angle, next, p0, t0, ptsA[..], offA[..], texA[..], cp, ct)
  {
    ghost var p1, o1, t1 := ptsA[..], offA[..], texA[..];
    cp, ct := cp0, ct0;
    RowStartIsProduct(|f.lons|, ilat);
    var ilon: nat := 0;
    while ilon < |f.lons|
      invariant ilon <= |f.lons|
      invariant BarbRowWritten(f, dims, merc, hypot, angle, ilat, ilon, p1, cp0, o1, t1, ct0, ptsA[..], offA[..], texA[..], cp, ct)
    {
      ilon, cp, ct := BarbPointWrites(ptsA, offA, texA, f, dims, merc, hypot, angle, ilat, ilon, cp, ct, p1, cp0, o1, t1, ct0);
    }
    next := ilat + 1;
    BarbsStep(f, dims, merc, hypot, angle, ilat, next, p0, t0, p1, o1, t1, cp0, ct0, ptsA[..], offA[..], texA[..], cp, ct);
  }

  lemma BarbsStep(f: BarbField, dims: BarbDims, merc: PLW.Mercator, hypot: PLW.Hypot, angle: (real, real) -> real,
                  ilat: nat, next: nat, p0: seq<real>, t0: seq<MS.Sample>,
                  p1: seq<real>, o1: seq<MS.Sample>, t1: seq<MS.Sample>, cp1: nat, ct1: nat,
                  p2: seq<real>, o2: seq<MS.Sample>, t2: seq<MS.Sample>, cp2: nat, ct2: nat)
    requires ilat < |f.lats| && next == ilat + 1 && DimsOk(dims)
    requires BarbsWritten(f, dims, merc, hypot, angle, ilat, p0, t0, p1, o1, t1, cp1, ct1)
    requires BarbRowWritten(f, dims, merc, hypot, angle, ilat, |f.lons|, p1, cp1, o1, t1, ct1, p2, o2, t2, cp2, ct2)
    ensures BarbsWritten(f, dims, merc, hypot, angle, next, p0, t0, p2, o2, t2, cp2, ct2)
  {
    PointRowsStep(f, merc, ilat, p0, p1, cp1, p2, cp2);
    OffsetRowsStep(f, hypot, angle, ilat, t0, o1, ct1, o2, ct2);
    TexRowsStep(f, dims, hypot, angle, ilat, t0, t1, ct1, t2, ct2);
  }

  lemma PointRowsStep(f: BarbField, merc: PLW.Mercator, ilat: nat, p0: seq<real>, p1: seq<real>, cp1: nat, p2: seq<real>, cp2: nat)
    requires ilat < |f.lats|
    requires WroteFrom(p1, cp1, p0, 0, BarbPoints(f, merc, ilat))
    requires WroteFrom(p2, cp2, p1, cp1, BarbPointsRow(f, merc, ilat, |f.lons|))
    ensures WroteFrom(p2, cp2, p0, 0, BarbPoints(f, merc, ilat + 1))
  {
    WroteChainFromStart(p0, p1, cp1, p2, cp2, BarbPoints(f, merc, ilat), BarbPointsRow(f, merc, ilat, |f.lons|));
  }

  lemma OffsetRowsStep(f: BarbField, hypot: PLW.Hypot, angle: (real, real) -> real, ilat: nat,
                       o0: seq<MS.Sample>, o1: seq<MS.Sample>, ct1: nat, o2: seq<MS.Sample>, ct2: nat)
    requires WroteFrom(o1, ct1, o0, 0, BarbOffsets(f, hypot, angle, ilat))
    requires WroteFrom(o2, ct2, o1, ct1, BarbOffsetsRow(f, hypot, angle, ilat, |f.lons|))
    ensures WroteFrom(o2, ct2, o0, 0, BarbOffsets(f, hypot, angle, ilat + 1))
  {
    WroteChainFromStart(o0, o1, ct1, o2, ct2, BarbOffsets(f, hypot, angle, ilat), BarbOffsetsRow(f, hypot, angle, ilat, |f.lons|));
  }

  lemma TexRowsStep(f: BarbField, dims: BarbDims, hypot: PLW.Hypot, angle: (real, real) -> real, ilat: nat,
                    t0: seq<MS.Sample>, t1: seq<MS.Sample>, ct1: nat, t2: seq<MS.Sample>, ct2: nat)
    requires DimsOk(dims)
    requires WroteFrom(t1, ct1, t0, 0, BarbTexes(f, hypot, angle, dims, ilat))
    requires WroteFrom(t2, ct2, t1, ct1, BarbTexRow(f, hypot, angle, dims, ilat, |f.lons|))
    ensures WroteFrom(t2, ct2, t0, 0, BarbTexes(f, hypot, angle, dims, ilat + 1))
  {
    WroteChainFromStart(t0, t1, ct1, t2, ct2, BarbTexes(f, hypot, angle, dims, ilat), BarbTexRow(f, hypot, angle, dims, ilat, |f.lons|));
  }

  /** One pass of the inner forEach: the six corners of point (ilat, ilon), then its texture cell; the cursors advance by 18 and 12. */
  method BarbPointWrites(ptsA: array<real>, offA: array<MS.Sample>, texA: array<MS.Sample>, f: BarbField, dims: BarbDims,
                         merc: PLW.Mercator, hypot: PLW.Hypot, angle: (real, real) -> real, ilat: nat, ilon: nat, cp1: nat, ct1: nat,
                         ghost p0: seq<real>, ghost cp0: nat, ghost o0: seq<MS.Sample>, ghost t0: seq<MS.Sample>, ghost ct0: nat)
    returns (next: nat, cp: nat, ct: nat)
    requires offA != texA && DimsOk(dims)
    requires ilat < |f.lats| && ilon < |f.lons| && RowStart(|f.lons|, ilat) == ilat * |f.lons|
    requires BarbRowWritten(f, dims, merc, hypot, angle, ilat, ilon, p0, cp0, o0, t0, ct0, ptsA[..], offA[..], texA[..], cp1, ct1)
    modifies ptsA, offA, texA
    ensures next == ilon + 1 && cp == cp1 + 18 && ct == ct1 + 12
    ensures BarbRowWritten(f, dims, merc, hypot, angle, ilat, next, p0, cp0, o0, t0, ct0, ptsA[..], offA[..], texA[..], cp, ct)
  {
    ghost var p1, o1, t1 := ptsA[..], offA[..], texA[..];
    var zoom := Utils.GetMinZoom(ilat, ilon, f.thinExp);
    var barb := BarbAt(f.us, f.vs, ilat * |f.lons| + ilon, hypot, angle);
    var p := merc(f.lons[ilon], f.lats[ilat]);
    CornerWrites(ptsA, offA, p, zoom as real, Angle(barb), cp1, ct1);
    var c := Emit(texA, ct1, BarbTex(barb, dims));
    cp, ct := cp1 + 6 * 3, ct1 + 6 * 2;
    next := ilon + 1;
    BarbPointStep(f, dims, merc, hypot, angle, ilat, ilon, p0, cp0, o0, t0, ct0, p1, o1, t1, cp1, ct1,
                  ptsA[..], offA[..], texA[..], zoom, barb, p);
  }

  /** Point (ilat, ilon) extends its row's writes by BarbPoint, BarbOffset and its BarbTex. */
  lemma BarbPointStep(f: BarbField, dims: BarbDims, merc: PLW.Mercator, hypot: PLW.Hypot, angle: (real, real) -> real,
                      ilat: nat, ilon: nat, p0: seq<real>, cp0: nat, o0: seq<MS.Sample>, t0: seq<MS.Sample>, ct0: nat,
                      p1: seq<real>, o1: seq<MS.Sample>, t1: seq<MS.Sample>, cp1: nat, ct1: nat,
                      p2: seq<real>, o2: seq<MS.Sample>, t2: seq<MS.Sample>, zoom: int, barb: Option<Barb>, pt: Pt)
    requires ilat < |f.lats| && ilon < |f.lons| && DimsOk(dims) && RowStart(|f.lons|, ilat) == ilat * |f.lons|
    requires BarbRowWritten(f, dims, merc, hypot, angle, ilat, ilon, p0, cp0, o0, t0, ct0, p1, o1, t1, cp1, ct1)
    requires zoom == 1 + Utils.Halvings(ilat, ilon, f.thinExp)
    requires barb == BarbAt(f.us, f.vs, ilat * |f.lons| + ilon, hypot, angle)
    requires pt == merc(f.lons[ilon], f.lats[ilat])
    requires WroteFrom(p2, cp1 + 18, p1, cp1, CornerPts(pt, zoom as real, 6))
    requires WroteFrom(o2, ct1 + 12, o1, ct1, CornerOffsets(Angle(barb), 6))
    requires t2 == Written(t1, ct1, BarbTex(barb, dims))
    ensures BarbRowWritten(f, dims, merc, hypot, angle, ilat, ilon + 1, p0, cp0, o0, t0, ct0, p2, o2, t2, cp1 + 18, ct1 + 12)
  {
    assert ilat * |f.lons| + ilon == RowMajor(|f.lons|, ilat, ilon);
    PointsStep(f, merc, ilat, ilon, p0, cp0, p1, cp1, p2, zoom, pt);
    OffsetsStep(f, hypot, angle, ilat, ilon, o0, ct0, o1, ct1, o2, barb);
    TexStep(f, dims, hypot, angle, ilat, ilon, t0, ct0, t1, ct1, t2, barb);
  }

  lemma PointsStep(f: BarbField, merc: PLW.Mercator, ilat: nat, ilon: nat, p0: seq<real>, cp0: nat, p1: seq<real>, cp1: nat,
                   p2: seq<real>, zoom: int, pt: Pt)
    requires ilat < |f.lats| && ilon < |f.lons|
    requires WroteFrom(p1, cp1, p0, cp0, BarbPointsRow(f, merc, ilat, ilon))
    requires zoom == 1 + Utils.Halvings(ilat, ilon, f.thinExp) && pt == merc(f.lons[ilon], f.lats[ilat])
    requires WroteFrom(p2, cp1 + 18, p1, cp1, CornerPts(pt, zoom as real, 6))
    ensures WroteFrom(p2, cp1 + 18, p0, cp0, BarbPointsRow(f, merc, ilat, ilon + 1))
  {
    WroteChain(p0, cp0, p1, cp1, p2, cp1 + 18, BarbPointsRow(f, merc, ilat, ilon), BarbPoint(f, merc, ilat, ilon));
  }

  lemma OffsetsStep(f: BarbField, hypot: PLW.Hypot, angle: (real, real) -> real, ilat: nat, ilon: nat,
                    o0: seq<MS.Sample>, ct0: nat, o1: seq<MS.Sample>, ct1: nat, o2: seq<MS.Sample>, barb: Option<Barb>)
    requires WroteFrom(o1, ct1, o0, ct0, BarbOffsetsRow(f, hypot, angle, ilat, ilon))
    requires barb == PointBarb(f, hypot, angle, ilat, ilon)
    requires WroteFrom(o2, ct1 + 12, o1, ct1, CornerOffsets(Angle(barb), 6))
    ensures WroteFrom(o2, ct1 + 12, o0, ct0, BarbOffsetsRow(f, hypot, angle, ilat, ilon + 1))
  {
    WroteChain(o0, ct0, o1, ct1, o2, ct1 + 12, BarbOffsetsRow(f, hypot, angle, ilat, ilon), BarbOffset(f, hypot, angle, ilat, ilon));
  }

  lemma TexStep(f: BarbField, dims: BarbDims, hypot: PLW.Hypot, angle: (real, real) -> real, ilat: nat, ilon: nat,
                t0: seq<MS.Sample>, ct0: nat, t1: seq<MS.Sample>, ct1: nat, t2: seq<MS.Sample>, barb: Option<Barb>)
    requires DimsOk(dims)
    requires WroteFrom(t1, ct1, t0, ct0, BarbTexRow(f, hypot, angle, dims, ilat, ilon))
    requires barb == PointBarb(f, hypot, angle, ilat, ilon)
    requires t2 == Written(t1, ct1, BarbTex(barb, dims))
    ensures WroteFrom(t2, ct1 + 12, t0, ct0, BarbTexRow(f, hypot, angle, dims, ilat, ilon + 1))
  {
    WroteChain(t0, ct0, t1, ct1, t2, ct1 + 12, BarbTexRow(f, hypot, angle, dims, ilat, ilon), BarbTex(barb, dims));
  }

  /**
   * The corner loop of a barb: corner icrnr writes (x, y, zoom) at
   * istart_pts + 3 icrnr and (corner index, angle) at istart_tc + 2 icrnr,
   * the corner index being max(0, min(icrnr - 1, 3)).
   */
  method CornerWrites(ptsA: array<real>, offA: array<MS.Sample>, p: Pt, zoom: real, ang: MS.Sample, cp: nat, ct: nat)
    modifies ptsA, offA
    ensures WroteFrom(ptsA[..], cp + 18, old(ptsA[..]), cp, CornerPts(p, zoom, 6))
    ensures WroteFrom(offA[..], ct + 12, old(offA[..]), ct, CornerOffsets(ang, 6))
  {
    WroteNothing(ptsA[..], cp);
    WroteNothing(offA[..], ct);
    var icrnr: nat := 0;
    while icrnr < 6
      invariant icrnr <= 6
      invariant CornersWritten(old(ptsA[..]), old(offA[..]), cp, ct, p, zoom, ang, icrnr, ptsA[..], offA[..])
    {
      var actual := Max(0, Min(icrnr - 1, 3));
      ghost var pa, oa := ptsA[..], offA[..];
      var c1 := Emit(ptsA, cp + icrnr * 3, [p.0, p.1, zoom]);
      var c2 := Emit(offA, ct + icrnr * 2, [MS.Num(actual as real), ang]);
      CornerStep(old(ptsA[..]), old(offA[..]), cp, ct, p, zoom, ang, icrnr, actual, pa, oa, ptsA[..], offA[..]);
      icrnr := icrnr + 1;
    }
  }

  /** The position and offset buffers after the first i corners of a barb. */
  ghost predicate CornersWritten(p0: seq<real>, o0: seq<MS.Sample>, cp: nat, ct: nat, p: Pt, zoom: real, ang: MS.Sample, i: nat,
                                 pa: seq<real>, oa: seq<MS.Sample>)
    requires i <= 6
  {
    WroteFrom(pa, cp + 3 * i, p0, cp, CornerPts(p, zoom, i)) && WroteFrom(oa, ct + 2 * i, o0, ct, CornerOffsets(ang, i))
  }

  /** Corner i writes its three position and two offset floats; max(0, min(i - 1, 3)) is its entry of CORNERS. */
  lemma CornerStep(p0: seq<real>, o0: seq<MS.Sample>, cp: nat, ct: nat, p: Pt, zoom: real, ang: MS.Sample, i: nat, actual: int,
                   pa: seq<real>, oa: seq<MS.Sample>, pb: seq<real>, ob: seq<MS.Sample>)
    requires i < 6 && actual == Max(0, Min(i - 1, 3))
    requires CornersWritten(p0, o0, cp, ct, p, zoom, ang, i, pa, oa)
    requires pb == Written(pa, cp + i * 3, [p.0, p.1, zoom])
    requires ob == Written(oa, ct + i * 2, [MS.Num(actual as real), ang])
    ensures CornersWritten(p0, o0, cp, ct, p, zoom, ang, i + 1, pb, ob)
  {
    assert actual == CORNERS[i];
    WroteChain(p0, cp, pa, cp + 3 * i, pb, cp + 3 * (i + 1), CornerPts(p, zoom, i), [p.0, p.1, zoom]);
    WroteChain(o0, ct, oa, ct + 2 * i, ob, ct + 2 * (i + 1), CornerOffsets(ang, i), [MS.Num(actual as real), ang]);
  }

  // ----- makeDomainVerticesAndTexCoords -----

  /** The Mercator corners of latitudes 0 .. k - 1: the first and the last longitude of each. */
  function DomainCorners(lats: seq<real>, lons: seq<real>, merc: PLW.Mercator, k: nat): (r: seq<real>)
    requires |lons| > 0 && k <= |lats|
    ensures |r| == 4 * k
  {
    if k == 0 then []
    else DomainCorners(lats, lons, merc, k - 1) + PLW.Floats(merc(lons[0], lats[k - 1])) + PLW.Floats(merc(lons[|lons| - 1], lats[k - 1]))
  }

  /** The texture coordinates of latitude ilat: (0, s) and (ni / (texWidth + 1), s) with s = ilat / texHeight. */
  function DomainTexRow(ni: nat, texWidth: real, texHeight: real, ilat: nat): (r: seq<real>)
    requires texHeight != 0.0 && texWidth + 1.0 != 0.0
    ensures |r| == 4
  {
    [0.0, ilat as real / texHeight, ni as real / (texWidth + 1.0), ilat as real / texHeight]
  }

  function DomainTexRows(ni: nat, texWidth: real, texHeight: real, k: nat): (r: seq<real>)
    requires texHeight != 0.0 && texWidth + 1.0 != 0.0
    ensures |r| == 4 * k
  {
    if k == 0 then [] else DomainTexRows(ni, texWidth, texHeight, k - 1) + DomainTexRow(ni, texWidth, texHeight, k - 1)
  }

  datatype DomainBuffers = DomainBuffers(vertices: seq<real>, texCoords: seq<real>)

  /**
   * makeDomainVerticesAndTexCoords: two Mercator points and two texture
   * coordinates per latitude. With latitudes but no longitudes
   * `new LngLat(undefined, lat)` throws.
   */
  function MakeDomainVerticesAndTexCoords(lats: seq<real>, lons: seq<real>, texWidth: real, texHeight: real, merc: PLW.Mercator)
    : (r: Result<DomainBuffers>)
    requires texHeight != 0.0 && texWidth + 1.0 != 0.0
    ensures r.Err? <==> |lats| > 0 && |lons| == 0
    ensures r.Ok? ==> |r.value.vertices| == |r.value.texCoords| == 4 * |lats|
  {
    if |lats| == 0 then Ok(DomainBuffers([], []))
    else if |lons| == 0 then Err("TypeError")
    else Ok(DomainBuffers(DomainCorners(lats, lons, merc, |lats|), DomainTexRows(|lons|, texWidth, texHeight, |lats|)))
  }

  /** Latitude k owns floats 4 k .. 4 k + 3 of both buffers: its western and eastern corner, and its texture row. */
  lemma DomainLatitude(lats: seq<real>, lons: seq<real>, texWidth: real, texHeight: real, merc: PLW.Mercator, k: nat)
    requires texHeight != 0.0 && texWidth + 1.0 != 0.0
    requires k < |lats| && |lons| > 0
    ensures var r := MakeDomainVerticesAndTexCoords(lats, lons, texWidth, texHeight, merc).value;
      && r.vertices[4 * k..4 * k + 4] == PLW.Floats(merc(lons[0], lats[k])) + PLW.Floats(merc(lons[|lons| - 1], lats[k]))
      && r.texCoords[4 * k..4 * k + 4] == DomainTexRow(|lons|, texWidth, texHeight, k)
  {
    DomainCornersAt(lats, lons, merc, |lats|, k);
    DomainTexRowsAt(|lons|, texWidth, texHeight, |lats|, k);
  }

  lemma {:induction false} DomainCornersAt(lats: seq<real>, lons: seq<real>, merc: PLW.Mercator, m: nat, k: nat)
    requires |lons| > 0 && k < m <= |lats|
    ensures DomainCorners(lats, lons, merc, m)[4 * k..4 * k + 4]
         == PLW.Floats(merc(lons[0], lats[k])) + PLW.Floats(merc(lons[|lons| - 1], lats[k]))
  {
    var prev := DomainCorners(lats, lons, merc, m - 1);
    assert DomainCorners(lats, lons, merc, m)[..4 * (m - 1)] == prev;
    if k < m - 1 {
      DomainCornersAt(lats, lons, merc, m - 1, k);
      assert DomainCorners(lats, lons, merc, m)[4 * k..4 * k + 4] == prev[4 * k..4 * k + 4];
    }
  }

  lemma {:induction false} DomainTexRowsAt(ni: nat, texWidth: real, texHeight: real, m: nat, k: nat)
    requires texHeight != 0.0 && texWidth + 1.0 != 0.0 && k < m
    ensures DomainTexRows(ni, texWidth, texHeight, m)[4 * k..4 * k + 4] == DomainTexRow(ni, texWidth, texHeight, k)
  {
    var prev := DomainTexRows(ni, texWidth, texHeight, m - 1);
    assert DomainTexRows(ni, texWidth, texHeight, m)[..4 * (m - 1)] == prev;
    if k < m - 1 {
      DomainTexRowsAt(ni, texWidth, texHeight, m - 1, k);
      assert DomainTexRows(ni, texWidth, texHeight, m)[4 * k..4 * k + 4] == prev[4 * k..4 * k + 4];
    }
  }

  // ----- makePolylines -----

  /** One line of makePolylines: vertices, an origin shared by all of them, a zoom, and a texture coordinate per vertex. */
  datatype LineSpec = LineSpec(verts: seq<Pt>, origin: Pt, zoom: real, texcoords: seq<Pt>)

  datatype PolylineBuffers = PolylineBuffers(verts: seq<real>, origin: seq<real>, extrusion: seq<real>, zoom: seq<real>, texcoords: seq<real>)

  /** The three two-float-per-vertex buffers written at the verts cursor. */
  datatype Channel = Verts | Texcoords | Extrusion

  /** The per-line pass throws on a line with fewer than two vertices (verts[1] is undefined) or fewer texture coordinates than vertices. */
  predicate LineThrows(line: LineSpec)
  {
    |line.verts| < 2 || |line.texcoords| < |line.verts|
  }

  /** None of lines 0 .. k - 1 makes the per-line pass throw. */
  predicate LinesOk(lines: seq<LineSpec>, k: nat)
    requires k <= |lines|
  {
    k == 0 || (LinesOk(lines, k - 1) && !LineThrows(lines[k - 1]))
  }

  lemma LinesOkStep(lines: seq<LineSpec>, i: nat)
    requires i < |lines| && LinesOk(lines, i) && !LineThrows(lines[i])
    ensures LinesOk(lines, i + 1)
  {
  }

  /** LinesOk is exactly "no line before k throws". */
  lemma {:induction false} LinesOkEvery(lines: seq<LineSpec>, k: nat)
    requires k <= |lines|
    ensures LinesOk(lines, k) <==> forall i | 0 <= i < k :: !LineThrows(lines[i])
  {
    if k > 0 {
      LinesOkEvery(lines, k - 1);
    }
  }

  /** The vertex count of lines 0 .. k - 1. */
  function TotalVerts(lines: seq<LineSpec>, k: nat): int
    requires k <= |lines|
  {
    if k == 0 then 0 else TotalVerts(lines, k - 1) + |lines[k - 1].verts|
  }

  /** `n_out_verts`: six output vertices per segment. */
  function NOut(lines: seq<LineSpec>): int
  {
    (TotalVerts(lines, |lines|) - |lines|) * 6
  }

  /**
   * The exception makePolylines throws: reading lines[0] of an empty list
   * or v[0].length of an empty first vertex or texture list is a TypeError,
   * a negative Float32Array length a RangeError, and a line the per-line
   * pass cannot read a TypeError.
   */
  function PolylinesError(lines: seq<LineSpec>): Option<string>
  {
    if |lines| == 0 || |lines[0].verts| == 0 || |lines[0].texcoords| == 0 then Some("TypeError")
    else if NOut(lines) < 0 then Some("RangeError")
    else if !LinesOk(lines, |lines|) then Some("TypeError")
    else None
  }

  function Neg(p: Pt): Pt
  {
    (-p.0, -p.1)
  }

  /** A pair list laid out as the vertices are: p0, then (p_{k-1}, p_{k-1}, p_k, p_k) per segment, then the last. */
  function PairsLayout(os: seq<Pt>, n: nat): (r: seq<real>)
    requires 2 <= n <= |os|
    ensures |r| == 8 * n - 4
  {
    PLW.OffsetsUpTo(os, n) + PLW.Floats(os[n - 1])
  }

  /** The extrusion floats before vertex k: the first segment's normal, then (e, -e, e, -e) per segment. */
  function NormalsUpTo(vs: seq<Pt>, normal: PLW.Normal, k: nat): (r: seq<real>)
    requires 1 <= k <= |vs| && |vs| >= 2
    ensures |r| == 8 * k - 6
  {
    if k == 1 then PLW.Floats(normal(vs[0], vs[1]))
    else
      var e := normal(vs[k - 2], vs[k - 1]);
      NormalsUpTo(vs, normal, k - 1) + PLW.Floats(e) + PLW.Floats(Neg(e)) + PLW.Floats(e) + PLW.Floats(Neg(e))
  }

  /** The extrusion floats of one line; the last vertex takes the last segment's normal negated. */
  function NormalsLayout(vs: seq<Pt>, normal: PLW.Normal): (r: seq<real>)
    requires |vs| >= 2
    ensures |r| == 8 * |vs| - 4
  {
    NormalsUpTo(vs, normal, |vs|) + PLW.Floats(Neg(normal(vs[|vs| - 2], vs[|vs| - 1])))
  }

  /** The 8 n - 4 floats a line writes to one of the buffers at the verts cursor. */
  function LineLayout(line: LineSpec, normal: PLW.Normal, ch: Channel): (r: seq<real>)
    requires !LineThrows(line)
    ensures |r| == 8 * |line.verts| - 4
  {
    match ch
    case Verts => PairsLayout(line.verts, |line.verts|)
    case Texcoords => PairsLayout(line.texcoords, |line.verts|)
    case Extrusion => NormalsLayout(line.verts, normal)
  }

  /**
   * The slots of lines 0 .. k - 1 in one of the buffers at the verts
   * cursor: each line's 12 (n - 1) floats are its layout, then the
   * 4 n - 8 zeros its writes leave untouched.
   */
  function Slots(lines: seq<LineSpec>, normal: PLW.Normal, ch: Channel, k: nat): (r: seq<real>)
    requires k <= |lines| && LinesOk(lines, k)
    ensures |r| == 12 * (TotalVerts(lines, k) - k)
  {
    if k == 0 then []
    else Slots(lines, normal, ch, k - 1) + LineLayout(lines[k - 1], normal, ch) + Fill(4 * |lines[k - 1].verts| - 8, 0.0)
  }

  /** The origin of each line repeated for its 6 (n - 1) output vertices. */
  function Repeat(p: Pt, m: nat): (r: seq<real>)
    ensures |r| == 2 * m
  {
    if m == 0 then [] else Repeat(p, m - 1) + PLW.Floats(p)
  }

  function OriginSlots(lines: seq<LineSpec>, k: nat): (r: seq<real>)
    requires k <= |lines| && LinesOk(lines, k)
    ensures |r| == 12 * (TotalVerts(lines, k) - k)
  {
    if k == 0 then [] else OriginSlots(lines, k - 1) + Repeat(lines[k - 1].origin, 6 * (|lines[k - 1].verts| - 1))
  }

  function ZoomSlots(lines: seq<LineSpec>, k: nat): (r: seq<real>)
    requires k <= |lines| && LinesOk(lines, k)
    ensures |r| == 6 * (TotalVerts(lines, k) - k)
  {
    if k == 0 then [] else ZoomSlots(lines, k - 1) + Fill(6 * (|lines[k - 1].verts| - 1), lines[k - 1].zoom)
  }

  /**
   * makePolylines: throws as PolylinesError says; otherwise every buffer
   * holds n_out_verts vertices of its width, each line's slot beginning
   * where the previous one ends.
   */
  method MakePolylines(lines: seq<LineSpec>, normal: PLW.Normal) returns (r: Result<PolylineBuffers>)
    ensures r.Err? <==> PolylinesError(lines).Some?
    ensures r.Err? ==> r.error == PolylinesError(lines).value
    ensures r.Ok? ==> LinesOk(lines, |lines|) && NOut(lines) >= 0 && PolylineLayout(lines, normal, NOut(lines), r.value)
  {
    if |lines| == 0 || |lines[0].verts| == 0 || |lines[0].texcoords| == 0 {
      return Err("TypeError");
    }
    var nVerts := TotalVerts(lines, |lines|);
    var nOut := (nVerts - |lines|) * 6;
    if nOut < 0 {
      return Err("RangeError");
    }
    var ok, bufs := FillPolylines(lines, normal, nOut);
    if !ok {
      return Err("TypeError");
    }
    return Ok(bufs);
  }

  /** The allocation of the five buffers and lines.forEach; ok is false where a line makes the pass throw. */
  method FillPolylines(lines: seq<LineSpec>, normal: PLW.Normal, nOut: nat) returns (ok: bool, b: PolylineBuffers)
    requires nOut == NOut(lines)
    ensures ok <==> LinesOk(lines, |lines|)
    ensures ok ==> LinesOk(lines, |lines|) && PolylineLayout(lines, normal, nOut, b)
  {
    var vA := NewFill(nOut * 2, 0.0);
    var oA := NewFill(nOut * 2, 0.0);
    var eA := NewFill(nOut * 2, 0.0);
    var zA := NewFill(nOut * 1, 0.0);
    var tA := NewFill(nOut * 2, 0.0);
    var cv: nat, co: nat, cz: nat := 0, 0, 0;
    var i: nat := 0;
    PolylinesStart(lines, normal, nOut, vA[..], tA[..], eA[..], oA[..], zA[..]);
    while i < |lines|
      invariant i <= |lines| && LinesOk(lines, i)
      invariant PolylinesWritten(lines, normal, i, nOut, vA[..], tA[..], eA[..], oA[..], zA[..], cv, co, cz)
    {
      var line := lines[i];
      if |line.verts| < 2 || |line.texcoords| < |line.verts| {
        LinesOkEvery(lines, |lines|);
        return false, PolylineBuffers([], [], [], [], []);
      }
      i, cv, co, cz := LineWrites(vA, tA, eA, oA, zA, lines, normal, i, nOut, cv, co, cz);
    }
    PolylinesComplete(lines, normal, nOut, i, vA[..], tA[..], eA[..], oA[..], zA[..], cv, co, cz);
    return true, PolylineBuffers(vA[..], oA[..], eA[..], zA[..], tA[..]);
  }

  /** The five buffers after lines 0 .. i - 1, written from the start of their zero fills. */
  ghost predicate PolylinesWritten(lines: seq<LineSpec>, normal: PLW.Normal, i: nat, nOut: int,
                                   v: seq<real>, t: seq<real>, e: seq<real>, o: seq<real>, z: seq<real>, cv: nat, co: nat, cz: nat)
    requires i <= |lines| && LinesOk(lines, i) && nOut >= 0
  {
    StripsWritten(lines, normal, i, nOut, v, t, e, cv) && OriginZoomWritten(lines, i, nOut, o, z, co, cz)
  }

  /** The three buffers written at the verts cursor. */
  ghost predicate StripsWritten(lines: seq<LineSpec>, normal: PLW.Normal, i: nat, nOut: int,
                                v: seq<real>, t: seq<real>, e: seq<real>, cv: nat)
    requires i <= |lines| && LinesOk(lines, i) && nOut >= 0
  {
    && WroteFrom(v, cv, Fill(nOut * 2, 0.0), 0, Slots(lines, normal, Verts, i))
    && t == Written(Fill(nOut * 2, 0.0), 0, Slots(lines, normal, Texcoords, i))
    && e == Written(Fill(nOut * 2, 0.0), 0, Slots(lines, normal, Extrusion, i))
  }

  /** The origin and zoom buffers, each at its own cursor. */
  ghost predicate OriginZoomWritten(lines: seq<LineSpec>, i: nat, nOut: int, o: seq<real>, z: seq<real>, co: nat, cz: nat)
    requires i <= |lines| && LinesOk(lines, i) && nOut >= 0
  {
    && WroteFrom(o, co, Fill(nOut * 2, 0.0), 0, OriginSlots(lines, i))
    && WroteFrom(z, cz, Fill(nOut * 1, 0.0), 0, ZoomSlots(lines, i))
  }

  /**
   * The buffers of makePolylines: each holds n_out_verts vertices of its
   * width and is the lines' slots one after another.
   */
  predicate PolylineLayout(lines: seq<LineSpec>, normal: PLW.Normal, nOut: nat, b: PolylineBuffers)
    requires LinesOk(lines, |lines|)
  {
    && |b.verts| == |b.origin| == |b.extrusion| == |b.texcoords| == nOut * 2 && |b.zoom| == nOut
    && b.verts == Slots(lines, normal, Verts, |lines|)
    && b.texcoords == Slots(lines, normal, Texcoords, |lines|)
    && b.extrusion == Slots(lines, normal, Extrusion, |lines|)
    && b.origin == OriginSlots(lines, |lines|)
    && b.zoom == ZoomSlots(lines, |lines|)
  }

  /** Before the first line nothing is written. */
  lemma PolylinesStart(lines: seq<LineSpec>, normal: PLW.Normal, nOut: nat, v: seq<real>, t: seq<real>, e: seq<real>, o: seq<real>, z: seq<real>)
    requires v == t == e == o == Fill(nOut * 2, 0.0) && z == Fill(nOut * 1, 0.0)
    ensures PolylinesWritten(lines, normal, 0, nOut, v, t, e, o, z, 0, 0, 0)
  {
  }

  /** After the last line every slot is in place and the slots fill the buffers exactly. */
  lemma PolylinesComplete(lines: seq<LineSpec>, normal: PLW.Normal, nOut: int, i: nat,
                          v: seq<real>, t: seq<real>, e: seq<real>, o: seq<real>, z: seq<real>, cv: nat, co: nat, cz: nat)
    requires i == |lines| && LinesOk(lines, i) && nOut == NOut(lines) && nOut >= 0
    requires PolylinesWritten(lines, normal, i, nOut, v, t, e, o, z, cv, co, cz)
    ensures LinesOk(lines, |lines|)
    ensures PolylineLayout(lines, normal, nOut, PolylineBuffers(v, o, e, z, t))
  {
    WrittenWhole(Fill(nOut * 2, 0.0), Slots(lines, normal, Verts, |lines|));
    WrittenWhole(Fill(nOut * 2, 0.0), Slots(lines, normal, Texcoords, |lines|));
    WrittenWhole(Fill(nOut * 2, 0.0), Slots(lines, normal, Extrusion, |lines|));
    WrittenWhole(Fill(nOut * 2, 0.0), OriginSlots(lines, |lines|));
    WrittenWhole(Fill(nOut * 1, 0.0), ZoomSlots(lines, |lines|));
  }

  /** One pass of lines.forEach: the strip, origin and zoom writes of line i, and the cursors' advance by (n - 1) * 6 * nppv. */
  method LineWrites(vA: array<real>, tA: array<real>, eA: array<real>, oA: array<real>, zA: array<real>,
                    lines: seq<LineSpec>, normal: PLW.Normal, i: nat, nOut: int, cv0: nat, co0: nat, cz0: nat)
    returns (next: nat, cv: nat, co: nat, cz: nat)
    requires i < |lines| && LinesOk(lines, i) && !LineThrows(lines[i]) && nOut >= 0
    requires vA != tA && vA != eA && tA != eA && oA != vA && oA != tA && oA != eA && zA != vA && zA != tA && zA != eA && zA != oA
    requires PolylinesWritten(lines, normal, i, nOut, vA[..], tA[..], eA[..], oA[..], zA[..], cv0, co0, cz0)
    modifies vA, tA, eA, oA, zA
    ensures next == i + 1 && next <= |lines| && LinesOk(lines, next)
    ensures PolylinesWritten(lines, normal, next, nOut, vA[..], tA[..], eA[..], oA[..], zA[..], cv, co, cz)
  {
    LinesOkStep(lines, i);
    next := i + 1;
    cv := LineStrips(vA, tA, eA, lines, normal, i, nOut, cv0);
    co, cz := LineOriginZoom(oA, zA, lines, i, nOut, co0, cz0);
  }

  /** Line i's vertex, texture and extrusion floats; the verts cursor advances by (n - 1) * 6 * 2. */
  method LineStrips(vA: array<real>, tA: array<real>, eA: array<real>, lines: seq<LineSpec>, normal: PLW.Normal,
                    i: nat, nOut: int, cv0: nat) returns (cv: nat)
    requires i < |lines| && LinesOk(lines, i) && !LineThrows(lines[i]) && nOut >= 0
    requires vA != tA && vA != eA && tA != eA
    requires StripsWritten(lines, normal, i, nOut, vA[..], tA[..], eA[..], cv0)
    modifies vA, tA, eA
    ensures StripsWritten(lines, normal, i + 1, nOut, vA[..], tA[..], eA[..], cv)
  {
    ghost var v1, t1, e1 := vA[..], tA[..], eA[..];
    var n := |lines[i].verts|;
    StripWrites(vA, tA, eA, lines[i], normal, cv0);
    cv := cv0 + (n - 1) * 6 * 2;
    SlotStep(lines, normal, Verts, i, nOut * 2, v1, vA[..]);
    SlotStep(lines, normal, Texcoords, i, nOut * 2, t1, tA[..]);
    SlotStep(lines, normal, Extrusion, i, nOut * 2, e1, eA[..]);
  }

  /** Line i's origin and zoom floats; their cursors advance by (n - 1) * 6 * 2 and (n - 1) * 6. */
  method LineOriginZoom(oA: array<real>, zA: array<real>, lines: seq<LineSpec>, i: nat, nOut: int, co0: nat, cz0: nat)
    returns (co: nat, cz: nat)
    requires i < |lines| && LinesOk(lines, i) && !LineThrows(lines[i]) && nOut >= 0 && oA != zA
    requires OriginZoomWritten(lines, i, nOut, oA[..], zA[..], co0, cz0)
    modifies oA, zA
    ensures OriginZoomWritten(lines, i + 1, nOut, oA[..], zA[..], co, cz)
  {
    ghost var o1, z1 := oA[..], zA[..];
    var line := lines[i];
    var n := |line.verts|;
    OriginWrites(oA, line.origin, n, co0);
    ZoomWrites(zA, line.zoom, n, cz0);
    co, cz := co0 + (n - 1) * 6 * 2, cz0 + (n - 1) * 6 * 1;
    WroteChain(Fill(nOut * 2, 0.0), 0, o1, co0, oA[..], co, OriginSlots(lines, i), Repeat(line.origin, 6 * (n - 1)));
    WroteChain(Fill(nOut * 1, 0.0), 0, z1, cz0, zA[..], cz, ZoomSlots(lines, i), Fill(6 * (n - 1), line.zoom));
  }

  /** A line's writes into a buffer whose later part still holds zeros complete its whole slot. */
  lemma SlotStep(lines: seq<LineSpec>, normal: PLW.Normal, ch: Channel, i: nat, size: nat, a1: seq<real>, a2: seq<real>)
    requires i < |lines| && LinesOk(lines, i) && !LineThrows(lines[i])
    requires a1 == Written(Fill(size, 0.0), 0, Slots(lines, normal, ch, i))
    requires a2 == Written(a1, |Slots(lines, normal, ch, i)|, LineLayout(lines[i], normal, ch))
    ensures a2 == Written(Fill(size, 0.0), 0, Slots(lines, normal, ch, i + 1))
  {
    assert LinesOk(lines, i + 1);
    var prev, lay := Slots(lines, normal, ch, i), LineLayout(lines[i], normal, ch);
    WrittenPadded(size, 0.0, prev, lay, 4 * |lines[i].verts| - 8, a1, a2);
  }

  /**
   * The vertex loop of one line: the first vertex, its texture coordinate
   * and the first normal at the cursor, then eight floats per segment at
   * `ary_ivt = base + (1 + (ivt - 1) * 4) * 2`, then the last vertex.
   */
  method StripWrites(vA: array<real>, tA: array<real>, eA: array<real>, line: LineSpec, normal: PLW.Normal, base: nat)
    requires vA != tA && vA != eA && tA != eA && !LineThrows(line)
    modifies vA, tA, eA
    ensures vA[..] == Written(old(vA[..]), base, LineLayout(line, normal, Verts))
    ensures tA[..] == Written(old(tA[..]), base, LineLayout(line, normal, Texcoords))
    ensures eA[..] == Written(old(eA[..]), base, LineLayout(line, normal, Extrusion))
  {
    var verts, texcoords := line.verts, line.texcoords;
    var ptThis, tcThis := verts[0], texcoords[0];
    var ext := normal(ptThis, verts[1]);
    var aryIvt := base;
    StripHead(vA, tA, eA, line, normal, aryIvt, ptThis, tcThis, ext);
    var ivt := 1;
    while ivt < |verts|
      invariant 1 <= ivt <= |verts|
      invariant StripWritten(line, normal, base, ivt, old(vA[..]), old(tA[..]), old(eA[..]), vA[..], tA[..], eA[..])
      invariant ptThis == verts[ivt - 1] && tcThis == texcoords[ivt - 1]
      invariant ivt >= 2 ==> ext == normal(verts[ivt - 2], verts[ivt - 1]) && aryIvt + 8 == base + 8 * ivt - 6
    {
      var ptPrev, tcPrev := verts[ivt - 1], texcoords[ivt - 1];
      ptThis, tcThis := verts[ivt], texcoords[ivt];
      ext := normal(ptPrev, ptThis);
      aryIvt := base + (1 + (ivt - 1) * 4) * 2;
      SegmentWrites(vA, tA, eA, line, normal, base, ivt, aryIvt, old(vA[..]), old(tA[..]), old(eA[..]));
      ivt := ivt + 1;
    }
    StripTail(vA, tA, eA, line, normal, base, aryIvt + 8, ptThis, tcThis, ext, old(vA[..]), old(tA[..]), old(eA[..]));
  }

  /** The first vertex, its texture coordinate and the first segment's normal at the cursor. */
  method StripHead(vA: array<real>, tA: array<real>, eA: array<real>, line: LineSpec, normal: PLW.Normal, base: nat,
                   ptThis: Pt, tcThis: Pt, ext: Pt)
    requires vA != tA && vA != eA && tA != eA && !LineThrows(line)
    requires ptThis == line.verts[0] && tcThis == line.texcoords[0] && ext == normal(line.verts[0], line.verts[1])
    modifies vA, tA, eA
    ensures StripWritten(line, normal, base, 1, old(vA[..]), old(tA[..]), old(eA[..]), vA[..], tA[..], eA[..])
  {
    var c1 := Emit(vA, base + 0, [ptThis.0, ptThis.1]);
    var c2 := Emit(tA, base + 0, [tcThis.0, tcThis.1]);
    var c3 := Emit(eA, base + 0, [ext.0, ext.1]);
  }

  /** The writes at ary_ivt + 8 after the loop: the last vertex, its texture coordinate and the last normal negated. */
  method StripTail(vA: array<real>, tA: array<real>, eA: array<real>, line: LineSpec, normal: PLW.Normal, base: nat,
                   at: nat, ptThis: Pt, tcThis: Pt, ext: Pt, ghost v0: seq<real>, ghost t0: seq<real>, ghost e0: seq<real>)
    requires vA != tA && vA != eA && tA != eA && !LineThrows(line)
    requires StripWritten(line, normal, base, |line.verts|, v0, t0, e0, vA[..], tA[..], eA[..])
    requires var n := |line.verts|;
      && ptThis == line.verts[n - 1] && tcThis == line.texcoords[n - 1] && ext == normal(line.verts[n - 2], line.verts[n - 1])
      && at == base + 8 * n - 6
    modifies vA, tA, eA
    ensures vA[..] == Written(v0, base, LineLayout(line, normal, Verts))
    ensures tA[..] == Written(t0, base, LineLayout(line, normal, Texcoords))
    ensures eA[..] == Written(e0, base, LineLayout(line, normal, Extrusion))
  {
    ghost var v1, t1, e1 := vA[..], tA[..], eA[..];
    var c1 := Emit(vA, at, [ptThis.0, ptThis.1]);
    var c2 := Emit(tA, at, [tcThis.0, tcThis.1]);
    var c3 := Emit(eA, at, [-ext.0, -ext.1]);
    StripLast(line, normal, base, v0, t0, e0, v1, t1, e1, vA[..], tA[..], eA[..]);
  }

  /** The three buffers of one line before vertex k. */
  ghost predicate StripWritten(line: LineSpec, normal: PLW.Normal, base: nat, k: nat,
                               v0: seq<real>, t0: seq<real>, e0: seq<real>, v: seq<real>, t: seq<real>, e: seq<real>)
    requires !LineThrows(line) && 1 <= k <= |line.verts|
  {
    && v == Written(v0, base, PLW.OffsetsUpTo(line.verts, k))
    && t == Written(t0, base, PLW.OffsetsUpTo(line.texcoords, k))
    && e == Written(e0, base, NormalsUpTo(line.verts, normal, k))
  }

  /** The body of the vertex loop: segment ivt's eight floats in each buffer. */
  method SegmentWrites(vA: array<real>, tA: array<real>, eA: array<real>, line: LineSpec, normal: PLW.Normal, base: nat,
                       ivt: nat, aryIvt: nat, ghost v0: seq<real>, ghost t0: seq<real>, ghost e0: seq<real>)
    requires vA != tA && vA != eA && tA != eA && !LineThrows(line) && 1 <= ivt < |line.verts|
    requires aryIvt == base + (1 + (ivt - 1) * 4) * 2
    requires StripWritten(line, normal, base, ivt, v0, t0, e0, vA[..], tA[..], eA[..])
    modifies vA, tA, eA
    ensures StripWritten(line, normal, base, ivt + 1, v0, t0, e0, vA[..], tA[..], eA[..])
  {
    ghost var v1, t1, e1 := vA[..], tA[..], eA[..];
    var p, q := line.verts[ivt - 1], line.verts[ivt];
    var tp, tq := line.texcoords[ivt - 1], line.texcoords[ivt];
    var ext := normal(p, q);
    var c1 := Emit(vA, aryIvt, [p.0, p.1] + [p.0, p.1] + [q.0, q.1] + [q.0, q.1]);
    var c2 := Emit(tA, aryIvt, [tp.0, tp.1] + [tp.0, tp.1] + [tq.0, tq.1] + [tq.0, tq.1]);
    var c3 := Emit(eA, aryIvt, [ext.0, ext.1] + [-ext.0, -ext.1] + [ext.0, ext.1] + [-ext.0, -ext.1]);
    SegmentStep(line, normal, base, ivt, v0, t0, e0, v1, t1, e1, vA[..], tA[..], eA[..]);
  }

  lemma SegmentStep(line: LineSpec, normal: PLW.Normal, base: nat, ivt: nat,
                    v0: seq<real>, t0: seq<real>, e0: seq<real>, v1: seq<real>, t1: seq<real>, e1: seq<real>,
                    v2: seq<real>, t2: seq<real>, e2: seq<real>)
    requires !LineThrows(line) && 1 <= ivt < |line.verts|
    requires StripWritten(line, normal, base, ivt, v0, t0, e0, v1, t1, e1)
    requires var p, q := line.verts[ivt - 1], line.verts[ivt];
      v2 == Written(v1, base + (1 + (ivt - 1) * 4) * 2, [p.0, p.1] + [p.0, p.1] + [q.0, q.1] + [q.0, q.1])
    requires var p, q := line.texcoords[ivt - 1], line.texcoords[ivt];
      t2 == Written(t1, base + (1 + (ivt - 1) * 4) * 2, [p.0, p.1] + [p.0, p.1] + [q.0, q.1] + [q.0, q.1])
    requires var e := normal(line.verts[ivt - 1], line.verts[ivt]);
      e2 == Written(e1, base + (1 + (ivt - 1) * 4) * 2, [e.0, e.1] + [-e.0, -e.1] + [e.0, e.1] + [-e.0, -e.1])
    ensures StripWritten(line, normal, base, ivt + 1, v0, t0, e0, v2, t2, e2)
  {
    var m := base + (1 + (ivt - 1) * 4) * 2;
    PairsStep(line.verts, ivt, base, m, v0, v1, v2);
    PairsStep(line.texcoords, ivt, base, m, t0, t1, t2);
    var e := normal(line.verts[ivt - 1], line.verts[ivt]);
    WrittenAppend4(e0, base, NormalsUpTo(line.verts, normal, ivt), PLW.Floats(e), PLW.Floats(Neg(e)), PLW.Floats(e), PLW.Floats(Neg(e)), m, e1, e2);
  }

  /** One segment's (p, p, q, q) at ary_ivt extends the pair layout by one vertex. */
  lemma PairsStep(os: seq<Pt>, ivt: nat, base: nat, m: nat, a0: seq<real>, a1: seq<real>, a2: seq<real>)
    requires 1 <= ivt < |os| && m == base + (1 + (ivt - 1) * 4) * 2
    requires a1 == Written(a0, base, PLW.OffsetsUpTo(os, ivt))
    requires var p, q := os[ivt - 1], os[ivt];
      a2 == Written(a1, m, [p.0, p.1] + [p.0, p.1] + [q.0, q.1] + [q.0, q.1])
    ensures a2 == Written(a0, base, PLW.OffsetsUpTo(os, ivt + 1))
  {
    var p, q := os[ivt - 1], os[ivt];
    WrittenAppend4(a0, base, PLW.OffsetsUpTo(os, ivt), PLW.Floats(p), PLW.Floats(p), PLW.Floats(q), PLW.Floats(q), m, a1, a2);
  }

  /** The final writes at ary_ivt + 8 complete the line's layout. */
  lemma StripLast(line: LineSpec, normal: PLW.Normal, base: nat,
                  v0: seq<real>, t0: seq<real>, e0: seq<real>, v1: seq<real>, t1: seq<real>, e1: seq<real>,
                  v2: seq<real>, t2: seq<real>, e2: seq<real>)
    requires !LineThrows(line)
    requires StripWritten(line, normal, base, |line.verts|, v0, t0, e0, v1, t1, e1)
    requires var n := |line.verts|; var p, q := line.verts[n - 1], line.texcoords[n - 1];
      var ext := normal(line.verts[n - 2], line.verts[n - 1]);
      && v2 == Written(v1, base + 8 * n - 6, [p.0, p.1])
      && t2 == Written(t1, base + 8 * n - 6, [q.0, q.1])
      && e2 == Written(e1, base + 8 * n - 6, [-ext.0, -ext.1])
    ensures v2 == Written(v0, base, LineLayout(line, normal, Verts))
    ensures t2 == Written(t0, base, LineLayout(line, normal, Texcoords))
    ensures e2 == Written(e0, base, LineLayout(line, normal, Extrusion))
  {
    var n := |line.verts|;
    var m := base + 8 * n - 6;
    WrittenAppend(v0, base, PLW.OffsetsUpTo(line.verts, n), PLW.Floats(line.verts[n - 1]), m, v1, v2);
    WrittenAppend(t0, base, PLW.OffsetsUpTo(line.texcoords, n), PLW.Floats(line.texcoords[n - 1]), m, t1, t2);
    WrittenAppend(e0, base, NormalsUpTo(line.verts, normal, n), PLW.Floats(Neg(normal(line.verts[n - 2], line.verts[n - 1]))), m, e1, e2);
  }

  /** The origin loop: the origin pair at every second float of the line's 12 (n - 1) float slot. */
  method OriginWrites(oA: array<real>, origin: Pt, n: nat, c: nat)
    requires n >= 1
    modifies oA
    ensures oA[..] == Written(old(oA[..]), c, Repeat(origin, 6 * (n - 1)))
  {
    var ivt: nat := 0;
    ghost var m: nat := 0;
    while ivt < (n - 1) * 6 * 2
      invariant ivt == 2 * m && m <= 6 * (n - 1)
      invariant oA[..] == Written(old(oA[..]), c, Repeat(origin, m))
      decreases 6 * (n - 1) - m
    {
      var next := Emit(oA, c + ivt, [origin.0, origin.1]);
      WrittenConcat(old(oA[..]), c, Repeat(origin, m), [origin.0, origin.1]);
      ivt, m := ivt + 2, m + 1;
    }
  }

  /** The zoom loop: the line's zoom in every float of its 6 (n - 1) float slot. */
  method ZoomWrites(zA: array<real>, zoom: real, n: nat, c: nat)
    requires n >= 1
    modifies zA
    ensures zA[..] == Written(old(zA[..]), c, Fill(6 * (n - 1), zoom))
  {
    var ivt: nat := 0;
    while ivt < (n - 1) * 6 * 1
      invariant ivt <= 6 * (n - 1)
      invariant zA[..] == Written(old(zA[..]), c, Fill(ivt, zoom))
    {
      var next := Emit(zA, c + ivt, [zoom]);
      WrittenConcat(old(zA[..]), c, Fill(ivt, zoom), [zoom]);
      ivt := ivt + 1;
    }
  }

  function Max(a: int, b: int): int
  {
    if a >= b then a else b
  }

  function Min(a: int, b: int): int
  {
    if a <= b then a else b
  }
}
