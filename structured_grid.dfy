/**
 * The index arithmetic of a structured (i, j) grid: the thinning factors
 * for a map's maximum zoom, the per-point minimum visible zoom, thinning a
 * data array onto a coarser grid, the simplified domain-buffer size and
 * the nearest-grid-point lookup.
 *
 * Every thinning factor the library creates is a power of two (the
 * default 1, and products of the factors computed here), so a grid holds
 * the exponents of its thinning factors.
 */
module StructuredGrids {
  import opened Wrappers
  import opened Utils

  /** A structured grid of ni x nj points, thinned by 2^thinXExp x 2^thinYExp. */
  datatype StructuredGrid = StructuredGrid(ni: nat, nj: nat, thinXExp: nat, thinYExp: nat)
  {
    function ThinX(): (t: nat)
      ensures t >= 1
    {
      Pow2(thinXExp)
    }

    function ThinY(): (t: nat)
      ensures t >= 1
    {
      Pow2(thinYExp)
    }
  }

  /** The constructor: a thinning factor that is not given is 1. */
  function NewStructuredGrid(ni: nat, nj: nat, thinXExp: Option<nat>, thinYExp: Option<nat>): (g: StructuredGrid)
    ensures g.ni == ni && g.nj == nj
    ensures thinXExp.None? ==> g.ThinX() == 1
    ensures thinYExp.None? ==> g.ThinY() == 1
    ensures thinXExp.Some? ==> g.ThinX() == Pow2(thinXExp.value)
    ensures thinYExp.Some? ==> g.ThinY() == Pow2(thinYExp.value)
  {
    StructuredGrid(ni, nj,
      if thinXExp.None? then 0 else thinXExp.value,
      if thinYExp.None? then 0 else thinYExp.value)
  }

  /** Row-major position of point (i, j) in an array with rows of ni points. */
  function Cell(ni: nat, j: nat, i: nat): nat
  {
    j * ni + i
  }

  lemma CellInRange(ni: nat, nj: nat, j: nat, i: nat)
    requires j < nj && i < ni
    ensures Cell(ni, j, i) < ni * nj
  {
    MulMono(j + 1, nj, ni);
  }

  lemma MulMono(a: nat, b: nat, c: nat)
    requires a <= b
    ensures a * c <= b * c
  {
  }

  /** Points of earlier rows lie before every point of a later row. */
  lemma CellBefore(ni: nat, j: nat, i: nat, j2: nat, i2: nat)
    requires i < ni && j < j2
    ensures Cell(ni, j, i) < Cell(ni, j2, i2)
  {
    MulMono(j + 1, j2, ni);
  }

  lemma CellInjective(ni: nat, j: nat, i: nat, j2: nat, i2: nat)
    requires i < ni && i2 < ni && (j != j2 || i != i2)
    ensures Cell(ni, j, i) != Cell(ni, j2, i2)
  {
    if j < j2 {
      CellBefore(ni, j, i, j2, i2);
    } else if j2 < j {
      CellBefore(ni, j2, i2, j, i);
    }
  }

  // ----- xyThinFromMaxZoom -----

  /** The number of density tiers a map with this maximum zoom cannot reach. */
  function InaccessibleTiers(thinExp: nat, mapMaxZoom: int): nat
  {
    if thinExp + 1 - mapMaxZoom > 0 then thinExp + 1 - mapMaxZoom else 0
  }

  /**
   * The (x, y) thinning for a thinning factor of 2^thinExp. Both factors
   * are equal and at least 1; a map that zooms far enough needs no
   * thinning, and otherwise the thinning times the zoom levels the map
   * can still descend makes up the whole thinning factor.
   */
  function XyThinFromMaxZoom(thinExp: nat, mapMaxZoom: int): (r: (nat, nat))
    ensures r.0 == r.1 >= 1
    ensures mapMaxZoom > thinExp ==> r.0 == 1
  {
    var n := InaccessibleTiers(thinExp, mapMaxZoom);
    (Pow2(n), Pow2(n))
  }

  /**
   * When the map cannot reach the full density, the thinning times the
   * 2^(max zoom - 1) the map can still resolve is the whole thinning factor.
   */
  lemma XyThinCoversFactor(thinExp: nat, mapMaxZoom: int)
    requires 1 <= mapMaxZoom <= thinExp + 1
    ensures XyThinFromMaxZoom(thinExp, mapMaxZoom).0 * Pow2(mapMaxZoom - 1) == Pow2(thinExp)
  {
    Pow2Add(InaccessibleTiers(thinExp, mapMaxZoom), mapMaxZoom - 1);
  }

  // ----- getMinVisibleZoom -----

  /**
   * The exponent of thin_fac / max(thin_x, thin_y). A quotient below 1
   * divides every index, which getMinZoom treats like a factor of 1.
   */
  function ZoomExp(g: StructuredGrid, thinExp: nat): nat
  {
    var m := if g.thinXExp >= g.thinYExp then g.thinXExp else g.thinYExp;
    if thinExp >= m then thinExp - m else 0
  }

  /** Storing an integer into a Uint8Array keeps it modulo 256. */
  function Uint8(z: int): (b: int)
    ensures 0 <= b < 256
    ensures 0 <= z < 256 ==> b == z
  {
    z % 256
  }

  /** The minimum visible zoom the array holds for point (ilon, ilat). */
  function PointZoom(g: StructuredGrid, thinExp: nat, ilat: nat, ilon: nat): int
  {
    Uint8(1 + Halvings(ilat, ilon, ZoomExp(g, thinExp)))
  }

  /**
   * Fills a Uint8Array of ni * nj entries. The loops run over nj * thin_y
   * rows of ni * thin_x columns, so the longer rows spill into the next
   * rows and past the end (writes there are dropped); the row of a point
   * is written after every spill into it, so each point ends with its own
   * zoom.
   */
  method GetMinVisibleZoom(g: StructuredGrid, thinExp: nat) returns (minZoom: array<int>)
    ensures fresh(minZoom) && minZoom.Length == g.ni * g.nj
    ensures forall ilat, ilon | 0 <= ilat < g.nj && 0 <= ilon < g.ni ::
      Cell(g.ni, ilat, ilon) < minZoom.Length &&
      minZoom[Cell(g.ni, ilat, ilon)] == PointZoom(g, thinExp, ilat, ilon)
  {
    minZoom := new int[g.ni * g.nj](_ => 0);
    var ilat := 0;
    while ilat < g.nj * g.ThinY()
      invariant 0 <= ilat
      invariant forall a, b | 0 <= a < ilat && a < g.nj && 0 <= b < g.ni ::
        Cell(g.ni, a, b) < minZoom.Length && minZoom[Cell(g.ni, a, b)] == PointZoom(g, thinExp, a, b)
    {
      ZoomRow(minZoom, g, thinExp, ilat);
      forall a, b | 0 <= a < ilat && a < g.nj && 0 <= b < g.ni
        ensures Cell(g.ni, a, b) < Cell(g.ni, ilat, 0)
      {
        CellBefore(g.ni, a, b, ilat, 0);
      }
      ilat := ilat + 1;
    }
    MulMono(1, g.ThinY(), g.nj);
  }

  /** One pass of the outer loop: row ilat, up to ni * thin_x columns. */
  method ZoomRow(minZoom: array<int>, g: StructuredGrid, thinExp: nat, ilat: nat)
    requires minZoom.Length == g.ni * g.nj
    modifies minZoom
    ensures forall k | 0 <= k < minZoom.Length && k < Cell(g.ni, ilat, 0) :: minZoom[k] == old(minZoom[k])
    ensures ilat < g.nj ==> forall b | 0 <= b < g.ni ::
      Cell(g.ni, ilat, b) < minZoom.Length && minZoom[Cell(g.ni, ilat, b)] == PointZoom(g, thinExp, ilat, b)
  {
    var ilon := 0;
    while ilon < g.ni * g.ThinX()
      invariant 0 <= ilon
      invariant forall k | 0 <= k < minZoom.Length && k < Cell(g.ni, ilat, 0) :: minZoom[k] == old(minZoom[k])
      invariant ilat < g.nj ==> forall b | 0 <= b < ilon && b < g.ni ::
        Cell(g.ni, ilat, b) < minZoom.Length && minZoom[Cell(g.ni, ilat, b)] == PointZoom(g, thinExp, ilat, b)
    {
      var idx := ilat * g.ni + ilon;
      assert idx == Cell(g.ni, ilat, ilon);
      var z := GetMinZoom(ilat, ilon, ZoomExp(g, thinExp));
      if ilat < g.nj && ilon < g.ni {
        CellInRange(g.ni, g.nj, ilat, ilon);
      }
      if idx < minZoom.Length {
        minZoom[idx] := Uint8(z);
      }
      ilon := ilon + 1;
    }
    if ilat < g.nj {
      MulMono(1, g.ThinX(), g.ni);
    }
  }

  /** Each stored zoom lies between 1 and one more than the zoom exponent. */
  lemma PointZoomBounds(g: StructuredGrid, thinExp: nat, ilat: nat, ilon: nat)
    requires ZoomExp(g, thinExp) < 255
    ensures 1 <= PointZoom(g, thinExp, ilat, ilon) <= ZoomExp(g, thinExp) + 1
    ensures PointZoom(g, thinExp, ilat, ilon) == 1 <==> DividesBoth(Pow2(ZoomExp(g, thinExp)), ilat, ilon)
  {
    MinZoomBounds(ilat, ilon, ZoomExp(g, thinExp));
  }

  // ----- thinDataArray -----

  /** Where thinned point (i, j) is read from in the original grid's array. */
  function OldIndex(g: StructuredGrid, original: StructuredGrid, i: nat, j: nat): nat
  {
    i * g.ThinX() + original.ni * j * g.ThinY()
  }

  /** Reading a typed array past its end yields undefined, stored as `missing`. */
  function ReadOr<T>(ary: seq<T>, k: nat, missing: T): T
  {
    if k < |ary| then ary[k] else missing
  }

  /** Columns 0 .. i - 1 of the thinned grid hold their points of the original grid. */
  ghost predicate ThinnedUpTo<T>(d: seq<T>, g: StructuredGrid, original: StructuredGrid, ary: seq<T>, missing: T, i: nat)
  {
    forall i2, j2 | 0 <= i2 < i && 0 <= j2 < g.nj ::
      Cell(g.ni, j2, i2) < |d| && d[Cell(g.ni, j2, i2)] == ReadOr(ary, OldIndex(g, original, i2, j2), missing)
  }

  /**
   * Partway through column i: rows 0 .. j - 1 of column i hold their
   * points of the original grid, and every other column is as in d0.
   */
  ghost predicate ColumnThinned<T>(d: seq<T>, d0: seq<T>, g: StructuredGrid, original: StructuredGrid, ary: seq<T>, missing: T, i: nat, j: nat)
  {
    |d| == |d0| == g.ni * g.nj &&
    (forall i2, j2 | 0 <= i2 < g.ni && i2 != i && 0 <= j2 < g.nj ::
      Cell(g.ni, j2, i2) < |d| && d[Cell(g.ni, j2, i2)] == d0[Cell(g.ni, j2, i2)]) &&
    (forall j2 | 0 <= j2 < j ::
      Cell(g.ni, j2, i) < |d| && d[Cell(g.ni, j2, i)] == ReadOr(ary, OldIndex(g, original, i, j2), missing))
  }

  /** new_data[i + ni * j] = ary[i * thin_x + original.ni * j * thin_y]. */
  method ThinDataArray<T>(g: StructuredGrid, original: StructuredGrid, ary: seq<T>, missing: T) returns (newData: array<T>)
    ensures fresh(newData) && newData.Length == g.ni * g.nj
    ensures forall i, j | 0 <= i < g.ni && 0 <= j < g.nj ::
      Cell(g.ni, j, i) < newData.Length &&
      newData[Cell(g.ni, j, i)] == ReadOr(ary, OldIndex(g, original, i, j), missing)
  {
    newData := new T[g.ni * g.nj](_ => missing);
    var i := 0;
    while i < g.ni
      invariant 0 <= i <= g.ni
      invariant newData.Length == g.ni * g.nj
      invariant ThinnedUpTo(newData[..], g, original, ary, missing, i)
    {
      ghost var before := newData[..];
      ThinColumn(newData, g, original, ary, missing, i);
      ThinnedStep(before, newData[..], g, original, ary, missing, i);
      i := i + 1;
    }
    assert ThinnedUpTo(newData[..], g, original, ary, missing, g.ni);
  }

  /** A finished column extends the thinned columns by one. */
  lemma ThinnedStep<T>(d0: seq<T>, d: seq<T>, g: StructuredGrid, original: StructuredGrid, ary: seq<T>, missing: T, i: nat)
    requires i < g.ni
    requires ThinnedUpTo(d0, g, original, ary, missing, i)
    requires ColumnThinned(d, d0, g, original, ary, missing, i, g.nj)
    ensures ThinnedUpTo(d, g, original, ary, missing, i + 1)
  {
    forall i2, j2 | 0 <= i2 < i + 1 && 0 <= j2 < g.nj
      ensures Cell(g.ni, j2, i2) < |d| && d[Cell(g.ni, j2, i2)] == ReadOr(ary, OldIndex(g, original, i2, j2), missing)
    {
      if i2 < i {
        assert d0[Cell(g.ni, j2, i2)] == ReadOr(ary, OldIndex(g, original, i2, j2), missing);
      } else {
        assert i2 == i;
      }
    }
  }

  /** One pass of the outer loop: column i of the thinned grid. */
  method ThinColumn<T>(newData: array<T>, g: StructuredGrid, original: StructuredGrid, ary: seq<T>, missing: T, i: nat)
    requires i < g.ni && newData.Length == g.ni * g.nj
    modifies newData
    ensures ColumnThinned(newData[..], old(newData[..]), g, original, ary, missing, i, g.nj)
  {
    ColumnStart(newData[..], g, original, ary, missing, i);
    var j := 0;
    while j < g.nj
      invariant 0 <= j <= g.nj
      invariant ColumnThinned(newData[..], old(newData[..]), g, original, ary, missing, i, j)
    {
      var idxOld := OldIndex(g, original, i, j);
      var idx := Cell(g.ni, j, i);
      CellInRange(g.ni, g.nj, j, i);
      ghost var before := newData[..];
      newData[idx] := ReadOr(ary, idxOld, missing);
      ColumnStep(old(newData[..]), before, newData[..], g, original, ary, missing, i, j);
      j := j + 1;
    }
  }

  /** Before any write of column i. */
  lemma ColumnStart<T>(d: seq<T>, g: StructuredGrid, original: StructuredGrid, ary: seq<T>, missing: T, i: nat)
    requires i < g.ni && |d| == g.ni * g.nj
    ensures ColumnThinned(d, d, g, original, ary, missing, i, 0)
  {
    forall i2, j2 | 0 <= i2 < g.ni && 0 <= j2 < g.nj
      ensures Cell(g.ni, j2, i2) < |d|
    {
      CellInRange(g.ni, g.nj, j2, i2);
    }
  }

  /** Storing row j of column i touches no other point. */
  lemma ColumnStep<T>(d0: seq<T>, d: seq<T>, d2: seq<T>, g: StructuredGrid, original: StructuredGrid, ary: seq<T>, missing: T, i: nat, j: nat)
    requires j < g.nj && i < g.ni
    requires ColumnThinned(d, d0, g, original, ary, missing, i, j)
    requires Cell(g.ni, j, i) < |d|
    requires d2 == d[Cell(g.ni, j, i) := ReadOr(ary, OldIndex(g, original, i, j), missing)]
    ensures ColumnThinned(d2, d0, g, original, ary, missing, i, j + 1)
  {
    forall i2, j2 | 0 <= i2 < g.ni && 0 <= j2 < g.nj && (i2 != i || j2 != j)
      ensures Cell(g.ni, j2, i2) != Cell(g.ni, j, i)
    {
      CellInjective(g.ni, j2, i2, j, i);
    }
  }

  // ----- makeDomainBuffers -----

  /** The simplified domain dimension: a twentieth of n, but never below 20. */
  function SimplifiedDim(n: nat): (s: nat)
    ensures s >= 20
    ensures s * 20 <= n || s == 20
    ensures n < (s + 1) * 20
  {
    if n / 20 > 20 then n / 20 else 20
  }

  // ----- sampleNearestGridPoint -----

  /** The spacing xs[1] - xs[0]; a single coordinate has none (NaN). */
  function Spacing(xs: seq<real>): Option<real>
  {
    if |xs| >= 2 then Some(xs[1] - xs[0]) else None
  }

  /**
   * Whether x lies more than half a spacing beyond the first or the last
   * coordinate. Comparisons with NaN are false, so without a spacing
   * nothing is outside.
   */
  predicate OutsideAxis(x: real, xs: seq<real>)
    requires |xs| > 0
  {
    Spacing(xs).Some? &&
    (x < xs[0] - Spacing(xs).value / 2.0 || x > xs[|xs| - 1] + Spacing(xs).value / 2.0)
  }

  function Abs(x: real): real
  {
    if x < 0.0 then -x else x
  }

  function Distances(xs: seq<real>, x: real): (d: seq<real>)
    ensures |d| == |xs|
    ensures forall k | 0 <= k < |xs| :: d[k] == Abs(xs[k] - x)
  {
    seq(|xs|, k requires 0 <= k < |xs| => Abs(xs[k] - x))
  }

  /** The sampled grid point, or NaN for a point outside the grid's cells. */
  datatype NearestSample =
    | OutsideGrid
    | Sampled(iMin: nat, jMin: nat, idx: nat, sample: Option<real>, sampleLon: real, sampleLat: real)

  /**
   * The forward transform (lon, lat) -> (x, y) and its inverse are the
   * grid's projection, given as functions; an out-of-range read of the
   * data array is None.
   */
  function SampleNearestGridPoint(g: StructuredGrid, lon: real, lat: real, ary: seq<real>,
                                  xs: seq<real>, ys: seq<real>,
                                  fwd: (real, real) -> (real, real),
                                  inv: (real, real) -> (real, real)): (r: NearestSample)
    requires |xs| > 0 && |ys| > 0
    ensures r.OutsideGrid? <==> OutsideAxis(fwd(lon, lat).0, xs) || OutsideAxis(fwd(lon, lat).1, ys)
    ensures r.Sampled? ==> r.iMin < |xs| && r.jMin < |ys| && r.idx == Cell(g.ni, r.jMin, r.iMin)
    ensures r.Sampled? ==> forall k | 0 <= k < |xs| :: Abs(xs[r.iMin] - fwd(lon, lat).0) <= Abs(xs[k] - fwd(lon, lat).0)
    ensures r.Sampled? ==> forall k | 0 <= k < |ys| :: Abs(ys[r.jMin] - fwd(lon, lat).1) <= Abs(ys[k] - fwd(lon, lat).1)
    ensures r.Sampled? ==> (r.sampleLon, r.sampleLat) == inv(xs[r.iMin], ys[r.jMin])
    ensures r.Sampled? ==> (r.idx < |ary| ==> r.sample == Some(ary[r.idx]))
    ensures r.Sampled? ==> (r.idx >= |ary| <==> r.sample.None?)
  {
    var p := fwd(lon, lat);
    if OutsideAxis(p.0, xs) || OutsideAxis(p.1, ys) then OutsideGrid
    else
      var iMin := ArgMin(Distances(xs, p.0));
      var jMin := ArgMin(Distances(ys, p.1));
      var idx := iMin + jMin * g.ni;
      assert idx == Cell(g.ni, jMin, iMin);
      var ll := inv(xs[iMin], ys[jMin]);
      Sampled(iMin, jMin, idx, if idx < |ary| then Some(ary[idx]) else None, ll.0, ll.1)
  }
}
