/**
 * An unstructured grid: a list of lon/lat points laid into ni x nj array
 * dimensions, thinned by a per-point minimum zoom, and a cursor walk that
 * copies the data of the points that survive thinning.
 */
module UnstructuredGrids {
  import opened Wrappers
  import opened Utils
  import opened StructuredGrids

  datatype Coord = Coord(lon: real, lat: real)

  const MAX_DIM: nat := 4096

  /**
   * An unstructured grid; zoomArg is the explicit minimum-zoom array given
   * to the constructor, if any.
   */
  datatype UnstructuredGrid = UnstructuredGrid(coords: seq<Coord>, ni: nat, nj: nat, zoomArg: Option<seq<int>>)

  /** The array dimensions always hold every point. */
  function NewUnstructuredGrid(coords: seq<Coord>, zoom: Option<seq<int>>): (g: UnstructuredGrid)
    ensures g.coords == coords && g.zoomArg == zoom
    ensures g.ni <= MAX_DIM && g.nj >= 1
    ensures g.ni * g.nj >= |coords|
    ensures |coords| < MAX_DIM ==> g.ni * g.nj == |coords|
    ensures |coords| >= MAX_DIM ==> g.ni * g.nj > |coords|
  {
    var ni := if |coords| < MAX_DIM then |coords| else MAX_DIM;
    var nj := |coords| / MAX_DIM + 1;
    UnstructuredGrid(coords, ni, nj, zoom)
  }

  /**
   * The minimum visible zoom of every point: the explicit array when one
   * was given, otherwise what the zoom cache holds for this thinning
   * factor (its kd-tree thinning is passed in as `cached`).
   */
  function GetMinVisibleZoom(g: UnstructuredGrid, cached: seq<int>): (z: seq<int>)
    ensures g.zoomArg.Some? ==> z == g.zoomArg.value
    ensures g.zoomArg.None? ==> z == cached
  {
    if g.zoomArg.Some? then g.zoomArg.value else cached
  }

  // ----- getThinnedGrid -----

  /** Point k survives when its zoom entry exists and is at most the map's maximum zoom. */
  predicate Keep(zooms: seq<int>, k: nat, mapMaxZoom: int)
  {
    k < |zooms| && zooms[k] <= mapMaxZoom
  }

  /** coords.filter((ll, ill) => min_zoom[ill] <= map_max_zoom), from index `from` on. */
  function KeptCoords(coords: seq<Coord>, zooms: seq<int>, mapMaxZoom: int, from: nat): (r: seq<Coord>)
    requires from <= |coords|
    ensures |r| <= |coords| - from
    decreases |coords| - from
  {
    if from == |coords| then []
    else (if Keep(zooms, from, mapMaxZoom) then [coords[from]] else []) + KeptCoords(coords, zooms, mapMaxZoom, from + 1)
  }

  /** min_zoom.filter(z => z <= map_max_zoom), from index `from` on. */
  function KeptZooms(zooms: seq<int>, mapMaxZoom: int, from: nat): (r: seq<int>)
    requires from <= |zooms|
    ensures forall k | 0 <= k < |r| :: r[k] <= mapMaxZoom
    decreases |zooms| - from
  {
    if from == |zooms| then []
    else (if zooms[from] <= mapMaxZoom then [zooms[from]] else []) + KeptZooms(zooms, mapMaxZoom, from + 1)
  }

  function GetThinnedGrid(g: UnstructuredGrid, cached: seq<int>, mapMaxZoom: int): (t: UnstructuredGrid)
    ensures t.zoomArg.Some?
  {
    var zooms := GetMinVisibleZoom(g, cached);
    NewUnstructuredGrid(KeptCoords(g.coords, zooms, mapMaxZoom, 0), Some(KeptZooms(zooms, mapMaxZoom, 0)))
  }

  /** Filtering points and zooms with the same predicate keeps them aligned. */
  lemma {:induction false} KeptAligned(coords: seq<Coord>, zooms: seq<int>, mapMaxZoom: int, from: nat)
    requires |zooms| == |coords| && from <= |coords|
    ensures |KeptCoords(coords, zooms, mapMaxZoom, from)| == |KeptZooms(zooms, mapMaxZoom, from)|
    decreases |coords| - from
  {
    if from < |coords| {
      KeptAligned(coords, zooms, mapMaxZoom, from + 1);
    }
  }

  /** The thinned grid carries one zoom per point, each within the map's maximum zoom. */
  lemma ThinnedGridAligned(g: UnstructuredGrid, cached: seq<int>, mapMaxZoom: int)
    requires |GetMinVisibleZoom(g, cached)| == |g.coords|
    ensures |GetThinnedGrid(g, cached, mapMaxZoom).zoomArg.value| == |GetThinnedGrid(g, cached, mapMaxZoom).coords|
    ensures forall k | 0 <= k < |GetThinnedGrid(g, cached, mapMaxZoom).zoomArg.value| ::
      GetThinnedGrid(g, cached, mapMaxZoom).zoomArg.value[k] <= mapMaxZoom
  {
    KeptAligned(g.coords, GetMinVisibleZoom(g, cached), mapMaxZoom, 0);
  }

  // ----- subsequences -----

  /**
   * a occurs in b in order (greedy leftmost matching, which finds an
   * embedding whenever one exists).
   */
  predicate IsSubseq(a: seq<Coord>, b: seq<Coord>)
    decreases |b|
  {
    |a| == 0 || (|b| > 0 && if a[0] == b[0] then IsSubseq(a[1..], b[1..]) else IsSubseq(a, b[1..]))
  }

  lemma {:induction false} SubseqCons(a: seq<Coord>, b: seq<Coord>, x: Coord)
    requires IsSubseq(a, b)
    ensures IsSubseq(a, [x] + b)
    decreases |b|, 1
  {
    assert ([x] + b)[1..] == b;
    if |a| > 0 && a[0] == x {
      SubseqTail(a, b);
    }
  }

  lemma {:induction false} SubseqTail(a: seq<Coord>, b: seq<Coord>)
    requires |a| > 0 && IsSubseq(a, b)
    ensures IsSubseq(a[1..], b)
    decreases |b|, 0
  {
    if a[0] == b[0] {
      SubseqCons(a[1..], b[1..], b[0]);
      assert [b[0]] + b[1..] == b;
    } else {
      SubseqTail(a, b[1..]);
      SubseqCons(a[1..], b[1..], b[0]);
      assert [b[0]] + b[1..] == b;
    }
  }

  /** The points kept by thinning occur in the original list, in order. */
  lemma {:induction false} KeptIsSubseq(coords: seq<Coord>, zooms: seq<int>, mapMaxZoom: int, from: nat)
    requires from <= |coords|
    ensures IsSubseq(KeptCoords(coords, zooms, mapMaxZoom, from), coords[from..])
    decreases |coords| - from
  {
    if from < |coords| {
      KeptIsSubseq(coords, zooms, mapMaxZoom, from + 1);
      var rest := KeptCoords(coords, zooms, mapMaxZoom, from + 1);
      assert coords[from..] == [coords[from]] + coords[from + 1..];
      if Keep(zooms, from, mapMaxZoom) {
        assert ([coords[from]] + rest)[1..] == rest;
      } else {
        assert KeptCoords(coords, zooms, mapMaxZoom, from) == rest;
        SubseqCons(rest, coords[from + 1..], coords[from]);
      }
    }
  }

  // ----- thinDataArray -----

  /**
   * The loop's state after some iterations: still running with cursor
   * i_new, stopped by the break once i_new reached `cap`, or crashed
   * reading a thinned point past the end (undefined.lat throws).
   */
  datatype WalkState = Running(cursor: nat) | Stopped(cursor: nat) | Crashed

  function Step(st: WalkState, thin: seq<Coord>, o: Coord, cap: nat): (r: WalkState)
  {
    match st
    case Running(c) =>
      if c >= |thin| then Crashed
      else if thin[c] == o then (if c + 1 >= cap then Stopped(c + 1) else Running(c + 1))
      else Running(c)
    case _ => st
  }

  /** The state after the first i original points. */
  function Walk(thin: seq<Coord>, orig: seq<Coord>, cap: nat, i: nat): (r: WalkState)
    requires i <= |orig|
    ensures !r.Crashed? ==> r.cursor <= |thin| && r.cursor <= i
  {
    if i == 0 then Running(0) else Step(Walk(thin, orig, cap, i - 1), thin, orig[i - 1], cap)
  }

  /** Original point i is copied, into slot Walk(..., i).cursor. */
  predicate MatchAt(thin: seq<Coord>, orig: seq<Coord>, cap: nat, i: nat)
    requires i < |orig|
  {
    var st := Walk(thin, orig, cap, i);
    st.Running? && st.cursor < |thin| && thin[st.cursor] == orig[i]
  }

  /** The output array after the first i original points. */
  function Copied<T>(thin: seq<Coord>, orig: seq<Coord>, ary: seq<T>, cap: nat, init: seq<T>, missing: T, i: nat): (r: seq<T>)
    requires i <= |orig|
    ensures |r| == |init|
  {
    if i == 0 then init
    else
      var prev := Copied(thin, orig, ary, cap, init, missing, i - 1);
      if MatchAt(thin, orig, cap, i - 1) && Walk(thin, orig, cap, i - 1).cursor < |prev|
      then prev[Walk(thin, orig, cap, i - 1).cursor := ReadOr(ary, i - 1, missing)]
      else prev
  }

  /** Once stopped or crashed, the walk and the output no longer change. */
  lemma {:induction false} Settled<T>(thin: seq<Coord>, orig: seq<Coord>, ary: seq<T>, cap: nat, init: seq<T>, missing: T, k: nat, n: nat)
    requires k <= n <= |orig| && !Walk(thin, orig, cap, k).Running?
    ensures Walk(thin, orig, cap, n) == Walk(thin, orig, cap, k)
    ensures Copied(thin, orig, ary, cap, init, missing, n) == Copied(thin, orig, ary, cap, init, missing, k)
    decreases n - k
  {
    if k < n {
      Settled(thin, orig, ary, cap, init, missing, k, n - 1);
    }
  }

  /**
   * The walk the source's loop performs: i_new advances on each match and
   * the loop breaks once i_new >= cap; an out-of-range write into the
   * typed array is dropped, and a read of a missing data value stores
   * `missing`.
   */
  method CursorCopy<T>(thin: seq<Coord>, orig: seq<Coord>, ary: seq<T>, cap: nat, len: nat, zero: T, missing: T)
    returns (r: Result<array<T>>)
    ensures r.Err? <==> Walk(thin, orig, cap, |orig|).Crashed?
    ensures r.Ok? ==> (fresh(r.value) &&
      r.value[..] == Copied(thin, orig, ary, cap, seq(len, _ => zero), missing, |orig|))
  {
    var newData := new T[len](_ => zero);
    ghost var init := newData[..];
    assert init == seq(len, _ => zero);
    var iNew := 0;
    var i := 0;
    var stopped := false;
    while i < |orig| && !stopped
      invariant 0 <= i <= |orig|
      invariant Walk(thin, orig, cap, i) == (if stopped then Stopped(iNew) else Running(iNew))
      invariant newData[..] == Copied(thin, orig, ary, cap, init, missing, i)
    {
      if iNew >= |thin| {
        Settled(thin, orig, ary, cap, init, missing, i + 1, |orig|);
        return Err("Cannot read properties of undefined (reading 'lat')");
      }
      if thin[iNew] == orig[i] {
        if iNew < newData.Length {
          newData[iNew] := ReadOr(ary, i, missing);
        }
        iNew := iNew + 1;
        if iNew >= cap {
          stopped := true;
        }
      }
      i := i + 1;
    }
    if stopped {
      Settled(thin, orig, ary, cap, init, missing, i, |orig|);
    }
    return Ok(newData);
  }

  /**
   * this.ni * this.nj slots, filled through the cursor walk that breaks once
   * i_new reaches this.coords.length.
   */
  method ThinDataArray<T>(g: UnstructuredGrid, original: UnstructuredGrid, ary: seq<T>, zero: T, missing: T)
    returns (r: Result<array<T>>)
    ensures r.Err? <==> Walk(g.coords, original.coords, |g.coords|, |original.coords|).Crashed?
    ensures r.Ok? ==> (fresh(r.value) &&
      r.value[..] == Copied(g.coords, original.coords, ary, |g.coords|, seq(g.ni * g.nj, _ => zero), missing, |original.coords|))
  {
    r := CursorCopy(g.coords, original.coords, ary, |g.coords|, g.ni * g.nj, zero, missing);
  }

  /** The cursor never passes the thinned list, and slots past it keep their initial value. */
  lemma {:induction false} UnfilledSlotsKept<T>(thin: seq<Coord>, orig: seq<Coord>, ary: seq<T>, cap: nat, init: seq<T>, missing: T, i: nat)
    requires i <= |orig| && !Walk(thin, orig, cap, i).Crashed?
    ensures Walk(thin, orig, cap, i).cursor <= |thin|
    ensures forall k | Walk(thin, orig, cap, i).cursor <= k < |init| ::
      Copied(thin, orig, ary, cap, init, missing, i)[k] == init[k]
  {
    if i > 0 {
      UnfilledSlotsKept(thin, orig, ary, cap, init, missing, i - 1);
    }
  }

  /** The cursor never moves backwards. */
  lemma {:induction false} CursorMonotone(thin: seq<Coord>, orig: seq<Coord>, cap: nat, i: nat, n: nat)
    requires i <= n <= |orig| && !Walk(thin, orig, cap, n).Crashed?
    ensures !Walk(thin, orig, cap, i).Crashed?
    ensures Walk(thin, orig, cap, i).cursor <= Walk(thin, orig, cap, n).cursor
    decreases n - i
  {
    if i < n {
      CursorMonotone(thin, orig, cap, i, n - 1);
    }
  }

  /** Every copied point keeps the data value it was copied with. */
  lemma {:induction false} MatchedSlotHolds<T>(thin: seq<Coord>, orig: seq<Coord>, ary: seq<T>, cap: nat, init: seq<T>, missing: T, i: nat, n: nat)
    requires i < n <= |orig| && MatchAt(thin, orig, cap, i)
    requires Walk(thin, orig, cap, i).cursor < |init|
    ensures Copied(thin, orig, ary, cap, init, missing, n)[Walk(thin, orig, cap, i).cursor] == ReadOr(ary, i, missing)
    decreases n - i
  {
    if n > i + 1 {
      MatchedSlotHolds(thin, orig, ary, cap, init, missing, i, n - 1);
      var m := n - 1;
      if MatchAt(thin, orig, cap, m) {
        CursorMonotone(thin, orig, cap, i + 1, m);
      }
    }
  }

  /**
   * With the break at coords.length, a non-empty thinned list that occurs
   * in order in the original list is matched completely: the walk stops
   * with every thinned slot filled.
   */
  lemma {:induction false} SubseqIsMatched(thin: seq<Coord>, orig: seq<Coord>, i: nat)
    requires |thin| > 0 && IsSubseq(thin, orig) && i <= |orig|
    ensures Walk(thin, orig, |thin|, i) == Stopped(|thin|) ||
      (Walk(thin, orig, |thin|, i).Running? && Walk(thin, orig, |thin|, i).cursor < |thin| &&
       IsSubseq(thin[Walk(thin, orig, |thin|, i).cursor..], orig[i..]))
    ensures i == |orig| ==> Walk(thin, orig, |thin|, i) == Stopped(|thin|)
  {
    if i > 0 {
      SubseqIsMatched(thin, orig, i - 1);
      var st := Walk(thin, orig, |thin|, i - 1);
      if st.Running? {
        var c := st.cursor;
        assert orig[i - 1..][1..] == orig[i..];
        if thin[c] == orig[i - 1] {
          assert thin[c..][1..] == thin[c + 1..];
        }
      }
    } else {
      assert thin[0..] == thin && orig[0..] == orig;
    }
    if i == |orig| && !Walk(thin, orig, |thin|, i).Stopped? {
      assert false;
    }
  }

  /**
   * Thinning and then copying loses nothing: every point kept by
   * getThinnedGrid receives a data value.
   */
  lemma ThinnedGridFilled(g: UnstructuredGrid, cached: seq<int>, mapMaxZoom: int)
    requires |GetThinnedGrid(g, cached, mapMaxZoom).coords| > 0
    ensures var t := GetThinnedGrid(g, cached, mapMaxZoom);
      Walk(t.coords, g.coords, |t.coords|, |g.coords|) == Stopped(|t.coords|)
  {
    var t := GetThinnedGrid(g, cached, mapMaxZoom);
    KeptIsSubseq(g.coords, GetMinVisibleZoom(g, cached), mapMaxZoom, 0);
    assert g.coords[0..] == g.coords;
    SubseqIsMatched(t.coords, g.coords, |g.coords|);
  }

  // ----- sampleNearestGridPoint -----

  function SquaredDistances(coords: seq<Coord>, lon: real, lat: real): (d: seq<real>)
    ensures |d| == |coords|
    ensures forall k | 0 <= k < |coords| ::
      d[k] == (coords[k].lon - lon) * (coords[k].lon - lon) + (coords[k].lat - lat) * (coords[k].lat - lat)
  {
    seq(|coords|, k requires 0 <= k < |coords| =>
      (coords[k].lon - lon) * (coords[k].lon - lon) + (coords[k].lat - lat) * (coords[k].lat - lat))
  }

  datatype PointSample = PointSample(idx: nat, sample: Option<real>, sampleLon: real, sampleLat: real)

  /** The data value and position of the point nearest to (lon, lat) in squared lon/lat distance. */
  function SampleNearestGridPoint(g: UnstructuredGrid, lon: real, lat: real, ary: seq<real>): (r: PointSample)
    requires |g.coords| > 0
    ensures r.idx < |g.coords|
    ensures forall k | 0 <= k < |g.coords| ::
      SquaredDistances(g.coords, lon, lat)[r.idx] <= SquaredDistances(g.coords, lon, lat)[k]
    ensures forall k | 0 <= k < r.idx ::
      SquaredDistances(g.coords, lon, lat)[r.idx] < SquaredDistances(g.coords, lon, lat)[k]
    ensures r.sampleLon == g.coords[r.idx].lon && r.sampleLat == g.coords[r.idx].lat
    ensures r.idx < |ary| ==> r.sample == Some(ary[r.idx])
    ensures r.idx >= |ary| <==> r.sample.None?
  {
    var idx := ArgMin(SquaredDistances(g.coords, lon, lat));
    PointSample(idx, if idx < |ary| then Some(ary[idx]) else None, g.coords[idx].lon, g.coords[idx].lat)
  }
}
