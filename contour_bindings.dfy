/**
 * The glue between the contouring routines and the script side: the grid
 * size check, the copy of the requested levels, the grouping of the
 * contours by level value, and the copy of the generated levels.
 */
module ContourBindings {
  import opened Wrappers
  import opened ContourTypes
  import MarchingSquares

  const GRID_SIZE_MESSAGE := "Mismatch between the length of the vector and nx and ny"

  /** The size check: an error exactly when nx * ny is not the number of grid values. */
  function CheckGridSize(gridSize: nat, nx: int, ny: int): (r: Result<()>)
    ensures r.Err? <==> nx * ny != gridSize
    ensures r.Err? ==> r.error == GRID_SIZE_MESSAGE
  {
    if nx * ny != gridSize then Err(GRID_SIZE_MESSAGE) else Ok(())
  }

  /** The requested levels, copied one by one into a new vector. */
  method CopyLevels(values: seq<real>) returns (levels: seq<real>)
    ensures levels == values
  {
    var out := new real[|values|](_ => 0.0);
    for ilev := 0 to |values|
      invariant forall k | 0 <= k < ilev :: out[k] == values[k]
    {
      out[ilev] := values[ilev];
    }
    levels := out[..];
  }

  /** The contours of cs whose value is v, in their order in cs. */
  function WithValue(cs: seq<Contour>, v: real): (r: seq<Contour>)
    ensures |r| <= |cs|
    ensures forall k | 0 <= k < |r| :: r[k].value == v
  {
    if cs == [] then []
    else if cs[|cs| - 1].value == v then WithValue(cs[..|cs| - 1], v) + [cs[|cs| - 1]]
    else WithValue(cs[..|cs| - 1], v)
  }

  /** The points of a contour passed through the grid transformer. */
  function Transformed<P>(pts: seq<Point>, t: (real, real) -> P): (r: seq<P>)
    ensures |r| == |pts|
    ensures forall k | 0 <= k < |pts| :: r[k] == t(pts[k].x, pts[k].y)
  {
    seq(|pts|, k requires 0 <= k < |pts| => t(pts[k].x, pts[k].y))
  }

  function TransformedAll<P>(cs: seq<Contour>, t: (real, real) -> P): (r: seq<seq<P>>)
    ensures |r| == |cs|
    ensures forall k | 0 <= k < |cs| :: r[k] == Transformed(cs[k].pointList, t)
  {
    seq(|cs|, k requires 0 <= k < |cs| => Transformed(cs[k].pointList, t))
  }

  function Values(cs: seq<Contour>): (r: set<real>)
    ensures forall v :: v in r <==> exists c | c in cs :: c.value == v
  {
    set c | c in cs :: c.value
  }

  /** The grouped output: one array of transformed contours per distinct value. */
  ghost predicate Grouped<P>(cs: seq<Contour>, t: (real, real) -> P, out: map<real, seq<seq<P>>>)
  {
    out.Keys == Values(cs) &&
    forall v | v in out :: out[v] == TransformedAll(WithValue(cs, v), t)
  }

  lemma WithValueSnoc(cs: seq<Contour>, c: Contour, v: real)
    ensures WithValue(cs + [c], v) == if c.value == v then WithValue(cs, v) + [c] else WithValue(cs, v)
  {
    assert (cs + [c])[..|cs|] == cs;
  }

  lemma {:induction false} WithValueEmpty(cs: seq<Contour>, v: real)
    requires v !in Values(cs)
    ensures WithValue(cs, v) == []
  {
    if cs != [] {
      assert cs == cs[..|cs| - 1] + [cs[|cs| - 1]];
      assert cs[|cs| - 1] in cs;
      WithValueEmpty(cs[..|cs| - 1], v);
    }
  }

  /** Pushes the transformed points of one contour onto the row at index idx of group v. */
  method PushPoints<P>(out: map<real, seq<seq<P>>>, v: real, idx: nat, pts: seq<Point>, t: (real, real) -> P)
    returns (out': map<real, seq<seq<P>>>)
    requires v in out && idx < |out[v]| && out[v][idx] == []
    ensures out' == out[v := out[v][idx := Transformed(pts, t)]]
  {
    out' := out;
    var k := 0;
    assert out[v][idx := Transformed(pts[..0], t)] == out[v];
    while k < |pts|
      invariant 0 <= k <= |pts|
      invariant v in out' && out' == out[v := out[v][idx := Transformed(pts[..k], t)]]
    {
      var row := out'[v][idx] + [t(pts[k].x, pts[k].y)];
      assert row == Transformed(pts[..k + 1], t);
      assert out'[v][idx := row] == out[v][idx := row];
      out' := out'[v := out'[v][idx := row]];
      k := k + 1;
    }
    assert pts[..k] == pts;
  }

  /** One contour more: its transformed points join the end of its value's group. */
  lemma GroupedStep<P>(cs: seq<Contour>, c: Contour, t: (real, real) -> P, out: map<real, seq<seq<P>>>)
    requires Grouped(cs, t, out)
    ensures Grouped(cs + [c], t,
      out[c.value := (if c.value in out then out[c.value] else []) + [Transformed(c.pointList, t)]])
  {
    var out' := out[c.value := (if c.value in out then out[c.value] else []) + [Transformed(c.pointList, t)]];
    assert c in cs + [c];
    forall x | x in Values(cs + [c]) ensures x in out'.Keys {
      var d :| d in cs + [c] && d.value == x;
      if d != c {
        assert d in cs;
      }
    }
    forall v | v in out' ensures out'[v] == TransformedAll(WithValue(cs + [c], v), t) {
      WithValueSnoc(cs, c, v);
      if v == c.value && c.value !in out {
        WithValueEmpty(cs, v);
      }
    }
  }

  /** The body of the grouping loop for one contour. */
  method AddContour<P>(out: map<real, seq<seq<P>>>, added: map<real, int>, c: Contour, t: (real, real) -> P)
    returns (out': map<real, seq<seq<P>>>, added': map<real, int>)
    requires added.Keys == out.Keys
    requires forall v | v in added :: added[v] == |out[v]|
    ensures out' == out[c.value := (if c.value in out then out[c.value] else []) + [Transformed(c.pointList, t)]]
    ensures added' == added[c.value := |out'[c.value]|]
  {
    var value := c.value;
    out', added' := out, added;
    if value !in added' {
      out' := out'[value := []];
      added' := added'[value := 0];
    }
    ghost var prev := out'[value];
    var contourIndex := added'[value];
    added' := added'[value := contourIndex + 1];
    out' := out'[value := out'[value] + [[]]];
    out' := PushPoints(out', value, contourIndex, c.pointList, t);
    assert prev == (if c.value in out then out[c.value] else []);
    assert (prev + [[]])[contourIndex := Transformed(c.pointList, t)] == prev + [Transformed(c.pointList, t)];
  }

  /**
   * The grouping loop: each distinct value gets one array, created at its
   * first contour; the counter of a value is the index at which its next
   * contour is pushed.
   */
  method GroupByValue<P>(contours: seq<Contour>, t: (real, real) -> P) returns (out: map<real, seq<seq<P>>>)
    ensures Grouped(contours, t, out)
  {
    out := map[];
    var added: map<real, int> := map[];
    var n := 0;
    while n < |contours|
      invariant 0 <= n <= |contours|
      invariant added.Keys == out.Keys
      invariant forall v | v in added :: added[v] == |out[v]|
      invariant Grouped(contours[..n], t, out)
    {
      var c := contours[n];
      assert contours[..n + 1] == contours[..n] + [c];
      GroupedStep(contours[..n], c, t, out);
      out, added := AddContour(out, added, c, t);
      n := n + 1;
    }
    assert contours[..n] == contours;
  }

  /** The position of contour k within its value's group: the number of earlier contours with that value. */
  function Rank(cs: seq<Contour>, k: nat): nat
    requires k < |cs|
  {
    |WithValue(cs[..k], cs[k].value)|
  }

  /** Every input contour is found in its value's group at its rank. */
  lemma {:induction false} FoundAtRank(cs: seq<Contour>, k: nat)
    requires k < |cs|
    ensures Rank(cs, k) < |WithValue(cs, cs[k].value)|
    ensures WithValue(cs, cs[k].value)[Rank(cs, k)] == cs[k]
  {
    if k < |cs| - 1 {
      FoundAtRank(cs[..|cs| - 1], k);
      assert cs[..|cs| - 1][..k] == cs[..k];
      WithValueSnoc(cs[..|cs| - 1], cs[|cs| - 1], cs[k].value);
      assert cs[..|cs| - 1] + [cs[|cs| - 1]] == cs;
    } else {
      WithValueSnoc(cs[..k], cs[k], cs[k].value);
      assert cs[..k] + [cs[k]] == cs;
    }
  }

  /** The contouring entry point: size check, level copy, the contouring itself, then grouping. */
  method MakeContoursWASM<P>(data: seq<MarchingSquares.Sample>, xs: seq<real>, ys: seq<real>, values: seq<real>,
                             t: (real, real) -> P, quadAsTri: bool,
                             makeContours: (seq<MarchingSquares.Sample>, seq<real>, seq<real>, int, int, seq<real>, bool) -> seq<Contour>)
    returns (r: Result<map<real, seq<seq<P>>>>)
    ensures r.Err? <==> |xs| * |ys| != |data|
    ensures r.Ok? ==> Grouped(makeContours(data, xs, ys, |xs|, |ys|, values, quadAsTri), t, r.value)
  {
    var nx, ny := |xs|, |ys|;
    var check := CheckGridSize(|data|, nx, ny);
    if check.Err? {
      return Err(check.error);
    }
    var levels := CopyLevels(values);
    var contours := makeContours(data, xs, ys, nx, ny, levels, quadAsTri);
    var grouped := GroupByValue(contours, t);
    r := Ok(grouped);
  }

  /** The level entry point: size check, then the levels in the order they were generated. */
  method GetContourLevelsWASM(grid: seq<MarchingSquares.Sample>, nx: int, ny: int, interval: real)
    returns (r: Result<Option<seq<real>>>)
    ensures r.Err? <==> nx * ny != |grid|
    ensures r.Ok? ==> r.value == MarchingSquares.GridLevels(grid, interval)
  {
    var check := CheckGridSize(|grid|, nx, ny);
    if check.Err? {
      return Err(check.error);
    }
    var levels := MarchingSquares.GetContourLevels(grid, nx, ny, interval);
    assert grid[..nx * ny] == grid;
    if levels.None? {
      return Ok(None);
    }
    var jsLevels: seq<real> := [];
    var k := 0;
    while k < |levels.value|
      invariant 0 <= k <= |levels.value|
      invariant jsLevels == levels.value[..k]
    {
      jsLevels := jsLevels + [levels.value[k]];
      k := k + 1;
    }
    assert levels.value[..k] == levels.value;
    r := Ok(Some(jsLevels));
  }
}
