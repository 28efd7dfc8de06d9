/**
 * The raw fields: a scalar field whose data must fill its grid, the
 * element-wise aggregation of scalar fields, a vector field of two scalar
 * fields with the bearing of a sampled vector, a grid of wind profiles
 * with its storm-motion field and the coordinates of its profiles, and a
 * field of observations read as numbers, strings or vectors. Values are
 * real numbers or NaN; the rounding of Float16Array and Float32Array
 * storage is not modelled, the conversion into a Uint8Array is.
 */
module RawFields {
  import opened Wrappers
  import MS = MarchingSquares
  import Utils

  // ----- array types -----

  /** The typed arrays a field's data can be held in. */
  datatype ArrayType = Float16Array | Float32Array | Uint8Array

  /** getArrayDType: the name of the array's type, float16 for anything that is neither Float32Array nor Uint8Array. */
  function GetArrayDType(t: ArrayType): (s: string)
    ensures s == "float32" <==> t.Float32Array?
    ensures s == "uint8" <==> t.Uint8Array?
    ensures s == "float16" <==> t.Float16Array?
  {
    if t.Float32Array? then "float32" else if t.Uint8Array? then "uint8" else "float16"
  }

  /** x rounded toward zero. */
  function Trunc(x: real): (r: int)
    ensures x >= 0.0 ==> r as real <= x < r as real + 1.0
    ensures x < 0.0 ==> r as real - 1.0 < x <= r as real
  {
    if x >= 0.0 then x.Floor else -((-x).Floor)
  }

  /** A number stored into a Uint8Array: NaN becomes 0, anything else is truncated and taken modulo 256. */
  function ToUint8(v: MS.Sample): (b: int)
    ensures 0 <= b < 256
    ensures v.NaN? ==> b == 0
    ensures v.Num? && 0.0 <= v.v < 256.0 ==> b == v.v.Floor
  {
    if v.NaN? then 0 else Trunc(v.v) % 256
  }

  /** The value an array of type t holds after a number is stored into it. */
  function Stored(t: ArrayType, v: MS.Sample): (r: MS.Sample)
    ensures t.Uint8Array? ==> r == MS.Num(ToUint8(v) as real)
    ensures !t.Uint8Array? ==> r == v
  {
    if t.Uint8Array? then MS.Num(ToUint8(v) as real) else v
  }

  // ----- scalar fields -----

  /** The dimensions of the grid a field is defined on. */
  datatype GridShape = GridShape(ni: nat, nj: nat)

  function SizeMessage(g: GridShape, n: nat): string
  {
    "Data size (" + Utils.NatToString(n) + ") doesn't match the grid dimensions (" + Utils.NatToString(g.ni)
      + " x " + Utils.NatToString(g.nj) + "; expected " + Utils.NatToString(g.ni * g.nj) + " points)"
  }

  /** The constructor's check: an error exactly when the data do not have one value per grid point. */
  function SizeCheck(g: GridShape, n: nat): (e: Option<string>)
    ensures e.None? <==> g.ni * g.nj == n
    ensures e.Some? ==> e.value == SizeMessage(g, n)
  {
    if g.ni * g.nj != n then Some(SizeMessage(g, n)) else None
  }

  /** A raw scalar field: its grid, its data in row-major order, and the type of array holding them. */
  datatype RawScalarField = RawScalarField(grid: GridShape, data: seq<MS.Sample>, arrayType: ArrayType)

  /** `new RawScalarField(grid, data)`: throws when the data do not fill the grid. */
  function NewRawScalarField(grid: GridShape, data: seq<MS.Sample>, t: ArrayType): (r: Result<RawScalarField>)
    ensures r.Err? <==> grid.ni * grid.nj != |data|
    ensures r.Err? ==> r.error == SizeMessage(grid, |data|)
    ensures r.Ok? ==> r.value.grid == grid && r.value.data == data && r.value.arrayType == t
    ensures r.Ok? ==> |r.value.data| == r.value.grid.ni * r.value.grid.nj
  {
    match SizeCheck(grid, |data|)
    case Some(e) => Err(e)
    case None => Ok(RawScalarField(grid, data, t))
  }

  /** The data arrays of a list of fields. */
  function DataOf(args: seq<RawScalarField>): (d: seq<seq<MS.Sample>>)
    ensures |d| == |args| && forall i | 0 <= i < |args| :: d[i] == args[i].data
  {
    seq(|args|, i requires 0 <= i < |args| => args[i].data)
  }

  /** The k-th element of every array. */
  function Column(ds: seq<seq<MS.Sample>>, k: nat): (c: seq<MS.Sample>)
    requires forall i | 0 <= i < |ds| :: k < |ds[i]|
    ensures |c| == |ds| && forall i | 0 <= i < |ds| :: c[i] == ds[i][k]
  {
    seq(|ds|, i requires 0 <= i < |ds| => ds[i][k])
  }

  /**
   * aggregateFields(func, ...args): element k is func of the k-th elements
   * of all fields, up to the shortest one, stored in an array of the first
   * field's type; the new field has the first field's grid, so it throws
   * when the shortest field does not fill that grid. With no field at all
   * the source reads the data of an undefined field, so at least one is
   * required.
   */
  method AggregateFields(func: seq<MS.Sample> -> MS.Sample, args: seq<RawScalarField>) returns (r: Result<RawScalarField>)
    requires |args| > 0
    ensures var n := Utils.MinLength(DataOf(args));
      r.Err? <==> args[0].grid.ni * args[0].grid.nj != n
    ensures r.Err? ==> r.error == SizeMessage(args[0].grid, Utils.MinLength(DataOf(args)))
    ensures r.Ok? ==> r.value.grid == args[0].grid && r.value.arrayType == args[0].arrayType
    ensures r.Ok? ==> |r.value.data| == Utils.MinLength(DataOf(args))
    ensures r.Ok? ==> forall k | 0 <= k < |r.value.data| ::
      r.value.data[k] == Stored(args[0].arrayType, func(Column(DataOf(args), k)))
  {
    var datas := DataOf(args);
    var t := args[0].arrayType;
    var zipped := Utils.Zip(datas);
    var agg := [];
    var k := 0;
    while k < |zipped|
      invariant k <= |zipped| && |agg| == k
      invariant forall n | 0 <= n < k :: agg[n] == Stored(t, func(zipped[n]))
    {
      agg := agg + [Stored(t, func(zipped[k]))];
      k := k + 1;
    }
    forall n | 0 <= n < |agg|
      ensures zipped[n] == Column(datas, n)
    {
    }
    r := NewRawScalarField(args[0].grid, agg, t);
  }

  // ----- vector fields -----

  /** Whether the vectors are relative to the grid or to the Earth. */
  datatype VectorRelativeTo = Earth | Grid

  /** A raw vector field: a u and a v field on the same grid. */
  datatype RawVectorField = RawVectorField(u: RawScalarField, v: RawScalarField, relativeTo: VectorRelativeTo)

  /**
   * `new RawVectorField(grid, u, v, opts)`: the u field is built first, so
   * its size error is the one thrown when both are wrong; relative_to
   * defaults to the grid.
   */
  function NewRawVectorField(grid: GridShape, u: seq<MS.Sample>, v: seq<MS.Sample>, t: ArrayType,
                             relativeTo: Option<VectorRelativeTo>): (r: Result<RawVectorField>)
    ensures r.Err? <==> grid.ni * grid.nj != |u| || grid.ni * grid.nj != |v|
    ensures grid.ni * grid.nj != |u| ==> r == Err(SizeMessage(grid, |u|))
    ensures grid.ni * grid.nj == |u| && grid.ni * grid.nj != |v| ==> r == Err(SizeMessage(grid, |v|))
    ensures r.Ok? ==> r.value.u == RawScalarField(grid, u, t) && r.value.v == RawScalarField(grid, v, t)
    ensures r.Ok? ==> r.value.relativeTo == (if relativeTo.None? then Grid else relativeTo.value)
  {
    match NewRawScalarField(grid, u, t)
    case Err(e) => Err(e)
    case Ok(uf) =>
      match NewRawScalarField(grid, v, t)
      case Err(e) => Err(e)
      case Ok(vf) => Ok(RawVectorField(uf, vf, if relativeTo.None? then Grid else relativeTo.value))
  }

  /** The bearing correction of sampleField: at most one turn added or taken away. */
  function WrapBearing(brg: real): (r: real)
    ensures r == brg || r == brg - 360.0 || r == brg + 360.0
    ensures 0.0 <= brg <= 360.0 ==> r == brg
    ensures -360.0 <= brg <= 720.0 ==> 0.0 <= r <= 360.0
    ensures brg > 720.0 ==> r > 360.0
    ensures brg < -360.0 ==> r < 0.0
  {
    var b := if brg > 360.0 then brg - 360.0 else brg;
    if b < 0.0 then b + 360.0 else b
  }

  /**
   * sampleField: the bearing the vector at the nearest grid point points
   * from, in degrees, and its magnitude. u, v are the samples at that point
   * and rot the grid's vector rotation there; the inverse tangent, the
   * hypotenuse and pi are parameters. NaN in either sample makes both NaN.
   */
  function SampleField(f: RawVectorField, u: MS.Sample, v: MS.Sample, rot: real, pi: real,
                       atan2: (real, real) -> real, hypot: (real, real) -> real): (r: (MS.Sample, MS.Sample))
    requires pi > 0.0
    ensures u.NaN? || v.NaN? ==> r == (MS.NaN, MS.NaN)
    ensures u.Num? && v.Num? ==> r.1 == MS.Num(hypot(u.v, v.v)) && r.0.Num?
    ensures u.Num? && v.Num? ==>
      var rot' := if f.relativeTo.Earth? then 0.0 else rot;
      var brg := (pi / 2.0 - atan2(-v.v, -u.v) + rot') * 180.0 / pi;
      r.0.v == WrapBearing(brg)
  {
    if u.NaN? || v.NaN? then (MS.NaN, MS.NaN)
    else
      var rot' := if f.relativeTo.Earth? then 0.0 else rot;
      (MS.Num(WrapBearing((pi / 2.0 - atan2(-v.v, -u.v) + rot') * 180.0 / pi)), MS.Num(hypot(u.v, v.v)))
  }

  /** A quarter turn past the ground-relative direction always lands the bearing in [0, 360]. */
  lemma BearingInRange(f: RawVectorField, u: real, v: real, rot: real, pi: real,
                       atan2: (real, real) -> real, hypot: (real, real) -> real)
    requires pi > 0.0 && -pi <= atan2(-v, -u) <= pi
    requires f.relativeTo.Earth? || -pi <= rot <= pi
    ensures var r := SampleField(f, MS.Num(u), MS.Num(v), rot, pi, atan2, hypot);
      r.0.Num? && 0.0 <= r.0.v <= 360.0
  {
    var rot' := if f.relativeTo.Earth? then 0.0 else rot;
    var a := pi / 2.0 - atan2(-v, -u) + rot';
    assert -2.0 * pi <= a <= 3.0 * pi;
    ScaleByDegrees(a, pi);
    assert -2.0 <= a / pi <= 3.0 by {
      DivBounds(a, pi);
    }
  }

  lemma ScaleByDegrees(a: real, p: real)
    requires p > 0.0
    ensures a * 180.0 / p == a / p * 180.0
  {
    var q := a / p;
    assert q * p == a;
    assert (q * 180.0) * p == a * 180.0;
  }

  lemma DivBounds(a: real, p: real)
    requires p > 0.0 && -2.0 * p <= a <= 3.0 * p
    ensures -2.0 <= a / p <= 3.0
  {
    assert a / p * p == a;
  }

  // ----- wind profiles -----

  /** A wind profile's grid position; storm-relative when it has both storm-motion components. */
  datatype WindProfile = WindProfile(jlat: int, ilon: int, smu: Option<real>, smv: Option<real>)

  /** The grid index a profile is at: ilon + ni * jlat. */
  function ProfileIndex(p: WindProfile, ni: nat): int
  {
    p.ilon + ni * p.jlat
  }

  datatype Component = U | V

  /** The storm motion a profile contributes: (smu, smv) for a storm-relative profile, (0, 0) otherwise. */
  function StormValue(p: WindProfile, c: Component): (r: MS.Sample)
    ensures p.smu.Some? && p.smv.Some? ==> r == MS.Num(if c.U? then p.smu.value else p.smv.value)
    ensures !(p.smu.Some? && p.smv.Some?) ==> r == MS.Num(0.0)
  {
    if p.smu.Some? && p.smv.Some? then MS.Num(if c.U? then p.smu.value else p.smv.value) else MS.Num(0.0)
  }

  /** A write into a typed array: ignored outside the array. */
  function PutAt<T>(s: seq<T>, k: int, x: T): (r: seq<T>)
    ensures |r| == |s|
    ensures forall j | 0 <= j < |s| :: r[j] == if j == k then x else s[j]
  {
    if 0 <= k < |s| then s[k := x] else s
  }

  /** n NaNs: a new Float16Array filled with NaN. */
  function NaNs(n: nat): (z: seq<MS.Sample>)
    ensures |z| == n && forall k | 0 <= k < n :: z[k] == MS.NaN
  {
    seq(n, _ => MS.NaN)
  }

  /** One component of the storm-motion grid once the profiles have been written in order. */
  function StormGrid(profiles: seq<WindProfile>, ni: nat, size: nat, c: Component): (g: seq<MS.Sample>)
    ensures |g| == size
    decreases |profiles|
  {
    if |profiles| == 0 then NaNs(size)
    else
      var last := profiles[|profiles| - 1];
      PutAt(StormGrid(profiles[..|profiles| - 1], ni, size, c), ProfileIndex(last, ni), StormValue(last, c))
  }

  /** The last profile at grid index k, if any. */
  function LastProfileAt(profiles: seq<WindProfile>, ni: nat, k: int): (r: Option<nat>)
    ensures r.Some? ==> r.value < |profiles| && ProfileIndex(profiles[r.value], ni) == k
    ensures r.Some? ==> forall j | r.value < j < |profiles| :: ProfileIndex(profiles[j], ni) != k
    ensures r.None? ==> forall j | 0 <= j < |profiles| :: ProfileIndex(profiles[j], ni) != k
    decreases |profiles|
  {
    if |profiles| == 0 then None
    else if ProfileIndex(profiles[|profiles| - 1], ni) == k then Some(|profiles| - 1)
    else LastProfileAt(profiles[..|profiles| - 1], ni, k)
  }

  /** Every grid point holds the storm motion of the last profile at it, and NaN where there is none. */
  lemma {:induction false} StormGridAt(profiles: seq<WindProfile>, ni: nat, size: nat, c: Component, k: nat)
    requires k < size
    ensures StormGrid(profiles, ni, size, c)[k] ==
      match LastProfileAt(profiles, ni, k)
      case None => MS.NaN
      case Some(i) => StormValue(profiles[i], c)
    decreases |profiles|
  {
    if |profiles| > 0 {
      var init := profiles[..|profiles| - 1];
      StormGridAt(init, ni, size, c, k);
      if ProfileIndex(profiles[|profiles| - 1], ni) != k {
        assert LastProfileAt(profiles, ni, k) == LastProfileAt(init, ni, k);
        match LastProfileAt(init, ni, k)
        case None =>
        case Some(i) => assert profiles[i] == init[i];
      }
    }
  }

  /** The writes of one profile into both components. */
  method WriteProfile(u: array<MS.Sample>, v: array<MS.Sample>, p: WindProfile, ni: nat)
    requires u != v
    modifies u, v
    ensures u[..] == PutAt(old(u[..]), ProfileIndex(p, ni), StormValue(p, U))
    ensures v[..] == PutAt(old(v[..]), ProfileIndex(p, ni), StormValue(p, V))
  {
    var idx := ProfileIndex(p, ni);
    if 0 <= idx < u.Length {
      u[idx] := StormValue(p, U);
    }
    if 0 <= idx < v.Length {
      v[idx] := StormValue(p, V);
    }
  }

  /**
   * getStormMotionGrid: NaN everywhere, then each profile's storm motion at
   * its grid index, in the order of the profiles; a grid-relative vector
   * field, which never throws because both arrays fill the grid.
   */
  method GetStormMotionGrid(grid: GridShape, profiles: seq<WindProfile>) returns (f: RawVectorField)
    ensures NewRawVectorField(grid, StormGrid(profiles, grid.ni, grid.ni * grid.nj, U),
                              StormGrid(profiles, grid.ni, grid.ni * grid.nj, V), Float16Array, Some(Grid)) == Ok(f)
  {
    var size := grid.ni * grid.nj;
    var u := new MS.Sample[size](_ => MS.NaN);
    var v := new MS.Sample[size](_ => MS.NaN);
    var i := 0;
    while i < |profiles|
      invariant i <= |profiles|
      invariant u[..] == StormGrid(profiles[..i], grid.ni, size, U)
      invariant v[..] == StormGrid(profiles[..i], grid.ni, size, V)
    {
      WriteProfile(u, v, profiles[i], grid.ni);
      assert profiles[..i + 1][..i] == profiles[..i];
      i := i + 1;
    }
    assert profiles[..i] == profiles;
    f := RawVectorField(RawScalarField(grid, u[..], Float16Array), RawScalarField(grid, v[..], Float16Array), Grid);
  }

  /** A coordinate read from the grid's coordinate array: undefined, stored as NaN, outside it. */
  function CoordAt(coords: seq<real>, k: int): (r: MS.Sample)
    ensures 0 <= k < |coords| ==> r == MS.Num(coords[k])
    ensures !(0 <= k < |coords|) ==> r == MS.NaN
  {
    if 0 <= k < |coords| then MS.Num(coords[k]) else MS.NaN
  }

  /**
   * getProfileCoords: the latitude and longitude of every profile, in the
   * order of the profiles, read from the grid's earth coordinates at the
   * profile's grid index.
   */
  method GetProfileCoords(grid: GridShape, lats: seq<real>, lons: seq<real>, profiles: seq<WindProfile>)
    returns (profLats: seq<MS.Sample>, profLons: seq<MS.Sample>)
    ensures |profLats| == |profiles| && |profLons| == |profiles|
    ensures forall i | 0 <= i < |profiles| ::
      profLats[i] == CoordAt(lats, ProfileIndex(profiles[i], grid.ni)) &&
      profLons[i] == CoordAt(lons, ProfileIndex(profiles[i], grid.ni))
  {
    var la := new MS.Sample[|profiles|](_ => MS.Num(0.0));
    var lo := new MS.Sample[|profiles|](_ => MS.Num(0.0));
    var i := 0;
    while i < |profiles|
      invariant i <= |profiles|
      invariant forall n | 0 <= n < i :: la[n] == CoordAt(lats, ProfileIndex(profiles[n], grid.ni))
      invariant forall n | 0 <= n < i :: lo[n] == CoordAt(lons, ProfileIndex(profiles[n], grid.ni))
    {
      var idx := ProfileIndex(profiles[i], grid.ni);
      la[i] := CoordAt(lats, idx);
      lo[i] := CoordAt(lons, idx);
      i := i + 1;
    }
    profLats, profLons := la[..], lo[..];
  }

  /** A profile's coordinates are those of the grid point its storm motion is written to. */
  lemma ProfileCoordsMatchStormGrid(grid: GridShape, lats: seq<real>, profiles: seq<WindProfile>, i: nat)
    requires i < |profiles| && |lats| == grid.ni * grid.nj
    requires 0 <= ProfileIndex(profiles[i], grid.ni) < |lats|
    requires forall j | i < j < |profiles| :: ProfileIndex(profiles[j], grid.ni) != ProfileIndex(profiles[i], grid.ni)
    ensures var k := ProfileIndex(profiles[i], grid.ni);
      CoordAt(lats, k) == MS.Num(lats[k]) &&
      StormGrid(profiles, grid.ni, grid.ni * grid.nj, U)[k] == StormValue(profiles[i], U)
  {
    var k := ProfileIndex(profiles[i], grid.ni);
    StormGridAt(profiles, grid.ni, grid.ni * grid.nj, U, k);
  }

  // ----- observations -----

  /** One observed value: a number, a string, a [speed, direction] pair whose entries may be null, or null. */
  datatype ObsValue = Number(x: real) | Text(s: string) | Vector(speed: Option<real>, dir: Option<real>) | Null

  /** One observation: its values by element name. */
  type Obs = map<string, ObsValue>

  /** d[key], None where the observation has no such element (undefined). */
  function ValueOf(d: Obs, key: string): Option<ObsValue>
  {
    if key in d then Some(d[key]) else None
  }

  predicate IsScalar(v: Option<ObsValue>)
  {
    v.Some? && (v.value.Number? || v.value.Null?)
  }

  predicate IsString(v: Option<ObsValue>)
  {
    v.Some? && (v.value.Text? || v.value.Null?)
  }

  predicate IsVector(v: Option<ObsValue>)
  {
    v.Some? && v.value.Vector?
  }

  function NotScalarMessage(key: string): string
  {
    "It doesn't look like " + key + " contains scalar numerical data"
  }

  function NotStringMessage(key: string): string
  {
    "It doesn't look like " + key + " contains string data"
  }

  function NotVectorMessage(key: string): string
  {
    "It doesn't look like " + key + " contains vector data"
  }

  /** getScalar: every value a number or null, in the order of the observations; otherwise it throws. */
  function GetScalar(data: seq<Obs>, key: string): (r: Result<seq<Option<real>>>)
    ensures r.Ok? <==> forall i | 0 <= i < |data| :: IsScalar(ValueOf(data[i], key))
    ensures r.Err? ==> r.error == NotScalarMessage(key)
    ensures r.Ok? ==> |r.value| == |data| && forall i | 0 <= i < |data| ::
      r.value[i] == if ValueOf(data[i], key).value.Number? then Some(ValueOf(data[i], key).value.x) else None
  {
    if forall i | 0 <= i < |data| :: IsScalar(ValueOf(data[i], key)) then
      Ok(seq(|data|, i requires 0 <= i < |data| && IsScalar(ValueOf(data[i], key)) =>
        var v := ValueOf(data[i], key).value; if v.Number? then Some(v.x) else None))
    else Err(NotScalarMessage(key))
  }

  /** getStrings: every value a string or null, in the order of the observations; otherwise it throws. */
  function GetStrings(data: seq<Obs>, key: string): (r: Result<seq<Option<string>>>)
    ensures r.Ok? <==> forall i | 0 <= i < |data| :: IsString(ValueOf(data[i], key))
    ensures r.Err? ==> r.error == NotStringMessage(key)
    ensures r.Ok? ==> |r.value| == |data| && forall i | 0 <= i < |data| ::
      r.value[i] == if ValueOf(data[i], key).value.Text? then Some(ValueOf(data[i], key).value.s) else None
  {
    if forall i | 0 <= i < |data| :: IsString(ValueOf(data[i], key)) then
      Ok(seq(|data|, i requires 0 <= i < |data| && IsString(ValueOf(data[i], key)) =>
        var v := ValueOf(data[i], key).value; if v.Text? then Some(v.s) else None))
    else Err(NotStringMessage(key))
  }

  /** The check and cast at the start of getVector: every value a pair; otherwise it throws. */
  function GetVectorData(data: seq<Obs>, key: string): (r: Result<seq<(Option<real>, Option<real>)>>)
    ensures r.Ok? <==> forall i | 0 <= i < |data| :: IsVector(ValueOf(data[i], key))
    ensures r.Err? ==> r.error == NotVectorMessage(key)
    ensures r.Ok? ==> |r.value| == |data| && forall i | 0 <= i < |data| ::
      r.value[i] == (ValueOf(data[i], key).value.speed, ValueOf(data[i], key).value.dir)
  {
    if forall i | 0 <= i < |data| :: IsVector(ValueOf(data[i], key)) then
      Ok(seq(|data|, i requires 0 <= i < |data| && IsVector(ValueOf(data[i], key)) =>
        var v := ValueOf(data[i], key).value; (v.speed, v.dir)))
    else Err(NotVectorMessage(key))
  }

  /** vec2comp: the components of a wind blowing from wdir degrees at wspd. */
  function VecToComp(wspd: real, wdir: real, pi: real, sin: real -> real, cos: real -> real): (real, real)
  {
    (-wspd * sin(wdir * pi / 180.0), -wspd * cos(wdir * pi / 180.0))
  }

  /** One component at observation k: NaN where a value is null or there is no observation. */
  function ObsAt(vs: seq<(Option<real>, Option<real>)>, k: nat, c: Component, pi: real, sin: real -> real, cos: real -> real): MS.Sample
  {
    if k < |vs| && vs[k].0.Some? && vs[k].1.Some? then
      var uv := VecToComp(vs[k].0.value, vs[k].1.value, pi, sin, cos);
      MS.Num(if c.U? then uv.0 else uv.1)
    else MS.NaN
  }

  /** One component of getVector's arrays, one value per grid point. */
  function ObsComponent(vs: seq<(Option<real>, Option<real>)>, size: nat, c: Component,
                        pi: real, sin: real -> real, cos: real -> real): (g: seq<MS.Sample>)
    ensures |g| == size
    ensures forall k | 0 <= k < size :: g[k] == ObsAt(vs, k, c, pi, sin, cos)
  {
    seq(size, k requires 0 <= k < size => ObsAt(vs, k, c, pi, sin, cos))
  }

  /** The component arrays once the observations before n have been written. */
  function ObsPrefix(vs: seq<(Option<real>, Option<real>)>, n: nat, size: nat, c: Component,
                     pi: real, sin: real -> real, cos: real -> real): (g: seq<MS.Sample>)
    ensures |g| == size
  {
    seq(size, k requires 0 <= k < size => if k < n then ObsAt(vs, k, c, pi, sin, cos) else MS.NaN)
  }

  /** Writing observation n extends the prefix by one. */
  lemma ObsPrefixStep(vs: seq<(Option<real>, Option<real>)>, n: nat, size: nat, c: Component,
                      pi: real, sin: real -> real, cos: real -> real)
    requires n < |vs|
    ensures ObsPrefix(vs, n + 1, size, c, pi, sin, cos) ==
      if vs[n].0.Some? && vs[n].1.Some? then PutAt(ObsPrefix(vs, n, size, c, pi, sin, cos), n, ObsAt(vs, n, c, pi, sin, cos))
      else ObsPrefix(vs, n, size, c, pi, sin, cos)
  {
  }

  /** The forEach body of getVector: a pair with a null entry is skipped, any other writes its components at its index. */
  method WriteObs(u: array<MS.Sample>, v: array<MS.Sample>, vs: seq<(Option<real>, Option<real>)>, idat: nat,
                  pi: real, sin: real -> real, cos: real -> real)
    requires idat < |vs| && u != v
    modifies u, v
    ensures vs[idat].0.Some? && vs[idat].1.Some? ==>
      u[..] == PutAt(old(u[..]), idat, ObsAt(vs, idat, U, pi, sin, cos)) &&
      v[..] == PutAt(old(v[..]), idat, ObsAt(vs, idat, V, pi, sin, cos))
    ensures !(vs[idat].0.Some? && vs[idat].1.Some?) ==> u[..] == old(u[..]) && v[..] == old(v[..])
  {
    var (wspd, wdir) := vs[idat];
    if wspd.None? || wdir.None? {
      return;
    }
    var uv := VecToComp(wspd.value, wdir.value, pi, sin, cos);
    if idat < u.Length {
      u[idat] := MS.Num(uv.0);
    }
    if idat < v.Length {
      v[idat] := MS.Num(uv.1);
    }
  }

  /** The NaN-filled component arrays and the loop over the observations. */
  method ObsComponents(vs: seq<(Option<real>, Option<real>)>, size: nat, pi: real, sin: real -> real, cos: real -> real)
    returns (us: seq<MS.Sample>, ws: seq<MS.Sample>)
    ensures us == ObsComponent(vs, size, U, pi, sin, cos) && ws == ObsComponent(vs, size, V, pi, sin, cos)
  {
    var u := new MS.Sample[size](_ => MS.NaN);
    var v := new MS.Sample[size](_ => MS.NaN);
    assert u[..] == ObsPrefix(vs, 0, size, U, pi, sin, cos);
    assert v[..] == ObsPrefix(vs, 0, size, V, pi, sin, cos);
    var idat := 0;
    while idat < |vs|
      invariant idat <= |vs|
      invariant u[..] == ObsPrefix(vs, idat, size, U, pi, sin, cos)
      invariant v[..] == ObsPrefix(vs, idat, size, V, pi, sin, cos)
    {
      WriteObs(u, v, vs, idat, pi, sin, cos);
      ObsPrefixStep(vs, idat, size, U, pi, sin, cos);
      ObsPrefixStep(vs, idat, size, V, pi, sin, cos);
      idat := idat + 1;
    }
    us, ws := u[..], v[..];
    assert us == ObsComponent(vs, size, U, pi, sin, cos);
    assert ws == ObsComponent(vs, size, V, pi, sin, cos);
  }

  /**
   * getVector: after the check, NaN arrays of the grid's size with the
   * components of each observation at its own index (those past the end
   * of the array are dropped, those with a null entry skipped), as an
   * Earth-relative vector field.
   */
  method GetVector(grid: GridShape, data: seq<Obs>, key: string, pi: real, sin: real -> real, cos: real -> real)
    returns (r: Result<RawVectorField>)
    ensures r.Err? <==> GetVectorData(data, key).Err?
    ensures r.Err? ==> r.error == NotVectorMessage(key)
    ensures r.Ok? ==> var vs := GetVectorData(data, key).value; var size := grid.ni * grid.nj;
      NewRawVectorField(grid, ObsComponent(vs, size, U, pi, sin, cos), ObsComponent(vs, size, V, pi, sin, cos),
                        Float16Array, Some(Earth)) == Ok(r.value)
  {
    var checked := GetVectorData(data, key);
    if checked.Err? {
      return Err(checked.error);
    }
    var u, v := ObsComponents(checked.value, grid.ni * grid.nj, pi, sin, cos);
    r := Ok(RawVectorField(RawScalarField(grid, u, Float16Array), RawScalarField(grid, v, Float16Array), Earth));
  }
}
