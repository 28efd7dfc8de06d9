/**
 * The point and contour value types of the contouring header, with the
 * relative-tolerance comparisons used to compare contours.
 * Floats are modelled as exact reals, so single-precision rounding of the
 * tolerance itself is not captured.
 */
module ContourTypes {
  /** Relative tolerance of the scalar comparison. */
  const REL_TOL: real := 0.000001
  /** Absolute tolerance of the scalar comparison (zero, so it never widens the test). */
  const ABS_TOL: real := 0.0

  function Abs(a: real): real { if a < 0.0 then -a else a }
  function Max(a: real, b: real): real { if a < b then b else a }

  /** Scalar closeness: |a - b| <= max(REL_TOL * max(|a|, |b|), ABS_TOL). */
  predicate IsCloseScalar(a: real, b: real)
  {
    Abs(a - b) <= Max(REL_TOL * Max(Abs(a), Abs(b)), ABS_TOL)
  }

  lemma IsCloseScalarReflexive(a: real)
    ensures IsCloseScalar(a, a)
  {
  }

  lemma IsCloseScalarSymmetric(a: real, b: real)
    ensures IsCloseScalar(a, b) <==> IsCloseScalar(b, a)
  {
    assert Abs(a - b) == Abs(b - a);
    assert Max(Abs(a), Abs(b)) == Max(Abs(b), Abs(a));
  }

  /** With no absolute tolerance, nothing but zero is close to zero. */
  lemma IsCloseToZero(b: real)
    ensures IsCloseScalar(0.0, b) <==> b == 0.0
  {
    if b != 0.0 {
      assert Abs(0.0 - b) == Abs(b) > 0.0;
      assert REL_TOL * Abs(b) < Abs(b);
    }
  }

  /** A contour vertex; equality of two points is exact equality of both coordinates. */
  datatype Point = Point(x: real, y: real)
  {
    /** Coordinate-wise scalar closeness. */
    predicate IsClose(other: Point)
    {
      IsCloseScalar(x, other.x) && IsCloseScalar(y, other.y)
    }
  }

  lemma PointEqualImpliesClose(p: Point, q: Point)
    requires p == q
    ensures p.IsClose(q)
  {
    IsCloseScalarReflexive(p.x);
    IsCloseScalarReflexive(p.y);
  }

  /** A contour line: its vertices and the level it was traced at. */
  datatype Contour = Contour(pointList: seq<Point>, value: real)

  /** Element-wise closeness of two equally long point lists. */
  ghost predicate AllClose(a: seq<Point>, b: seq<Point>)
    requires |a| == |b|
  {
    forall k :: 0 <= k < |a| ==> a[k].IsClose(b[k])
  }

  /**
   * Contour closeness: values must be identical and point lists equally long
   * (otherwise false at once); then every index pair of points must be close.
   * The accumulation does not stop at the first mismatch.
   */
  method ContourIsClose(self: Contour, other: Contour) returns (equals: bool)
    ensures self.value != other.value ==> !equals
    ensures |self.pointList| != |other.pointList| ==> !equals
    ensures self.value == other.value && |self.pointList| == |other.pointList| ==>
              (equals <==> AllClose(self.pointList, other.pointList))
  {
    equals := self.value == other.value && |self.pointList| == |other.pointList|;
    if !equals {
      return equals;
    }
    var idx := 0;
    while idx < |self.pointList|
      invariant 0 <= idx <= |self.pointList|
      invariant equals <==> forall k :: 0 <= k < idx ==> self.pointList[k].IsClose(other.pointList[k])
    {
      equals := equals && self.pointList[idx].IsClose(other.pointList[idx]);
      idx := idx + 1;
    }
  }

  /** Copy assignment: the target takes the other contour's points and keeps its own value. */
  function Assign(target: Contour, other: Contour): (r: Contour)
    ensures r.pointList == other.pointList && r.value == target.value
  {
    target.(pointList := other.pointList)
  }

  /** After assignment the target is close to the source exactly when their values already agreed. */
  method AssignThenCompare(target: Contour, other: Contour) returns (equals: bool)
    ensures equals <==> target.value == other.value
  {
    var copied := Assign(target, other);
    equals := ContourIsClose(copied, other);
    if copied.value == other.value {
      forall k | 0 <= k < |other.pointList|
        ensures copied.pointList[k].IsClose(other.pointList[k])
      {
        PointEqualImpliesClose(copied.pointList[k], other.pointList[k]);
      }
    }
  }
}
