/** Three-component vectors and closed axis-aligned boxes over the reals.
    The scene stores every coordinate as a single-precision float; here they
    are exact reals, so rounding is not part of the model. */
module Geometry {

  datatype Vec3 = Vec3(x: real, y: real, z: real) {

    function Plus(o: Vec3): (r: Vec3) {
      Vec3(x + o.x, y + o.y, z + o.z)
    }

    function Minus(o: Vec3): (r: Vec3) {
      Vec3(x - o.x, y - o.y, z - o.z)
    }

    /** Component-wise division by a scalar, as `Size / 2.0f`. */
    function Div(k: real): (r: Vec3)
      requires k != 0.0
    {
      Vec3(x / k, y / k, z / k)
    }

    /** The squared Euclidean length, `LengthSquared`. */
    function LengthSquared(): (r: real) {
      x * x + y * y + z * z
    }

    predicate NonNegative() {
      0.0 <= x && 0.0 <= y && 0.0 <= z
    }
  }

  const Zero := Vec3(0.0, 0.0, 0.0)

  /** `(a - b).Length <= r` for r >= 0, stated without a square root. */
  predicate WithinDistance(a: Vec3, b: Vec3, r: real)
    requires 0.0 <= r
  {
    a.Minus(b).LengthSquared() <= r * r
  }

  /** A box given by its two extreme corners. */
  datatype Box = Box(min: Vec3, max: Vec3) {

    predicate Contains(p: Vec3) {
      min.x <= p.x <= max.x && min.y <= p.y <= max.y && min.z <= p.z <= max.z
    }

    predicate Proper() {
      min.x <= max.x && min.y <= max.y && min.z <= max.z
    }
  }

  /** The box centred on `center` whose extent is `size`. */
  function BoxAt(center: Vec3, size: Vec3): (b: Box)
    ensures size.NonNegative() ==> b.Proper() && b.Contains(center)
    ensures b.max.Minus(b.min) == size
  {
    Box(center.Minus(size.Div(2.0)), center.Plus(size.Div(2.0)))
  }

  /** Closed intervals [lo1, hi1] and [lo2, hi2] have a point in common or
      touch; with lo <= hi on both sides this means they share a point. */
  predicate IntervalsMeet(lo1: real, hi1: real, lo2: real, hi2: real) {
    lo1 <= hi2 && hi1 >= lo2
  }

  /** The overlap test on all three axes, touching faces included. */
  predicate Overlap(a: Box, b: Box) {
    IntervalsMeet(a.min.x, a.max.x, b.min.x, b.max.x) &&
    IntervalsMeet(a.min.y, a.max.y, b.min.y, b.max.y) &&
    IntervalsMeet(a.min.z, a.max.z, b.min.z, b.max.z)
  }

  lemma OverlapSymmetric(a: Box, b: Box)
    ensures Overlap(a, b) == Overlap(b, a)
  {
  }

  /** Boxes that only share a face perpendicular to X still overlap. */
  lemma OverlapTouching(a: Box, b: Box)
    requires a.Proper() && b.Proper()
    requires a.max.x == b.min.x
    requires IntervalsMeet(a.min.y, a.max.y, b.min.y, b.max.y)
    requires IntervalsMeet(a.min.z, a.max.z, b.min.z, b.max.z)
    ensures Overlap(a, b)
  {
  }

  /** A gap on any single axis rules the overlap out. */
  lemma OverlapNeedsEveryAxis(a: Box, b: Box)
    requires a.max.x < b.min.x || b.max.x < a.min.x
          || a.max.y < b.min.y || b.max.y < a.min.y
          || a.max.z < b.min.z || b.max.z < a.min.z
    ensures !Overlap(a, b)
  {
  }

  lemma OverlapReflexive(a: Box)
    requires a.Proper()
    ensures Overlap(a, a)
  {
  }

  /** The meaning of the test: for proper boxes it holds exactly when the two
      closed boxes have a point in common. */
  lemma OverlapIffCommonPoint(a: Box, b: Box)
    requires a.Proper() && b.Proper()
    ensures Overlap(a, b) <==> exists p :: a.Contains(p) && b.Contains(p)
  {
    if Overlap(a, b) {
      var p := Vec3(Max(a.min.x, b.min.x), Max(a.min.y, b.min.y), Max(a.min.z, b.min.z));
      assert a.Contains(p) && b.Contains(p);
    }
  }

  function Max(u: real, v: real): (r: real) {
    if u < v then v else u
  }
}
