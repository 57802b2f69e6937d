/** The axis-aligned bounding box collider of AABBCollider.cs. */
module Colliders {
  import opened Geometry
  import opened Transforms

  class AABBCollider {
    /** Back-reference to the owning game object. It is typed `object?`
        because the game-object module imports this one. */
    var gameObject: object?

    var Center: Vec3
    var Size: Vec3
    var Min: Vec3
    var Max: Vec3

    /** The bounds are never stale: they are derived from centre and size. */
    ghost predicate Valid()
      reads this
    {
      Min == Center.Minus(Size.Div(2.0)) && Max == Center.Plus(Size.Div(2.0))
    }

    function Bounds(): (r: Box)
      reads this
    {
      Box(Min, Max)
    }

    /** For static objects: centre from the position, size from the scale.
        Both are copied: the collider does not follow later moves of the
        transform. */
    constructor (transform: Transform)
      ensures Valid()
      ensures Center == transform.Position && Size == transform.Scale && gameObject == null
      ensures Bounds() == BoxAt(transform.Position, transform.Scale)
    {
      Center := transform.Position;
      Size := transform.Scale;
      gameObject := null;
      new;
      CalculateBounds();
    }

    /** For moving objects: a fixed size, whatever the scale. */
    constructor Sized(transform: Transform, size: Vec3)
      ensures Valid()
      ensures Center == transform.Position && Size == size && gameObject == null
      ensures Bounds() == BoxAt(transform.Position, size)
    {
      Center := transform.Position;
      Size := size;
      gameObject := null;
      new;
      CalculateBounds();
    }

    method UpdatePosition(newCenter: Vec3)
      modifies this
      ensures Valid()
      ensures Center == newCenter && Size == old(Size) && gameObject == old(gameObject)
      ensures Bounds() == BoxAt(newCenter, Size)
    {
      Center := newCenter;
      CalculateBounds();
    }

    method CalculateBounds()
      modifies this`Min, this`Max
      ensures Valid()
    {
      Min := Center.Minus(Size.Div(2.0));
      Max := Center.Plus(Size.Div(2.0));
    }

    /** Inclusive overlap on all three axes. */
    function Intersects(other: AABBCollider): (r: bool)
      reads this, other
      ensures r == Overlap(Bounds(), other.Bounds())
      ensures Bounds().Proper() && other.Bounds().Proper() ==>
                (r <==> exists p :: Bounds().Contains(p) && other.Bounds().Contains(p))
    {
      OverlapIffCommonPointWhenProper(Bounds(), other.Bounds());
      (this.Min.x <= other.Max.x && this.Max.x >= other.Min.x) &&
      (this.Min.y <= other.Max.y && this.Max.y >= other.Min.y) &&
      (this.Min.z <= other.Max.z && this.Max.z >= other.Min.z)
    }

    /** The eight corners, in the order of the debug visualisation. */
    function GetCorners(): (cs: seq<Vec3>)
      reads this
      ensures |cs| == 8 && cs[0] == Min && cs[6] == Max
      ensures forall k :: 0 <= k < 8 ==>
                (cs[k].x == Min.x || cs[k].x == Max.x) &&
                (cs[k].y == Min.y || cs[k].y == Max.y) &&
                (cs[k].z == Min.z || cs[k].z == Max.z)
      ensures Bounds().Proper() ==> forall k :: 0 <= k < 8 ==> Bounds().Contains(cs[k])
      ensures Min.x != Max.x && Min.y != Max.y && Min.z != Max.z ==>
                forall j, k :: 0 <= j < k < 8 ==> cs[j] != cs[k]
    {
      [ Vec3(Min.x, Min.y, Min.z), Vec3(Max.x, Min.y, Min.z),
        Vec3(Max.x, Max.y, Min.z), Vec3(Min.x, Max.y, Min.z),
        Vec3(Min.x, Min.y, Max.z), Vec3(Max.x, Min.y, Max.z),
        Vec3(Max.x, Max.y, Max.z), Vec3(Min.x, Max.y, Max.z) ]
    }
  }

  lemma OverlapIffCommonPointWhenProper(a: Box, b: Box)
    ensures a.Proper() && b.Proper() ==> (Overlap(a, b) <==> exists p :: a.Contains(p) && b.Contains(p))
  {
    if a.Proper() && b.Proper() {
      OverlapIffCommonPoint(a, b);
    }
  }

  /** With a non-negative size the bounds are proper, so a valid collider
      always intersects itself. */
  lemma SelfIntersects(c: AABBCollider)
    requires c.Valid() && c.Size.NonNegative()
    ensures c.Intersects(c)
  {
    assert c.Bounds() == BoxAt(c.Center, c.Size);
    OverlapReflexive(c.Bounds());
  }

  lemma IntersectsSymmetric(a: AABBCollider, b: AABBCollider)
    ensures a.Intersects(b) == b.Intersects(a)
  {
    OverlapSymmetric(a.Bounds(), b.Bounds());
  }
}
