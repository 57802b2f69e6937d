/** The scene that RoomGenerator.cs builds, as a value: what each generated
    object is (tag, position, scale, attached components), in the order it is
    appended, as a function of the random draws the generator consumes.

    Randomness is a sequence of draws, each a value in [0, 1) as returned by
    `NextDouble`. `Next(lo, hi)` consumes one draw d and yields
    lo + floor(d * (hi - lo)), the way the seeded System.Random maps its
    sample onto an integer range. Running out of draws makes a plan None:
    only a finite prefix of the generator's stream is modelled. */
module Layout {
  import opened Geometry
  import opened Optional

  const RoomSize := 3.0
  const RoomHeight := 2.5
  const WallThickness := 0.2
  const DoorWidth := 1.0
  const DoorHeight := 2.0

  /** A component a generated object is given, in the order it is added:
      a renderer, a collider sized to the scale and centred on the position,
      or a closed door component. */
  datatype Part = Drawn | Solid | Hinged(vertical: bool)

  datatype Placed = Placed(tag: string, position: Vec3, scale: Vec3, parts: seq<Part>)

  /** Draws consumed so far lie in [0, 1). */
  predicate Unit(s: seq<real>) {
    forall i :: 0 <= i < |s| ==> 0.0 <= s[i] < 1.0
  }

  /** `Next(lo, hi)` applied to the draw d: within [lo, hi) for a draw in
      [0, 1). */
  function NextIn(d: real, lo: int, hi: int): (v: int)
    ensures 0.0 <= d < 1.0 && lo < hi ==> lo <= v < hi
  {
    var w := (hi - lo) as real;
    var f := (d * w).Floor;
    assert 0.0 <= d < 1.0 && lo < hi ==> 0.0 <= d * w < w;
    lo + f
  }

  // ---- The grid ----------------------------------------------------------

  predicate InGrid(x: int, z: int) {
    -1 <= x <= 1 && -1 <= z <= 1
  }

  /** Rooms are visited with x in the outer loop and z in the inner one,
      each from -1 to 1; room n of that order is (RoomX(n), RoomZ(n)). */
  function RoomX(n: nat): (r: int) {
    n / 3 - 1
  }

  function RoomZ(n: nat): (r: int) {
    n % 3 - 1
  }

  function RoomCenter(x: int, z: int): (r: Vec3) {
    Vec3(x as real * RoomSize, 0.0, z as real * RoomSize)
  }

  // ---- Floors ------------------------------------------------------------

  function FloorAt(x: int, z: int): (r: Placed) {
    Placed("Floor", RoomCenter(x, z), Vec3(RoomSize, 0.1, RoomSize), [Drawn])
  }

  /** The floor of every room, in generation order. */
  function Floors(): (r: seq<Placed>) {
    seq(9, n requires 0 <= n => FloorAt(RoomX(n), RoomZ(n)))
  }

  /** Nine floors, one per room, each a thin 3 x 3 tile with a renderer and
      no collider. */
  lemma FloorLayout()
    ensures |Floors()| == 9
    ensures forall k :: 0 <= k < 9 ==>
              Floors()[k].tag == "Floor" && Floors()[k].parts == [Drawn] &&
              Floors()[k].scale == Vec3(3.0, 0.1, 3.0)
    ensures forall x, z :: InGrid(x, z) ==>
              exists k :: 0 <= k < 9 && Floors()[k].position == Vec3(3.0 * x as real, 0.0, 3.0 * z as real)
    ensures forall j, k :: 0 <= j < k < 9 ==> Floors()[j].position != Floors()[k].position
  {
    forall x, z | InGrid(x, z)
      ensures exists k :: 0 <= k < 9 && Floors()[k].position == Vec3(3.0 * x as real, 0.0, 3.0 * z as real)
    {
      var k := 3 * (x + 1) + (z + 1);
      assert RoomX(k) == x && RoomZ(k) == z;
      assert Floors()[k] == FloorAt(x, z);
    }
    forall j, k | 0 <= j < k < 9
      ensures Floors()[j].position != Floors()[k].position
    {
      assert RoomX(j) != RoomX(k) || RoomZ(j) != RoomZ(k);
    }
  }

  // ---- Walls and doors ---------------------------------------------------

  function WallPiece(position: Vec3, scale: Vec3): (r: Placed) {
    Placed("Wall", position, scale, [Drawn, Solid])
  }

  function DoorPiece(position: Vec3, scale: Vec3, vertical: bool): (r: Placed) {
    Placed("Door", position, scale, [Drawn, Solid, Hinged(vertical)])
  }

  /** North, south, east and west boundary walls, without doors. */
  function OuterWalls(): (r: seq<Placed>) {
    var edge := 1.5 * RoomSize;
    [ WallPiece(Vec3(0.0, RoomHeight / 2.0, edge), Vec3(RoomSize * 3.0, RoomHeight, WallThickness)),
      WallPiece(Vec3(0.0, RoomHeight / 2.0, -edge), Vec3(RoomSize * 3.0, RoomHeight, WallThickness)),
      WallPiece(Vec3(edge, RoomHeight / 2.0, 0.0), Vec3(WallThickness, RoomHeight, RoomSize * 3.0)),
      WallPiece(Vec3(-edge, RoomHeight / 2.0, 0.0), Vec3(WallThickness, RoomHeight, RoomSize * 3.0)) ]
  }

  function SideLength(): (r: real) {
    (RoomSize - DoorWidth) / 2.0
  }

  /** The two wall segments and the door of one internal wall. A vertical
      wall runs along Z, a horizontal one along X. */
  function WallWithDoor(center: Vec3, vertical: bool): (r: seq<Placed>) {
    var side := SideLength();
    if vertical then
      [ WallPiece(center.Plus(Vec3(0.0, 0.0, -DoorWidth / 2.0 - side / 2.0)), Vec3(WallThickness, RoomHeight, side)),
        WallPiece(center.Plus(Vec3(0.0, 0.0, DoorWidth / 2.0 + side / 2.0)), Vec3(WallThickness, RoomHeight, side)),
        DoorPiece(center, Vec3(WallThickness, DoorHeight, DoorWidth), true) ]
    else
      [ WallPiece(center.Plus(Vec3(-DoorWidth / 2.0 - side / 2.0, 0.0, 0.0)), Vec3(side, RoomHeight, WallThickness)),
        WallPiece(center.Plus(Vec3(DoorWidth / 2.0 + side / 2.0, 0.0, 0.0)), Vec3(side, RoomHeight, WallThickness)),
        DoorPiece(center, Vec3(DoorWidth, DoorHeight, WallThickness), false) ]
  }

  /** The centre of internal wall m, in generation order: vertical walls at
      x = -1.5 then x = 1.5 (z = -1, 0, 1 each), then horizontal walls at
      z = -1.5 then z = 1.5 (x = -1, 0, 1 each). */
  function UnitCenter(m: nat): (r: Vec3) {
    var h := RoomHeight / 2.0;
    var half := RoomSize / 2.0;
    if m < 3 then Vec3(-half, h, (m - 1) as real * RoomSize)
    else if m < 6 then Vec3(half, h, (m - 4) as real * RoomSize)
    else if m < 9 then Vec3((m - 7) as real * RoomSize, h, -half)
    else Vec3((m - 10) as real * RoomSize, h, half)
  }

  function UnitVertical(m: nat): (r: bool) {
    m < 6
  }

  /** The twelve internal walls, three pieces each, in generation order. */
  function Units(): (r: seq<Placed>) {
    seq(36, k requires 0 <= k => WallWithDoor(UnitCenter(k / 3), UnitVertical(k / 3))[k % 3])
  }

  function WallLayout(): (r: seq<Placed>) {
    OuterWalls() + Units()
  }

  /** The outer walls enclose the whole 9 x 9 grid at 4.5 m from the centre,
      each spanning the full 9 m, with a collider and no door. */
  lemma OuterWallLayout()
    ensures |OuterWalls()| == 4
    ensures forall k :: 0 <= k < 4 ==>
              OuterWalls()[k].tag == "Wall" && OuterWalls()[k].parts == [Drawn, Solid] &&
              OuterWalls()[k].position.y == 1.25
    ensures OuterWalls()[0].position.z == 4.5 && OuterWalls()[1].position.z == -4.5
    ensures OuterWalls()[2].position.x == 4.5 && OuterWalls()[3].position.x == -4.5
    ensures OuterWalls()[0].scale.x == 9.0 && OuterWalls()[1].scale.x == 9.0
    ensures OuterWalls()[2].scale.z == 9.0 && OuterWalls()[3].scale.z == 9.0
  {
  }

  /** The extent of a piece along the axis its wall runs on. */
  function AlongLo(p: Placed, vertical: bool): (r: real) {
    if vertical then p.position.z - p.scale.z / 2.0 else p.position.x - p.scale.x / 2.0
  }

  function AlongHi(p: Placed, vertical: bool): (r: real) {
    if vertical then p.position.z + p.scale.z / 2.0 else p.position.x + p.scale.x / 2.0
  }

  function Across(p: Placed, vertical: bool): (r: real) {
    if vertical then p.position.x else p.position.z
  }

  /** Segment, door and segment tile the room side [c - 1.5, c + 1.5] with no
      gap and no overlap, all on the wall's line; the door is 1 m wide and
      carries a collider and a closed door component. */
  lemma WallWithDoorTiles(c: Vec3, vertical: bool)
    ensures var w := WallWithDoor(c, vertical);
      var mid := if vertical then c.z else c.x;
      |w| == 3 && w[0].tag == "Wall" && w[1].tag == "Wall" && w[2].tag == "Door" &&
      AlongLo(w[0], vertical) == mid - RoomSize / 2.0 &&
      AlongHi(w[0], vertical) == AlongLo(w[2], vertical) &&
      AlongHi(w[2], vertical) == AlongLo(w[1], vertical) &&
      AlongHi(w[1], vertical) == mid + RoomSize / 2.0 &&
      AlongHi(w[2], vertical) - AlongLo(w[2], vertical) == DoorWidth &&
      AlongHi(w[0], vertical) - AlongLo(w[0], vertical) == 1.0 &&
      var line := if vertical then c.x else c.z;
      Across(w[0], vertical) == line && Across(w[1], vertical) == line && Across(w[2], vertical) == line &&
      w[0].parts == [Drawn, Solid] && w[1].parts == [Drawn, Solid] &&
      w[2].parts == [Drawn, Solid, Hinged(vertical)] && w[2].position == c
  {
  }

  /** Rooms (x1, z1) and (x2, z2) are neighbours, the second east or north
      of the first. */
  predicate Adjacent(x1: int, z1: int, x2: int, z2: int) {
    InGrid(x1, z1) && InGrid(x2, z2) &&
    ((x2 == x1 + 1 && z2 == z1) || (x2 == x1 && z2 == z1 + 1))
  }

  /** p is a door standing midway between the centres of the two rooms,
      that is, in the middle of their shared wall. */
  predicate DoorBetween(p: Placed, x1: int, z1: int, x2: int, z2: int) {
    p.tag == "Door" &&
    p.position.x == (x1 + x2) as real * RoomSize / 2.0 &&
    p.position.z == (z1 + z2) as real * RoomSize / 2.0
  }

  /** The doors are exactly the third piece of each internal wall. */
  lemma DoorsOfWallLayout(k: nat)
    requires k < 40
    ensures |WallLayout()| == 40
    ensures WallLayout()[k].tag == "Door" <==> 4 <= k && (k - 4) % 3 == 2
    ensures WallLayout()[k].tag == "Door" ==> WallLayout()[k].position == UnitCenter((k - 4) / 3)
  {
  }

  /** The internal wall between two neighbouring rooms. */
  function UnitBetween(x1: int, z1: int, x2: int, z2: int): (m: nat)
    requires Adjacent(x1, z1, x2, z2)
    ensures m < 12
    ensures UnitCenter(m).x == (x1 + x2) as real * RoomSize / 2.0
    ensures UnitCenter(m).z == (z1 + z2) as real * RoomSize / 2.0
  {
    if x2 == x1 + 1 then (if x1 == -1 then 0 else 3) + (z1 + 1)
    else (if z1 == -1 then 6 else 9) + (x1 + 1)
  }

  /** No two internal walls share a centre. */
  lemma UnitCenterInjective(m1: nat, m2: nat)
    requires m1 < 12 && m2 < 12
    requires UnitCenter(m1).x == UnitCenter(m2).x && UnitCenter(m1).z == UnitCenter(m2).z
    ensures m1 == m2
  {
  }

  /** Connectivity: every pair of neighbouring rooms has exactly one door on
      its shared wall. */
  lemma OneDoorPerAdjacentPair(x1: int, z1: int, x2: int, z2: int)
    requires Adjacent(x1, z1, x2, z2)
    ensures exists k :: 0 <= k < |WallLayout()| && DoorBetween(WallLayout()[k], x1, z1, x2, z2)
    ensures forall j, k ::
              (0 <= j < |WallLayout()| && 0 <= k < |WallLayout()| &&
               DoorBetween(WallLayout()[j], x1, z1, x2, z2) &&
               DoorBetween(WallLayout()[k], x1, z1, x2, z2)) ==> j == k
  {
    var m := UnitBetween(x1, z1, x2, z2);
    var k := 4 + 3 * m + 2;
    DoorsOfWallLayout(k);
    assert (k - 4) / 3 == m;
    assert DoorBetween(WallLayout()[k], x1, z1, x2, z2);
    forall j | 0 <= j < 40 && DoorBetween(WallLayout()[j], x1, z1, x2, z2)
      ensures j == k
    {
      DoorsOfWallLayout(j);
      UnitCenterInjective((j - 4) / 3, m);
    }
  }

  /** Every door joins two neighbouring rooms: there are twelve, one for each
      of the twelve neighbouring pairs. */
  lemma EveryDoorJoinsNeighbours(k: nat)
    requires k < |WallLayout()| && WallLayout()[k].tag == "Door"
    ensures exists x1, z1, x2, z2 :: Adjacent(x1, z1, x2, z2) && DoorBetween(WallLayout()[k], x1, z1, x2, z2)
  {
    DoorsOfWallLayout(k);
    var m := (k - 4) / 3;
    var p := WallLayout()[k];
    assert p.position == UnitCenter(m);
    if m < 3 {
      assert Adjacent(-1, m - 1, 0, m - 1) && DoorBetween(p, -1, m - 1, 0, m - 1);
    } else if m < 6 {
      assert Adjacent(0, m - 4, 1, m - 4) && DoorBetween(p, 0, m - 4, 1, m - 4);
    } else if m < 9 {
      assert Adjacent(m - 7, -1, m - 7, 0) && DoorBetween(p, m - 7, -1, m - 7, 0);
    } else {
      assert Adjacent(m - 10, 0, m - 10, 1) && DoorBetween(p, m - 10, 0, m - 10, 1);
    }
  }

  /** Generated doors stand 1.25 m up, never at the origin, so the zero
      sentinel of the door component never misfires on them. */
  lemma DoorsAwayFromOrigin(k: nat)
    requires k < |WallLayout()| && WallLayout()[k].tag == "Door"
    ensures WallLayout()[k].position.y == 1.25 && WallLayout()[k].position != Zero
  {
    DoorsOfWallLayout(k);
  }

  // ---- Obstacles ---------------------------------------------------------

  /** An offset from the room centre drawn from d: (d - 0.5) * (3 - 1). */
  function Offset(d: real): (r: real) {
    (d - 0.5) * (RoomSize - 1.0)
  }

  function PillarAt(center: Vec3, dx: real, dz: real): (r: Placed) {
    Placed("Pillar", center.Plus(Vec3(Offset(dx), RoomHeight / 2.0, Offset(dz))),
           Vec3(0.5, RoomHeight, 0.5), [Drawn, Solid])
  }

  function CubeSize(d: real): (r: real) {
    d * 0.3 + 0.3
  }

  function CubeAt(center: Vec3, size: real, dx: real, dz: real): (r: Placed) {
    Placed("Obstacle", center.Plus(Vec3(Offset(dx), size / 2.0, Offset(dz))),
           Vec3(size, size, size), [Drawn, Solid])
  }

  /** What has been placed so far and the draws left, or None once the draws
      ran out. */
  type Plan = Option<(seq<Placed>, seq<real>)>

  function Prepend(ps: seq<Placed>, r: Plan): (q: Plan) {
    match r
    case None => None
    case Some((placed, s)) => Some((ps + placed, s))
  }

  /** A pillar with probability one half, at a random offset. */
  function PillarPlan(center: Vec3, s: seq<real>): (r: Plan) {
    if |s| == 0 then None
    else if s[0] < 0.5 then
      if |s| < 3 then None else Some(([PillarAt(center, s[1], s[2])], s[3..]))
    else Some(([], s[1..]))
  }

  /** n cubes (none when n <= 0), each from three draws: size, x and z offset. */
  function CubesPlan(center: Vec3, n: int, s: seq<real>): (r: Plan)
    decreases n
  {
    if n <= 0 then Some(([], s))
    else if |s| < 3 then None
    else Prepend([CubeAt(center, CubeSize(s[0]), s[1], s[2])], CubesPlan(center, n - 1, s[3..]))
  }

  /** The obstacles of the room centred on `center`: the pillar draw, then
      the cube count, then the cubes. */
  function ObstaclesPlan(center: Vec3, s: seq<real>): (r: Plan) {
    match PillarPlan(center, s)
    case None => None
    case Some((p, s1)) =>
      if |s1| == 0 then None
      else Prepend(p, CubesPlan(center, NextIn(s1[0], 0, 3), s1[1..]))
  }

  /** The obstacles of room (x, z) and of every room after it, x in the
      outer loop and z in the inner one, each from -1 to 1, skipping the
      centre room. */
  function RoomsFrom(x: int, z: int, s: seq<real>): (r: Plan)
    decreases 2 - x, 2 - z
  {
    if x > 1 then Some(([], s))
    else if z > 1 then RoomsFrom(x + 1, -1, s)
    else if x == 0 && z == 0 then RoomsFrom(x, z + 1, s)
    else match ObstaclesPlan(RoomCenter(x, z), s)
      case None => None
      case Some((q, s1)) => Prepend(q, RoomsFrom(x, z + 1, s1))
  }

  /** The obstacles of all eight outer rooms. */
  function RoomsPlan(s: seq<real>): (r: Plan) {
    RoomsFrom(-1, -1, s)
  }

  /** A pillar of the room centred on c: 0.5 x 2.5 x 0.5, standing on the
      floor, within [-1, 1) of the centre on both horizontal axes, with a
      collider. */
  predicate PillarIn(p: Placed, c: Vec3) {
    p.tag == "Pillar" && p.scale == Vec3(0.5, 2.5, 0.5) && p.parts == [Drawn, Solid] &&
    p.position.y == 1.25 &&
    -1.0 <= p.position.x - c.x < 1.0 && -1.0 <= p.position.z - c.z < 1.0
  }

  /** A cube of the room centred on c: edge in [0.3, 0.6), resting on the
      floor, within [-1, 1) of the centre on both horizontal axes, with a
      collider. */
  predicate CubeIn(p: Placed, c: Vec3) {
    var size := p.scale.x;
    p.tag == "Obstacle" && 0.3 <= size < 0.6 && p.scale == Vec3(size, size, size) &&
    p.parts == [Drawn, Solid] && p.position.y == size / 2.0 &&
    -1.0 <= p.position.x - c.x < 1.0 && -1.0 <= p.position.z - c.z < 1.0
  }

  lemma UnitSuffix(s: seq<real>, k: nat)
    requires Unit(s) && k <= |s|
    ensures Unit(s[k..])
  {
    forall i | 0 <= i < |s| - k
      ensures 0.0 <= s[k..][i] < 1.0
    {
      assert s[k..][i] == s[k + i];
    }
  }

  lemma {:induction false} CubesPlanShape(c: Vec3, count: int, s: seq<real>)
    requires c.y == 0.0 && Unit(s) && CubesPlan(c, count, s).Some?
    ensures var (q, rest) := CubesPlan(c, count, s).value;
      Unit(rest) && |q| == (if count <= 0 then 0 else count) &&
      forall i :: 0 <= i < |q| ==> CubeIn(q[i], c)
    decreases count
  {
    if count > 0 {
      UnitSuffix(s, 3);
      CubesPlanShape(c, count - 1, s[3..]);
    }
  }

  /** Each room gets at most one pillar, placed first, then at most two
      cubes, all on the floor of the room centred on c. */
  lemma ObstaclesShape(c: Vec3, s: seq<real>)
    requires c.y == 0.0 && Unit(s) && ObstaclesPlan(c, s).Some?
    ensures var (q, rest) := ObstaclesPlan(c, s).value;
      Unit(rest) && |q| <= 3 &&
      (|q| > 0 ==> PillarIn(q[0], c) || CubeIn(q[0], c)) &&
      (forall i :: 0 < i < |q| ==> CubeIn(q[i], c)) &&
      (|q| == 3 ==> PillarIn(q[0], c))
  {
    var (p, s1) := PillarPlan(c, s).value;
    UnitSuffix(s, |s| - |s1|);
    assert s1 == s[|s| - |s1|..];
    UnitSuffix(s1, 1);
    var count := NextIn(s1[0], 0, 3);
    CubesPlanShape(c, count, s1[1..]);
    var q := ObstaclesPlan(c, s).value.0;
    assert q == p + CubesPlan(c, count, s1[1..]).value.0;
    assert forall i :: 0 <= i < |p| ==> PillarIn(q[i], c);
  }

  /** `p` is a pillar or a cube of one of the eight outer rooms. */
  predicate InOuterRoom(p: Placed) {
    exists x, z :: -1 <= x <= 1 && -1 <= z <= 1 && !(x == 0 && z == 0) &&
                   (PillarIn(p, RoomCenter(x, z)) || CubeIn(p, RoomCenter(x, z)))
  }

  /** Every obstacle of the rooms from (x, z) on belongs to an outer room. */
  lemma {:induction false} RoomsFromShape(x: int, z: int, s: seq<real>)
    requires -1 <= x && -1 <= z && Unit(s) && RoomsFrom(x, z, s).Some?
    ensures Unit(RoomsFrom(x, z, s).value.1)
    ensures var q := RoomsFrom(x, z, s).value.0;
      forall i :: 0 <= i < |q| ==> InOuterRoom(q[i])
    decreases 2 - x, 2 - z
  {
    if x > 1 {
    } else if z > 1 {
      RoomsFromShape(x + 1, -1, s);
    } else if x == 0 && z == 0 {
      RoomsFromShape(x, z + 1, s);
    } else {
      var c := RoomCenter(x, z);
      ObstaclesShape(c, s);
      var (q1, s1) := ObstaclesPlan(c, s).value;
      RoomsFromShape(x, z + 1, s1);
      var q2 := RoomsFrom(x, z + 1, s1).value.0;
      var q := RoomsFrom(x, z, s).value.0;
      assert q == q1 + q2;
      forall i | 0 <= i < |q|
        ensures InOuterRoom(q[i])
      {
        if i < |q1| {
          assert PillarIn(q[i], c) || CubeIn(q[i], c);
        } else {
          assert q[i] == q2[i - |q1|];
        }
      }
    }
  }

  /** Nothing is placed in the centre room, where the player starts: every
      obstacle stands outside its 3 x 3 footprint. */
  lemma NothingInCentreRoom(s: seq<real>)
    requires Unit(s) && RoomsPlan(s).Some?
    ensures forall p :: p in RoomsPlan(s).value.0 ==>
              p.tag != "Goal" &&
              !(-1.5 <= p.position.x <= 1.5 && -1.5 <= p.position.z <= 1.5)
  {
    RoomsFromShape(-1, -1, s);
    var q := RoomsPlan(s).value.0;
    forall p | p in q
      ensures p.tag != "Goal" && !(-1.5 <= p.position.x <= 1.5 && -1.5 <= p.position.z <= 1.5)
    {
      var i :| 0 <= i < |q| && q[i] == p;
      assert InOuterRoom(q[i]);
    }
  }

  // ---- Goal --------------------------------------------------------------

  function GoalAt(x: int, z: int): (r: Placed) {
    Placed("Goal", Vec3(x as real * RoomSize, 0.5, z as real * RoomSize), Vec3(0.5, 0.5, 0.5), [Drawn])
  }

  /** Pick a room by two draws, again while the pick is the centre room. */
  function GoalPlan(s: seq<real>): (r: Option<(Placed, seq<real>)>)
    decreases |s|
    ensures r.Some? ==> r.value.0.tag == "Goal"
    ensures Unit(s) && r.Some? ==>
              Unit(r.value.1) &&
              exists x, z :: -1 <= x <= 1 && -1 <= z <= 1 && !(x == 0 && z == 0) && r.value.0 == GoalAt(x, z)
  {
    if |s| < 2 then None
    else
      var x := NextIn(s[0], -1, 2);
      var z := NextIn(s[1], -1, 2);
      if x == 0 && z == 0 then GoalPlan(s[2..])
      else Some((GoalAt(x, z), s[2..]))
  }

  // ---- The whole scene -----------------------------------------------------

  /** Floors, then walls, then obstacles, then the goal. */
  function ScenePlan(s: seq<real>): (r: Option<(seq<Placed>, Placed, seq<real>)>)
    ensures r.Some? ==>
              var placed := r.value.0;
              var fixed := |Floors()| + |WallLayout()|;
              fixed < |placed| && placed[..fixed] == Floors() + WallLayout() &&
              placed[|placed| - 1] == r.value.1 && r.value.1.tag == "Goal"
  {
    match RoomsPlan(s)
    case None => None
    case Some((obstacles, s1)) =>
      match GoalPlan(s1)
      case None => None
      case Some((goal, s2)) =>
        var fixed := Floors() + WallLayout();
        var placed := fixed + obstacles + [goal];
        assert placed[..|fixed|] == fixed;
        Some((placed, goal, s2))
  }
}
