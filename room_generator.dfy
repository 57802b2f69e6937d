/** The room generator of RoomGenerator.cs: the methods that build the scene
    object by object, each proved to build exactly what the plan in module
    Layout describes for the random draws it consumes.

    The caller's `List<GameObject>` is passed to every builder as a sequence
    and handed back with the new objects appended: the generator only ever
    appends to it. */
module Generator {
  import opened Geometry
  import opened Optional
  import opened Transforms
  import opened Colliders
  import opened Entities
  import opened Layout

  /** Component `c` of object `o` is the part `part` of the planned object
      `p`: a renderer, a collider over the planned box, or a closed door that
      has not captured its positions yet, each linked back to `o`. */
  ghost predicate Fits(o: GameObject, c: Component, p: Placed, part: Part)
    reads if c.Linked() then {c.Target()} else {}
  {
    match part
    case Drawn => c.RendererC? && c.renderer.gameObject == o
    case Solid =>
      c.ColliderC? && c.collider.gameObject == o && c.collider.Valid() &&
      c.collider.Center == p.position && c.collider.Size == p.scale
    case Hinged(vertical) =>
      c.DoorC? && c.door.gameObject == o && !c.door.IsOpen && c.door.IsVertical == vertical &&
      c.door.ClosedPosition == Zero && c.door.openPosition == Zero
  }

  /** Game object `o` has the tag, position and scale of `p`, and no
      rotation. */
  ghost predicate Placement(o: GameObject, p: Placed)
    reads o, o.transform
  {
    o.tag == p.tag && o.transform.Position == p.position && o.transform.Rotation == Zero &&
    o.transform.Scale == p.scale
  }

  /** Game object `o` is the planned object `p`: placed as planned, with one
      fitting component per planned part, in order. */
  ghost predicate Realises(o: GameObject, p: Placed)
    reads o, o.transform, ObjectsOf(o.components)
  {
    Placement(o, p) && |o.components| == |p.parts| &&
    forall i :: 0 <= i < |p.parts| ==> Fits(o, o.components[i], p, p.parts[i])
  }

  lemma RealisesDrawn(o: GameObject, p: Placed, r: Renderer)
    requires p.parts == [Drawn] && Placement(o, p)
    requires o.components == [RendererC(r)] && r.gameObject == o
    ensures Realises(o, p)
  {
  }

  lemma RealisesSolid(o: GameObject, p: Placed, r: Renderer, c: AABBCollider)
    requires p.parts == [Drawn, Solid] && Placement(o, p)
    requires o.components == [RendererC(r), ColliderC(c)] && r.gameObject == o
    requires c.gameObject == o && c.Valid() && c.Center == p.position && c.Size == p.scale
    ensures Realises(o, p)
  {
  }

  lemma RealisesHinged(o: GameObject, p: Placed, r: Renderer, c: AABBCollider, d: Door)
    requires p.parts == [Drawn, Solid, Hinged(d.IsVertical)] && Placement(o, p)
    requires o.components == [RendererC(r), ColliderC(c), DoorC(d)] && r.gameObject == o
    requires c.gameObject == o && c.Valid() && c.Center == p.position && c.Size == p.scale
    requires d.gameObject == o && !d.IsOpen && d.ClosedPosition == Zero && d.openPosition == Zero
    ensures Realises(o, p)
  {
  }

  /** Game object `o`, its transform and its components all lie in `fr`. */
  ghost predicate Within(o: GameObject, fr: set<object>)
    reads fr
  {
    o in fr && o.transform in fr &&
    forall c :: c in o.components && c.Linked() ==> c.Target() in fr
  }

  /** Object i of `objs` realises planned object i of `ps` and is made of
      objects in `fr`. */
  ghost predicate RealisesAt(objs: seq<GameObject>, ps: seq<Placed>, i: int, fr: set<object>)
    reads fr
  {
    0 <= i < |objs| && i < |ps| && Within(objs[i], fr) && Realises(objs[i], ps[i])
  }

  /** The objects `objs` realise the planned objects `ps` one by one, and are
      made of objects in `fr`. */
  ghost predicate Realised(objs: seq<GameObject>, ps: seq<Placed>, fr: set<object>)
    reads fr
  {
    |objs| == |ps| && forall i :: 0 <= i < |ps| ==> RealisesAt(objs, ps, i, fr)
  }

  /** `now` is `before` with one object appended per planned object of `ps`,
      each realising it and made of objects in `fr`. This is Extends with its
      footprint named: the builders hand the footprint of what they built
      back to their caller. */
  ghost predicate Built(now: seq<GameObject>, before: seq<GameObject>, ps: seq<Placed>, fr: set<object>)
    reads fr
  {
    |before| <= |now| && now[..|before|] == before && Realised(now[|before|..], ps, fr)
  }

  /** The objects, other than the game objects themselves, whose fields
      say what a list of game objects is. */
  ghost function Frame(objs: seq<GameObject>): (r: set<object>)
    reads objs
  {
    (set o | o in objs :: o.transform) +
    (set o, c | o in objs && c in o.components && c.Linked() :: c.Target())
  }

  /** The generator itself is none of the objects a scene is made of, so
      consuming its draws changes nothing the scene says. */
  lemma OutsideFrame(g: RoomGenerator, objs: seq<GameObject>)
    ensures g !in Frame(objs)
  {
  }

  /** `now` is `before` with one object appended per planned object of `ps`,
      each realising it. */
  ghost predicate Extends(now: seq<GameObject>, before: seq<GameObject>, ps: seq<Placed>)
    reads now, Frame(now)
  {
    |now| == |before| + |ps| && now[..|before|] == before &&
    forall i :: 0 <= i < |ps| ==> Realises(now[|before| + i], ps[i])
  }

  lemma BuiltExtends(now: seq<GameObject>, before: seq<GameObject>, ps: seq<Placed>, fr: set<object>)
    requires Built(now, before, ps, fr)
    ensures Extends(now, before, ps)
  {
    var added := now[|before|..];
    forall i | 0 <= i < |ps|
      ensures Realises(now[|before| + i], ps[i])
    {
      assert RealisesAt(added, ps, i, fr);
      assert added[i] == now[|before| + i];
    }
  }

  /** A single object that realises `p`, appended. */
  lemma BuiltOne(before: seq<GameObject>, o: GameObject, p: Placed)
    requires Realises(o, p)
    ensures Built(before + [o], before, [p], o.Parts())
  {
    assert (before + [o])[|before|..] == [o];
    assert RealisesAt([o], [p], 0, o.Parts());
  }

  lemma RealisedAppend(a: seq<GameObject>, b: seq<GameObject>, ps: seq<Placed>, qs: seq<Placed>,
                       f1: set<object>, f2: set<object>)
    requires Realised(a, ps, f1) && Realised(b, qs, f2)
    ensures Realised(a + b, ps + qs, f1 + f2)
  {
    forall i | 0 <= i < |ps + qs|
      ensures RealisesAt(a + b, ps + qs, i, f1 + f2)
    {
      if i < |ps| {
        assert RealisesAt(a, ps, i, f1);
        assert (a + b)[i] == a[i] && (ps + qs)[i] == ps[i];
      } else {
        assert RealisesAt(b, qs, i - |ps|, f2);
        assert (a + b)[i] == b[i - |ps|] && (ps + qs)[i] == qs[i - |ps|];
      }
    }
  }

  lemma BuiltTrans(now: seq<GameObject>, mid: seq<GameObject>, before: seq<GameObject>,
                   ps: seq<Placed>, qs: seq<Placed>, f1: set<object>, f2: set<object>)
    requires Built(mid, before, ps, f1) && Built(now, mid, qs, f2)
    ensures Built(now, before, ps + qs, f1 + f2)
  {
    assert now[..|before|] == mid[..|mid|][..|before|];
    assert now[|before|..] == mid[|before|..] + now[|mid|..];
    RealisedAppend(mid[|before|..], now[|mid|..], ps, qs, f1, f2);
  }

  lemma BuiltNothing(now: seq<GameObject>)
    ensures Built(now, now, [], {})
  {
  }

  lemma PrependPrepend(ps: seq<Placed>, qs: seq<Placed>, r: Plan)
    ensures Prepend(ps, Prepend(qs, r)) == Prepend(ps + qs, r)
  {
    if r.Some? {
      assert ps + (qs + r.value.0) == (ps + qs) + r.value.0;
    }
  }

  lemma PrependNothing(r: Plan)
    ensures Prepend([], r) == r
  {
    if r.Some? {
      assert [] + r.value.0 == r.value.0;
    }
  }

  /** Floors, walls, obstacles and goal, built one after the other, make up
      the whole scene. */
  lemma SceneBuilt(scene: seq<GameObject>, obstacles: seq<GameObject>, walls: seq<GameObject>,
                   before: seq<GameObject>, draws: seq<real>,
                   f2: set<object>, f3: set<object>, f4: set<object>)
    requires Unit(draws)
    requires Built(walls, before, Floors() + WallLayout(), f2)
    requires RoomsPlan(draws).Some? && Built(obstacles, walls, RoomsPlan(draws).value.0, f3)
    requires GoalPlan(RoomsPlan(draws).value.1).Some?
    requires Built(scene, obstacles, [GoalPlan(RoomsPlan(draws).value.1).value.0], f4)
    ensures ScenePlan(draws).Some? && Unit(ScenePlan(draws).value.2)
    ensures ScenePlan(draws).value.2 == GoalPlan(RoomsPlan(draws).value.1).value.1
    ensures Extends(scene, before, ScenePlan(draws).value.0)
  {
    var planned := RoomsPlan(draws).value.0;
    var goal := GoalPlan(RoomsPlan(draws).value.1).value.0;
    RoomsFromShape(-1, -1, draws);
    BuiltTrans(obstacles, walls, before, Floors() + WallLayout(), planned, f2, f3);
    BuiltTrans(scene, obstacles, before, Floors() + WallLayout() + planned, [goal], f2 + f3, f4);
    BuiltExtends(scene, before, Floors() + WallLayout() + planned + [goal], f2 + f3 + f4);
  }

  /** The walk skips the centre room. */
  lemma RoomsFromSkip(s: seq<real>)
    ensures RoomsFrom(0, 0, s) == RoomsFrom(0, 1, s)
  {
  }

  /** Past the last room of a row the walk goes on with the next row. */
  lemma RoomsFromRow(x: int, s: seq<real>)
    requires x <= 1
    ensures RoomsFrom(x, 2, s) == RoomsFrom(x + 1, -1, s)
  {
  }

  /** An outer room contributes its obstacles, then the walk goes on. */
  lemma RoomsFromStep(x: int, z: int, s: seq<real>)
    requires InGrid(x, z) && !(x == 0 && z == 0)
    ensures RoomsFrom(x, z, s) ==
              match ObstaclesPlan(RoomCenter(x, z), s)
              case None => None
              case Some((q, s1)) => Prepend(q, RoomsFrom(x, z + 1, s1))
  {
  }

  /** Once the draws run out for the obstacles or the goal, there is no
      scene. */
  lemma SceneFails(draws: seq<real>)
    requires RoomsPlan(draws).None? || GoalPlan(RoomsPlan(draws).value.1).None?
    ensures ScenePlan(draws).None?
  {
  }

  /** Appending an object that realises the next planned object of `all`
      extends the built prefix of `all` by one. */
  lemma BuiltSnoc(now: seq<GameObject>, mid: seq<GameObject>, before: seq<GameObject>,
                  all: seq<Placed>, k: nat, f1: set<object>, f2: set<object>)
    requires k < |all|
    requires Built(mid, before, all[..k], f1) && Built(now, mid, [all[k]], f2)
    ensures Built(now, before, all[..k + 1], f1 + f2)
  {
    BuiltTrans(now, mid, before, all[..k], [all[k]], f1, f2);
    assert all[..k] + [all[k]] == all[..k + 1];
  }

  lemma FloorIndex(x: int, z: int)
    requires InGrid(x, z)
    ensures 3 * (x + 1) + (z + 1) < |Floors()|
    ensures Floors()[3 * (x + 1) + (z + 1)] == FloorAt(x, z)
  {
    assert RoomX(3 * (x + 1) + (z + 1)) == x && RoomZ(3 * (x + 1) + (z + 1)) == z;
  }

  /** The first m internal walls with their doors, in generation order. */
  ghost function UnitsUpTo(m: nat): (r: seq<Placed>)
  {
    if m == 0 then [] else UnitsUpTo(m - 1) + WallWithDoor(UnitCenter(m - 1), UnitVertical(m - 1))
  }

  lemma {:induction false} UnitsUpToLength(m: nat)
    ensures |UnitsUpTo(m)| == 3 * m
  {
    if m > 0 {
      UnitsUpToLength(m - 1);
    }
  }

  /** Piece k of the first m internal walls is piece k % 3 of wall k / 3. */
  lemma {:induction false} UnitsUpToAt(m: nat, k: nat)
    requires k < 3 * m
    ensures k < |UnitsUpTo(m)|
    ensures UnitsUpTo(m)[k] == WallWithDoor(UnitCenter(k / 3), UnitVertical(k / 3))[k % 3]
  {
    UnitsUpToLength(m);
    UnitsUpToLength(m - 1);
    if k < 3 * (m - 1) {
      UnitsUpToAt(m - 1, k);
    } else {
      assert k / 3 == m - 1;
    }
  }

  /** The four outer walls, appended one after the other. */
  lemma BuiltOuter(s4: seq<GameObject>, s3: seq<GameObject>, s2: seq<GameObject>, s1: seq<GameObject>,
                   s0: seq<GameObject>, f1: set<object>, f2: set<object>, f3: set<object>, f4: set<object>)
    requires Built(s1, s0, [OuterWalls()[0]], f1) && Built(s2, s1, [OuterWalls()[1]], f2)
    requires Built(s3, s2, [OuterWalls()[2]], f3) && Built(s4, s3, [OuterWalls()[3]], f4)
    ensures Built(s4, s0, OuterWalls() + UnitsUpTo(0), f1 + f2 + f3 + f4)
  {
    BuiltTrans(s2, s1, s0, [OuterWalls()[0]], [OuterWalls()[1]], f1, f2);
    BuiltTrans(s3, s2, s0, [OuterWalls()[0]] + [OuterWalls()[1]], [OuterWalls()[2]], f1 + f2, f3);
    BuiltTrans(s4, s3, s0, [OuterWalls()[0]] + [OuterWalls()[1]] + [OuterWalls()[2]], [OuterWalls()[3]],
               f1 + f2 + f3, f4);
    assert [OuterWalls()[0]] + [OuterWalls()[1]] + [OuterWalls()[2]] + [OuterWalls()[3]] ==
           OuterWalls() + UnitsUpTo(0);
  }

  /** Appending internal wall k to the walls before it. */
  lemma BuiltUnit(now: seq<GameObject>, mid: seq<GameObject>, before: seq<GameObject>, k: nat,
                  f1: set<object>, f2: set<object>)
    requires Built(mid, before, OuterWalls() + UnitsUpTo(k), f1)
    requires Built(now, mid, WallWithDoor(UnitCenter(k), UnitVertical(k)), f2)
    ensures Built(now, before, OuterWalls() + UnitsUpTo(k + 1), f1 + f2)
  {
    var u := WallWithDoor(UnitCenter(k), UnitVertical(k));
    BuiltTrans(now, mid, before, OuterWalls() + UnitsUpTo(k), u, f1, f2);
    assert OuterWalls() + UnitsUpTo(k) + u == OuterWalls() + UnitsUpTo(k + 1);
  }

  /** All twelve internal walls after the outer ones are the walls of the
      grid. */
  lemma BuiltWalls(now: seq<GameObject>, before: seq<GameObject>, m: nat, fr: set<object>)
    requires m - 10 == 2 && Built(now, before, OuterWalls() + UnitsUpTo(m), fr)
    ensures Built(now, before, WallLayout(), fr)
  {
    AllUnits(m);
  }

  lemma AllUnits(m: nat)
    requires m == 12
    ensures OuterWalls() + UnitsUpTo(m) == WallLayout()
  {
    UnitsUpToLength(m);
    forall k | 0 <= k < 3 * m
      ensures UnitsUpTo(m)[k] == Units()[k]
    {
      UnitsUpToAt(m, k);
    }
    assert UnitsUpTo(m) == Units();
  }

  /** `_random.NextDouble()` on the draws still to come: the next draw and
      the draws after it, or None once they are used up. */
  function NextDouble(draws: seq<real>): (r: Option<(real, seq<real>)>)
    ensures r.None? <==> |draws| == 0
    ensures r.Some? ==> draws == [r.value.0] + r.value.1
    ensures Unit(draws) && r.Some? ==> 0.0 <= r.value.0 < 1.0 && Unit(r.value.1)
  {
    if |draws| == 0 then None
    else
      UnitSuffix2(draws);
      Some((draws[0], draws[1..]))
  }

  /** `_random.Next(lo, hi)`: the next draw scaled onto [lo, hi). */
  function Next(draws: seq<real>, lo: int, hi: int): (r: Option<(int, seq<real>)>)
    ensures r.None? <==> |draws| == 0
    ensures r.Some? ==> r.value.1 == draws[1..] && r.value.0 == NextIn(draws[0], lo, hi)
    ensures Unit(draws) && lo < hi && r.Some? ==> lo <= r.value.0 < hi && Unit(r.value.1)
  {
    match NextDouble(draws)
    case None => None
    case Some((d, rest)) => Some((NextIn(d, lo, hi), rest))
  }

  lemma UnitSuffix2(s: seq<real>)
    requires |s| > 0
    ensures Unit(s) ==> Unit(s[1..])
  {
    if Unit(s) {
      UnitSuffix(s, 1);
    }
  }

  class RoomGenerator {
    /** The draws the generator's `Random` has still to hand out. */
    var pending: seq<real>

    ghost predicate Valid()
      reads this
    {
      Unit(pending)
    }

    /** The shader handed to every renderer is not modelled. */
    constructor (draws: seq<real>)
      requires Unit(draws)
      ensures Valid() && pending == draws
    {
      pending := draws;
    }

    /** Generates the whole scene: floors, walls, obstacles, then the goal,
        which is returned. */
    method GenerateRooms(sceneObjects: seq<GameObject>) returns (scene: seq<GameObject>, goalObject: Option<GameObject>)
      requires Valid()
      modifies this
      ensures Valid()
      ensures goalObject.Some? <==> ScenePlan(old(pending)).Some?
      ensures goalObject.Some? ==>
                Extends(scene, sceneObjects, ScenePlan(old(pending)).value.0) &&
                goalObject.value == scene[|scene| - 1] && pending == ScenePlan(old(pending)).value.2
    {
      var draws := pending;
      ghost var f2, f3, f4: set<object>;
      var walls, obstacles;
      walls, f2 := GenerateFloorsAndWalls(sceneObjects);
      var rest, ok;
      obstacles, rest, ok, f3 := GenerateObstacles(walls, draws);
      if !ok {
        SceneFails(draws);
        return obstacles, None;
      }
      var after;
      scene, goalObject, after, f4 := GenerateGoalObject(obstacles, rest);
      if goalObject.None? {
        SceneFails(draws);
        return;
      }
      SceneBuilt(scene, obstacles, walls, sceneObjects, draws, f2, f3, f4);
      OutsideFrame(this, scene);
      pending := after;
    }

    /** Steps 1 and 2 of GenerateRooms, which draw nothing: the floors, then
        the walls. */
    method GenerateFloorsAndWalls(sceneObjects: seq<GameObject>) returns (scene: seq<GameObject>, ghost fr: set<object>)
      ensures Built(scene, sceneObjects, Floors() + WallLayout(), fr)
      ensures Extends(scene, sceneObjects, Floors() + WallLayout())
    {
      ghost var f1, f2: set<object>;
      var floors;
      floors, f1 := GenerateFloors(sceneObjects);
      scene, f2 := GenerateWalls(floors);
      BuiltTrans(scene, floors, sceneObjects, Floors(), WallLayout(), f1, f2);
      fr := f1 + f2;
      BuiltExtends(scene, sceneObjects, Floors() + WallLayout(), fr);
    }

    /** One floor tile per room, x in the outer loop and z in the inner one. */
    method GenerateFloors(sceneObjects: seq<GameObject>) returns (scene: seq<GameObject>, ghost fr: set<object>)
      ensures Built(scene, sceneObjects, Floors(), fr)
      ensures Extends(scene, sceneObjects, Floors())
    {
      scene := sceneObjects;
      fr := {};
      BuiltNothing(scene);
      var x := -1;
      while x <= 1
        invariant -1 <= x <= 2
        invariant Built(scene, sceneObjects, Floors()[..3 * (x + 1)], fr)
      {
        var z := -1;
        while z <= 1
          invariant -1 <= z <= 2
          invariant Built(scene, sceneObjects, Floors()[..3 * (x + 1) + (z + 1)], fr)
        {
          var next;
          ghost var f;
          next, f := CreateFloor(scene, x, z);
          FloorIndex(x, z);
          BuiltSnoc(next, scene, sceneObjects, Floors(), 3 * (x + 1) + (z + 1), fr, f);
          scene := next;
          fr := fr + f;
          z := z + 1;
        }
        x := x + 1;
      }
      assert Floors()[..9] == Floors();
      BuiltExtends(scene, sceneObjects, Floors(), fr);
    }

    /** The floor tile of room (x, z): drawn, without a collider. */
    method CreateFloor(sceneObjects: seq<GameObject>, x: int, z: int) returns (scene: seq<GameObject>, ghost fr: set<object>)
      ensures Built(scene, sceneObjects, [FloorAt(x, z)], fr)
      ensures Extends(scene, sceneObjects, [FloorAt(x, z)])
    {
      var position := Vec3(x as real * RoomSize, 0.0, z as real * RoomSize);
      var scale := Vec3(RoomSize, 0.1, RoomSize);
      var floor := new GameObject(position, Zero, scale);
      floor.tag := "Floor";
      var renderer := new Renderer();
      floor.AddComponent(RendererC(renderer));
      scene := sceneObjects + [floor];
      fr := floor.Parts();
      RealisesDrawn(floor, FloorAt(x, z), renderer);
      BuiltOne(sceneObjects, floor, FloorAt(x, z));
      BuiltExtends(scene, sceneObjects, [FloorAt(x, z)], fr);
    }

    /** The four outer walls, then the twelve internal walls with their
        doors. */
    method GenerateWalls(sceneObjects: seq<GameObject>) returns (scene: seq<GameObject>, ghost fr: set<object>)
      ensures Built(scene, sceneObjects, WallLayout(), fr)
      ensures Extends(scene, sceneObjects, WallLayout())
    {
      ghost var f: set<object>;
      scene, f := GenerateOuterWalls(sceneObjects);
      ghost var m: nat;
      scene, f, m := GenerateVerticalWalls(scene, sceneObjects, f);
      scene, fr, m := GenerateHorizontalWalls(scene, sceneObjects, f, m);
      BuiltWalls(scene, sceneObjects, m, fr);
      BuiltExtends(scene, sceneObjects, WallLayout(), fr);
    }

    /** The internal walls running north-south, which separate east from
        west: at x = -1.5, then at x = 1.5, for z = -1, 0, 1. */
    method GenerateVerticalWalls(sceneObjects: seq<GameObject>, ghost before: seq<GameObject>, ghost fr0: set<object>)
      returns (scene: seq<GameObject>, ghost fr: set<object>, ghost m: nat)
      requires Built(sceneObjects, before, OuterWalls() + UnitsUpTo(0), fr0)
      ensures m == 6 && Built(scene, before, OuterWalls() + UnitsUpTo(m), fr)
    {
      var halfRoom := RoomSize / 2.0;
      scene, fr := sceneObjects, fr0;
      var a;
      ghost var f: set<object>;
      m := 0;
      var z := -1;
      while z <= 1
        invariant -1 <= z <= 2
        invariant m == z + 1 && Built(scene, before, OuterWalls() + UnitsUpTo(m), fr)
      {
        var center := Vec3(-halfRoom, RoomHeight / 2.0, z as real * RoomSize);
        a, f := CreateWallWithDoor(scene, center, true);
        assert center == UnitCenter(z + 1);
        BuiltUnit(a, scene, before, m, fr, f);
        scene, fr, m := a, fr + f, m + 1;
        z := z + 1;
      }
      z := -1;
      while z <= 1
        invariant -1 <= z <= 2
        invariant m == z + 4 && Built(scene, before, OuterWalls() + UnitsUpTo(m), fr)
      {
        var center := Vec3(halfRoom, RoomHeight / 2.0, z as real * RoomSize);
        a, f := CreateWallWithDoor(scene, center, true);
        assert center == UnitCenter(z + 4);
        BuiltUnit(a, scene, before, m, fr, f);
        scene, fr, m := a, fr + f, m + 1;
        z := z + 1;
      }
    }

    /** The internal walls running east-west, which separate north from
        south: at z = -1.5, then at z = 1.5, for x = -1, 0, 1. */
    method GenerateHorizontalWalls(sceneObjects: seq<GameObject>, ghost before: seq<GameObject>, ghost fr0: set<object>,
                                   ghost m0: nat)
      returns (scene: seq<GameObject>, ghost fr: set<object>, ghost m: nat)
      requires m0 == 6 && Built(sceneObjects, before, OuterWalls() + UnitsUpTo(m0), fr0)
      ensures m == 12 && Built(scene, before, OuterWalls() + UnitsUpTo(m), fr)
    {
      var halfRoom := RoomSize / 2.0;
      scene, fr := sceneObjects, fr0;
      var a;
      ghost var f: set<object>;
      m := m0;
      var x := -1;
      while x <= 1
        invariant -1 <= x <= 2
        invariant m == x + 7 && Built(scene, before, OuterWalls() + UnitsUpTo(m), fr)
      {
        var center := Vec3(x as real * RoomSize, RoomHeight / 2.0, -halfRoom);
        a, f := CreateWallWithDoor(scene, center, false);
        assert center == UnitCenter(x + 7);
        BuiltUnit(a, scene, before, m, fr, f);
        scene, fr, m := a, fr + f, m + 1;
        x := x + 1;
      }
      x := -1;
      while x <= 1
        invariant -1 <= x <= 2
        invariant m == x + 10 && Built(scene, before, OuterWalls() + UnitsUpTo(m), fr)
      {
        var center := Vec3(x as real * RoomSize, RoomHeight / 2.0, halfRoom);
        a, f := CreateWallWithDoor(scene, center, false);
        assert center == UnitCenter(x + 10);
        BuiltUnit(a, scene, before, m, fr, f);
        scene, fr, m := a, fr + f, m + 1;
        x := x + 1;
      }
    }

    /** The boundary walls of the grid, north, south, east and west, without
        doors. */
    method GenerateOuterWalls(sceneObjects: seq<GameObject>) returns (scene: seq<GameObject>, ghost fr: set<object>)
      ensures Built(scene, sceneObjects, OuterWalls() + UnitsUpTo(0), fr)
      ensures Extends(scene, sceneObjects, OuterWalls() + UnitsUpTo(0))
    {
      var edgeOffset := 1.5 * RoomSize;
      ghost var f1, f2, f3, f4: set<object>;
      var a, b, c;
      a, f1 := CreateWall(sceneObjects, Vec3(0.0, RoomHeight / 2.0, edgeOffset),
                          Vec3(RoomSize * 3.0, RoomHeight, WallThickness), "Wall");
      b, f2 := CreateWall(a, Vec3(0.0, RoomHeight / 2.0, -edgeOffset),
                          Vec3(RoomSize * 3.0, RoomHeight, WallThickness), "Wall");
      c, f3 := CreateWall(b, Vec3(edgeOffset, RoomHeight / 2.0, 0.0),
                          Vec3(WallThickness, RoomHeight, RoomSize * 3.0), "Wall");
      scene, f4 := CreateWall(c, Vec3(-edgeOffset, RoomHeight / 2.0, 0.0),
                              Vec3(WallThickness, RoomHeight, RoomSize * 3.0), "Wall");
      BuiltOuter(scene, c, b, a, sceneObjects, f1, f2, f3, f4);
      fr := f1 + f2 + f3 + f4;
      BuiltExtends(scene, sceneObjects, OuterWalls() + UnitsUpTo(0), fr);
    }

    /** The obstacles of the eight outer rooms, x in the outer loop and z in
        the inner one. `ok` is false once the draws run out. */
    method GenerateObstacles(sceneObjects: seq<GameObject>, draws: seq<real>)
      returns (scene: seq<GameObject>, rest: seq<real>, ok: bool, ghost fr: set<object>)
      ensures ok <==> RoomsPlan(draws).Some?
      ensures ok ==> RoomsPlan(draws).value.1 == rest &&
                     Built(scene, sceneObjects, RoomsPlan(draws).value.0, fr)
    {
      scene, rest, fr := sceneObjects, draws, {};
      ghost var done: seq<Placed> := [];
      BuiltNothing(scene);
      PrependNothing(RoomsPlan(draws));
      var x := -1;
      while x <= 1
        invariant -1 <= x <= 2
        invariant Built(scene, sceneObjects, done, fr)
        invariant RoomsPlan(draws) == Prepend(done, RoomsFrom(x, -1, rest))
      {
        var z := -1;
        while z <= 1
          invariant -1 <= z <= 2
          invariant Built(scene, sceneObjects, done, fr)
          invariant RoomsPlan(draws) == Prepend(done, RoomsFrom(x, z, rest))
        {
          var roomCenter := Vec3(x as real * RoomSize, 0.0, z as real * RoomSize);
          if x == 0 && z == 0 {
            RoomsFromSkip(rest);
            z := z + 1;
            continue;
          }
          RoomsFromStep(x, z, rest);
          var next, after, roomOk;
          ghost var f;
          next, after, roomOk, f := GenerateRoomObstacles(scene, roomCenter, rest);
          if !roomOk {
            return next, after, false, fr;
          }
          ghost var room := ObstaclesPlan(roomCenter, rest).value.0;
          BuiltTrans(next, scene, sceneObjects, done, room, fr, f);
          PrependPrepend(done, room, RoomsFrom(x, z + 1, after));
          scene, rest, fr, done := next, after, fr + f, done + room;
          z := z + 1;
        }
        RoomsFromRow(x, rest);
        x := x + 1;
      }
      assert done + [] == done;
      return scene, rest, true, fr;
    }

    /** The obstacles of one room: a pillar with probability one half, then
        zero to two cubes. */
    method GenerateRoomObstacles(sceneObjects: seq<GameObject>, roomCenter: Vec3, draws: seq<real>)
      returns (scene: seq<GameObject>, rest: seq<real>, ok: bool, ghost fr: set<object>)
      ensures ok <==> ObstaclesPlan(roomCenter, draws).Some?
      ensures ok ==> ObstaclesPlan(roomCenter, draws).value.1 == rest &&
                     Built(scene, sceneObjects, ObstaclesPlan(roomCenter, draws).value.0, fr)
    {
      scene, rest, fr := sceneObjects, draws, {};
      var roll := NextDouble(rest);
      if roll.None? {
        return scene, rest, false, fr;
      }
      rest := roll.value.1;
      ghost var pillar: seq<Placed> := [];
      BuiltNothing(scene);
      if roll.value.0 < 0.5 {
        var dx := NextDouble(rest);
        if dx.None? {
          return scene, rest, false, fr;
        }
        var dz := NextDouble(dx.value.1);
        if dz.None? {
          return scene, rest, false, fr;
        }
        rest := dz.value.1;
        var pillarOffset := Vec3(Offset(dx.value.0), RoomHeight / 2.0, Offset(dz.value.0));
        var pillarPos := roomCenter.Plus(pillarOffset);
        scene, fr := CreatePillar(sceneObjects, pillarPos);
        pillar := [PillarAt(roomCenter, dx.value.0, dz.value.0)];
      }
      assert PillarPlan(roomCenter, draws) == Some((pillar, rest));
      var cubeCount := Next(rest, 0, 3);
      if cubeCount.None? {
        return scene, rest, false, fr;
      }
      assert ObstaclesPlan(roomCenter, draws) ==
             Prepend(pillar, CubesPlan(roomCenter, cubeCount.value.0, cubeCount.value.1));
      var next, after, cubesOk;
      ghost var fc;
      next, after, cubesOk, fc := GenerateCubes(scene, roomCenter, cubeCount.value.0, cubeCount.value.1);
      if !cubesOk {
        return next, after, false, fr;
      }
      ghost var cubes := CubesPlan(roomCenter, cubeCount.value.0, cubeCount.value.1).value.0;
      BuiltTrans(next, scene, sceneObjects, pillar, cubes, fr, fc);
      scene, rest, fr, ok := next, after, fr + fc, true;
    }

    /** `count` cubes (none when count <= 0), each of a random size at a
        random offset from the room centre. */
    method GenerateCubes(sceneObjects: seq<GameObject>, roomCenter: Vec3, count: int, draws: seq<real>)
      returns (scene: seq<GameObject>, rest: seq<real>, ok: bool, ghost fr: set<object>)
      ensures ok <==> CubesPlan(roomCenter, count, draws).Some?
      ensures ok ==> CubesPlan(roomCenter, count, draws).value.1 == rest &&
                     Built(scene, sceneObjects, CubesPlan(roomCenter, count, draws).value.0, fr)
    {
      scene, rest, fr := sceneObjects, draws, {};
      ghost var cubes: seq<Placed> := [];
      BuiltNothing(scene);
      PrependNothing(CubesPlan(roomCenter, count, draws));
      var i := 0;
      while i < count
        invariant 0 <= i && (i <= count || i == 0)
        invariant Built(scene, sceneObjects, cubes, fr)
        invariant CubesPlan(roomCenter, count, draws) == Prepend(cubes, CubesPlan(roomCenter, count - i, rest))
      {
        var size := NextDouble(rest);
        if size.None? {
          return scene, rest, false, fr;
        }
        var dx := NextDouble(size.value.1);
        if dx.None? {
          return scene, rest, false, fr;
        }
        var dz := NextDouble(dx.value.1);
        if dz.None? {
          return scene, rest, false, fr;
        }
        ghost var c0 := rest;
        rest := dz.value.1;
        var cubeSize := CubeSize(size.value.0);
        var cubeOffset := Vec3(Offset(dx.value.0), cubeSize / 2.0, Offset(dz.value.0));
        var cubePos := roomCenter.Plus(cubeOffset);
        var next;
        ghost var f;
        next, f := CreateCube(scene, cubePos, cubeSize);
        ghost var cube := CubeAt(roomCenter, cubeSize, dx.value.0, dz.value.0);
        BuiltTrans(next, scene, sceneObjects, cubes, [cube], fr, f);
        assert c0[3..] == rest;
        PrependPrepend(cubes, [cube], CubesPlan(roomCenter, count - i - 1, rest));
        scene, fr, cubes, i := next, fr + f, cubes + [cube], i + 1;
      }
      assert CubesPlan(roomCenter, count - i, rest) == Some(([], rest));
      assert cubes + [] == cubes;
      ok := true;
    }

    /** Picks a room by two draws, again while the pick is the centre room,
        and places the goal marker at floor level in it. */
    method GenerateGoalObject(sceneObjects: seq<GameObject>, draws: seq<real>)
      returns (scene: seq<GameObject>, goal: Option<GameObject>, rest: seq<real>, ghost fr: set<object>)
      ensures goal.None? <==> GoalPlan(draws).None?
      ensures goal.None? ==> scene == sceneObjects
      ensures goal.Some? ==>
                Built(scene, sceneObjects, [GoalPlan(draws).value.0], fr) &&
                goal.value == scene[|scene| - 1] && GoalPlan(draws).value.1 == rest
    {
      var x, z := 0, 0;
      rest := draws;
      // The loop runs at least once: a do-while.
      while x == 0 && z == 0
        invariant x == 0 && z == 0 ==> GoalPlan(rest) == GoalPlan(draws)
        invariant !(x == 0 && z == 0) ==> GoalPlan(draws) == Some((GoalAt(x, z), rest))
        decreases |rest|, if x == 0 && z == 0 then 1 else 0
      {
        var first := Next(rest, -1, 2);
        if first.None? {
          return sceneObjects, None, rest, {};
        }
        var second := Next(first.value.1, -1, 2);
        if second.None? {
          return sceneObjects, None, rest, {};
        }
        x, z, rest := first.value.0, second.value.0, second.value.1;
      }

      var goalPos := Vec3(x as real * RoomSize, 0.5, z as real * RoomSize);
      var goalObject := new GameObject(goalPos, Zero, Vec3(0.5, 0.5, 0.5));
      goalObject.tag := "Goal";
      var renderer := new Renderer();
      goalObject.AddComponent(RendererC(renderer));
      scene := sceneObjects + [goalObject];
      fr := goalObject.Parts();
      RealisesDrawn(goalObject, GoalAt(x, z), renderer);
      BuiltOne(sceneObjects, goalObject, GoalAt(x, z));
      goal := Some(goalObject);
    }

    /** Two wall segments either side of a door, the door in the middle. */
    method CreateWallWithDoor(sceneObjects: seq<GameObject>, wallCenter: Vec3, isVertical: bool)
      returns (scene: seq<GameObject>, ghost fr: set<object>)
      ensures Built(scene, sceneObjects, WallWithDoor(wallCenter, isVertical), fr)
      ensures Extends(scene, sceneObjects, WallWithDoor(wallCenter, isVertical))
    {
      var wallLength := RoomSize;
      var sideLength := (wallLength - DoorWidth) / 2.0;
      ghost var left, right, door: Placed;
      ghost var f1, f2, f3: set<object>;
      var a, b;
      if isVertical {
        var leftPos := wallCenter.Plus(Vec3(0.0, 0.0, -DoorWidth / 2.0 - sideLength / 2.0));
        a, f1 := CreateWall(sceneObjects, leftPos, Vec3(WallThickness, RoomHeight, sideLength), "Wall");
        left := Placed("Wall", leftPos, Vec3(WallThickness, RoomHeight, sideLength), [Drawn, Solid]);
        var rightPos := wallCenter.Plus(Vec3(0.0, 0.0, DoorWidth / 2.0 + sideLength / 2.0));
        b, f2 := CreateWall(a, rightPos, Vec3(WallThickness, RoomHeight, sideLength), "Wall");
        right := Placed("Wall", rightPos, Vec3(WallThickness, RoomHeight, sideLength), [Drawn, Solid]);
        var doorPos := wallCenter;
        scene, f3 := CreateDoor(b, doorPos, Vec3(WallThickness, DoorHeight, DoorWidth), true);
        door := Placed("Door", doorPos, Vec3(WallThickness, DoorHeight, DoorWidth), [Drawn, Solid, Hinged(true)]);
      } else {
        var leftPos := wallCenter.Plus(Vec3(-DoorWidth / 2.0 - sideLength / 2.0, 0.0, 0.0));
        a, f1 := CreateWall(sceneObjects, leftPos, Vec3(sideLength, RoomHeight, WallThickness), "Wall");
        left := Placed("Wall", leftPos, Vec3(sideLength, RoomHeight, WallThickness), [Drawn, Solid]);
        var rightPos := wallCenter.Plus(Vec3(DoorWidth / 2.0 + sideLength / 2.0, 0.0, 0.0));
        b, f2 := CreateWall(a, rightPos, Vec3(sideLength, RoomHeight, WallThickness), "Wall");
        right := Placed("Wall", rightPos, Vec3(sideLength, RoomHeight, WallThickness), [Drawn, Solid]);
        var doorPos := wallCenter;
        scene, f3 := CreateDoor(b, doorPos, Vec3(DoorWidth, DoorHeight, WallThickness), false);
        door := Placed("Door", doorPos, Vec3(DoorWidth, DoorHeight, WallThickness), [Drawn, Solid, Hinged(false)]);
      }
      BuiltTrans(b, a, sceneObjects, [left], [right], f1, f2);
      BuiltTrans(scene, b, sceneObjects, [left] + [right], [door], f1 + f2, f3);
      fr := f1 + f2 + f3;
      assert [left] + [right] + [door] == WallWithDoor(wallCenter, isVertical);
      BuiltExtends(scene, sceneObjects, WallWithDoor(wallCenter, isVertical), fr);
    }

    /** A rendered wall piece whose collider is its own box. */
    method CreateWall(sceneObjects: seq<GameObject>, position: Vec3, scale: Vec3, tag: string)
      returns (scene: seq<GameObject>, ghost fr: set<object>)
      ensures Built(scene, sceneObjects, [Placed(tag, position, scale, [Drawn, Solid])], fr)
      ensures Extends(scene, sceneObjects, [Placed(tag, position, scale, [Drawn, Solid])])
    {
      var wall := new GameObject(position, Zero, scale);
      wall.tag := tag;
      var renderer := new Renderer();
      wall.AddComponent(RendererC(renderer));
      var collider := new AABBCollider(wall.transform);
      wall.AddComponent(ColliderC(collider));
      scene := sceneObjects + [wall];
      fr := wall.Parts();
      RealisesSolid(wall, Placed(tag, position, scale, [Drawn, Solid]), renderer, collider);
      BuiltOne(sceneObjects, wall, Placed(tag, position, scale, [Drawn, Solid]));
      BuiltExtends(scene, sceneObjects, [Placed(tag, position, scale, [Drawn, Solid])], fr);
    }

    /** A door piece: rendered, solid, and closed. */
    method CreateDoor(sceneObjects: seq<GameObject>, position: Vec3, scale: Vec3, isVertical: bool)
      returns (scene: seq<GameObject>, ghost fr: set<object>)
      ensures Built(scene, sceneObjects, [Placed("Door", position, scale, [Drawn, Solid, Hinged(isVertical)])], fr)
      ensures Extends(scene, sceneObjects, [Placed("Door", position, scale, [Drawn, Solid, Hinged(isVertical)])])
    {
      var door := new GameObject(position, Zero, scale);
      door.tag := "Door";
      var renderer := new Renderer();
      door.AddComponent(RendererC(renderer));
      var collider := new AABBCollider(door.transform);
      door.AddComponent(ColliderC(collider));
      var hinge := new Door(isVertical);
      door.AddComponent(DoorC(hinge));
      scene := sceneObjects + [door];
      fr := door.Parts();
      RealisesHinged(door, Placed("Door", position, scale, [Drawn, Solid, Hinged(isVertical)]),
                     renderer, collider, hinge);
      BuiltOne(sceneObjects, door, Placed("Door", position, scale, [Drawn, Solid, Hinged(isVertical)]));
      BuiltExtends(scene, sceneObjects, [Placed("Door", position, scale, [Drawn, Solid, Hinged(isVertical)])], fr);
    }

    /** A full-height pillar. */
    method CreatePillar(sceneObjects: seq<GameObject>, position: Vec3) returns (scene: seq<GameObject>, ghost fr: set<object>)
      ensures Built(scene, sceneObjects, [Placed("Pillar", position, Vec3(0.5, RoomHeight, 0.5), [Drawn, Solid])], fr)
      ensures Extends(scene, sceneObjects, [Placed("Pillar", position, Vec3(0.5, RoomHeight, 0.5), [Drawn, Solid])])
    {
      var pillar := new GameObject(position, Zero, Vec3(0.5, RoomHeight, 0.5));
      pillar.tag := "Pillar";
      var renderer := new Renderer();
      pillar.AddComponent(RendererC(renderer));
      var collider := new AABBCollider(pillar.transform);
      pillar.AddComponent(ColliderC(collider));
      scene := sceneObjects + [pillar];
      fr := pillar.Parts();
      RealisesSolid(pillar, Placed("Pillar", position, Vec3(0.5, RoomHeight, 0.5), [Drawn, Solid]),
                    renderer, collider);
      BuiltOne(sceneObjects, pillar, Placed("Pillar", position, Vec3(0.5, RoomHeight, 0.5), [Drawn, Solid]));
      BuiltExtends(scene, sceneObjects, [Placed("Pillar", position, Vec3(0.5, RoomHeight, 0.5), [Drawn, Solid])], fr);
    }

    /** A cube of the given edge length. */
    method CreateCube(sceneObjects: seq<GameObject>, position: Vec3, size: real) returns (scene: seq<GameObject>, ghost fr: set<object>)
      ensures Built(scene, sceneObjects, [Placed("Obstacle", position, Vec3(size, size, size), [Drawn, Solid])], fr)
      ensures Extends(scene, sceneObjects, [Placed("Obstacle", position, Vec3(size, size, size), [Drawn, Solid])])
    {
      var cube := new GameObject(position, Zero, Vec3(size, size, size));
      cube.tag := "Obstacle";
      var renderer := new Renderer();
      cube.AddComponent(RendererC(renderer));
      var collider := new AABBCollider(cube.transform);
      cube.AddComponent(ColliderC(collider));
      scene := sceneObjects + [cube];
      fr := cube.Parts();
      RealisesSolid(cube, Placed("Obstacle", position, Vec3(size, size, size), [Drawn, Solid]),
                    renderer, collider);
      BuiltOne(sceneObjects, cube, Placed("Obstacle", position, Vec3(size, size, size), [Drawn, Solid]));
      BuiltExtends(scene, sceneObjects, [Placed("Obstacle", position, Vec3(size, size, size), [Drawn, Solid])], fr);
    }
  }
}
