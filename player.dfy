/** The first-person player of Player.cs: collision resolution with sliding,
    door interaction and goal detection. Mouse look, the camera and the
    normalisation of the key direction are not part of this model: `Update`
    receives the velocity the key direction yields. */
module PlayerControl {
  import opened Geometry
  import opened Optional
  import opened Transforms
  import opened Colliders
  import opened Entities

  /** The player's box: 0.2 m wide, 1.5 m tall, 0.2 m deep. */
  const PlayerSize := Vec3(0.2, 1.5, 0.2)
  /** Doors can be toggled from at most this far. */
  const InteractionRange := 1.0
  /** The goal is reached from at most this far. */
  const GoalRange := 0.5

  // ---------------------------------------------------------------------
  // What the player reads of the scene

  /** The fields of a door component. */
  datatype DoorView = DoorView(isOpen: bool, closedPosition: Vec3, openPosition: Vec3)

  /** What the player's scans read of one scene object: its tag and
      position, the bounds of its collider and the state of its door. */
  datatype ObjectView = ObjectView(tag: string, position: Vec3, collider: Option<Box>, door: Option<DoorView>)

  /** Object `o`'s transform and the objects of its components lie in
      `fr`. */
  ghost predicate Inside(o: GameObject, fr: set<object>)
    reads o
  {
    o.transform in fr && forall j :: 0 <= j < |o.components| ==> o.components[j].Refs() <= fr
  }

  /** `fr` holds every object the scene's game objects are made of. */
  ghost predicate Footprint(scene: seq<GameObject>, fr: set<object>)
    reads scene
  {
    forall i :: 0 <= i < |scene| ==> Inside(scene[i], fr)
  }

  /** Two game objects that share neither a transform nor a component. */
  ghost predicate Disjoint(o: GameObject, p: GameObject)
    reads o, p
  {
    o.transform != p.transform &&
    forall a, b :: 0 <= a < |o.components| && 0 <= b < |p.components| ==>
      o.components[a].Refs() !! p.components[b].Refs()
  }

  /** No two objects of the scene share a transform or a component. */
  ghost predicate Separate(scene: seq<GameObject>)
    reads scene
  {
    forall i, j {:trigger Disjoint(scene[i], scene[j])} ::
      0 <= i < |scene| && 0 <= j < |scene| && i != j ==> Disjoint(scene[i], scene[j])
  }

  /** The door components of the scene's objects, as `GetDoor` finds
      them: what an interaction may open or close. */
  ghost function DoorsOf(scene: seq<GameObject>): (r: set<Door?>)
    reads scene
  {
    set i | 0 <= i < |scene| && scene[i].GetDoor() != null :: scene[i].GetDoor()
  }

  /** The transforms of the scene's door objects: what an interaction may
      move. */
  ghost function DoorTransforms(scene: seq<GameObject>): (r: set<Transform>)
    reads scene
  {
    set i | 0 <= i < |scene| && scene[i].GetDoor() != null :: scene[i].transform
  }

  /** What an interaction may change lies in the footprint. */
  lemma DoorFramesInside(scene: seq<GameObject>, fr: set<object>)
    requires Footprint(scene, fr)
    ensures DoorTransforms(scene) <= fr
  {
  }

  /** The components the player's scans look at: the first collider and
      the first door. */
  function ViewParts(o: GameObject): (r: set<object>)
    reads o
  {
    var cs := o.components;
    (match FirstOfKind(cs, ColliderKind) case None => {} case Some(i) => cs[i].Refs()) +
    (match FirstOfKind(cs, DoorKind) case None => {} case Some(i) => cs[i].Refs())
  }

  lemma PartsInside(o: GameObject, fr: set<object>)
    requires Inside(o, fr)
    ensures ViewParts(o) <= fr
  {
    var cs := o.components;
    match FirstOfKind(cs, ColliderKind) {
      case None =>
      case Some(i) => assert cs[i].Refs() <= fr;
    }
    match FirstOfKind(cs, DoorKind) {
      case None =>
      case Some(i) => assert cs[i].Refs() <= fr;
    }
  }

  function ViewOf(o: GameObject): (r: ObjectView)
    reads o, o.transform, ViewParts(o)
  {
    var cs := o.components;
    ObjectView(o.tag, o.transform.Position,
               match FirstOfKind(cs, ColliderKind)
               case None => None
               case Some(i) => Some(cs[i].collider.Bounds()),
               match FirstOfKind(cs, DoorKind)
               case None => None
               case Some(i) => Some(DoorView(cs[i].door.IsOpen, cs[i].door.ClosedPosition, cs[i].door.openPosition)))
  }

  function ViewFrom(scene: seq<GameObject>, ghost fr: set<object>, from: nat): (v: seq<ObjectView>)
    requires Footprint(scene, fr)
    reads scene, fr
    ensures |v| == if from < |scene| then |scene| - from else 0
    decreases |scene| - from
  {
    if from >= |scene| then []
    else
      PartsInside(scene[from], fr);
      [ViewOf(scene[from])] + ViewFrom(scene, fr, from + 1)
  }

  /** The scene as the player sees it, object by object in list order. */
  function SceneView(scene: seq<GameObject>, ghost fr: set<object>): (v: seq<ObjectView>)
    requires Footprint(scene, fr)
    reads scene, fr
    ensures |v| == |scene|
  {
    ViewFrom(scene, fr, 0)
  }

  lemma {:induction false} ViewFromAt(scene: seq<GameObject>, fr: set<object>, from: nat, i: int)
    requires Footprint(scene, fr) && from <= i < |scene|
    ensures ViewFrom(scene, fr, from)[i - from] == ViewOf(scene[i])
    decreases i - from
  {
    var rest := ViewFrom(scene, fr, from + 1);
    assert ViewFrom(scene, fr, from) == [ViewOf(scene[from])] + rest;
    if from < i {
      ViewFromAt(scene, fr, from + 1, i);
      assert ViewFrom(scene, fr, from)[i - from] == rest[i - from - 1];
    }
  }

  lemma SceneViewAt(scene: seq<GameObject>, fr: set<object>, i: int)
    requires Footprint(scene, fr) && 0 <= i < |scene|
    ensures SceneView(scene, fr)[i] == ViewOf(scene[i])
  {
    ViewFromAt(scene, fr, 0, i);
  }

  /** The view of an object agrees with what `GetComponent` returns for it,
      and the components it finds lie in the footprint. */
  lemma ViewOfParts(o: GameObject, fr: set<object>)
    requires Inside(o, fr)
    ensures var c := o.GetCollider();
            (c == null ==> ViewOf(o).collider == None) &&
            (c != null ==> c in fr && ViewOf(o).collider == Some(c.Bounds()))
    ensures var d := o.GetDoor();
            (d == null ==> ViewOf(o).door == None) &&
            (d != null ==> d in fr && ViewOf(o).door == Some(DoorView(d.IsOpen, d.ClosedPosition, d.openPosition)))
  {
    PartsInside(o, fr);
  }

  // ---------------------------------------------------------------------
  // Collision resolution

  /** An object that never stops the player: it has no collider, or it
      carries a door that is open. */
  predicate Inert(v: ObjectView) {
    v.collider.None? || (v.door.Some? && v.door.value.isOpen)
  }

  /** The object stops a player whose box is `box`: its collider is active
      and overlaps the box. The collider's bounds are used as stored: a
      door's collider keeps the bounds it had when the door was built. */
  predicate Blocks(v: ObjectView, box: Box) {
    !Inert(v) && Overlap(box, v.collider.value)
  }

  predicate Blocked(view: seq<ObjectView>, box: Box) {
    exists i :: 0 <= i < |view| && Blocks(view[i], box)
  }

  /** One axis of the sliding move: the step along X, kept only if the
      player's box is free there. */
  function StepX(view: seq<ObjectView>, size: Vec3, cur: Vec3, vel: Vec3): (r: Vec3) {
    var moved := Vec3(cur.x + vel.x, cur.y, cur.z);
    if Blocked(view, BoxAt(moved, size)) then cur else moved
  }

  /** The same along Z. */
  function StepZ(view: seq<ObjectView>, size: Vec3, cur: Vec3, vel: Vec3): (r: Vec3) {
    var moved := Vec3(cur.x, cur.y, cur.z + vel.z);
    if Blocked(view, BoxAt(moved, size)) then cur else moved
  }

  /** Where a player of the given size standing at `cur` ends up after
      trying to move by `vel`: X first, then Z from the X-resolved
      position. The height never changes, and each horizontal coordinate
      either stays or takes its whole step: there are no partial steps. */
  function Resolved(view: seq<ObjectView>, size: Vec3, cur: Vec3, vel: Vec3): (r: Vec3)
    ensures r.y == cur.y
    ensures r.x == cur.x || r.x == cur.x + vel.x
    ensures r.z == cur.z || r.z == cur.z + vel.z
  {
    StepZ(view, size, StepX(view, size, cur, vel), vel)
  }

  /** X advances exactly when the box moved along X is free; Z advances
      exactly when the box moved along Z from the X-resolved position is
      free, so a wall across X does not stop the move along Z. */
  lemma ResolvedAdvances(view: seq<ObjectView>, size: Vec3, cur: Vec3, vel: Vec3)
    ensures var r := Resolved(view, size, cur, vel);
            (vel.x != 0.0 ==>
               (r.x == cur.x + vel.x <==> !Blocked(view, BoxAt(Vec3(cur.x + vel.x, cur.y, cur.z), size)))) &&
            (vel.z != 0.0 ==>
               (r.z == cur.z + vel.z <==> !Blocked(view, BoxAt(Vec3(r.x, cur.y, cur.z + vel.z), size))))
  {
  }

  /** Sliding: blocked along X but free along Z, the player moves along Z
      alone. */
  lemma ResolvedSlides(view: seq<ObjectView>, size: Vec3, cur: Vec3, vel: Vec3)
    requires Blocked(view, BoxAt(Vec3(cur.x + vel.x, cur.y, cur.z), size))
    requires !Blocked(view, BoxAt(Vec3(cur.x, cur.y, cur.z + vel.z), size))
    ensures Resolved(view, size, cur, vel) == Vec3(cur.x, cur.y, cur.z + vel.z)
  {
  }

  /** A player who stands clear of every active collider stays clear: a
      move never ends inside one. */
  lemma ResolvedStaysClear(view: seq<ObjectView>, size: Vec3, cur: Vec3, vel: Vec3)
    requires !Blocked(view, BoxAt(cur, size))
    ensures !Blocked(view, BoxAt(Resolved(view, size, cur, vel), size))
  {
  }

  lemma BlockedIgnoresInert(a: seq<ObjectView>, v: ObjectView, b: seq<ObjectView>, box: Box)
    requires Inert(v)
    ensures Blocked(a + [v] + b, box) == Blocked(a + b, box)
  {
    var s, t := a + [v] + b, a + b;
    if Blocked(s, box) {
      var i :| 0 <= i < |s| && Blocks(s[i], box);
      if i < |a| {
        assert t[i] == s[i];
      } else {
        assert t[i - 1] == s[i];
      }
    }
    if Blocked(t, box) {
      var i :| 0 <= i < |t| && Blocks(t[i], box);
      if i < |a| {
        assert s[i] == t[i];
      } else {
        assert s[i + 1] == t[i];
      }
    }
  }

  /** Objects without a collider, such as floors and the goal, and objects
      whose door is open never affect the move, wherever they stand in the
      list. */
  lemma ResolvedIgnoresInert(a: seq<ObjectView>, v: ObjectView, b: seq<ObjectView>, size: Vec3, cur: Vec3, vel: Vec3)
    requires Inert(v)
    ensures Resolved(a + [v] + b, size, cur, vel) == Resolved(a + b, size, cur, vel)
  {
    var x := Vec3(cur.x + vel.x, cur.y, cur.z);
    BlockedIgnoresInert(a, v, b, BoxAt(x, size));
    var afterX := StepX(a + b, size, cur, vel);
    BlockedIgnoresInert(a, v, b, BoxAt(Vec3(afterX.x, afterX.y, afterX.z + vel.z), size));
  }

  /** In a scene of inert objects the player takes the whole step. */
  lemma ResolvedFree(view: seq<ObjectView>, size: Vec3, cur: Vec3, vel: Vec3)
    requires forall i :: 0 <= i < |view| ==> Inert(view[i])
    ensures Resolved(view, size, cur, vel) == Vec3(cur.x + vel.x, cur.y, cur.z + vel.z)
  {
  }

  // ---------------------------------------------------------------------
  // Doors and the goal

  /** A door object the player at `pos` can toggle: tagged "Door", carrying
      a door component, and within range of the door's closed position, or
      of its live position while none has been captured. */
  predicate InReach(v: ObjectView, pos: Vec3) {
    v.tag == "Door" && v.door.Some? &&
    var reference := if v.door.value.closedPosition != Zero then v.door.value.closedPosition else v.position;
    WithinDistance(reference, pos, InteractionRange)
  }

  /** The door the player at `pos` toggles: the first one in reach, in
      list order. */
  function FirstInReach(view: seq<ObjectView>, pos: Vec3): (r: Option<nat>)
    ensures r.Some? ==> r.value < |view| && InReach(view[r.value], pos)
    ensures r.Some? ==> forall j :: 0 <= j < r.value ==> !InReach(view[j], pos)
    ensures r.None? <==> forall j :: 0 <= j < |view| ==> !InReach(view[j], pos)
  {
    if |view| == 0 then None
    else if InReach(view[0], pos) then Some(0)
    else match FirstInReach(view[1..], pos)
      case None => None
      case Some(i) => Some(i + 1)
  }

  /** The state of the door `v` carries, with `v`'s position as the
      position of the object. */
  function DoorStateOf(v: ObjectView): (r: DoorState)
    requires v.door.Some?
  {
    DoorState(v.door.value.isOpen, v.door.value.closedPosition, v.door.value.openPosition, v.position)
  }

  /** `v` with its door, and its position, toggled. The collider keeps its
      bounds. */
  function DoorToggled(v: ObjectView): (r: ObjectView)
    requires v.door.Some?
    ensures r.door.Some? && DoorStateOf(r) == Toggled(DoorStateOf(v))
    ensures r.tag == v.tag && r.collider == v.collider
  {
    var s := Toggled(DoorStateOf(v));
    v.(position := s.position, door := Some(DoorView(s.isOpen, s.closed, s.open)))
  }

  /** The scene after the player at `pos` presses the interaction key: the
      first door in reach is toggled, and nothing else changes. */
  function Interaction(view: seq<ObjectView>, pos: Vec3): (r: seq<ObjectView>)
    ensures |r| == |view|
  {
    match FirstInReach(view, pos)
    case None => view
    case Some(k) => view[k := DoorToggled(view[k])]
  }

  /** An interaction opens or closes at most one door, and only a door in
      reach. No collider moves, and no tag changes. */
  lemma InteractionTogglesOne(view: seq<ObjectView>, pos: Vec3)
    ensures var r := Interaction(view, pos);
            |r| == |view| &&
            (forall i :: 0 <= i < |view| ==> r[i].tag == view[i].tag && r[i].collider == view[i].collider) &&
            (forall i :: 0 <= i < |view| && r[i] != view[i] ==>
               Some(i) == FirstInReach(view, pos) && r[i].door.Some? && view[i].door.Some? &&
               r[i].door.value.isOpen == !view[i].door.value.isOpen)
    ensures (forall i :: 0 <= i < |view| ==> !InReach(view[i], pos)) ==> Interaction(view, pos) == view
  {
  }

  /** A door of a well-formed scene: settled, or never toggled and standing
      away from the origin. */
  predicate SaneDoor(v: ObjectView) {
    v.door.Some? &&
    (Settled(DoorStateOf(v)) || (v.door.value.closedPosition == Zero && !v.door.value.isOpen && v.position != Zero))
  }

  /** Pressing the key twice without moving toggles the same door twice and
      brings it back: open or closed as before, where it stood. */
  lemma InteractionTwiceRestores(view: seq<ObjectView>, pos: Vec3)
    requires forall i :: 0 <= i < |view| && view[i].door.Some? ==> SaneDoor(view[i])
    ensures var r := Interaction(Interaction(view, pos), pos);
            |r| == |view| &&
            forall i :: 0 <= i < |view| ==>
              r[i].position == view[i].position && r[i].tag == view[i].tag &&
              r[i].collider == view[i].collider &&
              (r[i].door.Some? <==> view[i].door.Some?) &&
              (r[i].door.Some? ==> r[i].door.value.isOpen == view[i].door.value.isOpen)
  {
    var once := Interaction(view, pos);
    match FirstInReach(view, pos) {
      case None =>
      case Some(k) =>
        assert once == view[k := DoorToggled(view[k])];
        var s := DoorStateOf(view[k]);
        ToggleSettles(s);
        ToggleTwiceRestores(s);
        assert InReach(once[k], pos);
        SameFirstInReach(view, once, pos, k);
        assert Interaction(once, pos) == once[k := DoorToggled(once[k])];
    }
  }

  /** Changing only the views at and after the first door in reach, while
      keeping that one in reach, keeps it the first. */
  lemma SameFirstInReach(view: seq<ObjectView>, other: seq<ObjectView>, pos: Vec3, k: nat)
    requires FirstInReach(view, pos) == Some(k)
    requires |other| == |view| && other[..k] == view[..k] && InReach(other[k], pos)
    ensures FirstInReach(other, pos) == Some(k)
  {
    assert forall j :: 0 <= j < k ==> other[j] == other[..k][j] == view[..k][j] == view[j];
  }

  predicate GoalInReach(v: ObjectView, pos: Vec3) {
    v.tag == "Goal" && WithinDistance(v.position, pos, GoalRange)
  }

  predicate GoalReached(view: seq<ObjectView>, pos: Vec3) {
    exists i :: 0 <= i < |view| && GoalInReach(view[i], pos)
  }

  // ---------------------------------------------------------------------
  // The player

  /** In a scene of separate objects, the door of object k belongs to no
      other object's view, and no other object shares its transform. */
  lemma DoorIsolated(scene: seq<GameObject>, fr: set<object>, k: nat)
    requires Footprint(scene, fr) && Separate(scene)
    requires k < |scene| && scene[k].GetDoor() != null
    ensures forall i :: 0 <= i < |scene| && i != k ==>
              scene[k].GetDoor() !in ViewParts(scene[i]) && scene[i].transform != scene[k].transform
  {
    var obj := scene[k];
    var b := FirstOfKind(obj.components, DoorKind).value;
    assert obj.GetDoor() == obj.components[b].door;
    assert obj.components[b].Refs() == {obj.GetDoor()};
    forall i | 0 <= i < |scene| && i != k
      ensures obj.GetDoor() !in ViewParts(scene[i]) && scene[i].transform != obj.transform
    {
      assert Disjoint(scene[i], obj);
    }
  }

  /** A scene whose objects are seen one by one as `v` is seen as `v`. */
  lemma SceneViewIs(scene: seq<GameObject>, fr: set<object>, v: seq<ObjectView>)
    requires Footprint(scene, fr) && |v| == |scene|
    requires forall i :: 0 <= i < |scene| ==> ViewOf(scene[i]) == v[i]
    ensures SceneView(scene, fr) == v
  {
    forall i | 0 <= i < |scene|
      ensures SceneView(scene, fr)[i] == v[i]
    {
      SceneViewAt(scene, fr, i);
    }
  }

  /** The toggle step of TryInteractWithDoor: the door of the `k`-th
      object is toggled, which changes that object's view and no other. */
  method ToggleDoorOf(scene: seq<GameObject>, ghost fr: set<object>, k: nat)
    requires Footprint(scene, fr) && Separate(scene)
    requires k < |scene| && SceneView(scene, fr)[k].door.Some?
    modifies {scene[k].GetDoor()}`IsOpen, {scene[k].GetDoor()}`ClosedPosition, {scene[k].GetDoor()}`openPosition
    modifies scene[k].transform`Position
    ensures unchanged(scene) && Footprint(scene, fr)
    ensures SceneView(scene, fr) == old(SceneView(scene, fr))[k := DoorToggled(old(SceneView(scene, fr))[k])]
  {
    ghost var before := SceneView(scene, fr);
    var obj := scene[k];
    SceneViewAt(scene, fr, k);
    ViewOfParts(obj, fr);
    var door := obj.GetDoor();
    DoorIsolated(scene, fr, k);
    forall i | 0 <= i < |scene|
      ensures before[i] == ViewOf(scene[i])
    {
      SceneViewAt(scene, fr, i);
    }
    label pre:
    door.Toggle(obj);
    ghost var after := before[k := DoorToggled(before[k])];
    forall i | 0 <= i < |scene| && i != k
      ensures ViewOf(scene[i]) == after[i]
    {
      assert ViewOf(scene[i]) == old@pre(ViewOf(scene[i]));
    }
    SceneViewIs(scene, fr, after);
  }

  class Player {
    var transform: Transform
    var collider: AABBCollider
    var HasWon: bool

    /** The collider has the player's size and stands where the player
        stands. */
    ghost predicate Valid()
      reads this, collider, transform
    {
      collider.Valid() && collider.Size == PlayerSize && collider.Center == transform.Position
    }

    /** The player is not part of the scene it moves through. */
    predicate Apart(fr: set<object>)
      reads this
    {
      this !in fr && collider !in fr && transform !in fr
    }

    constructor (startPosition: Vec3)
      ensures Valid() && !HasWon && fresh(transform) && fresh(collider)
      ensures transform.Position == startPosition && transform.Rotation == Zero
      ensures transform.Scale == Vec3(1.0, 1.0, 1.0)
    {
      var t := new Transform(startPosition, Zero, Vec3(1.0, 1.0, 1.0));
      transform := t;
      collider := new AABBCollider.Sized(t, PlayerSize);
      HasWon := false;
    }

    /** One `foreach` scan of ResolveCollisions: does some active collider
        overlap the player's collider where it stands now? */
    method AnyBlocks(scene: seq<GameObject>, ghost fr: set<object>) returns (hit: bool)
      requires Footprint(scene, fr)
      ensures hit <==> Blocked(SceneView(scene, fr), collider.Bounds())
    {
      ghost var view := SceneView(scene, fr);
      var i := 0;
      while i < |scene|
        invariant 0 <= i <= |scene|
        invariant forall j :: 0 <= j < i ==> !Blocks(view[j], collider.Bounds())
      {
        var obj := scene[i];
        SceneViewAt(scene, fr, i);
        ViewOfParts(obj, fr);
        var other := obj.GetCollider();
        if other != null {
          var door := obj.GetDoor();
          if !(door != null && door.IsOpen) && collider.Intersects(other) {
            assert Blocks(view[i], collider.Bounds());
            return true;
          }
        }
        i := i + 1;
      }
      return false;
    }

    /** Moves the collider to `pos` and scans the scene from there: the
        `UpdatePosition` call and the `foreach` that follow each step of
        ResolveCollisions. */
    method MoveAndScan(pos: Vec3, scene: seq<GameObject>, ghost fr: set<object>) returns (hit: bool)
      requires collider.Valid() && Footprint(scene, fr) && collider !in fr
      modifies collider
      ensures collider.Valid() && collider.Size == old(collider.Size) && collider.Center == pos
      ensures Footprint(scene, fr) && SceneView(scene, fr) == old(SceneView(scene, fr))
      ensures hit <==> Blocked(SceneView(scene, fr), BoxAt(pos, collider.Size))
    {
      collider.UpdatePosition(pos);
      hit := AnyBlocks(scene, fr);
    }

    /** Per-axis sliding: the X step is kept only if the moved box is free,
        then the Z step likewise. The collider is left at the result. */
    method ResolveCollisions(currentPos: Vec3, velocity: Vec3, scene: seq<GameObject>, ghost fr: set<object>)
      returns (nextPos: Vec3)
      requires collider.Valid() && Footprint(scene, fr) && collider !in fr
      modifies collider
      ensures collider.Valid() && collider.Size == old(collider.Size) && collider.Center == nextPos
      ensures Footprint(scene, fr) && SceneView(scene, fr) == old(SceneView(scene, fr))
      ensures nextPos == Resolved(SceneView(scene, fr), collider.Size, currentPos, velocity)
    {
      ghost var view, size := SceneView(scene, fr), collider.Size;
      nextPos := currentPos;
      nextPos := nextPos.(x := nextPos.x + velocity.x);
      var xCollision := MoveAndScan(nextPos, scene, fr);
      if xCollision {
        nextPos := nextPos.(x := currentPos.x);
      }
      assert nextPos == StepX(view, size, currentPos, velocity);
      ghost var afterX := nextPos;
      nextPos := nextPos.(z := nextPos.z + velocity.z);
      var zCollision := MoveAndScan(nextPos, scene, fr);
      if zCollision {
        nextPos := nextPos.(z := currentPos.z);
      }
      assert nextPos == StepZ(view, size, afterX, velocity);
      collider.UpdatePosition(nextPos);
      assert SceneView(scene, fr) == view;
    }

    /** The `foreach` scan of TryInteractWithDoor, up to the door it stops at. */
    method FindDoorInReach(scene: seq<GameObject>, ghost fr: set<object>) returns (found: Option<nat>)
      requires Footprint(scene, fr)
      ensures found == FirstInReach(SceneView(scene, fr), transform.Position)
    {
      ghost var view := SceneView(scene, fr);
      var i := 0;
      while i < |scene|
        invariant 0 <= i <= |scene|
        invariant forall j :: 0 <= j < i ==> !InReach(view[j], transform.Position)
      {
        var obj := scene[i];
        SceneViewAt(scene, fr, i);
        ViewOfParts(obj, fr);
        if obj.tag == "Door" {
          var door := obj.GetDoor();
          if door != null {
            var doorPosition := if door.ClosedPosition != Zero then door.ClosedPosition else obj.transform.Position;
            if WithinDistance(doorPosition, transform.Position, InteractionRange) {
              assert InReach(view[i], transform.Position);
              return Some(i);
            }
          }
        }
        i := i + 1;
      }
      return None;
    }

    /** Toggles the first door in reach, if any, and nothing else. */
    method TryInteractWithDoor(scene: seq<GameObject>, ghost fr: set<object>)
      requires Footprint(scene, fr) && Separate(scene)
      modifies DoorsOf(scene)`IsOpen, DoorsOf(scene)`ClosedPosition, DoorsOf(scene)`openPosition
      modifies DoorTransforms(scene)`Position
      ensures unchanged(scene) && Footprint(scene, fr)
      ensures SceneView(scene, fr) == Interaction(old(SceneView(scene, fr)), old(transform.Position))
    {
      ghost var view, pos := SceneView(scene, fr), transform.Position;
      var found := FindDoorInReach(scene, fr);
      assert found == FirstInReach(view, pos);
      if found.Some? {
        var k := found.value;
        SceneViewAt(scene, fr, k);
        ViewOfParts(scene[k], fr);
        assert scene[k].GetDoor() in DoorsOf(scene) && scene[k].transform in DoorTransforms(scene);
        ToggleDoorOf(scene, fr, k);
      }
    }

    /** Latches HasWon once a goal is within reach. */
    method CheckGoalCollision(scene: seq<GameObject>, ghost fr: set<object>)
      requires Footprint(scene, fr) && this !in fr
      modifies this`HasWon
      ensures Footprint(scene, fr) && SceneView(scene, fr) == old(SceneView(scene, fr))
      ensures HasWon == (old(HasWon) || GoalReached(SceneView(scene, fr), transform.Position))
    {
      ghost var view := SceneView(scene, fr);
      var i := 0;
      while i < |scene|
        invariant 0 <= i <= |scene|
        invariant HasWon == old(HasWon)
        invariant forall j :: 0 <= j < i ==> !GoalInReach(view[j], transform.Position)
      {
        var obj := scene[i];
        SceneViewAt(scene, fr, i);
        if obj.tag == "Goal" && WithinDistance(obj.transform.Position, transform.Position, GoalRange) {
          assert GoalInReach(view[i], transform.Position);
          HasWon := true;
          assert SceneView(scene, fr) == view;
          return;
        }
        i := i + 1;
      }
    }

    /** The movement step of Update: the player and its collider go where
        collision resolution allows, and the scene stays as it is. */
    method Move(scene: seq<GameObject>, ghost fr: set<object>, moveDirection: Vec3, velocity: Vec3)
      requires Valid() && Footprint(scene, fr) && Apart(fr)
      modifies transform`Position, collider
      ensures Valid() && Footprint(scene, fr) && SceneView(scene, fr) == old(SceneView(scene, fr))
      ensures transform.Position ==
                if moveDirection.LengthSquared() > 0.0
                then Resolved(SceneView(scene, fr), PlayerSize, old(transform.Position), velocity)
                else old(transform.Position)
    {
      if moveDirection.LengthSquared() > 0.0 {
        ghost var view := SceneView(scene, fr);
        var newPosition := ResolveCollisions(transform.Position, velocity, scene, fr);
        transform.Position := newPosition;
        assert SceneView(scene, fr) == view;
      }
    }

    /** One frame. `interact` is the E key being pressed this frame,
        `moveDirection` the sum of the key directions, and `velocity` the
        step it yields once flattened, normalised and scaled by speed and
        frame time. */
    method Update(scene: seq<GameObject>, ghost fr: set<object>, interact: bool, moveDirection: Vec3, velocity: Vec3)
      requires Valid() && Footprint(scene, fr) && Separate(scene) && Apart(fr)
      modifies this`HasWon, transform`Position, collider
      modifies DoorsOf(scene)`IsOpen, DoorsOf(scene)`ClosedPosition, DoorsOf(scene)`openPosition
      modifies DoorTransforms(scene)`Position
      ensures Valid() && Footprint(scene, fr) && Apart(fr) && unchanged(scene)
      ensures old(HasWon) ==> HasWon && unchanged(transform, collider) && unchanged(fr)
      ensures !old(HasWon) && !interact ==> unchanged(fr)
      ensures !old(HasWon) ==>
                SceneView(scene, fr) ==
                  if interact then Interaction(old(SceneView(scene, fr)), old(transform.Position))
                  else old(SceneView(scene, fr))
      ensures !old(HasWon) ==>
                transform.Position ==
                  if moveDirection.LengthSquared() > 0.0
                  then Resolved(SceneView(scene, fr), PlayerSize, old(transform.Position), velocity)
                  else old(transform.Position)
      ensures !old(HasWon) ==> HasWon == GoalReached(SceneView(scene, fr), transform.Position)
    {
      if HasWon {
        return;
      }
      DoorFramesInside(scene, fr);
      ghost var start, pos := SceneView(scene, fr), transform.Position;
      if interact {
        TryInteractWithDoor(scene, fr);
      }
      ghost var view := SceneView(scene, fr);
      assert view == if interact then Interaction(start, pos) else start;
      assert Valid() && transform.Position == pos;
      Move(scene, fr, moveDirection, velocity);
      CheckGoalCollision(scene, fr);
    }
  }
}
