/** The transform record of GameObject.cs. It lives in a module of its own so
    that colliders can be built from a transform. */
module Transforms {
  import opened Geometry

  /** Position, rotation (Euler angles in degrees) and scale of a game object. */
  class Transform {
    var Position: Vec3
    var Rotation: Vec3
    var Scale: Vec3

    constructor (position: Vec3, rotation: Vec3, scale: Vec3)
      ensures Position == position && Rotation == rotation && Scale == scale
    {
      Position := position;
      Rotation := rotation;
      Scale := scale;
    }
  }
}

/** Scene objects and the components attached to them (GameObject.cs), with the
    door component of RoomGenerator.cs: a door is toggled through the game
    object that carries it, and a game object lists its door among its
    components, so the two must share a module. */
module Entities {
  import opened Geometry
  import opened Optional
  import opened Transforms
  import opened Colliders

  /** The drawable part of an object. Its GPU buffers are not modelled. */
  class Renderer {
    var gameObject: GameObject?

    constructor ()
      ensures gameObject == null
    {
      gameObject := null;
    }
  }

  /** How far an opened door slides down into the floor. */
  const Drop := Vec3(0.0, 2.0, 0.0)

  /** What toggling depends on and changes: the door's own fields and the
      position of the object that carries it. */
  datatype DoorState = DoorState(isOpen: bool, closed: Vec3, open: Vec3, position: Vec3)

  /** Captures the closed position on the first call, recognised by the
      zero-vector sentinel. */
  function Initialized(s: DoorState): (r: DoorState)
    ensures r.isOpen == s.isOpen && r.position == s.position
    ensures s.closed != Zero ==> r == s
    ensures s.closed == Zero ==> r.closed == s.position && r.open == s.position.Minus(Drop)
  {
    if s.closed == Zero then s.(closed := s.position, open := s.position.Minus(Drop)) else s
  }

  /** Opening lowers the object to the open position, closing raises it
      to the closed one. Once captured, the positions are never
      overwritten. */
  function Toggled(s: DoorState): (r: DoorState)
    ensures r.isOpen == !s.isOpen
    ensures r.position == (if r.isOpen then r.open else r.closed)
    ensures s.closed != Zero ==> r.closed == s.closed && r.open == s.open
  {
    var t := Initialized(s);
    var opening := !t.isOpen;
    t.(isOpen := opening, position := if opening then t.open else t.closed)
  }

  /** A door whose closed position has been captured and which stands where
      its state says. */
  predicate Settled(s: DoorState) {
    s.closed != Zero && s.open == s.closed.Minus(Drop) &&
    s.position == (if s.isOpen then s.open else s.closed)
  }

  /** Two-state door component. */
  class Door {
    var gameObject: GameObject?
    var IsOpen: bool
    const IsVertical: bool
    var ClosedPosition: Vec3
    var openPosition: Vec3

    constructor (isVertical: bool)
      ensures !IsOpen && IsVertical == isVertical
      ensures ClosedPosition == Zero && openPosition == Zero && gameObject == null
    {
      IsVertical := isVertical;
      IsOpen := false;
      ClosedPosition := Zero;
      openPosition := Zero;
      gameObject := null;
    }

    function State(doorObject: GameObject): (r: DoorState)
      reads this, doorObject, doorObject.transform
    {
      DoorState(IsOpen, ClosedPosition, openPosition, doorObject.transform.Position)
    }

    method InitializePositions(doorObject: GameObject)
      modifies this`ClosedPosition, this`openPosition
      ensures State(doorObject) == Initialized(old(State(doorObject)))
    {
      if ClosedPosition == Zero {
        ClosedPosition := doorObject.transform.Position;
        openPosition := ClosedPosition.Minus(Vec3(0.0, 2.0, 0.0));
      }
    }

    method Toggle(doorObject: GameObject)
      modifies this`IsOpen, this`ClosedPosition, this`openPosition, doorObject.transform`Position
      ensures State(doorObject) == Toggled(old(State(doorObject)))
    {
      InitializePositions(doorObject);
      IsOpen := !IsOpen;
      if IsOpen {
        doorObject.transform.Position := openPosition;
      } else {
        doorObject.transform.Position := ClosedPosition;
      }
    }
  }

  /** The first toggle of a door away from the origin captures where it
      stands and settles it; every later toggle keeps it settled. */
  lemma ToggleSettles(s: DoorState)
    requires Settled(s) || (s.closed == Zero && !s.isOpen && s.position != Zero)
    ensures Settled(Toggled(s))
    ensures Toggled(s).closed == (if Settled(s) then s.closed else s.position)
  {
  }

  /** Two toggles bring a door back exactly, unless the sentinel misfires. */
  lemma ToggleTwiceRestores(s: DoorState)
    requires Settled(s) || (s.closed == Zero && !s.isOpen && s.position != Zero)
    ensures Toggled(Toggled(s)).position == s.position
    ensures Toggled(Toggled(s)).isOpen == s.isOpen
  {
  }

  /** The sentinel misfires for a door that stands at the origin: the second
      toggle captures the open position as the closed one, and the door ends
      up two metres below where it started. */
  lemma SentinelMisfiresAtOrigin()
    ensures var s := DoorState(false, Zero, Zero, Zero);
            Toggled(Toggled(s)).position == Vec3(0.0, -2.0, 0.0) &&
            Toggled(Toggled(s)).position != s.position
  {
  }

  /** The component types that `GetComponent<T>` is asked for. */
  datatype Kind = RendererKind | ColliderKind | DoorKind

  /** One entry of a game object's component list. `Plain` stands for any
      attached value that does not implement IComponent. */
  datatype Component =
    | RendererC(renderer: Renderer)
    | ColliderC(collider: AABBCollider)
    | DoorC(door: Door)
    | Plain(name: string)
  {
    /** `component is T` */
    predicate Is(k: Kind) {
      match k
      case RendererKind => RendererC?
      case ColliderKind => ColliderC?
      case DoorKind => DoorC?
    }

    /** `component is IComponent` */
    predicate Linked() {
      !Plain?
    }

    function Target(): (target: object)
      requires Linked()
    {
      match this
      case RendererC(r) => r
      case ColliderC(c) => c
      case DoorC(d) => d
    }

    /** The object this component is, as a frame. */
    function Refs(): (refs: set<object>) {
      match this
      case RendererC(r) => {r}
      case ColliderC(c) => {c}
      case DoorC(d) => {d}
      case Plain(_) => {}
    }
  }

  /** The objects a component list refers to. */
  function ObjectsOf(cs: seq<Component>): (r: set<object>) {
    set c | c in cs && c.Linked() :: c.Target()
  }

  /** The position of the first component of kind `k`: the first match in
      insertion order, or None when there is none. */
  function FirstOfKind(cs: seq<Component>, k: Kind): (r: Option<nat>)
    ensures r.Some? ==> r.value < |cs| && cs[r.value].Is(k)
  {
    if |cs| == 0 then None
    else if cs[0].Is(k) then Some(0)
    else match FirstOfKind(cs[1..], k)
      case None => None
      case Some(i) => Some(i + 1)
  }

  /** FirstOfKind finds the earliest component of the kind, and finds none
      exactly when the list holds none. */
  lemma {:induction false} FirstOfKindIsFirst(cs: seq<Component>, k: Kind)
    ensures var r := FirstOfKind(cs, k);
            (r.Some? ==> forall j :: 0 <= j < r.value ==> !cs[j].Is(k)) &&
            (r.None? <==> forall j :: 0 <= j < |cs| ==> !cs[j].Is(k))
  {
    if |cs| > 0 && !cs[0].Is(k) {
      FirstOfKindIsFirst(cs[1..], k);
      assert forall j :: 1 <= j < |cs| ==> cs[j] == cs[1..][j - 1];
    }
  }

  /** Any object in the scene: player, wall, door, obstacle, goal. */
  class GameObject {
    var transform: Transform
    var tag: string
    var components: seq<Component>

    constructor (position: Vec3, rotation: Vec3, scale: Vec3)
      ensures fresh(transform)
      ensures transform.Position == position && transform.Rotation == rotation && transform.Scale == scale
      ensures tag == "Untagged" && components == []
    {
      transform := new Transform(position, rotation, scale);
      tag := "Untagged";
      components := [];
    }

    /** The objects that make up this game object's state. */
    function Parts(): (r: set<object>)
      reads this
    {
      {this, transform} + ObjectsOf(components)
    }

    method AddComponent(component: Component)
      modifies this`components, component.Refs()
      ensures components == old(components) + [component]
      ensures component.RendererC? ==> component.renderer.gameObject == this
      ensures component.ColliderC? ==>
                component.collider.gameObject == this &&
                unchanged(component.collider`Center, component.collider`Size,
                          component.collider`Min, component.collider`Max)
      ensures component.DoorC? ==>
                component.door.gameObject == this &&
                unchanged(component.door`IsOpen, component.door`ClosedPosition, component.door`openPosition)
    {
      components := components + [component];
      match component {
        case RendererC(r) => r.gameObject := this;
        case ColliderC(c) => c.gameObject := this;
        case DoorC(d) => d.gameObject := this;
        case Plain(_) =>
      }
    }

    /** `GetComponent<T>()`: the first component of the kind, if any. */
    function GetComponent(k: Kind): (r: Option<Component>)
      reads this
      ensures r.Some? ==> r.value.Is(k) && r.value in components
    {
      match FirstOfKind(components, k)
      case None => None
      case Some(i) => Some(components[i])
    }

    predicate HasComponent(k: Kind)
      reads this
      ensures HasComponent(k) <==> exists j :: 0 <= j < |components| && components[j].Is(k)
    {
      FirstOfKindIsFirst(components, k);
      GetComponent(k).Some?
    }

    /** `GetComponent<AABBCollider>()` */
    function GetCollider(): (r: AABBCollider?)
      reads this
      ensures r == null <==> !HasComponent(ColliderKind)
      ensures r != null ==> GetComponent(ColliderKind) == Some(ColliderC(r))
    {
      var found := GetComponent(ColliderKind);
      if found.Some? then found.value.collider else null
    }

    /** `GetComponent<Door>()` */
    function GetDoor(): (r: Door?)
      reads this
      ensures r == null <==> !HasComponent(DoorKind)
      ensures r != null ==> GetComponent(DoorKind) == Some(DoorC(r))
    {
      var found := GetComponent(DoorKind);
      if found.Some? then found.value.door else null
    }
  }

  /** GetComponent returns the earliest component of the kind in insertion
      order, and nothing exactly when there is none. */
  lemma GetComponentIsFirst(o: GameObject, k: Kind)
    ensures var r := o.GetComponent(k);
            var cs := o.components;
            (r.None? <==> forall j :: 0 <= j < |cs| ==> !cs[j].Is(k)) &&
            (r.Some? ==> r.value.Is(k) &&
                         exists i :: 0 <= i < |cs| && cs[i] == r.value &&
                                     forall j :: 0 <= j < i ==> !cs[j].Is(k))
  {
    FirstOfKindIsFirst(o.components, k);
  }

  /** The component objects the typed lookups return belong to the object
      they were looked up on. */
  lemma TypedLookups(o: GameObject)
    ensures o.GetCollider() != null ==> o.GetCollider() in o.Parts()
    ensures o.GetDoor() != null ==> o.GetDoor() in o.Parts()
  {
  }

  /** Every object the scene's game objects are made of. */
  function SceneParts(scene: seq<GameObject>): (r: set<object>)
    reads scene
  {
    set o, p | o in scene && p in o.Parts() :: p
  }
}
