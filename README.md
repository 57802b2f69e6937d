# 3D room maze with collision: a verified model

The program is a first-person maze of nine 3 m x 3 m rooms, laid out on a
3 x 3 grid. Internal walls separate the rooms, and each internal wall has a
sliding door. The player walks through the rooms with axis-aligned box
colliders and slides along walls. Pressing E opens or closes the first door
in the scene list that is within 1 m. Walking onto the goal marker wins the
game.

This project models the core of the program:

- the axis-aligned bounding box collider;
- the game object with its ordered component list;
- the room generator, including the door component;
- the player's collision resolution, door interaction and goal detection.

It proves what each of them promises.

Files:

- `geometry.dfy` (module `Geometry`): vectors and closed boxes over the
  reals, and the inclusive overlap test with its meaning.
- `option.dfy` (module `Optional`): the optional value.
- `aabb_collider.dfy` (module `Colliders`): the `AABBCollider` class. Its
  bounds are derived from its centre and size, and it moves with
  `UpdatePosition`.
- `game_object.dfy` (modules `Transforms` and `Entities`):
  - the `Transform` record and the `GameObject` class;
  - the component variant type: renderer, collider, door, or any other
    value;
  - first-match `GetComponent`;
  - the `Door` component, with its pure counterpart `Toggled` on a
    `DoorState` value.
- `layout.dfy` (module `Layout`): the generated scene as a value. It lists
  each object's tag, position, scale and parts, in the order they are
  appended, as a function of the random draws consumed. The geometric
  facts about the maze are proved here.
- `room_generator.dfy` (module `Generator`): the `RoomGenerator` class. Each
  builder appends game objects to the scene list, and is proved to append
  exactly the objects the layout plans for the draws it consumes.
- `player.dfy` (module `PlayerControl`): the `Player` class. Its scans are
  proved against pure functions of what they read of the scene:
  - the sliding move is `Resolved`;
  - the door toggle is `Interaction`;
  - the goal test is `GoalReached`.

`Random` is a sequence of draws in [0, 1):

- `NextDouble` consumes one draw.
- `Next(lo, hi)` maps one draw d to lo + floor(d * (hi - lo)).
- A generator that runs out of draws reports failure instead of building a
  scene.

## Model

| member | source | states |
|---|---|---|
| Geometry.BoxAt | 3DRoomMazeWithCollision/AABBCollider.cs:41-45 | The box spans exactly the given size from min to max. With a non-negative size it is proper and contains its centre. |
| Geometry.OverlapSymmetric | 3DRoomMazeWithCollision/AABBCollider.cs:49-54 | The overlap test gives the same answer with its arguments swapped. |
| Geometry.OverlapTouching | 3DRoomMazeWithCollision/AABBCollider.cs:51-53 | The test is inclusive: boxes that only share a face, and meet on the other two axes, overlap. |
| Geometry.OverlapNeedsEveryAxis | 3DRoomMazeWithCollision/AABBCollider.cs:51-53 | A gap on any single axis rules the overlap out. |
| Geometry.OverlapReflexive | 3DRoomMazeWithCollision/AABBCollider.cs:51-53 | A proper box overlaps itself. |
| Geometry.OverlapIffCommonPoint | 3DRoomMazeWithCollision/AABBCollider.cs:47-54 | For proper boxes, the test holds exactly when the two closed boxes share a point. |
| Transforms.Transform.constructor | 3DRoomMazeWithCollision/GameObject.cs:64-69 | The transform holds exactly the given position, rotation and scale. |
| Colliders.AABBCollider.constructor | 3DRoomMazeWithCollision/AABBCollider.cs:18-23 | The centre is copied from the transform's position and the size from its scale. Min and Max are centre -/+ size/2. |
| Colliders.AABBCollider.Sized | 3DRoomMazeWithCollision/AABBCollider.cs:26-31 | The centre is copied from the transform's position and the given size is used. The scale is ignored. The bounds are consistent. |
| Colliders.AABBCollider.UpdatePosition | 3DRoomMazeWithCollision/AABBCollider.cs:34-38 | The centre is replaced and the size is kept. Min and Max are recomputed around the new centre. |
| Colliders.AABBCollider.CalculateBounds | 3DRoomMazeWithCollision/AABBCollider.cs:41-45 | Afterwards Min = Center - Size/2 and Max = Center + Size/2 on every axis. |
| Colliders.AABBCollider.Intersects | 3DRoomMazeWithCollision/AABBCollider.cs:49-54 | The result is the inclusive three-axis overlap of the two stored boxes. For proper boxes it is true exactly when they share a point. |
| Colliders.AABBCollider.GetCorners | 3DRoomMazeWithCollision/AABBCollider.cs:57-70 | There are exactly eight corners, with corner 0 = Min and corner 6 = Max. Each coordinate is a Min or a Max coordinate. For a proper box every corner lies inside it. For a non-flat box the corners are pairwise distinct. |
| Colliders.OverlapIffCommonPointWhenProper | 3DRoomMazeWithCollision/AABBCollider.cs:47-54 | For proper boxes, the overlap test means the boxes have a common point. |
| Colliders.SelfIntersects | 3DRoomMazeWithCollision/AABBCollider.cs:43-53 | A valid collider with a non-negative size intersects itself. |
| Colliders.IntersectsSymmetric | 3DRoomMazeWithCollision/AABBCollider.cs:49-54 | a.Intersects(b) == b.Intersects(a). |
| Entities.Renderer.constructor | 3DRoomMazeWithCollision/Renderer.cs:14-16 | A new renderer is not attached to any object yet: its back-reference is null until `AddComponent` sets it. |
| Entities.Initialized | 3DRoomMazeWithCollision/RoomGenerator.cs:289-297 | The capture step never changes the open state or the position. A captured door is left as it is. An uncaptured one takes its position as the closed position and that position minus (0, 2, 0) as the open one. |
| Entities.Toggled | 3DRoomMazeWithCollision/RoomGenerator.cs:301-317 | A toggle flips the open state and leaves the object at the open position if it is now open, at the closed one otherwise. Once captured, the closed and open positions are never overwritten. |
| Entities.Door.constructor | 3DRoomMazeWithCollision/RoomGenerator.cs:277-286 | A new door is closed, remembers its orientation, and has not captured any positions yet: both are the zero vector. |
| Entities.Door.InitializePositions | 3DRoomMazeWithCollision/RoomGenerator.cs:289-297 | Only while the closed position is the zero vector, it captures the object's position as the closed position and that position minus (0, 2, 0) as the open position. Otherwise nothing changes. |
| Entities.Door.Toggle | 3DRoomMazeWithCollision/RoomGenerator.cs:301-317 | The door's fields and its object's position become `Toggled` of their old values: capture first, then flip IsOpen, then move the object to the open or closed position. |
| Entities.ToggleSettles | 3DRoomMazeWithCollision/RoomGenerator.cs:289-317 | A toggle of a settled door, or the first toggle of a door away from the origin, leaves the door settled. Settled means captured, with the open position 2 m below the closed one, and standing where its state says. The closed position is where the door stood before its first toggle. |
| Entities.ToggleTwiceRestores | 3DRoomMazeWithCollision/RoomGenerator.cs:301-317 | For such a door, two toggles restore its position and its open state exactly. |
| Entities.SentinelMisfiresAtOrigin | 3DRoomMazeWithCollision/RoomGenerator.cs:291 | The zero-vector sentinel misfires for a door standing at the origin: after two toggles it stands at (0, -2, 0) and not where it started. |
| Entities.FirstOfKind | 3DRoomMazeWithCollision/GameObject.cs:34-41 | A found index lies in the list and holds a component of the requested type. |
| Entities.FirstOfKindIsFirst | 3DRoomMazeWithCollision/GameObject.cs:34-41 | The found index is the earliest match. Nothing is found exactly when no component has the type. |
| Entities.GameObject.constructor | 3DRoomMazeWithCollision/GameObject.cs:10-17 | A new object is tagged "Untagged", has no components, and has a fresh transform holding the given position, rotation and scale. |
| Entities.GameObject.AddComponent | 3DRoomMazeWithCollision/GameObject.cs:20-29 | The component is appended after the earlier ones, which keep their order. An IComponent (renderer, collider or door) gets its back-reference set to this object, and its other fields are unchanged. |
| Entities.GetComponentIsFirst | 3DRoomMazeWithCollision/GameObject.cs:32-42 | GetComponent returns the first component of the type in insertion order, and returns nothing exactly when there is none. |
| Entities.GameObject.GetComponent | 3DRoomMazeWithCollision/GameObject.cs:32-42 | A component it returns is in the object's list and has the requested type. |
| Entities.GameObject.HasComponent | 3DRoomMazeWithCollision/GameObject.cs:45-48 | It holds exactly when some component in the list has the type. |
| Entities.GameObject.GetCollider | 3DRoomMazeWithCollision/GameObject.cs:32-42 | `GetComponent<AABBCollider>()` is null exactly when the object has no collider. Otherwise it is the collider GetComponent finds. |
| Entities.GameObject.GetDoor | 3DRoomMazeWithCollision/GameObject.cs:32-42 | `GetComponent<Door>()` is null exactly when the object has no door. Otherwise it is the door GetComponent finds. |
| Entities.TypedLookups | 3DRoomMazeWithCollision/GameObject.cs:20-42 | The collider and door the lookups return are among the objects the game object is made of. |
| Layout.NextIn | 3DRoomMazeWithCollision/RoomGenerator.cs:214 | For a draw in [0, 1) and lo < hi, `Next(lo, hi)` lies in [lo, hi). |
| Layout.FloorLayout | 3DRoomMazeWithCollision/RoomGenerator.cs:43-58 | There are nine floors, tagged "Floor", of scale (3, 0.1, 3), each with a renderer and no collider. Every room (3x, 0, 3z) has one, and no two share a position. |
| Layout.OuterWallLayout | 3DRoomMazeWithCollision/RoomGenerator.cs:64-91 | The four outer walls stand at z = +-4.5 and x = +-4.5, 1.25 m up, and span the full 9 m. Each has a renderer and a collider and no door. |
| Layout.WallWithDoorTiles | 3DRoomMazeWithCollision/RoomGenerator.cs:131-166 | The pieces are a segment, a segment, and a door at the wall's centre. Along the wall, segment, door and segment tile [c - 1.5, c + 1.5] with no gap and no overlap. The segments are 1 m long and the door is 1 m wide, all on the wall's line. The door has a collider and a door component with the wall's orientation. |
| Layout.DoorsOfWallLayout | 3DRoomMazeWithCollision/RoomGenerator.cs:93-127 | The walls are 40 objects. The doors are exactly the third piece of each internal wall, and each stands at that wall's centre. |
| Layout.UnitBetween | 3DRoomMazeWithCollision/RoomGenerator.cs:97-127 | For two neighbouring rooms, one of the twelve internal walls stands midway between their centres. |
| Layout.UnitCenterInjective | 3DRoomMazeWithCollision/RoomGenerator.cs:97-127 | No two internal walls share a centre. |
| Layout.OneDoorPerAdjacentPair | 3DRoomMazeWithCollision/RoomGenerator.cs:93-127 | Every pair of neighbouring rooms has exactly one door on its shared wall. |
| Layout.EveryDoorJoinsNeighbours | 3DRoomMazeWithCollision/RoomGenerator.cs:93-127 | Every generated door lies between two neighbouring rooms. |
| Layout.DoorsAwayFromOrigin | 3DRoomMazeWithCollision/RoomGenerator.cs:99-126 | Every generated door stands 1.25 m up, never at the origin, so the door sentinel cannot misfire on it. |
| Layout.CubesPlanShape | 3DRoomMazeWithCollision/RoomGenerator.cs:213-225 | Asking for n cubes yields n cubes (none when n <= 0). Each has an edge in [0.3, 0.6), rests on the floor, lies within [-1, 1) of the room centre horizontally, and has a collider. |
| Layout.ObstaclesShape | 3DRoomMazeWithCollision/RoomGenerator.cs:201-225 | A room gets at most three obstacles. Only the first may be a pillar: 0.5 x 2.5 x 0.5, standing on the floor, within [-1, 1) of the centre, with a collider. The rest are cubes. |
| Layout.RoomsFromShape | 3DRoomMazeWithCollision/RoomGenerator.cs:190-228 | Every obstacle generated belongs to one of the eight outer rooms. |
| Layout.NothingInCentreRoom | 3DRoomMazeWithCollision/RoomGenerator.cs:196-199 | No obstacle stands in the centre room's 3 x 3 footprint, where the player starts. |
| Layout.GoalPlan | 3DRoomMazeWithCollision/RoomGenerator.cs:251-267 | A placed goal is tagged "Goal". From draws in [0, 1) it is the marker at (3x, 0.5, 3z) for some room (x, z) of the grid other than (0, 0), and the draws left over are still draws. |
| Layout.ScenePlan | 3DRoomMazeWithCollision/RoomGenerator.cs:27-40 | A planned scene starts with the nine floors and the forty wall pieces, in that order, and ends with the goal it returns. |
| Generator.SceneBuilt | 3DRoomMazeWithCollision/RoomGenerator.cs:27-40 | Floors, then walls, then obstacles, then the goal, appended in that order, make up exactly the planned scene. |
| Generator.SceneFails | 3DRoomMazeWithCollision/RoomGenerator.cs:27-40 | If the obstacles or the goal cannot be drawn, there is no planned scene. |
| Generator.NextDouble | 3DRoomMazeWithCollision/RoomGenerator.cs:202 | It takes the next draw, which lies in [0, 1), and fails exactly when none is left. |
| Generator.Next | 3DRoomMazeWithCollision/RoomGenerator.cs:214 | It consumes one draw and yields a value in [lo, hi). It fails exactly when no draw is left. |
| Generator.RoomGenerator.constructor | 3DRoomMazeWithCollision/RoomGenerator.cs:20-24 | The generator starts with the whole stream of draws. |
| Generator.RoomGenerator.GenerateRooms | 3DRoomMazeWithCollision/RoomGenerator.cs:27-40 | It only appends to the list: earlier entries stay in place. The appended objects realise the planned scene, the returned goal is the last object appended, and the draws used are consumed. It fails exactly when the plan does. |
| Generator.RoomGenerator.GenerateFloorsAndWalls | 3DRoomMazeWithCollision/RoomGenerator.cs:29-33 | It appends the nine floors and then the forty wall pieces, as planned. |
| Generator.RoomGenerator.GenerateFloors | 3DRoomMazeWithCollision/RoomGenerator.cs:43-58 | It appends exactly the nine planned floors, x in the outer loop and z in the inner one. |
| Generator.RoomGenerator.CreateFloor | 3DRoomMazeWithCollision/RoomGenerator.cs:49-55 | It appends one floor for room (x, z). |
| Generator.RoomGenerator.GenerateWalls | 3DRoomMazeWithCollision/RoomGenerator.cs:62-128 | It appends the four outer walls and then the twelve wall-with-door units, in loop order. |
| Generator.RoomGenerator.GenerateVerticalWalls | 3DRoomMazeWithCollision/RoomGenerator.cs:95-110 | It appends the six north-south walls with their doors, at x = -1.5 and then at x = 1.5, for z = -1, 0, 1 in turn. |
| Generator.RoomGenerator.GenerateHorizontalWalls | 3DRoomMazeWithCollision/RoomGenerator.cs:112-127 | It appends the six east-west walls with their doors, at z = -1.5 and then at z = 1.5, for x = -1, 0, 1 in turn. |
| Generator.RoomGenerator.GenerateOuterWalls | 3DRoomMazeWithCollision/RoomGenerator.cs:67-91 | It appends the north, south, east and west walls. |
| Generator.RoomGenerator.CreateWallWithDoor | 3DRoomMazeWithCollision/RoomGenerator.cs:131-166 | It appends the two segments and the closed door of one wall, as planned. |
| Generator.RoomGenerator.CreateWall | 3DRoomMazeWithCollision/RoomGenerator.cs:169-176 | It appends one tagged wall with a renderer and a collider covering its transform. |
| Generator.RoomGenerator.CreateDoor | 3DRoomMazeWithCollision/RoomGenerator.cs:179-187 | It appends one "Door" with a renderer, a collider, and a closed door component that has not captured any positions, each linked back to it. |
| Generator.RoomGenerator.GenerateObstacles | 3DRoomMazeWithCollision/RoomGenerator.cs:190-228 | It appends the planned obstacles of the eight outer rooms and hands back the draws left. It fails exactly when the draws run out. |
| Generator.RoomGenerator.GenerateRoomObstacles | 3DRoomMazeWithCollision/RoomGenerator.cs:201-225 | For one room it appends the optional pillar and then 0-2 cubes, from the draws in the source's order. |
| Generator.RoomGenerator.GenerateCubes | 3DRoomMazeWithCollision/RoomGenerator.cs:214-225 | It appends the planned cubes, three draws each. |
| Generator.RoomGenerator.GenerateGoalObject | 3DRoomMazeWithCollision/RoomGenerator.cs:251-270 | It repeats the two-draw pick while it yields the centre room, then appends the goal and returns it as the last object. It fails, appending nothing, exactly when the draws run out. |
| Generator.RoomGenerator.CreatePillar | 3DRoomMazeWithCollision/RoomGenerator.cs:231-238 | It appends one "Pillar" of scale 0.5 x 2.5 x 0.5 with a renderer and a collider. |
| Generator.RoomGenerator.CreateCube | 3DRoomMazeWithCollision/RoomGenerator.cs:241-248 | It appends one "Obstacle" cube of the given edge, with a renderer and a collider. |
| PlayerControl.ViewOfParts | 3DRoomMazeWithCollision/Player.cs:168-172 | The collider and door the scans look up are the ones in the object's view, and belong to the scene's footprint. |
| PlayerControl.Resolved | 3DRoomMazeWithCollision/Player.cs:157-210 | Resolution never changes Y. X and Z each either stay or take their whole step: there are no partial steps. |
| PlayerControl.ResolvedAdvances | 3DRoomMazeWithCollision/Player.cs:162-205 | X advances exactly when the box moved along X meets no active collider. Z advances exactly when the box moved along Z from the X-resolved position is free. |
| PlayerControl.ResolvedSlides | 3DRoomMazeWithCollision/Player.cs:154-205 | Blocked along X but free along Z, the player slides along Z alone. |
| PlayerControl.ResolvedStaysClear | 3DRoomMazeWithCollision/Player.cs:157-210 | A player who stands clear of every active collider is still clear after the move. |
| PlayerControl.BlockedIgnoresInert | 3DRoomMazeWithCollision/Player.cs:168-174 | An object without a collider, or with an open door, never decides whether a box is blocked. |
| PlayerControl.ResolvedIgnoresInert | 3DRoomMazeWithCollision/Player.cs:166-205 | Floors, the goal and open doors never affect the move, wherever they stand in the list. |
| PlayerControl.ResolvedFree | 3DRoomMazeWithCollision/Player.cs:157-210 | In a scene of inert objects the player takes the whole step. |
| PlayerControl.FirstInReach | 3DRoomMazeWithCollision/Player.cs:111-129 | The chosen object is the first "Door"-tagged object with a door component whose reference point is within 1 m. The reference point is the captured closed position, or the live position before any capture. Nothing is chosen exactly when no object qualifies. |
| PlayerControl.DoorToggled | 3DRoomMazeWithCollision/Player.cs:127 | The door's state becomes `Toggled` of the old one. The tag and the collider bounds are unchanged. |
| PlayerControl.Interaction | 3DRoomMazeWithCollision/Player.cs:109-133 | The scene after pressing E has as many objects as before. What changes is stated by InteractionTogglesOne. |
| PlayerControl.InteractionTogglesOne | 3DRoomMazeWithCollision/Player.cs:109-133 | Pressing E changes at most one object: the first door in reach, whose open state flips. No tag changes and no collider moves. With no door in reach, nothing changes. |
| PlayerControl.InteractionTwiceRestores | 3DRoomMazeWithCollision/Player.cs:109-133 | In a scene of well-formed doors, pressing E twice without moving restores every object's position, tag, collider and open state. |
| PlayerControl.GoalReached | 3DRoomMazeWithCollision/Player.cs:136-152 | Some object tagged "Goal" stands within 0.5 m of the player. It has no contract of its own: CheckGoalCollision and Update are proved against it. |
| PlayerControl.ToggleDoorOf | 3DRoomMazeWithCollision/Player.cs:127 | Toggling the door of the k-th object changes that object's view by `DoorToggled` and no other object's view. It may write only that door's fields and the Position of that object's transform. |
| PlayerControl.Player.constructor | 3DRoomMazeWithCollision/Player.cs:23-32 | The player starts at the given position, not having won. Its collider is 0.2 x 1.5 x 0.2 and centred on the player. |
| PlayerControl.Player.AnyBlocks | 3DRoomMazeWithCollision/Player.cs:166-183 | The scan finds a hit exactly when some object with an active collider (one not on an open door) overlaps the player's collider. |
| PlayerControl.Player.MoveAndScan | 3DRoomMazeWithCollision/Player.cs:162-183 | The collider moves to the tried position, keeping its size. The scan then reports a hit exactly when the player's box there is blocked. The scene is unchanged. |
| PlayerControl.Player.ResolveCollisions | 3DRoomMazeWithCollision/Player.cs:157-211 | The returned position is `Resolved` of the scene: the X scan, then the Z scan. The collider keeps its size and ends centred on the returned position. The scene is unchanged. |
| PlayerControl.Player.FindDoorInReach | 3DRoomMazeWithCollision/Player.cs:111-126 | The scan finds exactly `FirstInReach` of the scene at the player's position. |
| PlayerControl.Player.TryInteractWithDoor | 3DRoomMazeWithCollision/Player.cs:109-133 | The scene becomes `Interaction` of the old scene at the player's position. It may write only the fields of the scene's door components and the Position of their objects' transforms. |
| PlayerControl.Player.CheckGoalCollision | 3DRoomMazeWithCollision/Player.cs:136-152 | HasWon becomes true when some "Goal" object is within 0.5 m, and is never set back. The scene is unchanged. |
| PlayerControl.Player.Move | 3DRoomMazeWithCollision/Player.cs:67-81 | A non-zero move direction takes the player and its collider to `Resolved` of the scene, and a zero one leaves them where they are. The scene is unchanged. |
| PlayerControl.Player.Update | 3DRoomMazeWithCollision/Player.cs:35-86 | Once won, nothing changes. Otherwise, if E was pressed, the first door in reach is toggled, and without E no scene object changes. A non-zero move direction moves the player to `Resolved`, and a zero one leaves the position alone. HasWon then says whether the goal is in reach. Besides the player, it may write only door fields and the Position of door objects' transforms. |

## Left out

- Rendering is not modelled: `Shader.cs`, `Renderer.cs` (beyond its back-reference), `Mesh.cs`, `Camera.cs` and `Transform.GetModelMatrix`. These are GPU and trigonometric code.
- The renderer's shader argument is not modelled, since it only feeds drawing.
- `Game.cs` is not part of this model: window, input polling and console output.
- Mouse look and the normalisation of the key direction in `Player.Update` are not modelled, because they need square roots and camera vectors. `Update` receives the move direction and the velocity it yields. The camera following the player is not modelled.
- Single-precision floating point is not modelled. Coordinates are exact reals, and `Length <= r` is modelled as squared length <= r * r.
- The .NET `Random` algorithm and seed 42 are not modelled. Randomness is a caller-supplied finite sequence of draws in [0, 1). Running out of draws is a model-only failure, since the real generator never runs out.
- `AABBCollider.GameObject` is typed `object?`, not `GameObject?`, because the game-object module imports the collider module.
- The aliasing the program's construction guarantees is a precondition of the player's methods, not proved: every scene object owns its transform and components, and the player's own objects are not among them. This is stated as a ghost footprint `fr` with `Footprint`, `Separate` and `Apart`.
- The player methods state their effect on what the scans read of each object: tag, position, collider bounds and door state. Their `modifies` clauses confine every other effect to the door components' fields and the Position of the door objects' transforms, so renderers, colliders, rotations, scales and back-references are unchanged.
- PlayerControl.Player.Update: its contract does not restate `Separate` afterwards. `Separate` reads only the scene list's game objects, which `Update` leaves unchanged.
- Several helpers are split out of the source's methods, so that each loop is proved on its own: `CreateFloor`, `GenerateOuterWalls`, `GenerateVerticalWalls`, `GenerateHorizontalWalls`, `GenerateRoomObstacles`, `GenerateCubes`, `GenerateFloorsAndWalls`, `AnyBlocks`, `MoveAndScan`, `FindDoorInReach`, `ToggleDoorOf` and `Move`. The source writes their bodies inline.
- The generator hands the scene list back as a sequence with the new objects appended, instead of appending to a shared `List` in place.
