/**
 * Mobile actors: the player and the non-player characters (NPCs).
 *
 * The sprite base class, the shared entity class and its two subclasses are flattened
 * into one class `Entity` with a `kind` tag. The movement state of an entity is described
 * by the value `Body`; each method that moves an entity is specified by a function on
 * `Body`, and the properties of movement are lemmas about those functions.
 *
 * Position lists. An entity keeps its position in a two-element list and a saved copy in
 * `old_position`. `save_location` stores a fresh copy, but `move_back` makes `position`
 * and `old_position` the SAME list. `Body.shared` records that aliasing: while it is set,
 * every write to the position is also a write to the saved position.
 */
module Entities {
  import opened Util
  import opened Geometry
  import opened Animation
  import opened Tiled

  datatype Kind = PlayerKind | NpcKind

  /** Size of one sprite frame, hence of an entity's `rect`. */
  const SPRITE_WIDTH: int := 23
  const SPRITE_HEIGHT: int := 32
  /** The feet are half as wide as the sprite (23 * 0.5 truncated) and 8 pixels high. */
  const FEET_WIDTH: int := 11
  const FEET_HEIGHT: int := 8

  const PLAYER_HP: int := 100
  const PLAYER_ATTACK: int := 10
  const NPC_HP: int := 50
  const NPC_ATTACK: int := 7
  /** Walking speed of an NPC that is not blocked by the player. */
  const NPC_SPEED: int := 1
  /** Largest cross-axis misalignment (exclusive) for which an NPC walks toward its next waypoint. */
  const PATROL_TOLERANCE: int := 3

  /** Movement state of one entity. */
  datatype Body = Body(
    x: int, y: int,          // position
    oldX: int, oldY: int,    // old_position
    shared: bool,            // position and old_position are one list
    rect: Rect, feet: Rect,
    speed: int,
    anim: AnimState,
    currentPoint: int)       // patrol cursor (NPCs only)

  /** Bounds every entity keeps: frame counter in range, fixed rect and feet sizes, non-negative speed. */
  predicate BodyOk(b: Body)
  {
    && CounterOk(b.anim)
    && b.rect.w == SPRITE_WIDTH && b.rect.h == SPRITE_HEIGHT
    && b.feet.w == FEET_WIDTH && b.feet.h == FEET_HEIGHT
    && b.speed >= 0
    && (b.shared ==> b.x == b.oldX && b.y == b.oldY)
  }

  /** A freshly created entity at (0, 0), before its first `update`. */
  function InitialBody(speed: int): (b: Body)
    requires speed >= 0
    ensures BodyOk(b) && !b.shared && b.x == b.oldX == 0 && b.y == b.oldY == 0
  {
    Body(0, 0, 0, 0, false, Rect(0, 0, SPRITE_WIDTH, SPRITE_HEIGHT), Rect(0, 0, FEET_WIDTH, FEET_HEIGHT),
         speed, InitialAnim(), 0)
  }

  /** `save_location`: `old_position` becomes a new list equal to `position`. */
  function Save(b: Body): Body
  {
    b.(oldX := b.x, oldY := b.y, shared := false)
  }

  /** Writing both cells of the position list; through the alias they also land in `old_position`. */
  function WritePosition(b: Body, nx: int, ny: int): Body
  {
    b.(x := nx, y := ny,
       oldX := if b.shared then nx else b.oldX,
       oldY := if b.shared then ny else b.oldY)
  }

  /** The offset one step in direction `d` adds to the position at the given speed. */
  function Delta(d: Direction, speed: int): (int, int)
  {
    match d
    case Right => (speed, 0)
    case Left => (-speed, 0)
    case Up => (0, -speed)
    case Down => (0, speed)
  }

  /** `move_right`, `move_left`, `move_up`, `move_down`: advance the animation, then add the step. */
  function Step(b: Body, d: Direction): Body
    requires 0 <= b.anim.animationIndex < FRAMES_PER_DIRECTION
  {
    var animated := b.(anim := ChangeAnimation(b.anim, d, b.speed));
    var delta := Delta(d, b.speed);
    WritePosition(animated, b.x + delta.0, b.y + delta.1)
  }

  /** `update`: the rect's top-left corner goes to the position and the feet under the rect's bottom centre. */
  function Refresh(b: Body): Body
  {
    var r := WithTopLeft(b.rect, b.x, b.y);
    b.(rect := r, feet := WithMidBottom(b.feet, MidBottom(r)))
  }

  /** `move_back`: `position` becomes the list `old_position` itself, then rect and feet follow. */
  function Revert(b: Body): Body
  {
    Refresh(b.(x := b.oldX, y := b.oldY, shared := true))
  }

  lemma BodyOkKept(b: Body, d: Direction)
    requires BodyOk(b)
    ensures BodyOk(Save(b)) && BodyOk(Refresh(b)) && BodyOk(Revert(b)) && BodyOk(Step(b, d))
  {
    ChangeAnimationSpec(b.anim, d, b.speed);
  }

  /** After `update` (and so after `move_back`) the rect sits at the position and the feet under its bottom centre. */
  lemma RefreshPlacesFeet(b: Body)
    requires BodyOk(b)
    ensures var c := Refresh(b);
      && c.rect == Rect(b.x, b.y, SPRITE_WIDTH, SPRITE_HEIGHT)
      && c.feet.w == FEET_WIDTH == SPRITE_WIDTH / 2 && c.feet.h == FEET_HEIGHT
      && c.feet.y + c.feet.h == c.rect.y + c.rect.h
      && MidBottom(c.feet) == MidBottom(c.rect)
      && c.feet == Rect(b.x + SPRITE_WIDTH / 2 - FEET_WIDTH / 2, b.y + SPRITE_HEIGHT - FEET_HEIGHT, FEET_WIDTH, FEET_HEIGHT)
  {
  }

  /** `save_location` stores an independent copy: moving afterwards leaves the saved position alone. */
  lemma SaveIsIndependentCopy(b: Body, d: Direction)
    requires BodyOk(b)
    ensures Save(b).oldX == b.x && Save(b).oldY == b.y
    ensures Step(Save(b), d).oldX == b.x && Step(Save(b), d).oldY == b.y
  {
  }

  /** Each move changes exactly one coordinate, by plus or minus the speed, and keeps the other. */
  lemma StepMovesOneAxis(b: Body, d: Direction)
    requires BodyOk(b)
    ensures var c := Step(b, d);
      && (d == Right ==> c.x == b.x + b.speed && c.y == b.y)
      && (d == Left ==> c.x == b.x - b.speed && c.y == b.y)
      && (d == Up ==> c.y == b.y - b.speed && c.x == b.x)
      && (d == Down ==> c.y == b.y + b.speed && c.x == b.x)
      && c.rect == b.rect && c.feet == b.feet && c.speed == b.speed && c.currentPoint == b.currentPoint
      && c.anim.image == Frame(d, b.anim.animationIndex)
  {
  }

  /** After `move_back` the position equals the saved one, and the two are now the same list. */
  lemma MoveBackRestores(b: Body)
    ensures var c := Revert(b);
      c.x == c.oldX == b.oldX && c.y == c.oldY == b.oldY && c.shared
  {
  }

  /**
   * Consequence of the alias: after `move_back` and before the next `save_location`, moves
   * carry the saved position along, so a second `move_back` no longer undoes anything.
   */
  lemma MoveBackAliasesSavedPosition(b: Body, d: Direction)
    requires BodyOk(b)
    ensures var moved := Step(Revert(b), d);
      && moved.oldX == moved.x && moved.oldY == moved.y
      && Revert(moved).x == moved.x && Revert(moved).y == moved.y
  {
  }

  /** A move made after `save_location` and undone by `move_back` leaves the entity where it was saved. */
  lemma {:induction false} MovesAfterSaveAreUndone(b: Body, moves: seq<Direction>)
    requires BodyOk(b)
    ensures var c := Revert(StepAll(Save(b), moves)); c.x == b.x && c.y == b.y
  {
    SavedPositionSurvivesMoves(Save(b), moves);
  }

  /** A sequence of moves in order. */
  function StepAll(b: Body, moves: seq<Direction>): (c: Body)
    requires BodyOk(b)
    ensures BodyOk(c)
    decreases |moves|
  {
    if |moves| == 0 then b
    else
      BodyOkKept(b, moves[0]);
      StepAll(Step(b, moves[0]), moves[1..])
  }

  lemma {:induction false} SavedPositionSurvivesMoves(b: Body, moves: seq<Direction>)
    requires BodyOk(b) && !b.shared
    ensures var c := StepAll(b, moves); !c.shared && c.oldX == b.oldX && c.oldY == b.oldY
    decreases |moves|
  {
    if |moves| > 0 {
      BodyOkKept(b, moves[0]);
      SavedPositionSurvivesMoves(Step(b, moves[0]), moves[1..]);
    }
  }

  /** Without a revert, the position after a sequence of moves is the start plus the sum of the steps. */
  function SumDelta(moves: seq<Direction>, speed: int): (int, int)
  {
    if |moves| == 0 then (0, 0)
    else
      var rest := SumDelta(moves[1..], speed);
      (Delta(moves[0], speed).0 + rest.0, Delta(moves[0], speed).1 + rest.1)
  }

  lemma {:induction false} StepAllAddsDeltas(b: Body, moves: seq<Direction>)
    requires BodyOk(b)
    ensures StepAll(b, moves).x == b.x + SumDelta(moves, b.speed).0
    ensures StepAll(b, moves).y == b.y + SumDelta(moves, b.speed).1
    ensures StepAll(b, moves).speed == b.speed
    decreases |moves|
  {
    if |moves| > 0 {
      BodyOkKept(b, moves[0]);
      StepAllAddsDeltas(Step(b, moves[0]), moves[1..]);
    }
  }

  // ---------------------------------------------------------------- NPC patrol

  /** Index of the waypoint an NPC heads for: the next one, wrapping to 0 at `nb`. */
  function PatrolTarget(current: int, nb: int): int
  {
    if current + 1 >= nb then 0 else current + 1
  }

  /** The walking direction from waypoint `cur` to `tgt`: down, up, left, right in that priority. */
  function PatrolDirection(cur: Rect, tgt: Rect): Option<Direction>
  {
    if cur.y < tgt.y && Abs(cur.x - tgt.x) < PATROL_TOLERANCE then Some(Down)
    else if cur.y > tgt.y && Abs(cur.x - tgt.x) < PATROL_TOLERANCE then Some(Up)
    else if cur.x > tgt.x && Abs(cur.y - tgt.y) < PATROL_TOLERANCE then Some(Left)
    else if cur.x < tgt.x && Abs(cur.y - tgt.y) < PATROL_TOLERANCE then Some(Right)
    else None
  }

  /** The waypoints are loaded and the cursor points at one of the first `nb` of them. */
  predicate PatrolOk(b: Body, points: seq<Rect>, nb: int)
  {
    1 <= nb <= |points| && 0 <= b.currentPoint < nb
  }

  /** NPC `move`: at most one step toward the next waypoint, then arrival on overlap with it. */
  function Patrol(b: Body, points: seq<Rect>, nb: int): Body
    requires PatrolOk(b, points, nb) && CounterOk(b.anim)
  {
    var target := PatrolTarget(b.currentPoint, nb);
    var moved := match PatrolDirection(points[b.currentPoint], points[target])
                 case Some(d) => Step(b, d)
                 case None => b;
    if Collides(moved.rect, points[target]) then moved.(currentPoint := target) else moved
  }

  /** The target is the cyclic successor of the cursor. */
  lemma PatrolTargetIsSuccessor(current: int, nb: int)
    requires 0 <= current < nb
    ensures PatrolTarget(current, nb) == (current + 1) % nb
    ensures 0 <= PatrolTarget(current, nb) < nb
  {
  }

  /**
   * One patrol call: at most one step (in the direction `PatrolDirection` picks), the cursor
   * moves to the target exactly when the rect overlaps the target waypoint, and it stays
   * within the first `nb` waypoints.
   */
  lemma PatrolSpec(b: Body, points: seq<Rect>, nb: int)
    requires PatrolOk(b, points, nb) && BodyOk(b)
    ensures var c := Patrol(b, points, nb);
      var target := PatrolTarget(b.currentPoint, nb);
      && PatrolOk(c, points, nb) && BodyOk(c)
      && c.currentPoint == (if Collides(b.rect, points[target]) then target else b.currentPoint)
      && (PatrolDirection(points[b.currentPoint], points[target]).None? ==> c == b.(currentPoint := c.currentPoint))
      && (PatrolDirection(points[b.currentPoint], points[target]).Some? ==>
            var delta := Delta(PatrolDirection(points[b.currentPoint], points[target]).value, b.speed);
            c.x == b.x + delta.0 && c.y == b.y + delta.1)
      && c.rect == b.rect
  {
    var target := PatrolTarget(b.currentPoint, nb);
    match PatrolDirection(points[b.currentPoint], points[target])
    case Some(d) => BodyOkKept(b, d);
    case None =>
  }

  /** The direction rule never leaves the axis along which the waypoints are (nearly) aligned. */
  lemma PatrolDirectionSpec(cur: Rect, tgt: Rect)
    ensures PatrolDirection(cur, tgt) == Some(Down) <==> cur.y < tgt.y && Abs(cur.x - tgt.x) < PATROL_TOLERANCE
    ensures PatrolDirection(cur, tgt) == Some(Up) <==>
              cur.y > tgt.y && Abs(cur.x - tgt.x) < PATROL_TOLERANCE
    ensures PatrolDirection(cur, tgt) == Some(Left) <==>
              cur.x > tgt.x && Abs(cur.y - tgt.y) < PATROL_TOLERANCE
              && !(cur.y != tgt.y && Abs(cur.x - tgt.x) < PATROL_TOLERANCE)
    ensures PatrolDirection(cur, tgt) == Some(Right) <==>
              cur.x < tgt.x && Abs(cur.y - tgt.y) < PATROL_TOLERANCE
              && !(cur.y != tgt.y && Abs(cur.x - tgt.x) < PATROL_TOLERANCE)
    ensures PatrolDirection(cur, cur) == None
  {
  }

  /** With a single waypoint the target is the current one: the NPC never moves and stays on waypoint 0. */
  lemma SingleWaypointStandsStill(b: Body, points: seq<Rect>)
    requires PatrolOk(b, points, 1) && BodyOk(b)
    ensures Patrol(b, points, 1) == b
    ensures b.currentPoint == 0
  {
    PatrolDirectionSpec(points[0], points[0]);
  }

  /** The waypoint reached after `k` arrivals starting from waypoint 0. */
  function Arrivals(k: nat, nb: int): int
  {
    if k == 0 then 0 else PatrolTarget(Arrivals(k - 1, nb), nb)
  }

  /** The first `nb` arrivals visit 0, 1, ..., nb - 1 in order. */
  lemma {:induction false} ArrivalsCountUp(r: nat, nb: int)
    requires r < nb
    ensures Arrivals(r, nb) == r
  {
    if r > 0 {
      ArrivalsCountUp(r - 1, nb);
    }
  }

  /** After `nb` arrivals the cursor is where it started: the patrol is a cycle of length `nb`. */
  lemma {:induction false} ArrivalsPeriodic(k: nat, nb: int)
    requires nb >= 1
    ensures Arrivals(k + nb, nb) == Arrivals(k, nb)
  {
    if k == 0 {
      ArrivalsCountUp(nb - 1, nb);
    } else {
      ArrivalsPeriodic(k - 1, nb);
      assert k + nb - 1 == (k - 1) + nb;
    }
  }

  /** Arrivals visit 0, 1, ..., nb - 1, 0, 1, ...: the `k`-th arrival is at waypoint `k % nb`. */
  lemma {:induction false} ArrivalsCycle(k: nat, nb: int)
    requires nb >= 1
    ensures Arrivals(k, nb) == k % nb
    decreases k
  {
    if k < nb {
      ArrivalsCountUp(k, nb);
    } else {
      ArrivalsCycle(k - nb, nb);
      ArrivalsPeriodic(k - nb, nb);
      ModShift(k - nb, nb);
      assert k - nb + nb == k;
    }
  }

  // ---------------------------------------------------------------- waypoints

  /** Name of the `k`-th waypoint of an NPC: `name_path1`, `name_path2`, ... */
  function PathName(name: string, k: nat): string
  {
    name + "_path" + NatToString(k)
  }

  /** All waypoints `name_path1` .. `name_path<count>` exist in the map. */
  predicate PathsPresent(tmx: TmxData, name: string, count: int)
  {
    forall k: nat :: 1 <= k <= count ==> GetObjectByName(tmx, PathName(name, k)).Some?
  }

  /** The waypoints `load_points` reads, in order. */
  function PathRects(tmx: TmxData, name: string, count: nat): (r: seq<Rect>)
    requires PathsPresent(tmx, name, count)
    ensures |r| == count
    ensures forall i :: 0 <= i < count ==> Some(r[i]) == GetObjectByName(tmx, PathName(name, i + 1))
  {
    if count == 0 then []
    else
      var prefix := PathRects(tmx, name, count - 1);
      var last := GetObjectByName(tmx, PathName(name, count));
      assert last.Some?;
      assert forall i :: 0 <= i < count - 1 ==> (prefix + [last.value])[i] == prefix[i];
      prefix + [last.value]
  }

  // ---------------------------------------------------------------- the entity object

  class Entity {
    const kind: Kind
    const name: string
    /** Number of waypoints of an NPC's path (0 for the player). */
    const nbPoints: int
    /** An NPC's dialog pages. */
    const dialog: seq<string>
    const attackStrength: int
    var hp: int

    var x: int
    var y: int
    var oldX: int
    var oldY: int
    var shared: bool
    var rect: Rect
    var feet: Rect
    var speed: int
    var image: Frame
    var animationIndex: int
    var clock: int
    var points: seq<Rect>
    var currentPoint: int

    /** Everything but the hit points and the waypoints, which movement never touches. */
    function Snapshot(): Body
      reads this`x, this`y, this`oldX, this`oldY, this`shared, this`rect, this`feet, this`speed,
            this`image, this`animationIndex, this`clock, this`currentPoint
    {
      Body(x, y, oldX, oldY, shared, rect, feet, speed, AnimState(image, animationIndex, clock), currentPoint)
    }

    ghost predicate Valid()
      reads this`x, this`y, this`oldX, this`oldY, this`shared, this`rect, this`feet, this`speed,
            this`image, this`animationIndex, this`clock, this`currentPoint
    {
      && BodyOk(Snapshot())
      && attackStrength == (if kind == PlayerKind then PLAYER_ATTACK else NPC_ATTACK)
      && (kind == PlayerKind ==> speed == INITIAL_SPEED)
      && currentPoint >= 0
    }

    /** An NPC whose waypoints are loaded, with its cursor on one of them. */
    ghost predicate Patrolling()
      reads this`x, this`y, this`oldX, this`oldY, this`shared, this`rect, this`feet, this`speed,
            this`image, this`animationIndex, this`clock, this`currentPoint, this`points
    {
      kind == NpcKind && Valid() && PatrolOk(Snapshot(), points, nbPoints)
    }

    /** Hit points and waypoints are not touched by movement. */
    twostate predicate StatsKept()
      reads this
    {
      hp == old(hp) && points == old(points)
    }

    /** `Player()`: at (0, 0) with 100 hit points and attack 10, walking at speed 2. */
    constructor Player()
      ensures Valid() && kind == PlayerKind
      ensures Snapshot() == InitialBody(INITIAL_SPEED)
      ensures hp == PLAYER_HP && attackStrength == PLAYER_ATTACK && points == []
    {
      kind, name, nbPoints, dialog := PlayerKind, "player", 0, [];
      attackStrength, hp := PLAYER_ATTACK, PLAYER_HP;
      x, y, oldX, oldY, shared := 0, 0, 0, 0, false;
      rect, feet := Rect(0, 0, SPRITE_WIDTH, SPRITE_HEIGHT), Rect(0, 0, FEET_WIDTH, FEET_HEIGHT);
      image, animationIndex, clock := Frame(Down, 0), 0, 0;
      speed := INITIAL_SPEED;
      points, currentPoint := [], 0;
    }

    /** `NPC(name, nb_points, dialog)`: 50 hit points, attack 7, speed 1, cursor 0, no waypoints loaded yet. */
    constructor Npc(name: string, nbPoints: int, dialog: seq<string>)
      ensures Valid() && kind == NpcKind
      ensures this.name == name && this.nbPoints == nbPoints && this.dialog == dialog
      ensures Snapshot() == InitialBody(NPC_SPEED)
      ensures hp == NPC_HP && attackStrength == NPC_ATTACK && points == []
    {
      kind, this.name, this.nbPoints, this.dialog := NpcKind, name, nbPoints, dialog;
      attackStrength, hp := NPC_ATTACK, NPC_HP;
      x, y, oldX, oldY, shared := 0, 0, 0, 0, false;
      rect, feet := Rect(0, 0, SPRITE_WIDTH, SPRITE_HEIGHT), Rect(0, 0, FEET_WIDTH, FEET_HEIGHT);
      image, animationIndex, clock := Frame(Down, 0), 0, 0;
      speed := NPC_SPEED;
      points, currentPoint := [], 0;
    }

    method SaveLocation()
      requires Valid()
      modifies this
      ensures Valid() && Snapshot() == Save(old(Snapshot())) && StatsKept()
    {
      oldX, oldY, shared := x, y, false;
    }

    /** `position[0] = nx; position[1] = ny`, the writes the teleports make. */
    method WritePositionCells(nx: int, ny: int)
      requires Valid()
      modifies this
      ensures Valid() && Snapshot() == WritePosition(old(Snapshot()), nx, ny) && StatsKept()
    {
      x := nx;
      if shared { oldX := nx; }
      y := ny;
      if shared { oldY := ny; }
    }

    method ChangeAnimation(d: Direction)
      requires Valid()
      modifies this
      ensures Valid() && StatsKept()
      ensures Snapshot() == old(Snapshot()).(anim := Animation.ChangeAnimation(old(Snapshot()).anim, d, speed))
    {
      ChangeAnimationSpec(AnimState(image, animationIndex, clock), d, speed);
      image := Frame(d, animationIndex);
      clock := clock + speed * CLOCK_RATE;
      if clock >= CLOCK_LIMIT {
        animationIndex := animationIndex + 1;
        if animationIndex >= FRAMES_PER_DIRECTION {
          animationIndex := 0;
        }
        clock := 0;
      }
    }

    method MoveRight()
      requires Valid()
      modifies this
      ensures Valid() && Snapshot() == Step(old(Snapshot()), Right) && StatsKept()
    {
      BodyOkKept(Snapshot(), Right);
      ChangeAnimation(Right);
      x := x + speed;
      if shared { oldX := x; }
    }

    method MoveLeft()
      requires Valid()
      modifies this
      ensures Valid() && Snapshot() == Step(old(Snapshot()), Left) && StatsKept()
    {
      BodyOkKept(Snapshot(), Left);
      ChangeAnimation(Left);
      x := x - speed;
      if shared { oldX := x; }
    }

    method MoveUp()
      requires Valid()
      modifies this
      ensures Valid() && Snapshot() == Step(old(Snapshot()), Up) && StatsKept()
    {
      BodyOkKept(Snapshot(), Up);
      ChangeAnimation(Up);
      y := y - speed;
      if shared { oldY := y; }
    }

    method MoveDown()
      requires Valid()
      modifies this
      ensures Valid() && Snapshot() == Step(old(Snapshot()), Down) && StatsKept()
    {
      BodyOkKept(Snapshot(), Down);
      ChangeAnimation(Down);
      y := y + speed;
      if shared { oldY := y; }
    }

    /** `update`: place rect and feet from the position. */
    method Update()
      requires Valid()
      modifies this
      ensures Valid() && Snapshot() == Refresh(old(Snapshot())) && StatsKept()
    {
      rect := WithTopLeft(rect, x, y);
      feet := WithMidBottom(feet, MidBottom(rect));
    }

    method MoveBack()
      requires Valid()
      modifies this
      ensures Valid() && Snapshot() == Revert(old(Snapshot())) && StatsKept()
    {
      x, y, shared := oldX, oldY, true;
      rect := WithTopLeft(rect, x, y);
      feet := WithMidBottom(feet, MidBottom(rect));
    }

    /** The direction tests of NPC `move`: down, up, left or right toward `targetRect`, or no step at all. */
    method StepToward(currentRect: Rect, targetRect: Rect)
      requires Valid()
      modifies this
      ensures Valid() && StatsKept()
      ensures Snapshot() == match PatrolDirection(currentRect, targetRect)
                            case Some(d) => Step(old(Snapshot()), d)
                            case None => old(Snapshot())
    {
      if currentRect.y < targetRect.y && Abs(currentRect.x - targetRect.x) < PATROL_TOLERANCE {
        MoveDown();
      } else if currentRect.y > targetRect.y && Abs(currentRect.x - targetRect.x) < PATROL_TOLERANCE {
        MoveUp();
      } else if currentRect.x > targetRect.x && Abs(currentRect.y - targetRect.y) < PATROL_TOLERANCE {
        MoveLeft();
      } else if currentRect.x < targetRect.x && Abs(currentRect.y - targetRect.y) < PATROL_TOLERANCE {
        MoveRight();
      }
    }

    /** NPC `move`: one patrol step toward the next waypoint. */
    method Move()
      requires Patrolling()
      modifies this
      ensures Patrolling() && Snapshot() == Patrol(old(Snapshot()), points, nbPoints) && StatsKept()
    {
      PatrolSpec(Snapshot(), points, nbPoints);
      var current := currentPoint;
      var target := currentPoint + 1;
      if target >= nbPoints {
        target := 0;
      }
      var targetRect := points[target];
      StepToward(points[current], targetRect);
      if Collides(rect, targetRect) {
        currentPoint := target;
      }
    }

    /** `teleport_spawn`: stand on the current waypoint and save that position. */
    method TeleportSpawn()
      requires Valid() && 0 <= currentPoint < |points|
      modifies this
      ensures Valid() && StatsKept()
      ensures Snapshot() == Save(WritePosition(old(Snapshot()), old(points[currentPoint]).x, old(points[currentPoint]).y))
      ensures x == oldX == old(points[currentPoint]).x && y == oldY == old(points[currentPoint]).y && !shared
    {
      var location := points[currentPoint];
      WritePositionCells(location.x, location.y);
      SaveLocation();
    }

    /**
     * `load_points`: append the rects of `name_path1` .. `name_path<nb_points>` in order.
     * `found` is false when one of them is missing (the loader raises there).
     */
    method LoadPoints(tmx: TmxData) returns (found: bool)
      requires Valid()
      modifies this
      ensures Valid() && Snapshot() == old(Snapshot()) && hp == old(hp)
      ensures found <==> PathsPresent(tmx, name, nbPoints)
      ensures found ==> points == old(points) + PathRects(tmx, name, if nbPoints < 0 then 0 else nbPoints)
    {
      var numero := 1;
      while numero < nbPoints + 1
        invariant 1 <= numero && (nbPoints >= 0 ==> numero <= nbPoints + 1) && (nbPoints < 0 ==> numero == 1)
        invariant PathsPresent(tmx, name, numero - 1)
        invariant points == old(points) + PathRects(tmx, name, numero - 1)
        invariant Snapshot() == old(Snapshot()) && hp == old(hp)
      {
        var point := GetObjectByName(tmx, PathName(name, numero));
        if point.None? {
          return false;
        }
        points := points + [point.value];
        numero := numero + 1;
      }
      found := true;
    }
  }
}
