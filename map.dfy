/**
 * The map manager: the registered maps, the name of the current one and the player.
 * Each frame it refreshes the sprites of the current map, lets the player take a portal,
 * freezes the NPCs the player touches, pushes every sprite out of the walls and moves the
 * NPCs along their paths. A key press starts the dialog and the fight with the NPCs the
 * player stands on.
 *
 * A Python dict keeps the order in which keys were first inserted; `order` holds that
 * order. A lookup the source makes with `get_object_by_name` or `self.maps[...]` raises
 * when the name is unknown; here it yields a `Status` naming what was missing.
 */
module World {
  import opened Util
  import opened Geometry
  import opened Tiled
  import opened Animation
  import opened Entities
  import Dialog
  import Battle

  /** A portal: touching `originPoint` on `fromWorld` moves the player to `teleportPoint` on `targetWorld`. */
  datatype Portal = Portal(fromWorld: string, originPoint: string, targetWorld: string, teleportPoint: string)

  /** One registered map: its walls, its sprite group (player first), its objects, portals and NPCs. */
  datatype Map = Map(name: string, walls: seq<Rect>, group: seq<Entity>, tmx: TmxData,
                     portals: seq<Portal>, npcs: seq<Entity>)

  /** How a call ends: normally, or with the exception the source raises at that point. */
  datatype Status =
    | Running
    | MissingObject(objectName: string)   // ValueError from get_object_by_name
    | MissingMap(mapName: string)         // KeyError from self.maps[...]
    | BadWaypoints(npcName: string)       // load_points or teleport_spawn fails

  /** The result of looking an object up on a named map. */
  datatype Located = Found(rect: Rect) | Lost(status: Status)

  /** `self.maps[world].tmx_data.get_object_by_name(objName)`. */
  function Find(maps: map<string, Map>, world: string, objName: string): (l: Located)
    ensures l.Found? <==> world in maps && HasObject(maps[world].tmx, objName)
    ensures l.Found? ==> Some(l.rect) == GetObjectByName(maps[world].tmx, objName)
    ensures world !in maps ==> l == Lost(MissingMap(world))
    ensures world in maps && !HasObject(maps[world].tmx, objName) ==> l == Lost(MissingObject(objName))
  {
    if world !in maps then Lost(MissingMap(world))
    else match GetObjectByName(maps[world].tmx, objName)
      case None => Lost(MissingObject(objName))
      case Some(r) => Found(r)
  }

  // ---------------------------------------------------------------------------------------
  // Portals

  /** `teleport_player`: both cells of the position are written, then the location is saved. Rect and feet stay behind. */
  function Teleported(b: Body, spawn: Rect): Body
  {
    Save(WritePosition(b, spawn.x, spawn.y))
  }

  /** What the portal loop of `check_collisions` leaves: the current map, the player, and how it ended. */
  datatype Scan = Scan(current: string, player: Body, status: Status)

  /**
   * The portal loop of `check_collisions` over the portal list of the map that was current
   * when it started. A portal is compared with the map that is current at its turn, and
   * its origin is looked up there; a firing portal switches the map and then teleports.
   */
  function PortalScan(maps: map<string, Map>, current: string, portals: seq<Portal>, p: Body): (s: Scan)
    requires current in maps
    ensures s.status.Running? ==> s.current in maps
    ensures BodyOk(p) ==> BodyOk(s.player)
    ensures s.player.feet == p.feet && s.player.rect == p.rect && s.player.speed == p.speed
    ensures s.player.anim == p.anim && s.player.currentPoint == p.currentPoint
    decreases |portals|
  {
    if |portals| == 0 then Scan(current, p, Running)
    else
      var portal := portals[0];
      if portal.fromWorld != current then PortalScan(maps, current, portals[1..], p)
      else match Find(maps, current, portal.originPoint)
        case Lost(st) => Scan(current, p, st)
        case Found(origin) =>
          if !Collides(p.feet, origin) then PortalScan(maps, current, portals[1..], p)
          else match Find(maps, portal.targetWorld, portal.teleportPoint)
            case Lost(st) => Scan(portal.targetWorld, p, st)
            case Found(spawn) => PortalScan(maps, portal.targetWorld, portals[1..], Teleported(p, spawn))
  }

  /** One turn of the portal loop: `portal` compared with the map `current`. */
  function PortalTurn(maps: map<string, Map>, current: string, portal: Portal, p: Body): Scan
  {
    if portal.fromWorld != current then Scan(current, p, Running)
    else match Find(maps, current, portal.originPoint)
      case Lost(st) => Scan(current, p, st)
      case Found(origin) =>
        if !Collides(p.feet, origin) then Scan(current, p, Running)
        else match Find(maps, portal.targetWorld, portal.teleportPoint)
          case Lost(st) => Scan(portal.targetWorld, p, st)
          case Found(spawn) => Scan(portal.targetWorld, Teleported(p, spawn), Running)
  }

  /** The scan is its first turn followed by the scan of the rest from where that turn left off, unless the turn failed. */
  lemma PortalScanUnfolds(maps: map<string, Map>, current: string, portals: seq<Portal>, p: Body)
    requires current in maps && |portals| > 0
    ensures var t := PortalTurn(maps, current, portals[0], p);
      && (t.status == Running ==> t.current in maps)
      && PortalScan(maps, current, portals, p)
         == if t.status == Running then PortalScan(maps, t.current, portals[1..], t.player) else t
  {
  }

  /** The player's feet touch the origin of `portal` as it lies on `world`. */
  predicate Triggered(maps: map<string, Map>, world: string, portal: Portal, feet: Rect)
  {
    var origin := Find(maps, world, portal.originPoint);
    origin.Found? && Collides(feet, origin.rect)
  }

  /** Every portal of the list leaves `world` for another registered map, and all the objects it names exist. */
  predicate WellLinked(maps: map<string, Map>, world: string, portals: seq<Portal>)
  {
    && world in maps
    && forall i :: 0 <= i < |portals| ==>
         && portals[i].fromWorld == world && portals[i].targetWorld != world
         && Find(maps, world, portals[i].originPoint).Found?
         && Find(maps, portals[i].targetWorld, portals[i].teleportPoint).Found?
  }

  /** Portals that do not start on the current map are skipped without a lookup. */
  lemma {:induction false} ForeignPortalsIgnored(maps: map<string, Map>, world: string, portals: seq<Portal>, p: Body)
    requires world in maps
    requires forall i :: 0 <= i < |portals| ==> portals[i].fromWorld != world
    ensures PortalScan(maps, world, portals, p) == Scan(world, p, Running)
    decreases |portals|
  {
    if |portals| > 0 {
      ForeignPortalsIgnored(maps, world, portals[1..], p);
    }
  }

  /** Dropping the first portal of a well-linked list leaves a well-linked list. */
  lemma WellLinkedTail(maps: map<string, Map>, world: string, portals: seq<Portal>)
    requires WellLinked(maps, world, portals) && |portals| > 0
    ensures WellLinked(maps, world, portals[1..])
  {
    forall i | 0 <= i < |portals| - 1
      ensures portals[1..][i] == portals[i + 1]
    {
    }
  }

  /** A well-linked scan never fails: every lookup it makes finds its object. */
  lemma {:induction false} WellLinkedScanRuns(maps: map<string, Map>, world: string, portals: seq<Portal>, p: Body)
    requires WellLinked(maps, world, portals)
    ensures PortalScan(maps, world, portals, p).status == Running
    decreases |portals|
  {
    if |portals| > 0 {
      var portal := portals[0];
      if Triggered(maps, world, portal, p.feet) {
        var spawn := Find(maps, portal.targetWorld, portal.teleportPoint).rect;
        ForeignPortalsIgnored(maps, portal.targetWorld, portals[1..], Teleported(p, spawn));
      } else {
        WellLinkedTail(maps, world, portals);
        WellLinkedScanRuns(maps, world, portals[1..], p);
      }
    }
  }

  /** When the feet touch no origin, the scan leaves the player and the current map alone. */
  lemma {:induction false} NoPortalFires(maps: map<string, Map>, world: string, portals: seq<Portal>, p: Body)
    requires WellLinked(maps, world, portals)
    requires forall i :: 0 <= i < |portals| ==> !Triggered(maps, world, portals[i], p.feet)
    ensures PortalScan(maps, world, portals, p) == Scan(world, p, Running)
    decreases |portals|
  {
    if |portals| > 0 {
      assert !Triggered(maps, world, portals[0], p.feet);
      WellLinkedTail(maps, world, portals);
      forall i | 0 <= i < |portals| - 1
        ensures !Triggered(maps, world, portals[1..][i], p.feet)
      {
        assert portals[1..][i] == portals[i + 1];
      }
      NoPortalFires(maps, world, portals[1..], p);
    }
  }

  /** A portal the feet do not touch is passed over: the scan goes on with the rest of the list. */
  lemma SkipUntriggered(maps: map<string, Map>, world: string, portals: seq<Portal>, p: Body)
    requires WellLinked(maps, world, portals) && |portals| > 0
    requires !Triggered(maps, world, portals[0], p.feet)
    ensures WellLinked(maps, world, portals[1..])
    ensures PortalScan(maps, world, portals, p) == PortalScan(maps, world, portals[1..], p)
  {
    WellLinkedTail(maps, world, portals);
  }

  /** A portal the feet touch is taken, and the rest of the list, all leaving the old map, is skipped. */
  lemma TakeTriggered(maps: map<string, Map>, world: string, portals: seq<Portal>, p: Body)
    requires WellLinked(maps, world, portals) && |portals| > 0
    requires Triggered(maps, world, portals[0], p.feet)
    ensures PortalScan(maps, world, portals, p)
         == Scan(portals[0].targetWorld,
                 Teleported(p, Find(maps, portals[0].targetWorld, portals[0].teleportPoint).rect), Running)
  {
    var portal := portals[0];
    var spawn := Find(maps, portal.targetWorld, portal.teleportPoint).rect;
    assert PortalScan(maps, world, portals, p) == PortalScan(maps, portal.targetWorld, portals[1..], Teleported(p, spawn));
    ForeignPortalsIgnored(maps, portal.targetWorld, portals[1..], Teleported(p, spawn));
  }

  /** The first portal whose origin the feet touch is the one taken, and the later ones are skipped. */
  lemma {:induction false} FirstPortalFires(maps: map<string, Map>, world: string, portals: seq<Portal>, p: Body, k: nat)
    requires WellLinked(maps, world, portals) && k < |portals|
    requires Triggered(maps, world, portals[k], p.feet)
    requires forall j :: 0 <= j < k ==> !Triggered(maps, world, portals[j], p.feet)
    ensures PortalScan(maps, world, portals, p)
         == Scan(portals[k].targetWorld,
                 Teleported(p, Find(maps, portals[k].targetWorld, portals[k].teleportPoint).rect), Running)
    decreases k
  {
    if k == 0 {
      TakeTriggered(maps, world, portals, p);
    } else {
      SkipUntriggered(maps, world, portals, p);
      var rest := portals[1..];
      forall j | 0 <= j < k - 1
        ensures !Triggered(maps, world, rest[j], p.feet)
      {
        assert rest[j] == portals[j + 1];
      }
      assert rest[k - 1] == portals[k];
      FirstPortalFires(maps, world, rest, p, k - 1);
    }
  }

  /**
   * With well-linked portals, one frame takes at most one portal: the first one whose origin
   * the feet touch. After it fires the current map has changed, so the later portals of the
   * list, which start on the old map, are all skipped.
   */
  lemma AtMostOnePortalFires(maps: map<string, Map>, world: string, portals: seq<Portal>, p: Body)
    requires WellLinked(maps, world, portals)
    ensures var s := PortalScan(maps, world, portals, p);
      && s.status == Running
      && ((forall i :: 0 <= i < |portals| ==> !Triggered(maps, world, portals[i], p.feet)) ==>
            s.current == world && s.player == p)
      && (forall i :: 0 <= i < |portals| && Triggered(maps, world, portals[i], p.feet)
                      && (forall j :: 0 <= j < i ==> !Triggered(maps, world, portals[j], p.feet)) ==>
            s.current == portals[i].targetWorld
            && s.player == Teleported(p, Find(maps, portals[i].targetWorld, portals[i].teleportPoint).rect))
  {
    WellLinkedScanRuns(maps, world, portals, p);
    if forall i :: 0 <= i < |portals| ==> !Triggered(maps, world, portals[i], p.feet) {
      NoPortalFires(maps, world, portals, p);
    }
    forall i | 0 <= i < |portals| && Triggered(maps, world, portals[i], p.feet)
               && (forall j :: 0 <= j < i ==> !Triggered(maps, world, portals[j], p.feet))
      ensures PortalScan(maps, world, portals, p).current == portals[i].targetWorld
      ensures PortalScan(maps, world, portals, p).player
           == Teleported(p, Find(maps, portals[i].targetWorld, portals[i].teleportPoint).rect)
    {
      FirstPortalFires(maps, world, portals, p, i);
    }
  }

  /**
   * Teleporting puts the player on the spawn point and saves that point, so a wall revert in
   * the same frame (which uses the feet left behind at the portal) still leaves the player there.
   */
  lemma TeleportSurvivesWallRevert(p: Body, spawn: Rect, walls: seq<Rect>)
    ensures var t := Teleported(p, spawn);
      t.x == spawn.x && t.y == spawn.y && t.oldX == spawn.x && t.oldY == spawn.y && !t.shared
    ensures var c := WallCheck(Teleported(p, spawn), walls); c.x == spawn.x && c.y == spawn.y
  {
  }

  // ---------------------------------------------------------------------------------------
  // Collisions

  /** An NPC stops while its feet touch the player's rect and walks at speed 1 otherwise. */
  function Freeze(b: Body, playerRect: Rect): (c: Body)
    ensures c == b.(speed := c.speed)
    ensures c.speed == 0 <==> Collides(b.feet, playerRect)
    ensures c.speed == 0 || c.speed == NPC_SPEED
  {
    b.(speed := if Collides(b.feet, playerRect) then 0 else NPC_SPEED)
  }

  /** `if sprite.feet.collidelist(walls) > -1: sprite.move_back()`. */
  function WallCheck(b: Body, walls: seq<Rect>): Body
  {
    if CollideList(b.feet, walls) > -1 then Revert(b) else b
  }

  /** The collision step one sprite of the current group receives. */
  function Collide(kind: Kind, b: Body, playerRect: Rect, walls: seq<Rect>): Body
  {
    WallCheck(if kind == NpcKind then Freeze(b, playerRect) else b, walls)
  }

  /**
   * A sprite whose feet touch a wall goes back to its saved position, with rect and feet
   * following; one whose feet touch none is left alone. Speed, animation and the saved
   * position never change, and a second check changes nothing more.
   */
  lemma WallCheckSpec(b: Body, walls: seq<Rect>)
    ensures var c := WallCheck(b, walls);
      && (HitsAny(b.feet, walls) ==> c.x == b.oldX && c.y == b.oldY && c.shared
                                     && c.rect == WithTopLeft(b.rect, b.oldX, b.oldY))
      && (!HitsAny(b.feet, walls) ==> c == b)
      && c.oldX == b.oldX && c.oldY == b.oldY && c.speed == b.speed && c.anim == b.anim
    ensures WallCheck(WallCheck(b, walls), walls) == WallCheck(b, walls)
  {
    CollideListHit(b.feet, walls);
    var c := WallCheck(b, walls);
    CollideListHit(c.feet, walls);
  }

  /** One frame of `update` for a sprite other than the player, from its body at the start of the frame. */
  function NpcTick(b: Body, refreshed: bool, collided: bool, patrols: bool, points: seq<Rect>, nb: int,
                   playerRect: Rect, walls: seq<Rect>): Body
    requires BodyOk(b) && (patrols ==> PatrolOk(b, points, nb))
  {
    NpcSettle(if refreshed then Refresh(b) else b, collided, patrols, points, nb, playerRect, walls)
  }

  /** The part of a frame after the refresh: the collision step, then the patrol step. */
  function NpcSettle(b: Body, collided: bool, patrols: bool, points: seq<Rect>, nb: int,
                     playerRect: Rect, walls: seq<Rect>): Body
    requires CounterOk(b.anim) && (patrols ==> PatrolOk(b, points, nb))
  {
    var c := if collided then Collide(NpcKind, b, playerRect, walls) else b;
    if patrols then Patrol(c, points, nb) else c
  }

  /**
   * An NPC of the current map whose feet touch the player's rect does not walk in that
   * frame: it stays where the wall check left it, with speed 0.
   */
  lemma TouchingNpcStandsStill(b: Body, refreshed: bool, points: seq<Rect>, nb: int, playerRect: Rect, walls: seq<Rect>)
    requires BodyOk(b) && PatrolOk(b, points, nb)
    requires Collides((if refreshed then Refresh(b) else b).feet, playerRect)
    ensures var b1 := if refreshed then Refresh(b) else b;
      var c := NpcTick(b, refreshed, true, true, points, nb, playerRect, walls);
      var w := WallCheck(b1.(speed := 0), walls);
      c.x == w.x && c.y == w.y && c.speed == 0
  {
    var b1 := if refreshed then Refresh(b) else b;
    var w := WallCheck(Freeze(b1, playerRect), walls);
    WallCheckSpec(Freeze(b1, playerRect), walls);
    BodyOkKept(b, Down);
    BodyOkKept(b1, Down);
    PatrolSpec(w, points, nb);
  }

  // ---------------------------------------------------------------------------------------
  // Sprite groups

  /** `group.add(s)` for each `s` in turn: a sprite already in the group is not added twice. */
  function AddSprites<T(==)>(group: seq<T>, sprites: seq<T>): (g: seq<T>)
    ensures Distinct(group) ==> Distinct(g)
    ensures |g| >= |group| && g[..|group|] == group
    ensures forall i :: |group| <= i < |g| ==> g[i] in sprites
    ensures forall i :: 0 <= i < |g| ==> g[i] in group || g[i] in sprites
    ensures forall i :: 0 <= i < |sprites| ==> sprites[i] in g
    decreases |sprites|
  {
    if |sprites| == 0 then group
    else
      var init := AddSprites(group, sprites[..|sprites| - 1]);
      var s := sprites[|sprites| - 1];
      assert forall i :: 0 <= i < |sprites| - 1 ==> sprites[i] == sprites[..|sprites| - 1][i];
      if s in init then init else init + [s]
  }

  /** `sprite.kill()`: the group without the sprites of `gone`, in the same order. */
  function Without<T(==)>(group: seq<T>, gone: set<T>): (g: seq<T>)
    ensures forall i :: 0 <= i < |g| ==> g[i] in group && g[i] !in gone
    ensures forall i :: 0 <= i < |group| && group[i] !in gone ==> group[i] in g
    ensures Distinct(group) ==> Distinct(g)
    ensures |group| > 0 && group[0] !in gone ==> |g| > 0 && g[0] == group[0]
    decreases |group|
  {
    if |group| == 0 then []
    else
      var rest := Without(group[1..], gone);
      assert forall i :: 1 <= i < |group| ==> group[i] == group[1..][i - 1];
      if group[0] in gone then rest else [group[0]] + rest
  }

  /** Removing sprites one set after another is removing their union. */
  lemma {:induction false} WithoutTwice<T>(group: seq<T>, a: set<T>, b: set<T>)
    ensures Without(Without(group, a), b) == Without(group, a + b)
    decreases |group|
  {
    if |group| > 0 {
      WithoutTwice(group[1..], a, b);
    }
  }

  /** Every map's group without the sprites of `gone`; all else stays. */
  function Purge(maps: map<string, Map>, gone: set<Entity>): map<string, Map>
  {
    map m | m in maps :: maps[m].(group := Without(maps[m].group, gone))
  }

  /** The effect of `map` of `Purge`s is one `Purge` of the union. */
  lemma PurgeTwice(maps: map<string, Map>, a: set<Entity>, b: set<Entity>)
    ensures Purge(Purge(maps, a), b) == Purge(maps, a + b)
  {
    var twice, union := Purge(Purge(maps, a), b), Purge(maps, a + b);
    forall m | m in maps
      ensures m in twice && m in union && twice[m] == union[m]
    {
      WithoutTwice(maps[m].group, a, b);
    }
    assert twice.Keys == union.Keys;
  }

  lemma {:induction false} WithoutNone<T>(group: seq<T>)
    ensures Without(group, {}) == group
    decreases |group|
  {
    if |group| > 0 {
      WithoutNone(group[1..]);
    }
  }

  /** Killing nobody leaves the maps as they were. */
  lemma PurgeNone(maps: map<string, Map>)
    ensures Purge(maps, {}) == maps
  {
    forall m | m in maps
      ensures Purge(maps, {})[m] == maps[m]
    {
      WithoutNone(maps[m].group);
    }
  }

  /** Killing keeps every map and its NPC list, and only takes sprites away. */
  lemma PurgeShrinks(maps: map<string, Map>, gone: set<Entity>)
    ensures Purge(maps, gone).Keys == maps.Keys
    ensures forall m :: m in maps ==> Purge(maps, gone)[m].npcs == maps[m].npcs
    ensures Sprites(Purge(maps, gone)) <= Sprites(maps)
  {
    var purged := Purge(maps, gone);
    forall e | e in Sprites(purged)
      ensures e in Sprites(maps)
    {
      var m, i :| m in purged && ((0 <= i < |purged[m].group| && purged[m].group[i] == e)
                                  || (0 <= i < |purged[m].npcs| && purged[m].npcs[i] == e));
      if 0 <= i < |purged[m].group| && purged[m].group[i] == e {
        var k :| 0 <= k < |maps[m].group| && maps[m].group[k] == e;
      } else {
        assert maps[m].npcs[i] == e;
      }
    }
  }

  /** Taking NPCs out of the groups keeps every map well-formed and every remaining sprite valid. */
  lemma PurgeKeepsRegistry(player: Entity, maps: map<string, Map>, order: seq<string>, gone: set<Entity>)
    requires RegistryOf(player, maps, order) && SpritesValid(maps) && player !in gone
    ensures RegistryOf(player, Purge(maps, gone), order) && SpritesValid(Purge(maps, gone))
  {
    var purged := Purge(maps, gone);
    forall m | m in purged
      ensures MapOk(player, m, purged[m])
      ensures forall i :: 0 <= i < |purged[m].group| ==> purged[m].group[i].Valid()
    {
      var g := purged[m].group;
      forall i | 1 <= i < |g|
        ensures g[i].kind == NpcKind && g[i] in purged[m].npcs
      {
        assert g[i] != g[0];
        var k :| 0 <= k < |maps[m].group| && maps[m].group[k] == g[i];
      }
      forall i | 0 <= i < |g|
        ensures g[i].Valid()
      {
        var k :| 0 <= k < |maps[m].group| && maps[m].group[k] == g[i];
      }
    }
  }

  // ---------------------------------------------------------------------------------------
  // Combat sessions of one key press

  /** The fights of one key press, in group order, each starting from the player's hit points after the one before. `foes` holds each NPC's hit points and attack. */
  function Bouts(playerHp: int, foes: seq<(int, int)>): (r: (int, seq<Battle.Fighters>))
    ensures |r.1| == |foes|
    decreases |foes|
  {
    if |foes| == 0 then (playerHp, [])
    else
      var before := Bouts(playerHp, foes[..|foes| - 1]);
      var f := Battle.Fight(Battle.Fighters(before.0, foes[|foes| - 1].0, 0), PLAYER_ATTACK, foes[|foes| - 1].1);
      (f.playerHp, before.1 + [f])
  }

  /** The NPCs beaten in the bouts: those whose fight the player survived. */
  function Beaten(fought: seq<Entity>, bouts: seq<Battle.Fighters>): set<Entity>
    requires |bouts| == |fought|
  {
    set j | 0 <= j < |fought| && bouts[j].playerHp > 0 :: fought[j]
  }

  /** The hit points of the sprites of `group`, in order. */
  ghost function HpOf(group: seq<Entity>): (r: seq<int>)
    reads group`hp
    ensures |r| == |group| && forall k :: 0 <= k < |group| ==> r[k] == group[k].hp
    decreases |group|
  {
    if |group| == 0 then [] else HpOf(group[..|group| - 1]) + [group[|group| - 1].hp]
  }

  /** The feet of the sprites of `group`, in order. */
  ghost function FeetOf(group: seq<Entity>): (r: seq<Rect>)
    reads group`feet
    ensures |r| == |group| && forall k :: 0 <= k < |group| ==> r[k] == group[k].feet
    decreases |group|
  {
    if |group| == 0 then [] else FeetOf(group[..|group| - 1]) + [group[|group| - 1].feet]
  }

  /** The sprites of `group` a key press engages: NPCs whose feet touch the player's rect, in group order. */
  function Engaged(group: seq<Entity>, feet: seq<Rect>, playerRect: Rect): (r: seq<Entity>)
    requires |feet| == |group|
    ensures |r| <= |group| && forall j :: 0 <= j < |r| ==> r[j] in group && r[j].kind == NpcKind
    decreases |group|
  {
    if |group| == 0 then []
    else
      var n := |group| - 1;
      Engaged(group[..n], feet[..n], playerRect)
        + if Collides(feet[n], playerRect) && group[n].kind == NpcKind then [group[n]] else []
  }

  /** Hit points (taken from `hps`) and attack of each NPC `Engaged` picks, as the fights read them. */
  function EngagedFoes(group: seq<Entity>, feet: seq<Rect>, hps: seq<int>, playerRect: Rect): (r: seq<(int, int)>)
    requires |feet| == |group| && |hps| == |group|
    ensures |r| == |Engaged(group, feet, playerRect)|
    decreases |group|
  {
    if |group| == 0 then []
    else
      var n := |group| - 1;
      EngagedFoes(group[..n], feet[..n], hps[..n], playerRect)
        + if Collides(feet[n], playerRect) && group[n].kind == NpcKind then [(hps[n], group[n].attackStrength)] else []
  }

  lemma EngagedStep(group: seq<Entity>, feet: seq<Rect>, hps: seq<int>, i: int, playerRect: Rect)
    requires |feet| == |group| && |hps| == |group| && 0 <= i < |group|
    ensures var engaged := Collides(feet[i], playerRect) && group[i].kind == NpcKind;
      && Engaged(group[..i + 1], feet[..i + 1], playerRect)
         == Engaged(group[..i], feet[..i], playerRect) + (if engaged then [group[i]] else [])
      && EngagedFoes(group[..i + 1], feet[..i + 1], hps[..i + 1], playerRect)
         == EngagedFoes(group[..i], feet[..i], hps[..i], playerRect)
            + (if engaged then [(hps[i], group[i].attackStrength)] else [])
  {
    assert group[..i + 1][..i] == group[..i];
    assert feet[..i + 1][..i] == feet[..i];
    assert hps[..i + 1][..i] == hps[..i];
  }

  lemma BoutsStep(playerHp: int, foes: seq<(int, int)>, foe: (int, int))
    ensures var before := Bouts(playerHp, foes);
      var f := Battle.Fight(Battle.Fighters(before.0, foe.0, 0), PLAYER_ATTACK, foe.1);
      Bouts(playerHp, foes + [foe]) == (f.playerHp, before.1 + [f])
  {
    assert (foes + [foe])[..|foes|] == foes;
  }

  lemma BeatenStep(fought: seq<Entity>, bouts: seq<Battle.Fighters>, e: Entity, f: Battle.Fighters)
    requires |bouts| == |fought|
    ensures Beaten(fought + [e], bouts + [f]) == Beaten(fought, bouts) + if f.playerHp > 0 then {e} else {}
  {
    var n := |fought|;
    forall x | x in Beaten(fought + [e], bouts + [f])
      ensures x in Beaten(fought, bouts) + if f.playerHp > 0 then {e} else {}
    {
      var j :| 0 <= j < n + 1 && (bouts + [f])[j].playerHp > 0 && (fought + [e])[j] == x;
      if j < n {
        assert fought[j] == x && bouts[j].playerHp > 0;
      }
    }
    forall x | x in Beaten(fought, bouts)
      ensures x in Beaten(fought + [e], bouts + [f])
    {
      var j :| 0 <= j < n && bouts[j].playerHp > 0 && fought[j] == x;
      assert (fought + [e])[j] == x && (bouts + [f])[j].playerHp > 0;
    }
    if f.playerHp > 0 {
      assert (fought + [e])[n] == e && (bouts + [f])[n].playerHp > 0;
    }
  }

  /** Some fight of the session was lost by the player. */
  predicate AnyLost(bouts: seq<Battle.Fighters>)
  {
    exists j :: 0 <= j < |bouts| && bouts[j].playerHp <= 0
  }

  /** One more fight: the loser NPC leaves the groups if the player won, and a lost fight is remembered. */
  lemma SessionStep(maps: map<string, Map>, fought: seq<Entity>, bouts: seq<Battle.Fighters>, e: Entity, f: Battle.Fighters)
    requires |bouts| == |fought|
    ensures (if f.playerHp > 0 then Purge(Purge(maps, Beaten(fought, bouts)), {e}) else Purge(maps, Beaten(fought, bouts)))
         == Purge(maps, Beaten(fought + [e], bouts + [f]))
    ensures AnyLost(bouts + [f]) == (AnyLost(bouts) || f.playerHp <= 0)
  {
    BeatenStep(fought, bouts, e, f);
    PurgeTwice(maps, Beaten(fought, bouts), {e});
    var b := Beaten(fought, bouts);
    assert b + {} == b;
    if AnyLost(bouts) {
      var j :| 0 <= j < |bouts| && bouts[j].playerHp <= 0;
      assert (bouts + [f])[j] == bouts[j];
    }
    if f.playerHp <= 0 {
      assert (bouts + [f])[|bouts|] == f;
    }
  }

  /**
   * Once the player is down, every further fight of the key press is over before it starts:
   * nobody is hit, and each of them asks for a reset again.
   */
  lemma {:induction false} BoutsAfterDefeat(playerHp: int, foes: seq<(int, int)>)
    requires playerHp <= 0
    ensures var r := Bouts(playerHp, foes);
      && r.0 == playerHp
      && forall j :: 0 <= j < |foes| ==> r.1[j] == Battle.Fighters(playerHp, foes[j].0, 0)
                                         && Battle.Verdict(r.1[j]) == Battle.ResetGame
    decreases |foes|
  {
    if |foes| > 0 {
      var init := foes[..|foes| - 1];
      BoutsAfterDefeat(playerHp, init);
      assert forall j :: 0 <= j < |init| ==> init[j] == foes[j];
    }
  }

  /**
   * Against NPCs that hit with non-negative strength, the player's hit points never rise from
   * one fight to the next; a lost fight is followed by lost fights only; and, from a standing
   * start, the player ends down exactly when some fight was lost.
   */
  lemma {:induction false} BoutsOutcome(playerHp: int, foes: seq<(int, int)>)
    requires forall j :: 0 <= j < |foes| ==> foes[j].1 >= 0
    ensures var r := Bouts(playerHp, foes);
      && r.0 <= playerHp
      && (forall j :: 0 <= j < |foes| ==> r.1[j].playerHp <= playerHp && r.1[j].playerHp >= r.0)
      && (forall j, k :: 0 <= j < k < |foes| && r.1[j].playerHp <= 0 ==> r.1[k].playerHp <= 0)
      && (playerHp > 0 ==> (r.0 <= 0 <==> exists j :: 0 <= j < |foes| && r.1[j].playerHp <= 0))
    decreases |foes|
  {
    if |foes| > 0 {
      var init := foes[..|foes| - 1];
      var foe := foes[|foes| - 1];
      BoutsOutcome(playerHp, init);
      assert init + [foe] == foes;
      var before := Bouts(playerHp, init);
      var start := Battle.Fighters(before.0, foe.0, 0);
      Battle.TurnsAlternate(start, PLAYER_ATTACK, foe.1);
      var r := Bouts(playerHp, foes);
      assert r.1[..|init|] == before.1;
      assert forall j :: 0 <= j < |init| ==> r.1[j] == before.1[j];
      if before.0 <= 0 {
        assert r.1[|init|].playerHp == before.0;
      }
      if playerHp > 0 && r.0 <= 0 {
        assert r.1[|init|].playerHp <= 0;
      }
    }
  }

  // ---------------------------------------------------------------------------------------
  // Loops over the sprites of a group

  /** What a sprite of a running game keeps: its class invariant, and an NPC its cursor on its loaded path. */
  ghost predicate Ready(e: Entity)
    reads e
  {
    e.Valid() && (e.kind == NpcKind ==> PatrolOk(e.Snapshot(), e.points, e.nbPoints))
  }

  /** `group.update()`: every sprite of the group places its rect and feet at its position. */
  method RefreshAll(group: seq<Entity>)
    requires Distinct(group) && forall i :: 0 <= i < |group| ==> Ready(group[i])
    modifies group
    ensures forall i :: 0 <= i < |group| ==>
      && Ready(group[i]) && group[i].hp == old(group[i].hp) && group[i].points == old(group[i].points)
      && group[i].Snapshot() == Refresh(old(group[i].Snapshot()))
  {
    for i := 0 to |group|
      invariant forall j :: 0 <= j < |group| ==>
        Ready(group[j]) && group[j].hp == old(group[j].hp) && group[j].points == old(group[j].points)
      invariant forall j :: 0 <= j < i ==> group[j].Snapshot() == Refresh(old(group[j].Snapshot()))
      invariant forall j :: i <= j < |group| ==> group[j].Snapshot() == old(group[j].Snapshot())
    {
      group[i].Update();
    }
  }

  /** One turn of the collision loop of `check_collisions`: an NPC's speed follows the player's rect, then a sprite on a wall moves back. */
  method CollideOne(sprite: Entity, playerRect: Rect, walls: seq<Rect>)
    requires Ready(sprite)
    modifies sprite
    ensures Ready(sprite) && sprite.hp == old(sprite.hp) && sprite.points == old(sprite.points)
    ensures sprite.Snapshot() == Collide(sprite.kind, old(sprite.Snapshot()), playerRect, walls)
  {
    if sprite.kind == NpcKind {
      if Collides(sprite.feet, playerRect) {
        sprite.speed := 0;
      } else {
        sprite.speed := NPC_SPEED;
      }
    }
    if CollideList(sprite.feet, walls) > -1 {
      sprite.MoveBack();
    }
  }

  /**
   * The collision loop of `check_collisions` over a group whose first sprite is the player:
   * the player is checked first, so every NPC sees the player's rect as its own wall check left it.
   */
  method CollideAll(group: seq<Entity>, walls: seq<Rect>)
    requires Distinct(group) && |group| >= 1 && group[0].kind == PlayerKind
    requires forall i :: 1 <= i < |group| ==> group[i].kind == NpcKind
    requires forall i :: 0 <= i < |group| ==> Ready(group[i])
    modifies group
    ensures forall i :: 0 <= i < |group| ==>
      && Ready(group[i]) && group[i].hp == old(group[i].hp) && group[i].points == old(group[i].points)
      && group[i].Snapshot() == Collide(group[i].kind, old(group[i].Snapshot()), group[0].rect, walls)
  {
    for i := 0 to |group|
      invariant forall j :: 0 <= j < |group| ==>
        Ready(group[j]) && group[j].hp == old(group[j].hp) && group[j].points == old(group[j].points)
      invariant forall j :: 0 <= j < i ==>
        group[j].Snapshot() == Collide(group[j].kind, old(group[j].Snapshot()), group[0].rect, walls)
      invariant forall j :: i <= j < |group| ==> group[j].Snapshot() == old(group[j].Snapshot())
    {
      CollideOne(group[i], group[0].rect, walls);
    }
  }

  /** The loop `for npc in get_map().npcs: npc.move()`. */
  method MoveAll(npcs: seq<Entity>)
    requires Distinct(npcs) && forall i :: 0 <= i < |npcs| ==> npcs[i].Patrolling()
    modifies npcs
    ensures forall i :: 0 <= i < |npcs| ==>
      && old(npcs[i].Patrolling()) && npcs[i].Patrolling() && npcs[i].hp == old(npcs[i].hp) && npcs[i].points == old(npcs[i].points)
      && npcs[i].Snapshot() == Patrol(old(npcs[i].Snapshot()), old(npcs[i].points), npcs[i].nbPoints)
  {
    for i := 0 to |npcs|
      invariant forall j :: 0 <= j < |npcs| ==>
        npcs[j].Patrolling() && npcs[j].hp == old(npcs[j].hp) && npcs[j].points == old(npcs[j].points)
      invariant forall j :: 0 <= j < i ==>
        npcs[j].Snapshot() == Patrol(old(npcs[j].Snapshot()), old(npcs[j].points), npcs[j].nbPoints)
      invariant forall j :: i <= j < |npcs| ==> npcs[j].Snapshot() == old(npcs[j].Snapshot())
    {
      npcs[i].Move();
    }
  }

  // ---------------------------------------------------------------------------------------
  // The game's maps

  const WORLD_PORTALS: seq<Portal> := [Portal("world", "enter_dungeon", "dungeon", "spawn_dungeon")]
  const DUNGEON_PORTALS: seq<Portal> :=
    [Portal("dungeon", "exit_dungeon", "world", "enter_dungeon_exit"),
     Portal("dungeon", "enter_dungeon_2", "dungeon_2", "spawn_dungeon_2")]
  const DUNGEON_2_PORTALS: seq<Portal> := [Portal("dungeon_2", "exit_dungeon_2", "dungeon", "enter_dungeon_2_exit")]

  /** The map files hold what start-up reads: the player's start and every waypoint of every NPC. */
  predicate AssetsComplete(files: map<string, TmxData>)
  {
    && "world" in files && "dungeon" in files && "dungeon_2" in files
    && HasObject(files["world"], "player")
    && PathsPresent(files["world"], "mushroom", 4)
    && PathsPresent(files["dungeon"], "bandit", 1)
    && PathsPresent(files["dungeon"], "wizard", 1)
    && PathsPresent(files["dungeon"], "knight", 1)
  }

  /** `teleport_npcs` leaves an NPC on its current waypoint, with its waypoints appended from `tmx`. */
  twostate predicate Spawned(e: Entity, tmx: TmxData)
    reads e
  {
    && PathsPresent(tmx, e.name, e.nbPoints)
    && e.points == old(e.points) + PathRects(tmx, e.name, if e.nbPoints < 0 then 0 else e.nbPoints)
    && e.currentPoint == old(e.currentPoint) && 0 <= e.currentPoint < |e.points|
    && e.Snapshot() == Teleported(old(e.Snapshot()), e.points[e.currentPoint])
    && e.hp == old(e.hp)
  }

  /** What `teleport_npcs` needs of an NPC: all its waypoints on the map, and its cursor on one of them once loaded. */
  ghost predicate Spawnable(e: Entity, tmx: TmxData)
    reads e
  {
    PathsPresent(tmx, e.name, e.nbPoints) && e.currentPoint < |e.points| + (if e.nbPoints < 0 then 0 else e.nbPoints)
  }

  /** Every sprite held by the maps: group members and listed NPCs. */
  ghost function Sprites(maps: map<string, Map>): set<Entity>
  {
    (set m, i | m in maps && 0 <= i < |maps[m].group| :: maps[m].group[i])
    + (set m, i | m in maps && 0 <= i < |maps[m].npcs| :: maps[m].npcs[i])
  }

  /** A registered map: stored under its own name, its group holds the player first and then distinct NPCs, its NPC list distinct NPCs. */
  ghost predicate MapOk(player: Entity, name: string, mp: Map)
  {
    && mp.name == name
    && |mp.group| >= 1 && mp.group[0] == player && Distinct(mp.group)
    && (forall i :: 1 <= i < |mp.group| ==> mp.group[i].kind == NpcKind && mp.group[i] in mp.npcs)
    && (forall i :: 0 <= i < |mp.npcs| ==> mp.npcs[i].kind == NpcKind)
    && Distinct(mp.npcs)
  }

  /** The shape of the registry, with `order` listing its names once each, in insertion order. */
  ghost predicate RegistryOf(player: Entity, maps: map<string, Map>, order: seq<string>)
  {
    && player.kind == PlayerKind
    && (forall m :: m in maps ==> MapOk(player, m, maps[m]))
    && Distinct(order) && (forall m :: m in maps <==> m in order)
  }

  ghost predicate SpritesValid(maps: map<string, Map>)
    reads Sprites(maps)`x, Sprites(maps)`y, Sprites(maps)`oldX, Sprites(maps)`oldY, Sprites(maps)`shared, Sprites(maps)`rect, Sprites(maps)`feet, Sprites(maps)`speed, Sprites(maps)`image, Sprites(maps)`animationIndex, Sprites(maps)`clock, Sprites(maps)`currentPoint
  {
    && (forall m, i :: m in maps && 0 <= i < |maps[m].group| ==> maps[m].group[i].Valid())
    && (forall m, i :: m in maps && 0 <= i < |maps[m].npcs| ==> maps[m].npcs[i].Valid())
  }

  /** What a running map manager keeps, stated on its fields' values: see `MapManager.Valid`. */
  ghost predicate WorldOk(player: Entity, maps: map<string, Map>, order: seq<string>, current: string)
    reads ({player} + Sprites(maps))`x, ({player} + Sprites(maps))`y, ({player} + Sprites(maps))`oldX,
          ({player} + Sprites(maps))`oldY, ({player} + Sprites(maps))`shared, ({player} + Sprites(maps))`rect,
          ({player} + Sprites(maps))`feet, ({player} + Sprites(maps))`speed, ({player} + Sprites(maps))`image,
          ({player} + Sprites(maps))`animationIndex, ({player} + Sprites(maps))`clock,
          ({player} + Sprites(maps))`currentPoint, ({player} + Sprites(maps))`points
  {
    && RegistryOf(player, maps, order) && player.Valid() && SpritesValid(maps)
    && current in maps
    && (forall m, i :: m in maps && 0 <= i < |maps[m].npcs| ==> maps[m].npcs[i].Patrolling())
  }

  /** Killing NPCs keeps a running map manager running. */
  lemma PurgeKeepsWorld(player: Entity, maps: map<string, Map>, order: seq<string>, current: string, gone: set<Entity>)
    requires WorldOk(player, maps, order, current) && player !in gone
    ensures WorldOk(player, Purge(maps, gone), order, current)
  {
    PurgeKeepsRegistry(player, maps, order, gone);
    assert forall m :: m in maps ==> Purge(maps, gone)[m].npcs == maps[m].npcs;
  }

  /** Storing a well-formed map of valid sprites under a name keeps the registry well-formed. */
  lemma InsertMap(player: Entity, maps: map<string, Map>, order: seq<string>, name: string, mp: Map)
    requires RegistryOf(player, maps, order) && SpritesValid(maps) && MapOk(player, name, mp)
    requires forall i :: 0 <= i < |mp.group| ==> mp.group[i].Valid()
    requires forall i :: 0 <= i < |mp.npcs| ==> mp.npcs[i].Valid()
    ensures RegistryOf(player, maps[name := mp], if name in maps then order else order + [name])
    ensures SpritesValid(maps[name := mp])
  {
  }

  /** The group `register_map` builds: the player first, then distinct NPCs. */
  lemma GroupOk(player: Entity, npcs: seq<Entity>)
    requires forall i :: 0 <= i < |npcs| ==> npcs[i].kind == NpcKind
    requires player.kind == PlayerKind
    ensures var g := AddSprites([player], npcs);
      && |g| >= 1 && g[0] == player && Distinct(g)
      && (forall i :: 1 <= i < |g| ==> g[i].kind == NpcKind && g[i] in npcs)
  {
    var g := AddSprites([player], npcs);
    forall i | 1 <= i < |g| ensures g[i].kind == NpcKind {
      assert g[i] in npcs;
    }
  }

  /**
   * `register_map` keeps the registry well-formed: storing the map of distinct valid NPCs keeps
   * every map well-formed and every sprite valid, and `order` lists each name once.
   */
  lemma RegisterKeepsRegistry(player: Entity, maps: map<string, Map>, order: seq<string>, name: string,
                              tmx: TmxData, portals: seq<Portal>, npcs: seq<Entity>)
    requires RegistryOf(player, maps, order) && SpritesValid(maps) && player.Valid()
    requires forall i :: 0 <= i < |npcs| ==> npcs[i].kind == NpcKind && npcs[i].Valid()
    requires Distinct(npcs)
    ensures var after := maps[name := Registered(player, name, tmx, portals, npcs)];
      && RegistryOf(player, after, if name in maps then order else order + [name])
      && SpritesValid(after)
  {
    var mp := Registered(player, name, tmx, portals, npcs);
    GroupOk(player, npcs);
    forall i | 0 <= i < |mp.group|
      ensures mp.group[i].Valid()
    {
      assert mp.group[i] == player || mp.group[i] in npcs;
    }
    InsertMap(player, maps, order, name, mp);
  }

  /** The NPCs of one map, each with the objects of that map. */
  function Pairs(mp: Map): (r: seq<(Entity, TmxData)>)
    ensures |r| == |mp.npcs| && forall i :: 0 <= i < |r| ==> r[i] == (mp.npcs[i], mp.tmx)
  {
    seq(|mp.npcs|, i requires 0 <= i < |mp.npcs| => (mp.npcs[i], mp.tmx))
  }

  /** The NPCs of the named maps, each with its map's objects, in the order `teleport_npcs` visits them. */
  function Roster(maps: map<string, Map>, names: seq<string>): seq<(Entity, TmxData)>
    requires forall k :: 0 <= k < |names| ==> names[k] in maps
    decreases |names|
  {
    if |names| == 0 then []
    else Roster(maps, names[..|names| - 1]) + Pairs(maps[names[|names| - 1]])
  }

  /** No NPC occurs twice in a roster. */
  predicate NpcsOnce(r: seq<(Entity, TmxData)>)
  {
    forall a, b :: 0 <= a < b < |r| ==> r[a].0 != r[b].0
  }

  /** Every roster entry is an NPC of one of the named maps, with that map's objects. */
  lemma {:induction false} RosterFrom(maps: map<string, Map>, names: seq<string>, r: int)
    requires forall n :: 0 <= n < |names| ==> names[n] in maps
    requires 0 <= r < |Roster(maps, names)|
    ensures exists m, i :: m in maps && 0 <= i < |maps[m].npcs| && Roster(maps, names)[r] == (maps[m].npcs[i], maps[m].tmx)
    decreases |names|
  {
    var init := names[..|names| - 1];
    if r < |Roster(maps, init)| {
      RosterFrom(maps, init, r);
    } else {
      var m := names[|names| - 1];
      assert Roster(maps, names)[r] == (maps[m].npcs[r - |Roster(maps, init)|], maps[m].tmx);
    }
  }

  /** Every NPC of a named map is in the roster, with that map's objects. */
  lemma {:induction false} RosterCovers(maps: map<string, Map>, names: seq<string>, m: string, i: int)
    requires forall n :: 0 <= n < |names| ==> names[n] in maps
    requires m in names && 0 <= i < |maps[m].npcs|
    ensures exists r :: 0 <= r < |Roster(maps, names)| && Roster(maps, names)[r] == (maps[m].npcs[i], maps[m].tmx)
    decreases |names|
  {
    var init := names[..|names| - 1];
    if names[|names| - 1] == m {
      var r := |Roster(maps, init)| + i;
      assert Roster(maps, names)[r] == (maps[m].npcs[i], maps[m].tmx);
    } else {
      var idx :| 0 <= idx < |names| && names[idx] == m;
      assert init[idx] == m;
      RosterCovers(maps, init, m, i);
      var r :| 0 <= r < |Roster(maps, init)| && Roster(maps, init)[r] == (maps[m].npcs[i], maps[m].tmx);
      assert Roster(maps, names)[r] == Roster(maps, init)[r];
    }
  }

  /** One step of `teleport_npcs`: `npc.load_points(tmx)` then `npc.teleport_spawn()`; `ok` is false where either raises. */
  method Spawn(npc: Entity, tmx: TmxData) returns (ok: bool)
    requires npc.Valid()
    modifies npc
    ensures npc.Valid()
    ensures ok <==> old(Spawnable(npc, tmx))
    ensures ok ==> Spawned(npc, tmx)
  {
    var found := npc.LoadPoints(tmx);
    if !found || npc.currentPoint >= |npc.points| {
      return false;
    }
    npc.TeleportSpawn();
    ok := true;
  }

  /** Once every NPC of the roster is valid again, so is every sprite of the registry. */
  lemma RosterValid(player: Entity, maps: map<string, Map>, order: seq<string>)
    requires RegistryOf(player, maps, order) && player.Valid()
    requires forall r :: 0 <= r < |Roster(maps, order)| ==> Roster(maps, order)[r].0.Valid()
    ensures SpritesValid(maps)
  {
    forall m, i | m in maps && 0 <= i < |maps[m].npcs|
      ensures maps[m].npcs[i].Valid()
    {
      RosterCovers(maps, order, m, i);
    }
    forall m, i | m in maps && 0 <= i < |maps[m].group|
      ensures maps[m].group[i].Valid()
    {
      if i > 0 {
        var j :| 0 <= j < |maps[m].npcs| && maps[m].npcs[j] == maps[m].group[i];
        RosterCovers(maps, order, m, j);
      }
    }
  }

  /** The loops of `teleport_npcs`: every NPC of every map, map by map in registration order. */
  method SpawnMaps(maps: map<string, Map>, order: seq<string>) returns (status: Status)
    requires forall k :: 0 <= k < |order| ==> order[k] in maps
    requires NpcsOnce(Roster(maps, order))
    requires forall r :: 0 <= r < |Roster(maps, order)| ==> Roster(maps, order)[r].0.Valid()
    modifies set r | 0 <= r < |Roster(maps, order)| :: Roster(maps, order)[r].0
    ensures status.Running? || status.BadWaypoints?
    ensures var r := Roster(maps, order);
      status.Running? <==> forall n :: 0 <= n < |r| ==> old(Spawnable(r[n].0, r[n].1))
    ensures var r := Roster(maps, order);
      status.Running? ==> forall n :: 0 <= n < |r| ==> r[n].0.Valid() && Spawned(r[n].0, r[n].1)
  {
    var roster := Roster(maps, order);
    forall r | 0 <= r < |roster|
      ensures allocated(roster[r].0)
    {
      RosterFrom(maps, order, r);
    }
    for r := 0 to |roster|
      invariant forall q :: 0 <= q < r ==> roster[q].0.Valid() && Spawned(roster[q].0, roster[q].1)
      invariant forall q :: r <= q < |roster| ==> unchanged(roster[q].0) && roster[q].0.Valid()
    {
      assert forall q :: 0 <= q < |roster| && q != r ==> roster[q].0 != roster[r].0;
      var ok := Spawn(roster[r].0, roster[r].1);
      if !ok {
        return BadWaypoints(roster[r].0.name);
      }
    }
    assert forall q :: 0 <= q < |roster| ==> old(Spawnable(roster[q].0, roster[q].1));
    status := Running;
  }

  /** The three map names are different keys. */
  lemma MapNamesDiffer()
    ensures "world" != "dungeon" && "world" != "dungeon_2" && "dungeon" != "dungeon_2"
  {
    assert |"world"| == 5 && |"dungeon"| == 7 && |"dungeon_2"| == 9;
  }

  /** The map `register_map` stores. */
  function Registered(player: Entity, name: string, tmx: TmxData, portals: seq<Portal>, npcs: seq<Entity>): Map
  {
    Map(name, CollisionRects(tmx.objects), AddSprites([player], npcs), tmx, portals, npcs)
  }

  /** The registry `MapManager.__init__` builds, given its NPCs. */
  function InitialMaps(player: Entity, files: map<string, TmxData>, inWorld: seq<Entity>, inDungeon: seq<Entity>): (maps: map<string, Map>)
    requires "world" in files && "dungeon" in files && "dungeon_2" in files
    ensures maps.Keys == {"world", "dungeon", "dungeon_2"}
    ensures forall m :: m in maps ==> maps[m].tmx == files[m]
    ensures maps["world"].portals == WORLD_PORTALS && maps["dungeon"].portals == DUNGEON_PORTALS
    ensures maps["dungeon_2"].portals == DUNGEON_2_PORTALS
    ensures maps["world"].npcs == inWorld && maps["dungeon"].npcs == inDungeon && maps["dungeon_2"].npcs == []
  {
    map["world" := Registered(player, "world", files["world"], WORLD_PORTALS, inWorld),
        "dungeon" := Registered(player, "dungeon", files["dungeon"], DUNGEON_PORTALS, inDungeon),
        "dungeon_2" := Registered(player, "dungeon_2", files["dungeon_2"], DUNGEON_2_PORTALS, [])]
  }

  /** The four NPCs of `MapManager.__init__`, as they leave their constructors. */
  ghost predicate NewNpcsOk(inWorld: seq<Entity>, inDungeon: seq<Entity>)
    reads inWorld, inDungeon
  {
    && |inWorld| == 1 && |inDungeon| == 3
    && var mushroom, bandit, wizard, knight := inWorld[0], inDungeon[0], inDungeon[1], inDungeon[2];
    && mushroom.name == "mushroom" && mushroom.nbPoints == 4 && Unspawned(mushroom)
    && bandit.name == "bandit" && bandit.nbPoints == 1 && Unspawned(bandit)
    && wizard.name == "wizard" && wizard.nbPoints == 1 && Unspawned(wizard)
    && knight.name == "knight" && knight.nbPoints == 1 && Unspawned(knight)
    && mushroom != bandit && mushroom != wizard && mushroom != knight
    && bandit != wizard && bandit != knight && wizard != knight
  }

  /** An NPC as its constructor leaves it: valid, with a dialog, no waypoints yet and its cursor on the first. */
  ghost predicate Unspawned(e: Entity)
    reads e
  {
    e.kind == NpcKind && e.Valid() && e.points == [] && e.currentPoint == 0 && |e.dialog| > 0
  }


  /** The NPCs `MapManager.__init__` creates, with their dialogs: the mushroom of the world, and the bandit, wizard and knight of the dungeon. */
  method NewNpcs() returns (inWorld: seq<Entity>, inDungeon: seq<Entity>)
    ensures NewNpcsOk(inWorld, inDungeon)
    ensures fresh(inWorld[0]) && fresh(inDungeon[0]) && fresh(inDungeon[1]) && fresh(inDungeon[2])
  {
    var mushroom := new Entity.Npc("mushroom", 4, [
      "Je te souhaite une excellente aventure   ", "Les cours de NSI sont les meilleurs !!!   ",
      "Dédicace au meilleur graphiste : Karl   ", " Bye !   "]);
    var bandit := new Entity.Npc("bandit", 1, ["hihihi   ", "Je vais te saccager de la tête aux pieds   "]);
    var wizard := new Entity.Npc("wizard", 1, ["ZAAAaaAAAP   ", "Je suis le côté obscur du magicien d'Oz   "]);
    var knight := new Entity.Npc("knight", 1, [
      "Mwahahah je suis le plus fort du moonde !!   ", "Nonobstant les cours de NSI sont les meilleurs   ",
      "Maintenant c'est l'heure du combat !!!   "]);
    inWorld, inDungeon := [mushroom], [bandit, wizard, knight];
  }

  /** The roster of three maps is their NPC lists one after the other. */
  lemma RosterOfThree(maps: map<string, Map>, a: string, b: string, c: string)
    requires a in maps && b in maps && c in maps
    ensures Roster(maps, [a, b, c]) == Pairs(maps[a]) + Pairs(maps[b]) + Pairs(maps[c])
  {
    assert [a, b, c][..2] == [a, b];
    assert [a, b][..1] == [a];
    assert [a][..0] == [];
    assert Roster(maps, [a]) == Pairs(maps[a]);
    assert Roster(maps, [a, b]) == Pairs(maps[a]) + Pairs(maps[b]);
  }

  /** After the first `register_map` of `MapManager.__init__`. */
  function WorldOnly(player: Entity, files: map<string, TmxData>, inWorld: seq<Entity>): map<string, Map>
    requires "world" in files
  {
    map["world" := Registered(player, "world", files["world"], WORLD_PORTALS, inWorld)]
  }

  /** After the second `register_map` of `MapManager.__init__`. */
  function WorldAndDungeon(player: Entity, files: map<string, TmxData>, inWorld: seq<Entity>, inDungeon: seq<Entity>): map<string, Map>
    requires "world" in files && "dungeon" in files
  {
    WorldOnly(player, files, inWorld)["dungeon" := Registered(player, "dungeon", files["dungeon"], DUNGEON_PORTALS, inDungeon)]
  }

  /** The first two registrations of `MapManager.__init__` keep the registry well-formed. */
  lemma RegistryAfterTwo(player: Entity, files: map<string, TmxData>, inWorld: seq<Entity>, inDungeon: seq<Entity>)
    requires "world" in files && "dungeon" in files && "dungeon_2" in files
    requires player.kind == PlayerKind && player.Valid() && NewNpcsOk(inWorld, inDungeon)
    ensures var maps := WorldAndDungeon(player, files, inWorld, inDungeon);
      RegistryOf(player, maps, ["world", "dungeon"]) && SpritesValid(maps)
  {
    MapNamesDiffer();
    RegistryAfterOne(player, files, inWorld, inDungeon);
    RegisterKeepsRegistry(player, WorldOnly(player, files, inWorld), ["world"], "dungeon", files["dungeon"], DUNGEON_PORTALS, inDungeon);
    assert ["world"] + ["dungeon"] == ["world", "dungeon"];
  }

  /** The first registration of `MapManager.__init__` keeps the registry well-formed. */
  lemma RegistryAfterOne(player: Entity, files: map<string, TmxData>, inWorld: seq<Entity>, inDungeon: seq<Entity>)
    requires "world" in files
    requires player.kind == PlayerKind && player.Valid() && NewNpcsOk(inWorld, inDungeon)
    ensures var maps := WorldOnly(player, files, inWorld);
      RegistryOf(player, maps, ["world"]) && SpritesValid(maps)
  {
    var m0: map<string, Map> := map[];
    RegisterKeepsRegistry(player, m0, [], "world", files["world"], WORLD_PORTALS, inWorld);
    assert [] + ["world"] == ["world"];
  }

  /** The registry of `MapManager.__init__` is well-formed and its sprites valid. */
  lemma InitialRegistry(player: Entity, files: map<string, TmxData>, inWorld: seq<Entity>, inDungeon: seq<Entity>)
    requires "world" in files && "dungeon" in files && "dungeon_2" in files
    requires player.kind == PlayerKind && player.Valid() && NewNpcsOk(inWorld, inDungeon)
    ensures var maps := InitialMaps(player, files, inWorld, inDungeon);
      RegistryOf(player, maps, ["world", "dungeon", "dungeon_2"]) && SpritesValid(maps)
  {
    MapNamesDiffer();
    RegistryAfterTwo(player, files, inWorld, inDungeon);
    var m2 := WorldAndDungeon(player, files, inWorld, inDungeon);
    RegisterKeepsRegistry(player, m2, ["world", "dungeon"], "dungeon_2", files["dungeon_2"], DUNGEON_2_PORTALS, []);
    assert ["world", "dungeon"] + ["dungeon_2"] == ["world", "dungeon", "dungeon_2"];
    assert m2["dungeon_2" := Registered(player, "dungeon_2", files["dungeon_2"], DUNGEON_2_PORTALS, [])]
        == InitialMaps(player, files, inWorld, inDungeon);
  }

  /** The NPCs of the registry of `MapManager.__init__` are the four it creates. */
  lemma InitialNpcs(player: Entity, files: map<string, TmxData>, inWorld: seq<Entity>, inDungeon: seq<Entity>)
    requires "world" in files && "dungeon" in files && "dungeon_2" in files
    requires |inWorld| == 1 && |inDungeon| == 3
    ensures var maps := InitialMaps(player, files, inWorld, inDungeon);
      forall m, i :: m in maps && 0 <= i < |maps[m].npcs| ==>
        maps[m].npcs[i] in {inWorld[0], inDungeon[0], inDungeon[1], inDungeon[2]}
  {
  }

  /** What `MapManager.__init__` has set up when it calls `teleport_player` and `teleport_npcs`. */
  lemma ReadyToStart(player: Entity, files: map<string, TmxData>, inWorld: seq<Entity>, inDungeon: seq<Entity>)
    requires AssetsComplete(files) && player.kind == PlayerKind && player.Valid() && NewNpcsOk(inWorld, inDungeon)
    ensures var maps := InitialMaps(player, files, inWorld, inDungeon);
      var order := ["world", "dungeon", "dungeon_2"];
      var r := Roster(maps, order);
      && RegistryOf(player, maps, order) && SpritesValid(maps) && HasObject(maps["world"].tmx, "player")
      && NpcsOnce(r)
      && (forall n :: 0 <= n < |r| ==>
            (r[n].0.kind == NpcKind && Spawnable(r[n].0, r[n].1) && r[n].0.points == [] && r[n].0.currentPoint == 0
             && r[n].0.nbPoints >= 1))
      && (forall m, i :: m in maps && 0 <= i < |maps[m].npcs| ==>
            maps[m].npcs[i] in {inWorld[0], inDungeon[0], inDungeon[1], inDungeon[2]})
  {
    InitialRegistry(player, files, inWorld, inDungeon);
    InitialRoster(InitialMaps(player, files, inWorld, inDungeon), files, inWorld, inDungeon);
    InitialNpcs(player, files, inWorld, inDungeon);
  }

  /** Right after registration, the roster holds the four new NPCs once each, all ready to be spawned. */
  lemma InitialRoster(maps: map<string, Map>, files: map<string, TmxData>, inWorld: seq<Entity>, inDungeon: seq<Entity>)
    requires AssetsComplete(files) && NewNpcsOk(inWorld, inDungeon)
    requires maps.Keys == {"world", "dungeon", "dungeon_2"}
    requires forall m :: m in maps ==> maps[m].tmx == files[m]
    requires maps["world"].npcs == inWorld && maps["dungeon"].npcs == inDungeon && maps["dungeon_2"].npcs == []
    ensures var r := Roster(maps, ["world", "dungeon", "dungeon_2"]);
      && NpcsOnce(r)
      && forall n :: 0 <= n < |r| ==>
           (r[n].0.kind == NpcKind && Spawnable(r[n].0, r[n].1) && r[n].0.points == [] && r[n].0.currentPoint == 0
            && r[n].0.nbPoints >= 1)
  {
    RosterOfThree(maps, "world", "dungeon", "dungeon_2");
    var r := Roster(maps, ["world", "dungeon", "dungeon_2"]);
    assert r == [(inWorld[0], files["world"]), (inDungeon[0], files["dungeon"]), (inDungeon[1], files["dungeon"]),
                 (inDungeon[2], files["dungeon"])];
  }

  class MapManager {
    var maps: map<string, Map>
    var order: seq<string>
    var currentMap: string
    const player: Entity

    /** Every sprite the manager can reach. */
    ghost function AllEntities(): set<Entity>
      reads this`maps
    {
      {player} + Sprites(maps)
    }

    /** Every NPC of every map's NPC list. */
    ghost function AllNpcs(): set<Entity>
      reads this`maps
    {
      set m, i | m in maps && 0 <= i < |maps[m].npcs| :: maps[m].npcs[i]
    }

    ghost predicate Registry()
      reads this`maps, this`order
    {
      RegistryOf(player, maps, order)
    }

    /** Every sprite the manager holds keeps the invariant of its class. */
    ghost predicate EntitiesOk()
      reads this`maps, AllEntities()`x, AllEntities()`y, AllEntities()`oldX, AllEntities()`oldY, AllEntities()`shared, AllEntities()`rect, AllEntities()`feet, AllEntities()`speed, AllEntities()`image, AllEntities()`animationIndex, AllEntities()`clock, AllEntities()`currentPoint
    {
      player.Valid() && SpritesValid(maps)
    }

    /** The running state: a registered current map, valid sprites, and every listed NPC on its path. */
    ghost predicate Valid()
      reads this, AllEntities()`x, AllEntities()`y, AllEntities()`oldX, AllEntities()`oldY, AllEntities()`shared, AllEntities()`rect, AllEntities()`feet, AllEntities()`speed, AllEntities()`image, AllEntities()`animationIndex, AllEntities()`clock, AllEntities()`currentPoint, AllEntities()`points
    {
      && Registry() && EntitiesOk()
      && currentMap in maps
      && (forall m, i :: m in maps && 0 <= i < |maps[m].npcs| ==> maps[m].npcs[i].Patrolling())
    }

    /** The sprites held are the player and the NPCs of the lists: a group holds no one else. */
    lemma HeldSprites()
      requires Registry()
      ensures AllEntities() <= {player} + AllNpcs()
    {
      forall e | e in AllEntities() && e != player
        ensures e in AllNpcs()
      {
        var m, i :| m in maps && ((0 <= i < |maps[m].group| && maps[m].group[i] == e)
                                  || (0 <= i < |maps[m].npcs| && maps[m].npcs[i] == e));
        if i < |maps[m].group| && maps[m].group[i] == e {
          assert e in maps[m].npcs;
        }
      }
    }

    /** The sprites of the map a portal scan lands on are among the sprites held. */
    lemma LandingHeld(p: Body)
      requires currentMap in maps
      ensures var l := Landing(p);
        && (forall i :: 0 <= i < |l.group| ==> l.group[i] in AllEntities())
        && (forall i :: 0 <= i < |l.npcs| ==> l.npcs[i] in AllEntities())
    {
      var s := PortalScan(maps, currentMap, maps[currentMap].portals, p);
      var m := if s.current in maps then s.current else currentMap;
      assert Landing(p) == maps[m];
    }

    /** The sprites of the current map are among the sprites held. */
    lemma GroupHeld()
      requires currentMap in maps
      ensures forall i :: 0 <= i < |Group()| ==> Group()[i] in AllEntities()
    {
      forall i | 0 <= i < |Group()|
        ensures Group()[i] in AllEntities()
      {
        assert Group()[i] in Sprites(maps);
      }
    }

    lemma ValidIsWorldOk()
      ensures Valid() <==> WorldOk(player, maps, order, currentMap)
    {
    }

    /** `get_map().group`. */
    function Group(): seq<Entity>
      reads this`maps, this`currentMap
      requires currentMap in maps
    {
      maps[currentMap].group
    }

    /** `get_map().npcs`. */
    function Npcs(): seq<Entity>
      reads this`maps, this`currentMap
      requires currentMap in maps
    {
      maps[currentMap].npcs
    }

    /** `get_walls()`. */
    function Walls(): seq<Rect>
      reads this`maps, this`currentMap
      requires currentMap in maps
    {
      maps[currentMap].walls
    }

    /**
     * `register_map(name, portals, npcs)`: the walls are the collision objects of the map in
     * file order, the group holds the player and then each new NPC once, and the map is stored
     * under `name`, replacing one of the same name in place.
     */
    method RegisterMap(name: string, tmx: TmxData, portals: seq<Portal>, npcs: seq<Entity>)
      modifies this`maps, this`order
      ensures maps == old(maps)[name := Registered(player, name, tmx, portals, npcs)]
      ensures order == if name in old(maps) then old(order) else old(order) + [name]
    {
      var walls := CollisionWalls(tmx);
      var group := GroupOf(npcs);
      if name !in maps {
        order := order + [name];
      }
      maps := maps[name := Map(name, walls, group, tmx, portals, npcs)];
    }

    /** The wall loop of `register_map`: a rectangle for each object of type "collision", in file order. */
    method CollisionWalls(tmx: TmxData) returns (walls: seq<Rect>)
      ensures walls == CollisionRects(tmx.objects)
    {
      walls := [];
      for i := 0 to |tmx.objects|
        invariant walls == CollisionRects(tmx.objects[..i])
      {
        var obj := tmx.objects[i];
        assert tmx.objects[..i + 1][..i] == tmx.objects[..i];
        if obj.kind == "collision" {
          walls := walls + [obj.rect];
        }
      }
      assert tmx.objects[..|tmx.objects|] == tmx.objects;
    }

    /** The group of `register_map`: the player, then `group.add(npc)` for each NPC. */
    method GroupOf(npcs: seq<Entity>) returns (group: seq<Entity>)
      ensures group == AddSprites([player], npcs)
    {
      group := [player];
      for i := 0 to |npcs|
        invariant group == AddSprites([player], npcs[..i])
      {
        assert npcs[..i + 1][..i] == npcs[..i];
        if npcs[i] !in group {
          group := group + [npcs[i]];
        }
      }
      assert npcs[..|npcs|] == npcs;
    }

    /**
     * `teleport_player(name)`: the player stands on the object `name` of the current map, with
     * that position saved. The lookup fails when the map or the object does not exist.
     */
    method TeleportPlayer(name: string) returns (status: Status)
      requires Registry() && EntitiesOk()
      modifies player
      ensures EntitiesOk() && player.hp == old(player.hp) && player.points == old(player.points)
      ensures var l := Find(maps, currentMap, name);
        && (l.Lost? ==> status == l.status && player.Snapshot() == old(player.Snapshot()))
        && (l.Found? ==> status == Running && player.Snapshot() == Teleported(old(player.Snapshot()), l.rect))
    {
      var point := Find(maps, currentMap, name);
      if point.Lost? {
        return point.status;
      }
      player.WritePositionCells(point.rect.x, point.rect.y);
      player.SaveLocation();
      status := Running;
      forall m, i | m in maps && 0 <= i < |maps[m].group|
        ensures maps[m].group[i].Valid()
      {
        if maps[m].group[i] != player {
          assert old(maps[m].group[i].Valid());
        }
      }
      forall m, i | m in maps && 0 <= i < |maps[m].npcs|
        ensures maps[m].npcs[i].Valid()
      {
        assert maps[m].npcs[i].kind == NpcKind;
        assert old(maps[m].npcs[i].Valid());
      }
    }

    /**
     * `MapManager(...)`: registers "world", "dungeon" and "dungeon_2" in that order with their
     * portals and NPCs, puts the player on the "player" object of "world", then sends every NPC
     * to the first point of its path.
     */
    constructor (player: Entity, files: map<string, TmxData>)
      requires player.Valid() && player.kind == PlayerKind
      requires AssetsComplete(files)
      modifies player
      ensures Valid() && this.player == player && currentMap == "world"
      ensures order == ["world", "dungeon", "dungeon_2"] && maps.Keys == {"world", "dungeon", "dungeon_2"}
      ensures forall m :: m in maps ==> maps[m].tmx == files[m]
      ensures maps["world"].portals == WORLD_PORTALS && maps["dungeon"].portals == DUNGEON_PORTALS
      ensures maps["dungeon_2"].portals == DUNGEON_2_PORTALS
      ensures |maps["world"].npcs| == 1 && |maps["dungeon"].npcs| == 3 && maps["dungeon_2"].npcs == []
      ensures player.Snapshot() == Teleported(old(player.Snapshot()), GetObjectByName(files["world"], "player").value)
      ensures player.hp == old(player.hp)
      ensures Talkative() && fresh(AllNpcs())
    {
      this.player := player;
      maps := map[];
      order := [];
      currentMap := "world";
      new;
      ghost var inWorld, inDungeon := RegisterAll(files);
      var status := Start(files, inWorld, inDungeon);
    }

    /**
     * The end of `MapManager.__init__`, once the three maps are registered with the NPCs it
     * created: `teleport_player("player")`, then `teleport_npcs()`.
     */
    method Start(ghost files: map<string, TmxData>, ghost inWorld: seq<Entity>, ghost inDungeon: seq<Entity>)
      returns (status: Status)
      requires AssetsComplete(files) && player.kind == PlayerKind && player.Valid() && NewNpcsOk(inWorld, inDungeon)
      requires maps == InitialMaps(player, files, inWorld, inDungeon) && order == ["world", "dungeon", "dungeon_2"]
      requires currentMap == "world"
      modifies player, {inWorld[0], inDungeon[0], inDungeon[1], inDungeon[2]}
      ensures status == Running && Valid()
      ensures maps == old(maps) && order == old(order) && currentMap == old(currentMap)
      ensures player.Snapshot() == Teleported(old(player.Snapshot()), GetObjectByName(files["world"], "player").value)
      ensures player.hp == old(player.hp)
    {
      ReadyToStart(player, files, inWorld, inDungeon);
      assert player != inWorld[0] && player != inDungeon[0] && player != inDungeon[1] && player != inDungeon[2];
      status := Launch({inWorld[0], inDungeon[0], inDungeon[1], inDungeon[2]});
    }

    /** `teleport_player("player")`, then `teleport_npcs()`, on NPCs that have not moved yet. */
    method Launch(ghost news: set<Entity>) returns (status: Status)
      requires Registry() && EntitiesOk() && currentMap in maps && HasObject(maps[currentMap].tmx, "player")
      requires var r := Roster(maps, order);
        && NpcsOnce(r)
        && forall n :: 0 <= n < |r| ==>
             (r[n].0.kind == NpcKind && Spawnable(r[n].0, r[n].1) && r[n].0.points == [] && r[n].0.currentPoint == 0
              && r[n].0.nbPoints >= 1)
      requires forall m, i :: m in maps && 0 <= i < |maps[m].npcs| ==> maps[m].npcs[i] in news
      requires player !in news
      modifies player, news
      ensures status == Running && Valid()
      ensures maps == old(maps) && order == old(order) && currentMap == old(currentMap)
      ensures player.Snapshot() == Teleported(old(player.Snapshot()), GetObjectByName(maps[currentMap].tmx, "player").value)
      ensures player.hp == old(player.hp)
    {
      ghost var roster := Roster(maps, order);
      forall n | 0 <= n < |roster|
        ensures allocated(roster[n].0)
      {
        RosterFrom(maps, order, n);
      }
      status := TeleportPlayer("player");
      assert forall n :: 0 <= n < |roster| ==> roster[n].0 != player;
      status := StartNpcs(news);
    }

    /** `teleport_npcs` on NPCs fresh from their constructors: each ends on the first point of its path. */
    method StartNpcs(ghost news: set<Entity>) returns (status: Status)
      requires Registry() && EntitiesOk() && currentMap in maps
      requires forall m, i :: m in maps && 0 <= i < |maps[m].npcs| ==> maps[m].npcs[i] in news
      requires var r := Roster(maps, order);
        && NpcsOnce(r)
        && forall n :: 0 <= n < |r| ==>
             (Spawnable(r[n].0, r[n].1) && r[n].0.points == [] && r[n].0.currentPoint == 0 && r[n].0.nbPoints >= 1)
      modifies news
      ensures status == Running && Valid()
      ensures maps == old(maps) && order == old(order) && currentMap == old(currentMap)
    {
      status := TeleportNpcs();
      forall m, i | m in maps && 0 <= i < |maps[m].npcs|
        ensures maps[m].npcs[i].Patrolling()
      {
        RosterCovers(maps, order, m, i);
      }
    }

    /** The registration part of `MapManager.__init__`: the NPCs are created and the three maps stored. */
    method RegisterAll(files: map<string, TmxData>) returns (ghost inWorld: seq<Entity>, ghost inDungeon: seq<Entity>)
      requires maps == map[] && order == []
      requires "world" in files && "dungeon" in files && "dungeon_2" in files
      modifies this`maps, this`order
      ensures order == ["world", "dungeon", "dungeon_2"]
      ensures maps == InitialMaps(player, files, inWorld, inDungeon)
      ensures NewNpcsOk(inWorld, inDungeon)
      ensures fresh(inWorld[0]) && fresh(inDungeon[0]) && fresh(inDungeon[1]) && fresh(inDungeon[2])
      ensures Talkative() && fresh(AllNpcs())
    {
      var world, dungeon := NewNpcs();
      inWorld, inDungeon := world, dungeon;
      RegisterThree(files, world, dungeon);
      InitialNpcs(player, files, inWorld, inDungeon);
    }

    /** The three `register_map` calls of `MapManager.__init__`. */
    method RegisterThree(files: map<string, TmxData>, world: seq<Entity>, dungeon: seq<Entity>)
      requires maps == map[] && order == []
      requires "world" in files && "dungeon" in files && "dungeon_2" in files
      modifies this`maps, this`order
      ensures order == ["world", "dungeon", "dungeon_2"]
      ensures maps == InitialMaps(player, files, world, dungeon)
    {
      MapNamesDiffer();
      RegisterMap("world", files["world"], WORLD_PORTALS, world);
      RegisterMap("dungeon", files["dungeon"], DUNGEON_PORTALS, dungeon);
      RegisterMap("dungeon_2", files["dungeon_2"], DUNGEON_2_PORTALS, []);
    }

    /**
     * `teleport_npcs`: for each map in registration order and each of its NPCs in list order,
     * load the NPC's waypoints from that map and put it on its current waypoint. It gets
     * through exactly when every NPC has all its waypoints and its cursor falls on one.
     */
    method TeleportNpcs() returns (status: Status)
      requires Registry() && EntitiesOk()
      requires NpcsOnce(Roster(maps, order))
      modifies AllNpcs()
      ensures status.Running? ==> EntitiesOk()
      ensures var r := Roster(maps, order);
        status.Running? <==> forall n :: 0 <= n < |r| ==> old(Spawnable(r[n].0, r[n].1))
      ensures var r := Roster(maps, order);
        status.Running? ==> forall n :: 0 <= n < |r| ==> Spawned(r[n].0, r[n].1)
    {
      ghost var roster := Roster(maps, order);
      forall r | 0 <= r < |roster|
        ensures roster[r].0 in AllNpcs() && roster[r].0.Valid()
      {
        RosterFrom(maps, order, r);
      }
      status := SpawnMaps(maps, order);
      if status.Running? {
        RosterValid(player, maps, order);
      }
    }

    /**
     * The portal loop of `check_collisions`, over the portals of the map that is current when
     * it starts: a portal of the current map whose origin the feet touch switches the current
     * map, then teleports the player onto its target point there.
     */
    method PortalPass() returns (status: Status)
      requires Valid()
      modifies this`currentMap, player
      ensures status == Running ==> Valid()
      ensures player.hp == old(player.hp) && player.points == old(player.points)
      ensures var s := PortalScan(maps, old(currentMap), old(maps[currentMap].portals), old(player.Snapshot()));
        currentMap == s.current && player.Snapshot() == s.player && status == s.status
    {
      var portals := maps[currentMap].portals;
      ghost var scan := PortalScan(maps, currentMap, portals, player.Snapshot());
      for i := 0 to |portals|
        invariant Registry() && EntitiesOk() && currentMap in maps
        invariant player.hp == old(player.hp) && player.points == old(player.points)
        invariant PortalScan(maps, currentMap, portals[i..], player.Snapshot()) == scan
      {
        PortalScanUnfolds(maps, currentMap, portals[i..], player.Snapshot());
        assert portals[i..][0] == portals[i] && portals[i..][1..] == portals[i + 1..];
        status := TakePortal(portals[i]);
        if status != Running {
          return;
        }
      }
      assert portals[|portals|..] == [];
      status := Running;
      forall m, i | m in maps && 0 <= i < |maps[m].npcs|
        ensures maps[m].npcs[i].Patrolling()
      {
        assert maps[m].npcs[i] != player;
        assert old(maps[m].npcs[i].Patrolling());
      }
    }

    /** One turn of the portal loop of `check_collisions`. */
    method TakePortal(portal: Portal) returns (status: Status)
      requires Registry() && EntitiesOk() && currentMap in maps
      modifies this`currentMap, player
      ensures EntitiesOk() && player.hp == old(player.hp) && player.points == old(player.points)
      ensures var t := PortalTurn(maps, old(currentMap), portal, old(player.Snapshot()));
        currentMap == t.current && player.Snapshot() == t.player && status == t.status
    {
      status := Running;
      if portal.fromWorld == currentMap {
        var point := Find(maps, currentMap, portal.originPoint);
        if point.Lost? {
          return point.status;
        }
        if Collides(player.feet, point.rect) {
          currentMap := portal.targetWorld;
          status := TeleportPlayer(portal.teleportPoint);
        }
      }
    }

    /** The map the portal loop leaves current when the player's body is `p`, or the current one if it stops on a missing object. */
    ghost function Landing(p: Body): Map
      reads this`maps, this`currentMap
      requires currentMap in maps
    {
      var s := PortalScan(maps, currentMap, maps[currentMap].portals, p);
      if s.current in maps then maps[s.current] else maps[currentMap]
    }

    /** In a running state every sprite of the current group is ready for a frame, and every NPC of its list is on its path. */
    lemma CurrentReady()
      requires Valid()
      ensures forall i :: 0 <= i < |Group()| ==> Ready(Group()[i])
      ensures forall i :: 0 <= i < |Npcs()| ==> Npcs()[i].Patrolling()
    {
      var g := Group();
      forall i | 0 <= i < |g|
        ensures Ready(g[i])
      {
        if i > 0 {
          var k :| 0 <= k < |Npcs()| && Npcs()[k] == g[i];
        }
      }
    }

    /**
     * `check_collisions`: the portal loop, then the collision loop over the group of the map
     * that is current after it. A missing portal object stops the frame with its status.
     */
    method CheckCollisions() returns (status: Status)
      requires Valid()
      modifies this`currentMap, player, Landing(player.Snapshot()).group
      ensures var s := PortalScan(maps, old(currentMap), old(maps[currentMap].portals), old(player.Snapshot()));
        && currentMap == s.current && status == s.status
        && (status == Running ==> Valid() && player.Snapshot() == WallCheck(s.player, Walls()))
      ensures player.hp == old(player.hp) && player.points == old(player.points)
      ensures status == Running ==> forall m, i :: m in maps && 0 <= i < |maps[m].npcs| ==>
        var e := maps[m].npcs[i];
        && old(e.Patrolling()) && e.hp == old(e.hp) && e.points == old(e.points)
        && e.Snapshot() == if e in Group() then Collide(NpcKind, old(e.Snapshot()), player.rect, Walls())
                           else old(e.Snapshot())
    {
      status := PortalPass();
      if status != Running {
        return;
      }
      ghost var g := Group();
      CollidePass();
      assert Group() == g;
    }

    /** The collision loop of `check_collisions` over the current group, the player first. */
    method CollidePass()
      requires Valid()
      modifies Group()
      ensures Valid()
      ensures player.Snapshot() == WallCheck(old(player.Snapshot()), Walls())
      ensures player.hp == old(player.hp) && player.points == old(player.points)
      ensures forall m, i :: m in maps && 0 <= i < |maps[m].npcs| ==>
        var e := maps[m].npcs[i];
        && old(e.Patrolling()) && e.hp == old(e.hp) && e.points == old(e.points)
        && e.Snapshot() == if e in Group() then Collide(NpcKind, old(e.Snapshot()), player.rect, Walls())
                           else old(e.Snapshot())
    {
      CurrentReady();
      var g := Group();
      CollideAll(g, Walls());
      forall m, i | m in maps && 0 <= i < |maps[m].group|
        ensures maps[m].group[i].Valid()
      {
        var e := maps[m].group[i];
        if e !in g {
          assert old(e.Valid());
        }
      }
      forall m, i | m in maps && 0 <= i < |maps[m].npcs|
        ensures var e := maps[m].npcs[i];
          && old(e.Patrolling()) && e.Patrolling() && e.hp == old(e.hp) && e.points == old(e.points)
          && e.Snapshot() == if e in g then Collide(NpcKind, old(e.Snapshot()), player.rect, Walls())
                             else old(e.Snapshot())
      {
        var e := maps[m].npcs[i];
        assert old(e.Patrolling());
        if e in g {
          var k :| 0 <= k < |g| && g[k] == e;
          assert Ready(g[k]);
        }
      }
    }

    /** `get_group().update()`: every sprite of the current group places its rect and feet. */
    method RefreshPass()
      requires Valid()
      modifies Group()
      ensures Valid()
      ensures player.Snapshot() == Refresh(old(player.Snapshot()))
      ensures player.hp == old(player.hp) && player.points == old(player.points)
      ensures forall m, i :: m in old(maps) && 0 <= i < |old(maps)[m].npcs| ==>
        var e := old(maps)[m].npcs[i];
        && old(e.Patrolling()) && e.hp == old(e.hp) && e.points == old(e.points)
        && e.Snapshot() == if e in Group() then Refresh(old(e.Snapshot())) else old(e.Snapshot())
    {
      CurrentReady();
      var g := Group();
      RefreshAll(g);
      forall m, i | m in maps && 0 <= i < |maps[m].group|
        ensures maps[m].group[i].Valid()
      {
        var e := maps[m].group[i];
        if e !in g {
          assert old(e.Valid());
        }
      }
      forall m, i | m in maps && 0 <= i < |maps[m].npcs|
        ensures var e := maps[m].npcs[i];
          && old(e.Patrolling()) && e.Patrolling() && e.hp == old(e.hp) && e.points == old(e.points)
          && e.Snapshot() == if e in g then Refresh(old(e.Snapshot())) else old(e.Snapshot())
      {
        var e := maps[m].npcs[i];
        assert old(e.Patrolling());
        if e in g {
          var k :| 0 <= k < |g| && g[k] == e;
          assert Ready(g[k]);
        }
      }
    }

    /** The last loop of `update`: every NPC of the current map's list takes one patrol step, whether or not it is still in the group. */
    method MovePass()
      requires Valid()
      modifies Npcs()
      ensures Valid() && unchanged(player)
      ensures forall m, i :: m in old(maps) && 0 <= i < |old(maps)[m].npcs| ==>
        var e := old(maps)[m].npcs[i];
        && old(e.Patrolling()) && e.hp == old(e.hp) && e.points == old(e.points)
        && e.Snapshot() == if e in Npcs() then Patrol(old(e.Snapshot()), old(e.points), e.nbPoints)
                           else old(e.Snapshot())
    {
      CurrentReady();
      var n := Npcs();
      assert player !in n;
      MoveAll(n);
      forall m, i | m in maps && 0 <= i < |maps[m].group|
        ensures maps[m].group[i].Valid()
      {
        var e := maps[m].group[i];
        if e in n {
          var k :| 0 <= k < |n| && n[k] == e;
          assert n[k].Patrolling();
        } else {
          assert old(e.Valid());
        }
      }
      forall m, i | m in maps && 0 <= i < |maps[m].npcs|
        ensures var e := maps[m].npcs[i];
          && old(e.Patrolling()) && e.Patrolling() && e.hp == old(e.hp) && e.points == old(e.points)
          && e.Snapshot() == if e in n then Patrol(old(e.Snapshot()), old(e.points), e.nbPoints)
                             else old(e.Snapshot())
      {
        var e := maps[m].npcs[i];
        assert old(e.Patrolling());
        if e in n {
          var k :| 0 <= k < |n| && n[k] == e;
          assert n[k].Patrolling();
        }
      }
    }

    /**
     * `update`: the current group is refreshed, `check_collisions` runs, then every NPC of the
     * list of the map that is now current takes a patrol step. The player is refreshed before the
     * portals test its feet; an NPC gets each of the three steps exactly when it is in the group
     * refreshed, in the group checked, and in the list moved.
     */
    method Update() returns (status: Status)
      requires Valid()
      modifies this`currentMap, player, Group(), Landing(Refresh(player.Snapshot())).group
      modifies Landing(Refresh(player.Snapshot())).npcs
      ensures var s := PortalScan(maps, old(currentMap), old(maps[currentMap].portals), Refresh(old(player.Snapshot())));
        && currentMap == s.current && status == s.status
        && (status == Running ==> Valid() && player.Snapshot() == WallCheck(s.player, Walls()))
      ensures player.hp == old(player.hp) && player.points == old(player.points)
      ensures status == Running ==> forall m, i :: m in old(maps) && 0 <= i < |old(maps)[m].npcs| ==>
        var e := old(maps)[m].npcs[i];
        && old(e.Patrolling()) && e.hp == old(e.hp) && e.points == old(e.points)
        && e.Snapshot() == NpcTick(old(e.Snapshot()), e in old(Group()), e in Group(), e in Npcs(),
                                   old(e.points), e.nbPoints, player.rect, Walls())
    {
      ghost var g0 := Group();
      RefreshPass();
      assert Group() == g0;
      status := CollideAndMove();
    }

    /** `check_collisions` followed by the NPC loop of `update`, on a group already refreshed. */
    method CollideAndMove() returns (status: Status)
      requires Valid()
      modifies this`currentMap, player, Landing(player.Snapshot()).group, Landing(player.Snapshot()).npcs
      ensures var s := PortalScan(maps, old(currentMap), old(maps[currentMap].portals), old(player.Snapshot()));
        && currentMap == s.current && status == s.status
        && (status == Running ==> Valid() && player.Snapshot() == WallCheck(s.player, Walls()))
      ensures player.hp == old(player.hp) && player.points == old(player.points)
      ensures status == Running ==> forall m, i :: m in old(maps) && 0 <= i < |old(maps)[m].npcs| ==>
        var e := old(maps)[m].npcs[i];
        && old(e.Patrolling()) && e.hp == old(e.hp) && e.points == old(e.points)
        && e.Snapshot() == NpcSettle(old(e.Snapshot()), e in Group(), e in Npcs(),
                                     old(e.points), e.nbPoints, player.rect, Walls())
    {
      status := CheckCollisions();
      if status != Running {
        return;
      }
      ghost var g1, n1 := Group(), Npcs();
      MovePass();
      assert Group() == g1 && Npcs() == n1;
    }

    /** Every NPC of every map has at least one page of dialog. */
    ghost predicate Talkative()
      reads this`maps
    {
      forall m, i :: m in maps && 0 <= i < |maps[m].npcs| ==> |maps[m].npcs[i].dialog| > 0
    }

    /** `npc.kill()`: the NPC leaves every group; the NPC lists keep it. */
    method Kill(npc: Entity)
      modifies this`maps
      ensures maps == Purge(old(maps), {npc})
    {
      maps := Purge(maps, {npc});
    }

    /**
     * One engaged NPC of `check_npc_collisions`: its dialog runs until the box closes, then a
     * combat against the player runs to its end; the combat kills a beaten NPC.
     */
    method Confront(npc: Entity, box: Dialog.DialogBox<Entity>) returns (outcome: Battle.Outcome)
      requires player.kind == PlayerKind && player.Valid() && npc.kind == NpcKind && npc.Valid()
      requires |npc.dialog| > 0 && box.Valid() && !box.reading
      modifies this`maps, box, player`hp, npc`hp
      ensures box.Valid() && !box.reading
      ensures var f := Battle.Fight(Battle.Fighters(old(player.hp), old(npc.hp), 0), PLAYER_ATTACK, npc.attackStrength);
        && player.hp == f.playerHp && npc.hp == f.npcHp && outcome == Battle.Verdict(f)
        && maps == if f.playerHp > 0 then Purge(old(maps), {npc}) else old(maps)
    {
      box.Execute([npc.dialog], [npc]);
      box.RenderUntilClosed();
      var combat := new Battle.Combat(player, npc);
      outcome := combat.Run();
      if outcome == Battle.KillNpc {
        Kill(npc);
      }
    }

    /**
     * The state of `check_npc_collisions` after the first `i` sprites of `group`, which had
     * feet `feet` and hit points `hps` when the key was pressed: the player, starting from
     * `hp0`, has fought the engaged NPCs among them in order and has the hit points the last
     * fight left, the beaten NPCs are out of the groups of `maps0`, and `reset` records a lost
     * fight.
     */
    ghost predicate Session(group: seq<Entity>, feet: seq<Rect>, hps: seq<int>, playerRect: Rect,
                            hp0: int, maps0: map<string, Map>, i: int, reset: bool)
      requires |feet| == |group| && |hps| == |group| && 0 <= i <= |group|
      reads this`maps, player`hp, group`hp
    {
      var fought := Engaged(group[..i], feet[..i], playerRect);
      var r := Bouts(hp0, EngagedFoes(group[..i], feet[..i], hps[..i], playerRect));
      && player.hp == r.0
      && maps == Purge(maps0, Beaten(fought, r.1))
      && reset == AnyLost(r.1)
    }

    /** A session over the whole group is stated on the whole group. */
    lemma SessionOver(group: seq<Entity>, feet: seq<Rect>, hps: seq<int>, playerRect: Rect,
                      hp0: int, maps0: map<string, Map>, reset: bool)
      requires |feet| == |group| && |hps| == |group|
      requires Session(group, feet, hps, playerRect, hp0, maps0, |group|, reset)
      ensures var fought := Engaged(group, feet, playerRect);
        var r := Bouts(hp0, EngagedFoes(group, feet, hps, playerRect));
        && player.hp == r.0
        && maps == Purge(maps0, Beaten(fought, r.1))
        && reset == AnyLost(r.1)
    {
      assert group[..|group|] == group && feet[..|feet|] == feet && hps[..|hps|] == hps;
    }

    /** A sprite that is not an NPC touching the player's rect leaves the session as it is. */
    lemma SessionSkip(group: seq<Entity>, feet: seq<Rect>, hps: seq<int>, playerRect: Rect,
                      hp0: int, maps0: map<string, Map>, i: int, reset: bool)
      requires |feet| == |group| && |hps| == |group| && 0 <= i < |group|
      requires !(Collides(feet[i], playerRect) && group[i].kind == NpcKind)
      requires Session(group, feet, hps, playerRect, hp0, maps0, i, reset)
      ensures Session(group, feet, hps, playerRect, hp0, maps0, i + 1, reset)
    {
      EngagedStep(group, feet, hps, i, playerRect);
      var fought := Engaged(group[..i], feet[..i], playerRect);
      var foes := EngagedFoes(group[..i], feet[..i], hps[..i], playerRect);
      assert fought + [] == fought && foes + [] == foes;
    }

    /**
     * After the fight of an engaged `group[i]`, with the player's hit points and the maps it
     * leaves, the session takes it in.
     */
    lemma SessionTake(group: seq<Entity>, feet: seq<Rect>, hps: seq<int>, playerRect: Rect,
                      hp0: int, maps0: map<string, Map>, i: int, reset: bool)
      requires |feet| == |group| && |hps| == |group| && 0 <= i < |group|
      requires Collides(feet[i], playerRect) && group[i].kind == NpcKind
      requires var fought := Engaged(group[..i], feet[..i], playerRect);
        var r := Bouts(hp0, EngagedFoes(group[..i], feet[..i], hps[..i], playerRect));
        var f := Battle.Fight(Battle.Fighters(r.0, hps[i], 0), PLAYER_ATTACK, group[i].attackStrength);
        && player.hp == f.playerHp
        && maps == (if f.playerHp > 0 then Purge(Purge(maps0, Beaten(fought, r.1)), {group[i]})
                    else Purge(maps0, Beaten(fought, r.1)))
        && reset == (AnyLost(r.1) || f.playerHp <= 0)
      ensures Session(group, feet, hps, playerRect, hp0, maps0, i + 1, reset)
    {
      EngagedStep(group, feet, hps, i, playerRect);
      var fought := Engaged(group[..i], feet[..i], playerRect);
      var foes := EngagedFoes(group[..i], feet[..i], hps[..i], playerRect);
      var r := Bouts(hp0, foes);
      var f := Battle.Fight(Battle.Fighters(r.0, hps[i], 0), PLAYER_ATTACK, group[i].attackStrength);
      BoutsStep(hp0, foes, (hps[i], group[i].attackStrength));
      SessionStep(maps0, fought, r.1, group[i], f);
    }

    /** `group[i]` is an NPC whose feet touch the player's rect: it talks and fights, and the session takes it in. */
    method Engage(group: seq<Entity>, i: int, box: Dialog.DialogBox<Entity>, reset: bool,
                  ghost feet: seq<Rect>, ghost hps: seq<int>, ghost hp0: int, ghost maps0: map<string, Map>)
      returns (resetAfter: bool)
      requires |group| >= 1 && group[0] == player && player.kind == PlayerKind && Distinct(group)
      requires |feet| == |group| && |hps| == |group| && 0 < i < |group|
      requires player.Valid() && group[i].Valid() && |group[i].dialog| > 0
      requires box.Valid() && !box.reading
      requires forall k :: i <= k < |group| ==> group[k].hp == hps[k]
      requires Collides(feet[i], player.rect) && group[i].kind == NpcKind
      requires Session(group, feet, hps, player.rect, hp0, maps0, i, reset)
      modifies this`maps, group`hp, box
      ensures box.Valid() && !box.reading
      ensures forall k :: i < k < |group| ==> group[k].hp == hps[k]
      ensures Session(group, feet, hps, player.rect, hp0, maps0, i + 1, resetAfter)
    {
      var sprite := group[i];
      ghost var fought := Engaged(group[..i], feet[..i], player.rect);
      assert sprite !in fought;
      assert forall j :: 0 <= j < |fought| ==> fought[j] != sprite && fought[j] != player;
      var outcome := Confront(sprite, box);
      resetAfter := reset || outcome == Battle.ResetGame;
      SessionTake(group, feet, hps, player.rect, hp0, maps0, i, resetAfter);
    }

    /** One turn of the loop of `check_npc_collisions`: `group[i]`, if engaged, talks and fights. */
    method Encounter(group: seq<Entity>, i: int, box: Dialog.DialogBox<Entity>, reset: bool,
                     ghost feet: seq<Rect>, ghost hps: seq<int>, ghost hp0: int, ghost maps0: map<string, Map>)
      returns (resetAfter: bool)
      requires |group| >= 1 && group[0] == player && player.kind == PlayerKind && Distinct(group)
      requires forall k :: 0 <= k < |group| ==> group[k].Valid()
      requires forall k :: 1 <= k < |group| ==> |group[k].dialog| > 0
      requires box.Valid() && !box.reading
      requires |feet| == |group| && |hps| == |group| && 0 <= i < |group|
      requires forall k :: 0 <= k < |group| ==> group[k].feet == feet[k]
      requires forall k :: i <= k < |group| ==> group[k].hp == hps[k]
      requires Session(group, feet, hps, player.rect, hp0, maps0, i, reset)
      modifies this`maps, group`hp, box
      ensures box.Valid() && !box.reading
      ensures forall k :: i < k < |group| ==> group[k].hp == hps[k]
      ensures Session(group, feet, hps, player.rect, hp0, maps0, i + 1, resetAfter)
    {
      var sprite := group[i];
      if Collides(sprite.feet, player.rect) && sprite.kind == NpcKind {
        resetAfter := Engage(group, i, box, reset, feet, hps, hp0, maps0);
      } else {
        SessionSkip(group, feet, hps, player.rect, hp0, maps0, i, reset);
        resetAfter := reset;
      }
    }

    /** The loop of `check_npc_collisions` over the sprites of `group`; the sprites in `sprites` keep everything but their hit points. */
    method Encounters(group: seq<Entity>, box: Dialog.DialogBox<Entity>, ghost sprites: set<Entity>) returns (reset: bool)
      requires |group| >= 1 && group[0] == player && player.kind == PlayerKind && Distinct(group)
      requires forall k :: 0 <= k < |group| ==> group[k].Valid()
      requires forall k :: 1 <= k < |group| ==> |group[k].dialog| > 0
      requires box.Valid() && !box.reading
      modifies this`maps, group`hp, box
      ensures box.Valid() && !box.reading
      ensures unchanged(sprites`x, sprites`y, sprites`oldX, sprites`oldY, sprites`shared, sprites`rect, sprites`feet,
                        sprites`speed, sprites`image, sprites`animationIndex, sprites`clock, sprites`currentPoint,
                        sprites`points)
      ensures var fought := Engaged(group, old(FeetOf(group)), old(player.rect));
        var r := Bouts(old(player.hp), EngagedFoes(group, old(FeetOf(group)), old(HpOf(group)), old(player.rect)));
        && player.hp == r.0
        && maps == Purge(old(maps), Beaten(fought, r.1))
        && reset == AnyLost(r.1)
    {
      ghost var feet, hps := FeetOf(group), HpOf(group);
      reset := false;
      PurgeNone(maps);
      assert Beaten([], []) == {};
      assert !AnyLost([]);
      for i := 0 to |group|
        invariant box.Valid() && !box.reading
        invariant forall k :: i <= k < |group| ==> group[k].hp == hps[k]
        invariant Session(group, feet, hps, player.rect, old(player.hp), old(maps), i, reset)
      {
        reset := Encounter(group, i, box, reset, feet, hps, old(player.hp), old(maps));
      }
      SessionOver(group, feet, hps, player.rect, old(player.hp), old(maps), reset);
    }

    /**
     * All the fights of one key press, run on a world that is well-formed once the NPCs that
     * will lose are out of it: it stays well-formed, since fights change hit points only.
     */
    method TalkAndFight(group: seq<Entity>, box: Dialog.DialogBox<Entity>, ghost purged: map<string, Map>) returns (reset: bool)
      requires |group| >= 1 && group[0] == player && player.kind == PlayerKind && Distinct(group)
      requires forall k :: 0 <= k < |group| ==> group[k].Valid()
      requires forall k :: 1 <= k < |group| ==> |group[k].dialog| > 0
      requires box.Valid() && !box.reading
      requires WorldOk(player, purged, order, currentMap)
      modifies this`maps, group`hp, box
      ensures box.Valid() && !box.reading
      ensures WorldOk(player, purged, order, currentMap)
      ensures var fought := Engaged(group, old(FeetOf(group)), old(player.rect));
        var r := Bouts(old(player.hp), EngagedFoes(group, old(FeetOf(group)), old(HpOf(group)), old(player.rect)));
        && player.hp == r.0
        && maps == Purge(old(maps), Beaten(fought, r.1))
        && reset == AnyLost(r.1)
    {
      ghost var sprites := {player} + Sprites(purged);
      reset := Encounters(group, box, sprites);
      assert player in sprites;
      forall m, i | m in purged && 0 <= i < |purged[m].group|
        ensures purged[m].group[i].Valid()
      {
        assert purged[m].group[i] in sprites;
        assert old(purged[m].group[i].Valid());
      }
      forall m, i | m in purged && 0 <= i < |purged[m].npcs|
        ensures purged[m].npcs[i].Patrolling()
      {
        assert purged[m].npcs[i] in sprites;
        assert old(purged[m].npcs[i].Patrolling());
      }
    }

    /**
     * `check_npc_collisions`: the NPCs of the current group whose feet touch the player's rect,
     * in group order, talk and fight the player, who carries the hit points of one fight into
     * the next. A beaten NPC leaves the groups, a beaten player asks for a reset; the maps stay
     * well-formed.
     */
    method CheckNpcCollisions(box: Dialog.DialogBox<Entity>) returns (reset: bool)
      requires Valid() && Talkative() && box.Valid() && !box.reading
      modifies this`maps, Group()`hp, box
      ensures Valid() && box.Valid() && !box.reading
      ensures var group := old(Group());
        var fought := Engaged(group, old(FeetOf(group)), old(player.rect));
        var r := Bouts(old(player.hp), EngagedFoes(group, old(FeetOf(group)), old(HpOf(group)), old(player.rect)));
        && player.hp == r.0
        && maps == Purge(old(maps), Beaten(fought, r.1))
        && reset == AnyLost(r.1)
    {
      var group := Group();
      CurrentReady();
      assert forall k :: 1 <= k < |group| ==> group[k] in Npcs();
      ghost var feet, hps := FeetOf(group), HpOf(group);
      ghost var fought := Engaged(group, feet, player.rect);
      ghost var gone := Beaten(fought, Bouts(player.hp, EngagedFoes(group, feet, hps, player.rect)).1);
      ValidIsWorldOk();
      PurgeKeepsWorld(player, maps, order, currentMap, gone);
      ghost var purged := Purge(maps, gone);
      reset := TalkAndFight(group, box, purged);
      assert maps == purged;
      ValidIsWorldOk();
    }
  }
}
