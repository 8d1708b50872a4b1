/**
 * The game: one player, the map manager and the dialog box, driven frame by frame. A frame
 * saves the player's position, applies the arrow key held down, updates the map and renders
 * the dialog box; then the frame's events are handled in order: a space key press makes the
 * player talk to and fight the NPCs it touches, a quit request ends the loop. A lost fight
 * starts the game again with a fresh player, map manager and dialog box.
 */
module GameLoop {
  import opened Util
  import opened Geometry
  import opened Tiled
  import opened Animation
  import opened Entities
  import opened World
  import Dialog

  /** The arrow keys held down during a frame (`pygame.key.get_pressed()`). */
  datatype Keys = Keys(up: bool, down: bool, left: bool, right: bool)

  datatype Key = Space | OtherKey

  /** The events `pygame.event.get()` returns that the loop tells apart. */
  datatype Event = Quit | KeyDown(key: Key) | OtherEvent

  /** What one frame of the loop reads: the keys held and the events queued. */
  datatype Input = Input(keys: Keys, events: seq<Event>)

  /** `handle_input`: the one move a frame makes, examined in the order up, down, left, right. */
  function Pressed(keys: Keys): (d: Option<Direction>)
    ensures d == Some(Up) <==> keys.up
    ensures d == Some(Down) <==> !keys.up && keys.down
    ensures d == Some(Left) <==> !keys.up && !keys.down && keys.left
    ensures d == Some(Right) <==> !keys.up && !keys.down && !keys.left && keys.right
    ensures d == None <==> !keys.up && !keys.down && !keys.left && !keys.right
  {
    if keys.up then Some(Up)
    else if keys.down then Some(Down)
    else if keys.left then Some(Left)
    else if keys.right then Some(Right)
    else None
  }

  /** The player's body after `handle_input`. */
  function Handled(b: Body, keys: Keys): Body
    requires BodyOk(b)
  {
    match Pressed(keys)
    case None => b
    case Some(d) => Step(b, d)
  }

  /**
   * A frame moves the player along one axis at most, by its speed when an arrow key is held
   * and not at all otherwise; the saved position is not touched after `save_location`.
   */
  lemma OneMovePerFrame(b: Body, keys: Keys)
    requires BodyOk(b)
    ensures var c := Handled(b, keys);
      && BodyOk(c)
      && (c.x == b.x || c.y == b.y)
      && (Pressed(keys) == None ==> c == b)
      && (Pressed(keys) != None ==> (c.x - b.x) * (c.x - b.x) + (c.y - b.y) * (c.y - b.y) == b.speed * b.speed)
    ensures var c := Handled(Save(b), keys); c.oldX == b.x && c.oldY == b.y
  {
    if d :| Pressed(keys) == Some(d) {
      BodyOkKept(b, d);
      StepMovesOneAxis(b, d);
      SaveIsIndependentCopy(b, d);
    }
  }

  /**
   * The player saves its position before it moves, so a wall hit in the same frame puts it
   * back where the frame started; without a hit it stays where the move took it.
   */
  lemma WallHitRestoresFrameStart(b: Body, keys: Keys, walls: seq<Rect>)
    requires BodyOk(b)
    ensures var moved := Refresh(Handled(Save(b), keys));
      var c := WallCheck(moved, walls);
      && (HitsAny(moved.feet, walls) ==> c.x == b.x && c.y == b.y)
      && (!HitsAny(moved.feet, walls) ==> c.x == moved.x && c.y == moved.y)
  {
    BodyOkKept(b, Up);
    OneMovePerFrame(Save(b), keys);
    OneMovePerFrame(b, keys);
    WallCheckSpec(Refresh(Handled(Save(b), keys)), walls);
  }

  /** One of the first `n` events asks to close the window. */
  predicate QuitsWithin(events: seq<Event>, n: nat)
    requires n <= |events|
  {
    exists i :: 0 <= i < n && events[i] == Quit
  }

  /** One of the first `n` events is a space key press. */
  predicate InteractsWithin(events: seq<Event>, n: nat)
    requires n <= |events|
  {
    exists i :: 0 <= i < n && events[i] == KeyDown(Space)
  }

  /** Some event of the list asks to close the window. */
  predicate Quits(events: seq<Event>)
  {
    QuitsWithin(events, |events|)
  }

  /** Some event of the list is a space key press. */
  predicate Interacts(events: seq<Event>)
  {
    InteractsWithin(events, |events|)
  }

  /** One more event: a quit request or a space key press among the first `i + 1` events. */
  lemma EventsUpTo(events: seq<Event>, i: nat)
    requires i < |events|
    ensures QuitsWithin(events, i + 1) <==> QuitsWithin(events, i) || events[i] == Quit
    ensures InteractsWithin(events, i + 1) <==> InteractsWithin(events, i) || events[i] == KeyDown(Space)
  {
  }

  /** The frames the loop runs when nothing fails: up to and including the first one with a quit event. */
  function FramesRun(inputs: seq<Input>): (n: nat)
    ensures n <= |inputs|
    ensures forall j :: 0 <= j < n - 1 ==> !Quits(inputs[j].events)
    ensures n < |inputs| ==> n > 0 && Quits(inputs[n - 1].events)
    ensures |inputs| > 0 ==> n > 0
  {
    if |inputs| == 0 then 0
    else if Quits(inputs[0].events) then 1
    else 1 + FramesRun(inputs[1..])
  }

  /** Running the frames from `t` on: one frame, then the rest unless it quits. */
  lemma FramesRunFrom(inputs: seq<Input>, t: nat)
    requires t < |inputs|
    ensures FramesRun(inputs[t..]) == if Quits(inputs[t].events) then 1 else 1 + FramesRun(inputs[t + 1..])
  {
    assert inputs[t..][1..] == inputs[t + 1..];
  }

  /**
   * Between frames: the manager moves the game's player, is running and its NPCs can talk,
   * and the dialog box is closed; `npcs` holds every NPC the manager can reach.
   */
  ghost predicate Playable(player: Entity, manager: MapManager,
                           box: Dialog.DialogBox<Entity>, npcs: set<Entity>)
    reads player, manager, box, npcs
  {
    && manager.AllEntities() <= {player} + npcs
    && manager.player == player && player.kind == PlayerKind
    && manager.Valid() && manager.Talkative()
    && box.Valid() && !box.reading
  }

  /**
   * The objects `reset_game` creates. They never change: `reset_game` on a running game is
   * modelled as a new `Game`, which replaces the old one in the loop of `run`.
   */
  class Game {
    const files: map<string, TmxData>
    const player: Entity
    const manager: MapManager
    const box: Dialog.DialogBox<Entity>
    /** The NPCs the map manager created. */
    ghost const npcs: set<Entity>

    ghost predicate Valid()
      reads player, manager, box, npcs
    {
      Playable(player, manager, box, npcs)
    }

    /** `next` is this game, or a game built since, every object of which is new. */
    twostate predicate Renewed(new next: Game)
    {
      next == this
      || (fresh(next) && fresh(next.player) && fresh(next.manager) && fresh(next.box) && fresh(next.npcs))
    }

    /** `MapManager(screen, game, player)` around a new player; `npcs` are the NPCs it creates. */
    static method NewManager(player: Entity, files: map<string, TmxData>)
      returns (manager: MapManager, ghost npcs: set<Entity>)
      requires AssetsComplete(files) && player.Valid() && player.kind == PlayerKind
      modifies player
      ensures fresh(manager) && fresh(npcs) && manager.AllEntities() <= {player} + npcs
      ensures manager.player == player && manager.Valid() && manager.Talkative() && manager.currentMap == "world"
      ensures player.hp == old(player.hp)
      ensures player.Snapshot() == Teleported(old(player.Snapshot()), GetObjectByName(files["world"], "player").value)
    {
      manager := new MapManager(player, files);
      manager.HeldSprites();
      npcs := manager.AllNpcs();
    }

    /** `reset_game`'s objects: a new player, a map manager built around it, and a closed dialog box. */
    static method NewSession(files: map<string, TmxData>)
      returns (player: Entity, manager: MapManager, box: Dialog.DialogBox<Entity>, ghost npcs: set<Entity>)
      requires AssetsComplete(files)
      ensures fresh(player) && fresh(manager) && fresh(box) && fresh(npcs)
      ensures Playable(player, manager, box, npcs) && box.State() == Dialog.Idle()
      ensures player.hp == PLAYER_HP && manager.currentMap == "world"
      ensures player.Snapshot()
           == Teleported(InitialBody(INITIAL_SPEED), GetObjectByName(files["world"], "player").value)
    {
      box := new Dialog.DialogBox();
      player := new Entity.Player();
      manager, npcs := NewManager(player, files);
    }

    /** A game around objects that are ready to play. */
    constructor Of(files: map<string, TmxData>, player: Entity, manager: MapManager,
                   box: Dialog.DialogBox<Entity>, ghost npcs: set<Entity>)
      requires Playable(player, manager, box, npcs)
      ensures Valid()
      ensures this.files == files && this.player == player && this.manager == manager
      ensures this.box == box && this.npcs == npcs
    {
      this.files, this.player, this.manager, this.box, this.npcs := files, player, manager, box, npcs;
    }

    /** `Game()`, and `reset_game`: a new player, a map manager around it and a closed dialog box. */
    static method ResetGame(files: map<string, TmxData>) returns (game: Game)
      requires AssetsComplete(files)
      ensures fresh(game) && game.Valid() && game.files == files
      ensures fresh(game.player) && fresh(game.manager) && fresh(game.box) && fresh(game.npcs)
      ensures game.player.hp == PLAYER_HP && game.manager.currentMap == "world" && game.box.State() == Dialog.Idle()
      ensures game.player.Snapshot()
           == Teleported(InitialBody(INITIAL_SPEED), GetObjectByName(files["world"], "player").value)
    {
      var player, manager, box, npcs := NewSession(files);
      game := new Game.Of(files, player, manager, box, npcs);
    }

    /** `handle_input`: at most one move, in the priority order of `Pressed`. */
    method HandleInput(keys: Keys)
      requires player.Valid()
      modifies player
      ensures player.Valid() && player.Snapshot() == Handled(old(player.Snapshot()), keys)
      ensures player.hp == old(player.hp) && player.points == old(player.points)
    {
      if keys.up {
        player.MoveUp();
      } else if keys.down {
        player.MoveDown();
      } else if keys.left {
        player.MoveLeft();
      } else if keys.right {
        player.MoveRight();
      }
    }

    /** `save_location`, then `handle_input`: the player moves, and the map manager stays valid. */
    method Move(keys: Keys)
      requires manager.Valid() && manager.player == player
      modifies player
      ensures manager.Valid()
      ensures player.Snapshot() == Handled(Save(old(player.Snapshot())), keys)
      ensures player.hp == old(player.hp) && player.points == old(player.points)
    {
      player.SaveLocation();
      HandleInput(keys);
      forall m, i | m in manager.maps && 0 <= i < |manager.maps[m].group|
        ensures manager.maps[m].group[i].Valid()
      {
        if manager.maps[m].group[i] != player {
          assert old(manager.maps[m].group[i].Valid());
        }
      }
      forall m, i | m in manager.maps && 0 <= i < |manager.maps[m].npcs|
        ensures manager.maps[m].npcs[i].Patrolling()
      {
        assert manager.maps[m].npcs[i].kind == NpcKind;
        assert old(manager.maps[m].npcs[i].Patrolling());
      }
    }

    /**
     * `update`: the map manager's update. The player is refreshed, goes through the portal
     * loop and the wall check; each NPC gets the steps `World.NpcTick` gives it.
     */
    method Update() returns (status: Status)
      requires manager.Valid() && manager.player == player
      modifies manager`currentMap, manager.AllEntities()
      ensures var s := PortalScan(old(manager.maps), old(manager.currentMap), old(manager.maps[manager.currentMap].portals),
                                  Refresh(old(player.Snapshot())));
        && manager.currentMap == s.current && status == s.status
        && (status == Running ==> manager.Valid() && player.Snapshot() == WallCheck(s.player, manager.Walls()))
      ensures player.hp == old(player.hp)
      ensures status == Running ==> forall m, i :: m in old(manager.maps) && 0 <= i < |old(manager.maps)[m].npcs| ==>
        var e := old(manager.maps)[m].npcs[i];
        && e.hp == old(e.hp) && e.points == old(e.points)
        && e.Snapshot() == NpcTick(old(e.Snapshot()), e in old(manager.Group()), e in manager.Group(),
                                   e in manager.Npcs(), old(e.points), e.nbPoints, player.rect, manager.Walls())
    {
      manager.LandingHeld(Refresh(player.Snapshot()));
      status := manager.Update();
    }

    /** `dialog_box.render(screen)` between two frames: the closed dialog box shows nothing and stays closed. */
    method Draw()
      requires Valid()
      modifies box
      ensures Valid() && box.State() == old(box.State())
    {
      ghost var entities := manager.AllEntities();
      var _, _ := box.Render();
      assert unchanged(entities);
    }

    /**
     * The moves of a frame: `save_location`, `handle_input`, then the map update. The player's
     * new state is the update applied to the saved and moved body.
     */
    method Frame(keys: Keys) returns (status: Status)
      requires Valid()
      modifies player, manager`currentMap, npcs, box
      ensures var moved := Refresh(Handled(Save(old(player.Snapshot())), keys));
        var s := PortalScan(old(manager.maps), old(manager.currentMap), old(manager.maps[manager.currentMap].portals), moved);
        && manager.currentMap == s.current && status == s.status
        && (status == Running ==> Valid() && player.Snapshot() == WallCheck(s.player, manager.Walls()))
      ensures player.hp == old(player.hp)
    {
      Move(keys);
      status := Update();
    }

    /**
     * `check_npc_collisions` on this game's manager and dialog box: the fights of the NPCs the
     * player touches, and whether one was lost. Without a lost fight the game stays playable.
     */
    method Interact() returns (reset: bool)
      requires Valid()
      modifies manager`maps, manager.Group()`hp, box
      ensures !reset ==> Valid()
      ensures var group := old(manager.Group());
        var fought := Engaged(group, old(FeetOf(group)), old(player.rect));
        var r := Bouts(old(player.hp), EngagedFoes(group, old(FeetOf(group)), old(HpOf(group)), old(player.rect)));
        && reset == AnyLost(r.1)
        && player.hp == r.0
        && manager.maps == Purge(old(manager.maps), Beaten(fought, r.1))
    {
      ghost var maps, group := manager.maps, manager.Group();
      ghost var gone := Beaten(Engaged(group, FeetOf(group), player.rect),
                               Bouts(player.hp, EngagedFoes(group, FeetOf(group), HpOf(group), player.rect)).1);
      reset := manager.CheckNpcCollisions(box);
      PurgeShrinks(maps, gone);
    }

    /**
     * One event of the frame: a quit request is reported, a space key press runs
     * `check_npc_collisions` and, when a fight was lost, `reset_game`; other events change
     * nothing. `next` is the game that goes on.
     */
    method HandleEvent(event: Event) returns (quits: bool, next: Game)
      requires Valid() && AssetsComplete(files)
      modifies player, manager, box, npcs
      ensures next.Valid() && Renewed(next) && next.files == files
      ensures quits <==> event == Quit
      ensures event != KeyDown(Space) ==> next == this && unchanged(player, manager, box) && unchanged(npcs)
      ensures event == KeyDown(Space) ==>
        var group := old(manager.Group());
        var fought := Engaged(group, old(FeetOf(group)), old(player.rect));
        var r := Bouts(old(player.hp), EngagedFoes(group, old(FeetOf(group)), old(HpOf(group)), old(player.rect)));
        && (!AnyLost(r.1) ==> next == this && player.hp == r.0
                              && manager.maps == Purge(old(manager.maps), Beaten(fought, r.1)))
        && (AnyLost(r.1) ==> next != this && next.player.hp == PLAYER_HP
                             && next.manager.currentMap == "world" && next.box.State() == Dialog.Idle())
    {
      quits, next := event == Quit, this;
      if event == KeyDown(Space) {
        manager.GroupHeld();
        var reset := Interact();
        if reset {
          next := ResetGame(files);
        }
      }
    }

    /**
     * The event loop of a frame: every event is handled, in order, even after a quit request;
     * `next` is the game that goes on.
     */
    method HandleEvents(events: seq<Event>) returns (playing: bool, next: Game)
      requires Valid() && AssetsComplete(files)
      modifies player, manager, box, npcs
      ensures next.Valid() && Renewed(next) && next.files == files
      ensures playing <==> !Quits(events)
      ensures !Interacts(events) ==> next == this && unchanged(player, manager, box) && unchanged(npcs)
    {
      playing, next := true, this;
      for i := 0 to |events|
        invariant next.Valid() && Renewed(next) && next.files == files
        invariant playing <==> !QuitsWithin(events, i)
        invariant !InteractsWithin(events, i) ==> next == this && unchanged(player, manager, box) && unchanged(npcs)
      {
        EventsUpTo(events, i);
        var quits;
        quits, next := next.HandleEvent(events[i]);
        if quits {
          playing := false;
        }
      }
    }

    /**
     * One pass of the loop of `run`: the moves, the dialog box's render, then the frame's
     * events; an error of the map update ends the pass. `playing` is the new value of `jouer`
     * and `next` the game that goes on.
     */
    method Tick(input: Input) returns (playing: bool, status: Status, next: Game)
      requires Valid() && AssetsComplete(files)
      modifies player, manager, box, npcs
      ensures Renewed(next) && next.files == files
      ensures status == Running ==> next.Valid()
      ensures playing <==> status == Running && !Quits(input.events)
    {
      status := Frame(input.keys);
      if status != Running {
        return false, status, this;
      }
      Draw();
      playing, next := HandleEvents(input.events);
    }

    /**
     * The loop of `run`, over the frames of `inputs`: it stops after the first frame with a quit
     * event, after an error of the map update, or when the inputs run out. `last` is the game
     * of the last frame.
     */
    method Run(inputs: seq<Input>) returns (frames: nat, status: Status, last: Game)
      requires Valid() && AssetsComplete(files)
      modifies player, manager, box, npcs
      ensures Renewed(last) && last.files == files
      ensures status == Running ==> last.Valid() && frames == FramesRun(inputs)
      ensures status != Running ==> 0 < frames <= FramesRun(inputs)
    {
      var playing := true;
      frames, status, last := 0, Running, this;
      while playing && frames < |inputs|
        invariant Renewed(last) && last.files == files
        invariant frames <= |inputs|
        invariant status == Running ==> last.Valid()
        invariant status != Running ==> !playing && 0 < frames <= FramesRun(inputs)
        invariant status == Running && playing ==> FramesRun(inputs) == frames + FramesRun(inputs[frames..])
        invariant status == Running && !playing ==> frames == FramesRun(inputs)
        decreases |inputs| - frames, playing
      {
        FramesRunFrom(inputs, frames);
        playing, status, last := last.Tick(inputs[frames]);
        frames := frames + 1;
      }
      if status == Running && playing {
        assert inputs[frames..] == [];
      }
    }
  }
}
