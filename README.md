# Dungeon et Donjon: a verified model of the game's world logic

This project models the game logic of "Dungeon et Donjon", a small tile game written with
pygame, and proves properties of that model. The player walks over three maps ("world",
"dungeon", "dungeon_2") that are linked by portals. NPCs patrol along waypoint paths.
Walls push the player back to the position it saved at the start of the frame, and an
NPC back to the position saved when it was spawned. A space
key press makes the player talk to every NPC it touches and then fight it. The fight is
turn-based and runs until one side has no hit points left. A beaten NPC leaves the map,
and a beaten player starts the game again.

There is one module per source file:

- `Animation` (`animation.dfy`) models the frame counter of `AnimateSprite.change_animation`.
- `Entities` (`player.dfy`) models `Entity`, `Player` and `NPC` as one class `Entity` with
  a `kind` tag. The movement state is the value `Body`, and every method that moves an
  entity is proved against a function on `Body`.
- `Dialog` (`dialog.dfy`) models the cursor machine of `DialogBox`.
- `Battle` (`combat.dfy`) models `Combat`: the turn loop and the outcome it asks for.
- `World` (`map.dfy`) models `Portal`, `Map` and `MapManager`: registration, the portal
  loop, NPC freezing, the wall check, the NPC loop of `update`, start-up
  (`teleport_player`, `teleport_npcs`) and `check_npc_collisions`.
- `GameLoop` (`game.dfy`) models `Game`: `handle_input`, the body of the loop of `run`,
  and `reset_game`.
- `Geometry`, `Tiled` and `Util` model the parts of pygame's `Rect`, of a loaded Tiled map
  and of Python's `str(int)` that the game relies on.

Each mutable object of the game is a class, and its methods have `modifies` clauses.
Each method states its new state as a function of its old state (`Snapshot()`,
`State()`). The properties the game relies on are lemmas about those functions. Examples:

- a portal scan fires at most one portal;
- a wall check after a teleport leaves the player on the spawn point;
- waypoints are visited cyclically;
- a dialog session ends after a known number of renders;
- a fight ends with exactly one side down.

The model follows the code on these points, which are easy to misread:

- `update` refreshes the sprites first, then runs `check_collisions`, and moves the NPCs
  last (`src/map.py:298-302`).
- The portal loop has no `break`. Later portals are skipped only because the current map
  has changed (`World.AtMostOnePortalFires`).
- `check_npc_collisions` engages every NPC whose feet touch the player's rect, not only
  the first one, and it compares the NPC's feet with the player's rect
  (`src/map.py:118-131`).
- `render` on a block with no pages returns at once and leaves the box open
  (`src/dialog.py:71-72`).
- `move_back` makes `position` and `old_position` the same list (`src/player.py:106`).
  The model keeps this aliasing as the `shared` flag of `Body`.
- An NPC's saved position is set only at spawn.

## Model

| member | source | states |
|---|---|---|
| `Animation.InitialAnim` | src/animation.py:27-28 | a new sprite starts on frame index 0 with clock 0, within the counter bounds |
| `Animation.ChangeAnimationSpec` | src/animation.py:47-58 | the image shown is the frame chosen before the index moves. The index advances cyclically through the 3 frames exactly when the clock reaches 100, the clock then restarts at 0, and otherwise grows by `speed * 8`. The clock stays in 0..99 for a non-negative speed |
| `Animation.AnimateN` | src/animation.py:47-58 | any number of calls in one direction keeps the frame index and the clock within their bounds |
| `Animation.ClockAccumulates` | src/animation.py:49-51 | while `8 * speed * n < 100`, n calls from a zero clock leave the frame index alone and the clock at `8 * speed * n` |
| `Animation.FrameAdvancesAfter` | src/animation.py:49-58 | the first call that brings the clock to 100 moves the index one frame on (cyclically) and resets the clock |
| `Animation.PlayerFrameEverySeventhStep` | src/animation.py:35-58 | at the initial speed 2, steps 1 to 6 show the same frame index, and the 7th step advances it |
| `Battle.Fight` | src/combat.py:76-82 | the turn loop ends with one side at 0 hit points or less, and the turn is 0 or 1 |
| `Battle.OneSideDown` | src/combat.py:76-82 | from two standing fighters, exactly one side ends down and the other is still standing. The final turn says which: 1 when the NPC is down, 0 when the player is |
| `Battle.TurnsAlternate` | src/combat.py:76-82 | each side loses exactly the other's attack times the number of attacks made against it. Attacks alternate, starting with the side whose turn it is |
| `Battle.DefaultFight` | src/combat.py:76-82 | with player 100 hp and attack 10 against NPC 50 hp and attack 7, the fight makes 9 attacks (5 by the player, 4 by the NPC), ends at player 72 and NPC 0, and kills the NPC |
| `Battle.Combat.constructor` | src/combat.py:19-36 | a combat holds the two fighters, and the player has the first turn |
| `Battle.Combat.PlayerAttack` | src/combat.py:48-49 | the NPC loses exactly the player's attack strength; nothing else changes |
| `Battle.Combat.NpcAttack` | src/combat.py:62-63 | the player loses exactly the NPC's attack strength; nothing else changes |
| `Battle.Combat.Run` | src/combat.py:76-112 | the loop ends in the state `Battle.Fight` predicts, with one side down. A beaten player asks for a reset (this case comes first), otherwise the NPC is killed |
| `Dialog.Idle` | src/dialog.py:31-36 | a new box is closed, with its letter cursor at 0 |
| `Dialog.Revealed` | src/dialog.py:99-100 | the text shown is the prefix of the current page whose length is the letter cursor |
| `Dialog.RenderSpec` | src/dialog.py:71-95 | `render` keeps the cursor invariant and changes nothing when the box is closed or the block has no page. While reading and within one block, it either reveals one more letter or turns to the next page with the letter cursor at 0. It closes the box only on the last letter of the last page of the last block |
| `Dialog.RenderKeepsLetterInPage` | src/dialog.py:74-95 | with non-empty pages, after a render that leaves the box open, the letter cursor is inside the current page and the page index inside the block |
| `Dialog.ExecuteSpec` | src/dialog.py:49-58 | on an open box, `execute` is exactly `next_text`. On a closed box, it opens the first page of the first block, with its speaker, at cursor 0 |
| `Dialog.NextTextClosesAfterLastPage` | src/dialog.py:111-116 | `next_text` turns the page and resets the letter cursor. Passing a block's last page closes the whole session, even when more blocks remain |
| `Dialog.RenderCountsDown` | src/dialog.py:74-95 | each render of an unfinished session uses up exactly one of the renders left |
| `Dialog.RenderN` | src/dialog.py:60-95 | any number of renders keeps the cursor invariant |
| `Dialog.SessionLength` | src/dialog.py:74-95 | a session whose blocks all have non-empty pages is still open after k renders for every k below the renders it has left, and after that many renders it is closed with the letter cursor at 0 |
| `Dialog.OneBlockSessionLength` | src/dialog.py:74-92 | a one-block session of non-empty pages p1..pn stays open for the first len(p1)+...+len(pn)-1 renders and is closed, with the letter cursor at 0, after len(p1)+...+len(pn) renders |
| `Dialog.DialogBox.constructor` | src/dialog.py:20-36 | a new box is closed with no pages |
| `Dialog.DialogBox.Execute` | src/dialog.py:38-58 | the new cursor state is `Dialog.Executed` of the old one, and the invariant is kept |
| `Dialog.DialogBox.Render` | src/dialog.py:60-101 | the new cursor state is `Dialog.Rendered` of the old one. Text is drawn exactly when the box was and stays open on a block with pages, and the text is the revealed prefix of the page. The `IndexError` of the draw is reported exactly when the session has just moved on to a next block with no page |
| `Dialog.DialogBox.NextText` | src/dialog.py:103-116 | the new cursor state is `Dialog.PageTurned` of the old one, and the invariant is kept |
| `Dialog.DialogBox.RenderUntilClosed` | src/map.py:124-125 | the waiting loop of an interaction renders until the box closes, which takes exactly the renders the session has left |
| `Entities.InitialBody` | src/player.py:20-29 | a new entity stands at (0, 0) with its saved position equal and not aliased, and the rect and feet have their fixed sizes |
| `Entities.BodyOkKept` | src/player.py:31-108 | saving, refreshing, moving back and moving keep the bounds every entity has |
| `Entities.RefreshPlacesFeet` | src/player.py:87-96 | after `update` the rect's top-left is the position, and the feet (11 by 8) sit centred under the rect's bottom |
| `Entities.SaveIsIndependentCopy` | src/player.py:31-39 | `save_location` stores the position, and a move made afterwards leaves the stored copy alone |
| `Entities.StepMovesOneAxis` | src/player.py:42-85 | each `move_*` changes exactly one coordinate by plus or minus the speed and keeps the other, the rect, the feet and the speed. It shows the frame of its direction |
| `Entities.MoveBackRestores` | src/player.py:98-108 | after `move_back` the position equals the saved one, and the two are the same list |
| `Entities.MoveBackAliasesSavedPosition` | src/player.py:98-108 | after `move_back`, a move also moves the saved position, so a second `move_back` undoes nothing |
| `Entities.MovesAfterSaveAreUndone` | src/player.py:31-108 | any sequence of moves made after `save_location` and undone by `move_back` leaves the entity where it was saved |
| `Entities.StepAll` | src/player.py:42-85 | a sequence of moves keeps the entity's bounds |
| `Entities.SavedPositionSurvivesMoves` | src/player.py:39-85 | moves made while the saved position is an independent copy never change that copy |
| `Entities.StepAllAddsDeltas` | src/player.py:42-85 | without a revert, the position after a sequence of moves is the start plus the sum of the steps, and the speed is unchanged |
| `Entities.PatrolTargetIsSuccessor` | src/player.py:154-158 | the target waypoint is the cyclic successor `(current + 1) % nb_points` and lies in `[0, nb_points)` |
| `Entities.PatrolSpec` | src/player.py:153-174 | one NPC `move` makes at most one step, in the direction the waypoint rule picks. The cursor moves to the target exactly when the rect overlaps the target waypoint and stays within the path. Rect and bounds are kept |
| `Entities.PatrolDirectionSpec` | src/player.py:164-171 | the step goes down, up, left or right by the priority of the tests, each needing a cross-axis difference below 3. Aligned waypoints give no step |
| `Entities.SingleWaypointStandsStill` | src/player.py:157-171 | with one waypoint the target is the current one, so the NPC never moves and its cursor stays 0 |
| `Entities.ArrivalsCountUp` | src/player.py:173-174 | the first nb arrivals from waypoint 0 visit 0, 1, ..., nb-1 in order |
| `Entities.ArrivalsPeriodic` | src/player.py:173-174 | after nb arrivals the cursor is back where it started |
| `Entities.ArrivalsCycle` | src/player.py:173-174 | the k-th arrival from waypoint 0 is at waypoint k mod nb: no skips and no repeats |
| `Entities.PathRects` | src/player.py:201-204 | the waypoints read are `name_path1` .. `name_pathN`, in order, N of them |
| `Entities.Entity.Player` | src/player.py:122-125 | a new player: at (0, 0), 100 hit points, attack 10, speed 2, no waypoints |
| `Entities.Entity.Npc` | src/player.py:140-149 | a new NPC: its name, path length and dialog, 50 hit points, attack 7, speed 1, cursor 0, no waypoints yet |
| `Entities.Entity.SaveLocation` | src/player.py:31-39 | the saved position becomes an independent copy of the position; hit points and waypoints are kept |
| `Entities.Entity.WritePositionCells` | src/player.py:187-188 | both cells of the position list are written, through the alias into the saved position when shared |
| `Entities.Entity.ChangeAnimation` | src/animation.py:47-58 | the frame counter advances as `Animation.ChangeAnimation` says, and nothing else changes |
| `Entities.Entity.MoveRight` | src/player.py:42-51 | the body becomes `Step(old, Right)` and the invariant is kept |
| `Entities.Entity.MoveLeft` | src/player.py:54-63 | the body becomes `Step(old, Left)` and the invariant is kept |
| `Entities.Entity.MoveUp` | src/player.py:65-74 | the body becomes `Step(old, Up)` and the invariant is kept |
| `Entities.Entity.MoveDown` | src/player.py:76-85 | the body becomes `Step(old, Down)` and the invariant is kept |
| `Entities.Entity.Update` | src/player.py:87-96 | rect and feet are placed from the position, as `Entities.Refresh` says |
| `Entities.Entity.MoveBack` | src/player.py:98-108 | the position becomes the saved list itself, and rect and feet follow (`Entities.Revert`) |
| `Entities.Entity.StepToward` | src/player.py:164-171 | the direction tests of NPC `move` make the step `Entities.PatrolDirection` picks, or none |
| `Entities.Entity.Move` | src/player.py:153-174 | the body becomes `Entities.Patrol` of the old one, and the NPC stays on its path |
| `Entities.Entity.TeleportSpawn` | src/player.py:178-189 | the NPC stands on its current waypoint, with that position saved and not aliased |
| `Entities.Entity.LoadPoints` | src/player.py:191-204 | it succeeds exactly when all N waypoints exist, and then appends them in order. Movement state and hit points are unchanged |
| `Geometry.CollideList` | src/map.py:164 | `collidelist` gives the index of the first overlapping wall, or -1 exactly when no wall overlaps |
| `Geometry.CollideListHit` | src/map.py:164 | `collidelist(...) > -1` holds exactly when some wall overlaps |
| `Geometry.WithMidBottom` | src/player.py:96 | assigning `midbottom` keeps the size and puts the midbottom at the given point |
| `Geometry.Abs` | src/player.py:164-170 | `abs` is non-negative and equals n or -n |
| `Tiled.GetObjectByName` | src/map.py:261 | the lookup finds the first object of that name, and fails exactly when no object has it |
| `Tiled.CollisionRects` | src/map.py:204-208 | the walls are at most as many as the objects |
| `Tiled.CollisionRectsMembers` | src/map.py:206-208 | a rectangle is a wall exactly when some object of type "collision" has it |
| `Tiled.CollisionRectsPrefix` | src/map.py:206-208 | walls keep file order: the walls of a prefix of the objects are a prefix of all walls |
| `Util.NatToString` | src/player.py:202 | the waypoint number is written with at least one decimal digit and only decimal digits |
| `Util.NatToStringValue` | src/player.py:202 | the digits written read back to the number itself, as `str(n)` does |
| `Util.NatToStringInjective` | src/player.py:202 | different waypoint numbers are written differently, so the names `name_path1` .. `name_pathN` are all different |
| `World.Find` | src/map.py:251-261 | an object lookup on a named map succeeds exactly when the map and the object exist. It reports a missing map or a missing object otherwise |
| `World.PortalScan` | src/map.py:143-151 | the portal loop changes only the player's position cells, never its rect, feet, speed or animation. A scan that does not fail ends on a registered map |
| `World.PortalScanUnfolds` | src/map.py:143-151 | the portal loop is one turn on the current map followed by the rest of the list on the map that turn leaves current, unless the turn failed |
| `World.ForeignPortalsIgnored` | src/map.py:143-144 | portals that do not start on the current map are skipped without a lookup |
| `World.WellLinkedScanRuns` | src/map.py:143-151 | when every portal's objects exist and no portal targets its own map, the portal loop never fails |
| `World.NoPortalFires` | src/map.py:143-151 | when the feet touch no origin, the player and the current map are left alone |
| `World.SkipUntriggered` | src/map.py:148 | a portal whose origin the feet do not touch is passed over |
| `World.TakeTriggered` | src/map.py:148-151 | a portal whose origin the feet touch switches the map and teleports the player, and the rest of the list is skipped |
| `World.FirstPortalFires` | src/map.py:143-151 | the first portal whose origin the feet touch is the one taken |
| `World.AtMostOnePortalFires` | src/map.py:143-151 | with portals that do not target their own map, one frame takes at most one portal: the first triggered one, onto its spawn point. With none triggered, nothing changes |
| `World.TeleportSurvivesWallRevert` | src/map.py:143-180 | a teleport puts the player on the spawn point with that point saved, so a wall revert in the same frame leaves it there |
| `World.Freeze` | src/map.py:156-162 | an NPC has speed 0 exactly when its feet touch the player's rect, and speed 1 otherwise. Nothing else changes |
| `World.WallCheckSpec` | src/map.py:164-165 | a sprite whose feet touch a wall goes back to its saved position, with its rect following, and the position and saved position become one list. A sprite touching no wall is left alone. Speed, animation and saved position are kept, and a second check changes nothing |
| `World.TouchingNpcStandsStill` | src/map.py:298-302 | in one `update`, an NPC whose feet touch the player's rect stays where the wall check left it, with speed 0 |
| `World.AddSprites` | src/map.py:211-216 | adding sprites keeps the group it starts from as a prefix, holds every sprite added and nothing else, and holds no sprite twice when the starting group had none twice |
| `World.Without` | src/combat.py:112 | `kill()` keeps exactly the sprites of the group that were not killed, keeps them distinct, and keeps the first sprite first when it survives |
| `World.WithoutTwice` | src/combat.py:112 | killing one set of sprites after another is killing their union |
| `World.PurgeTwice` | src/combat.py:112 | over all maps, two rounds of kills are one round of their union |
| `World.PurgeNone` | src/combat.py:112 | killing nobody leaves the maps as they were |
| `World.PurgeShrinks` | src/combat.py:112 | killing keeps every map and its NPC list and only takes sprites away from the groups |
| `World.PurgeKeepsRegistry` | src/combat.py:112 | taking NPCs out of the groups keeps every map well-formed and every remaining sprite valid |
| `World.PurgeKeepsWorld` | src/combat.py:112 | killing NPCs keeps a running map manager running |
| `World.Bouts` | src/map.py:118-131 | the fights of one key press give one fight result per foe |
| `World.Engaged` | src/map.py:118-119 | the sprites a key press engages are NPCs of the group, and there are at most as many as sprites in the group |
| `World.EngagedFoes` | src/map.py:118-131 | there is one set of fight stats per engaged NPC |
| `World.BoutsAfterDefeat` | src/map.py:118-131 | once the player is down, every later fight of the same key press is over before it starts and asks for a reset again |
| `World.BoutsOutcome` | src/map.py:118-131 | the player's hit points never rise from one fight to the next, and a lost fight is followed by lost fights only. From a standing start, the player ends down exactly when some fight was lost |
| `World.RefreshAll` | src/map.py:298 | `group.update()` places every sprite's rect and feet from its position, and each sprite stays ready |
| `World.CollideOne` | src/map.py:158-165 | one sprite of the collision loop: an NPC's speed is set by `World.Freeze`, then the wall check |
| `World.CollideAll` | src/map.py:156-165 | the collision loop applies `World.Collide` to each sprite of the group against the player's rect |
| `World.MoveAll` | src/map.py:301-302 | every NPC of the list takes one patrol step and stays on its path |
| `World.InsertMap` | src/map.py:219 | storing a well-formed map under its name keeps the registry well-formed, and the name order lists each name once |
| `World.GroupOk` | src/map.py:211-216 | the group `register_map` builds holds the player first, then distinct NPCs of the list |
| `World.RegisterKeepsRegistry` | src/map.py:183-219 | `register_map` keeps every map well-formed and every sprite valid, and replaces a map of the same name in place |
| `World.RosterFrom` | src/map.py:271-277 | every NPC `teleport_npcs` visits is an NPC of some map, read with that map's objects |
| `World.RosterCovers` | src/map.py:271-277 | `teleport_npcs` visits every NPC of every map, with that map's objects |
| `World.Spawn` | src/map.py:275-277 | `load_points` then `teleport_spawn` succeed exactly when the NPC's waypoints exist and its cursor falls on one. The NPC then stands on that waypoint |
| `World.RosterValid` | src/map.py:271-277 | once every NPC visited is valid, so is every sprite of the registry |
| `World.SpawnMaps` | src/map.py:271-277 | the loops of `teleport_npcs` succeed exactly when every NPC can be spawned, and then every NPC stands on its waypoint |
| `World.InitialMaps` | src/map.py:87-102 | start-up registers "world", "dungeon" and "dungeon_2" with their portals and NPC lists |
| `World.NewNpcs` | src/map.py:89-98 | start-up creates the mushroom (4 waypoints) and the bandit, wizard and knight (1 waypoint each), distinct, each with a dialog |
| `World.RegistryAfterOne` | src/map.py:87-91 | the first registration gives a well-formed registry of valid sprites |
| `World.RegistryAfterTwo` | src/map.py:87-99 | the first two registrations give a well-formed registry of valid sprites |
| `World.InitialRegistry` | src/map.py:87-102 | the three registrations of start-up give a well-formed registry of valid sprites |
| `World.InitialNpcs` | src/map.py:87-98 | the NPCs of the start-up registry are the four it creates |
| `World.InitialRoster` | src/map.py:87-105 | right after registration, `teleport_npcs` visits the four new NPCs once each, all ready to spawn |
| `World.ReadyToStart` | src/map.py:87-105 | when start-up calls `teleport_player` and `teleport_npcs`, the registry is well-formed and every lookup they make will succeed |
| `World.MapManager.HeldSprites` | src/map.py:211-219 | the groups hold the player and the listed NPCs only |
| `World.MapManager.RegisterMap` | src/map.py:183-219 | the map stored holds the collision walls in file order and the group of player and NPCs. It is stored under its name, replacing an older one, and the name order grows only for a new name |
| `World.MapManager.CollisionWalls` | src/map.py:204-208 | the wall loop collects the rectangles of the "collision" objects in file order |
| `World.MapManager.GroupOf` | src/map.py:211-216 | the group is the player followed by each new NPC once |
| `World.MapManager.TeleportPlayer` | src/map.py:167-180 | the player stands on the named object of the current map with that position saved, or the missing map or object is reported and nothing changes |
| `World.MapManager.constructor` | src/map.py:69-105 | start-up registers the three maps with their portals and NPCs, puts the player on the "player" object of "world", sends every NPC to its first waypoint, and leaves a running manager on "world" |
| `World.MapManager.Start` | src/map.py:104-105 | `teleport_player("player")` then `teleport_npcs()` succeed after registration and leave a running manager |
| `World.MapManager.Launch` | src/map.py:104-105 | on NPCs that have not moved yet, the two teleports succeed, the player stands on "player" and the manager is running |
| `World.MapManager.StartNpcs` | src/map.py:105 | `teleport_npcs` on new NPCs succeeds, and every NPC ends on its path |
| `World.MapManager.RegisterAll` | src/map.py:87-102 | start-up's NPCs are created and the three maps stored in order; every NPC has a dialog |
| `World.MapManager.RegisterThree` | src/map.py:87-102 | the three `register_map` calls build the start-up registry in the order world, dungeon, dungeon_2 |
| `World.MapManager.TeleportNpcs` | src/map.py:263-277 | `teleport_npcs` succeeds exactly when every NPC has all its waypoints and its cursor falls on one, and then each NPC stands on its waypoint |
| `World.MapManager.PortalPass` | src/map.py:143-151 | the portal loop leaves the current map and the player as `World.PortalScan` says, and a scan that does not fail keeps the manager running |
| `World.MapManager.TakePortal` | src/map.py:144-151 | one turn of the portal loop does what `World.PortalTurn` says |
| `World.MapManager.CheckCollisions` | src/map.py:134-165 | the portal loop, then the wall check of the player and the freeze and wall check of the NPCs in the group current after it. NPCs outside that group are left alone |
| `World.MapManager.CollidePass` | src/map.py:156-165 | the collision loop over the current group, player first, as `World.Collide` says |
| `World.MapManager.RefreshPass` | src/map.py:298 | `get_group().update()` refreshes the player and exactly the NPCs of the current group |
| `World.MapManager.MovePass` | src/map.py:301-302 | every NPC of the current list takes a patrol step, even one that was killed from the group. The player is unchanged |
| `World.MapManager.Update` | src/map.py:290-302 | `update` gives the player the refresh, the portal loop and the wall check. Each NPC gets the refresh, collision and patrol steps exactly when it is in the group refreshed, the group checked and the list moved |
| `World.MapManager.CollideAndMove` | src/map.py:299-302 | `check_collisions`, then the NPC loop of `update`, as `World.NpcSettle` says |
| `World.MapManager.Kill` | src/combat.py:112 | `kill()` removes the NPC from every group and keeps it in the NPC lists |
| `World.MapManager.Confront` | src/map.py:119-131 | the NPC's dialog runs until the box closes, then the fight runs. Both hit points end as `Battle.Fight` says, and a beaten NPC leaves the groups |
| `World.MapManager.Engage` | src/map.py:119-131 | an engaged NPC talks and fights, and the session of the key press takes it in |
| `World.MapManager.Encounter` | src/map.py:118-131 | one turn of the loop: an NPC whose feet touch the player's rect talks and fights, and any other sprite is skipped |
| `World.MapManager.Encounters` | src/map.py:118-131 | the loop over the group fights the engaged NPCs in order. The player carries its hit points from one fight into the next, the beaten NPCs leave the groups, a lost fight is reported, and nothing but hit points changes |
| `World.MapManager.TalkAndFight` | src/map.py:118-131 | the fights of one key press keep the world well-formed, because fights change hit points only |
| `World.MapManager.CheckNpcCollisions` | src/map.py:108-131 | `check_npc_collisions`: the engaged NPCs talk and fight in group order. The player ends with the hit points of the last fight, beaten NPCs leave the groups, the result says whether a fight was lost, and the manager stays running |
| `GameLoop.Pressed` | src/game.py:68-75 | the move of a frame follows the priority up, down, left, right; no arrow key gives no move |
| `GameLoop.OneMovePerFrame` | src/game.py:60-75 | a frame moves the player along one axis at most, by its speed when an arrow key is held and not at all otherwise. The position saved just before is not touched |
| `GameLoop.WallHitRestoresFrameStart` | src/game.py:109-111 | a wall hit in a frame puts the player back where the frame started, and without a hit it stays where the move took it |
| `GameLoop.FramesRun` | src/game.py:105-123 | the loop runs up to and including the first frame with a quit event |
| `GameLoop.Game.NewManager` | src/game.py:36 | a new map manager around the player is running on "world" with the player on its start point, and every NPC can talk |
| `GameLoop.Game.NewSession` | src/game.py:35-37 | `reset_game`'s objects are new: a player with 100 hit points on the start point of "world", a running manager and a closed dialog box |
| `GameLoop.Game.Of` | src/game.py:15-21 | a game around objects ready to play is playable |
| `GameLoop.Game.ResetGame` | src/game.py:23-37 | `Game()` and `reset_game` give a playable game with a new player (100 hit points, on the start point), a new manager on "world" and a closed dialog box |
| `GameLoop.Game.HandleInput` | src/game.py:60-75 | `handle_input` applies the move `GameLoop.Pressed` picks, and nothing else |
| `GameLoop.Game.Move` | src/game.py:109-110 | `save_location` then `handle_input`: the player's body becomes the saved and moved body, and the manager stays running |
| `GameLoop.Game.Update` | src/game.py:77-83 | `update` gives the player the refresh, the portal loop and the wall check of the map manager. Each NPC keeps its hit points and waypoints and gets the refresh, collision and patrol steps exactly when it is in the group refreshed, the group checked and the list moved (`World.NpcTick`) |
| `GameLoop.Game.Draw` | src/game.py:113 | rendering the closed dialog box between frames changes nothing |
| `GameLoop.Game.Frame` | src/game.py:109-111 | a frame gives the player save, move, refresh, portal loop and wall check in that order, and the game stays playable unless a lookup failed |
| `GameLoop.Game.Interact` | src/game.py:121 | a space key press fights the engaged NPCs as `World.MapManager.CheckNpcCollisions` says, and the game stays playable unless a fight was lost |
| `GameLoop.Game.HandleEvent` | src/game.py:116-121 | a quit event is reported. A space key press fights, and after a lost fight the game goes on as a new game with 100 hit points on "world" and a closed box. Other events change nothing |
| `GameLoop.Game.HandleEvents` | src/game.py:116-121 | every event of the frame is handled in order. The loop goes on exactly when no event asks to quit, and without a space key press nothing changes |
| `GameLoop.Game.Tick` | src/game.py:107-123 | one pass of the loop: the loop goes on exactly when the map update did not fail and no event asks to quit, and the game that goes on is playable |
| `GameLoop.Game.Run` | src/game.py:105-123 | without a failure the loop runs exactly the frames up to the first quit event, and it ends playable. A failure ends the loop at or before the first quit event |

## Left out

- Rendering is not modelled: `MapManager.draw`, the blits and fonts of `DialogBox.render`,
  the death screen, the welcome text and `pygame.display.flip`. `Dialog.DialogBox.Render`
  returns the text it would draw.
- Audio, timing (`clock.tick`, `pygame.time.delay`, `pygame.time.wait`) and `print`
  logging are not modelled.
- Event polling and key state are parameters (`GameLoop.Input`).
- The launcher `main.py` is not part of this model.
- Asset loading is not modelled. The Tiled files are given as a map from map name to
  `Tiled.TmxData` (the objects with their names, types and rectangles). Sprite sheets and
  pixel slicing are not modelled: an image is the pair (direction, frame index), and
  `set_alpha` is left out.
- Coordinates are integers. The feet width is the constant 11, which is pygame's
  truncation of `23 * 0.5`. `colliderect` is strict overlap, and pygame's special case for
  rectangles of zero size is not modelled.
- `Dialog.DialogBox.Execute` requires, on a closed box, at least one block and at least as
  many speakers as blocks. The source raises `IndexError` in `execute` on an empty block list
  or speaker list (`src/dialog.py:57-58`), and in a later `render` when the speakers run
  short (`src/dialog.py:96`). Those crashes are not modelled. The one call in the game passes
  one block and one speaker (`src/map.py:121`).
- `Dialog.DialogBox.Render` reports the `IndexError` raised on moving on to a block with no
  page (`src/dialog.py:95-99`) through its `crashed` result. The state it leaves behind is
  the model's, since the source stops there.
- Python exceptions are not modelled as exceptions. A missing map (`KeyError`) or a
  missing object (`ValueError`) in the portal loop becomes a `World.Status`, and the loop
  of `run` stops on it.
- `World.MapManager.constructor` requires the map files to hold every object start-up
  reads (`World.AssetsComplete`). The source raises at start-up otherwise, and that crash
  is not modelled.
- `GameLoop.Game.ResetGame` requires the map files to hold every object start-up reads.
  The source raises there otherwise, and that crash is not modelled.
- `Battle.Combat.Run` requires that the fight can end: a side already down, or a positive
  attack. With two standing fighters and no positive attack, the source loops for ever.
- `World.MapManager.Confront` requires the NPC to have a dialog. On an empty dialog the
  source's waiting loop never ends, because `render` returns at once while `reading`
  stays true.
- `reset_game` is not modelled as reassigning the `Game` object's fields in the middle of
  `check_npc_collisions`. The model returns a new `Game`, and the loop of `run` goes on
  with it. The back-references from `MapManager` and `Combat` to the game are left out.
  In the source, the remaining fights of that key press run against the old player, who
  is already down. Each of them ends at once and asks for another reset
  (`World.BoutsAfterDefeat`). Each reset builds the same state from the files, so the
  model makes one new game after `check_npc_collisions` returns.
- `GameLoop.Game.Run` also stops when the list of inputs runs out, where the source waits
  for more frames.
- `GameLoop.Game.Frame` states the player's new state and the current map. The new state
  of each NPC in a frame is stated by `World.MapManager.Update`.
- `GameLoop.Game.Tick` states whether the loop goes on and that the game stays playable.
  The state after each step is stated by `GameLoop.Game.Frame` and
  `GameLoop.Game.HandleEvent`.
- `GameLoop.Game.HandleEvents` states the quit flag and the case without a space key
  press. The effect of each event is stated by `GameLoop.Game.HandleEvent`.
- `World.MapManager.CheckNpcCollisions` states the player's hit points, the groups and the
  reset flag. It does not state the NPCs' hit points after their fights; those are stated
  for each fight by `World.MapManager.Confront`.
- The attributes `dialogs`, `npcs`, `current_dialog` and `npc` of `DialogBox` do not exist
  in the source until the first `execute`. The model gives them initial values.
