/**
 * Turn-based combat between the player and one NPC: the two sides hit each other in
 * turn, the player first, until one of them has no hit points left. A beaten player
 * asks the game to start again; a beaten NPC is taken off the map.
 */
module Battle {
  import opened Entities

  /** What `run` asks for once the fight is over. */
  datatype Outcome = ResetGame | KillNpc

  /** Hit points of both sides and whose turn it is (0: the player, 1: the NPC). */
  datatype Fighters = Fighters(playerHp: int, npcHp: int, turn: int)

  /** The loop condition of `run` is false: one side has no hit points left. */
  predicate Over(f: Fighters)
  {
    f.playerHp <= 0 || f.npcHp <= 0
  }

  /** The fight cannot go on for ever: it is over already, or some side does damage. */
  predicate Finite(f: Fighters, playerAttack: int, npcAttack: int)
  {
    (f.turn == 0 || f.turn == 1) && (Over(f) || playerAttack > 0 || npcAttack > 0)
  }

  function Pos(n: int): nat
  {
    if n > 0 then n else 0
  }

  /** Attacks left, counted in half-rounds of the side that does damage. */
  function FightMeasure(f: Fighters, playerAttack: int): nat
  {
    if playerAttack > 0 then 2 * Pos(f.npcHp) + (if f.turn == 1 then 1 else 0)
    else 2 * Pos(f.playerHp) + (if f.turn == 0 then 1 else 0)
  }

  /** One iteration of the loop of `run`. */
  function Exchange(f: Fighters, playerAttack: int, npcAttack: int): Fighters
  {
    if f.turn == 0 then Fighters(f.playerHp, f.npcHp - playerAttack, 1)
    else Fighters(f.playerHp - npcAttack, f.npcHp, 0)
  }

  /** The loop of `run`: exchange blows until one side is down. */
  function Fight(f: Fighters, playerAttack: int, npcAttack: int): (g: Fighters)
    requires Finite(f, playerAttack, npcAttack)
    ensures Over(g) && (g.turn == 0 || g.turn == 1)
    decreases FightMeasure(f, playerAttack)
  {
    if Over(f) then f
    else Fight(Exchange(f, playerAttack, npcAttack), playerAttack, npcAttack)
  }

  /** Number of attacks made by the player and by the NPC during `Fight`. */
  function Attacks(f: Fighters, playerAttack: int, npcAttack: int): (int, int)
    requires Finite(f, playerAttack, npcAttack)
    decreases FightMeasure(f, playerAttack)
  {
    if Over(f) then (0, 0)
    else
      var rest := Attacks(Exchange(f, playerAttack, npcAttack), playerAttack, npcAttack);
      if f.turn == 0 then (rest.0 + 1, rest.1) else (rest.0, rest.1 + 1)
  }

  /** `player_hp <= 0` comes first: a beaten player resets the game, otherwise the NPC is killed. */
  function Verdict(f: Fighters): Outcome
  {
    if f.playerHp <= 0 then ResetGame else KillNpc
  }

  /**
   * Starting with both sides standing, the fight ends with exactly one side down: the one
   * hit last. The turn then points at the side that was not hit last.
   */
  lemma {:induction false} OneSideDown(f: Fighters, playerAttack: int, npcAttack: int)
    requires Finite(f, playerAttack, npcAttack) && !Over(f)
    ensures var g := Fight(f, playerAttack, npcAttack);
      && (g.turn == 1 ==> g.npcHp <= 0 && g.playerHp > 0)
      && (g.turn == 0 ==> g.playerHp <= 0 && g.npcHp > 0)
    decreases FightMeasure(f, playerAttack)
  {
    var next := Exchange(f, playerAttack, npcAttack);
    if !Over(next) {
      OneSideDown(next, playerAttack, npcAttack);
    }
  }

  /** Turns alternate: from the player's turn, the player attacks once more than the NPC, or as often. */
  lemma {:induction false} TurnsAlternate(f: Fighters, playerAttack: int, npcAttack: int)
    requires Finite(f, playerAttack, npcAttack)
    ensures var g := Fight(f, playerAttack, npcAttack);
      var n := Attacks(f, playerAttack, npcAttack);
      && n.0 >= 0 && n.1 >= 0
      && g.playerHp == f.playerHp - n.1 * npcAttack
      && g.npcHp == f.npcHp - n.0 * playerAttack
      && (f.turn == 0 ==> n.0 == n.1 + g.turn)
      && (f.turn == 1 ==> n.1 == n.0 + 1 - g.turn)
    decreases FightMeasure(f, playerAttack)
  {
    if !Over(f) {
      TurnsAlternate(Exchange(f, playerAttack, npcAttack), playerAttack, npcAttack);
    }
  }

  /**
   * With the starting stats (player 100 hp and attack 10, NPC 50 hp and attack 7) the fight
   * lasts 9 attacks, 5 by the player and 4 by the NPC, and leaves the NPC at 0 and the player at 72.
   */
  lemma DefaultFight()
    ensures Finite(Fighters(PLAYER_HP, NPC_HP, 0), PLAYER_ATTACK, NPC_ATTACK)
    ensures Fight(Fighters(PLAYER_HP, NPC_HP, 0), PLAYER_ATTACK, NPC_ATTACK) == Fighters(72, 0, 1)
    ensures Attacks(Fighters(PLAYER_HP, NPC_HP, 0), PLAYER_ATTACK, NPC_ATTACK) == (5, 4)
    ensures Verdict(Fighters(72, 0, 1)) == KillNpc
  {
    var f := Fighters(PLAYER_HP, NPC_HP, 0);
    var pa, na := PLAYER_ATTACK, NPC_ATTACK;
    assert Fight(f, pa, na) == Fight(Fighters(100, 40, 1), pa, na);
    assert Fight(Fighters(100, 40, 1), pa, na) == Fight(Fighters(93, 40, 0), pa, na);
    assert Fight(Fighters(93, 40, 0), pa, na) == Fight(Fighters(93, 30, 1), pa, na);
    assert Fight(Fighters(93, 30, 1), pa, na) == Fight(Fighters(86, 30, 0), pa, na);
    assert Fight(Fighters(86, 30, 0), pa, na) == Fight(Fighters(86, 20, 1), pa, na);
    assert Fight(Fighters(86, 20, 1), pa, na) == Fight(Fighters(79, 20, 0), pa, na);
    assert Fight(Fighters(79, 20, 0), pa, na) == Fight(Fighters(79, 10, 1), pa, na);
    assert Fight(Fighters(79, 10, 1), pa, na) == Fight(Fighters(72, 10, 0), pa, na);
    assert Fight(Fighters(72, 10, 0), pa, na) == Fight(Fighters(72, 0, 1), pa, na);
    TurnsAlternate(f, pa, na);
  }

  /** One combat between the player and an NPC. */
  class Combat {
    const player: Entity
    const npc: Entity
    var turn: int

    /** `Combat(player, npc, ...)`: the player has the first turn. */
    constructor (player: Entity, npc: Entity)
      requires player.kind == PlayerKind && npc.kind == NpcKind
      ensures this.player == player && this.npc == npc && turn == 0
    {
      this.player := player;
      this.npc := npc;
      turn := 0;
    }

    function State(): Fighters
      reads this, player, npc
    {
      Fighters(player.hp, npc.hp, turn)
    }

    /** The player hits the NPC for exactly its attack strength; nothing else changes. */
    method PlayerAttack()
      modifies npc`hp
      ensures npc.hp == old(npc.hp) - player.attackStrength
    {
      var damage := player.attackStrength;
      npc.hp := npc.hp - damage;
    }

    /** The NPC hits the player for exactly its attack strength; nothing else changes. */
    method NpcAttack()
      modifies player`hp
      ensures player.hp == old(player.hp) - npc.attackStrength
    {
      var damage := npc.attackStrength;
      player.hp := player.hp - damage;
    }

    /** `run`: the fight to its end, then what the end asks for. */
    method Run() returns (outcome: Outcome)
      requires player.kind == PlayerKind && npc.kind == NpcKind
      requires Finite(State(), player.attackStrength, npc.attackStrength)
      modifies this`turn, player`hp, npc`hp
      ensures State() == Fight(old(State()), player.attackStrength, npc.attackStrength)
      ensures outcome == Verdict(State())
      ensures Over(State())
    {
      ghost var start := State();
      while player.hp > 0 && npc.hp > 0
        invariant Finite(State(), player.attackStrength, npc.attackStrength)
        invariant Fight(State(), player.attackStrength, npc.attackStrength)
               == Fight(start, player.attackStrength, npc.attackStrength)
        decreases FightMeasure(State(), player.attackStrength)
      {
        if turn == 0 {
          PlayerAttack();
          turn := 1;
        } else {
          NpcAttack();
          turn := 0;
        }
      }
      if player.hp <= 0 {
        outcome := ResetGame;
      } else {
        outcome := KillNpc;
      }
    }
  }
}
