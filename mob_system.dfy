/**
 * `MobSystem` of voxel/mob_system.py: the list of mobs, the periodic
 * spawning around the player, the per-frame update that despawns and
 * updates the mobs, lets hostile mobs strike the player and turns dead
 * mobs into dropped items, and the two picking queries.  Mobs are values
 * in the `mobs` list; the player and the drop system are the objects the
 * update acts on.  The random draws, the terrain noise, the square root
 * and the heading of a wander direction are inputs.
 */
module MobSystems {
  import opened Wrappers
  import opened Settings
  import opened Util
  import opened Mobs
  import Drops
  import Players

  /** The game mode in which mobs hurt the player. */
  const SURVIVAL: string := "Survival"

  /** Seconds between two rounds of spawn attempts. */
  const SPAWN_INTERVAL: real := 5.0

  /** Spawn attempts per round. */
  const SPAWN_ATTEMPTS: nat := 5

  /** The heights a mob may spawn at. */
  const SPAWN_MIN_Y: real := 5.0
  const SPAWN_MAX_Y: real := 50.0

  /** The horizontal push and the lift a struck player gets. */
  const KNOCKBACK: real := 8.0
  const KNOCKBACK_LIFT: real := 4.0

  // ---------------------------------------------------------------------
  // spawning

  /** The mob stands in chunk (cx, cz). */
  predicate InChunk(m: Mob, cx: int, cz: int)
  {
    ChunkX(m.x) == cx && ChunkZ(m.z) == cz
  }

  /** The count `_try_spawn_mobs` makes of the mobs standing in chunk (cx, cz). */
  function MobsInChunk(mobs: seq<Mob>, cx: int, cz: int): (n: nat)
    ensures n <= |mobs|
  {
    if |mobs| == 0 then 0
    else MobsInChunk(mobs[..|mobs| - 1], cx, cz) + (if InChunk(mobs[|mobs| - 1], cx, cz) then 1 else 0)
  }

  /** Appending a mob raises the count of its own chunk by one and leaves every other count alone. */
  lemma MobsInChunkAppend(mobs: seq<Mob>, m: Mob, cx: int, cz: int)
    ensures MobsInChunk(mobs + [m], cx, cz) == MobsInChunk(mobs, cx, cz) + (if InChunk(m, cx, cz) then 1 else 0)
  {
    assert (mobs + [m])[..|mobs|] == mobs;
  }

  /**
   * The random draws of one spawn attempt: the chunk offsets, the position
   * inside the chunk, the choice among the candidate types, and the wander
   * direction and idle time the new mob starts with.
   */
  datatype SpawnDraw = SpawnDraw(offsetX: int, offsetZ: int, ux: real, uz: real, pick: real, direction: real, idleTime: real)

  /** The draws lie in the ranges the source samples from. */
  predicate SpawnDrawInRange(a: SpawnDraw)
  {
    -RENDER_DISTANCE <= a.offsetX <= RENDER_DISTANCE && -RENDER_DISTANCE <= a.offsetZ <= RENDER_DISTANCE
    && 1.0 <= a.ux <= (SX - 1) as real && 1.0 <= a.uz <= (SZ - 1) as real
    && 0.0 <= a.pick < 1.0 && 0.0 <= a.direction <= 360.0 && 2.0 <= a.idleTime <= 5.0
  }

  predicate AllSpawnDrawsInRange(attempts: seq<SpawnDraw>)
  {
    forall i :: 0 <= i < |attempts| ==> SpawnDrawInRange(attempts[i])
  }

  /** The types spawning chooses from: the three hostiles at night, the four animals by day. */
  function Candidates(night: bool): (r: seq<int>)
    ensures |r| > 0
    ensures forall i :: 0 <= i < |r| ==> (night ==> IsHostileType(r[i])) && (!night ==> IsAnimalType(r[i]))
  {
    if night then [MOB_CREEPER, MOB_ZOMBIE, MOB_SKELETON] else [MOB_SHEEP, MOB_COW, MOB_CHICKEN, MOB_PIG]
  }

  /** The solidity test applied to one cell. */
  function SolidCell(solid: (int, int, int) -> bool, x: int, y: int, z: int): bool
  {
    solid(x, y, z)
  }

  /**
   * The terrain height `_try_spawn_mobs` asks for: `terrain_height` on
   * plains with no desert blend. The spawning functions below take it as
   * their parameter `height`.
   */
  function Ground(noise: Noise): (int, int) -> int
  {
    (x: int, z: int) => HeightOf(noise, x, z, Plains, 0.0)
  }

  /**
   * One pass of the loop of `_try_spawn_mobs` with the draws `a`, around
   * the player's chunk (pcx, pcz): the mob it spawns, or None where the
   * loop goes on to the next attempt (the chunk has reached the cap, the
   * ground is outside the spawn heights, the spot or the cell above it is
   * solid, or it is night on Peaceful).
   */
  function Attempt(solid: (int, int, int) -> bool, height: (int, int) -> int, mobs: seq<Mob>, cap: int, difficulty: int,
                   pcx: int, pcz: int, night: bool, a: SpawnDraw): Option<Mob>
    requires SpawnDrawInRange(a)
  {
    var cx, cz := pcx + a.offsetX, pcz + a.offsetZ;
    if MobsInChunk(mobs, cx, cz) >= cap then None
    else
      var wx, wz := (cx * SX) as real + a.ux, (cz * SZ) as real + a.uz;
      var wy := height(Trunc(wx), Trunc(wz)) as real + 1.0;
      if wy < SPAWN_MIN_Y || wy > SPAWN_MAX_Y then None
      else if SolidCell(solid, Trunc(wx), Trunc(wy), Trunc(wz)) || SolidCell(solid, Trunc(wx), Trunc(wy + 1.0), Trunc(wz)) then None
      else if night && difficulty == DIFFICULTY_PEACEFUL then None
      else
        var choices := Candidates(night);
        Some(NewMob(choices[RandInt(0, |choices| - 1, a.pick)], wx, wy, wz, a.direction, a.idleTime))
  }

  /** A coordinate drawn between 1 and size - 1 past the start of chunk c lies in chunk c. */
  lemma InsideChunk(c: int, size: int, u: real)
    requires size > 1 && 1.0 <= u <= (size - 1) as real
    ensures (((c * size) as real + u) / size as real).Floor == c
  {
    var x := (c * size) as real + u;
    assert x / size as real == c as real + u / size as real;
    assert 0.0 < u / size as real < 1.0;
  }

  /**
   * What a successful attempt spawns: a fresh mob of a candidate type in
   * the drawn chunk, which is within RENDER_DISTANCE of the player's and
   * was below the cap, standing one block above the ground, between the
   * spawn heights, in a cell that is not solid and under one that is not;
   * a hostile only at night and never on Peaceful, an animal only by day.
   */
  lemma AttemptSpec(solid: (int, int, int) -> bool, height: (int, int) -> int, mobs: seq<Mob>, cap: int, difficulty: int,
                    pcx: int, pcz: int, night: bool, a: SpawnDraw)
    requires SpawnDrawInRange(a)
    ensures var r := Attempt(solid, height, mobs, cap, difficulty, pcx, pcz, night, a);
      r.Some? ==>
        var m := r.value;
        InChunk(m, pcx + a.offsetX, pcz + a.offsetZ)
        && Abs(ChunkX(m.x) - pcx) <= RENDER_DISTANCE && Abs(ChunkZ(m.z) - pcz) <= RENDER_DISTANCE
        && MobsInChunk(mobs, ChunkX(m.x), ChunkZ(m.z)) < cap
        && m.y == height(Trunc(m.x), Trunc(m.z)) as real + 1.0 && SPAWN_MIN_Y <= m.y <= SPAWN_MAX_Y
        && !solid(Trunc(m.x), Trunc(m.y), Trunc(m.z)) && !solid(Trunc(m.x), Trunc(m.y + 1.0), Trunc(m.z))
        && (night ==> IsHostileType(m.mobType) && difficulty != DIFFICULTY_PEACEFUL)
        && (!night ==> IsAnimalType(m.mobType))
        && m == NewMob(m.mobType, m.x, m.y, m.z, a.direction, a.idleTime)
  {
    InsideChunk(pcx + a.offsetX, SX, a.ux);
    InsideChunk(pcz + a.offsetZ, SZ, a.uz);
  }

  /** `_try_spawn_mobs`: the mob of the first attempt that spawns one, if any; the loop stops there. */
  function FirstSpawn(solid: (int, int, int) -> bool, height: (int, int) -> int, mobs: seq<Mob>, cap: int, difficulty: int,
                      pcx: int, pcz: int, night: bool, attempts: seq<SpawnDraw>): Option<Mob>
    requires AllSpawnDrawsInRange(attempts)
  {
    if |attempts| == 0 then None
    else
      var r := Attempt(solid, height, mobs, cap, difficulty, pcx, pcz, night, attempts[0]);
      if r.Some? then r else FirstSpawn(solid, height, mobs, cap, difficulty, pcx, pcz, night, attempts[1..])
  }

  /**
   * A round spawns a mob exactly when some attempt would, and then it is
   * the mob of the first such attempt: at most one mob per round.
   */
  lemma {:induction false} FirstSpawnSpec(solid: (int, int, int) -> bool, height: (int, int) -> int, mobs: seq<Mob>, cap: int, difficulty: int,
                                          pcx: int, pcz: int, night: bool, attempts: seq<SpawnDraw>)
    requires AllSpawnDrawsInRange(attempts)
    ensures var r := FirstSpawn(solid, height, mobs, cap, difficulty, pcx, pcz, night, attempts);
      (r.None? <==> forall k :: 0 <= k < |attempts| ==> Attempt(solid, height, mobs, cap, difficulty, pcx, pcz, night, attempts[k]).None?)
      && (r.Some? ==> exists k :: 0 <= k < |attempts| && r == Attempt(solid, height, mobs, cap, difficulty, pcx, pcz, night, attempts[k])
                        && forall j :: 0 <= j < k ==> Attempt(solid, height, mobs, cap, difficulty, pcx, pcz, night, attempts[j]).None?)
  {
    if |attempts| > 0 {
      var rest := attempts[1..];
      FirstSpawnSpec(solid, height, mobs, cap, difficulty, pcx, pcz, night, rest);
      var r0 := Attempt(solid, height, mobs, cap, difficulty, pcx, pcz, night, attempts[0]);
      if r0.None? {
        assert forall k :: 1 <= k < |attempts| ==> attempts[k] == rest[k - 1];
        var r := FirstSpawn(solid, height, mobs, cap, difficulty, pcx, pcz, night, rest);
        if r.Some? {
          var k :| 0 <= k < |rest| && r == Attempt(solid, height, mobs, cap, difficulty, pcx, pcz, night, rest[k])
                   && forall j :: 0 <= j < k ==> Attempt(solid, height, mobs, cap, difficulty, pcx, pcz, night, rest[j]).None?;
          assert forall j :: 1 <= j < k + 1 ==> attempts[j] == rest[j - 1];
        }
      }
    }
  }

  /**
   * A round of spawning never takes a chunk past the cap: if no chunk was
   * over it before, none is after.
   */
  lemma SpawnKeepsCap(solid: (int, int, int) -> bool, height: (int, int) -> int, mobs: seq<Mob>, cap: int, difficulty: int,
                      pcx: int, pcz: int, night: bool, attempts: seq<SpawnDraw>, cx: int, cz: int)
    requires AllSpawnDrawsInRange(attempts)
    requires MobsInChunk(mobs, cx, cz) <= cap
    ensures var r := FirstSpawn(solid, height, mobs, cap, difficulty, pcx, pcz, night, attempts);
      MobsInChunk(mobs + (if r.Some? then [r.value] else []), cx, cz) <= cap
  {
    var r := FirstSpawn(solid, height, mobs, cap, difficulty, pcx, pcz, night, attempts);
    FirstSpawnSpec(solid, height, mobs, cap, difficulty, pcx, pcz, night, attempts);
    if r.Some? {
      var k :| 0 <= k < |attempts| && r == Attempt(solid, height, mobs, cap, difficulty, pcx, pcz, night, attempts[k]);
      AttemptSpec(solid, height, mobs, cap, difficulty, pcx, pcz, night, attempts[k]);
      MobsInChunkAppend(mobs, r.value, cx, cz);
      if InChunk(r.value, cx, cz) {
        assert MobsInChunk(mobs, cx, cz) < cap;
      }
    } else {
      assert mobs + [] == mobs;
    }
  }

  /** One pass of the spawn loop, with the checks in the source's order. */
  method TryAttempt(solid: (int, int, int) -> bool, height: (int, int) -> int, mobs: seq<Mob>, cap: int, difficulty: int,
                    pcx: int, pcz: int, night: bool, a: SpawnDraw) returns (r: Option<Mob>)
    requires SpawnDrawInRange(a)
    ensures r == Attempt(solid, height, mobs, cap, difficulty, pcx, pcz, night, a)
  {
    var cx, cz := pcx + a.offsetX, pcz + a.offsetZ;
    if MobsInChunk(mobs, cx, cz) >= cap {
      return None;
    }
    var wx, wz := (cx * SX) as real + a.ux, (cz * SZ) as real + a.uz;
    var wy := height(Trunc(wx), Trunc(wz)) as real + 1.0;
    if wy < SPAWN_MIN_Y || wy > SPAWN_MAX_Y {
      return None;
    }
    if SolidCell(solid, Trunc(wx), Trunc(wy), Trunc(wz)) {
      return None;
    }
    if SolidCell(solid, Trunc(wx), Trunc(wy + 1.0), Trunc(wz)) {
      return None;
    }
    var choices: seq<int>;
    if night {
      if difficulty != DIFFICULTY_PEACEFUL {
        choices := [MOB_CREEPER, MOB_ZOMBIE, MOB_SKELETON];
      } else {
        return None;
      }
    } else {
      choices := [MOB_SHEEP, MOB_COW, MOB_CHICKEN, MOB_PIG];
    }
    var t := choices[RandInt(0, |choices| - 1, a.pick)];
    r := Some(NewMob(t, wx, wy, wz, a.direction, a.idleTime));
  }

  // ---------------------------------------------------------------------
  // one mob's turn in `update`

  /**
   * The inputs of a frame every mob's turn shares: the world's solidity
   * test, the frame time, whether it is night, the square root and the
   * heading of a wander direction.
   */
  datatype Env = Env(solid: (int, int, int) -> bool, dt: real, night: bool, sqrt: real -> real, heading: real -> (real, real))

  /** The outcome of one mob's turn: the mob after it, whether it stays listed, whether it struck the player, the items it drops. */
  datatype Turn = Turn(mob: Mob, keep: bool, struck: bool, drops: seq<int>)

  /** The mob is removed before its update: out of range, hostile by day, or hostile on Peaceful. */
  predicate Despawns(m: Mob, px: real, pz: real, night: bool, difficulty: int)
  {
    OutsideRenderDistance(m.x, m.z, px, pz) || (m.isHostile && !night) || (m.isHostile && difficulty == DIFFICULTY_PEACEFUL)
  }

  /** The updated mob hits the player: a live hostile, in Survival, within attack range, its attack cooled down. */
  predicate Strikes(t: Mob, px: real, pz: real, gameMode: string)
  {
    t.isHostile && !t.isDead && gameMode == SURVIVAL && InReach(t, px, pz) && t.attackCooldown <= 0.0
  }

  /** The player at (px, pz) is within the mob's attack range, compared squared on the horizontal plane. */
  predicate InReach(t: Mob, px: real, pz: real)
  {
    FlatDistSq(t, px, pz) <= t.attackRange * t.attackRange
  }

  /** Restarting the attack cooldown does not move the mob out of reach. */
  lemma ReachIgnoresCooldown(t: Mob, c: real, px: real, pz: real)
    ensures InReach(t.(attackCooldown := c), px, pz) == InReach(t, px, pz)
  {
  }

  /** The mob has been dead long enough to drop its items and go. */
  predicate Expired(t: Mob)
  {
    t.isDead && t.deathTimer > DEATH_DELAY
  }

  /**
   * One pass of the loop of `MobSystem.update` over the mob `m`, with the
   * player at (px, pz) playing `gameMode`: a despawned mob is removed
   * untouched; otherwise it is updated, strikes the player if it can
   * (restarting its attack cooldown), and is removed with its drops once
   * it has been dead for longer than DEATH_DELAY.  The update runs the
   * corrected mob moves `Mobs.Moved`, not `Mobs.MovedAsWritten`.
   */
  function TurnOf(e: Env, difficulty: int, px: real, pz: real, gameMode: string, d: Draws, m: Mob): (r: Turn)
    requires DrawsInRange(d)
    ensures |r.drops| <= 3
  {
    if Despawns(m, px, pz, e.night, difficulty) then Turn(m, false, false, [])
    else
      var t := Step(e.solid, m, e.dt, px, pz, gameMode, difficulty, e.sqrt, e.heading, d);
      var struck := Strikes(t, px, pz, gameMode);
      var t' := if struck then t.(attackCooldown := ATTACK_COOLDOWN) else t;
      if Expired(t') then Turn(t', false, struck, GetDrops(t'.mobType, d.dropCount))
      else Turn(t', true, struck, [])
  }

  /**
   * A mob leaves the list exactly when it despawns or, being dead, its
   * death timer passes DEATH_DELAY with this frame; it drops items only
   * then, as many as `get_drops` gives, and at most three.
   */
  lemma TurnRemoves(e: Env, difficulty: int, px: real, pz: real, gameMode: string, d: Draws, m: Mob)
    requires DrawsInRange(d)
    ensures var r := TurnOf(e, difficulty, px, pz, gameMode, d, m);
      (!r.keep <==> Despawns(m, px, pz, e.night, difficulty) || (m.isDead && m.deathTimer + e.dt > DEATH_DELAY))
      && (r.drops != [] ==> !r.keep && m.isDead)
      && (!r.keep && !Despawns(m, px, pz, e.night, difficulty) ==> r.drops == GetDrops(m.mobType, d.dropCount))
      && |r.drops| <= 3
  {
    StepKeepsBody(e.solid, m, e.dt, px, pz, gameMode, difficulty, e.sqrt, e.heading, d);
    DropsByKind(m.mobType, d.dropCount);
  }

  /**
   * A turn changes neither a mob's type, size, health nor life; a mob that
   * was dead only ages its death timer; a strike needs Survival, a live
   * hostile mob within attack range, and restarts its attack cooldown.
   */
  lemma TurnKeepsBody(e: Env, difficulty: int, px: real, pz: real, gameMode: string, d: Draws, m: Mob)
    requires DrawsInRange(d)
    ensures var r := TurnOf(e, difficulty, px, pz, gameMode, d, m);
      r.mob.mobType == m.mobType && r.mob.isHostile == m.isHostile && r.mob.isDead == m.isDead
      && r.mob.health == m.health && r.mob.attackDamage == m.attackDamage
      && r.mob.sx == m.sx && r.mob.sy == m.sy && r.mob.sz == m.sz
      && (m.isDead && r.keep ==> r.mob == m.(deathTimer := m.deathTimer + e.dt))
      && (r.struck ==> gameMode == SURVIVAL && m.isHostile && !m.isDead
                       && InReach(r.mob, px, pz) && r.mob.attackRange == m.attackRange
                       && r.mob.attackCooldown == ATTACK_COOLDOWN)
  {
    if !Despawns(m, px, pz, e.night, difficulty) {
      var t := Step(e.solid, m, e.dt, px, pz, gameMode, difficulty, e.sqrt, e.heading, d);
      StepKeepsBody(e.solid, m, e.dt, px, pz, gameMode, difficulty, e.sqrt, e.heading, d);
      ReachIgnoresCooldown(t, ATTACK_COOLDOWN, px, pz);
    }
  }

  /** One mob's turn, running `Mob.update` and then the checks of `MobSystem.update`. */
  method MobTurn(e: Env, difficulty: int, px: real, pz: real, gameMode: string, d: Draws, m: Mob) returns (r: Turn)
    requires DrawsInRange(d)
    ensures r == TurnOf(e, difficulty, px, pz, gameMode, d, m)
  {
    if Despawns(m, px, pz, e.night, difficulty) {
      return Turn(m, false, false, []);
    }
    var t := MobUpdate(e.solid, m, e.dt, px, pz, gameMode, difficulty, e.sqrt, e.heading, d);
    var struck := false;
    if t.isHostile && !t.isDead && gameMode == SURVIVAL {
      if InReach(t, px, pz) && t.attackCooldown <= 0.0 {
        struck := true;
        t := t.(attackCooldown := ATTACK_COOLDOWN);
      }
    }
    if t.isDead && t.deathTimer > DEATH_DELAY {
      return Turn(t, false, struck, GetDrops(t.mobType, d.dropCount));
    }
    return Turn(t, true, struck, []);
  }

  // ---------------------------------------------------------------------
  // what the turns of a frame add up to

  /**
   * `turns` are the turns of the first |turns| mobs of `ms` in list order,
   * mob k using draws k.
   */
  ghost predicate TurnsOf(e: Env, difficulty: int, px: real, pz: real, gameMode: string, ds: seq<Draws>, ms: seq<Mob>, turns: seq<Turn>)
  {
    |turns| <= |ms| && |turns| <= |ds|
    && (forall k :: 0 <= k < |turns| ==> DrawsInRange(ds[k]))
    && forall k {:trigger TurnOf(e, difficulty, px, pz, gameMode, ds[k], ms[k])} :: 0 <= k < |turns| ==>
      turns[k] == TurnOf(e, difficulty, px, pz, gameMode, ds[k], ms[k])
  }

  /**
   * `r` is the turn of mob n of `ms`, using draws n. Stated through a
   * quantifier on the turn itself, like `TurnsOf`, so that the definition
   * of the turn is only unfolded where a proof asks for it.
   */
  ghost predicate TurnAt(e: Env, difficulty: int, px: real, pz: real, gameMode: string, ds: seq<Draws>, ms: seq<Mob>, n: nat, r: Turn)
  {
    n < |ms| && n < |ds| && DrawsInRange(ds[n])
    && forall k {:trigger TurnOf(e, difficulty, px, pz, gameMode, ds[k], ms[k])} :: k == n ==>
      r == TurnOf(e, difficulty, px, pz, gameMode, ds[k], ms[k])
  }

  /** The turn of the next mob extends `TurnsOf`. */
  lemma TurnsOfStep(e: Env, difficulty: int, px: real, pz: real, gameMode: string, ds: seq<Draws>, ms: seq<Mob>,
                    turns: seq<Turn>, r: Turn)
    requires TurnsOf(e, difficulty, px, pz, gameMode, ds, ms, turns)
    requires TurnAt(e, difficulty, px, pz, gameMode, ds, ms, |turns|, r)
    ensures TurnsOf(e, difficulty, px, pz, gameMode, ds, ms, turns + [r])
  {
    forall k | 0 <= k < |turns| + 1
      ensures DrawsInRange(ds[k]) && (turns + [r])[k] == TurnOf(e, difficulty, px, pz, gameMode, ds[k], ms[k])
    {
      if k < |turns| {
        assert (turns + [r])[k] == turns[k];
      }
    }
  }

  /** The mobs after their turns. */
  function MobsOf(turns: seq<Turn>): (r: seq<Mob>)
    ensures |r| == |turns| && forall i :: 0 <= i < |turns| ==> r[i] == turns[i].mob
  {
    seq(|turns|, i requires 0 <= i < |turns| => turns[i].mob)
  }

  /** Whether each mob stays listed. */
  function KeepOf(turns: seq<Turn>): (r: seq<bool>)
    ensures |r| == |turns| && forall i :: 0 <= i < |turns| ==> r[i] == turns[i].keep
  {
    seq(|turns|, i requires 0 <= i < |turns| => turns[i].keep)
  }

  /** `take_damage` in Survival: the health drops by the damage, never below zero. */
  function Hurt(health: real, amount: real): (h: real)
    ensures health >= 0.0 && amount >= 0.0 ==> 0.0 <= h <= health
    ensures h == Players.Damaged(Players.Vitals(health, 0.0, 0.0, 0.0, 0.0, 0.0, 0.0), amount).health
  {
    if health - amount < 0.0 then 0.0 else health - amount
  }

  /**
   * The push a mob at `t` gives a player at (px, pz): KNOCKBACK along the
   * horizontal direction away from the mob, and a lift of KNOCKBACK_LIFT;
   * nothing when the two stand at the same spot.
   */
  function Knockback(t: Mob, px: real, pz: real, sqrt: real -> real): (real, real, real)
  {
    var dx, dz := px - t.x, pz - t.z;
    var len := sqrt(dx * dx + dz * dz);
    if len > 0.0 then (dx / len * KNOCKBACK, KNOCKBACK_LIFT, dz / len * KNOCKBACK) else (0.0, 0.0, 0.0)
  }

  /** The push points away from the mob on both horizontal axes, and lifts the player or does nothing. */
  lemma KnockbackAway(t: Mob, px: real, pz: real, sqrt: real -> real)
    ensures var k := Knockback(t, px, pz, sqrt);
      (px - t.x) * k.0 >= 0.0 && (pz - t.z) * k.2 >= 0.0
      && (k == (0.0, 0.0, 0.0) || k.1 == KNOCKBACK_LIFT)
  {
    var dx, dz := px - t.x, pz - t.z;
    var len := sqrt(dx * dx + dz * dz);
    if len > 0.0 {
      QuotientSign(dx, len);
      QuotientSign(dz, len);
      SameSignProduct(dx, dx / len);
      SameSignProduct(dz, dz / len);
    }
  }

  /** Two numbers of the same sign have a non-negative product, also when scaled by KNOCKBACK. */
  lemma SameSignProduct(a: real, b: real)
    requires (a >= 0.0 && b >= 0.0) || (a <= 0.0 && b <= 0.0)
    ensures a * (b * KNOCKBACK) >= 0.0
  {
    if a >= 0.0 && b >= 0.0 {
      assert b * KNOCKBACK >= 0.0;
    } else {
      assert b * KNOCKBACK <= 0.0;
    }
  }

  /**
   * Scatter draw j of `d`. `DrawsInRange` supplies one for each of the at
   * most three drops of a turn; the zero vector stands in for a draw that
   * is never consumed.
   */
  function ScatterOf(d: Draws, j: nat): (real, real, real)
  {
    if j < |d.scatter| then d.scatter[j] else (0.0, 0.0, 0.0)
  }

  /** The items `spawn_drop` creates for the drops of one turn, at the mob's position, with the turn's scatter draws. */
  function DroppedBy(r: Turn, d: Draws): (items: seq<Drops.DroppedItem>)
    ensures |items| == |r.drops|
    ensures forall j :: 0 <= j < |items| ==>
      items[j] == Drops.NewItem(r.drops[j], r.mob.x, r.mob.y, r.mob.z, ScatterOf(d, j))
  {
    seq(|r.drops|, j requires 0 <= j < |r.drops| => Drops.NewItem(r.drops[j], r.mob.x, r.mob.y, r.mob.z, ScatterOf(d, j)))
  }

  /** The item is one of the drops of the turn, at the position of its mob, and the mob left the list. */
  predicate DroppedFrom(it: Drops.DroppedItem, r: Turn)
  {
    !r.keep && exists j :: 0 <= j < |r.drops| && it.itemType == r.drops[j] && it.x == r.mob.x && it.y == r.mob.y && it.z == r.mob.z
  }

  /**
   * What the turns of a frame have done so far: the mobs that stay
   * listed, in order, the player's health and velocity, and the items of
   * the drop system.
   */
  datatype Totals = Totals(kept: seq<Mob>, health: real, velocity: (real, real, real), items: seq<Drops.DroppedItem>)

  /**
   * What one turn adds: the mob if it stays, the strike's damage and
   * push, and its drops.
   */
  function Effect(s: Totals, r: Turn, d: Draws, px: real, pz: real, sqrt: real -> real): Totals
  {
    var k := Knockback(r.mob, px, pz, sqrt);
    Totals(s.kept + (if r.keep then [r.mob] else []),
           if r.struck then Hurt(s.health, r.mob.attackDamage) else s.health,
           if r.struck then (s.velocity.0 + k.0, s.velocity.1 + k.1, s.velocity.2 + k.2) else s.velocity,
           s.items + DroppedBy(r, d))
  }

  /** The totals after the turns, in list order, turn k using draws k, starting from `s`. */
  function After(s: Totals, turns: seq<Turn>, ds: seq<Draws>, px: real, pz: real, sqrt: real -> real): Totals
    requires |turns| <= |ds|
  {
    if |turns| == 0 then s
    else
      var n := |turns| - 1;
      Effect(After(s, turns[..n], ds, px, pz, sqrt), turns[n], ds[n], px, pz, sqrt)
  }

  /** One more turn applies its effect to the totals so far. */
  lemma AfterStep(s: Totals, turns: seq<Turn>, r: Turn, ds: seq<Draws>, px: real, pz: real, sqrt: real -> real)
    requires |turns| < |ds|
    ensures After(s, turns + [r], ds, px, pz, sqrt) == Effect(After(s, turns, ds, px, pz, sqrt), r, ds[|turns|], px, pz, sqrt)
  {
    assert (turns + [r])[..|turns|] == turns;
  }

  /** The mobs that stay are those whose turn keeps them, in list order: the removal keeps the order of the rest. */
  lemma {:induction false} AfterKept(s: Totals, turns: seq<Turn>, ds: seq<Draws>, px: real, pz: real, sqrt: real -> real)
    requires |turns| <= |ds|
    ensures After(s, turns, ds, px, pz, sqrt).kept == s.kept + Select(MobsOf(turns), KeepOf(turns))
  {
    if |turns| > 0 {
      var n := |turns| - 1;
      AfterKept(s, turns[..n], ds, px, pz, sqrt);
      assert MobsOf(turns)[..n] == MobsOf(turns[..n]) && KeepOf(turns)[..n] == KeepOf(turns[..n]);
    }
  }

  /**
   * Strikes never raise the player's health and never take it below
   * zero; a frame without strikes leaves health and velocity alone.
   */
  lemma {:induction false} AfterHealth(s: Totals, turns: seq<Turn>, ds: seq<Draws>, px: real, pz: real, sqrt: real -> real)
    requires |turns| <= |ds| && s.health >= 0.0
    requires forall i :: 0 <= i < |turns| ==> turns[i].mob.attackDamage >= 0.0
    ensures 0.0 <= After(s, turns, ds, px, pz, sqrt).health <= s.health
    ensures (forall i :: 0 <= i < |turns| ==> !turns[i].struck) ==>
      After(s, turns, ds, px, pz, sqrt).health == s.health && After(s, turns, ds, px, pz, sqrt).velocity == s.velocity
  {
    if |turns| > 0 {
      var n := |turns| - 1;
      AfterHealth(s, turns[..n], ds, px, pz, sqrt);
    }
  }

  /**
   * The drop system only gains items, and each new item is one of the
   * drops of a mob that left the list, where that mob stood.
   */
  lemma {:induction false} AfterItems(s: Totals, turns: seq<Turn>, ds: seq<Draws>, px: real, pz: real, sqrt: real -> real)
    requires |turns| <= |ds|
    requires forall i :: 0 <= i < |turns| && turns[i].keep ==> turns[i].drops == []
    ensures var items := After(s, turns, ds, px, pz, sqrt).items;
      |s.items| <= |items| && items[..|s.items|] == s.items
      && forall it :: it in items[|s.items|..] ==> exists i :: 0 <= i < |turns| && DroppedFrom(it, turns[i])
  {
    if |turns| > 0 {
      var n := |turns| - 1;
      AfterItems(s, turns[..n], ds, px, pz, sqrt);
      var before := After(s, turns[..n], ds, px, pz, sqrt).items;
      var items := After(s, turns, ds, px, pz, sqrt).items;
      var added := DroppedBy(turns[n], ds[n]);
      assert items == before + added;
      forall it | it in items[|s.items|..]
        ensures exists i :: 0 <= i < |turns| && DroppedFrom(it, turns[i])
      {
        var j :| |s.items| <= j < |items| && items[j] == it;
        if j < |before| {
          assert it in before[|s.items|..];
          var i :| 0 <= i < n && DroppedFrom(it, turns[..n][i]);
          assert turns[..n][i] == turns[i];
        } else {
          assert added[j - |before|] == it;
          assert DroppedFrom(it, turns[n]);
        }
      }
    }
  }

  // ---------------------------------------------------------------------
  // the system

  /** `MobSystem`: the mobs in spawn order, the difficulty, the spawn timer and the per-chunk cap. */
  class MobSystem {
    var mobs: seq<Mob>
    var difficulty: int
    var spawnTimer: real
    var maxMobsPerChunk: int

    /** `__init__`: no mobs, the timer at zero, the cap of the difficulty. */
    constructor(difficulty: int)
      ensures mobs == [] && this.difficulty == difficulty && spawnTimer == 0.0
      ensures maxMobsPerChunk == MaxMobsPerChunk(difficulty)
    {
      mobs := [];
      this.difficulty := difficulty;
      spawnTimer := 0.0;
      maxMobsPerChunk := MaxMobsPerChunk(difficulty);
    }

    /** `spawn_mob`: appends a new mob of type `t` at the given position. */
    method SpawnMob(t: int, px: real, py: real, pz: real, direction: real, idleTime: real) returns (m: Mob)
      modifies this`mobs
      ensures m == NewMob(t, px, py, pz, direction, idleTime)
      ensures mobs == old(mobs) + [m]
    {
      m := NewMob(t, px, py, pz, direction, idleTime);
      mobs := mobs + [m];
    }

    /** `_try_spawn_mobs` around the player at (px, pz): the attempts in order, stopping at the first mob spawned. */
    method TrySpawn(solid: (int, int, int) -> bool, height: (int, int) -> int, px: real, pz: real, timeOfDay: real, attempts: seq<SpawnDraw>)
      requires |attempts| == SPAWN_ATTEMPTS && AllSpawnDrawsInRange(attempts)
      modifies this`mobs
      ensures var r := FirstSpawn(solid, height, old(mobs), maxMobsPerChunk, difficulty, ChunkX(px), ChunkZ(pz), IsNight(timeOfDay), attempts);
        mobs == old(mobs) + (if r.Some? then [r.value] else [])
    {
      var pcx, pcz := ChunkX(px), ChunkZ(pz);
      var night := IsNight(timeOfDay);
      var i := 0;
      while i < |attempts|
        invariant 0 <= i <= |attempts| && mobs == old(mobs)
        invariant FirstSpawn(solid, height, mobs, maxMobsPerChunk, difficulty, pcx, pcz, night, attempts)
               == FirstSpawn(solid, height, mobs, maxMobsPerChunk, difficulty, pcx, pcz, night, attempts[i..])
      {
        var r := TryAttempt(solid, height, mobs, maxMobsPerChunk, difficulty, pcx, pcz, night, attempts[i]);
        assert attempts[i..][1..] == attempts[i + 1..];
        if r.Some? {
          var m := SpawnMob(r.value.mobType, r.value.x, r.value.y, r.value.z, attempts[i].direction, attempts[i].idleTime);
          return;
        }
        i := i + 1;
      }
    }

    /**
     * The loop of `update` over the mobs, with the player's position and
     * mode as they are when it starts: every mob takes its turn; strikes
     * hurt and push the player in list order; the drops of expired mobs go
     * to the drop system; the mobs that stay keep their order.  Each
     * update runs the corrected mob moves `Mobs.Moved`.
     */
    method UpdateMobs(e: Env, player: Players.Player, drops: Drops.DropSystem, ds: seq<Draws>) returns (ghost turns: seq<Turn>)
      requires |ds| >= |mobs| && forall i :: 0 <= i < |ds| ==> DrawsInRange(ds[i])
      modifies this`mobs, player`health, player`vx, player`vy, player`vz, drops`items
      ensures |turns| == |old(mobs)| && TurnsOf(e, difficulty, player.x, player.z, player.gameMode, ds, old(mobs), turns)
      ensures Totals(mobs, player.health, (player.vx, player.vy, player.vz), drops.items)
        == After(Totals([], old(player.health), (old(player.vx), old(player.vy), old(player.vz)), old(drops.items)),
                 turns, ds, player.x, player.z, e.sqrt)
    {
      var all := mobs;
      var px, pz, mode := player.x, player.z, player.gameMode;
      ghost var start := Totals([], player.health, (player.vx, player.vy, player.vz), drops.items);
      var kept: seq<Mob> := [];
      turns := [];
      var i := 0;
      while i < |all|
        invariant 0 <= i <= |all| && all == old(mobs) && |turns| == i
        invariant TurnsOf(e, difficulty, px, pz, mode, ds, all, turns)
        invariant Totals(kept, player.health, (player.vx, player.vy, player.vz), drops.items) == After(start, turns, ds, px, pz, e.sqrt)
      {
        ghost var before := Totals(kept, player.health, (player.vx, player.vy, player.vz), drops.items);
        var r := Visit(e, difficulty, px, pz, mode, ds[i], all[i], player, drops, ds, all, i);
        TurnsOfStep(e, difficulty, px, pz, mode, ds, all, turns, r);
        if r.keep {
          kept := kept + [r.mob];
        }
        assert Totals(kept, player.health, (player.vx, player.vy, player.vz), drops.items) == Effect(before, r, ds[i], px, pz, e.sqrt);
        AfterStep(start, turns, r, ds, px, pz, e.sqrt);
        turns := turns + [r];
        i := i + 1;
      }
      mobs := kept;
    }

    /**
     * `update`: the spawn timer advances by `dt`, and once it reaches
     * SPAWN_INTERVAL it restarts and a round of spawning runs around the
     * player; then every mob, the new one included, takes its turn.
     */
    method Update(solid: (int, int, int) -> bool, noise: Noise, dt: real, player: Players.Player, drops: Drops.DropSystem,
                  timeOfDay: real, sqrt: real -> real, heading: real -> (real, real), attempts: seq<SpawnDraw>, ds: seq<Draws>)
      returns (ghost spawned: Option<Mob>, ghost turns: seq<Turn>)
      requires |attempts| == SPAWN_ATTEMPTS && AllSpawnDrawsInRange(attempts)
      requires |ds| > |mobs| && forall i :: 0 <= i < |ds| ==> DrawsInRange(ds[i])
      modifies this`mobs, this`spawnTimer, player`health, player`vx, player`vy, player`vz, drops`items
      ensures spawnTimer == if old(spawnTimer) + dt >= SPAWN_INTERVAL then 0.0 else old(spawnTimer) + dt
      ensures spawned == if old(spawnTimer) + dt >= SPAWN_INTERVAL
        then FirstSpawn(solid, Ground(noise), old(mobs), maxMobsPerChunk, difficulty, ChunkX(player.x), ChunkZ(player.z), IsNight(timeOfDay), attempts)
        else None
      ensures var listed := old(mobs) + (if spawned.Some? then [spawned.value] else []);
        |turns| == |listed| && TurnsOf(Env(solid, dt, IsNight(timeOfDay), sqrt, heading), difficulty, player.x, player.z, player.gameMode,
                                       ds, listed, turns)
      ensures Totals(mobs, player.health, (player.vx, player.vy, player.vz), drops.items)
        == After(Totals([], old(player.health), (old(player.vx), old(player.vy), old(player.vz)), old(drops.items)),
                 turns, ds, player.x, player.z, sqrt)
    {
      spawnTimer := spawnTimer + dt;
      spawned := None;
      if spawnTimer >= SPAWN_INTERVAL {
        spawnTimer := 0.0;
        spawned := FirstSpawn(solid, Ground(noise), mobs, maxMobsPerChunk, difficulty, ChunkX(player.x), ChunkZ(player.z), IsNight(timeOfDay), attempts);
        TrySpawn(solid, Ground(noise), player.x, player.z, timeOfDay, attempts);
      }
      turns := UpdateMobs(Env(solid, dt, IsNight(timeOfDay), sqrt, heading), player, drops, ds);
    }

    /**
     * One pass of the loop of `update` over the mob `m`: its turn, then
     * the strike on the player and the drops it leaves behind.
     */
    static method Visit(e: Env, difficulty: int, px: real, pz: real, mode: string, d: Draws, m: Mob,
                        player: Players.Player, drops: Drops.DropSystem,
                        ghost ds: seq<Draws>, ghost ms: seq<Mob>, ghost n: nat) returns (r: Turn)
      requires n < |ms| && n < |ds| && d == ds[n] && m == ms[n]
      requires DrawsInRange(d) && player.gameMode == mode
      modifies player`health, player`vx, player`vy, player`vz, drops`items
      ensures TurnAt(e, difficulty, px, pz, mode, ds, ms, n, r)
      ensures player.health == if r.struck then Hurt(old(player.health), r.mob.attackDamage) else old(player.health)
      ensures var k := Knockback(r.mob, px, pz, e.sqrt);
        if r.struck then player.vx == old(player.vx) + k.0 && player.vy == old(player.vy) + k.1 && player.vz == old(player.vz) + k.2
        else player.vx == old(player.vx) && player.vy == old(player.vy) && player.vz == old(player.vz)
      ensures drops.items == old(drops.items) + DroppedBy(r, d)
    {
      r := MobTurn(e, difficulty, px, pz, mode, d, m);
      if r.struck {
        TurnKeepsBody(e, difficulty, px, pz, mode, d, m);
        player.TakeDamage(r.mob.attackDamage);
        var k := Knockback(r.mob, px, pz, e.sqrt);
        player.vx, player.vy, player.vz := player.vx + k.0, player.vy + k.1, player.vz + k.2;
      }
      SpawnDrops(drops, r, d);
    }

    /** The drops of one turn, handed to `spawn_drop` one by one with their scatter draws. */
    static method SpawnDrops(drops: Drops.DropSystem, r: Turn, d: Draws)
      requires |r.drops| <= 3 && DrawsInRange(d)
      modifies drops`items
      ensures drops.items == old(drops.items) + DroppedBy(r, d)
    {
      var j := 0;
      while j < |r.drops|
        invariant 0 <= j <= |r.drops|
        invariant drops.items == old(drops.items) + DroppedBy(r, d)[..j]
      {
        var item := drops.SpawnDrop(r.drops[j], r.mob.x, r.mob.y, r.mob.z, None, ScatterOf(d, j));
        assert DroppedBy(r, d)[..j + 1] == DroppedBy(r, d)[..j] + [item];
        j := j + 1;
      }
      assert DroppedBy(r, d)[..j] == DroppedBy(r, d);
    }

    /** `get_mob_at_position`: the index of the closest live mob strictly within `maxDistance`, the first of equals. */
    method GetMobAtPosition(px: real, py: real, pz: real, maxDistance: real) returns (r: Option<nat>)
      ensures r.None? ==> NoneWithin(mobs, px, py, pz, maxDistance * maxDistance)
      ensures r.Some? ==> Nearest(mobs, r.value, px, py, pz, maxDistance * maxDistance)
    {
      r := None;
      var best := maxDistance * maxDistance;
      var i := 0;
      while i < |mobs|
        invariant 0 <= i <= |mobs|
        invariant r.None? ==> best == maxDistance * maxDistance
        invariant r.Some? ==> (r.value < i && !mobs[r.value].isDead && best == DistSq(mobs[r.value], px, py, pz)
          && best < maxDistance * maxDistance
          && forall j :: 0 <= j < r.value && !mobs[j].isDead ==> DistSq(mobs[j], px, py, pz) > best)
        invariant forall j :: 0 <= j < i && !mobs[j].isDead ==> DistSq(mobs[j], px, py, pz) >= best
      {
        if !mobs[i].isDead {
          var d := DistSq(mobs[i], px, py, pz);
          if d < best {
            best := d;
            r := Some(i);
          }
        }
        i := i + 1;
      }
    }

    /**
     * `raycast_mob`: the index of the live mob whose box the ray from `o`
     * along `dir` meets first, strictly before `maxDistance`; of mobs met
     * at the same parameter, the first listed.
     */
    method RaycastMob(o: (real, real, real), dir: (real, real, real), maxDistance: real) returns (r: Option<nat>)
      ensures r.None? ==> forall j :: 0 <= j < |mobs| && !mobs[j].isDead ==> !HitBefore(RayAabb(o, dir, mobs[j].Box()), maxDistance)
      ensures r.Some? ==> FirstHitMob(mobs, r.value, o, dir, maxDistance)
    {
      r := None;
      var closest := maxDistance;
      var i := 0;
      while i < |mobs|
        invariant 0 <= i <= |mobs|
        invariant r.None? ==> closest == maxDistance
        invariant r.Some? ==> (r.value < i && !mobs[r.value].isDead
          && HitBy(RayAabb(o, dir, mobs[r.value].Box()), closest) && closest == RayAabb(o, dir, mobs[r.value].Box()).value.v
          && closest < maxDistance
          && forall j :: 0 <= j < r.value && !mobs[j].isDead ==> !HitBy(RayAabb(o, dir, mobs[j].Box()), closest))
        invariant forall j :: 0 <= j < i && !mobs[j].isDead ==> !HitBefore(RayAabb(o, dir, mobs[j].Box()), closest)
      {
        if !mobs[i].isDead {
          var t := RayAabb(o, dir, mobs[i].Box());
          if t.Some? && t.value.Fin? && t.value.v < closest {
            closest := t.value.v;
            r := Some(i);
          }
        }
        i := i + 1;
      }
    }

    /** `cleanup`: every mob is removed. */
    method Cleanup()
      modifies this`mobs
      ensures mobs == []
    {
      mobs := [];
    }
  }

  /** No live mob is closer than the square root of `maxSq`. */
  predicate NoneWithin(mobs: seq<Mob>, px: real, py: real, pz: real, maxSq: real)
  {
    forall j :: 0 <= j < |mobs| && !mobs[j].isDead ==> DistSq(mobs[j], px, py, pz) >= maxSq
  }

  /**
   * Mob k is live and closer than the square root of `maxSq`, no live mob
   * is closer, and every live mob before it is farther.
   */
  predicate Nearest(mobs: seq<Mob>, k: nat, px: real, py: real, pz: real, maxSq: real)
  {
    k < |mobs| && !mobs[k].isDead && DistSq(mobs[k], px, py, pz) < maxSq
    && (forall j :: 0 <= j < |mobs| && !mobs[j].isDead ==> DistSq(mobs[j], px, py, pz) >= DistSq(mobs[k], px, py, pz))
    && (forall j :: 0 <= j < k && !mobs[j].isDead ==> DistSq(mobs[j], px, py, pz) > DistSq(mobs[k], px, py, pz))
  }

  /**
   * The ray meets live mob k before `maxDistance`, meets no live mob
   * sooner, and meets no live mob before it as soon.
   */
  predicate FirstHitMob(mobs: seq<Mob>, k: nat, o: (real, real, real), dir: (real, real, real), maxDistance: real)
  {
    k < |mobs| && !mobs[k].isDead && HitBefore(RayAabb(o, dir, mobs[k].Box()), maxDistance)
    && var v := RayAabb(o, dir, mobs[k].Box()).value.v;
    (forall j :: 0 <= j < |mobs| && !mobs[j].isDead ==> !HitBefore(RayAabb(o, dir, mobs[j].Box()), v))
    && (forall j :: 0 <= j < k && !mobs[j].isDead ==> !HitBy(RayAabb(o, dir, mobs[j].Box()), v))
  }

  /** The ray meets the box at a finite parameter below `bound`; a ray that never leaves the box (plus infinity) does not count. */
  predicate HitBefore(h: Option<Ext>, bound: real)
  {
    h.Some? && h.value.Fin? && h.value.v < bound
  }

  /** The ray meets the box at a finite parameter of at most `bound`. */
  predicate HitBy(h: Option<Ext>, bound: real)
  {
    h.Some? && h.value.Fin? && h.value.v <= bound
  }

  /** The squared distance `get_mob_at_position` compares. */
  function DistSq(m: Mob, px: real, py: real, pz: real): (r: real)
    ensures r >= 0.0
  {
    (m.x - px) * (m.x - px) + (m.y - py) * (m.y - py) + (m.z - pz) * (m.z - pz)
  }
}
