/**
 * The mobs of voxel/mob_system.py: their per-type configuration, damage and
 * drops, their AI and physics step, and the `MobSystem` that spawns,
 * updates and removes them.  Randomness enters as draws within the ranges
 * the source samples from, `sqrt` and the wander heading's sine and cosine
 * as function parameters, and the world through `solid_at` and
 * `terrain_height`.
 */
module Mobs {
  import opened Wrappers
  import opened Settings
  import opened Util
  import opened Collision
  import Drops
  import Players

  const MOB_SHEEP: int := 0
  const MOB_COW: int := 1
  const MOB_CHICKEN: int := 2
  const MOB_PIG: int := 3
  const MOB_CREEPER: int := 4
  const MOB_ZOMBIE: int := 5
  const MOB_SKELETON: int := 6

  /** Seconds during which a hit mob ignores further hits. */
  const HIT_COOLDOWN: real := 0.5
  /** Seconds between two attacks of a hostile mob. */
  const ATTACK_COOLDOWN: real := 1.5
  /** Seconds between two jumps. */
  const JUMP_COOLDOWN: real := 0.5
  /** Walking speed while wandering. */
  const WANDER_SPEED: real := 1.5
  /** Horizontal velocity kept per frame by an idle mob on the ground. */
  const IDLE_FRICTION: real := 0.8
  /** A dead mob drops its items once it has been dead this long. */
  const DEATH_DELAY: real := 0.1

  predicate IsHostileType(t: int)
  {
    t == MOB_CREEPER || t == MOB_ZOMBIE || t == MOB_SKELETON
  }

  predicate IsAnimalType(t: int)
  {
    t == MOB_SHEEP || t == MOB_COW || t == MOB_CHICKEN || t == MOB_PIG
  }

  /** What `_configure_mob` sets for a type: size, max health, hostility, attack damage, speed. */
  datatype Profile = Profile(sx: real, sy: real, sz: real, maxHealth: real, hostile: bool, attackDamage: real, moveSpeed: real)

  /** `_configure_mob`, starting from the defaults of `Mob.__init__`. */
  function ProfileOf(t: int): (p: Profile)
    ensures p.hostile <==> IsHostileType(t)
    ensures p.sx > 0.0 && p.sy > 0.0 && p.sz > 0.0 && p.maxHealth > 0.0
    ensures p.hostile ==> p.maxHealth == 20.0 && p.moveSpeed == 2.0 && p.attackDamage > 0.0
    ensures !p.hostile ==> p.attackDamage == 0.0 && p.moveSpeed == 1.5 && p.maxHealth <= 10.0
  {
    if t == MOB_SHEEP then Profile(0.6, 0.8, 0.6, 8.0, false, 0.0, 1.5)
    else if t == MOB_COW then Profile(0.7, 1.0, 0.7, 10.0, false, 0.0, 1.5)
    else if t == MOB_CHICKEN then Profile(0.4, 0.5, 0.4, 4.0, false, 0.0, 1.5)
    else if t == MOB_PIG then Profile(0.6, 0.8, 0.6, 10.0, false, 0.0, 1.5)
    else if t == MOB_CREEPER then Profile(0.6, 1.7, 0.6, 20.0, true, 10.0, 2.0)
    else if t == MOB_ZOMBIE then Profile(0.6, 1.95, 0.6, 20.0, true, 3.0, 2.0)
    else if t == MOB_SKELETON then Profile(0.5, 1.95, 0.5, 20.0, true, 2.0, 2.0)
    else Profile(0.6, 0.9, 0.6, 10.0, false, 0.0, 1.5)
  }

  /** A mob: position, velocity and the AI, combat and health state of `Mob`. */
  datatype Mob = Mob(
    mobType: int,
    x: real, y: real, z: real,
    vx: real, vy: real, vz: real,
    onGround: bool,
    wanderTimer: real, wanderDirection: real, idleTimer: real, isIdle: bool,
    isHostile: bool, attackDamage: real, attackRange: real, detectionRange: real,
    attackCooldown: real, moveSpeed: real,
    maxHealth: real, health: real, isDead: bool, deathTimer: real, hitCooldown: real,
    jumpForce: real, jumpCooldown: real,
    sx: real, sy: real, sz: real)
  {
    /** `get_aabb`: centred on the mob horizontally, standing on its feet. */
    function Box(): (b: Aabb)
      ensures sx >= 0.0 && sy >= 0.0 && sz >= 0.0 ==> Proper(b)
      ensures b.minY == y && b.maxY - b.minY == sy
      ensures b.maxX - b.minX == sx && b.minX + b.maxX == 2.0 * x
      ensures b.maxZ - b.minZ == sz && b.minZ + b.maxZ == 2.0 * z
    {
      var hw, hd := sx * 0.5, sz * 0.5;
      Aabb(x - hw, y, z - hd, x + hw, y + sy, z + hd)
    }
  }

  /**
   * `Mob.__init__`: a live, idle mob at rest at the given position with
   * full health and its type's profile; `direction` and `idle` are the
   * random initial wander direction and idle time.
   */
  function NewMob(t: int, px: real, py: real, pz: real, direction: real, idle: real): (m: Mob)
    ensures m.mobType == t && m.x == px && m.y == py && m.z == pz
    ensures m.vx == 0.0 && m.vy == 0.0 && m.vz == 0.0 && !m.onGround
    ensures m.isIdle && m.idleTimer == idle && m.wanderDirection == direction && m.wanderTimer == 0.0
    ensures m.health == m.maxHealth == ProfileOf(t).maxHealth && !m.isDead && m.deathTimer == 0.0
    ensures m.isHostile == IsHostileType(t) && m.attackDamage == ProfileOf(t).attackDamage
    ensures (m.sx, m.sy, m.sz) == (ProfileOf(t).sx, ProfileOf(t).sy, ProfileOf(t).sz)
    ensures m.hitCooldown == 0.0 && m.attackCooldown == 0.0 && m.jumpCooldown == 0.0
  {
    var p := ProfileOf(t);
    Mob(t, px, py, pz, 0.0, 0.0, 0.0, false,
        0.0, direction, idle, true,
        p.hostile, p.attackDamage, 1.5, 16.0, 0.0, p.moveSpeed,
        p.maxHealth, p.maxHealth, false, 0.0, 0.0,
        8.0, 0.0,
        p.sx, p.sy, p.sz)
  }

  // ---------------------------------------------------------------------
  // damage and drops

  /**
   * `damage`: ignored (returning false) by a dead mob or during the hit
   * cooldown; otherwise the health drops by `amount`, the cooldown starts,
   * and the result is true exactly when this hit kills the mob, whose
   * health is then clamped to 0.
   */
  function Damage(m: Mob, amount: real): (r: (Mob, bool))
    ensures m.isDead || m.hitCooldown > 0.0 ==> r == (m, false)
    ensures !m.isDead && m.hitCooldown <= 0.0 ==>
      (r.1 <==> m.health - amount <= 0.0)
      && r.0 == m.(health := if r.1 then 0.0 else m.health - amount, hitCooldown := HIT_COOLDOWN, isDead := r.1)
  {
    if m.isDead || m.hitCooldown > 0.0 then (m, false)
    else
      var h := m.health - amount;
      if h <= 0.0 then (m.(health := 0.0, hitCooldown := HIT_COOLDOWN, isDead := true), true)
      else (m.(health := h, hitCooldown := HIT_COOLDOWN), false)
  }

  /**
   * Two hits in a row: the second is always ignored, so a mob is reported
   * killed at most once, health never goes negative from a live mob with
   * non-negative health, and a reported kill leaves the mob dead.
   */
  lemma DamageOnce(m: Mob, a: real, b: real)
    ensures var (m1, died) := Damage(m, a);
      Damage(m1, b) == (m1, false)
      && (died ==> !m.isDead && m1.isDead && m1.health == 0.0)
      && (m.health >= 0.0 ==> m1.health >= 0.0)
  {
  }

  /** The drop of a type: the item, and the least and greatest count. */
  function DropKind(t: int): Option<(int, int, int)>
  {
    if t == MOB_SHEEP then Some((RAW_MEAT, 1, 2))
    else if t == MOB_COW then Some((RAW_MEAT, 1, 3))
    else if t == MOB_CHICKEN then Some((RAW_CHICKEN, 1, 2))
    else if t == MOB_PIG then Some((RAW_PORK, 1, 3))
    else if t == MOB_CREEPER then Some((GUNPOWDER, 0, 2))
    else if t == MOB_ZOMBIE then Some((ROTTEN_FLESH, 0, 2))
    else if t == MOB_SKELETON then Some((BONE, 0, 2))
    else None
  }

  /** `random.randint(lo, hi)` for the uniform draw `u` in [0, 1). */
  function RandInt(lo: int, hi: int, u: real): (n: int)
    requires lo <= hi && 0.0 <= u < 1.0
    ensures lo <= n <= hi
  {
    var k := (u * (hi - lo + 1) as real).Floor;
    assert 0 <= k < hi - lo + 1 by {
      FloorBelow(u, hi - lo + 1);
    }
    lo + k
  }

  lemma FloorBelow(u: real, n: int)
    requires 0.0 <= u < 1.0 && n >= 1
    ensures 0 <= (u * n as real).Floor < n
  {
    assert 0.0 <= u * n as real < n as real;
  }

  /**
   * `get_drops` with the count drawn by `u`: a list of copies of the
   * type's one item, as many as its range allows; nothing for an unknown
   * type.
   */
  function GetDrops(t: int, u: real): (r: seq<int>)
    requires 0.0 <= u < 1.0
    ensures DropKind(t).None? ==> r == []
    ensures DropKind(t).Some? ==> var k := DropKind(t).value;
      k.1 <= |r| <= k.2 && forall i :: 0 <= i < |r| ==> r[i] == k.0
  {
    match DropKind(t)
    case None => []
    case Some(k) => seq(RandInt(k.1, k.2, u), _ => k.0)
  }

  /** Animals always drop food, hostiles may drop nothing, and nobody drops more than three items. */
  lemma DropsByKind(t: int, u: real)
    requires 0.0 <= u < 1.0
    ensures |GetDrops(t, u)| <= 3
    ensures IsAnimalType(t) ==> 1 <= |GetDrops(t, u)| && forall i :: 0 <= i < |GetDrops(t, u)| ==> GetDrops(t, u)[i] in {RAW_MEAT, RAW_CHICKEN, RAW_PORK}
    ensures IsHostileType(t) ==> forall i :: 0 <= i < |GetDrops(t, u)| ==> GetDrops(t, u)[i] in {ROTTEN_FLESH, BONE, GUNPOWDER}
  {
  }

  // ---------------------------------------------------------------------
  // chunk distance, day and night, caps

  /** The chunk column of a world x coordinate, `floor(x / CHUNK_SIZE_X)`. */
  function ChunkX(x: real): int
  {
    (x / SX as real).Floor
  }

  /** The chunk row of a world z coordinate, `floor(z / CHUNK_SIZE_Z)`. */
  function ChunkZ(z: real): int
  {
    (z / SZ as real).Floor
  }

  /** `_is_outside_render_distance`: the Chebyshev chunk distance exceeds RENDER_DISTANCE. */
  function OutsideRenderDistance(mx: real, mz: real, px: real, pz: real): (r: bool)
    ensures r <==> Abs(ChunkX(mx) - ChunkX(px)) > RENDER_DISTANCE || Abs(ChunkZ(mz) - ChunkZ(pz)) > RENDER_DISTANCE
  {
    var dx, dz := Abs(ChunkX(mx) - ChunkX(px)), Abs(ChunkZ(mz) - ChunkZ(pz));
    (if dx >= dz then dx else dz) > RENDER_DISTANCE
  }

  /** Night is the part [0.5, 0.9) of the day cycle. */
  predicate IsNight(timeOfDay: real)
  {
    0.5 <= timeOfDay < 0.9
  }

  /** `max_mobs_per_chunk` for a difficulty. */
  function MaxMobsPerChunk(difficulty: int): (cap: int)
    ensures 2 <= cap <= 8
  {
    if difficulty == DIFFICULTY_PEACEFUL then 2
    else if difficulty == DIFFICULTY_EASY then 3
    else if difficulty == DIFFICULTY_NORMAL then 5
    else if difficulty == DIFFICULTY_HARD then 8
    else 3
  }

  /** Harder difficulties never allow fewer mobs per chunk. */
  lemma CapsGrow(d1: int, d2: int)
    requires DIFFICULTY_PEACEFUL <= d1 <= d2 <= DIFFICULTY_HARD
    ensures MaxMobsPerChunk(d1) <= MaxMobsPerChunk(d2)
  {
  }

  // ---------------------------------------------------------------------
  // ray against box

  /** A slab bound: a real, or minus or plus infinity. */
  datatype Ext = NegInf | Fin(v: real) | PosInf

  predicate ExtLe(a: Ext, b: Ext)
  {
    a.NegInf? || b.PosInf? || (a.Fin? && b.Fin? && a.v <= b.v)
  }

  function ExtMax(a: Ext, b: Ext): Ext { if ExtLe(a, b) then b else a }
  function ExtMin(a: Ext, b: Ext): Ext { if ExtLe(a, b) then a else b }

  function RAbs(x: real): real { if x < 0.0 then -x else x }

  /** Directions closer to 0 than this count as parallel to a slab. */
  const RAY_EPS: real := 0.00000001

  /**
   * One slab of `_ray_aabb_intersection`: narrows (t_min, t_max) to the
   * parameters where the ray is between `lo` and `hi`, or gives None when
   * a ray parallel to the slab starts outside it.
   */
  function Slab(o: real, d: real, lo: real, hi: real, st: (Ext, Ext)): Option<(Ext, Ext)>
  {
    if RAbs(d) > RAY_EPS then
      var t1, t2 := (lo - o) / d, (hi - o) / d;
      Some((ExtMax(st.0, Fin(RMin(t1, t2))), ExtMin(st.1, Fin(RMax(t1, t2)))))
    else if o < lo || o > hi then None
    else Some(st)
  }

  /**
   * `_ray_aabb_intersection`: the entry parameter of the ray into the box
   * if it is ahead of the origin, else the exit parameter, or None when
   * the ray misses the box or the box is behind it.  A ray starting inside
   * the box and parallel to every slab gives plus infinity.
   */
  function RayAabb(o: (real, real, real), d: (real, real, real), b: Aabb): (r: Option<Ext>)
    ensures r.Some? ==> r.value.PosInf? || (r.value.Fin? && r.value.v >= 0.0)
  {
    var sx := Slab(o.0, d.0, b.minX, b.maxX, (NegInf, PosInf));
    if sx.None? then None
    else
      var sy := Slab(o.1, d.1, b.minY, b.maxY, sx.value);
      if sy.None? then None
      else
        var sz := Slab(o.2, d.2, b.minZ, b.maxZ, sy.value);
        if sz.None? then None
        else
          var (tMin, tMax) := sz.value;
          if ExtLe(tMin, tMax) && ExtLe(Fin(0.0), tMax) then
            Some(if ExtLe(Fin(0.0), tMin) then tMin else tMax)
          else None
  }

  /** Inside a slab, the entry parameter is at most 0 and the exit parameter at least 0. */
  lemma SlabAroundOrigin(o: real, d: real, lo: real, hi: real, st: (Ext, Ext))
    requires lo <= o <= hi && ExtLe(st.0, Fin(0.0)) && ExtLe(Fin(0.0), st.1)
    ensures Slab(o, d, lo, hi, st).Some?
    ensures ExtLe(Slab(o, d, lo, hi, st).value.0, Fin(0.0)) && ExtLe(Fin(0.0), Slab(o, d, lo, hi, st).value.1)
  {
    if RAbs(d) > RAY_EPS {
      QuotientSign(lo - o, d);
      QuotientSign(hi - o, d);
      var t1, t2 := (lo - o) / d, (hi - o) / d;
      assert RMin(t1, t2) <= 0.0 <= RMax(t1, t2);
    }
  }

  /** The sign of a quotient of reals. */
  lemma QuotientSign(n: real, d: real)
    requires d != 0.0
    ensures n <= 0.0 && d > 0.0 ==> n / d <= 0.0
    ensures n >= 0.0 && d > 0.0 ==> n / d >= 0.0
    ensures n <= 0.0 && d < 0.0 ==> n / d >= 0.0
    ensures n >= 0.0 && d < 0.0 ==> n / d <= 0.0
  {
    var q := n / d;
    assert q * d == n;
    if d > 0.0 && q > 0.0 {
      assert q * d > 0.0;
    }
    if d > 0.0 && q < 0.0 {
      assert q * d < 0.0;
    }
    if d < 0.0 && q > 0.0 {
      assert q * d < 0.0;
    }
    if d < 0.0 && q < 0.0 {
      assert q * d > 0.0;
    }
  }

  /** A ray that starts inside a box always hits it. */
  lemma RayFromInside(o: (real, real, real), d: (real, real, real), b: Aabb)
    requires b.minX <= o.0 <= b.maxX && b.minY <= o.1 <= b.maxY && b.minZ <= o.2 <= b.maxZ
    ensures RayAabb(o, d, b).Some?
  {
    var st0 := (NegInf, PosInf);
    SlabAroundOrigin(o.0, d.0, b.minX, b.maxX, st0);
    var sx := Slab(o.0, d.0, b.minX, b.maxX, st0).value;
    SlabAroundOrigin(o.1, d.1, b.minY, b.maxY, sx);
    var sy := Slab(o.1, d.1, b.minY, b.maxY, sx).value;
    SlabAroundOrigin(o.2, d.2, b.minZ, b.maxZ, sy);
  }

  /** A ray parallel to the X slab that starts outside it misses the box. */
  lemma ParallelOutsideMisses(o: (real, real, real), d: (real, real, real), b: Aabb)
    requires RAbs(d.0) <= RAY_EPS && (o.0 < b.minX || o.0 > b.maxX)
    ensures RayAabb(o, d, b).None?
  {
  }

  // ---------------------------------------------------------------------
  // one mob's update: cooldowns, AI, physics

  /**
   * The random draws one mob's turn may use: the wander time, direction
   * and idle time `_wander` picks, the new directions after bumping into
   * a wall along X or Z, the count of its drops, and a scatter velocity
   * for each drop.
   */
  datatype Draws = Draws(wanderTime: real, direction: real, idleTime: real, wallX: real, wallZ: real,
                         dropCount: real, scatter: seq<(real, real, real)>)

  /** The draws lie in the ranges the source samples from. */
  predicate DrawsInRange(d: Draws)
  {
    2.0 <= d.wanderTime <= 4.0 && 0.0 <= d.direction <= 360.0 && 2.0 <= d.idleTime <= 5.0
    && 0.0 <= d.wallX <= 360.0 && 0.0 <= d.wallZ <= 360.0
    && 0.0 <= d.dropCount < 1.0 && |d.scatter| >= 3
    && forall i :: 0 <= i < |d.scatter| ==> Drops.ScatterRange(d.scatter[i])
  }

  /** A running cooldown counts down by `dt`; one that has run out is left alone. */
  function CountDown(c: real, dt: real): (r: real)
    ensures c > 0.0 ==> r == c - dt
    ensures c <= 0.0 ==> r == c
  {
    if c > 0.0 then c - dt else c
  }

  /** The cooldown part of `Mob.update`: the hit, attack and jump cooldowns count down. */
  function Cooled(m: Mob, dt: real): (r: Mob)
    ensures r == m.(hitCooldown := CountDown(m.hitCooldown, dt), attackCooldown := CountDown(m.attackCooldown, dt),
                    jumpCooldown := CountDown(m.jumpCooldown, dt))
  {
    m.(hitCooldown := CountDown(m.hitCooldown, dt), attackCooldown := CountDown(m.attackCooldown, dt),
       jumpCooldown := CountDown(m.jumpCooldown, dt))
  }

  /**
   * Counting down never raises a cooldown, never takes a running one more
   * than `dt` below zero, and one that has run out stays out.
   */
  lemma CountDownBounds(c: real, dt: real)
    requires dt >= 0.0
    ensures CountDown(c, dt) <= c
    ensures c > 0.0 ==> CountDown(c, dt) > -dt
    ensures c <= 0.0 ==> CountDown(c, dt) <= 0.0
  {
  }

  /**
   * `_wander`: an idle mob counts its idle time down and starts walking in
   * the drawn direction for the drawn time when it runs out; a walking mob
   * counts its walk down, goes idle for the drawn time when it runs out,
   * and otherwise steers its horizontal velocity towards 1.5 along its
   * heading, by 10·dt on the ground and 2·dt in the air.  `heading` gives
   * the sine and cosine of an angle in degrees.
   */
  function Wander(m: Mob, dt: real, heading: real -> (real, real), d: Draws): Mob
  {
    if m.isIdle then
      var idle := m.idleTimer - dt;
      if idle <= 0.0 then m.(idleTimer := idle, isIdle := false, wanderTimer := d.wanderTime, wanderDirection := d.direction)
      else m.(idleTimer := idle)
    else
      var walk := m.wanderTimer - dt;
      if walk <= 0.0 then m.(wanderTimer := walk, isIdle := true, idleTimer := d.idleTime)
      else
        var h := heading(m.wanderDirection);
        var accel := if m.onGround then 10.0 else 2.0;
        m.(wanderTimer := walk, vx := Approach(m.vx, h.0 * WANDER_SPEED, accel * dt),
           vz := Approach(m.vz, h.1 * WANDER_SPEED, accel * dt))
  }

  /** Wandering changes nothing but the wander state and the horizontal velocity. */
  predicate WanderOnly(m: Mob, r: Mob)
  {
    r == m.(idleTimer := r.idleTimer, isIdle := r.isIdle, wanderTimer := r.wanderTimer,
            wanderDirection := r.wanderDirection, vx := r.vx, vz := r.vz)
  }

  /** `r` lies between `current` and `target` and no further than `step` from `current`. */
  predicate Steered(current: real, r: real, target: real, step: real)
  {
    -step <= r - current <= step && RMin(current, target) <= r <= RMax(current, target)
  }

  lemma ApproachSteers(current: real, target: real, step: real)
    requires step >= 0.0
    ensures Steered(current, Approach(current, target, step), target, step)
  {
    ApproachSpec(current, target, step);
  }

  /** Wandering changes nothing but the wander state and the horizontal velocity. */
  lemma WanderKeepsRest(m: Mob, dt: real, heading: real -> (real, real), d: Draws)
    ensures WanderOnly(m, Wander(m, dt, heading, d))
  {
  }

  /**
   * An idle mob keeps its velocity, counts its idle time down and starts
   * walking exactly when the idle time runs out, with a wander time and
   * direction in the drawn ranges.
   */
  lemma WanderIdle(m: Mob, dt: real, heading: real -> (real, real), d: Draws)
    requires m.isIdle && DrawsInRange(d)
    ensures var r := Wander(m, dt, heading, d);
      r.vx == m.vx && r.vz == m.vz && r.idleTimer == m.idleTimer - dt
      && (r.isIdle <==> m.idleTimer - dt > 0.0)
      && (!r.isIdle ==> 2.0 <= r.wanderTimer <= 4.0 && 0.0 <= r.wanderDirection <= 360.0)
  {
  }

  /** A walking mob whose walk runs out goes idle for an idle time in the drawn range, keeping its velocity. */
  lemma WanderStops(m: Mob, dt: real, heading: real -> (real, real), d: Draws)
    requires !m.isIdle && m.wanderTimer - dt <= 0.0 && DrawsInRange(d)
    ensures var r := Wander(m, dt, heading, d);
      r.isIdle && 2.0 <= r.idleTimer <= 5.0 && r.vx == m.vx && r.vz == m.vz
  {
  }

  /**
   * A walking mob whose walk goes on stays walking, and each horizontal
   * velocity component moves towards 1.5 along its heading by at most the
   * acceleration (10 on the ground, 2 in the air) times `dt`.
   */
  lemma WanderWalks(m: Mob, dt: real, heading: real -> (real, real), d: Draws)
    requires !m.isIdle && m.wanderTimer - dt > 0.0 && dt >= 0.0
    ensures var r := Wander(m, dt, heading, d);
      var step := (if m.onGround then 10.0 else 2.0) * dt;
      !r.isIdle && r.wanderTimer == m.wanderTimer - dt
      && Steered(m.vx, r.vx, heading(m.wanderDirection).0 * WANDER_SPEED, step)
      && Steered(m.vz, r.vz, heading(m.wanderDirection).1 * WANDER_SPEED, step)
  {
    var step := (if m.onGround then 10.0 else 2.0) * dt;
    assert step >= 0.0;
    ApproachSteers(m.vx, heading(m.wanderDirection).0 * WANDER_SPEED, step);
    ApproachSteers(m.vz, heading(m.wanderDirection).1 * WANDER_SPEED, step);
  }

  /** The squared horizontal distance from the mob to (px, pz). */
  function FlatDistSq(m: Mob, px: real, pz: real): (r: real)
    ensures r >= 0.0
  {
    (m.x - px) * (m.x - px) + (m.z - pz) * (m.z - pz)
  }

  /** The horizontal velocity a hostile mob chasing the player aims for: the unit direction times its speed. */
  function ChaseTarget(m: Mob, px: real, pz: real, dist: real, difficulty: int): (real, real)
  {
    var dx, dz := px - m.x, pz - m.z;
    var ux, uz := if dist > 0.0 then dx / dist else dx, if dist > 0.0 then dz / dist else dz;
    var speed := if difficulty == DIFFICULTY_HARD then m.moveSpeed * 1.2 else m.moveSpeed;
    (ux * speed, uz * speed)
  }

  /**
   * `_update_ai`: a hostile mob on Peaceful stops moving horizontally; in
   * Creative it wanders; otherwise, within its detection range of the
   * player it steers towards the player by 10·dt and, within its attack
   * range and with its attack cooldown run out, restarts that cooldown
   * (`_attack_player`); out of range it wanders.  A passive mob wanders.
   * `sqrt` is the square root the distance is taken with.
   */
  function Ai(m: Mob, dt: real, px: real, pz: real, gameMode: string, difficulty: int,
              sqrt: real -> real, heading: real -> (real, real), d: Draws): Mob
  {
    if !m.isHostile then Wander(m, dt, heading, d)
    else if difficulty == DIFFICULTY_PEACEFUL then m.(vx := 0.0, vz := 0.0)
    else if gameMode == Players.CREATIVE then Wander(m, dt, heading, d)
    else
      var dist := sqrt(FlatDistSq(m, px, pz));
      if dist <= m.detectionRange then
        var target := ChaseTarget(m, px, pz, dist, difficulty);
        var chased := m.(vx := Approach(m.vx, target.0, 10.0 * dt), vz := Approach(m.vz, target.1, 10.0 * dt));
        if dist <= m.attackRange && m.attackCooldown <= 0.0 then chased.(attackCooldown := ATTACK_COOLDOWN)
        else chased
      else Wander(m, dt, heading, d)
  }

  /**
   * The gating of the AI: a hostile mob on Peaceful only loses its
   * horizontal velocity; a hostile mob in play within detection range
   * changes only its horizontal velocity, each component by at most 10·dt
   * towards its chase target, and its attack cooldown, which it restarts
   * exactly when within attack range with the cooldown run out; every other
   * mob wanders.
   */
  lemma AiSpec(m: Mob, dt: real, px: real, pz: real, gameMode: string, difficulty: int,
               sqrt: real -> real, heading: real -> (real, real), d: Draws)
    requires dt >= 0.0
    ensures var r := Ai(m, dt, px, pz, gameMode, difficulty, sqrt, heading, d);
      var dist := sqrt(FlatDistSq(m, px, pz));
      var chasing := m.isHostile && difficulty != DIFFICULTY_PEACEFUL && gameMode != Players.CREATIVE && dist <= m.detectionRange;
      (m.isHostile && difficulty == DIFFICULTY_PEACEFUL ==> r == m.(vx := 0.0, vz := 0.0))
      && (chasing ==>
            var target := ChaseTarget(m, px, pz, dist, difficulty);
            r == m.(vx := r.vx, vz := r.vz, attackCooldown := r.attackCooldown)
            && Steered(m.vx, r.vx, target.0, 10.0 * dt) && Steered(m.vz, r.vz, target.1, 10.0 * dt)
            && (r.attackCooldown != m.attackCooldown <==> dist <= m.attackRange && m.attackCooldown <= 0.0 && m.attackCooldown != ATTACK_COOLDOWN)
            && (dist <= m.attackRange && m.attackCooldown <= 0.0 ==> r.attackCooldown == ATTACK_COOLDOWN))
      && (!(m.isHostile && difficulty == DIFFICULTY_PEACEFUL) && !chasing ==> r == Wander(m, dt, heading, d))
  {
    var dist := sqrt(FlatDistSq(m, px, pz));
    if m.isHostile && difficulty != DIFFICULTY_PEACEFUL && gameMode != Players.CREATIVE && dist <= m.detectionRange {
      var target := ChaseTarget(m, px, pz, dist, difficulty);
      ApproachSteers(m.vx, target.0, 10.0 * dt);
      ApproachSteers(m.vz, target.1, 10.0 * dt);
      var chased := m.(vx := Approach(m.vx, target.0, 10.0 * dt), vz := Approach(m.vz, target.1, 10.0 * dt));
      assert Ai(m, dt, px, pz, gameMode, difficulty, sqrt, heading, d)
        == if dist <= m.attackRange && m.attackCooldown <= 0.0 then chased.(attackCooldown := ATTACK_COOLDOWN) else chased;
    }
  }

  /**
   * The chase target is the mob's (difficulty-scaled) speed along the
   * direction to the player: scaled by the distance it is the offset to
   * the player scaled by the speed.
   */
  lemma ChaseTargetAims(m: Mob, px: real, pz: real, dist: real, difficulty: int)
    requires dist > 0.0
    ensures var t := ChaseTarget(m, px, pz, dist, difficulty);
      var speed := if difficulty == DIFFICULTY_HARD then m.moveSpeed * 1.2 else m.moveSpeed;
      t.0 * dist == (px - m.x) * speed && t.1 * dist == (pz - m.z) * speed
  {
    var speed := if difficulty == DIFFICULTY_HARD then m.moveSpeed * 1.2 else m.moveSpeed;
    ScaledQuotient(px - m.x, dist, speed);
    ScaledQuotient(pz - m.z, dist, speed);
  }

  lemma ScaledQuotient(n: real, d: real, s: real)
    requires d > 0.0
    ensures (n / d) * s * d == n * s
  {
    var q := n / d;
    assert q * d == n;
    assert q * s * d == (q * d) * s;
  }

  // ---------------------------------------------------------------------
  // physics

  /** Nothing but the motion, jump and wander state differs between `m` and `r`. */
  predicate MotionOnly(m: Mob, r: Mob)
  {
    r.mobType == m.mobType && r.wanderTimer == m.wanderTimer && r.idleTimer == m.idleTimer && r.isIdle == m.isIdle
    && r.isHostile == m.isHostile && r.attackDamage == m.attackDamage && r.attackRange == m.attackRange
    && r.detectionRange == m.detectionRange && r.attackCooldown == m.attackCooldown && r.moveSpeed == m.moveSpeed
    && r.maxHealth == m.maxHealth && r.health == m.health && r.isDead == m.isDead && r.deathTimer == m.deathTimer
    && r.hitCooldown == m.hitCooldown && r.jumpForce == m.jumpForce && r.sx == m.sx && r.sy == m.sy && r.sz == m.sz
  }

  /**
   * What `_update_physics` does when a horizontal move is blocked, after
   * zeroing that velocity component: a mob on the ground with its jump
   * cooldown run out jumps (vertical velocity `jump_force`, off the ground,
   * jump cooldown 0.5); otherwise a walking mob turns to the drawn
   * direction.
   */
  function Bump(m: Mob, wall: real): (r: Mob)
    ensures MotionOnly(m, r) && r.x == m.x && r.y == m.y && r.z == m.z && r.vx == m.vx && r.vz == m.vz
  {
    if m.onGround && m.jumpCooldown <= 0.0 then m.(vy := m.jumpForce, onGround := false, jumpCooldown := JUMP_COOLDOWN)
    else if !m.isIdle then m.(wanderDirection := wall)
    else m
  }

  /** The X move: a blocked move stops the mob along X and bumps it; the mob moves by the allowed amount. */
  function AfterX(s: Mob, ax: real, dx: real, wall: real): (r: Mob)
    ensures MotionOnly(s, r) && r.x == s.x + ax && r.y == s.y && r.z == s.z
    ensures ax != dx ==> r.vx == 0.0
  {
    var m := if ax != dx then Bump(s.(vx := 0.0), wall) else s;
    m.(x := m.x + ax)
  }

  /**
   * The Y move as written: a blocked move stops the vertical velocity and
   * a blocked downward move lands the mob; a free upward move takes it off
   * the ground; the mob moves by the allowed amount.
   */
  function AfterY(m: Mob, ay: real, dy: real): (r: Mob)
    ensures MotionOnly(m, r) && r.x == m.x && r.y == m.y + ay && r.z == m.z && r.vx == m.vx && r.vz == m.vz
  {
    var r :=
      if ay != dy then m.(onGround := if dy < 0.0 then true else m.onGround, vy := 0.0)
      else if dy > 0.0 then m.(onGround := false)
      else m;
    r.(y := r.y + ay)
  }

  /** The Y move when a jump the X move started this step is left standing. */
  function AfterYKeepingJump(m: Mob, ay: real, dy: real, jumped: bool): (r: Mob)
    ensures MotionOnly(m, r) && r.x == m.x && r.y == m.y + ay && r.z == m.z && r.vx == m.vx && r.vz == m.vz
  {
    if jumped then m.(y := m.y + ay) else AfterY(m, ay, dy)
  }

  /** The Z move: like the X move, along Z. */
  function AfterZ(m: Mob, az: real, dz: real, wall: real): (r: Mob)
    ensures MotionOnly(m, r) && r.x == m.x && r.y == m.y && r.z == m.z + az && r.vx == m.vx
    ensures az != dz ==> r.vz == 0.0
  {
    var r := if az != dz then Bump(m.(vz := 0.0), wall) else m;
    r.(z := r.z + az)
  }

  /** An idle mob on the ground keeps 0.8 of its horizontal velocity. */
  function Friction(m: Mob): (r: Mob)
    ensures MotionOnly(m, r) && r.x == m.x && r.y == m.y && r.z == m.z
    ensures m.vx == 0.0 ==> r.vx == 0.0
    ensures m.vz == 0.0 ==> r.vz == 0.0
  {
    if m.onGround && m.isIdle then m.(vx := m.vx * IDLE_FRICTION, vz := m.vz * IDLE_FRICTION) else m
  }

  /** Whether the X move of a step starts a jump. */
  predicate JumpsAtX(s: Mob, ax: real, dx: real)
  {
    ax != dx && s.onGround && s.jumpCooldown <= 0.0
  }

  /**
   * The moves of `_update_physics` as written, for the displacement
   * (dx, dy, dz) and the allowed moves `a`: X, Y, Z, then friction.
   */
  function MovedAsWritten(s: Mob, a: (real, real, real), dx: real, dy: real, dz: real, wallX: real, wallZ: real): Mob
  {
    Friction(AfterZ(AfterY(AfterX(s, a.0, dx, wallX), a.1, dy), a.2, dz, wallZ))
  }

  /**
   * The moves of `_update_physics` with a jump the X move starts kept
   * through the Y move, as the Z move already keeps its own.
   */
  function Moved(s: Mob, a: (real, real, real), dx: real, dy: real, dz: real, wallX: real, wallZ: real): Mob
  {
    Friction(AfterZ(AfterYKeepingJump(AfterX(s, a.0, dx, wallX), a.1, dy, JumpsAtX(s, a.0, dx)), a.2, dz, wallZ))
  }

  /** Gravity on the vertical velocity over `dt`. */
  function Gravity(s: Mob, dt: real): (r: Mob)
    ensures MotionOnly(s, r) && r.vy == s.vy - GRAVITY * dt && r.x == s.x && r.y == s.y && r.z == s.z
    ensures r.vx == s.vx && r.vz == s.vz
  {
    s.(vy := s.vy - GRAVITY * dt)
  }

  /** The displacement a velocity `v` gives over `dt`. */
  function Scaled(v: real, dt: real): real
  {
    v * dt
  }

  /**
   * `_update_physics`: gravity, then the moves the three sweeps allow for
   * the velocity over `dt`.  Runs the corrected moves `Moved`, which keep
   * a jump the X move starts, not `MovedAsWritten`.
   */
  function Physics(solid: (int, int, int) -> bool, s: Mob, dt: real, wallX: real, wallZ: real): Mob
  {
    Flight(solid, Gravity(s, dt), dt, wallX, wallZ)
  }

  /** The moves the three sweeps allow for the velocity of `f` over `dt` (corrected moves `Moved`). */
  function Flight(solid: (int, int, int) -> bool, f: Mob, dt: real, wallX: real, wallZ: real): Mob
  {
    Fall(solid, f, Scaled(f.vx, dt), Scaled(f.vy, dt), Scaled(f.vz, dt), wallX, wallZ)
  }

  /** The moves the three sweeps allow for the displacement (dx, dy, dz) (corrected moves `Moved`). */
  function Fall(solid: (int, int, int) -> bool, f: Mob, dx: real, dy: real, dz: real, wallX: real, wallZ: real): Mob
  {
    Moved(f, Sweeps(solid, f.Box(), dx, dy, dz), dx, dy, dz, wallX, wallZ)
  }

  /** The moves shift the mob by the allowed amounts and leave its size alone. */
  lemma MovedShifts(s: Mob, a: (real, real, real), dx: real, dy: real, dz: real, wallX: real, wallZ: real)
    ensures var t := Moved(s, a, dx, dy, dz, wallX, wallZ);
      t.x == s.x + a.0 && t.y == s.y + a.1 && t.z == s.z + a.2 && t.sx == s.sx && t.sy == s.sy && t.sz == s.sz
  {
  }

  /** Nothing but the motion, jump and wander state of a mob changes in its moves. */
  lemma MovedOnlyMotion(s: Mob, a: (real, real, real), dx: real, dy: real, dz: real, wallX: real, wallZ: real)
    ensures MotionOnly(s, Moved(s, a, dx, dy, dz, wallX, wallZ))
  {
  }

  /**
   * A mob's box moves by the allowed amounts, and a mob clear of every
   * solid block stays clear whenever the sweeps allow moves that do not
   * point backwards.
   */
  lemma MovedKeepsClear(solid: (int, int, int) -> bool, s: Mob, dx: real, dy: real, dz: real, wallX: real, wallZ: real)
    requires s.sx >= 0.0 && s.sy >= 0.0 && s.sz >= 0.0 && Clear(solid, s.Box())
    requires var a := Sweeps(solid, s.Box(), dx, dy, dz); Toward(dx, a.0) && Toward(dy, a.1) && Toward(dz, a.2)
    ensures var a := Sweeps(solid, s.Box(), dx, dy, dz);
      var t := Moved(s, a, dx, dy, dz, wallX, wallZ);
      t.Box() == s.Box().Moved(a.0, a.1, a.2) && Clear(solid, t.Box())
  {
    var a := Sweeps(solid, s.Box(), dx, dy, dz);
    MovedShifts(s, a, dx, dy, dz, wallX, wallZ);
    SweepsKeepClear(solid, s.Box(), dx, dy, dz);
  }

  /** A blocked horizontal move leaves no velocity along that axis. */
  lemma BlockedStops(s: Mob, a: (real, real, real), dx: real, dy: real, dz: real, wallX: real, wallZ: real)
    ensures var t := Moved(s, a, dx, dy, dz, wallX, wallZ);
      (a.0 != dx ==> t.vx == 0.0) && (a.2 != dz ==> t.vz == 0.0)
  {
  }

  /**
   * Landing: when the downward move is blocked and neither horizontal
   * move is, the mob ends on the ground with no vertical velocity, and its
   * horizontal velocity is kept, times 0.8 if it is idle.
   */
  lemma MovedLands(s: Mob, a: (real, real, real), dx: real, dy: real, dz: real, wallX: real, wallZ: real)
    requires a.0 == dx && a.2 == dz && a.1 != dy && dy < 0.0
    ensures var t := Moved(s, a, dx, dy, dz, wallX, wallZ);
      t.onGround && t.vy == 0.0
      && t.vx == (if s.isIdle then s.vx * IDLE_FRICTION else s.vx)
      && t.vz == (if s.isIdle then s.vz * IDLE_FRICTION else s.vz)
  {
  }

  /**
   * Jumping: a mob on the ground with its jump cooldown run out that is
   * blocked along X or Z while not moving up leaves the step jumping: off
   * the ground, with vertical velocity `jump_force`, jump cooldown 0.5.
   */
  lemma MovedJumps(s: Mob, a: (real, real, real), dx: real, dy: real, dz: real, wallX: real, wallZ: real)
    requires s.onGround && s.jumpCooldown <= 0.0 && dy <= 0.0 && (a.0 != dx || a.2 != dz)
    ensures var t := Moved(s, a, dx, dy, dz, wallX, wallZ);
      t.vy == s.jumpForce && !t.onGround && t.jumpCooldown == JUMP_COOLDOWN
  {
  }

  /**
   * As written, the jump an X wall starts is lost when the downward move
   * is blocked in the same step, which it is for a mob standing on the
   * ground: the mob stays on the ground with no vertical velocity, yet its
   * jump cooldown has been spent.  A wall along Z alone does make it jump.
   */
  lemma XJumpLost(s: Mob, a: (real, real, real), dx: real, dy: real, dz: real, wallX: real, wallZ: real)
    requires s.onGround && s.jumpCooldown <= 0.0 && a.0 != dx && a.1 != dy && dy < 0.0
    ensures var t := MovedAsWritten(s, a, dx, dy, dz, wallX, wallZ);
      t.vy == 0.0 && t.onGround && t.jumpCooldown == JUMP_COOLDOWN
    ensures a.0 == dx && a.2 != dz ==> MovedAsWritten(s, a, dx, dy, dz, wallX, wallZ).vy == s.jumpForce
  {
  }

  /**
   * The moves as written and as corrected agree on every step in which
   * the X move does not start a jump.
   */
  lemma MovedAgrees(s: Mob, a: (real, real, real), dx: real, dy: real, dz: real, wallX: real, wallZ: real)
    requires !JumpsAtX(s, a.0, dx)
    ensures Moved(s, a, dx, dy, dz, wallX, wallZ) == MovedAsWritten(s, a, dx, dy, dz, wallX, wallZ)
  {
  }

  /**
   * `Mob.update`: a dead mob only advances its death timer; a live one
   * counts its cooldowns down, runs its AI, then its physics (with the
   * corrected moves `Moved`).
   */
  function Step(solid: (int, int, int) -> bool, m: Mob, dt: real, px: real, pz: real, gameMode: string, difficulty: int,
                sqrt: real -> real, heading: real -> (real, real), d: Draws): Mob
  {
    if m.isDead then m.(deathTimer := m.deathTimer + dt)
    else Physics(solid, Ai(Cooled(m, dt), dt, px, pz, gameMode, difficulty, sqrt, heading, d), dt, d.wallX, d.wallZ)
  }

  /**
   * A mob's update never changes its type, size, health or life: only
   * damage does.  A dead mob changes nothing but its death timer.
   */
  lemma StepKeepsBody(solid: (int, int, int) -> bool, m: Mob, dt: real, px: real, pz: real, gameMode: string, difficulty: int,
                      sqrt: real -> real, heading: real -> (real, real), d: Draws)
    ensures var t := Step(solid, m, dt, px, pz, gameMode, difficulty, sqrt, heading, d);
      t.mobType == m.mobType && t.isDead == m.isDead && t.health == m.health && t.maxHealth == m.maxHealth
      && t.isHostile == m.isHostile && t.attackRange == m.attackRange && t.attackDamage == m.attackDamage
      && t.sx == m.sx && t.sy == m.sy && t.sz == m.sz
      && (m.isDead ==> t == m.(deathTimer := m.deathTimer + dt))
      && (!m.isDead ==> t.deathTimer == m.deathTimer)
  {
    if !m.isDead {
      var a := Ai(Cooled(m, dt), dt, px, pz, gameMode, difficulty, sqrt, heading, d);
      var f := Gravity(a, dt);
      var dx, dy, dz := Scaled(f.vx, dt), Scaled(f.vy, dt), Scaled(f.vz, dt);
      MovedOnlyMotion(f, Sweeps(solid, f.Box(), dx, dy, dz), dx, dy, dz, d.wallX, d.wallZ);
      WanderKeepsRest(Cooled(m, dt), dt, heading, d);
    }
  }

  /** `_update_physics` on one mob, sweeping with the shared `_sweep_axis` (corrected moves `Moved`). */
  method MobPhysics(solid: (int, int, int) -> bool, s: Mob, dt: real, wallX: real, wallZ: real) returns (t: Mob)
    ensures t == Physics(solid, s, dt, wallX, wallZ)
  {
    var f := Gravity(s, dt);
    t := MobMoves(solid, f, Scaled(f.vx, dt), Scaled(f.vy, dt), Scaled(f.vz, dt), wallX, wallZ);
  }

  /**
   * The three sweeps of `_update_physics`, X, Y, Z in that order, then
   * friction, keeping a jump the X move starts (corrected moves `Moved`).
   */
  method MobMoves(solid: (int, int, int) -> bool, s: Mob, dx: real, dy: real, dz: real, wallX: real, wallZ: real)
    returns (t: Mob)
    ensures t == Fall(solid, s, dx, dy, dz, wallX, wallZ)
  {
    var hit;
    var ax, ay, az;
    ax, hit := SweepAxis(solid, s.Box(), dx, X);
    var jumped := JumpsAtX(s, ax, dx);
    t := AfterX(s, ax, dx, wallX);
    BoxShift(s, t, ax, 0.0, 0.0);
    ay, hit := SweepAxis(solid, t.Box(), dy, Y);
    ghost var t1 := t;
    t := AfterYKeepingJump(t, ay, dy, jumped);
    BoxShift(t1, t, 0.0, ay, 0.0);
    az, hit := SweepAxis(solid, t.Box(), dz, Z);
    t := Friction(AfterZ(t, az, dz, wallZ));
    assert Sweeps(solid, s.Box(), dx, dy, dz) == (ax, ay, az);
  }

  /** A mob moved by (ax, ay, az) with its size kept has its box shifted by the same amounts. */
  lemma BoxShift(m: Mob, r: Mob, ax: real, ay: real, az: real)
    requires MotionOnly(m, r) && r.x == m.x + ax && r.y == m.y + ay && r.z == m.z + az
    ensures ax == 0.0 && az == 0.0 ==> r.Box() == Shift(m.Box(), Y, ay)
    ensures ay == 0.0 && az == 0.0 ==> r.Box() == Shift(m.Box(), X, ax)
  {
  }

  /** `Mob.update` on one mob (corrected moves `Moved`). */
  method MobUpdate(solid: (int, int, int) -> bool, m: Mob, dt: real, px: real, pz: real, gameMode: string, difficulty: int,
                   sqrt: real -> real, heading: real -> (real, real), d: Draws) returns (t: Mob)
    ensures t == Step(solid, m, dt, px, pz, gameMode, difficulty, sqrt, heading, d)
  {
    if m.isDead {
      return m.(deathTimer := m.deathTimer + dt);
    }
    t := Cooled(m, dt);
    t := Ai(t, dt, px, pz, gameMode, difficulty, sqrt, heading, d);
    t := MobPhysics(solid, t, dt, d.wallX, d.wallZ);
  }
}
