/**
 * The player controller of voxel/player.py: look clamping, the block
 * breaking state machine, the survival stats, the block raycast and the
 * collision-resolving part of the physics step.  The world is seen only
 * through its solidity test `solid_at`, passed in as a function.
 */
module Players {
  import opened Wrappers
  import opened Settings
  import opened Util
  import opened Collision

  /** The source compares `game_mode` against this string. */
  const CREATIVE: string := "Creative"

  /** Distance between two samples of `raycast_block`. */
  const RAY_STEP: real := 0.1

  // ---------------------------------------------------------------------
  // Pure pieces

  /** `get_break_stage` as a function of the breaking progress. */
  function BreakStage(progress: real): (stage: int)
    ensures 0 <= stage <= BREAK_STAGES - 1
    ensures progress <= 0.0 ==> stage == 0
    ensures 0.0 < progress < 1.0 ==> stage as real <= progress * BREAK_STAGES as real < stage as real + 1.0
    ensures progress >= 0.9 ==> stage == BREAK_STAGES - 1
  {
    if progress <= 0.0 then 0
    else
      var stage := Trunc(progress * BREAK_STAGES as real);
      if stage <= BREAK_STAGES - 1 then stage else BREAK_STAGES - 1
  }

  /** The damage of landing after a fall of `fall` blocks: `max(0, int(fall - 3))`. */
  function FallDamage(fall: real): (d: int)
    ensures d >= 0
    ensures d == 0 <==> fall < 4.0
    ensures d > 0 ==> d as real + 3.0 <= fall < d as real + 4.0
  {
    var t := Trunc(fall - 3.0);
    if t >= 0 then t else 0
  }

  /** The vertical velocity after gravity: unchanged while flying. */
  function Fallen(vy: real, flying: bool, dt: real): real
  {
    if flying then vy else vy - GRAVITY * dt
  }

  /** The health after landing from a fall of `fall`: damage only when airborne and outside Creative. */
  function LandingHealth(health: real, wasOnGround: bool, fall: real, creative: bool): (h: real)
    ensures health >= 0.0 ==> 0.0 <= h <= health
    ensures h != health ==> !wasOnGround && !creative && fall >= 4.0
  {
    var damage := FallDamage(fall);
    if !wasOnGround && damage > 0 && !creative then RMax(health - damage as real, 0.0) else health
  }

  /** The fields of the player the vertical step of the physics changes. */
  datatype VerticalState = VerticalState(y: real, vy: real, onGround: bool, fallStartY: real, lastOnGround: bool, health: real)

  /**
   * The vertical step from `s` to `t` after the Y sweep allowed `allowed`
   * of `d`: the state `update` leaves behind, field by field.
   */
  ghost predicate Settled(s: VerticalState, t: VerticalState, d: real, allowed: real, creative: bool)
  {
    var landed := allowed != d && d < 0.0;
    t.y == s.y + allowed
    && t.vy == (if allowed != d then 0.0 else s.vy)
    && t.onGround == (if landed then true else if allowed == d && d > 0.0 then false else s.onGround)
    && t.lastOnGround == t.onGround
    && t.health == (if landed then LandingHealth(s.health, s.onGround, s.fallStartY - t.y, creative) else s.health)
    && (landed ==> t.fallStartY == t.y)
    && (!landed && t.vy > 0.0 ==> t.fallStartY == RMax(s.fallStartY, t.y))
    && (!landed && t.vy <= 0.0 ==> t.fallStartY == if !t.onGround && s.lastOnGround then t.y else s.fallStartY)
  }

  /** The fields of the player the physics step changes. */
  datatype MotionState = MotionState(x: real, z: real, vx: real, vz: real, vert: VerticalState)
  {
    function Box(): Aabb
    {
      PlayerBox(x, vert.y, z)
    }
  }

  /**
   * The physics step from `s` to `t` for the displacement (dx, dy, dz): each
   * axis moves by what its sweep allows, a blocked horizontal axis loses its
   * velocity, and the vertical state settles as `Settled` says.
   */
  ghost predicate Resolved(solid: (int, int, int) -> bool, s: MotionState, t: MotionState, dx: real, dy: real, dz: real,
                           ax: real, ay: real, az: real, creative: bool)
  {
    var b1 := Shift(s.Box(), X, ax);
    ax == SweepOf(solid, s.Box(), dx, X).0
    && ay == SweepOf(solid, b1, dy, Y).0
    && az == SweepOf(solid, Shift(b1, Y, ay), dz, Z).0
    && t.x == s.x + ax && t.z == s.z + az
    && t.vx == (if ax != dx then 0.0 else s.vx) && t.vz == (if az != dz then 0.0 else s.vz)
    && Settled(s.vert, t.vert, dy, ay, creative)
  }

  /**
   * The player's box after the step is the box before it shifted by the
   * allowed amounts, and a player clear of every solid block stays clear,
   * whenever no axis backs off against its direction of motion.
   */
  lemma ResolvedKeepsClear(solid: (int, int, int) -> bool, s: MotionState, t: MotionState, dx: real, dy: real, dz: real,
                           ax: real, ay: real, az: real, creative: bool)
    requires Resolved(solid, s, t, dx, dy, dz, ax, ay, az, creative)
    ensures t.Box() == Shift(Shift(Shift(s.Box(), X, ax), Y, ay), Z, az)
    ensures Clear(solid, s.Box()) && Toward(dx, ax) && Toward(dy, ay) && Toward(dz, az) ==> Clear(solid, t.Box())
  {
    var b1 := Shift(s.Box(), X, ax);
    var b2 := Shift(b1, Y, ay);
    if Clear(solid, s.Box()) && Toward(dx, ax) && Toward(dy, ay) && Toward(dz, az) {
      SweepKeepsClear(solid, s.Box(), dx, X);
      SweepKeepsClear(solid, b1, dy, Y);
      SweepKeepsClear(solid, b2, dz, Z);
    }
  }

  /** The box of a player standing at (px, py, pz): `_player_aabb`. */
  function PlayerBox(px: real, py: real, pz: real): (b: Aabb)
    ensures Proper(b)
    ensures b.maxX - b.minX == PLAYER_WIDTH && b.maxY - b.minY == PLAYER_HEIGHT && b.maxZ - b.minZ == PLAYER_DEPTH
    ensures b.minY == py && (b.minX + b.maxX) / 2.0 == px && (b.minZ + b.maxZ) / 2.0 == pz
  {
    Aabb(px - PLAYER_WIDTH * 0.5, py, pz - PLAYER_DEPTH * 0.5,
         px + PLAYER_WIDTH * 0.5, py + PLAYER_HEIGHT, pz + PLAYER_DEPTH * 0.5)
  }

  /** The cells holding the player's feet and head always intersect the player's box. */
  lemma OccupiedCells(px: real, py: real, pz: real)
    ensures PlayerBox(px, py, pz).Intersects(BlockAabb(px.Floor, py.Floor, pz.Floor))
    ensures PlayerBox(px, py, pz).Intersects(BlockAabb(px.Floor, (py + 1.0).Floor, pz.Floor))
  {
  }

  /** A block wholly below the feet or wholly above the head never intersects the player. */
  lemma ClearAboveAndBelow(px: real, py: real, pz: real, wx: int, wy: int, wz: int)
    requires wy as real + 1.0 <= py || wy as real >= py + PLAYER_HEIGHT
    ensures !PlayerBox(px, py, pz).Intersects(BlockAabb(wx, wy, wz))
  {
  }

  // ---------------------------------------------------------------------
  // Survival stats

  /** The survival fields of a player. */
  datatype Vitals = Vitals(health: real, maxHealth: real, hunger: real, maxHunger: real,
                           saturation: real, regenTimer: real, hungerTimer: real)
  {
    /** Health and hunger within their bounds, saturation non-negative. */
    predicate Sane()
    {
      0.0 <= health <= maxHealth && 0.0 <= hunger <= maxHunger && saturation >= 0.0
    }
  }

  /** `take_damage` outside Creative. */
  function Damaged(v: Vitals, amount: real): Vitals
  {
    var h := v.health - amount;
    v.(health := if h < 0.0 then 0.0 else h)
  }

  /** `heal`. */
  function Healed(v: Vitals, amount: real): Vitals
  {
    var h := v.health + amount;
    v.(health := if h > v.maxHealth then v.maxHealth else h)
  }

  /** `add_hunger`. */
  function Fed(v: Vitals, amount: real, saturation: real): Vitals
  {
    var h := v.hunger + amount;
    v.(hunger := if h > v.maxHunger then v.maxHunger else h, saturation := v.saturation + saturation)
  }

  /** `consume_hunger`: positive saturation absorbs the cost first, hunger pays the rest. */
  function Drained(v: Vitals, amount: real): Vitals
  {
    var (sat, rest) :=
      if v.saturation > 0.0 then
        (if v.saturation - amount < 0.0 then (0.0, -(v.saturation - amount)) else (v.saturation - amount, 0.0))
      else (v.saturation, amount);
    var h := v.hunger - rest;
    v.(saturation := sat, hunger := if rest > 0.0 then (if h < 0.0 then 0.0 else h) else v.hunger)
  }

  /** `respawn`'s effect on the stats. */
  function Respawned(v: Vitals): Vitals
  {
    v.(health := v.maxHealth, hunger := v.maxHunger)
  }

  /** The regeneration and hunger ticks of `update_survival`, before the death check. */
  function Ticked(v: Vitals, dt: real): Vitals
  {
    var v1 :=
      if v.hunger > 16.0 && v.health < v.maxHealth then
        (var t := v.regenTimer + dt;
         if t >= 4.0 then Drained(Healed(v.(regenTimer := t), 1.0), 0.25).(regenTimer := 0.0)
         else v.(regenTimer := t))
      else v;
    var t := v1.hungerTimer + dt;
    if t >= 30.0 then Drained(v1.(hungerTimer := t), 0.5).(hungerTimer := 0.0) else v1.(hungerTimer := t)
  }

  /** `update_survival` outside Creative: the ticks, then a respawn if health has run out. */
  function Survived(v: Vitals, dt: real): Vitals
  {
    var w := Ticked(v, dt);
    if w.health <= 0.0 then Respawned(w) else w
  }

  /** Damage never takes health below zero and never raises it. */
  lemma DamageSpec(v: Vitals, amount: real)
    requires v.Sane() && amount >= 0.0
    ensures var w := Damaged(v, amount);
      w.Sane() && w.health == RMax(v.health - amount, 0.0) && w.health <= v.health
      && w == v.(health := w.health)
  {
  }

  /** Healing never passes max_health and never lowers health. */
  lemma HealSpec(v: Vitals, amount: real)
    requires v.Sane() && amount >= 0.0
    ensures var w := Healed(v, amount);
      w.Sane() && w.health == RMin(v.health + amount, v.maxHealth) && v.health <= w.health
      && w == v.(health := w.health)
  {
  }

  /** Eating never passes max_hunger and adds the saturation given. */
  lemma FedSpec(v: Vitals, amount: real, saturation: real)
    requires v.Sane() && amount >= 0.0 && saturation >= 0.0
    ensures var w := Fed(v, amount, saturation);
      w.Sane() && w.hunger == RMin(v.hunger + amount, v.maxHunger) && w.saturation == v.saturation + saturation
      && w.health == v.health
  {
  }

  /**
   * Draining takes from saturation first and from hunger only what
   * saturation could not cover; neither goes below zero, and exactly
   * min(amount, saturation + hunger) is removed in total.
   */
  lemma DrainSpec(v: Vitals, amount: real)
    requires v.Sane() && amount >= 0.0
    ensures var w := Drained(v, amount);
      w.Sane()
      && w.saturation == RMax(v.saturation - amount, 0.0)
      && w.hunger == RMax(v.hunger - RMax(amount - v.saturation, 0.0), 0.0)
      && (amount <= v.saturation ==> w.hunger == v.hunger)
      && (v.saturation - w.saturation) + (v.hunger - w.hunger) == RMin(amount, v.saturation + v.hunger)
      && w.health == v.health
  {
  }

  /**
   * A survival tick keeps the stats in bounds, never raises hunger, heals by
   * at most one point, and leaves the player alive: running out of health
   * respawns with full health and hunger.
   */
  lemma SurvivedSpec(v: Vitals, dt: real)
    requires v.Sane() && v.maxHealth > 0.0
    ensures var w := Survived(v, dt);
      w.Sane() && w.health > 0.0
      && (Ticked(v, dt).health > 0.0 ==> w.hunger <= v.hunger && w.health <= v.health + 1.0)
      && (Ticked(v, dt).health <= 0.0 ==> w.health == v.maxHealth && w.hunger == v.maxHunger)
  {
    var v1 :=
      if v.hunger > 16.0 && v.health < v.maxHealth then
        (var t := v.regenTimer + dt;
         if t >= 4.0 then Drained(Healed(v.(regenTimer := t), 1.0), 0.25).(regenTimer := 0.0)
         else v.(regenTimer := t))
      else v;
    if v.hunger > 16.0 && v.health < v.maxHealth && v.regenTimer + dt >= 4.0 {
      HealSpec(v.(regenTimer := v.regenTimer + dt), 1.0);
      DrainSpec(Healed(v.(regenTimer := v.regenTimer + dt), 1.0), 0.25);
    }
    assert v1.Sane() && v1.hunger <= v.hunger && v1.health <= v.health + 1.0;
    if v1.hungerTimer + dt >= 30.0 {
      DrainSpec(v1.(hungerTimer := v1.hungerTimer + dt), 0.5);
    }
  }

  // ---------------------------------------------------------------------
  // The ray of raycast_block

  /** The cell of sample `i` of the ray from `eye` along `dir`, taken at distance `i * 0.1`. */
  function RayCell(eye: (real, real, real), dir: (real, real, real), i: int): Cell
  {
    var t := i as real * RAY_STEP;
    ((eye.0 + dir.0 * t).Floor, (eye.1 + dir.1 * t).Floor, (eye.2 + dir.2 * t).Floor)
  }

  function SolidAt(solid: (int, int, int) -> bool, c: Cell): bool
  {
    solid(c.0, c.1, c.2)
  }

  /** The first sample in [i, n) whose cell is solid. */
  function FirstSolid(solid: (int, int, int) -> bool, eye: (real, real, real), dir: (real, real, real), i: int, n: int): Option<int>
    decreases n - i
  {
    if i >= n then None
    else if SolidAt(solid, RayCell(eye, dir, i)) then Some(i)
    else FirstSolid(solid, eye, dir, i + 1, n)
  }

  /** The sample `FirstSolid` finds is solid, lies in range, and every sample before it is not solid. */
  lemma {:induction false} FirstSolidSpec(solid: (int, int, int) -> bool, eye: (real, real, real), dir: (real, real, real), i: int, n: int)
    ensures var r := FirstSolid(solid, eye, dir, i, n);
      (r.None? <==> forall j :: i <= j < n ==> !SolidAt(solid, RayCell(eye, dir, j)))
      && (r.Some? ==> i <= r.value < n && SolidAt(solid, RayCell(eye, dir, r.value))
                      && forall j :: i <= j < r.value ==> !SolidAt(solid, RayCell(eye, dir, j)))
    decreases n - i
  {
    if i < n && !SolidAt(solid, RayCell(eye, dir, i)) {
      FirstSolidSpec(solid, eye, dir, i + 1, n);
    }
  }

  /** What `raycast_block` returns for `n` samples. */
  function RayResult(solid: (int, int, int) -> bool, eye: (real, real, real), dir: (real, real, real), n: int, returnPrevious: bool): Option<Cell>
  {
    match FirstSolid(solid, eye, dir, 0, n)
    case None => None
    case Some(k) => if returnPrevious && k > 0 then Some(RayCell(eye, dir, k - 1)) else Some(RayCell(eye, dir, k))
  }

  /**
   * The ray hits nothing exactly when none of the `n` samples is solid;
   * otherwise it returns the first solid sample's cell, or with
   * `returnPrevious` the non-solid cell of the sample just before it, unless
   * the very first sample is already solid.
   */
  lemma RayResultSpec(solid: (int, int, int) -> bool, eye: (real, real, real), dir: (real, real, real), n: int, returnPrevious: bool)
    ensures RayResult(solid, eye, dir, n, returnPrevious).None? <==> forall j :: 0 <= j < n ==> !SolidAt(solid, RayCell(eye, dir, j))
    ensures forall k :: 0 <= k < n && FirstHit(solid, eye, dir, k) ==>
      RayResult(solid, eye, dir, n, returnPrevious) == Some(if returnPrevious && k > 0 then RayCell(eye, dir, k - 1) else RayCell(eye, dir, k))
  {
    FirstSolidSpec(solid, eye, dir, 0, n);
    forall k | 0 <= k < n && FirstHit(solid, eye, dir, k)
      ensures FirstSolid(solid, eye, dir, 0, n) == Some(k)
    {
      var f := FirstSolid(solid, eye, dir, 0, n);
      assert f.Some?;
      var v := f.value;
      assert v < k ==> !SolidAt(solid, RayCell(eye, dir, v));
      assert v > k ==> !SolidAt(solid, RayCell(eye, dir, k));
    }
  }

  /** Sample `k` is the first solid one. */
  ghost predicate FirstHit(solid: (int, int, int) -> bool, eye: (real, real, real), dir: (real, real, real), k: int)
  {
    SolidAt(solid, RayCell(eye, dir, k)) && forall j :: 0 <= j < k ==> !SolidAt(solid, RayCell(eye, dir, j))
  }

  // ---------------------------------------------------------------------
  // The player

  class Player {
    var gameMode: string
    var yaw: real
    var pitch: real
    var x: real
    var y: real
    var z: real
    var vx: real
    var vy: real
    var vz: real
    var onGround: bool
    var isFlying: bool
    var maxHealth: real
    var health: real
    var maxHunger: real
    var hunger: real
    var saturation: real
    var fallStartY: real
    var lastOnGround: bool
    var regenTimer: real
    var hungerTimer: real
    var breakingBlock: Option<Cell>
    var breakingProgress: real
    var breakingBlockType: Option<int>
    var creativeBrokenThisClick: bool

    function Stats(): Vitals
      reads this`health, this`maxHealth, this`hunger, this`maxHunger, this`saturation, this`regenTimer, this`hungerTimer
    {
      Vitals(health, maxHealth, hunger, maxHunger, saturation, regenTimer, hungerTimer)
    }

    function Box(): (b: Aabb)
      reads this`x, this`y, this`z
      ensures Proper(b)
    {
      PlayerBox(x, y, z)
    }

    predicate IsCreative()
      reads this`gameMode
    {
      gameMode == CREATIVE
    }

    /**
     * A player spawned three blocks above the ground at the origin, at rest,
     * with full health and hunger and nothing being broken.
     * `groundHeight` is the terrain height of column (0, 0).
     */
    constructor(gameMode: string, groundHeight: int)
      ensures this.gameMode == gameMode
      ensures x == 0.0 && y == groundHeight as real + 3.0 && z == 0.0 && vx == 0.0 && vy == 0.0 && vz == 0.0
      ensures yaw == 0.0 && pitch == 0.0 && !onGround && !isFlying
      ensures Stats() == Vitals(20.0, 20.0, 20.0, 20.0, 5.0, 0.0, 0.0) && Stats().Sane()
      ensures fallStartY == y && lastOnGround
      ensures breakingBlock.None? && breakingProgress == 0.0 && breakingBlockType.None? && !creativeBrokenThisClick
    {
      this.gameMode := gameMode;
      yaw, pitch := 0.0, 0.0;
      x, y, z := 0.0, groundHeight as real + 3.0, 0.0;
      vx, vy, vz := 0.0, 0.0, 0.0;
      onGround, isFlying := false, false;
      maxHealth, health := 20.0, 20.0;
      maxHunger, hunger := 20.0, 20.0;
      saturation := 5.0;
      fallStartY := groundHeight as real + 3.0;
      lastOnGround := true;
      regenTimer, hungerTimer := 0.0, 0.0;
      breakingBlock, breakingProgress, breakingBlockType := None, 0.0, None;
      creativeBrokenThisClick := false;
    }

    /** `add_look`: mouse pixels turn the view; the pitch is clamped to +-MAX_PITCH. */
    method AddLook(dxPixels: int, dyPixels: int)
      modifies this`yaw, this`pitch
      ensures yaw == old(yaw) - dxPixels as real * MOUSE_SENSITIVITY
      ensures pitch == Clamp(old(pitch) - dyPixels as real * MOUSE_SENSITIVITY, -MAX_PITCH, MAX_PITCH)
      ensures -MAX_PITCH <= pitch <= MAX_PITCH
    {
      yaw := yaw - dxPixels as real * MOUSE_SENSITIVITY;
      pitch := pitch - dyPixels as real * MOUSE_SENSITIVITY;
      if pitch > MAX_PITCH {
        pitch := MAX_PITCH;
      } else if pitch < -MAX_PITCH {
        pitch := -MAX_PITCH;
      }
    }

    /**
     * `raycast_block` along the unit vector `dir` from the eye, sampling
     * every 0.1 up to `maxDistance`.
     */
    method RaycastBlock(solid: (int, int, int) -> bool, dir: (real, real, real), maxDistance: real, returnPrevious: bool)
      returns (r: Option<Cell>)
      ensures r == RayResult(solid, (x, y + PLAYER_EYE_OFFSET, z), dir, Trunc(maxDistance / RAY_STEP), returnPrevious)
    {
      var eye := (x, y + PLAYER_EYE_OFFSET, z);
      var steps := Trunc(maxDistance / RAY_STEP);
      var prev: Option<Cell> := None;
      var i := 0;
      while i < steps
        invariant 0 <= i && (steps >= 0 ==> i <= steps)
        invariant FirstSolid(solid, eye, dir, 0, steps) == FirstSolid(solid, eye, dir, i, steps)
        invariant prev == if i == 0 then None else Some(RayCell(eye, dir, i - 1))
      {
        var current := RayCell(eye, dir, i);
        if SolidAt(solid, current) {
          if returnPrevious && prev.Some? {
            return prev;
          } else {
            return Some(current);
          }
        }
        prev := Some(current);
        i := i + 1;
      }
      return None;
    }

    /** `intersects_position`: would block (wx, wy, wz) overlap the player? */
    predicate IntersectsPosition(wx: int, wy: int, wz: int)
      reads this`x, this`y, this`z
    {
      Box().Intersects(BlockAabb(wx, wy, wz))
    }

    // ----- breaking

    /** There is a target, its type is known, and that type can be broken. */
    predicate Breakable()
      reads this`breakingBlock, this`breakingBlockType
    {
      breakingBlock.Some? && breakingBlockType.Some? && Hardness(breakingBlockType.value).Some?
    }

    /** `start_breaking`: a new target restarts the progress; the current one keeps it. */
    method StartBreaking(pos: Cell, blockType: int)
      modifies this`breakingBlock, this`breakingProgress, this`breakingBlockType
      ensures breakingBlock == Some(pos)
      ensures old(breakingBlock) == Some(pos) ==>
        breakingProgress == old(breakingProgress) && breakingBlockType == old(breakingBlockType)
      ensures old(breakingBlock) != Some(pos) ==> breakingProgress == 0.0 && breakingBlockType == Some(blockType)
    {
      if breakingBlock != Some(pos) {
        breakingBlock := Some(pos);
        breakingProgress := 0.0;
        breakingBlockType := Some(blockType);
      }
    }

    /**
     * `update_breaking`: nothing happens without a breakable target.  In
     * Creative the block breaks at once, but only once until the click ends;
     * otherwise progress grows by dt / hardness and the block breaks, with the
     * state reset, once it reaches 1.
     */
    method UpdateBreaking(dt: real) returns (broke: bool)
      modifies this`breakingBlock, this`breakingProgress, this`breakingBlockType, this`creativeBrokenThisClick
      ensures !old(Breakable()) ==> !broke && unchanged(this)
      ensures old(breakingBlockType) == Some(BEDROCK) ==> !broke
      ensures old(Breakable()) && IsCreative() ==>
        broke == !old(creativeBrokenThisClick) && creativeBrokenThisClick
        && (broke ==> breakingBlock.None? && breakingProgress == 0.0 && breakingBlockType.None?)
        && (!broke ==> unchanged(this))
      ensures old(Breakable()) && !IsCreative() ==>
        var p := old(breakingProgress) + dt / Hardness(old(breakingBlockType).value).value;
        broke == (p >= 1.0)
        && (broke ==> breakingBlock.None? && breakingProgress == 0.0 && breakingBlockType.None? && !creativeBrokenThisClick)
        && (!broke ==> breakingProgress == p && breakingBlock == old(breakingBlock)
                       && breakingBlockType == old(breakingBlockType) && creativeBrokenThisClick == old(creativeBrokenThisClick))
    {
      if breakingBlock.None? || breakingBlockType.None? {
        return false;
      }
      var hardness := Hardness(breakingBlockType.value);
      if hardness.None? {
        return false;
      }
      if gameMode == CREATIVE {
        if !creativeBrokenThisClick {
          creativeBrokenThisClick := true;
          breakingBlock := None;
          breakingProgress := 0.0;
          breakingBlockType := None;
          return true;
        }
        return false;
      }
      breakingProgress := breakingProgress + dt / hardness.value;
      if breakingProgress >= 1.0 {
        ResetBreaking();
        return true;
      }
      return false;
    }

    /** `reset_breaking`: no target, no progress, and a new click may break again in Creative. */
    method ResetBreaking()
      modifies this`breakingBlock, this`breakingProgress, this`breakingBlockType, this`creativeBrokenThisClick
      ensures breakingBlock.None? && breakingProgress == 0.0 && breakingBlockType.None? && !creativeBrokenThisClick
    {
      breakingBlock := None;
      breakingProgress := 0.0;
      breakingBlockType := None;
      creativeBrokenThisClick := false;
    }

    /** `get_break_stage`. */
    function GetBreakStage(): (stage: int)
      reads this`breakingProgress
      ensures 0 <= stage <= BREAK_STAGES - 1
      ensures breakingProgress <= 0.0 ==> stage == 0
    {
      BreakStage(breakingProgress)
    }

    // ----- survival

    /** `take_damage`: ignored in Creative. */
    method TakeDamage(amount: real)
      modifies this`health
      ensures Stats() == if IsCreative() then old(Stats()) else Damaged(old(Stats()), amount)
    {
      if gameMode == CREATIVE {
        return;
      }
      health := health - amount;
      if health < 0.0 {
        health := 0.0;
      }
    }

    /** `heal`. */
    method Heal(amount: real)
      modifies this`health
      ensures Stats() == Healed(old(Stats()), amount)
    {
      health := health + amount;
      if health > maxHealth {
        health := maxHealth;
      }
    }

    /** `add_hunger`. */
    method AddHunger(amount: real, sat: real)
      modifies this`hunger, this`saturation
      ensures Stats() == Fed(old(Stats()), amount, sat)
    {
      hunger := hunger + amount;
      if hunger > maxHunger {
        hunger := maxHunger;
      }
      saturation := saturation + sat;
    }

    /** `consume_hunger`. */
    method ConsumeHunger(amount: real)
      modifies this`hunger, this`saturation
      ensures Stats() == Drained(old(Stats()), amount)
    {
      var rest := amount;
      if saturation > 0.0 {
        saturation := saturation - amount;
        if saturation < 0.0 {
          rest := -saturation;
          saturation := 0.0;
        } else {
          rest := 0.0;
        }
      }
      if rest > 0.0 {
        hunger := hunger - rest;
        if hunger < 0.0 {
          hunger := 0.0;
        }
      }
    }

    /** `respawn` at the origin, three blocks above `groundHeight`, with full stats. */
    method Respawn(groundHeight: int)
      modifies this`x, this`y, this`z, this`vx, this`vy, this`vz, this`health, this`hunger, this`fallStartY
      ensures x == 0.0 && y == groundHeight as real + 3.0 && z == 0.0 && vx == 0.0 && vy == 0.0 && vz == 0.0
      ensures Stats() == Respawned(old(Stats())) && fallStartY == y
    {
      x, y, z := 0.0, groundHeight as real + 3.0, 0.0;
      vx, vy, vz := 0.0, 0.0, 0.0;
      health := maxHealth;
      hunger := maxHunger;
      fallStartY := y;
    }

    /**
     * `update_survival`: nothing in Creative; otherwise the regeneration and
     * hunger ticks, and a respawn when health has run out.
     */
    method UpdateSurvival(dt: real, groundHeight: int)
      modifies this`health, this`hunger, this`saturation, this`regenTimer, this`hungerTimer
      modifies this`x, this`y, this`z, this`vx, this`vy, this`vz, this`fallStartY
      ensures Stats() == if IsCreative() then old(Stats()) else Survived(old(Stats()), dt)
      ensures !IsCreative() && Ticked(old(Stats()), dt).health <= 0.0 ==>
        x == 0.0 && y == groundHeight as real + 3.0 && z == 0.0 && vx == 0.0 && vy == 0.0 && vz == 0.0 && fallStartY == y
      ensures IsCreative() || Ticked(old(Stats()), dt).health > 0.0 ==>
        x == old(x) && y == old(y) && z == old(z) && vx == old(vx) && vy == old(vy) && vz == old(vz)
        && fallStartY == old(fallStartY)
    {
      if gameMode == CREATIVE {
        return;
      }
      Tick(dt);
      if health <= 0.0 {
        Respawn(groundHeight);
      }
    }

    /** The regeneration and hunger ticks of `update_survival`. */
    method Tick(dt: real)
      modifies this`health, this`hunger, this`saturation, this`regenTimer, this`hungerTimer
      ensures Stats() == Ticked(old(Stats()), dt)
    {
      Regenerate(dt);
      hungerTimer := hungerTimer + dt;
      if hungerTimer >= 30.0 {
        ConsumeHunger(0.5);
        hungerTimer := 0.0;
      }
    }

    /** Regeneration: a well-fed, hurt player heals one point every four seconds, at some hunger. */
    method Regenerate(dt: real)
      modifies this`health, this`hunger, this`saturation, this`regenTimer
      ensures Stats() == if old(hunger) > 16.0 && old(health) < maxHealth then
          (var t := old(regenTimer) + dt;
           if t >= 4.0 then Drained(Healed(old(Stats()).(regenTimer := t), 1.0), 0.25).(regenTimer := 0.0)
           else old(Stats()).(regenTimer := t))
        else old(Stats())
    {
      if hunger > 16.0 && health < maxHealth {
        regenTimer := regenTimer + dt;
        if regenTimer >= 4.0 {
          Heal(1.0);
          ConsumeHunger(0.25);
          regenTimer := 0.0;
        }
      }
    }

    // ----- collision part of update

    /** The X step of the physics update: sweep, stop on contact, move. */
    method MoveX(solid: (int, int, int) -> bool, d: real) returns (allowed: real)
      modifies this`x, this`vx
      ensures allowed == SweepOf(solid, old(Box()), d, X).0
      ensures x == old(x) + allowed && Box() == Shift(old(Box()), X, allowed)
      ensures vx == if allowed != d then 0.0 else old(vx)
    {
      var box := Box();
      var hit;
      allowed, hit := SweepAxis(solid, box, d, X);
      if allowed != d {
        vx := 0.0;
      }
      x := x + allowed;
    }

    /** The Z step of the physics update. */
    method MoveZ(solid: (int, int, int) -> bool, d: real) returns (allowed: real)
      modifies this`z, this`vz
      ensures allowed == SweepOf(solid, old(Box()), d, Z).0
      ensures z == old(z) + allowed && Box() == Shift(old(Box()), Z, allowed)
      ensures vz == if allowed != d then 0.0 else old(vz)
    {
      var box := Box();
      var hit;
      allowed, hit := SweepAxis(solid, box, d, Z);
      if allowed != d {
        vz := 0.0;
      }
      z := z + allowed;
    }

    /** The Y step of the physics update: sweep, then settle the vertical state. */
    method MoveY(solid: (int, int, int) -> bool, d: real) returns (allowed: real)
      modifies this`y, this`vy, this`onGround, this`fallStartY, this`lastOnGround, this`health
      ensures allowed == SweepOf(solid, old(Box()), d, Y).0
      ensures y == old(y) + allowed && Box() == Shift(old(Box()), Y, allowed)
      ensures Settled(old(Vertical()), Vertical(), d, allowed, IsCreative())
    {
      var box := Box();
      var hit;
      allowed, hit := SweepAxis(solid, box, d, Y);
      Settle(d, allowed);
    }

    /** The fields the vertical step changes. */
    function Vertical(): VerticalState
      reads this`y, this`vy, this`onGround, this`fallStartY, this`lastOnGround, this`health
    {
      VerticalState(y, vy, onGround, fallStartY, lastOnGround, health)
    }

    /**
     * After the Y sweep allowed `allowed` of `d`: a blocked downward move is
     * a landing (fall damage if the player was in the air, fall start reset
     * to the landing height); any blocked move stops vertical motion; an
     * unblocked rise leaves the ground; rising keeps track of the peak;
     * walking off an edge restarts the fall from the current height.
     */
    method Settle(d: real, allowed: real)
      modifies this`y, this`vy, this`onGround, this`fallStartY, this`lastOnGround, this`health
      ensures Settled(old(Vertical()), Vertical(), d, allowed, IsCreative())
    {
      if allowed != d {
        if d < 0.0 {
          Land(y + allowed);
        }
        vy := 0.0;
      } else if d > 0.0 {
        onGround := false;
      }
      if vy > 0.0 {
        fallStartY := RMax(fallStartY, y + allowed);
      }
      y := y + allowed;
      if !onGround && vy <= 0.0 && lastOnGround {
        fallStartY := y;
      }
      lastOnGround := onGround;
    }

    /** Landing at height `landingY`: fall damage if the player was airborne, then grounded there. */
    method Land(landingY: real)
      modifies this`onGround, this`fallStartY, this`health
      ensures onGround && fallStartY == landingY
      ensures health == LandingHealth(old(health), old(onGround), old(fallStartY) - landingY, IsCreative())
    {
      if !onGround {
        var fall := fallStartY - landingY;
        if fall > 0.0 {
          var damage := FallDamage(fall);
          if damage > 0 {
            TakeDamage(damage as real);
          }
        }
      }
      onGround := true;
      fallStartY := landingY;
    }

    /** The fields of the player the physics step changes. */
    function Motion(): MotionState
      reads this`x, this`y, this`z, this`vx, this`vy, this`vz
      reads this`onGround, this`fallStartY, this`lastOnGround, this`health
    {
      MotionState(x, z, vx, vz, Vertical())
    }

    /**
     * The collision part of `update`: gravity unless flying, then the
     * velocity integrated over `dt`.
     */
    method Integrate(solid: (int, int, int) -> bool, dt: real)
      returns (dx: real, dy: real, dz: real, ghost before: MotionState, ghost ax: real, ghost ay: real, ghost az: real)
      modifies this`x, this`y, this`z, this`vx, this`vy, this`vz
      modifies this`onGround, this`fallStartY, this`lastOnGround, this`health
      ensures before == old(Motion()).(vert := old(Vertical()).(vy := Fallen(old(vy), old(isFlying), dt)))
      ensures dx == old(vx) * dt && dy == Fallen(old(vy), old(isFlying), dt) * dt && dz == old(vz) * dt
      ensures Resolved(solid, before, Motion(), dx, dy, dz, ax, ay, az, IsCreative())
    {
      if !isFlying {
        vy := vy - GRAVITY * dt;
      }
      before := Motion();
      dx, dy, dz := vx * dt, vy * dt, vz * dt;
      assert dx == old(vx) * dt && dy == Fallen(old(vy), old(isFlying), dt) * dt && dz == old(vz) * dt;
      ax, ay, az := Resolve(solid, dx, dy, dz);
    }

    /**
     * The displacement (dx, dy, dz) applied one axis at a time, X, Y, Z,
     * each axis sweeping the box the previous axes left.
     */
    method Resolve(solid: (int, int, int) -> bool, dx: real, dy: real, dz: real) returns (ghost ax: real, ghost ay: real, ghost az: real)
      modifies this`x, this`y, this`z, this`vx, this`vy, this`vz
      modifies this`onGround, this`fallStartY, this`lastOnGround, this`health
      ensures Resolved(solid, old(Motion()), Motion(), dx, dy, dz, ax, ay, az, IsCreative())
    {
      ax := MoveX(solid, dx);
      ay := MoveY(solid, dy);
      az := MoveZ(solid, dz);
    }
  }
}
