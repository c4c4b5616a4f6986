/**
 * Engine constants of voxel/settings.py, and the block/item ids of
 * voxel/chunk.py and voxel/mob_system.py.
 */
module Settings {
  import opened Wrappers

  // Chunk dimensions
  const SX: int := 8
  const SY: int := 128
  const SZ: int := 8
  const CHUNK_VOLUME: int := SX * SY * SZ

  // World streaming
  const RENDER_DISTANCE: int := 4
  const MAX_CHUNK_CREATES_PER_FRAME: int := 1
  const MAX_CHUNK_MESHES_PER_FRAME: int := 1

  // Terrain
  const BASE_HEIGHT: real := 18.0
  const HILL_AMPLITUDE: real := 8.0
  const HILL_FREQ: real := 0.02
  const OCTAVE_COUNT: int := 2
  const OCTAVE_PERSISTENCE: real := 0.5
  const OCTAVE_LACUNARITY: real := 2.0
  const SEMI_FLAT_LARGE_FREQ: real := 0.005
  const SEMI_FLAT_MEDIUM_FREQ: real := 0.015
  const SEMI_FLAT_SMALL_FREQ: real := 0.04
  const SEMI_FLAT_THRESHOLD: real := 0.2
  const SEMI_FLAT_FACTOR: real := 0.23
  const SMALL_MOUNTAIN_FREQ: real := 0.015
  const SMALL_MOUNTAIN_AMP: real := 15.0
  const BIG_MOUNTAIN_FREQ: real := 0.005
  const BIG_MOUNTAIN_AMP: real := 40.0

  // Player
  const PLAYER_WIDTH: real := 0.6
  const PLAYER_DEPTH: real := 0.6
  const PLAYER_HEIGHT: real := 1.8
  const PLAYER_EYE_OFFSET: real := 1.6
  const MOVE_SPEED: real := 6.0
  const ACCEL_GROUND: real := 40.0
  const ACCEL_AIR: real := 10.0
  const FRICTION: real := 20.0
  const GRAVITY: real := 26.0
  const JUMP_SPEED: real := 8.5
  const MOUSE_SENSITIVITY: real := 0.11
  const MAX_PITCH: real := 89.0
  const EPSILON: real := 0.001
  const BREAK_STAGES: int := 10

  // Difficulty levels
  const DIFFICULTY_PEACEFUL: int := 0
  const DIFFICULTY_EASY: int := 1
  const DIFFICULTY_NORMAL: int := 2
  const DIFFICULTY_HARD: int := 3

  // Block ids
  const AIR: int := 0
  const GRASS: int := 1
  const DIRT: int := 2
  const STONE: int := 3
  const BEDROCK: int := 4
  const SAND: int := 5
  const WOOD: int := 6
  const LEAVES: int := 7
  const COBBLESTONE: int := 8
  const BRICK: int := 9
  const SANDSTONE: int := 10
  const CACTUS: int := 11
  const PLANKS: int := 12
  const STICKS: int := 13
  const PICKAXE_WOOD: int := 14
  const PICKAXE_STONE: int := 15
  const PICKAXE_IRON: int := 16
  const AXE_WOOD: int := 17
  const AXE_STONE: int := 18
  const AXE_IRON: int := 19
  const SHOVEL_WOOD: int := 20
  const SHOVEL_STONE: int := 21
  const SHOVEL_IRON: int := 22
  const SWORD_WOOD: int := 23
  const SWORD_STONE: int := 24
  const SWORD_IRON: int := 25
  const CRAFTING_TABLE: int := 26
  const FURNACE: int := 27
  const CHEST: int := 28
  const IRON_INGOT: int := 29
  const JUNGLE_LOG: int := 30
  const JUNGLE_LEAVES: int := 31
  const BIRCH_LOG: int := 32
  const BIRCH_LEAVES: int := 33
  const COAL_ORE: int := 34
  const IRON_ORE: int := 35
  const DIAMOND_ORE: int := 36
  const GOLD_ORE: int := 37
  const JUNGLE_PLANKS: int := 38
  const BIRCH_PLANKS: int := 39
  // Mob drop items (`ITEM_*` of voxel/mob_system.py)
  // Mob drop items
  const RAW_MEAT: int := 100
  const RAW_CHICKEN: int := 101
  const RAW_PORK: int := 102
  const ROTTEN_FLESH: int := 103
  const BONE: int := 104
  const GUNPOWDER: int := 105

  /** The BLOCK_HARDNESS table; bedrock is unbreakable (None). */
  function HardnessTable(b: int): Option<Option<real>>
  {
    match b
    case 1 => Some(Some(0.6))
    case 2 => Some(Some(0.5))
    case 3 => Some(Some(1.5))
    case 4 => Some(None)
    case 5 => Some(Some(0.5))
    case 6 => Some(Some(2.0))
    case 7 => Some(Some(0.3))
    case 8 => Some(Some(2.0))
    case 9 => Some(Some(2.0))
    case 10 => Some(Some(0.8))
    case 11 => Some(Some(0.3))
    case 12 => Some(Some(2.0))
    case 13 => Some(Some(1.0))
    case 14 => Some(Some(2.0))
    case 15 => Some(Some(3.0))
    case 16 => Some(Some(4.0))
    case 17 => Some(Some(2.0))
    case 18 => Some(Some(3.0))
    case 19 => Some(Some(4.0))
    case 20 => Some(Some(2.0))
    case 21 => Some(Some(3.0))
    case 22 => Some(Some(4.0))
    case 23 => Some(Some(2.0))
    case 24 => Some(Some(3.0))
    case 25 => Some(Some(4.0))
    case 26 => Some(Some(2.5))
    case 27 => Some(Some(3.5))
    case 28 => Some(Some(2.5))
    case 29 => Some(Some(5.0))
    case _ => None
  }

  /**
   * `BLOCK_HARDNESS.get(b, 1.0)`: ids missing from the table break
   * like hardness 1.0; None marks an unbreakable block.
   */
  function Hardness(b: int): (h: Option<real>)
    ensures h.None? <==> b == BEDROCK
    ensures h.Some? ==> h.value > 0.0
    ensures HardnessTable(b).None? ==> h == Some(1.0)
  {
    match HardnessTable(b)
    case None => Some(1.0)
    case Some(entry) => entry
  }
}
