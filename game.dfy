/**
 * The hotbar, HUD and clock bookkeeping of the application object in
 * `main.py`: collecting mined blocks, scrolling the selection, using up
 * the selected item when it is eaten or placed, the heart and hunger
 * icons, and the day/night clock.
 */
module Game {
  import opened Wrappers
  import opened Settings
  import opened Util
  import opened Slots
  import opened Chunks
  import opened Worlds
  import opened Players
  import Crafting

  const HOTBAR_SIZE: int := 9
  const INVENTORY_SIZE: int := 27
  const DAY_LENGTH: real := 600.0
  /** Hunger points and saturation restored by one piece of meat. */
  const FOOD_HUNGER: real := 4.0
  const FOOD_SATURATION: real := 2.0

  // Hotbar selection

  /** `_scroll_hotbar`: the selection moves by `direction` and wraps around the hotbar. */
  function Scrolled(selected: int, direction: int): (r: int)
    ensures 0 <= r < HOTBAR_SIZE
    ensures (r - selected - direction) % HOTBAR_SIZE == 0
  {
    (selected + direction) % HOTBAR_SIZE
  }

  /** Scrolling back by the same amount returns to the slot scrolled from. */
  lemma ScrollBack(selected: int, direction: int)
    requires 0 <= selected < HOTBAR_SIZE
    ensures Scrolled(Scrolled(selected, direction), -direction) == selected
  {
    var r := Scrolled(selected, direction);
    var q := (selected + direction) / HOTBAR_SIZE;
    assert r == selected + direction - q * HOTBAR_SIZE;
    assert r - direction == selected + (-q) * HOTBAR_SIZE;
  }

  /** Scrolling by one steps to the neighbouring slot, from the last slot back to the first. */
  lemma ScrollStep(selected: int)
    requires 0 <= selected < HOTBAR_SIZE
    ensures Scrolled(selected, 1) == if selected == HOTBAR_SIZE - 1 then 0 else selected + 1
    ensures Scrolled(selected, -1) == if selected == 0 then HOTBAR_SIZE - 1 else selected - 1
  {
  }

  // Using up the selected item

  /** One item is taken from a stack; a stack left with nothing becomes `None`. */
  function Decremented(s: Slot): (r: Slot)
    requires s.Some?
    ensures r.None? <==> s.value.count <= 1
    ensures r.Some? ==> r.value == Stack(s.value.block, s.value.count - 1)
  {
    if s.value.count - 1 <= 0 then None else Some(Stack(s.value.block, s.value.count - 1))
  }

  /** The hotbar after one item of the stack in slot `i` is used up. */
  function UsedOne(h: seq<Slot>, i: int): (r: seq<Slot>)
    requires 0 <= i < |h| && h[i].Some?
  {
    h[i := Decremented(h[i])]
  }

  /**
   * Using up one item of a stack of at least one lowers the total of its
   * block by exactly one and leaves every other block's total alone.
   */
  lemma UsedOneTotals(h: seq<Slot>, i: int, x: int)
    requires 0 <= i < |h| && h[i].Some? && h[i].value.count >= 1
    ensures |UsedOne(h, i)| == |h|
    ensures Total(UsedOne(h, i), x) == Total(h, x) - (if x == h[i].value.block then 1 else 0)
  {
    TotalUpdate(h, i, Decremented(h[i]), x);
  }

  /** The items eaten on right click: the three kinds of meat. */
  predicate IsFood(b: int)
  {
    b == RAW_MEAT || b == RAW_CHICKEN || b == RAW_PORK
  }

  /** The tools and weapons: pickaxes, axes, shovels and swords of each tier. */
  predicate IsTool(b: int)
  {
    PICKAXE_WOOD <= b <= SWORD_IRON
  }

  /**
   * The placement filter of `_place_block` as written: meat, sticks and
   * the wooden and stone tools are refused, and nothing else is.
   */
  predicate PlaceableAsWritten(b: int)
  {
    !(b in {RAW_MEAT, RAW_CHICKEN, RAW_PORK, STICKS,
            PICKAXE_WOOD, PICKAXE_STONE, AXE_WOOD, AXE_STONE,
            SHOVEL_WOOD, SHOVEL_STONE, SWORD_WOOD, SWORD_STONE})
  }

  /** The filter as written lets every iron tool through, and each would be placed as a block. */
  lemma IronToolsPassFilter()
    ensures PlaceableAsWritten(PICKAXE_IRON) && PlaceableAsWritten(AXE_IRON)
    ensures PlaceableAsWritten(SHOVEL_IRON) && PlaceableAsWritten(SWORD_IRON)
    ensures IsTool(PICKAXE_IRON) && IsTool(AXE_IRON) && IsTool(SHOVEL_IRON) && IsTool(SWORD_IRON)
  {
  }

  /** The filter the comment beside it describes: meat, sticks and every tool are refused. */
  predicate Placeable(b: int)
  {
    !IsFood(b) && b != STICKS && !IsTool(b)
  }

  /**
   * The corrected filter refuses exactly what the written one refuses
   * plus the four iron tools.
   */
  lemma PlaceableCorrectsFilter(b: int)
    ensures Placeable(b) <==> PlaceableAsWritten(b) && b !in {PICKAXE_IRON, AXE_IRON, SHOVEL_IRON, SWORD_IRON}
    ensures Placeable(b) ==> !IsTool(b) && !IsFood(b) && b != STICKS
  {
  }

  // HUD

  datatype Icon = Full | Half | Hidden

  /**
   * `_update_hud`: icon `i` (from 0) of a row of ten stands for the two
   * points (2i, 2i + 2]; the same rule draws hearts from health and
   * drumsticks from hunger.
   */
  function IconAt(value: real, i: int): (r: Icon)
  {
    if value >= ((i + 1) * 2) as real then Full
    else if value >= ((i + 1) * 2 - 1) as real then Half
    else Hidden
  }

  /** Icons fill from the left: an icon that shows means every icon before it is full. */
  lemma IconsFillFromLeft(value: real, i: int, j: int)
    requires i < j
    ensures IconAt(value, j) != Hidden ==> IconAt(value, i) == Full
  {
  }

  /**
   * For a whole number of points h, the first h / 2 icons are full, an
   * odd h adds one half icon right after them, and the rest are hidden.
   */
  lemma IconsOfPoints(h: int, i: int)
    requires 0 <= i
    ensures IconAt(h as real, i) == Full <==> i < h / 2
    ensures IconAt(h as real, i) == Half <==> h % 2 == 1 && i == h / 2
    ensures IconAt(h as real, i) == Hidden <==> i > h / 2 || (i == h / 2 && h % 2 == 0)
  {
  }

  // Day/night clock

  /** `_update`: the clock advances by `dt` and wraps once past a full day. */
  function DayAfter(t: real, dt: real): (r: real)
    ensures 0.0 <= t < DAY_LENGTH && 0.0 <= dt <= DAY_LENGTH ==> 0.0 <= r < DAY_LENGTH
    ensures r == t + dt || r == t + dt - DAY_LENGTH
    ensures t + dt < DAY_LENGTH ==> r == t + dt
  {
    var s := t + dt;
    if s >= DAY_LENGTH then s - DAY_LENGTH else s
  }

  /** The fraction of the day passed, in [0, 1) while the clock stays within a day. */
  function TimeOfDay(t: real): (r: real)
    ensures 0.0 <= t < DAY_LENGTH ==> 0.0 <= r < 1.0
  {
    t / DAY_LENGTH
  }

  /** The application object's hotbar, inventory, selection and clock. */
  class App {
    var hotbar: array<Slot>
    var inventory: array<Slot>
    var selectedHotbarSlot: int
    var gameReady: bool
    var dayTime: real

    /** Nine hotbar slots, 27 inventory slots in a separate list, and a selection on the hotbar. */
    predicate Valid()
      reads this
    {
      hotbar.Length == HOTBAR_SIZE && inventory.Length == INVENTORY_SIZE && hotbar != inventory
      && 0 <= selectedHotbarSlot < HOTBAR_SIZE
    }

    /** A new game: empty hotbar and inventory, first slot selected, clock at 0. */
    constructor()
      ensures Valid() && fresh(hotbar) && fresh(inventory)
      ensures forall k :: 0 <= k < HOTBAR_SIZE ==> hotbar[k].None?
      ensures forall k :: 0 <= k < INVENTORY_SIZE ==> inventory[k].None?
      ensures selectedHotbarSlot == 0 && !gameReady && dayTime == 0.0
    {
      hotbar := new Slot[HOTBAR_SIZE](_ => None);
      inventory := new Slot[INVENTORY_SIZE](_ => None);
      selectedHotbarSlot := 0;
      gameReady := false;
      dayTime := 0.0;
    }

    /**
     * `_add_block_to_hotbar`: bedrock is never collected; anything else
     * goes onto the first stack of its block, else into the first empty
     * slot, and a full hotbar drops it.
     */
    method AddBlockToHotbar(b: int)
      requires Valid()
      modifies hotbar
      ensures hotbar[..] == if b == BEDROCK then old(hotbar[..]) else Added(old(hotbar[..]), b, 1)
    {
      if b == BEDROCK {
        return;
      }
      Crafting.AddToInventory(hotbar, b, 1);
    }

    /** `_scroll_hotbar`: ignored until the game is running. */
    method ScrollHotbar(direction: int)
      requires Valid()
      modifies this`selectedHotbarSlot
      ensures Valid()
      ensures selectedHotbarSlot == if gameReady then Scrolled(old(selectedHotbarSlot), direction) else old(selectedHotbarSlot)
    {
      if !gameReady {
        return;
      }
      selectedHotbarSlot := Scrolled(selectedHotbarSlot, direction);
    }

    /**
     * The eating branch of `_on_right_click`: meat in the selected slot is
     * eaten when the player is hungry, restoring hunger and saturation and,
     * outside Creative, using up one piece. Otherwise nothing changes and
     * the click goes on to the crafting-table and placement checks.
     */
    method EatSelected(player: Player) returns (ate: bool)
      requires Valid()
      modifies hotbar, player`hunger, player`saturation
      ensures var s := old(hotbar[selectedHotbarSlot]);
        ate <==> s.Some? && IsFood(s.value.block) && old(player.hunger) < old(player.maxHunger)
      ensures player.Stats() == if ate then Fed(old(player.Stats()), FOOD_HUNGER, FOOD_SATURATION) else old(player.Stats())
      ensures hotbar[..] == if ate && !player.IsCreative() then UsedOne(old(hotbar[..]), selectedHotbarSlot) else old(hotbar[..])
    {
      var s := hotbar[selectedHotbarSlot];
      if s.None? || !IsFood(s.value.block) || !(player.hunger < player.maxHunger) {
        return false;
      }
      player.AddHunger(FOOD_HUNGER, FOOD_SATURATION);
      if !player.IsCreative() {
        hotbar[selectedHotbarSlot] := Decremented(s);
      }
      return true;
    }

    /**
     * `_place_block` once the ray has found the cell in front of the
     * targeted block: nothing happens when the player stands in that
     * cell, the selected slot is empty or holds an item that is not a
     * block; otherwise the world places the block and, when it accepts
     * and the player is not in Creative, one item is used up.  This runs
     * the corrected filter `Placeable`, not the filter as written
     * (`PlaceableAsWritten`, which lets iron tools through).
     */
    method PlaceSelected(world: World, player: Player, wx: int, wy: int, wz: int, blocked: bool) returns (placed: bool)
      requires Valid() && world.Valid()
      modifies hotbar, world`chunks, world.chunks.Values
      ensures world.Valid()
      ensures var s := old(hotbar[selectedHotbarSlot]);
        placed ==> !blocked && s.Some? && Placeable(s.value.block)
      ensures var s := old(hotbar[selectedHotbarSlot]);
        var key := WorldToChunk(wx, wz);
        var l := LocalCoords(wx, wy, wz);
        placed ==> key in world.View() && Cell(world.View()[key], l.0, wy, l.2) == s.value.block
      ensures var s := old(hotbar[selectedHotbarSlot]);
        blocked || s.None? || !Placeable(s.value.block) ==> world.chunks == old(world.chunks)
      ensures hotbar[..] == if placed && !player.IsCreative() then UsedOne(old(hotbar[..]), selectedHotbarSlot) else old(hotbar[..])
    {
      if blocked {
        return false;
      }
      var s := hotbar[selectedHotbarSlot];
      if s.None? || !Placeable(s.value.block) {
        return false;
      }
      ghost var before;
      placed, before := world.PlaceBlock(wx, wy, wz, s.value.block);
      if placed {
        var key := WorldToChunk(wx, wz);
        var l := LocalCoords(wx, wy, wz);
        ReadAfterWrite(before, l.0, wy, l.2, s.value.block, l.0, wy, l.2);
        if !player.IsCreative() {
          hotbar[selectedHotbarSlot] := Decremented(s);
        }
      }
    }

    /** `_update`: the day/night clock. */
    method AdvanceDayTime(dt: real)
      modifies this`dayTime
      ensures dayTime == DayAfter(old(dayTime), dt)
    {
      dayTime := dayTime + dt;
      if dayTime >= DAY_LENGTH {
        dayTime := dayTime - DAY_LENGTH;
      }
    }
  }
}
