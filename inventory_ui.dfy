/**
 * The two crafting screens of `voxel/inventory_ui.py`: the inventory
 * screen with its 2x2 grid (`InventoryUI`) and the crafting-table screen
 * with its 3x3 grid (`CraftingTableUI`). The two classes carry the same
 * slot logic and differ in the grid size, the recipe list they match
 * against and the controller navigation table, so they are one class
 * here, told apart by its `Layout`.
 *
 * A screen's item state is the app's hotbar and inventory, its own grid,
 * the output slot and the stack held by the cursor. Each handler is
 * specified by a function on a `Screen` value holding all five.
 */
module InventoryScreens {
  import opened Wrappers
  import opened Settings
  import opened Slots
  import opened Crafting
  import opened Game

  datatype Layout = Inventory2x2 | Table3x3

  function GridSize(l: Layout): int
  {
    if l.Inventory2x2? then 4 else 9
  }

  /** The grid, the output, 27 inventory and 9 hotbar slots: 41 and 46 slots. */
  function SlotCount(l: Layout): int
  {
    GridSize(l) + 1 + INVENTORY_SIZE + HOTBAR_SIZE
  }

  /** The `slot_type` of a clickable slot. */
  datatype Place = InventorySlot | HotbarSlot | CraftingSlot | OutputSlot

  datatype Screen = Screen(hotbar: seq<Slot>, inventory: seq<Slot>, grid: seq<Slot>, output: Slot, cursor: Slot)

  /** The index names a slot of that kind; the output slot ignores it. */
  predicate Addressable(s: Screen, p: Place, i: int)
  {
    match p
    case InventorySlot => 0 <= i < |s.inventory|
    case HotbarSlot => 0 <= i < |s.hotbar|
    case CraftingSlot => 0 <= i < |s.grid|
    case OutputSlot => true
  }

  /** `_get_slot_data`. */
  function Get(s: Screen, p: Place, i: int): Slot
    requires Addressable(s, p, i)
  {
    match p
    case InventorySlot => s.inventory[i]
    case HotbarSlot => s.hotbar[i]
    case CraftingSlot => s.grid[i]
    case OutputSlot => s.output
  }

  /** A slot written without re-checking the grid: a stack whose count is changed in place. */
  function Set(s: Screen, p: Place, i: int, v: Slot): (t: Screen)
    requires Addressable(s, p, i)
  {
    match p
    case InventorySlot => s.(inventory := s.inventory[i := v])
    case HotbarSlot => s.(hotbar := s.hotbar[i := v])
    case CraftingSlot => s.(grid := s.grid[i := v])
    case OutputSlot => s.(output := v)
  }

  /** `_set_slot_data`: writing a grid slot also re-runs `_check_crafting`. */
  function Put(s: Screen, rs: seq<Recipe>, p: Place, i: int, v: Slot): (t: Screen)
    requires Addressable(s, p, i)
  {
    var t := Set(s, p, i, v);
    if p.CraftingSlot? then t.(output := Output(t.grid, rs)) else t
  }

  /**
   * Writing a slot and reading it back gives the written value, every
   * other slot keeps its content, and the output changes only when it is
   * the slot written or is recomputed from a written grid.
   */
  lemma GetPut(s: Screen, rs: seq<Recipe>, p: Place, i: int, v: Slot, q: Place, j: int)
    requires Addressable(s, p, i) && Addressable(s, q, j)
    ensures Addressable(Put(s, rs, p, i, v), q, j)
    ensures Get(Put(s, rs, p, i, v), p, i) == v
    ensures !q.OutputSlot? && (q, j) != (p, i) ==> Get(Put(s, rs, p, i, v), q, j) == Get(s, q, j)
    ensures Put(s, rs, p, i, v).cursor == s.cursor
    ensures Put(s, rs, p, i, v).output
      == if p.OutputSlot? then v else if p.CraftingSlot? then Output(s.grid[i := v], rs) else s.output
  {
  }

  // ---------------------------------------------------------------------
  // `_check_crafting`

  /** How many grid slots hold `b`: each slot counts once, whatever its stack size. */
  function SlotsHolding(g: seq<Slot>, b: int): (n: int)
    ensures 0 <= n <= |g|
  {
    if |g| == 0 then 0 else SlotsHolding(g[..|g| - 1], b) + (if Holds(g[|g| - 1], b) then 1 else 0)
  }

  /** A grid with no stack of `b` counts no slot for it. */
  lemma {:induction false} SlotsHoldingAbsent(g: seq<Slot>, b: int)
    ensures SlotsHolding(g, b) == 0 <==> forall k :: 0 <= k < |g| ==> !Holds(g[k], b)
  {
    if |g| > 0 {
      SlotsHoldingAbsent(g[..|g| - 1], b);
      assert forall k :: 0 <= k < |g| - 1 ==> g[..|g| - 1][k] == g[k];
    }
  }

  predicate Occupied(g: seq<Slot>)
  {
    exists k :: 0 <= k < |g| && g[k].Some?
  }

  /**
   * The two checks of `_check_crafting` for one recipe: every block on
   * the grid sits in as many slots as the recipe asks for, and every
   * ingredient sits in as many slots as its count. A recipe's ingredients
   * are a dictionary, so `Need` is its `get(bid, 0)`.
   */
  predicate Matches(r: Recipe, g: seq<Slot>)
  {
    (forall k :: 0 <= k < |g| && g[k].Some? ==> Need(r.ingredients, g[k].value.block) == SlotsHolding(g, g[k].value.block))
    && (forall k :: 0 <= k < |r.ingredients| ==> SlotsHolding(g, r.ingredients[k].block) == r.ingredients[k].count)
  }

  /** A matching grid fills, for every block, as many slots as the recipe needs of it. */
  lemma MatchedNeeds(r: Recipe, g: seq<Slot>, b: int)
    requires DistinctBlocks(r.ingredients) && Matches(r, g)
    ensures SlotsHolding(g, b) == Need(r.ingredients, b)
  {
    var ings := r.ingredients;
    SlotsHoldingAbsent(g, b);
    if SlotsHolding(g, b) == 0 {
      if k :| 0 <= k < |ings| && ings[k].block == b {
        NeedOfIngredient(ings, k);
      } else {
        NeedAbsent(ings, b);
      }
    }
  }

  /** A recipe matches exactly when every block fills as many grid slots as the recipe needs of it. */
  lemma MatchesIff(r: Recipe, g: seq<Slot>)
    requires DistinctBlocks(r.ingredients)
    ensures Matches(r, g) ==> forall b :: SlotsHolding(g, b) == Need(r.ingredients, b)
    ensures (forall b :: SlotsHolding(g, b) == Need(r.ingredients, b)) ==> Matches(r, g)
  {
    var ings := r.ingredients;
    if Matches(r, g) {
      forall b
        ensures SlotsHolding(g, b) == Need(ings, b)
      {
        MatchedNeeds(r, g, b);
      }
    }
    if forall b :: SlotsHolding(g, b) == Need(ings, b) {
      forall k | 0 <= k < |g| && g[k].Some?
        ensures Need(ings, g[k].value.block) == SlotsHolding(g, g[k].value.block)
      {
      }
      forall k | 0 <= k < |ings|
        ensures SlotsHolding(g, ings[k].block) == ings[k].count
      {
        NeedOfIngredient(ings, k);
      }
      assert Matches(r, g);
    }
  }

  /** The index of the first recipe the grid matches, or -1. */
  function FirstMatch(rs: seq<Recipe>, g: seq<Slot>): (i: int)
    ensures -1 <= i < |rs|
    ensures i >= 0 ==> Matches(rs[i], g)
    ensures forall j :: 0 <= j < |rs| && (i < 0 || j < i) ==> !Matches(rs[j], g)
  {
    if |rs| == 0 then -1
    else if Matches(rs[0], g) then 0
    else
      var k := FirstMatch(rs[1..], g);
      if k < 0 then -1 else k + 1
  }

  /**
   * The output `_check_crafting` computes: nothing for an empty grid,
   * else a copy of the output stack of the first recipe the grid matches,
   * else nothing.
   */
  function Output(g: seq<Slot>, rs: seq<Recipe>): (r: Slot)
    ensures r.None? <==> !Occupied(g) || forall j :: 0 <= j < |rs| ==> !Matches(rs[j], g)
    ensures r.Some? ==> exists i :: 0 <= i < |rs| && Matches(rs[i], g) && r.value == rs[i].output
                                    && forall j :: 0 <= j < i ==> !Matches(rs[j], g)
  {
    if !Occupied(g) then None
    else
      var i := FirstMatch(rs, g);
      if i < 0 then None else Some(rs[i].output)
  }

  /** A recipe whose ingredients repeat an earlier recipe's is never the first match. */
  lemma Shadowed(rs: seq<Recipe>, i: int, j: int, g: seq<Slot>)
    requires 0 <= i < j < |rs| && rs[i].ingredients == rs[j].ingredients
    ensures FirstMatch(rs, g) != j
  {
  }

  predicate IsAxe(b: int)
  {
    b == AXE_WOOD || b == AXE_STONE || b == AXE_IRON
  }

  /** Every axe recipe asks for the same ingredients as an earlier recipe. */
  predicate AxesRepeat(rs: seq<Recipe>)
  {
    forall j :: 0 <= j < |rs| && IsAxe(rs[j].output.block) ==>
      exists i :: 0 <= i < j && rs[i].ingredients == rs[j].ingredients
  }

  /** When every axe recipe repeats an earlier recipe, no grid yields an axe. */
  lemma NoAxeOutput(rs: seq<Recipe>, g: seq<Slot>)
    requires AxesRepeat(rs)
    ensures Output(g, rs).Some? ==> !IsAxe(Output(g, rs).value.block)
  {
    var i := FirstMatch(rs, g);
    if Occupied(g) && i >= 0 && IsAxe(rs[i].output.block) {
      var h :| 0 <= h < i && rs[h].ingredients == rs[i].ingredients;
      Shadowed(rs, h, i, g);
    }
  }

  /** The axes of the table are entries 12 to 14 (wood), 22 (stone) and 26 (iron). */
  lemma TableAxeEntries()
    ensures forall j :: 0 <= j < |Recipes()| && IsAxe(Recipes()[j].output.block) ==> 12 <= j <= 14 || j == 22 || j == 26
  {
  }

  /** Each wooden axe entry asks for what the wooden pickaxe entry of the same planks asks for. */
  lemma TableWoodAxePairs()
    ensures Recipes()[9].ingredients == Recipes()[12].ingredients
    ensures Recipes()[10].ingredients == Recipes()[13].ingredients
    ensures Recipes()[11].ingredients == Recipes()[14].ingredients
  {
    var rs := Recipes();
    assert rs[9] == Two(PLANKS, 3, STICKS, 2, PICKAXE_WOOD, 1, true);
    assert rs[12] == Two(PLANKS, 3, STICKS, 2, AXE_WOOD, 1, true);
    assert rs[10] == Two(JUNGLE_PLANKS, 3, STICKS, 2, PICKAXE_WOOD, 1, true);
    assert rs[13] == Two(JUNGLE_PLANKS, 3, STICKS, 2, AXE_WOOD, 1, true);
    assert rs[11] == Two(BIRCH_PLANKS, 3, STICKS, 2, PICKAXE_WOOD, 1, true);
    assert rs[14] == Two(BIRCH_PLANKS, 3, STICKS, 2, AXE_WOOD, 1, true);
  }

  /** The stone and iron axe entries ask for what the pickaxe entry of their tier asks for. */
  lemma TableStoneIronAxePairs()
    ensures Recipes()[21].ingredients == Recipes()[22].ingredients
    ensures Recipes()[25].ingredients == Recipes()[26].ingredients
  {
  }

  /** In the table each axe recipe repeats the ingredients of the pickaxe recipe of its tier. */
  lemma TableAxesRepeat()
    ensures AxesRepeat(Recipes())
  {
    var rs := Recipes();
    TableAxeEntries();
    TableWoodAxePairs();
    TableStoneIronAxePairs();
    forall j | 0 <= j < |rs| && IsAxe(rs[j].output.block)
      ensures exists i :: 0 <= i < j && rs[i].ingredients == rs[j].ingredients
    {
      var i := if j <= 14 then j - 3 else j - 1;
      assert rs[i].ingredients == rs[j].ingredients;
    }
  }

  /**
   * On the crafting table, which matches against the whole table of
   * recipes, no grid ever yields an axe: each axe recipe asks for the same
   * ingredients as the pickaxe recipe listed before it.
   */
  lemma NoAxeFromTable(g: seq<Slot>)
    ensures Output(g, Recipes()).Some? ==> !IsAxe(Output(g, Recipes()).value.block)
  {
    TableAxesRepeat();
    NoAxeOutput(Recipes(), g);
  }

  // ---------------------------------------------------------------------
  // Clicks

  /** How many items of `b` the screen holds outside the output slot. */
  function Amount(s: Screen, b: int): int
  {
    Total(s.hotbar, b) + Total(s.inventory, b) + Total(s.grid, b) + Held(s.cursor, b)
  }

  /** Writing one slot changes the amount by the difference of the two contents. */
  lemma SetAmount(s: Screen, rs: seq<Recipe>, p: Place, i: int, v: Slot, b: int)
    requires Addressable(s, p, i) && !p.OutputSlot?
    ensures Amount(Set(s, p, i, v), b) == Amount(s, b) - Held(Get(s, p, i), b) + Held(v, b)
    ensures Amount(Put(s, rs, p, i, v), b) == Amount(Set(s, p, i, v), b)
  {
    match p
    case InventorySlot => TotalUpdate(s.inventory, i, v, b);
    case HotbarSlot => TotalUpdate(s.hotbar, i, v, b);
    case CraftingSlot => TotalUpdate(s.grid, i, v, b);
  }

  /** A slot that loses one item, emptied when nothing is left. */
  function Lowered(s: Slot): Slot
  {
    if s.Some? then Decremented(s) else None
  }

  /** The grid after `_consume_crafting_ingredients` has taken one item from every stack. */
  function TakeOneEach(g: seq<Slot>): (r: seq<Slot>)
    ensures |r| == |g|
  {
    seq(|g|, k requires 0 <= k < |g| => Lowered(g[k]))
  }

  /** Taking one item from each stack lowers each block's total by the number of slots holding it. */
  lemma {:induction false} TakeOneEachTotals(g: seq<Slot>, b: int)
    requires forall k :: 0 <= k < |g| && g[k].Some? ==> g[k].value.count >= 1
    ensures Total(TakeOneEach(g), b) == Total(g, b) - SlotsHolding(g, b)
  {
    if |g| > 0 {
      var n := |g| - 1;
      var init := g[..n];
      TakeOneEachTotals(init, b);
      assert g == init + [g[n]];
      assert TakeOneEach(g) == TakeOneEach(init) + [Lowered(g[n])];
      TotalAppend(init, [g[n]], b);
      TotalAppend(TakeOneEach(init), [Lowered(g[n])], b);
    }
  }

  /** `_consume_crafting_ingredients`: one item from each grid stack, then a fresh match. */
  function Consume(s: Screen, rs: seq<Recipe>): (t: Screen)
  {
    var g := TakeOneEach(s.grid);
    s.(grid := g, output := Output(g, rs))
  }

  /**
   * A click on the output slot: an empty cursor picks the output stack
   * up, a cursor of the same block adds it to itself, and either way the
   * grid is consumed; anything else does nothing.
   */
  function ClickOutput(s: Screen, rs: seq<Recipe>): (t: Screen)
  {
    if s.output.None? then s
    else if s.cursor.None? then Consume(s.(cursor := s.output, output := None), rs)
    else if s.cursor.value.block == s.output.value.block then
      Consume(s.(cursor := Some(Stack(s.cursor.value.block, s.cursor.value.count + s.output.value.count)), output := None), rs)
    else s
  }

  /**
   * Taking the output turns one item from each occupied grid slot into
   * the output stack on the cursor.
   */
  lemma ClickOutputAmount(s: Screen, rs: seq<Recipe>, b: int)
    requires s.output.Some? && (s.cursor.None? || s.cursor.value.block == s.output.value.block)
    requires forall k :: 0 <= k < |s.grid| && s.grid[k].Some? ==> s.grid[k].value.count >= 1
    ensures Amount(ClickOutput(s, rs), b) == Amount(s, b) + Held(s.output, b) - SlotsHolding(s.grid, b)
    ensures ClickOutput(s, rs).grid == TakeOneEach(s.grid)
    ensures ClickOutput(s, rs).cursor.Some? && ClickOutput(s, rs).cursor.value.block == s.output.value.block
  {
    TakeOneEachTotals(s.grid, b);
  }

  /**
   * `_on_slot_click`: on a normal slot an empty cursor picks the stack
   * up, a held stack is put down into an empty slot, added to a stack of
   * the same block, or swapped with a stack of another block.
   */
  function LeftClick(s: Screen, rs: seq<Recipe>, p: Place, i: int): (t: Screen)
    requires Addressable(s, p, i)
  {
    if p.OutputSlot? then ClickOutput(s, rs)
    else
      var c := Get(s, p, i);
      if s.cursor.None? then
        if c.None? then s else Put(s, rs, p, i, None).(cursor := c)
      else if c.None? then Put(s, rs, p, i, s.cursor).(cursor := None)
      else if s.cursor.value.block == c.value.block then
        Set(s, p, i, Some(Stack(c.value.block, c.value.count + s.cursor.value.count))).(cursor := None)
      else Put(s, rs, p, i, s.cursor).(cursor := c)
  }

  /** A left click on a normal slot keeps every block's amount. */
  lemma LeftClickKeepsAmounts(s: Screen, rs: seq<Recipe>, p: Place, i: int, b: int)
    requires Addressable(s, p, i) && !p.OutputSlot?
    ensures Amount(LeftClick(s, rs, p, i), b) == Amount(s, b)
  {
    var c := Get(s, p, i);
    if s.cursor.None? {
      if c.Some? {
        SetAmount(s, rs, p, i, None, b);
      }
    } else if c.None? {
      SetAmount(s, rs, p, i, s.cursor, b);
    } else if s.cursor.value.block == c.value.block {
      SetAmount(s, rs, p, i, Some(Stack(c.value.block, c.value.count + s.cursor.value.count)), b);
    } else {
      SetAmount(s, rs, p, i, s.cursor, b);
    }
  }

  /**
   * `_on_slot_right_click`: an empty cursor takes the larger half of a
   * stack; a held stack drops one item into an empty slot or onto a stack
   * of the same block; the output slot is clicked as with the left button.
   */
  function RightClick(s: Screen, rs: seq<Recipe>, p: Place, i: int): (t: Screen)
    requires Addressable(s, p, i)
  {
    if p.OutputSlot? then ClickOutput(s, rs)
    else
      var c := Get(s, p, i);
      if s.cursor.None? then
        if c.None? then s
        else
          var take := (c.value.count + 1) / 2;
          var leave := c.value.count - take;
          var t := if leave > 0 then Set(s, p, i, Some(Stack(c.value.block, leave))) else Put(s, rs, p, i, None);
          t.(cursor := Some(Stack(c.value.block, take)))
      else if c.None? then
        Put(s, rs, p, i, Some(Stack(s.cursor.value.block, 1))).(cursor := Decremented(s.cursor))
      else if c.value.block == s.cursor.value.block then
        Set(s, p, i, Some(Stack(c.value.block, c.value.count + 1))).(cursor := Decremented(s.cursor))
      else s
  }

  /**
   * Splitting a stack of n with an empty cursor puts the rounded-up half
   * on the cursor, leaves the rounded-down half (or nothing) in the slot,
   * and keeps every amount.
   */
  lemma RightClickSplits(s: Screen, rs: seq<Recipe>, p: Place, i: int, b: int)
    requires Addressable(s, p, i) && !p.OutputSlot? && s.cursor.None? && Get(s, p, i).Some? && Get(s, p, i).value.count >= 0
    ensures var c := Get(s, p, i).value;
      var t := RightClick(s, rs, p, i);
      Addressable(t, p, i)
      && t.cursor == Some(Stack(c.block, (c.count + 1) / 2))
      && Get(t, p, i) == (if c.count / 2 > 0 then Some(Stack(c.block, c.count / 2)) else None)
      && Amount(t, b) == Amount(s, b)
  {
    var c := Get(s, p, i).value;
    var take := (c.count + 1) / 2;
    var leave := c.count - take;
    assert leave == c.count / 2;
    if leave > 0 {
      SetAmount(s, rs, p, i, Some(Stack(c.block, leave)), b);
    } else {
      var t0 := Put(s, rs, p, i, None);
      SetAmount(s, rs, p, i, None, b);
      GetPut(s, rs, p, i, None, p, i);
      assert RightClick(s, rs, p, i) == t0.(cursor := Some(Stack(c.block, take)));
      assert Get(t0.(cursor := Some(Stack(c.block, take))), p, i) == Get(t0, p, i);
      assert t0.cursor.None?;
    }
  }

  /**
   * Dropping one item from a held stack into an empty slot or onto a
   * stack of the same block moves exactly one item and keeps every amount.
   */
  lemma RightClickPlacesOne(s: Screen, rs: seq<Recipe>, p: Place, i: int, b: int)
    requires Addressable(s, p, i) && !p.OutputSlot? && s.cursor.Some? && s.cursor.value.count >= 1
    requires Get(s, p, i).None? || Get(s, p, i).value.block == s.cursor.value.block
    ensures var t := RightClick(s, rs, p, i);
      Addressable(t, p, i)
      && Held(Get(t, p, i), s.cursor.value.block) == Held(Get(s, p, i), s.cursor.value.block) + 1
      && t.cursor == Decremented(s.cursor)
      && Amount(t, b) == Amount(s, b)
  {
    var c := Get(s, p, i);
    if c.None? {
      SetAmount(s, rs, p, i, Some(Stack(s.cursor.value.block, 1)), b);
    } else {
      var v := Some(Stack(c.value.block, c.value.count + 1));
      SetAmount(s, rs, p, i, v, b);
      var t := RightClick(s, rs, p, i);
      assert t == Set(s, p, i, v).(cursor := Decremented(s.cursor));
      assert Get(t, p, i) == v;
    }
  }

  // ---------------------------------------------------------------------
  // Returning items: `_distribute_item` and `close`

  /**
   * `_distribute_item`: onto the first hotbar stack of the block, else
   * the first inventory stack, else into the first empty hotbar slot,
   * else the first empty inventory slot, else the item is lost.
   */
  function Distribute(s: Screen, item: Stack): (t: Screen)
  {
    var i := FindBlock(s.hotbar, item.block);
    if i >= 0 then s.(hotbar := s.hotbar[i := Some(Stack(item.block, s.hotbar[i].value.count + item.count))])
    else
      var j := FindBlock(s.inventory, item.block);
      if j >= 0 then s.(inventory := s.inventory[j := Some(Stack(item.block, s.inventory[j].value.count + item.count))])
      else
        var e := FindEmpty(s.hotbar);
        if e >= 0 then s.(hotbar := s.hotbar[e := Some(item)])
        else
          var f := FindEmpty(s.inventory);
          if f >= 0 then s.(inventory := s.inventory[f := Some(item)]) else s
  }

  /** Items of `b` across the hotbar and the inventory. */
  function Stored(s: Screen, b: int): int
  {
    Total(s.hotbar, b) + Total(s.inventory, b)
  }

  /** The hotbar or the inventory already has a stack of `b`. */
  predicate HasStackOf(s: Screen, b: int)
  {
    FindBlock(s.hotbar, b) >= 0 || FindBlock(s.inventory, b) >= 0
  }

  /**
   * Distributing stores the whole item when the hotbar or the inventory
   * has a stack of its block or an empty slot, and nothing otherwise;
   * no other block's total moves, no stack loses its block, and the grid,
   * output and cursor are untouched.
   */
  lemma DistributeTotals(s: Screen, item: Stack, x: int)
    ensures var t := Distribute(s, item);
      Stored(t, x) == Stored(s, x) + (if x == item.block && (HasRoom(s.hotbar, x) || HasRoom(s.inventory, x)) then item.count else 0)
      && |t.hotbar| == |s.hotbar| && |t.inventory| == |s.inventory|
      && (forall k :: 0 <= k < |s.hotbar| && Holds(s.hotbar[k], x) ==> Holds(t.hotbar[k], x))
      && (forall k :: 0 <= k < |s.inventory| && Holds(s.inventory[k], x) ==> Holds(t.inventory[k], x))
      && t.grid == s.grid && t.output == s.output && t.cursor == s.cursor
  {
    var b := item.block;
    var i := FindBlock(s.hotbar, b);
    if i >= 0 {
      TotalUpdate(s.hotbar, i, Some(Stack(b, s.hotbar[i].value.count + item.count)), x);
    } else {
      var j := FindBlock(s.inventory, b);
      if j >= 0 {
        TotalUpdate(s.inventory, j, Some(Stack(b, s.inventory[j].value.count + item.count)), x);
      } else {
        var e := FindEmpty(s.hotbar);
        if e >= 0 {
          TotalUpdate(s.hotbar, e, Some(item), x);
        } else {
          var f := FindEmpty(s.inventory);
          if f >= 0 {
            TotalUpdate(s.inventory, f, Some(item), x);
          }
        }
      }
    }
  }

  /** Stacking comes first: an inventory stack of the block is preferred to an empty hotbar slot. */
  lemma DistributePrefersStacks(s: Screen, item: Stack)
    requires FindBlock(s.hotbar, item.block) < 0 && FindBlock(s.inventory, item.block) >= 0
    ensures Distribute(s, item).hotbar == s.hotbar
    ensures Stored(Distribute(s, item), item.block) == Stored(s, item.block) + item.count
  {
    DistributeTotals(s, item, item.block);
  }

  /** One returned slot: a stack is distributed, an empty slot returns nothing. */
  function Return(s: Screen, x: Slot): Screen
  {
    if x.Some? then Distribute(s, x.value) else s
  }

  /** Where a distributed item goes depends on the hotbar and the inventory only. */
  lemma DistributeStoresOnly(s: Screen, t: Screen, item: Stack)
    requires s.hotbar == t.hotbar && s.inventory == t.inventory
    ensures Distribute(s, item).hotbar == Distribute(t, item).hotbar
    ensures Distribute(s, item).inventory == Distribute(t, item).inventory
  {
  }

  /** The slots returned one after another, in order. */
  function ReturnAll(s: Screen, items: seq<Slot>): Screen
  {
    if |items| == 0 then s else Return(ReturnAll(s, items[..|items| - 1]), items[|items| - 1])
  }

  /**
   * Returning items to a hotbar and inventory that already hold a stack
   * of `x` loses no item of `x`, and such a stack stays.
   */
  lemma {:induction false} ReturnAllTotals(s: Screen, items: seq<Slot>, x: int)
    requires HasStackOf(s, x)
    ensures Stored(ReturnAll(s, items), x) == Stored(s, x) + Total(items, x)
    ensures HasStackOf(ReturnAll(s, items), x)
    ensures ReturnAll(s, items).grid == s.grid && ReturnAll(s, items).cursor == s.cursor
  {
    if |items| > 0 {
      var n := |items| - 1;
      var init := items[..n];
      ReturnAllTotals(s, init, x);
      var r := ReturnAll(s, init);
      assert items == init + [items[n]];
      TotalAppend(init, [items[n]], x);
      if items[n].Some? {
        DistributeTotals(r, items[n].value, x);
        var t := Distribute(r, items[n].value);
        var i := FindBlock(r.hotbar, x);
        if i >= 0 {
          assert Holds(t.hotbar[i], x);
        } else {
          var j := FindBlock(r.inventory, x);
          assert Holds(t.inventory[j], x);
        }
      }
    }
  }

  /**
   * `close`: the cursor stack and then every grid stack, in slot order,
   * go back through `_distribute_item`; the grid, the output and the
   * cursor end up empty.
   */
  function Closed(s: Screen): (t: Screen)
    ensures t.cursor.None? && t.output.None? && |t.grid| == |s.grid|
    ensures forall k :: 0 <= k < |t.grid| ==> t.grid[k].None?
  {
    var r := ReturnAll(Return(s.(cursor := None), s.cursor), s.grid);
    r.(grid := seq(|s.grid|, _ => None), output := None, cursor := None)
  }

  /** Closing returns every item of a block the hotbar or inventory already stacks. */
  lemma ClosedKeepsStackedItems(s: Screen, x: int)
    requires HasStackOf(s, x)
    ensures Stored(Closed(s), x) == Stored(s, x) + Held(s.cursor, x) + Total(s.grid, x)
  {
    var s0 := s.(cursor := None);
    var s1 := Return(s0, s.cursor);
    if s.cursor.Some? {
      DistributeTotals(s0, s.cursor.value, x);
      var i := FindBlock(s0.hotbar, x);
      if i >= 0 {
        assert Holds(s1.hotbar[i], x);
      } else {
        var j := FindBlock(s0.inventory, x);
        assert Holds(s1.inventory[j], x);
      }
    }
    ReturnAllTotals(s1, s.grid, x);
  }

  // ---------------------------------------------------------------------
  // Controller navigation

  datatype Direction = Up | Down | Left | Right

  /**
   * The move table of `InventoryUI._on_nav`: 0-3 grid, 4 output, 5-31
   * inventory rows, 32-40 hotbar.
   */
  function NavInventory(c: int, d: Direction): int
  {
    match d
    case Up =>
      if 32 <= c <= 40 then c - 9
      else if 14 <= c <= 31 then c - 9
      else if 5 <= c <= 13 then (if c <= 8 then 2 else 4)
      else if 0 <= c <= 3 then (if c >= 2 then c - 2 else c)
      else c
    case Down =>
      if 0 <= c <= 1 then c + 2
      else if 2 <= c <= 3 then 5
      else if c == 4 then 10
      else if 5 <= c <= 22 then c + 9
      else if 23 <= c <= 31 then c + 9
      else c
    case Left =>
      if c == 4 then 1
      else if c == 0 || c == 2 then c
      else if c == 1 || c == 3 then c - 1
      else if c == 5 || c == 14 || c == 23 || c == 32 then c
      else c - 1
    case Right =>
      if c == 0 || c == 2 then c + 1
      else if c == 1 || c == 3 then 4
      else if c == 13 || c == 22 || c == 31 || c == 40 then c
      else if c == 4 then c
      else c + 1
  }

  /**
   * The move table of `CraftingTableUI._on_nav`: 0-8 grid, 9 output,
   * 10-36 inventory rows, 37-45 hotbar.
   */
  function NavTable(c: int, d: Direction): int
  {
    match d
    case Up =>
      if 37 <= c <= 45 then c - 9
      else if 19 <= c <= 36 then c - 9
      else if 10 <= c <= 18 then (if c <= 12 then 6 else 9)
      else if 3 <= c <= 8 then c - 3
      else c
    case Down =>
      if 0 <= c <= 5 then c + 3
      else if 6 <= c <= 8 then 10
      else if c == 9 then 15
      else if 10 <= c <= 27 then c + 9
      else if 28 <= c <= 36 then c + 9
      else c
    case Left =>
      if c == 0 || c == 3 || c == 6 || c == 10 || c == 19 || c == 28 || c == 37 then c
      else if c == 9 then 2
      else c - 1
    case Right =>
      if c == 2 || c == 5 || c == 8 then 9
      else if c == 18 || c == 27 || c == 36 || c == 45 then c
      else if c == 9 then c
      else c + 1
  }

  function Nav(l: Layout, c: int, d: Direction): int
  {
    if l.Inventory2x2? then NavInventory(c, d) else NavTable(c, d)
  }

  /** `_on_nav`: the move, then the clamp to the screen's slots. */
  function Navigated(l: Layout, c: int, d: Direction): (r: int)
    ensures 0 <= r < SlotCount(l)
    ensures 0 <= Nav(l, c, d) < SlotCount(l) ==> r == Nav(l, c, d)
  {
    var n := Nav(l, c, d);
    var r := if n < 0 then 0 else n;
    if r >= SlotCount(l) then SlotCount(l) - 1 else r
  }

  /** From any slot of the screen the move table already lands on a slot, so the clamp never acts. */
  lemma NavStaysOnScreen(l: Layout, c: int, d: Direction)
    requires 0 <= c < SlotCount(l)
    ensures 0 <= Nav(l, c, d) < SlotCount(l)
    ensures Navigated(l, c, d) == Nav(l, c, d)
  {
  }

  /** Up then down returns to the same slot from the lower two inventory rows and the hotbar. */
  lemma NavUpDown(l: Layout, c: int)
    requires GridSize(l) + 1 + HOTBAR_SIZE <= c < SlotCount(l)
    ensures Navigated(l, Navigated(l, c, Up), Down) == c
  {
  }

  /** Right then left returns to the same slot inside an inventory or hotbar row. */
  lemma NavRightLeft(l: Layout, c: int)
    requires GridSize(l) + 1 <= c < SlotCount(l) && (c - GridSize(l) - 1) % HOTBAR_SIZE != HOTBAR_SIZE - 1
    ensures Navigated(l, Navigated(l, c, Right), Left) == c
  {
  }

  // ---------------------------------------------------------------------
  // The screen object

  class CraftingScreen {
    const app: App
    const system: CraftingSystem
    const layout: Layout
    const grid: array<Slot>
    var output: Slot
    var cursor: Slot
    var isOpen: bool
    var selected: int

    /** The recipes matched against: the 2x2 ones on the inventory screen, all of them on the table. */
    function Recipes(): seq<Recipe>
    {
      if layout.Inventory2x2? then system.recipes2x2 else system.recipes
    }

    predicate Valid()
      reads this, app
    {
      app.Valid() && system.Valid() && grid.Length == GridSize(layout)
      && grid != app.hotbar && grid != app.inventory
    }

    function State(): Screen
      reads this, app, app.hotbar, app.inventory, grid
    {
      Screen(app.hotbar[..], app.inventory[..], grid[..], output, cursor)
    }

    /** `__init__`: an empty grid, no output, nothing held, closed, first slot selected. */
    constructor(app: App, system: CraftingSystem, layout: Layout)
      requires app.Valid() && system.Valid()
      ensures Valid() && this.app == app && this.system == system && this.layout == layout && fresh(grid)
      ensures forall k :: 0 <= k < grid.Length ==> grid[k].None?
      ensures output.None? && cursor.None? && !isOpen && selected == 0
    {
      this.app := app;
      this.system := system;
      this.layout := layout;
      grid := new Slot[GridSize(layout)](_ => None);
      output := None;
      cursor := None;
      isOpen := false;
      selected := 0;
    }

    /** The 2x2 screen only ever offers recipes that need no crafting table. */
    lemma InventoryOutputNeedsNoTable(g: seq<Slot>)
      requires Valid() && layout.Inventory2x2?
      ensures Output(g, Recipes()).Some? ==>
        exists r :: r in system.recipes && !r.requires3x3 && Matches(r, g) && r.output == Output(g, Recipes()).value
    {
      system.Partition();
      var rs := Recipes();
      if Output(g, rs).Some? {
        var i :| 0 <= i < |rs| && Matches(rs[i], g) && Output(g, rs).value == rs[i].output;
        assert rs[i] in system.recipes2x2;
      }
    }

    /** `open`: the selection starts on the first inventory slot. */
    method Open()
      modifies this`isOpen, this`selected
      ensures isOpen && selected == GridSize(layout) + 1
    {
      isOpen := true;
      selected := GridSize(layout) + 1;
    }

    /** A slot written in place, with no re-check of the grid. */
    method WriteSlot(p: Place, i: int, v: Slot)
      requires Valid() && Addressable(State(), p, i)
      modifies app.hotbar, app.inventory, grid, this`output
      ensures State() == Set(old(State()), p, i, v)
    {
      match p
      case InventorySlot => app.inventory[i] := v;
      case HotbarSlot => app.hotbar[i] := v;
      case CraftingSlot => grid[i] := v;
      case OutputSlot => output := v;
    }

    /** `_set_slot_data`. */
    method SetSlotData(p: Place, i: int, v: Slot)
      requires Valid() && Addressable(State(), p, i)
      modifies app.hotbar, app.inventory, grid, this`output
      ensures State() == Put(old(State()), Recipes(), p, i, v)
    {
      WriteSlot(p, i, v);
      if p.CraftingSlot? {
        CheckCrafting();
      }
    }

    /** The counting loop of `_check_crafting`: slots per block, in first-seen order, and the occupied slots. */
    method CountGrid() returns (counts: map<int, int>, order: seq<int>, nonEmpty: int)
      ensures forall b :: b in counts <==> SlotsHolding(grid[..], b) > 0
      ensures forall b :: b in counts ==> counts[b] == SlotsHolding(grid[..], b)
      ensures forall b :: b in counts <==> b in order
      ensures nonEmpty == 0 <==> !Occupied(grid[..])
    {
      counts, order, nonEmpty := map[], [], 0;
      var i := 0;
      while i < grid.Length
        invariant 0 <= i <= grid.Length && nonEmpty >= 0
        invariant forall b :: b in counts <==> SlotsHolding(grid[..i], b) > 0
        invariant forall b :: b in counts ==> counts[b] == SlotsHolding(grid[..i], b)
        invariant forall b :: b in counts <==> b in order
        invariant nonEmpty == 0 <==> forall k :: 0 <= k < i ==> grid[k].None?
      {
        assert grid[..i + 1][..i] == grid[..i];
        var slot := grid[i];
        if slot.Some? {
          var b := slot.value.block;
          if b !in counts {
            order := order + [b];
          }
          counts := counts[b := (if b in counts then counts[b] else 0) + 1];
          nonEmpty := nonEmpty + 1;
        }
        i := i + 1;
      }
      assert grid[..i] == grid[..];
    }

    /** `_check_crafting`, with the per-block slot counts gathered into a map first. */
    method CheckCrafting()
      requires Valid()
      modifies this`output
      ensures output == Output(grid[..], Recipes())
    {
      var counts, order, nonEmpty := CountGrid();
      ghost var g := grid[..];
      if nonEmpty == 0 {
        output := None;
        return;
      }
      var rs := Recipes();
      var j := 0;
      while j < |rs|
        invariant 0 <= j <= |rs|
        invariant forall m :: 0 <= m < j ==> !Matches(rs[m], g)
      {
        var ok := RecipeMatches(rs[j], counts, order, g);
        if ok {
          assert FirstMatch(rs, g) == j;
          output := Some(rs[j].output);
          return;
        }
        j := j + 1;
      }
      assert FirstMatch(rs, g) == -1;
      output := None;
    }

    /**
     * The two loops of `_check_crafting` for one recipe, over the gathered
     * counts; `order` lists the counted blocks in the dictionary's order.
     */
    method RecipeMatches(r: Recipe, counts: map<int, int>, order: seq<int>, ghost g: seq<Slot>) returns (ok: bool)
      requires forall b :: b in counts <==> SlotsHolding(g, b) > 0
      requires forall b :: b in counts ==> counts[b] == SlotsHolding(g, b)
      requires forall b :: b in counts <==> b in order
      ensures ok == Matches(r, g)
    {
      var m := 0;
      while m < |order|
        invariant 0 <= m <= |order|
        invariant forall q :: 0 <= q < m ==> Need(r.ingredients, order[q]) == counts[order[q]]
      {
        var b := order[m];
        if Need(r.ingredients, b) != counts[b] {
          SlotsHoldingAbsent(g, b);
          return false;
        }
        m := m + 1;
      }
      var ings := r.ingredients;
      var k := 0;
      while k < |ings|
        invariant 0 <= k <= |ings|
        invariant forall m :: 0 <= m < k ==> SlotsHolding(g, ings[m].block) == ings[m].count
      {
        var have := if ings[k].block in counts then counts[ings[k].block] else 0;
        if have != ings[k].count {
          return false;
        }
        k := k + 1;
      }
      forall m | 0 <= m < |g| && g[m].Some?
        ensures Need(ings, g[m].value.block) == SlotsHolding(g, g[m].value.block)
      {
        SlotsHoldingAbsent(g, g[m].value.block);
      }
      return true;
    }

    /** `_consume_crafting_ingredients`. */
    method ConsumeCraftingIngredients()
      requires Valid()
      modifies grid, this`output
      ensures State() == Consume(old(State()), Recipes())
    {
      var i := 0;
      while i < grid.Length
        invariant 0 <= i <= grid.Length
        invariant forall k :: 0 <= k < i ==> grid[k] == Lowered(old(grid[k]))
        invariant forall k :: i <= k < grid.Length ==> grid[k] == old(grid[k])
      {
        var slot := grid[i];
        if slot.Some? {
          grid[i] := Decremented(slot);
        }
        i := i + 1;
      }
      assert grid[..] == TakeOneEach(old(grid[..]));
      CheckCrafting();
    }

    /** `_on_slot_click`. */
    method OnSlotClick(p: Place, i: int)
      requires Valid() && Addressable(State(), p, i)
      modifies app.hotbar, app.inventory, grid, this`output, this`cursor
      ensures State() == LeftClick(old(State()), Recipes(), p, i)
    {
      var clicked := Get(State(), p, i);
      if p.OutputSlot? {
        if cursor.None? && clicked.Some? {
          cursor := clicked;
          output := None;
          ConsumeCraftingIngredients();
        } else if cursor.Some? && clicked.Some? && cursor.value.block == clicked.value.block {
          cursor := Some(Stack(cursor.value.block, cursor.value.count + clicked.value.count));
          output := None;
          ConsumeCraftingIngredients();
        }
        return;
      }
      if cursor.None? {
        if clicked.Some? {
          cursor := clicked;
          SetSlotData(p, i, None);
        }
      } else if clicked.None? {
        SetSlotData(p, i, cursor);
        cursor := None;
      } else if cursor.value.block == clicked.value.block {
        WriteSlot(p, i, Some(Stack(clicked.value.block, clicked.value.count + cursor.value.count)));
        cursor := None;
      } else {
        var temp := clicked;
        SetSlotData(p, i, cursor);
        cursor := temp;
      }
    }

    /** `_on_slot_right_click`. */
    method OnSlotRightClick(p: Place, i: int)
      requires Valid() && Addressable(State(), p, i)
      modifies app.hotbar, app.inventory, grid, this`output, this`cursor
      ensures State() == RightClick(old(State()), Recipes(), p, i)
    {
      if p.OutputSlot? {
        OnSlotClick(p, i);
        return;
      }
      var clicked := Get(State(), p, i);
      if cursor.None? {
        if clicked.Some? {
          var count := clicked.value.count;
          var take := (count + 1) / 2;
          var leave := count - take;
          cursor := Some(Stack(clicked.value.block, take));
          if leave > 0 {
            WriteSlot(p, i, Some(Stack(clicked.value.block, leave)));
          } else {
            SetSlotData(p, i, None);
          }
        }
      } else if clicked.None? {
        SetSlotData(p, i, Some(Stack(cursor.value.block, 1)));
        cursor := Decremented(cursor);
      } else if clicked.value.block == cursor.value.block {
        WriteSlot(p, i, Some(Stack(clicked.value.block, clicked.value.count + 1)));
        cursor := Decremented(cursor);
      }
    }

    /** `_distribute_item`. */
    method DistributeItem(item: Stack)
      requires Valid()
      modifies app.hotbar, app.inventory
      ensures State() == Distribute(old(State()), item)
    {
      var hotbar, inventory := app.hotbar, app.inventory;
      var b := item.block;
      var i := 0;
      while i < hotbar.Length
        invariant 0 <= i <= hotbar.Length
        invariant forall k :: 0 <= k < i ==> !Holds(hotbar[k], b)
      {
        if hotbar[i].Some? && hotbar[i].value.block == b {
          assert FindBlock(hotbar[..], b) == i;
          hotbar[i] := Some(Stack(b, hotbar[i].value.count + item.count));
          return;
        }
        i := i + 1;
      }
      assert FindBlock(hotbar[..], b) == -1;
      i := 0;
      while i < inventory.Length
        invariant 0 <= i <= inventory.Length
        invariant forall k :: 0 <= k < i ==> !Holds(inventory[k], b)
      {
        if inventory[i].Some? && inventory[i].value.block == b {
          assert FindBlock(inventory[..], b) == i;
          inventory[i] := Some(Stack(b, inventory[i].value.count + item.count));
          return;
        }
        i := i + 1;
      }
      assert FindBlock(inventory[..], b) == -1;
      i := 0;
      while i < hotbar.Length
        invariant 0 <= i <= hotbar.Length
        invariant forall k :: 0 <= k < i ==> hotbar[k].Some?
      {
        if hotbar[i].None? {
          assert FindEmpty(hotbar[..]) == i;
          hotbar[i] := Some(item);
          return;
        }
        i := i + 1;
      }
      assert FindEmpty(hotbar[..]) == -1;
      i := 0;
      while i < inventory.Length
        invariant 0 <= i <= inventory.Length
        invariant forall k :: 0 <= k < i ==> inventory[k].Some?
      {
        if inventory[i].None? {
          assert FindEmpty(inventory[..]) == i;
          inventory[i] := Some(item);
          return;
        }
        i := i + 1;
      }
      assert FindEmpty(inventory[..]) == -1;
    }

    /** The grid loop of `close`: each item goes back in turn, and the grid is emptied. */
    method ReturnGrid()
      requires Valid()
      modifies app.hotbar, app.inventory, grid
      ensures app.hotbar[..] == ReturnAll(old(State()), old(grid[..])).hotbar
      ensures app.inventory[..] == ReturnAll(old(State()), old(grid[..])).inventory
      ensures forall k :: 0 <= k < grid.Length ==> grid[k].None?
    {
      ghost var s := State();
      var i := 0;
      while i < grid.Length
        invariant 0 <= i <= grid.Length
        invariant forall k :: 0 <= k < i ==> grid[k].None?
        invariant forall k :: i <= k < grid.Length ==> grid[k] == s.grid[k]
        invariant app.hotbar[..] == ReturnAll(s, s.grid[..i]).hotbar
        invariant app.inventory[..] == ReturnAll(s, s.grid[..i]).inventory
      {
        ghost var r := ReturnAll(s, s.grid[..i]);
        assert s.grid[..i + 1][..i] == s.grid[..i];
        assert ReturnAll(s, s.grid[..i + 1]) == Return(r, s.grid[i]);
        if grid[i].Some? {
          ghost var before := State();
          DistributeItem(grid[i].value);
          assert grid[..] == before.grid;
          DistributeStoresOnly(before, r, s.grid[i].value);
          grid[i] := None;
        }
        i := i + 1;
      }
      assert s.grid[..i] == s.grid;
    }

    /** `close`: a closed screen ignores it. */
    method Close()
      requires Valid()
      modifies app.hotbar, app.inventory, grid, this`output, this`cursor, this`isOpen
      ensures !isOpen
      ensures State() == if old(isOpen) then Closed(old(State())) else old(State())
    {
      if !isOpen {
        return;
      }
      isOpen := false;
      ghost var s := State();
      if cursor.Some? {
        DistributeItem(cursor.value);
      }
      cursor := None;
      assert State() == Return(s.(cursor := None), s.cursor);
      ReturnGrid();
      output := None;
    }

    /** `_on_nav`: ignored while the screen is closed. */
    method OnNav(d: Direction)
      modifies this`selected
      ensures selected == if isOpen then Navigated(layout, old(selected), d) else old(selected)
    {
      if !isOpen {
        return;
      }
      var n := Nav(layout, selected, d);
      if n < 0 {
        n := 0;
      }
      if n >= SlotCount(layout) {
        n := SlotCount(layout) - 1;
      }
      selected := n;
    }
  }
}
