/**
 * The crafting rules of voxel/crafting.py: the recipe table and its split
 * into 2x2 and 3x3 recipes, counting an inventory, feasibility, crafting
 * in place and looking a recipe up by its output.
 *
 * A recipe's ingredient dict becomes a list of (block, count) pairs in
 * the dict's insertion order.
 */
module Crafting {
  import opened Wrappers
  import opened Settings
  import opened Slots

  datatype Ingredient = Ingredient(block: int, count: int)

  datatype Recipe = Recipe(ingredients: seq<Ingredient>, output: Stack, requires3x3: bool)

  /** The ingredient blocks are distinct (they are dict keys). */
  predicate DistinctBlocks(ings: seq<Ingredient>)
  {
    forall j, k :: 0 <= j < k < |ings| ==> ings[j].block != ings[k].block
  }

  /** What every recipe of the table satisfies. */
  predicate ValidRecipe(r: Recipe)
  {
    |r.ingredients| > 0 && DistinctBlocks(r.ingredients)
    && (forall k :: 0 <= k < |r.ingredients| ==> r.ingredients[k].count > 0)
    && r.output.count > 0
  }

  function One(b: int, n: int, out: int, c: int, table: bool): (r: Recipe)
    requires n > 0 && c > 0
    ensures ValidRecipe(r)
  {
    Recipe([Ingredient(b, n)], Stack(out, c), table)
  }

  function Two(b1: int, n1: int, b2: int, n2: int, out: int, c: int, table: bool): (r: Recipe)
    requires b1 != b2 && n1 > 0 && n2 > 0 && c > 0
    ensures ValidRecipe(r)
  {
    Recipe([Ingredient(b1, n1), Ingredient(b2, n2)], Stack(out, c), table)
  }

  /** `CRAFTING_RECIPES` as `_load_recipes` returns it, in table order. */
  function Recipes(): (rs: seq<Recipe>)
    ensures |rs| == 33
    ensures forall k :: 0 <= k < |rs| ==> ValidRecipe(rs[k])
  {
    [ One(WOOD, 1, PLANKS, 4, false),
      One(JUNGLE_LOG, 1, JUNGLE_PLANKS, 4, false),
      One(BIRCH_LOG, 1, BIRCH_PLANKS, 4, false),
      One(PLANKS, 2, STICKS, 4, false),
      One(JUNGLE_PLANKS, 2, STICKS, 4, false),
      One(BIRCH_PLANKS, 2, STICKS, 4, false),
      One(PLANKS, 4, CRAFTING_TABLE, 1, false),
      One(JUNGLE_PLANKS, 4, CRAFTING_TABLE, 1, false),
      One(BIRCH_PLANKS, 4, CRAFTING_TABLE, 1, false),
      Two(PLANKS, 3, STICKS, 2, PICKAXE_WOOD, 1, true),
      Two(JUNGLE_PLANKS, 3, STICKS, 2, PICKAXE_WOOD, 1, true),
      Two(BIRCH_PLANKS, 3, STICKS, 2, PICKAXE_WOOD, 1, true),
      Two(PLANKS, 3, STICKS, 2, AXE_WOOD, 1, true),
      Two(JUNGLE_PLANKS, 3, STICKS, 2, AXE_WOOD, 1, true),
      Two(BIRCH_PLANKS, 3, STICKS, 2, AXE_WOOD, 1, true),
      Two(PLANKS, 1, STICKS, 2, SHOVEL_WOOD, 1, true),
      Two(JUNGLE_PLANKS, 1, STICKS, 2, SHOVEL_WOOD, 1, true),
      Two(BIRCH_PLANKS, 1, STICKS, 2, SHOVEL_WOOD, 1, true),
      Two(PLANKS, 2, STICKS, 1, SWORD_WOOD, 1, true),
      Two(JUNGLE_PLANKS, 2, STICKS, 1, SWORD_WOOD, 1, true),
      Two(BIRCH_PLANKS, 2, STICKS, 1, SWORD_WOOD, 1, true),
      Two(COBBLESTONE, 3, STICKS, 2, PICKAXE_STONE, 1, true),
      Two(COBBLESTONE, 3, STICKS, 2, AXE_STONE, 1, true),
      Two(COBBLESTONE, 1, STICKS, 2, SHOVEL_STONE, 1, true),
      Two(COBBLESTONE, 2, STICKS, 1, SWORD_STONE, 1, true),
      Two(IRON_INGOT, 3, STICKS, 2, PICKAXE_IRON, 1, true),
      Two(IRON_INGOT, 3, STICKS, 2, AXE_IRON, 1, true),
      Two(IRON_INGOT, 1, STICKS, 2, SHOVEL_IRON, 1, true),
      Two(IRON_INGOT, 2, STICKS, 1, SWORD_IRON, 1, true),
      One(COBBLESTONE, 8, FURNACE, 1, true),
      One(PLANKS, 8, CHEST, 1, true),
      One(JUNGLE_PLANKS, 8, CHEST, 1, true),
      One(BIRCH_PLANKS, 8, CHEST, 1, true) ]
  }

  // ---------------------------------------------------------------------
  // The 2x2 / 3x3 split of `CraftingSystem.__init__`

  /** The recipes whose `requires_3x3` flag is `table`, in order. */
  function ByTable(rs: seq<Recipe>, table: bool): (r: seq<Recipe>)
    ensures forall x :: x in r <==> x in rs && x.requires3x3 == table
    ensures |r| <= |rs|
  {
    if |rs| == 0 then []
    else (if rs[0].requires3x3 == table then [rs[0]] else []) + ByTable(rs[1..], table)
  }

  /** The split keeps the order: splitting a concatenation splits each part. */
  lemma {:induction false} ByTableAppend(a: seq<Recipe>, c: seq<Recipe>, table: bool)
    ensures ByTable(a + c, table) == ByTable(a, table) + ByTable(c, table)
  {
    if |a| == 0 {
      assert a + c == c;
    } else {
      assert (a + c)[0] == a[0] && (a + c)[1..] == a[1..] + c;
      ByTableAppend(a[1..], c, table);
    }
  }

  /** The two lists partition the recipes: together they hold each recipe as often as the table does. */
  lemma {:induction false} ByTablePartition(rs: seq<Recipe>)
    ensures |ByTable(rs, false)| + |ByTable(rs, true)| == |rs|
    ensures multiset(ByTable(rs, false)) + multiset(ByTable(rs, true)) == multiset(rs)
  {
    if |rs| > 0 {
      ByTablePartition(rs[1..]);
      assert rs == [rs[0]] + rs[1..];
    }
  }

  // ---------------------------------------------------------------------
  // Counting and feasibility

  /** `counts.get(b, 0)`. */
  function CountOf(counts: map<int, int>, b: int): int
  {
    if b in counts then counts[b] else 0
  }

  /** Some non-empty slot holds `b`. */
  predicate Occurs(inv: seq<Slot>, b: int)
  {
    exists k :: 0 <= k < |inv| && Holds(inv[k], b)
  }

  lemma TotalSnoc(s: seq<Slot>, x: Slot, b: int)
    ensures Total(s + [x], b) == Total(s, b) + Held(x, b)
  {
    TotalAppend(s, [x], b);
  }

  /**
   * `_count_inventory_items`: a key for every block some slot holds,
   * mapped to the sum of that block's counts; every other block counts 0.
   */
  method CountInventoryItems(inv: seq<Slot>) returns (counts: map<int, int>)
    ensures forall b :: b in counts <==> Occurs(inv, b)
    ensures forall b :: CountOf(counts, b) == Total(inv, b)
  {
    counts := map[];
    var i := 0;
    while i < |inv|
      invariant 0 <= i <= |inv|
      invariant forall b :: b in counts <==> Occurs(inv[..i], b)
      invariant forall b :: CountOf(counts, b) == Total(inv[..i], b)
    {
      assert inv[..i + 1] == inv[..i] + [inv[i]];
      ghost var prev := counts;
      if inv[i].Some? {
        var b := inv[i].value.block;
        counts := counts[b := CountOf(counts, b) + inv[i].value.count];
        assert Holds(inv[..i + 1][i], b);
      }
      forall b
        ensures CountOf(counts, b) == Total(inv[..i + 1], b)
      {
        TotalSnoc(inv[..i], inv[i], b);
      }
      forall b | Occurs(inv[..i + 1], b)
        ensures b in counts
      {
        var k :| 0 <= k < i + 1 && Holds(inv[..i + 1][k], b);
        if k < i {
          assert Holds(inv[..i][k], b);
        }
      }
      forall b | b in counts
        ensures Occurs(inv[..i + 1], b)
      {
        if b in prev {
          var k :| 0 <= k < i && Holds(inv[..i][k], b);
          assert Holds(inv[..i + 1][k], b);
        }
      }
      i := i + 1;
    }
    assert inv[..i] == inv;
  }

  /** Every ingredient of `ings` is present in at least its required amount. */
  function Enough(ings: seq<Ingredient>, inv: seq<Slot>): (r: bool)
    ensures r <==> forall k :: 0 <= k < |ings| ==> Total(inv, ings[k].block) >= ings[k].count
  {
    |ings| == 0 || (Total(inv, ings[0].block) >= ings[0].count && Enough(ings[1..], inv))
  }

  /** `can_craft_recipe`. */
  function CanCraft(recipe: Recipe, inv: seq<Slot>): bool
  {
    Enough(recipe.ingredients, inv)
  }

  /** The craftable recipes of `rs`, in order. */
  function Craftable(rs: seq<Recipe>, inv: seq<Slot>): (r: seq<Recipe>)
    ensures forall x :: x in r <==> x in rs && CanCraft(x, inv)
    ensures |r| <= |rs|
  {
    if |rs| == 0 then []
    else (if CanCraft(rs[0], inv) then [rs[0]] else []) + Craftable(rs[1..], inv)
  }

  // ---------------------------------------------------------------------
  // Crafting in place

  /**
   * One ingredient's pass of `craft_recipe`'s consume loop with `rem`
   * items still to take: a stack that does not cover `rem` is drained to
   * count 0 (it stays in its slot), a larger one gives `rem` and ends the
   * pass.  Only stacks of `b` change, and no slot is emptied.
   */
  function Taken(s: seq<Slot>, b: int, rem: int): (r: seq<Slot>)
  {
    if |s| == 0 then []
    else if Holds(s[0], b) && rem > 0 then
      if s[0].value.count <= rem then [Some(Stack(b, 0))] + Taken(s[1..], b, rem - s[0].value.count)
      else [Some(Stack(b, s[0].value.count - rem))] + s[1..]
    else [s[0]] + Taken(s[1..], b, rem)
  }

  /** A pass changes only stacks of `b`, and empties no slot. */
  lemma {:induction false} TakenShape(s: seq<Slot>, b: int, rem: int)
    ensures SameShape(s, Taken(s, b, rem))
    ensures forall k :: 0 <= k < |s| && !Holds(s[k], b) ==> Taken(s, b, rem)[k] == s[k]
  {
    if |s| > 0 {
      if Holds(s[0], b) && rem > 0 {
        if s[0].value.count <= rem {
          TakenShape(s[1..], b, rem - s[0].value.count);
        }
      } else {
        TakenShape(s[1..], b, rem);
      }
    }
  }

  /** A pass takes `rem` items of `b`, or all of them when there are fewer. */
  lemma {:induction false} TakenTotal(s: seq<Slot>, b: int, rem: int)
    requires NonNegative(s) && rem >= 0
    ensures Total(Taken(s, b, rem), b) == Total(s, b) - (if rem <= Total(s, b) then rem else Total(s, b))
    ensures NonNegative(Taken(s, b, rem))
  {
    if |s| > 0 {
      TotalNonNegative(s[1..], b);
      if Holds(s[0], b) && rem > 0 {
        if s[0].value.count <= rem {
          TakenTotal(s[1..], b, rem - s[0].value.count);
        } else {
          TotalNonNegative(s, b);
        }
      } else {
        TakenTotal(s[1..], b, rem);
      }
    }
  }

  lemma {:induction false} TotalNonNegative(s: seq<Slot>, b: int)
    requires NonNegative(s)
    ensures Total(s, b) >= 0
  {
    if |s| > 0 {
      TotalNonNegative(s[1..], b);
    }
  }

  /** Lists of the same shape agree on the totals of every block whose stacks are equal. */
  lemma {:induction false} TotalOther(s: seq<Slot>, t: seq<Slot>, x: int)
    requires |s| == |t|
    requires forall k :: 0 <= k < |s| ==> Held(s[k], x) == Held(t[k], x)
    ensures Total(s, x) == Total(t, x)
  {
    if |s| > 0 {
      TotalOther(s[1..], t[1..], x);
    }
  }

  /** The consume loop over all ingredients, in dict order. */
  function Consumed(s: seq<Slot>, ings: seq<Ingredient>): (r: seq<Slot>)
    decreases |ings|
  {
    if |ings| == 0 then s else Consumed(Taken(s, ings[0].block, ings[0].count), ings[1..])
  }

  /** Consuming keeps every slot's occupancy and block. */
  lemma {:induction false} ConsumedShape(s: seq<Slot>, ings: seq<Ingredient>)
    ensures SameShape(s, Consumed(s, ings))
    decreases |ings|
  {
    if |ings| > 0 {
      var t := Taken(s, ings[0].block, ings[0].count);
      TakenShape(s, ings[0].block, ings[0].count);
      ConsumedShape(t, ings[1..]);
    }
  }

  /** How many items of `x` the ingredients ask for. */
  function Need(ings: seq<Ingredient>, x: int): int
  {
    if |ings| == 0 then 0 else (if ings[0].block == x then ings[0].count else 0) + Need(ings[1..], x)
  }

  lemma {:induction false} NeedAbsent(ings: seq<Ingredient>, x: int)
    requires forall k :: 0 <= k < |ings| ==> ings[k].block != x
    ensures Need(ings, x) == 0
  {
    if |ings| > 0 {
      NeedAbsent(ings[1..], x);
    }
  }

  /** With distinct ingredient blocks, an ingredient's need is its own count. */
  lemma {:induction false} NeedOfIngredient(ings: seq<Ingredient>, k: int)
    requires DistinctBlocks(ings) && 0 <= k < |ings|
    ensures Need(ings, ings[k].block) == ings[k].count
  {
    if k == 0 {
      NeedAbsent(ings[1..], ings[0].block);
    } else {
      NeedOfIngredient(ings[1..], k - 1);
    }
  }

  /**
   * When every ingredient is available, consuming lowers each block's
   * total by exactly what the ingredients ask for.
   */
  lemma {:induction false} ConsumedTotals(s: seq<Slot>, ings: seq<Ingredient>, x: int)
    requires NonNegative(s) && DistinctBlocks(ings) && Enough(ings, s)
    requires forall k :: 0 <= k < |ings| ==> ings[k].count >= 0
    ensures Total(Consumed(s, ings), x) == Total(s, x) - Need(ings, x)
    ensures NonNegative(Consumed(s, ings))
    decreases |ings|
  {
    if |ings| > 0 {
      var g := ings[0];
      var rest := ings[1..];
      var t := Taken(s, g.block, g.count);
      TakenTotal(s, g.block, g.count);
      TakenShape(s, g.block, g.count);
      forall y | y != g.block
        ensures Total(t, y) == Total(s, y)
      {
        TotalOther(t, s, y);
      }
      forall k | 0 <= k < |rest|
        ensures Total(t, rest[k].block) >= rest[k].count
      {
        assert rest[k] == ings[k + 1];
      }
      ConsumedTotals(t, rest, x);
      if x == g.block {
        NeedAbsent(rest, x);
      }
    }
  }

  /**
   * What a successful `craft_recipe` does to the inventory, and what it
   * returns: false (inventory untouched) unless the recipe is craftable.
   */
  function Crafted(s: seq<Slot>, recipe: Recipe): (r: Option<seq<Slot>>)
  {
    if CanCraft(recipe, s)
    then Some(Added(Consumed(s, recipe.ingredients), recipe.output.block, recipe.output.count))
    else None
  }

  /**
   * Crafting a recipe of the table from an inventory with no negative
   * counts succeeds exactly when it is craftable; then each ingredient's
   * total drops by exactly its required count, the output's total rises
   * by the output count when the inventory has room for it, nothing else
   * changes, and every occupied slot stays occupied (drained stacks stay
   * as count 0).
   */
  lemma CraftTotals(s: seq<Slot>, recipe: Recipe, x: int)
    requires ValidRecipe(recipe) && NonNegative(s)
    ensures Crafted(s, recipe).Some? <==> CanCraft(recipe, s)
    ensures Crafted(s, recipe).Some? ==>
      var r := Crafted(s, recipe).value;
      && Total(r, x) == Total(s, x) - Need(recipe.ingredients, x)
                        + (if x == recipe.output.block && HasRoom(s, x) then recipe.output.count else 0)
      && NonNegative(r)
      && |r| == |s| && (forall k :: 0 <= k < |s| && s[k].Some? ==> r[k].Some?)
  {
    if CanCraft(recipe, s) {
      var ings := recipe.ingredients;
      var c := Consumed(s, ings);
      var b, n := recipe.output.block, recipe.output.count;
      ConsumedTotals(s, ings, x);
      ConsumedShape(s, ings);
      SameShapeFinds(s, c, b);
      AddedTotals(c, b, n, x);
      AddedNonNegative(c, b, n);
    }
  }

  /** Each ingredient of a crafted recipe is used up in exactly its required amount. */
  lemma CraftUsesIngredients(s: seq<Slot>, recipe: Recipe, k: int)
    requires ValidRecipe(recipe) && NonNegative(s) && CanCraft(recipe, s)
    requires 0 <= k < |recipe.ingredients| && recipe.ingredients[k].block != recipe.output.block
    ensures Total(Crafted(s, recipe).value, recipe.ingredients[k].block)
      == Total(s, recipe.ingredients[k].block) - recipe.ingredients[k].count
  {
    CraftTotals(s, recipe, recipe.ingredients[k].block);
    NeedOfIngredient(recipe.ingredients, k);
  }

  /** `_add_to_inventory`, on the list in place. */
  method AddToInventory(inv: array<Slot>, b: int, c: int)
    modifies inv
    ensures inv[..] == Added(old(inv[..]), b, c)
  {
    var i := 0;
    while i < inv.Length
      invariant 0 <= i <= inv.Length
      invariant forall j :: 0 <= j < i ==> !Holds(inv[j], b)
    {
      if inv[i].Some? && inv[i].value.block == b {
        assert FindBlock(inv[..], b) == i;
        inv[i] := Some(Stack(b, inv[i].value.count + c));
        return;
      }
      i := i + 1;
    }
    assert FindBlock(inv[..], b) == -1;
    i := 0;
    while i < inv.Length
      invariant 0 <= i <= inv.Length
      invariant forall j :: 0 <= j < i ==> inv[j].Some?
    {
      if inv[i].None? {
        assert FindEmpty(inv[..]) == i;
        inv[i] := Some(Stack(b, c));
        return;
      }
      i := i + 1;
    }
    assert FindEmpty(inv[..]) == -1;
  }

  /** One step of `Taken`, for a list split into its first slot and the rest. */
  lemma TakenCons(x: Slot, rest: seq<Slot>, b: int, rem: int)
    ensures Taken([x] + rest, b, rem)
      == if Holds(x, b) && rem > 0 then
           if x.value.count <= rem then [Some(Stack(b, 0))] + Taken(rest, b, rem - x.value.count)
           else [Some(Stack(b, x.value.count - rem))] + rest
         else [x] + Taken(rest, b, rem)
  {
    assert ([x] + rest)[0] == x && ([x] + rest)[1..] == rest;
  }

  /** The pass from slot `i` on, when slot `i` does not end it: that slot taken whole, or left as it is. */
  lemma TakenStep(s: seq<Slot>, i: int, b: int, rem: int)
    requires 0 <= i < |s| && !(Holds(s[i], b) && rem > 0 && s[i].value.count > rem)
    ensures var took := Holds(s[i], b) && rem > 0;
      Taken(s[i..], b, rem)
        == [if took then Some(Stack(b, 0)) else s[i]] + Taken(s[i + 1..], b, if took then rem - s[i].value.count else rem)
  {
    assert s[i..] == [s[i]] + s[i + 1..];
    TakenCons(s[i], s[i + 1..], b, rem);
  }

  /** The pass from slot `i` on, when slot `i` ends it: that slot keeps the remainder and the rest stay as they are. */
  lemma TakenLast(s: seq<Slot>, i: int, b: int, rem: int)
    requires 0 <= i < |s| && Holds(s[i], b) && rem > 0 && s[i].value.count > rem
    ensures Taken(s[i..], b, rem) == [Some(Stack(b, s[i].value.count - rem))] + s[i + 1..]
  {
    assert s[i..] == [s[i]] + s[i + 1..];
    TakenCons(s[i], s[i + 1..], b, rem);
  }

  /** One ingredient's pass of the consume loop, ending early at a partial take. */
  method ConsumeIngredient(inv: array<Slot>, b: int, required: int)
    modifies inv
    ensures inv[..] == Taken(old(inv[..]), b, required)
  {
    ghost var s := inv[..];
    ghost var done: seq<Slot> := [];
    var consumed := 0;
    var i := 0;
    while i < inv.Length
      invariant 0 <= i <= inv.Length && |s| == inv.Length && |done| == i
      invariant inv[..] == done + s[i..]
      invariant Taken(s, b, required) == done + Taken(s[i..], b, required - consumed)
    {
      var stop;
      ghost var x;
      consumed, stop, x := ConsumeSlot(inv, i, b, required, consumed, s, done);
      if stop {
        break;
      }
      done := done + [x];
      i := i + 1;
    }
    if i == inv.Length {
      assert s[i..] == [] && done + [] == done;
    }
  }

  /** The consume loop's body for slot `i`; `stop` is its `break`, and `x` is what the slot now holds. */
  method ConsumeSlot(inv: array<Slot>, i: int, b: int, required: int, consumed: int, ghost s: seq<Slot>, ghost done: seq<Slot>)
    returns (consumed': int, stop: bool, ghost x: Slot)
    requires 0 <= i < inv.Length && |s| == inv.Length && |done| == i
    requires inv[..] == done + s[i..]
    requires Taken(s, b, required) == done + Taken(s[i..], b, required - consumed)
    modifies inv
    ensures stop ==> inv[..] == Taken(s, b, required)
    ensures !stop ==> inv[..] == (done + [x]) + s[i + 1..]
    ensures !stop ==> Taken(s, b, required) == (done + [x]) + Taken(s[i + 1..], b, required - consumed')
  {
    var slot := inv[i];
    ReadSplits(done, s, i);
    ghost var rem := required - consumed;
    consumed', stop := consumed, false;
    if slot.Some? && slot.value.block == b && consumed < required {
      var remaining := required - consumed;
      if slot.value.count <= remaining {
        TakenStep(s, i, b, rem);
        inv[i] := Some(Stack(b, 0));
        consumed' := consumed + slot.value.count;
      } else {
        TakenLast(s, i, b, rem);
        inv[i] := Some(Stack(b, slot.value.count - remaining));
        WriteSplits(done, s, i, inv[i]);
        AppendAssoc(done, [inv[i]], s[i + 1..]);
        consumed', stop, x := consumed + remaining, true, inv[i];
        return;
      }
    } else {
      TakenStep(s, i, b, rem);
    }
    x := inv[i];
    WriteSplits(done, s, i, x);
    AppendAssoc(done, [x], Taken(s[i + 1..], b, required - consumed'));
  }

  /** Slot `i` of `done + s[i..]` is slot `i` of `s`. */
  lemma ReadSplits(done: seq<Slot>, s: seq<Slot>, i: int)
    requires |done| == i < |s|
    ensures (done + s[i..])[i] == s[i]
  {
  }

  /** Writing slot `i` of `done + s[i..]` extends `done` by the new slot. */
  lemma WriteSplits(done: seq<Slot>, s: seq<Slot>, i: int, x: Slot)
    requires |done| == i < |s|
    ensures (done + s[i..])[i := x] == (done + [x]) + s[i + 1..]
  {
  }

  lemma AppendAssoc(a: seq<Slot>, c: seq<Slot>, d: seq<Slot>)
    ensures a + c + d == a + (c + d)
  {
  }

  /** `craft_recipe`, changing the inventory list in place. */
  method CraftRecipe(recipe: Recipe, inv: array<Slot>) returns (ok: bool)
    modifies inv
    ensures Crafted(old(inv[..]), recipe) == (if ok then Some(inv[..]) else None)
    ensures !ok ==> inv[..] == old(inv[..])
  {
    if !CanCraft(recipe, inv[..]) {
      return false;
    }
    var ings := recipe.ingredients;
    var k := 0;
    while k < |ings|
      invariant 0 <= k <= |ings|
      invariant Consumed(old(inv[..]), ings) == Consumed(inv[..], ings[k..])
    {
      assert ings[k..][0] == ings[k] && ings[k..][1..] == ings[k + 1..];
      ConsumeIngredient(inv, ings[k].block, ings[k].count);
      k := k + 1;
    }
    AddToInventory(inv, recipe.output.block, recipe.output.count);
    return true;
  }

  // ---------------------------------------------------------------------
  // Lookup

  /** The index of the first recipe of `rs` producing `b`, or -1. */
  function OutputIndex(rs: seq<Recipe>, b: int): (i: int)
    ensures -1 <= i < |rs|
    ensures i >= 0 ==> rs[i].output.block == b
    ensures forall j :: 0 <= j < |rs| && (i < 0 || j < i) ==> rs[j].output.block != b
  {
    if |rs| == 0 then -1
    else if rs[0].output.block == b then 0
    else
      var k := OutputIndex(rs[1..], b);
      if k < 0 then -1 else k + 1
  }

  /** The first recipe of `rs` producing `b`, or None when none does. */
  function FindByOutput(rs: seq<Recipe>, b: int): (r: Option<Recipe>)
    ensures r.None? <==> forall k :: 0 <= k < |rs| ==> rs[k].output.block != b
    ensures r.Some? ==> exists k :: 0 <= k < |rs| && rs[k] == r.value && r.value.output.block == b
                                    && forall j :: 0 <= j < k ==> rs[j].output.block != b
  {
    var i := OutputIndex(rs, b);
    if i >= 0 then Some(rs[i]) else None
  }

  /**
   * `CraftingSystem`: the loaded recipe table and its 2x2 / 3x3 split,
   * fixed at construction.
   */
  class CraftingSystem {
    const recipes: seq<Recipe>
    const recipes2x2: seq<Recipe>
    const recipes3x3: seq<Recipe>

    predicate Valid()
    {
      recipes2x2 == ByTable(recipes, false) && recipes3x3 == ByTable(recipes, true)
    }

    /**
     * `__init__` with the two comprehensions; the game's one instance,
     * `crafting_system`, is built from `Recipes()`, the table as
     * `_load_recipes` returns it.
     */
    constructor(table: seq<Recipe>)
      ensures Valid() && recipes == table
    {
      recipes := table;
      recipes2x2 := ByTable(table, false);
      recipes3x3 := ByTable(table, true);
    }

    /**
     * `recipes_2x2` and `recipes_3x3` partition `recipes`: each keeps its
     * recipes in table order, and together they hold every recipe as
     * often as the table does.
     */
    lemma Partition()
      requires Valid()
      ensures |recipes2x2| + |recipes3x3| == |recipes|
      ensures multiset(recipes2x2) + multiset(recipes3x3) == multiset(recipes)
      ensures forall r :: r in recipes2x2 <==> r in recipes && !r.requires3x3
      ensures forall r :: r in recipes3x3 <==> r in recipes && r.requires3x3
    {
      ByTablePartition(recipes);
    }

    /**
     * `get_available_recipes`: the craftable recipes among all recipes on
     * a crafting table, among the 2x2 ones otherwise, in table order.
     */
    function AvailableRecipes(inv: seq<Slot>, is3x3: bool): (r: seq<Recipe>)
      requires Valid()
      ensures forall x :: x in r <==> x in recipes && (is3x3 || !x.requires3x3) && CanCraft(x, inv)
    {
      Craftable(if is3x3 then recipes else recipes2x2, inv)
    }

    /** `get_recipe_by_output`: the first recipe of the table producing `b`. */
    function RecipeByOutput(b: int): (r: Option<Recipe>)
      ensures r.None? <==> forall k :: 0 <= k < |recipes| ==> recipes[k].output.block != b
      ensures r.Some? ==> exists k :: 0 <= k < |recipes| && recipes[k] == r.value && r.value.output.block == b
                                      && forall j :: 0 <= j < k ==> recipes[j].output.block != b
    {
      FindByOutput(recipes, b)
    }
  }
}
