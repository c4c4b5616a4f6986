/**
 * The item slot shared by the hotbar, the inventory, the crafting grids
 * and the cursor: Python's `None` or a `{'block': id, 'count': n}` dict.
 * A slot list is modelled by value; a dict whose count is changed in
 * place becomes a new `Stack` at the same position.
 */
module Slots {
  import opened Wrappers

  datatype Stack = Stack(block: int, count: int)

  type Slot = Option<Stack>

  /** The slot is not `None` and holds `b`. */
  predicate Holds(s: Slot, b: int)
  {
    s.Some? && s.value.block == b
  }

  /** How many items of `b` the slot holds. */
  function Held(s: Slot, b: int): int
  {
    if Holds(s, b) then s.value.count else 0
  }

  /** The number of items of `b` over a list of slots. */
  function Total(s: seq<Slot>, b: int): int
  {
    if |s| == 0 then 0 else Held(s[0], b) + Total(s[1..], b)
  }

  /** No stack holds a negative count. */
  predicate NonNegative(s: seq<Slot>)
  {
    forall k :: 0 <= k < |s| && s[k].Some? ==> s[k].value.count >= 0
  }

  /** Same length, and every slot is empty or holds the same block in both. */
  predicate SameShape(s: seq<Slot>, t: seq<Slot>)
  {
    |s| == |t|
    && forall k :: 0 <= k < |s| ==> s[k].Some? == t[k].Some? && (s[k].Some? ==> s[k].value.block == t[k].value.block)
  }

  lemma {:induction false} TotalAppend(a: seq<Slot>, c: seq<Slot>, b: int)
    ensures Total(a + c, b) == Total(a, b) + Total(c, b)
  {
    if |a| > 0 {
      assert (a + c)[0] == a[0] && (a + c)[1..] == a[1..] + c;
      TotalAppend(a[1..], c, b);
    } else {
      assert a + c == c;
    }
  }

  /** Replacing one slot changes the total by the difference of the two slots. */
  lemma {:induction false} TotalUpdate(s: seq<Slot>, i: int, v: Slot, b: int)
    requires 0 <= i < |s|
    ensures Total(s[i := v], b) == Total(s, b) - Held(s[i], b) + Held(v, b)
  {
    if i > 0 {
      assert s[i := v][1..] == s[1..][i - 1 := v];
      TotalUpdate(s[1..], i - 1, v, b);
    }
  }

  /** A list with no stack of `b` holds no item of `b`. */
  lemma {:induction false} TotalAbsent(s: seq<Slot>, b: int)
    requires forall k :: 0 <= k < |s| ==> !Holds(s[k], b)
    ensures Total(s, b) == 0
  {
    if |s| > 0 {
      assert !Holds(s[0], b);
      TotalAbsent(s[1..], b);
    }
  }

  /** The index of the first stack of `b`, or -1. */
  function FindBlock(s: seq<Slot>, b: int): (i: int)
    ensures -1 <= i < |s|
    ensures i >= 0 ==> Holds(s[i], b)
    ensures forall j :: 0 <= j < |s| && (i < 0 || j < i) ==> !Holds(s[j], b)
  {
    if |s| == 0 then -1
    else if Holds(s[0], b) then 0
    else
      var k := FindBlock(s[1..], b);
      if k < 0 then -1 else k + 1
  }

  /** The index of the first empty slot, or -1. */
  function FindEmpty(s: seq<Slot>): (i: int)
    ensures -1 <= i < |s|
    ensures i >= 0 ==> s[i].None?
    ensures forall j :: 0 <= j < |s| && (i < 0 || j < i) ==> s[j].Some?
  {
    if |s| == 0 then -1
    else if s[0].None? then 0
    else
      var k := FindEmpty(s[1..]);
      if k < 0 then -1 else k + 1
  }

  /** The scans for a block or an empty slot only look at the shape. */
  lemma SameShapeFinds(s: seq<Slot>, t: seq<Slot>, b: int)
    requires SameShape(s, t)
    ensures FindBlock(s, b) == FindBlock(t, b) && FindEmpty(s) == FindEmpty(t)
  {
    var i, j := FindBlock(s, b), FindBlock(t, b);
    if i >= 0 { assert Holds(t[i], b); }
    if j >= 0 { assert Holds(s[j], b); }
    var e, f := FindEmpty(s), FindEmpty(t);
    if e >= 0 { assert t[e].None?; }
    if f >= 0 { assert s[f].None?; }
  }

  /** `s` has a stack of `b` or an empty slot to put `b` into. */
  predicate HasRoom(s: seq<Slot>, b: int)
  {
    FindBlock(s, b) >= 0 || FindEmpty(s) >= 0
  }

  /**
   * Adding `c` items of `b` the way `_add_to_inventory` and
   * `_add_block_to_hotbar` do: onto the first stack of `b` (whatever its
   * count), else into the first empty slot as a new stack, else nowhere.
   */
  function Added(s: seq<Slot>, b: int, c: int): (r: seq<Slot>)
  {
    var i := FindBlock(s, b);
    if i >= 0 then s[i := Some(Stack(b, s[i].value.count + c))]
    else
      var j := FindEmpty(s);
      if j >= 0 then s[j := Some(Stack(b, c))] else s
  }

  /**
   * Adding changes only the total of `b`, by exactly `c` when there is
   * room and not at all otherwise, and never empties a slot.
   */
  lemma AddedTotals(s: seq<Slot>, b: int, c: int, x: int)
    ensures Total(Added(s, b, c), x) == Total(s, x) + (if x == b && HasRoom(s, b) then c else 0)
    ensures |Added(s, b, c)| == |s|
    ensures forall k :: 0 <= k < |s| && s[k].Some? ==> Added(s, b, c)[k].Some?
  {
    var i := FindBlock(s, b);
    if i >= 0 {
      TotalUpdate(s, i, Some(Stack(b, s[i].value.count + c)), x);
    } else {
      var j := FindEmpty(s);
      if j >= 0 {
        TotalUpdate(s, j, Some(Stack(b, c)), x);
      }
    }
  }

  /** Adding keeps counts non-negative when the added amount is. */
  lemma AddedNonNegative(s: seq<Slot>, b: int, c: int)
    requires NonNegative(s) && c >= 0
    ensures NonNegative(Added(s, b, c))
  {
  }
}
