/**
 * The creative inventory of voxel/creative_inventory_ui.py: clicking an
 * item puts a full stack of it on the hotbar. The item grid, its
 * categories and textures are display only and not modelled.
 */
module Creative {
  import opened Wrappers
  import opened Slots
  import opened Game

  /** The stack size a click hands out. */
  const FULL_STACK := 64

  /**
   * The hotbar slot a click on `item` writes: the first slot holding
   * `item`; else the first empty slot; else the selected slot.
   */
  function StockedSlot(h: seq<Slot>, item: int, selected: int): (k: int)
    requires 0 <= selected < |h|
    ensures 0 <= k < |h|
    ensures Holds(h[k], item) ==> forall j :: 0 <= j < k ==> !Holds(h[j], item)
    ensures !Holds(h[k], item) ==> forall j :: 0 <= j < |h| ==> !Holds(h[j], item)
    ensures !Holds(h[k], item) && h[k].None? ==> forall j :: 0 <= j < k ==> h[j].Some?
    ensures !Holds(h[k], item) && h[k].Some? ==> k == selected && forall j :: 0 <= j < |h| ==> h[j].Some?
  {
    var i := FindBlock(h, item);
    if i >= 0 then i
    else
      var e := FindEmpty(h);
      if e >= 0 then e else selected
  }

  /** The hotbar after `_on_item_click`: one slot set to a full stack of `item`. */
  function Stocked(h: seq<Slot>, item: int, selected: int): (r: seq<Slot>)
    requires 0 <= selected < |h|
  {
    h[StockedSlot(h, item, selected) := Some(Stack(item, FULL_STACK))]
  }

  /**
   * A click changes exactly one slot, which then holds a full stack of
   * `item` and is the first slot holding `item`; the length is kept.
   */
  lemma StockedChangesOneSlot(h: seq<Slot>, item: int, selected: int)
    requires 0 <= selected < |h|
    ensures var r, k := Stocked(h, item, selected), StockedSlot(h, item, selected);
      |r| == |h| && r[k] == Some(Stack(item, FULL_STACK))
      && (forall j :: 0 <= j < |h| && j != k ==> r[j] == h[j])
      && FindBlock(r, item) == k
  {
    var r, k := Stocked(h, item, selected), StockedSlot(h, item, selected);
    assert Holds(r[k], item);
    assert forall j :: 0 <= j < k ==> r[j] == h[j] && !Holds(h[j], item);
  }

  /** Clicking the same item twice leaves the hotbar as one click does. */
  lemma StockedIdempotent(h: seq<Slot>, item: int, selected: int)
    requires 0 <= selected < |h|
    ensures Stocked(Stocked(h, item, selected), item, selected) == Stocked(h, item, selected)
  {
    StockedChangesOneSlot(h, item, selected);
    var r := Stocked(h, item, selected);
    assert StockedSlot(r, item, selected) == StockedSlot(h, item, selected);
  }

  /** Clicking keeps every other block's total, except what an overwritten selected slot held. */
  lemma StockedTotals(h: seq<Slot>, item: int, selected: int, x: int)
    requires 0 <= selected < |h| && x != item
    ensures Total(Stocked(h, item, selected), x)
         == Total(h, x) - Held(h[StockedSlot(h, item, selected)], x)
    ensures HasRoom(h, item) ==> Total(Stocked(h, item, selected), x) == Total(h, x)
  {
    var k := StockedSlot(h, item, selected);
    TotalUpdate(h, k, Some(Stack(item, FULL_STACK)), x);
    if HasRoom(h, item) {
      assert Holds(h[k], item) || h[k].None?;
    }
  }

  /** `CreativeInventoryUI`, reduced to the game it stocks. */
  class CreativeScreen {
    const app: App

    constructor(app: App)
      ensures this.app == app
    {
      this.app := app;
    }

    /** `_on_item_click`: the two scans of the hotbar, then the selected slot. */
    method OnItemClick(item: int)
      requires app.Valid()
      modifies app.hotbar
      ensures app.hotbar[..] == Stocked(old(app.hotbar[..]), item, app.selectedHotbarSlot)
    {
      var hotbar := app.hotbar;
      var i := 0;
      while i < hotbar.Length
        invariant 0 <= i <= hotbar.Length
        invariant forall k :: 0 <= k < i ==> !Holds(hotbar[k], item)
      {
        var slot := hotbar[i];
        if slot.Some? && slot.value.block == item {
          assert FindBlock(hotbar[..], item) == i;
          hotbar[i] := Some(Stack(item, FULL_STACK));
          return;
        }
        i := i + 1;
      }
      assert FindBlock(hotbar[..], item) == -1;
      i := 0;
      while i < hotbar.Length
        invariant 0 <= i <= hotbar.Length
        invariant forall k :: 0 <= k < i ==> hotbar[k].Some?
      {
        if hotbar[i].None? {
          assert FindEmpty(hotbar[..]) == i;
          hotbar[i] := Some(Stack(item, FULL_STACK));
          return;
        }
        i := i + 1;
      }
      assert FindEmpty(hotbar[..]) == -1;
      hotbar[app.selectedHotbarSlot] := Some(Stack(item, FULL_STACK));
    }
  }
}
