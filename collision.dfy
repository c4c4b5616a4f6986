// The swept-box collision shared by the player, the mobs and the dropped
// items: `_sweep_axis` (three identical copies in player.py, mob_system.py
// and drop_system.py) and `_approach` (player.py and mob_system.py).
module Collision {
  import opened Settings
  import opened Util

  /** The axis a sweep moves along. */
  datatype Axis = X | Y | Z

  function Lo(b: Aabb, ax: Axis): real
  {
    match ax
    case X => b.minX
    case Y => b.minY
    case Z => b.minZ
  }

  function Hi(b: Aabb, ax: Axis): real
  {
    match ax
    case X => b.maxX
    case Y => b.maxY
    case Z => b.maxZ
  }

  /** Every extent of the box is non-negative. */
  predicate Proper(b: Aabb)
  {
    b.minX <= b.maxX && b.minY <= b.maxY && b.minZ <= b.maxZ
  }

  /** `aabb.moved` along one axis only. */
  function Shift(b: Aabb, ax: Axis, d: real): (r: Aabb)
    ensures Lo(r, ax) == Lo(b, ax) + d && Hi(r, ax) == Hi(b, ax) + d
    ensures forall k: Axis :: k != ax ==> Lo(r, k) == Lo(b, k) && Hi(r, k) == Hi(b, k)
  {
    match ax
    case X => b.Moved(d, 0.0, 0.0)
    case Y => b.Moved(0.0, d, 0.0)
    case Z => b.Moved(0.0, 0.0, d)
  }

  type Cell = (int, int, int)

  function BlockOf(c: Cell): Aabb
  {
    BlockAabb(c.0, c.1, c.2)
  }

  /** The open extents of `a` and `b` overlap along `k`. */
  predicate OverlapOn(a: Aabb, b: Aabb, k: Axis)
  {
    !(Hi(a, k) <= Lo(b, k) || Lo(a, k) >= Hi(b, k))
  }

  /** `a` and `b` overlap on both axes other than `ax`: the two `continue` tests of the scan. */
  predicate OverlapsAcross(a: Aabb, b: Aabb, ax: Axis)
  {
    match ax
    case X => OverlapOn(a, b, Y) && OverlapOn(a, b, Z)
    case Y => OverlapOn(a, b, X) && OverlapOn(a, b, Z)
    case Z => OverlapOn(a, b, X) && OverlapOn(a, b, Y)
  }

  lemma IntersectsByAxes(a: Aabb, b: Aabb, ax: Axis)
    ensures a.Intersects(b) <==> OverlapsAcross(a, b, ax) && OverlapOn(a, b, ax)
  {
  }

  /** Moving `a` by `delta` along `ax` would cross the near face of `b`. */
  predicate Enters(a: Aabb, b: Aabb, delta: real, ax: Axis)
  {
    if delta > 0.0 then Hi(a, ax) <= Lo(b, ax) && Hi(a, ax) + delta > Lo(b, ax)
    else Lo(a, ax) >= Hi(b, ax) && Lo(a, ax) + delta < Hi(b, ax)
  }

  /** Cell `c` is solid and stands in the way of the sweep. */
  predicate Blocking(solid: (int, int, int) -> bool, a: Aabb, delta: real, ax: Axis, c: Cell)
  {
    solid(c.0, c.1, c.2) && OverlapsAcross(a, BlockOf(c), ax) && Enters(a, BlockOf(c), delta, ax)
  }

  /** How far the sweep may go before the face of a blocking cell, keeping a gap of EPSILON. */
  function Limit(a: Aabb, delta: real, ax: Axis, c: Cell): real
  {
    if delta > 0.0 then Lo(BlockOf(c), ax) - Hi(a, ax) - EPSILON
    else Hi(BlockOf(c), ax) - Lo(a, ax) + EPSILON
  }

  /** `x` lies no further than `y` in the direction of `delta`. */
  predicate NoFurther(delta: real, x: real, y: real)
  {
    if delta > 0.0 then x <= y else x >= y
  }

  /** One cell of the scan: a blocking cell pulls `allowed` back to its limit and sets `hit`. */
  function Step(solid: (int, int, int) -> bool, a: Aabb, delta: real, ax: Axis, st: (real, bool), c: Cell): (real, bool)
  {
    if !Blocking(solid, a, delta, ax, c) then st
    else if delta > 0.0 then (RMin(st.0, Limit(a, delta, ax, c)), true)
    else (RMax(st.0, Limit(a, delta, ax, c)), true)
  }

  /** The scan over `cells` in order, starting from `allowed = delta` and `hit = False`. */
  function Scan(solid: (int, int, int) -> bool, a: Aabb, delta: real, ax: Axis, cells: seq<Cell>): (real, bool)
  {
    if cells == [] then (delta, false)
    else Step(solid, a, delta, ax, Scan(solid, a, delta, ax, cells[..|cells| - 1]), cells[|cells| - 1])
  }

  /**
   * The scan's result is `delta` pulled back to the nearest limit of a
   * blocking cell, and it hits exactly when some cell blocks.
   */
  lemma {:induction false} ScanSpec(solid: (int, int, int) -> bool, a: Aabb, delta: real, ax: Axis, cells: seq<Cell>)
    requires delta != 0.0
    ensures var r := Scan(solid, a, delta, ax, cells);
      NoFurther(delta, r.0, delta)
      && (forall c :: c in cells && Blocking(solid, a, delta, ax, c) ==> NoFurther(delta, r.0, Limit(a, delta, ax, c)))
      && (r.0 == delta || exists c :: c in cells && Blocking(solid, a, delta, ax, c) && r.0 == Limit(a, delta, ax, c))
      && (r.1 <==> exists c :: c in cells && Blocking(solid, a, delta, ax, c))
  {
    if cells != [] {
      var init := cells[..|cells| - 1];
      var last := cells[|cells| - 1];
      ScanSpec(solid, a, delta, ax, init);
      assert cells == init + [last];
      forall c | c in cells
        ensures c in init || c == last
      {
      }
    }
  }

  // ---------------------------------------------------------------------
  // The swept range of cells

  /** The cells (x, y, z0) .. (x, y, z1), innermost loop order. */
  function Column(x: int, y: int, z0: int, z1: int): seq<Cell>
    decreases z1 - z0
  {
    if z1 < z0 then [] else Column(x, y, z0, z1 - 1) + [(x, y, z1)]
  }

  /** The columns y0 .. y1 at x, middle loop order. */
  function Plane(x: int, y0: int, y1: int, z0: int, z1: int): seq<Cell>
    decreases y1 - y0
  {
    if y1 < y0 then [] else Plane(x, y0, y1 - 1, z0, z1) + Column(x, y1, z0, z1)
  }

  /** The planes x0 .. x1, outer loop order. */
  function Box(x0: int, x1: int, y0: int, y1: int, z0: int, z1: int): seq<Cell>
    decreases x1 - x0
  {
    if x1 < x0 then [] else Box(x0, x1 - 1, y0, y1, z0, z1) + Plane(x1, y0, y1, z0, z1)
  }

  lemma {:induction false} ColumnCells(x: int, y: int, z0: int, z1: int)
    ensures forall c :: c in Column(x, y, z0, z1) <==> c.0 == x && c.1 == y && z0 <= c.2 <= z1
    decreases z1 - z0
  {
    if z1 >= z0 {
      ColumnCells(x, y, z0, z1 - 1);
    }
  }

  lemma {:induction false} PlaneCells(x: int, y0: int, y1: int, z0: int, z1: int)
    ensures forall c :: c in Plane(x, y0, y1, z0, z1) <==> c.0 == x && y0 <= c.1 <= y1 && z0 <= c.2 <= z1
    decreases y1 - y0
  {
    if y1 >= y0 {
      PlaneCells(x, y0, y1 - 1, z0, z1);
      ColumnCells(x, y1, z0, z1);
    }
  }

  lemma {:induction false} BoxCells(x0: int, x1: int, y0: int, y1: int, z0: int, z1: int)
    ensures forall c :: c in Box(x0, x1, y0, y1, z0, z1) <==> x0 <= c.0 <= x1 && y0 <= c.1 <= y1 && z0 <= c.2 <= z1
    decreases x1 - x0
  {
    if x1 >= x0 {
      BoxCells(x0, x1 - 1, y0, y1, z0, z1);
      PlaneCells(x1, y0, y1, z0, z1);
    }
  }

  /**
   * The cell range the scan covers along axis `k`, both ends included:
   * along the sweep axis it reaches `delta` further, on the other axes it
   * spans the box, one cell beyond the floor of each maximum.
   */
  function RangeOn(a: Aabb, delta: real, ax: Axis, k: Axis): (int, int)
  {
    if k != ax then (Lo(a, k).Floor, Hi(a, k).Floor + 1)
    else if delta > 0.0 then (Lo(a, k).Floor, (Hi(a, k) + delta).Floor + 1)
    else ((Lo(a, k) + delta).Floor, Hi(a, k).Floor + 1)
  }

  /** The cells the scan visits, in its loop order. */
  function SweepCells(a: Aabb, delta: real, ax: Axis): seq<Cell>
  {
    var rx, ry, rz := RangeOn(a, delta, ax, X), RangeOn(a, delta, ax, Y), RangeOn(a, delta, ax, Z);
    Box(rx.0, rx.1, ry.0, ry.1, rz.0, rz.1)
  }

  /** The result of `_sweep_axis(aabb, delta, axis)`: the allowed move and whether a block was hit. */
  function SweepOf(solid: (int, int, int) -> bool, a: Aabb, delta: real, ax: Axis): (real, bool)
  {
    if delta == 0.0 then (0.0, false) else Scan(solid, a, delta, ax, SweepCells(a, delta, ax))
  }

  function CoordOf(c: Cell, k: Axis): int
  {
    match k
    case X => c.0
    case Y => c.1
    case Z => c.2
  }

  /** Cell `c` lies in the range along each axis. */
  predicate InRange(a: Aabb, delta: real, ax: Axis, c: Cell)
  {
    RangeOn(a, delta, ax, X).0 <= c.0 <= RangeOn(a, delta, ax, X).1
    && RangeOn(a, delta, ax, Y).0 <= c.1 <= RangeOn(a, delta, ax, Y).1
    && RangeOn(a, delta, ax, Z).0 <= c.2 <= RangeOn(a, delta, ax, Z).1
  }

  lemma SweepCellsInRange(a: Aabb, delta: real, ax: Axis)
    ensures forall c :: c in SweepCells(a, delta, ax) <==> InRange(a, delta, ax, c)
  {
    var rx, ry, rz := RangeOn(a, delta, ax, X), RangeOn(a, delta, ax, Y), RangeOn(a, delta, ax, Z);
    BoxCells(rx.0, rx.1, ry.0, ry.1, rz.0, rz.1);
  }

  // ---------------------------------------------------------------------
  // The scan as the source runs it

  /** `_sweep_axis`: the triple loop over the swept range. */
  method SweepAxis(solid: (int, int, int) -> bool, a: Aabb, delta: real, ax: Axis) returns (allowed: real, hit: bool)
    ensures (allowed, hit) == SweepOf(solid, a, delta, ax)
  {
    if delta == 0.0 {
      return 0.0, false;
    }
    var rx, ry, rz := RangeOn(a, delta, ax, X), RangeOn(a, delta, ax, Y), RangeOn(a, delta, ax, Z);
    var st := ScanBox(solid, a, delta, ax, rx.0, rx.1, ry.0, ry.1, rz.0, rz.1);
    allowed, hit := st.0, st.1;
  }

  /** The outer loop: planes x0 .. x1, starting from `allowed = delta` and `hit = False`. */
  method ScanBox(solid: (int, int, int) -> bool, a: Aabb, delta: real, ax: Axis, x0: int, x1: int, y0: int, y1: int, z0: int, z1: int)
    returns (st: (real, bool))
    ensures st == Scan(solid, a, delta, ax, Box(x0, x1, y0, y1, z0, z1))
  {
    st := (delta, false);
    ghost var visited: seq<Cell> := [];
    var bx := x0;
    while bx <= x1
      invariant bx == x0 || x0 <= bx <= x1 + 1
      invariant visited == Box(x0, bx - 1, y0, y1, z0, z1)
      invariant st == Scan(solid, a, delta, ax, visited)
      decreases x1 - bx
    {
      st, visited := ScanPlane(solid, a, delta, ax, bx, y0, y1, z0, z1, st, visited);
      bx := bx + 1;
    }
    assert Box(x0, bx - 1, y0, y1, z0, z1) == Box(x0, x1, y0, y1, z0, z1);
  }

  /** The middle loop for one x: columns y0 .. y1 appended to what was visited. */
  method ScanPlane(solid: (int, int, int) -> bool, a: Aabb, delta: real, ax: Axis, x: int, y0: int, y1: int, z0: int, z1: int,
                   st0: (real, bool), ghost visited0: seq<Cell>)
    returns (st: (real, bool), ghost visited: seq<Cell>)
    requires st0 == Scan(solid, a, delta, ax, visited0)
    ensures visited == visited0 + Plane(x, y0, y1, z0, z1)
    ensures st == Scan(solid, a, delta, ax, visited)
  {
    st, visited := st0, visited0;
    var cy := y0;
    while cy <= y1
      invariant cy == y0 || y0 <= cy <= y1 + 1
      invariant visited == visited0 + Plane(x, y0, cy - 1, z0, z1)
      invariant st == Scan(solid, a, delta, ax, visited)
      decreases y1 - cy
    {
      st, visited := ScanColumn(solid, a, delta, ax, x, cy, z0, z1, st, visited);
      cy := cy + 1;
    }
    assert Plane(x, y0, cy - 1, z0, z1) == Plane(x, y0, y1, z0, z1);
  }

  /** The inner loop for one (x, y): cells z0 .. z1 appended to what was visited. */
  method ScanColumn(solid: (int, int, int) -> bool, a: Aabb, delta: real, ax: Axis, x: int, y: int, z0: int, z1: int,
                    st0: (real, bool), ghost visited0: seq<Cell>)
    returns (st: (real, bool), ghost visited: seq<Cell>)
    requires st0 == Scan(solid, a, delta, ax, visited0)
    ensures visited == visited0 + Column(x, y, z0, z1)
    ensures st == Scan(solid, a, delta, ax, visited)
  {
    st, visited := st0, visited0;
    var bz := z0;
    while bz <= z1
      invariant bz == z0 || z0 <= bz <= z1 + 1
      invariant visited == visited0 + Column(x, y, z0, bz - 1)
      invariant st == Scan(solid, a, delta, ax, visited)
      decreases z1 - bz
    {
      st := ScanCell(solid, a, delta, ax, (x, y, bz), st);
      assert (visited + [(x, y, bz)])[..|visited|] == visited;
      visited := visited + [(x, y, bz)];
      bz := bz + 1;
    }
    assert Column(x, y, z0, bz - 1) == Column(x, y, z0, z1);
  }

  /** The loop body: skip a cell that is not solid or not across the box, else clamp `allowed`. */
  method ScanCell(solid: (int, int, int) -> bool, a: Aabb, delta: real, ax: Axis, c: Cell, st0: (real, bool))
    returns (st: (real, bool))
    ensures st == Step(solid, a, delta, ax, st0, c)
  {
    st := st0;
    if !solid(c.0, c.1, c.2) {
      return;
    }
    var blk := BlockAabb(c.0, c.1, c.2);
    if !OverlapsAcross(a, blk, ax) {
      return;
    }
    if delta > 0.0 {
      if Hi(a, ax) <= Lo(blk, ax) && Hi(a, ax) + delta > Lo(blk, ax) {
        st := (RMin(st.0, Lo(blk, ax) - Hi(a, ax) - EPSILON), true);
      }
    } else {
      if Lo(a, ax) >= Hi(blk, ax) && Lo(a, ax) + delta < Hi(blk, ax) {
        st := (RMax(st.0, Hi(blk, ax) - Lo(a, ax) + EPSILON), true);
      }
    }
  }

  // ---------------------------------------------------------------------
  // What the sweep guarantees

  /**
   * A zero move is (0, False); otherwise the move never exceeds `delta`,
   * stops EPSILON short of every blocking cell of the swept range, is
   * `delta` itself or exactly one such limit, and hits exactly when some
   * cell of the range blocks.
   */
  lemma SweepSpec(solid: (int, int, int) -> bool, a: Aabb, delta: real, ax: Axis)
    ensures var r := SweepOf(solid, a, delta, ax);
      (delta == 0.0 ==> r == (0.0, false))
      && (delta != 0.0 ==>
            NoFurther(delta, r.0, delta)
            && (forall c :: InRange(a, delta, ax, c) && Blocking(solid, a, delta, ax, c) ==> NoFurther(delta, r.0, Limit(a, delta, ax, c)))
            && (r.0 == delta || exists c :: InRange(a, delta, ax, c) && Blocking(solid, a, delta, ax, c) && r.0 == Limit(a, delta, ax, c))
            && (r.1 <==> exists c :: InRange(a, delta, ax, c) && Blocking(solid, a, delta, ax, c)))
  {
    if delta != 0.0 {
      ScanSpec(solid, a, delta, ax, SweepCells(a, delta, ax));
      SweepCellsInRange(a, delta, ax);
    }
  }

  /** `allowed` does not point against the direction of `delta`. */
  predicate Toward(delta: real, allowed: real)
  {
    if delta > 0.0 then allowed >= 0.0 else allowed <= 0.0
  }

  /** No solid cell's block intersects `b`. */
  ghost predicate Clear(solid: (int, int, int) -> bool, b: Aabb)
  {
    forall x, y, z :: solid(x, y, z) ==> !b.Intersects(BlockAabb(x, y, z))
  }

  /**
   * A proper box that intersects no solid block still intersects none after
   * moving by the allowed amount, as long as that amount does not point
   * against the sweep (it can only do so, by at most EPSILON, when the box
   * already touches a block ahead).
   */
  lemma SweepKeepsClear(solid: (int, int, int) -> bool, a: Aabb, delta: real, ax: Axis)
    requires Proper(a) && Clear(solid, a)
    requires Toward(delta, SweepOf(solid, a, delta, ax).0)
    ensures Clear(solid, Shift(a, ax, SweepOf(solid, a, delta, ax).0))
  {
    var r := SweepOf(solid, a, delta, ax);
    var m := Shift(a, ax, r.0);
    SweepSpec(solid, a, delta, ax);
    forall x, y, z | solid(x, y, z)
      ensures !m.Intersects(BlockAabb(x, y, z))
    {
      var c := (x, y, z);
      var b := BlockOf(c);
      IntersectsByAxes(a, b, ax);
      IntersectsByAxes(m, b, ax);
      if m.Intersects(b) {
        assert OverlapsAcross(a, b, ax) by {
          AcrossUnchanged(a, m, b, ax);
        }
        if delta > 0.0 {
          assert Hi(a, ax) <= Lo(b, ax);
          AheadInRange(a, delta, ax, c);
          assert Blocking(solid, a, delta, ax, c);
          assert false;
        } else {
          assert Lo(a, ax) >= Hi(b, ax);
          BehindInRange(a, delta, ax, c);
          assert Blocking(solid, a, delta, ax, c);
          assert false;
        }
      }
    }
  }

  /** The three allowed moves of one physics step: X first, then Y on the moved box, then Z. */
  function Sweeps(solid: (int, int, int) -> bool, b: Aabb, dx: real, dy: real, dz: real): (real, real, real)
  {
    var ax := SweepOf(solid, b, dx, X).0;
    var b1 := Shift(b, X, ax);
    var ay := SweepOf(solid, b1, dy, Y).0;
    (ax, ay, SweepOf(solid, Shift(b1, Y, ay), dz, Z).0)
  }

  /**
   * A box clear of every solid block is still clear after the three
   * sweeps of a physics step, when none of them backs off.
   */
  lemma SweepsKeepClear(solid: (int, int, int) -> bool, b: Aabb, dx: real, dy: real, dz: real)
    requires Proper(b) && Clear(solid, b)
    requires var a := Sweeps(solid, b, dx, dy, dz); Toward(dx, a.0) && Toward(dy, a.1) && Toward(dz, a.2)
    ensures var a := Sweeps(solid, b, dx, dy, dz); Clear(solid, b.Moved(a.0, a.1, a.2))
  {
    var a := Sweeps(solid, b, dx, dy, dz);
    var b1 := Shift(b, X, a.0);
    SweepKeepsClear(solid, b, dx, X);
    var b2 := Shift(b1, Y, a.1);
    SweepKeepsClear(solid, b1, dy, Y);
    SweepKeepsClear(solid, b2, dz, Z);
    assert Shift(b2, Z, a.2) == b.Moved(a.0, a.1, a.2);
  }

  lemma AcrossUnchanged(a: Aabb, m: Aabb, b: Aabb, ax: Axis)
    requires forall k: Axis :: k != ax ==> Lo(m, k) == Lo(a, k) && Hi(m, k) == Hi(a, k)
    ensures OverlapsAcross(m, b, ax) <==> OverlapsAcross(a, b, ax)
  {
    assert ax != X ==> Lo(m, X) == Lo(a, X) && Hi(m, X) == Hi(a, X);
    assert ax != Y ==> Lo(m, Y) == Lo(a, Y) && Hi(m, Y) == Hi(a, Y);
    assert ax != Z ==> Lo(m, Z) == Lo(a, Z) && Hi(m, Z) == Hi(a, Z);
  }

  /** A unit cell overlapping the open extent [lo, hi] of the box lies between lo's floor and hi's floor. */
  lemma OverlapFloors(lo: real, hi: real, v: int)
    requires hi > v as real && lo < v as real + 1.0
    ensures lo.Floor <= v <= hi.Floor + 1
  {
  }

  /** A cell ahead of a positive sweep that the move reaches lies in the swept range. */
  lemma AheadInRange(a: Aabb, delta: real, ax: Axis, c: Cell)
    requires Proper(a) && delta > 0.0
    requires OverlapsAcross(a, BlockOf(c), ax)
    requires Hi(a, ax) <= Lo(BlockOf(c), ax) < Hi(a, ax) + delta
    ensures InRange(a, delta, ax, c)
  {
    OtherAxesInRange(a, delta, ax, c);
    var v := CoordOf(c, ax);
    assert Lo(BlockOf(c), ax) == v as real by { BlockCoords(c, ax); }
    assert Lo(a, ax) <= Hi(a, ax) by { ProperAxis(a, ax); }
    OverlapFloors(Lo(a, ax), Hi(a, ax) + delta, v);
    AxisInRange(a, delta, ax, c);
  }

  /** A cell behind a negative sweep that the move reaches lies in the swept range. */
  lemma BehindInRange(a: Aabb, delta: real, ax: Axis, c: Cell)
    requires Proper(a) && delta <= 0.0
    requires OverlapsAcross(a, BlockOf(c), ax)
    requires Lo(a, ax) + delta < Hi(BlockOf(c), ax) <= Lo(a, ax)
    ensures InRange(a, delta, ax, c)
  {
    OtherAxesInRange(a, delta, ax, c);
    var v := CoordOf(c, ax);
    assert Hi(BlockOf(c), ax) == v as real + 1.0 by { BlockCoords(c, ax); }
    assert Lo(a, ax) <= Hi(a, ax) by { ProperAxis(a, ax); }
    OverlapFloors(Lo(a, ax) + delta, Hi(a, ax), v);
    AxisInRange(a, delta, ax, c);
  }

  lemma ProperAxis(a: Aabb, k: Axis)
    requires Proper(a)
    ensures Lo(a, k) <= Hi(a, k)
  {
  }

  lemma BlockCoords(c: Cell, k: Axis)
    ensures Lo(BlockOf(c), k) == CoordOf(c, k) as real && Hi(BlockOf(c), k) == CoordOf(c, k) as real + 1.0
  {
  }

  /** The bound along the sweep axis, given the floors along it. */
  lemma AxisInRange(a: Aabb, delta: real, ax: Axis, c: Cell)
    requires RangeOn(a, delta, ax, ax).0 <= CoordOf(c, ax) <= RangeOn(a, delta, ax, ax).1
    requires forall k: Axis :: k != ax ==> RangeOn(a, delta, ax, k).0 <= CoordOf(c, k) <= RangeOn(a, delta, ax, k).1
    ensures InRange(a, delta, ax, c)
  {
    assert forall k: Axis :: RangeOn(a, delta, ax, k).0 <= CoordOf(c, k) <= RangeOn(a, delta, ax, k).1;
    assert RangeOn(a, delta, ax, X).0 <= CoordOf(c, X) <= RangeOn(a, delta, ax, X).1;
    assert RangeOn(a, delta, ax, Y).0 <= CoordOf(c, Y) <= RangeOn(a, delta, ax, Y).1;
  }

  /** Across the sweep, a cell overlapping the box lies within the box's floors. */
  lemma OtherAxesInRange(a: Aabb, delta: real, ax: Axis, c: Cell)
    requires OverlapsAcross(a, BlockOf(c), ax)
    ensures forall k: Axis :: k != ax ==> RangeOn(a, delta, ax, k).0 <= CoordOf(c, k) <= RangeOn(a, delta, ax, k).1
  {
    forall k: Axis | k != ax
      ensures RangeOn(a, delta, ax, k).0 <= CoordOf(c, k) <= RangeOn(a, delta, ax, k).1
    {
      assert OverlapOn(a, BlockOf(c), k);
      BlockCoords(c, k);
      OverlapFloors(Lo(a, k), Hi(a, k), CoordOf(c, k));
    }
  }

  // ---------------------------------------------------------------------
  // _approach

  /** `_approach(current, target, delta)`: step towards `target` by at most `delta`. */
  function Approach(current: real, target: real, delta: real): real
  {
    if current < target then RMin(target, current + delta)
    else if current > target then RMax(target, current - delta)
    else current
  }

  /**
   * With a non-negative step the result lies between current and target,
   * moves at most `delta`, and is the target once it is within reach.
   */
  lemma ApproachSpec(current: real, target: real, delta: real)
    requires delta >= 0.0
    ensures var r := Approach(current, target, delta);
      (RMin(current, target) <= r <= RMax(current, target))
      && -delta <= r - current <= delta
      && (-delta <= target - current <= delta ==> r == target)
      && (r == target || r - current == delta || current - r == delta)
  {
  }
}
