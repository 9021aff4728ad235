/** The imperative shadow caster: integer corner slopes, bits and a tile list, proved against the beams. */
module VisibilityTable {
  import opened Collections
  import opened Grid
  import opened Beam
  import opened Rays
  import opened Ring
  import opened Sight

  // ----- integer slopes

  lemma Cancel(a: real, b: real, u: real)
    requires u > 0.0
    ensures a * u <= b * u <==> a <= b
    ensures a * u < b * u <==> a < b
  {
  }

  /** Where the ray through the corner (x, y) crosses the line h. */
  lemma Crossing(x: int, y: nat, h: nat)
    requires y > 0
    ensures At(Slope(x, y), h) * y as real == (x * h) as real
  {
    var s := Slope(x, y);
    AtIsProduct(s, y);
    AtIsProduct(s, h);
    Swap(s, y as real, h as real);
  }

  lemma Swap(s: real, y: real, h: real)
    ensures (s * h) * y == (s * y) * h
  {
  }

  lemma IntProduct(v: int, y: int)
    ensures v as real * y as real == (v * y) as real
  {
  }

  lemma Compare(c: real, v: int, y: nat, q: int)
    requires y > 0 && c * y as real == q as real
    ensures v as real <= c <==> v * y <= q
    ensures v as real < c <==> v * y < q
  {
    IntProduct(v, y);
    Cancel(v as real, c, y as real);
  }

  /** The code compares an integer v with a crossing point by comparing v * y with x * h. */
  lemma CrossingOrder(x: int, y: nat, h: nat, v: int)
    requires y > 0
    ensures v as real <= At(Slope(x, y), h) <==> v * y <= x * h
    ensures v as real < At(Slope(x, y), h) <==> v * y < x * h
  {
    Crossing(x, y, h);
    Compare(At(Slope(x, y), h), v, y, x * h);
  }

  /** The code's beam test compares cross products. */
  lemma SlopeOrder(x1: int, y1: nat, x2: int, y2: nat)
    requires y1 > 0 && y2 > 0
    ensures y2 * x1 >= y1 * x2 <==> Slope(x1, y1) >= Slope(x2, y2)
  {
    CrossingOrder(x1, y1, y2, x2);
    AtMono(Slope(x1, y1), Slope(x2, y2), y2);
  }

  /** Rounding the floor of a crossing point up to an even number and halving it gives the beam's first cell. */
  lemma FloorCell(x: int, y: nat, h: nat, v: int)
    requires y > 0 && v == (x * h) / y
    ensures (if v % 2 != 0 then v + 1 else v) / 2 == LeftCell(Slope(x, y), h)
  {
    hide *;
    CrossingOrder(x, y, h, v);
    CrossingOrder(x, y, h, v + 1);
    DivBounds(x * h, y);
  }

  /** Rounding the ceiling down to an even number and halving it gives the beam's last cell. */
  lemma CeilingCell(x: int, y: nat, h: nat, v: int)
    requires y > 0 && v == -((-(x * h)) / y)
    ensures (if v % 2 != 0 then v - 1 else v) / 2 == RightCell(Slope(x, y), h)
  {
    hide *;
    CrossingOrder(x, y, h, v);
    CrossingOrder(x, y, h, v - 1);
    DivBoundsUp(x * h, y);
  }

  lemma DivBounds(a: int, y: nat)
    requires y > 0
    ensures (a / y) * y <= a < (a / y + 1) * y
  {
  }

  lemma DivBoundsUp(a: int, y: nat)
    requires y > 0
    ensures (-((-a) / y) - 1) * y < a <= -((-a) / y) * y
  {
    var q := (-a) / y;
    assert q * y <= -a < (q + 1) * y;
    assert (-q) * y == -(q * y) && (-q - 1) * y == -((q + 1) * y);
  }

  // ----- the caster

  /** Every look of the trace hits an entry of the table and stays inside the sight range. */
  ghost predicate Safe(w: View, t: seq<Event>) {
    forall e :: e in t ==> w.At(e.i, e.k) in w.table && InCone(w, e, 1)
  }

  /** What is left to record after the marks of the trace. */
  function After(bounds: Rectangle, w: View, tiles: seq<Vec2>, t: seq<Event>): seq<Vec2> {
    Record(bounds, w.o, tiles, Marks(w.rot, t))
  }

  lemma AfterConcat(bounds: Rectangle, w: View, tiles: seq<Vec2>, a: seq<Event>, b: seq<Event>)
    ensures After(bounds, w, tiles, a + b) == After(bounds, w, After(bounds, w, tiles, a), b)
  {
    MarksConcat(w.rot, a, b);
    RecordConcat(bounds, w.o, tiles, Marks(w.rot, a), Marks(w.rot, b));
  }

  lemma AfterNothing(bounds: Rectangle, w: View, tiles: seq<Vec2>)
    ensures After(bounds, w, tiles, []) == tiles
  {
  }

  /** Empty beams and beams past the sight range look at nothing. */
  lemma NoTrace(w: View, h: nat, s1: real, s2: real)
    requires h >= 2 && (s1 >= s2 || h > 2 * w.range)
    ensures Trace(w, h, s1, s2) == []
  {
  }

  /** Behind the last cell of its row the beam goes on to the next row. */
  lemma RowEnd(w: View, h: nat, s2: real, first: int, last: int, i: int, left: real, prev: bool)
    requires 2 <= h <= 2 * w.range && first <= i && last < i
    ensures Scan(w, h, s2, first, last, i, left, prev) == Trace(w, h + 2, left, s2)
  {
  }

  /** The first step of a row that is looked at. */
  lemma RowStart(bounds: Rectangle, w: View, tiles: seq<Vec2>, h: nat, s1: real, s2: real)
    requires 2 <= h <= 2 * w.range && w.range == SIGHT_RANGE && s1 < s2
    requires Safe(w, Trace(w, h, s1, s2))
    ensures var first, last, b := LeftCell(s1, h), RightCell(s2, h), LeftCell(s1, h - 1);
            var rest := Scan(w, h, s2, first, last, first, CornerLeft(w, h, s1), false);
            && -SIGHT_RANGE <= first <= last <= SIGHT_RANGE && -SIGHT_RANGE <= b <= SIGHT_RANGE
            && w.At(b, h / 2) in w.table && Safe(w, rest)
            && CornerLeft(w, h, s1) ==
               (if w.table[w.At(b, h / 2)] then Slope(2 * b + 1, if b >= 0 then h - 1 else h + 1) else s1)
            && After(bounds, w, tiles, rest) == After(bounds, w, tiles, Trace(w, h, s1, s2))
  {
    var first, last, b := LeftCell(s1, h), RightCell(s2, h), LeftCell(s1, h - 1);
    var rest := Scan(w, h, s2, first, last, first, CornerLeft(w, h, s1), false);
    AtMono(s1, s2, h);
    ScanVisits(w, h, s2, first, last, first, CornerLeft(w, h, s1), false, first);
    ScanVisits(w, h, s2, first, last, first, CornerLeft(w, h, s1), false, last);
    var e := Corner(b, h / 2);
    assert Trace(w, h, s1, s2) == [e] + rest;
    assert e in Trace(w, h, s1, s2) && Visit(first, h / 2) in rest && Visit(last, h / 2) in rest;
    assert ([e] + rest)[1..] == rest;
    assert Marks(w.rot, [e] + rest) == Marks(w.rot, rest);
  }

  /** Recording a trace that starts with a marked cell. */
  lemma AfterVisit(bounds: Rectangle, w: View, tiles: seq<Vec2>, e: Event, gap: seq<Event>, rest: seq<Event>)
    requires e.Visit? && Safe(w, [e] + gap + rest)
    ensures w.At(e.i, e.k) in w.table && InCone(w, e, 1) && Safe(w, gap) && Safe(w, rest)
    ensures After(bounds, w, tiles, [e] + gap + rest)
            == After(bounds, w, After(bounds, w, Record1(bounds, w.o, tiles, Rotate(w.rot, e.i, e.k)), gap), rest)
  {
    var all, d := [e] + gap + rest, Rotate(w.rot, e.i, e.k);
    assert all[0] == e && e in all;
    assert all[1..] == gap + rest;
    assert forall f :: f in gap || f in rest ==> f in all;
    assert Marks(w.rot, all) == [d] + Marks(w.rot, gap + rest);
    assert Marks(w.rot, all)[1..] == Marks(w.rot, gap + rest);
    AfterConcat(bounds, w, Record1(bounds, w.o, tiles, d), gap, rest);
  }

  /** One turn of the loop over a row: the cell itself, the beam through the gap before it, and the rest. */
  lemma RowStep(bounds: Rectangle, w: View, tiles: seq<Vec2>, h: nat, s2: real, first: int, last: int, i: int,
                left: real, prev: bool, all: seq<Event>) returns (gap: seq<Event>, rest: seq<Event>)
    requires 2 <= h <= 2 * w.range && w.range == SIGHT_RANGE && first <= i <= last
    requires all == Scan(w, h, s2, first, last, i, left, prev) && Safe(w, all)
    ensures w.At(i, h / 2) in w.table
    ensures var d := Rotate(w.rot, i, h / 2);
            -SIGHT_RANGE <= d.x <= SIGHT_RANGE && -SIGHT_RANGE <= d.y <= SIGHT_RANGE
    ensures var blocking := w.table[w.At(i, h / 2)];
            && gap == (if i > first && blocking && !prev
                       then Trace(w, h + 2, left, Slope(i * 2 - 1, if i <= 0 then h - 1 else h + 1)) else [])
            && rest == Scan(w, h, s2, first, last, i + 1,
                            if blocking then Slope(i * 2 + 1, if i >= 0 then h - 1 else h + 1) else left, blocking)
    ensures Safe(w, gap) && Safe(w, rest)
    ensures After(bounds, w, tiles, all)
            == After(bounds, w, After(bounds, w, Record1(bounds, w.o, tiles, Rotate(w.rot, i, h / 2)), gap), rest)
  {
    hide Trace, Slope, Safe, After, Record1;
    var b := w.Blocks(i, h / 2);
    gap := if i > first && b && !prev then Trace(w, h + 2, left, MinSlope(i, h)) else [];
    rest := Scan(w, h, s2, first, last, i + 1, if b then MaxSlope(i, h) else left, b);
    assert all == [Visit(i, h / 2)] + gap + rest;
    AfterVisit(bounds, w, tiles, Visit(i, h / 2), gap, rest);
  }

  /** The floor of a crossing point, rounded up to an even number. */
  method EvenFloor(x: int, y: nat, h: nat) returns (v: int)
    requires y > 0
    ensures v == 2 * LeftCell(Slope(x, y), h)
  {
    hide *;
    v := (x * h) / y;
    FloorCell(x, y, h, v);
    if v % 2 != 0 { v := v + 1; }
  }

  /** The ceiling of a crossing point, rounded down to an even number. */
  method EvenCeiling(x: int, y: nat, h: nat) returns (v: int)
    requires y > 0
    ensures v == 2 * RightCell(Slope(x, y), h)
  {
    hide *;
    v := -((-(x * h)) / y);
    CeilingCell(x, y, h, v);
    if v % 2 != 0 { v := v - 1; }
  }

  /** The even numbers the code derives from the crossing points of the two edges. */
  method RowRange(h: nat, x1: int, y1: nat, x2: int, y2: nat) returns (leftV: int, rightV: int, leftB: int)
    requires h >= 2 && y1 > 0 && y2 > 0
    ensures leftV == 2 * LeftCell(Slope(x1, y1), h) && rightV == 2 * RightCell(Slope(x2, y2), h)
    ensures leftB == 2 * LeftCell(Slope(x1, y1), h - 1)
  {
    hide *;
    leftV := EvenFloor(x1, y1, h);
    rightV := EvenCeiling(x2, y2, h);
    leftB := EvenFloor(x1, y1, h - 1);
  }

  /** The blocking table of a level: one entry for each square of the level and of the margin around it, and every
      square of the margin blocks. */
  ghost predicate Bordered(bounds: Rectangle, table: map<Vec2, bool>) {
    && (forall v :: v in table <==> bounds.MinusMargin(-1).Contains(v))
    && (forall v :: v in table && !bounds.Contains(v) ==> table[v])
  }

  /** The margin walls in each of the four quadrants, and what lies inside the wall has an entry. */
  lemma LevelWall(bounds: Rectangle, w: View) returns (L: int, R: int, T: int)
    requires w.rot < 4 && bounds.Contains(w.o) && Bordered(bounds, w.table)
    ensures T >= 1 && Walled(w, L, R, T)
    ensures forall e :: Inside(e, 1, L, R, T) ==> w.At(e.i, e.k) in w.table
  {
    hide View.Blocks, Bordered;
    var o := w.o;
    var l, r, t, b := bounds.left - 1 - o.x, bounds.right - o.x, bounds.top - 1 - o.y, bounds.bottom - o.y;
    if w.rot == 0 { L, R, T := l, r, b; }
    else if w.rot == 1 { L, R, T := -b, -t, r; }
    else if w.rot == 2 { L, R, T := -r, -l, -t; }
    else { L, R, T := t, b, -l; }
    forall k | 1 <= k <= T
      ensures w.Blocks(L, k) && w.Blocks(R, k)
    {
      BorderBlocks(bounds, w, L, k);
      BorderBlocks(bounds, w, R, k);
    }
    forall i | L <= i <= R
      ensures w.Blocks(i, T)
    {
      BorderBlocks(bounds, w, i, T);
    }
    forall e | Inside(e, 1, L, R, T)
      ensures w.At(e.i, e.k) in w.table
    {
      BorderEntry(bounds, w, e.i, e.k);
    }
  }

  lemma BorderEntry(bounds: Rectangle, w: View, i: int, k: int)
    requires Bordered(bounds, w.table) && bounds.MinusMargin(-1).Contains(w.At(i, k))
    ensures w.At(i, k) in w.table
  {
  }

  lemma BorderBlocks(bounds: Rectangle, w: View, i: int, k: int)
    requires Bordered(bounds, w.table) && bounds.MinusMargin(-1).Contains(w.At(i, k)) && !bounds.Contains(w.At(i, k))
    ensures w.Blocks(i, k)
  {
  }

  /** Every access to the blocking table of a level hits an entry, from every origin inside the level. */
  lemma LevelSafe(bounds: Rectangle, table: map<Vec2, bool>, o: Vec2, rot: nat)
    requires rot < 4 && bounds.Contains(o) && Bordered(bounds, table)
    ensures Safe(Look(table, o, rot), Quadrant(table, o, rot))
  {
    hide At, Walled, Bordered, Trace;
    var w := Look(table, o, rot);
    var L, R, T := LevelWall(bounds, w);
    DiagonalBeam(L, R, w, T);
    forall e | e in Quadrant(table, o, rot)
      ensures w.At(e.i, e.k) in w.table && InCone(w, e, 1)
    {
      TraceInCone(w, 2, -1.0, 1.0, e);
      TraceInWall(w, L, R, T, 2, -1.0, 1.0, e);
    }
  }

  lemma DiagonalBeam(L: int, R: int, w: View, T: nat)
    requires Walled(w, L, R, T)
    ensures T >= 1 && InWall(L, R, 2, -1.0, 1.0)
  {
    AtUnit(2);
  }

  lemma DiagonalSlopes()
    ensures Slope(-1, 1) == -1.0 && Slope(1, 1) == 1.0
  {
    AtUnit(1);
    AtMono(Slope(1, 1), 1.0, 1);
    AtMono(Slope(-1, 1), -1.0, 1);
  }

  /** The tile list after one more quadrant. */
  ghost function WithQuadrant(bounds: Rectangle, table: map<Vec2, bool>, o: Vec2, tiles: seq<Vec2>, rot: nat): seq<Vec2> {
    After(bounds, Look(table, o, rot), tiles, Quadrant(table, o, rot))
  }

  lemma QuadrantNext(bounds: Rectangle, table: map<Vec2, bool>, o: Vec2, n: nat)
    requires n < 4
    ensures var qs := Quadrants(table, o);
            Record(bounds, o, [], QuadrantMarks(qs, n + 1))
            == WithQuadrant(bounds, table, o, Record(bounds, o, [], QuadrantMarks(qs, n)), n)
  {
    RecordConcat(bounds, o, [], QuadrantMarks(Quadrants(table, o), n), Marks(n, Quadrant(table, o, n)));
  }

  lemma TilesInQuadrants(bounds: Rectangle, table: map<Vec2, bool>, o: Vec2)
    ensures var t1 := WithQuadrant(bounds, table, o, [], 0);
            var t2 := WithQuadrant(bounds, table, o, t1, 1);
            var t3 := WithQuadrant(bounds, table, o, t2, 2);
            var t4 := WithQuadrant(bounds, table, o, t3, 3);
            Tiles(bounds, table, o) == Record1(bounds, o, t4, Vec2(0, 0))
  {
    hide WithQuadrant, Quadrants;
    var marks := QuadrantMarks(Quadrants(table, o), 4);
    assert QuadrantMarks(Quadrants(table, o), 0) == [];
    QuadrantNext(bounds, table, o, 0);
    QuadrantNext(bounds, table, o, 1);
    QuadrantNext(bounds, table, o, 2);
    QuadrantNext(bounds, table, o, 3);
    RecordConcat(bounds, o, [], marks, [Vec2(0, 0)]);
    assert [Vec2(0, 0)][1..] == [];
  }

  class Visibility {
    const px: int
    const py: int
    const visible: array2<bool>
    var visibleTiles: seq<Vec2>

    function Origin(): Vec2 {
      Vec2(px, py)
    }

    /** The bits are the tile list, square by square; no tile is listed twice, and all lie in the disc. */
    ghost predicate Valid()
      reads this, visible
    {
      && visible.Length0 == 2 * SIGHT_RANGE + 1 && visible.Length1 == 2 * SIGHT_RANGE + 1
      && (forall a, b :: 0 <= a <= 2 * SIGHT_RANGE && 0 <= b <= 2 * SIGHT_RANGE ==>
            (visible[a, b] <==> Vec2(px + a - SIGHT_RANGE, py + b - SIGHT_RANGE) in visibleTiles))
      && Distinct(visibleTiles)
      && forall u :: u in visibleTiles ==> InDisc(u.Minus(Origin()))
    }

    method SetVisible(bounds: Rectangle, x: int, y: int)
      requires Valid() && -SIGHT_RANGE <= x <= SIGHT_RANGE && -SIGHT_RANGE <= y <= SIGHT_RANGE
      modifies this, visible
      ensures Valid() && visibleTiles == Record1(bounds, Origin(), old(visibleTiles), Vec2(x, y))
    {
      if bounds.Contains(Vec2(px + x, py + y)) && !visible[x + SIGHT_RANGE, y + SIGHT_RANGE] &&
         x * x + y * y <= SIGHT_RANGE * SIGHT_RANGE
      {
        visible[x + SIGHT_RANGE, y + SIGHT_RANGE] := true;
        visibleTiles := visibleTiles + [Vec2(px + x, py + y)];
      }
    }

    /** One beam, with the code's corner coordinates (x1, y1) and (x2, y2): records the marks of its trace. */
    method Calculate(bounds: Rectangle, w: View, h: nat, x1: int, y1: nat, x2: int, y2: nat)
      requires Valid() && w.o == Origin() && w.rot < 4 && w.range == SIGHT_RANGE
      requires h >= 2 && h % 2 == 0 && y1 > 0 && y2 > 0
      requires Safe(w, Trace(w, h, Slope(x1, y1), Slope(x2, y2)))
      modifies this, visible
      ensures Valid()
      ensures visibleTiles == After(bounds, w, old(visibleTiles), Trace(w, h, Slope(x1, y1), Slope(x2, y2)))
      decreases 2 * SIGHT_RANGE + 2 - h, 1
    {
      hide *;
      ghost var s1, s2 := Slope(x1, y1), Slope(x2, y2);
      SlopeOrder(x1, y1, x2, y2);
      AfterNothing(bounds, w, visibleTiles);
      if y2 * x1 >= y1 * x2 { NoTrace(w, h, s1, s2); return; }
      if h > 2 * SIGHT_RANGE { NoTrace(w, h, s1, s2); return; }
      var leftV, rightV, leftB := RowRange(h, x1, y1, x2, y2);
      ghost var first, last := LeftCell(s1, h), RightCell(s2, h);
      RowStart(bounds, w, visibleTiles, h, s1, s2);
      var leftx, lefty := EnterRow(w, h, x1, y1, leftB);
      if leftV < -2 * SIGHT_RANGE { leftV := -2 * SIGHT_RANGE; }
      if rightV > 2 * SIGHT_RANGE { rightV := 2 * SIGHT_RANGE; }
      var prevBlocking := false;
      ghost var left := CornerLeft(w, h, s1);
      ghost var todo := Scan(w, h, s2, first, last, first, left, false);
      ghost var total := After(bounds, w, visibleTiles, todo);
      var i := leftV / 2;
      while i <= rightV / 2
        invariant leftV == 2 * first && rightV == 2 * last && first <= i <= last + 1
        invariant lefty > 0 && Slope(leftx, lefty) == left
        invariant Valid()
        invariant todo == Scan(w, h, s2, first, last, i, left, prevBlocking)
        invariant Safe(w, todo) && After(bounds, w, visibleTiles, todo) == total
      {
        var blocking;
        blocking, todo := CastCell(bounds, w, h, s2, leftV / 2, last, i, leftx, lefty, prevBlocking, todo);
        if blocking {
          leftx := i * 2 + 1;
          lefty := if i >= 0 then h - 1 else h + 1;
          left := Slope(leftx, lefty);
        }
        prevBlocking := blocking;
        i := i + 1;
      }
      RowEnd(w, h, s2, first, last, i, left, prevBlocking);
      Calculate(bounds, w, h + 2, leftx, lefty, x2, y2);
    }

    /** The left edge of the beam in a row: the corner of the cell it enters the row through, if that blocks. */
    method EnterRow(w: View, h: nat, x1: int, y1: nat, leftB: int) returns (leftx: int, lefty: nat)
      requires h >= 2 && y1 > 0 && leftB % 2 == 0 && -SIGHT_RANGE <= leftB / 2 <= SIGHT_RANGE && w.At(leftB / 2, h / 2) in w.table
      ensures lefty > 0
      ensures Slope(leftx, lefty) ==
              if w.table[w.At(leftB / 2, h / 2)] then Slope(leftB + 1, if leftB / 2 >= 0 then h - 1 else h + 1) else Slope(x1, y1)
    {
      hide *;
      leftx, lefty := x1, y1;
      if -2 * SIGHT_RANGE <= leftB <= 2 * SIGHT_RANGE && w.table[w.At(leftB / 2, h / 2)] {
        leftx := leftB + 1;
        lefty := if leftB >= 0 then h - 1 else h + 1;
      }
    }

    /** One cell of a row: its mark, and the beam through the gap before it. */
    method CastCell(bounds: Rectangle, w: View, h: nat, ghost s2: real, first: int, ghost last: int, i: int, leftx: int,
                    lefty: nat, prevBlocking: bool, ghost todo: seq<Event>)
        returns (blocking: bool, ghost rest: seq<Event>)
      requires Valid() && w.o == Origin() && w.rot < 4 && w.range == SIGHT_RANGE
      requires 2 <= h <= 2 * SIGHT_RANGE && h % 2 == 0 && lefty > 0 && first <= i <= last
      requires todo == Scan(w, h, s2, first, last, i, Slope(leftx, lefty), prevBlocking) && Safe(w, todo)
      modifies this, visible
      ensures Valid() && w.At(i, h / 2) in w.table && blocking == w.table[w.At(i, h / 2)]
      ensures rest == Scan(w, h, s2, first, last, i + 1,
                           if blocking then Slope(i * 2 + 1, if i >= 0 then h - 1 else h + 1) else Slope(leftx, lefty), blocking)
      ensures Safe(w, rest) && After(bounds, w, visibleTiles, rest) == After(bounds, w, old(visibleTiles), todo)
      decreases 2 * SIGHT_RANGE + 2 - h, 0
    {
      hide *;
      ghost var gap;
      gap, rest := RowStep(bounds, w, visibleTiles, h, s2, first, last, i, Slope(leftx, lefty), prevBlocking, todo);
      var d := Rotate(w.rot, i, h / 2);
      SetVisible(bounds, d.x, d.y);
      AfterNothing(bounds, w, visibleTiles);
      blocking := w.table[w.At(i, h / 2)];
      if i > first && blocking && !prevBlocking {
        Calculate(bounds, w, h + 2, leftx, lefty, i * 2 - 1, if i <= 0 then h - 1 else h + 1);
      }
    }

    /** One quadrant: the beam between its diagonals. */
    method CastQuadrant(bounds: Rectangle, blocking: map<Vec2, bool>, rot: nat)
      requires Valid() && rot < 4 && bounds.Contains(Origin()) && Bordered(bounds, blocking)
      modifies this, visible
      ensures Valid() && visibleTiles == WithQuadrant(bounds, blocking, Origin(), old(visibleTiles), rot)
    {
      hide Valid, Record1, After, Safe, At, Trace;
      DiagonalSlopes();
      LevelSafe(bounds, blocking, Origin(), rot);
      Calculate(bounds, Look(blocking, Origin(), rot), 2, -1, 1, 1, 1);
    }

    /** The four quadrants and the origin, as the constructor of the source casts them. */
    constructor (bounds: Rectangle, blocking: map<Vec2, bool>, x: int, y: int)
      requires bounds.Contains(Vec2(x, y)) && Bordered(bounds, blocking)
      ensures Valid() && fresh(visible) && px == x && py == y
      ensures visibleTiles == Tiles(bounds, blocking, Vec2(x, y))
    {
      px, py := x, y;
      visible := new bool[2 * SIGHT_RANGE + 1, 2 * SIGHT_RANGE + 1]((i, j) => false);
      visibleTiles := [];
      new;
      hide WithQuadrant, Record1, Valid;
      TilesInQuadrants(bounds, blocking, Vec2(x, y));
      CastQuadrant(bounds, blocking, 0);
      CastQuadrant(bounds, blocking, 1);
      CastQuadrant(bounds, blocking, 2);
      CastQuadrant(bounds, blocking, 3);
      SetVisible(bounds, 0, 0);
    }

    function CheckVisible(x: int, y: int): bool
      requires Valid()
      reads this, visible
      ensures CheckVisible(x, y) <==> -SIGHT_RANGE <= x <= SIGHT_RANGE && -SIGHT_RANGE <= y <= SIGHT_RANGE
                                      && Vec2(px + x, py + y) in visibleTiles
    {
      -SIGHT_RANGE <= x <= SIGHT_RANGE && -SIGHT_RANGE <= y <= SIGHT_RANGE && visible[SIGHT_RANGE + x, SIGHT_RANGE + y]
    }
  }
}
