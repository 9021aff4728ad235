/** When a cached tile list stays equal to a fresh computation. */
module Coherence {
  import opened Collections
  import opened Grid
  import opened Beam
  import opened Rays
  import opened Ring
  import opened Sight
  import opened Shadow
  import opened VisibilityTable

  // ----- the read footprint

  predicate BlocksAt(table: map<Vec2, bool>, v: Vec2) {
    v in table && table[v]
  }

  /** The two tables agree on everything that the trace looks at. */
  ghost predicate AgreeOn(w: View, w': View, t: seq<Event>) {
    forall e :: e in t ==> w.Blocks(e.i, e.k) == w'.Blocks(e.i, e.k)
  }

  lemma {:induction false} TraceFootprint(w: View, w': View, h: nat, s1: real, s2: real)
    requires h >= 2 && w.range == w'.range
    requires AgreeOn(w, w', Trace(w, h, s1, s2))
    ensures Trace(w', h, s1, s2) == Trace(w, h, s1, s2)
    decreases 2 * w.range + 2 - h, 1, 0
  {
    if s1 < s2 && h <= 2 * w.range {
      var first, last, left, b := LeftCell(s1, h), RightCell(s2, h), CornerLeft(w, h, s1), LeftCell(s1, h - 1);
      var e, rest := Corner(b, h / 2), Scan(w, h, s2, first, last, first, left, false);
      assert Trace(w, h, s1, s2) == [e] + rest;
      assert e in Trace(w, h, s1, s2);
      assert AgreeOn(w, w', rest);
      ScanFootprint(w, w', h, s2, first, last, first, left, false);
    }
  }

  lemma {:induction false} ScanFootprint(w: View, w': View, h: nat, s2: real, first: int, last: int, i: int, left: real,
                                         prev: bool)
    requires 2 <= h <= 2 * w.range && w.range == w'.range && first <= i
    requires AgreeOn(w, w', Scan(w, h, s2, first, last, i, left, prev))
    ensures Scan(w', h, s2, first, last, i, left, prev) == Scan(w, h, s2, first, last, i, left, prev)
    decreases 2 * w.range + 2 - h, 0, last + 1 - i
  {
    hide MinSlope, MaxSlope;
    if i > last {
      TraceFootprint(w, w', h + 2, left, s2);
    } else {
      var b := w.Blocks(i, h / 2);
      var gap := if i > first && b && !prev then Trace(w, h + 2, left, MinSlope(i, h)) else [];
      var rest := Scan(w, h, s2, first, last, i + 1, if b then MaxSlope(i, h) else left, b);
      var all := Scan(w, h, s2, first, last, i, left, prev);
      assert all == [Visit(i, h / 2)] + gap + rest;
      assert Visit(i, h / 2) in all && AgreeOn(w, w', gap) && AgreeOn(w, w', rest);
      if i > first && b && !prev { TraceFootprint(w, w', h + 2, left, MinSlope(i, h)); }
      ScanFootprint(w, w', h, s2, first, last, i + 1, if b then MaxSlope(i, h) else left, b);
    }
  }

  /** The computation from o reads the table at v. */
  ghost predicate Reads(table: map<Vec2, bool>, o: Vec2, v: Vec2) {
    exists rot, e :: 0 <= rot < 4 && e in Quadrants(table, o)[rot] && Look(table, o, rot).At(e.i, e.k) == v
  }

  /** Nothing is read farther than the sight range away. */
  lemma ReadsInRange(table: map<Vec2, bool>, o: Vec2, v: Vec2)
    requires Reads(table, o, v)
    ensures 1 <= Dist8(v, o) <= SIGHT_RANGE
  {
    var rot, e :| 0 <= rot < 4 && e in Quadrants(table, o)[rot] && Look(table, o, rot).At(e.i, e.k) == v;
    QuadrantInCone(table, o, rot, e);
  }

  lemma QuadrantInCone(table: map<Vec2, bool>, o: Vec2, rot: nat, e: Event)
    requires e in Quadrant(table, o, rot)
    ensures InCone(Look(table, o, rot), e, 1)
  {
    TraceInCone(Look(table, o, rot), 2, -1.0, 1.0, e);
  }

  /** Tables that agree on the squares read from o give the same tile list. */
  lemma SameFootprint(bounds: Rectangle, table: map<Vec2, bool>, table': map<Vec2, bool>, o: Vec2)
    requires forall v :: Reads(table, o, v) ==> BlocksAt(table, v) == BlocksAt(table', v)
    ensures Tiles(bounds, table', o) == Tiles(bounds, table, o)
  {
    forall rot | 0 <= rot < 4
      ensures Quadrant(table', o, rot) == Quadrant(table, o, rot)
    {
      QuadrantFootprint(table, table', o, rot);
    }
    assert Quadrants(table', o) == Quadrants(table, o);
  }

  lemma QuadrantFootprint(table: map<Vec2, bool>, table': map<Vec2, bool>, o: Vec2, rot: nat)
    requires rot < 4
    requires forall v :: Reads(table, o, v) ==> BlocksAt(table, v) == BlocksAt(table', v)
    ensures Quadrant(table', o, rot) == Quadrant(table, o, rot)
  {
    var w, w', t := Look(table, o, rot), Look(table', o, rot), Quadrants(table, o)[rot];
    forall e | e in t
      ensures w.Blocks(e.i, e.k) == w'.Blocks(e.i, e.k)
    {
      assert Reads(table, o, w.At(e.i, e.k));
    }
    TraceFootprint(w, w', 2, -1.0, 1.0);
  }

  // ----- only the disc matters

  /** Marks outside the disc are not recorded. */
  lemma {:induction false} RecordNear(bounds: Rectangle, w: View, tiles: seq<Vec2>, g: Region, t: seq<Event>)
    requires forall e :: e in t && g.Has(e.i, e.k) ==> !InDisc(Rotate(w.rot, e.i, e.k))
    ensures After(bounds, w, tiles, t) == After(bounds, w, tiles, Near(g, t))
    decreases |t|
  {
    if t != [] {
      var e := t[0];
      assert e in t && [e] + t[1..] == t;
      var kept := if e.Visit? && !g.Has(e.i, e.k) then [e] else [];
      AfterConcat(bounds, w, tiles, [e], t[1..]);
      AfterConcat(bounds, w, tiles, kept, Near(g, t[1..]));
      AfterFirst(bounds, w, tiles, g, e);
      RecordNear(bounds, w, After(bounds, w, tiles, [e]), g, t[1..]);
    }
  }

  lemma AfterFirst(bounds: Rectangle, w: View, tiles: seq<Vec2>, g: Region, e: Event)
    requires g.Has(e.i, e.k) ==> !InDisc(Rotate(w.rot, e.i, e.k))
    ensures After(bounds, w, tiles, [e]) ==
            After(bounds, w, tiles, if e.Visit? && !g.Has(e.i, e.k) then [e] else [])
  {
    AfterNothing(bounds, w, tiles);
    var d := Rotate(w.rot, e.i, e.k);
    assert Marks(w.rot, [e]) == if e.Visit? then [d] else [];
    if e.Visit? {
      assert [d][1..] == [];
      assert Record(bounds, w.o, tiles, [d]) == Record1(bounds, w.o, tiles, d);
    }
  }

  /** The quadrant's own coordinates of an offset. */
  function Unrotate(rot: nat, d: Vec2): (int, int)
    requires rot < 4
    ensures Rotate(rot, Unrotate(rot, d).0, Unrotate(rot, d).1) == d
  {
    if rot == 0 then (d.x, d.y) else if rot == 1 then (-d.y, d.x) else if rot == 2 then (-d.x, -d.y) else (d.y, -d.x)
  }

  lemma RotateInjective(rot: nat, c: int, r: int, j: int, k: int)
    requires rot < 4
    ensures Rotate(rot, c, r) == Rotate(rot, j, k) ==> c == j && r == k
  {
  }

  lemma NearQuadrant(table: map<Vec2, bool>, table': map<Vec2, bool>, o: Vec2, rot: nat, g: Region)
    requires g.j != 0 && Agree(Look(table, o, rot), Look(table', o, rot), g)
    ensures Near(g, Quadrant(table, o, rot)) == Near(g, Quadrant(table', o, rot))
  {
    hide Trace, Near;
    if g.j > 0 {
      TraceRight(g, Look(table, o, rot), Look(table', o, rot), 2, -1.0, 1.0, 1.0);
    } else {
      TraceLeft(g, Look(table, o, rot), Look(table', o, rot), 2, -1.0, -1.0, 1.0);
    }
  }

  lemma SquareMono(a: nat, b: nat)
    requires a <= b
    ensures a * a <= b * b
  {
  }

  lemma AbsSquare(x: int)
    ensures Abs(x) * Abs(x) == x * x
  {
  }

  lemma RotateNorm(rot: nat, c: int, r: int)
    requires rot < 4
    ensures InDisc(Rotate(rot, c, r)) <==> c * c + r * r <= SIGHT_RANGE * SIGHT_RANGE
  {
  }

  /** Behind a cell outside the disc there are only cells outside the disc. */
  lemma RegionOffDisc(rot: nat, g: Region, c: int, r: int)
    requires rot < 4 && g.Has(c, r) && g.j != 0 && !InDisc(Rotate(rot, g.j, g.k))
    ensures !InDisc(Rotate(rot, c, r))
  {
    hide Rotate, InDisc;
    RotateNorm(rot, c, r);
    RotateNorm(rot, g.j, g.k);
    SquareMono(Abs(g.j), Abs(c));
    SquareMono(g.k, Abs(r));
    AbsSquare(c);
    AbsSquare(r);
    AbsSquare(g.j);
  }

  /** A square outside the disc does not matter to a quadrant. */
  lemma QuadrantOffDisc(bounds: Rectangle, table: map<Vec2, bool>, table': map<Vec2, bool>, o: Vec2, rot: nat, v: Vec2,
                        tiles: seq<Vec2>)
    requires rot < 4 && !InDisc(v.Minus(o))
    requires forall u :: u != v ==> BlocksAt(table, u) == BlocksAt(table', u)
    ensures WithQuadrant(bounds, table, o, tiles, rot) == WithQuadrant(bounds, table', o, tiles, rot)
  {
    hide Trace, InDisc, After;
    var w, w' := Look(table, o, rot), Look(table', o, rot);
    var (j, k) := Unrotate(rot, v.Minus(o));
    forall c, r | (c, r) != (j, k)
      ensures w.Blocks(c, r) == w'.Blocks(c, r)
    {
      RotateInjective(rot, c, r, j, k);
      assert BlocksAt(table, w.At(c, r)) == BlocksAt(table', w'.At(c, r));
    }
    if j == 0 || k < 1 {
      AxisUnread(table, table', o, rot, j, k);
      SameAfter(bounds, w, w', tiles, Quadrant(table, o, rot));
    } else {
      var g := Region(j, k);
      NearQuadrant(table, table', o, rot, g);
      forall c, r | g.Has(c, r)
        ensures !InDisc(Rotate(rot, c, r))
      {
        RegionOffDisc(rot, g, c, r);
      }
      RecordNear(bounds, w, tiles, g, Quadrant(table, o, rot));
      RecordNear(bounds, w', tiles, g, Quadrant(table', o, rot));
      SameAfter(bounds, w, w', tiles, Near(g, Quadrant(table, o, rot)));
    }
  }

  lemma SameAfter(bounds: Rectangle, w: View, w': View, tiles: seq<Vec2>, t: seq<Event>)
    requires w.o == w'.o && w.rot == w'.rot
    ensures After(bounds, w, tiles, t) == After(bounds, w', tiles, t)
  {
  }

  /** Off the disc, the cells on the axis and behind the origin are not read at all. */
  lemma AxisUnread(table: map<Vec2, bool>, table': map<Vec2, bool>, o: Vec2, rot: nat, j: int, k: int)
    requires rot < 4 && (j == 0 || k < 1) && !InDisc(Rotate(rot, j, k))
    requires forall c, r :: (c, r) != (j, k) ==> Look(table, o, rot).Blocks(c, r) == Look(table', o, rot).Blocks(c, r)
    ensures Quadrant(table, o, rot) == Quadrant(table', o, rot)
  {
    hide Trace;
    var w, w' := Look(table, o, rot), Look(table', o, rot);
    forall e | e in Quadrant(table, o, rot)
      ensures w.Blocks(e.i, e.k) == w'.Blocks(e.i, e.k)
    {
      QuadrantInCone(table, o, rot, e);
      if j == 0 && k == e.k { SquareMono(k, SIGHT_RANGE); }
    }
    TraceFootprint(w, w', 2, -1.0, 1.0);
  }

  /** Squares outside the disc do not matter: the tile list is determined by what blocks inside it. */
  lemma {:induction false} DiscDecides(bounds: Rectangle, table: map<Vec2, bool>, table': map<Vec2, bool>, o: Vec2,
                                       differ: set<Vec2>)
    requires forall v :: v !in differ ==> BlocksAt(table, v) == BlocksAt(table', v)
    requires forall v :: v in differ ==> !InDisc(v.Minus(o))
    ensures Tiles(bounds, table', o) == Tiles(bounds, table, o)
    decreases differ
  {
    hide Tiles, InDisc, Quadrants;
    if differ == {} {
      SameFootprint(bounds, table, table', o);
    } else {
      var v :| v in differ;
      var mid := table[v := BlocksAt(table', v)];
      TilesOffDisc(bounds, table, mid, o, v);
      DiscDecides(bounds, mid, table', o, differ - {v});
    }
  }

  lemma TilesOffDisc(bounds: Rectangle, table: map<Vec2, bool>, table': map<Vec2, bool>, o: Vec2, v: Vec2)
    requires !InDisc(v.Minus(o))
    requires forall u :: u != v ==> BlocksAt(table, u) == BlocksAt(table', u)
    ensures Tiles(bounds, table', o) == Tiles(bounds, table, o)
  {
    hide *;
    var t1 := WithQuadrant(bounds, table, o, [], 0);
    var t2 := WithQuadrant(bounds, table, o, t1, 1);
    var t3 := WithQuadrant(bounds, table, o, t2, 2);
    QuadrantOffDisc(bounds, table, table', o, 0, v, []);
    QuadrantOffDisc(bounds, table, table', o, 1, v, t1);
    QuadrantOffDisc(bounds, table, table', o, 2, v, t2);
    QuadrantOffDisc(bounds, table, table', o, 3, v, t3);
    TilesInQuadrants(bounds, table, o);
    TilesInQuadrants(bounds, table', o);
  }

  // ----- blind reads

  /** Some beam from o enters a row through the square v, which makes the source read v without marking it. */
  ghost predicate Entered(table: map<Vec2, bool>, o: Vec2, v: Vec2) {
    exists rot, e ::
      0 <= rot < 4 && e in Quadrants(table, o)[rot] && e.Corner? && Look(table, o, rot).At(e.i, e.k) == v
  }

  /** A square of the level and the disc that is read, but not by an entering beam, is listed. */
  lemma ReadIsSeen(bounds: Rectangle, table: map<Vec2, bool>, o: Vec2, v: Vec2)
    requires bounds.Contains(v) && InDisc(v.Minus(o)) && Reads(table, o, v) && !Entered(table, o, v)
    ensures v in Tiles(bounds, table, o)
  {
    hide Quadrant, Tiles, InDisc;
    var rot, e :| 0 <= rot < 4 && e in Quadrants(table, o)[rot] && Look(table, o, rot).At(e.i, e.k) == v;
    assert e == Visit(e.i, e.k);
    QuadrantInCone(table, o, rot, e);
    assert o.Plus(Rotate(rot, e.i, e.k)) == v && v.Minus(o) == Rotate(rot, e.i, e.k);
    SeenIfMarked(bounds, table, o, rot, e.i, e.k);
  }

  /** A list that does not show the changed square, and that no beam entered a row for through it, needs no
      recomputation. */
  lemma KeptIsFresh(bounds: Rectangle, table: map<Vec2, bool>, table': map<Vec2, bool>, o: Vec2, pos: Vec2)
    requires forall v :: v != pos ==> BlocksAt(table, v) == BlocksAt(table', v)
    requires bounds.Contains(pos) && pos !in Tiles(bounds, table, o)
    requires InDisc(pos.Minus(o)) && BlocksAt(table, pos) != BlocksAt(table', pos) ==> !Entered(table, o, pos)
    ensures Tiles(bounds, table', o) == Tiles(bounds, table, o)
  {
    hide Tiles, Entered, Reads, InDisc;
    if !InDisc(pos.Minus(o)) {
      TilesOffDisc(bounds, table, table', o, pos);
    } else {
      if Reads(table, o, pos) && BlocksAt(table, pos) != BlocksAt(table', pos) { ReadIsSeen(bounds, table, o, pos); }
      SameFootprint(bounds, table, table', o);
    }
  }
}
