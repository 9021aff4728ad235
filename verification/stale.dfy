/** A square that is only read while a beam enters a row can change without the cached list being dropped. */
module StaleList {
  import opened Grid
  import opened Beam
  import opened Rays
  import opened Ring
  import opened Sight
  import opened VisibilityTable
  import opened Coherence
  import opened FieldOfViewCache

  // ----- rows with at most one blocking cell

  lemma {:induction false} OpenScan(w: View, h: nat, s2: real, first: int, last: int, i: int, left: real, prev: bool,
                                    e: Event)
    requires 2 <= h <= 2 * w.range && h % 2 == 0 && first <= i
    requires forall j :: i <= j <= last ==> !w.Blocks(j, h / 2)
    requires e in Scan(w, h, s2, first, last, i, left, prev) && e.k > h / 2
    ensures e in Trace(w, h + 2, left, s2)
    decreases last - i
  {
    if i <= last { OpenScan(w, h, s2, first, last, i + 1, left, false, e); }
  }

  /** What a beam sees behind a row with no blocking cell. */
  lemma OpenRow(w: View, h: nat, s1: real, s2: real, e: Event)
    requires h >= 2 && h % 2 == 0 && e in Trace(w, h, s1, s2) && e.k > h / 2
    requires forall j :: LeftCell(s1, h) <= j <= RightCell(s2, h) ==> !w.Blocks(j, h / 2)
    ensures e in Trace(w, h + 2, CornerLeft(w, h, s1), s2)
  {
    OpenScan(w, h, s2, LeftCell(s1, h), RightCell(s2, h), LeftCell(s1, h), CornerLeft(w, h, s1), false, e);
  }

  lemma {:induction false} PillarScan(w: View, h: nat, s2: real, first: int, last: int, i: int, left: real, p: int,
                                      e: Event)
    requires 2 <= h <= 2 * w.range && h % 2 == 0 && first <= i <= p <= last
    requires forall j :: i <= j <= last ==> (w.Blocks(j, h / 2) <==> j == p)
    requires e in Scan(w, h, s2, first, last, i, left, false) && e.k > h / 2
    ensures e in Trace(w, h + 2, left, MinSlope(p, h)) || e in Trace(w, h + 2, MaxSlope(p, h), s2)
    decreases p - i
  {
    if i < p {
      PillarScan(w, h, s2, first, last, i + 1, left, p, e);
    } else if e in Scan(w, h, s2, first, last, p + 1, MaxSlope(p, h), true) {
      OpenScan(w, h, s2, first, last, p + 1, MaxSlope(p, h), true, e);
    }
  }

  // ----- the hall

  const LEVEL := Rectangle(0, 0, 100, 100)
  const EYE := Vec2(50, 50)

  /** A level of 100 x 100 open squares, but for the given pillars. */
  function Hall(pillars: set<Vec2>): map<Vec2, bool> {
    map v | v in LEVEL.MinusMargin(-1).Squares() :: !LEVEL.Contains(v) || v in pillars
  }

  const PILLAR := Vec2(52, 54)
  const DOOR := Vec2(53, 55)
  const TARGET := Vec2(54, 56)

  lemma HallBlocks(pillars: set<Vec2>, i: int, k: int)
    requires -40 <= i <= 40 && -40 <= k <= 40
    ensures Look(Hall(pillars), EYE, 0).Blocks(i, k) <==> EYE.Plus(Vec2(i, k)) in pillars
  {
  }

  /** The first three rows are open, and the pillar splits what is seen behind row 4. */
  lemma BehindPillar(w: View, e: Event)
    requires w.range == SIGHT_RANGE
    requires forall i, k :: -10 <= i <= 10 && 1 <= k <= 4 ==> (w.Blocks(i, k) <==> i == 2 && k == 4)
    requires e in Trace(w, 2, -1.0, 1.0) && e.k > 4
    ensures e in Trace(w, 10, -1.0, MinSlope(2, 8)) || e in Trace(w, 10, MaxSlope(2, 8), 1.0)
  {
    hide Trace, Scan, At;
    OpenCone(w, 2, e);
    OpenCone(w, 4, e);
    OpenCone(w, 6, e);
    ConeRow(8);
    TraceIsScan(w, 8, -1.0, 1.0, e);
    PillarScan(w, 8, 1.0, LeftCell(-1.0, 8), RightCell(1.0, 8), LeftCell(-1.0, 8), CornerLeft(w, 8, -1.0), 2, e);
  }

  lemma TraceIsScan(w: View, h: nat, s1: real, s2: real, e: Event)
    requires h >= 2 && h % 2 == 0 && e in Trace(w, h, s1, s2) && e.k > h / 2
    ensures h <= 2 * w.range
    ensures e in Scan(w, h, s2, LeftCell(s1, h), RightCell(s2, h), LeftCell(s1, h), CornerLeft(w, h, s1), false)
  {
  }

  /** Between the diagonals a row reaches from cell -h/2 to cell h/2. */
  lemma ConeRow(h: nat)
    requires h >= 2 && h % 2 == 0
    ensures LeftCell(-1.0, h) == -(h / 2) && RightCell(1.0, h) == h / 2 && LeftCell(-1.0, h - 1) == 1 - h / 2
  {
    AtUnit(h);
    AtUnit(h - 1);
  }

  lemma OpenCone(w: View, h: nat, e: Event)
    requires 2 <= h && h % 2 == 0 && e in Trace(w, h, -1.0, 1.0) && e.k > h / 2
    requires forall i :: -(h / 2) <= i <= h / 2 ==> !w.Blocks(i, h / 2)
    ensures e in Trace(w, h + 2, -1.0, 1.0)
  {
    hide Trace;
    ConeRow(h);
    OpenRow(w, h, -1.0, 1.0, e);
  }

  /** The slopes past the two sides of the pillar. */
  lemma PillarSlopes()
    ensures MinSlope(2, 8) * 9.0 == 3.0 && MaxSlope(2, 8) * 7.0 == 5.0
  {
    AtIsProduct(MinSlope(2, 8), 9);
    AtIsProduct(MaxSlope(2, 8), 7);
  }

  /** A cell left of both neighbours of the pillar's shadow. */
  lemma DoorNotVisited(w: View)
    requires w.range == SIGHT_RANGE
    requires forall i, k :: -10 <= i <= 10 && 1 <= k <= 4 ==> (w.Blocks(i, k) <==> i == 2 && k == 4)
    ensures Visit(3, 5) !in Trace(w, 2, -1.0, 1.0)
  {
    hide Trace, At, MinSlope, MaxSlope;
    if Visit(3, 5) in Trace(w, 2, -1.0, 1.0) {
      BehindPillar(w, Visit(3, 5));
      PillarSlopes();
      if Visit(3, 5) in Trace(w, 10, -1.0, MinSlope(2, 8)) {
        var s := TraceSound(w, 10, -1.0, MinSlope(2, 8), 5, 3);
        AtIsProduct(s, 10);
      } else {
        var s := TraceSound(w, 10, MaxSlope(2, 8), 1.0, 5, 3);
        AtIsProduct(s, 10);
      }
    }
  }

  /** With the door closed too, the target is in the shadow. */
  lemma TargetNotVisited(w: View)
    requires w.range == SIGHT_RANGE
    requires forall i, k :: -10 <= i <= 10 && 1 <= k <= 5 ==>
               (w.Blocks(i, k) <==> (i == 2 && k == 4) || (i == 3 && k == 5))
    ensures Visit(4, 6) !in Trace(w, 2, -1.0, 1.0)
  {
    hide Trace, At, MinSlope, MaxSlope;
    var e := Visit(4, 6);
    if e in Trace(w, 2, -1.0, 1.0) {
      BehindPillar(w, e);
      PillarSlopes();
      if e in Trace(w, 10, -1.0, MinSlope(2, 8)) {
        var s := TraceSound(w, 10, -1.0, MinSlope(2, 8), 6, 4);
        AtIsProduct(s, 12);
      } else {
        var m := MaxSlope(2, 8);
        AtIsProduct(m, 9);
        AtIsProduct(m, 10);
        AtUnit(10);
        assert LeftCell(m, 9) == 3 && LeftCell(m, 10) == 4 && RightCell(1.0, 10) == 5;
        OpenRow(w, 10, m, 1.0, e);
        assert CornerLeft(w, 10, m) == MaxSlope(3, 10);
        DoorSlope();
        var s := TraceSound(w, 12, MaxSlope(3, 10), 1.0, 6, 4);
        AtIsProduct(s, 12);
      }
    }
  }

  lemma DoorSlope()
    ensures MaxSlope(3, 10) * 9.0 == 7.0
  {
    AtIsProduct(MaxSlope(3, 10), 9);
  }

  /** What quadrant 0 does not visit at (i, k), between its diagonals, is not listed. */
  lemma NotListed(bounds: Rectangle, table: map<Vec2, bool>, o: Vec2, i: int, k: int)
    requires -k < i < k && Visit(i, k) !in Quadrant(table, o, 0)
    ensures o.Plus(Vec2(i, k)) !in Tiles(bounds, table, o)
  {
    hide Quadrant;
    var v := o.Plus(Vec2(i, k));
    if v in Tiles(bounds, table, o) {
      TilesAre(bounds, table, o);
      assert v.Minus(o) == Vec2(i, k);
      var rot :| 0 <= rot < 4 && MarkedIn(rot, Quadrants(table, o)[rot], Vec2(i, k));
      var i', k' :| Visit(i', k') in Quadrants(table, o)[rot] && Rotate(rot, i', k') == Vec2(i, k);
      QuadrantInCone(table, o, rot, Visit(i', k'));
    }
  }

  /** With the door open the target is seen past the pillar. */
  lemma TargetSeen()
    ensures TARGET in Tiles(LEVEL, Hall({PILLAR}), EYE)
  {
    var w, s := Look(Hall({PILLAR}), EYE, 0), 0.75;
    AtIsProduct(s, 12);
    forall r: nat, c | 1 <= r < 6 && w.Blocks(c, r)
      ensures !Hits(s, 2 * r, c)
    {
      if Hits(s, 2 * r, c) {
        var x: real, y: real :| OnRay(s, x, y) && InSquare(x, y, 2 * r, c);
        assert -10 <= c <= 10;
        HallBlocks({PILLAR}, c, r);
      }
    }
    ClearlySeen(LEVEL, Hall({PILLAR}), EYE, 0, 4, 6, s);
  }

  /** The cached list of EYE survives the closing of DOOR, although TARGET is no longer visible. */
  lemma StaleEntry()
    ensures var st := State(Hall({PILLAR}), map[EYE := Tiles(LEVEL, Hall({PILLAR}), EYE)]);
            var st' := Changed(LEVEL, st, DOOR, false);
            && Cached(LEVEL, st) && Coherent(LEVEL, st)
            && EYE in st'.cache && TARGET in st'.cache[EYE] && TARGET !in Tiles(LEVEL, st'.blocking, EYE)
            && !Coherent(LEVEL, st')
  {
    hide Tiles, Quadrant, Trace;
    var before, after := Hall({PILLAR}), Hall({PILLAR})[DOOR := true];
    TargetSeen();
    forall i, k | -10 <= i <= 10 && 1 <= k <= 5
      ensures Look(before, EYE, 0).Blocks(i, k) <==> i == 2 && k == 4
      ensures Look(after, EYE, 0).Blocks(i, k) <==> (i == 2 && k == 4) || (i == 3 && k == 5)
    {
      HallBlocks({PILLAR}, i, k);
    }
    DoorNotVisited(Look(before, EYE, 0));
    QuadrantIs(before, EYE);
    NotListed(LEVEL, before, EYE, 3, 5);
    TargetNotVisited(Look(after, EYE, 0));
    QuadrantIs(after, EYE);
    NotListed(LEVEL, after, EYE, 4, 6);
  }

  lemma QuadrantIs(table: map<Vec2, bool>, o: Vec2)
    ensures Quadrant(table, o, 0) == Trace(Look(table, o, 0), 2, -1.0, 1.0)
  {
  }
}
