/** What a square sees: the four rotated quadrants together, as the source records them. */
module Sight {
  import opened Collections
  import opened Grid
  import opened Beam
  import opened Rays
  import opened Ring

  // ----- the recorded tiles

  /** The offsets of the marked cells, in the order of the marks. */
  function Marks(rot: nat, t: seq<Event>): seq<Vec2> {
    if t == [] then []
    else (if t[0].Visit? then [Rotate(rot, t[0].i, t[0].k)] else []) + Marks(rot, t[1..])
  }

  predicate InDisc(d: Vec2) {
    d.x * d.x + d.y * d.y <= SIGHT_RANGE * SIGHT_RANGE
  }

  /** The tile list after one mark: cells outside the level, outside the disc or already listed are ignored. */
  function Record1(bounds: Rectangle, o: Vec2, tiles: seq<Vec2>, d: Vec2): seq<Vec2> {
    if bounds.Contains(o.Plus(d)) && o.Plus(d) !in tiles && InDisc(d) then tiles + [o.Plus(d)] else tiles
  }

  function Record(bounds: Rectangle, o: Vec2, tiles: seq<Vec2>, marks: seq<Vec2>): seq<Vec2>
    decreases |marks|
  {
    if marks == [] then tiles else Record(bounds, o, Record1(bounds, o, tiles, marks[0]), marks[1..])
  }

  /** Quadrant rot of the table as the source sets it up. */
  function Look(table: map<Vec2, bool>, o: Vec2, rot: nat): View {
    View(table, o, rot, SIGHT_RANGE)
  }

  ghost function Quadrant(table: map<Vec2, bool>, o: Vec2, rot: nat): seq<Event> {
    Trace(Look(table, o, rot), 2, -1.0, 1.0)
  }

  ghost function Quadrants(table: map<Vec2, bool>, o: Vec2): (qs: seq<seq<Event>>)
    ensures |qs| == 4 && forall rot :: 0 <= rot < 4 ==> qs[rot] == Quadrant(table, o, rot)
  {
    seq(4, rot requires rot >= 0 => Quadrant(table, o, rot))
  }

  /** The marks of the first n quadrants. */
  function QuadrantMarks(qs: seq<seq<Event>>, n: nat): seq<Vec2>
    requires n <= |qs|
  {
    if n == 0 then [] else QuadrantMarks(qs, n - 1) + Marks(n - 1, qs[n - 1])
  }

  ghost function AllMarks(table: map<Vec2, bool>, o: Vec2): seq<Vec2> {
    QuadrantMarks(Quadrants(table, o), 4) + [Vec2(0, 0)]
  }

  /** The tiles visible from o. */
  ghost function Tiles(bounds: Rectangle, table: map<Vec2, bool>, o: Vec2): seq<Vec2> {
    Record(bounds, o, [], AllMarks(table, o))
  }

  lemma {:induction false} MarksConcat(rot: nat, a: seq<Event>, b: seq<Event>)
    ensures Marks(rot, a + b) == Marks(rot, a) + Marks(rot, b)
  {
    hide Rotate;
    if a == [] {
      assert a + b == b;
    } else {
      assert (a + b)[1..] == a[1..] + b;
      MarksConcat(rot, a[1..], b);
    }
  }

  lemma {:induction false} RecordConcat(bounds: Rectangle, o: Vec2, tiles: seq<Vec2>, a: seq<Vec2>, b: seq<Vec2>)
    ensures Record(bounds, o, tiles, a + b) == Record(bounds, o, Record(bounds, o, tiles, a), b)
    decreases |a|
  {
    if a == [] {
      assert a + b == b;
    } else {
      assert (a + b)[1..] == a[1..] + b;
      RecordConcat(bounds, o, Record1(bounds, o, tiles, a[0]), a[1..], b);
    }
  }

  lemma {:induction false} RecordIs(bounds: Rectangle, o: Vec2, tiles: seq<Vec2>, marks: seq<Vec2>)
    requires Distinct(tiles)
    ensures Distinct(Record(bounds, o, tiles, marks))
    ensures forall v :: v in Record(bounds, o, tiles, marks) <==>
              v in tiles || (bounds.Contains(v) && v.Minus(o) in marks && InDisc(v.Minus(o)))
    decreases |marks|
  {
    if marks != [] {
      var tiles' := Record1(bounds, o, tiles, marks[0]);
      RecordIs(bounds, o, tiles', marks[1..]);
      forall v
        ensures v in tiles' <==> v in tiles || (v == o.Plus(marks[0]) && bounds.Contains(v) && InDisc(marks[0]))
      {
      }
      assert forall v: Vec2 :: v == o.Plus(marks[0]) <==> v.Minus(o) == marks[0];
    }
  }

  /** The quadrant seen as t marks the cell at offset d. */
  ghost predicate MarkedIn(rot: nat, t: seq<Event>, d: Vec2) {
    exists i, k :: Visit(i, k) in t && Rotate(rot, i, k) == d
  }

  lemma {:induction false} MarksAre(rot: nat, t: seq<Event>, d: Vec2)
    ensures d in Marks(rot, t) <==> MarkedIn(rot, t, d)
  {
    if t != [] {
      MarksAre(rot, t[1..], d);
      assert forall e :: e in t <==> e == t[0] || e in t[1..];
    }
  }

  lemma {:induction false} QuadrantMarksAre(qs: seq<seq<Event>>, n: nat, d: Vec2)
    requires n <= |qs|
    ensures d in QuadrantMarks(qs, n) <==> exists rot :: 0 <= rot < n && MarkedIn(rot, qs[rot], d)
  {
    if n > 0 {
      QuadrantMarksAre(qs, n - 1, d);
      MarksAre(n - 1, qs[n - 1], d);
    }
  }

  /** Offset d is marked in some quadrant, or is the origin itself. */
  ghost predicate Marked(table: map<Vec2, bool>, o: Vec2, d: Vec2) {
    d == Vec2(0, 0) || exists rot :: 0 <= rot < 4 && MarkedIn(rot, Quadrants(table, o)[rot], d)
  }

  /** The tile list has no duplicates and lists exactly the marked cells inside the level and the disc. */
  lemma TilesAre(bounds: Rectangle, table: map<Vec2, bool>, o: Vec2)
    ensures Distinct(Tiles(bounds, table, o))
    ensures forall v :: v in Tiles(bounds, table, o) <==>
              bounds.Contains(v) && InDisc(v.Minus(o)) && Marked(table, o, v.Minus(o))
  {
    RecordIs(bounds, o, [], AllMarks(table, o));
    forall v: Vec2
      ensures v.Minus(o) in AllMarks(table, o) <==> Marked(table, o, v.Minus(o))
    {
      QuadrantMarksAre(Quadrants(table, o), 4, v.Minus(o));
    }
  }

  // ----- sight by rays

  /** Some ray of quadrant rot reaches the cell at offset d and meets no blocking square in the rows before it. */
  ghost predicate ClearRay(w: View, s: real, i: int, k: nat) {
    -1.0 < s < 1.0 && Touches(s, 2 * k, i) && ClearOfSquares(w, s, 1, k)
  }

  /** A ray of the quadrant reaches the cell and crosses no blocking cell on the centre lines before it. */
  ghost predicate CentreRay(w: View, s: real, i: int, k: nat) {
    -1.0 < s < 1.0 && Touches(s, 2 * k, i) && ClearAtCentre(w, s, 1, k)
  }

  lemma QuadrantComplete(table: map<Vec2, bool>, o: Vec2, rot: nat, i: int, k: nat, s: real)
    requires 1 <= k <= SIGHT_RANGE && ClearRay(Look(table, o, rot), s, i, k)
    ensures Visit(i, k) in Quadrant(table, o, rot)
  {
    TraceComplete(Look(table, o, rot), 2, -1.0, 1.0, s, k, i);
  }

  lemma QuadrantSound(table: map<Vec2, bool>, o: Vec2, rot: nat, i: int, k: int) returns (s: real)
    requires Visit(i, k) in Quadrant(table, o, rot)
    ensures 1 <= k <= SIGHT_RANGE && CentreRay(Look(table, o, rot), s, i, k)
  {
    var w := Look(table, o, rot);
    TraceInCone(w, 2, -1.0, 1.0, Visit(i, k));
    s := TraceSound(w, 2, -1.0, 1.0, k, i);
  }

  /** Completeness: a cell with an unobstructed ray is visible. */
  lemma ClearlySeen(bounds: Rectangle, table: map<Vec2, bool>, o: Vec2, rot: nat, i: int, k: nat, s: real)
    requires rot < 4 && k >= 1
    requires bounds.Contains(o.Plus(Rotate(rot, i, k))) && InDisc(Rotate(rot, i, k))
    requires ClearRay(Look(table, o, rot), s, i, k)
    ensures o.Plus(Rotate(rot, i, k)) in Tiles(bounds, table, o)
  {
    var d := Rotate(rot, i, k);
    DiscBound(d);
    QuadrantComplete(table, o, rot, i, k, s);
    SeenIfMarked(bounds, table, o, rot, i, k);
  }

  lemma SeenIfMarked(bounds: Rectangle, table: map<Vec2, bool>, o: Vec2, rot: nat, i: int, k: nat)
    requires rot < 4 && Visit(i, k) in Quadrant(table, o, rot)
    requires bounds.Contains(o.Plus(Rotate(rot, i, k))) && InDisc(Rotate(rot, i, k))
    ensures o.Plus(Rotate(rot, i, k)) in Tiles(bounds, table, o)
  {
    var d := Rotate(rot, i, k);
    assert MarkedIn(rot, Quadrants(table, o)[rot], d);
    TilesAre(bounds, table, o);
    assert o.Plus(d).Minus(o) == d;
  }

  /** Soundness: a visible tile other than the origin lies in some quadrant on a ray that is clear on all centre
      lines before it. */
  lemma SeenIsClear(bounds: Rectangle, table: map<Vec2, bool>, o: Vec2, v: Vec2)
    returns (rot: nat, i: int, k: int, s: real)
    requires v in Tiles(bounds, table, o) && v != o
    ensures rot < 4 && 1 <= k <= SIGHT_RANGE && v == o.Plus(Rotate(rot, i, k))
    ensures bounds.Contains(v) && InDisc(v.Minus(o))
    ensures CentreRay(Look(table, o, rot), s, i, k)
  {
    TilesAre(bounds, table, o);
    rot :| 0 <= rot < 4 && MarkedIn(rot, Quadrants(table, o)[rot], v.Minus(o));
    i, k :| Visit(i, k) in Quadrants(table, o)[rot] && Rotate(rot, i, k) == v.Minus(o);
    s := QuadrantSound(table, o, rot, i, k);
  }

  // ----- open space

  /** No cell within the sight range of o blocks. */
  ghost predicate OpenAround(table: map<Vec2, bool>, o: Vec2) {
    forall v: Vec2 :: Dist8(v, o) <= SIGHT_RANGE && v in table ==> !table[v]
  }

  /** Each offset other than the origin lies between the diagonals of some quadrant. */
  lemma QuadrantOf(d: Vec2) returns (rot: nat, i: int, k: int)
    requires d != Vec2(0, 0)
    ensures rot < 4 && Rotate(rot, i, k) == d && -k <= i <= k && 1 <= k
  {
    if Abs(d.x) <= d.y { rot, i, k := 0, d.x, d.y; }
    else if Abs(d.y) <= d.x { rot, i, k := 1, -d.y, d.x; }
    else if Abs(d.x) <= -d.y { rot, i, k := 2, -d.x, -d.y; }
    else { rot, i, k := 3, d.y, -d.x; }
  }

  /** A ray strictly between the diagonals touches the cell on the centre line of its row. */
  lemma RayTo(i: int, k: int) returns (s: real)
    requires -k <= i <= k && 1 <= k
    ensures -1.0 < s < 1.0 && Touches(s, 2 * k, i)
  {
    s := Slope(if i == k then 2 * i - 1 else if i == -k then 2 * i + 1 else 2 * i, 2 * k);
    AtUnit(2 * k);
    AtMono(s, 1.0, 2 * k);
    AtMono(-1.0, s, 2 * k);
  }

  /** In open space exactly the disc is visible. */
  lemma OpenSpace(bounds: Rectangle, table: map<Vec2, bool>, o: Vec2, v: Vec2)
    requires OpenAround(table, o) && bounds.Contains(v)
    ensures v in Tiles(bounds, table, o) <==> InDisc(v.Minus(o))
  {
    TilesAre(bounds, table, o);
    if InDisc(v.Minus(o)) && v != o {
      var rot, i, k := QuadrantOf(v.Minus(o));
      var s := RayTo(i, k);
      var w := Look(table, o, rot);
      DiscBound(v.Minus(o));
      forall r: nat, c | 1 <= r < k && w.Blocks(c, r)
        ensures !Hits(s, 2 * r, c)
      {
        if Hits(s, 2 * r, c) {
          var x: real, y: real :| OnRay(s, x, y) && InSquare(x, y, 2 * r, c);
          RayInCone(s, x, y);
        }
      }
      assert v == o.Plus(Rotate(rot, i, k));
      ClearlySeen(bounds, table, o, rot, i, k, s);
    }
  }

  lemma SquareGrows(a: nat)
    ensures a > SIGHT_RANGE ==> a * a > SIGHT_RANGE * SIGHT_RANGE
  {
    if a > SIGHT_RANGE { assert a * a >= a * SIGHT_RANGE; }
  }

  lemma DiscBound(d: Vec2)
    requires InDisc(d)
    ensures Abs(d.x) <= SIGHT_RANGE && Abs(d.y) <= SIGHT_RANGE
  {
    SquareGrows(Abs(d.x));
    SquareGrows(Abs(d.y));
    assert Abs(d.x) * Abs(d.x) == d.x * d.x && Abs(d.y) * Abs(d.y) == d.y * d.y;
  }

  lemma RayInCone(s: real, x: real, y: real)
    requires -1.0 < s < 1.0 && y > 0.0 && OnRay(s, x, y)
    ensures -y <= x <= y
  {
    assert (1.0 - s) * y >= 0.0 && (1.0 + s) * y >= 0.0;
  }
}
