/** The beam geometry of the shadow-casting field of view.

    A quadrant is seen from its origin looking "up": row k holds the cells (i, k).  Coordinates are doubled, so that
    row k lies between the lines h - 1 and h + 1 with h = 2 * k, and cell i of that row between 2 * i - 1 and
    2 * i + 1.  A ray of slope s crosses the line y in the point s * y. */
module Beam {
  import opened Grid

  const SIGHT_RANGE := 30

  /** The blocking table, looked at from the origin o through one of the four rotated quadrants, range rows deep. */
  datatype View = View(table: map<Vec2, bool>, o: Vec2, rot: nat, range: nat) {
    function At(i: int, k: int): Vec2 {
      o.Plus(Rotate(rot, i, k))
    }

    predicate Blocks(i: int, k: int) {
      At(i, k) in table && table[At(i, k)]
    }
  }

  /** The quadrant cell (i, k) as an offset from the origin, in each of the four quadrants. */
  function Rotate(rot: nat, i: int, k: int): Vec2 {
    if rot == 0 then Vec2(i, k)
    else if rot == 1 then Vec2(k, -i)
    else if rot == 2 then Vec2(-i, -k)
    else Vec2(-k, i)
  }

  // ----- rays, slopes and cells

  /** Where the ray of slope s crosses the line y. */
  ghost function At(s: real, y: nat): real {
    if y == 0 then 0.0 else At(s, y - 1) + s
  }

  lemma {:induction false} AtIsProduct(s: real, y: nat)
    ensures At(s, y) == s * y as real
  {
    if y > 0 { AtIsProduct(s, y - 1); }
  }

  /** Rays from the origin keep their order on every line. */
  lemma {:induction false} AtMono(s: real, t: real, y: nat)
    requires y > 0
    ensures s < t <==> At(s, y) < At(t, y)
    ensures s == t <==> At(s, y) == At(t, y)
  {
    if y > 1 { AtMono(s, t, y - 1); }
  }

  /** The slope x / y, of the ray through the corner x on the line y. */
  ghost function Slope(x: int, y: nat): (q: real)
    requires y > 0
    ensures At(q, y) == x as real
  {
    var w := x as real / y as real;
    AtIsProduct(w, y);
    var q: real :| At(q, y) == x as real;
    q
  }

  /** The cell whose half-open column starts at or before x. */
  ghost function ColumnFrom(x: real): (c: int)
    ensures (2 * c - 1) as real <= x < (2 * c + 1) as real
  {
    ((x + 1.0) / 2.0).Floor
  }

  /** The first cell of the row at height h that a beam with left edge s looks at. */
  ghost function LeftCell(s: real, h: nat): (c: int)
    ensures (2 * c - 1) as real <= At(s, h) < (2 * c + 1) as real
  {
    ColumnFrom(At(s, h))
  }

  /** The last cell of the row at height h that a beam with right edge s looks at. */
  ghost function RightCell(s: real, h: nat): (c: int)
    ensures (2 * c - 1) as real < At(s, h) <= (2 * c + 1) as real
  {
    -ColumnFrom(-At(s, h))
  }

  /** The smallest slope of a ray through the square of cell i in the row at height h. */
  ghost function MinSlope(i: int, h: nat): real
    requires h >= 2
  {
    Slope(2 * i - 1, if i <= 0 then h - 1 else h + 1)
  }

  /** The largest slope of a ray through that square. */
  ghost function MaxSlope(i: int, h: nat): real
    requires h >= 2
  {
    Slope(2 * i + 1, if i >= 0 then h - 1 else h + 1)
  }

  // ----- what one beam looks at

  /** Visit(i, k): the cell is marked visible and its table entry is read.
      Corner(i, k): only the table entry is read. */
  datatype Event = Visit(i: int, k: int) | Corner(i: int, k: int)

  /** The left edge after the look at the cell that the beam enters the row through. */
  ghost function CornerLeft(w: View, h: nat, s1: real): real
    requires h >= 2
  {
    var b := LeftCell(s1, h - 1);
    if w.Blocks(b, h / 2) then MaxSlope(b, h) else s1
  }

  /** Everything that the beam of slopes s1..s2 looks at from the row at height h on. */
  ghost function Trace(w: View, h: nat, s1: real, s2: real): seq<Event>
    requires h >= 2
    decreases 2 * w.range + 2 - h, 1, 0
  {
    if s1 >= s2 || h > 2 * w.range then []
    else
      [Corner(LeftCell(s1, h - 1), h / 2)] +
      Scan(w, h, s2, LeftCell(s1, h), RightCell(s2, h), LeftCell(s1, h), CornerLeft(w, h, s1), false)
  }

  /** The rest of one row, from cell i on: left is the left edge of the part of the beam still alive there, and
      prev says whether the cell before i is blocking. */
  ghost function Scan(w: View, h: nat, s2: real, first: int, last: int, i: int, left: real, prev: bool): seq<Event>
    requires 2 <= h <= 2 * w.range
    requires first <= i
    decreases 2 * w.range + 2 - h, 0, last + 1 - i
  {
    if i > last then Trace(w, h + 2, left, s2)
    else
      var b := w.Blocks(i, h / 2);
      [Visit(i, h / 2)] +
      (if i > first && b && !prev then Trace(w, h + 2, left, MinSlope(i, h)) else []) +
      Scan(w, h, s2, first, last, i + 1, if b then MaxSlope(i, h) else left, b)
  }
}
