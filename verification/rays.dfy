/** Shadow casting against ray casting: what the beams mark lies between two independent definitions of sight. */
module Rays {
  import opened Grid
  import opened Beam

  // ----- rays and cells

  /** The ray passes through the closed cell c on the centre line of the row at height h. */
  ghost predicate Touches(s: real, h: nat, c: int) {
    (2 * c - 1) as real <= At(s, h) <= (2 * c + 1) as real
  }

  /** The point (x, y) is on the ray of slope s. */
  predicate OnRay(s: real, x: real, y: real) {
    x == s * y
  }

  /** The point (x, y) is in the closed square of cell c in the row at height h. */
  predicate InSquare(x: real, y: real, h: nat, c: int) {
    && (h - 1) as real <= y <= (h + 1) as real
    && (2 * c - 1) as real <= x <= (2 * c + 1) as real
  }

  /** The ray meets that square. */
  ghost predicate Hits(s: real, h: nat, c: int) {
    exists x: real, y: real :: OnRay(s, x, y) && InSquare(x, y, h, c)
  }

  /** The ray crosses the centre lines of rows m..n-1 in open cells only. */
  ghost predicate ClearAtCentre(w: View, s: real, m: nat, n: nat) {
    forall r, c :: m <= r < n && Touches(s, 2 * r, c) ==> !w.Blocks(c, r)
  }

  /** The ray meets no blocking square of rows m..n-1 at all. */
  ghost predicate ClearOfSquares(w: View, s: real, m: nat, n: nat) {
    forall r, c :: m <= r < n && w.Blocks(c, r) ==> !Hits(s, 2 * r, c)
  }

  // ----- the corners of a square

  lemma AtSign(s: real, y: nat)
    requires y > 0
    ensures At(s, y) > 0.0 <==> s > 0.0
    ensures At(s, y) < 0.0 <==> s < 0.0
  {
    AtMono(s, 0.0, y);
    AtIsProduct(0.0, y);
  }

  /** The two extreme corners of a square enclose its bottom and its centre line, as seen from the origin. */
  lemma CornersSpan(c: int, h: nat)
    requires h >= 2
    ensures At(MinSlope(c, h), h - 1) <= (2 * c - 1) as real && At(MinSlope(c, h), h) <= (2 * c - 1) as real
    ensures At(MaxSlope(c, h), h - 1) >= (2 * c + 1) as real && At(MaxSlope(c, h), h) >= (2 * c + 1) as real
  {
    AtSign(MinSlope(c, h), if c <= 0 then h - 1 else h + 1);
    AtSign(MaxSlope(c, h), if c >= 0 then h - 1 else h + 1);
  }

  lemma OnLine(s: real, y: nat, h: nat, c: int)
    requires h - 1 <= y <= h + 1
    requires (2 * c - 1) as real <= At(s, y) <= (2 * c + 1) as real
    ensures Hits(s, h, c)
  {
    AtIsProduct(s, y);
    assert OnRay(s, At(s, y), y as real) && InSquare(At(s, y), y as real, h, c);
  }

  /** A ray that misses a square passes it on one side, outside its two extreme corners. */
  lemma MissedSquare(s: real, h: nat, c: int)
    requires h >= 2 && -1.0 < s < 1.0
    requires !Hits(s, h, c)
    ensures s < MinSlope(c, h) || MaxSlope(c, h) < s
  {
    forall y: nat | h - 1 <= y <= h + 1
      ensures !((2 * c - 1) as real <= At(s, y) <= (2 * c + 1) as real)
    {
      if (2 * c - 1) as real <= At(s, y) <= (2 * c + 1) as real { OnLine(s, y, h, c); }
    }
    assert At(s, h) == At(s, h - 1) + s && At(s, h + 1) == At(s, h) + s;
    AtMono(s, MinSlope(c, h), if c <= 0 then h - 1 else h + 1);
    AtMono(MaxSlope(c, h), s, if c >= 0 then h - 1 else h + 1);
  }

  /** The left edge s1 of a beam is inside the squares of the first cell it looks at and of the cell it enters
      the row through. */
  lemma EdgeInSquares(s1: real, h: nat)
    requires h >= 2
    ensures MinSlope(LeftCell(s1, h), h) <= s1 < MaxSlope(LeftCell(s1, h), h)
    ensures MinSlope(LeftCell(s1, h - 1), h) <= s1 < MaxSlope(LeftCell(s1, h - 1), h)
  {
    var a, b := LeftCell(s1, h), LeftCell(s1, h - 1);
    CornersSpan(a, h);
    AtMono(s1, MinSlope(a, h), h);
    AtMono(s1, MaxSlope(a, h), h);
    CornersSpan(b, h);
    AtMono(s1, MinSlope(b, h), h - 1);
    AtMono(s1, MaxSlope(b, h), h - 1);
  }

  // ----- completeness: a ray that meets no blocking square reaches its cell

  lemma {:induction false} ScanVisits(w: View, h: nat, s2: real, first: int, last: int, i: int, left: real, prev: bool,
                                      j: int)
    requires 2 <= h <= 2 * w.range && first <= i <= j <= last
    ensures Visit(j, h / 2) in Scan(w, h, s2, first, last, i, left, prev)
    decreases last - i
  {
    if i < j {
      var b := w.Blocks(i, h / 2);
      ScanVisits(w, h, s2, first, last, i + 1, if b then MaxSlope(i, h) else left, b, j);
    }
  }

  /** All the cells that a ray inside the beam touches on the centre line are looked at. */
  lemma TouchedInRange(s1: real, s2: real, s: real, h: nat, c: int)
    requires h >= 2 && s1 < s < s2 && Touches(s, h, c)
    ensures LeftCell(s1, h) <= c <= RightCell(s2, h)
  {
    AtMono(s1, s, h);
    AtMono(s, s2, h);
  }

  lemma {:induction false} TraceComplete(w: View, h: nat, s1: real, s2: real, s: real, n: nat, i: int)
    requires 2 <= h <= 2 * n <= 2 * w.range && h % 2 == 0
    requires s1 < s < s2 && -1.0 < s < 1.0
    requires ClearOfSquares(w, s, h / 2, n)
    requires Touches(s, 2 * n, i)
    ensures Visit(i, n) in Trace(w, h, s1, s2)
    decreases 2 * w.range + 2 - h, 1, 0
  {
    var first, last, left := LeftCell(s1, h), RightCell(s2, h), CornerLeft(w, h, s1);
    if h == 2 * n {
      TouchedInRange(s1, s2, s, h, i);
      ScanVisits(w, h, s2, first, last, first, left, false, i);
    } else {
      var b := LeftCell(s1, h - 1);
      EdgeInSquares(s1, h);
      if w.Blocks(b, h / 2) { MissedSquare(s, h, b); }
      ScanComplete(w, h, s2, first, last, first, left, false, s, n, i);
    }
  }

  lemma {:induction false} ScanComplete(w: View, h: nat, s2: real, first: int, last: int, i: int, left: real,
                                        prev: bool, s: real, n: nat, j: int)
    requires 2 <= h < 2 * n <= 2 * w.range && h % 2 == 0
    requires first <= i && left < s < s2 && -1.0 < s < 1.0
    requires MinSlope(first, h) < s
    requires prev ==> left == MaxSlope(i - 1, h)
    requires ClearOfSquares(w, s, h / 2, n)
    requires Touches(s, 2 * n, j)
    ensures Visit(j, n) in Scan(w, h, s2, first, last, i, left, prev)
    decreases 2 * w.range + 2 - h, 0, last + 1 - i
  {
    if i > last {
      TraceComplete(w, h + 2, left, s2, s, n, j);
    } else if !w.Blocks(i, h / 2) {
      ScanComplete(w, h, s2, first, last, i + 1, left, false, s, n, j);
    } else {
      assert h == 2 * (h / 2);
      MissedSquare(s, h, i);
      if MaxSlope(i, h) < s {
        ScanComplete(w, h, s2, first, last, i + 1, MaxSlope(i, h), true, s, n, j);
      } else {
        if prev { NeighbourCorners(i, h); }
        TraceComplete(w, h + 2, left, MinSlope(i, h), s, n, j);
      }
    }
  }

  lemma NeighbourCorners(i: int, h: nat)
    requires h >= 2
    ensures MinSlope(i, h) <= MaxSlope(i - 1, h)
  {
    CornersSpan(i, h);
    CornersSpan(i - 1, h);
    AtMono(MinSlope(i, h), MaxSlope(i - 1, h), h);
  }

  // ----- soundness: a marked cell lies on a ray that is clear on all centre lines before it

  /** Strictly inside the beam there is a ray touching each cell of its range. */
  lemma RayThrough(s1: real, s2: real, h: nat, i: int) returns (s: real)
    requires h >= 2 && s1 < s2
    requires LeftCell(s1, h) <= i <= RightCell(s2, h)
    ensures s1 < s < s2 && Touches(s, h, i)
  {
    var a, b := Slope(2 * i - 1, h), Slope(2 * i + 1, h);
    AtMono(a, b, h);
    AtMono(s1, b, h);
    AtMono(a, s2, h);
    var lo := if s1 < a then a else s1;
    var hi := if s2 < b then s2 else b;
    s := (lo + hi) / 2.0;
    AtMono(a, s, h);
    AtMono(s, b, h);
  }

  /** A visited cell lies on a ray strictly inside the beam that is clear on the centre lines in between. */
  lemma {:induction false} TraceSound(w: View, h: nat, s1: real, s2: real, n: nat, i: int) returns (s: real)
    requires h >= 2 && h % 2 == 0
    requires Visit(i, n) in Trace(w, h, s1, s2)
    ensures s1 < s < s2 && Touches(s, 2 * n, i) && ClearAtCentre(w, s, h / 2, n)
    decreases 2 * w.range + 2 - h, 1, 0
  {
    var first, last, left := LeftCell(s1, h), RightCell(s2, h), CornerLeft(w, h, s1);
    EdgeInSquares(s1, h);
    AtMono(s1, s2, h);
    forall t: real, c | left < t < s2 && Touches(t, h, c)
      ensures first <= c
    {
      TouchedInRange(s1, s2, t, h, c);
    }
    s := ScanSound(w, h, s1, s2, first, left, false, n, i);
  }

  /** Behind the scan: the rays between left and s2 touch no blocking cell before i. */
  ghost predicate Swept(w: View, h: nat, left: real, s2: real, i: int) {
    forall s: real, c :: left < s < s2 && Touches(s, h, c) && c < i ==> !w.Blocks(c, h / 2)
  }

  /** A swept ray that stays clear from the next row on is clear from this row on. */
  lemma ClearRow(w: View, h: nat, left: real, s2: real, i: int, s: real, n: nat)
    requires h >= 2 && h % 2 == 0
    requires Swept(w, h, left, s2, i) && left < s < s2 && At(s, h) < (2 * i - 1) as real
    requires ClearAtCentre(w, s, (h + 2) / 2, n)
    ensures ClearAtCentre(w, s, h / 2, n)
  {
  }

  /** Stepping over a cell keeps what lies behind the scan swept. */
  lemma SweptNext(w: View, h: nat, s1: real, s2: real, i: int, left: real)
    requires h >= 2
    requires s1 <= left && LeftCell(s1, h) <= i
    requires Swept(w, h, left, s2, i)
    ensures w.Blocks(i, h / 2) ==> s1 <= MaxSlope(i, h) && Swept(w, h, MaxSlope(i, h), s2, i + 1)
    ensures !w.Blocks(i, h / 2) ==> Swept(w, h, left, s2, i + 1)
  {
    if w.Blocks(i, h / 2) {
      CornersSpan(i, h);
      AtMono(s1, MaxSlope(i, h), h);
      forall t: real, c | MaxSlope(i, h) < t < s2 && Touches(t, h, c)
        ensures i < c
      {
        AtMono(MaxSlope(i, h), t, h);
      }
    }
  }

  lemma {:induction false} ScanSound(w: View, h: nat, s1: real, s2: real, i: int, left: real, prev: bool,
                                     n: nat, j: int) returns (s: real)
    requires 2 <= h <= 2 * w.range && h % 2 == 0
    requires s1 < s2 && s1 <= left && LeftCell(s1, h) <= i <= RightCell(s2, h) + 1
    requires Swept(w, h, left, s2, i)
    requires Visit(j, n) in Scan(w, h, s2, LeftCell(s1, h), RightCell(s2, h), i, left, prev)
    ensures s1 < s < s2 && Touches(s, 2 * n, j) && ClearAtCentre(w, s, h / 2, n)
    decreases 2 * w.range + 2 - h, 0, RightCell(s2, h) + 1 - i
  {
    var first, last := LeftCell(s1, h), RightCell(s2, h);
    if i > last {
      s := TraceSound(w, h + 2, left, s2, n, j);
      AtMono(s, s2, h);
      ClearRow(w, h, left, s2, i, s, n);
    } else if Visit(j, n) == Visit(i, h / 2) {
      s := RayThrough(s1, s2, h, i);
    } else {
      var b := w.Blocks(i, h / 2);
      if i > first && b && !prev && Visit(j, n) in Trace(w, h + 2, left, MinSlope(i, h)) {
        s := TraceSound(w, h + 2, left, MinSlope(i, h), n, j);
        CornersSpan(i, h);
        AtMono(MinSlope(i, h), s2, h);
        AtMono(s, MinSlope(i, h), h);
        ClearRow(w, h, left, s2, i, s, n);
      } else {
        SweptNext(w, h, s1, s2, i, left);
        s := ScanSound(w, h, s1, s2, i + 1, if b then MaxSlope(i, h) else left, b, n, j);
      }
    }
  }
}
