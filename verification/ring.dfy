/** How far the beams reach: the sight range, the quadrant's diagonals, and the first closed ring of blocking cells. */
module Ring {
  import opened Grid
  import opened Beam
  import opened Rays

  /** Rows lo..T of the quadrant are walled in: the columns L and R block, and so does the whole row T. */
  ghost predicate Walled(w: View, L: int, R: int, T: nat) {
    && L <= -1 && 1 <= R && 1 <= T
    && (forall k :: 1 <= k <= T ==> w.Blocks(L, k) && w.Blocks(R, k))
    && (forall i :: L <= i <= R ==> w.Blocks(i, T))
  }

  /** The cells of rows lo.. that lie inside the wall, the wall included. */
  predicate Inside(e: Event, lo: int, L: int, R: int, T: int) {
    L <= e.i <= R && lo <= e.k <= T
  }

  /** A beam between the diagonals looks at no cell outside the wall in the row at height h. */
  ghost predicate InWall(L: int, R: int, h: nat, s1: real, s2: real) {
    && -1.0 <= s1 && s2 <= 1.0
    && (2 * L - 1) as real <= At(s1, h) && At(s2, h) <= (2 * R + 1) as real
  }

  lemma {:induction false} AtUnit(y: nat)
    ensures At(1.0, y) == y as real && At(-1.0, y) == -(y as real)
  {
    if y > 0 { AtUnit(y - 1); }
  }

  /** Slopes between the diagonals stay between the diagonals. */
  lemma AtCone(s: real, y: nat)
    requires y > 0
    ensures s >= -1.0 <==> At(s, y) >= -(y as real)
    ensures s <= 1.0 <==> At(s, y) <= y as real
  {
    AtUnit(y);
    AtMono(s, -1.0, y);
    AtMono(s, 1.0, y);
  }

  lemma AtSteps(s: real, h: nat)
    requires h >= 1
    ensures At(s, h) == At(s, h - 1) + s && At(s, h + 2) == At(s, h) + s + s
  {
    assert At(s, h + 2) == At(s, h + 1) + s;
  }

  /** The corner ray of cell c drifts by at most one further half cell until the next row's centre line. */
  lemma CornerDrift(c: int, h: nat)
    requires h >= 2
    ensures MaxSlope(c, h) >= -1.0 ==> At(MaxSlope(c, h), h + 2) >= (if c < 0 then 2 * c else 0) as real
    ensures MinSlope(c, h) <= 1.0 ==> At(MinSlope(c, h), h + 2) <= (if c > 0 then 2 * c else 0) as real
    ensures -(h as real) <= (2 * c + 1) as real ==> MaxSlope(c, h) >= -1.0
    ensures (2 * c - 1) as real <= h as real ==> MinSlope(c, h) <= 1.0
  {
    var n, m := MaxSlope(c, h), MinSlope(c, h);
    AtSign(n, if c >= 0 then h - 1 else h + 1);
    AtSign(m, if c <= 0 then h - 1 else h + 1);
    AtSign(n, h + 2);
    AtSign(m, h + 2);
    AtCone(n, if c >= 0 then h - 1 else h + 1);
    AtCone(m, if c <= 0 then h - 1 else h + 1);
    assert c < 0 ==> At(n, h + 2) == At(n, h + 1) + n;
    assert c > 0 ==> At(m, h + 2) == At(m, h + 1) + m;
  }

  lemma {:induction false} TraceInWall(w: View, L: int, R: int, T: nat, h: nat, s1: real, s2: real, e: Event)
    requires Walled(w, L, R, T)
    requires 2 <= h <= 2 * T && h % 2 == 0
    requires InWall(L, R, h, s1, s2)
    requires e in Trace(w, h, s1, s2)
    ensures Inside(e, h / 2, L, R, T)
    decreases 2 * w.range + 2 - h, 1, 0
  {
    hide At, MinSlope, MaxSlope, LeftCell, RightCell;
    var first, last, left := LeftCell(s1, h), RightCell(s2, h), CornerLeft(w, h, s1);
    var b := LeftCell(s1, h - 1);
    AtSteps(s1, h);
    AtSteps(s2, h);
    AtMono(s1, s2, h);
    AtCone(s1, h);
    AtCone(s1, h - 1);
    AtCone(s2, h);
    AtCone(s2, h - 1);
    AtMono(s1, s2, h - 1);
    AtSign(s1, h - 1);
    AtSign(s2, h - 1);
    CornerDrift(b, h);
    if e != Corner(b, h / 2) {
      ScanInWall(w, L, R, T, h, s2, first, last, first, left, false, e);
    }
  }

  lemma {:induction false} ScanInWall(w: View, L: int, R: int, T: nat, h: nat, s2: real, first: int, last: int, i: int,
                                      left: real, prev: bool, e: Event)
    requires Walled(w, L, R, T)
    requires 2 <= h <= 2 * T && h <= 2 * w.range && h % 2 == 0
    requires L <= first <= i <= last + 1 && first <= last <= R && last == RightCell(s2, h) && s2 <= 1.0
    requires -(h as real) <= (2 * first + 1) as real
    requires -1.0 <= left
    requires i > first || first > L ==> (2 * L - 1) as real <= At(left, h + 2)
    requires i > first ==> prev == w.Blocks(i - 1, h / 2)
    requires prev ==> i > first && left == MaxSlope(i - 1, h)
    requires e in Scan(w, h, s2, first, last, i, left, prev)
    ensures Inside(e, h / 2, L, R, T)
    decreases 2 * w.range + 2 - h, 0, last + 1 - i
  {
    hide At, MinSlope, MaxSlope, LeftCell, RightCell, CornerLeft;
    if i > last {
      CornersSpan(last, h);
      if prev { AtMono(s2, left, h); }
      AtSteps(s2, h);
      assert !prev;
      assert h / 2 < T;
      assert last < R;
      TraceInWall(w, L, R, T, h + 2, left, s2, e);
    } else if e != Visit(i, h / 2) {
      var b := w.Blocks(i, h / 2);
      CornerDrift(i, h);
      AtCone(s2, h);
      if i > first && b && !prev && e in Trace(w, h + 2, left, MinSlope(i, h)) {
        TraceInWall(w, L, R, T, h + 2, left, MinSlope(i, h), e);
      } else {
        ScanInWall(w, L, R, T, h, s2, first, last, i + 1, if b then MaxSlope(i, h) else left, b, e);
      }
    }
  }

  // ----- the sight range and the diagonals

  /** Every look stays between the diagonals of the quadrant and inside the sight range. */
  predicate InCone(w: View, e: Event, lo: int) {
    lo <= e.k <= w.range && -e.k <= e.i <= e.k
  }

  lemma {:induction false} TraceInCone(w: View, h: nat, s1: real, s2: real, e: Event)
    requires h >= 2 && h % 2 == 0
    requires -1.0 <= s1 && s2 <= 1.0
    requires e in Trace(w, h, s1, s2)
    ensures InCone(w, e, h / 2)
    decreases 2 * w.range + 2 - h, 1, 0
  {
    hide MinSlope, MaxSlope, LeftCell, RightCell;
    var first, last, left := LeftCell(s1, h), RightCell(s2, h), CornerLeft(w, h, s1);
    var b := LeftCell(s1, h - 1);
    AtMono(s1, s2, h);
    AtMono(s1, s2, h - 1);
    AtCone(s1, h);
    AtCone(s1, h - 1);
    AtCone(s2, h);
    AtCone(s2, h - 1);
    CornerDrift(b, h);
    if e != Corner(b, h / 2) {
      ScanInCone(w, h, s2, first, last, first, left, false, e);
    }
  }

  lemma {:induction false} ScanInCone(w: View, h: nat, s2: real, first: int, last: int, i: int, left: real, prev: bool,
                                      e: Event)
    requires 2 <= h <= 2 * w.range && h % 2 == 0
    requires -(h as real) <= (2 * first + 1) as real && first <= i && (2 * last - 1) as real < h as real
    requires -1.0 <= left && s2 <= 1.0
    requires e in Scan(w, h, s2, first, last, i, left, prev)
    ensures InCone(w, e, h / 2)
    decreases 2 * w.range + 2 - h, 0, last + 1 - i
  {
    hide MinSlope, MaxSlope, LeftCell, RightCell, CornerLeft;
    if i > last {
      TraceInCone(w, h + 2, left, s2, e);
    } else if e != Visit(i, h / 2) {
      var b := w.Blocks(i, h / 2);
      CornerDrift(i, h);
      if i > first && b && !prev && e in Trace(w, h + 2, left, MinSlope(i, h)) {
        TraceInCone(w, h + 2, left, MinSlope(i, h), e);
      } else {
        ScanInCone(w, h, s2, first, last, i + 1, if b then MaxSlope(i, h) else left, b, e);
      }
    }
  }
}
