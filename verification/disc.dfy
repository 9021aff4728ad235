/** Cells behind which nothing of the disc lies: what blocks there never changes what is seen elsewhere. */
module Shadow {
  import opened Grid
  import opened Beam
  import opened Rays
  import opened Ring

  /** The cells from (j, k) outwards: away from the quadrant's axis and up. */
  datatype Region = Region(j: int, k: nat) {
    predicate Has(c: int, r: int) {
      r >= k && (if j > 0 then c >= j else c <= j)
    }
  }

  /** The marks outside the region, in order. */
  function Near(g: Region, t: seq<Event>): seq<Event> {
    if t == [] then []
    else (if t[0].Visit? && !g.Has(t[0].i, t[0].k) then [t[0]] else []) + Near(g, t[1..])
  }

  lemma {:induction false} NearConcat(g: Region, a: seq<Event>, b: seq<Event>)
    ensures Near(g, a + b) == Near(g, a) + Near(g, b)
  {
    if a == [] {
      assert a + b == b;
    } else {
      assert (a + b)[1..] == a[1..] + b;
      NearConcat(g, a[1..], b);
    }
  }

  lemma {:induction false} NearNothing(g: Region, t: seq<Event>)
    requires forall e :: e in t && e.Visit? ==> g.Has(e.i, e.k)
    ensures Near(g, t) == []
  {
    if t != [] {
      assert t[0] in t;
      NearNothing(g, t[1..]);
    }
  }

  /** The two views agree outside the region. */
  ghost predicate Agree(w: View, w': View, g: Region) {
    w.range == w'.range && forall c, r :: !g.Has(c, r) ==> w.Blocks(c, r) == w'.Blocks(c, r)
  }

  // ----- one step of a scan

  ghost function Gap(w: View, h: nat, first: int, i: int, left: real, prev: bool): seq<Event>
    requires 2 <= h <= 2 * w.range
  {
    if i > first && w.Blocks(i, h / 2) && !prev then Trace(w, h + 2, left, MinSlope(i, h)) else []
  }

  lemma NearScan(g: Region, w: View, h: nat, s2: real, first: int, last: int, i: int, left: real, prev: bool)
    requires 2 <= h <= 2 * w.range && first <= i <= last
    ensures Near(g, Scan(w, h, s2, first, last, i, left, prev)) ==
            (if g.Has(i, h / 2) then [] else [Visit(i, h / 2)]) + Near(g, Gap(w, h, first, i, left, prev)) +
            Near(g, Scan(w, h, s2, first, last, i + 1, if w.Blocks(i, h / 2) then MaxSlope(i, h) else left,
                         w.Blocks(i, h / 2)))
  {
    hide MinSlope, MaxSlope, Trace;
    var gap := Gap(w, h, first, i, left, prev);
    var rest := Scan(w, h, s2, first, last, i + 1, if w.Blocks(i, h / 2) then MaxSlope(i, h) else left,
                     w.Blocks(i, h / 2));
    assert Scan(w, h, s2, first, last, i, left, prev) == [Visit(i, h / 2)] + gap + rest;
    NearConcat(g, [Visit(i, h / 2)] + gap, rest);
    NearConcat(g, [Visit(i, h / 2)], gap);
    assert Near(g, [Visit(i, h / 2)]) == if g.Has(i, h / 2) then [] else [Visit(i, h / 2)];
  }

  lemma NearTrace(g: Region, w: View, h: nat, s1: real, s2: real)
    requires 2 <= h <= 2 * w.range && s1 < s2
    ensures Near(g, Trace(w, h, s1, s2)) ==
            Near(g, Scan(w, h, s2, LeftCell(s1, h), RightCell(s2, h), LeftCell(s1, h), CornerLeft(w, h, s1), false))
  {
  }

  // ----- growth of a ray

  lemma {:induction false} AtGrows(s: real, y: nat, z: nat)
    requires y <= z
    ensures s >= 0.0 ==> At(s, y) <= At(s, z)
    ensures s <= 0.0 ==> At(s, y) >= At(s, z)
    decreases z - y
  {
    if y < z {
      AtGrows(s, y, z - 1);
      assert At(s, z) == At(s, z - 1) + s;
    }
  }

  // ----- the region right of the axis

  /** A beam whose left edge is already right of column j - 1 only marks cells of the region. */
  lemma FarRight(g: Region, w: View, h: nat, s1: real, s2: real)
    requires g.j > 0 && h >= 2 && h % 2 == 0 && h >= 2 * g.k && s2 <= 1.0
    requires At(s1, h) >= (2 * g.j - 1) as real
    ensures Near(g, Trace(w, h, s1, s2)) == []
  {
    hide Trace;
    AtSign(s1, h);
    forall e | e in Trace(w, h, s1, s2) && e.Visit?
      ensures g.Has(e.i, e.k)
    {
      TraceInCone(w, h, s1, s2, e);
      var s := TraceSound(w, h, s1, s2, e.k, e.i);
      AtGrows(s1, h, 2 * e.k);
      AtMono(s1, s, 2 * e.k);
    }
    NearNothing(g, Trace(w, h, s1, s2));
  }

  /** A right edge past column j - 1. */
  ghost predicate Past(g: Region, h: nat, s: real) {
    h >= 2 * g.k && At(s, h) > (2 * g.j - 1) as real && s <= 1.0
  }

  lemma PastNext(g: Region, h: nat, s: real)
    requires g.j > 0 && Past(g, h, s)
    ensures Past(g, h + 2, s)
  {
    if h > 0 { AtSign(s, h); }
    AtGrows(s, h, h + 2);
  }

  /** The corners of a cell of the region stay in it. */
  lemma CornersPast(g: Region, h: nat, i: int)
    requires g.j > 0 && h >= 2 && h >= 2 * g.k && i >= g.j
    ensures (2 * i - 1) as real <= h as real ==> Past(g, h + 2, MinSlope(i, h))
    ensures At(MaxSlope(i, h), h + 2) >= (2 * g.j + 1) as real
  {
    AtSign(MinSlope(i, h), h + 1);
    AtSign(MaxSlope(i, h), h - 1);
    AtGrows(MaxSlope(i, h), h - 1, h + 2);
    AtCone(MinSlope(i, h), h + 1);
    assert At(MinSlope(i, h), h + 2) == At(MinSlope(i, h), h + 1) + MinSlope(i, h);
  }

  /** From column j on only one beam matters: the one between the present left edge and the next blocking cell. */
  lemma {:induction false} RestRight(g: Region, w: View, h: nat, s2: real, first: int, i: int, left: real, prev: bool)
      returns (x: real)
    requires g.j > 0 && 2 <= h <= 2 * w.range && h % 2 == 0 && Past(g, h, s2) && g.j <= i && first < i
    ensures Past(g, h + 2, x)
    ensures prev || Near(g, Scan(w, h, s2, first, RightCell(s2, h), i, left, prev)) == Near(g, Trace(w, h + 2, left, x))
    ensures prev && At(left, h + 2) >= (2 * g.j - 1) as real ==>
              Near(g, Scan(w, h, s2, first, RightCell(s2, h), i, left, prev)) == []
    decreases RightCell(s2, h) - i
  {
    hide Trace, Near, MinSlope, MaxSlope, RightCell;
    var last := RightCell(s2, h);
    PastNext(g, h, s2);
    if i > last {
      x := s2;
      EndOfScan(w, h, s2, first, last, i, left, prev);
      if prev && At(left, h + 2) >= (2 * g.j - 1) as real { FarRight(g, w, h + 2, left, s2); }
    } else {
      NearScan(g, w, h, s2, first, last, i, left, prev);
      AtCone(s2, h);
      CornersPast(g, h, i);
      if w.Blocks(i, h / 2) {
        var y := RestRight(g, w, h, s2, first, i + 1, MaxSlope(i, h), true);
        x := MinSlope(i, h);
        if prev { NearEmpty(g); }
      } else {
        x := RestRight(g, w, h, s2, first, i + 1, left, false);
        NearEmpty(g);
        if prev && At(left, h + 2) >= (2 * g.j - 1) as real { FarRight(g, w, h + 2, left, x); }
      }
    }
  }

  lemma NearEmpty(g: Region)
    ensures Near(g, []) == []
  {
  }

  lemma EndOfScan(w: View, h: nat, s2: real, first: int, last: int, i: int, left: real, prev: bool)
    requires 2 <= h <= 2 * w.range && first <= i && last < i
    ensures Scan(w, h, s2, first, last, i, left, prev) == Trace(w, h + 2, left, s2)
  {
  }

  /** The right edges of the two beams are the same, or both past column j - 1. */
  ghost predicate SameRight(g: Region, h: nat, s2: real, t2: real) {
    s2 <= 1.0 && t2 <= 1.0 && (s2 == t2 || (Past(g, h, s2) && Past(g, h, t2)))
  }

  lemma {:induction false} TraceRight(g: Region, w: View, w': View, h: nat, s1: real, s2: real, t2: real)
    requires Agree(w, w', g) && g.j > 0 && h >= 2 && h % 2 == 0
    requires -1.0 <= s1 && SameRight(g, h, s2, t2)
    ensures Near(g, Trace(w, h, s1, s2)) == Near(g, Trace(w', h, s1, t2))
    decreases 2 * w.range + 2 - h, 1, 0
  {
    hide Near, At, MinSlope, MaxSlope, LeftCell, RightCell;
    var first := LeftCell(s1, h);
    if h > 2 * w.range || (s2 == t2 && s1 >= s2) {
    } else if h >= 2 * g.k && first >= g.j {
      FarRight(g, w, h, s1, s2);
      FarRight(g, w', h, s1, t2);
    } else {
      AtMono(s1, s2, h);
      AtMono(s1, t2, h);
      AtSign(s1, h - 1);
      AtSteps(s1, h);
      assert w.Blocks(LeftCell(s1, h - 1), h / 2) == w'.Blocks(LeftCell(s1, h - 1), h / 2);
      NearTrace(g, w, h, s1, s2);
      NearTrace(g, w', h, s1, t2);
      CornerInCone(w, h, s1);
      ScanRight(g, w, w', h, s2, t2, first, first, CornerLeft(w, h, s1), false);
    }
  }

  /** The left edge stays between the diagonals. */
  lemma CornerInCone(w: View, h: nat, s1: real)
    requires h >= 2 && h % 2 == 0 && -1.0 <= s1
    ensures CornerLeft(w, h, s1) >= -1.0 && LeftCell(s1, h) >= -(h / 2)
  {
    AtCone(s1, h);
    AtCone(s1, h - 1);
    CornerDrift(LeftCell(s1, h - 1), h);
  }

  lemma {:induction false} ScanRight(g: Region, w: View, w': View, h: nat, s2: real, t2: real, first: int, i: int,
                                     left: real, prev: bool)
    requires Agree(w, w', g) && g.j > 0 && 2 <= h <= 2 * w.range && h % 2 == 0
    requires -(h / 2) <= first <= i && -1.0 <= left && SameRight(g, h, s2, t2)
    requires h >= 2 * g.k ==> first < g.j && i <= g.j
    requires prev ==> left == MaxSlope(i - 1, h)
    ensures Near(g, Scan(w, h, s2, first, RightCell(s2, h), i, left, prev))
            == Near(g, Scan(w', h, t2, first, RightCell(t2, h), i, left, prev))
    decreases 2 * w.range + 2 - h, 0, RightCell(s2, h) + 1 - i
  {
    hide Near, At, Trace, Scan, MinSlope, MaxSlope, LeftCell, RightCell, CornerLeft;
    var last, last' := RightCell(s2, h), RightCell(t2, h);
    if i > last {
      EndOfScan(w, h, s2, first, last, i, left, prev);
      EndOfScan(w', h, s2, first, last, i, left, prev);
      TraceRight(g, w, w', h + 2, left, s2, s2);
    } else if h >= 2 * g.k && i == g.j {
      assert Past(g, h, s2) && Past(g, h, t2);
      var x := RestRight(g, w, h, s2, first, i, left, prev);
      var x' := RestRight(g, w', h, t2, first, i, left, prev);
      if prev {
        CornerSteps(i - 1, h);
      } else {
        TraceRight(g, w, w', h + 2, left, x, x');
      }
    } else {
      NearScan(g, w, h, s2, first, last, i, left, prev);
      NearScan(g, w', h, t2, first, last', i, left, prev);
      AtCone(s2, h);
      CornerDrift(i, h);
      if i > first && w.Blocks(i, h / 2) && !prev {
        TraceRight(g, w, w', h + 2, left, MinSlope(i, h), MinSlope(i, h));
      }
      var b := w.Blocks(i, h / 2);
      ScanRight(g, w, w', h, s2, t2, first, i + 1, if b then MaxSlope(i, h) else left, b);
    }
  }

  /** The right corner of a cell is past that cell in the next row. */
  lemma CornerSteps(c: int, h: nat)
    requires h >= 2 && c >= 0
    ensures At(MaxSlope(c, h), h + 2) >= (2 * c + 1) as real
  {
    AtSign(MaxSlope(c, h), h - 1);
    AtGrows(MaxSlope(c, h), h - 1, h + 2);
  }

  // ----- the region left of the axis

  /** A beam whose right edge is already left of column j + 1 only marks cells of the region. */
  lemma FarLeft(g: Region, w: View, h: nat, s1: real, s2: real)
    requires g.j < 0 && h >= 2 && h % 2 == 0 && h >= 2 * g.k && -1.0 <= s1
    requires At(s2, h) <= (2 * g.j + 1) as real
    ensures Near(g, Trace(w, h, s1, s2)) == []
  {
    hide Trace;
    AtSign(s2, h);
    forall e | e in Trace(w, h, s1, s2) && e.Visit?
      ensures g.Has(e.i, e.k)
    {
      TraceInCone(w, h, s1, s2, e);
      var s := TraceSound(w, h, s1, s2, e.k, e.i);
      AtGrows(s2, h, 2 * e.k);
      AtMono(s, s2, 2 * e.k);
    }
    NearNothing(g, Trace(w, h, s1, s2));
  }

  /** A left edge before column j + 1. */
  ghost predicate Short(g: Region, h: nat, s: real) {
    h >= 2 * g.k && At(s, h) < (2 * g.j + 1) as real && -1.0 <= s
  }

  lemma ShortNext(g: Region, h: nat, s: real)
    requires g.j < 0 && Short(g, h, s)
    ensures Short(g, h + 2, s)
  {
    if h > 0 { AtSign(s, h); }
    AtGrows(s, h, h + 2);
  }

  /** The corners of a cell of the region, or of column j + 1, as seen from the next row. */
  lemma CornersShort(g: Region, h: nat, i: int)
    requires g.j < 0 && h >= 2 && h >= 2 * g.k && -(h / 2) <= i && h % 2 == 0
    ensures i <= g.j ==> Short(g, h + 2, MaxSlope(i, h))
    ensures i <= g.j + 1 ==> At(MinSlope(i, h), h + 2) <= (2 * g.j + 1) as real
    ensures MaxSlope(i, h) > MinSlope(i, h)
  {
    CornersSpan(i, h);
    AtMono(MinSlope(i, h), MaxSlope(i, h), h);
    CornerDrift(i, h);
    if i <= g.j + 1 {
      AtSign(MinSlope(i, h), h - 1);
      AtGrows(MinSlope(i, h), h - 1, h + 2);
      if i <= g.j {
        AtSign(MaxSlope(i, h), h + 1);
        assert At(MaxSlope(i, h), h + 2) == At(MaxSlope(i, h), h + 1) + MaxSlope(i, h);
      }
    }
  }

  /** A left edge in the part of a row before column j + 1: of no account in the next row, unless it is the corner
      of a blocking cell of that column, through which the beam entered the row. */
  ghost predicate LowLeft(g: Region, w: View, h: nat, left: real)
    requires h >= 2
  {
    -1.0 <= left && (Short(g, h + 2, left) || (left == MaxSlope(g.j + 1, h) && w.Blocks(g.j + 1, h / 2)))
  }

  /** Up to column j nothing outside the region is marked. */
  lemma {:induction false} SkipLeft(g: Region, w: View, h: nat, s2: real, first: int, last: int, i: int, left: real,
                                    prev: bool) returns (left': real, prev': bool)
    requires g.j < 0 && 2 <= h <= 2 * w.range && h % 2 == 0 && h >= 2 * g.k
    requires -(h / 2) <= first <= i <= g.j + 1 <= last && LowLeft(g, w, h, left)
    ensures LowLeft(g, w, h, left')
    ensures Near(g, Scan(w, h, s2, first, last, i, left, prev)) == Near(g, Scan(w, h, s2, first, last, g.j + 1, left', prev'))
    decreases g.j - i
  {
    hide Near, Trace, Scan, At, MinSlope, MaxSlope;
    if i == g.j + 1 {
      left', prev' := left, prev;
    } else {
      NearScan(g, w, h, s2, first, last, i, left, prev);
      CornersShort(g, h, i);
      NearEmpty(g);
      if i > first && w.Blocks(i, h / 2) && !prev { FarLeft(g, w, h + 2, left, MinSlope(i, h)); }
      var b := w.Blocks(i, h / 2);
      left', prev' := SkipLeft(g, w, h, s2, first, last, i + 1, if b then MaxSlope(i, h) else left, b);
    }
  }

  /** The left edges of the two beams are the same, or both before column j + 1. */
  ghost predicate SameLeft(g: Region, h: nat, s1: real, t1: real) {
    -1.0 <= s1 && -1.0 <= t1 && (s1 == t1 || (Short(g, h, s1) && Short(g, h, t1)))
  }

  /** The left edge after the entry into a row that starts in the region. */
  lemma EntryLeft(g: Region, w: View, h: nat, s1: real)
    requires g.j < 0 && h >= 2 && h % 2 == 0 && Short(g, h, s1)
    ensures LowLeft(g, w, h, CornerLeft(w, h, s1)) && LeftCell(s1, h) <= g.j
  {
    var b := LeftCell(s1, h - 1);
    AtSteps(s1, h);
    AtSign(s1, h);
    ShortNext(g, h, s1);
    AtCone(s1, h - 1);
    CornerInCone(w, h, s1);
    if b <= g.j { CornersShort(g, h, b); }
  }

  lemma {:induction false} TraceLeft(g: Region, w: View, w': View, h: nat, s1: real, t1: real, s2: real)
    requires Agree(w, w', g) && g.j < 0 && h >= 2 && h % 2 == 0
    requires s2 <= 1.0 && SameLeft(g, h, s1, t1)
    ensures Near(g, Trace(w, h, s1, s2)) == Near(g, Trace(w', h, t1, s2))
    decreases 2 * w.range + 2 - h, 1, 0
  {
    hide Near, At, MinSlope, MaxSlope, LeftCell, RightCell, CornerLeft;
    var first, first', last := LeftCell(s1, h), LeftCell(t1, h), RightCell(s2, h);
    if h > 2 * w.range || (s1 == t1 && s1 >= s2) {
    } else if h >= 2 * g.k && At(s2, h) <= (2 * g.j + 1) as real {
      FarLeft(g, w, h, s1, s2);
      FarLeft(g, w', h, t1, s2);
    } else {
      AtMono(s1, s2, h);
      AtMono(t1, s2, h);
      NearTrace(g, w, h, s1, s2);
      NearTrace(g, w', h, t1, s2);
      CornerInCone(w, h, s1);
      CornerInCone(w', h, t1);
      if h >= 2 * g.k && first <= g.j {
        assert Short(g, h, s1) && Short(g, h, t1);
        EntryLeft(g, w, h, s1);
        EntryLeft(g, w', h, t1);
        var left, prev := SkipLeft(g, w, h, s2, first, last, first, CornerLeft(w, h, s1), false);
        var left', prev' := SkipLeft(g, w', h, s2, first', last, first', CornerLeft(w', h, t1), false);
        ScanLeft(g, w, w', h, s2, first, first', g.j + 1, left, prev, left', prev');
      } else {
        SameCorner(g, w, w', h, s1);
        ScanLeft(g, w, w', h, s2, first, first, first, CornerLeft(w, h, s1), false, CornerLeft(w', h, s1), false);
      }
    }
  }

  /** A beam that starts outside the region enters the row outside it. */
  lemma SameCorner(g: Region, w: View, w': View, h: nat, s1: real)
    requires Agree(w, w', g) && g.j < 0 && h >= 2 && h % 2 == 0
    requires h >= 2 * g.k ==> LeftCell(s1, h) > g.j
    ensures CornerLeft(w, h, s1) == CornerLeft(w', h, s1)
  {
    AtSteps(s1, h);
    AtSign(s1, h - 1);
    assert w.Blocks(LeftCell(s1, h - 1), h / 2) == w'.Blocks(LeftCell(s1, h - 1), h / 2);
  }

  /** The two scans have the same left edge, or their left edges have not mattered yet. */
  ghost predicate SameState(g: Region, w: View, w': View, h: nat, last: int, i: int, left: real, prev: bool,
                            left': real, prev': bool)
    requires h >= 2
  {
    || (left == left' && prev == prev' && -1.0 <= left)
    || (h >= 2 * g.k && i == g.j + 1 <= last && LowLeft(g, w, h, left) && LowLeft(g, w', h, left'))
    || (h >= 2 * g.k && i > g.j + 1 && !prev && !prev' && Short(g, h + 2, left) && Short(g, h + 2, left'))
  }

  lemma {:induction false} ScanLeft(g: Region, w: View, w': View, h: nat, s2: real, first: int, first': int, i: int,
                                    left: real, prev: bool, left': real, prev': bool)
    requires Agree(w, w', g) && g.j < 0 && 2 <= h <= 2 * w.range && h % 2 == 0 && s2 <= 1.0
    requires -(h / 2) <= first <= i && first' <= i && (first == first' || (first < i && first' < i))
    requires h >= 2 * g.k ==> g.j < i
    requires SameState(g, w, w', h, RightCell(s2, h), i, left, prev, left', prev')
    ensures Near(g, Scan(w, h, s2, first, RightCell(s2, h), i, left, prev))
            == Near(g, Scan(w', h, s2, first', RightCell(s2, h), i, left', prev'))
    decreases 2 * w.range + 2 - h, 0, RightCell(s2, h) + 1 - i
  {
    hide Near, At, Trace, Scan, MinSlope, MaxSlope, RightCell;
    var last := RightCell(s2, h);
    if i > last {
      EndOfScan(w, h, s2, first, last, i, left, prev);
      EndOfScan(w', h, s2, first', last, i, left', prev');
      TraceLeft(g, w, w', h + 2, left, left', s2);
    } else {
      NearScan(g, w, h, s2, first, last, i, left, prev);
      NearScan(g, w', h, s2, first', last, i, left', prev');
      AtCone(s2, h);
      CornerDrift(i, h);
      var b := w.Blocks(i, h / 2);
      assert b == w'.Blocks(i, h / 2);
      SameGap(g, w, w', h, s2, first, first', i, left, prev, left', prev');
      ScanLeft(g, w, w', h, s2, first, first', i + 1, if b then MaxSlope(i, h) else left, b,
               if b then MaxSlope(i, h) else left', b);
    }
  }

  lemma {:induction false} SameGap(g: Region, w: View, w': View, h: nat, s2: real, first: int, first': int, i: int,
                                   left: real, prev: bool, left': real, prev': bool)
    requires Agree(w, w', g) && g.j < 0 && 2 <= h <= 2 * w.range && h % 2 == 0 && s2 <= 1.0
    requires -(h / 2) <= first <= i <= RightCell(s2, h) && first' <= i
    requires first == first' || (first < i && first' < i)
    requires h >= 2 * g.k ==> g.j < i
    requires SameState(g, w, w', h, RightCell(s2, h), i, left, prev, left', prev')
    ensures Near(g, Gap(w, h, first, i, left, prev)) == Near(g, Gap(w', h, first', i, left', prev'))
    decreases 2 * w.range + 2 - h, 0, RightCell(s2, h) + 1 - i, 0
  {
    hide Near, At, Trace, MinSlope, MaxSlope, RightCell;
    assert w.Blocks(i, h / 2) == w'.Blocks(i, h / 2);
    AtCone(s2, h);
    CornerDrift(i, h);
    NearEmpty(g);
    if w.Blocks(i, h / 2) {
      if left == left' && prev == prev' && -1.0 <= left {
        if i > first && !prev { TraceLeft(g, w, w', h + 2, left, left', MinSlope(i, h)); }
      } else if i == g.j + 1 {
        CornersShort(g, h, i);
        FarLeft(g, w, h + 2, left, MinSlope(i, h));
        FarLeft(g, w', h + 2, left', MinSlope(i, h));
      } else {
        TraceLeft(g, w, w', h + 2, left, left', MinSlope(i, h));
      }
    }
  }
}
