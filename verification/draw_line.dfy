/** Straight lines on the grid: the integer error loop and its eight octants. */
module DrawLine {
  import opened Grid

  /** In column x of the line from (0, 0) to (dx, dy), y is the nearest row; half-way the lower one. */
  predicate Nearest(dx: nat, dy: nat, x: int, y: int) {
    if dx == 0 then y == 0 else 0 - dx < 2 * (dy * x - dx * y) <= dx
  }

  lemma NearestUnique(dx: nat, dy: nat, x: int, y: int, z: int)
    requires Nearest(dx, dy, x, y) && Nearest(dx, dy, x, z)
    ensures y == z
  {
    if y < z { Gap(dx, y, z); }
    if z < y { Gap(dx, z, y); }
  }

  lemma {:induction false} Gap(dx: nat, y: int, z: int)
    requires y < z
    ensures dx * z - dx * y >= dx
    decreases z - y
  {
    assert dx * z == dx * (z - 1) + dx;
    if y < z - 1 { Gap(dx, y, z - 1); }
  }

  method DrawNormalized(dx: int, dy: int) returns (ret: seq<int>)
    requires 0 <= dy <= dx
    ensures |ret| == dx + 1
    ensures forall x :: 0 <= x <= dx ==> Nearest(dx, dy, x, ret[x])
    ensures ret[0] == 0 && ret[dx] == dy
    ensures forall x :: 0 <= x < dx ==> 0 <= ret[x + 1] - ret[x] <= 1
  {
    var d := 2 * dy - dx;
    var y := 0;
    ret := [];
    for x := 0 to dx + 1
      invariant |ret| == x
      invariant dx > 0 ==> d == 2 * (dy * x - dx * y) + 2 * dy - dx
      invariant Nearest(dx, dy, x, y)
      invariant dx == 0 ==> d == 0
      invariant forall k :: 0 <= k < x ==> Nearest(dx, dy, k, ret[k])
      invariant x == 0 ==> y == 0
      invariant x > 0 ==> ret[0] == 0 && 0 <= y - ret[x - 1] <= 1
      invariant forall k :: 0 <= k < x - 1 ==> 0 <= ret[k + 1] - ret[k] <= 1
    {
      ret := ret + [y];
      NextColumn(dx, dy, x, y);
      if d > 0 {
        y := y + 1;
        d := d - 2 * dx;
      }
      d := d + 2 * dy;
    }
    Ends(dx, dy);
    NearestUnique(dx, dy, dx, ret[dx], dy);
  }

  lemma NextColumn(dx: nat, dy: nat, x: int, y: int)
    requires dy <= dx && Nearest(dx, dy, x, y)
    ensures var e := 2 * (dy * x - dx * y);
            && 2 * (dy * (x + 1) - dx * y) == e + 2 * dy
            && 2 * (dy * (x + 1) - dx * (y + 1)) == e + 2 * dy - 2 * dx
  {
    assert dy * (x + 1) == dy * x + dy && dx * (y + 1) == dx * y + dx;
  }

  lemma Ends(dx: nat, dy: nat)
    requires dy <= dx
    ensures Nearest(dx, dy, dx, dy) && Nearest(dx, dy, 0, 0)
  {
  }

  // ----- the eight octants

  function Sign(x: int): int {
    if x < 0 then -1 else 1
  }

  /** The i-th point, with y the offset on the minor axis. */
  function PointAt(from: Vec2, to: Vec2, i: int, y: int): Vec2 {
    var dir := to.Minus(from);
    var steep := Abs(dir.x) < Abs(dir.y);
    Vec2(from.x + Sign(dir.x) * (if steep then y else i), from.y + Sign(dir.y) * (if steep then i else y))
  }

  /** The point of the line i steps along the major axis: the nearest one to the true segment. */
  ghost predicate OnLine(from: Vec2, to: Vec2, i: int, p: Vec2) {
    var dir := to.Minus(from);
    exists y :: Nearest(Max(Abs(dir.x), Abs(dir.y)), Min(Abs(dir.x), Abs(dir.y)), i, y) && p == PointAt(from, to, i, y)
  }

  ghost predicate IsLine(from: Vec2, to: Vec2, r: seq<Vec2>) {
    && |r| == Dist8(from, to) + 1
    && forall i :: 0 <= i < |r| ==> OnLine(from, to, i, r[i])
  }

  method Line(from: Vec2, to: Vec2) returns (r: seq<Vec2>)
    ensures IsLine(from, to, r)
    ensures r[0] == from && r[|r| - 1] == to
    ensures forall i :: 0 < i < |r| ==> Dist8(r[i - 1], r[i]) == 1
  {
    hide Nearest, PointAt;
    var dir := to.Minus(from);
    ghost var dx, dy := Max(Abs(dir.x), Abs(dir.y)), Min(Abs(dir.x), Abs(dir.y));
    var normalized := DrawNormalized(Max(Abs(dir.x), Abs(dir.y)), Min(Abs(dir.x), Abs(dir.y)));
    r := [];
    for i := 0 to |normalized|
      invariant |r| == i && forall j :: 0 <= j < i ==> r[j] == PointAt(from, to, j, normalized[j])
    {
      var x, y := i, normalized[i];
      if Abs(dir.x) < Abs(dir.y) { x, y := y, x; }
      if dir.y < 0 { y := -y; }
      if dir.x < 0 { x := -x; }
      PointIs(from, to, i, normalized[i]);
      r := r + [Vec2(from.x + x, from.y + y)];
    }
    forall i | 0 <= i < |r|
      ensures OnLine(from, to, i, r[i])
    {
      assert Nearest(dx, dy, i, normalized[i]) && r[i] == PointAt(from, to, i, normalized[i]);
    }
    PointEnds(from, to);
    forall i | 0 < i < |r|
      ensures Dist8(r[i - 1], r[i]) == 1
    {
      assert 0 <= normalized[i - 1 + 1] - normalized[i - 1] <= 1;
      PointSteps(from, to, i, normalized[i - 1], normalized[i]);
    }
  }

  /** The code swaps the axes and flips the signs one after the other. */
  lemma PointIs(from: Vec2, to: Vec2, i: int, n: int)
    ensures var dir := to.Minus(from);
            var x, y := if Abs(dir.x) < Abs(dir.y) then n else i, if Abs(dir.x) < Abs(dir.y) then i else n;
            PointAt(from, to, i, n) ==
            Vec2(from.x + (if dir.x < 0 then -x else x), from.y + (if dir.y < 0 then -y else y))
  {
  }

  lemma PointEnds(from: Vec2, to: Vec2)
    ensures PointAt(from, to, 0, 0) == from
    ensures PointAt(from, to, Dist8(from, to), Min(Abs(to.x - from.x), Abs(to.y - from.y))) == to
  {
  }

  lemma PointSteps(from: Vec2, to: Vec2, i: int, y: int, z: int)
    requires 0 <= z - y <= 1
    ensures Dist8(PointAt(from, to, i - 1, y), PointAt(from, to, i, z)) == 1
  {
  }

  /** The line is determined by its ends. */
  lemma LineUnique(from: Vec2, to: Vec2, r: seq<Vec2>, s: seq<Vec2>)
    requires IsLine(from, to, r) && IsLine(from, to, s)
    ensures r == s
  {
    hide Nearest, PointAt;
    var dir := to.Minus(from);
    var dx, dy := Max(Abs(dir.x), Abs(dir.y)), Min(Abs(dir.x), Abs(dir.y));
    forall i | 0 <= i < |r|
      ensures r[i] == s[i]
    {
      assert OnLine(from, to, i, r[i]) && OnLine(from, to, i, s[i]);
      var y :| Nearest(dx, dy, i, y) && r[i] == PointAt(from, to, i, y);
      var z :| Nearest(dx, dy, i, z) && s[i] == PointAt(from, to, i, z);
      NearestUnique(dx, dy, i, y, z);
    }
  }

  // ----- the way back

  /** The true segment passes exactly half-way between two rows of column i. */
  ghost predicate Tie(dx: nat, dy: nat, i: int) {
    exists y :: 2 * (dy * i - dx * y) == dx && dx > 0
  }

  function Reverse(s: seq<Vec2>): (r: seq<Vec2>)
    ensures |r| == |s| && forall i :: 0 <= i < |s| ==> r[i] == s[|s| - 1 - i]
  {
    seq(|s|, i requires 0 <= i < |s| => s[|s| - 1 - i])
  }

  /** Row y of column i, seen from the other end. */
  lemma Mirrored(dx: nat, dy: nat, i: int, y: int)
    requires dy <= dx && 0 <= i <= dx && Nearest(dx, dy, i, y)
    ensures Nearest(dx, dy, dx - i, dy - y) <==> !Tie(dx, dy, i)
  {
    if dx > 0 {
      assert dy * (dx - i) - dx * (dy - y) == -(dy * i - dx * y);
      if Tie(dx, dy, i) {
        var z :| 2 * (dy * i - dx * z) == dx;
        if z != y { TieUnique(dx, dy, i, y, z); }
      }
    }
  }

  lemma TieUnique(dx: nat, dy: nat, i: int, y: int, z: int)
    requires dx > 0 && Nearest(dx, dy, i, y) && 2 * (dy * i - dx * z) == dx
    ensures y == z
  {
    assert Nearest(dx, dy, i, z);
    NearestUnique(dx, dy, i, y, z);
  }

  /** The line back is the line there, reversed, exactly if no column is a tie. */
  lemma WayBack(from: Vec2, to: Vec2, there: seq<Vec2>, back: seq<Vec2>)
    requires IsLine(from, to, there) && IsLine(to, from, back)
    ensures var dx, dy := Max(Abs(to.x - from.x), Abs(to.y - from.y)), Min(Abs(to.x - from.x), Abs(to.y - from.y));
            back == Reverse(there) <==> forall i :: 0 <= i <= dx ==> !Tie(dx, dy, i)
  {
    hide IsLine, Tie, Max, Abs;
    var dx, dy := Max(Abs(to.x - from.x), Abs(to.y - from.y)), Min(Abs(to.x - from.x), Abs(to.y - from.y));
    LineLength(from, to, there);
    BackAt(from, to, there, back, 0);
    forall i | 0 <= i <= dx
      ensures back[dx - i] == there[i] <==> !Tie(dx, dy, i)
    {
      BackAt(from, to, there, back, i);
    }
    if back == Reverse(there) {
      forall i | 0 <= i <= dx
        ensures !Tie(dx, dy, i)
      {
        assert back[dx - i] == Reverse(there)[dx - i] == there[i];
      }
    }
  }

  lemma LineLength(from: Vec2, to: Vec2, line: seq<Vec2>)
    requires IsLine(from, to, line)
    ensures |line| == Max(Abs(to.x - from.x), Abs(to.y - from.y)) + 1 && |line| > 0
  {
  }

  lemma BackAt(from: Vec2, to: Vec2, there: seq<Vec2>, back: seq<Vec2>, i: nat)
    requires IsLine(from, to, there) && IsLine(to, from, back) && i < |there|
    ensures var dx, dy := Max(Abs(to.x - from.x), Abs(to.y - from.y)), Min(Abs(to.x - from.x), Abs(to.y - from.y));
            |there| == |back| == dx + 1 && (back[dx - i] == there[i] <==> !Tie(dx, dy, i))
  {
    hide Nearest, PointAt, Tie;
    var dir := to.Minus(from);
    var dx, dy := Max(Abs(dir.x), Abs(dir.y)), Min(Abs(dir.x), Abs(dir.y));
    var y :| Nearest(dx, dy, i, y) && there[i] == PointAt(from, to, i, y);
    var j := dx - i;
    assert OnLine(to, from, j, back[j]);
    var z :| Nearest(dx, dy, j, z) && back[j] == PointAt(to, from, j, z);
    Mirrored(dx, dy, i, y);
    OtherEnd(from, to, i, y, z);
    if !Tie(dx, dy, i) { NearestUnique(dx, dy, j, z, dy - y); }
  }

  /** The same point counted from the other end. */
  lemma OtherEnd(from: Vec2, to: Vec2, i: int, y: int, z: int)
    requires var dx, dy := Max(Abs(to.x - from.x), Abs(to.y - from.y)), Min(Abs(to.x - from.x), Abs(to.y - from.y));
             0 <= i <= dx && Nearest(dx, dy, i, y) && Nearest(dx, dy, dx - i, z)
    ensures var dx, dy := Max(Abs(to.x - from.x), Abs(to.y - from.y)), Min(Abs(to.x - from.x), Abs(to.y - from.y));
            PointAt(to, from, dx - i, z) == PointAt(from, to, i, y) <==> z == dy - y
  {
    var dx, dy := Max(Abs(to.x - from.x), Abs(to.y - from.y)), Min(Abs(to.x - from.x), Abs(to.y - from.y));
    if dy == 0 {
      FlatLine(dx, i, y);
      FlatLine(dx, dx - i, z);
    }
    OtherCoordinates(from, to, i, y, z);
  }

  lemma FlatLine(dx: nat, i: int, y: int)
    requires Nearest(dx, 0, i, y)
    ensures y == 0
  {
    if dx > 0 {
      assert dx * 0 == 0;
      if y > 0 { Gap(dx, 0, y); }
      if y < 0 { Gap(dx, y, 0); }
    }
  }

  lemma OtherCoordinates(from: Vec2, to: Vec2, i: int, y: int, z: int)
    requires Min(Abs(to.x - from.x), Abs(to.y - from.y)) == 0 ==> y == 0 && z == 0
    requires from == to ==> i == 0
    ensures var dx, dy := Max(Abs(to.x - from.x), Abs(to.y - from.y)), Min(Abs(to.x - from.x), Abs(to.y - from.y));
            PointAt(to, from, dx - i, z) == PointAt(from, to, i, y) <==> z == dy - y
  {
  }
}
