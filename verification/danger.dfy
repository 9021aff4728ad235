/** Danger zones: the breadth-first search that delays tasks near enemies. */
module DangerZones {
  import opened Collections
  import opened Grid

  const INFINITY := 1000000
  const RADIUS := 10

  function Neighbors8(v: Vec2): seq<Vec2> {
    [Vec2(v.x, v.y + 1), Vec2(v.x + 1, v.y), Vec2(v.x, v.y - 1), Vec2(v.x - 1, v.y),
     Vec2(v.x + 1, v.y + 1), Vec2(v.x + 1, v.y - 1), Vec2(v.x - 1, v.y - 1), Vec2(v.x - 1, v.y + 1)]
  }

  /** One of the eight neighbours. */
  predicate Near8(u: Vec2, v: Vec2) {
    u != v && -1 <= u.x - v.x <= 1 && -1 <= u.y - v.y <= 1
  }

  lemma NeighborsAre(u: Vec2, v: Vec2)
    ensures v in Neighbors8(u) <==> Near8(u, v)
  {
  }

  /** The squares that at most n steps through the territory lead to from an enemy. */
  ghost function Reach(enemies: set<Vec2>, territory: set<Vec2>, n: nat): set<Vec2> {
    if n == 0 then enemies
    else Reach(enemies, territory, n - 1) + Step(Reach(enemies, territory, n - 1), territory)
  }

  ghost function Step(s: set<Vec2>, territory: set<Vec2>): set<Vec2> {
    set v | v in territory && exists u :: u in s && Near8(u, v)
  }

  lemma {:induction false} ReachMono(enemies: set<Vec2>, territory: set<Vec2>, m: nat, n: nat)
    requires m <= n
    ensures Reach(enemies, territory, m) <= Reach(enemies, territory, n)
    decreases n - m
  {
    if m < n { ReachMono(enemies, territory, m, n - 1); }
  }

  /** One more step. */
  lemma ReachNext(enemies: set<Vec2>, territory: set<Vec2>, n: nat, u: Vec2, v: Vec2)
    requires u in Reach(enemies, territory, n) && Near8(u, v) && v in territory
    ensures v in Reach(enemies, territory, n + 1)
  {
    hide Near8;
    assert v in Step(Reach(enemies, territory, n), territory);
  }

  /** The rectangle around the squares. */
  predicate Around(r: Rectangle, s: set<Vec2>, margin: int) {
    forall v :: v in s ==> r.left + margin <= v.x < r.right - margin && r.top + margin <= v.y < r.bottom - margin
  }

  lemma StepNear(s: set<Vec2>, territory: set<Vec2>, box: Rectangle, n: nat)
    requires Around(box, s, 0 - n)
    ensures Around(box, s + Step(s, territory), -1 - n)
  {
  }

  /** n steps lead at most n squares out of a rectangle around the enemies. */
  lemma {:induction false} ReachNear(enemies: set<Vec2>, territory: set<Vec2>, box: Rectangle, n: nat)
    requires Around(box, enemies, 0)
    ensures Around(box, Reach(enemies, territory, n), 0 - n)
  {
    if n > 0 {
      ReachNear(enemies, territory, box, n - 1);
      StepNear(Reach(enemies, territory, n - 1), territory, box, n - 1);
    }
  }

  method BoundingBox(verts: seq<Vec2>) returns (r: Rectangle)
    requires verts != [] && (forall v :: v in verts ==> -INFINITY < v.x < INFINITY && -INFINITY < v.y < INFINITY)
    ensures Around(r, Elements(verts), 0)
    ensures exists v :: v in verts && v.x == r.left
    ensures exists v :: v in verts && v.x == r.right - 1
    ensures exists v :: v in verts && v.y == r.top
    ensures exists v :: v in verts && v.y == r.bottom - 1
  {
    var minX, maxX, minY, maxY := INFINITY, -INFINITY, INFINITY, -INFINITY;
    for i := 0 to |verts|
      invariant forall j :: 0 <= j < i ==> minX <= verts[j].x <= maxX && minY <= verts[j].y <= maxY
      invariant i > 0 ==> exists j :: 0 <= j < i && verts[j].x == minX
      invariant i > 0 ==> exists j :: 0 <= j < i && verts[j].x == maxX
      invariant i > 0 ==> exists j :: 0 <= j < i && verts[j].y == minY
      invariant i > 0 ==> exists j :: 0 <= j < i && verts[j].y == maxY
      invariant i == 0 ==> minX == INFINITY && maxX == -INFINITY && minY == INFINITY && maxY == -INFINITY
    {
      var v := verts[i];
      assert v in verts;
      minX, maxX, minY, maxY := Min(minX, v.x), Max(maxX, v.x), Min(minY, v.y), Max(maxY, v.y);
    }
    r := Rectangle(minX, minY, maxX + 1, maxY + 1);
  }

  function Intersection(a: Rectangle, b: Rectangle): Rectangle {
    Rectangle(Max(a.left, b.left), Max(a.top, b.top), Min(a.right, b.right), Min(a.bottom, b.bottom))
  }

  // ----- the search

  /** A square that has been given a distance. */
  predicate Visited(dist: map<Vec2, int>, v: Vec2) {
    v in dist && dist[v] != INFINITY
  }

  /** The search of one level, confined to box. */
  datatype Search = Search(enemies: set<Vec2>, territory: set<Vec2>, box: Rectangle)

  ghost predicate Enters(z: Search, u: Vec2, v: Vec2) {
    Near8(u, v) && z.box.Contains(v) && v in z.territory
  }

  /** Distances are lengths of ways through the territory; done are the squares that left the queue. */
  ghost predicate Marked(z: Search, dist: map<Vec2, int>, q: seq<Vec2>, done: set<Vec2>) {
    && (forall v :: v in dist <==> z.box.Contains(v))
    && (forall v :: Visited(dist, v) ==> 0 <= dist[v] <= RADIUS && v in Reach(z.enemies, z.territory, dist[v]))
    && (forall v :: Visited(dist, v) <==> v in q || v in done)
    && (forall v :: v in z.enemies ==> Visited(dist, v) && dist[v] == 0)
  }

  /** The queue is ordered, and nothing is more than one step ahead of its head. */
  ghost predicate Queued(dist: map<Vec2, int>, q: seq<Vec2>, done: set<Vec2>)
    requires forall v :: v in q || v in done ==> v in dist
  {
    && (forall i, j :: 0 <= i <= j < |q| ==> dist[q[i]] <= dist[q[j]])
    && (forall v :: v in q ==> dist[v] <= dist[q[0]] + 1)
    && (forall v :: v in done && q != [] ==> dist[v] <= dist[q[0]])
  }

  /** What left the queue has passed its distance on. */
  ghost predicate Passed(z: Search, dist: map<Vec2, int>, done: set<Vec2>) {
    forall u, v :: u in done && u in dist && dist[u] < RADIUS && Enters(z, u, v) ==> Visited(dist, v) && dist[v] <= dist[u] + 1
  }

  ghost predicate Inv(z: Search, dist: map<Vec2, int>, q: seq<Vec2>, done: set<Vec2>) {
    Marked(z, dist, q, done) && Queued(dist, q, done) && Passed(z, dist, done)
  }

  /** When the queue is empty, everything within n steps is done, at no greater distance. */
  lemma {:induction false} AllReached(z: Search, dist: map<Vec2, int>, done: set<Vec2>, n: nat, v: Vec2)
    requires Inv(z, dist, [], done) && n <= RADIUS
    requires forall u :: u in Reach(z.enemies, z.territory, RADIUS) ==> z.box.Contains(u)
    requires v in Reach(z.enemies, z.territory, n)
    ensures v in done && v in dist && dist[v] <= n
  {
    hide Near8;
    if n > 0 && v !in Reach(z.enemies, z.territory, n - 1) {
      var u :| u in Reach(z.enemies, z.territory, n - 1) && Near8(u, v);
      AllReached(z, dist, done, n - 1, u);
      ReachMono(z.enemies, z.territory, n, RADIUS);
      assert Enters(z, u, v);
    } else if n > 0 {
      AllReached(z, dist, done, n - 1, v);
    }
  }

  // ----- the method

  class Collective {
    const territory: map<int, set<Vec2>>
    var delayedPos: map<Position, int>

    constructor (territory: map<int, set<Vec2>>)
      ensures this.territory == territory && delayedPos == map[]
    {
      this.territory, delayedPos := territory, map[];
    }

    function TerritoryOn(level: int): set<Vec2> {
      if level in territory then territory[level] else {}
    }

    /** Every enemy gets distance 0 and is pushed, even if it is listed twice. */
    method Seed(box: Rectangle, enemyPos: seq<Vec2>) returns (dist: map<Vec2, int>, q: seq<Vec2>)
      requires forall v :: v in enemyPos ==> box.Contains(v)
      ensures q == enemyPos
      ensures forall v :: v in dist <==> box.Contains(v)
      ensures forall v :: v in dist ==> dist[v] == if v in enemyPos then 0 else INFINITY
    {
      dist := map v | v in box.Squares() :: INFINITY;
      q := [];
      for i := 0 to |enemyPos|
        invariant q == enemyPos[..i]
        invariant forall v :: v in dist <==> box.Contains(v)
        invariant forall v :: v in dist ==> dist[v] == if v in enemyPos[..i] then 0 else INFINITY
      {
        dist := dist[enemyPos[i] := 0];
        q := q + [enemyPos[i]];
      }
      assert enemyPos[..|enemyPos|] == enemyPos;
    }

    /** The search on one level delays exactly the squares within ten steps of an enemy, although it is confined to a
        box around the enemies. */
    method DelayOnLevel(level: int, bounds: Rectangle, enemyPos: seq<Vec2>, delayTime: int)
      requires enemyPos != [] && InBounds(bounds, Elements(enemyPos)) && InBounds(bounds, TerritoryOn(level))
      modifies this
      ensures delayedPos == old(delayedPos)
                + Delays(level, Reach(Elements(enemyPos), TerritoryOn(level), RADIUS), delayTime)
    {
      hide Inv, Reach, Delays, Around, SpreadTo, Unvisited;
      var tight := BoundingBox(enemyPos);
      var box := Intersection(tight.MinusMargin(-RADIUS), bounds);
      ghost var z := Search(Elements(enemyPos), TerritoryOn(level), box);
      BoxHolds(z, tight, bounds);
      var dist, q := Seed(box, enemyPos);
      ghost var done: set<Vec2> := {};
      SeedInv(z, enemyPos, dist);
      NoDelays(level, delayTime);
      while q != []
        invariant Inv(z, dist, q, done)
        invariant delayedPos == old(delayedPos) + Delays(level, done, delayTime)
        decreases |Unvisited(dist)|, |q|
      {
        ghost var dist0, q0 := dist, q;
        PopFacts(z, dist, q, done);
        var pos := q[0];
        q := q[1..];
        delayedPos := delayedPos[Position(level, pos) := delayTime];
        DelaysNext(level, done, delayTime, pos);
        if dist[pos] >= RADIUS {
          PopLast(z, dist, q0, done);
        } else {
          ghost var added;
          dist, q, added := Spread(z, level, dist, pos, q);
          SpreadInv(z, dist0, dist, q0, added, done);
        }
        done := done + {pos};
      }
      DoneIsReach(z, dist, done);
    }

    /** The loop over the neighbours of a square. */
    method Spread(ghost z: Search, level: int, dist0: map<Vec2, int>, pos: Vec2, q0: seq<Vec2>)
        returns (dist: map<Vec2, int>, q: seq<Vec2>, ghost added: seq<Vec2>)
      requires z.territory == TerritoryOn(level) && (forall v :: v in dist0 <==> z.box.Contains(v))
      requires pos in dist0 && 0 <= dist0[pos] < RADIUS
      ensures q == q0 + added && SpreadTo(z, dist0, dist, pos, added)
    {
      hide Near8, Neighbors8, Rectangle.Contains;
      dist, q, added := dist0, q0, [];
      var ns := Neighbors8(pos);
      for k := 0 to |ns|
        invariant q == q0 + added
        invariant forall v :: v in added ==> Enters(z, pos, v) && dist0[v] == INFINITY
        invariant dist == dist0 + (map v | v in added :: dist0[pos] + 1)
        invariant forall j :: 0 <= j < k && Enters(z, pos, ns[j]) ==> Visited(dist, ns[j])
      {
        var v := ns[k];
        NeighborsAre(pos, v);
        assert v in ns;
        if v in dist && dist[v] == INFINITY && v in TerritoryOn(level) {
          dist := dist[v := dist[pos] + 1];
          q := q + [v];
          added := added + [v];
        }
      }
      forall v | Enters(z, pos, v)
        ensures Visited(dist, v)
      {
        NeighborsAre(pos, v);
      }
    }

    /** Within ten steps of an enemy on the same level. */
    ghost predicate Dangerous(enemies: seq<Position>, p: Position) {
      p.coord in Reach(EnemiesOn(enemies, p.level), TerritoryOn(p.level), RADIUS)
    }

    method DelayDangerousTasks(bounds: map<int, Rectangle>, enemyPos1: seq<Position>, delayTime: int)
      requires forall p :: p in enemyPos1 ==> p.level in bounds
      requires forall l :: l in bounds ==> InBounds(bounds[l], EnemiesOn(enemyPos1, l)) && InBounds(bounds[l], TerritoryOn(l))
      modifies this
      ensures forall p :: p in delayedPos <==> p in old(delayedPos) || Dangerous(enemyPos1, p)
      ensures forall p :: p in delayedPos ==>
                delayedPos[p] == if Dangerous(enemyPos1, p) then delayTime else old(delayedPos)[p]
    {
      hide Reach, InBounds;
      var levels := set p | p in enemyPos1 :: p.level;
      forall p: Position | Dangerous(enemyPos1, p)
        ensures p.level in levels
      {
        if EnemiesOn(enemyPos1, p.level) == {} { NoEnemies(TerritoryOn(p.level), RADIUS); }
      }
      while levels != {}
        invariant forall l :: l in levels ==> exists p :: p in enemyPos1 && p.level == l
        invariant forall p :: p in delayedPos <==>
                    p in old(delayedPos) || (p.level !in levels && Dangerous(enemyPos1, p))
        invariant forall p :: p in delayedPos ==>
                    delayedPos[p] == if p.level !in levels && Dangerous(enemyPos1, p) then delayTime else old(delayedPos)[p]
        decreases levels
      {
        var level :| level in levels;
        var enemyPos := CoordsOn(enemyPos1, level);
        ghost var p :| p in enemyPos1 && p.level == level;
        assert p.coord in EnemiesOn(enemyPos1, level);
        ghost var before := delayedPos;
        DelayOnLevel(level, bounds[level], enemyPos, delayTime);
        DelaysAre(level, Reach(EnemiesOn(enemyPos1, level), TerritoryOn(level), RADIUS), delayTime);
        levels := levels - {level};
      }
    }
  }

  function EnemiesOn(enemies: seq<Position>, level: int): set<Vec2> {
    set p | p in enemies && p.level == level :: p.coord
  }

  /** The coordinates of the positions on one level, in order. */
  method CoordsOn(enemies: seq<Position>, level: int) returns (r: seq<Vec2>)
    ensures Elements(r) == EnemiesOn(enemies, level)
    ensures EnemiesOn(enemies, level) != {} ==> r != []
  {
    r := [];
    for i := 0 to |enemies|
      invariant forall v :: v in r <==> v in EnemiesOn(enemies[..i], level)
    {
      assert enemies[..i + 1] == enemies[..i] + [enemies[i]];
      if enemies[i].level == level { r := r + [enemies[i].coord]; }
    }
    assert enemies[..|enemies|] == enemies;
  }

  lemma {:induction false} NoEnemies(territory: set<Vec2>, n: nat)
    ensures Reach({}, territory, n) == {}
  {
    if n > 0 { NoEnemies(territory, n - 1); }
  }

  lemma DelaysAre(level: int, s: set<Vec2>, time: int)
    ensures forall p :: p in Delays(level, s, time) <==> p.level == level && p.coord in s
    ensures forall p :: p in Delays(level, s, time) ==> Delays(level, s, time)[p] == time
  {
  }

  ghost function Unvisited(dist: map<Vec2, int>): set<Vec2> {
    set v | v in dist && dist[v] == INFINITY
  }

  /** The new distances after one square has passed its distance on to the unvisited squares added. */
  ghost predicate SpreadTo(z: Search, dist: map<Vec2, int>, dist': map<Vec2, int>, pos: Vec2, added: seq<Vec2>) {
    && pos in dist
    && (forall v :: v in added ==> Enters(z, pos, v) && v in dist && dist[v] == INFINITY)
    && dist' == dist + (map v | v in added :: dist[pos] + 1)
    && (forall v :: Enters(z, pos, v) ==> Visited(dist', v))
  }

  /** The box loses nothing that is within reach. */
  lemma BoxHolds(z: Search, tight: Rectangle, bounds: Rectangle)
    requires Around(tight, z.enemies, 0) && z.box == Intersection(tight.MinusMargin(-RADIUS), bounds)
    requires InBounds(bounds, z.enemies) && InBounds(bounds, z.territory)
    ensures forall v :: v in Reach(z.enemies, z.territory, RADIUS) ==> z.box.Contains(v)
    ensures forall v :: v in z.enemies ==> z.box.Contains(v)
  {
    hide Reach;
    ReachNear(z.enemies, z.territory, tight, RADIUS);
    ReachInside(z.enemies, z.territory, RADIUS);
    ReachMono(z.enemies, z.territory, 0, RADIUS);
    assert Reach(z.enemies, z.territory, 0) == z.enemies by { ReachStart(z.enemies, z.territory); }
  }

  lemma ReachStart(enemies: set<Vec2>, territory: set<Vec2>)
    ensures Reach(enemies, territory, 0) == enemies
  {
  }

  lemma {:induction false} ReachInside(enemies: set<Vec2>, territory: set<Vec2>, n: nat)
    ensures Reach(enemies, territory, n) <= enemies + territory
  {
    if n > 0 { ReachInside(enemies, territory, n - 1); }
  }

  lemma SeedInv(z: Search, enemyPos: seq<Vec2>, dist: map<Vec2, int>)
    requires z.enemies == Elements(enemyPos)
    requires forall v :: v in z.enemies ==> z.box.Contains(v)
    requires forall v :: v in dist <==> z.box.Contains(v)
    requires forall v :: v in dist ==> dist[v] == if v in enemyPos then 0 else INFINITY
    ensures Inv(z, dist, enemyPos, {})
  {
  }

  /** What left the queue when it is empty is exactly what is within reach. */
  lemma DoneIsReach(z: Search, dist: map<Vec2, int>, done: set<Vec2>)
    requires Inv(z, dist, [], done)
    requires forall v :: v in Reach(z.enemies, z.territory, RADIUS) ==> z.box.Contains(v)
    ensures done == Reach(z.enemies, z.territory, RADIUS)
  {
    hide Reach;
    forall v | v in Reach(z.enemies, z.territory, RADIUS)
      ensures v in done
    {
      AllReached(z, dist, done, RADIUS, v);
    }
    forall v | v in done
      ensures v in Reach(z.enemies, z.territory, RADIUS)
    {
      assert Visited(dist, v);
      ReachMono(z.enemies, z.territory, dist[v], RADIUS);
    }
  }

  lemma NoDelays(level: int, time: int)
    ensures Delays(level, {}, time) == map[]
  {
  }

  lemma DelaysNext(level: int, done: set<Vec2>, time: int, pos: Vec2)
    ensures Delays(level, done + {pos}, time) == Delays(level, done, time)[Position(level, pos) := time]
  {
  }

  lemma PopFacts(z: Search, dist: map<Vec2, int>, q: seq<Vec2>, done: set<Vec2>)
    requires Inv(z, dist, q, done) && q != []
    ensures q[0] in dist && 0 <= dist[q[0]] <= RADIUS && forall v :: v in dist <==> z.box.Contains(v)
  {
  }

  /** A square ten steps away passes nothing on. */
  lemma PopLast(z: Search, dist: map<Vec2, int>, q: seq<Vec2>, done: set<Vec2>)
    requires Inv(z, dist, q, done) && q != [] && q[0] in dist && dist[q[0]] >= RADIUS
    ensures Inv(z, dist, q[1..], done + {q[0]})
  {
  }

  /** A square less than ten steps away passes its distance on. */
  lemma SpreadInv(z: Search, dist: map<Vec2, int>, dist': map<Vec2, int>, q: seq<Vec2>, added: seq<Vec2>, done: set<Vec2>)
    requires Inv(z, dist, q, done) && q != [] && q[0] in dist && 0 <= dist[q[0]] < RADIUS
    requires SpreadTo(z, dist, dist', q[0], added)
    ensures Inv(z, dist', q[1..] + added, done + {q[0]})
    ensures added == [] ==> dist' == dist
    ensures added != [] ==> |Unvisited(dist')| < |Unvisited(dist)|
  {
    SpreadMarked(z, dist, dist', q, added, done);
    SpreadQueued(z, dist, dist', q, added, done);
    SpreadPassed(z, dist, dist', q, added, done);
    SpreadShrinks(z, dist, dist', q[0], added);
  }

  lemma SpreadMarked(z: Search, dist: map<Vec2, int>, dist': map<Vec2, int>, q: seq<Vec2>, added: seq<Vec2>, done: set<Vec2>)
    requires Marked(z, dist, q, done) && q != [] && q[0] in dist && 0 <= dist[q[0]] < RADIUS
    requires SpreadTo(z, dist, dist', q[0], added)
    ensures Marked(z, dist', q[1..] + added, done + {q[0]})
  {
    hide Near8, Reach;
    var n: nat := dist[q[0]];
    assert Visited(dist, q[0]);
    assert forall v :: v in q <==> v == q[0] || v in q[1..];
    forall v | v in added
      ensures v in Reach(z.enemies, z.territory, n + 1)
    {
      ReachNext(z.enemies, z.territory, n, q[0], v);
    }
  }

  lemma SpreadQueued(z: Search, dist: map<Vec2, int>, dist': map<Vec2, int>, q: seq<Vec2>, added: seq<Vec2>, done: set<Vec2>)
    requires Marked(z, dist, q, done) && Queued(dist, q, done) && q != [] && q[0] in dist && 0 <= dist[q[0]] < RADIUS
    requires SpreadTo(z, dist, dist', q[0], added)
    ensures forall v :: v in q[1..] + added || v in done + {q[0]} ==> v in dist'
    ensures Queued(dist', q[1..] + added, done + {q[0]})
  {
    hide Near8, Reach;
    assert forall v :: v in q <==> v == q[0] || v in q[1..];
    forall v | v in q || v in done
      ensures v in dist && v in dist' && dist'[v] == dist[v]
    {
      assert Visited(dist, v);
    }
    var r := q[1..] + added;
    forall i | 0 <= i < |r|
      ensures r[i] in dist' && dist'[r[i]] == if i < |q| - 1 then dist[q[i + 1]] else dist[q[0]] + 1
    {
      if i < |q| - 1 { assert r[i] == q[i + 1] && q[i + 1] in q; } else { assert r[i] in added; }
    }
  }

  lemma SpreadPassed(z: Search, dist: map<Vec2, int>, dist': map<Vec2, int>, q: seq<Vec2>, added: seq<Vec2>, done: set<Vec2>)
    requires Inv(z, dist, q, done) && q != [] && q[0] in dist && 0 <= dist[q[0]] < RADIUS
    requires SpreadTo(z, dist, dist', q[0], added)
    ensures Passed(z, dist', done + {q[0]})
  {
  }

  lemma SpreadShrinks(z: Search, dist: map<Vec2, int>, dist': map<Vec2, int>, pos: Vec2, added: seq<Vec2>)
    requires SpreadTo(z, dist, dist', pos, added) && 0 <= dist[pos] < RADIUS
    ensures added == [] ==> dist' == dist
    ensures added != [] ==> |Unvisited(dist')| < |Unvisited(dist)|
  {
    hide Near8;
    if added != [] {
      assert added[0] in Unvisited(dist) && added[0] !in Unvisited(dist');
      assert Unvisited(dist') <= Unvisited(dist) - {added[0]};
      Smaller(Unvisited(dist'), Unvisited(dist) - {added[0]});
    }
  }

  datatype Position = Position(level: int, coord: Vec2)

  predicate InBounds(bounds: Rectangle, s: set<Vec2>) {
    forall v :: v in s ==> bounds.Contains(v) && -INFINITY < v.x < INFINITY && -INFINITY < v.y < INFINITY
  }

  function Delays(level: int, s: set<Vec2>, time: int): map<Position, int> {
    map v | v in s :: Position(level, v) := time
  }
}
