/** The escape spell: distances from every danger at once, and a jump to a farthest square. */
module EscapeSearch {
  import opened Collections
  import opened Grid
  import opened DangerZones

  datatype Jump = Failed | Target(v: Vec2)

  /** What the spell sees around a creature. */
  datatype Scene = Scene(origin: Vec2, burning: set<Vec2>, enemies: set<Vec2>, harmfulGas: set<Vec2>, walkable: set<Vec2>,
                         enterable: set<Vec2>, connected: set<Vec2>, maxDist: int) {
    function Area(): Rectangle {
      Rectangle(origin.x - 12, origin.y - 12, origin.x + 13, origin.y + 13)
    }

    /** A burning or occupied square nearby, or the caster's own square in harmful gas. */
    predicate Danger(v: Vec2) {
      (Area().Contains(v) && (v in burning || v in enemies)) || (v == origin && v in harmfulGas)
    }

    ghost function Dangers(): set<Vec2> {
      (set v | v in burning && Danger(v)) + (set v | v in enemies && Danger(v)) + (set v | v in harmfulGas && Danger(v))
    }

    predicate Candidate(v: Vec2) {
      Area().Contains(v) && v in enterable && v !in burning && v !in harmfulGas && v in connected
      && Dist8(v, origin) <= maxDist
    }

    /** The least number of steps from a danger, over walkable squares. */
    ghost predicate Away(v: Vec2, n: nat) {
      v in Reach(Dangers(), walkable, n) && (n > 0 ==> v !in Reach(Dangers(), walkable, n - 1))
    }
  }

  /** Weights are lengths of ways from a danger; done are the squares that left the queue. */
  ghost predicate Weighed(z: Scene, weight: map<Vec2, nat>, q: seq<Vec2>, done: set<Vec2>) {
    && (forall v :: v in weight ==> v in Reach(z.Dangers(), z.walkable, weight[v]))
    && (forall v :: v in weight <==> v in q || v in done)
    && (forall v :: v in z.Dangers() ==> v in weight && weight[v] == 0)
  }

  /** The queue is ordered, and nothing is more than one step ahead of its head. */
  ghost predicate Lined(weight: map<Vec2, nat>, q: seq<Vec2>, done: set<Vec2>) {
    && (forall v :: v in q || v in done ==> v in weight)
    && (forall i, j :: 0 <= i <= j < |q| ==> weight[q[i]] <= weight[q[j]])
    && (forall v :: v in q ==> weight[v] <= weight[q[0]] + 1)
    && (forall v :: v in done && q != [] ==> weight[v] <= weight[q[0]])
  }

  /** What left the queue has passed its weight on. */
  ghost predicate Handed(z: Scene, weight: map<Vec2, nat>, done: set<Vec2>) {
    forall u, v :: u in done && u in weight && Near8(u, v) && v in z.walkable ==> v in weight && weight[v] <= weight[u] + 1
  }

  ghost predicate Inv(z: Scene, weight: map<Vec2, nat>, q: seq<Vec2>, done: set<Vec2>) {
    Weighed(z, weight, q, done) && Lined(weight, q, done) && Handed(z, weight, done)
  }

  /** The weights are exactly the distances from the nearest danger. */
  ghost predicate Exact(z: Scene, weight: map<Vec2, nat>) {
    forall v, n :: v in weight && weight[v] == n <==> z.Away(v, n)
  }

  lemma {:induction false} AllWeighed(z: Scene, weight: map<Vec2, nat>, done: set<Vec2>, n: nat, v: Vec2)
    requires Inv(z, weight, [], done) && v in Reach(z.Dangers(), z.walkable, n)
    ensures v in done && v in weight && weight[v] <= n
  {
    hide Near8;
    if n > 0 && v !in Reach(z.Dangers(), z.walkable, n - 1) {
      var u :| u in Reach(z.Dangers(), z.walkable, n - 1) && Near8(u, v);
      AllWeighed(z, weight, done, n - 1, u);
    } else if n > 0 {
      AllWeighed(z, weight, done, n - 1, v);
    }
  }

  lemma ExactWeights(z: Scene, weight: map<Vec2, nat>, done: set<Vec2>)
    requires Inv(z, weight, [], done)
    ensures Exact(z, weight)
  {
    hide Reach;
    forall v, n | v in weight && weight[v] == n
      ensures z.Away(v, n)
    {
      if n > 0 && v in Reach(z.Dangers(), z.walkable, n - 1) { AllWeighed(z, weight, done, n - 1, v); }
    }
    forall v, n: nat | z.Away(v, n)
      ensures v in weight && weight[v] == n
    {
      AllWeighed(z, weight, done, n, v);
      if weight[v] < n { ReachMono(z.Dangers(), z.walkable, weight[v], n - 1); }
    }
  }

  /** One square has passed its weight on to the unweighed squares added. */
  ghost predicate Handing(z: Scene, weight: map<Vec2, nat>, weight': map<Vec2, nat>, pos: Vec2, added: seq<Vec2>) {
    && pos in weight
    && (forall v :: v in added ==> Near8(pos, v) && v in z.walkable && v !in weight)
    && weight' == weight + (map v | v in added :: weight[pos] + 1)
    && (forall v :: Near8(pos, v) && v in z.walkable ==> v in weight')
  }

  lemma HandWeighed(z: Scene, weight: map<Vec2, nat>, weight': map<Vec2, nat>, q: seq<Vec2>, added: seq<Vec2>, done: set<Vec2>)
    requires Weighed(z, weight, q, done) && q != [] && Handing(z, weight, weight', q[0], added)
    ensures Weighed(z, weight', q[1..] + added, done + {q[0]})
  {
    hide Near8, Scene.Dangers, Reach;
    var n := weight[q[0]];
    assert forall v :: v in q <==> v == q[0] || v in q[1..];
    forall v | v in added
      ensures v in Reach(z.Dangers(), z.walkable, n + 1)
    {
      ReachNext(z.Dangers(), z.walkable, n, q[0], v);
    }
  }

  lemma HandLined(z: Scene, weight: map<Vec2, nat>, weight': map<Vec2, nat>, q: seq<Vec2>, added: seq<Vec2>, done: set<Vec2>)
    requires Lined(weight, q, done) && q != [] && Handing(z, weight, weight', q[0], added)
    ensures Lined(weight', q[1..] + added, done + {q[0]})
  {
  }

  lemma HandHanded(z: Scene, weight: map<Vec2, nat>, weight': map<Vec2, nat>, q: seq<Vec2>, added: seq<Vec2>, done: set<Vec2>)
    requires Inv(z, weight, q, done) && q != [] && Handing(z, weight, weight', q[0], added)
    ensures Handed(z, weight', done + {q[0]})
  {
    hide Near8, Weighed;
    forall u, v | u in done + {q[0]} && u in weight' && Near8(u, v) && v in z.walkable
      ensures v in weight' && weight'[v] <= weight'[u] + 1
    {
      if u !in done && v !in added {
        assert v in q || v in done by { hide *; Placed(z, weight, q, done, v); }
      }
    }
  }

  lemma Placed(z: Scene, weight: map<Vec2, nat>, q: seq<Vec2>, done: set<Vec2>, v: Vec2)
    requires Weighed(z, weight, q, done) && v in weight
    ensures v in q || v in done
  {
  }

  /** The loop over the area, and the caster's own square last. */
  method AddDangers(z: Scene) returns (weight: map<Vec2, nat>, q: seq<Vec2>)
    ensures Elements(q) == z.Dangers()
    ensures forall v :: v in weight <==> v in z.Dangers()
    ensures forall v :: v in weight ==> weight[v] == 0
  {
    weight, q := map[], [];
    var left := z.Area().Squares();
    while left != {}
      invariant left <= z.Area().Squares()
      invariant forall v :: v in q <==> v in z.Area().Squares() && v !in left && (v in z.burning || v in z.enemies)
      invariant forall v :: v in weight <==> v in q
      invariant forall v :: v in weight ==> weight[v] == 0
    {
      var v :| v in left;
      left := left - {v};
      if v in z.burning || v in z.enemies {
        q := q + [v];
        weight := weight[v := 0];
      }
    }
    if z.origin in z.harmfulGas {
      q := q + [z.origin];
      weight := weight[z.origin := 0];
    }
    forall v
      ensures v in q <==> v in z.Dangers()
    {
      assert v in z.Area().Squares() <==> z.Area().Contains(v) by {
        if z.Area().Contains(v) { assert v == Vec2(v.x, v.y); }
      }
    }
  }

  /** The loop over the neighbours of a square. */
  method Hand(z: Scene, weight0: map<Vec2, nat>, pos: Vec2, q0: seq<Vec2>)
      returns (weight: map<Vec2, nat>, q: seq<Vec2>, ghost added: seq<Vec2>)
    requires pos in weight0
    ensures q == q0 + added && Handing(z, weight0, weight, pos, added)
  {
    weight, q, added := weight0, q0, [];
    var ns := Neighbors8(pos);
    for k := 0 to |ns|
      invariant q == q0 + added
      invariant forall v :: v in added ==> Near8(pos, v) && v in z.walkable && v !in weight0
      invariant weight == weight0 + (map v | v in added :: weight0[pos] + 1)
      invariant forall j :: 0 <= j < k && ns[j] in z.walkable ==> ns[j] in weight
    {
      var w := ns[k];
      NeighborsAre(pos, w);
      assert w in ns;
      if w in z.walkable && w !in weight {
        weight := weight[w := weight[pos] + 1];
        q := q + [w];
        added := added + [w];
      }
    }
    forall v | Near8(pos, v) && v in z.walkable
      ensures v in weight
    {
      NeighborsAre(pos, v);
    }
  }

  lemma StartInv(z: Scene, weight: map<Vec2, nat>, q: seq<Vec2>)
    requires Elements(q) == z.Dangers() && forall v :: v in weight <==> v in z.Dangers()
    requires forall v :: v in weight ==> weight[v] == 0
    ensures Inv(z, weight, q, {})
  {
  }

  /** How many walkable squares have no weight yet. */
  ghost function Left(z: Scene, weight: map<Vec2, nat>): nat {
    |z.walkable - weight.Keys|
  }

  lemma HandShrinks(z: Scene, weight: map<Vec2, nat>, weight': map<Vec2, nat>, pos: Vec2, added: seq<Vec2>)
    requires Handing(z, weight, weight', pos, added)
    ensures added == [] ==> weight' == weight
    ensures added != [] ==> Left(z, weight') < Left(z, weight)
  {
    hide Near8;
    if added != [] {
      assert added[0] in z.walkable - weight.Keys;
      assert z.walkable - weight'.Keys <= z.walkable - weight.Keys - {added[0]};
      Smaller(z.walkable - weight'.Keys, z.walkable - weight.Keys - {added[0]});
    }
  }

  method Weights(z: Scene) returns (weight: map<Vec2, nat>)
    ensures Exact(z, weight)
  {
    hide *;
    var q;
    weight, q := AddDangers(z);
    ghost var done: set<Vec2> := {};
    StartInv(z, weight, q);
    while q != []
      invariant Inv(z, weight, q, done)
      decreases Left(z, weight), |q|
    {
      ghost var weight0, q0 := weight, q;
      var pos := q[0];
      q := q[1..];
      HeadWeighed(z, weight, q0, done);
      ghost var added;
      weight, q, added := Hand(z, weight, pos, q);
      HandInv(z, weight0, weight, q0, added, done);
      HandShrinks(z, weight0, weight, pos, added);
      done := done + {pos};
    }
    ExactWeights(z, weight, done);
  }

  lemma HeadWeighed(z: Scene, weight: map<Vec2, nat>, q: seq<Vec2>, done: set<Vec2>)
    requires Inv(z, weight, q, done) && q != []
    ensures q[0] in weight
  {
  }

  lemma HandInv(z: Scene, weight: map<Vec2, nat>, weight': map<Vec2, nat>, q: seq<Vec2>, added: seq<Vec2>, done: set<Vec2>)
    requires Inv(z, weight, q, done) && q != [] && Handing(z, weight, weight', q[0], added)
    ensures Inv(z, weight', q[1..] + added, done + {q[0]})
  {
    HandWeighed(z, weight, weight', q, added, done);
    HandLined(z, weight, weight', q, added, done);
    HandHanded(z, weight, weight', q, added, done);
  }

  ghost predicate NoneBeyond(z: Scene, n: nat) {
    forall v, k: nat :: z.Candidate(v) && z.Away(v, k) ==> k <= n
  }

  /** The spell fails exactly when no candidate is two or more steps from danger; otherwise it jumps to a candidate that
      no other candidate with a distance exceeds. */
  ghost predicate Farthest(z: Scene, jump: Jump) {
    && (jump.Failed? <==> !exists v, n: nat :: z.Candidate(v) && z.Away(v, n) && n >= 2)
    && (jump.Target? ==> z.Candidate(jump.v) && exists n: nat :: z.Away(jump.v, n) && n >= 2 && NoneBeyond(z, n))
  }

  lemma FarthestIs(z: Scene, weight: map<Vec2, nat>, maxW: nat, jump: Jump)
    requires Exact(z, weight)
    requires forall v :: z.Candidate(v) && v in weight ==> weight[v] <= maxW
    requires maxW < 2 ==> jump.Failed?
    requires maxW >= 2 ==> jump.Target? && z.Candidate(jump.v) && jump.v in weight && weight[jump.v] == maxW
    ensures Farthest(z, jump)
  {
    hide Scene.Candidate, Scene.Away;
    if maxW >= 2 { assert z.Away(jump.v, maxW); }
  }

  method Escape(z: Scene) returns (jump: Jump)
    ensures Farthest(z, jump)
  {
    hide Exact, Farthest;
    var weight := Weights(z);
    var good: set<Vec2>, maxW: nat := {}, 0;
    var left := z.Area().Squares();
    while left != {}
      invariant forall v :: v in good <==> z.Candidate(v) && v !in left && v in weight && weight[v] == maxW
      invariant forall v :: z.Candidate(v) && v !in left && v in weight ==> weight[v] <= maxW
      invariant maxW > 0 ==> good != {}
    {
      var v :| v in left;
      left := left - {v};
      if z.Candidate(v) && v in weight {
        if weight[v] == maxW {
          good := good + {v};
        } else if weight[v] > maxW {
          good, maxW := {v}, weight[v];
        }
      }
    }
    if maxW < 2 {
      jump := Failed;
    } else {
      var v :| v in good;
      jump := Target(v);
    }
    FarthestIs(z, weight, maxW, jump);
  }
}
