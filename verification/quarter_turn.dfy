/** Turning a level about the eye by a quarter turns what is visible with it: the four quadrants are alike, and each is the
    one before it, turned. */
module QuarterTurn {
  import opened Grid
  import opened Beam
  import opened Sight
  import opened Coherence

  /** A quarter turn of an offset. */
  function Turned(d: Vec2): Vec2 {
    Vec2(d.y, -d.x)
  }

  /** Where v comes to lie when the level is turned about o, and o is put down at o'. */
  function TurnedAbout(o: Vec2, o': Vec2, v: Vec2): Vec2 {
    o'.Plus(Turned(v.Minus(o)))
  }

  /** The second level is the first one turned about o. */
  ghost predicate TurnedLevel(bounds: Rectangle, table: map<Vec2, bool>, o: Vec2,
                              bounds': Rectangle, table': map<Vec2, bool>, o': Vec2) {
    && (forall v :: bounds'.Contains(TurnedAbout(o, o', v)) <==> bounds.Contains(v))
    && (forall v :: BlocksAt(table', TurnedAbout(o, o', v)) <==> BlocksAt(table, v))
  }

  function TurnedBack(o: Vec2, o': Vec2, u: Vec2): (v: Vec2)
    ensures TurnedAbout(o, o', v) == u
  {
    Vec2(o.x + o'.y - u.y, o.y + u.x - o'.x)
  }

  lemma BackIs(o: Vec2, o': Vec2, v: Vec2)
    ensures TurnedBack(o, o', TurnedAbout(o, o', v)) == v
  {
  }

  /** Every level can be turned. */
  lemma LevelTurns(bounds: Rectangle, table: map<Vec2, bool>, o: Vec2, o': Vec2)
      returns (bounds': Rectangle, table': map<Vec2, bool>)
    ensures TurnedLevel(bounds, table, o, bounds', table', o')
  {
    bounds' := Rectangle(o'.x + bounds.top - o.y, o'.y + o.x - bounds.right + 1,
                         o'.x + bounds.bottom - o.y, o'.y + o.x - bounds.left + 1);
    assert forall v :: bounds'.Contains(TurnedAbout(o, o', v)) <==> bounds.Contains(v);
    hide TurnedAbout, TurnedBack;
    var squares := set v | v in table :: TurnedAbout(o, o', v);
    table' := map u | u in squares && TurnedBack(o, o', u) in table :: table[TurnedBack(o, o', u)];
    forall v
      ensures BlocksAt(table', TurnedAbout(o, o', v)) <==> BlocksAt(table, v)
    {
      BackIs(o, o', v);
    }
  }

  function Next(rot: nat): nat {
    if rot == 3 then 0 else rot + 1
  }

  /** Each quadrant is a turn of the one before. */
  lemma RotateTurned(rot: nat, i: int, k: int)
    requires rot < 4
    ensures Rotate(Next(rot), i, k) == Turned(Rotate(rot, i, k))
  {
  }

  /** So the next quadrant of the turned level looks like this quadrant. */
  lemma QuadrantTurned(bounds: Rectangle, table: map<Vec2, bool>, o: Vec2, bounds': Rectangle, table': map<Vec2, bool>,
                       o': Vec2, rot: nat)
    requires rot < 4 && TurnedLevel(bounds, table, o, bounds', table', o')
    ensures Quadrant(table', o', Next(rot)) == Quadrant(table, o, rot)
  {
    hide Trace, Rotate, Turned;
    var w, w' := Look(table, o, rot), Look(table', o', Next(rot));
    forall i, k
      ensures w.Blocks(i, k) == w'.Blocks(i, k)
    {
      RotateTurned(rot, i, k);
      assert w'.At(i, k) == TurnedAbout(o, o', w.At(i, k)) by {
        assert w.At(i, k).Minus(o) == Rotate(rot, i, k);
      }
      assert w.Blocks(i, k) == BlocksAt(table, w.At(i, k)) && w'.Blocks(i, k) == BlocksAt(table', w'.At(i, k));
    }
    TraceFootprint(w, w', 2, -1.0, 1.0);
  }

  /** What a quadrant marks, the next one marks in the turned level, turned. */
  lemma MarkedTurned(bounds: Rectangle, table: map<Vec2, bool>, o: Vec2, bounds': Rectangle, table': map<Vec2, bool>,
                     o': Vec2, rot: nat, d: Vec2)
    requires rot < 4 && TurnedLevel(bounds, table, o, bounds', table', o')
    ensures MarkedIn(rot, Quadrants(table, o)[rot], d) <==> MarkedIn(Next(rot), Quadrants(table', o')[Next(rot)], Turned(d))
  {
    hide Quadrant, Rotate, TurnedLevel;
    QuadrantTurned(bounds, table, o, bounds', table', o', rot);
    forall i, k
      ensures Rotate(rot, i, k) == d <==> Rotate(Next(rot), i, k) == Turned(d)
    {
      RotateTurned(rot, i, k);
    }
  }

  lemma DiscTurned(d: Vec2)
    ensures InDisc(Turned(d)) <==> InDisc(d)
  {
  }

  /** Turning the level about the eye turns the set of visible tiles. */
  lemma TilesTurn(bounds: Rectangle, table: map<Vec2, bool>, o: Vec2, bounds': Rectangle, table': map<Vec2, bool>, o': Vec2,
                  v: Vec2)
    requires TurnedLevel(bounds, table, o, bounds', table', o')
    ensures v in Tiles(bounds, table, o) <==> TurnedAbout(o, o', v) in Tiles(bounds', table', o')
  {
    hide MarkedIn, Quadrants, InDisc, TurnedLevel, Tiles;
    var d := v.Minus(o);
    TilesAre(bounds, table, o);
    TilesAre(bounds', table', o');
    DiscTurned(d);
    assert TurnedAbout(o, o', v).Minus(o') == Turned(d);
    forall rot: nat | rot < 4
      ensures MarkedIn(rot, Quadrants(table, o)[rot], d) <==> MarkedIn(Next(rot), Quadrants(table', o')[Next(rot)], Turned(d))
    {
      MarkedTurned(bounds, table, o, bounds', table', o', rot, d);
    }
    assert bounds'.Contains(TurnedAbout(o, o', v)) <==> bounds.Contains(v) by { BoundsTurned(bounds, table, o, bounds', table', o', v); }
    MarkedAround(table, o, table', o', d);
  }

  lemma BoundsTurned(bounds: Rectangle, table: map<Vec2, bool>, o: Vec2, bounds': Rectangle, table': map<Vec2, bool>,
                     o': Vec2, v: Vec2)
    requires TurnedLevel(bounds, table, o, bounds', table', o')
    ensures bounds'.Contains(TurnedAbout(o, o', v)) <==> bounds.Contains(v)
  {
  }

  lemma MarkedAround(table: map<Vec2, bool>, o: Vec2, table': map<Vec2, bool>, o': Vec2, d: Vec2)
    requires forall rot: nat :: rot < 4 ==>
               (MarkedIn(rot, Quadrants(table, o)[rot], d) <==> MarkedIn(Next(rot), Quadrants(table', o')[Next(rot)], Turned(d)))
    ensures Marked(table, o, d) <==> Marked(table', o', Turned(d))
  {
    hide MarkedIn, Quadrants;
    if r: nat :| r < 4 && MarkedIn(r, Quadrants(table', o')[r], Turned(d)) {
      assert r == Next(if r == 0 then 3 else r - 1);
    }
  }
}
