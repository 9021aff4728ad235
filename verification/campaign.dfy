/** The campaign map: owners, territories, influence and the aggressor cut-off, as the class keeps them. */
module CampaignMap {
  import opened Collections
  import opened Grid
  import opened TerritorySearch

  // ----- owners and territories

  /** The owner of each settled site. */
  function OwnerMap(log: seq<Elem>): map<Vec2, Vec2> {
    if log == [] then map[] else OwnerMap(log[..|log| - 1])[log[|log| - 1].pos := log[|log| - 1].owner]
  }

  lemma OwnersNext(log: seq<Elem>, e: Elem)
    ensures OwnerMap(log + [e]) == OwnerMap(log)[e.pos := e.owner]
  {
  }

  lemma {:induction false} OwnerKeys(log: seq<Elem>)
    ensures OwnerMap(log).Keys == Owned(log)
  {
    if log != [] {
      var rest, e := log[..|log| - 1], log[|log| - 1];
      OwnerKeys(rest);
      assert log == rest + [e];
      assert Owned(log) == Owned(rest) + {e.pos};
    }
  }

  /** Each settled site keeps the owner it settled with. */
  lemma {:induction false} OwnerOf(log: seq<Elem>, i: nat)
    requires Ordered(Search([], log)) && i < |log|
    ensures log[i].pos in OwnerMap(log) && OwnerMap(log)[log[i].pos] == log[i].owner
  {
    if i < |log| - 1 {
      assert Ordered(Search([], log[..|log| - 1]));
      OwnerOf(log[..|log| - 1], i);
    }
  }

  function Territory(owners: map<Vec2, Vec2>, o: Vec2): set<Vec2> {
    set v | v in owners && owners[v] == o
  }

  /** Each territory of a site is joined to the site by steps between neighbours inside the territory. */
  lemma TerritoryConnected(g: World, log: seq<Elem>, v: Vec2) returns (p: seq<Vec2>)
    requires g.Valid() && Inv(g, Search([], log))
    requires v in OwnerMap(log) && OwnerMap(log)[v] != BORDER
    ensures |p| >= 1 && p[0] == OwnerMap(log)[v] && p[|p| - 1] == v && p[0] in g.sites && g.Fortified(p[0])
    ensures Steps(g, p)
    ensures forall u :: u in p ==> u in Territory(OwnerMap(log), p[0])
  {
    hide Bounded, Ordered, Rooted, Covered, Path, Travelled, Cost, Steps, Enters;
    OwnerKeys(log);
    var i :| 0 <= i < |log| && log[i].pos == v;
    p := PathOf(g, log, i);
    OwnerOf(log, i);
    PathLength(g, p);
    forall u | u in p
      ensures u in Territory(OwnerMap(log), p[0])
    {
      var e :| e in log && e.pos == u && e.owner == log[i].owner;
      var j :| 0 <= j < |log| && log[j] == e;
      OwnerOf(log, j);
    }
  }

  // ----- influence

  function Dist2(a: Vec2, b: Vec2): int {
    (a.x - b.x) * (a.x - b.x) + (a.y - b.y) * (a.y - b.y)
  }

  /** The squares whose distance from the start is at most r + 1/2. */
  function InitialDisc(o: Vec2, r: nat): set<Vec2> {
    set x, y | o.x - r <= x <= o.x + r && o.y - r <= y <= o.y + r && 4 * Dist2(Vec2(x, y), o) <= (2 * r + 1) * (2 * r + 1)
      :: Vec2(x, y)
  }

  lemma CentreInDisc(o: Vec2, r: nat)
    ensures o in InitialDisc(o, r)
  {
    assert Dist2(o, o) == 0;
    assert (2 * r + 1) * (2 * r + 1) >= 0;
    assert o == Vec2(o.x, o.y);
  }

  /** Some site next to the territory of o, or inside it, belongs to a defeated owner. */
  ghost predicate TouchesDefeated(g: World, owners: map<Vec2, Vec2>, defeated: set<Vec2>, o: Vec2) {
    exists u, v :: u in Territory(owners, o) && v in Neighbors4(u) && g.Inside(v) && v in owners && owners[v] in defeated
  }

  ghost function Influence(g: World, owners: map<Vec2, Vec2>, defeated: set<Vec2>, initial: set<Vec2>): set<Vec2> {
    initial + set v | v in owners && owners[v] != BORDER && TouchesDefeated(g, owners, defeated, owners[v])
  }

  /** Defeating more sites never shrinks the influence. */
  lemma InfluenceGrows(g: World, owners: map<Vec2, Vec2>, defeated: set<Vec2>, defeated': set<Vec2>, initial: set<Vec2>)
    requires defeated <= defeated'
    ensures Influence(g, owners, defeated, initial) <= Influence(g, owners, defeated', initial)
  {
  }

  // ----- the aggressor cut-off

  /** The fortified sites strictly closer to the player than pos. */
  function Closer(g: World, player: Vec2, pos: Vec2): set<Vec2> {
    set v | v in g.sites && g.Fortified(v) && Dist2(v, player) < Dist2(pos, player)
  }

  function LevelIncrease(g: World, player: Vec2, exp: int, pos: Vec2): int {
    |Closer(g, player, pos)| * exp
  }

  const MAX_AGGRESSOR_DIFF := 10

  /** Not more than ten levels above the strongest conquered fortified site. */
  ghost predicate BelowCutOff(g: World, player: Vec2, exp: int, defeated: set<Vec2>, v: Vec2) {
    || LevelIncrease(g, player, exp, v) <= MAX_AGGRESSOR_DIFF
    || exists u :: u in defeated && u in g.sites && g.Fortified(u) &&
         LevelIncrease(g, player, exp, v) <= LevelIncrease(g, player, exp, u) + MAX_AGGRESSOR_DIFF
  }

  /** m is the largest level increase of a conquered fortified site, or 0 if none is larger. */
  ghost predicate LargestIncrease(g: World, player: Vec2, exp: int, defeated: set<Vec2>, m: int) {
    && m >= 0
    && (forall u :: u in defeated && u in g.sites && g.Fortified(u) ==> LevelIncrease(g, player, exp, u) <= m)
    && (m == 0 || exists u :: u in defeated && u in g.sites && g.Fortified(u) && LevelIncrease(g, player, exp, u) == m)
  }

  /** The largest conquered increase decides the cut-off. */
  lemma CutOffAt(g: World, player: Vec2, exp: int, defeated: set<Vec2>, m: int)
    requires LargestIncrease(g, player, exp, defeated, m)
    ensures forall v :: BelowCutOff(g, player, exp, defeated, v) <==> LevelIncrease(g, player, exp, v) <= m + MAX_AGGRESSOR_DIFF
  {
    hide LevelIncrease;
  }

  /** Farther sites are not easier. */
  lemma IncreaseGrows(g: World, player: Vec2, exp: nat, a: Vec2, b: Vec2)
    requires Dist2(a, player) <= Dist2(b, player)
    ensures LevelIncrease(g, player, exp, a) <= LevelIncrease(g, player, exp, b)
  {
    Smaller(Closer(g, player, a), Closer(g, player, b));
    Times(|Closer(g, player, a)|, |Closer(g, player, b)|, exp);
  }

  /** Every fortified site in between makes a site harder, and the nearest one is as easy as can be. */
  lemma IncreaseCounts(g: World, player: Vec2, exp: nat, a: Vec2, b: Vec2)
    requires a in g.sites && g.Fortified(a) && Dist2(a, player) < Dist2(b, player)
    ensures LevelIncrease(g, player, exp, b) >= LevelIncrease(g, player, exp, a) + exp
    ensures (forall v :: v in g.sites && g.Fortified(v) ==> Dist2(a, player) <= Dist2(v, player)) ==>
              LevelIncrease(g, player, exp, a) == 0
  {
    assert a in Closer(g, player, b) && a !in Closer(g, player, a);
    Smaller(Closer(g, player, a) + {a}, Closer(g, player, b));
    Times(|Closer(g, player, a)| + 1, |Closer(g, player, b)|, exp);
    assert (|Closer(g, player, a)| + 1) * exp == |Closer(g, player, a)| * exp + exp;
    if forall v :: v in g.sites && g.Fortified(v) ==> Dist2(a, player) <= Dist2(v, player) {
      assert Closer(g, player, a) == {};
    }
  }

  lemma Times(a: nat, b: nat, c: nat)
    requires a <= b
    ensures a * c <= b * c
  {
  }

  // ----- the class

  class Campaign {
    const g: World
    const pick: seq<Elem> -> nat
    const playerPos: Vec2
    const originalPlayerPos: Vec2
    const initialRadius: nat
    const expIncrease: int
    var defeated: map<Vec2, bool>
    var influencePos: set<Vec2>
    var belowMaxAggressorCutOff: map<Vec2, bool>

    ghost predicate Valid()
      reads this`defeated
    {
      && g.Valid() && GoodRule(pick)
      && defeated.Keys == g.sites.Keys
    }

    function DefeatedSites(): set<Vec2>
      reads this`defeated
    {
      set v | v in defeated && defeated[v]
    }

    ghost function Owners(): map<Vec2, Vec2>
      requires g.Valid() && GoodRule(pick)
    {
      OwnerMap(Log(g, pick))
    }

    /** The influence is up to date with the defeated sites. */
    ghost predicate InfluenceFresh()
      requires g.Valid() && GoodRule(pick)
      reads this`influencePos, this`defeated
    {
      influencePos == Influence(g, Owners(), DefeatedSites(), InitialDisc(originalPlayerPos, initialRadius))
    }

    /** The cut-off table is up to date with the defeated sites. */
    ghost predicate CutOffFresh()
      reads this`belowMaxAggressorCutOff, this`defeated
    {
      && belowMaxAggressorCutOff.Keys == g.sites.Keys
      && forall v :: v in belowMaxAggressorCutOff ==>
           (belowMaxAggressorCutOff[v] <==> BelowCutOff(g, playerPos, expIncrease, DefeatedSites(), v))
    }

    /** The queue loop. */
    method FindOwners() returns (siteOwners: map<Vec2, Vec2>)
      requires Valid()
      ensures siteOwners == Owners()
    {
      hide Step, Inv, Offers, Owned, OwnerMap, Unsettled, GoodRule, Start;
      var queue := PushSources();
      siteOwners := map[];
      ghost var settled: seq<Elem> := [];
      StartInv(g);
      FreshLog(g, queue);
      while queue != []
        invariant Inv(g, Search(queue, settled)) && siteOwners == OwnerMap(settled)
        invariant Run(g, pick, Search(queue, settled)) == Run(g, pick, Start(g))
        decreases |Unsettled(g, settled)|, |queue|
      {
        ghost var st := Search(queue, settled);
        StepInv(g, pick, st);
        StepShrinks(g, pick, st);
        PickPops(pick, st);
        OwnerKeys(settled);
        var i := pick(queue);
        var e := queue[i];
        queue := queue[..i] + queue[i + 1..];
        if e.pos in siteOwners {
          StepKeeps(g, pick, st);
          assert Search(queue, settled) == Step(g, pick, st);
          continue;
        }
        siteOwners := siteOwners[e.pos := e.owner];
        OwnersNext(settled, e);
        settled := settled + [e];
        StepSettles(g, pick, st);
        OwnerKeys(settled);
        if e.owner != BORDER || e.dist < BORDER_REACH {
          queue := PushOffers(e, siteOwners, queue);
        }
        assert Search(queue, settled) == Step(g, pick, st);
      }
    }

    /** The loop over the neighbours of a settled site. */
    method PushOffers(e: Elem, siteOwners: map<Vec2, Vec2>, before: seq<Elem>) returns (queue: seq<Elem>)
      requires g.Valid()
      ensures queue == before + Offers(g, e, Neighbors4(e.pos), siteOwners.Keys)
    {
      hide Neighbors4;
      queue := before;
      var neighbours := Neighbors4(e.pos);
      assert neighbours[0..] == neighbours;
      for k := 0 to |neighbours|
        invariant queue + Offers(g, e, neighbours[k..], siteOwners.Keys)
                  == before + Offers(g, e, neighbours, siteOwners.Keys)
      {
        var v := neighbours[k];
        assert neighbours[k..][1..] == neighbours[k + 1..];
        if g.Inside(v) && !g.sites[v].blocked && v !in siteOwners {
          queue := queue + [Elem(v, e.dist + 3.0 * g.noise[v], e.owner)];
        }
      }
    }

    method PushSources() returns (queue: seq<Elem>)
      requires g.Valid()
      ensures queue == Start(g).queue
    {
      queue := [];
      for x := 0 to g.width
        invariant queue + RowSources(g, x) == RowSources(g, 0)
      {
        queue := queue + [Elem(Vec2(x, 0), 0.0, BORDER)] + [Elem(Vec2(x, g.height - 1), 0.0, BORDER)];
      }
      for y := 0 to g.height
        invariant queue + ColumnSources(g, y) == RowSources(g, 0) + ColumnSources(g, 0)
      {
        queue := queue + [Elem(Vec2(0, y), 0.0, BORDER)] + [Elem(Vec2(g.width - 1, y), 0.0, BORDER)];
      }
      queue := PushSites(queue);
    }

    method PushSites(before: seq<Elem>) returns (queue: seq<Elem>)
      requires g.Valid()
      ensures queue == before + SiteSources(g, 0)
    {
      queue := before;
      for x := 0 to g.width
        invariant queue + SiteSources(g, x) == before + SiteSources(g, 0)
      {
        ghost var rest := SiteSources(g, x + 1);
        for y := 0 to g.height
          invariant queue + (SitesOfColumn(g, x, y) + rest) == before + SiteSources(g, 0)
        {
          if g.Fortified(Vec2(x, y)) { queue := queue + [Elem(Vec2(x, y), 0.0, Vec2(x, y))]; }
        }
      }
    }

    /** The sites grouped by owner, without the sentinel's. */
    method GroupTerritories(siteOwners: map<Vec2, Vec2>) returns (territories: map<Vec2, set<Vec2>>)
      ensures forall o :: o in territories <==> o != BORDER && Territory(siteOwners, o) != {}
      ensures forall o :: o in territories ==> territories[o] == Territory(siteOwners, o)
    {
      territories := map[];
      var todo := siteOwners.Keys;
      while todo != {}
        invariant todo <= siteOwners.Keys
        invariant forall o :: o in territories <==> o != BORDER && Territory(siteOwners, o) - todo != {}
        invariant forall o :: o in territories ==> territories[o] == Territory(siteOwners, o) - todo
        decreases todo
      {
        var v :| v in todo;
        var o := siteOwners[v];
        ghost var before := todo;
        todo := todo - {v};
        forall p
          ensures Territory(siteOwners, p) - todo ==
                  (Territory(siteOwners, p) - before) + (if p == o then {v} else {})
        {
        }
        if o != BORDER {
          territories := territories[o := (if o in territories then territories[o] else {}) + {v}];
        }
      }
    }

    /** The search for a defeated owner around one territory. */
    method TouchesDefeatedSite(siteOwners: map<Vec2, Vec2>, o: Vec2, territory: set<Vec2>) returns (r: bool)
      requires Valid() && territory == Territory(siteOwners, o) && (forall v :: v in siteOwners ==> siteOwners[v] in defeated)
      ensures r <==> TouchesDefeated(g, siteOwners, DefeatedSites(), o)
    {
      var todo := territory;
      while todo != {}
        invariant todo <= territory
        invariant forall u, v :: u in territory - todo && v in Neighbors4(u) && g.Inside(v) && v in siteOwners ==>
                    siteOwners[v] !in DefeatedSites()
        decreases todo
      {
        var u :| u in todo;
        var neighbours := Neighbors4(u);
        for k := 0 to |neighbours|
          invariant forall j :: 0 <= j < k && g.Inside(neighbours[j]) && neighbours[j] in siteOwners ==>
                      siteOwners[neighbours[j]] !in DefeatedSites()
        {
          var v := neighbours[k];
          if g.Inside(v) && v in siteOwners && defeated[siteOwners[v]] {
            assert siteOwners[v] in DefeatedSites() && v in Neighbors4(u);
            return true;
          }
        }
        todo := todo - {u};
      }
      return false;
    }

    method InitialInfluence() returns (influence: set<Vec2>)
      ensures influence == InitialDisc(originalPlayerPos, initialRadius)
    {
      var o, r := originalPlayerPos, initialRadius;
      ghost var disc := InitialDisc(o, r);
      influence := {};
      for x := o.x - r to o.x + r + 1
        invariant influence == set v | v in disc && v.x < x
      {
        for y := o.y - r to o.y + r + 1
          invariant influence == set v | v in disc && (v.x < x || (v.x == x && v.y < y))
        {
          if 4 * Dist2(Vec2(x, y), o) <= (2 * r + 1) * (2 * r + 1) { influence := influence + {Vec2(x, y)}; }
        }
      }
    }

    method RefreshInfluencePos()
      requires Valid()
      modifies this`influencePos
      ensures InfluenceFresh() && originalPlayerPos in influencePos
    {
      CentreInDisc(originalPlayerPos, initialRadius);
      hide Territory, TouchesDefeated, InitialDisc, Log;
      ghost var initial := InitialDisc(originalPlayerPos, initialRadius);
      influencePos := InitialInfluence();
      var siteOwners := FindOwners();
      OwnersInside(g, Log(g, pick));
      var territories := GroupTerritories(siteOwners);
      var todo := territories.Keys;
      ghost var done: set<Vec2> := {};
      while todo != {}
        invariant todo + done == territories.Keys
        invariant influencePos == InfluenceOf(g, siteOwners, DefeatedSites(), initial, done)
        decreases todo
      {
        var o :| o in todo;
        var touches := TouchesDefeatedSite(siteOwners, o, territories[o]);
        InfluenceNext(g, siteOwners, DefeatedSites(), initial, done, o);
        if touches { influencePos := influencePos + territories[o]; }
        todo, done := todo - {o}, done + {o};
      }
      InfluenceAll(g, siteOwners, DefeatedSites(), initial, done);
    }

    method GetBaseLevelIncrease(pos: Vec2) returns (r: int)
      requires g.Valid()
      ensures r == LevelIncrease(g, playerPos, expIncrease, pos)
    {
      var res := 0;
      ghost var closer := Closer(g, playerPos, pos);
      for x := 0 to g.width
        invariant res == |set v | v in closer && v.x < x|
      {
        CountStart(closer, x);
        for y := 0 to g.height
          invariant res == |set v | v in closer && (v.x < x || (v.x == x && v.y < y))|
        {
          CountNext(closer, x, y);
          if BlocksInfluence(g.sites[Vec2(x, y)].dweller) && Dist2(Vec2(x, y), playerPos) < Dist2(pos, playerPos) {
            res := res + 1;
          }
        }
        CountColumn(closer, x, g.height);
      }
      CountAll(closer, g.width);
      r := res * expIncrease;
    }

    /** The highest level increase among the conquered fortified sites, or 0. */
    method MaxConquered() returns (m: int)
      requires Valid()
      ensures LargestIncrease(g, playerPos, expIncrease, DefeatedSites(), m)
    {
      hide LevelIncrease;
      m := 0;
      ghost var best: set<Vec2> := {};
      for x := 0 to g.width
        invariant 0 <= m
        invariant m == 0 || exists u ::
                    u in DefeatedSites() && g.Fortified(u) && m == LevelIncrease(g, playerPos, expIncrease, u)
        invariant forall u :: u in DefeatedSites() && g.Fortified(u) && u.x < x ==>
                    LevelIncrease(g, playerPos, expIncrease, u) <= m
      {
        for y := 0 to g.height
          invariant 0 <= m
          invariant m == 0 || exists u ::
                      u in DefeatedSites() && g.Fortified(u) && m == LevelIncrease(g, playerPos, expIncrease, u)
          invariant forall u :: u in DefeatedSites() && g.Fortified(u) && (u.x < x || (u.x == x && u.y < y)) ==>
                      LevelIncrease(g, playerPos, expIncrease, u) <= m
        {
          var v := Vec2(x, y);
          if BlocksInfluence(g.sites[v].dweller) && defeated[v] {
            var increase := GetBaseLevelIncrease(v);
            assert v in DefeatedSites();
            m := Max(m, increase);
          }
        }
      }
    }

    method RefreshMaxAggressorCutOff()
      requires Valid()
      modifies this`belowMaxAggressorCutOff
      ensures CutOffFresh()
    {
      hide LevelIncrease, BelowCutOff, LargestIncrease;
      var maxConquered := MaxConquered();
      CutOffAt(g, playerPos, expIncrease, DefeatedSites(), maxConquered);
      var table: map<Vec2, bool> := map v | v in g.sites :: false;
      for x := 0 to g.width
        invariant table.Keys == g.sites.Keys
        invariant forall v :: v in table && v.x < x ==>
                    (table[v] <==> BelowCutOff(g, playerPos, expIncrease, DefeatedSites(), v))
      {
        for y := 0 to g.height
          invariant table.Keys == g.sites.Keys
          invariant forall v :: v in table && (v.x < x || (v.x == x && v.y < y)) ==>
                      (table[v] <==> BelowCutOff(g, playerPos, expIncrease, DefeatedSites(), v))
        {
          var increase := GetBaseLevelIncrease(Vec2(x, y));
          table := table[Vec2(x, y) := increase <= maxConquered + MAX_AGGRESSOR_DIFF];
        }
      }
      belowMaxAggressorCutOff := table;
    }

    /** One more site is defeated, and everything that depends on it is recomputed. */
    method SetDefeated(pos: Vec2)
      requires Valid() && pos in g.sites
      modifies this
      ensures Valid() && InfluenceFresh() && CutOffFresh()
      ensures DefeatedSites() == old(DefeatedSites()) + {pos}
    {
      hide InfluenceFresh, CutOffFresh, GoodRule;
      defeated := defeated[pos := true];
      RefreshInfluencePos();
      RefreshMaxAggressorCutOff();
    }
  }

  // ----- counting column by column

  lemma CountStart(s: set<Vec2>, x: int)
    requires forall v :: v in s ==> v.y >= 0
    ensures (set v | v in s && (v.x < x || (v.x == x && v.y < 0))) == (set v | v in s && v.x < x)
  {
  }

  lemma CountNext(s: set<Vec2>, x: int, y: int)
    ensures |set v | v in s && (v.x < x || (v.x == x && v.y < y + 1))| ==
            |set v | v in s && (v.x < x || (v.x == x && v.y < y))| + (if Vec2(x, y) in s then 1 else 0)
  {
    var a := set v | v in s && (v.x < x || (v.x == x && v.y < y));
    var b := set v | v in s && (v.x < x || (v.x == x && v.y < y + 1));
    assert b == a + (if Vec2(x, y) in s then {Vec2(x, y)} else {});
  }

  lemma CountColumn(s: set<Vec2>, x: int, height: int)
    requires forall v :: v in s ==> v.y < height
    ensures (set v | v in s && (v.x < x || (v.x == x && v.y < height))) == (set v | v in s && v.x < x + 1)
  {
  }

  lemma CountAll(s: set<Vec2>, width: int)
    requires forall v :: v in s ==> v.x < width
    ensures (set v | v in s && v.x < width) == s
  {
  }

  // ----- runs of conquests

  /** The defeated sites after a run of conquests. */
  function Conquered(start: set<Vec2>, run: seq<Vec2>): set<Vec2>
    decreases |run|
  {
    if run == [] then start else Conquered(start + {run[0]}, run[1..])
  }

  lemma {:induction false} ConqueredGrows(start: set<Vec2>, run: seq<Vec2>, m: nat)
    requires m <= |run|
    ensures Conquered(start, run[..m]) <= Conquered(start, run)
    decreases |run|
  {
    if m == 0 {
      ConqueredFromStart(start, run);
    } else {
      assert run[..m][0] == run[0] && run[..m][1..] == run[1..][..m - 1];
      ConqueredGrows(start + {run[0]}, run[1..], m - 1);
    }
  }

  lemma {:induction false} ConqueredFromStart(start: set<Vec2>, run: seq<Vec2>)
    ensures start <= Conquered(start, run)
    decreases |run|
  {
    if run != [] { ConqueredFromStart(start + {run[0]}, run[1..]); }
  }

  /** Along every run of conquests neither the influence nor the sites below the cut-off ever shrink. */
  lemma ConquestOnlyGrows(g: World, owners: map<Vec2, Vec2>, initial: set<Vec2>, player: Vec2, exp: int,
                          start: set<Vec2>, run: seq<Vec2>, m: nat, v: Vec2)
    requires m <= |run|
    ensures Influence(g, owners, Conquered(start, run[..m]), initial)
            <= Influence(g, owners, Conquered(start, run), initial)
    ensures BelowCutOff(g, player, exp, Conquered(start, run[..m]), v)
            ==> BelowCutOff(g, player, exp, Conquered(start, run), v)
  {
    hide LevelIncrease, Influence;
    ConqueredGrows(start, run, m);
    InfluenceGrows(g, owners, Conquered(start, run[..m]), Conquered(start, run), initial);
  }

  /** The influence from the territories of some owners only. */
  ghost function InfluenceOf(g: World, owners: map<Vec2, Vec2>, defeated: set<Vec2>, initial: set<Vec2>,
                             some: set<Vec2>): set<Vec2> {
    initial + set v | v in owners && owners[v] in some && TouchesDefeated(g, owners, defeated, owners[v])
  }

  lemma InfluenceNext(g: World, owners: map<Vec2, Vec2>, defeated: set<Vec2>, initial: set<Vec2>, some: set<Vec2>, o: Vec2)
    ensures InfluenceOf(g, owners, defeated, initial, some + {o}) ==
            InfluenceOf(g, owners, defeated, initial, some)
            + (if TouchesDefeated(g, owners, defeated, o) then Territory(owners, o) else {})
  {
  }

  lemma InfluenceAll(g: World, owners: map<Vec2, Vec2>, defeated: set<Vec2>, initial: set<Vec2>, all: set<Vec2>)
    requires forall o :: o in all <==> o != BORDER && Territory(owners, o) != {}
    ensures InfluenceOf(g, owners, defeated, initial, all) == Influence(g, owners, defeated, initial)
  {
  }

  /** Owners are sites of the map. */
  lemma OwnersInside(g: World, log: seq<Elem>)
    requires g.Valid() && Inv(g, Search([], log))
    ensures forall v :: v in OwnerMap(log) ==> OwnerMap(log)[v] in g.sites
  {
    hide Bounded, Covered;
    forall v | v in OwnerMap(log)
      ensures OwnerMap(log)[v] in g.sites
    {
      OwnerKeys(log);
      var i :| 0 <= i < |log| && log[i].pos == v;
      OwnerOf(log, i);
      var p := PathOf(g, log, i);
    }
  }

  lemma FreshLog(g: World, queue: seq<Elem>)
    requires g.Valid() && queue == Start(g).queue
    ensures Search(queue, []) == Start(g) && OwnerMap([]) == map[]
  {
  }

  lemma StepKeeps(g: World, pick: seq<Elem> -> nat, st: Search)
    requires g.Valid() && st.queue != [] && pick(st.queue) < |st.queue|
    requires st.queue[pick(st.queue)].pos in Owned(st.settled)
    ensures var i := pick(st.queue);
            Step(g, pick, st) == Search(st.queue[..i] + st.queue[i + 1..], st.settled)
  {
  }

  lemma StepSettles(g: World, pick: seq<Elem> -> nat, st: Search)
    requires g.Valid() && st.queue != [] && pick(st.queue) < |st.queue|
    requires st.queue[pick(st.queue)].pos !in Owned(st.settled)
    ensures var i := pick(st.queue); var e := st.queue[i]; var settled := st.settled + [e];
            Step(g, pick, st) == Search(
              st.queue[..i] + st.queue[i + 1..] +
              if Expands(e) then Offers(g, e, Neighbors4(e.pos), Owned(settled)) else [], settled)
  {
  }
}
