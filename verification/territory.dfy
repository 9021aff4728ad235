/** The territory search of the campaign map: a multi-source shortest-path search whose border sources stop early. */
module TerritorySearch {
  import opened Grid

  datatype VillainType = MAIN | LESSER | MINOR | ALLY | PLAYER | NONE | RETIRED

  predicate BlocksInfluence(t: VillainType) {
    t.MAIN? || t.LESSER?
  }

  /** dweller is NONE for an empty site. */
  datatype Site = Site(dweller: VillainType, blocked: bool)

  /** The campaign map; noise holds the terrain noise of each site. */
  datatype World = World(width: nat, height: nat, sites: map<Vec2, Site>, noise: map<Vec2, real>) {
    predicate Inside(v: Vec2) {
      0 <= v.x < width && 0 <= v.y < height
    }

    ghost predicate Valid() {
      && width > 0 && height > 0
      && (forall v :: v in sites <==> Inside(v))
      && (forall v :: v in noise <==> Inside(v))
      && (forall v :: v in noise ==> noise[v] >= 0.0)
    }

    /** The cost of stepping onto a site. */
    function Weight(v: Vec2): (w: real)
      requires Valid() && Inside(v)
      ensures w >= 0.0
    {
      3.0 * noise[v]
    }

    predicate Fortified(v: Vec2)
      requires v in sites
    {
      BlocksInfluence(sites[v].dweller)
    }

    predicate OnBorder(v: Vec2) {
      Inside(v) && (v.x == 0 || v.y == 0 || v.x == width - 1 || v.y == height - 1)
    }
  }

  /** The owner of the border sources. */
  const BORDER := Vec2(0, 0)
  const BORDER_REACH := 15.0

  datatype Elem = Elem(pos: Vec2, dist: real, owner: Vec2)

  function Neighbors4(v: Vec2): seq<Vec2> {
    [Vec2(v.x, v.y + 1), Vec2(v.x + 1, v.y), Vec2(v.x, v.y - 1), Vec2(v.x - 1, v.y)]
  }

  lemma Neighbors4Are(u: Vec2, v: Vec2)
    ensures v in Neighbors4(u) <==> Abs(u.x - v.x) + Abs(u.y - v.y) == 1
  {
    assert v == Vec2(v.x, v.y);
  }

  predicate Expands(e: Elem) {
    e.owner != BORDER || e.dist < BORDER_REACH
  }

  /** v can be entered from u. */
  predicate Enters(g: World, u: Vec2, v: Vec2)
    requires g.Valid()
  {
    v in Neighbors4(u) && g.Inside(v) && !g.sites[v].blocked
  }

  /** e is what the settled element u offers to one of its neighbours. */
  ghost predicate Feeds(g: World, u: Elem, e: Elem)
    requires g.Valid()
  {
    Expands(u) && Enters(g, u.pos, e.pos) && e.owner == u.owner && e.dist == u.dist + g.Weight(e.pos)
  }

  /** The source elements: the border sites under the sentinel, and each fortified site under itself. */
  predicate IsSource(g: World, e: Elem)
    requires g.Valid()
  {
    && e.dist == 0.0
    && ((e.owner == BORDER && g.OnBorder(e.pos)) || (e.owner == e.pos && g.Inside(e.pos) && g.Fortified(e.pos)))
  }

  // ----- the search

  /** settled is the log of the sites that got an owner, in order. */
  datatype Search = Search(queue: seq<Elem>, settled: seq<Elem>)

  /** A fixed rule for the queue: which of the cheapest elements is popped. */
  ghost predicate GoodRule(pick: seq<Elem> -> nat) {
    forall q: seq<Elem> :: q != [] ==> pick(q) < |q| && forall e :: e in q ==> q[pick(q)].dist <= e.dist
  }

  predicate Settled(settled: seq<Elem>, v: Vec2) {
    exists i :: 0 <= i < |settled| && settled[i].pos == v
  }

  /** What e offers to those of its neighbours vs that have no owner yet. */
  function Offers(g: World, e: Elem, vs: seq<Vec2>, owned: set<Vec2>): (r: seq<Elem>)
    requires g.Valid()
    decreases |vs|
  {
    if vs == [] then []
    else
      (if g.Inside(vs[0]) && !g.sites[vs[0]].blocked && vs[0] !in owned
       then [Elem(vs[0], e.dist + g.Weight(vs[0]), e.owner)] else []) +
      Offers(g, e, vs[1..], owned)
  }

  function Owned(settled: seq<Elem>): set<Vec2> {
    set e | e in settled :: e.pos
  }

  function Step(g: World, pick: seq<Elem> -> nat, st: Search): Search
    requires g.Valid() && st.queue != [] && pick(st.queue) < |st.queue|
  {
    var i := pick(st.queue);
    var e, rest := st.queue[i], st.queue[..i] + st.queue[i + 1..];
    if e.pos in Owned(st.settled) then st.(queue := rest)
    else
      var settled := st.settled + [e];
      Search(rest + if Expands(e) then Offers(g, e, Neighbors4(e.pos), Owned(settled)) else [], settled)
  }

  // ----- what every step keeps

  ghost predicate Bounded(g: World, st: Search) {
    && (forall e :: e in st.queue ==> g.Inside(e.pos))
    && (forall e :: e in st.settled ==> g.Inside(e.pos))
  }

  /** Popped distances never decrease, nothing queued is cheaper than what was popped, and each site settles once. */
  ghost predicate Ordered(st: Search) {
    && (forall i, j :: 0 <= i < j < |st.settled| ==> st.settled[i].dist <= st.settled[j].dist)
    && (forall u, e :: u in st.settled && e in st.queue ==> u.dist <= e.dist)
    && (forall i, j :: 0 <= i < j < |st.settled| ==> st.settled[i].pos != st.settled[j].pos)
  }

  /** Element e is a source, or was offered by one of the given settled elements. */
  ghost predicate Offered(g: World, settled: seq<Elem>, e: Elem)
    requires g.Valid()
  {
    IsSource(g, e) || exists u :: u in settled && Feeds(g, u, e)
  }

  /** Everything comes from a source or from something settled before it. */
  ghost predicate Rooted(g: World, st: Search)
    requires g.Valid()
  {
    && (forall e :: e in st.queue ==> Offered(g, st.settled, e))
    && (forall i :: 0 <= i < |st.settled| ==> Offered(g, st.settled[..i], st.settled[i]))
  }

  /** The site of e has settled at no greater distance. */
  ghost predicate Reached(settled: seq<Elem>, e: Elem) {
    exists u :: u in settled && u.pos == e.pos && u.dist <= e.dist
  }

  /** No source and no offer is lost: it is still queued, or its site has settled at no greater distance. */
  ghost predicate Covered(g: World, st: Search)
    requires g.Valid()
  {
    forall e :: Offered(g, st.settled, e) ==> e in st.queue || Reached(st.settled, e)
  }

  ghost predicate Inv(g: World, st: Search)
    requires g.Valid()
  {
    Bounded(g, st) && Ordered(st) && Rooted(g, st) && Covered(g, st)
  }

  lemma {:induction false} OffersAre(g: World, e: Elem, vs: seq<Vec2>, owned: set<Vec2>)
    requires g.Valid()
    ensures forall f :: f in Offers(g, e, vs, owned) <==>
              f.pos in vs && g.Inside(f.pos) && !g.sites[f.pos].blocked && f.pos !in owned
              && f == Elem(f.pos, e.dist + g.Weight(f.pos), e.owner)
    decreases |vs|
  {
    if vs != [] { OffersAre(g, e, vs[1..], owned); }
  }

  /** The queue is e and the rest, and e is cheapest. */
  ghost predicate Pops(st: Search, e: Elem, rest: seq<Elem>) {
    && (forall f :: f in st.queue <==> f == e || f in rest)
    && (forall f :: f in rest ==> e.dist <= f.dist)
  }

  lemma PickPops(pick: seq<Elem> -> nat, st: Search)
    requires GoodRule(pick) && st.queue != []
    ensures var i := pick(st.queue); i < |st.queue| && Pops(st, st.queue[i], st.queue[..i] + st.queue[i + 1..])
  {
  }

  lemma OrderedNext(st: Search, e: Elem, rest: seq<Elem>, offers: seq<Elem>)
    requires Ordered(st) && Pops(st, e, rest) && e.pos !in Owned(st.settled)
    requires forall f :: f in offers ==> e.dist <= f.dist
    ensures Ordered(Search(rest + offers, st.settled + [e]))
  {
  }

  lemma RootedNext(g: World, st: Search, e: Elem, rest: seq<Elem>, offers: seq<Elem>)
    requires g.Valid() && Rooted(g, st) && Pops(st, e, rest)
    requires forall f :: f in offers ==> Feeds(g, e, f)
    ensures Rooted(g, Search(rest + offers, st.settled + [e]))
  {
    var settled := st.settled + [e];
    forall f | f in rest + offers
      ensures Offered(g, settled, f)
    {
      if f in rest {
        assert Offered(g, st.settled, f);
        if u :| u in st.settled && Feeds(g, u, f) { assert u in settled; }
      } else {
        assert e in settled && Feeds(g, e, f);
      }
    }
    forall i | 0 <= i < |settled|
      ensures Offered(g, settled[..i], settled[i])
    {
      if i < |st.settled| { assert settled[..i] == st.settled[..i]; } else { assert settled[..i] == st.settled; }
    }
  }

  lemma CoveredNext(g: World, st: Search, e: Elem, rest: seq<Elem>, offers: seq<Elem>)
    requires g.Valid() && Covered(g, st) && Ordered(st) && Pops(st, e, rest)
    requires forall f :: Feeds(g, e, f) ==> f in offers || f.pos in Owned(st.settled + [e])
    ensures Covered(g, Search(rest + offers, st.settled + [e]))
  {
  }

  lemma CoveredSame(g: World, st: Search, e: Elem, rest: seq<Elem>)
    requires g.Valid() && Covered(g, st) && Ordered(st) && Pops(st, e, rest) && e.pos in Owned(st.settled)
    ensures Covered(g, st.(queue := rest))
  {
  }

  /** One turn of the queue loop keeps the invariant. */
  lemma StepInv(g: World, pick: seq<Elem> -> nat, st: Search)
    requires g.Valid() && GoodRule(pick) && Inv(g, st) && st.queue != []
    ensures pick(st.queue) < |st.queue| && Inv(g, Step(g, pick, st))
  {
    hide Bounded, Ordered, Rooted, Covered, Pops, Offers, Owned, Settled, GoodRule;
    PickPops(pick, st);
    var i := pick(st.queue);
    var e, rest := st.queue[i], st.queue[..i] + st.queue[i + 1..];
    if e.pos in Owned(st.settled) {
      CoveredSame(g, st, e, rest);
      KeptInv(g, st, e, rest);
    } else {
      var settled := st.settled + [e];
      var offers := if Expands(e) then Offers(g, e, Neighbors4(e.pos), Owned(settled)) else [];
      OffersFeed(g, e, settled, offers);
      BoundedNext(g, st, e, rest, offers);
      OrderedNext(st, e, rest, offers);
      RootedNext(g, st, e, rest, offers);
      CoveredNext(g, st, e, rest, offers);
    }
  }

  lemma OffersFeed(g: World, e: Elem, settled: seq<Elem>, offers: seq<Elem>)
    requires g.Valid()
    requires offers == if Expands(e) then Offers(g, e, Neighbors4(e.pos), Owned(settled)) else []
    ensures forall f :: f in offers ==> Feeds(g, e, f) && e.dist <= f.dist && g.Inside(f.pos)
    ensures forall f :: Feeds(g, e, f) ==> f in offers || f.pos in Owned(settled)
  {
    hide Offers, Owned;
    OffersAre(g, e, Neighbors4(e.pos), Owned(settled));
  }

  lemma KeptInv(g: World, st: Search, e: Elem, rest: seq<Elem>)
    requires g.Valid() && Bounded(g, st) && Ordered(st) && Rooted(g, st) && Pops(st, e, rest)
    ensures Bounded(g, st.(queue := rest)) && Ordered(st.(queue := rest)) && Rooted(g, st.(queue := rest))
  {
  }

  lemma BoundedNext(g: World, st: Search, e: Elem, rest: seq<Elem>, offers: seq<Elem>)
    requires Bounded(g, st) && Pops(st, e, rest)
    requires forall f :: f in offers ==> g.Inside(f.pos)
    ensures Bounded(g, Search(rest + offers, st.settled + [e]))
  {
  }

  // ----- whole searches

  function Squares(g: World): set<Vec2> {
    set x, y | 0 <= x < g.width && 0 <= y < g.height :: Vec2(x, y)
  }

  /** The sites that can still settle. */
  ghost function Unsettled(g: World, settled: seq<Elem>): set<Vec2> {
    Squares(g) - Owned(settled)
  }

  lemma StepShrinks(g: World, pick: seq<Elem> -> nat, st: Search)
    requires g.Valid() && GoodRule(pick) && Inv(g, st) && st.queue != []
    ensures var st' := Step(g, pick, st);
            |Unsettled(g, st'.settled)| < |Unsettled(g, st.settled)| || (st'.settled == st.settled && |st'.queue| < |st.queue|)
  {
    hide Offers;
    PickPops(pick, st);
    var e := st.queue[pick(st.queue)];
    if e.pos !in Owned(st.settled) {
      var settled := st.settled + [e];
      assert Owned(settled) == Owned(st.settled) + {e.pos};
      assert e.pos in Squares(g);
      assert Unsettled(g, settled) == Unsettled(g, st.settled) - {e.pos};
    }
  }

  ghost function Run(g: World, pick: seq<Elem> -> nat, st: Search): (r: Search)
    requires g.Valid() && GoodRule(pick) && Inv(g, st)
    ensures Inv(g, r) && r.queue == []
    decreases |Unsettled(g, st.settled)|, |st.queue|
  {
    if st.queue == [] then st
    else
      StepInv(g, pick, st);
      StepShrinks(g, pick, st);
      Run(g, pick, Step(g, pick, st))
  }

  // ----- the sources, in the order in which they are pushed

  function RowSources(g: World, x: nat): seq<Elem>
    requires x <= g.width
    decreases g.width - x
  {
    if x == g.width then []
    else [Elem(Vec2(x, 0), 0.0, BORDER), Elem(Vec2(x, g.height - 1), 0.0, BORDER)] + RowSources(g, x + 1)
  }

  function ColumnSources(g: World, y: nat): seq<Elem>
    requires y <= g.height
    decreases g.height - y
  {
    if y == g.height then []
    else [Elem(Vec2(0, y), 0.0, BORDER), Elem(Vec2(g.width - 1, y), 0.0, BORDER)] + ColumnSources(g, y + 1)
  }

  /** The fortified sites of column x, from row y on. */
  function SitesOfColumn(g: World, x: nat, y: nat): seq<Elem>
    requires g.Valid() && x < g.width && y <= g.height
    decreases g.height - y
  {
    if y == g.height then []
    else (if g.Fortified(Vec2(x, y)) then [Elem(Vec2(x, y), 0.0, Vec2(x, y))] else []) + SitesOfColumn(g, x, y + 1)
  }

  function SiteSources(g: World, x: nat): seq<Elem>
    requires g.Valid() && x <= g.width
    decreases g.width - x
  {
    if x == g.width then [] else SitesOfColumn(g, x, 0) + SiteSources(g, x + 1)
  }

  function Start(g: World): Search
    requires g.Valid()
  {
    Search(RowSources(g, 0) + ColumnSources(g, 0) + SiteSources(g, 0), [])
  }

  lemma {:induction false} RowSourcesAre(g: World, x: nat, e: Elem)
    requires x <= g.width
    ensures e in RowSources(g, x) <==>
              x <= e.pos.x < g.width && (e.pos.y == 0 || e.pos.y == g.height - 1) && e.dist == 0.0 && e.owner == BORDER
    decreases g.width - x
  {
    if x < g.width { RowSourcesAre(g, x + 1, e); }
  }

  lemma {:induction false} ColumnSourcesAre(g: World, y: nat, e: Elem)
    requires y <= g.height
    ensures e in ColumnSources(g, y) <==>
              y <= e.pos.y < g.height && (e.pos.x == 0 || e.pos.x == g.width - 1) && e.dist == 0.0 && e.owner == BORDER
    decreases g.height - y
  {
    if y < g.height { ColumnSourcesAre(g, y + 1, e); }
  }

  lemma {:induction false} SitesOfColumnAre(g: World, x: nat, y: nat, e: Elem)
    requires g.Valid() && x < g.width && y <= g.height
    ensures e in SitesOfColumn(g, x, y) <==>
              e.pos.x == x && y <= e.pos.y < g.height && g.Fortified(e.pos) && e.dist == 0.0 && e.owner == e.pos
    decreases g.height - y
  {
    if y < g.height { SitesOfColumnAre(g, x, y + 1, e); }
  }

  lemma {:induction false} SiteSourcesAre(g: World, x: nat, e: Elem)
    requires g.Valid() && x <= g.width
    ensures e in SiteSources(g, x) <==>
              x <= e.pos.x && g.Inside(e.pos) && g.Fortified(e.pos) && e.dist == 0.0 && e.owner == e.pos
    decreases g.width - x
  {
    if x < g.width {
      SitesOfColumnAre(g, x, 0, e);
      SiteSourcesAre(g, x + 1, e);
    }
  }

  lemma StartInv(g: World)
    requires g.Valid()
    ensures Inv(g, Start(g))
    ensures forall e :: e in Start(g).queue <==> IsSource(g, e)
  {
    forall e: Elem
      ensures e in Start(g).queue <==> IsSource(g, e)
    {
      RowSourcesAre(g, 0, e);
      ColumnSourcesAre(g, 0, e);
      SiteSourcesAre(g, 0, e);
    }
  }

  /** The log of the whole search. */
  ghost function Log(g: World, pick: seq<Elem> -> nat): (log: seq<Elem>)
    requires g.Valid() && GoodRule(pick)
    ensures Inv(g, Search([], log))
  {
    StartInv(g);
    Run(g, pick, Start(g)).settled
  }

  // ----- shortest paths

  /** Each site of the sequence can be entered from the one before. */
  ghost predicate Steps(g: World, p: seq<Vec2>)
    requires g.Valid()
  {
    forall i :: 0 < i < |p| ==> Enters(g, p[i - 1], p[i])
  }

  /** A path of sites that starts in a source and steps onto unblocked neighbours. */
  ghost predicate Path(g: World, p: seq<Vec2>)
    requires g.Valid()
  {
    |p| >= 1 && (exists e :: IsSource(g, e) && e.pos == p[0]) && Steps(g, p)
  }

  ghost function Cost(g: World, p: seq<Vec2>): real
    requires g.Valid() && |p| >= 1 && Steps(g, p)
  {
    if |p| == 1 then 0.0
    else
      assert Enters(g, p[|p| - 2], p[|p| - 1]);
      Cost(g, p[..|p| - 1]) + 3.0 * g.noise[p[|p| - 1]]
  }

  /** All sites of the path before the last have settled, those of the sentinel at a distance below 15. */
  ghost predicate Travelled(log: seq<Elem>, p: seq<Vec2>) {
    forall i :: 0 <= i < |p| - 1 ==> exists u :: u in log && u.pos == p[i] && (u.owner != BORDER || u.dist < 15.0)
  }

  lemma PathPrefix(g: World, log: seq<Elem>, p: seq<Vec2>)
    requires g.Valid() && Path(g, p) && Travelled(log, p) && |p| > 1
    ensures var q, v := p[..|p| - 1], p[|p| - 1];
            && Path(g, q) && Travelled(log, q) && Enters(g, q[|q| - 1], v)
            && Cost(g, p) == Cost(g, q) + g.Weight(v)
            && exists u :: u in log && u.pos == q[|q| - 1] && Expands(u)
  {
  }

  lemma PathExtends(g: World, log: seq<Elem>, q: seq<Vec2>, u: Elem, v: Vec2)
    requires g.Valid() && Path(g, q) && Travelled(log, q)
    requires u in log && u.pos == q[|q| - 1] && Expands(u) && Enters(g, u.pos, v)
    ensures var p := q + [v]; Path(g, p) && Travelled(log, p) && Cost(g, p) == Cost(g, q) + g.Weight(v)
  {
    var p := q + [v];
    assert p[..|p| - 1] == q;
    assert p[0] == q[0];
    forall k | 0 < k < |p|
      ensures Enters(g, p[k - 1], p[k])
    {
      if k < |q| { assert p[k - 1] == q[k - 1] && p[k] == q[k]; }
    }
    forall k | 0 <= k < |p| - 1
      ensures exists u :: u in log && u.pos == p[k] && Expands(u)
    {
      if k < |q| - 1 { assert p[k] == q[k]; }
    }
  }

  lemma SettledOnce(log: seq<Elem>, u: Elem, u': Elem)
    requires Ordered(Search([], log)) && u in log && u' in log && u.pos == u'.pos
    ensures u == u'
  {
  }

  /** No path over expanding sites beats the distance of the search. */
  lemma {:induction false} NoShorterPath(g: World, log: seq<Elem>, p: seq<Vec2>)
    requires g.Valid() && Inv(g, Search([], log))
    requires Path(g, p) && Travelled(log, p)
    ensures exists u :: u in log && u.pos == p[|p| - 1] && u.dist <= Cost(g, p)
    decreases |p|
  {
    hide Ordered, Bounded, Rooted, Travelled;
    if |p| == 1 {
      var e :| IsSource(g, e) && e.pos == p[0];
      assert Offered(g, log, e);
    } else {
      hide Path, Cost;
      var q, v := p[..|p| - 1], p[|p| - 1];
      PathPrefix(g, log, p);
      NoShorterPath(g, log, q);
      var u :| u in log && u.pos == q[|q| - 1] && u.dist <= Cost(g, q);
      var u' :| u' in log && u'.pos == q[|q| - 1] && Expands(u');
      SettledOnce(log, u, u');
      var e := Elem(v, u.dist + g.Weight(v), u.owner);
      assert Feeds(g, u, e);
      assert Offered(g, log, e);
    }
  }

  /** Every settled distance is the cost of a path inside the territory of its owner. */
  lemma {:induction false} PathOf(g: World, log: seq<Elem>, i: nat) returns (p: seq<Vec2>)
    requires g.Valid() && Inv(g, Search([], log)) && i < |log|
    ensures Path(g, p) && Travelled(log, p) && p[|p| - 1] == log[i].pos && Cost(g, p) == log[i].dist
    ensures forall v :: v in p ==> exists u :: u in log && u.pos == v && u.owner == log[i].owner
    ensures IsSource(g, Elem(p[0], 0.0, log[i].owner))
  {
    hide Ordered, Bounded, Covered;
    var e := log[i];
    assert Offered(g, log[..i], e);
    if IsSource(g, e) {
      p := [e.pos];
      assert e == Elem(p[0], 0.0, e.owner);
    } else {
      hide Path, Travelled, Cost, Enters;
      var u :| u in log[..i] && Feeds(g, u, e);
      var j :| 0 <= j < i && log[j] == u;
      var q := PathOf(g, log, j);
      PathExtends(g, log, q, u, e.pos);
      p := q + [e.pos];
      PathLength(g, q);
    }
  }

  lemma PathLength(g: World, p: seq<Vec2>)
    requires g.Valid() && Path(g, p)
    ensures |p| >= 1 && Steps(g, p)
  {
  }
}
