/** The per-square cache of tile lists, as a state machine and as the class that keeps it. */
module FieldOfViewCache {
  import opened Grid
  import opened Beam
  import opened Sight
  import opened VisibilityTable
  import opened Coherence

  // ----- the state machine

  datatype State = State(blocking: map<Vec2, bool>, cache: map<Vec2, seq<Vec2>>)

  /** The list for one square is computed when it is first asked for. */
  ghost function Asked(bounds: Rectangle, st: State, from: Vec2): State {
    if from in st.cache then st else st.(cache := st.cache[from := Tiles(bounds, st.blocking, from)])
  }

  /** A changed square drops the lists that show it, its own among them. */
  ghost function Changed(bounds: Rectangle, st: State, pos: Vec2, seeThru: bool): State {
    var st' := Asked(bounds, st.(blocking := st.blocking[pos := !seeThru]), pos);
    st'.(cache := map v | v in st'.cache && pos !in st'.cache[v] :: st'.cache[v])
  }

  ghost predicate Cached(bounds: Rectangle, st: State) {
    && Bordered(bounds, st.blocking)
    && forall v :: v in st.cache ==> bounds.Contains(v)
  }

  /** Every cached list is what a fresh computation would give. */
  ghost predicate Coherent(bounds: Rectangle, st: State) {
    forall v :: v in st.cache ==> st.cache[v] == Tiles(bounds, st.blocking, v)
  }

  datatype Request = Ask(from: Vec2) | Change(pos: Vec2, seeThru: bool)

  ghost function Apply(bounds: Rectangle, st: State, r: Request): State {
    match r
    case Ask(from) => Asked(bounds, st, from)
    case Change(pos, seeThru) => Changed(bounds, st, pos, seeThru)
  }

  ghost function Run(bounds: Rectangle, st: State, rs: seq<Request>): State
    decreases |rs|
  {
    if rs == [] then st else Run(bounds, Apply(bounds, st, rs[0]), rs[1..])
  }

  /** If the request changes what can be seen through a square, no list is kept for which a beam enters a row
      through that square. */
  ghost predicate NoBlindEntry(st: State, r: Request) {
    r.Change? && BlocksAt(st.blocking, r.pos) == r.seeThru ==>
      forall v :: v in st.cache && InDisc(r.pos.Minus(v)) && Entered(st.blocking, v, r.pos) ==> r.pos in st.cache[v]
  }

  ghost predicate NoBlindEntries(bounds: Rectangle, st: State, rs: seq<Request>)
    decreases |rs|
  {
    rs != [] ==> NoBlindEntry(st, rs[0]) && NoBlindEntries(bounds, Apply(bounds, st, rs[0]), rs[1..])
  }

  predicate InLevel(bounds: Rectangle, r: Request) {
    bounds.Contains(if r.Ask? then r.from else r.pos)
  }

  /** One request keeps the cache coherent. */
  lemma StepCoherent(bounds: Rectangle, st: State, r: Request)
    requires Cached(bounds, st) && InLevel(bounds, r) && Coherent(bounds, st) && NoBlindEntry(st, r)
    ensures Cached(bounds, Apply(bounds, st, r)) && Coherent(bounds, Apply(bounds, st, r))
  {
    hide Tiles, Entered, InDisc;
    if r.Change? {
      var st' := Apply(bounds, st, r);
      forall v | v in st'.cache
        ensures st'.cache[v] == Tiles(bounds, st'.blocking, v)
      {
        if v in st.cache { KeptIsFresh(bounds, st.blocking, st'.blocking, v, r.pos); }
      }
    }
  }

  /** Over every run without blind entries the cache stays coherent. */
  lemma {:induction false} RunCoherent(bounds: Rectangle, st: State, rs: seq<Request>)
    requires Cached(bounds, st) && Coherent(bounds, st)
    requires forall r :: r in rs ==> InLevel(bounds, r)
    requires NoBlindEntries(bounds, st, rs)
    ensures Cached(bounds, Run(bounds, st, rs)) && Coherent(bounds, Run(bounds, st, rs))
    decreases |rs|
  {
    if rs != [] {
      assert rs[0] in rs;
      StepCoherent(bounds, st, rs[0]);
      RunCoherent(bounds, Apply(bounds, st, rs[0]), rs[1..]);
    }
  }

  /** Changing other squares, and asking, leaves the table as it is at v. */
  lemma {:induction false} RunElsewhere(bounds: Rectangle, st: State, rs: seq<Request>, v: Vec2)
    requires forall r :: r in rs && r.Change? ==> r.pos != v
    ensures BlocksAt(Run(bounds, st, rs).blocking, v) <==> BlocksAt(st.blocking, v)
    decreases |rs|
  {
    hide Tiles;
    if rs != [] {
      assert rs[0] in rs;
      RunElsewhere(bounds, Apply(bounds, st, rs[0]), rs[1..], v);
    }
  }

  /** After every run a square blocks exactly as it was last reported. */
  lemma {:induction false} LastReport(bounds: Rectangle, st: State, rs: seq<Request>, j: nat)
    requires j < |rs| && rs[j].Change? && forall l :: j < l < |rs| && rs[l].Change? ==> rs[l].pos != rs[j].pos
    ensures BlocksAt(Run(bounds, st, rs).blocking, rs[j].pos) <==> !rs[j].seeThru
    decreases |rs|
  {
    hide Tiles;
    if j == 0 {
      RunElsewhere(bounds, Apply(bounds, st, rs[0]), rs[1..], rs[0].pos);
    } else {
      LastReport(bounds, Apply(bounds, st, rs[0]), rs[1..], j - 1);
    }
  }

  // ----- the class

  class FieldOfView {
    const bounds: Rectangle
    var blocking: map<Vec2, bool>
    var visibility: map<Vec2, Visibility>

    ghost predicate Valid()
      reads this, visibility.Values, set v | v in visibility :: visibility[v].visible
    {
      && Bordered(bounds, blocking)
      && forall v :: v in visibility ==>
           bounds.Contains(v) && visibility[v].Valid() && visibility[v].Origin() == v
    }

    ghost function Abstract(): State
      reads this, visibility.Values
    {
      State(blocking, map v | v in visibility :: visibility[v].visibleTiles)
    }

    /** seeThru: the squares of the level that can be seen through; nothing outside the level can. */
    constructor (bounds: Rectangle, seeThru: set<Vec2>)
      requires bounds.left < bounds.right && bounds.top < bounds.bottom
      ensures Valid() && this.bounds == bounds
      ensures Abstract().cache == map[]
      ensures forall v :: v in blocking ==> (blocking[v] <==> !(bounds.Contains(v) && v in seeThru))
    {
      var wide := bounds.MinusMargin(-1);
      var table: map<Vec2, bool> := map v | v in wide.Squares() :: true;
      for x := wide.left to wide.right
        invariant forall v :: v in table <==> wide.Contains(v)
        invariant forall v :: v in table ==> (table[v] <==> v.x >= x || !(bounds.Contains(v) && v in seeThru))
      {
        for y := wide.top to wide.bottom
          invariant forall v :: v in table <==> wide.Contains(v)
          invariant forall v :: v in table ==>
                      (table[v] <==> v.x > x || (v.x == x && v.y >= y) || !(bounds.Contains(v) && v in seeThru))
        {
          var v := Vec2(x, y);
          table := table[v := !(bounds.Contains(v) && v in seeThru)];
        }
      }
      this.bounds, blocking, visibility := bounds, table, map[];
    }

    /** The list for from is there afterwards. */
    method Compute(from: Vec2)
      requires Valid() && bounds.Contains(from)
      modifies this`visibility
      ensures Valid() && from in visibility
      ensures Abstract() == Asked(bounds, old(Abstract()), from)
      ensures forall v :: v in old(visibility) ==> v in visibility && visibility[v] == old(visibility[v])
    {
      hide Bordered, Tiles, Visibility.Valid;
      ghost var before := Abstract();
      if from !in visibility {
        var vis := new Visibility(bounds, blocking, from.x, from.y);
        visibility := visibility[from := vis];
        assert Abstract().cache == before.cache[from := vis.visibleTiles];
      }
    }

    method CanSee(from: Vec2, to: Vec2) returns (r: bool)
      requires Valid() && bounds.Contains(from)
      modifies this`visibility
      ensures Valid()
      ensures Abstract() == if InDisc(from.Minus(to)) then Asked(bounds, old(Abstract()), from) else old(Abstract())
      ensures r <==> InDisc(from.Minus(to)) && to in Asked(bounds, old(Abstract()), from).cache[from]
    {
      var d := from.Minus(to);
      if d.x * d.x + d.y * d.y > SIGHT_RANGE * SIGHT_RANGE { return false; }
      Compute(from);
      DiscBound(d);
      r := visibility[from].CheckVisible(to.x - from.x, to.y - from.y);
    }

    method GetVisibleTiles(from: Vec2) returns (tiles: seq<Vec2>)
      requires Valid() && bounds.Contains(from)
      modifies this`visibility
      ensures Valid()
      ensures Abstract() == Asked(bounds, old(Abstract()), from) && tiles == Abstract().cache[from]
    {
      Compute(from);
      tiles := visibility[from].visibleTiles;
    }

    /** The squares whose cached list shows pos. */
    ghost function Showing(pos: Vec2): (r: set<Vec2>)
      requires Valid()
      reads this, visibility.Values, set v | v in visibility :: visibility[v].visible
      ensures forall v :: v in r <==> v in visibility && visibility[v].CheckVisible(pos.x - v.x, pos.y - v.y)
      ensures forall v :: v in r <==> v in visibility && pos in visibility[v].visibleTiles
      ensures forall v :: v in r ==> Dist8(v, pos) <= SIGHT_RANGE
    {
      forall v | v in visibility && pos in visibility[v].visibleTiles
        ensures Abs(pos.x - v.x) <= SIGHT_RANGE && Abs(pos.y - v.y) <= SIGHT_RANGE
      {
        DiscBound(pos.Minus(v));
      }
      set v | v in visibility && pos in visibility[v].visibleTiles
    }

    /** The invalidation loop over the square of the sight range drops every list that shows pos. */
    method DropShowing(pos: Vec2)
      requires Valid()
      modifies this`visibility
      ensures visibility == old(visibility) - old(Showing(pos))
      ensures Valid()
    {
      hide Before, Earlier, Bordered, Visibility.Valid;
      var kept := visibility;
      ghost var showing := Showing(pos);
      BeforeNone(showing, pos);
      for x := pos.x - SIGHT_RANGE to pos.x + SIGHT_RANGE + 1
        invariant kept == visibility - Before(showing, pos, x, pos.y - SIGHT_RANGE)
        modifies {}
      {
        for y := pos.y - SIGHT_RANGE to pos.y + SIGHT_RANGE + 1
          invariant kept == visibility - Before(showing, pos, x, y)
          modifies {}
        {
          var v := Vec2(x, y);
          BeforeNext(showing, pos, x, y);
          if bounds.Contains(v) && v in kept {
            assert v in visibility && kept[v] == visibility[v];
            if kept[v].CheckVisible(pos.x - x, pos.y - y) {
              DropOne(visibility, Before(showing, pos, x, y), v);
              kept := kept - {v};
            }
          }
        }
        BeforeRow(showing, pos, x);
      }
      BeforeAll(showing, pos);
      visibility := kept;
    }

    method SetBlocking(pos: Vec2, value: bool)
      requires Valid() && bounds.Contains(pos)
      modifies this`blocking
      ensures Valid() && Abstract() == old(Abstract()).(blocking := old(blocking)[pos := value])
    {
      hide Visibility.Valid;
      blocking := blocking[pos := value];
    }

    method SquareChanged(pos: Vec2, seeThru: bool)
      requires Valid() && bounds.Contains(pos)
      modifies this`blocking, this`visibility
      ensures Valid() && Abstract() == Changed(bounds, old(Abstract()), pos, seeThru)
    {
      hide Asked, Visibility.Valid, Bordered, Abs;
      SetBlocking(pos, !seeThru);
      Compute(pos);
      ghost var st := Abstract();
      DropShowing(pos);
      assert Abstract().cache == map v | v in st.cache && pos !in st.cache[v] :: st.cache[v];
    }
  }

  lemma DropOne<K, V>(m: map<K, V>, s: set<K>, k: K)
    ensures (m - s) - {k} == m - (s + {k})
  {
  }

  // ----- the order in which the loop visits the square around pos

  predicate Earlier(v: Vec2, pos: Vec2, x: int, y: int) {
    Dist8(v, pos) <= SIGHT_RANGE && (v.x < x || (v.x == x && v.y < y))
  }

  ghost function Before(showing: set<Vec2>, pos: Vec2, x: int, y: int): set<Vec2> {
    set v | v in showing && Earlier(v, pos, x, y)
  }

  lemma BeforeNone(showing: set<Vec2>, pos: Vec2)
    ensures Before(showing, pos, pos.x - SIGHT_RANGE, pos.y - SIGHT_RANGE) == {}
  {
  }

  lemma BeforeNext(showing: set<Vec2>, pos: Vec2, x: int, y: int)
    requires Dist8(Vec2(x, y), pos) <= SIGHT_RANGE
    ensures Before(showing, pos, x, y + 1) == Before(showing, pos, x, y) + ({Vec2(x, y)} * showing)
  {
  }

  lemma BeforeRow(showing: set<Vec2>, pos: Vec2, x: int)
    ensures Before(showing, pos, x, pos.y + SIGHT_RANGE + 1) == Before(showing, pos, x + 1, pos.y - SIGHT_RANGE)
  {
  }

  lemma BeforeAll(showing: set<Vec2>, pos: Vec2)
    requires forall v :: v in showing ==> Dist8(v, pos) <= SIGHT_RANGE
    ensures Before(showing, pos, pos.x + SIGHT_RANGE + 1, pos.y - SIGHT_RANGE) == showing
  {
  }
}
