/** Placing villains on the campaign map: dealt out in turn, and kept apart by blocking the squares around them. */
module VillainPlacement {
  import opened Arithmetic
  import opened Collections
  import opened Grid

  const MAP_MARGIN := 10
  const APART := 5

  datatype Villain = Villain(name: nat, alwaysPresent: bool, biome: Option<nat>)

  /** start <= d < finish. */
  datatype Range = Range(start: int, finish: int) {
    /** Holds the square root of n, rounded down. */
    predicate ContainsRoot(n: nat) {
      (start <= 0 || start * start <= n) && finish > 0 && n < finish * finish
    }
  }

  function Length2(v: Vec2): nat {
    Square(v.x);
    Square(v.y);
    v.x * v.x + v.y * v.y
  }

  lemma Square(x: int)
    ensures x * x >= 0
  {
  }

  /** The fixed part of the map. */
  datatype Map = Map(bounds: Rectangle, playerPos: Vec2, blocked: set<Vec2>, biome: map<Vec2, nat>)

  // ----- dealing out

  /** count villains, taken from the list in turn, over and over. */
  function Dealt(villains: seq<Villain>, count: nat): seq<Villain> {
    if villains == [] then [] else seq(count, i requires 0 <= i => villains[i % |villains|])
  }

  /** Dealing one more. */
  lemma DealtNext(villains: seq<Villain>, count: nat, q: nat, r: nat)
    requires villains != [] && Turns(count, q, r, |villains|)
    ensures r < |villains| && Dealt(villains, count + 1) == Dealt(villains, count) + [villains[r]]
  {
    QuotientOf(count, q, r, |villains|);
  }

  function Copies(s: seq<Villain>, q: nat): seq<Villain> {
    if q == 0 then [] else Copies(s, q - 1) + s
  }

  lemma OneMore(villains: seq<Villain>, q: nat, r: nat)
    requires r < |villains|
    ensures Copies(villains, q) + villains[..r] + [villains[r]] ==
            if r + 1 < |villains| then Copies(villains, q) + villains[..r + 1] else Copies(villains, q + 1) + villains[..0]
  {
    assert villains[..r + 1] == villains[..r] + [villains[r]];
    if r + 1 == |villains| { assert villains[..r + 1] == villains; }
  }

  lemma NothingDealt(villains: seq<Villain>)
    ensures Dealt(villains, 0) == Copies(villains, 0) + villains[..0]
  {
  }

  /** What is dealt is the whole list as often as it fits, and its beginning. */
  lemma {:induction false} DealtTurns(villains: seq<Villain>, count: nat, q: nat, r: nat)
    requires villains != [] && Turns(count, q, r, |villains|)
    ensures r < |villains| && Dealt(villains, count) == Copies(villains, q) + villains[..r]
    decreases count
  {
    hide *;
    var n := |villains|;
    if count == 0 {
      NoTurns(q, r, n);
      NothingDealt(villains);
    } else {
      TurnsBefore(count, q, r, n);
      if r > 0 {
        DealtNext(villains, count - 1, q, r - 1);
        DealtTurns(villains, count - 1, q, r - 1);
        OneMore(villains, q, r - 1);
      } else {
        DealtNext(villains, count - 1, q - 1, n - 1);
        DealtTurns(villains, count - 1, q - 1, n - 1);
        OneMore(villains, q - 1, n - 1);
      }
    }
  }

  lemma DealtIs(villains: seq<Villain>, count: nat)
    requires villains != []
    ensures Dealt(villains, count) == Copies(villains, count / |villains|) + villains[..count % |villains|]
  {
    TurnsOf(count, |villains|);
    DealtTurns(villains, count, count / |villains|, count % |villains|);
  }

  lemma {:induction false} CopiesHave(s: seq<Villain>, q: nat, v: Villain)
    ensures multiset(Copies(s, q))[v] == q * multiset(s)[v]
  {
    if q > 0 {
      CopiesHave(s, q - 1, v);
      OneMoreTurn(q - 1, multiset(s)[v]);
    }
  }

  lemma OneMoreTurn(q: nat, m: nat)
    ensures (q + 1) * m == q * m + m
  {
  }

  /** A villain is dealt with each full turn as often as it is listed, and once more for each place in the last turn. */
  lemma DealtEvenly(villains: seq<Villain>, count: nat, v: Villain)
    requires villains != []
    ensures multiset(Dealt(villains, count))[v]
            == count / |villains| * multiset(villains)[v] + multiset(villains[..count % |villains|])[v]
  {
    DealtIs(villains, count);
    CopiesHave(villains, count / |villains|, v);
    hide Dealt, Copies;
  }

  /** Of different villains every one is dealt as often as any other, or once more. */
  lemma UsesEven(villains: seq<Villain>, count: nat, j: nat)
    requires Distinct(villains) && j < |villains|
    ensures multiset(Dealt(villains, count))[villains[j]]
            == count / |villains| + if j < count % |villains| then 1 else 0
  {
    DealtIs(villains, count);
    EvenAt(villains, count / |villains|, count % |villains|, j);
    hide Dealt, Copies;
  }

  lemma EvenAt(villains: seq<Villain>, q: nat, r: nat, j: nat)
    requires Distinct(villains) && j < |villains| && r <= |villains|
    ensures multiset(Copies(villains, q) + villains[..r])[villains[j]] == q + if j < r then 1 else 0
  {
    CopiesHave(villains, q, villains[j]);
    hide Copies;
    Occurs(villains, |villains|, j);
    Occurs(villains, r, j);
    assert villains[..|villains|] == villains;
  }

  lemma PrefixNext(villains: seq<Villain>, r: nat, v: Villain)
    requires r < |villains|
    ensures multiset(villains[..r + 1])[v] == multiset(villains[..r])[v] + if villains[r] == v then 1 else 0
  {
    assert villains[..r + 1] == villains[..r] + [villains[r]];
  }

  lemma {:induction false} Occurs(villains: seq<Villain>, r: nat, j: nat)
    requires Distinct(villains) && j < |villains| && r <= |villains|
    ensures multiset(villains[..r])[villains[j]] == if j < r then 1 else 0
  {
    if r > 0 {
      Occurs(villains, r - 1, j);
      PrefixNext(villains, r - 1, villains[j]);
    }
  }

  lemma FrontIsDealt(villains: seq<Villain>, count: nat, k: nat)
    requires k < |villains| && k < count
    ensures villains[k] in Dealt(villains, count)
  {
    QuotientIs(0, k, |villains|);
    assert Dealt(villains, count)[k] == villains[k];
  }

  predicate AlwaysFirst(villains: seq<Villain>, n: nat) {
    n <= |villains| && forall i :: 0 <= i < |villains| ==> (villains[i].alwaysPresent <==> i < n)
  }

  /** What must be present is dealt whenever there are at least as many places as such villains. */
  lemma AlwaysDealt(villains: seq<Villain>, n: nat, count: nat, v: Villain)
    requires AlwaysFirst(villains, n) && n <= count && v in villains && v.alwaysPresent
    ensures v in Dealt(villains, count)
  {
    var i :| 0 <= i < |villains| && villains[i] == v;
    FrontIsDealt(villains, count, i);
  }

  ghost predicate Shuffles(f: seq<Villain> -> seq<Villain>) {
    forall s :: multiset(f(s)) == multiset(s)
  }

  lemma SwapMultiset(v: seq<Villain>, i: nat, j: nat)
    requires i <= j < |v|
    ensures multiset(v[i := v[j]][j := v[i]]) == multiset(v)
  {
  }

  /** Random order at the end of the list. */
  lemma TailShuffled(v: seq<Villain>, n: nat, tail: seq<Villain>)
    requires AlwaysFirst(v, n) && multiset(tail) == multiset(v[n..])
    ensures multiset(v[..n] + tail) == multiset(v) && AlwaysFirst(v[..n] + tail, n)
  {
    assert v == v[..n] + v[n..];
    assert |tail| == |multiset(tail)| == |v[n..]|;
    forall b | b in tail
      ensures !b.alwaysPresent
    {
      assert b in multiset(tail) && b in multiset(v[n..]) && b in v[n..];
    }
  }

  /** What must be present is swapped to the front; the rest is put into random order. */
  method Shuffle(v0: seq<Villain>, random: seq<Villain> -> seq<Villain>) returns (v: seq<Villain>, n: nat)
    requires Shuffles(random)
    ensures multiset(v) == multiset(v0) && AlwaysFirst(v, n)
  {
    v, n := v0, 0;
    for i := 0 to |v0|
      invariant |v| == |v0| && multiset(v) == multiset(v0) && n <= i
      invariant forall k :: 0 <= k < i ==> (v[k].alwaysPresent <==> k < n)
    {
      if v[i].alwaysPresent {
        SwapMultiset(v, n, i);
        v := v[n := v[i]][i := v[n]];
        n := n + 1;
      }
    }
    TailShuffled(v, n, random(v[n..]));
    v := v[..n] + random(v[n..]);
  }

  /** The loop that repeats the list, and the cut. */
  method Deal(villains: seq<Villain>, count: nat) returns (r: seq<Villain>)
    requires villains != []
    ensures r == Dealt(villains, count)
  {
    r := villains;
    var i := 0;
    forall k | 0 <= k < |villains|
      ensures k % |villains| == k
    {
      QuotientIs(0, k, |villains|);
    }
    while |r| < count
      invariant |r| == |villains| + i
      invariant forall k :: 0 <= k < |r| ==> r[k] == villains[k % |villains|]
    {
      ModTurn(i, |villains|);
      r := r + [r[i]];
      i := i + 1;
    }
    if |r| > count {
      r := r[..count];
    }
  }

  // ----- placing

  predicate Suits(m: Map, playerDist: Range, v: Villain, p: Vec2) {
    && m.bounds.MinusMargin(MAP_MARGIN).Contains(p)
    && playerDist.ContainsRoot(Length2(p.Minus(m.playerPos)))
    && p in m.biome && (v.biome.Some? ==> m.biome[p] == v.biome.value)
  }

  /** Too close for two villains. */
  predicate Close(p: Vec2, q: Vec2) {
    Dist8(p, q) <= APART
  }

  ghost predicate Covered(m: Map, blocked: set<Vec2>, p: Vec2) {
    forall w :: m.bounds.Contains(w) && Close(p, w) ==> w in blocked
  }

  /** Blocked from the start, or too close to the player or to a villain. */
  ghost predicate Taken(m: Map, placed: set<Vec2>, p: Vec2) {
    p in m.blocked || Close(m.playerPos, p) || exists q :: q in placed && Close(q, p)
  }

  /** Land on the map, off its margin, that was free at first. */
  predicate Site(m: Map, p: Vec2) {
    m.bounds.MinusMargin(MAP_MARGIN).Contains(p) && p in m.biome && p !in m.blocked
  }

  /** The squares used so far are sites, far from each other and from the player; and everything near them is blocked. */
  ghost predicate Spaced(m: Map, blocked: set<Vec2>, placed: set<Vec2>) {
    && (forall p :: p in placed ==> Site(m, p) && !Close(m.playerPos, p) && Covered(m, blocked, p))
    && (forall p, q :: p in placed && q in placed && p != q ==> !Close(p, q))
    && Covered(m, blocked, m.playerPos)
    && (forall w :: m.bounds.Contains(w) && w in m.blocked ==> w in blocked)
    && (forall w :: w in blocked ==> Taken(m, placed, w))
  }

  lemma SpacedNext(m: Map, blocked: set<Vec2>, blocked': set<Vec2>, placed: set<Vec2>, p: Vec2)
    requires Spaced(m, blocked, placed) && blocked <= blocked' && Covered(m, blocked', p)
    requires forall w :: w in blocked' ==> w in blocked || Close(p, w)
    requires m.bounds.Contains(p) && m.bounds.MinusMargin(MAP_MARGIN).Contains(p) && p in m.biome && p !in blocked
    ensures Spaced(m, blocked', placed + {p}) && p !in placed
  {
  }

  /** Every square that suits the villain is taken. */
  ghost predicate NoRoom(m: Map, placed: set<Vec2>, v: Villain, playerDist: Range) {
    forall p :: Suits(m, playerDist, v, p) ==> Taken(m, placed, p)
  }

  /** The squares that a list of villains went to, in order. */
  ghost predicate Settled(m: Map, playerDist: Range, villains: seq<Villain>, spots: seq<Vec2>, before: map<Vec2, Villain>,
                          after: map<Vec2, Villain>) {
    && |spots| <= |villains|
    && (forall i :: 0 <= i < |spots| ==> Suits(m, playerDist, villains[i], spots[i]))
    && (forall i :: 0 <= i < |spots| ==> spots[i] in after && after[spots[i]] == villains[i])
    && (forall p :: p !in spots ==> (p in after <==> p in before) && (p in after ==> after[p] == before[p]))
  }

  lemma SettledNext(m: Map, playerDist: Range, villains: seq<Villain>, spots: seq<Vec2>, before: map<Vec2, Villain>,
                    after: map<Vec2, Villain>, p: Vec2)
    requires Settled(m, playerDist, villains, spots, before, after) && Distinct(spots) && |spots| < |villains| && p !in spots
    requires Suits(m, playerDist, villains[|spots|], p)
    ensures Settled(m, playerDist, villains, spots + [p], before, after[p := villains[|spots|]]) && Distinct(spots + [p])
    ensures Elements(spots + [p]) == Elements(spots) + {p}
  {
  }

  // ----- all lists

  /** One list to be placed. */
  datatype Round = Round(villains: seq<Villain>, count: nat, playerDist: Range)

  datatype Counts = Counts(numMain: nat, numLesser: nat, numMinor: nat, numAllies: nat)

  /** The lists: main villains that need not be present, the others, and the end game list, which holds numAlways main
      villains that must be present and the retired ones. */
  datatype Lists = Lists(main: seq<Villain>, lesser: seq<Villain>, minor: seq<Villain>, allies: seq<Villain>,
                         endGame: seq<Villain>, numAlways: nat)

  /** Division in C++, towards zero. */
  function TruncHalf(a: int): int {
    if a >= 0 then a / 2 else -((-a) / 2)
  }

  const ANYWHERE := Range(0, 1000)

  /** The rounds, from lists in their final order. */
  function Plan(m: Map, c: Counts, l: Lists, initialRadius: int): seq<Round> {
    var start := [] + [Round(l.main, Max(0, c.numMain - l.numAlways), ANYWHERE)]
                 + [Round(l.lesser[..Min(3, |l.lesser|)], Min(3, c.numLesser), Range(1, initialRadius))];
    var lesser := if |l.lesser| > 3 && c.numLesser > 3
                  then start + [Round(l.lesser[3..], c.numLesser - 3, Range(initialRadius + 2, 1000))] else start;
    lesser + [Round(l.minor, c.numMinor, ANYWHERE)] + [Round(l.allies, c.numAllies, ANYWHERE)]
    + [Round(l.endGame, |l.endGame|, Range(TruncHalf(m.bounds.right - m.bounds.left - MAP_MARGIN) - 5, 1000))]
  }

  ghost predicate ShuffledList(v: seq<Villain>, v0: seq<Villain>) {
    multiset(v) == multiset(v0) && exists n :: AlwaysFirst(v, n)
  }

  ghost predicate ShuffledLists(l: Lists, l0: Lists) {
    && ShuffledList(l.main, l0.main) && ShuffledList(l.lesser, l0.lesser) && ShuffledList(l.minor, l0.minor)
    && ShuffledList(l.allies, l0.allies) && l.endGame == l0.endGame && l.numAlways == l0.numAlways
  }

  /** Everything dealt in the round is on the map, on suitable squares of its own. */
  ghost predicate Holds(m: Map, dweller: map<Vec2, Villain>, r: Round, spots: seq<Vec2>) {
    var dealt := Dealt(r.villains, r.count);
    && |spots| == |dealt| && Distinct(spots)
    && forall i :: 0 <= i < |spots| ==>
         Suits(m, r.playerDist, dealt[i], spots[i]) && spots[i] in dweller && dweller[spots[i]] == dealt[i]
  }

  /** The squares used are those of the groups, each in one of them. */
  ghost predicate Parted(placed: set<Vec2>, groups: seq<seq<Vec2>>) {
    && (forall k, l :: 0 <= k < l < |groups| ==> Elements(groups[k]) !! Elements(groups[l]))
    && (forall k :: 0 <= k < |groups| ==> Elements(groups[k]) <= placed)
    && (forall p :: p in placed ==> exists k :: 0 <= k < |groups| && p in groups[k])
  }

  /** After some rounds: the squares used are well spaced, nothing else has changed, and every round has its group of
      squares. */
  ghost predicate Books(m: Map, before: map<Vec2, Villain>, dweller: map<Vec2, Villain>, blocked: set<Vec2>,
                        placed: set<Vec2>, rounds: seq<Round>, groups: seq<seq<Vec2>>) {
    && Spaced(m, blocked, placed) && Untouched(before, dweller, placed)
    && Parted(placed, groups) && |groups| == |rounds|
    && (forall k :: 0 <= k < |rounds| ==> Holds(m, dweller, rounds[k], groups[k]))
  }

  ghost predicate Untouched(before: map<Vec2, Villain>, dweller: map<Vec2, Villain>, placed: set<Vec2>) {
    forall p :: p !in placed ==> (p in dweller <==> p in before) && (p in dweller ==> dweller[p] == before[p])
  }

  lemma HoldsStill(m: Map, d: map<Vec2, Villain>, d': map<Vec2, Villain>, placed: set<Vec2>, r: Round, group: seq<Vec2>,
                   spots: seq<Vec2>, playerDist: Range, dealt: seq<Villain>)
    requires Holds(m, d, r, group) && Elements(group) <= placed && Elements(spots) !! placed
    requires Settled(m, playerDist, dealt, spots, d, d')
    ensures Holds(m, d', r, group)
  {
    hide Suits, Dealt;
    forall i | 0 <= i < |group|
      ensures group[i] !in spots
    {
      assert group[i] in Elements(group);
      assert group[i] !in Elements(spots);
    }
  }

  lemma PartedNext(placed: set<Vec2>, groups: seq<seq<Vec2>>, spots: seq<Vec2>)
    requires Parted(placed, groups) && Elements(spots) !! placed
    ensures Parted(placed + Elements(spots), groups + [spots])
  {
    var groups' := groups + [spots];
    forall k, l | 0 <= k < l < |groups'|
      ensures Elements(groups'[k]) !! Elements(groups'[l])
    {
      assert Elements(groups[k]) <= placed;
    }
    forall p | p in placed + Elements(spots)
      ensures exists k :: 0 <= k < |groups'| && p in groups'[k]
    {
      if p in placed {
        var k :| 0 <= k < |groups| && p in groups[k];
        assert p in groups'[k];
      } else {
        assert p in groups'[|groups|];
      }
    }
    forall k | 0 <= k < |groups'|
      ensures Elements(groups'[k]) <= placed + Elements(spots)
    {
      if k < |groups| { assert Elements(groups[k]) <= placed; }
    }
  }

  lemma BooksNext(m: Map, before: map<Vec2, Villain>, d: map<Vec2, Villain>, d': map<Vec2, Villain>, blocked: set<Vec2>,
                  blocked': set<Vec2>, placed: set<Vec2>, rounds: seq<Round>, groups: seq<seq<Vec2>>, r: Round,
                  spots: seq<Vec2>)
    requires Books(m, before, d, blocked, placed, rounds, groups)
    requires Spaced(m, blocked', placed + Elements(spots)) && Distinct(spots) && Elements(spots) !! placed
    requires Settled(m, r.playerDist, Dealt(r.villains, r.count), spots, d, d') && |spots| == |Dealt(r.villains, r.count)|
    ensures Books(m, before, d', blocked', placed + Elements(spots), rounds + [r], groups + [spots])
  {
    hide Suits, Dealt, Spaced, Holds, Untouched, Distinct, Elements;
    StillUntouched(before, d, d', m, r.playerDist, Dealt(r.villains, r.count), spots, placed);
    PartedNext(placed, groups, spots);
    assert Holds(m, d', r, spots) by { SettledHolds(m, d, d', r, spots); }
    forall k | 0 <= k < |rounds|
      ensures Holds(m, d', rounds[k], groups[k])
    {
      HoldsStill(m, d, d', placed, rounds[k], groups[k], spots, r.playerDist, Dealt(r.villains, r.count));
    }
  }

  lemma SettledHolds(m: Map, d: map<Vec2, Villain>, d': map<Vec2, Villain>, r: Round, spots: seq<Vec2>)
    requires Distinct(spots) && |spots| == |Dealt(r.villains, r.count)|
    requires Settled(m, r.playerDist, Dealt(r.villains, r.count), spots, d, d')
    ensures Holds(m, d', r, spots)
  {
    hide Suits, Dealt;
  }

  lemma StartBooks(m: Map, dweller: map<Vec2, Villain>, around: set<Vec2>)
    requires Covered(m, around, m.playerPos) && forall w :: w in around ==> Close(m.playerPos, w)
    ensures Books(m, dweller, dweller, m.blocked + around, {}, [], [])
  {
  }

  lemma StillUntouched(before: map<Vec2, Villain>, d: map<Vec2, Villain>, d': map<Vec2, Villain>, m: Map, playerDist: Range,
                       dealt: seq<Villain>, spots: seq<Vec2>, placed: set<Vec2>)
    requires Untouched(before, d, placed) && Settled(m, playerDist, dealt, spots, d, d')
    ensures Untouched(before, d', placed + Elements(spots))
  {
  }

  // ----- what is on the map in the end

  /** The squares of each kind of villain. */
  datatype Groups = Groups(main: seq<Vec2>, near: seq<Vec2>, far: seq<Vec2>, minor: seq<Vec2>, allies: seq<Vec2>,
                           endGame: seq<Vec2>) {
    function All(): seq<Vec2> {
      main + near + far + minor + allies + endGame
    }
  }

  /** On the squares live villains of the list, in turn: as many as asked for, unless the list is empty. */
  ghost predicate Inhabited(m: Map, dweller: map<Vec2, Villain>, spots: seq<Vec2>, list: seq<Villain>, count: nat) {
    && |spots| == (if list == [] then 0 else count)
    && forall i :: 0 <= i < |spots| ==>
         && spots[i] in dweller && dweller[spots[i]] == list[i % |list|]
         && (dweller[spots[i]].biome.Some? ==>
               spots[i] in m.biome && m.biome[spots[i]] == dweller[spots[i]].biome.value)
  }

  /** The same, for the list in some order that has those that must be present in front. */
  ghost predicate InhabitedBy(m: Map, dweller: map<Vec2, Villain>, spots: seq<Vec2>, list: seq<Villain>, count: nat) {
    exists order :: ShuffledList(order, list) && Inhabited(m, dweller, spots, order, count)
  }

  /** At least this far from the player. */
  predicate AtLeastAway(m: Map, p: Vec2, d: nat) {
    Length2(p.Minus(m.playerPos)) >= d * d
  }

  /** At most three of the lesser villains live near, the others far from the player. */
  ghost predicate LesserBy(m: Map, dweller: map<Vec2, Villain>, near: seq<Vec2>, far: seq<Vec2>, list: seq<Villain>,
                           count: nat, radius: int) {
    && (exists order :: ShuffledList(order, list)
          && Inhabited(m, dweller, near, order[..Min(3, |order|)], Min(3, count))
          && Inhabited(m, dweller, far, order[Min(3, |order|)..], Max(0, count - 3)))
    && (forall p :: p in near ==> 1 <= Length2(p.Minus(m.playerPos)) && radius > 0 && Length2(p.Minus(m.playerPos)) < radius * radius)
    && (forall p :: p in far && radius + 2 >= 0 ==> AtLeastAway(m, p, radius + 2))
  }

  /** What the final map holds, said of the lists and the counts. */
  ghost predicate Populated(m: Map, c: Counts, l: Lists, radius: int, dweller: map<Vec2, Villain>, placed: set<Vec2>,
                            g: Groups) {
    && Distinct(g.All()) && Elements(g.All()) == placed
    && InhabitedBy(m, dweller, g.main, l.main, Max(0, c.numMain - l.numAlways))
    && LesserBy(m, dweller, g.near, g.far, l.lesser, c.numLesser, radius)
    && InhabitedBy(m, dweller, g.minor, l.minor, c.numMinor)
    && InhabitedBy(m, dweller, g.allies, l.allies, c.numAllies)
    && |g.endGame| == |l.endGame|
    && (forall i :: 0 <= i < |l.endGame| ==> g.endGame[i] in dweller && dweller[g.endGame[i]] == l.endGame[i])
    && (forall p, d: nat :: p in g.endGame && 2 * (d + 5) <= m.bounds.right - m.bounds.left - MAP_MARGIN ==>
          AtLeastAway(m, p, d))
  }

  /** The groups of the rounds by kind; the far round is not always there. */
  function Grouped(groups: seq<seq<Vec2>>): Groups
    requires |groups| in {5, 6}
  {
    if |groups| == 6 then Groups(groups[0], groups[1], groups[2], groups[3], groups[4], groups[5])
    else Groups(groups[0], groups[1], [], groups[2], groups[3], groups[4])
  }

  lemma DistinctConcat(a: seq<Vec2>, b: seq<Vec2>)
    requires Distinct(a) && Distinct(b) && Elements(a) !! Elements(b)
    ensures Distinct(a + b) && Elements(a + b) == Elements(a) + Elements(b)
  {
    forall i, j | 0 <= i < j < |a + b|
      ensures (a + b)[i] != (a + b)[j]
    {
      if i < |a| && j >= |a| { assert a[i] in Elements(a) && b[j - |a|] in Elements(b); }
    }
  }

  lemma AllApart(g: Groups)
    requires Distinct(g.main) && Distinct(g.near) && Distinct(g.far) && Distinct(g.minor) && Distinct(g.allies) && Distinct(g.endGame)
    requires Elements(g.main) !! Elements(g.near) !! Elements(g.far) !! Elements(g.minor) !! Elements(g.allies) !! Elements(g.endGame)
    ensures Distinct(g.All())
    ensures Elements(g.All()) == Elements(g.main) + Elements(g.near) + Elements(g.far) + Elements(g.minor) + Elements(g.allies)
                                 + Elements(g.endGame)
  {
    hide Distinct, Elements;
    DistinctConcat(g.main, g.near);
    DistinctConcat(g.main + g.near, g.far);
    DistinctConcat(g.main + g.near + g.far, g.minor);
    DistinctConcat(g.main + g.near + g.far + g.minor, g.allies);
    DistinctConcat(g.main + g.near + g.far + g.minor + g.allies, g.endGame);
  }

  lemma PartedAll(placed: set<Vec2>, groups: seq<seq<Vec2>>)
    requires Parted(placed, groups) && |groups| in {5, 6} && forall k :: 0 <= k < |groups| ==> Distinct(groups[k])
    ensures Distinct(Grouped(groups).All()) && Elements(Grouped(groups).All()) == placed
  {
    var g := Grouped(groups);
    assert Elements<Vec2>([]) == {};
    AllApart(g);
    hide Groups.All, Distinct;
    forall p | p in placed
      ensures p in Elements(g.All())
    {
      var k :| 0 <= k < |groups| && p in groups[k];
      assert p in Elements(groups[k]);
    }
  }

  lemma HoldsInhabited(m: Map, dweller: map<Vec2, Villain>, r: Round, spots: seq<Vec2>)
    requires Holds(m, dweller, r, spots)
    ensures Inhabited(m, dweller, spots, r.villains, r.count) && Distinct(spots)
    ensures forall p :: p in spots ==> r.playerDist.ContainsRoot(Length2(p.Minus(m.playerPos)))
  {
    hide Range.ContainsRoot, Length2;
  }

  class Campaign {
    const m: Map
    var dweller: map<Vec2, Villain>

    /** Any unblocked square that suits the villain, if there is one. */
    method Place(villain: Villain, blocked: set<Vec2>, playerDist: Range) returns (spot: Option<Vec2>)
      ensures spot.Some? ==> spot.value !in blocked && Suits(m, playerDist, villain, spot.value)
      ensures spot.None? ==> forall p :: p !in blocked ==> !Suits(m, playerDist, villain, p)
    {
      hide Range.ContainsRoot;
      var left := m.bounds.MinusMargin(MAP_MARGIN).Squares();
      while left != {}
        invariant forall p :: Suits(m, playerDist, villain, p) && p !in blocked ==> p in left
      {
        var p :| p in left;
        left := left - {p};
        if p !in blocked && Suits(m, playerDist, villain, p) {
          return Some(p);
        }
      }
      return None;
    }

    /** The villains are placed in the order in which they are dealt; the method gives up at the first that finds no
        square. */
    method PlaceList(blocked0: set<Vec2>, villains: seq<Villain>, count: nat, playerDist: Range, ghost placed0: set<Vec2>)
        returns (ok: bool, blocked: set<Vec2>, ghost spots: seq<Vec2>)
      requires Spaced(m, blocked0, placed0)
      modifies this`dweller
      ensures blocked0 <= blocked && Spaced(m, blocked, placed0 + Elements(spots))
      ensures Settled(m, playerDist, Dealt(villains, count), spots, old(dweller), dweller)
      ensures Distinct(spots) && Elements(spots) !! placed0
      ensures ok <==> |spots| == |Dealt(villains, count)|
      ensures !ok ==> NoRoom(m, placed0 + Elements(spots), Dealt(villains, count)[|spots|], playerDist)
    {
      hide Suits, Close, Covered, Spaced, NoRoom;
      blocked, spots := blocked0, [];
      assert placed0 + Elements([]) == placed0;
      if villains == [] {
        return true, blocked, [];
      }
      var dealt := Deal(villains, count);
      hide Dealt;
      for i := 0 to |dealt|
        invariant |spots| == i && blocked0 <= blocked && Spaced(m, blocked, placed0 + Elements(spots))
        invariant Settled(m, playerDist, dealt, spots, old(dweller), dweller)
        invariant Distinct(spots) && Elements(spots) !! placed0
      {
        var spot := Place(dealt[i], blocked, playerDist);
        if spot.None? {
          NoRoomLeft(m, blocked, placed0 + Elements(spots), dealt[i], playerDist);
          return false, blocked, spots;
        }
        var p := spot.value;
        var around := Rectangle(p.x - 5, p.y - 5, p.x + 6, p.y + 6);
        var blocked' := blocked + set w | w in around.Squares() && m.bounds.Contains(w);
        SuitsMeans(m, playerDist, dealt[i], p);
        CoversAround(m, blocked, p);
        SpacedNext(m, blocked, blocked', placed0 + Elements(spots), p);
        SettledNext(m, playerDist, dealt, spots, old(dweller), dweller, p);
        assert placed0 + Elements(spots + [p]) == placed0 + Elements(spots) + {p};
        dweller := dweller[p := dealt[i]];
        blocked, spots := blocked', spots + [p];
      }
      return true, blocked, spots;
    }

    /** One call of the placement, as part of a run. */
    method PlaceRound(ghost before: map<Vec2, Villain>, blocked0: set<Vec2>, r: Round, ghost placed0: set<Vec2>,
                      ghost rounds: seq<Round>, ghost groups0: seq<seq<Vec2>>)
        returns (ok: bool, blocked: set<Vec2>, ghost placed: set<Vec2>, ghost groups: seq<seq<Vec2>>)
      requires Books(m, before, dweller, blocked0, placed0, rounds, groups0)
      modifies this`dweller
      ensures Spaced(m, blocked, placed) && Untouched(before, dweller, placed)
      ensures ok ==> Books(m, before, dweller, blocked, placed, rounds + [r], groups)
      ensures !ok ==> exists v :: v in r.villains && NoRoom(m, placed, v, r.playerDist)
    {
      hide Spaced, Untouched, Parted, Holds, Dealt, Distinct, Elements, NoRoom;
      ghost var spots, d := [], dweller;
      ok, blocked, spots := PlaceList(blocked0, r.villains, r.count, r.playerDist, placed0);
      placed, groups := placed0 + Elements(spots), groups0 + [spots];
      StillUntouched(before, d, dweller, m, r.playerDist, Dealt(r.villains, r.count), spots, placed0);
      if ok {
        BooksNext(m, before, d, dweller, blocked0, blocked, placed0, rounds, groups0, r, spots);
      } else {
        DealtFrom(r.villains, r.count, |spots|);
      }
    }

    /** The squares blocked at the start: those of the map, and those near the player. */
    method BlockPlayer() returns (taken: set<Vec2>)
      ensures Books(m, dweller, dweller, taken, {}, [], []) && Spaced(m, taken, {}) && Untouched(dweller, dweller, {})
    {
      var around := set w | w in Rectangle(m.playerPos.x - 5, m.playerPos.y - 5, m.playerPos.x + 6, m.playerPos.y + 6).Squares()
                            && m.bounds.Contains(w);
      taken := m.blocked + around;
      CoversAround(m, {}, m.playerPos);
      assert {} + around == around;
      StartBooks(m, dweller, around);
    }

    /** All lists in turn.  What was placed is well spaced even when a later list fails; on success the squares are inhabited
        as the lists and counts say. */
    method PlaceVillains(c: Counts, l0: Lists, initialRadius: int, random: seq<Villain> -> seq<Villain>)
        returns (ok: bool, ghost blocked: set<Vec2>, ghost placed: set<Vec2>, ghost groups: Groups)
      requires Shuffles(random)
      modifies this`dweller
      ensures Spaced(m, blocked, placed) && Untouched(old(dweller), dweller, placed)
      ensures ok ==> Populated(m, c, l0, initialRadius, dweller, placed, groups)
      ensures !ok ==> Stuck(m, l0, initialRadius, placed)
    {
      hide Books, Spaced, Untouched, Shuffles, AlwaysFirst, Populated, NoRoom, Stuck;
      groups := Groups([], [], [], [], [], []);
      var taken := BlockPlayer();
      placed := {};
      ghost var rounds, gs := [], [];
      var main, lesser, minor, allies, n, r;
      main, n := Shuffle(l0.main, random);
      SameVillains(main, l0.main);
      r := Round(main, Max(0, c.numMain - l0.numAlways), ANYWHERE);
      ok, taken, placed, gs := PlaceRound(old(dweller), taken, r, placed, rounds, gs);
      if !ok { IsStuck(m, l0, initialRadius, placed, r); return false, taken, placed, groups; }
      rounds := rounds + [r];
      lesser, n := Shuffle(l0.lesser, random);
      SameVillains(lesser, l0.lesser);
      var near, far := Range(1, initialRadius), Range(initialRadius + 2, 1000);
      var prefix := lesser[..Min(3, |lesser|)];
      r := Round(prefix, Min(3, c.numLesser), near);
      ok, taken, placed, gs := PlaceRound(old(dweller), taken, r, placed, rounds, gs);
      if !ok { IsStuck(m, l0, initialRadius, placed, r); return false, taken, placed, groups; }
      rounds := rounds + [r];
      if |lesser| > 3 && c.numLesser > 3 {
        r := Round(lesser[3..], c.numLesser - 3, far);
        ok, taken, placed, gs := PlaceRound(old(dweller), taken, r, placed, rounds, gs);
        if !ok { IsStuck(m, l0, initialRadius, placed, r); return false, taken, placed, groups; }
        rounds := rounds + [r];
      }
      minor, n := Shuffle(l0.minor, random);
      SameVillains(minor, l0.minor);
      r := Round(minor, c.numMinor, ANYWHERE);
      ok, taken, placed, gs := PlaceRound(old(dweller), taken, r, placed, rounds, gs);
      if !ok { IsStuck(m, l0, initialRadius, placed, r); return false, taken, placed, groups; }
      rounds := rounds + [r];
      allies, n := Shuffle(l0.allies, random);
      SameVillains(allies, l0.allies);
      r := Round(allies, c.numAllies, ANYWHERE);
      ok, taken, placed, gs := PlaceRound(old(dweller), taken, r, placed, rounds, gs);
      if !ok { IsStuck(m, l0, initialRadius, placed, r); return false, taken, placed, groups; }
      rounds := rounds + [r];
      var outside := Range(TruncHalf(m.bounds.right - m.bounds.left - MAP_MARGIN) - 5, 1000);
      r := Round(l0.endGame, |l0.endGame|, outside);
      ok, taken, placed, gs := PlaceRound(old(dweller), taken, r, placed, rounds, gs);
      blocked := taken;
      if ok {
        ghost var l := Lists(main, lesser, minor, allies, l0.endGame, l0.numAlways);
        assert rounds + [r] == Plan(m, c, l, initialRadius);
        groups := PlanPopulates(m, c, l, l0, initialRadius, old(dweller), dweller, taken, placed, gs);
      } else {
        IsStuck(m, l0, initialRadius, placed, r);
      }
    }
  }

  lemma NobodyInhabits(m: Map, dweller: map<Vec2, Villain>, list: seq<Villain>, count: nat)
    requires list == [] || count == 0
    ensures Inhabited(m, dweller, [], list, count)
  {
  }

  lemma PlanLesser(m: Map, dweller: map<Vec2, Villain>, near: seq<Vec2>, far: seq<Vec2>, order: seq<Villain>,
                   list: seq<Villain>, count: nat, radius: int)
    requires ShuffledList(order, list)
    requires Inhabited(m, dweller, near, order[..Min(3, |order|)], Min(3, count))
    requires Inhabited(m, dweller, far, order[Min(3, |order|)..], Max(0, count - 3))
    requires forall p :: p in near ==> Range(1, radius).ContainsRoot(Length2(p.Minus(m.playerPos)))
    requires forall p :: p in far ==> Range(radius + 2, 1000).ContainsRoot(Length2(p.Minus(m.playerPos)))
    ensures LesserBy(m, dweller, near, far, list, count, radius)
  {
    hide ShuffledList, Length2, Inhabited;
  }

  lemma PlanEndGame(m: Map, dweller: map<Vec2, Villain>, spots: seq<Vec2>, list: seq<Villain>)
    requires Inhabited(m, dweller, spots, list, |list|)
    requires forall p :: p in spots ==>
               Range(TruncHalf(m.bounds.right - m.bounds.left - MAP_MARGIN) - 5, 1000).ContainsRoot(Length2(p.Minus(m.playerPos)))
    ensures |spots| == |list| && forall i :: 0 <= i < |list| ==> spots[i] in dweller && dweller[spots[i]] == list[i]
    ensures forall p, d: nat :: p in spots && 2 * (d + 5) <= m.bounds.right - m.bounds.left - MAP_MARGIN ==>
              AtLeastAway(m, p, d)
  {
    forall i | 0 <= i < |list|
      ensures list[i % |list|] == list[i]
    {
      QuotientIs(0, i, |list|);
    }
    hide Length2, Inhabited;
    forall p, d: nat | p in spots && 2 * (d + 5) <= m.bounds.right - m.bounds.left - MAP_MARGIN
      ensures AtLeastAway(m, p, d)
    {
      SquareMono(d, TruncHalf(m.bounds.right - m.bounds.left - MAP_MARGIN) - 5);
    }
  }

  lemma SquareMono(d: nat, e: nat)
    requires d <= e
    ensures d * d <= e * e
  {
  }

  /** Some villain is one too many: every square that would suit it is taken. */
  ghost predicate Stuck(m: Map, l: Lists, radius: int, placed: set<Vec2>) {
    exists v, playerDist :: Meant(m, l, radius, v, playerDist) && NoRoom(m, placed, v, playerDist)
  }

  /** The villain is on a list whose distance from the player this is. */
  predicate Meant(m: Map, l: Lists, radius: int, v: Villain, playerDist: Range) {
    || ((v in l.main || v in l.minor || v in l.allies) && playerDist == ANYWHERE)
    || (v in l.lesser && (playerDist == Range(1, radius) || playerDist == Range(radius + 2, 1000)))
    || (v in l.endGame && playerDist == Range(TruncHalf(m.bounds.right - m.bounds.left - MAP_MARGIN) - 5, 1000))
  }

  lemma IsStuck(m: Map, l: Lists, radius: int, placed: set<Vec2>, r: Round)
    requires forall v :: v in r.villains ==> Meant(m, l, radius, v, r.playerDist)
    requires exists v :: v in r.villains && NoRoom(m, placed, v, r.playerDist)
    ensures Stuck(m, l, radius, placed)
  {
  }

  lemma SameVillains(a: seq<Villain>, b: seq<Villain>)
    requires multiset(a) == multiset(b)
    ensures forall v :: v in a ==> v in b
  {
    forall v | v in a
      ensures v in b
    {
      assert v in multiset(a);
    }
  }

  /** When every round of the plan has its group, the map is populated as the lists and counts say. */
  lemma PlanPopulates(m: Map, c: Counts, l: Lists, l0: Lists, radius: int, before: map<Vec2, Villain>,
                      dweller: map<Vec2, Villain>, blocked: set<Vec2>, placed: set<Vec2>, gs: seq<seq<Vec2>>)
      returns (g: Groups)
    requires ShuffledLists(l, l0) && Books(m, before, dweller, blocked, placed, Plan(m, c, l, radius), gs)
    ensures Populated(m, c, l0, radius, dweller, placed, g)
  {
    hide Spaced, Untouched, Parted, Holds, Length2, ShuffledList, Suits, Dealt, Distinct, Elements, Inhabited, Range.ContainsRoot,
         Groups.All;
    var rounds := Plan(m, c, l, radius);
    assert |rounds| in {5, 6};
    forall k | 0 <= k < |gs|
      ensures Inhabited(m, dweller, gs[k], rounds[k].villains, rounds[k].count) && Distinct(gs[k])
      ensures forall p :: p in gs[k] ==> rounds[k].playerDist.ContainsRoot(Length2(p.Minus(m.playerPos)))
    {
      assert Holds(m, dweller, rounds[k], gs[k]);
      HoldsInhabited(m, dweller, rounds[k], gs[k]);
    }
    PartedAll(placed, gs);
    g := Grouped(gs);
    if |gs| == 5 { NobodyInhabits(m, dweller, l.lesser[Min(3, |l.lesser|)..], Max(0, c.numLesser - 3)); }
    PlanLesser(m, dweller, g.near, g.far, l.lesser, l0.lesser, c.numLesser, radius);
    PlanEndGame(m, dweller, g.endGame, l.endGame);
  }

  /** How many of the villains must be present. */
  function NumAlways(s: seq<Villain>): nat {
    if s == [] then 0 else (if s[0].alwaysPresent then 1 else 0) + NumAlways(s[1..])
  }

  lemma {:induction false} NumAlwaysConcat(a: seq<Villain>, b: seq<Villain>)
    ensures NumAlways(a + b) == NumAlways(a) + NumAlways(b)
  {
    if a == [] {
      assert a + b == b;
    } else {
      assert (a + b)[1..] == a[1..] + b;
      NumAlwaysConcat(a[1..], b);
    }
  }

  lemma {:induction false} NumAlwaysOrder(a: seq<Villain>, b: seq<Villain>)
    requires multiset(a) == multiset(b)
    ensures NumAlways(a) == NumAlways(b)
  {
    if a == [] {
      assert |multiset(b)| == 0;
    } else {
      var i := FindFirst(a, b);
      NumAlwaysOrder(a[1..], b[..i] + b[i + 1..]);
      NumAlwaysParts(b, i);
    }
  }

  lemma FindFirst(a: seq<Villain>, b: seq<Villain>) returns (i: nat)
    requires multiset(a) == multiset(b) && a != []
    ensures i < |b| && b[i] == a[0] && multiset(a[1..]) == multiset(b[..i] + b[i + 1..])
  {
    assert a[0] in multiset(a);
    assert a[0] in b;
    i :| 0 <= i < |b| && b[i] == a[0];
    WithoutOne(a, 0);
    WithoutOne(b, i);
    assert a[..0] + a[1..] == a[1..];
  }

  lemma WithoutOne(s: seq<Villain>, i: nat)
    requires i < |s|
    ensures multiset(s[..i] + s[i + 1..]) == multiset(s) - multiset{s[i]}
  {
    assert s == s[..i] + [s[i]] + s[i + 1..];
  }

  lemma NumAlwaysParts(s: seq<Villain>, i: nat)
    requires i < |s|
    ensures NumAlways(s) == NumAlways(s[..i] + s[i + 1..]) + if s[i].alwaysPresent then 1 else 0
  {
    assert s == s[..i] + ([s[i]] + s[i + 1..]);
    NumAlwaysConcat(s[..i], [s[i]] + s[i + 1..]);
    NumAlwaysConcat([s[i]], s[i + 1..]);
    NumAlwaysConcat(s[..i], s[i + 1..]);
  }

  lemma {:induction false} NumAlwaysFirst(s: seq<Villain>, n: nat)
    requires AlwaysFirst(s, n)
    ensures NumAlways(s) == n
  {
    if s != [] { NumAlwaysFirst(s[1..], if n > 0 then n - 1 else 0); }
  }

  /** Nobody who must be present is missing from a group that has room for all of them. */
  lemma AlwaysPresent(m: Map, dweller: map<Vec2, Villain>, spots: seq<Vec2>, list: seq<Villain>, count: nat, v: Villain)
    requires InhabitedBy(m, dweller, spots, list, count) && NumAlways(list) <= count && v in list && v.alwaysPresent
    ensures exists p :: p in spots && p in dweller && dweller[p] == v
  {
    var order :| ShuffledList(order, list) && Inhabited(m, dweller, spots, order, count);
    var n :| AlwaysFirst(order, n);
    NumAlwaysFirst(order, n);
    NumAlwaysOrder(order, list);
    assert v in multiset(list);
    var i :| 0 <= i < |order| && order[i] == v;
    assert i < n;
    QuotientIs(0, i, |order|);
    assert spots[i] in spots;
  }

  lemma NoRoomLeft(m: Map, blocked: set<Vec2>, placed: set<Vec2>, v: Villain, playerDist: Range)
    requires Spaced(m, blocked, placed) && forall p :: p !in blocked ==> !Suits(m, playerDist, v, p)
    ensures NoRoom(m, placed, v, playerDist)
  {
    hide Suits;
  }

  lemma DealtFrom(villains: seq<Villain>, count: nat, i: nat)
    requires i < |Dealt(villains, count)|
    ensures Dealt(villains, count)[i] in villains
  {
  }

  lemma SuitsMeans(m: Map, playerDist: Range, v: Villain, p: Vec2)
    requires Suits(m, playerDist, v, p)
    ensures m.bounds.Contains(p) && m.bounds.MinusMargin(MAP_MARGIN).Contains(p) && p in m.biome
  {
  }

  lemma CoversAround(m: Map, blocked: set<Vec2>, p: Vec2)
    ensures Covered(m, blocked + (set w | w in Rectangle(p.x - 5, p.y - 5, p.x + 6, p.y + 6).Squares() && m.bounds.Contains(w)), p)
    ensures forall w :: w in Rectangle(p.x - 5, p.y - 5, p.x + 6, p.y + 6).Squares() ==> Close(p, w)
  {
  }
}
