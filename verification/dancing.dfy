/** Dances: slots for the dancers, and the square each of them steps to at a given time. */
module DanceFloor {
  import opened Arithmetic
  import opened Collections
  import opened Grid

  datatype Kind = Cycle | Full

  /** The remainder in C++, with the sign of the dividend. */
  function TruncMod(a: int, b: nat): int
    requires b > 0
  {
    if a >= 0 then a % b else -((-a) % b)
  }

  /** A dance: coord lists for every frame the places of all slots. */
  datatype Positions = Positions(kind: Kind, minCount: int, coord: seq<seq<Vec2>>) {
    /** Every frame places the same slots, and there are some. */
    ghost predicate Regular() {
      coord != [] && coord[0] != [] && forall f :: 0 <= f < |coord| ==> |coord[f]| == |coord[0]|
    }

    function Slots(): nat
      requires coord != []
    {
      |coord[0]|
    }

    function Length(): nat
      requires coord != []
    {
      if kind == Full then |coord| else |coord[0]| * |coord|
    }

    function Frame(iteration: nat): nat
      requires coord != []
    {
      if kind == Full then iteration else iteration % |coord|
    }

    function Slot(iteration: nat, index: nat): nat
      requires coord != [] && coord[0] != []
    {
      if kind == Full then index else (index + iteration / |coord|) % |coord[0]|
    }

    function Get(iteration: nat, index: nat): Vec2
      requires Regular() && iteration < Length() && index < Slots()
    {
      FrameInRange(this, iteration);
      coord[Frame(iteration)][Slot(iteration, index)]
    }
  }

  lemma FrameInRange(p: Positions, iteration: nat)
    requires p.Regular() && iteration < p.Length()
    ensures p.Frame(iteration) < |p.coord| && forall index :: 0 <= index < p.Slots() ==> p.Slot(iteration, index) < p.Slots()
  {
  }

  /** Two dancers never have the same slot. */
  lemma SlotsDiffer(p: Positions, iteration: nat, i: nat, j: nat)
    requires p.Regular() && iteration < p.Length() && i < j < p.Slots()
    ensures p.Slot(iteration, i) != p.Slot(iteration, j)
  {
    if p.kind == Cycle {
      QuotientSmall(iteration, |p.coord|, |p.coord[0]|);
      ModOnce(i + iteration / |p.coord|, |p.coord[0]|);
      ModOnce(j + iteration / |p.coord|, |p.coord[0]|);
    }
  }

  /** The iteration of a cycle dance in which a dancer has a given slot of a given frame. */
  function When(p: Positions, index: nat, f: nat, s: nat): nat
    requires p.Regular() && index < p.Slots() && s < p.Slots()
  {
    (if s >= index then s - index else s - index + p.Slots()) * |p.coord| + f
  }

  /** Over one period a dancer takes every pair of a frame and a slot exactly once. */
  lemma EveryPairOnce(p: Positions, index: nat, f: nat, s: nat)
    requires p.Regular() && p.kind == Cycle && index < p.Slots() && f < |p.coord| && s < p.Slots()
    ensures When(p, index, f, s) < p.Length()
    ensures forall it :: 0 <= it < p.Length() ==>
              ((p.Frame(it) == f && p.Slot(it, index) == s) <==> it == When(p, index, f, s))
  {
    var n, m := |p.coord|, p.Slots();
    var k := if s >= index then s - index else s - index + m;
    Spread(k, m, n);
    QuotientIs(k, f, n);
    ModOnce(index + k, m);
    forall it | 0 <= it < p.Length() && p.Frame(it) == f && p.Slot(it, index) == s
      ensures it == When(p, index, f, s)
    {
      OnlyThen(p, index, it);
    }
  }

  lemma OnlyThen(p: Positions, index: nat, it: nat)
    requires p.Regular() && p.kind == Cycle && index < p.Slots() && it < p.Length()
    ensures it == When(p, index, p.Frame(it), p.Slot(it, index))
  {
    QuotientSmall(it, |p.coord|, p.Slots());
    ModOnce(index + it / |p.coord|, p.Slots());
    Divided(it, |p.coord|);
  }

  // ----- the dance floor

  datatype Info = NoDance | Dance(index: nat, origin: Vec2, startTime: int)

  /** Identifier 0 marks a slot that nobody has. */
  datatype State = State(info: Info, assignments: seq<nat>, lastSeen: map<nat, int>, area: set<Vec2>)

  ghost predicate AllRegular(ps: seq<Positions>) {
    forall i :: 0 <= i < |ps| ==> ps[i].Regular()
  }

  predicate Listed(p: Positions, u: Vec2) {
    exists f :: 0 <= f < |p.coord| && u in p.coord[f]
  }

  /** Every place of the dance, put down at the origin, is within the squares. */
  ghost predicate Within(p: Positions, origin: Vec2, squares: set<Vec2>)
    requires p.Regular()
  {
    forall u :: Listed(p, u) ==> origin.Plus(u.Minus(p.coord[0][0])) in squares
  }

  ghost predicate Known(s: State) {
    forall i :: 0 <= i < |s.assignments| && s.assignments[i] != 0 ==> s.assignments[i] in s.lastSeen
  }

  /** The current dance lies in the area and has its slots; no dancer has two; every dancer with a slot was seen. */
  ghost predicate Inv(ps: seq<Positions>, s: State) {
    && AllRegular(ps) && Known(s)
    && (s.info.Dance? ==> s.info.index < |ps| && Within(ps[s.info.index], s.info.origin, s.area)
                          && |s.assignments| == ps[s.info.index].Slots())
    && (forall i, j :: 0 <= i < j < |s.assignments| && s.assignments[i] != 0 ==> s.assignments[i] != s.assignments[j])
  }

  ghost predicate CanStart(ps: seq<Positions>, s: State, open: set<Vec2>, index: nat, origin: Vec2)
    requires AllRegular(ps)
  {
    index < |ps| && origin in s.area && Within(ps[index], origin, s.area * open)
  }

  /** A dance that fits the area and the open squares is started, unless there is none. */
  ghost predicate Initialized(ps: seq<Positions>, s: State, s': State, time: int, open: set<Vec2>)
    requires AllRegular(ps)
  {
    if s'.info.Dance? then
      && CanStart(ps, s, open, s'.info.index, s'.info.origin)
      && s' == s.(info := Dance(s'.info.index, s'.info.origin, time),
                  assignments := seq(ps[s'.info.index].Slots(), i => 0))
    else s' == s && forall index, origin :: !CanStart(ps, s, open, index, origin)
  }

  /** The first slot that nobody has, or whose dancer was not seen for more than 20 turns. */
  ghost predicate FirstVacant(s: State, time: int, i: nat)
    requires Known(s)
  {
    && i < |s.assignments| && Vacant(s, time, i)
    && forall j :: 0 <= j < i ==> !Vacant(s, time, j)
  }

  predicate Vacant(s: State, time: int, i: nat)
    requires i < |s.assignments| && (s.assignments[i] != 0 ==> s.assignments[i] in s.lastSeen)
  {
    s.assignments[i] == 0 || time - s.lastSeen[s.assignments[i]] > 20
  }

  ghost predicate Assigned(s: State, s': State, id: nat, time: int, slot: Option<nat>)
    requires Known(s)
  {
    if id in s.assignments then s' == s && slot.Some? && slot.value < |s.assignments| && s.assignments[slot.value] == id
    else if slot.Some? then FirstVacant(s, time, slot.value) && s' == s.(assignments := s.assignments[slot.value := id])
    else s' == s && forall i :: 0 <= i < |s.assignments| ==> !Vacant(s, time, i)
  }

  function NumActive(s: State, time: int, n: nat): nat
    requires Known(s) && n <= |s.assignments|
  {
    if n == 0 then 0
    else NumActive(s, time, n - 1)
         + if s.assignments[n - 1] != 0 && time - s.lastSeen[s.assignments[n - 1]] < 20 then 1 else 0
  }

  /** The slots whose dancer was seen less than 20 turns ago. */
  function ActiveSlots(s: State, time: int, n: nat): set<nat>
    requires Known(s) && n <= |s.assignments|
  {
    set i: nat | i < n && s.assignments[i] != 0 && time - s.lastSeen[s.assignments[i]] < 20
  }

  lemma ActiveNext(s: State, time: int, n: nat)
    requires Known(s) && 0 < n <= |s.assignments|
    ensures var now := s.assignments[n - 1] != 0 && time - s.lastSeen[s.assignments[n - 1]] < 20;
            ActiveSlots(s, time, n) == (if now then ActiveSlots(s, time, n - 1) + {n - 1} else ActiveSlots(s, time, n - 1))
    ensures n - 1 !in ActiveSlots(s, time, n - 1)
  {
  }

  lemma {:induction false} NumActiveIs(s: State, time: int, n: nat)
    requires Known(s) && n <= |s.assignments|
    ensures NumActive(s, time, n) == |ActiveSlots(s, time, n)|
  {
    if n > 0 {
      NumActiveIs(s, time, n - 1);
      ActiveNext(s, time, n);
      hide ActiveSlots;
    }
  }

  function Iteration(p: Positions, info: Info, time: int): nat
    requires info.Dance? && p.coord != [] && p.coord[0] != []
    ensures Iteration(p, info, time) < p.Length()
  {
    assert p.kind == Cycle ==> p.Length() >= 1 by {
      if p.kind == Cycle { assert |p.coord[0]| * |p.coord| >= 1 * |p.coord|; }
    }
    Max(0, TruncMod(time - info.startTime, p.Length()))
  }

  /** The square of a slot at a time. */
  function Square(p: Positions, info: Info, slot: nat, time: int): Vec2
    requires info.Dance? && p.Regular() && slot < p.Slots()
  {
    info.origin.Plus(p.Get(Iteration(p, info, time), slot).Minus(p.coord[0][0]))
  }

  /** A place of the dance, put down at the origin. */
  function Put(p: Positions, origin: Vec2, u: Vec2): Vec2
    requires p.coord != [] && p.coord[0] != []
  {
    origin.Plus(u.Minus(p.coord[0][0]))
  }

  /** In a full dance everybody keeps its own place in the frame, and the frames follow one another. */
  lemma FullSquare(p: Positions, info: Info, slot: nat, t: nat)
    requires info.Dance? && p.Regular() && p.kind == Full && slot < p.Slots()
    ensures Square(p, info, slot, info.startTime + t) == Put(p, info.origin, p.coord[t % |p.coord|][slot])
  {
  }

  /** In a cycle dance the frames follow one another, and after each pass everybody moves on by one place. */
  lemma CycleSquare(p: Positions, info: Info, slot: nat, t: nat)
    requires info.Dance? && p.Regular() && p.kind == Cycle && slot < p.Slots() && t < |p.coord[0]| * |p.coord|
    ensures Square(p, info, slot, info.startTime + t)
            == Put(p, info.origin, p.coord[t % |p.coord|][(slot + t / |p.coord|) % |p.coord[0]|])
  {
    ModSmall(t, |p.coord[0]| * |p.coord|);
  }

  lemma ModSmall(t: nat, n: nat)
    requires t < n
    ensures t % n == t
  {
  }

  /** And then from the start. */
  lemma SquareRepeats(p: Positions, info: Info, slot: nat, t: nat)
    requires info.Dance? && p.Regular() && slot < p.Slots()
    ensures Square(p, info, slot, info.startTime + (t + if p.kind == Full then |p.coord| else |p.coord[0]| * |p.coord|))
            == Square(p, info, slot, info.startTime + t)
  {
    LengthPositive(p);
    IterationIs(p, info, t);
    IterationIs(p, info, t + p.Length());
    hide Iteration, Positions.Get;
    ModTurn(t, p.Length());
  }

  lemma LengthPositive(p: Positions)
    requires p.Regular()
    ensures p.Length() > 0
  {
    if p.kind == Cycle { assert |p.coord[0]| * |p.coord| >= 1 * |p.coord|; }
  }

  lemma IterationIs(p: Positions, info: Info, t: nat)
    requires info.Dance? && p.Regular() && p.Length() > 0
    ensures Iteration(p, info, info.startTime + t) == t % p.Length()
  {
    hide Positions.Length;
  }

  /** When the time was set back before the start, everybody stands on its first place. */
  lemma SquareBefore(p: Positions, info: Info, slot: nat, time: int)
    requires info.Dance? && p.Regular() && slot < p.Slots() && time <= info.startTime
    ensures Square(p, info, slot, time) == Put(p, info.origin, p.coord[0][slot])
  {
    assert Iteration(p, info, time) == 0 by { NotStarted(p, info, time); }
    hide Iteration;
    FirstPlace(p, slot);
  }

  lemma NotStarted(p: Positions, info: Info, time: int)
    requires info.Dance? && p.Regular() && time <= info.startTime
    ensures Iteration(p, info, time) == 0
  {
    LengthPositive(p);
    if time == info.startTime { ModSmall(0, p.Length()); }
  }

  lemma FirstPlace(p: Positions, slot: nat)
    requires p.Regular() && slot < p.Slots()
    ensures p.Length() > 0 && p.Get(0, slot) == p.coord[0][slot]
  {
    LengthPositive(p);
    ModSmall(0, |p.coord|);
    ModSmall(slot, p.Slots());
    QuotientIs(0, 0, |p.coord|);
  }

  /** All places of the dance are different ones. */
  ghost predicate DistinctPlaces(p: Positions) {
    forall f, i, g, j :: 0 <= f < |p.coord| && 0 <= i < |p.coord[f]| && 0 <= g < |p.coord| && 0 <= j < |p.coord[g]| ==>
      p.coord[f][i] == p.coord[g][j] ==> f == g && i == j
  }

  /** In one period of a cycle dance a dancer is sent to every place of every frame, and only once if the places are
      different ones. */
  lemma EveryPlaceOnce(p: Positions, info: Info, slot: nat, f: nat, s: nat) returns (time: int)
    requires info.Dance? && p.Regular() && p.kind == Cycle && slot < p.Slots() && f < |p.coord| && s < p.Slots()
    ensures info.startTime <= time < info.startTime + |p.coord[0]| * |p.coord|
    ensures Square(p, info, slot, time) == Put(p, info.origin, p.coord[f][s])
    ensures DistinctPlaces(p) ==>
              forall u :: info.startTime <= u < info.startTime + |p.coord[0]| * |p.coord| && u != time ==>
                Square(p, info, slot, u) != Put(p, info.origin, p.coord[f][s])
  {
    EveryPairOnce(p, slot, f, s);
    var t := When(p, slot, f, s);
    PairSquare(p, info, slot, t);
    time := info.startTime + t;
    hide Square, When, Put;
    if DistinctPlaces(p) {
      forall u | info.startTime <= u < info.startTime + |p.coord[0]| * |p.coord| && u != time
        ensures Square(p, info, slot, u) != Put(p, info.origin, p.coord[f][s])
      {
        PairSquare(p, info, slot, u - info.startTime);
        OtherPlace(p, info.origin, p.Frame(u - info.startTime), p.Slot(u - info.startTime, slot), f, s);
      }
    }
  }

  lemma PairSquare(p: Positions, info: Info, slot: nat, t: nat)
    requires info.Dance? && p.Regular() && p.kind == Cycle && slot < p.Slots() && t < p.Length()
    ensures p.Frame(t) < |p.coord| && p.Slot(t, slot) < p.Slots()
    ensures Square(p, info, slot, info.startTime + t) == Put(p, info.origin, p.coord[p.Frame(t)][p.Slot(t, slot)])
  {
    FrameInRange(p, t);
    ModSmall(t, p.Length());
  }

  lemma OtherPlace(p: Positions, origin: Vec2, f: nat, i: nat, g: nat, j: nat)
    requires p.Regular() && DistinctPlaces(p) && f < |p.coord| && g < |p.coord| && i < p.Slots() && j < p.Slots()
    requires !(f == g && i == j)
    ensures Put(p, origin, p.coord[f][i]) != Put(p, origin, p.coord[g][j])
  {
  }

  /** Once there is a dance: the dancer is seen, gets or keeps a slot, and is sent to its square when enough dance. */
  ghost predicate Danced(ps: seq<Positions>, s: State, s': State, id: nat, time: int, target: Option<Vec2>)
    requires Inv(ps, s) && s.info.Dance?
  {
    var seen := s.(lastSeen := s.lastSeen[id := time]);
    exists slot: Option<nat> :: Assigned(seen, s', id, time, slot)
      && target == if slot.Some? && slot.value < |s.assignments| && Known(s')
                      && NumActive(s', time, |s'.assignments|) >= ps[s.info.index].minCount
                   then Some(Square(ps[s.info.index], s.info, slot.value, time)) else None
  }

  /** A dance that is more than 100 turns old is replaced. */
  ghost predicate Refreshed(ps: seq<Positions>, s: State, s': State, time: int, open: set<Vec2>)
    requires AllRegular(ps) && s.info.Dance?
  {
    if s.info.startTime < time - 100 then Initialized(ps, s.(info := NoDance), s', time, open) else s' == s
  }

  ghost predicate Targeted(ps: seq<Positions>, s: State, s': State, id: nat, affected: bool, time: int, open: set<Vec2>,
                           target: Option<Vec2>)
    requires Inv(ps, s)
  {
    if s.info.NoDance? || affected then s' == s && target == None
    else exists mid: State :: Refreshed(ps, s, mid, time, open) && Inv(ps, mid) && Resumed(ps, mid, s', id, time, target)
  }

  ghost predicate Resumed(ps: seq<Positions>, mid: State, s': State, id: nat, time: int, target: Option<Vec2>)
    requires Inv(ps, mid)
  {
    if mid.info.NoDance? then s' == mid && target == None else Danced(ps, mid, s', id, time, target)
  }

  lemma InitializedInv(ps: seq<Positions>, s: State, s': State, time: int, open: set<Vec2>)
    requires Inv(ps, s) && Initialized(ps, s, s', time, open)
    ensures Inv(ps, s')
  {
  }

  lemma AssignedInv(ps: seq<Positions>, s: State, s': State, id: nat, time: int, slot: Option<nat>)
    requires Inv(ps, s) && id != 0 && id in s.lastSeen && Assigned(s, s', id, time, slot)
    ensures Inv(ps, s')
  {
  }

  /** A dancer is only ever sent to a square of the area. */
  lemma TargetInArea(ps: seq<Positions>, s: State, s': State, id: nat, affected: bool, time: int, open: set<Vec2>,
                     target: Option<Vec2>)
    requires Inv(ps, s) && id != 0 && Targeted(ps, s, s', id, affected, time, open, target)
    ensures Inv(ps, s') && s'.area == s.area && (target.Some? ==> target.value in s.area)
    ensures affected ==> target.None? && s' == s
  {
    if s.info.Dance? && !affected {
      var mid :| Refreshed(ps, s, mid, time, open) && Inv(ps, mid) && Resumed(ps, mid, s', id, time, target);
      if mid.info.Dance? {
        DancedInArea(ps, mid, s', id, time, target);
      }
    }
  }

  lemma DancedInArea(ps: seq<Positions>, s: State, s': State, id: nat, time: int, target: Option<Vec2>)
    requires Inv(ps, s) && s.info.Dance? && id != 0 && Danced(ps, s, s', id, time, target)
    ensures Inv(ps, s') && s'.area == s.area && (target.Some? ==> target.value in s.area)
  {
  }

  /** A dancer is sent to its square exactly if it has a slot and enough dancers were seen less than 20 turns ago. */
  lemma SentWhenEnough(ps: seq<Positions>, s: State, s': State, id: nat, time: int, target: Option<Vec2>)
    requires Inv(ps, s) && s.info.Dance? && id != 0 && Danced(ps, s, s', id, time, target)
    ensures Inv(ps, s')
    ensures target.Some? <==> id in s'.assignments && |ActiveSlots(s', time, |s'.assignments|)| >= ps[s.info.index].minCount
  {
    DancedInArea(ps, s, s', id, time, target);
    NumActiveIs(s', time, |s'.assignments|);
    hide NumActive, Within, Square, ActiveSlots;
    var seen := s.(lastSeen := s.lastSeen[id := time]);
    var o: Option<nat> :| Assigned(seen, s', id, time, o)
      && target == if o.Some? && o.value < |s'.assignments| && Known(s')
                      && NumActive(s', time, |s'.assignments|) >= ps[s.info.index].minCount
                   then Some(Square(ps[s.info.index], s.info, o.value, time)) else None;
    if o.Some? { assert s'.assignments[o.value] == id; }
  }

  /** The slot was never taken, or its dancer was not seen for more than 20 turns. */
  predicate Lost(s: State, time: int, i: nat) {
    i < |s.assignments|
    && (s.assignments[i] == 0 || (s.assignments[i] in s.lastSeen && time - s.lastSeen[s.assignments[i]] > 20))
  }

  /** A dancer without a slot gets one exactly if a slot was never taken or its dancer was not seen for more than 20 turns,
      and then it is the first such slot that changes hands. */
  lemma NewcomerSeated(ps: seq<Positions>, s: State, s': State, id: nat, time: int, target: Option<Vec2>)
    requires Inv(ps, s) && s.info.Dance? && id != 0 && Danced(ps, s, s', id, time, target) && id !in s.assignments
    ensures id in s'.assignments <==> exists i :: 0 <= i < |s.assignments| && Lost(s, time, i)
    ensures |s'.assignments| == |s.assignments|
    ensures forall i :: 0 <= i < |s.assignments| && s'.assignments[i] != s.assignments[i] ==>
              Lost(s, time, i) && s'.assignments[i] == id && forall j :: 0 <= j < i ==> !Lost(s, time, j)
  {
    var seen := s.(lastSeen := s.lastSeen[id := time]);
    forall i | 0 <= i < |s.assignments|
      ensures s.assignments[i] != 0 ==> s.assignments[i] in seen.lastSeen
      ensures Lost(s, time, i) <==> Vacant(seen, time, i)
    {
      assert s.assignments[i] != id;
    }
    hide NumActive, Within, Square, Vacant, Lost, Inv;
    var o: Option<nat> :| Assigned(seen, s', id, time, o);
    if o.Some? { assert s'.assignments[o.value] == id; }
  }

  // ----- no two dancers on one square

  /** The dance is not too old at this time, and the dancer has this slot and was seen in the last 20 turns. */
  ghost predicate Seated(s: State, info: Info, id: nat, slot: nat, time: int) {
    && s.info == info && info.Dance? && info.startTime >= time - 100
    && slot < |s.assignments| && s.assignments[slot] == id && id in s.lastSeen && time - s.lastSeen[id] <= 20
  }

  /** A call that sends the dancer somewhere seats it there. */
  lemma SentIsSeated(ps: seq<Positions>, s: State, s': State, id: nat, affected: bool, time: int, open: set<Vec2>,
                     target: Option<Vec2>) returns (slot: nat)
    requires Inv(ps, s) && id != 0 && Targeted(ps, s, s', id, affected, time, open, target) && target.Some?
    ensures Seated(s', s'.info, id, slot, time) && s'.info.index < |ps| && slot < ps[s'.info.index].Slots()
    ensures target.value == Square(ps[s'.info.index], s'.info, slot, time)
    ensures s.info.Dance? && s.info.startTime >= time - 100 ==> s'.info == s.info
  {
    hide NumActive, Within, Square;
    var mid :| Refreshed(ps, s, mid, time, open) && Inv(ps, mid) && Resumed(ps, mid, s', id, time, target);
    var seen := mid.(lastSeen := mid.lastSeen[id := time]);
    var o: Option<nat> :| Assigned(seen, s', id, time, o)
      && target == if o.Some? && o.value < |mid.assignments| && Known(s')
                      && NumActive(s', time, |s'.assignments|) >= ps[mid.info.index].minCount
                   then Some(Square(ps[mid.info.index], mid.info, o.value, time)) else None;
    slot := o.value;
  }

  /** Nobody takes a seat away from a dancer that was seen in the last 20 turns. */
  lemma SeatIsKept(ps: seq<Positions>, s: State, s': State, id: nat, affected: bool, time: int, open: set<Vec2>,
                   target: Option<Vec2>, info: Info, a: nat, slot: nat)
    requires Inv(ps, s) && id != 0 && a != 0 && Targeted(ps, s, s', id, affected, time, open, target)
    requires Seated(s, info, a, slot, time)
    ensures Seated(s', info, a, slot, time)
  {
    hide NumActive, Within, Square;
    if !affected {
      var mid :| Refreshed(ps, s, mid, time, open) && Inv(ps, mid) && Resumed(ps, mid, s', id, time, target);
      assert mid == s;
      var seen := s.(lastSeen := s.lastSeen[id := time]);
      var o: Option<nat> :| Assigned(seen, s', id, time, o);
      assert !Vacant(seen, time, slot);
    }
  }

  /** A new area ends the dance and starts one that fits; the area already set changes nothing. */
  ghost predicate AreaSet(ps: seq<Positions>, s: State, s': State, p: set<Vec2>, time: int, open: set<Vec2>)
    requires AllRegular(ps)
  {
    if p == s.area then s' == s else Initialized(ps, s.(area := p, info := NoDance), s', time, open)
  }

  datatype Call = Target(id: nat, affected: bool, open: set<Vec2>, target: Option<Vec2>) | Area(area: set<Vec2>, open: set<Vec2>)

  ghost predicate Called(ps: seq<Positions>, s: State, s': State, c: Call, time: int)
    requires Inv(ps, s)
  {
    match c
    case Target(id, affected, open, target) => id != 0 && Targeted(ps, s, s', id, affected, time, open, target)
    case Area(area, open) => AreaSet(ps, s, s', area, time, open)
  }

  lemma CalledInv(ps: seq<Positions>, s: State, s': State, c: Call, time: int)
    requires Inv(ps, s) && Called(ps, s, s', c, time)
    ensures Inv(ps, s')
  {
    match c
    case Target(id, affected, open, target) =>
      hide *;
      TargetInArea(ps, s, s', id, affected, time, open, target);
    case Area(area, open) =>
      if area != s.area { InitializedInv(ps, s.(area := area, info := NoDance), s', time, open); }
  }

  /** Calls at their times, from a consistent state on. */
  ghost predicate Show(ps: seq<Positions>, states: seq<State>, calls: seq<Call>, times: seq<int>) {
    && |states| == |calls| + 1 && |times| == |calls| && Inv(ps, states[0])
    && (forall k :: 0 <= k < |calls| && Inv(ps, states[k]) ==> Called(ps, states[k], states[k + 1], calls[k], times[k]))
  }

  /** All states of the show are consistent. */
  lemma {:induction false} ShowInv(ps: seq<Positions>, states: seq<State>, calls: seq<Call>, times: seq<int>, k: nat)
    requires Show(ps, states, calls, times) && k <= |calls|
    ensures Inv(ps, states[k])
    ensures k < |calls| ==> Called(ps, states[k], states[k + 1], calls[k], times[k])
  {
    hide Inv, Called;
    if k > 0 {
      ShowInv(ps, states, calls, times, k - 1);
      CalledInv(ps, states[k - 1], states[k], calls[k - 1], times[k - 1]);
    }
  }

  /** Calls in one turn. */
  ghost predicate Turn(ps: seq<Positions>, states: seq<State>, calls: seq<Call>, time: int) {
    Show(ps, states, calls, seq(|calls|, k => time))
  }

  lemma TurnInv(ps: seq<Positions>, states: seq<State>, calls: seq<Call>, time: int, k: nat)
    requires Turn(ps, states, calls, time) && k <= |calls|
    ensures Inv(ps, states[k])
    ensures k < |calls| ==> Called(ps, states[k], states[k + 1], calls[k], time)
  {
    hide Inv, Called;
    ShowInv(ps, states, calls, seq(|calls|, k => time), k);
  }

  /** Every area set from call i on, before call j, is the one already set. */
  ghost predicate SameAreas(states: seq<State>, calls: seq<Call>, i: nat, j: nat)
    requires i <= j <= |calls| < |states|
  {
    forall k :: i <= k < j && calls[k].Area? ==> calls[k].area == states[k].area
  }

  lemma {:induction false} StaysSeated(ps: seq<Positions>, states: seq<State>, calls: seq<Call>, time: int, i: nat, j: nat,
                                       a: nat, slot: nat)
    requires Turn(ps, states, calls, time) && i <= j < |states| && SameAreas(states, calls, i, j)
    requires a != 0 && Seated(states[i], states[i].info, a, slot, time)
    ensures Seated(states[j], states[i].info, a, slot, time)
    decreases j - i
  {
    hide Inv, Targeted, Seated;
    if i < j {
      StaysSeated(ps, states, calls, time, i, j - 1, a, slot);
      var c := calls[j - 1];
      TurnInv(ps, states, calls, time, j - 1);
      if c.Target? {
        SeatIsKept(ps, states[j - 1], states[j], c.id, c.affected, time, c.open, c.target, states[i].info, a, slot);
      }
    }
  }

  /** At every call from i on, before call j, the dancer was seen in the last 20 turns and the dance is not too old. */
  ghost predicate Attends(states: seq<State>, times: seq<int>, info: Info, a: nat, i: nat, j: nat)
    requires i <= j <= |times| <= |states|
  {
    forall k :: i <= k < j ==>
      info.Dance? && info.startTime >= times[k] - 100 && a in states[k].lastSeen && times[k] - states[k].lastSeen[a] <= 20
  }

  lemma {:induction false} KeepsSeat(ps: seq<Positions>, states: seq<State>, calls: seq<Call>, times: seq<int>, i: nat, j: nat,
                                     a: nat, info: Info, slot: nat)
    requires Show(ps, states, calls, times) && i <= j < |calls| && SameAreas(states, calls, i, j)
    requires a != 0 && Attends(states, times, info, a, i, j + 1) && Seated(states[i], info, a, slot, times[i])
    ensures Seated(states[j], info, a, slot, times[j])
    decreases j - i
  {
    hide Inv, Targeted;
    if i < j {
      KeepsSeat(ps, states, calls, times, i, j - 1, a, info, slot);
      var c := calls[j - 1];
      ShowInv(ps, states, calls, times, j - 1);
      if c.Target? {
        SeatIsKept(ps, states[j - 1], states[j], c.id, c.affected, times[j - 1], c.open, c.target, info, a, slot);
      }
    }
  }

  /** A dancer that keeps asking is sent to the squares of one slot of one dance, each time to that of the time. */
  lemma DancesOn(ps: seq<Positions>, states: seq<State>, calls: seq<Call>, times: seq<int>, i: nat, j: nat)
      returns (info: Info, slot: nat)
    requires Show(ps, states, calls, times) && i < j < |calls| && SameAreas(states, calls, i + 1, j)
    requires calls[i].Target? && calls[j].Target? && calls[i].id == calls[j].id
    requires calls[i].target.Some? && calls[j].target.Some?
    requires Attends(states, times, states[i + 1].info, calls[i].id, i + 1, j + 1)
    ensures info.Dance? && info.index < |ps| && ps[info.index].Regular() && slot < ps[info.index].Slots()
    ensures calls[i].target == Some(Square(ps[info.index], info, slot, times[i]))
    ensures calls[j].target == Some(Square(ps[info.index], info, slot, times[j]))
  {
    hide Targeted, Square;
    var c, d := calls[i], calls[j];
    ShowInv(ps, states, calls, times, i);
    ShowInv(ps, states, calls, times, j);
    ShowInv(ps, states, calls, times, j + 1);
    slot := SentIsSeated(ps, states[i], states[i + 1], c.id, c.affected, times[i], c.open, c.target);
    info := states[i + 1].info;
    KeepsSeat(ps, states, calls, times, i + 1, j, c.id, info, slot);
    var y := SentIsSeated(ps, states[j], states[j + 1], d.id, d.affected, times[j], d.open, d.target);
    SeatIsKept(ps, states[j], states[j + 1], d.id, d.affected, times[j], d.open, d.target, info, d.id, slot);
    OneSlot(ps, states[j + 1], slot, y);
    hide Within;
  }

  lemma OneSlot(ps: seq<Positions>, s: State, x: nat, y: nat)
    requires Inv(ps, s) && x < |s.assignments| && y < |s.assignments| && s.assignments[x] == s.assignments[y] != 0
    ensures x == y
  {
  }

  /** Places of one frame all differ. */
  ghost predicate DistinctFrames(p: Positions) {
    forall f, i, j :: 0 <= f < |p.coord| && 0 <= i < j < |p.coord[f]| ==> p.coord[f][i] != p.coord[f][j]
  }

  lemma SquaresDiffer(p: Positions, info: Info, time: int, i: nat, j: nat)
    requires info.Dance? && p.Regular() && DistinctFrames(p) && i < p.Slots() && j < p.Slots() && i != j
    ensures Square(p, info, i, time) != Square(p, info, j, time)
  {
    var it := Iteration(p, info, time);
    FrameInRange(p, it);
    if i < j { SlotsDiffer(p, it, i, j); } else { SlotsDiffer(p, it, j, i); }
    var f := p.Frame(it);
    assert p.coord[f][p.Slot(it, i)] != p.coord[f][p.Slot(it, j)];
  }

  /** Two dancers that are sent somewhere in the same turn are sent to different squares, whatever calls come before,
      between and after, if no area set between the two is a new one. */
  lemma NoCollision(ps: seq<Positions>, states: seq<State>, calls: seq<Call>, time: int, i: nat, j: nat)
    requires Turn(ps, states, calls, time) && i < j < |calls| && SameAreas(states, calls, i, j)
    requires forall k :: 0 <= k < |ps| ==> DistinctFrames(ps[k])
    requires calls[i].Target? && calls[j].Target? && calls[i].id != calls[j].id
    requires calls[i].target.Some? && calls[j].target.Some?
    ensures calls[i].target != calls[j].target
  {
    hide Inv, Targeted, Square, DistinctFrames;
    var c, d := calls[i], calls[j];
    TurnInv(ps, states, calls, time, i);
    TurnInv(ps, states, calls, time, j);
    var x := SentIsSeated(ps, states[i], states[i + 1], c.id, c.affected, time, c.open, c.target);
    StaysSeated(ps, states, calls, time, i + 1, j, c.id, x);
    TurnInv(ps, states, calls, time, j + 1);
    var y := SentIsSeated(ps, states[j], states[j + 1], d.id, d.affected, time, d.open, d.target);
    SeatIsKept(ps, states[j], states[j + 1], d.id, d.affected, time, d.open, d.target, states[i + 1].info, c.id, x);
    assert ps[states[j + 1].info.index].Regular() by { RegularAt(ps, states[j + 1]); }
    SquaresDiffer(ps[states[j + 1].info.index], states[j + 1].info, time, x, y);
  }

  lemma RegularAt(ps: seq<Positions>, s: State)
    requires Inv(ps, s) && s.info.Dance?
    ensures s.info.index < |ps| && ps[s.info.index].Regular()
  {
  }

  // ----- a new area in the middle of a turn

  /** The first k of the dancers es have asked for their squares since the dance started with all slots vacant. */
  function Filled(info: Info, es: seq<nat>, slots: nat, seen: map<nat, int>, area: set<Vec2>, time: int, k: nat): State
    requires k <= |es| && k <= slots
  {
    State(info, es[..k] + seq(slots - k, i => 0), seen + map e | e in es[..k] :: time, area)
  }

  /** Different dancers, and none of them is 0. */
  predicate Dancers(es: seq<nat>) {
    Distinct(es) && 0 !in es
  }

  lemma FilledIs(info: Info, es: seq<nat>, slots: nat, seen: map<nat, int>, area: set<Vec2>, time: int, k: nat)
    requires Dancers(es) && k <= |es| && k <= slots
    ensures var s := Filled(info, es, slots, seen, area, time, k);
            && s.info == info && s.area == area && |s.assignments| == slots
            && (forall i :: 0 <= i < k ==> s.assignments[i] == es[i] != 0 && es[i] in s.lastSeen && s.lastSeen[es[i]] == time)
            && (forall i :: k <= i < slots ==> s.assignments[i] == 0)
  {
    assert forall i :: 0 <= i < k ==> es[i] in es[..k] && es[i] in es;
  }

  lemma {:induction false} FilledActive(info: Info, es: seq<nat>, slots: nat, seen: map<nat, int>, area: set<Vec2>, time: int,
                                        k: nat, n: nat)
    requires Dancers(es) && k <= |es| && k <= slots && n <= slots
    ensures Known(Filled(info, es, slots, seen, area, time, k))
    ensures |Filled(info, es, slots, seen, area, time, k).assignments| == slots
    ensures NumActive(Filled(info, es, slots, seen, area, time, k), time, n) == Min(n, k)
  {
    FilledIs(info, es, slots, seen, area, time, k);
    hide Filled;
    if n > 0 { FilledActive(info, es, slots, seen, area, time, k, n - 1); }
  }

  lemma FilledInv(ps: seq<Positions>, info: Info, es: seq<nat>, seen: map<nat, int>, area: set<Vec2>, time: int, k: nat)
    requires AllRegular(ps) && info.Dance? && info.index < |ps| && Within(ps[info.index], info.origin, area)
    requires Dancers(es) && k <= |es| && k <= ps[info.index].Slots()
    ensures Inv(ps, Filled(info, es, ps[info.index].Slots(), seen, area, time, k))
  {
    FilledIs(info, es, ps[info.index].Slots(), seen, area, time, k);
    hide Within, Filled;
  }

  /** Where the k-th dancer is sent. */
  function Sent(p: Positions, info: Info, time: int, k: nat): Option<Vec2>
    requires info.Dance? && p.Regular() && k < p.Slots()
  {
    if k + 1 >= p.minCount then Some(Square(p, info, k, time)) else None
  }

  /** The next dancer gets the next slot. */
  lemma FilledNext(ps: seq<Positions>, info: Info, es: seq<nat>, seen: map<nat, int>, area: set<Vec2>, time: int, k: nat)
    requires AllRegular(ps) && info.Dance? && info.index < |ps| && Within(ps[info.index], info.origin, area)
    requires info.startTime == time && Dancers(es) && k < |es| && k < ps[info.index].Slots()
    ensures var p := ps[info.index]; var n := p.Slots(); var s := Filled(info, es, n, seen, area, time, k);
            && Inv(ps, s)
            && Called(ps, s, Filled(info, es, n, seen, area, time, k + 1), Target(es[k], false, {}, Sent(p, info, time, k)), time)
  {
    hide Within, NumActive, Square;
    var p, n := ps[info.index], ps[info.index].Slots();
    var s, s' := Filled(info, es, n, seen, area, time, k), Filled(info, es, n, seen, area, time, k + 1);
    FilledInv(ps, info, es, seen, area, time, k);
    FilledActive(info, es, n, seen, area, time, k + 1, n);
    var asked := s.(lastSeen := s.lastSeen[es[k] := time]);
    FilledAssigned(info, es, n, seen, area, time, k, asked);
    assert Assigned(asked, s', es[k], time, Some(k));
    assert Danced(ps, s, s', es[k], time, Sent(p, info, time, k));
    assert Refreshed(ps, s, s, time, {}) && Resumed(ps, s, s', es[k], time, Sent(p, info, time, k));
  }

  lemma FilledVacant(info: Info, es: seq<nat>, slots: nat, seen: map<nat, int>, area: set<Vec2>, time: int, k: nat, asked: State)
    requires Dancers(es) && k < |es| && k < slots
    requires var s := Filled(info, es, slots, seen, area, time, k); asked == s.(lastSeen := s.lastSeen[es[k] := time])
    ensures Known(asked) && FirstVacant(asked, time, k) && es[k] !in asked.assignments
  {
    FilledIs(info, es, slots, seen, area, time, k);
    hide Filled;
    assert es[k] in es;
    assert forall i :: 0 <= i < k ==> !Vacant(asked, time, i);
  }

  lemma FilledAssigned(info: Info, es: seq<nat>, slots: nat, seen: map<nat, int>, area: set<Vec2>, time: int, k: nat,
                       asked: State)
    requires Dancers(es) && k < |es| && k < slots
    requires var s := Filled(info, es, slots, seen, area, time, k); asked == s.(lastSeen := s.lastSeen[es[k] := time])
    ensures Known(asked) && Assigned(asked, Filled(info, es, slots, seen, area, time, k + 1), es[k], time, Some(k))
  {
    var s' := Filled(info, es, slots, seen, area, time, k + 1);
    FilledVacant(info, es, slots, seen, area, time, k, asked);
    FilledSeen(info, es, slots, seen, area, time, k);
    FilledSlots(info, es, slots, seen, area, time, k);
    assert es[k] in es;
    hide Filled, FirstVacant, Known, Distinct;
    assert s' == asked.(assignments := asked.assignments[k := es[k]]);
  }

  lemma FilledSlots(info: Info, es: seq<nat>, slots: nat, seen: map<nat, int>, area: set<Vec2>, time: int, k: nat)
    requires k < |es| && k < slots
    ensures var s, s' := Filled(info, es, slots, seen, area, time, k), Filled(info, es, slots, seen, area, time, k + 1);
            && |s.assignments| == slots && s'.assignments == s.assignments[k := es[k]]
            && s.info == s'.info == info && s.area == s'.area == area
  {
  }

  lemma FilledSeen(info: Info, es: seq<nat>, slots: nat, seen: map<nat, int>, area: set<Vec2>, time: int, k: nat)
    requires k < |es| && k < slots
    ensures Filled(info, es, slots, seen, area, time, k + 1).lastSeen
            == Filled(info, es, slots, seen, area, time, k).lastSeen[es[k] := time]
  {
    assert es[..k + 1] == es[..k] + [es[k]];
  }

  /** The turn in which the first m dancers ask one after the other. */
  lemma Asking(ps: seq<Positions>, info: Info, es: seq<nat>, seen: map<nat, int>, area: set<Vec2>, time: int, m: nat)
      returns (states: seq<State>, calls: seq<Call>)
    requires AllRegular(ps) && info.Dance? && info.index < |ps| && Within(ps[info.index], info.origin, area)
    requires info.startTime == time && Dancers(es) && m <= |es| && m <= ps[info.index].Slots()
    ensures Turn(ps, states, calls, time) && |calls| == m
    ensures forall k :: 0 <= k < m ==> calls[k] == Target(es[k], false, {}, Sent(ps[info.index], info, time, k))
    ensures states[0] == Filled(info, es, ps[info.index].Slots(), seen, area, time, 0)
    ensures states[m] == Filled(info, es, ps[info.index].Slots(), seen, area, time, m)
  {
    hide Within, Square, Called, Inv;
    var p, n := ps[info.index], ps[info.index].Slots();
    states := seq(m + 1, k requires 0 <= k <= m => Filled(info, es, n, seen, area, time, k));
    calls := seq(m, k requires 0 <= k < m => Target(es[k], false, {}, Sent(p, info, time, k)));
    FilledInv(ps, info, es, seen, area, time, 0);
    forall k | 0 <= k < |calls|
      ensures Inv(ps, states[k]) && Called(ps, states[k], states[k + 1], calls[k], time)
    {
      FilledNext(ps, info, es, seen, area, time, k);
    }
  }

  lemma JoinTurns(ps: seq<Positions>, s1: seq<State>, c1: seq<Call>, c: Call, s2: seq<State>, c2: seq<Call>, time: int)
    requires Turn(ps, s1, c1, time) && Turn(ps, s2, c2, time)
    requires Inv(ps, s1[|c1|]) && Called(ps, s1[|c1|], s2[0], c, time)
    ensures Turn(ps, s1 + s2, c1 + [c] + c2, time)
  {
    hide Inv, Called;
    var states, calls := s1 + s2, c1 + [c] + c2;
    forall k | 0 <= k < |calls| && Inv(ps, states[k])
      ensures Called(ps, states[k], states[k + 1], calls[k], time)
    {
      if k < |c1| {
        assert states[k] == s1[k] && states[k + 1] == s1[k + 1] && calls[k] == c1[k];
      } else if k > |c1| {
        var l := k - |s1|;
        assert states[k] == s2[l] && states[k + 1] == s2[l + 1] && calls[k] == c2[l];
      }
    }
  }

  /** The condition on the areas is needed: whatever dance that can be danced at all fits two different areas, setting the
      second in the middle of a turn can send two dancers to the same square. */
  lemma NewAreaCollides(ps: seq<Positions>, index: nat, origin: Vec2, area: set<Vec2>, area': set<Vec2>, time: int,
                        others: seq<nat>, a: nat, b: nat)
      returns (states: seq<State>, calls: seq<Call>, i: nat, j: nat)
    requires AllRegular(ps) && index < |ps| && origin in area * area' && Within(ps[index], origin, area * area')
    requires area != area' && ps[index].minCount <= |others| + 1 <= ps[index].Slots() && a != b
    requires Dancers(others + [a]) && Dancers(others + [b])
    ensures Turn(ps, states, calls, time) && i < j < |calls| && calls[i].Target? && calls[j].Target?
    ensures calls[i].id == a && calls[j].id == b && calls[i].target.Some? && calls[i].target == calls[j].target
    ensures !SameAreas(states, calls, i, j)
  {
    hide Square, Inv, Called, Filled;
    var p, m := ps[index], |others| + 1;
    var info := Dance(index, origin, time);
    assert Within(p, origin, area) && Within(p, origin, area');
    hide Within;
    var s1, c1 := Asking(ps, info, others + [a], map[], area, time, m);
    var before := s1[m];
    TurnInv(ps, s1, c1, time, m);
    var s2, c2 := Asking(ps, info, others + [b], before.lastSeen, area', time, m);
    Restarted(ps, info, others + [a], others + [b], area, area', time, m);
    JoinTurns(ps, s1, c1, Area(area', area'), s2, c2, time);
    states, calls, i, j := s1 + s2, c1 + [Area(area', area')] + c2, m - 1, 2 * m;
    assert calls[i] == c1[m - 1] && calls[j] == c2[m - 1];
    assert calls[m] == Area(area', area') && states[m] == s1[m];
    assert states[m].area == area by { FilledIs(info, others + [a], p.Slots(), map[], area, time, m); }
  }

  /** Setting the new area may start the same dance at the same place again. */
  lemma Restarted(ps: seq<Positions>, info: Info, es: seq<nat>, es': seq<nat>, area: set<Vec2>, area': set<Vec2>, time: int, m: nat)
    requires AllRegular(ps) && info.Dance? && info.index < |ps| && info.startTime == time && area != area'
    requires info.origin in area' && Within(ps[info.index], info.origin, area')
    requires m <= |es| && m <= ps[info.index].Slots()
    requires Inv(ps, Filled(info, es, ps[info.index].Slots(), map[], area, time, m))
    ensures var n := ps[info.index].Slots(); var s := Filled(info, es, n, map[], area, time, m);
            Called(ps, s, Filled(info, es', n, s.lastSeen, area', time, 0), Area(area', area'), time)
  {
    hide Inv;
    var n := ps[info.index].Slots();
    var s := Filled(info, es, n, map[], area, time, m);
    var s' := Filled(info, es', n, s.lastSeen, area', time, 0);
    assert area' * area' == area';
    assert s'.assignments == seq(n, i => 0);
    assert s'.lastSeen == s.lastSeen;
  }

  const PAIR := Positions(Full, 1, [[Vec2(0, 0), Vec2(1, 0)]])

  /** One such turn: dancers 7 and 8 are both sent to (0, 0), because the floor grows by a square in between. */
  lemma FloorGrows() returns (states: seq<State>, calls: seq<Call>, i: nat, j: nat)
    ensures Turn([PAIR], states, calls, 50) && i < j < |calls| && calls[i].Target? && calls[j].Target?
    ensures calls[i].id == 7 && calls[j].id == 8 && calls[i].target == calls[j].target && calls[i].target.Some?
  {
    PairFits();
    hide *;
    states, calls, i, j := NewAreaCollides([PAIR], 0, Vec2(0, 0), SMALL, LARGE, 50, [], 7, 8);
  }

  const SMALL := {Vec2(0, 0), Vec2(1, 0)}
  const LARGE := {Vec2(0, 0), Vec2(1, 0), Vec2(2, 0)}

  lemma TwoPlaces(p: Positions, x: Vec2, y: Vec2, squares: set<Vec2>)
    requires p.coord == [[x, y]] && x in squares && y in squares
    ensures p.Regular() && p.Slots() == 2 && Within(p, x, squares)
  {
    forall u | Listed(p, u)
      ensures x.Plus(u.Minus(p.coord[0][0])) in squares
    {
      assert u == x || u == y;
      assert x.Plus(u.Minus(x)) == u;
    }
  }

  lemma PairFits()
    ensures AllRegular([PAIR]) && Vec2(0, 0) in SMALL * LARGE && Within([PAIR][0], Vec2(0, 0), SMALL * LARGE) && SMALL != LARGE
    ensures [PAIR][0].minCount == 1 && [PAIR][0].Slots() == 2 && Dancers([] + [7]) && Dancers([] + [8])
  {
    TwoPlaces(PAIR, Vec2(0, 0), Vec2(1, 0), SMALL * LARGE);
    hide Within, Listed, Positions.Regular, Positions.Slots;
    assert Vec2(2, 0) in LARGE && Vec2(2, 0) !in SMALL;
  }

  // ----- the object

  class Dancing {
    const positions: seq<Positions>
    var info: Info
    var assignments: seq<nat>
    var lastSeen: map<nat, int>
    var area: set<Vec2>

    ghost function St(): State
      reads this
    {
      State(info, assignments, lastSeen, area)
    }

    constructor (ps: seq<Positions>)
      requires AllRegular(ps)
      ensures positions == ps && Inv(ps, St()) && info == NoDance && area == {}
    {
      positions, info, assignments, lastSeen, area := ps, NoDance, [], map[], {};
    }

    /** Do all places lie in the area, on open squares? */
    method IsGood(p: Positions, origin: Vec2, open: set<Vec2>) returns (good: bool)
      requires p.Regular()
      ensures good <==> Within(p, origin, area * open)
    {
      for f := 0 to |p.coord|
        invariant forall g, u :: 0 <= g < f && u in p.coord[g] ==> origin.Plus(u.Minus(p.coord[0][0])) in area * open
      {
        for i := 0 to |p.coord[f]|
          invariant forall u :: u in p.coord[f][..i] ==> origin.Plus(u.Minus(p.coord[0][0])) in area * open
        {
          var target := origin.Plus(p.coord[f][i].Minus(p.coord[0][0]));
          if target !in area || target !in open {
            assert Listed(p, p.coord[f][i]);
            return false;
          }
        }
      }
      return true;
    }

    /** The dances are tried in the random order given, each at every square of the area. */
    method InitializeCurrentDance(order: seq<nat>, time: int, open: set<Vec2>)
      requires Inv(positions, St()) && info.NoDance?
      requires forall i :: i in order <==> 0 <= i < |positions|
      modifies this`info, this`assignments
      ensures Inv(positions, St()) && Initialized(positions, old(St()), St(), time, open)
    {
      hide Within;
      for n := 0 to |order|
        invariant St() == old(St())
        invariant forall k, origin :: 0 <= k < n ==> !CanStart(positions, old(St()), open, order[k], origin)
      {
        assert order[n] in order;
        var candidate := positions[order[n]];
        var left := area;
        while left != {}
          invariant left <= area && St() == old(St())
          invariant forall origin :: origin in area - left ==> !Within(candidate, origin, area * open)
        {
          var origin :| origin in left;
          left := left - {origin};
          var good := IsGood(candidate, origin, open);
          if good {
            info := Dance(order[n], origin, time);
            assignments := seq(candidate.Slots(), i => 0);
            InitializedInv(positions, old(St()), St(), time, open);
            return;
          }
        }
      }
      forall index: nat, origin
        ensures !CanStart(positions, old(St()), open, index, origin)
      {
        if index < |positions| {
          assert index in order;
          var k :| 0 <= k < |order| && order[k] == index;
          assert !CanStart(positions, old(St()), open, order[k], origin);
        }
      }
    }

    method SetArea(p: set<Vec2>, order: seq<nat>, time: int, open: set<Vec2>)
      requires Inv(positions, St())
      requires forall i :: i in order <==> 0 <= i < |positions|
      modifies this`info, this`assignments, this`area
      ensures Inv(positions, St())
      ensures AreaSet(positions, old(St()), St(), p, time, open)
    {
      if p != area {
        area := p;
        info := NoDance;
        InitializeCurrentDance(order, time, open);
      }
    }

    method AssignCreatureIndex(id: nat, time: int) returns (slot: Option<nat>)
      requires Inv(positions, St()) && id != 0 && id in lastSeen
      modifies this`assignments
      ensures Inv(positions, St()) && Assigned(old(St()), St(), id, time, slot)
    {
      hide Within;
      for i := 0 to |assignments|
        invariant St() == old(St()) && id !in assignments[..i]
      {
        if assignments[i] == id {
          return Some(i);
        }
      }
      assert assignments[..|assignments|] == assignments;
      for i := 0 to |assignments|
        invariant St() == old(St()) && forall j :: 0 <= j < i ==> !Vacant(St(), time, j)
      {
        if assignments[i] == 0 || time - lastSeen[assignments[i]] > 20 {
          assert FirstVacant(St(), time, i);
          assignments := assignments[i := id];
          AssignedInv(positions, old(St()), St(), id, time, Some(i));
          return Some(i);
        }
      }
      return None;
    }

    method GetNumActive(time: int) returns (res: nat)
      requires Known(St())
      ensures res == NumActive(St(), time, |assignments|) == |ActiveSlots(St(), time, |assignments|)|
    {
      res := 0;
      for n := 0 to |assignments|
        invariant res == NumActive(St(), time, n)
      {
        if assignments[n] != 0 && time - lastSeen[assignments[n]] < 20 {
          res := res + 1;
        }
      }
      NumActiveIs(St(), time, |assignments|);
    }

    method GetTarget(id: nat, affected: bool, time: int, order: seq<nat>, open: set<Vec2>) returns (target: Option<Vec2>)
      requires Inv(positions, St()) && id != 0
      requires forall i :: i in order <==> 0 <= i < |positions|
      modifies this`info, this`assignments, this`lastSeen
      ensures Inv(positions, St()) && Targeted(positions, old(St()), St(), id, affected, time, open, target)
    {
      hide Within, NumActive, Initialized;
      if info.NoDance? || affected {
        return None;
      }
      if info.startTime < time - 100 {
        info := NoDance;
        InitializeCurrentDance(order, time, open);
      }
      ghost var mid := St();
      assert Refreshed(positions, old(St()), mid, time, open);
      if info.NoDance? {
        assert Resumed(positions, mid, St(), id, time, None);
        return None;
      }
      target := Step(id, time);
      assert Resumed(positions, mid, St(), id, time, target);
    }

    /** The part of the call after the dance is known. */
    method Step(id: nat, time: int) returns (target: Option<Vec2>)
      requires Inv(positions, St()) && id != 0 && info.Dance?
      modifies this`assignments, this`lastSeen
      ensures Inv(positions, St()) && Danced(positions, old(St()), St(), id, time, target)
    {
      hide Within, NumActive, Square;
      var curPos := positions[info.index];
      lastSeen := lastSeen[id := time];
      var iteration := Iteration(curPos, info, time);
      var index := AssignCreatureIndex(id, time);
      if index.None? {
        return None;
      }
      var active := GetNumActive(time);
      if active < curPos.minCount {
        return None;
      }
      target := Some(info.origin.Plus(curPos.Get(iteration, index.value).Minus(curPos.coord[0][0])));
      SquareIs(curPos, info, index.value, time);
    }
  }

  lemma SquareIs(p: Positions, info: Info, slot: nat, time: int)
    requires info.Dance? && p.Regular() && slot < p.Slots()
    ensures Square(p, info, slot, time) == info.origin.Plus(p.Get(Iteration(p, info, time), slot).Minus(p.coord[0][0]))
  {
  }
}
