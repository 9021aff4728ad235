/** Timed buffs of a creature: the list of buffs with their expiry, and the count kept for each kind. */
module BuffEngine {

  /** expiry is the last moment at which the buff lasts. */
  datatype Buff = Buff(id: nat, expiry: int)

  /** stacking kinds may be had more than once; a body may be immune to kinds. */
  datatype Kinds = Kinds(stacks: set<nat>, immune: set<nat>)

  datatype State = State(buffs: seq<Buff>, count: map<nat, nat>)

  function Count(s: seq<Buff>, id: nat): nat {
    if s == [] then 0 else Count(s[..|s| - 1], id) + if s[|s| - 1].id == id then 1 else 0
  }

  /** The count of every kind is right, zeros are not stored, and a kind that does not stack occurs once at most. */
  ghost predicate Inv(k: Kinds, s: State) {
    && (forall id :: id in s.count <==> Count(s.buffs, id) > 0)
    && (forall id :: id in s.count ==> s.count[id] == Count(s.buffs, id))
    && (forall i, j :: 0 <= i < j < |s.buffs| && s.buffs[i].id == s.buffs[j].id ==> s.buffs[i].id in k.stacks)
  }

  function CountOf(s: State, id: nat): nat {
    if id in s.count then s.count[id] else 0
  }

  /** The container's removal: the last element takes the place of the removed one, or the rest moves down. */
  function RemoveIndex(s: seq<Buff>, i: nat, swap: bool): seq<Buff>
    requires i < |s|
  {
    if swap then s[i := s[|s| - 1]][..|s| - 1] else s[..i] + s[i + 1..]
  }

  lemma {:induction false} CountAt(s: seq<Buff>, i: nat, id: nat)
    requires i < |s| && s[i].id == id
    ensures Count(s, id) > 0
  {
    if i < |s| - 1 { CountAt(s[..|s| - 1], i, id); }
  }

  lemma {:induction false} CountZero(s: seq<Buff>, id: nat)
    requires forall i :: 0 <= i < |s| ==> s[i].id != id
    ensures Count(s, id) == 0
  {
    if s != [] { CountZero(s[..|s| - 1], id); }
  }

  lemma {:induction false} CountUpdate(s: seq<Buff>, i: nat, b: Buff, id: nat)
    requires i < |s|
    ensures Count(s[i := b], id) == Count(s, id) - (if s[i].id == id then 1 else 0) + (if b.id == id then 1 else 0)
  {
    var n := |s| - 1;
    if i < n {
      CountUpdate(s[..n], i, b, id);
      assert s[i := b][..n] == s[..n][i := b];
    } else {
      assert s[i := b][..n] == s[..n];
    }
  }

  lemma {:induction false} CountConcat(a: seq<Buff>, b: seq<Buff>, id: nat)
    ensures Count(a + b, id) == Count(a, id) + Count(b, id)
  {
    if b == [] {
      assert a + b == a;
    } else {
      CountConcat(a, b[..|b| - 1], id);
      assert (a + b)[..|a + b| - 1] == a + b[..|b| - 1];
    }
  }

  lemma CountRemoved(s: seq<Buff>, i: nat, swap: bool, id: nat)
    requires i < |s|
    ensures Count(RemoveIndex(s, i, swap), id) == Count(s, id) - if s[i].id == id then 1 else 0
  {
    if swap {
      var t := s[i := s[|s| - 1]];
      CountUpdate(s, i, s[|s| - 1], id);
    } else {
      assert s == s[..i] + ([s[i]] + s[i + 1..]);
      CountConcat(s[..i], [s[i]] + s[i + 1..], id);
      CountConcat([s[i]], s[i + 1..], id);
      CountConcat(s[..i], s[i + 1..], id);
      assert [s[i]][..0] == [];
    }
  }

  lemma UpdatedMultiset(s: seq<Buff>, i: nat, b: Buff)
    requires i < |s|
    ensures multiset(s[i := b]) == multiset(s) - multiset{s[i]} + multiset{b}
  {
  }

  lemma LastMultiset(s: seq<Buff>)
    requires s != []
    ensures multiset(s[..|s| - 1]) == multiset(s) - multiset{s[|s| - 1]}
  {
    assert s == s[..|s| - 1] + [s[|s| - 1]];
  }

  lemma SwapMultiset(s: seq<Buff>, i: nat)
    requires i < |s|
    ensures multiset(s[i := s[|s| - 1]][..|s| - 1]) == multiset(s) - multiset{s[i]}
  {
    var t := s[i := s[|s| - 1]];
    UpdatedMultiset(s, i, s[|s| - 1]);
    LastMultiset(t);
    assert t[|t| - 1] == s[|s| - 1];
    assert s[i] in multiset(s);
  }

  lemma ShiftMultiset(s: seq<Buff>, i: nat)
    requires i < |s|
    ensures multiset(s[..i] + s[i + 1..]) == multiset(s) - multiset{s[i]}
  {
    assert s == s[..i] + [s[i]] + s[i + 1..];
  }

  /** Either removal takes out exactly one occurrence, and leaves what is in front of it. */
  lemma RemovedMultiset(s: seq<Buff>, i: nat, swap: bool)
    requires i < |s|
    ensures multiset(RemoveIndex(s, i, swap)) == multiset(s) - multiset{s[i]}
    ensures RemoveIndex(s, i, swap)[..i] == s[..i]
  {
    if swap { SwapMultiset(s, i); } else { ShiftMultiset(s, i); }
  }

  // ----- the operations

  /** The first buff of the kind, or the length of the list. */
  function First(s: seq<Buff>, id: nat, from: nat): (i: nat)
    requires from <= |s|
    ensures from <= i <= |s| && (i < |s| ==> s[i].id == id) && forall j :: from <= j < i ==> s[j].id != id
    decreases |s| - from
  {
    if from == |s| || s[from].id == id then from else First(s, id, from + 1)
  }

  function Added(k: Kinds, s: State, id: nat, until: int): State {
    var i := First(s.buffs, id, 0);
    if id in k.immune then s
    else if id !in k.stacks && i < |s.buffs| then
      if s.buffs[i].expiry < until then s.(buffs := s.buffs[i := Buff(id, until)]) else s
    else State(s.buffs + [Buff(id, until)], s.count[id := CountOf(s, id) + 1])
  }

  function BuffRemoved(s: State, i: nat, swap: bool): State
    requires i < |s.buffs|
  {
    var id := s.buffs[i].id;
    State(RemoveIndex(s.buffs, i, swap), if CountOf(s, id) <= 1 then s.count - {id} else s.count[id := CountOf(s, id) - 1])
  }

  function Removed(s: State, id: nat): State {
    var i := First(s.buffs, id, 0);
    if i < |s.buffs| then BuffRemoved(s, i, true) else s
  }

  /** From the end of the copied list down to n: expired buffs are removed at their old index. */
  function Sweep(copy: seq<Buff>, s: State, time: int, n: nat, swap: bool): (r: State)
    requires n <= |copy| && s.buffs == copy
    ensures |r.buffs| >= n && r.buffs[..n] == copy[..n]
    decreases |copy| - n
  {
    if n == |copy| then s
    else
      var r := Sweep(copy, s, time, n + 1, swap);
      assert r.buffs[..n + 1][..n] == copy[..n] && r.buffs[..n + 1][n] == copy[n];
      if copy[n].expiry < time then
        RemovedMultiset(r.buffs, n, swap);
        assert |BuffRemoved(r, n, swap).buffs| >= n;
        BuffRemoved(r, n, swap)
      else r
  }

  lemma AddedInv(k: Kinds, s: State, id: nat, until: int)
    requires Inv(k, s)
    ensures Inv(k, Added(k, s, id, until))
  {
    var i := First(s.buffs, id, 0);
    var s' := Added(k, s, id, until);
    if id !in k.immune {
      if id !in k.stacks && i < |s.buffs| {
        forall x
          ensures Count(s'.buffs, x) == Count(s.buffs, x)
        {
          CountUpdate(s.buffs, i, Buff(id, until), x);
        }
      } else {
        assert s'.buffs[..|s'.buffs| - 1] == s.buffs;
      }
    }
  }

  lemma BuffRemovedInv(k: Kinds, s: State, i: nat, swap: bool)
    requires Inv(k, s) && i < |s.buffs|
    ensures Inv(k, BuffRemoved(s, i, swap))
  {
    forall x
      ensures Count(RemoveIndex(s.buffs, i, swap), x) == Count(s.buffs, x) - if s.buffs[i].id == x then 1 else 0
    {
      CountRemoved(s.buffs, i, swap, x);
    }
    CountAt(s.buffs, i, s.buffs[i].id);
  }

  lemma {:induction false} SweepInv(k: Kinds, s: State, time: int, n: nat, swap: bool)
    requires Inv(k, s) && n <= |s.buffs|
    ensures Inv(k, Sweep(s.buffs, s, time, n, swap))
    decreases |s.buffs| - n
  {
    hide Inv, BuffRemoved;
    if n < |s.buffs| {
      SweepInv(k, s, time, n + 1, swap);
      if s.buffs[n].expiry < time { BuffRemovedInv(k, Sweep(s.buffs, s, time, n + 1, swap), n, swap); }
    }
  }

  /** What is left when the buffs from n on are swept: all of the first n, and of the others those that have not expired.
      This holds of both kinds of removal. */
  lemma {:induction false} SweepExact(s: State, time: int, n: nat, swap: bool, b: Buff)
    requires n <= |s.buffs|
    ensures multiset(Sweep(s.buffs, s, time, n, swap).buffs)[b]
            == multiset(s.buffs[..n])[b] + if b.expiry < time then 0 else multiset(s.buffs[n..])[b]
    decreases |s.buffs| - n
  {
    hide RemoveIndex, BuffRemoved;
    if n == |s.buffs| {
      assert s.buffs[..n] == s.buffs;
    } else {
      SweepExact(s, time, n + 1, swap, b);
      var r := Sweep(s.buffs, s, time, n + 1, swap);
      assert s.buffs[..n + 1] == s.buffs[..n] + [s.buffs[n]];
      assert s.buffs[n..] == [s.buffs[n]] + s.buffs[n + 1..];
      assert r.buffs[..n + 1][n] == s.buffs[n];
      if s.buffs[n].expiry < time {
        RemovedMultiset(r.buffs, n, swap);
        BuffsRemoved(r, n, swap);
        assert multiset(r.buffs)[r.buffs[n]] > 0;
      }
    }
  }

  lemma BuffsRemoved(s: State, i: nat, swap: bool)
    requires i < |s.buffs|
    ensures BuffRemoved(s, i, swap).buffs == RemoveIndex(s.buffs, i, swap)
  {
  }

  // ----- a timer for each kind that does not stack

  datatype Op = Add(id: nat, until: int) | Remove(id: nat) | Process(time: int)

  function Step(k: Kinds, s: State, op: Op): State {
    match op
    case Add(id, until) => Added(k, s, id, until)
    case Remove(id) => Removed(s, id)
    case Process(time) => Sweep(s.buffs, s, time, 0, true)
  }

  function Run(k: Kinds, ops: seq<Op>): State {
    if ops == [] then State([], map[]) else Step(k, Run(k, ops[..|ops| - 1]), ops[|ops| - 1])
  }

  datatype Timer = Off | Until(expiry: int)

  function TimerStep(t: Timer, id: nat, op: Op): Timer {
    match op
    case Add(x, until) => if x == id && (t.Off? || t.expiry < until) then Until(until) else t
    case Remove(x) => if x == id then Off else t
    case Process(time) => if t.Until? && t.expiry < time then Off else t
  }

  /** One timer: started or extended by additions, stopped by removal and by time. */
  function TimerRun(id: nat, ops: seq<Op>): Timer {
    if ops == [] then Off else TimerStep(TimerRun(id, ops[..|ops| - 1]), id, ops[|ops| - 1])
  }

  /** The buffs of this kind are exactly the timer's. */
  ghost predicate Shows(s: seq<Buff>, id: nat, t: Timer) {
    forall b: Buff :: b.id == id ==> multiset(s)[b] == if t == Until(b.expiry) then 1 else 0
  }

  lemma StepInv(k: Kinds, s: State, op: Op)
    requires Inv(k, s)
    ensures Inv(k, Step(k, s, op))
  {
    hide Inv, Added, BuffRemoved, Sweep, First;
    match op
    case Add(id, until) => AddedInv(k, s, id, until);
    case Remove(id) => if First(s.buffs, id, 0) < |s.buffs| { BuffRemovedInv(k, s, First(s.buffs, id, 0), true); }
    case Process(time) => SweepInv(k, s, time, 0, true);
  }

  lemma {:induction false} RunInv(k: Kinds, ops: seq<Op>)
    ensures Inv(k, Run(k, ops))
  {
    hide Inv, Step;
    if ops == [] {
      StartInv(k);
    } else {
      RunInv(k, ops[..|ops| - 1]);
      StepInv(k, Run(k, ops[..|ops| - 1]), ops[|ops| - 1]);
    }
  }

  lemma StartInv(k: Kinds)
    ensures Inv(k, State([], map[]))
  {
  }

  lemma ShowsAt(s: seq<Buff>, id: nat, t: Timer)
    requires Shows(s, id, t)
    ensures var i := First(s, id, 0); if i < |s| then t == Until(s[i].expiry) else t == Off
  {
    var i := First(s, id, 0);
    if t.Until? { OnIsListed(s, id, t.expiry); }
    if i < |s| { assert s[i] in multiset(s); }
  }

  lemma OnIsListed(s: seq<Buff>, id: nat, expiry: int)
    requires Shows(s, id, Until(expiry))
    ensures exists j :: 0 <= j < |s| && s[j].id == id
  {
    assert Buff(id, expiry) in multiset(s);
    assert Buff(id, expiry) in s;
  }

  /** The kind itself is added: its buff is extended, or a new one pushed. */
  lemma OwnShows(k: Kinds, s: State, id: nat, t: Timer, until: int)
    requires Shows(s.buffs, id, t) && id !in k.stacks && id !in k.immune
    ensures Shows(Added(k, s, id, until).buffs, id, TimerStep(t, id, Add(id, until)))
  {
    ShowsAt(s.buffs, id, t);
    var i := First(s.buffs, id, 0);
    if i < |s.buffs| {
      UpdatedMultiset(s.buffs, i, Buff(id, until));
      assert multiset(s.buffs)[s.buffs[i]] == 1;
    }
  }

  /** Another kind is added. */
  lemma OtherShows(k: Kinds, s: State, id: nat, t: Timer, x: nat, until: int)
    requires Shows(s.buffs, id, t) && x != id
    ensures Shows(Added(k, s, x, until).buffs, id, t)
  {
  }

  lemma AddedShows(k: Kinds, s: State, id: nat, t: Timer, x: nat, until: int)
    requires Shows(s.buffs, id, t) && id !in k.stacks && id !in k.immune
    ensures Shows(Added(k, s, x, until).buffs, id, TimerStep(t, id, Add(x, until)))
  {
    hide Added, Shows;
    if x == id { OwnShows(k, s, id, t, until); } else { OtherShows(k, s, id, t, x, until); }
  }

  lemma RemovedShows(k: Kinds, s: State, id: nat, t: Timer, x: nat)
    requires Inv(k, s) && Shows(s.buffs, id, t) && id !in k.stacks
    ensures Shows(Removed(s, x).buffs, id, TimerStep(t, id, Remove(x)))
  {
    ShowsAt(s.buffs, id, t);
    var i := First(s.buffs, x, 0);
    if i < |s.buffs| { RemovedMultiset(s.buffs, i, true); }
  }

  lemma SweptShows(s: State, id: nat, t: Timer, time: int)
    requires Shows(s.buffs, id, t)
    ensures Shows(Sweep(s.buffs, s, time, 0, true).buffs, id, TimerStep(t, id, Process(time)))
  {
    hide Sweep;
    forall b: Buff | b.id == id
      ensures multiset(Sweep(s.buffs, s, time, 0, true).buffs)[b] == if b.expiry < time then 0 else multiset(s.buffs)[b]
    {
      SweepExact(s, time, 0, true, b);
      assert s.buffs[0..] == s.buffs;
    }
  }

  /** After every run of additions, removals and expiries, a kind that does not stack is on exactly while its timer is,
      once, and with the timer's expiry. */
  lemma {:induction false} RunIsTimers(k: Kinds, ops: seq<Op>, id: nat)
    requires id !in k.stacks && id !in k.immune
    ensures Shows(Run(k, ops).buffs, id, TimerRun(id, ops))
  {
    hide Added, Removed, Sweep, TimerStep, Inv, Shows;
    if ops == [] {
      NothingShows(id);
    } else {
      var before, op := ops[..|ops| - 1], ops[|ops| - 1];
      RunIsTimers(k, before, id);
      RunInv(k, before);
      match op
      case Add(x, until) => AddedShows(k, Run(k, before), id, TimerRun(id, before), x, until);
      case Remove(x) => RemovedShows(k, Run(k, before), id, TimerRun(id, before), x);
      case Process(time) => SweptShows(Run(k, before), id, TimerRun(id, before), time);
    }
  }

  lemma NothingShows(id: nat)
    ensures Shows([], id, Off)
  {
  }

  // ----- kinds that stack, and immunity

  /** How many buffs of this kind have this expiry. */
  function Having(s: seq<Buff>, id: nat, expiry: int): nat {
    multiset(s)[Buff(id, expiry)]
  }

  /** What a step does to a kind that stacks: an addition is one more, a removal takes one away if there is one, and time
      takes all that have expired. */
  ghost predicate Stacked(s: seq<Buff>, op: Op, id: nat, s': seq<Buff>) {
    match op
    case Add(x, until) => forall e :: Having(s', id, e) == Having(s, id, e) + if x == id && e == until then 1 else 0
    case Remove(x) =>
      if x == id && exists e :: Having(s, id, e) > 0
      then exists e :: Having(s, id, e) > 0 && forall f :: Having(s', id, f) == Having(s, id, f) - if f == e then 1 else 0
      else forall f :: Having(s', id, f) == Having(s, id, f)
    case Process(time) => forall e :: Having(s', id, e) == if e < time then 0 else Having(s, id, e)
  }

  lemma StackedStep(k: Kinds, s: State, op: Op, id: nat)
    requires id in k.stacks && id !in k.immune
    ensures Stacked(s.buffs, op, id, Step(k, s, op).buffs)
  {
    hide Sweep;
    match op
    case Add(x, until) => AddedStacks(k, s, x, until);
    case Remove(x) => RemovedStacks(s, x, id);
    case Process(time) =>
      forall e
        ensures Having(Sweep(s.buffs, s, time, 0, true).buffs, id, e) == if e < time then 0 else Having(s.buffs, id, e)
      {
        SweepExact(s, time, 0, true, Buff(id, e));
        assert s.buffs[0..] == s.buffs;
      }
  }

  lemma AddedStacks(k: Kinds, s: State, x: nat, until: int)
    ensures forall id, e :: id in k.stacks && id !in k.immune ==>
              Having(Added(k, s, x, until).buffs, id, e) == Having(s.buffs, id, e) + if x == id && e == until then 1 else 0
  {
  }

  lemma RemovedStacks(s: State, x: nat, id: nat)
    ensures Stacked(s.buffs, Remove(x), id, Removed(s, x).buffs)
  {
    hide Stacked, RemoveIndex, BuffRemoved, First;
    var i := First(s.buffs, x, 0);
    if i < |s.buffs| {
      RemovedMultiset(s.buffs, i, true);
      BuffsRemoved(s, i, true);
      OneTaken(s.buffs, Removed(s, x).buffs, s.buffs[i], id);
    } else {
      NoneTaken(s.buffs, x, id);
    }
  }

  lemma OneTaken(s: seq<Buff>, s': seq<Buff>, b: Buff, id: nat)
    requires b in s && multiset(s') == multiset(s) - multiset{b}
    ensures Stacked(s, Remove(b.id), id, s')
  {
    assert b in multiset(s);
    assert Having(s, b.id, b.expiry) > 0;
    assert forall e :: Having(s', id, e) == Having(s, id, e) - if b == Buff(id, e) then 1 else 0;
    hide Having;
  }

  lemma NoneTaken(s: seq<Buff>, x: nat, id: nat)
    requires First(s, x, 0) == |s|
    ensures Stacked(s, Remove(x), id, s)
  {
    NoneHad(s, x);
    hide Having, First;
  }

  lemma NoneHad(s: seq<Buff>, x: nat)
    requires First(s, x, 0) == |s|
    ensures forall e :: Having(s, x, e) == 0
  {
    forall e
      ensures Having(s, x, e) == 0
    {
      assert Buff(x, e) !in s;
    }
  }

  /** The additions of this buff that no later moment of the run ends. */
  function Lasting(ops: seq<Op>, id: nat, expiry: int): nat {
    if ops == [] then 0
    else
      var n := Lasting(ops[..|ops| - 1], id, expiry);
      match ops[|ops| - 1]
      case Add(x, until) => if x == id && until == expiry then n + 1 else n
      case Remove(_) => n
      case Process(time) => if expiry < time then 0 else n
  }

  /** Over every run in which a kind that stacks is not removed, its buffs are its additions that have not expired. */
  lemma {:induction false} RunStacks(k: Kinds, ops: seq<Op>, id: nat, expiry: int)
    requires id in k.stacks && id !in k.immune && Remove(id) !in ops
    ensures Having(Run(k, ops).buffs, id, expiry) == Lasting(ops, id, expiry)
  {
    hide Step, Having;
    if ops == [] {
      assert Having([], id, expiry) == 0 by { NothingHad(id, expiry); }
    } else {
      var before, op := ops[..|ops| - 1], ops[|ops| - 1];
      assert ops == before + [op];
      RunStacks(k, before, id, expiry);
      StackedStep(k, Run(k, before), op, id);
    }
  }

  lemma NothingHad(id: nat, expiry: int)
    ensures Having([], id, expiry) == 0
  {
  }

  /** A kind to which the body is immune never occurs. */
  lemma {:induction false} NeverImmune(k: Kinds, ops: seq<Op>, id: nat)
    requires id in k.immune
    ensures forall b :: b in Run(k, ops).buffs ==> b.id != id
  {
    hide Sweep;
    if ops != [] {
      var before, op := ops[..|ops| - 1], ops[|ops| - 1];
      NeverImmune(k, before, id);
      var s := Run(k, before);
      match op
      case Add(_, _) =>
      case Remove(x) => RemovedFewer(s, x);
      case Process(time) =>
        forall b | b in Sweep(s.buffs, s, time, 0, true).buffs
          ensures b in s.buffs
        {
          SweepExact(s, time, 0, true, b);
          assert s.buffs[0..] == s.buffs;
          assert b in multiset(Sweep(s.buffs, s, time, 0, true).buffs);
        }
    }
  }

  lemma RemovedFewer(s: State, x: nat)
    ensures forall b :: b in Removed(s, x).buffs ==> b in s.buffs
  {
  }

  // ----- the object

  class Creature {
    const kinds: Kinds
    var buffs: seq<Buff>
    var buffCount: map<nat, nat>

    ghost function St(): State
      reads this
    {
      State(buffs, buffCount)
    }

    /** True exactly when the effect of the buff starts: it was not on before, or it stacks. */
    method AddEffect(id: nat, time: int, global: int) returns (started: bool)
      requires Inv(kinds, St())
      modifies this`buffs, this`buffCount
      ensures St() == Added(kinds, old(St()), id, global + time) && Inv(kinds, St())
      ensures started <==> id !in kinds.immune && (id !in old(buffCount) || id in kinds.stacks)
    {
      AddedInv(kinds, St(), id, global + time);
      if id in kinds.immune {
        return false;
      }
      if id !in kinds.stacks {
        for i := 0 to |buffs|
          invariant St() == old(St()) && forall j :: 0 <= j < i ==> buffs[j].id != id
        {
          if buffs[i].id == id {
            CountAt(buffs, i, id);
            if buffs[i].expiry < global + time {
              buffs := buffs[i := Buff(id, global + time)];
            }
            return false;
          }
        }
        CountZero(buffs, id);
      }
      buffs := buffs + [Buff(id, global + time)];
      buffCount := buffCount[id := (if id in buffCount then buffCount[id] else 0) + 1];
      return buffCount[id] == 1 || id in kinds.stacks;
    }

    /** True exactly when the effect of the buff ends: it is off now, or it stacks. */
    method RemoveBuff(index: nat) returns (ended: bool)
      requires Inv(kinds, St()) && index < |buffs|
      modifies this`buffs, this`buffCount
      ensures St() == BuffRemoved(old(St()), index, true) && Inv(kinds, St())
      ensures ended <==> old(buffs)[index].id !in buffCount || old(buffs)[index].id in kinds.stacks
    {
      BuffRemovedInv(kinds, St(), index, true);
      CountAt(buffs, index, buffs[index].id);
      var id := buffs[index].id;
      buffs := buffs[index := buffs[|buffs| - 1]][..|buffs| - 1];
      buffCount := buffCount[id := buffCount[id] - 1];
      if buffCount[id] == 0 || id in kinds.stacks {
        if buffCount[id] == 0 {
          buffCount := buffCount - {id};
        }
        return true;
      }
      return false;
    }

    method RemoveEffect(id: nat) returns (ended: bool)
      requires Inv(kinds, St())
      modifies this`buffs, this`buffCount
      ensures St() == Removed(old(St()), id) && Inv(kinds, St())
      ensures ended <==> id in old(buffCount) && (id !in buffCount || id in kinds.stacks)
    {
      for i := 0 to |buffs|
        invariant St() == old(St()) && forall j :: 0 <= j < i ==> buffs[j].id != id
      {
        if buffs[i].id == id {
          CountAt(buffs, i, id);
          ended := RemoveBuff(i);
          return;
        }
      }
      CountZero(buffs, id);
      return false;
    }

    /** The loop that ends expired buffs.  The creature may die of the tick of a buff; then the rest is left as it is. */
    method ProcessBuffs(time: int, dies: nat -> bool) returns (dead: bool, ghost n: nat)
      requires Inv(kinds, St())
      modifies this`buffs, this`buffCount
      ensures Inv(kinds, St()) && n <= |old(buffs)| && St() == Sweep(old(buffs), old(St()), time, n, true)
      ensures dead <==> exists i :: 0 <= i < |old(buffs)| && dies(i)
      ensures if dead then n < |old(buffs)| && dies(n) else n == 0
      ensures forall i :: n < i < |old(buffs)| ==> !dies(i)
    {
      hide Inv, BuffRemoved;
      var buffsCopy := buffs;
      n := |buffsCopy|;
      var index := |buffsCopy|;
      while index > 0
        invariant 0 <= index == n <= |buffsCopy|
        invariant Inv(kinds, St()) && St() == Sweep(buffsCopy, old(St()), time, n, true)
        invariant forall i :: n <= i < |buffsCopy| ==> !dies(i)
      {
        index := index - 1;
        n := n - 1;
        if buffsCopy[index].expiry < time {
          var _ := RemoveBuff(index);
        }
        if dies(index) {
          return true, n;
        }
      }
      return false, n;
    }
  }
}
