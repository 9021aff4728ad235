/** What becomes of the resources that the start of a construction took: when giving up the plan returns them. */
module Refunds {
  import opened Collections
  import opened Grid
  import opened Constructions
  import opened Economy

  /** At most one task has the id. */
  ghost predicate Single(tasks: seq<Task>, id: int) {
    forall i, j :: 0 <= i < |tasks| && 0 <= j < |tasks| && tasks[i].id == id && tasks[j].id == id ==> i == j
  }

  ghost predicate NobodyElse(p: Plans, key: Key, t: int) {
    forall k :: k in p.furniture && k != key ==> p.furniture[k].task != t
  }

  /** The plan of the place waits for its task t, which is listed with what was paid for it. */
  ghost predicate Bound(cfg: Setting, g: Game, key: Key, t: int, cost: Cost) {
    && Pending(cfg.cat, g.world, g.st.plans, key) && g.st.plans.furniture[key].task == t && NobodyElse(g.st.plans, key, t)
    && 0 <= t < g.st.nextTask && HasTask(g.st.tasks, t) && Single(g.st.tasks, t)
    && g.st.tasks[Find(g.st.tasks, t)].cost == cost
  }

  /** The task is no longer listed for the plan, or the plan is gone. */
  ghost predicate Parted(cfg: Setting, g: Game, key: Key, t: int) {
    && 0 <= t < g.st.nextTask
    && (key in g.st.plans.furniture ==>
          Pending(cfg.cat, g.world, g.st.plans, key) && g.st.plans.furniture[key].task == t && !HasTask(g.st.tasks, t))
  }

  /** Steps that plan, finish or give up the place themselves. */
  predicate Settles(op: Op, key: Key) {
    (op.Plan? || op.Finish? || op.Cancel?) && op.key == key
  }

  /** The step drops the plan for lack of support, or takes its done task off the list. */
  predicate Separates(g: Game, op: Op, key: Key, t: int) {
    match op
    case Unsupport(k) => k == key
    case Sweep => HasTask(g.st.tasks, t) && g.st.tasks[Find(g.st.tasks, t)].IsDone()
    case Release(task, _, _) => task == t
    case _ => false
  }

  // ----- the list of tasks

  /** The tasks with this id are the same in both lists. */
  ghost predicate SameTask(tasks: seq<Task>, tasks': seq<Task>, t: int) {
    HasTask(tasks', t) && Single(tasks', t) && HasTask(tasks, t)
    && tasks'[Find(tasks', t)].cost == tasks[Find(tasks, t)].cost
  }

  lemma {:induction false} AppendedTask(tasks: seq<Task>, n: Task, t: int)
    requires n.id != t
    ensures HasTask(tasks + [n], t) <==> HasTask(tasks, t)
    ensures HasTask(tasks, t) && Single(tasks, t) ==> SameTask(tasks, tasks + [n], t)
  {
    if HasTask(tasks, t) {
      var i := Find(tasks, t);
      assert (tasks + [n])[i].id == t;
    }
  }

  lemma {:induction false} FlaggedTask(tasks: seq<Task>, i: nat, n: Task, t: int)
    requires i < |tasks| && n.id == tasks[i].id && n.cost == tasks[i].cost
    ensures HasTask(tasks[i := n], t) <==> HasTask(tasks, t)
    ensures HasTask(tasks, t) && Single(tasks, t) ==> SameTask(tasks, tasks[i := n], t)
  {
    if HasTask(tasks, t) {
      var j := Find(tasks, t);
      assert tasks[i := n][j].id == t;
    }
    if HasTask(tasks[i := n], t) {
      var j := Find(tasks[i := n], t);
      assert tasks[j].id == t;
    }
  }

  /** Where the tasks are after one has been removed. */
  lemma {:induction false} WithoutAt(tasks: seq<Task>, u: int)
    requires HasTask(tasks, u)
    ensures |WithoutTask(tasks, u)| == |tasks| - 1
    ensures forall k :: 0 <= k < |tasks| - 1 ==> WithoutTask(tasks, u)[k] == tasks[if k < Find(tasks, u) then k else k + 1]
  {
    hide HasTask;
    var i := Find(tasks, u);
    assert WithoutTask(tasks, u) == tasks[..i] + tasks[i + 1..];
    hide Find;
  }

  lemma {:induction false} OtherTaskStays(tasks: seq<Task>, u: int, t: int)
    requires u != t
    ensures HasTask(WithoutTask(tasks, u), t) <==> HasTask(tasks, t)
  {
    if HasTask(tasks, u) {
      WithoutAt(tasks, u);
      hide WithoutTask;
      var i, r := Find(tasks, u), WithoutTask(tasks, u);
      if HasTask(tasks, t) {
        var j := Find(tasks, t);
        assert r[if j < i then j else j - 1].id == t;
      }
      if HasTask(r, t) {
        var j := Find(r, t);
        assert tasks[if j < i then j else j + 1].id == t;
      }
    }
  }

  lemma {:induction false} OtherTaskGone(tasks: seq<Task>, u: int, t: int)
    requires u != t
    ensures HasTask(WithoutTask(tasks, u), t) <==> HasTask(tasks, t)
    ensures HasTask(tasks, t) && Single(tasks, t) ==> SameTask(tasks, WithoutTask(tasks, u), t)
  {
    OtherTaskStays(tasks, u, t);
    if HasTask(tasks, t) && Single(tasks, t) {
      if HasTask(tasks, u) {
        WithoutAt(tasks, u);
        hide WithoutTask, HasTask;
        var i, r := Find(tasks, u), WithoutTask(tasks, u);
        var j := Find(r, t);
        assert tasks[if j < i then j else j + 1].id == t;
        assert Find(tasks, t) == if j < i then j else j + 1;
      } else {
        SameAsBefore(tasks, t);
      }
    }
  }

  lemma {:induction false} TaskGone(tasks: seq<Task>, t: int)
    requires Single(tasks, t)
    ensures !HasTask(WithoutTask(tasks, t), t)
  {
    if HasTask(tasks, t) {
      WithoutAt(tasks, t);
      hide WithoutTask;
      var i, r := Find(tasks, t), WithoutTask(tasks, t);
      forall k | 0 <= k < |r|
        ensures r[k].id != t
      {
        assert r[k] == tasks[if k < i then k else k + 1];
      }
    }
  }

  lemma {:induction false} SweptTask(tasks: seq<Task>, t: int)
    ensures HasTask(Swept(tasks), t) ==> HasTask(tasks, t)
    ensures HasTask(tasks, t) && Single(tasks, t) ==>
              if tasks[Find(tasks, t)].IsDone() then !HasTask(Swept(tasks), t) else SameTask(tasks, Swept(tasks), t)
  {
    SweptIs(tasks, "");
    if HasTask(Swept(tasks), t) { assert Swept(tasks)[Find(Swept(tasks), t)] in tasks; }
    if HasTask(tasks, t) && Single(tasks, t) {
      var u := tasks[Find(tasks, t)];
      assert forall x :: x in tasks && x.id == t ==> x == u;
      if u.IsDone() {
        assert forall x :: x in Swept(tasks) ==> x.id != t;
      } else {
        assert u in Swept(tasks);
        SweptSingle(tasks, t);
        assert Swept(tasks)[Find(Swept(tasks), t)] in tasks;
      }
    }
  }

  lemma {:induction false} SweptSingle(tasks: seq<Task>, t: int)
    requires Single(tasks, t)
    ensures Single(Swept(tasks), t)
  {
    if tasks != [] {
      SweptIs(tasks[1..], "");
      assert Single(tasks[1..], t) by { SingleRest(tasks, t); }
      SweptSingle(tasks[1..], t);
      var r := Swept(tasks[1..]);
      if !tasks[0].IsDone() && tasks[0].id == t {
        forall k | 0 <= k < |r|
          ensures r[k].id != t
        {
          assert r[k] in tasks[1..];
        }
      }
    }
  }

  lemma {:induction false} SingleRest(tasks: seq<Task>, t: int)
    requires Single(tasks, t) && tasks != []
    ensures Single(tasks[1..], t)
  {
    forall i, j | 0 <= i < |tasks| - 1 && 0 <= j < |tasks| - 1 && tasks[1..][i].id == t && tasks[1..][j].id == t
      ensures i == j
    {
      assert tasks[i + 1].id == t && tasks[j + 1].id == t;
    }
  }

  // ----- one step

  /** The tasks after a legal step. */
  function TasksAfter(st: State, op: Op): seq<Task> {
    match op
    case Start(k) =>
      if k in st.plans.furniture then st.tasks + [Task(st.nextTask, st.plans.furniture[k].cost, false, false)] else st.tasks
    case Judge(u, b) => if HasTask(st.tasks, u) then SetBogus(st.tasks, u, b) else st.tasks
    case Abandon(u) => if HasTask(st.tasks, u) then SetDone(st.tasks, u) else st.tasks
    case Finish(k, _) =>
      if k in st.plans.furniture && HasTask(st.tasks, st.plans.furniture[k].task)
      then SetDone(st.tasks, st.plans.furniture[k].task) else st.tasks
    case Cancel(k, _) =>
      if k in st.plans.furniture && st.plans.furniture[k].task != NO_TASK
      then WithoutTask(st.tasks, st.plans.furniture[k].task) else st.tasks
    case Release(u, _, _) => WithoutTask(st.tasks, u)
    case Sweep => Swept(st.tasks)
    case _ => st.tasks
  }

  function WorldAfter(g: Game, op: Op): World {
    match op
    case Finish(k, _) => if k in g.st.plans.furniture then g.world[k := g.st.plans.furniture[k].kind] else g.world
    case Destroy(k) => g.world - {k}
    case _ => g.world
  }

  lemma TasksAre(cfg: Setting, g: Game, op: Op, g': Game)
    requires Sound(cfg, g) && Legal(cfg, g, op, g')
    ensures g'.st.tasks == TasksAfter(g.st, op) && g'.world == WorldAfter(g, op)
    ensures g'.st.nextTask == g.st.nextTask + if op.Start? then 1 else 0
  {
    InvListed(cfg.cat, g.world, g.st.plans);
    hide Inv, IsBuilt, Matches, Removed, Added, Destroyed, Constructed, Swept, WithoutTask, SetDone, SetBogus, Refunded,
         CostsPaid, Counted, Distinct, TaskCost, ItemsOnlyFrom, Num;
    if op.Cancel? && op.key in g.st.plans.furniture { RefundedTasks(g.st, g.st.plans.furniture[op.key].task, op.drop); }
    if op.Release? { RefundedTasks(g.st, op.task, op.drop); }
  }

  lemma RefundedTasks(st: State, task: int, drop: Drop)
    requires CostsPaid(st.tasks)
    ensures Refunded(st, task, drop).tasks == (if task == NO_TASK then st.tasks else WithoutTask(st.tasks, task))
    ensures Refunded(st, task, drop).nextTask == st.nextTask
  {
  }

  /** What a step that does not settle the place does to the task t of its plan, when no other plan has that task. */
  lemma TaskStep(st: State, op: Op, key: Key, t: int)
    requires !Settles(op, key) && 0 <= t < st.nextTask
    requires NobodyElse(st.plans, key, t) && HasTask(st.tasks, t) && Single(st.tasks, t)
    ensures SameTask(st.tasks, TasksAfter(st, op), t)
            || (!HasTask(TasksAfter(st, op), t)
                && ((op.Release? && op.task == t) || (op.Sweep? && st.tasks[Find(st.tasks, t)].IsDone())))
    ensures (op.Release? && op.task == t) || (op.Sweep? && st.tasks[Find(st.tasks, t)].IsDone()) ==>
              !HasTask(TasksAfter(st, op), t)
  {
    hide Swept, WithoutTask, Single;
    SameAsBefore(st.tasks, t);
    var tasks := st.tasks;
    match op
    case Start(k) => if k in st.plans.furniture { AppendedTask(tasks, Task(st.nextTask, st.plans.furniture[k].cost, false, false), t); }
    case Judge(u, b) => if HasTask(tasks, u) { FlaggedTask(tasks, Find(tasks, u), tasks[Find(tasks, u)].(bogus := b), t); }
    case Abandon(u) => if HasTask(tasks, u) { FlaggedTask(tasks, Find(tasks, u), tasks[Find(tasks, u)].(done := true), t); }
    case Finish(k, _) =>
      if k in st.plans.furniture && HasTask(tasks, st.plans.furniture[k].task) {
        var i := Find(tasks, st.plans.furniture[k].task);
        FlaggedTask(tasks, i, tasks[i].(done := true), t);
      }
    case Cancel(k, _) => if k in st.plans.furniture { OtherTaskGone(tasks, st.plans.furniture[k].task, t); }
    case Release(u, _, _) => if u == t { TaskGone(tasks, t); } else { OtherTaskGone(tasks, u, t); }
    case Sweep => SweptTask(tasks, t);
    case _ =>
  }

  lemma {:induction false} SameAsBefore(tasks: seq<Task>, t: int)
    requires HasTask(tasks, t) && Single(tasks, t)
    ensures SameTask(tasks, tasks, t)
  {
  }

  /** A task that is not listed does not come back: new tasks have new ids. */
  lemma StaysUnlisted(st: State, op: Op, t: int)
    requires 0 <= t < st.nextTask && !HasTask(st.tasks, t)
    ensures !HasTask(TasksAfter(st, op), t)
  {
    hide Swept, WithoutTask;
    var tasks := st.tasks;
    match op
    case Start(k) => if k in st.plans.furniture { AppendedTask(tasks, Task(st.nextTask, st.plans.furniture[k].cost, false, false), t); }
    case Judge(u, b) => if HasTask(tasks, u) { FlaggedTask(tasks, Find(tasks, u), tasks[Find(tasks, u)].(bogus := b), t); }
    case Abandon(u) => if HasTask(tasks, u) { FlaggedTask(tasks, Find(tasks, u), tasks[Find(tasks, u)].(done := true), t); }
    case Finish(k, _) =>
      if k in st.plans.furniture && HasTask(tasks, st.plans.furniture[k].task) {
        var i := Find(tasks, st.plans.furniture[k].task);
        FlaggedTask(tasks, i, tasks[i].(done := true), t);
      }
    case Cancel(k, _) =>
      if k in st.plans.furniture {
        var u := st.plans.furniture[k].task;
        if u == t { TaskGone(tasks, t); } else { OtherTaskGone(tasks, u, t); }
      }
    case Release(u, _, _) => if u == t { TaskGone(tasks, t); } else { OtherTaskGone(tasks, u, t); }
    case Sweep => SweptTask(tasks, t);
    case _ =>
  }

  /** What a step that does not settle the place can do to the plans. */
  ghost predicate Framed(cfg: Setting, g: Game, op: Op, g': Game, key: Key) {
    && (op == Unsupport(key) ==> key !in g'.st.plans.furniture)
    && (op != Unsupport(key) ==> (key in g.st.plans.furniture <==> key in g'.st.plans.furniture))
    && (key in g.st.plans.furniture && op != Unsupport(key) && op != Start(key) && op != Destroy(key) ==>
          g'.st.plans.furniture[key] == g.st.plans.furniture[key])
    && (op == Start(key) ==> key in g.st.plans.furniture && g.st.plans.furniture[key].task == NO_TASK)
    && (op == Destroy(key) && Pending(cfg.cat, g.world, g.st.plans, key) ==> g'.st.plans == g.st.plans)
  }

  lemma PlannedFrame(cfg: Setting, g: Game, op: Op, g': Game, key: Key)
    requires Sound(cfg, g) && Legal(cfg, g, op, g') && !Settles(op, key) && (op.Plan? || op.Unsupport?)
    ensures Framed(cfg, g, op, g', key)
  {
    InvListed(cfg.cat, g.world, g.st.plans);
    hide Inv, Linked, Distinct, CostsPaid, IsBuilt, Matches, RemoveSwap;
  }

  lemma StartedFrame(cfg: Setting, g: Game, op: Op, g': Game, key: Key)
    requires Sound(cfg, g) && Legal(cfg, g, op, g') && !Settles(op, key) && (op.Start?)
    ensures Framed(cfg, g, op, g', key)
  {
    InvListed(cfg.cat, g.world, g.st.plans);
    hide Inv, Linked, Distinct, CostsPaid, IsBuilt, Matches, ItemsOnlyFrom, Num;
  }

  lemma TasksFrame(cfg: Setting, g: Game, op: Op, g': Game, key: Key)
    requires Sound(cfg, g) && Legal(cfg, g, op, g') && !Settles(op, key) && (op.Judge? || op.Abandon? || op.Sweep?)
    ensures Framed(cfg, g, op, g', key)
  {
    InvListed(cfg.cat, g.world, g.st.plans);
    hide Inv, Linked, Distinct, CostsPaid, IsBuilt, Matches, SetDone, SetBogus, Swept;
  }

  lemma CancelledPlans(st: State, key: Key, drop: Drop)
    requires CostsPaid(st.tasks) && (key in st.plans.furniture ==> key in st.plans.all)
    ensures Cancelled(st, key, drop).plans.furniture == st.plans.furniture - {key}
  {
    hide Refunded, RemoveSwap;
    if key in st.plans.furniture { RefundedPlans(st, st.plans.furniture[key].task, drop); }
  }

  lemma CancelledFrame(cfg: Setting, g: Game, op: Op, g': Game, key: Key)
    requires Sound(cfg, g) && Legal(cfg, g, op, g') && !Settles(op, key) && op.Cancel?
    ensures Framed(cfg, g, op, g', key)
  {
    CostsOf(cfg, g);
    CancelledPlans(g.st, op.key, op.drop);
    hide Sound, Cancelled, Pending;
  }

  lemma ReleasedFrame(cfg: Setting, g: Game, op: Op, g': Game, key: Key)
    requires Sound(cfg, g) && Legal(cfg, g, op, g') && !Settles(op, key) && op.Release?
    ensures Framed(cfg, g, op, g', key)
  {
    CostsOf(cfg, g);
    RefundedPlans(g.st, op.task, op.drop);
    hide Sound, Refunded, Pending, WithoutTask;
  }

  lemma FinishedFrame(cfg: Setting, g: Game, op: Op, g': Game, key: Key)
    requires Sound(cfg, g) && Legal(cfg, g, op, g') && !Settles(op, key) && (op.Finish?)
    ensures Framed(cfg, g, op, g', key)
  {
    InvListed(cfg.cat, g.world, g.st.plans);
    hide Inv, Linked, Distinct, CostsPaid, IsBuilt, Matches, SetDone, RemoveSwap;
  }

  lemma DestroyedFrame(cfg: Setting, g: Game, op: Op, g': Game, key: Key)
    requires Sound(cfg, g) && Legal(cfg, g, op, g') && !Settles(op, key) && (op.Destroy?)
    ensures Framed(cfg, g, op, g', key)
  {
    InvListed(cfg.cat, g.world, g.st.plans);
    hide Inv, Linked, Distinct, CostsPaid, IsBuilt, Matches;
  }

  lemma PlanFrame(cfg: Setting, g: Game, op: Op, g': Game, key: Key)
    requires Sound(cfg, g) && Legal(cfg, g, op, g') && !Settles(op, key)
    ensures Framed(cfg, g, op, g', key)
  {
    hide *;
    match op
    case Plan(_, _) => PlannedFrame(cfg, g, op, g', key);
    case Unsupport(_) => PlannedFrame(cfg, g, op, g', key);
    case Start(_) => StartedFrame(cfg, g, op, g', key);
    case Cancel(_, _) => CancelledFrame(cfg, g, op, g', key);
    case Release(_, _, _) => ReleasedFrame(cfg, g, op, g', key);
    case Finish(_, _) => FinishedFrame(cfg, g, op, g', key);
    case Destroy(_) => DestroyedFrame(cfg, g, op, g', key);
    case _ => TasksFrame(cfg, g, op, g', key);
  }

  /** Plans get new tasks, or none. */
  lemma TaskIds(cfg: Setting, g: Game, op: Op, g': Game, k: Key)
    requires Sound(cfg, g) && Legal(cfg, g, op, g') && k in g'.st.plans.furniture
    ensures (op == Start(k) && g'.st.plans.furniture[k].task == g.st.nextTask) || g'.st.plans.furniture[k].task == NO_TASK
            || (k in g.st.plans.furniture && g'.st.plans.furniture[k].task == g.st.plans.furniture[k].task)
  {
    InvListed(cfg.cat, g.world, g.st.plans);
    hide Inv, IsBuilt, Matches, Swept, WithoutTask, SetDone, SetBogus, RemoveSwap, Distinct, Refunded, CostsPaid, ItemsOnlyFrom,
         Num;
    if op.Cancel? && op.key in g.st.plans.furniture { RefundedPlans(g.st, g.st.plans.furniture[op.key].task, op.drop); }
    if op.Release? { RefundedPlans(g.st, op.task, op.drop); }
  }

  /** A pending plan of a started construction stays pending with its task, unless it is dropped. */
  lemma PlanStep(cfg: Setting, g: Game, op: Op, g': Game, key: Key)
    requires Sound(cfg, g) && Legal(cfg, g, op, g') && !Settles(op, key) && op != Unsupport(key)
    requires Pending(cfg.cat, g.world, g.st.plans, key) && g.st.plans.furniture[key].task >= 0
    ensures Pending(cfg.cat, g'.world, g'.st.plans, key) && g'.st.plans.furniture[key] == g.st.plans.furniture[key]
  {
    hide Sound, Legal, IsBuilt;
    PlanFrame(cfg, g, op, g', key);
    TasksAre(cfg, g, op, g');
    var kind := g.st.plans.furniture[key].kind;
    if op == Destroy(key) { Razed(cfg.cat, g.world, key, kind); } else { SameBuilt(cfg.cat, g.world, g'.world, key, kind); }
  }

  lemma Razed(cat: Catalog, world: World, key: Key, kind: FurnitureType)
    ensures !IsBuilt(cat, world - {key}, key, kind)
  {
  }

  lemma SameBuilt(cat: Catalog, world: World, world': World, key: Key, kind: FurnitureType)
    requires (key in world <==> key in world') && (key in world ==> world[key] == world'[key])
    ensures IsBuilt(cat, world, key, kind) == IsBuilt(cat, world', key, kind)
  {
  }

  lemma StillNobodyElse(cfg: Setting, g: Game, op: Op, g': Game, key: Key, t: int)
    requires Sound(cfg, g) && Legal(cfg, g, op, g') && 0 <= t < g.st.nextTask && NobodyElse(g.st.plans, key, t)
    ensures NobodyElse(g'.st.plans, key, t)
  {
    hide Sound, Legal;
    forall k | k in g'.st.plans.furniture && k != key
      ensures g'.st.plans.furniture[k].task != t
    {
      TaskIds(cfg, g, op, g', k);
    }
  }

  /** A step that does not settle the place keeps the plan bound to its task unless it separates them, and then they stay
      parted. */
  lemma StepTracks(cfg: Setting, g: Game, op: Op, g': Game, key: Key, t: int, cost: Cost)
    requires Sound(cfg, g) && Legal(cfg, g, op, g') && !Settles(op, key)
    ensures Bound(cfg, g, key, t, cost) ==>
              if Separates(g, op, key, t) then Parted(cfg, g', key, t) else Bound(cfg, g', key, t, cost)
    ensures Parted(cfg, g, key, t) ==> Parted(cfg, g', key, t)
  {
    hide Sound, Legal, Pending, NobodyElse, TasksAfter, Single;
    TasksAre(cfg, g, op, g');
    PlanFrame(cfg, g, op, g', key);
    if Bound(cfg, g, key, t, cost) {
      assert key in g.st.plans.furniture by { PendingPlanned(cfg.cat, g.world, g.st.plans, key); }
      TaskStep(g.st, op, key, t);
      StillNobodyElse(cfg, g, op, g', key, t);
      if op != Unsupport(key) { PlanStep(cfg, g, op, g', key); }
    }
    if Parted(cfg, g, key, t) && key in g.st.plans.furniture {
      StaysUnlisted(g.st, op, t);
      if op != Unsupport(key) { PlanStep(cfg, g, op, g', key); }
    }
  }

  lemma PendingPlanned(cat: Catalog, world: World, p: Plans, key: Key)
    requires Pending(cat, world, p, key)
    ensures key in p.furniture
  {
  }

  // ----- whole runs

  /** No step of the run separates the plan from its task. */
  ghost predicate KeptTogether(g: Game, ops: seq<Op>, gs: seq<Game>, key: Key, t: int)
    requires |ops| == |gs|
    decreases |ops|
  {
    ops != [] ==> !Separates(g, ops[0], key, t) && KeptTogether(gs[0], ops[1..], gs[1..], key, t)
  }

  function Final(g: Game, gs: seq<Game>): Game {
    if gs == [] then g else gs[|gs| - 1]
  }

  lemma {:induction false} RunTracks(cfg: Setting, g: Game, ops: seq<Op>, gs: seq<Game>, key: Key, t: int, cost: Cost)
    requires Sound(cfg, g) && LegalRun(cfg, g, ops, gs) && forall op :: op in ops ==> !Settles(op, key)
    ensures Bound(cfg, g, key, t, cost) ==>
              if KeptTogether(g, ops, gs, key, t) then Bound(cfg, Final(g, gs), key, t, cost) else Parted(cfg, Final(g, gs), key, t)
    ensures Parted(cfg, g, key, t) ==> Parted(cfg, Final(g, gs), key, t)
    decreases |ops|
  {
    hide Sound, Legal, Bound, Parted, Separates, Settles;
    if ops != [] {
      StepSound(cfg, g, ops[0], gs[0]);
      StepTracks(cfg, g, ops[0], gs[0], key, t, cost);
      RunTracks(cfg, gs[0], ops[1..], gs[1..], key, t, cost);
      assert Final(gs[0], gs[1..]) == Final(g, gs);
    }
  }

  /** A start takes the cost, and binds the plan to a new task. */
  lemma StartBinds(cfg: Setting, g: Game, key: Key, g': Game)
    requires Sound(cfg, g) && Legal(cfg, g, Start(key), g')
    ensures key in g.st.plans.furniture && g.st.plans.furniture[key].cost.value >= 0
    ensures Bound(cfg, g', key, g.st.nextTask, g.st.plans.furniture[key].cost)
    ensures forall id :: Num(cfg, g'.st, id) == Num(cfg, g.st, id) - Part(g.st.plans.furniture[key].cost, id)
  {
    hide Inv, IsBuilt, Stored, Squares, ItemsOnlyFrom;
    StoredSame(cfg, g.st, key);
    var t := g.st.nextTask;
    var tasks := g'.st.tasks;
    assert tasks[|tasks| - 1].id == t;
    assert forall i :: 0 <= i < |tasks| - 1 ==> tasks[i] in g.st.tasks;
  }

  /** Giving up the place returns what the start of its construction took exactly if that was nothing, or if no step in
      between separated the plan from its task and what comes back is counted.  Tasks may have become bogus, or have given
      up, or not. */
  lemma CancelReturns(cfg: Setting, g: Game, key: Key, ops: seq<Op>, gs: seq<Game>, drop: Drop)
    requires Sound(cfg, g) && LegalRun(cfg, g, [Start(key)] + ops, gs) && forall op :: op in ops ==> !Settles(op, key)
    ensures Sound(cfg, gs[|gs| - 1]) && key in g.st.plans.furniture
    ensures var last, cost := gs[|gs| - 1], g.st.plans.furniture[key].cost;
            (key in last.st.plans.furniture ==> key in last.st.plans.all) && CostsPaid(last.st.tasks)
    ensures var last, cost := gs[|gs| - 1], g.st.plans.furniture[key].cost;
            (forall id :: Num(cfg, Cancelled(last.st, key, drop), id) - Num(cfg, last.st, id)
                          == Num(cfg, g.st, id) - Num(cfg, gs[0].st, id))
            <==> cost.value == 0
                 || (KeptTogether(gs[0], ops, gs[1..], key, g.st.nextTask) && Counted(cfg, cost, drop))
  {
    hide Sound, Legal, Num, Cancelled, Settles, Counted, Pending, Single, NobodyElse, ListedCost;
    var all := [Start(key)] + ops;
    assert all[0] == Start(key) && all[1..] == ops;
    StepSound(cfg, g, Start(key), gs[0]);
    StartBinds(cfg, g, key, gs[0]);
    var last, cost, t := gs[|gs| - 1], g.st.plans.furniture[key].cost, g.st.nextTask;
    RunTracks(cfg, gs[0], ops, gs[1..], key, t, cost);
    assert Final(gs[0], gs[1..]) == last;
    RunSound(cfg, gs[0], ops, gs[1..]);
    CostsOf(cfg, last);
    if KeptTogether(gs[0], ops, gs[1..], key, t) {
      BoundLists(cfg, last, key, t, cost);
    } else if key in last.st.plans.furniture {
      PartedLists(cfg, last, key, t);
    }
    CancelledExact(cfg, last.st, key, drop, cost);
  }

  lemma {:induction false} RunSound(cfg: Setting, g: Game, ops: seq<Op>, gs: seq<Game>)
    requires Sound(cfg, g) && LegalRun(cfg, g, ops, gs)
    ensures Sound(cfg, Final(g, gs))
    decreases |ops|
  {
    hide Sound, Legal;
    if ops != [] {
      StepSound(cfg, g, ops[0], gs[0]);
      RunSound(cfg, gs[0], ops[1..], gs[1..]);
      assert Final(gs[0], gs[1..]) == Final(g, gs);
    }
  }

  lemma BoundLists(cfg: Setting, g: Game, key: Key, t: int, cost: Cost)
    requires Bound(cfg, g, key, t, cost)
    ensures key in g.st.plans.furniture && ListedCost(g.st.tasks, g.st.plans.furniture[key].task) == cost
  {
  }

  lemma PartedLists(cfg: Setting, g: Game, key: Key, t: int)
    requires Parted(cfg, g, key, t) && key in g.st.plans.furniture
    ensures ListedCost(g.st.tasks, g.st.plans.furniture[key].task) == NO_COST
  {
  }

  // ----- which task a plan has

  /** The plan of the place waits for its task t. */
  predicate WaitsFor(cfg: Setting, g: Game, key: Key, t: int) {
    Pending(cfg.cat, g.world, g.st.plans, key) && g.st.plans.furniture[key].task == t
  }

  /** A built plan that is destroyed has no task left. */
  lemma DestroyedTask(cfg: Setting, g: Game, key: Key, g': Game)
    requires Sound(cfg, g) && Legal(cfg, g, Destroy(key), g')
    requires key in g.st.plans.furniture && !Pending(cfg.cat, g.world, g.st.plans, key)
    ensures WaitsFor(cfg, g', key, NO_TASK) && g'.st.plans.furniture[key].cost == g.st.plans.furniture[key].cost
  {
    hide Inv, Linked, Matches;
  }

  /** Destroying something built leaves a plan that waits to be built again, as soon as its cost can be paid. */
  lemma DestroyedWaits(cfg: Setting, g: Game, key: Key, g': Game)
    requires Sound(cfg, g) && Legal(cfg, g, Destroy(key), g')
    requires key in g.st.plans.furniture && !Pending(cfg.cat, g.world, g.st.plans, key)
    ensures Waits(cfg, g'.world, g'.st, key)
            <==> Num(cfg, g.st, g.st.plans.furniture[key].cost.id) >= g.st.plans.furniture[key].cost.value
  {
    hide Inv, Linked, Num, IsBuilt, Matches;
    DestroyedTask(cfg, g, key, g');
    SameNum(cfg, g.st, g'.st, g.st.plans.furniture[key].cost.id);
  }

  /** Only a start gives a pending plan a task. */
  lemma TaskOrigin(cfg: Setting, g: Game, op: Op, g': Game, key: Key, t: int)
    requires Sound(cfg, g) && Legal(cfg, g, op, g') && WaitsFor(cfg, g', key, t) && t != NO_TASK && op != Start(key)
    ensures WaitsFor(cfg, g, key, t)
  {
    if Settles(op, key) {
      SettledTask(cfg, g, op, g', key);
    } else {
      PlanFrame(cfg, g, op, g', key);
      TasksAre(cfg, g, op, g');
      if op == Destroy(key) {
        if key in g.st.plans.furniture && !Pending(cfg.cat, g.world, g.st.plans, key) { DestroyedTask(cfg, g, key, g'); }
      }
      hide Sound, Legal, IsBuilt;
      if op != Destroy(key) && key in g'.st.plans.furniture {
        SameBuilt(cfg.cat, g.world, g'.world, key, g'.st.plans.furniture[key].kind);
      }
    }
  }

  /** A step that settles the place leaves no pending plan with a task there. */
  lemma SettledTask(cfg: Setting, g: Game, op: Op, g': Game, key: Key)
    requires Sound(cfg, g) && Legal(cfg, g, op, g') && Settles(op, key)
    ensures Pending(cfg.cat, g'.world, g'.st.plans, key) ==> g'.st.plans.furniture[key].task == NO_TASK
  {
    CostsOf(cfg, g);
    if op.Cancel? {
      CancelledPlans(g.st, key, op.drop);
    } else {
      hide Inv, Linked, Distinct, CostsPaid, SetDone, RemoveSwap, Cancelled;
    }
  }

  /** Step i begins what holds from there on to the end of the run. */
  ghost predicate BeginsAt(ops: seq<Op>, gs: seq<Game>, i: nat, begins: Op -> bool, holds: Game -> bool) {
    i < |ops| && begins(ops[i]) && HoldsFrom(gs, i, holds)
  }

  ghost predicate HoldsFrom(gs: seq<Game>, i: nat, holds: Game -> bool) {
    forall j :: i <= j < |gs| ==> holds(gs[j])
  }

  /** Only steps of one kind can make this true. */
  ghost predicate BegunOnlyBy(cfg: Setting, begins: Op -> bool, holds: Game -> bool) {
    forall g, op, g' :: Sound(cfg, g) && Legal(cfg, g, op, g') && holds(g') && !begins(op) ==> holds(g)
  }

  /** What holds in the end of a run, and can only begin with steps of one kind, has held all the time or since such a
      step. */
  lemma {:induction false} HasBegun(cfg: Setting, g: Game, ops: seq<Op>, gs: seq<Game>, begins: Op -> bool, holds: Game -> bool)
    requires Sound(cfg, g) && LegalRun(cfg, g, ops, gs) && holds(Final(g, gs)) && BegunOnlyBy(cfg, begins, holds)
    ensures (holds(g) && HoldsFrom(gs, 0, holds)) || exists i: nat :: BeginsAt(ops, gs, i, begins, holds)
    decreases |ops|
  {
    hide Sound, Legal;
    if ops != [] {
      StepSound(cfg, g, ops[0], gs[0]);
      assert Final(gs[0], gs[1..]) == Final(g, gs);
      HasBegun(cfg, gs[0], ops[1..], gs[1..], begins, holds);
      if i: nat :| BeginsAt(ops[1..], gs[1..], i, begins, holds) {
        assert BeginsAt(ops, gs, i + 1, begins, holds) by { HoldsNext(gs, i, holds); }
      } else {
        assert HoldsFrom(gs, 0, holds) by { HoldsNext(gs, 0, holds); }
        assert begins(ops[0]) ==> BeginsAt(ops, gs, 0, begins, holds);
      }
    }
  }

  lemma HoldsNext(gs: seq<Game>, i: nat, holds: Game -> bool)
    requires gs != [] && HoldsFrom(gs[1..], i, holds)
    ensures HoldsFrom(gs, i + 1, holds)
  {
    forall j | i + 1 <= j < |gs|
      ensures holds(gs[j])
    {
      assert gs[1..][j - 1] == gs[j];
    }
  }

  function Starts(key: Key): Op -> bool {
    op => op == Start(key)
  }

  function HasTaskFor(cfg: Setting, key: Key, t: int): Game -> bool {
    g => WaitsFor(cfg, g, key, t)
  }

  /** Over every run that begins without started plans, a plan that waits for a task has been started, and has been
      waiting since: no task is left over from an earlier construction on the place. */
  lemma NoStaleTask(cfg: Setting, g: Game, ops: seq<Op>, gs: seq<Game>, key: Key, t: int)
    requires Sound(cfg, g) && LegalRun(cfg, g, ops, gs) && !WaitsFor(cfg, g, key, t)
    requires WaitsFor(cfg, Final(g, gs), key, t) && t != NO_TASK
    ensures exists i: nat :: BeginsAt(ops, gs, i, Starts(key), HasTaskFor(cfg, key, t))
  {
    hide Sound, Legal, WaitsFor, HoldsFrom;
    var begins, holds := Starts(key), HasTaskFor(cfg, key, t);
    forall g, op, g' | Sound(cfg, g) && Legal(cfg, g, op, g') && holds(g') && !begins(op)
      ensures holds(g)
    {
      TaskOrigin(cfg, g, op, g', key, t);
    }
    HasBegun(cfg, g, ops, gs, begins, holds);
  }

  /** The plan of the place is for this kind, at this cost. */
  predicate PlansFor(g: Game, key: Key, kind: FurnitureType, cost: Cost) {
    key in g.st.plans.furniture && g.st.plans.furniture[key].kind == kind && g.st.plans.furniture[key].cost == cost
  }

  lemma PlanOrigin(cfg: Setting, g: Game, op: Op, g': Game, key: Key, kind: FurnitureType, cost: Cost)
    requires Sound(cfg, g) && Legal(cfg, g, op, g') && PlansFor(g', key, kind, cost)
    ensures PlansFor(g, key, kind, cost) || (op.Plan? && op.key == key && op.info.kind == kind && op.info.cost == cost)
  {
    CostsOf(cfg, g);
    if op.Cancel? {
      CancelledPlans(g.st, op.key, op.drop);
    } else if op.Release? {
      RefundedPlans(g.st, op.task, op.drop);
    } else {
      hide Inv, Linked, Distinct, CostsPaid, SetDone, SetBogus, Swept, RemoveSwap, Cancelled, IsBuilt, Matches, Num, ItemsOnlyFrom;
    }
    hide Refunded, WithoutTask;
  }

  function PlansIt(key: Key, kind: FurnitureType, cost: Cost): Op -> bool {
    (op: Op) => op.Plan? && op.key == key && op.info.kind == kind && op.info.cost == cost
  }

  function IsPlanned(key: Key, kind: FurnitureType, cost: Cost): Game -> bool {
    g => PlansFor(g, key, kind, cost)
  }

  /** Over every run a plan is for what it was planned for, at the cost it was planned at, since then. */
  lemma StaysAsPlanned(cfg: Setting, g: Game, ops: seq<Op>, gs: seq<Game>, key: Key, kind: FurnitureType, cost: Cost)
    requires Sound(cfg, g) && LegalRun(cfg, g, ops, gs) && key !in g.st.plans.furniture
    requires PlansFor(Final(g, gs), key, kind, cost)
    ensures exists i: nat :: BeginsAt(ops, gs, i, PlansIt(key, kind, cost), IsPlanned(key, kind, cost))
  {
    hide Sound, Legal, HoldsFrom;
    var begins, holds := PlansIt(key, kind, cost), IsPlanned(key, kind, cost);
    forall g, op, g' | Sound(cfg, g) && Legal(cfg, g, op, g') && holds(g') && !begins(op)
      ensures holds(g)
    {
      PlanOrigin(cfg, g, op, g', key, kind, cost);
    }
    HasBegun(cfg, g, ops, gs, begins, holds);
  }

  // ----- losing runs

  /** Every started construction can be lost: its furniture stops being buildable, the done task is swept, and giving up
      the place then returns nothing. */
  lemma StartCanBeLost(cfg: Setting, g: Game, key: Key, g1: Game, drop: Drop) returns (ops: seq<Op>, gs: seq<Game>)
    requires Sound(cfg, g) && Legal(cfg, g, Start(key), g1)
    ensures ops == [Judge(g.st.nextTask, true), Sweep] && |gs| == 3 && gs[0] == g1
    ensures LegalRun(cfg, g, [Start(key)] + ops, gs)
    ensures Sound(cfg, gs[2]) && key in g.st.plans.furniture
    ensures (key in gs[2].st.plans.furniture ==> key in gs[2].st.plans.all) && CostsPaid(gs[2].st.tasks)
    ensures forall id :: Num(cfg, Cancelled(gs[2].st, key, drop), id) == Num(cfg, g.st, id) - Part(g.st.plans.furniture[key].cost, id)
  {
    hide Sound, Num, Cancelled, Pending;
    var t := g.st.nextTask;
    StepSound(cfg, g, Start(key), g1);
    StartBinds(cfg, g, key, g1);
    var cost := g.st.plans.furniture[key].cost;
    var g2 := Game(g1.world, g1.st.(tasks := SetBogus(g1.st.tasks, t, true)));
    var g3 := Game(g2.world, g2.st.(tasks := Swept(g2.st.tasks)));
    StepSound(cfg, g1, Judge(t, true), g2);
    StepSound(cfg, g2, Sweep, g3);
    gs := [g1, g2, g3];
    ops := [Judge(t, true), Sweep];
    EmptyRun(cfg, g3);
    RunNext(cfg, g2, Sweep, g3, [], []);
    RunNext(cfg, g1, Judge(t, true), g2, [Sweep], [g3]);
    RunNext(cfg, g, Start(key), g1, [Judge(t, true), Sweep], [g2, g3]);
    assert [Judge(t, true)] + [Sweep] == ops && [g2] + [g3] == [g2, g3] && [g1] + [g2, g3] == gs;
    FlaggedTask(g1.st.tasks, Find(g1.st.tasks, t), g1.st.tasks[Find(g1.st.tasks, t)].(bogus := true), t);
    BogusIsDone(g1.st.tasks, t);
    StepTracks(cfg, g1, Judge(t, true), g2, key, t, cost);
    StepTracks(cfg, g2, Sweep, g3, key, t, cost);
    CostsOf(cfg, g3);
    forall id
      ensures Num(cfg, Cancelled(g3.st, key, drop), id) == Num(cfg, g.st, id) - Part(cost, id)
    {
      LostNum(cfg, g3, key, t, drop, id);
      SameNum(cfg, g1.st, g3.st, id);
    }
  }

  lemma SameNum(cfg: Setting, st: State, st': State, id: ResourceId)
    requires st'.credit == st.credit && st'.items == st.items
    ensures Num(cfg, st', id) == Num(cfg, st, id)
  {
  }

  lemma LostNum(cfg: Setting, g: Game, key: Key, t: int, drop: Drop, id: ResourceId)
    requires Sound(cfg, g) && Parted(cfg, g, key, t)
    requires CostsPaid(g.st.tasks) && (key in g.st.plans.furniture ==> key in g.st.plans.all)
    ensures Num(cfg, Cancelled(g.st, key, drop), id) == Num(cfg, g.st, id)
  {
    hide Sound, Num, Cancelled;
    CancelledNum(cfg, g.st, key, drop, id);
    if key in g.st.plans.furniture {
      PartedLists(cfg, g, key, t);
      NothingRecovered(cfg, drop, id);
    }
  }

  lemma {:induction false} BogusIsDone(tasks: seq<Task>, t: int)
    requires HasTask(tasks, t) && Single(tasks, t)
    ensures HasTask(SetBogus(tasks, t, true), t)
    ensures SetBogus(tasks, t, true)[Find(SetBogus(tasks, t, true), t)].IsDone()
  {
    var i, r := Find(tasks, t), SetBogus(tasks, t, true);
    assert r[i].id == t;
    assert forall j :: 0 <= j < |r| && j != i ==> r[j].id != t;
  }

  lemma EmptyRun(cfg: Setting, g: Game)
    requires Sound(cfg, g)
    ensures LegalRun(cfg, g, [], [])
  {
  }

  lemma RunNext(cfg: Setting, g: Game, op: Op, g': Game, ops: seq<Op>, gs: seq<Game>)
    requires Sound(cfg, g) && Legal(cfg, g, op, g') && Sound(cfg, g') && LegalRun(cfg, g', ops, gs)
    ensures LegalRun(cfg, g, [op] + ops, [g'] + gs)
  {
    hide Sound, Legal;
    assert ([op] + ops)[1..] == ops && ([g'] + gs)[1..] == gs;
  }

  const WOOD: ResourceId := "WOOD"
  const BRIDGE: FurnitureType := "BRIDGE"
  const SITE := Key(Vec2(0, 0), 0)
  const VILLAGE := Setting(Catalog(map[BRIDGE := 0], {}, map[]), map[], map[])

  /** Five pieces of wood, and a bridge planned for all of them. */
  function Village(): Game {
    var empty := Plans(map[], map[], map[], [], map[]);
    Game(map[], State(map[WOOD := 5], map[], [], 0, Added(VILLAGE.cat, map[], empty, SITE, Info(NO_TASK, Cost(WOOD, 5), BRIDGE))))
  }

  /** A run that loses the wood: the bridge is started, loses its support, and is given up after the task was swept.  Had
      it been given up before the sweep, the wood would have come back. */
  lemma LosingRun() returns (gs: seq<Game>)
    ensures Sound(VILLAGE, Village()) && LegalRun(VILLAGE, Village(), [Start(SITE), Judge(0, true), Sweep], gs) && |gs| == 3
    ensures Sound(VILLAGE, gs[2]) && (SITE in gs[2].st.plans.furniture ==> SITE in gs[2].st.plans.all) && CostsPaid(gs[2].st.tasks)
    ensures Num(VILLAGE, Village().st, WOOD) == 5 && Num(VILLAGE, Cancelled(gs[2].st, SITE, Nowhere), WOOD) == 0
    ensures (SITE in gs[1].st.plans.furniture ==> SITE in gs[1].st.plans.all) && CostsPaid(gs[1].st.tasks)
    ensures Num(VILLAGE, Cancelled(gs[1].st, SITE, Nowhere), WOOD) == 5
  {
    hide Sound, Num, Cancelled, Legal;
    var g := Village();
    VillageSound();
    var g1 := VillageStart();
    var ops;
    ops, gs := StartCanBeLost(VILLAGE, g, SITE, g1, Nowhere);
    assert [Start(SITE)] + ops == [Start(SITE), Judge(0, true), Sweep];
    VillageWood();
    BeforeTheSweep(gs);
  }

  lemma VillageWood()
    ensures Num(VILLAGE, Village().st, WOOD) == 5 && Village().st.nextTask == 0
    ensures SITE in Village().st.plans.furniture && Village().st.plans.furniture[SITE].cost == Cost(WOOD, 5)
  {
    assert VILLAGE.Lists(WOOD) == [];
  }

  lemma VillageSound()
    ensures Sound(VILLAGE, Village())
  {
    var empty := Plans(map[], map[], map[], [], map[]);
    AddedInv(VILLAGE.cat, map[], empty, SITE, Info(NO_TASK, Cost(WOOD, 5), BRIDGE));
  }

  lemma VillageStart() returns (g1: Game)
    requires Sound(VILLAGE, Village())
    ensures Legal(VILLAGE, Village(), Start(SITE), g1)
  {
    hide Sound;
    var st := WithTask(Village().st, SITE);
    g1 := Game(map[], st.(credit := map[WOOD := 0]));
    forall r
      ensures Num(VILLAGE, g1.st, r) == Num(VILLAGE, st, r) - if r == WOOD then 5 else 0
    {
      assert VILLAGE.Lists(r) == [];
    }
  }

  lemma BeforeTheSweep(gs: seq<Game>)
    requires Sound(VILLAGE, Village()) && LegalRun(VILLAGE, Village(), [Start(SITE), Judge(0, true), Sweep], gs)
    requires |gs| == 3
    ensures (SITE in gs[1].st.plans.furniture ==> SITE in gs[1].st.plans.all) && CostsPaid(gs[1].st.tasks)
    ensures Num(VILLAGE, Cancelled(gs[1].st, SITE, Nowhere), WOOD) == 5
  {
    hide Sound, Num, Cancelled, Legal, LegalRun;
    var g, ops := Village(), [Judge(0, true)];
    VillageWood();
    assert [Start(SITE)] + ops + [Sweep] == [Start(SITE), Judge(0, true), Sweep];
    RunPrefix(VILLAGE, g, [Start(SITE)] + ops, Sweep, gs);
    var most := gs[..2];
    CancelReturns(VILLAGE, g, SITE, ops, most, Nowhere);
    assert most[1] == gs[1] && most[1..][1..] == [];
    FirstSteps(VILLAGE, g, Start(SITE), Judge(0, true), most);
    JudgeKeeps(VILLAGE, most[0], 0, true, most[1], WOOD);
  }

  lemma FirstSteps(cfg: Setting, g: Game, op1: Op, op2: Op, gs: seq<Game>)
    requires Sound(cfg, g) && LegalRun(cfg, g, [op1] + [op2], gs)
    ensures |gs| == 2 && Legal(cfg, g, op1, gs[0]) && Sound(cfg, gs[0]) && Legal(cfg, gs[0], op2, gs[1])
  {
    hide Sound, Legal;
    var ops := [op1] + [op2];
    assert ops[0] == op1 && ops[1..] == [op2];
    StepSound(cfg, g, op1, gs[0]);
  }

  lemma JudgeKeeps(cfg: Setting, g: Game, t: int, bogus: bool, g': Game, id: ResourceId)
    requires Sound(cfg, g) && Legal(cfg, g, Judge(t, bogus), g')
    ensures Num(cfg, g'.st, id) == Num(cfg, g.st, id)
  {
    hide Inv, SetBogus, Stored, Squares;
  }

  lemma {:induction false} RunPrefix(cfg: Setting, g: Game, ops: seq<Op>, op: Op, gs: seq<Game>)
    requires Sound(cfg, g) && LegalRun(cfg, g, ops + [op], gs)
    ensures |gs| == |ops| + 1 && LegalRun(cfg, g, ops, gs[..|ops|])
    decreases |ops|
  {
    hide Sound, Legal;
    if ops != [] {
      var all := ops + [op];
      assert all[0] == ops[0] && all[1..] == ops[1..] + [op];
      StepSound(cfg, g, ops[0], gs[0]);
      RunPrefix(cfg, gs[0], ops[1..], op, gs[1..]);
      assert gs[..|ops|][1..] == gs[1..][..|ops| - 1];
    }
  }
}
