/** What resources net of debt mean: what is left after every pending plan that no running task has paid for, and the debt of
    the workshops. */
module Balance {
  import opened Collections
  import opened Grid
  import opened Constructions
  import opened Economy
  import opened Refunds

  /** Some task with this id is running. */
  predicate Runs(tasks: seq<Task>, id: int) {
    exists i :: 0 <= i < |tasks| && tasks[i].id == id && !tasks[i].IsDone()
  }

  ghost predicate Ids(tasks: seq<Task>) {
    forall i, j :: 0 <= i < j < |tasks| ==> tasks[i].id != tasks[j].id
  }

  /** Task ids are unique, and no two plans share a task. */
  ghost predicate Orderly(g: Game) {
    && Ids(g.st.tasks)
    && (forall k, l :: k in g.st.plans.furniture && l in g.st.plans.furniture && k != l
                       && g.st.plans.furniture[k].task == g.st.plans.furniture[l].task ==>
          g.st.plans.furniture[k].task == NO_TASK)
  }

  // ----- order over runs

  lemma {:induction false} IdsAppended(tasks: seq<Task>, t: Task)
    requires Ids(tasks) && forall u :: u in tasks ==> u.id != t.id
    ensures Ids(tasks + [t])
  {
  }

  lemma {:induction false} IdsSwept(tasks: seq<Task>)
    requires Ids(tasks)
    ensures Ids(Swept(tasks))
  {
    if tasks != [] {
      var r := Swept(tasks[1..]);
      IdsRest(tasks);
      IdsSwept(tasks[1..]);
      SweptIs(tasks[1..], "");
      forall j | 0 <= j < |r|
        ensures r[j].id != tasks[0].id
      {
        assert r[j] in tasks[1..];
      }
      hide Swept;
      assert Ids(r);
      assert Swept(tasks) == (if tasks[0].IsDone() then [] else [tasks[0]]) + r by { SweptFirst(tasks); }
    }
  }

  lemma IdsRest(tasks: seq<Task>)
    requires Ids(tasks) && tasks != []
    ensures Ids(tasks[1..]) && forall t :: t in tasks[1..] ==> t.id != tasks[0].id
  {
    forall i, j | 0 <= i < j < |tasks[1..]|
      ensures tasks[1..][i].id != tasks[1..][j].id
    {
      assert tasks[i + 1].id != tasks[j + 1].id;
    }
  }

  lemma SweptFirst(tasks: seq<Task>)
    requires tasks != []
    ensures Swept(tasks) == (if tasks[0].IsDone() then [] else [tasks[0]]) + Swept(tasks[1..])
  {
  }

  lemma {:induction false} IdsWithout(tasks: seq<Task>, u: int)
    requires Ids(tasks)
    ensures Ids(WithoutTask(tasks, u))
  {
    if HasTask(tasks, u) {
      WithoutAt(tasks, u);
      hide WithoutTask, HasTask, Find;
      var f, r := Find(tasks, u), WithoutTask(tasks, u);
      forall i, j | 0 <= i < j < |r|
        ensures r[i].id != r[j].id
      {
        assert tasks[if i < f then i else i + 1].id != tasks[if j < f then j else j + 1].id;
      }
    }
  }

  lemma {:induction false} IdsFlagged(tasks: seq<Task>, i: nat, t: Task)
    requires Ids(tasks) && i < |tasks| && t.id == tasks[i].id
    ensures Ids(tasks[i := t])
  {
  }

  lemma IdsAfter(st: State, op: Op)
    requires Ids(st.tasks) && forall t :: t in st.tasks ==> t.id < st.nextTask
    ensures Ids(TasksAfter(st, op))
  {
    hide Ids, Swept, WithoutTask, HasTask;
    match op
    case Start(k) =>
      if k in st.plans.furniture { IdsAppended(st.tasks, Task(st.nextTask, st.plans.furniture[k].cost, false, false)); }
    case Judge(u, b) => if HasTask(st.tasks, u) { IdsFlagged(st.tasks, Find(st.tasks, u), st.tasks[Find(st.tasks, u)].(bogus := b)); }
    case Abandon(u) => if HasTask(st.tasks, u) { IdsFlagged(st.tasks, Find(st.tasks, u), st.tasks[Find(st.tasks, u)].(done := true)); }
    case Finish(k, _) =>
      if k in st.plans.furniture && HasTask(st.tasks, st.plans.furniture[k].task) {
        var i := Find(st.tasks, st.plans.furniture[k].task);
        IdsFlagged(st.tasks, i, st.tasks[i].(done := true));
      }
    case Cancel(k, _) => if k in st.plans.furniture { IdsWithout(st.tasks, st.plans.furniture[k].task); }
    case Release(u, _, _) => IdsWithout(st.tasks, u);
    case Sweep => IdsSwept(st.tasks);
    case _ =>
  }

  /** Every step of the protocol keeps ids unique and tasks apart. */
  lemma StepOrderly(cfg: Setting, g: Game, op: Op, g': Game)
    requires Sound(cfg, g) && Legal(cfg, g, op, g') && Orderly(g)
    ensures Orderly(g')
  {
    TasksAre(cfg, g, op, g');
    assert forall t :: t in g.st.tasks ==> t.id < g.st.nextTask by { hide Inv; }
    IdsAfter(g.st, op);
    var p, p' := g.st.plans.furniture, g'.st.plans.furniture;
    forall k, l | k in p' && l in p' && k != l && p'[k].task == p'[l].task
      ensures p'[k].task == NO_TASK
    {
      TaskIds(cfg, g, op, g', k);
      TaskIds(cfg, g, op, g', l);
      OldTask(cfg, g, k);
      OldTask(cfg, g, l);
      hide Sound, Legal;
    }
  }

  lemma OldTask(cfg: Setting, g: Game, k: Key)
    requires Sound(cfg, g)
    ensures k in g.st.plans.furniture ==> g.st.plans.furniture[k].task < g.st.nextTask
  {
    hide Inv;
    if k in g.st.plans.furniture { assert Linked(g.st, g.st.plans.furniture[k]); }
  }

  // ----- the parts of the debt

  /** The cost of a pending plan that one of the tasks is running for. */
  function Paid(cfg: Setting, g: Game, tasks: seq<Task>, id: ResourceId): Key -> int {
    k => if Pending(cfg.cat, g.world, g.st.plans, k) && Runs(tasks, g.st.plans.furniture[k].task)
         then Part(g.st.plans.furniture[k].cost, id) else 0
  }

  /** The cost of a pending plan that no task is running for. */
  function Unpaid(cfg: Setting, g: Game, id: ResourceId): Key -> int {
    k => if Pending(cfg.cat, g.world, g.st.plans, k) && !Runs(g.st.tasks, g.st.plans.furniture[k].task)
         then Part(g.st.plans.furniture[k].cost, id) else 0
  }

  /** Some pending plan has this task. */
  ghost predicate Wanted(cfg: Setting, g: Game, task: int) {
    exists k :: k in g.st.plans.furniture && WaitsFor(cfg, g, k, task)
  }

  /** What running tasks hold for no pending plan. */
  ghost function Orphaned(cfg: Setting, g: Game, tasks: seq<Task>, id: ResourceId): int {
    if tasks == [] then 0
    else (if !tasks[0].IsDone() && !Wanted(cfg, g, tasks[0].id) then Part(tasks[0].cost, id) else 0)
         + Orphaned(cfg, g, tasks[1..], id)
  }

  lemma RunsFirst(tasks: seq<Task>, id: int)
    requires tasks != []
    ensures Runs(tasks, id) <==> (tasks[0].id == id && !tasks[0].IsDone()) || Runs(tasks[1..], id)
  {
    if i :| 0 <= i < |tasks| && tasks[i].id == id && !tasks[i].IsDone() {
      if i > 0 { assert tasks[1..][i - 1] == tasks[i]; }
    }
    if i :| 0 <= i < |tasks[1..]| && tasks[1..][i].id == id && !tasks[1..][i].IsDone() {
      assert tasks[i + 1] == tasks[1..][i];
    }
  }

  /** The tasks are some of the game's, with ids of their own. */
  ghost predicate Among(g: Game, tasks: seq<Task>) {
    && (forall t :: t in tasks ==> t in g.st.tasks)
    && Ids(tasks)
  }

  lemma AmongRest(g: Game, tasks: seq<Task>)
    requires Among(g, tasks) && tasks != []
    ensures Among(g, tasks[1..]) && !Runs(tasks[1..], tasks[0].id)
  {
    IdsRest(tasks);
  }

  /** The task of a plan is listed with the cost of the plan. */
  lemma CostOf(cfg: Setting, g: Game, k: Key, t: Task)
    requires Sound(cfg, g) && k in g.st.plans.furniture && t in g.st.tasks && t.id == g.st.plans.furniture[k].task
    ensures t.cost == g.st.plans.furniture[k].cost && t.id != NO_TASK
  {
    hide Inv;
    assert Linked(g.st, g.st.plans.furniture[k]);
  }

  lemma PlansListed(cfg: Setting, g: Game)
    requires Sound(cfg, g)
    ensures Listed(cfg.cat, g.st.plans)
  {
    InvListed(cfg.cat, g.world, g.st.plans);
  }

  /** One running task more pays for its plan, or for none. */
  lemma PaidNext(cfg: Setting, g: Game, tasks: seq<Task>, id: ResourceId)
    requires Sound(cfg, g) && Orderly(g) && Among(g, tasks) && tasks != []
    ensures Sum(g.st.plans.all, Paid(cfg, g, tasks, id))
            == Sum(g.st.plans.all, Paid(cfg, g, tasks[1..], id))
               + if !tasks[0].IsDone() && Wanted(cfg, g, tasks[0].id) then Part(tasks[0].cost, id) else 0
  {
    var t, all := tasks[0], g.st.plans.all;
    var f, h := Paid(cfg, g, tasks[1..], id), Paid(cfg, g, tasks, id);
    PlansListed(cfg, g);
    AmongRest(g, tasks);
    forall u
      ensures Runs(tasks, u) <==> (t.id == u && !t.IsDone()) || Runs(tasks[1..], u)
    {
      RunsFirst(tasks, u);
    }
    hide Sum, Runs, Distinct, Sound, IsBuilt;
    if !t.IsDone() && Wanted(cfg, g, t.id) {
      var k :| k in g.st.plans.furniture && WaitsFor(cfg, g, k, t.id);
      CostOf(cfg, g, k, t);
      forall l | l in all && l != k
        ensures f(l) == h(l)
      {
      }
      SumChange(all, f, h, k);
    } else {
      forall l | l in all
        ensures f(l) == h(l)
      {
        assert l in g.st.plans.furniture && WaitsFor(cfg, g, l, t.id) ==> Wanted(cfg, g, t.id);
      }
      SumAgree(all, f, h);
    }
  }

  /** What running tasks hold is what they have paid for plans, and what is orphaned. */
  lemma {:induction false} RunningIs(cfg: Setting, g: Game, tasks: seq<Task>, id: ResourceId)
    requires Sound(cfg, g) && Orderly(g) && Among(g, tasks)
    ensures Running(tasks, id) == Sum(g.st.plans.all, Paid(cfg, g, tasks, id)) + Orphaned(cfg, g, tasks, id)
  {
    if tasks == [] {
      NothingPaid(g.st.plans.all, Paid(cfg, g, tasks, id));
    } else {
      hide Sound, Orderly, Among, Sum, Paid, Wanted;
      assert Among(g, tasks[1..]) by { AmongRest(g, tasks); }
      PaidNext(cfg, g, tasks, id);
      RunningIs(cfg, g, tasks[1..], id);
    }
  }

  lemma {:induction false} NothingPaid(s: seq<Key>, f: Key -> int)
    requires forall k :: f(k) == 0
    ensures Sum(s, f) == 0
  {
    if s != [] { NothingPaid(s[1..], f); }
  }

  lemma {:induction false} SumSplit(s: seq<Key>, f: Key -> int, g: Key -> int, h: Key -> int)
    requires forall k :: k in s ==> f(k) == g(k) + h(k)
    ensures Sum(s, f) == Sum(s, g) + Sum(s, h)
  {
    if s != [] { SumSplit(s[1..], f, g, h); }
  }

  lemma DebtIs(cfg: Setting, g: Game, id: ResourceId)
    requires Sound(cfg, g)
    ensures g.st.plans.Debt(id) == Sum(g.st.plans.all, PendingCost(cfg.cat, g.world, g.st.plans, id))
  {
    hide Sum, IsBuilt;
  }

  /** Resources net of debt are what is left when all pending plans without a running task, and the debt of the workshops,
      are paid; only what running tasks hold for plans that are gone counts on top. */
  lemma NetMeans(cfg: Setting, g: Game, id: ResourceId)
    requires Sound(cfg, g) && Orderly(g)
    ensures NumPlusDebt(cfg, g.st, id)
            == Num(cfg, g.st, id) - Sum(g.st.plans.all, Unpaid(cfg, g, id)) - cfg.Workshops(id)
               + Orphaned(cfg, g, g.st.tasks, id)
  {
    hide Sound, Sum, IsBuilt, Num, Orphaned, Runs;
    DebtIs(cfg, g, id);
    RunningIs(cfg, g, g.st.tasks, id);
    SumSplit(g.st.plans.all, PendingCost(cfg.cat, g.world, g.st.plans, id), Paid(cfg, g, g.st.tasks, id), Unpaid(cfg, g, id));
  }
}
