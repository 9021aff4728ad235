/** Resources of a collective: credit, stored items, construction debt and the costs of running tasks. */
module Economy {
  import opened Collections
  import opened Grid
  import opened Constructions

  datatype Slot = Slot(pos: Vec2, id: ResourceId)

  /** A construction task with the cost that was paid for it.  It is bogus while its furniture cannot be built, and it
      is done once it has built it or has given up. */
  datatype Task = Task(id: int, cost: Cost, done: bool, bogus: bool) {
    predicate IsDone() {
      bogus || done
    }
  }

  /** Where each resource is stored, one list of squares per storage kind, and the fixed debt of the workshops. */
  datatype Setting = Setting(cat: Catalog, storage: map<ResourceId, seq<seq<Vec2>>>, workshops: map<ResourceId, int>) {
    function Lists(id: ResourceId): seq<seq<Vec2>> {
      if id in storage then storage[id] else []
    }

    function Workshops(id: ResourceId): int {
      Amount(workshops, id)
    }
  }

  datatype State = State(credit: map<ResourceId, int>, items: map<Slot, nat>, tasks: seq<Task>, nextTask: int, plans: Plans)

  // ----- what is stored

  function Flatten(lists: seq<seq<Vec2>>): seq<Vec2> {
    if lists == [] then [] else Flatten(lists[..|lists| - 1]) + lists[|lists| - 1]
  }

  /** The squares of the list, each at its first place. */
  function Dedup(s: seq<Vec2>): seq<Vec2> {
    if s == [] then []
    else
      var r := Dedup(s[..|s| - 1]);
      if s[|s| - 1] in r then r else r + [s[|s| - 1]]
  }

  function Squares(cfg: Setting, id: ResourceId): seq<Vec2> {
    Dedup(Flatten(cfg.Lists(id)))
  }

  function ItemsAt(items: map<Slot, nat>, pos: Vec2, id: ResourceId): nat {
    if Slot(pos, id) in items then items[Slot(pos, id)] else 0
  }

  function Stored(items: map<Slot, nat>, id: ResourceId, squares: seq<Vec2>): int {
    if squares == [] then 0 else ItemsAt(items, squares[0], id) + Stored(items, id, squares[1..])
  }

  /** What the collective has of a resource: credit, and the items on its distinct storage squares. */
  function Num(cfg: Setting, st: State, id: ResourceId): int {
    Amount(st.credit, id) + Stored(st.items, id, Squares(cfg, id))
  }

  /** The costs of the tasks that are not done. */
  function Running(tasks: seq<Task>, id: ResourceId): int {
    if tasks == [] then 0
    else (if tasks[0].cost.id == id && !tasks[0].IsDone() then tasks[0].cost.value else 0) + Running(tasks[1..], id)
  }

  function DebtOf(cfg: Setting, st: State, id: ResourceId): int {
    st.plans.Debt(id) - Running(st.tasks, id) + cfg.Workshops(id)
  }

  function NumPlusDebt(cfg: Setting, st: State, id: ResourceId): int {
    Num(cfg, st, id) - DebtOf(cfg, st, id)
  }

  // ----- sums of items

  lemma {:induction false} StoredConcat(items: map<Slot, nat>, id: ResourceId, a: seq<Vec2>, b: seq<Vec2>)
    ensures Stored(items, id, a + b) == Stored(items, id, a) + Stored(items, id, b)
  {
    if a == [] {
      assert a + b == b;
    } else {
      assert (a + b)[1..] == a[1..] + b;
      StoredConcat(items, id, a[1..], b);
    }
  }

  lemma {:induction false} StoredAgree(items: map<Slot, nat>, items': map<Slot, nat>, id: ResourceId, s: seq<Vec2>)
    requires forall p :: p in s ==> ItemsAt(items, p, id) == ItemsAt(items', p, id)
    ensures Stored(items, id, s) == Stored(items', id, s)
  {
    if s != [] { StoredAgree(items, items', id, s[1..]); }
  }

  /** Changing the items on one listed square changes the sum by the difference. */
  lemma {:induction false} StoredChange(items: map<Slot, nat>, items': map<Slot, nat>, id: ResourceId, s: seq<Vec2>, p: Vec2)
    requires Distinct(s) && p in s
    requires forall q :: q in s && q != p ==> ItemsAt(items, q, id) == ItemsAt(items', q, id)
    ensures Stored(items', id, s) == Stored(items, id, s) + ItemsAt(items', p, id) - ItemsAt(items, p, id)
  {
    if s[0] == p {
      StoredAgree(items, items', id, s[1..]);
    } else {
      StoredChange(items, items', id, s[1..], p);
    }
  }

  lemma {:induction false} DedupIs(s: seq<Vec2>)
    ensures Distinct(Dedup(s)) && forall p :: p in Dedup(s) <==> p in s
  {
    if s != [] {
      var rest, x := s[..|s| - 1], s[|s| - 1];
      DedupIs(rest);
      assert s == rest + [x];
    }
  }

  lemma DedupNext(s: seq<Vec2>, p: Vec2)
    ensures Dedup(s + [p]) == if p in s then Dedup(s) else Dedup(s) + [p]
  {
    assert (s + [p])[..|s|] == s;
    DedupIs(s);
  }

  lemma FlattenNext(lists: seq<seq<Vec2>>, i: nat)
    requires i < |lists|
    ensures Flatten(lists[..i + 1]) == Flatten(lists[..i]) + lists[i]
  {
    assert lists[..i + 1][..i] == lists[..i];
  }

  lemma {:induction false} EmptySquares(items: map<Slot, nat>, id: ResourceId, s: seq<Vec2>)
    requires forall p :: p in s ==> ItemsAt(items, p, id) == 0
    ensures Stored(items, id, s) == 0
  {
    if s != [] { EmptySquares(items, id, s[1..]); }
  }

  // ----- returning, tasks, cancelling

  /** Where returned items land; Nowhere if the resource has no item or no square takes it. */
  datatype Drop = Nowhere | On(pos: Vec2)

  function Returned(st: State, amount: Cost, drop: Drop): State
    requires amount.value >= 0
  {
    if amount.value == 0 then st
    else if drop.On? then
      st.(items := st.items[Slot(drop.pos, amount.id) := ItemsAt(st.items, drop.pos, amount.id) + amount.value])
    else st.(credit := st.credit[amount.id := Amount(st.credit, amount.id) + amount.value])
  }

  predicate HasTask(tasks: seq<Task>, id: int) {
    exists i :: 0 <= i < |tasks| && tasks[i].id == id
  }

  /** The first task with that id. */
  function Find(tasks: seq<Task>, id: int): (i: nat)
    requires HasTask(tasks, id)
    ensures i < |tasks| && tasks[i].id == id
  {
    if tasks[0].id == id then 0 else 1 + Find(tasks[1..], id)
  }

  function TaskCost(tasks: seq<Task>, id: int): Cost {
    if HasTask(tasks, id) then tasks[Find(tasks, id)].cost else NO_COST
  }

  function WithoutTask(tasks: seq<Task>, id: int): seq<Task> {
    if HasTask(tasks, id) then tasks[..Find(tasks, id)] + tasks[Find(tasks, id) + 1..] else tasks
  }

  function SetDone(tasks: seq<Task>, id: int): seq<Task>
    requires HasTask(tasks, id)
  {
    tasks[Find(tasks, id) := tasks[Find(tasks, id)].(done := true)]
  }

  function SetBogus(tasks: seq<Task>, id: int, bogus: bool): seq<Task>
    requires HasTask(tasks, id)
  {
    tasks[Find(tasks, id) := tasks[Find(tasks, id)].(bogus := bogus)]
  }

  /** The task of a given-up plan is removed, and what was paid for it comes back. */
  function Refunded(st: State, task: int, drop: Drop): State
    requires CostsPaid(st.tasks)
  {
    if task == NO_TASK then st
    else Returned(st.(tasks := WithoutTask(st.tasks, task)), TaskCost(st.tasks, task), drop)
  }

  predicate CostsPaid(tasks: seq<Task>) {
    forall t :: t in tasks ==> t.cost.value >= 0
  }

  function Cancelled(st: State, key: Key, drop: Drop): State
    requires key in st.plans.furniture ==> key in st.plans.all
    requires CostsPaid(st.tasks)
  {
    if key !in st.plans.furniture then st
    else
      var st' := Refunded(st, st.plans.furniture[key].task, drop);
      st'.(plans := Removed(st.plans, key))
  }

  lemma {:induction false} RunningConcat(a: seq<Task>, b: seq<Task>, id: ResourceId)
    ensures Running(a + b, id) == Running(a, id) + Running(b, id)
  {
    if a == [] {
      assert a + b == b;
    } else {
      assert (a + b)[1..] == a[1..] + b;
      RunningConcat(a[1..], b, id);
    }
  }

  /** What a task still holds of a resource. */
  function Holds(t: Task, id: ResourceId): int {
    if t.cost.id == id && !t.IsDone() then t.cost.value else 0
  }

  lemma RunningAt(tasks: seq<Task>, i: nat, id: ResourceId)
    requires i < |tasks|
    ensures Running(tasks, id) == Running(tasks[..i] + tasks[i + 1..], id) + Holds(tasks[i], id)
  {
    assert tasks == tasks[..i] + ([tasks[i]] + tasks[i + 1..]);
    RunningConcat(tasks[..i], [tasks[i]] + tasks[i + 1..], id);
    RunningConcat([tasks[i]], tasks[i + 1..], id);
    RunningConcat(tasks[..i], tasks[i + 1..], id);
    RunningOne(tasks[i], id);
  }

  lemma RunningOne(t: Task, id: ResourceId)
    ensures Running([t], id) == Holds(t, id)
  {
  }

  lemma {:induction false} UpdatedRunning(tasks: seq<Task>, i: nat, t: Task, id: ResourceId)
    requires i < |tasks|
    ensures Running(tasks[i := t], id) == Running(tasks, id) - Holds(tasks[i], id) + Holds(t, id)
  {
    RunningAt(tasks, i, id);
    RunningAt(tasks[i := t], i, id);
    assert tasks[i := t][..i] == tasks[..i] && tasks[i := t][i + 1..] == tasks[i + 1..];
  }

  lemma SquaresDistinct(cfg: Setting, id: ResourceId)
    ensures Distinct(Squares(cfg, id))
  {
    DedupIs(Flatten(cfg.Lists(id)));
  }

  /** Returned items land on a square where they are counted; credit always is. */
  predicate Counted(cfg: Setting, amount: Cost, drop: Drop) {
    amount.value > 0 && drop.On? ==> drop.pos in Squares(cfg, amount.id)
  }

  /** The part of a cost that is in this resource. */
  function Part(cost: Cost, id: ResourceId): int {
    if cost.id == id then cost.value else 0
  }

  /** What is counted again of a returned amount. */
  function Recovered(cfg: Setting, amount: Cost, drop: Drop, id: ResourceId): int {
    if Counted(cfg, amount, drop) then Part(amount, id) else 0
  }

  /** Returned resources are counted again if and only if they become credit or land on a storage square. */
  lemma ReturnedNum(cfg: Setting, st: State, amount: Cost, drop: Drop, id: ResourceId)
    requires amount.value >= 0
    ensures Num(cfg, Returned(st, amount, drop), id) == Num(cfg, st, id) + Recovered(cfg, amount, drop, id)
  {
    hide Stored, Squares;
    var st' := Returned(st, amount, drop);
    SquaresDistinct(cfg, id);
    if amount.value > 0 && drop.On? {
      if id == amount.id && drop.pos in Squares(cfg, id) {
        StoredChange(st.items, st'.items, id, Squares(cfg, id), drop.pos);
      } else {
        StoredAgree(st.items, st'.items, id, Squares(cfg, id));
      }
    }
  }

  /** What a plan's task still holds of a resource: nothing without a task, or when getDebt no longer counts it. */
  function Held(tasks: seq<Task>, task: int, id: ResourceId): int {
    if task != NO_TASK && HasTask(tasks, task) then Holds(tasks[Find(tasks, task)], id) else 0
  }

  /** What was listed for a plan's task. */
  function ListedCost(tasks: seq<Task>, task: int): Cost {
    if task == NO_TASK then NO_COST else TaskCost(tasks, task)
  }

  lemma RefundedNum(cfg: Setting, st: State, task: int, drop: Drop, id: ResourceId)
    requires CostsPaid(st.tasks)
    ensures Num(cfg, Refunded(st, task, drop), id) == Num(cfg, st, id) + Recovered(cfg, ListedCost(st.tasks, task), drop, id)
  {
    hide Running, Stored, Squares, Recovered;
    if task == NO_TASK {
      NothingRecovered(cfg, drop, id);
    } else {
      var mid := st.(tasks := WithoutTask(st.tasks, task));
      PaidBack(st.tasks, task);
      ReturnedNum(cfg, mid, TaskCost(st.tasks, task), drop, id);
      assert Num(cfg, mid, id) == Num(cfg, st, id);
    }
  }

  lemma NothingRecovered(cfg: Setting, drop: Drop, id: ResourceId)
    ensures Recovered(cfg, NO_COST, drop, id) == 0
  {
  }

  /** A refund gives back what was listed, and takes away what the task still held. */
  lemma RefundedWorth(cfg: Setting, st: State, task: int, drop: Drop, id: ResourceId)
    requires CostsPaid(st.tasks)
    ensures NumPlusDebt(cfg, Refunded(st, task, drop), id)
            == NumPlusDebt(cfg, st, id) + Recovered(cfg, ListedCost(st.tasks, task), drop, id) - Held(st.tasks, task, id)
  {
    hide Running, Num, Recovered;
    RefundedNum(cfg, st, task, drop, id);
    if task != NO_TASK && HasTask(st.tasks, task) { RunningAt(st.tasks, Find(st.tasks, task), id); }
  }

  /** Changing only the plans changes the resources net of debt by the change of the debt. */
  lemma PlansWorth(cfg: Setting, st: State, plans: Plans, id: ResourceId)
    ensures NumPlusDebt(cfg, st.(plans := plans), id)
            == NumPlusDebt(cfg, st, id) - plans.Debt(id) + st.plans.Debt(id)
  {
  }

  /** Giving up a plan: its debt goes, what its task held goes, and what was listed for the task comes back.  With a
      running task that is the cost of the plan. */
  lemma CancelledWorth(cfg: Setting, st: State, key: Key, drop: Drop, id: ResourceId)
    requires CostsPaid(st.tasks) && key in st.plans.furniture && key in st.plans.all
    ensures var info := st.plans.furniture[key];
            NumPlusDebt(cfg, Cancelled(st, key, drop), id)
            == NumPlusDebt(cfg, st, id) + Part(info.cost, id) - Held(st.tasks, info.task, id)
               + Recovered(cfg, ListedCost(st.tasks, info.task), drop, id)
  {
    hide NumPlusDebt, Refunded, ListedCost, Held, Recovered, RemoveSwap;
    var info := st.plans.furniture[key];
    var mid := Refunded(st, info.task, drop);
    RefundedWorth(cfg, st, info.task, drop, id);
    RefundedPlans(st, info.task, drop);
    PlansWorth(cfg, mid, Removed(st.plans, key), id);
  }

  lemma RefundedPlans(st: State, task: int, drop: Drop)
    requires CostsPaid(st.tasks)
    ensures Refunded(st, task, drop).plans == st.plans
  {
  }

  lemma CancelledNum(cfg: Setting, st: State, key: Key, drop: Drop, id: ResourceId)
    requires CostsPaid(st.tasks) && (key in st.plans.furniture ==> key in st.plans.all)
    ensures Num(cfg, Cancelled(st, key, drop), id) == Num(cfg, st, id) +
            if key in st.plans.furniture then Recovered(cfg, ListedCost(st.tasks, st.plans.furniture[key].task), drop, id) else 0
  {
    hide Stored, Squares, ListedCost, Recovered, RemoveSwap, Refunded;
    if key in st.plans.furniture { RefundedNum(cfg, st, st.plans.furniture[key].task, drop, id); }
  }

  /** What is listed for the plan of a place. */
  function ListedAt(st: State, key: Key): Cost {
    if key in st.plans.furniture then ListedCost(st.tasks, st.plans.furniture[key].task) else NO_COST
  }

  /** Giving up a place gives back a cost exactly if this is what is listed for its plan and is counted again; nothing is
      given back exactly if nothing is listed or it is not counted.  Whether the task is done does not matter. */
  lemma CancelledExact(cfg: Setting, st: State, key: Key, drop: Drop, cost: Cost)
    requires CostsPaid(st.tasks) && (key in st.plans.furniture ==> key in st.plans.all) && cost.value >= 0
    ensures (forall id :: Num(cfg, Cancelled(st, key, drop), id) == Num(cfg, st, id) + Part(cost, id))
            <==> if cost.value > 0 then ListedAt(st, key) == cost && Counted(cfg, cost, drop)
                 else ListedAt(st, key).value == 0 || !Counted(cfg, ListedAt(st, key), drop)
  {
    hide Num, Cancelled, Counted, ListedAt;
    var listed := ListedAt(st, key);
    forall id
      ensures Num(cfg, Cancelled(st, key, drop), id) == Num(cfg, st, id) + Recovered(cfg, listed, drop, id)
    {
      ListedNum(cfg, st, key, drop, id);
    }
    assert Num(cfg, Cancelled(st, key, drop), cost.id) == Num(cfg, st, cost.id) + Recovered(cfg, listed, drop, cost.id);
    assert Num(cfg, Cancelled(st, key, drop), listed.id) == Num(cfg, st, listed.id) + Recovered(cfg, listed, drop, listed.id);
  }

  lemma ListedNum(cfg: Setting, st: State, key: Key, drop: Drop, id: ResourceId)
    requires CostsPaid(st.tasks) && (key in st.plans.furniture ==> key in st.plans.all)
    ensures Num(cfg, Cancelled(st, key, drop), id) == Num(cfg, st, id) + Recovered(cfg, ListedAt(st, key), drop, id)
  {
    hide Num, Cancelled, Counted, ListedCost;
    CancelledNum(cfg, st, key, drop, id);
  }

  // ----- the protocol

  /** The state with a new task for the plan, before its cost is paid. */
  function WithTask(st: State, key: Key): State
    requires key in st.plans.furniture
  {
    var info := st.plans.furniture[key];
    st.(tasks := st.tasks + [Task(st.nextTask, info.cost, false, false)], nextTask := st.nextTask + 1,
        plans := st.plans.(furniture := st.plans.furniture[key := info.(task := st.nextTask)]))
  }

  /** A construction starts: the task is listed with its cost, and the cost is paid. */
  ghost predicate Started(cfg: Setting, st: State, st': State, key: Key) {
    && key in st.plans.furniture && st.plans.furniture[key].task == NO_TASK
    && Took(cfg, WithTask(st, key), st', st.plans.furniture[key].cost)
  }

  /** Starting a construction does not change the resources net of debt. */
  lemma StartedWorth(cfg: Setting, st: State, st': State, key: Key, id: ResourceId)
    requires Started(cfg, st, st', key)
    ensures NumPlusDebt(cfg, st', id) == NumPlusDebt(cfg, st, id)
  {
    hide Running, Stored, Squares;
    var info, mid := st.plans.furniture[key], WithTask(st, key);
    RunningConcat(st.tasks, [Task(st.nextTask, info.cost, false, false)], id);
    RunningOne(Task(st.nextTask, info.cost, false, false), id);
    assert Num(cfg, mid, id) == Num(cfg, st, id);
  }

  /** A construction is done: the task first, then the plan.  Furniture that is forgotten after building takes its
      plan along. */
  function Finished(cat: Catalog, world: World, st: State, pos: Vec2, t: FurnitureType, forget: bool): State
    requires t in cat.layer
    requires var key := Key(pos, cat.layer[t]);
             key in st.plans.furniture && key in st.plans.all && HasTask(st.tasks, st.plans.furniture[key].task)
  {
    var key := Key(pos, cat.layer[t]);
    st.(tasks := SetDone(st.tasks, st.plans.furniture[key].task),
        plans := if forget then Removed(st.plans, key) else Constructed(cat, world, st.plans, pos, t))
  }

  /** Finishing a construction changes the resources net of debt by the cost of the plan less what its task still held:
      not at all if the task paid for the plan. */
  lemma FinishedWorth(cfg: Setting, world: World, st: State, pos: Vec2, t: FurnitureType, forget: bool, id: ResourceId)
    requires t in cfg.cat.layer
    requires var key := Key(pos, cfg.cat.layer[t]);
             key in st.plans.furniture && key in st.plans.all && HasTask(st.tasks, st.plans.furniture[key].task)
    ensures var info := st.plans.furniture[Key(pos, cfg.cat.layer[t])];
            NumPlusDebt(cfg, Finished(cfg.cat, world, st, pos, t, forget), id)
            == NumPlusDebt(cfg, st, id) + Part(info.cost, id) - Holds(st.tasks[Find(st.tasks, info.task)], id)
  {
    hide Running, Stored, Squares, RemoveSwap, SetDone;
    var key := Key(pos, cfg.cat.layer[t]);
    var info := st.plans.furniture[key];
    var i := Find(st.tasks, info.task);
    UpdatedRunning(st.tasks, i, st.tasks[i].(done := true), id);
    assert SetDone(st.tasks, info.task) == st.tasks[i := st.tasks[i].(done := true)] by { SetDoneIs(st.tasks, info.task); }
    var st' := Finished(cfg.cat, world, st, pos, t, forget);
    assert Num(cfg, st', id) == Num(cfg, st, id);
    assert st'.plans.Debt(id) == st.plans.Debt(id) - Part(info.cost, id);
  }

  lemma SetDoneIs(tasks: seq<Task>, id: int)
    requires HasTask(tasks, id)
    ensures SetDone(tasks, id) == tasks[Find(tasks, id) := tasks[Find(tasks, id)].(done := true)]
  {
  }

  /** The tasks that are not done. */
  function Swept(tasks: seq<Task>): seq<Task> {
    if tasks == [] then [] else (if tasks[0].IsDone() then [] else [tasks[0]]) + Swept(tasks[1..])
  }

  lemma {:induction false} SweptIs(tasks: seq<Task>, id: ResourceId)
    ensures Running(Swept(tasks), id) == Running(tasks, id)
    ensures forall t :: t in Swept(tasks) <==> t in tasks && !t.IsDone()
  {
    if tasks != [] {
      SweptIs(tasks[1..], id);
      RunningConcat(if tasks[0].IsDone() then [] else [tasks[0]], Swept(tasks[1..]), id);
      RunningOne(tasks[0], id);
    }
  }

  lemma {:induction false} SweptNext(tasks: seq<Task>, t: Task)
    ensures Swept(tasks + [t]) == Swept(tasks) + if t.IsDone() then [] else [t]
  {
    if tasks == [] {
      assert [] + [t] == [t] && [t][1..] == [];
    } else {
      assert (tasks + [t])[0] == tasks[0] && (tasks + [t])[1..] == tasks[1..] + [t];
      SweptNext(tasks[1..], t);
    }
  }

  lemma NoneSwept()
    ensures Swept([]) == []
  {
  }

  /** The game: the furniture that stands, and the state of the collective. */
  datatype Game = Game(world: World, st: State)

  /** Judge: the task's furniture stops or starts being buildable.  Abandon: the task gives up.  Release: a done task is
      taken from its worker, with or without a refund.  Sweep: done tasks are dropped.  Unsupport: a plan without support
      is dropped. */
  datatype Op =
    | Plan(key: Key, info: Info)
    | Start(key: Key)
    | Judge(task: int, bogus: bool)
    | Abandon(task: int)
    | Finish(key: Key, forget: bool)
    | Cancel(key: Key, drop: Drop)
    | Release(task: int, refund: bool, drop: Drop)
    | Sweep
    | Unsupport(key: Key)
    | Destroy(key: Key)

  /** The books of the plans are right, and each listed task has paid the cost of its plan. */
  ghost predicate Sound(cfg: Setting, g: Game) {
    && Inv(cfg.cat, g.world, g.st.plans)
    && CostsPaid(g.st.tasks)
    && g.st.nextTask >= 0 && (forall t :: t in g.st.tasks ==> 0 <= t.id < g.st.nextTask)
    && (forall k :: k in g.st.plans.furniture ==> Linked(g.st, g.st.plans.furniture[k]))
  }

  ghost predicate Linked(st: State, info: Info) {
    && info.cost.value >= 0 && info.task < st.nextTask
    && forall t :: t in st.tasks && t.id == info.task ==> t.cost == info.cost
  }

  /** One step of the protocol, with what it demands. */
  ghost predicate Legal(cfg: Setting, g: Game, op: Op, g': Game)
    requires Sound(cfg, g)
  {
    match op
    case Plan(key, info) =>
      && key !in g.st.plans.furniture && info.kind in cfg.cat.layer && cfg.cat.layer[info.kind] == key.layer
      && info.task == NO_TASK && info.cost.value >= 0
      && g' == Game(g.world, g.st.(plans := Added(cfg.cat, g.world, g.st.plans, key, info)))
    case Start(key) =>
      && Pending(cfg.cat, g.world, g.st.plans, key)
      && g'.world == g.world && Started(cfg, g.st, g'.st, key)
    case Judge(task, bogus) =>
      HasTask(g.st.tasks, task) && g' == Game(g.world, g.st.(tasks := SetBogus(g.st.tasks, task, bogus)))
    case Abandon(task) =>
      HasTask(g.st.tasks, task) && g' == Game(g.world, g.st.(tasks := SetDone(g.st.tasks, task)))
    case Finish(key, forget) =>
      && Pending(cfg.cat, g.world, g.st.plans, key) && HasTask(g.st.tasks, g.st.plans.furniture[key].task)
      && (var info := g.st.plans.furniture[key]; var world' := g.world[key := info.kind];
          g' == Game(world', Finished(cfg.cat, world', g.st, key.pos, info.kind, forget)))
    case Cancel(key, drop) =>
      && (key in g.st.plans.furniture ==> Pending(cfg.cat, g.world, g.st.plans, key))
      && g' == Game(g.world, Cancelled(g.st, key, drop))
    case Release(task, refund, drop) =>
      && task != NO_TASK && HasTask(g.st.tasks, task) && g.st.tasks[Find(g.st.tasks, task)].IsDone()
      && g' == Game(g.world, if refund then Refunded(g.st, task, drop) else g.st.(tasks := WithoutTask(g.st.tasks, task)))
    case Sweep => g' == Game(g.world, g.st.(tasks := Swept(g.st.tasks)))
    case Unsupport(key) =>
      Pending(cfg.cat, g.world, g.st.plans, key) && g' == Game(g.world, g.st.(plans := Removed(g.st.plans, key)))
    case Destroy(key) =>
      && key in g.world
      && (key in g.st.plans.furniture ==>
          (IsBuilt(cfg.cat, g.world, key, g.st.plans.furniture[key].kind) <==>
           Matches(g.world[key], g.st.plans.furniture[key].kind)))
      && g' == Game(g.world - {key}, g.st.(plans := Destroyed(g.st.plans, key, g.world[key])))
  }

  /** What the step is worth in a resource, net of debt. */
  function Worth(cfg: Setting, g: Game, op: Op, id: ResourceId): int {
    var p, tasks := g.st.plans, g.st.tasks;
    match op
    case Plan(key, info) => if IsBuilt(cfg.cat, g.world, key, info.kind) then 0 else -Part(info.cost, id)
    case Start(key) => 0
    case Judge(task, bogus) =>
      if HasTask(tasks, task) then Holds(tasks[Find(tasks, task)].(bogus := bogus), id) - Holds(tasks[Find(tasks, task)], id)
      else 0
    case Abandon(task) => if HasTask(tasks, task) then -Holds(tasks[Find(tasks, task)], id) else 0
    case Finish(key, _) =>
      if key in p.furniture && HasTask(tasks, p.furniture[key].task)
      then Part(p.furniture[key].cost, id) - Holds(tasks[Find(tasks, p.furniture[key].task)], id) else 0
    case Cancel(key, drop) =>
      if key in p.furniture then
        Part(p.furniture[key].cost, id) - Held(tasks, p.furniture[key].task, id)
        + Recovered(cfg, ListedCost(tasks, p.furniture[key].task), drop, id)
      else 0
    case Release(task, refund, drop) => if refund then Recovered(cfg, TaskCost(tasks, task), drop, id) else 0
    case Sweep => 0
    case Unsupport(key) => if key in p.furniture then Part(p.furniture[key].cost, id) else 0
    case Destroy(key) =>
      if key in p.furniture && key in g.world && Matches(g.world[key], p.furniture[key].kind)
      then -Part(p.furniture[key].cost, id) else 0
  }

  lemma StepWorth(cfg: Setting, g: Game, op: Op, g': Game, id: ResourceId)
    requires Sound(cfg, g) && Legal(cfg, g, op, g')
    ensures NumPlusDebt(cfg, g'.st, id) == NumPlusDebt(cfg, g.st, id) + Worth(cfg, g, op, id)
  {
    hide NumPlusDebt, IsBuilt, RemoveSwap, Squares, Inv, Matches, Added, Destroyed, Removed, Recovered, Held, ListedCost,
         SetDone, SetBogus, WithoutTask, Refunded, TaskCost;
    InvListed(cfg.cat, g.world, g.st.plans);
    match op
    case Plan(key, info) =>
      PlansWorth(cfg, g.st, g'.st.plans, id);
      AddedWorth(cfg.cat, g.world, g.st.plans, key, info, id);
    case Start(key) => StartedWorth(cfg, g.st, g'.st, key, id);
    case Judge(task, bogus) => FlaggedWorth(cfg, g.st, task, g.st.tasks[Find(g.st.tasks, task)].(bogus := bogus), id);
    case Abandon(task) => FlaggedWorth(cfg, g.st, task, g.st.tasks[Find(g.st.tasks, task)].(done := true), id);
    case Finish(key, forget) =>
      var info := g.st.plans.furniture[key];
      FinishedWorth(cfg, g.world[key := info.kind], g.st, key.pos, info.kind, forget, id);
    case Cancel(key, drop) => if key in g.st.plans.furniture { CancelledWorth(cfg, g.st, key, drop, id); }
    case Release(task, refund, drop) => ReleasedWorth(cfg, g.st, task, refund, drop, id);
    case Sweep => SweptWorth(cfg, g.st, id);
    case Unsupport(key) =>
      PlansWorth(cfg, g.st, g'.st.plans, id);
      RemovedDebt(g.st.plans, key, id);
    case Destroy(key) =>
      PlansWorth(cfg, g.st, g'.st.plans, id);
      DestroyedWorth(g.st.plans, key, g.world[key], id);
  }

  /** Another flag on a task changes what getDebt takes it to hold. */
  lemma FlaggedWorth(cfg: Setting, st: State, task: int, t: Task, id: ResourceId)
    requires HasTask(st.tasks, task)
    ensures var i := Find(st.tasks, task);
            && NumPlusDebt(cfg, st.(tasks := st.tasks[i := t]), id)
               == NumPlusDebt(cfg, st, id) + Holds(t, id) - Holds(st.tasks[i], id)
            && SetDone(st.tasks, task) == st.tasks[i := st.tasks[i].(done := true)]
            && forall b :: SetBogus(st.tasks, task, b) == st.tasks[i := st.tasks[i].(bogus := b)]
  {
    hide Running, Stored, Squares;
    UpdatedRunning(st.tasks, Find(st.tasks, task), t, id);
  }

  lemma ReleasedWorth(cfg: Setting, st: State, task: int, refund: bool, drop: Drop, id: ResourceId)
    requires CostsPaid(st.tasks) && task != NO_TASK && HasTask(st.tasks, task) && st.tasks[Find(st.tasks, task)].IsDone()
    ensures var st' := if refund then Refunded(st, task, drop) else st.(tasks := WithoutTask(st.tasks, task));
            NumPlusDebt(cfg, st', id)
            == NumPlusDebt(cfg, st, id) + if refund then Recovered(cfg, TaskCost(st.tasks, task), drop, id) else 0
  {
    hide Running, Stored, Squares, Recovered;
    RunningAt(st.tasks, Find(st.tasks, task), id);
    if refund { RefundedWorth(cfg, st, task, drop, id); }
  }

  lemma RemovedDebt(p: Plans, key: Key, id: ResourceId)
    requires key in p.furniture && key in p.all
    ensures Removed(p, key).Debt(id) == p.Debt(id) - Part(p.furniture[key].cost, id)
  {
  }

  lemma AddedWorth(cat: Catalog, world: World, p: Plans, key: Key, info: Info, id: ResourceId)
    ensures Added(cat, world, p, key, info).Debt(id)
            == p.Debt(id) + if IsBuilt(cat, world, key, info.kind) then 0 else Part(info.cost, id)
  {
  }

  lemma DestroyedWorth(p: Plans, key: Key, t: FurnitureType, id: ResourceId)
    ensures Destroyed(p, key, t).Debt(id) == p.Debt(id) +
            if key in p.furniture && Matches(t, p.furniture[key].kind) then Part(p.furniture[key].cost, id) else 0
  {
  }

  lemma SweptWorth(cfg: Setting, st: State, id: ResourceId)
    ensures NumPlusDebt(cfg, st.(tasks := Swept(st.tasks)), id) == NumPlusDebt(cfg, st, id)
  {
    hide Running, Swept, Stored, Squares;
    SweptIs(st.tasks, id);
  }

  function TaskSet(p: Plans, key: Key, task: int): Plans
    requires key in p.furniture
  {
    p.(furniture := p.furniture[key := p.furniture[key].(task := task)])
  }

  lemma TaskListed(cat: Catalog, p: Plans, key: Key, task: int)
    requires Listed(cat, p) && key in p.furniture
    ensures Listed(cat, TaskSet(p, key, task))
  {
  }

  lemma TaskPositions(cat: Catalog, world: World, p: Plans, key: Key, task: int)
    requires PositionsRight(cat, world, p) && key in p.furniture
    ensures PositionsRight(cat, world, TaskSet(p, key, task))
  {
  }

  /** Assigning a task to a plan keeps the books right. */
  lemma TaskInv(cat: Catalog, world: World, p: Plans, key: Key, task: int)
    requires Inv(cat, world, p) && key in p.furniture
    ensures Inv(cat, world, TaskSet(p, key, task))
  {
    hide IsBuilt, Sum, PendingCost, PendingKind, PositionsRight;
    TaskListed(cat, p, key, task);
    TaskPositions(cat, world, p, key, task);
    SumsChange(cat, world, world, p, TaskSet(p, key, task), key);
  }

  lemma {:induction false} StartedSound(cfg: Setting, g: Game, key: Key, g': Game)
    requires Sound(cfg, g) && Legal(cfg, g, Start(key), g')
    ensures Sound(cfg, g')
  {
    hide Inv, Squares, Stored, IsBuilt;
    InvListed(cfg.cat, g.world, g.st.plans);
    TaskInv(cfg.cat, g.world, g.st.plans, key, g.st.nextTask);
  }

  lemma ForgottenSound(cfg: Setting, g: Game, key: Key, g': Game)
    requires Sound(cfg, g) && Legal(cfg, g, Finish(key, true), g')
    ensures Sound(cfg, g')
  {
    hide Inv, Squares, Stored, IsBuilt, Sum, RemoveSwap, Listed;
    var p := g.st.plans;
    InvListed(cfg.cat, g.world, p);
    RemovedExact(cfg.cat, g.world, p, key);
    UnplannedWorld(cfg.cat, g.world, g'.world, Removed(p, key));
  }

  lemma BuiltSound(cfg: Setting, g: Game, key: Key, g': Game)
    requires Sound(cfg, g) && Legal(cfg, g, Finish(key, false), g')
    ensures Sound(cfg, g')
  {
    hide Inv, Squares, Stored, IsBuilt, Sum, RemoveSwap, Distinct;
    var p := g.st.plans;
    InvListed(cfg.cat, g.world, p);
    ConstructedInv(cfg.cat, g.world, p, key.pos, p.furniture[key].kind);
  }

  /** A finished construction: the plan is built, or gone. */
  lemma FinishedSound(cfg: Setting, g: Game, key: Key, forget: bool, g': Game)
    requires Sound(cfg, g) && Legal(cfg, g, Finish(key, forget), g')
    ensures Sound(cfg, g')
  {
    hide Sound, Legal;
    if forget { ForgottenSound(cfg, g, key, g'); } else { BuiltSound(cfg, g, key, g'); }
  }

  lemma WithoutTaskIs(tasks: seq<Task>, id: int)
    ensures forall t :: t in WithoutTask(tasks, id) ==> t in tasks
  {
  }

  /** Fewer tasks, and flags on tasks, do not disturb the links. */
  lemma FewerTasksSound(cfg: Setting, g: Game, tasks: seq<Task>)
    requires Sound(cfg, g)
    requires forall t :: t in tasks ==> exists u :: u in g.st.tasks && u.id == t.id && u.cost == t.cost
    ensures Sound(cfg, Game(g.world, g.st.(tasks := tasks)))
  {
    hide Inv;
    var st' := g.st.(tasks := tasks);
    forall k | k in g.st.plans.furniture
      ensures Linked(st', g.st.plans.furniture[k])
    {
      assert Linked(g.st, g.st.plans.furniture[k]);
    }
  }

  lemma PlansSound(cfg: Setting, g: Game, key: Key)
    requires Sound(cfg, g) && Pending(cfg.cat, g.world, g.st.plans, key) && key in g.st.plans.all
    ensures Sound(cfg, Game(g.world, g.st.(plans := Removed(g.st.plans, key))))
  {
    hide Inv, IsBuilt, RemoveSwap;
    RemovedExact(cfg.cat, g.world, g.st.plans, key);
  }

  lemma RefundedSound(cfg: Setting, g: Game, task: int, drop: Drop)
    requires Sound(cfg, g)
    ensures Sound(cfg, Game(g.world, Refunded(g.st, task, drop)))
  {
    hide Inv, WithoutTask, TaskCost;
    PaidBack(g.st.tasks, task);
    WithoutTaskIs(g.st.tasks, task);
    FewerTasksSound(cfg, g, WithoutTask(g.st.tasks, task));
  }

  lemma CancelledSound(cfg: Setting, g: Game, key: Key, drop: Drop, g': Game)
    requires Sound(cfg, g) && Legal(cfg, g, Cancel(key, drop), g')
    ensures Sound(cfg, g')
  {
    CostsOf(cfg, g);
    CancelledIs(g.st, key, drop);
    hide Sound, Refunded, Removed, Pending, Cancelled;
    if key in g.st.plans.furniture {
      var task := g.st.plans.furniture[key].task;
      RefundedSound(cfg, g, task, drop);
      RefundedPlans(g.st, task, drop);
      PlansSound(cfg, Game(g.world, Refunded(g.st, task, drop)), key);
    }
  }

  lemma CancelledIs(st: State, key: Key, drop: Drop)
    requires CostsPaid(st.tasks) && (key in st.plans.furniture ==> key in st.plans.all)
    ensures Cancelled(st, key, drop) ==
            if key in st.plans.furniture
            then Refunded(st, st.plans.furniture[key].task, drop).(plans := Removed(st.plans, key)) else st
  {
  }

  lemma CostsOf(cfg: Setting, g: Game)
    requires Sound(cfg, g)
    ensures CostsPaid(g.st.tasks) && forall k :: k in g.st.plans.furniture <==> k in g.st.plans.all
  {
  }

  lemma FlaggedSound(cfg: Setting, g: Game, i: nat, t: Task)
    requires Sound(cfg, g) && i < |g.st.tasks| && t.id == g.st.tasks[i].id && t.cost == g.st.tasks[i].cost
    ensures Sound(cfg, Game(g.world, g.st.(tasks := g.st.tasks[i := t])))
  {
    hide Sound;
    FewerTasksSound(cfg, g, g.st.tasks[i := t]);
  }

  /** Every step of the protocol keeps the books and the links to the tasks right. */
  lemma StepSound(cfg: Setting, g: Game, op: Op, g': Game)
    requires Sound(cfg, g) && Legal(cfg, g, op, g')
    ensures Sound(cfg, g')
  {
    match op
    case Plan(key, info) => PlannedSound(cfg, g, key, info, g');
    case Start(key) => StartedSound(cfg, g, key, g');
    case Finish(key, forget) => FinishedSound(cfg, g, key, forget, g');
    case Cancel(key, drop) => CancelledSound(cfg, g, key, drop, g');
    case Destroy(key) => DestroyedSound(cfg, g, key, g');
    case Unsupport(key) => UnsupportedSound(cfg, g, key, g');
    case _ => TaskStepSound(cfg, g, op, g');
  }

  lemma UnsupportedSound(cfg: Setting, g: Game, key: Key, g': Game)
    requires Sound(cfg, g) && Legal(cfg, g, Unsupport(key), g')
    ensures Sound(cfg, g')
  {
    hide Inv, IsBuilt, RemoveSwap;
    InvListed(cfg.cat, g.world, g.st.plans);
    PlansSound(cfg, g, key);
  }

  lemma TaskStepSound(cfg: Setting, g: Game, op: Op, g': Game)
    requires Sound(cfg, g) && Legal(cfg, g, op, g') && (op.Judge? || op.Abandon? || op.Release? || op.Sweep?)
    ensures Sound(cfg, g')
  {
    hide Sound, Refunded, WithoutTask, Swept;
    match op
    case Judge(task, bogus) =>
      var i := Find(g.st.tasks, task);
      FlaggedSound(cfg, g, i, g.st.tasks[i].(bogus := bogus));
    case Abandon(task) =>
      var i := Find(g.st.tasks, task);
      FlaggedSound(cfg, g, i, g.st.tasks[i].(done := true));
    case Release(task, refund, drop) =>
      WithoutTaskIs(g.st.tasks, task);
      if refund { RefundedSound(cfg, g, task, drop); } else { FewerTasksSound(cfg, g, WithoutTask(g.st.tasks, task)); }
    case Sweep =>
      SweptIs(g.st.tasks, "");
      FewerTasksSound(cfg, g, Swept(g.st.tasks));
  }

  lemma PlannedSound(cfg: Setting, g: Game, key: Key, info: Info, g': Game)
    requires Sound(cfg, g) && Legal(cfg, g, Plan(key, info), g')
    ensures Sound(cfg, g')
  {
    hide Inv, IsBuilt;
    AddedInv(cfg.cat, g.world, g.st.plans, key, info);
  }

  lemma DestroyedSound(cfg: Setting, g: Game, key: Key, g': Game)
    requires Sound(cfg, g) && Legal(cfg, g, Destroy(key), g')
    ensures Sound(cfg, g')
  {
    hide Inv, IsBuilt, Matches;
    DestroyedExact(cfg.cat, g.world, g.st.plans, key, g.world[key]);
  }

  // ----- whole runs

  /** A run: from g by the steps ops through the games gs. */
  ghost predicate LegalRun(cfg: Setting, g: Game, ops: seq<Op>, gs: seq<Game>)
    requires Sound(cfg, g)
    decreases |ops|
  {
    && |ops| == |gs|
    && (ops != [] ==>
        && Legal(cfg, g, ops[0], gs[0])
        && (StepSound(cfg, g, ops[0], gs[0]); LegalRun(cfg, gs[0], ops[1..], gs[1..])))
  }

  ghost function RunWorth(cfg: Setting, g: Game, ops: seq<Op>, gs: seq<Game>, id: ResourceId): int
    requires |ops| == |gs|
    decreases |ops|
  {
    if ops == [] then 0 else Worth(cfg, g, ops[0], id) + RunWorth(cfg, gs[0], ops[1..], gs[1..], id)
  }

  /** Over every legal run, those in which tasks give up or plans are dropped among them, the resources net of debt
      change by the worth of the steps, and the books stay right. */
  lemma {:induction false} RunConserves(cfg: Setting, g: Game, ops: seq<Op>, gs: seq<Game>, id: ResourceId)
    requires Sound(cfg, g) && LegalRun(cfg, g, ops, gs)
    ensures var last := if gs == [] then g else gs[|gs| - 1];
            && Sound(cfg, last)
            && NumPlusDebt(cfg, last.st, id) == NumPlusDebt(cfg, g.st, id) + RunWorth(cfg, g, ops, gs, id)
    decreases |ops|
  {
    hide NumPlusDebt, Worth, Legal, Sound;
    if ops != [] {
      StepSound(cfg, g, ops[0], gs[0]);
      StepWorth(cfg, g, ops[0], gs[0], id);
      RunConserves(cfg, gs[0], ops[1..], gs[1..], id);
    }
  }

  // ----- the class

  class Collective {
    const cfg: Setting
    const constructions: ConstructionMap
    var credit: map<ResourceId, int>
    var items: map<Slot, nat>
    var tasks: seq<Task>
    var nextTask: int

    ghost predicate Valid()
      reads this, constructions
    {
      constructions.cat == cfg.cat && nextTask >= 0
    }

    ghost function Abstract(): State
      reads this, constructions
    {
      State(credit, items, tasks, nextTask, constructions.Books())
    }

    constructor (cfg: Setting, credit: map<ResourceId, int>)
      ensures Valid() && fresh(constructions) && this.cfg == cfg
      ensures Abstract() == State(credit, map[], [], 0, Plans(map[], map[], map[], [], map[]))
    {
      this.cfg, this.credit, items, tasks, nextTask := cfg, credit, map[], [], 0;
      constructions := new ConstructionMap(cfg.cat);
    }

    method NumResource(id: ResourceId) returns (r: int)
      ensures r == Num(cfg, Abstract(), id)
    {
      hide Stored, Dedup, Flatten;
      r := Amount(credit, id);
      var visited: set<Vec2> := {};
      var lists := cfg.Lists(id);
      NothingStored(items, id);
      for a := 0 to |lists|
        invariant visited == set p | p in Flatten(lists[..a])
        invariant r == Amount(credit, id) + Stored(items, id, Dedup(Flatten(lists[..a])))
      {
        ghost var before := Flatten(lists[..a]);
        assert before + lists[a][..0] == before;
        for b := 0 to |lists[a]|
          invariant visited == set p | p in before + lists[a][..b]
          invariant r == Amount(credit, id) + Stored(items, id, Dedup(before + lists[a][..b]))
        {
          var pos := lists[a][b];
          ghost var s := before + lists[a][..b];
          assert before + lists[a][..b + 1] == s + [pos];
          DedupNext(s, pos);
          if pos !in visited {
            StoredConcat(items, id, Dedup(s), [pos]);
            StoredOne(items, id, pos);
            r := r + ItemsAt(items, pos, id);
            visited := visited + {pos};
          }
        }
        assert before + lists[a][..|lists[a]|] == before + lists[a];
        FlattenNext(lists, a);
      }
      assert lists[..|lists|] == lists;
    }

    method HasResource(cost: Cost) returns (r: bool)
      ensures r <==> Num(cfg, Abstract(), cost.id) >= cost.value
    {
      var n := NumResource(cost.id);
      r := n >= cost.value;
    }

    /** ok is false where the source stops with a fatal error. */
    method TakeResource(cost: Cost) returns (ok: bool)
      requires cost.value >= 0
      modifies this`credit, this`items
      ensures ok <==> cost.value == 0 || Num(cfg, old(Abstract()), cost.id) >= cost.value
      ensures ok ==> Took(cfg, old(Abstract()), Abstract(), cost)
    {
      hide Stored, Squares, Num;
      ghost var before := Abstract();
      var num := cost.value;
      if num == 0 { TookNothing(cfg, before, cost); return true; }
      var have := Amount(credit, cost.id);
      if have != 0 {
        credit := credit[cost.id := if have >= num then have - num else 0];
        if have >= num {
          NumIs(cfg, before, cost.id);
          StoredNonNegative(items, cost.id, Squares(cfg, cost.id));
          TookItems(cfg, before, Abstract(), cost, 0);
          return true;
        }
        num := num - have;
      }
      ok := TakeItems(cost.id, num);
      NumIs(cfg, before, cost.id);
      if ok { TookItems(cfg, before, Abstract(), cost, num); }
    }

    /** Removes num items from the storage squares, square by square. */
    method TakeItems(id: ResourceId, n: nat) returns (ok: bool)
      requires n > 0
      modifies this`items
      ensures ok <==> Stored(old(items), id, Squares(cfg, id)) >= n
      ensures ItemsOnlyFrom(cfg, old(items), items, id)
      ensures ok ==> Stored(items, id, Squares(cfg, id)) == Stored(old(items), id, Squares(cfg, id)) - n
    {
      hide Stored, Dedup, Flatten;
      var num := n;
      ghost var start, squares := items, Squares(cfg, id);
      var lists := cfg.Lists(id);
      NothingStored(items, id);
      DedupIs(Flatten(lists));
      for a := 0 to |lists|
        invariant Taken(cfg, start, items, id, n, num) && num > 0
        invariant forall p :: p in Flatten(lists[..a]) ==> ItemsAt(items, p, id) == 0
      {
        FlattenNext(lists, a);
        for b := 0 to |lists[a]|
          invariant Taken(cfg, start, items, id, n, num) && num > 0
          invariant forall p :: p in Flatten(lists[..a]) || p in lists[a][..b] ==> ItemsAt(items, p, id) == 0
        {
          var pos := lists[a][b];
          FlattenHas(lists, a, pos);
          var here := ItemsAt(items, pos, id);
          for k := 0 to here
            invariant Taken(cfg, start, items, id, n, num) && num > 0
            invariant ItemsAt(items, pos, id) == here - k
            invariant forall p :: p in Flatten(lists[..a]) || p in lists[a][..b] ==> p == pos || ItemsAt(items, p, id) == 0
          {
            ghost var was := items;
            items := items[Slot(pos, id) := here - k - 1];
            num := num - 1;
            StoredChange(was, items, id, squares, pos);
            if num == 0 { StoredNonNegative(items, id, squares); return true; }
          }
        }
      }
      assert lists[..|lists|] == lists;
      EmptySquares(items, id, squares);
      return false;
    }

    method GetDebt(id: ResourceId) returns (r: int)
      ensures r == DebtOf(cfg, Abstract(), id)
    {
      r := Amount(constructions.debt, id);
      for i := 0 to |tasks|
        invariant r == Amount(constructions.debt, id) - Running(tasks[..i], id)
      {
        RunningNext(tasks, i, id);
        if tasks[i].cost.id == id && !tasks[i].IsDone() { r := r - tasks[i].cost.value; }
      }
      assert tasks[..|tasks|] == tasks;
      r := r + cfg.Workshops(id);
    }

    method NumResourcePlusDebt(id: ResourceId) returns (r: int)
      ensures r == NumPlusDebt(cfg, Abstract(), id)
    {
      hide Num, DebtOf;
      var num := NumResource(id);
      var debt := GetDebt(id);
      r := num - debt;
    }

    /** drop: the square the items fall on, if the resource has items and some square takes them. */
    method ReturnResource(amount: Cost, drop: Drop)
      requires amount.value >= 0
      modifies this`credit, this`items
      ensures Abstract() == Returned(old(Abstract()), amount, drop)
    {
      if amount.value == 0 { return; }
      if drop.On? {
        items := items[Slot(drop.pos, amount.id) := ItemsAt(items, drop.pos, amount.id) + amount.value];
        return;
      }
      credit := credit[amount.id := Amount(credit, amount.id) + amount.value];
    }

    /** Removes a task from the task map and gives back the cost that was listed for it. */
    method RemoveTask(id: int) returns (cost: Cost)
      modifies this`tasks
      ensures cost == TaskCost(old(tasks), id) && tasks == WithoutTask(old(tasks), id)
    {
      for i := 0 to |tasks|
        invariant tasks == old(tasks)
        invariant forall j :: 0 <= j < i ==> tasks[j].id != id
      {
        if tasks[i].id == id {
          FirstTask(tasks, id, i);
          cost := tasks[i].cost;
          tasks := tasks[..i] + tasks[i + 1..];
          return;
        }
      }
      cost := NO_COST;
    }

    /** Every turn the done tasks are dropped; their costs are not given back. */
    method TickTasks()
      modifies this`tasks
      ensures tasks == Swept(old(tasks))
    {
      hide Swept;
      var all, left := tasks, [];
      NoneSwept();
      for i := 0 to |all|
        invariant tasks == all && left == Swept(all[..i])
      {
        assert all[..i + 1] == all[..i] + [all[i]];
        SweptNext(all[..i], all[i]);
        if !all[i].IsDone() { left := left + [all[i]]; }
      }
      assert all[..|all|] == all;
      tasks := left;
    }

    method RemoveUnbuiltFurniture(key: Key, drop: Drop)
      requires Valid() && CostsPaid(tasks) && (key in constructions.furniture ==> key in constructions.allFurniture)
      modifies this`tasks, this`credit, this`items, constructions
      ensures Valid() && Abstract() == Cancelled(old(Abstract()), key, drop)
    {
      hide WithoutTask, TaskCost, RemoveSwap;
      if key in constructions.furniture {
        var task := constructions.furniture[key].task;
        if task != NO_TASK {
          PaidBack(tasks, task);
          var cost := RemoveTask(task);
          ReturnResource(cost, drop);
        }
        constructions.RemoveFurniturePlan(key);
      }
    }

    /** A new plan, unless it must be affordable and is not; the constructions are then updated. */
    method AddFurniture(world: World, pos: Vec2, t: FurnitureType, cost: Cost, noCredit: bool, eligible: set<Key>)
      requires Valid() && Ready(constructions.Books()) && cost.value >= 0 && t in cfg.cat.layer
      requires Key(pos, cfg.cat.layer[t]) !in constructions.furniture
      modifies this`tasks, this`nextTask, this`credit, this`items, constructions
      ensures Valid()
      ensures var st, key := old(Abstract()), Key(pos, cfg.cat.layer[t]);
              if noCredit && Num(cfg, st, cost.id) < cost.value then Abstract() == st
              else
                && SameButTasks(Added(cfg.cat, world, st.plans, key, Info(NO_TASK, cost, t)), Abstract().plans)
                && (forall id :: NumPlusDebt(cfg, Abstract(), id) == NumPlusDebt(cfg, st, id)
                                 - if IsBuilt(cfg.cat, world, key, t) then 0 else Part(cost, id))
                && forall k :: k in constructions.allFurniture && k in eligible ==> !Waits(cfg, world, Abstract(), k)
    {
      hide Num, NumPlusDebt, IsBuilt;
      ghost var st, key, info := Abstract(), Key(pos, cfg.cat.layer[t]), Info(NO_TASK, cost, t);
      var enough := HasResource(cost);
      if !noCredit || enough {
        constructions.AddFurniture(world, Key(pos, cfg.cat.layer[t]), Info(NO_TASK, cost, t));
        PlannedWorth(cfg, world, st, key, info);
        UpdateConstructions(world, eligible);
      }
    }

    /** The construction task reports that it is done, and the plan is settled.  world is the map after it. */
    method FinishConstruction(world: World, pos: Vec2, t: FurnitureType, forget: bool)
      requires Valid() && t in cfg.cat.layer
      requires var key := Key(pos, cfg.cat.layer[t]);
               && key in constructions.furniture && key in constructions.allFurniture
               && HasTask(tasks, constructions.furniture[key].task)
      modifies this`tasks, constructions
      ensures Valid() && Abstract() == Finished(cfg.cat, world, old(Abstract()), pos, t, forget)
    {
      hide RemoveSwap, Constructed, Removed;
      var key := Key(pos, cfg.cat.layer[t]);
      var i := Find(tasks, constructions.furniture[key].task);
      tasks := tasks[i := tasks[i].(done := true)];
      if forget { constructions.RemoveFurniturePlan(key); } else { constructions.OnConstructed(world, pos, t); }
    }

    /** Starts every construction that is eligible (not delayed, and buildable) and can be paid; whatever still waits
        afterwards cannot be paid. */
    method UpdateConstructions(world: World, eligible: set<Key>)
      requires Valid() && Ready(constructions.Books())
      modifies this`tasks, this`nextTask, this`credit, this`items, constructions
      ensures Valid() && SameButTasks(old(constructions.Books()), constructions.Books())
      ensures SameWorth(cfg, old(Abstract()), Abstract())
      ensures forall k :: k in constructions.allFurniture && k in eligible ==> !Waits(cfg, world, Abstract(), k)
      ensures forall k :: k in constructions.furniture ==> OnlyStarted(cfg, world, old(Abstract()), Abstract(), eligible, k)
      ensures Distinct(constructions.allFurniture) ==>
                forall i :: 0 <= i < |constructions.allFurniture| ==> InTurn(cfg, world, old(Abstract()), Abstract(), eligible, i)
    {
      hide IsBuilt, Num, SameWorth, Started, OnlyStarted, InTurn, Sum, Distinct;
      ghost var start := Abstract();
      SameStart(cfg, start);
      NoneStarted(cfg, world, start, eligible);
      NoTurns(cfg, world, start, eligible);
      for i := 0 to |constructions.allFurniture|
        invariant Valid() && SameButTasks(start.plans, constructions.Books()) && start.nextTask <= nextTask
        invariant constructions.allFurniture == start.plans.all && SameWorth(cfg, start, Abstract())
        invariant forall k :: k in start.plans.furniture ==> OnlyStarted(cfg, world, start, Abstract(), eligible, k)
        invariant Distinct(start.plans.all) ==> TurnsDone(cfg, world, start, Abstract(), eligible, i)
        invariant forall k :: k in start.plans.all[..i] && k in eligible ==> !Waits(cfg, world, Abstract(), k)
      {
        var key := constructions.allFurniture[i];
        assert start.plans.all[..i + 1] == start.plans.all[..i] + [key];
        assert key in start.plans.all;
        var info := constructions.furniture[key];
        ghost var now := Abstract();
        if key in eligible && info.task == NO_TASK && !IsBuilt(cfg.cat, world, key, info.kind) {
          var enough := HasResource(info.cost);
          if enough {
            ghost var before := Abstract();
            StartConstruction(key);
            StartEffects(cfg, world, start, before, Abstract(), key);
            StartsOne(cfg, world, start, before, Abstract(), eligible, key);
          }
        }
        if Distinct(start.plans.all) { TurnsNext(cfg, world, start, now, Abstract(), eligible, i); }
      }
    }

    /** One start: the task is listed, the plan gets its id, and the cost is taken. */
    method StartConstruction(key: Key)
      requires Valid() && nextTask >= 0 && key in constructions.furniture && constructions.furniture[key].task == NO_TASK
      requires 0 <= constructions.furniture[key].cost.value <= Num(cfg, Abstract(), constructions.furniture[key].cost.id)
      modifies this`tasks, this`nextTask, this`credit, this`items, constructions
      ensures Valid() && Started(cfg, old(Abstract()), Abstract(), key)
    {
      hide Num, ItemsOnlyFrom;
      ghost var st := Abstract();
      var cost := constructions.furniture[key].cost;
      tasks := tasks + [Task(nextTask, cost, false, false)];
      constructions.SetTask(key, nextTask);
      nextTask := nextTask + 1;
      assert Abstract() == WithTask(st, key);
      StoredSame(cfg, st, key);
      var ok := TakeResource(cost);
    }
  }

  lemma PlannedWorth(cfg: Setting, world: World, st: State, key: Key, info: Info)
    ensures var plans := Added(cfg.cat, world, st.plans, key, info);
            forall id :: NumPlusDebt(cfg, st.(plans := plans), id) == NumPlusDebt(cfg, st, id)
                          - if IsBuilt(cfg.cat, world, key, info.kind) then 0 else Part(info.cost, id)
  {
  }

  /** An affordable plan that has no task yet. */
  predicate Waits(cfg: Setting, world: World, st: State, k: Key) {
    && k in st.plans.furniture && st.plans.furniture[k].task == NO_TASK
    && !IsBuilt(cfg.cat, world, k, st.plans.furniture[k].kind)
    && Num(cfg, st, st.plans.furniture[k].cost.id) >= st.plans.furniture[k].cost.value
  }

  /** The plan has its task of before, or it is an eligible one that is not built, and its new task is listed with its
      cost. */
  ghost predicate OnlyStarted(cfg: Setting, world: World, st: State, st': State, eligible: set<Key>, k: Key) {
    && k in st.plans.furniture && k in st'.plans.furniture
    && (st'.plans.furniture[k] == st.plans.furniture[k]
        || (&& k in eligible && st.plans.furniture[k].task == NO_TASK && !IsBuilt(cfg.cat, world, k, st.plans.furniture[k].kind)
            && Task(st'.plans.furniture[k].task, st.plans.furniture[k].cost, false, false) in st'.tasks
            && st.nextTask <= st'.plans.furniture[k].task < st'.nextTask))
  }

  /** The plan had no task, and has one now. */
  predicate GotTask(st: State, st': State, k: Key) {
    && k in st.plans.furniture && k in st'.plans.furniture
    && st.plans.furniture[k].task == NO_TASK && st'.plans.furniture[k].task != NO_TASK
  }

  /** What a plan has taken of a resource by being started. */
  function StartCost(st: State, st': State, id: ResourceId): Key -> int {
    k => if GotTask(st, st', k) then Part(st.plans.furniture[k].cost, id) else 0
  }

  /** The plan at this place of the list can be started, and is paid from what the plans before it have left. */
  ghost predicate Affordable(cfg: Setting, world: World, st: State, st': State, eligible: set<Key>, i: nat)
    requires i < |st.plans.all|
  {
    var k := st.plans.all[i];
    && k in eligible && k in st.plans.furniture && st.plans.furniture[k].task == NO_TASK
    && !IsBuilt(cfg.cat, world, k, st.plans.furniture[k].kind)
    && (var cost := st.plans.furniture[k].cost;
        Num(cfg, st, cost.id) - Sum(st.plans.all[..i], StartCost(st, st', cost.id)) >= cost.value)
  }

  /** Exactly the affordable plans are started, in the order of the list. */
  ghost predicate InTurn(cfg: Setting, world: World, st: State, st': State, eligible: set<Key>, i: nat) {
    i < |st.plans.all| && (GotTask(st, st', st.plans.all[i]) <==> Affordable(cfg, world, st, st', eligible, i))
  }

  /** The first n plans have had their turn. */
  ghost predicate TurnsDone(cfg: Setting, world: World, st: State, st': State, eligible: set<Key>, n: nat) {
    && n <= |st.plans.all|
    && (forall i :: 0 <= i < n ==> InTurn(cfg, world, st, st', eligible, i))
    && (forall i :: n <= i < |st.plans.all| ==> !GotTask(st, st', st.plans.all[i]))
    && (forall id :: Num(cfg, st', id) == Num(cfg, st, id) - Sum(st.plans.all[..n], StartCost(st, st', id)))
  }

  lemma NoTurns(cfg: Setting, world: World, st: State, eligible: set<Key>)
    ensures TurnsDone(cfg, world, st, st, eligible, 0)
  {
    hide Num;
    assert st.plans.all[..0] == [];
  }

  /** The next plan is started, or it is not. */
  ghost predicate NextTurn(cfg: Setting, world: World, st: State, now: State, st': State, eligible: set<Key>, key: Key) {
    && key in now.plans.furniture
    && (var info := now.plans.furniture[key];
        if key in eligible && info.task == NO_TASK && !IsBuilt(cfg.cat, world, key, info.kind) && Num(cfg, now, info.cost.id) >= info.cost.value
        then Started(cfg, now, st', key) else st' == now)
  }

  lemma SumPrefix(s: seq<Key>, n: nat, f: Key -> int)
    requires n < |s|
    ensures Sum(s[..n + 1], f) == Sum(s[..n], f) + f(s[n])
  {
    assert s[..n + 1] == s[..n] + [s[n]];
    SumConcat(s[..n], [s[n]], f);
    SumOne(s[n], f);
  }

  /** A later start does not change what the earlier ones have taken. */
  lemma SameBefore(st: State, now: State, st': State, n: nat, i: nat, id: ResourceId)
    requires Distinct(st.plans.all) && i <= n < |st.plans.all|
    requires forall k :: k != st.plans.all[n] ==> (GotTask(st, st', k) <==> GotTask(st, now, k))
    ensures Sum(st.plans.all[..i], StartCost(st, st', id)) == Sum(st.plans.all[..i], StartCost(st, now, id))
  {
    hide GotTask;
    SumAgree(st.plans.all[..i], StartCost(st, st', id), StartCost(st, now, id));
  }

  lemma TurnsNext(cfg: Setting, world: World, st: State, now: State, st': State, eligible: set<Key>, n: nat)
    requires Distinct(st.plans.all) && TurnsDone(cfg, world, st, now, eligible, n) && n < |st.plans.all|
    requires SameButTasks(st.plans, now.plans) && st.plans.all[n] in st.plans.furniture && now.nextTask >= 0
    requires NextTurn(cfg, world, st, now, st', eligible, st.plans.all[n])
    ensures TurnsDone(cfg, world, st, st', eligible, n + 1)
  {
    hide Num, Sum, IsBuilt, Affordable, GotTask, Started, SameButTasks;
    var key := st.plans.all[n];
    StartedTasks(cfg, world, st, now, st', eligible, key);
    forall i | 0 <= i < n
      ensures InTurn(cfg, world, st, st', eligible, i)
    {
      assert st.plans.all[i] != key;
      assert InTurn(cfg, world, st, now, eligible, i);
      SameAffordable(cfg, world, st, now, st', eligible, n, i);
    }
    forall id
      ensures Sum(st.plans.all[..n], StartCost(st, st', id)) == Sum(st.plans.all[..n], StartCost(st, now, id))
      ensures Num(cfg, st', id) == Num(cfg, st, id) - Sum(st.plans.all[..n + 1], StartCost(st, st', id))
    {
      SameBefore(st, now, st', n, n, id);
      SumPrefix(st.plans.all, n, StartCost(st, st', id));
    }
    TurnTaken(cfg, world, st, now, st', eligible, n);
    forall i | n + 1 <= i < |st.plans.all|
      ensures !GotTask(st, st', st.plans.all[i])
    {
      assert st.plans.all[i] != key;
    }
  }

  /** Which plan has got a task in this turn, and what it took. */
  lemma StartedTasks(cfg: Setting, world: World, st: State, now: State, st': State, eligible: set<Key>, key: Key)
    requires NextTurn(cfg, world, st, now, st', eligible, key) && SameButTasks(st.plans, now.plans) && now.nextTask >= 0
    requires !GotTask(st, now, key)
    ensures forall k :: k != key ==> (GotTask(st, st', k) <==> GotTask(st, now, k))
    ensures GotTask(st, st', key) <==>
              && key in eligible && key in st.plans.furniture && st.plans.furniture[key].task == NO_TASK
              && !IsBuilt(cfg.cat, world, key, st.plans.furniture[key].kind)
              && Num(cfg, now, st.plans.furniture[key].cost.id) >= st.plans.furniture[key].cost.value
    ensures forall id :: Num(cfg, st', id) == Num(cfg, now, id) - StartCost(st, st', id)(key)
  {
    hide IsBuilt, Num, ItemsOnlyFrom;
    if st' != now {
      forall id
        ensures Num(cfg, WithTask(now, key), id) == Num(cfg, now, id)
      {
        StoredSame(cfg, now, key);
      }
    }
  }

  lemma SameAffordable(cfg: Setting, world: World, st: State, now: State, st': State, eligible: set<Key>, n: nat, i: nat)
    requires Distinct(st.plans.all) && i < n < |st.plans.all|
    requires forall k :: k != st.plans.all[n] ==> (GotTask(st, st', k) <==> GotTask(st, now, k))
    ensures Affordable(cfg, world, st, st', eligible, i) <==> Affordable(cfg, world, st, now, eligible, i)
  {
    hide Num, Sum, IsBuilt, GotTask, Distinct;
    forall id
      ensures Sum(st.plans.all[..i], StartCost(st, st', id)) == Sum(st.plans.all[..i], StartCost(st, now, id))
    {
      SameBefore(st, now, st', n, i, id);
    }
  }

  lemma TurnTaken(cfg: Setting, world: World, st: State, now: State, st': State, eligible: set<Key>, n: nat)
    requires n < |st.plans.all|
    requires forall id :: Num(cfg, now, id) == Num(cfg, st, id) - Sum(st.plans.all[..n], StartCost(st, st', id))
    requires var key := st.plans.all[n];
             GotTask(st, st', key) <==>
               && key in eligible && key in st.plans.furniture && st.plans.furniture[key].task == NO_TASK
               && !IsBuilt(cfg.cat, world, key, st.plans.furniture[key].kind)
               && Num(cfg, now, st.plans.furniture[key].cost.id) >= st.plans.furniture[key].cost.value
    ensures InTurn(cfg, world, st, st', eligible, n)
  {
    hide Num, Sum, IsBuilt, GotTask;
  }

  lemma NoneStarted(cfg: Setting, world: World, st: State, eligible: set<Key>)
    ensures forall k :: k in st.plans.furniture ==> OnlyStarted(cfg, world, st, st, eligible, k)
  {
  }

  lemma StartsOne(cfg: Setting, world: World, start: State, st: State, st': State, eligible: set<Key>, key: Key)
    requires Started(cfg, st, st', key) && SameButTasks(start.plans, st.plans) && start.nextTask <= st.nextTask
    requires key in eligible && !IsBuilt(cfg.cat, world, key, st.plans.furniture[key].kind)
    requires forall k :: k in start.plans.furniture ==> OnlyStarted(cfg, world, start, st, eligible, k)
    ensures forall k :: k in start.plans.furniture ==> OnlyStarted(cfg, world, start, st', eligible, k)
    ensures st.nextTask < st'.nextTask
  {
    hide IsBuilt, Num, ItemsOnlyFrom;
    var t := Task(st.nextTask, st.plans.furniture[key].cost, false, false);
    assert st'.tasks == st.tasks + [t];
    assert t in st'.tasks;
  }

  ghost predicate SameWorth(cfg: Setting, st: State, st': State) {
    forall id :: NumPlusDebt(cfg, st', id) == NumPlusDebt(cfg, st, id)
  }

  lemma SameStart(cfg: Setting, st: State)
    ensures SameWorth(cfg, st, st) && SameButTasks(st.plans, st.plans)
  {
  }

  /** A start keeps the worth and the other plans, and makes nothing affordable that was not. */
  lemma StartEffects(cfg: Setting, world: World, start: State, st: State, st': State, key: Key)
    requires SameWorth(cfg, start, st) && SameButTasks(start.plans, st.plans) && Started(cfg, st, st', key)
    requires st.plans.furniture[key].cost.value >= 0 && st.nextTask >= 0
    ensures SameWorth(cfg, start, st') && SameButTasks(start.plans, st'.plans) && st'.nextTask >= 0
    ensures forall k :: Waits(cfg, world, st', k) ==> k != key && Waits(cfg, world, st, k)
  {
    hide NumPlusDebt, Num, IsBuilt, ItemsOnlyFrom;
    forall id
      ensures NumPlusDebt(cfg, st', id) == NumPlusDebt(cfg, st, id)
    {
      StartedWorth(cfg, st, st', key, id);
    }
    StoredSame(cfg, st, key);
  }

  /** Only tasks have been assigned to plans. */
  ghost predicate SameButTasks(p: Plans, p': Plans) {
    && p'.positions == p.positions && p'.unbuilt == p.unbuilt && p'.all == p.all && p'.debt == p.debt
    && p'.furniture.Keys == p.furniture.Keys
    && forall k :: k in p.furniture ==>
         p'.furniture[k].kind == p.furniture[k].kind && p'.furniture[k].cost == p.furniture[k].cost
         && (p.furniture[k].task != NO_TASK ==> p'.furniture[k].task == p.furniture[k].task)
  }

  /** The listed plans exist and cost something or nothing. */
  ghost predicate Ready(p: Plans) {
    forall k :: k in p.all ==> k in p.furniture && p.furniture[k].cost.value >= 0
  }

  lemma StoredSame(cfg: Setting, st: State, key: Key)
    requires key in st.plans.furniture
    ensures forall id :: Num(cfg, WithTask(st, key), id) == Num(cfg, st, id)
  {
  }

  lemma RunningNext(tasks: seq<Task>, i: nat, id: ResourceId)
    requires i < |tasks|
    ensures Running(tasks[..i + 1], id) == Running(tasks[..i], id) + Holds(tasks[i], id)
  {
    assert tasks[..i + 1] == tasks[..i] + [tasks[i]];
    RunningConcat(tasks[..i], [tasks[i]], id);
    RunningOne(tasks[i], id);
  }

  lemma {:induction false} FirstTask(tasks: seq<Task>, id: int, i: nat)
    requires i < |tasks| && tasks[i].id == id && forall j :: 0 <= j < i ==> tasks[j].id != id
    ensures HasTask(tasks, id) && Find(tasks, id) == i
  {
    if i > 0 { FirstTask(tasks[1..], id, i - 1); }
  }

  lemma PaidBack(tasks: seq<Task>, id: int)
    requires CostsPaid(tasks)
    ensures TaskCost(tasks, id).value >= 0
  {
  }

  /** Only items of that resource on its storage squares have been removed. */
  ghost predicate ItemsOnlyFrom(cfg: Setting, items: map<Slot, nat>, items': map<Slot, nat>, id: ResourceId) {
    && (forall p, r :: ItemsAt(items', p, r) <= ItemsAt(items, p, r))
    && (forall p, r :: r != id || p !in Squares(cfg, id) ==> ItemsAt(items', p, r) == ItemsAt(items, p, r))
  }

  ghost predicate Taken(cfg: Setting, items: map<Slot, nat>, items': map<Slot, nat>, id: ResourceId, n: int, num: int) {
    && ItemsOnlyFrom(cfg, items, items', id)
    && Stored(items', id, Squares(cfg, id)) == Stored(items, id, Squares(cfg, id)) - (n - num)
  }

  /** The cost has been paid: credit first, the rest from the storage squares. */
  ghost predicate Took(cfg: Setting, st: State, st': State, cost: Cost) {
    && st'.tasks == st.tasks && st'.nextTask == st.nextTask && st'.plans == st.plans
    && (forall r :: r != cost.id ==> Amount(st'.credit, r) == Amount(st.credit, r))
    && (var c := Amount(st.credit, cost.id);
        Amount(st'.credit, cost.id) == if cost.value == 0 then c else if c >= cost.value then c - cost.value else 0)
    && ItemsOnlyFrom(cfg, st.items, st'.items, cost.id)
    && (forall r :: Num(cfg, st', r) == Num(cfg, st, r) - if r == cost.id then cost.value else 0)
  }

  lemma NumIs(cfg: Setting, st: State, id: ResourceId)
    ensures Num(cfg, st, id) == Amount(st.credit, id) + Stored(st.items, id, Squares(cfg, id))
  {
  }

  lemma TookNothing(cfg: Setting, st: State, cost: Cost)
    requires cost.value == 0
    ensures Took(cfg, st, st, cost)
  {
  }

  lemma TookItems(cfg: Setting, st: State, st': State, cost: Cost, num: int)
    requires cost.value > 0
    requires st'.tasks == st.tasks && st'.nextTask == st.nextTask && st'.plans == st.plans
    requires forall r :: r != cost.id ==> Amount(st'.credit, r) == Amount(st.credit, r)
    requires var c := Amount(st.credit, cost.id);
             && Amount(st'.credit, cost.id) == (if c >= cost.value then c - cost.value else 0)
             && num == (if c >= cost.value then 0 else cost.value - c)
    requires ItemsOnlyFrom(cfg, st.items, st'.items, cost.id)
    requires Stored(st'.items, cost.id, Squares(cfg, cost.id)) == Stored(st.items, cost.id, Squares(cfg, cost.id)) - num
    ensures Took(cfg, st, st', cost)
  {
    hide Stored;
    forall r
      ensures Num(cfg, st', r) == Num(cfg, st, r) - if r == cost.id then cost.value else 0
    {
      if r != cost.id { StoredAgree(st.items, st'.items, r, Squares(cfg, r)); }
    }
  }

  lemma {:induction false} StoredNonNegative(items: map<Slot, nat>, id: ResourceId, s: seq<Vec2>)
    ensures Stored(items, id, s) >= 0
  {
    if s != [] { StoredNonNegative(items, id, s[1..]); }
  }

  lemma {:induction false} FlattenHas(lists: seq<seq<Vec2>>, a: nat, pos: Vec2)
    requires a < |lists| && pos in lists[a]
    ensures pos in Flatten(lists)
  {
    if a < |lists| - 1 { FlattenHas(lists[..|lists| - 1], a, pos); }
  }

  lemma NothingStored(items: map<Slot, nat>, id: ResourceId)
    ensures Stored(items, id, []) == 0 && Dedup([]) == [] && Flatten([]) == []
  {
  }

  lemma StoredOne(items: map<Slot, nat>, id: ResourceId, pos: Vec2)
    ensures Stored(items, id, [pos]) == ItemsAt(items, pos, id)
  {
  }
}
