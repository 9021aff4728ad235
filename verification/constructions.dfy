/** The construction map: plans, built furniture, counters and debt. */
module Constructions {
  import opened Collections
  import opened Grid

  type FurnitureType = string
  type ResourceId = string

  datatype Cost = Cost(id: ResourceId, value: int)
  datatype Key = Key(pos: Vec2, layer: int)

  const NO_TASK := -1
  const NO_COST := Cost("GOLD", 0)

  /** What the furniture factory knows: the layer of each type, the types that give way silently, and the types each
      type may be built over. */
  datatype Catalog = Catalog(layer: map<FurnitureType, int>, silent: set<FurnitureType>,
                             builtOver: map<FurnitureType, set<FurnitureType>>)

  /** The furniture that stands on the map. */
  type World = map<Key, FurnitureType>

  datatype Info = Info(task: int, cost: Cost, kind: FurnitureType)

  datatype Plans = Plans(furniture: map<Key, Info>, positions: map<FurnitureType, set<Vec2>>,
                         unbuilt: map<FurnitureType, int>, all: seq<Key>, debt: map<ResourceId, int>) {
    function Debt(id: ResourceId): int {
      if id in debt then debt[id] else 0
    }

    function Unbuilt(t: FurnitureType): int {
      if t in unbuilt then unbuilt[t] else 0
    }

    function Positions(t: FurnitureType): set<Vec2> {
      if t in positions then positions[t] else {}
    }

    function WithDebt(id: ResourceId, value: int): Plans {
      this.(debt := debt[id := Debt(id) + value])
    }

    function WithUnbuilt(t: FurnitureType, n: int): Plans {
      this.(unbuilt := unbuilt[t := Unbuilt(t) + n])
    }

    function WithPositions(t: FurnitureType, s: set<Vec2>): Plans {
      this.(positions := positions[t := s])
    }
  }

  /** A plan counts as built when its own type stands there, or something that it can neither replace nor cover. */
  predicate IsBuilt(cat: Catalog, world: World, key: Key, kind: FurnitureType) {
    && key in world
    && (world[key] == kind ||
        (world[key] !in cat.silent && !(kind in cat.builtOver && world[key] in cat.builtOver[kind])))
  }

  /** What the factory asks of the place itself: the base of a type that has one, and else nothing there that does not
      give way. */
  predicate CanBuild(cat: Catalog, world: World, key: Key, kind: FurnitureType) {
    if kind in cat.builtOver && cat.builtOver[kind] != {} then key in world && world[key] in cat.builtOver[kind]
    else key !in world || world[key] in cat.silent
  }

  /** A place without the type itself counts as built only if the type cannot be built there, and it is left waiting only
      if the type needs a base which is not there, and nothing that stands there is in the way. */
  lemma BuiltOrBuildable(cat: Catalog, world: World, key: Key, kind: FurnitureType)
    ensures key in world && world[key] == kind ==> IsBuilt(cat, world, key, kind)
    ensures !(key in world && world[key] == kind) ==>
              (IsBuilt(cat, world, key, kind) <==>
               !CanBuild(cat, world, key, kind) && key in world && world[key] !in cat.silent)
    ensures !IsBuilt(cat, world, key, kind) && !CanBuild(cat, world, key, kind) ==>
              kind in cat.builtOver && cat.builtOver[kind] != {} && (key !in world || world[key] !in cat.builtOver[kind])
  {
  }

  // ----- the operations

  function Added(cat: Catalog, world: World, p: Plans, key: Key, info: Info): Plans {
    var p' := p.(all := p.all + [key], furniture := p.furniture[key := info]);
    if IsBuilt(cat, world, key, info.kind) then p'.WithPositions(info.kind, p.Positions(info.kind) + {key.pos})
    else p'.WithUnbuilt(info.kind, 1).WithDebt(info.cost.id, info.cost.value)
  }

  /** world is the map after the construction. */
  function Constructed(cat: Catalog, world: World, p: Plans, pos: Vec2, t: FurnitureType): Plans
    requires t in cat.layer
  {
    var key := Key(pos, cat.layer[t]);
    var p' := if key in p.furniture then p else Added(cat, world, p, key, Info(NO_TASK, NO_COST, t));
    var cost := p'.furniture[key].cost;
    p'.WithPositions(t, p'.Positions(t) + {pos}).WithUnbuilt(t, -1).WithDebt(cost.id, -cost.value)
  }

  /** The destroyed type belongs to the plan; a filled phylactery belongs to the plan of an empty one. */
  predicate Matches(destroyed: FurnitureType, kind: FurnitureType) {
    kind == destroyed || (destroyed == "PHYLACTERY_ACTIVE" && kind == "PHYLACTERY")
  }

  function Destroyed(p: Plans, key: Key, t: FurnitureType): Plans {
    if key in p.furniture && Matches(t, p.furniture[key].kind) then
      var info := p.furniture[key];
      p.(furniture := p.furniture[key := info.(task := NO_TASK)])
       .WithDebt(info.cost.id, info.cost.value)
       .WithPositions(info.kind, p.Positions(info.kind) - {key.pos})
       .WithUnbuilt(info.kind, 1)
    else p
  }

  /** The element leaves its place to the last one. */
  function RemoveSwap<T(==)>(s: seq<T>, x: T): seq<T>
    requires x in s
  {
    var i := IndexOf(s, x);
    s[i := s[|s| - 1]][..|s| - 1]
  }

  function IndexOf<T(==)>(s: seq<T>, x: T): (i: nat)
    requires x in s
    ensures i < |s| && s[i] == x
  {
    if s[0] == x then 0 else 1 + IndexOf(s[1..], x)
  }

  function Removed(p: Plans, key: Key): Plans
    requires key in p.furniture && key in p.all
  {
    var info := p.furniture[key];
    p.(furniture := p.furniture - {key}, all := RemoveSwap(p.all, key))
     .WithUnbuilt(info.kind, -1).WithDebt(info.cost.id, -info.cost.value)
  }

  // ----- sums over the list of plans

  function Sum(s: seq<Key>, f: Key -> int): int {
    if s == [] then 0 else f(s[0]) + Sum(s[1..], f)
  }

  lemma {:induction false} SumConcat(a: seq<Key>, b: seq<Key>, f: Key -> int)
    ensures Sum(a + b, f) == Sum(a, f) + Sum(b, f)
  {
    if a == [] {
      assert a + b == b;
    } else {
      assert (a + b)[1..] == a[1..] + b;
      SumConcat(a[1..], b, f);
    }
  }

  lemma SumOne(key: Key, f: Key -> int)
    ensures Sum([key], f) == f(key)
  {
  }

  lemma {:induction false} SumAgree(s: seq<Key>, f: Key -> int, g: Key -> int)
    requires forall k :: k in s ==> f(k) == g(k)
    ensures Sum(s, f) == Sum(s, g)
  {
    if s != [] { SumAgree(s[1..], f, g); }
  }

  /** Changing the summand of one listed key changes the sum by the difference. */
  lemma {:induction false} SumChange(s: seq<Key>, f: Key -> int, g: Key -> int, key: Key)
    requires Distinct(s) && key in s && forall k :: k in s && k != key ==> f(k) == g(k)
    ensures Sum(s, g) == Sum(s, f) + g(key) - f(key)
  {
    if s[0] == key {
      SumAgree(s[1..], f, g);
    } else {
      SumChange(s[1..], f, g, key);
    }
  }

  lemma RemoveSwapAre<T>(s: seq<T>, x: T)
    requires x in s && Distinct(s)
    ensures Distinct(RemoveSwap(s, x)) && |RemoveSwap(s, x)| == |s| - 1
    ensures forall j :: 0 <= j < |s| - 1 ==> RemoveSwap(s, x)[j] == if s[j] == x then s[|s| - 1] else s[j]
    ensures forall y :: y in RemoveSwap(s, x) <==> y in s && y != x
  {
    var i, r := IndexOf(s, x), RemoveSwap(s, x);
    forall y | y in s && y != x
      ensures y in r
    {
      var j :| 0 <= j < |s| && s[j] == y;
      if j == |s| - 1 { assert r[i] == y; } else { assert r[j] == y; }
    }
  }

  lemma SumParts(a: seq<Key>, m: seq<Key>, x: Key, z: Key, f: Key -> int)
    ensures Sum(a + [x] + m + [z], f) == Sum(a, f) + f(x) + Sum(m, f) + f(z)
  {
    SumConcat(a + [x] + m, [z], f);
    SumConcat(a + [x], m, f);
    SumConcat(a, [x], f);
  }

  lemma SumRemove(s: seq<Key>, f: Key -> int, key: Key)
    requires key in s
    ensures Sum(RemoveSwap(s, key), f) == Sum(s, f) - f(key)
  {
    var i, n := IndexOf(s, key), |s| - 1;
    var r := RemoveSwap(s, key);
    if i == n {
      assert r == s[..n] && s == s[..n] + [key];
      SumConcat(s[..n], [key], f);
    } else {
      var a, m, z := s[..i], s[i + 1..n], s[n];
      assert s == a + [key] + m + [z];
      assert r == a + [z] + m;
      SumParts(a, m, key, z, f);
      SumConcat(a + [z], m, f);
      SumConcat(a, [z], f);
    }
  }

  // ----- the invariant that checkDebtConsistency restores

  /** A plan still to be built. */
  predicate Pending(cat: Catalog, world: World, p: Plans, key: Key) {
    key in p.furniture && !IsBuilt(cat, world, key, p.furniture[key].kind)
  }

  function PendingCost(cat: Catalog, world: World, p: Plans, id: ResourceId): Key -> int {
    key => if Pending(cat, world, p, key) && p.furniture[key].cost.id == id then p.furniture[key].cost.value else 0
  }

  function PendingKind(cat: Catalog, world: World, p: Plans, t: FurnitureType): Key -> int {
    key => if Pending(cat, world, p, key) && p.furniture[key].kind == t then 1 else 0
  }

  /** The list has each plan once, on the layer of its type. */
  ghost predicate Listed(cat: Catalog, p: Plans) {
    && Distinct(p.all)
    && (forall k :: k in p.all <==> k in p.furniture)
    && (forall k :: k in p.furniture ==> p.furniture[k].kind in cat.layer && cat.layer[p.furniture[k].kind] == k.layer)
  }

  ghost predicate DebtRight(cat: Catalog, world: World, p: Plans) {
    forall id :: p.Debt(id) == Sum(p.all, PendingCost(cat, world, p, id))
  }

  ghost predicate CountsRight(cat: Catalog, world: World, p: Plans) {
    forall t :: p.Unbuilt(t) == Sum(p.all, PendingKind(cat, world, p, t))
  }

  ghost predicate PositionsRight(cat: Catalog, world: World, p: Plans) {
    forall t, pos :: t in cat.layer ==>
      (pos in p.Positions(t) <==>
       var key := Key(pos, cat.layer[t]);
       key in p.furniture && p.furniture[key].kind == t && IsBuilt(cat, world, key, t))
  }

  ghost predicate Inv(cat: Catalog, world: World, p: Plans) {
    Listed(cat, p) && DebtRight(cat, world, p) && CountsRight(cat, world, p) && PositionsRight(cat, world, p)
  }

  // ----- adding a plan

  lemma AddedListed(cat: Catalog, world: World, p: Plans, key: Key, info: Info)
    requires Listed(cat, p) && key !in p.furniture && info.kind in cat.layer && cat.layer[info.kind] == key.layer
    ensures Listed(cat, Added(cat, world, p, key, info))
  {
    assert key !in p.all;
  }

  lemma AddedDebtAt(cat: Catalog, world: World, p: Plans, key: Key, info: Info, id: ResourceId)
    requires Listed(cat, p) && key !in p.furniture && p.Debt(id) == Sum(p.all, PendingCost(cat, world, p, id))
    ensures var p' := Added(cat, world, p, key, info); p'.Debt(id) == Sum(p'.all, PendingCost(cat, world, p', id))
  {
    hide IsBuilt, Sum, Distinct;
    var p' := Added(cat, world, p, key, info);
    var f, g := PendingCost(cat, world, p, id), PendingCost(cat, world, p', id);
    SumAgree(p.all, f, g);
    SumConcat(p.all, [key], g);
    SumOne(key, g);
  }

  lemma AddedDebt(cat: Catalog, world: World, p: Plans, key: Key, info: Info)
    requires Listed(cat, p) && key !in p.furniture && DebtRight(cat, world, p)
    ensures DebtRight(cat, world, Added(cat, world, p, key, info))
  {
    hide Added, Listed, Sum, PendingCost;
    forall id { AddedDebtAt(cat, world, p, key, info, id); }
  }

  lemma AddedCountAt(cat: Catalog, world: World, p: Plans, key: Key, info: Info, t: FurnitureType)
    requires Listed(cat, p) && key !in p.furniture && p.Unbuilt(t) == Sum(p.all, PendingKind(cat, world, p, t))
    ensures var p' := Added(cat, world, p, key, info); p'.Unbuilt(t) == Sum(p'.all, PendingKind(cat, world, p', t))
  {
    hide IsBuilt, Sum, Distinct;
    var p' := Added(cat, world, p, key, info);
    var f, g := PendingKind(cat, world, p, t), PendingKind(cat, world, p', t);
    SumAgree(p.all, f, g);
    SumConcat(p.all, [key], g);
    SumOne(key, g);
  }

  lemma AddedCounts(cat: Catalog, world: World, p: Plans, key: Key, info: Info)
    requires Listed(cat, p) && key !in p.furniture && CountsRight(cat, world, p)
    ensures CountsRight(cat, world, Added(cat, world, p, key, info))
  {
    hide Added, Listed, Sum, PendingKind;
    forall t { AddedCountAt(cat, world, p, key, info, t); }
  }

  lemma AddedPositions(cat: Catalog, world: World, p: Plans, key: Key, info: Info)
    requires key !in p.furniture && PositionsRight(cat, world, p)
    requires info.kind in cat.layer && cat.layer[info.kind] == key.layer
    ensures PositionsRight(cat, world, Added(cat, world, p, key, info))
  {
  }

  /** Adding a plan always keeps the books right. */
  lemma AddedInv(cat: Catalog, world: World, p: Plans, key: Key, info: Info)
    requires Inv(cat, world, p) && key !in p.furniture
    requires info.kind in cat.layer && cat.layer[info.kind] == key.layer
    ensures Inv(cat, world, Added(cat, world, p, key, info))
  {
    hide Listed, DebtRight, CountsRight, PositionsRight, Added;
    AddedListed(cat, world, p, key, info);
    AddedDebt(cat, world, p, key, info);
    AddedCounts(cat, world, p, key, info);
    AddedPositions(cat, world, p, key, info);
  }

  // ----- one plan changes between pending and built

  lemma SameElsewhere(cat: Catalog, world: World, world': World, p: Plans, p': Plans, key: Key)
    requires p'.furniture.Keys == p.furniture.Keys
    requires forall k :: k in p.furniture && k != key ==>
               p'.furniture[k] == p.furniture[k] && (k in world <==> k in world') && (k in world ==> world'[k] == world[k])
    ensures forall k :: k in p.furniture && k != key ==> (Pending(cat, world', p', k) <==> Pending(cat, world, p, k))
  {
  }

  /** The sums over an unchanged list when only the plan key can have changed. */
  lemma SumsChange(cat: Catalog, world: World, world': World, p: Plans, p': Plans, key: Key)
    requires Listed(cat, p) && p'.all == p.all && p'.furniture.Keys == p.furniture.Keys && key in p.furniture
    requires p'.furniture[key].kind == p.furniture[key].kind && p'.furniture[key].cost == p.furniture[key].cost
    requires forall k :: k in p.furniture && k != key ==>
               p'.furniture[k] == p.furniture[k] && (k in world <==> k in world') && (k in world ==> world'[k] == world[k])
    ensures var info := p.furniture[key];
            var change := (if Pending(cat, world', p', key) then 1 else 0) - (if Pending(cat, world, p, key) then 1 else 0);
            && (forall t :: Sum(p'.all, PendingKind(cat, world', p', t))
                            == Sum(p.all, PendingKind(cat, world, p, t)) + (if t == info.kind then change else 0))
            && (forall id :: Sum(p'.all, PendingCost(cat, world', p', id))
                             == Sum(p.all, PendingCost(cat, world, p, id))
                                + (if id == info.cost.id then change * info.cost.value else 0))
  {
    hide IsBuilt, Sum;
    SameElsewhere(cat, world, world', p, p', key);
    forall t
      ensures Sum(p'.all, PendingKind(cat, world', p', t)) == Sum(p.all, PendingKind(cat, world, p, t))
              + PendingKind(cat, world', p', t)(key) - PendingKind(cat, world, p, t)(key)
    {
      SumChange(p.all, PendingKind(cat, world, p, t), PendingKind(cat, world', p', t), key);
    }
    forall id
      ensures Sum(p'.all, PendingCost(cat, world', p', id)) == Sum(p.all, PendingCost(cat, world, p, id))
              + PendingCost(cat, world', p', id)(key) - PendingCost(cat, world, p, id)(key)
    {
      SumChange(p.all, PendingCost(cat, world, p, id), PendingCost(cat, world', p', id), key);
    }
  }

  /** Reporting the construction of a pending plan keeps the books right. */
  lemma ConstructedInv(cat: Catalog, world: World, p: Plans, pos: Vec2, t: FurnitureType)
    requires Inv(cat, world, p) && t in cat.layer
    requires var key := Key(pos, cat.layer[t]); Pending(cat, world, p, key) && p.furniture[key].kind == t
    ensures var key := Key(pos, cat.layer[t]);
            Inv(cat, world[key := t], Constructed(cat, world[key := t], p, pos, t))
  {
    ConstructedSums(cat, world, p, pos, t);
    ConstructedPositions(cat, world, p, pos, t);
  }

  lemma ConstructedSums(cat: Catalog, world: World, p: Plans, pos: Vec2, t: FurnitureType)
    requires Inv(cat, world, p) && t in cat.layer
    requires var key := Key(pos, cat.layer[t]); Pending(cat, world, p, key) && p.furniture[key].kind == t
    ensures var key := Key(pos, cat.layer[t]); var p' := Constructed(cat, world[key := t], p, pos, t);
            CountsRight(cat, world[key := t], p') && DebtRight(cat, world[key := t], p')
  {
    hide Sum, PositionsRight, PendingKind, PendingCost, Distinct;
    var key := Key(pos, cat.layer[t]);
    var p' := Constructed(cat, world[key := t], p, pos, t);
    SumsChange(cat, world, world[key := t], p, p', key);
  }

  lemma ConstructedPositions(cat: Catalog, world: World, p: Plans, pos: Vec2, t: FurnitureType)
    requires Listed(cat, p) && PositionsRight(cat, world, p) && t in cat.layer
    requires var key := Key(pos, cat.layer[t]); Pending(cat, world, p, key) && p.furniture[key].kind == t
    ensures var key := Key(pos, cat.layer[t]);
            PositionsRight(cat, world[key := t], Constructed(cat, world[key := t], p, pos, t))
  {
  }

  /** The counter of the type is one lower than the number of pending plans. */
  ghost predicate OneTooLow(cat: Catalog, world: World, p: Plans, t: FurnitureType) {
    p.Unbuilt(t) == Sum(p.all, PendingKind(cat, world, p, t)) - 1
  }

  /** A plan that is built, or of another type, makes the counter one too low. */
  lemma ConstructedBad(cat: Catalog, world: World, p: Plans, pos: Vec2, t: FurnitureType)
    requires Inv(cat, world, p) && t in cat.layer
    requires var key := Key(pos, cat.layer[t]); key in p.furniture && !(Pending(cat, world, p, key) && p.furniture[key].kind == t)
    ensures var world' := world[Key(pos, cat.layer[t]) := t];
            OneTooLow(cat, world', Constructed(cat, world', p, pos, t), t)
  {
    hide Sum, PendingKind;
    var key := Key(pos, cat.layer[t]);
    var p' := Constructed(cat, world[key := t], p, pos, t);
    SumsChange(cat, world, world[key := t], p, p', key);
    assert p'.Unbuilt(t) == p.Unbuilt(t) - 1;
  }

  lemma MissingCount(cat: Catalog, world: World, p: Plans, pos: Vec2, t: FurnitureType)
    requires t in cat.layer && Key(pos, cat.layer[t]) !in p.furniture && IsBuilt(cat, world, Key(pos, cat.layer[t]), t)
    ensures Constructed(cat, world, p, pos, t).Unbuilt(t) == p.Unbuilt(t) - 1
  {
    hide IsBuilt;
  }

  /** The plan that is made up for it is no pending one, and the others stay what they are. */
  lemma MissingSummands(cat: Catalog, world: World, p: Plans, pos: Vec2, t: FurnitureType)
    requires Listed(cat, p) && t in cat.layer && Key(pos, cat.layer[t]) !in p.furniture
    ensures var key, world' := Key(pos, cat.layer[t]), world[Key(pos, cat.layer[t]) := t];
            var p' := Constructed(cat, world', p, pos, t);
            && IsBuilt(cat, world', key, t) && p'.all == p.all + [key] && PendingKind(cat, world', p', t)(key) == 0
            && forall k :: k in p.all ==> PendingKind(cat, world, p, t)(k) == PendingKind(cat, world', p', t)(k)
  {
    hide Distinct;
  }

  lemma MissingPlan(cat: Catalog, world: World, p: Plans, pos: Vec2, t: FurnitureType)
    requires Inv(cat, world, p) && t in cat.layer && Key(pos, cat.layer[t]) !in p.furniture
    ensures var world' := world[Key(pos, cat.layer[t]) := t];
            OneTooLow(cat, world', Constructed(cat, world', p, pos, t), t)
  {
    hide PendingKind, Sum, Pending, Listed, DebtRight, PositionsRight, IsBuilt;
    var key := Key(pos, cat.layer[t]);
    var world' := world[key := t];
    var p' := Constructed(cat, world', p, pos, t);
    var f, g := PendingKind(cat, world, p, t), PendingKind(cat, world', p', t);
    MissingSummands(cat, world, p, pos, t);
    SumAgree(p.all, f, g);
    SumConcat(p.all, [key], g);
    assert Sum([key], g) == g(key) by { SumOne(key, g); }
    assert p'.Unbuilt(t) == p.Unbuilt(t) - 1 by { MissingCount(cat, world', p, pos, t); }
  }

  /** Without a pending plan of that type at the place the counter ends up one too low. */
  lemma ConstructedTooLow(cat: Catalog, world: World, p: Plans, pos: Vec2, t: FurnitureType)
    requires Inv(cat, world, p) && t in cat.layer
    requires var key := Key(pos, cat.layer[t]); !(Pending(cat, world, p, key) && p.furniture[key].kind == t)
    ensures var world' := world[Key(pos, cat.layer[t]) := t];
            OneTooLow(cat, world', Constructed(cat, world', p, pos, t), t)
  {
    hide *;
    if Key(pos, cat.layer[t]) in p.furniture {
      ConstructedBad(cat, world, p, pos, t);
    } else {
      MissingPlan(cat, world, p, pos, t);
    }
  }

  /** The call that reports a construction keeps the books right exactly if there is a pending plan of that type. */
  lemma ConstructedExact(cat: Catalog, world: World, p: Plans, pos: Vec2, t: FurnitureType)
    requires Inv(cat, world, p) && t in cat.layer
    ensures var key := Key(pos, cat.layer[t]);
            Inv(cat, world[key := t], Constructed(cat, world[key := t], p, pos, t))
            <==> Pending(cat, world, p, key) && p.furniture[key].kind == t
  {
    hide Constructed, Listed, DebtRight, PositionsRight, IsBuilt, PendingKind, Sum;
    var key := Key(pos, cat.layer[t]);
    if Pending(cat, world, p, key) && p.furniture[key].kind == t {
      ConstructedInv(cat, world, p, pos, t);
    } else {
      ConstructedTooLow(cat, world, p, pos, t);
    }
  }

  /** What stands where nothing is planned does not matter. */
  lemma UnplannedWorld(cat: Catalog, world: World, world': World, p: Plans)
    requires Inv(cat, world, p)
    requires forall k :: k in p.furniture ==> (k in world <==> k in world') && (k in world ==> world'[k] == world[k])
    ensures Inv(cat, world', p)
  {
    hide Sum;
    forall id
      ensures p.Debt(id) == Sum(p.all, PendingCost(cat, world', p, id))
    {
      SumAgree(p.all, PendingCost(cat, world, p, id), PendingCost(cat, world', p, id));
    }
    forall t
      ensures p.Unbuilt(t) == Sum(p.all, PendingKind(cat, world', p, t))
    {
      SumAgree(p.all, PendingKind(cat, world, p, t), PendingKind(cat, world', p, t));
    }
  }

  /** Books that say the same are right together. */
  lemma SameBooks(cat: Catalog, world: World, p: Plans, q: Plans)
    requires Inv(cat, world, p) && q.furniture == p.furniture && q.all == p.all
    requires forall t :: q.Unbuilt(t) == p.Unbuilt(t) && q.Positions(t) == p.Positions(t)
    requires forall id :: q.Debt(id) == p.Debt(id)
    ensures Inv(cat, world, q)
  {
    hide Sum, IsBuilt, Plans.Unbuilt, Plans.Positions, Plans.Debt;
    forall id
      ensures q.Debt(id) == Sum(q.all, PendingCost(cat, world, q, id))
    {
      SumAgree(p.all, PendingCost(cat, world, p, id), PendingCost(cat, world, q, id));
    }
    forall t
      ensures q.Unbuilt(t) == Sum(q.all, PendingKind(cat, world, q, t))
    {
      SumAgree(p.all, PendingKind(cat, world, p, t), PendingKind(cat, world, q, t));
    }
  }

  lemma MadeUp(cat: Catalog, world: World, p: Plans, pos: Vec2, t: FurnitureType)
    requires t in cat.layer && Key(pos, cat.layer[t]) !in p.furniture && IsBuilt(cat, world, Key(pos, cat.layer[t]), t)
    ensures var mid := Added(cat, world, p, Key(pos, cat.layer[t]), Info(NO_TASK, NO_COST, t));
            var q := Constructed(cat, world, p, pos, t).WithUnbuilt(t, 1);
            && mid.furniture == q.furniture == p.furniture[Key(pos, cat.layer[t]) := Info(NO_TASK, NO_COST, t)] && q.all == mid.all
            && (forall u :: q.Unbuilt(u) == mid.Unbuilt(u) && q.Positions(u) == mid.Positions(u))
            && forall id :: q.Debt(id) == mid.Debt(id)
  {
    hide IsBuilt;
  }

  /** A construction without a plan makes up a plan for what was built, and but for the one counter the books are right. */
  lemma MissingRepaired(cat: Catalog, world: World, p: Plans, pos: Vec2, t: FurnitureType)
    requires Inv(cat, world, p) && t in cat.layer && Key(pos, cat.layer[t]) !in p.furniture
    ensures var key := Key(pos, cat.layer[t]); var p' := Constructed(cat, world[key := t], p, pos, t);
            && p'.furniture == p.furniture[key := Info(NO_TASK, NO_COST, t)]
            && Inv(cat, world[key := t], p'.WithUnbuilt(t, 1))
  {
    hide Inv, Constructed, Added, Plans.Unbuilt, Plans.Positions, Plans.Debt;
    var key := Key(pos, cat.layer[t]);
    var world' := world[key := t];
    UnplannedWorld(cat, world, world', p);
    AddedInv(cat, world', p, key, Info(NO_TASK, NO_COST, t));
    MadeUp(cat, world', p, pos, t);
    SameBooks(cat, world', Added(cat, world', p, key, Info(NO_TASK, NO_COST, t)),
              Constructed(cat, world', p, pos, t).WithUnbuilt(t, 1));
  }

  lemma DestroyedInv(cat: Catalog, world: World, p: Plans, key: Key, t: FurnitureType)
    requires Inv(cat, world, p) && key in world && world[key] == t && key in p.furniture
    requires IsBuilt(cat, world, key, p.furniture[key].kind) <==> Matches(t, p.furniture[key].kind)
    ensures Inv(cat, world - {key}, Destroyed(p, key, t))
  {
    hide Sum, Matches, IsBuilt, PendingKind, PendingCost, PositionsRight;
    DestroyedSums(cat, world, p, key, t);
    DestroyedPositions(cat, world, p, key, t);
  }

  /** The death of a filled phylactery leaves the plan of the empty one waiting, with right books. */
  lemma PhylacteryDestroyed(cat: Catalog, world: World, p: Plans, key: Key)
    requires Inv(cat, world, p) && key in world && world[key] == "PHYLACTERY_ACTIVE"
    requires key in p.furniture && p.furniture[key].kind == "PHYLACTERY" && IsBuilt(cat, world, key, "PHYLACTERY")
    ensures var p' := Destroyed(p, key, world[key]);
            Inv(cat, world - {key}, p') && Pending(cat, world - {key}, p', key) && p'.furniture[key].task == NO_TASK
  {
    hide Inv, IsBuilt;
    DestroyedExact(cat, world, p, key, world[key]);
    assert !IsBuilt(cat, world - {key}, key, "PHYLACTERY") by { Gone(cat, world, key, "PHYLACTERY"); }
  }

  lemma Gone(cat: Catalog, world: World, key: Key, kind: FurnitureType)
    ensures !IsBuilt(cat, world - {key}, key, kind)
  {
  }

  lemma DestroyedSums(cat: Catalog, world: World, p: Plans, key: Key, t: FurnitureType)
    requires Inv(cat, world, p) && key in world && world[key] == t && key in p.furniture
    requires IsBuilt(cat, world, key, p.furniture[key].kind) <==> Matches(t, p.furniture[key].kind)
    ensures var p' := Destroyed(p, key, t); CountsRight(cat, world - {key}, p') && DebtRight(cat, world - {key}, p')
  {
    hide Sum, Matches, PendingKind, PendingCost, PositionsRight, Distinct;
    SumsChange(cat, world, world - {key}, p, Destroyed(p, key, t), key);
  }

  lemma DestroyedPositions(cat: Catalog, world: World, p: Plans, key: Key, t: FurnitureType)
    requires Listed(cat, p) && PositionsRight(cat, world, p) && key in p.furniture
    requires IsBuilt(cat, world, key, p.furniture[key].kind) <==> Matches(t, p.furniture[key].kind)
    ensures PositionsRight(cat, world - {key}, Destroyed(p, key, t))
  {
    hide Matches;
  }

  lemma DestroyedBad(cat: Catalog, world: World, p: Plans, key: Key, t: FurnitureType)
    requires Inv(cat, world, p) && key in world && world[key] == t && key in p.furniture
    requires !(IsBuilt(cat, world, key, p.furniture[key].kind) <==> Matches(t, p.furniture[key].kind))
    ensures !CountsRight(cat, world - {key}, Destroyed(p, key, t))
  {
    hide Sum, PendingKind, Matches;
    var p', kind := Destroyed(p, key, t), p.furniture[key].kind;
    SumsChange(cat, world, world - {key}, p, p', key);
    assert p'.Unbuilt(kind) != Sum(p'.all, PendingKind(cat, world - {key}, p', kind));
  }

  /** The call that reports a destruction keeps the books right exactly if the destroyed furniture belongs to the plan
      of its place whenever that plan counted as built, and only then. */
  lemma DestroyedExact(cat: Catalog, world: World, p: Plans, key: Key, t: FurnitureType)
    requires Inv(cat, world, p) && key in world && world[key] == t
    ensures Inv(cat, world - {key}, Destroyed(p, key, t)) <==>
            (key in p.furniture ==> (IsBuilt(cat, world, key, p.furniture[key].kind) <==> Matches(t, p.furniture[key].kind)))
  {
    hide Listed, DebtRight, CountsRight, PositionsRight, IsBuilt, Matches;
    if key !in p.furniture {
      UnplannedWorld(cat, world, world - {key}, p);
    } else if IsBuilt(cat, world, key, p.furniture[key].kind) <==> Matches(t, p.furniture[key].kind) {
      DestroyedInv(cat, world, p, key, t);
    } else {
      DestroyedBad(cat, world, p, key, t);
    }
  }

  // ----- removing a plan

  lemma RemovedPending(cat: Catalog, world: World, p: Plans, key: Key)
    requires Listed(cat, p) && key in p.furniture
    ensures var p' := Removed(p, key);
            forall k :: k in p'.all ==> k != key && k in p.furniture && p'.furniture.Keys == p.furniture.Keys - {key}
                                        && p'.furniture[k] == p.furniture[k]
                                        && (Pending(cat, world, p', k) <==> Pending(cat, world, p, k))
  {
  }

  lemma RemovedCount(cat: Catalog, world: World, p: Plans, key: Key, t: FurnitureType)
    requires Listed(cat, p) && key in p.furniture
    ensures var p' := Removed(p, key);
            Sum(p'.all, PendingKind(cat, world, p', t))
            == Sum(p.all, PendingKind(cat, world, p, t)) - PendingKind(cat, world, p, t)(key)
  {
    hide Sum, IsBuilt, RemoveSwap, Pending, Distinct;
    RemovedPending(cat, world, p, key);
    SumRemove(p.all, PendingKind(cat, world, p, t), key);
    SumAgree(Removed(p, key).all, PendingKind(cat, world, p, t), PendingKind(cat, world, Removed(p, key), t));
  }

  lemma RemovedCost(cat: Catalog, world: World, p: Plans, key: Key, id: ResourceId)
    requires Listed(cat, p) && key in p.furniture
    ensures var p' := Removed(p, key);
            Sum(p'.all, PendingCost(cat, world, p', id))
            == Sum(p.all, PendingCost(cat, world, p, id)) - PendingCost(cat, world, p, id)(key)
  {
    hide Sum, IsBuilt, RemoveSwap, Pending, Distinct;
    RemovedPending(cat, world, p, key);
    SumRemove(p.all, PendingCost(cat, world, p, id), key);
    SumAgree(Removed(p, key).all, PendingCost(cat, world, p, id), PendingCost(cat, world, Removed(p, key), id));
  }

  lemma RemovedSums(cat: Catalog, world: World, p: Plans, key: Key)
    requires Listed(cat, p) && key in p.furniture
    ensures var info, p' := p.furniture[key], Removed(p, key);
            var gone := if Pending(cat, world, p, key) then 1 else 0;
            && (forall t :: Sum(p'.all, PendingKind(cat, world, p', t))
                            == Sum(p.all, PendingKind(cat, world, p, t)) - (if t == info.kind then gone else 0))
            && (forall id :: Sum(p'.all, PendingCost(cat, world, p', id))
                             == Sum(p.all, PendingCost(cat, world, p, id))
                                - (if id == info.cost.id then gone * info.cost.value else 0))
  {
    hide Sum, IsBuilt, Removed, Listed;
    forall t { RemovedCount(cat, world, p, key, t); }
    forall id { RemovedCost(cat, world, p, key, id); }
  }

  lemma RemovedListed(cat: Catalog, p: Plans, key: Key)
    requires Listed(cat, p) && key in p.furniture
    ensures Listed(cat, Removed(p, key))
  {
    hide RemoveSwap;
    RemoveSwapAre(p.all, key);
  }

  lemma RemovedPositions(cat: Catalog, world: World, p: Plans, key: Key)
    requires Listed(cat, p) && PositionsRight(cat, world, p) && Pending(cat, world, p, key)
    ensures PositionsRight(cat, world, Removed(p, key))
  {
  }

  lemma RemovedRight(cat: Catalog, world: World, p: Plans, key: Key)
    requires Inv(cat, world, p) && key in p.furniture
    ensures var p' := Removed(p, key);
            && (Pending(cat, world, p, key) ==> CountsRight(cat, world, p') && DebtRight(cat, world, p'))
            && (!Pending(cat, world, p, key) ==> !CountsRight(cat, world, p'))
  {
    hide Sum, PendingKind, PendingCost, IsBuilt, RemoveSwap, PositionsRight, Distinct, Pending;
    var p', kind := Removed(p, key), p.furniture[key].kind;
    RemovedSums(cat, world, p, key);
    assert p'.Unbuilt(kind) == p.Unbuilt(kind) - 1;
  }

  /** Removing a plan keeps the books right exactly if the plan is still pending. */
  lemma RemovedExact(cat: Catalog, world: World, p: Plans, key: Key)
    requires Inv(cat, world, p) && key in p.furniture
    ensures Inv(cat, world, Removed(p, key)) <==> Pending(cat, world, p, key)
  {
    hide Removed, CountsRight, DebtRight, PositionsRight, Listed, Pending;
    RemovedRight(cat, world, p, key);
    if Pending(cat, world, p, key) {
      RemovedListed(cat, p, key);
      RemovedPositions(cat, world, p, key);
    }
  }

  // ----- dropping plans that lost their support

  /** The plans removed one after the other. */
  function Dropped(p: Plans, s: seq<Key>): Plans
    requires Distinct(p.all) && Distinct(s) && forall k :: k in s ==> k in p.furniture && k in p.all
    decreases |s|
  {
    if s == [] then p
    else
      RemoveSwapAre(p.all, s[0]);
      Dropped(Removed(p, s[0]), s[1..])
  }

  /** The listed plans of the set, in order. */
  function Chosen(p: Plans, all: seq<Key>, chosen: set<Key>): (r: seq<Key>)
    ensures forall k :: k in r <==> k in all && k in p.furniture && k in chosen
  {
    if all == [] then []
    else
      Chosen(p, all[..|all| - 1], chosen)
      + if all[|all| - 1] in p.furniture && all[|all| - 1] in chosen then [all[|all| - 1]] else []
  }

  lemma {:induction false} ChosenDistinct(p: Plans, all: seq<Key>, chosen: set<Key>)
    requires Distinct(all)
    ensures Distinct(Chosen(p, all, chosen))
  {
    if all != [] { ChosenDistinct(p, all[..|all| - 1], chosen); }
  }

  lemma {:induction false} DroppedNext(p: Plans, s: seq<Key>, k: Key)
    requires Distinct(p.all) && Distinct(s + [k]) && forall x :: x in s + [k] ==> x in p.furniture && x in p.all
    ensures Distinct(s) && (forall x :: x in s ==> x in p.furniture && x in p.all)
    ensures k in Dropped(p, s).furniture && k in Dropped(p, s).all
    ensures Dropped(p, s + [k]) == Removed(Dropped(p, s), k)
    decreases |s|
  {
    var all := s + [k];
    assert forall i :: 0 <= i < |s| ==> all[i] == s[i];
    assert all[|s|] == k;
    if s == [] {
      assert all[1..] == [];
    } else {
      assert all[0] == s[0] && all[1..] == s[1..] + [k];
      RemoveSwapAre(p.all, s[0]);
      hide RemoveSwap;
      DroppedNext(Removed(p, s[0]), s[1..], k);
    }
  }

  /** More plans of this type are pending than the counter says. */
  ghost predicate Short(cat: Catalog, world: World, p: Plans, t: FurnitureType) {
    Listed(cat, p) && p.Unbuilt(t) < Sum(p.all, PendingKind(cat, world, p, t))
  }

  lemma ShortStays(cat: Catalog, world: World, p: Plans, key: Key, t: FurnitureType)
    requires Short(cat, world, p, t) && key in p.furniture
    ensures Short(cat, world, Removed(p, key), t)
  {
    hide Sum, IsBuilt, RemoveSwap, PendingKind, PendingCost, Distinct;
    RemovedSums(cat, world, p, key);
    RemovedListed(cat, p, key);
  }

  lemma RemovedShort(cat: Catalog, world: World, p: Plans, key: Key)
    requires Inv(cat, world, p) && key in p.furniture && !Pending(cat, world, p, key)
    ensures Short(cat, world, Removed(p, key), p.furniture[key].kind)
  {
    hide Sum, IsBuilt, RemoveSwap, PendingKind, PendingCost, Distinct, PositionsRight, DebtRight;
    RemovedSums(cat, world, p, key);
    RemovedListed(cat, p, key);
  }

  lemma {:induction false} DroppedShort(cat: Catalog, world: World, p: Plans, s: seq<Key>, t: FurnitureType)
    requires Short(cat, world, p, t) && Distinct(s) && forall k :: k in s ==> k in p.furniture && k in p.all
    ensures !Inv(cat, world, Dropped(p, s))
    decreases |s|
  {
    if s != [] {
      hide Short, Sum, RemoveSwap, Inv;
      RemoveSwapAre(p.all, s[0]) by { ShortListed(cat, world, p, t); }
      ShortStays(cat, world, p, s[0], t);
      DroppedShort(cat, world, Removed(p, s[0]), s[1..], t);
    }
  }

  lemma ShortListed(cat: Catalog, world: World, p: Plans, t: FurnitureType)
    requires Short(cat, world, p, t)
    ensures Distinct(p.all)
  {
  }

  /** Dropping plans keeps the books right exactly if all of them are still pending: a built plan that is dropped leaves
      the counter of its type too low. */
  lemma {:induction false} DroppedExact(cat: Catalog, world: World, p: Plans, s: seq<Key>)
    requires Inv(cat, world, p) && Distinct(s) && forall k :: k in s ==> k in p.furniture && k in p.all
    ensures Inv(cat, world, Dropped(p, s)) <==> forall k :: k in s ==> Pending(cat, world, p, k)
    decreases |s|
  {
    if s != [] {
      InvListed(cat, world, p);
      hide Inv, RemoveSwap, Removed, Pending, Sum;
      RemovedOthers(cat, world, p, s);
      if Pending(cat, world, p, s[0]) {
        RemovedExact(cat, world, p, s[0]);
        DroppedExact(cat, world, Removed(p, s[0]), s[1..]);
        assert forall k :: k in s <==> k == s[0] || k in s[1..];
      } else {
        RemovedShort(cat, world, p, s[0]);
        DroppedShort(cat, world, Removed(p, s[0]), s[1..], p.furniture[s[0]].kind);
      }
    }
  }

  /** Removing the first of several plans leaves the others as they are. */
  lemma RemovedOthers(cat: Catalog, world: World, p: Plans, s: seq<Key>)
    requires Listed(cat, p) && Distinct(s) && s != [] && forall k :: k in s ==> k in p.furniture && k in p.all
    ensures Distinct(Removed(p, s[0]).all) && Distinct(s[1..])
    ensures forall k :: k in s[1..] ==> k in Removed(p, s[0]).furniture && k in Removed(p, s[0]).all
                                        && (Pending(cat, world, Removed(p, s[0]), k) <==> Pending(cat, world, p, k))
  {
    RemoveSwapAre(p.all, s[0]);
    hide RemoveSwap, IsBuilt;
  }

  /** Exactly these plans are gone, and the others are what they were. */
  lemma {:induction false} DroppedPlans(p: Plans, s: seq<Key>)
    requires Distinct(p.all) && Distinct(s) && forall k :: k in s ==> k in p.furniture && k in p.all
    ensures Dropped(p, s).furniture == p.furniture - Elements(s)
    decreases |s|
  {
    if s != [] {
      RemoveSwapAre(p.all, s[0]);
      hide RemoveSwap;
      assert Elements(s) == {s[0]} + Elements(s[1..]);
      DroppedPlans(Removed(p, s[0]), s[1..]);
    }
  }

  lemma InvListed(cat: Catalog, world: World, p: Plans)
    requires Inv(cat, world, p)
    ensures Listed(cat, p)
  {
  }

  // ----- the class

  class ConstructionMap {
    const cat: Catalog
    var furniture: map<Key, Info>
    var furniturePositions: map<FurnitureType, set<Vec2>>
    var unbuiltCounts: map<FurnitureType, int>
    var allFurniture: seq<Key>
    var debt: map<ResourceId, int>

    constructor (cat: Catalog)
      ensures this.cat == cat && Books() == Plans(map[], map[], map[], [], map[])
    {
      this.cat := cat;
      furniture, furniturePositions, unbuiltCounts, allFurniture, debt := map[], map[], map[], [], map[];
    }

    function Books(): Plans
      reads this
    {
      Plans(furniture, furniturePositions, unbuiltCounts, allFurniture, debt)
    }

    method AddDebt(cost: Cost, sign: int)
      modifies this`debt
      ensures Books() == old(Books()).WithDebt(cost.id, sign * cost.value)
    {
      debt := debt[cost.id := (if cost.id in debt then debt[cost.id] else 0) + sign * cost.value];
    }

    method CountUnbuilt(t: FurnitureType, n: int)
      modifies this`unbuiltCounts
      ensures Books() == old(Books()).WithUnbuilt(t, n)
    {
      unbuiltCounts := unbuiltCounts[t := (if t in unbuiltCounts then unbuiltCounts[t] else 0) + n];
    }

    method InsertPosition(t: FurnitureType, pos: Vec2)
      modifies this`furniturePositions
      ensures Books() == old(Books()).WithPositions(t, old(Books()).Positions(t) + {pos})
    {
      furniturePositions :=
        furniturePositions[t := (if t in furniturePositions then furniturePositions[t] else {}) + {pos}];
    }

    method AddFurniture(world: World, key: Key, info: Info)
      requires key !in furniture
      modifies this
      ensures Books() == Added(cat, world, old(Books()), key, info)
    {
      allFurniture := allFurniture + [key];
      furniture := furniture[key := info];
      if IsBuilt(cat, world, key, info.kind) {
        InsertPosition(info.kind, key.pos);
      } else {
        CountUnbuilt(info.kind, 1);
        AddDebt(info.cost, 1);
      }
    }

    /** world is the map after the construction. */
    method OnConstructed(world: World, pos: Vec2, t: FurnitureType)
      requires t in cat.layer
      modifies this
      ensures Books() == Constructed(cat, world, old(Books()), pos, t)
    {
      var key := Key(pos, cat.layer[t]);
      if key !in furniture { AddFurniture(world, key, Info(NO_TASK, NO_COST, t)); }
      InsertPosition(t, pos);
      CountUnbuilt(t, -1);
      AddDebt(furniture[key].cost, -1);
    }

    method OnFurnitureDestroyed(key: Key, t: FurnitureType)
      modifies this
      ensures Books() == Destroyed(old(Books()), key, t)
    {
      if key in furniture {
        var info := furniture[key];
        if info.kind == t || (t == "PHYLACTERY_ACTIVE" && info.kind == "PHYLACTERY") {
          AddDebt(info.cost, 1);
          furniturePositions := furniturePositions[
            info.kind := (if info.kind in furniturePositions then furniturePositions[info.kind] else {}) - {key.pos}];
          furniture := furniture[key := info.(task := NO_TASK)];
          assert Books() == old(Books()).(furniture := furniture).WithDebt(info.cost.id, info.cost.value)
                            .WithPositions(info.kind, old(Books()).Positions(info.kind) - {key.pos});
          CountUnbuilt(info.kind, 1);
        }
      }
    }

    method RemoveFurniturePlan(key: Key)
      requires key in furniture && key in allFurniture
      modifies this
      ensures Books() == Removed(old(Books()), key)
    {
      var info := furniture[key];
      CountUnbuilt(info.kind, -1);
      furniture := furniture - {key};
      allFurniture := RemoveSwap(allFurniture, key);
      AddDebt(info.cost, -1);
    }

    /** unsupported: the places whose plan lacks its support. */
    method ClearUnsupportedFurniturePlans(unsupported: set<Key>)
      requires Distinct(allFurniture)
      modifies this
      ensures var p := old(Books()); var s := Chosen(p, p.all, unsupported);
              Distinct(s) && Books() == Dropped(p, s)
      ensures furniture == old(furniture) - (unsupported * Elements(old(allFurniture)))
    {
      hide RemoveSwap, Removed, Chosen, Dropped;
      ghost var p := Books();
      var toRemove := CollectPlans(unsupported);
      ChosenDistinct(p, p.all, unsupported);
      RemovePlans(toRemove);
      DroppedPlans(p, toRemove);
      assert p.furniture - Elements(toRemove) == p.furniture - (unsupported * Elements(p.all));
    }

    method CollectPlans(chosen: set<Key>) returns (r: seq<Key>)
      ensures r == Chosen(Books(), allFurniture, chosen)
    {
      r := [];
      ghost var p := Books();
      for i := 0 to |allFurniture|
        invariant r == Chosen(p, p.all[..i], chosen)
      {
        assert p.all[..i + 1][..i] == p.all[..i];
        if allFurniture[i] in furniture && allFurniture[i] in chosen {
          r := r + [allFurniture[i]];
        }
      }
      assert p.all[..|p.all|] == p.all;
    }

    method RemovePlans(s: seq<Key>)
      requires Distinct(allFurniture) && Distinct(s) && forall k :: k in s ==> k in furniture && k in allFurniture
      modifies this
      ensures Books() == Dropped(old(Books()), s)
    {
      hide RemoveSwap, Removed;
      ghost var p := Books();
      for i := 0 to |s|
        invariant Distinct(s[..i]) && Books() == Dropped(p, s[..i])
      {
        assert s[..i + 1] == s[..i] + [s[i]];
        DroppedNext(p, s[..i], s[i]);
        hide Dropped;
        RemoveFurniturePlan(s[i]);
      }
      assert s[..|s|] == s;
    }

    method SetTask(key: Key, task: int)
      requires key in furniture
      modifies this`furniture
      ensures Books() == old(Books()).(furniture := old(furniture)[key := old(furniture)[key].(task := task)])
    {
      furniture := furniture[key := furniture[key].(task := task)];
    }

    /** The debt as the pending plans add up to it. */
    method ComputeDebt(world: World) returns (nowDebt: map<ResourceId, int>)
      requires Listed(cat, Books())
      ensures forall id :: Amount(nowDebt, id) == Sum(allFurniture, PendingCost(cat, world, Books(), id))
    {
      hide Sum, IsBuilt;
      nowDebt := map[];
      ghost var p := Books();
      NoSum(cat, world, p);
      for i := 0 to |allFurniture|
        invariant forall id :: Amount(nowDebt, id) == Sum(allFurniture[..i], PendingCost(cat, world, p, id))
      {
        var key := allFurniture[i];
        assert key in p.all;
        var info := furniture[key];
        SumNext(cat, world, p, i);
        if !IsBuilt(cat, world, key, info.kind) {
          nowDebt := nowDebt[info.cost.id := Amount(nowDebt, info.cost.id) + info.cost.value];
        }
      }
      assert allFurniture[..|allFurniture|] == allFurniture;
    }

    /** Afterwards the debt is right in any case; it is not touched if it was right before. */
    method CheckDebtConsistency(world: World)
      requires Listed(cat, Books())
      modifies this`debt
      ensures DebtRight(cat, world, Books())
      ensures DebtRight(cat, world, old(Books())) ==> Books() == old(Books())
    {
      hide Sum, PendingCost;
      ghost var p := Books();
      var nowDebt := ComputeDebt(world);
      var wrong := Differs(nowDebt, debt);
      if !wrong { wrong := Differs(debt, nowDebt); }
      assert wrong <==> exists id :: Amount(nowDebt, id) != Amount(debt, id);
      if wrong {
        debt := nowDebt;
        SameCosts(cat, world, p, Books());
      }
    }
  }

  function Amount(m: map<ResourceId, int>, id: ResourceId): int {
    if id in m then m[id] else 0
  }

  /** Some entry of a has another amount in b. */
  method Differs(a: map<ResourceId, int>, b: map<ResourceId, int>) returns (r: bool)
    ensures r <==> exists id :: id in a && Amount(a, id) != Amount(b, id)
  {
    var ids := a.Keys;
    while ids != {}
      invariant ids <= a.Keys
      invariant forall id :: id in a && id !in ids ==> Amount(a, id) == Amount(b, id)
      decreases ids
    {
      var id :| id in ids;
      if Amount(b, id) != a[id] { return true; }
      ids := ids - {id};
    }
    return false;
  }

  lemma NoSum(cat: Catalog, world: World, p: Plans)
    ensures forall id :: Sum([], PendingCost(cat, world, p, id)) == 0
  {
  }

  lemma SumNext(cat: Catalog, world: World, p: Plans, i: nat)
    requires i < |p.all|
    ensures forall id :: Sum(p.all[..i + 1], PendingCost(cat, world, p, id))
                         == Sum(p.all[..i], PendingCost(cat, world, p, id)) + PendingCost(cat, world, p, id)(p.all[i])
  {
    hide Sum, PendingCost;
    forall id
      ensures Sum(p.all[..i + 1], PendingCost(cat, world, p, id))
              == Sum(p.all[..i], PendingCost(cat, world, p, id)) + PendingCost(cat, world, p, id)(p.all[i])
    {
      assert p.all[..i + 1] == p.all[..i] + [p.all[i]];
      SumConcat(p.all[..i], [p.all[i]], PendingCost(cat, world, p, id));
      SumOne(p.all[i], PendingCost(cat, world, p, id));
    }
  }

  lemma SameCosts(cat: Catalog, world: World, p: Plans, p': Plans)
    requires p'.all == p.all && p'.furniture == p.furniture
    ensures forall id :: Sum(p'.all, PendingCost(cat, world, p', id)) == Sum(p.all, PendingCost(cat, world, p, id))
  {
    hide Sum;
    forall id
      ensures Sum(p'.all, PendingCost(cat, world, p', id)) == Sum(p.all, PendingCost(cat, world, p, id))
    {
      SumAgree(p.all, PendingCost(cat, world, p, id), PendingCost(cat, world, p', id));
    }
  }
}
