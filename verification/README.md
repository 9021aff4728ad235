# KeeperRL: verified models of its algorithms

KeeperRL is a dungeon simulator. This project models the algorithms under its game rules, in the form the source gives
them (classes whose methods change fields, loops over queues and tables), and proves what they are for. `dafny verify
dfyconfig.toml` checks the whole project.

- **Field of view** (`beam`, `rays`, `ring`, `sight`, `visibility`, `disc`, `coherence`, `quarter_turn`, `field_of_view`,
  `stale`). The recursive shadow caster with its four rotated quadrants is proved equal to beams given by slopes, and these
  to lie between two independent definitions of sight by rays. A ring lemma bounds every table access. The cache of tile lists
  is a state machine; it stays equal to a fresh computation along every run in which no kept list has a *blind entry* at
  the changed square, that is a beam that enters a row through that square and so reads it without marking it. `stale`
  gives a concrete level in which a blind entry leaves an outdated list behind.
- **Campaign** (`territory`, `campaign`). The multi-source shortest path search that assigns sites to owners, the
  territories, the influence and the aggressor cut-off.
- **Resource accounting** (`constructions`, `economy`, `refunds`, `balance`). The books of the construction map, with the exact
  condition under which each report keeps them consistent, and the protocol of planning, starting, finishing, giving up
  and destroying, in which tasks may also become impossible, give up, be released or be swept, and plans may lose their
  support. Over every run resources net of debt change by the worth of the steps. What a start took comes back with the
  cancel exactly if no step in between took the done task off the list or dropped the plan; the sweep of done tasks,
  which runs every turn, does lose resources, and a concrete losing run is given.
- **Searches** (`danger`, `escape`). Breadth-first searches, bounded and unbounded, against reachability by steps.
- **Assignments and schedules** (`steeds`, `dancing`, `villains`, `buffs`, `dungeon_level`). The steed matching and its
  greedy distribution, the dance slots, the placement of villains, timed buffs and level progress. Two dancers never
  share a square in a turn unless the area changes in between, and then they can.
- **Data structures** (`call_cache`, `bucket_map`, `draw_line`). The least-recently-used cache, which of its
  calls return another call's value, the spatial index and straight lines.

`grid`, `arithmetic` and `collections` hold what the modules share.

Arithmetic on `double` is exact here: slopes, distances and progress are reals, floors and ceilings are integer
quotients, and distances are compared by their squares. Random choices, the noise table, orders of hash sets and results
of `sort` are parameters or arbitrary values. Off-level positions never let light through. Terrain, creatures and
catalogues that the code asks for are parameters: sets of squares, maps and predicates.

## Model

| member | source | states |
|---|---|---|
| VisibilityTable.FloorCell | field_of_view.cpp:92-103 | the floor of the left crossing, made even, is twice the first cell whose half-open column the beam meets |
| VisibilityTable.CeilingCell | field_of_view.cpp:93-99 | the ceiling of the right crossing, made even, is twice the last such cell |
| Rays.TraceComplete | field_of_view.cpp:88-124 | completeness of one beam: a ray inside it that meets no blocking square of the rows before reaches its cell, and the cell is visited |
| Rays.TraceSound | field_of_view.cpp:88-124 | soundness of one beam: a visited cell is touched by a ray strictly inside the beam that is clear on the centre lines of all rows between |
| Ring.TraceInWall | field_of_view.cpp:88-124 | ring lemma: when blocking cells close a rectangle around the origin, no beam reads or visits a cell beyond them |
| VisibilityTable.LevelSafe | field_of_view.cpp:126-146 | from every origin in the level, on every map, every access to the blocking table hits an entry of the level or its one-cell margin |
| Sight.TilesAre | field_of_view.cpp:126-146 | the tiles of an origin are exactly the cells of level and disc that some quadrant marks, or the origin, each once |
| Sight.ClearlySeen | field_of_view.cpp:126-146 | on every map: a cell of level and disc with an unobstructed ray in some quadrant is in the tile list |
| Sight.SeenIsClear | field_of_view.cpp:126-146 | on every map: a listed tile other than the origin is on a ray of some quadrant that is clear on all centre lines before it |
| Sight.OpenSpace | field_of_view.cpp:126-146 | when nothing within the sight range blocks, the tile list is exactly the part of the Euclidean disc of radius 30 inside the level |
| QuarterTurn.TilesTurn | field_of_view.cpp:126-140 | turning level and table about the eye by a quarter turns the set of visible tiles: the four quadrants are turns of each other, not mirror images |
| QuarterTurn.LevelTurns | field_of_view.cpp:126-140 | every level and table can be turned so |
| VisibilityTable.Visibility.SetVisible | field_of_view.cpp:79-85 | sets a bit and pushes a tile exactly for a new cell of level and disc; bits and list stay in step |
| VisibilityTable.Visibility.Calculate | field_of_view.cpp:87-124 | the recursive loop with integer corner slopes terminates and records exactly the marks of the beam of those slopes |
| VisibilityTable.Visibility.constructor | field_of_view.cpp:126-146 | the object holds exactly the tiles of its origin, as bits and as a list |
| VisibilityTable.Visibility.CheckVisible | field_of_view.cpp:159-162 | an offset passes exactly when its cell is listed |
| Coherence.SameFootprint | field_of_view.cpp:105-120 | two tables that agree on the cells read from an origin give it the same tile list |
| Coherence.ReadsInRange | field_of_view.cpp:88-146 | no cell farther than Chebyshev distance 30 is read, so the square that squareChanged walks is wide enough |
| Shadow.TraceRight | field_of_view.cpp:88-124 | two beams that differ only in a region behind which nothing of the disc lies mark the same cells elsewhere (right half) |
| Shadow.TraceLeft | field_of_view.cpp:88-124 | the same for the left half, where the entry read of line 105 matters too |
| Coherence.DiscDecides | field_of_view.cpp:79-124 | cells outside the Euclidean disc are read but never matter: tables that agree inside the disc give the same tile list |
| Coherence.ReadIsSeen | field_of_view.cpp:105-114 | a read cell of level and disc is in the tile list, unless it was only read on the entry of a beam into a row (line 105) |
| Coherence.KeptIsFresh | field_of_view.cpp:67-77 | an entry that does not show the changed cell, and for which no beam enters a row through it, equals a fresh computation |
| FieldOfViewCache.StepCoherent | field_of_view.cpp:58-77 | one request keeps every cached entry equal to a fresh computation, unless a list is kept that has a blind entry at the changed cell |
| FieldOfViewCache.RunCoherent | field_of_view.cpp:58-77 | over every run of requests without blind entries every cached entry equals a fresh computation |
| FieldOfViewCache.LastReport | field_of_view.cpp:67-69 | after every run of requests a square blocks exactly as it was last reported |
| StaleList.StaleEntry | field_of_view.cpp:67-77 | the condition is needed: a concrete level, eye and door for which the entry kept by squareChanged lists a cell that is no longer visible |
| FieldOfViewCache.FieldOfView.CanSee | field_of_view.cpp:58-65 | false beyond the sight range without computing anything; otherwise whether the list of from shows to |
| FieldOfViewCache.FieldOfView.GetVisibleTiles | field_of_view.cpp:152-157 | returns the cached list of the origin, computing it first if need be |
| FieldOfViewCache.FieldOfView.SquareChanged | field_of_view.cpp:67-77 | sets the table entry, computes the list of the cell itself, and drops every list that shows it, its own included |
| TerritorySearch.StepInv | campaign.cpp:254-264 | every turn of the queue loop keeps the invariant: popped distances never decrease, each site settles once, labels come from a source or from an expanded neighbour, and no offer is lost |
| TerritorySearch.Run | campaign.cpp:254-264 | the whole loop ends with an empty queue and the invariant |
| TerritorySearch.NoShorterPath | campaign.cpp:254-264 | d(v) <= d(u) + w(v) along every path of expanded sites, and so no such path is shorter than the distance found |
| TerritorySearch.PathOf | campaign.cpp:254-264 | each distance is the cost of a path from a source of the same owner, all of whose inner sites expand (the sentinel's only below 15) |
| CampaignMap.TerritoryConnected | campaign.cpp:265-267 | every site owned by a non-border site is joined to it by neighbouring sites of the same territory |
| CampaignMap.IncreaseGrows | campaign.cpp:192-199 | of two sites the one farther from the player has no lower level increase |
| CampaignMap.IncreaseCounts | campaign.cpp:192-199 | every fortified site that is strictly closer makes a site harder by the full increase, and the nearest fortified site has none |
| CampaignMap.ConquestOnlyGrows | campaign.cpp:85-89 | along every run of setDefeated neither the influence set nor the set below the aggressor cut-off ever shrinks |
| CampaignMap.Campaign.FindOwners | campaign.cpp:231-264 | the queue loop computes the owners of the search |
| CampaignMap.Campaign.GroupTerritories | campaign.cpp:265-267 | the territories are the sites grouped by owner, disjoint, without the sentinel's |
| CampaignMap.Campaign.RefreshInfluencePos | campaign.cpp:217-281 | the influence set is the initial disc and every territory that touches a defeated owner; it is never empty |
| CampaignMap.Campaign.GetBaseLevelIncrease | campaign.cpp:192-199 | the number of fortified sites strictly closer to the player, times the increase |
| CampaignMap.Campaign.MaxConquered | campaign.cpp:209-212 | the largest level increase of a defeated fortified site, or 0 if none is larger |
| CampaignMap.Campaign.RefreshMaxAggressorCutOff | campaign.cpp:207-215 | a site is below the cut-off exactly when its increase is at most ten more than the largest conquered one |
| CampaignMap.Campaign.SetDefeated | campaign.cpp:85-89 | one more site is defeated, and influence and cut-off are up to date again |
| Constructions.AddedInv | construction_map.cpp:100-117 | adding a plan keeps debt, unbuilt counts, built positions and the list of plans consistent |
| Constructions.ConstructedExact | construction_map.cpp:143-158 | reporting a construction keeps the books consistent exactly when there is a pending plan of that type at the place |
| Constructions.ConstructedTooLow | construction_map.cpp:143-158 | in every other case, a missing plan among them, the unbuilt counter ends up one too low |
| Constructions.MissingRepaired | construction_map.cpp:143-158 | a construction without a plan makes up a plan without cost for what was built, and but for that one counter the books are right |
| Constructions.DestroyedExact | construction_map.cpp:82-98 | exactly when the plan of the place counted as built if and only if the destroyed type belongs to it |
| Constructions.PhylacteryDestroyed | construction_map.cpp:82-98 | the death of a filled phylactery leaves the plan of the empty one waiting without a task, with right books |
| Constructions.BuiltOrBuildable | construction_map.cpp:34-40 | tied to what the type can be put on (furniture_factory.cpp:104-112): a place without the type itself counts as built only if the type cannot be built there, and neither only for want of its base |
| Constructions.RemovedExact | construction_map.cpp:66-74 | removing a plan keeps the books consistent exactly when the plan is not built yet |
| Constructions.DroppedExact | construction_map.cpp:160-168 | dropping plans that lost their support keeps the books consistent exactly when none of them is built yet |
| Constructions.ConstructionMap.AddFurniture | construction_map.cpp:100-117 | the whole new state after adding a plan |
| Constructions.ConstructionMap.OnConstructed | construction_map.cpp:143-158 | the whole new state after a construction, with the branch for a missing plan |
| Constructions.ConstructionMap.OnFurnitureDestroyed | construction_map.cpp:82-98 | the whole new state after a destruction, with the phylactery exception |
| Constructions.ConstructionMap.RemoveFurniturePlan | construction_map.cpp:66-74 | the whole new state after removing a plan; the list gives its place to the last element |
| Constructions.ConstructionMap.ClearUnsupportedFurniturePlans | construction_map.cpp:160-168 | first collects, then removes every listed plan without support, in the order of the list; the other plans stay what they are |
| Constructions.ConstructionMap.CheckDebtConsistency | construction_map.cpp:193-210 | afterwards the debt is right in any case; when it was right before, nothing is changed |
| Economy.StartedWorth | collective.cpp:1332-1347 | starting a construction leaves resources net of debt unchanged |
| Economy.FinishedWorth | collective.cpp:1297-1314 | finishing one, whether the furniture is remembered or forgotten, changes them by the cost of the plan less what its task holds: by nothing when the task paid for the plan |
| Economy.CancelledWorth | collective.cpp:1162-1168 | cancelling raises resources net of debt by the cost of the plan, less what its task still held, plus what was listed for the task and is counted again: by the cost of the plan before a start and with a running task |
| Economy.CancelledExact | collective.cpp:1162-1168 | a cancel gives back a cost if and only if this is what is listed for the task of the plan and it is counted, and nothing if and only if nothing is listed or it is not counted; whether the task is done does not matter |
| Economy.ReturnedNum | collective.cpp:1052-1066 | a returned resource is counted again if and only if it becomes credit or lands on a storage square of that resource; the source does not check which |
| Economy.StepWorth | collective.cpp:1004-1015 | each step changes resources net of debt by its stated worth: plan, start, finish, cancel, destroy, a task that stops or starts being buildable, gives up, is released with or without a refund or is swept, and a plan that lost its support |
| Economy.StepSound | collective.cpp:1162-1347 | each of these steps keeps the books and the links between plans and tasks consistent |
| Economy.RunConserves | collective.cpp:1004-1015 | over every run of these steps resources net of debt change by exactly the worth of the steps, and the books stay consistent |
| Balance.StepOrderly | collective.cpp:1332-1347 | each step of the protocol keeps task ids unique and keeps two plans from sharing a task |
| Balance.NetMeans | collective.cpp:1004-1015 | resources net of debt are what is left when all pending plans without a running task, and the debt of the workshops, are paid; what running tasks hold for plans that are gone counts on top |
| Refunds.StepTracks | task.cpp:114-157 | a step that does not settle the place itself keeps its plan bound to the paid task, or separates them for good: by dropping the plan, or by taking its task off the list when done |
| Refunds.DestroyedWaits | construction_map.cpp:82-98 | destroying something built leaves a plan without a task, which waits to be started again exactly if its cost can be paid |
| Refunds.NoStaleTask | construction_map.cpp:82-98 | over every run a plan that waits for a task has been started and has been waiting since: no task is left over from an earlier construction |
| Refunds.StaysAsPlanned | construction_map.cpp:100-117 | over every run a plan is for the type and at the cost that it was planned with, since then |
| Refunds.CancelReturns | collective.cpp:1332-1347 | over every run from a start to a cancel, the cancel gives back exactly what the start took if and only if that was nothing, or no step in between separated plan and task and what comes back is counted |
| Refunds.StartCanBeLost | collective.cpp:629 | every started construction can be lost: it stops being buildable, the sweep drops its task, and the cancel returns nothing |
| Refunds.LosingRun | task_map.cpp:39-43 | such a run in figures: five pieces of wood are gone after the sweep, and would have come back before it |
| Economy.Collective.NumResource | collective.cpp:990-1002 | credit plus the items on the distinct storage squares of the resource |
| Economy.Collective.TakeResource | collective.cpp:1025-1050 | takes credit first and the rest from storage; whenever hasResource holds it removes exactly the cost and the fatal branch is not reached |
| Economy.Collective.GetDebt | collective.cpp:1008-1015 | debt of the plans less the costs of the tasks that are neither bogus nor done |
| Economy.Collective.NumResourcePlusDebt | collective.cpp:1004-1006 | resources net of debt |
| Economy.Collective.ReturnResource | collective.cpp:1052-1066 | items on a storage square where there is one, credit otherwise |
| Economy.Collective.RemoveUnbuiltFurniture | collective.cpp:1162-1168 | the whole new state after giving up a plan |
| Economy.Collective.AddFurniture | collective.cpp:1200-1206 | adds the plan unless it has to be affordable and is not; an unbuilt plan lowers resources net of debt by exactly its cost; then no eligible plan is left waiting that can be paid |
| Economy.Collective.FinishConstruction | collective.cpp:1297-1312 | marks the task done and settles the plan |
| Economy.Collective.UpdateConstructions | collective.cpp:1332-1347 | exactly those plans are started, in the order of the list, that are eligible, unbuilt, without a task and paid from what the earlier ones leave; each gets a new listed task with its cost; resources net of debt do not change |
| Economy.Collective.TickTasks | task_map.cpp:39-43 | every turn exactly the done tasks are dropped, without a refund |
| DangerZones.BoxHolds | collective.cpp:1360-1362 | so cropping to the box plus 10 and to the level loses nothing that is reachable |
| DangerZones.DoneIsReach | collective.cpp:1368-1379 | the squares that left the queue are exactly those within ten steps |
| DangerZones.Collective.DelayDangerousTasks | collective.cpp:1349-1381 | delays exactly the enemy squares and the territory reachable from one in at most ten steps on the same level; everything else keeps its delay |
| Steeds.JoinMatches | collective.cpp:1230-1245 | an assignment keeps the matching symmetric, joins the two, frees both former partners and touches nobody else |
| Steeds.CompanionMatches | collective.cpp:1230-1252 | a rider on its own companion is assigned to itself, and its former partner is freed |
| Steeds.ExpelledMatches | collective.cpp:671-673 | the first loop frees exactly the creatures that may not have a mount, and their partners; everybody else keeps the partner |
| Steeds.ServeStep | collective.cpp:689-705 | serving one more rider keeps: nobody served could have a stronger mount, nobody served earlier envies a later one |
| Steeds.Collective.SetSteed | collective.cpp:1230-1245 | the whole new assignment |
| Steeds.Collective.BestAvailable | collective.cpp:691-699 | a strongest free steed that fits, or a companion that is strictly stronger than all of them |
| Steeds.Collective.AutoAssignSteeds | collective.cpp:670-706 | on the assignments before and after: whoever has a partner keeps it if neither of the two is banned; new pairs are a rider in need and its companion or a free fitting steed; no such rider could have a stronger free steed or companion, or envies a lower-ranked one; no steed twice |
| EscapeSearch.ExactWeights | effect.cpp:202-210 | weights are exactly the distances to the nearest danger, and exactly the reachable squares have one |
| EscapeSearch.Weights | effect.cpp:187-210 | the multi-source search ends with the exact distances |
| EscapeSearch.Escape | effect.cpp:184-236 | the spell fails exactly when no candidate is two steps from every danger; otherwise it jumps to a candidate whose distance no candidate exceeds |
| DrawLine.DrawNormalized | draw_line.cpp:5-21 | one value per column, each the nearest row to the true segment with ties to the lower row |
| DrawLine.Line | draw_line.cpp:23-39 | in all octants: starts at from, ends at to, has max(abs dx, abs dy) + 1 points, consecutive points are 8-neighbours, and each point is the nearest to the true segment |
| DrawLine.LineUnique | draw_line.cpp:23-39 | these properties determine the line |
| DrawLine.WayBack | draw_line.cpp:23-39 | the line back is the reversed line if and only if the segment never passes exactly half-way between two rows |
| CallCaching.KeepsMostRecent | call_cache.h:33-53 | after any sequence of calls the cached keys are exactly the maxSize most recently used distinct keys |
| CallCaching.RecentOrdered | call_cache.h:46-53 | the recency list is ordered by the last use in the sequence |
| CallCaching.RunKeys | call_cache.h:33-53 | the cached keys of a run are those of the recency list, whatever the values |
| CallCaching.CachedIsHit | call_cache.h:14-53 | a call finds its key cached exactly if fewer than maxSize different keys were used since the last call with it |
| CallCaching.ReturnsOrigin | call_cache.h:14-53 | a call returns what the call at the start of its chain of hits generated; which call that is depends on the keys alone |
| CallCaching.ResultsExact | call_cache.h:14-53 | in a run every call returns what its own generator gives if and only if every call that has an earlier one with its key, fewer than maxSize different keys back, generates what the last such call generates |
| CallCaching.NoCollisions | call_cache.h:14-21 | a corollary: in every run of calls in which equal keys generate equal values, every call returns what its own generator gives |
| CallCaching.Collision | call_cache.h:14-21 | after any run two calls in a row with the same key both return the same value, so that with different values one of them does not get its own |
| CallCaching.CollisionRuns | call_cache.h:14-53 | in figures: the second of two calls with one key returns the value of the first; with one place and another key in between it returns its own |
| CallCaching.CallCache.Get | call_cache.h:14-21 | contents and result are those of the run with this call added; map and two-way map keep equal domains, and the size never exceeds maxSize |
| BuffEngine.SweepExact | creature.cpp:1453-1467 | the descending loop over the copy removes exactly the expired buffs among those processed, whether the container's removal swaps or shifts |
| BuffEngine.RunInv | creature.cpp:1054-1108 | the counts are right after every run of additions, removals and expiries |
| BuffEngine.RunIsTimers | creature.cpp:1054-1108 | after every run a non-stacking kind is on exactly while a timer that additions start or extend, and removal and time stop, is running; once, and with its expiry |
| BuffEngine.StackedStep | creature.cpp:1054-1108 | of a stacking kind an addition is one more, a removal takes one away if there is one, and time takes all that have expired |
| BuffEngine.RunStacks | creature.cpp:1054-1108 | over every run without removals the buffs of a stacking kind are its additions that have not expired |
| BuffEngine.NeverImmune | creature.cpp:1054-1056 | over every run a kind to which the body is immune never occurs |
| BuffEngine.Creature.AddEffect | creature.cpp:1054-1079 | the whole new state; true exactly when the kind was not on, or stacks |
| BuffEngine.Creature.RemoveBuff | creature.cpp:1087-1101 | the whole new state; true exactly when the kind is off now, or stacks |
| BuffEngine.Creature.RemoveEffect | creature.cpp:1103-1108 | the first buff of the kind is removed, if there is one |
| BuffEngine.Creature.ProcessBuffs | creature.cpp:1453-1467 | the loop equals the sweep; when the creature dies of a tick the buffs not processed yet are left |
| DanceFloor.CycleSquare | dancing.cpp:102-121 | at turn t of a cycle dance slot s is sent to place (s + t / frames) % slots of frame t % frames |
| DanceFloor.FullSquare | dancing.cpp:102-121 | at turn t of a full dance slot s is sent to its own place of frame t % frames |
| DanceFloor.SquareRepeats | dancing.cpp:102-112 | after a period the dance starts again |
| DanceFloor.SquareBefore | dancing.cpp:103-104 | when the time was set back before the start, everybody is sent to its first place |
| DanceFloor.EveryPlaceOnce | dancing.cpp:102-121 | in one period a dancer of a cycle dance is sent to every place of every frame, and at one turn only if all places differ |
| DanceFloor.DancesOn | dancing.cpp:89-112 | over several turns a dancer that keeps asking is sent to the squares of one slot of one dance, each time to that of the time |
| DanceFloor.NewcomerSeated | dancing.cpp:69-79 | a dancer without a slot gets one exactly if one was never taken or its dancer was not seen for more than 20 turns, and then the first such |
| DanceFloor.SentWhenEnough | dancing.cpp:105-112 | a dancer is sent somewhere exactly if it has a slot and enough dancers were seen in less than 20 turns |
| DanceFloor.TargetInArea | dancing.cpp:89-112 | every target is a square of the area, and an affected dancer gets none; the state stays consistent, so that the look-up of the last time never fails |
| DanceFloor.NoCollision | dancing.cpp:61-121 | in one turn two dancers are never sent to the same square, whatever calls for targets and settings of the area come before, between and after, if no area set between the two is a new one and the places of each frame differ |
| DanceFloor.NewAreaCollides | dancing.cpp:61-67 | the condition is needed: for every dance that can be danced in two different areas, setting the second between two calls can send two dancers to the same square |
| DanceFloor.FloorGrows | collective.cpp:631 | such a turn in figures: the floor grows by a square, and dancers 7 and 8 are sent to the same one |
| DanceFloor.Dancing.InitializeCurrentDance | dancing.cpp:26-56 | starts a dance that fits, with empty slots, unless there is none |
| DanceFloor.Dancing.SetArea | dancing.cpp:61-67 | a new area ends the dance and starts one that fits |
| DanceFloor.Dancing.AssignCreatureIndex | dancing.cpp:69-79 | the slot the dancer has, or the first vacant one, or none; no slot is shared |
| DanceFloor.Dancing.GetTarget | dancing.cpp:89-112 | the whole step: no target without a dance, a replaced dance after 100 turns, and otherwise the square of the slot |
| VillainPlacement.DealtEvenly | campaign_builder.cpp:148-152 | a villain occurs in what is dealt once for each time it is listed and each full turn, and once for each place in the last turn |
| VillainPlacement.UsesEven | campaign_builder.cpp:148-152 | of different villains each occurs count / n times in what is dealt, the first count % n once more |
| VillainPlacement.Shuffle | campaign_builder.cpp:181-190 | a permutation with exactly the always present villains in front |
| VillainPlacement.Campaign.PlaceList | campaign_builder.cpp:144-177 | places the dealt villains in order on suitable squares of their own, and gives up only when the next one has no square left |
| VillainPlacement.Campaign.PlaceVillains | campaign_builder.cpp:201-241 | over all lists: every two placed villains are more than 5 apart, more than 5 from the player, on free land off the margin; on success the placed squares are, by the lists and the counts, those of the main villains, of at most three lesser ones near the player and the others far away, of the minor ones, the allies and every end game villain; on failure some villain has no free square that suits it |
| VillainPlacement.AlwaysPresent | campaign_builder.cpp:181-241 | on success nobody who must be present is missing from a group that has room for all of them |
| BucketIndex.AreaCovered | bucket_map.cpp:43-49 | a square of an area is in a bucket of the area, also for negative and overhanging edges under truncating division |
| BucketIndex.AreaNear | bucket_map.cpp:43-49 | what is in the buckets of an area is less than a bucket away from it, but for areas that end less than a bucket before the map |
| BucketIndex.BucketMap.AddElement | bucket_map.cpp:17-21 | the index stays in step with the set of placed elements; the element may already be in another bucket |
| BucketIndex.BucketMap.RemoveElement | bucket_map.cpp:23-27 | the same for a removal, at any position in the bucket |
| BucketIndex.BucketMap.MoveElement | bucket_map.cpp:34-38 | the same for a move |
| BucketIndex.BucketMap.GetElements | bucket_map.cpp:40-51 | exactly the elements in the buckets of the area, every element inside the area among them, each at most once when elements have one position |
| DungeonProgress.LevelsAreSquares | dungeon_level.cpp:22-24 | the progress that all levels before one take adds up to the square of its number |
| DungeonProgress.GainedUnique | dungeon_level.cpp:22-24 | the progress gained in all, full levels and the part of the current one, determines level and progress |
| DungeonProgress.Added | dungeon_level.cpp:42-51 | the recursion ends, keeps 0 <= progress < 1 and raises the progress gained in all by exactly the amount |
| DungeonProgress.AddSplit | dungeon_level.cpp:42-51 | the result does not depend on how an amount is split into calls |
| DungeonProgress.LevelReached | dungeon_level.cpp:42-51 | from nothing, the level reached is the largest whose square is at most the amount |
| DungeonProgress.DungeonLevel.AddAbsoluteProgress | dungeon_level.cpp:42-51 | the fields after the recursion |

## Left out

- Floating-point rounding: slopes, distances and progress are exact; the constant 0.0001 in `addAbsoluteProgress` then never decides.
- The 16-bit coordinates of the tile list (`SVec2`), and overflow of any counter, time stamp or coordinate.
- The noise table of the campaign is taken to be nonnegative, and ties in its priority queue are broken by any fixed rule on the content of the queue.
- Campaign sites do not change between conquests: `removeDweller` and `updateInhabitants` are not modelled.
- Unused values of the source: `right_b` in `calculate`, `hasDefeated` in `refreshInfluencePos`.
- StepCoherent: the absence of blind entries is sufficient for coherence and checkable from the old table, but not necessary, because a read on entry does not always change what is marked.
- Loading a saved field of view, which restores the tile lists of the entries.
- A construction that finishes after its plan was dropped is outside the protocol: ConstructedTooLow shows that this report leaves the unbuilt counter one too low.
- The order of the task list, which the source changes when it removes a task; ids are unique.
- Storage squares and the debt of workshops are fixed; `ConstructionMap` does not track storage positions here.
- Territory claims, messages and population changes in `onConstructed` and `onDestructed`.
- BuiltOrBuildable: of `canBuild` only what stands on the layer of the type; ground, walls, bridges and second parts are not modelled.
- AutoAssignSteeds: riders and steeds are different creatures; creatures with both roles are not covered. Companions are not members of the collective.
- Timed buffs: tick, start and end effects do not touch the list of buffs. Permanent buffs and lasting effects are not modelled.
- Dances list the same number of places, at least one, in every frame; the content files are to ensure this.
- PlaceVillains: the lists are given by kind; choosing them from villain groups and retired games is not modelled.
- `pullCreature` in `effect.cpp` walks a line that `DrawLine` describes; the other effects are not modelled.
- Waves of external enemies (`external_enemies.cpp`) and the counts of body parts (`body.cpp`): single counters and one ordered list, which would add only easy members.
- Rendering, sound, menus, files, content loading, translation, combat, controllers and choices of the artificial players.
