/** Riders and steeds: the two-way assignment, and the greedy distribution of the free steeds. */
module Steeds {
  import opened Collections

  type Id = nat

  datatype Maybe = Null | Ref(id: Id)

  /** What is known about the creatures.  A companion belongs to its rider alone and is not a member. */
  datatype Facts = Facts(companion: map<Id, Id>, attack: Id -> int, steeds: set<Id>, riders: set<Id>, leaders: set<Id>,
                         allowed: set<Id>, fits: (Id, Id) -> bool) {
    function Companion(c: Id): Maybe {
      if c in companion then Ref(companion[c]) else Null
    }
  }

  /** Who c rides, or who rides c.  A rider on its companion is assigned to itself. */
  function Partner(f: Facts, m: map<Id, Id>, c: Id): Maybe {
    if c !in m then Null else if m[c] == c then f.Companion(c) else Ref(m[c])
  }

  /** Assignments go both ways, and companions are not assigned. */
  ghost predicate Matching(f: Facts, m: map<Id, Id>) {
    && (forall c :: c in m && m[c] != c ==> m[c] in m && m[m[c]] == c)
    && (forall c :: c in m && m[c] == c ==> c in f.companion)
    && (forall c :: c in f.companion ==> f.companion[c] !in m)
  }

  predicate Member(f: Facts, c: Id) {
    c !in f.companion.Values
  }

  /** The code's inner step: c1 leaves its partner and turns to c2. */
  function SetImpl(f: Facts, m: map<Id, Id>, c1: Id, c2: Maybe): map<Id, Id> {
    var p := Partner(f, m, c1);
    var m' := if p.Ref? then m - {p.id} else m;
    if c2.Ref? then m'[c1 := c2.id] else m' - {c1}
  }

  /** A rider that is null is asked for its companion when the steed is not. */
  function Assigned(f: Facts, m: map<Id, Id>, rider: Maybe, steed: Maybe): map<Id, Id>
    requires steed.Ref? ==> rider.Ref?
  {
    var steed := if rider.Ref? && steed.Ref? && steed == f.Companion(rider.id) then rider else steed;
    var m' := if rider.Ref? then SetImpl(f, m, rider.id, steed) else m;
    if steed.Ref? && steed != rider then SetImpl(f, m', steed.id, rider) else m'
  }

  /** The former partner, as a set. */
  function Former(f: Facts, m: map<Id, Id>, c: Id): set<Id> {
    if Partner(f, m, c).Ref? then {Partner(f, m, c).id} else {}
  }

  /** Joining two members: both former partners are erased, and the two point at each other. */
  lemma JoinIs(f: Facts, m: map<Id, Id>, r: Id, s: Id)
    requires Matching(f, m) && r != s && Member(f, r) && Member(f, s)
    ensures Assigned(f, m, Ref(r), Ref(s)) == (m - Former(f, m, r) - Former(f, m, s))[r := s][s := r]
  {
  }

  /** A matching without some member and its partner is a matching. */
  lemma WithoutPair(f: Facts, m: map<Id, Id>, r: Id)
    requires Matching(f, m) && Member(f, r)
    ensures Matching(f, m - Former(f, m, r) - {r})
  {
  }

  lemma JoinMatching(f: Facts, m: map<Id, Id>, r: Id, s: Id)
    requires Matching(f, m) && r != s && Member(f, r) && Member(f, s) && r !in m && s !in m
    ensures Matching(f, m[r := s][s := r])
  {
  }

  /** Taking both out first gives the same assignment. */
  lemma JoinShape(f: Facts, m: map<Id, Id>, r: Id, s: Id)
    requires Matching(f, m) && r != s && Member(f, r) && Member(f, s)
    ensures var m1 := m - Former(f, m, r) - {r}; var m2 := m1 - Former(f, m1, s) - {s};
            && Matching(f, m1) && Matching(f, m2)
            && (m - Former(f, m, r) - Former(f, m, s))[r := s][s := r] == m2[r := s][s := r]
  {
    var m1 := m - Former(f, m, r) - {r};
    WithoutPair(f, m, r);
    WithoutPair(f, m1, s);
    assert Former(f, m1, s) == if s in Former(f, m, r) then {} else Former(f, m, s);
    if s in Former(f, m, r) { assert Former(f, m, s) == {r}; }
  }

  lemma JoinPartners(f: Facts, m: map<Id, Id>, r: Id, s: Id)
    requires Matching(f, m) && r != s && Member(f, r) && Member(f, s)
    ensures var m' := (m - Former(f, m, r) - Former(f, m, s))[r := s][s := r];
            && Partner(f, m', r) == Ref(s) && Partner(f, m', s) == Ref(r)
            && forall c :: c != r && c != s ==>
                 Partner(f, m', c) == if c in Former(f, m, r) + Former(f, m, s) then Null else Partner(f, m, c)
  {
  }

  /** An ordinary assignment keeps the matching, joins the two, frees their former partners, and leaves all others
      alone. */
  lemma JoinMatches(f: Facts, m: map<Id, Id>, r: Id, s: Id)
    requires Matching(f, m) && r != s && Member(f, r) && Member(f, s)
    ensures var m' := Assigned(f, m, Ref(r), Ref(s));
            && Matching(f, m') && Partner(f, m', r) == Ref(s) && Partner(f, m', s) == Ref(r)
            && forall c :: c != r && c != s ==>
                 Partner(f, m', c) == if c in Former(f, m, r) + Former(f, m, s) then Null else Partner(f, m, c)
  {
    hide Assigned, Matching, Partner, Former, Member;
    JoinIs(f, m, r, s);
    JoinShape(f, m, r, s);
    JoinPartners(f, m, r, s);
    var m1 := m - Former(f, m, r) - {r};
    JoinMatching(f, m1 - Former(f, m1, s) - {s}, r, s);
  }

  /** Freeing a member frees its partner, and nobody else. */
  lemma FreeMatches(f: Facts, m: map<Id, Id>, r: Id)
    requires Matching(f, m) && Member(f, r)
    ensures var m' := Assigned(f, m, Ref(r), Null);
            && Matching(f, m')
            && forall c :: Partner(f, m', c) == if c == r || c in Former(f, m, r) then Null else Partner(f, m, c)
  {
  }

  /** A rider on its companion leaves its former partner. */
  lemma CompanionMatches(f: Facts, m: map<Id, Id>, r: Id)
    requires Matching(f, m) && Member(f, r) && r in f.companion
    ensures var m' := Assigned(f, m, Ref(r), f.Companion(r));
            && Matching(f, m') && Partner(f, m', r) == f.Companion(r)
            && forall c :: c != r ==> Partner(f, m', c) == if c in Former(f, m, r) then Null else Partner(f, m, c)
  {
  }

  /** The elements that satisfy the predicate, in their order. */
  function Filtered(s: seq<Id>, p: Id -> bool): (r: seq<Id>)
    ensures forall c :: c in r <==> c in s && p(c)
  {
    if s == [] then [] else if p(s[0]) then [s[0]] + Filtered(s[1..], p) else Filtered(s[1..], p)
  }

  /** No element that must come before an earlier one. */
  ghost predicate Sorted(s: seq<Id>, before: (Id, Id) -> bool) {
    forall i, j :: 0 <= i < j < |s| ==> !before(s[j], s[i])
  }

  lemma {:induction false} FilteredSorted(s: seq<Id>, p: Id -> bool, before: (Id, Id) -> bool)
    requires Sorted(s, before)
    ensures Sorted(Filtered(s, p), before)
  {
    if s != [] {
      FilteredSorted(s[1..], p, before);
      var rest := Filtered(s[1..], p);
      forall j | 0 <= j < |rest|
        ensures !before(rest[j], s[0])
      {
        assert rest[j] in s[1..];
      }
    }
  }

  lemma {:induction false} FilteredDistinct(s: seq<Id>, p: Id -> bool)
    requires Distinct(s)
    ensures Distinct(Filtered(s, p))
  {
    if s != [] {
      FilteredDistinct(s[1..], p);
      var rest := Filtered(s[1..], p);
      forall j | 0 <= j < |rest|
        ensures rest[j] != s[0]
      {
        assert rest[j] in s[1..];
      }
    }
  }

  function Without(s: seq<Id>, c: Maybe): seq<Id> {
    Filtered(s, (d: Id) => c != Ref(d))
  }

  function Weaker(f: Facts): (Id, Id) -> bool {
    (c: Id, d: Id) => f.attack(c) < f.attack(d)
  }

  /** Leaders come first, and then the stronger attack. */
  function Outranks(f: Facts): (Id, Id) -> bool {
    (c: Id, d: Id) => (c in f.leaders && d !in f.leaders)
              || ((c in f.leaders <==> d in f.leaders) && f.attack(c) > f.attack(d))
  }

  /** After the creatures that may not have a mount have been freed. */
  function Expelled(f: Facts, m: map<Id, Id>, creatures: seq<Id>): map<Id, Id> {
    if creatures == [] then m
    else
      var m' := Expelled(f, m, creatures[..|creatures| - 1]);
      var c := creatures[|creatures| - 1];
      if c in f.allowed then m' else Assigned(f, m', Ref(c), Null)
  }

  /** A listed creature that may not have a mount. */
  predicate Banned(f: Facts, creatures: seq<Id>, c: Id) {
    c in creatures && c !in f.allowed
  }

  /** Neither c nor its partner is banned. */
  predicate Tolerated(f: Facts, m: map<Id, Id>, creatures: seq<Id>, c: Id) {
    !Banned(f, creatures, c) && (Partner(f, m, c).Ref? ==> !Banned(f, creatures, Partner(f, m, c).id))
  }

  /** Exactly the banned creatures and their partners are freed; everybody else keeps the partner. */
  lemma {:induction false} ExpelledMatches(f: Facts, m: map<Id, Id>, creatures: seq<Id>)
    requires Matching(f, m) && forall c :: c in creatures ==> Member(f, c)
    ensures Matching(f, Expelled(f, m, creatures))
    ensures forall c :: Partner(f, Expelled(f, m, creatures), c)
                        == if Tolerated(f, m, creatures, c) then Partner(f, m, c) else Null
  {
    if creatures != [] {
      var rest, c := creatures[..|creatures| - 1], creatures[|creatures| - 1];
      ExpelledMatches(f, m, rest);
      var m' := Expelled(f, m, rest);
      assert creatures == rest + [c];
      if c !in f.allowed {
        FreeMatches(f, m', c);
        PartnersMutual(f, m, c);
      }
      hide Assigned, Matching, Partner, Member;
    }
  }

  lemma PartnersMutual(f: Facts, m: map<Id, Id>, c: Id)
    requires Matching(f, m) && Member(f, c)
    ensures forall d :: Partner(f, m, d) == Ref(c) <==> Partner(f, m, c) == Ref(d) && Member(f, d)
  {
  }

  /** A steed that nobody rides. */
  predicate Free(f: Facts, m: map<Id, Id>, c: Id) {
    c in f.steeds && Partner(f, m, c).Null?
  }

  /** A rider that may have a mount and has none. */
  predicate Waiting(f: Facts, m: map<Id, Id>, c: Id) {
    c in f.riders && Partner(f, m, c).Null? && c in f.allowed
  }

  predicate AtLeast(f: Facts, m: map<Id, Id>, c: Id, attack: int) {
    Partner(f, m, c).Ref? && f.attack(Partner(f, m, c).id) >= attack
  }

  /** The rider could have no stronger mount: neither a free one that fits it, nor its companion. */
  ghost predicate Served(f: Facts, m: map<Id, Id>, free: seq<Id>, c: Id) {
    && (forall s :: s in free && f.fits(c, s) ==> AtLeast(f, m, c, f.attack(s)))
    && (c in f.companion ==> AtLeast(f, m, c, f.attack(f.companion[c])))
  }

  /** p would not rather ride the steed that q has. */
  predicate NoEnvy(f: Facts, m: map<Id, Id>, p: Id, q: Id) {
    var mount := Partner(f, m, q);
    mount.Ref? && mount != f.Companion(q) && f.fits(p, mount.id) ==> AtLeast(f, m, p, f.attack(mount.id))
  }

  /** The mount is the companion, or one of the steeds, and fits. */
  predicate Rightful(f: Facts, m: map<Id, Id>, steeds: seq<Id>, c: Id) {
    var mount := Partner(f, m, c);
    mount.Ref? ==> mount == f.Companion(c) || (mount.id in steeds && f.fits(c, mount.id))
  }

  /** What the code picks for the rider: the strongest free steed that fits, or a companion that is stronger. */
  ghost predicate Choice(f: Facts, free: seq<Id>, c: Id, best: Maybe) {
    && (best.Null? ==> c !in f.companion && forall s :: s in free ==> !f.fits(c, s))
    && (best.Ref? ==> best == f.Companion(c) || (best.id in free && f.fits(c, best.id)))
    && (best.Ref? ==> forall s :: s in free && f.fits(c, s) ==> f.attack(s) <= f.attack(best.id))
    && (best.Ref? && c in f.companion ==> f.attack(f.companion[c]) <= f.attack(best.id))
    && (best.Ref? && best == f.Companion(c) && best.id !in free ==>
          forall s :: s in free && f.fits(c, s) ==> f.attack(s) < f.attack(best.id))
  }

  /** The assignment while riders are served in turn: the free list holds the steeds not yet given away. */
  ghost predicate Serving(f: Facts, before: map<Id, Id>, m: map<Id, Id>, steeds: seq<Id>, free: seq<Id>, riders: seq<Id>, n: nat)
    requires n <= |riders|
  {
    && Matching(f, m)
    && Sorted(free, Weaker(f))
    && (forall s :: s in free <==> s in steeds && Partner(f, m, s).Null?)
    && (forall s :: s in steeds && Partner(f, m, s).Ref? ==> Partner(f, m, s).id in riders)
    && (forall i :: n <= i < |riders| ==> Partner(f, m, riders[i]).Null?)
    && (forall i :: 0 <= i < n ==> Served(f, m, free, riders[i]) && Rightful(f, m, steeds, riders[i]))
    && (forall i, j :: 0 <= i < j < n ==> NoEnvy(f, m, riders[i], riders[j]))
    && (forall c :: c !in riders && c !in steeds ==> Partner(f, m, c) == Partner(f, before, c))
  }

  /** The lists the code makes: free steeds and waiting riders, with separate roles. */
  ghost predicate Lists(f: Facts, before: map<Id, Id>, steeds: seq<Id>, riders: seq<Id>) {
    && Distinct(riders) && f.steeds !! f.riders
    && (forall s :: s in steeds ==> Free(f, before, s) && Member(f, s))
    && (forall c :: c in riders ==> Waiting(f, before, c) && Member(f, c))
  }

  /** The assignment after a rider took its mount. */
  ghost predicate Took(f: Facts, m: map<Id, Id>, m': map<Id, Id>, c: Id, best: Maybe) {
    && Matching(f, m') && Partner(f, m', c) == best
    && (best.Ref? && best != f.Companion(c) ==> Partner(f, m', best.id) == Ref(c))
    && forall d :: d != c && (best == Ref(d) ==> best == f.Companion(c)) ==> Partner(f, m', d) == Partner(f, m, d)
  }

  /** Serving one more rider. */
  lemma TookIs(f: Facts, m: map<Id, Id>, free: seq<Id>, c: Id, best: Maybe)
    requires Matching(f, m) && Member(f, c) && Partner(f, m, c).Null? && c !in free
    requires forall s :: s in free ==> Member(f, s) && Partner(f, m, s).Null?
    requires Choice(f, free, c, best)
    ensures Took(f, m, if best.Ref? then Assigned(f, m, Ref(c), best) else m, c, best)
  {
  }

  /** The first part: who is free and who is left alone. */
  lemma ServeLists(f: Facts, before: map<Id, Id>, m: map<Id, Id>, m': map<Id, Id>, steeds: seq<Id>, free: seq<Id>,
                   riders: seq<Id>, n: nat, best: Maybe)
    requires Lists(f, before, steeds, riders) && n < |riders| && Serving(f, before, m, steeds, free, riders, n)
    requires Took(f, m, m', riders[n], best) && Choice(f, free, riders[n], best)
    ensures var free' := Without(free, best);
            && Sorted(free', Weaker(f))
            && (forall s :: s in free' <==> s in steeds && Partner(f, m', s).Null?)
            && (forall s :: s in steeds && Partner(f, m', s).Ref? ==> Partner(f, m', s).id in riders)
            && (forall i :: n < i < |riders| ==> Partner(f, m', riders[i]).Null?)
            && (forall c :: c !in riders && c !in steeds ==> Partner(f, m', c) == Partner(f, before, c))
  {
    hide Matching, Partner;
    FilteredSorted(free, (s: Id) => best != Ref(s), Weaker(f));
    assert riders[n] in riders;
    if best.Ref? && best == f.Companion(riders[n]) {
      assert best.id !in riders && best.id !in steeds;
    }
  }

  /** Whoever was served earlier keeps its mount. */
  lemma ServeKeeps(f: Facts, before: map<Id, Id>, m: map<Id, Id>, m': map<Id, Id>, steeds: seq<Id>, free: seq<Id>,
                   riders: seq<Id>, n: nat, best: Maybe)
    requires Lists(f, before, steeds, riders) && n < |riders| && Serving(f, before, m, steeds, free, riders, n)
    requires Took(f, m, m', riders[n], best) && Choice(f, free, riders[n], best)
    ensures forall i :: 0 <= i < n ==> Partner(f, m', riders[i]) == Partner(f, m, riders[i])
  {
  }

  /** The second part: nobody served so far could have a stronger mount. */
  lemma ServeWell(f: Facts, before: map<Id, Id>, m: map<Id, Id>, m': map<Id, Id>, steeds: seq<Id>, free: seq<Id>,
                  riders: seq<Id>, n: nat, best: Maybe)
    requires Lists(f, before, steeds, riders) && n < |riders| && Serving(f, before, m, steeds, free, riders, n)
    requires Took(f, m, m', riders[n], best) && Choice(f, free, riders[n], best)
    ensures forall i :: 0 <= i <= n ==> Served(f, m', Without(free, best), riders[i]) && Rightful(f, m', steeds, riders[i])
  {
    hide Matching, Partner, NoEnvy, Sorted;
    ServeKeeps(f, before, m, m', steeds, free, riders, n, best);
    forall i | 0 <= i < n
      ensures Served(f, m', Without(free, best), riders[i]) && Rightful(f, m', steeds, riders[i])
    {
      assert Served(f, m, free, riders[i]) && Rightful(f, m, steeds, riders[i]);
    }
  }

  /** The third part: nobody served earlier envies a later rider. */
  lemma ServeFair(f: Facts, before: map<Id, Id>, m: map<Id, Id>, m': map<Id, Id>, steeds: seq<Id>, free: seq<Id>,
                  riders: seq<Id>, n: nat, best: Maybe)
    requires Lists(f, before, steeds, riders) && n < |riders| && Serving(f, before, m, steeds, free, riders, n)
    requires Took(f, m, m', riders[n], best) && Choice(f, free, riders[n], best)
    ensures forall i, j :: 0 <= i < j <= n ==> NoEnvy(f, m', riders[i], riders[j])
  {
  }

  lemma ServeStep(f: Facts, before: map<Id, Id>, m: map<Id, Id>, steeds: seq<Id>, free: seq<Id>, riders: seq<Id>, n: nat,
                  best: Maybe)
    requires Lists(f, before, steeds, riders) && n < |riders| && Serving(f, before, m, steeds, free, riders, n)
    requires Choice(f, free, riders[n], best)
    ensures Serving(f, before, if best.Ref? then Assigned(f, m, Ref(riders[n]), best) else m, steeds,
                    Without(free, best), riders, n + 1)
  {
    hide Choice, Took, Served, Rightful, NoEnvy, Matching, Assigned;
    var c := riders[n];
    assert c in riders;
    var m' := if best.Ref? then Assigned(f, m, Ref(c), best) else m;
    assert Took(f, m, m', c, best) by { TookIs(f, m, free, c, best); }
    assert Matching(f, m') by { hide *; TookMatching(f, m, m', c, best); }
    ServeLists(f, before, m, m', steeds, free, riders, n, best);
    ServeWell(f, before, m, m', steeds, free, riders, n, best);
    ServeFair(f, before, m, m', steeds, free, riders, n, best);
  }

  lemma TookMatching(f: Facts, m: map<Id, Id>, m': map<Id, Id>, c: Id, best: Maybe)
    requires Took(f, m, m', c, best)
    ensures Matching(f, m')
  {
  }

  /** A rider that may have a mount, and lost the one it had or had none. */
  predicate Needs(f: Facts, was: map<Id, Id>, creatures: seq<Id>, c: Id) {
    c in creatures && c in f.riders && c in f.allowed && !Keeps(f, was, creatures, c)
  }

  /** Whoever has a partner keeps it, if neither of the two is banned. */
  predicate Keeps(f: Facts, was: map<Id, Id>, creatures: seq<Id>, c: Id) {
    Partner(f, was, c).Ref? && Tolerated(f, was, creatures, c)
  }

  /** The rider may take this mount. */
  predicate Pair(f: Facts, was: map<Id, Id>, creatures: seq<Id>, rider: Id, mount: Id) {
    && Needs(f, was, creatures, rider)
    && (Ref(mount) == f.Companion(rider)
        || (mount in creatures && mount in f.steeds && !Keeps(f, was, creatures, mount) && f.fits(rider, mount)))
  }

  /** The result of the distribution, said of the assignments before and after. */
  ghost predicate Fair(f: Facts, was: map<Id, Id>, m: map<Id, Id>, creatures: seq<Id>) {
    && Matching(f, m)
    && (forall c :: Keeps(f, was, creatures, c) ==> Partner(f, m, c) == Partner(f, was, c))
    && (forall c :: !Keeps(f, was, creatures, c) && Partner(f, m, c).Ref? ==>
          Pair(f, was, creatures, c, Partner(f, m, c).id) || Pair(f, was, creatures, Partner(f, m, c).id, c))
    && (forall c, s :: Needs(f, was, creatures, c) && s in creatures && Free(f, m, s) && f.fits(c, s) ==>
          AtLeast(f, m, c, f.attack(s)))
    && (forall c :: Needs(f, was, creatures, c) && c in f.companion ==> AtLeast(f, m, c, f.attack(f.companion[c])))
    && (forall p, q :: Needs(f, was, creatures, p) && Needs(f, was, creatures, q) ==>
          (p in f.leaders && q !in f.leaders) || ((p in f.leaders <==> q in f.leaders) && f.attack(p) > f.attack(q)) ==>
            NoEnvy(f, m, p, q))
  }

  /** What the two lists are, said of the assignment before the riders and steeds without one were set apart. */
  ghost predicate ListsAre(f: Facts, was: map<Id, Id>, creatures: seq<Id>, steeds: seq<Id>, riders: seq<Id>) {
    && (forall c :: c in steeds <==> c in creatures && c in f.steeds && !Keeps(f, was, creatures, c))
    && (forall c :: c in riders <==> Needs(f, was, creatures, c))
  }

  /** Who is new on a mount, or new under a rider, is rightly so. */
  lemma NewPairs(f: Facts, was: map<Id, Id>, before: map<Id, Id>, m: map<Id, Id>, creatures: seq<Id>, steeds: seq<Id>,
                 free: seq<Id>, riders: seq<Id>, c: Id)
    requires Lists(f, before, steeds, riders) && Serving(f, before, m, steeds, free, riders, |riders|)
    requires ListsAre(f, was, creatures, steeds, riders)
    requires Partner(f, before, c).Null? && Partner(f, m, c).Ref?
    ensures Pair(f, was, creatures, c, Partner(f, m, c).id) || Pair(f, was, creatures, Partner(f, m, c).id, c)
  {
    hide Served, Needs, Keeps, NoEnvy, Sorted;
    if c in steeds {
      PartnersMutual(f, m, c);
      var d := Partner(f, m, c).id;
      var i :| 0 <= i < |riders| && riders[i] == d;
      assert Rightful(f, m, steeds, riders[i]);
    }
  }

  lemma ServedIsFair(f: Facts, was: map<Id, Id>, before: map<Id, Id>, m: map<Id, Id>, creatures: seq<Id>, steeds: seq<Id>,
                     free: seq<Id>, riders: seq<Id>)
    requires Lists(f, before, steeds, riders) && Serving(f, before, m, steeds, free, riders, |riders|)
    requires Sorted(riders, Outranks(f)) && ListsAre(f, was, creatures, steeds, riders)
    requires forall c :: Partner(f, before, c) == if Tolerated(f, was, creatures, c) then Partner(f, was, c) else Null
    ensures Fair(f, was, m, creatures)
  {
    forall c | !Keeps(f, was, creatures, c) && Partner(f, m, c).Ref?
      ensures Pair(f, was, creatures, c, Partner(f, m, c).id) || Pair(f, was, creatures, Partner(f, m, c).id, c)
    {
      NewPairs(f, was, before, m, creatures, steeds, free, riders, c);
    }
    hide Matching, Partner, NoEnvy, Pair, Tolerated;
  }

  class Collective {
    const facts: Facts
    var steedAssignments: map<Id, Id>

    ghost predicate Valid()
      reads this
    {
      Matching(facts, steedAssignments)
    }

    method GetSteedOrRider(minion: Id) returns (ret: Maybe)
      ensures ret == Partner(facts, steedAssignments, minion)
    {
      ret := if minion in steedAssignments then Ref(steedAssignments[minion]) else Null;
      if ret == Ref(minion) {
        ret := facts.Companion(minion);
      }
    }

    method SetPartner(c1: Id, c2: Maybe)
      modifies this`steedAssignments
      ensures steedAssignments == SetImpl(facts, old(steedAssignments), c1, c2)
    {
      var current := GetSteedOrRider(c1);
      if current.Ref? {
        steedAssignments := steedAssignments - {current.id};
      }
      if c2.Ref? {
        steedAssignments := steedAssignments[c1 := c2.id];
      } else {
        steedAssignments := steedAssignments - {c1};
      }
    }

    method SetSteed(rider: Maybe, steed: Maybe)
      requires steed.Ref? ==> rider.Ref?
      modifies this`steedAssignments
      ensures steedAssignments == Assigned(facts, old(steedAssignments), rider, steed)
    {
      var steed := steed;
      if steed.Ref? && steed == facts.Companion(rider.id) {
        steed := rider;
      }
      if rider.Ref? {
        SetPartner(rider.id, steed);
      }
      if steed.Ref? && steed != rider {
        SetPartner(steed.id, rider);
      }
    }

    /** The last free steed in the ascending list that fits, unless the companion is stronger. */
    method BestAvailable(c: Id, freeSteeds: seq<Id>) returns (best: Maybe)
      requires Sorted(freeSteeds, Weaker(facts))
      ensures Choice(facts, freeSteeds, c, best)
    {
      best := Null;
      var i := |freeSteeds|;
      while i > 0 && best.Null?
        invariant 0 <= i <= |freeSteeds|
        invariant best.Null? ==> forall j :: i <= j < |freeSteeds| ==> !facts.fits(c, freeSteeds[j])
        invariant best.Ref? ==> best.id in freeSteeds && facts.fits(c, best.id)
        invariant best.Ref? ==> forall j :: 0 <= j < |freeSteeds| && facts.fits(c, freeSteeds[j]) ==>
                                              facts.attack(freeSteeds[j]) <= facts.attack(best.id)
        decreases i
      {
        i := i - 1;
        if facts.fits(c, freeSteeds[i]) {
          best := Ref(freeSteeds[i]);
          assert forall j :: 0 <= j < i ==> !Weaker(facts)(freeSteeds[i], freeSteeds[j]);
        }
      }
      var companion := facts.Companion(c);
      if companion.Ref? && (best.Null? || facts.attack(companion.id) > facts.attack(best.id)) {
        best := companion;
      }
    }

    /** The loop over the creatures that may not have a mount. */
    method Expel(creatures: seq<Id>)
      modifies this`steedAssignments
      ensures steedAssignments == Expelled(facts, old(steedAssignments), creatures)
    {
      hide Assigned;
      for n := 0 to |creatures|
        invariant steedAssignments == Expelled(facts, old(steedAssignments), creatures[..n])
      {
        if creatures[n] !in facts.allowed {
          SetSteed(Ref(creatures[n]), Null);
        }
        assert creatures[..n + 1][..n] == creatures[..n];
      }
      assert creatures[..|creatures|] == creatures;
    }

    /** The loop over the waiting riders, from the highest rank down. */
    method Serve(steeds: seq<Id>, minions: seq<Id>) returns (freeSteeds: seq<Id>)
      requires Lists(facts, steedAssignments, steeds, minions)
      requires Serving(facts, steedAssignments, steedAssignments, steeds, steeds, minions, 0)
      modifies this`steedAssignments
      ensures Serving(facts, old(steedAssignments), steedAssignments, steeds, freeSteeds, minions, |minions|)
    {
      hide *;
      freeSteeds := steeds;
      for n := 0 to |minions|
        invariant Serving(facts, old(steedAssignments), steedAssignments, steeds, freeSteeds, minions, n)
      {
        ServingMeans(facts, old(steedAssignments), steedAssignments, steeds, freeSteeds, minions, n);
        var steed := GetSteedOrRider(minions[n]);
        var best := BestAvailable(minions[n], freeSteeds);
        ServeStep(facts, old(steedAssignments), steedAssignments, steeds, freeSteeds, minions, n, best);
        if best.Ref? && Better(facts, steed, best.id) {
          SetSteed(Ref(minions[n]), best);
          freeSteeds := Without(freeSteeds, best);
        }
        WithoutNull(freeSteeds);
        NothingIsWorse(facts, best);
      }
    }

    /** The two sorted orders stand for the results of the two sorts: any order that the comparison allows. */
    method AutoAssignSteeds(creatures: seq<Id>, ascending: seq<Id>, ranked: seq<Id>)
      requires Valid() && facts.steeds !! facts.riders
      requires forall c :: c in creatures ==> Member(facts, c)
      requires forall c :: c in creatures <==> c in ascending
      requires forall c :: c in creatures <==> c in ranked
      requires Distinct(ranked) && Sorted(ascending, Weaker(facts)) && Sorted(ranked, Outranks(facts))
      modifies this`steedAssignments
      ensures Valid()
      ensures Fair(facts, old(steedAssignments), steedAssignments, creatures)
    {
      hide Assigned, Matching, Partner, Member, Free, Waiting, Expelled, Fair, Serving, Tolerated, Keeps, Needs, Sorted;
      Expel(creatures);
      ghost var before := steedAssignments;
      ExpelledMatches(facts, old(steedAssignments), creatures);
      var m := steedAssignments;
      var f := facts;
      var freeSteeds := Filtered(ascending, (c: Id) => Free(f, m, c));
      var minions := Filtered(ranked, (c: Id) => Waiting(f, m, c));
      ghost var steeds := freeSteeds;
      FilteredSorted(ascending, (c: Id) => Free(f, m, c), Weaker(f));
      FilteredSorted(ranked, (c: Id) => Waiting(f, m, c), Outranks(f));
      FilteredDistinct(ranked, (c: Id) => Waiting(f, m, c));
      StartServing(f, before, steeds, minions);
      freeSteeds := Serve(freeSteeds, minions);
      ListsFrom(f, old(steedAssignments), before, creatures, steeds, minions);
      ServedIsFair(f, old(steedAssignments), before, steedAssignments, creatures, steeds, freeSteeds, minions);
      FairMatching(f, old(steedAssignments), steedAssignments, creatures);
    }
  }

  lemma ServingMeans(f: Facts, before: map<Id, Id>, m: map<Id, Id>, steeds: seq<Id>, free: seq<Id>, riders: seq<Id>, n: nat)
    requires n < |riders| && Serving(f, before, m, steeds, free, riders, n)
    ensures Sorted(free, Weaker(f)) && Partner(f, m, riders[n]).Null?
  {
  }

  lemma ListsFrom(f: Facts, was: map<Id, Id>, before: map<Id, Id>, creatures: seq<Id>, steeds: seq<Id>, riders: seq<Id>)
    requires forall c :: Partner(f, before, c) == if Tolerated(f, was, creatures, c) then Partner(f, was, c) else Null
    requires forall c :: c in steeds <==> c in creatures && Free(f, before, c)
    requires forall c :: c in riders <==> c in creatures && Waiting(f, before, c)
    ensures ListsAre(f, was, creatures, steeds, riders)
  {
  }

  lemma FairMatching(f: Facts, was: map<Id, Id>, m: map<Id, Id>, creatures: seq<Id>)
    requires Fair(f, was, m, creatures)
    ensures Matching(f, m)
  {
  }

  lemma {:induction false} WithoutNull(s: seq<Id>)
    ensures Without(s, Null) == s
  {
    if s != [] { WithoutNull(s[1..]); }
  }

  lemma NothingIsWorse(f: Facts, best: Maybe)
    ensures best.Ref? ==> Better(f, Null, best.id)
  {
  }

  predicate Better(f: Facts, steed: Maybe, best: Id) {
    steed.Null? || f.attack(steed.id) < f.attack(best)
  }

  lemma StartServing(f: Facts, before: map<Id, Id>, steeds: seq<Id>, riders: seq<Id>)
    requires Matching(f, before) && Lists(f, before, steeds, riders) && Sorted(steeds, Weaker(f))
    ensures Serving(f, before, before, steeds, steeds, riders, 0)
  {
    hide Matching, Partner;
    assert forall i :: 0 <= i < |riders| ==> riders[i] in riders;
  }
}
