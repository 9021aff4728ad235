/** Progress of the dungeon level: reals stand for the doubles. */
module DungeonProgress {

  datatype Progress = Progress(level: nat, progress: real)

  function NecessaryProgress(level: nat): nat {
    2 * level + 1
  }

  predicate Proper(p: Progress) {
    0.0 <= p.progress < 1.0
  }

  // ----- products, kept apart from the rest of the reasoning

  /** The fraction x of n. */
  function Part(x: real, n: nat): real {
    x * n as real
  }

  /** The fraction of n that the amount makes up. */
  function Share(amount: real, n: nat): real
    requires n > 0
  {
    amount / n as real
  }

  lemma PartLess(x: real, y: real, n: nat)
    requires x < y && n > 0
    ensures Part(x, n) < Part(y, n)
  {
  }

  lemma PartBounds(n: nat)
    ensures Part(0.0, n) == 0.0 && Part(1.0, n) == n as real
  {
  }

  lemma PartSum(x: real, y: real, n: nat)
    ensures Part(x + y, n) == Part(x, n) + Part(y, n)
  {
  }

  lemma PartOfShare(amount: real, n: nat)
    requires n > 0
    ensures Part(Share(amount, n), n) == amount
  {
  }

  lemma ShareOrder(amount: real, n: nat)
    requires n > 0 && amount >= 0.0
    ensures Share(amount, n) >= 0.0
  {
    PartOfShare(amount, n);
    PartBounds(n);
    if Share(amount, n) < 0.0 { PartLess(Share(amount, n), 0.0, n); }
  }

  /** A proper fraction of n is at least 0 and less than n. */
  lemma PartProper(x: real, n: nat)
    requires 0.0 <= x < 1.0 && n > 0
    ensures 0.0 <= Part(x, n) < n as real
  {
    PartBounds(n);
    PartLess(x, 1.0, n);
    hide Part;
    if x > 0.0 { PartLess(0.0, x, n); }
  }

  // ----- what was gained

  /** The progress that all levels before this one took. */
  function Sum(level: nat): nat {
    if level == 0 then 0 else Sum(level - 1) + NecessaryProgress(level - 1)
  }

  lemma SquareNext(n: nat)
    ensures (n + 1) * (n + 1) == n * n + NecessaryProgress(n)
  {
  }

  /** The levels before are worth the square of their number. */
  lemma {:induction false} LevelsAreSquares(level: nat)
    ensures Sum(level) == level * level
  {
    if level > 0 {
      LevelsAreSquares(level - 1);
      SquareNext(level - 1);
    }
  }

  lemma {:induction false} SumMono(a: nat, b: nat)
    requires a <= b
    ensures Sum(a) <= Sum(b)
    decreases b - a
  {
    if a < b { SumMono(a, b - 1); }
  }

  /** Everything that was ever gained: full levels, and the part of the current one. */
  function Gained(p: Progress): real {
    Sum(p.level) as real + Part(p.progress, NecessaryProgress(p.level))
  }

  /** What was gained is at least the square of the level, and less than the square of the next. */
  lemma GainedRange(p: Progress)
    requires Proper(p)
    ensures Sum(p.level) as real <= Gained(p) < Sum(p.level + 1) as real
    ensures Sum(p.level) == p.level * p.level && Sum(p.level + 1) == (p.level + 1) * (p.level + 1)
  {
    LevelsAreSquares(p.level);
    LevelsAreSquares(p.level + 1);
    GainedBetween(p);
  }

  lemma GainedBetween(p: Progress)
    requires Proper(p)
    ensures Sum(p.level) as real <= Gained(p) < Sum(p.level + 1) as real
  {
    hide Part;
    PartProper(p.progress, NecessaryProgress(p.level));
  }

  /** What was gained determines the level and the progress. */
  lemma GainedUnique(p: Progress, q: Progress)
    requires Proper(p) && Proper(q) && Gained(p) == Gained(q)
    ensures p == q
  {
    hide Part;
    GainedBetween(p);
    GainedBetween(q);
    if p.level < q.level { SumMono(p.level + 1, q.level); }
    if q.level < p.level { SumMono(q.level + 1, p.level); }
    var n := NecessaryProgress(p.level);
    if p.progress < q.progress { PartLess(p.progress, q.progress, n); }
    if q.progress < p.progress { PartLess(q.progress, p.progress, n); }
  }

  // ----- adding progress

  /** The part of a level that the amount fills. */
  function Relative(p: Progress, amount: real): real {
    var share := Share(amount, NecessaryProgress(p.level));
    if 1.0 - p.progress < share then 1.0 - p.progress else share
  }

  function Rest(p: Progress, amount: real): real {
    amount - Part(Relative(p, amount), NecessaryProgress(p.level))
  }

  /** At most so many levels can be gained: each needs at least 1. */
  function Steps(p: Progress, amount: real): nat
    requires Proper(p) && amount >= 0.0
  {
    PartProper(p.progress, NecessaryProgress(p.level));
    (amount + Part(p.progress, NecessaryProgress(p.level))).Floor
  }

  /** Either the amount fills up the level, and the rest goes on, or nothing is left. */
  lemma FillsUp(p: Progress, amount: real)
    requires Proper(p) && amount >= 0.0
    ensures var progress := p.progress + Relative(p, amount);
            if progress >= 1.0 then progress == 1.0 && Rest(p, amount) >= 0.0
            else Proper(Progress(p.level, progress)) && Rest(p, amount) == 0.0
  {
    hide Part, Share;
    var n := NecessaryProgress(p.level);
    PartOfShare(amount, n);
    ShareOrder(amount, n);
    if 1.0 - p.progress < Share(amount, n) { PartLess(1.0 - p.progress, Share(amount, n), n); }
  }

  /** Nothing is gained or lost on the way to the next level, and a level less can be gained from there. */
  lemma AddStep(p: Progress, amount: real)
    requires Proper(p) && amount >= 0.0
    ensures var progress := p.progress + Relative(p, amount); var next := Progress(p.level + 1, 0.0);
            if progress >= 1.0 then
              && progress == 1.0 && Rest(p, amount) >= 0.0
              && Gained(next) + Rest(p, amount) == Gained(p) + amount && Steps(next, Rest(p, amount)) < Steps(p, amount)
            else
              && Proper(Progress(p.level, progress)) && Rest(p, amount) == 0.0
              && Gained(Progress(p.level, progress)) == Gained(p) + amount
  {
    FillsUp(p, amount);
    var relative, n := Relative(p, amount), NecessaryProgress(p.level);
    PartSum(p.progress, relative, n);
    PartBounds(n);
    PartBounds(NecessaryProgress(p.level + 1));
    hide Part, Relative;
    if p.progress + relative >= 1.0 {
      FloorLess(Rest(p, amount), amount + Part(p.progress, n));
    }
  }

  lemma FloorLess(a: real, b: real)
    requires a + 1.0 <= b
    ensures a.Floor < b.Floor
  {
  }

  /** In exact arithmetic something is left only when the level fills up, so the second test never decides. */
  function Added(p: Progress, amount: real): (r: Progress)
    requires Proper(p) && amount >= 0.0
    ensures Proper(r) && Gained(r) == Gained(p) + amount
    decreases Steps(p, amount)
  {
    hide Steps, Relative, Rest, Gained;
    AddStep(p, amount);
    var progress := p.progress + Relative(p, amount);
    if progress >= 1.0 || Rest(p, amount) > 0.0001 then Added(Progress(p.level + 1, 0.0), Rest(p, amount))
    else Progress(p.level, progress)
  }

  /** However an amount is split into calls, the result is the same. */
  lemma AddSplit(p: Progress, a: real, b: real)
    requires Proper(p) && a >= 0.0 && b >= 0.0
    ensures Added(Added(p, a), b) == Added(p, a + b)
  {
    hide Gained, Proper;
    GainedUnique(Added(Added(p, a), b), Added(p, a + b));
  }

  /** The level reached from nothing is the largest whose square is not more than the amount. */
  lemma LevelReached(amount: real)
    requires amount >= 0.0
    ensures var level := Added(Progress(0, 0.0), amount).level;
            (level * level) as real <= amount < ((level + 1) * (level + 1)) as real
  {
    GainedRange(Added(Progress(0, 0.0), amount));
    NothingGained();
    hide Gained, Added, Sum;
  }

  lemma NothingGained()
    ensures Gained(Progress(0, 0.0)) == 0.0
  {
    PartBounds(NecessaryProgress(0));
  }

  class DungeonLevel {
    var level: nat
    var progress: real

    constructor ()
      ensures level == 0 && progress == 0.0
    {
      level, progress := 0, 0.0;
    }

    function St(): Progress
      reads this
    {
      Progress(level, progress)
    }

    /** A defeated wave gives a whole level, but takes the progress towards it. */
    method IncreaseLevel()
      modifies this
      ensures St() == Progress(old(level) + 1, 0.0)
    {
      level := level + 1;
      progress := 0.0;
    }

    method AddAbsoluteProgress(amount: real)
      requires Proper(St()) && amount >= 0.0
      modifies this
      ensures St() == Added(old(St()), amount)
      decreases Steps(St(), amount)
    {
      hide Steps, Gained;
      ghost var p := St();
      AddStep(p, amount);
      var n := NecessaryProgress(level);
      var relative := Share(amount, n);
      relative := if 1.0 - progress < relative then 1.0 - progress else relative;
      progress := progress + relative;
      var rest := amount - Part(relative, n);
      hide Share, Part;
      if progress >= 1.0 || rest > 0.0001 {
        IncreaseLevel();
        AddAbsoluteProgress(rest);
      }
    }
  }
}
