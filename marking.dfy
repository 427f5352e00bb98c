// Required-resource marking along a level path (generateRequiredResources):
// one step counter per resource, and a probability of marking the sector that
// ramps linearly from 0 at floor(maxSteps/2) steps to 1 at maxSteps steps.

module Marking {
  import opened WorldModel

  /** Math.floor(maxSteps / 2) for the integer step limits. */
  function MinSteps(maxSteps: int): int {
    maxSteps / 2
  }

  /** requireResource for the draw `r`: never when floor(maxSteps/2) < 2,
      otherwise when the draw falls under (steps - minSteps) / (maxSteps - minSteps). */
  function RequireResource(steps: int, maxSteps: int, r: real): (b: bool)
    ensures MinSteps(maxSteps) < 2 ==> !b
    ensures IsDraw(r) && steps <= MinSteps(maxSteps) ==> !b
    ensures IsDraw(r) && MinSteps(maxSteps) >= 2 && steps >= maxSteps ==> b
  {
    var minSteps := MinSteps(maxSteps);
    if minSteps < 2 then false
    else
      RatioReachesOne((steps - minSteps) as real, (maxSteps - minSteps) as real);
      r < (steps - minSteps) as real / (maxSteps - minSteps) as real
  }

  lemma RatioReachesOne(a: real, b: real)
    requires 0.0 < b
    ensures b <= a ==> a / b >= 1.0
  {
    if b <= a {
      assert a / b * b == a;
    }
  }

  /** The bag bonus of the level decides both limits (lines 418-420). */
  function MaxStepsWater(bagSize: int): int {
    ((bagSize as real) / 2.0).Floor
  }

  function MaxStepsFood(bagSize: int): int {
    ((bagSize as real) / 2.0 * 0.75).Floor
  }

  /** The food limit never exceeds the water limit for a non-negative bag. */
  lemma FoodLimitBelowWater(bagSize: int)
    requires bagSize >= 0
    ensures 0 <= MaxStepsFood(bagSize) <= MaxStepsWater(bagSize)
  {
    var h := (bagSize as real) / 2.0;
    assert h * 0.75 <= h;
  }

  predicate AllDraws(draws: seq<real>) {
    forall i :: 0 <= i < |draws| ==> IsDraw(draws[i])
  }

  /** The counter before the sector at index `n`: it starts at 0, a marked sector
      sets it to -1 before the common increment, every other sector adds 1. */
  function Counter(maxSteps: int, draws: seq<real>, n: nat): int
    requires n <= |draws|
  {
    if n == 0 then 0
    else
      var c := Counter(maxSteps, draws, n - 1);
      if RequireResource(c, maxSteps, draws[n - 1]) then 0 else c + 1
  }

  /** Whether the sector at index `i` of the path is marked. */
  predicate Marked(maxSteps: int, draws: seq<real>, i: nat)
    requires i < |draws|
  {
    RequireResource(Counter(maxSteps, draws, i), maxSteps, draws[i])
  }

  /** With floor(maxSteps/2) < 2 nothing is ever marked and the counter only counts. */
  lemma {:induction false} NoMarksForShortLimits(maxSteps: int, draws: seq<real>, n: nat)
    requires MinSteps(maxSteps) < 2 && n <= |draws|
    ensures Counter(maxSteps, draws, n) == n
    ensures forall i :: 0 <= i < n ==> !Marked(maxSteps, draws, i)
  {
    if n > 0 {
      NoMarksForShortLimits(maxSteps, draws, n - 1);
    }
  }

  /** The counter stays within [0, maxSteps]: reaching the limit forces a mark. */
  lemma {:induction false} CounterBounded(maxSteps: int, draws: seq<real>, n: nat)
    requires AllDraws(draws) && MinSteps(maxSteps) >= 2 && n <= |draws|
    ensures 0 <= Counter(maxSteps, draws, n) <= maxSteps
  {
    if n > 0 {
      CounterBounded(maxSteps, draws, n - 1);
    }
  }

  /** After a mark the counter restarts: the k-th sector after it sees k - 1
      steps, and no sector within floor(maxSteps/2) + 1 of the mark is marked. */
  lemma {:induction false} QuietAfterMark(maxSteps: int, draws: seq<real>, i: nat, k: nat)
    requires AllDraws(draws) && i < |draws| && Marked(maxSteps, draws, i)
    requires 1 <= k <= MinSteps(maxSteps) + 1 && i + k < |draws|
    ensures Counter(maxSteps, draws, i + k) == k - 1
    ensures !Marked(maxSteps, draws, i + k)
  {
    if k > 1 {
      QuietAfterMark(maxSteps, draws, i, k - 1);
    }
  }

  /** Without a mark in between the counter grows by one per sector. */
  lemma {:induction false} CounterGrows(maxSteps: int, draws: seq<real>, i: nat, k: nat)
    requires i + k <= |draws|
    requires forall j :: i <= j < i + k ==> !Marked(maxSteps, draws, j)
    ensures Counter(maxSteps, draws, i + k) == Counter(maxSteps, draws, i) + k
  {
    if k > 0 {
      CounterGrows(maxSteps, draws, i, k - 1);
      assert !Marked(maxSteps, draws, i + k - 1);
    }
  }

  /** Any maxSteps + 1 consecutive sectors of a path contain a marked one. */
  lemma MarkWithinLimit(maxSteps: int, draws: seq<real>, i: nat)
    requires AllDraws(draws) && MinSteps(maxSteps) >= 2 && i + maxSteps < |draws|
    ensures exists j :: i <= j <= i + maxSteps && Marked(maxSteps, draws, j)
  {
    if forall j :: i <= j < i + maxSteps ==> !Marked(maxSteps, draws, j) {
      CounterGrows(maxSteps, draws, i, maxSteps);
      CounterBounded(maxSteps, draws, i);
      assert Marked(maxSteps, draws, i + maxSteps);
    }
  }

  /** Some position of the path among the first `n` maps to `s` and is marked. */
  ghost predicate MarkedSector(level: Level, path: seq<Position>, maxSteps: int, draws: seq<real>, s: Sector, n: nat)
    requires OnGrid(level, path) && n <= |path| == |draws|
  {
    exists i :: 0 <= i < n && SectorAt(level, path[i]) == s && Marked(maxSteps, draws, i)
  }

  /** generateRequiredResources over one path; `waterDraws[i]` and `foodDraws[i]`
      are the draws requireResource makes at index i.  Flags are only ever set,
      and a sector ends up flagged exactly when it was before or some marked
      position of the path lies on it. */
  method GenerateRequiredResources(level: Level, path: seq<Position>, bagSize: int,
                                   waterDraws: seq<real>, foodDraws: seq<real>)
    requires OnGrid(level, path) && |waterDraws| == |path| && |foodDraws| == |path|
    requires level.Valid()
    modifies level.SectorSet()`requiredWater, level.SectorSet()`requiredFood
    ensures forall s :: s in level.sectors ==>
              (s.requiredWater <==>
                old(s.requiredWater) || MarkedSector(level, path, MaxStepsWater(bagSize), waterDraws, s, |path|))
    ensures forall s :: s in level.sectors ==>
              (s.requiredFood <==>
                old(s.requiredFood) || MarkedSector(level, path, MaxStepsFood(bagSize), foodDraws, s, |path|))
  {
    var maxStepsWater := MaxStepsWater(bagSize);
    var maxStepsFood := MaxStepsFood(bagSize);
    var stepsWater := 0;
    var stepsFood := 0;
    var i := 0;
    while i < |path|
      invariant 0 <= i <= |path|
      invariant stepsWater == Counter(maxStepsWater, waterDraws, i)
      invariant stepsFood == Counter(maxStepsFood, foodDraws, i)
      invariant forall s :: s in level.sectors ==>
                  (s.requiredWater <==> old(s.requiredWater) || MarkedSector(level, path, maxStepsWater, waterDraws, s, i))
      invariant forall s :: s in level.sectors ==>
                  (s.requiredFood <==> old(s.requiredFood) || MarkedSector(level, path, maxStepsFood, foodDraws, s, i))
    {
      var sector := SectorAt(level, path[i]);
      if RequireResource(stepsWater, maxStepsWater, waterDraws[i]) {
        sector.requiredWater := true;
        stepsWater := -1;
      }
      if RequireResource(stepsFood, maxStepsFood, foodDraws[i]) {
        sector.requiredFood := true;
        stepsFood := -1;
      }
      stepsWater := stepsWater + 1;
      stepsFood := stepsFood + 1;
      MarkedSectorStep(level, path, maxStepsWater, waterDraws, i);
      MarkedSectorStep(level, path, maxStepsFood, foodDraws, i);
      i := i + 1;
    }
  }

  /** Extending the scanned prefix by one position adds exactly that position's mark. */
  lemma MarkedSectorStep(level: Level, path: seq<Position>, maxSteps: int, draws: seq<real>, i: nat)
    requires OnGrid(level, path) && i < |path| == |draws|
    ensures forall s :: MarkedSector(level, path, maxSteps, draws, s, i + 1) <==>
              MarkedSector(level, path, maxSteps, draws, s, i) || (SectorAt(level, path[i]) == s && Marked(maxSteps, draws, i))
  {
    forall s
      ensures MarkedSector(level, path, maxSteps, draws, s, i + 1) <==>
              MarkedSector(level, path, maxSteps, draws, s, i) || (SectorAt(level, path[i]) == s && Marked(maxSteps, draws, i))
    {
      if MarkedSector(level, path, maxSteps, draws, s, i + 1) {
        var j :| 0 <= j < i + 1 && SectorAt(level, path[j]) == s && Marked(maxSteps, draws, j);
        if j < i {
          assert MarkedSector(level, path, maxSteps, draws, s, i);
        }
      }
      if MarkedSector(level, path, maxSteps, draws, s, i) {
        var j :| 0 <= j < i && SectorAt(level, path[j]) == s && Marked(maxSteps, draws, j);
        assert MarkedSector(level, path, maxSteps, draws, s, i + 1);
      }
      if SectorAt(level, path[i]) == s && Marked(maxSteps, draws, i) {
        assert MarkedSector(level, path, maxSteps, draws, s, i + 1);
      }
    }
  }
}
