// Movement blockers (generateMovementBlockers, addMovementBlocker,
// getLevelBlockerTypes): which blocker types a level draws from, where a
// blocker between two points of a path goes, how many random blockers a level
// gets, and the placement itself, which refuses some sector pairs, writes the
// blocker on both sides of the edge and repeats itself once on the edges next
// to it so that the player cannot walk around it.

module Blockers {
  import opened WorldModel

  // ---------------------------------------------------------------------
  // Blocker types
  // ---------------------------------------------------------------------

  /** getLevelBlockerTypes: debris twice from the second level ordinal on, a gap
      from camp ordinal 5, toxic waste from camp ordinal 7, radioactive waste on
      radiated levels from level 14 down; never a gang. */
  function LevelBlockerTypes(level: Level): (r: seq<BlockerType>)
    ensures multiset(r)[Debris] == (if level.levelOrdinal > 1 then 2 else 0)
    ensures multiset(r)[Gap] == (if level.campOrdinal >= 5 then 1 else 0)
    ensures multiset(r)[WasteToxic] == (if level.campOrdinal >= 7 then 1 else 0)
    ensures multiset(r)[WasteRadioactive]
            == (if level.level >= 14 && level.notCampableReason == Some(Radiation) then 1 else 0)
    ensures multiset(r)[Gang] == 0
  {
    (if level.levelOrdinal > 1 then [Debris, Debris] else [])
    + (if level.campOrdinal >= 5 then [Gap] else [])
    + (if level.campOrdinal >= 7 then [WasteToxic] else [])
    + (if level.level >= 14 && level.notCampableReason == Some(Radiation) then [WasteRadioactive] else [])
  }

  /** A toxic-waste level also has gaps, and from the second level ordinal on
      debris is drawn twice as often as any other type. */
  lemma DebrisDoubleWeighted(level: Level, t: BlockerType)
    requires level.levelOrdinal > 1 && t != Debris
    ensures multiset(LevelBlockerTypes(level))[t] * 2 <= multiset(LevelBlockerTypes(level))[Debris]
    ensures WasteToxic in LevelBlockerTypes(level) ==> Gap in LevelBlockerTypes(level)
  {
    var r := LevelBlockerTypes(level);
    if t == Gang {
      assert t !in multiset(r);
    }
  }

  /** getBlockerType: the draw picks an index when there is a choice; a single
      type is taken as it is. */
  function PickBlockerType(types: seq<BlockerType>, k: int): (r: BlockerType)
    requires |types| >= 1
    requires |types| > 1 ==> 0 <= k < |types|
    ensures r in types
    ensures |types| == 1 ==> r == types[0]
  {
    if |types| > 1 then types[k] else types[0]
  }

  // ---------------------------------------------------------------------
  // Counts per level
  // ---------------------------------------------------------------------

  /** How many blockers are tried between each pair of passages: 5 on level 14
      and on uncampable levels of camp ordinal 7, none elsewhere. */
  function NumBetweenPassages(l: int, isCampable: bool, campOrdinal: int): (r: int)
    ensures r == 0 || r == 5
    ensures r == 5 <==> l == 14 || (!isCampable && campOrdinal == 7)
  {
    var n := if l == 14 then 5 else 0;
    if !isCampable && campOrdinal == 7 then 5 else n
  }

  /** How many random blockers a level asks for: 8 on the top level, 4 just below
      it, 2 on level 14 and 1 elsewhere. */
  function NumRandom(l: int, top: int): (r: int)
    ensures 1 <= r <= 8
    ensures l == top ==> r == 8
    ensures l == top - 1 ==> r == 4
    ensures l == 14 && l != top && l != top - 1 ==> r == 2
    ensures l != 14 && l != top && l != top - 1 ==> r == 1
  {
    var n := 1;
    var n := if l == 14 then 2 else n;
    var n := if l == top - 1 then 4 else n;
    if l == top then 8 else n
  }

  /** Whether the i-th random blocker of level l repeats on the neighbouring edges.
      The source's `%` truncates, but only its zero test matters and that agrees
      with Dafny's for every sign. */
  predicate RandomBlockerHasDiagonals(l: int, i: int) {
    (l + i + 9) % 3 != 0
  }

  /** Of any three consecutive random blockers exactly one stays on its own edge. */
  lemma OneInThreeWithoutDiagonals(l: int, i: int)
    ensures !RandomBlockerHasDiagonals(l, i) || !RandomBlockerHasDiagonals(l, i + 1) || !RandomBlockerHasDiagonals(l, i + 2)
    ensures !RandomBlockerHasDiagonals(l, i) ==> RandomBlockerHasDiagonals(l, i + 1) && RandomBlockerHasDiagonals(l, i + 2)
  {
    var m := (l + i + 9) % 3;
    assert (l + i + 10) % 3 == (m + 1) % 3;
    assert (l + i + 11) % 3 == (m + 2) % 3;
  }

  /** A border pair of the passage-to-camp zone gets a blocker when both of its
      sectors lie more than 3 from the camp and the draw falls under 0.25. */
  predicate BorderBlockerWanted(distanceA: int, distanceB: int, draw: real) {
    (if distanceA <= distanceB then distanceA else distanceB) > 3 && draw < 0.25
  }

  lemma BorderBlockerFarFromCamp(distanceA: int, distanceB: int, draw: real)
    ensures BorderBlockerWanted(distanceA, distanceB, draw) <==> distanceA > 3 && distanceB > 3 && draw < 0.25
  {
  }

  // ---------------------------------------------------------------------
  // The split index of addBlockersBetween
  // ---------------------------------------------------------------------

  /** The bounds of the index draw for a path of `len` positions:
      min = round(len / 2), max = max(min, len - 2). */
  function SplitBounds(len: int): (b: (int, int))
    ensures b.0 <= b.1
  {
    var lo := Round(len as real / 2.0);
    (lo, if lo >= len - 2 then lo else len - 2)
  }

  /** round(len / 2) of a natural length is its upper half. */
  lemma SplitBoundsValues(len: nat)
    ensures SplitBounds(len).0 == (len + 1) / 2
    ensures SplitBounds(len).1 == if (len + 1) / 2 >= len - 2 then (len + 1) / 2 else len - 2
  {
    var h := (len + 1) / 2;
    if len % 2 == 0 {
      assert len as real / 2.0 + 0.5 == (h as real) + 0.5;
    } else {
      assert len as real / 2.0 + 0.5 == h as real;
    }
  }

  /** The sector index as written: the loop only stops for paths shorter than 3,
      and the blocker goes between path[index] and path[index + 1]. */
  function SplitIndexAsWritten(len: int, k: int): (r: int)
    requires len >= 3 && IsIntDraw(k, SplitBounds(len).0, SplitBounds(len).1)
    ensures r == k
  {
    k
  }

  /** For a path of 3 positions both bounds are 2, so the neighbour index 3 lies
      past the end of the path. */
  lemma SplitOutOfRangeAtLength3(k: int)
    requires IsIntDraw(k, SplitBounds(3).0, SplitBounds(3).1)
    ensures SplitIndexAsWritten(3, k) == 2
    ensures SplitIndexAsWritten(3, k) + 1 >= 3
  {
    SplitBoundsValues(3);
  }

  /** The corrected guard stops for paths shorter than 4; then both ends of the
      chosen edge lie on the path and the index is in its second half. */
  function SplitIndex(len: int, k: int): (r: int)
    requires len >= 4 && IsIntDraw(k, SplitBounds(len).0, SplitBounds(len).1)
    ensures 0 <= r && r + 1 < len
    ensures 2 * r >= len
  {
    SplitBoundsValues(len);
    k
  }

  /** The corrected guard keeps exactly the lengths the source can index: from 4
      on, every draw of the source's bounds names an edge of the path. */
  lemma SplitInRangeFrom4(len: int, k: int)
    requires len >= 4 && IsIntDraw(k, SplitBounds(len).0, SplitBounds(len).1)
    ensures SplitIndexAsWritten(len, k) == SplitIndex(len, k)
    ensures SplitIndexAsWritten(len, k) + 1 < len
  {
  }

  // ---------------------------------------------------------------------
  // addMovementBlocker
  // ---------------------------------------------------------------------

  /** The critical-path types a gang may block. */
  predicate GangAllowed(p: CriticalPathType) {
    p == PathCampToPoi1 || p == PathCampToPoi2 || p == PathCampToPassage
  }

  /** A path type of the sector that the neighbour shares and that neither the
      caller's list nor the gang rule lets the blocker cut. */
  predicate BlocksCriticalPath(sPaths: seq<CriticalPathType>, nPaths: seq<CriticalPathType>,
                               t: BlockerType, allowed: seq<CriticalPathType>) {
    exists i, j :: 0 <= i < |sPaths| && 0 <= j < |nPaths| && sPaths[i] == nPaths[j]
                   && sPaths[i] !in allowed && !(t == Gang && GangAllowed(sPaths[i]))
  }

  /** The critical-path loop of addMovementBlocker. */
  method SharesBlockedPath(sPaths: seq<CriticalPathType>, nPaths: seq<CriticalPathType>,
                           t: BlockerType, allowed: seq<CriticalPathType>)
    returns (blocked: bool)
    ensures blocked <==> BlocksCriticalPath(sPaths, nPaths, t, allowed)
  {
    var i := 0;
    while i < |sPaths|
      invariant 0 <= i <= |sPaths|
      invariant forall i', j :: 0 <= i' < i && 0 <= j < |nPaths| && sPaths[i'] == nPaths[j] ==>
                  sPaths[i'] in allowed || (t == Gang && GangAllowed(sPaths[i']))
    {
      var pathType := sPaths[i];
      if pathType !in allowed && !(t == Gang && GangAllowed(pathType)) {
        var j := 0;
        while j < |nPaths|
          invariant 0 <= j <= |nPaths|
          invariant forall j' :: 0 <= j' < j ==> pathType != nPaths[j']
        {
          if pathType == nPaths[j] {
            return true;
          }
          j := j + 1;
        }
      }
      i := i + 1;
    }
    return false;
  }

  /** A gang may always cross the camp's own critical paths. */
  lemma GangCrossesCampPaths(sPaths: seq<CriticalPathType>, nPaths: seq<CriticalPathType>, allowed: seq<CriticalPathType>)
    requires forall i :: 0 <= i < |sPaths| ==> GangAllowed(sPaths[i])
    ensures !BlocksCriticalPath(sPaths, nPaths, Gang, allowed)
  {
  }

  /** A blocker already on the edge, from either side: the first refusal of
      addMovementBlocker. */
  predicate HasBlocker(s: Sector, n: Sector)
    reads s`movementBlockers, n`movementBlockers
  {
    DirectionFrom(s.pos, n.pos) in s.movementBlockers || DirectionFrom(n.pos, s.pos) in n.movementBlockers
  }

  /** The refusals that do not look at blockers: a camp on either side, the
      passage-to-camp zone of a campable level on the sector's side, or a
      protected critical path.  The blocker pass writes none of their inputs. */
  predicate Protected(level: Level, s: Sector, n: Sector, t: BlockerType, allowed: seq<CriticalPathType>)
    reads s`zone, s`criticalPaths, n`criticalPaths
  {
    || s.camp || n.camp
    || (level.isCampable && s.zone == Some(PassageToCamp))
    || BlocksCriticalPath(s.criticalPaths, n.criticalPaths, t, allowed)
  }

  /** Why addMovementBlocker leaves a pair alone. */
  predicate Rejected(level: Level, s: Sector, n: Sector, t: BlockerType, allowed: seq<CriticalPathType>)
    reads s`movementBlockers, n`movementBlockers, s`zone, s`criticalPaths, n`criticalPaths
  {
    HasBlocker(s, n) || Protected(level, s, n, t, allowed)
  }

  /** Both ends of the edge carry a blocker of type t, each facing the other. */
  predicate BlockedWith(s: Sector, n: Sector, t: BlockerType)
    reads s`movementBlockers, n`movementBlockers
  {
    && DirectionFrom(s.pos, n.pos) in s.movementBlockers && s.movementBlockers[DirectionFrom(s.pos, n.pos)] == t
    && DirectionFrom(n.pos, s.pos) in n.movementBlockers && n.movementBlockers[DirectionFrom(n.pos, s.pos)] == t
  }

  /** What one addMovementBlocker call leaves on its edge, given whether it was
      refused: a protected edge is always refused, a refused edge is protected
      or already had a blocker, and an edge not refused is blocked on both
      sides with the call's type. */
  predicate EdgeOutcome(level: Level, s: Sector, n: Sector, t: BlockerType, allowed: seq<CriticalPathType>, refused: bool)
    reads s`movementBlockers, n`movementBlockers, s`zone, s`criticalPaths, n`criticalPaths
  {
    && (Protected(level, s, n, t, allowed) ==> refused)
    && (refused ==> Protected(level, s, n, t, allowed) || HasBlocker(s, n))
    && (!refused ==> BlockedWith(s, n, t))
  }

  /** Blockers are only ever added: existing ones stay and new ones are of type t. */
  predicate Grows(before: map<Direction, BlockerType>, after: map<Direction, BlockerType>, t: BlockerType) {
    && (forall d :: d in before ==> d in after && after[d] == before[d])
    && (forall d :: d in after && d !in before ==> after[d] == t)
  }

  lemma GrowsTransitive(a: map<Direction, BlockerType>, b: map<Direction, BlockerType>,
                        c: map<Direction, BlockerType>, t: BlockerType)
    requires Grows(a, b, t) && Grows(b, c, t)
    ensures Grows(a, c, t)
  {
  }

  /** EdgeOutcome for each edge from s to its next neighbours in turn, with
      refused[j] the verdict of the j-th call. */
  predicate DiagonalsOutcome(level: Level, s: Sector, next: seq<Sector>, t: BlockerType,
                             allowed: seq<CriticalPathType>, refused: seq<bool>)
    reads s, set x | x in next
  {
    |refused| == |next| && forall j :: 0 <= j < |next| ==> EdgeOutcome(level, s, next[j], t, allowed, refused[j])
  }

  /** One more call of the diagonal loop extends its outcome by one verdict. */
  lemma DiagonalsOutcomeSnoc(level: Level, s: Sector, next: seq<Sector>, j: int, t: BlockerType,
                             allowed: seq<CriticalPathType>, refused: seq<bool>, b: bool)
    requires 0 <= j < |next|
    requires DiagonalsOutcome(level, s, next[..j], t, allowed, refused)
    requires EdgeOutcome(level, s, next[j], t, allowed, b)
    ensures DiagonalsOutcome(level, s, next[..j + 1], t, allowed, refused + [b])
  {
    assert forall k :: 0 <= k < j ==> next[..j + 1][k] == next[..j][k];
  }

  /** How many of the tried edges got a blocker: the entries not refused. */
  function Placements(refused: seq<bool>): (r: nat)
    ensures r <= |refused|
  {
    if |refused| == 0 then 0
    else Placements(refused[..|refused| - 1]) + (if refused[|refused| - 1] then 0 else 1)
  }

  /** addMovementBlocker.  `sNext` and `nNext` are the level's next neighbours of
      the sector and of the neighbour in the blocker's direction (getNextNeighbours);
      they are only consulted when diagonals are added.  `placed` counts the
      blockers written, one resetPaths each; `sRefused` and `nRefused` record,
      for each diagonal, whether its own call refused it. */
  method AddMovementBlocker(world: World, level: Level, s: Sector, n: Sector, t: BlockerType,
                            addDiagonals: bool, allowed: seq<CriticalPathType>,
                            sNext: seq<Sector>, nNext: seq<Sector>)
    returns (placed: nat, ghost sRefused: seq<bool>, ghost nRefused: seq<bool>)
    requires s in level.sectors && n in level.sectors
    requires forall i :: 0 <= i < |sNext| ==> sNext[i] in level.sectors
    requires forall i :: 0 <= i < |nNext| ==> nNext[i] in level.sectors
    modifies level.SectorSet()`movementBlockers, world`pathCacheResets
    decreases if addDiagonals then 5 else 0
    ensures old(Rejected(level, s, n, t, allowed)) ==>
              placed == 0 && forall x :: x in level.sectors ==> x.movementBlockers == old(x.movementBlockers)
    ensures !old(Rejected(level, s, n, t, allowed)) ==> 1 <= placed && BlockedWith(s, n, t)
    ensures world.pathCacheResets == old(world.pathCacheResets) + placed
    ensures forall x :: x in level.sectors ==> Grows(old(x.movementBlockers), x.movementBlockers, t)
    ensures placed <= 1 + (if addDiagonals then |sNext| + |nNext| else 0)
    // only the edge's ends and, with diagonals, their next neighbours change
    ensures forall x :: x in level.sectors && x != s && x != n && (addDiagonals ==> x !in sNext && x !in nNext) ==>
              x.movementBlockers == old(x.movementBlockers)
    ensures !addDiagonals && !old(Rejected(level, s, n, t, allowed)) && s != n ==>
              && placed == 1
              && s.movementBlockers == old(s.movementBlockers)[DirectionFrom(s.pos, n.pos) := t]
              && n.movementBlockers == old(n.movementBlockers)[DirectionFrom(n.pos, s.pos) := t]
    // with diagonals, every next neighbour of either end was tried in its turn
    ensures addDiagonals && !old(Rejected(level, s, n, t, allowed)) ==>
              && placed == 1 + Placements(sRefused) + Placements(nRefused)
              && DiagonalsOutcome(level, s, sNext, t, allowed, sRefused)
              && DiagonalsOutcome(level, n, nNext, t, allowed, nRefused)
              && (forall j :: 0 <= j < |sNext| && old(HasBlocker(s, sNext[j])) ==> sRefused[j])
              && (forall j :: 0 <= j < |nNext| && old(HasBlocker(n, nNext[j])) ==> nRefused[j])
  {
    sRefused, nRefused := [], [];
    var rejected := CheckRejected(level, s, n, t, allowed);
    if rejected {
      return 0, sRefused, nRefused;
    }
    if addDiagonals {
      placed, sRefused, nRefused := PlaceWithDiagonals(world, level, s, n, t, allowed, sNext, nNext);
    } else {
      PlaceEdge(s, n, t);
      placed := 1;
    }
    world.pathCacheResets := world.pathCacheResets + 1;
  }

  /** The edge and then the two diagonal loops of addMovementBlocker: first the
      sector's next neighbours, then the neighbour's. */
  method PlaceWithDiagonals(world: World, level: Level, s: Sector, n: Sector, t: BlockerType,
                            allowed: seq<CriticalPathType>, sNext: seq<Sector>, nNext: seq<Sector>)
    returns (placed: nat, ghost sRefused: seq<bool>, ghost nRefused: seq<bool>)
    requires s in level.sectors && n in level.sectors
    requires forall i :: 0 <= i < |sNext| ==> sNext[i] in level.sectors
    requires forall i :: 0 <= i < |nNext| ==> nNext[i] in level.sectors
    requires !Rejected(level, s, n, t, allowed)
    modifies level.SectorSet()`movementBlockers, world`pathCacheResets
    decreases 4
    ensures BlockedWith(s, n, t)
    ensures placed == 1 + Placements(sRefused) + Placements(nRefused)
    ensures world.pathCacheResets == old(world.pathCacheResets) + (placed - 1)
    ensures forall x :: x in level.sectors ==> Grows(old(x.movementBlockers), x.movementBlockers, t)
    ensures forall x :: x in level.sectors && x != s && x != n && x !in sNext && x !in nNext ==>
              x.movementBlockers == old(x.movementBlockers)
    ensures DiagonalsOutcome(level, s, sNext, t, allowed, sRefused)
    ensures DiagonalsOutcome(level, n, nNext, t, allowed, nRefused)
    ensures forall j :: 0 <= j < |sNext| && old(HasBlocker(s, sNext[j])) ==> sRefused[j]
    ensures forall j :: 0 <= j < |nNext| && old(HasBlocker(n, nNext[j])) ==> nRefused[j]
  {
    PlaceEdge(s, n, t);
    label Edge:
    var sPlaced;
    sPlaced, sRefused := AddDiagonals(world, level, s, DirectionFrom(s.pos, n.pos), t, allowed, sNext, 1);
    label Sides:
    placed, nRefused := AddDiagonalsKeeping(world, level, n, DirectionFrom(n.pos, s.pos), t, allowed, nNext, sPlaced,
                                            s, sNext, sRefused);
    forall x | x in level.sectors
      ensures Grows(old(x.movementBlockers), x.movementBlockers, t)
    {
      GrowsTransitive(old(x.movementBlockers), old@Edge(x.movementBlockers), old@Sides(x.movementBlockers), t);
      GrowsTransitive(old(x.movementBlockers), old@Sides(x.movementBlockers), x.movementBlockers, t);
    }
    forall j | 0 <= j < |sNext| && old(HasBlocker(s, sNext[j]))
      ensures sRefused[j]
    {
      assert old@Edge(HasBlocker(s, sNext[j]));
    }
    forall j | 0 <= j < |nNext| && old(HasBlocker(n, nNext[j]))
      ensures nRefused[j]
    {
      assert old@Sides(HasBlocker(n, nNext[j]));
    }
  }

  /** The three refusals of addMovementBlocker, in the source's order. */
  method CheckRejected(level: Level, s: Sector, n: Sector, t: BlockerType, allowed: seq<CriticalPathType>)
    returns (rejected: bool)
    ensures rejected == Rejected(level, s, n, t, allowed)
  {
    var direction := DirectionFrom(s.pos, n.pos);
    var neighbourDirection := DirectionFrom(n.pos, s.pos);
    if direction in s.movementBlockers || neighbourDirection in n.movementBlockers {
      return true;
    }
    if s.camp || n.camp || (level.isCampable && s.zone == Some(PassageToCamp)) {
      return true;
    }
    rejected := SharesBlockedPath(s.criticalPaths, n.criticalPaths, t, allowed);
  }

  /** sectorVO.addBlocker and neighbourVO.addBlocker: the blocker on both sides of
      a free edge. */
  method PlaceEdge(s: Sector, n: Sector, t: BlockerType)
    requires DirectionFrom(s.pos, n.pos) !in s.movementBlockers
    requires DirectionFrom(n.pos, s.pos) !in n.movementBlockers
    modifies s`movementBlockers, n`movementBlockers
    ensures BlockedWith(s, n, t)
    ensures s != n ==> s.movementBlockers == old(s.movementBlockers)[DirectionFrom(s.pos, n.pos) := t]
    ensures s != n ==> n.movementBlockers == old(n.movementBlockers)[DirectionFrom(n.pos, s.pos) := t]
    ensures Grows(old(s.movementBlockers), s.movementBlockers, t)
    ensures Grows(old(n.movementBlockers), n.movementBlockers, t)
  {
    s.movementBlockers := s.movementBlockers[DirectionFrom(s.pos, n.pos) := t];
    n.movementBlockers := n.movementBlockers[DirectionFrom(n.pos, s.pos) := t];
  }

  /** The diagonal loop of addMovementBlocker for one side of the edge: one
      placement without diagonals towards each next neighbour, in order.
      `refused[j]` records whether the j-th call refused its edge. */
  method AddDiagonals(world: World, level: Level, s: Sector, direction: Direction, t: BlockerType,
                      allowed: seq<CriticalPathType>, next: seq<Sector>, placedBefore: nat)
    returns (placed: nat, ghost refused: seq<bool>)
    requires s in level.sectors
    requires forall i :: 0 <= i < |next| ==> next[i] in level.sectors
    modifies level.SectorSet()`movementBlockers, world`pathCacheResets
    decreases 2
    ensures placed == placedBefore + Placements(refused)
    ensures placedBefore <= placed <= placedBefore + |next|
    ensures world.pathCacheResets == old(world.pathCacheResets) + (placed - placedBefore)
    ensures forall x :: x in level.sectors ==> Grows(old(x.movementBlockers), x.movementBlockers, t)
    ensures forall x :: x in level.sectors && x != s && x !in next ==> x.movementBlockers == old(x.movementBlockers)
    ensures DiagonalsOutcome(level, s, next, t, allowed, refused)
    ensures forall j :: 0 <= j < |next| && old(HasBlocker(s, next[j])) ==> refused[j]
  {
    placed := placedBefore;
    refused := [];
    var j := 0;
    while j < |next|
      invariant 0 <= j <= |next| && |refused| == j
      invariant placed == placedBefore + Placements(refused)
      invariant world.pathCacheResets == old(world.pathCacheResets) + (placed - placedBefore)
      invariant forall x :: x in level.sectors ==> Grows(old(x.movementBlockers), x.movementBlockers, t)
      invariant forall x :: x in level.sectors && x != s && x !in next[..j] ==> x.movementBlockers == old(x.movementBlockers)
      invariant DiagonalsOutcome(level, s, next[..j], t, allowed, refused)
      invariant forall j' :: 0 <= j' < j && old(HasBlocker(s, next[j'])) ==> refused[j']
    {
      label Before:
      var p;
      ghost var b;
      p, b := DiagonalStep(world, level, s, t, allowed, next, j, refused);
      forall x | x in level.sectors
        ensures Grows(old(x.movementBlockers), x.movementBlockers, t)
      {
        GrowsTransitive(old(x.movementBlockers), old@Before(x.movementBlockers), x.movementBlockers, t);
      }
      assert old(HasBlocker(s, next[j])) ==> old@Before(HasBlocker(s, next[j]));
      assert (refused + [b])[..j] == refused;
      refused := refused + [b];
      placed := placed + p;
      assert next[..j + 1] == next[..j] + [next[j]];
      j := j + 1;
    }
    assert next[..j] == next;
  }

  /** One turn of the diagonal loop: the placement without diagonals towards
      next[j], keeping what the earlier turns left on their edges. */
  method DiagonalStep(world: World, level: Level, s: Sector, t: BlockerType, allowed: seq<CriticalPathType>,
                      next: seq<Sector>, j: nat, ghost refused: seq<bool>)
    returns (placed: nat, ghost b: bool)
    requires s in level.sectors
    requires forall i :: 0 <= i < |next| ==> next[i] in level.sectors
    requires j < |next|
    requires DiagonalsOutcome(level, s, next[..j], t, allowed, refused)
    modifies level.SectorSet()`movementBlockers, world`pathCacheResets
    decreases 1
    ensures b <==> placed == 0
    ensures placed <= 1
    ensures world.pathCacheResets == old(world.pathCacheResets) + placed
    ensures forall x :: x in level.sectors ==> Grows(old(x.movementBlockers), x.movementBlockers, t)
    ensures forall x :: x in level.sectors && x != s && x != next[j] ==> x.movementBlockers == old(x.movementBlockers)
    ensures DiagonalsOutcome(level, s, next[..j + 1], t, allowed, refused + [b])
    ensures old(HasBlocker(s, next[j])) ==> b
  {
    ghost var sr, nr;
    placed, sr, nr := AddMovementBlocker(world, level, s, next[j], t, false, allowed, [], []);
    b := placed == 0;

    DiagonalsOutcomeSnoc(level, s, next, j, t, allowed, refused, b);
  }

  /** The neighbour's diagonal loop, which keeps what the sector's loop left
      on the sector's diagonals. */
  method AddDiagonalsKeeping(world: World, level: Level, n: Sector, direction: Direction, t: BlockerType,
                             allowed: seq<CriticalPathType>, next: seq<Sector>, placedBefore: nat,
                             s: Sector, sNext: seq<Sector>, ghost sRefused: seq<bool>)
    returns (placed: nat, ghost refused: seq<bool>)
    requires n in level.sectors && s in level.sectors
    requires forall i :: 0 <= i < |next| ==> next[i] in level.sectors
    requires forall i :: 0 <= i < |sNext| ==> sNext[i] in level.sectors
    requires DiagonalsOutcome(level, s, sNext, t, allowed, sRefused)
    modifies level.SectorSet()`movementBlockers, world`pathCacheResets
    decreases 3
    ensures placed == placedBefore + Placements(refused)
    ensures world.pathCacheResets == old(world.pathCacheResets) + (placed - placedBefore)
    ensures forall x :: x in level.sectors ==> Grows(old(x.movementBlockers), x.movementBlockers, t)
    ensures forall x :: x in level.sectors && x != n && x !in next ==> x.movementBlockers == old(x.movementBlockers)
    ensures DiagonalsOutcome(level, n, next, t, allowed, refused)
    ensures forall j :: 0 <= j < |next| && old(HasBlocker(n, next[j])) ==> refused[j]
    ensures DiagonalsOutcome(level, s, sNext, t, allowed, sRefused)
  {
    placed, refused := AddDiagonals(world, level, n, direction, t, allowed, next, placedBefore);
  }

  // ---------------------------------------------------------------------
  // addBlockersBetween
  // ---------------------------------------------------------------------

  /** Blockers are only ever added, each of one of the level's types. */
  predicate GrowsAmong(before: map<Direction, BlockerType>, after: map<Direction, BlockerType>, types: seq<BlockerType>) {
    && (forall d :: d in before ==> d in after && after[d] == before[d])
    && (forall d :: d in after && d !in before ==> after[d] in types)
  }

  lemma GrowsAmongStep(a: map<Direction, BlockerType>, b: map<Direction, BlockerType>,
                       c: map<Direction, BlockerType>, t: BlockerType, types: seq<BlockerType>)
    requires GrowsAmong(a, b, types) && Grows(b, c, t) && t in types
    ensures GrowsAmong(a, c, types)
  {
  }

  /** A path the loop can split: one of at least 4 positions (the corrected guard). */
  predicate Splittable(path: Option<seq<Position>>) {
    path.Some? && |path.value| >= 4
  }

  /** How many of the first `maxPaths` answers of the pathfinder the loop uses
      before it stops at the first missing or too short path. */
  function PathsTried(paths: seq<Option<seq<Position>>>, maxPaths: nat): (r: nat)
    requires maxPaths <= |paths|
    ensures r <= maxPaths
    ensures forall i :: 0 <= i < r ==> Splittable(paths[i])
    ensures r < maxPaths ==> !Splittable(paths[r])
  {
    if maxPaths == 0 then 0
    else
      var r := PathsTried(paths, maxPaths - 1);
      if r == maxPaths - 1 && Splittable(paths[maxPaths - 1]) then maxPaths else r
  }

  /** The edge a round of addBlockersBetween blocks on the path it got: the
      sectors at path[index] and path[index + 1] for the drawn index, with the
      drawn type.  Both ends lie in the path's second half. */
  function SplitEdge(level: Level, types: seq<BlockerType>, path: seq<Position>, k: int, typeDraw: int)
    : (e: (Sector, Sector, BlockerType))
    requires |path| >= 4 && OnGrid(level, path) && IsIntDraw(k, SplitBounds(|path|).0, SplitBounds(|path|).1)
    requires |types| >= 1 && (|types| > 1 ==> 0 <= typeDraw < |types|)
    ensures e.2 in types
    ensures exists i :: 2 * i >= |path| && 0 <= i && i + 1 < |path|
                        && e.0 == SectorAt(level, path[i]) && e.1 == SectorAt(level, path[i + 1])
  {
    var index := SplitIndex(|path|, k);
    (SectorAt(level, path[index]), SectorAt(level, path[index + 1]), PickBlockerType(types, typeDraw))
  }

  /** The draws addBlockersBetween is given: every path names sectors of the
      grid, every splittable path comes with an index draw within its split
      bounds, and every type draw names one of the level's types. */
  predicate RoundDraws(level: Level, types: seq<BlockerType>, paths: seq<Option<seq<Position>>>,
                       indexDraws: seq<int>, typeDraws: seq<int>)
  {
    && |types| >= 1
    && |paths| == |indexDraws| == |typeDraws|
    && (forall i :: 0 <= i < |paths| && paths[i].Some? ==> OnGrid(level, paths[i].value))
    && (forall i :: 0 <= i < |paths| && Splittable(paths[i]) ==>
          IsIntDraw(indexDraws[i], SplitBounds(|paths[i].value|).0, SplitBounds(|paths[i].value|).1))
    && (forall i :: 0 <= i < |typeDraws| && |types| > 1 ==> 0 <= typeDraws[i] < |types|)
  }

  /** Round i ran on a splittable path and edges[i] is the edge it split. */
  predicate SplitEdges(level: Level, types: seq<BlockerType>, paths: seq<Option<seq<Position>>>,
                       indexDraws: seq<int>, typeDraws: seq<int>, edges: seq<(Sector, Sector, BlockerType)>)
    requires RoundDraws(level, types, paths, indexDraws, typeDraws) && |edges| <= |paths|
  {
    forall i :: 0 <= i < |edges| ==>
      Splittable(paths[i]) && edges[i] == SplitEdge(level, types, paths[i].value, indexDraws[i], typeDraws[i])
  }

  lemma SplitEdgesSnoc(level: Level, types: seq<BlockerType>, paths: seq<Option<seq<Position>>>,
                       indexDraws: seq<int>, typeDraws: seq<int>, edges: seq<(Sector, Sector, BlockerType)>,
                       e: (Sector, Sector, BlockerType))
    requires RoundDraws(level, types, paths, indexDraws, typeDraws) && |edges| < |paths|
    requires SplitEdges(level, types, paths, indexDraws, typeDraws, edges)
    requires Splittable(paths[|edges|])
    requires e == SplitEdge(level, types, paths[|edges|].value, indexDraws[|edges|], typeDraws[|edges|])
    ensures SplitEdges(level, types, paths, indexDraws, typeDraws, edges + [e])
  {
    assert forall i :: 0 <= i < |edges| ==> (edges + [e])[i] == edges[i];
  }

  /** EdgeOutcome for each round's edge, with refused[i] the verdict of round i. */
  predicate RoundsOutcome(level: Level, allowed: seq<CriticalPathType>,
                          edges: seq<(Sector, Sector, BlockerType)>, refused: seq<bool>)
    reads (set i | 0 <= i < |edges| :: edges[i].0), (set i | 0 <= i < |edges| :: edges[i].1)
  {
    && |refused| == |edges|
    && forall i :: 0 <= i < |edges| ==> EdgeOutcome(level, edges[i].0, edges[i].1, edges[i].2, allowed, refused[i])
  }

  lemma RoundsOutcomeSnoc(level: Level, allowed: seq<CriticalPathType>, edges: seq<(Sector, Sector, BlockerType)>,
                          refused: seq<bool>, e: (Sector, Sector, BlockerType), b: bool)
    requires RoundsOutcome(level, allowed, edges, refused)
    requires EdgeOutcome(level, e.0, e.1, e.2, allowed, b)
    ensures RoundsOutcome(level, allowed, edges + [e], refused + [b])
  {
    assert forall i :: 0 <= i < |edges| ==> (edges + [e])[i] == edges[i];
  }

  /** One round of addBlockersBetween on a splittable path: the blocker, with
      diagonals, on the round's split edge.  What the earlier rounds left on
      their edges (`edges`, `earlier`) is kept. */
  method BlockRound(world: World, level: Level, types: seq<BlockerType>, allowed: seq<CriticalPathType>,
                    path: seq<Position>, k: int, typeDraw: int, sNext: seq<Sector>, nNext: seq<Sector>,
                    ghost edges: seq<(Sector, Sector, BlockerType)>, ghost earlier: seq<bool>)
    returns (placed: nat, ghost e: (Sector, Sector, BlockerType), ghost refused: bool)
    requires level.Valid()
    requires forall i :: 0 <= i < |edges| ==> edges[i].0 in level.sectors && edges[i].1 in level.sectors
    requires RoundsOutcome(level, allowed, edges, earlier)
    requires |path| >= 4 && OnGrid(level, path) && IsIntDraw(k, SplitBounds(|path|).0, SplitBounds(|path|).1)
    requires |types| >= 1 && (|types| > 1 ==> 0 <= typeDraw < |types|)
    requires forall i :: 0 <= i < |sNext| ==> sNext[i] in level.sectors
    requires forall i :: 0 <= i < |nNext| ==> nNext[i] in level.sectors
    modifies level.SectorSet()`movementBlockers, world`pathCacheResets
    ensures e == SplitEdge(level, types, path, k, typeDraw)
    ensures e.0 in level.sectors && e.1 in level.sectors
    ensures EdgeOutcome(level, e.0, e.1, e.2, allowed, refused)
    ensures refused <==> placed == 0
    ensures world.pathCacheResets == old(world.pathCacheResets) + placed
    ensures forall x :: x in level.sectors ==> Grows(old(x.movementBlockers), x.movementBlockers, e.2)
    ensures RoundsOutcome(level, allowed, edges, earlier)
  {
    var edge := SplitEdge(level, types, path, k, typeDraw);
    e := edge;
    ghost var sr, nr;
    placed, sr, nr := AddMovementBlocker(world, level, edge.0, edge.1, edge.2, true, allowed, sNext, nNext);
    refused := placed == 0;
  }

  /** addBlockersBetween with the corrected guard.  `paths[i]` is the pathfinder's
      answer in round i (the path cache is reset by every blocker placed, so the
      answers may differ), `indexDraws[i]` and `typeDraws[i]` the round's draws and
      `sNexts[i]`, `nNexts[i]` the next neighbours of the chosen edge's ends.
      Returns how many rounds ran and how many blockers went in and, for each
      round, the edge it split and whether that edge was refused. */
  method AddBlockersBetween(world: World, level: Level, types: seq<BlockerType>, maxPaths: nat,
                            allowed: seq<CriticalPathType>, paths: seq<Option<seq<Position>>>,
                            indexDraws: seq<int>, typeDraws: seq<int>,
                            sNexts: seq<seq<Sector>>, nNexts: seq<seq<Sector>>)
    returns (tried: nat, placed: nat, ghost edges: seq<(Sector, Sector, BlockerType)>, ghost refused: seq<bool>)
    requires level.Valid() && RoundDraws(level, types, paths, indexDraws, typeDraws)
    requires maxPaths <= |paths| == |sNexts| == |nNexts|
    requires forall i, j :: 0 <= i < |sNexts| && 0 <= j < |sNexts[i]| ==> sNexts[i][j] in level.sectors
    requires forall i, j :: 0 <= i < |nNexts| && 0 <= j < |nNexts[i]| ==> nNexts[i][j] in level.sectors
    modifies level.SectorSet()`movementBlockers, world`pathCacheResets
    ensures tried == PathsTried(paths, maxPaths) && |edges| == tried
    ensures world.pathCacheResets == old(world.pathCacheResets) + placed
    ensures forall x :: x in level.sectors ==> GrowsAmong(old(x.movementBlockers), x.movementBlockers, types)
    ensures SplitEdges(level, types, paths, indexDraws, typeDraws, edges)
    ensures RoundsOutcome(level, allowed, edges, refused)
  {
    tried := 0;
    placed := 0;
    edges, refused := [], [];
    while tried < maxPaths
      invariant tried <= maxPaths && |edges| == tried
      invariant world.pathCacheResets == old(world.pathCacheResets) + placed
      invariant forall x :: x in level.sectors ==> GrowsAmong(old(x.movementBlockers), x.movementBlockers, types)
      invariant PathsTried(paths, maxPaths) >= tried
      invariant SplitEdges(level, types, paths, indexDraws, typeDraws, edges)
      invariant forall i :: 0 <= i < tried ==> edges[i].0 in level.sectors && edges[i].1 in level.sectors
      invariant RoundsOutcome(level, allowed, edges, refused)
    {
      var path := paths[tried];
      if !Splittable(path) {
        break;
      }
      label Before:
      var p;
      ghost var e, b;
      p, e, b := BlockRound(world, level, types, allowed, path.value, indexDraws[tried], typeDraws[tried],
                            sNexts[tried], nNexts[tried], edges, refused);
      forall x | x in level.sectors
        ensures GrowsAmong(old(x.movementBlockers), x.movementBlockers, types)
      {
        GrowsAmongStep(old(x.movementBlockers), old@Before(x.movementBlockers), x.movementBlockers, e.2, types);
      }
      SplitEdgesSnoc(level, types, paths, indexDraws, typeDraws, edges, e);
      RoundsOutcomeSnoc(level, allowed, edges, refused, e, b);
      assert forall i :: 0 <= i < tried ==> (edges + [e])[i] == edges[i];
      edges, refused := edges + [e], refused + [b];
      placed := placed + p;
      tried := tried + 1;
    }
  }
}
