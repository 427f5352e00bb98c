// Exploration paths (generatePaths): for each camp stage a greedy tour that
// starts at the excursion start, walks to the nearest sector not yet visited,
// and stamps every stage sector it reaches with the tour's index.  The
// pathfinder and the distance used to sort sectors are external and come in as
// functions.

module Paths {
  import opened WorldModel

  /** A JavaScript truthy pathID: present and not 0. */
  predicate Truthy(p: Option<int>) {
    p.Some? && p.value != 0
  }

  /** indexOf on a sequence of sectors. */
  function IndexOf(xs: seq<Sector>, x: Sector): (r: int)
    ensures -1 <= r < |xs|
    ensures r >= 0 ==> xs[r] == x && forall j :: 0 <= j < r ==> xs[j] != x
    ensures r < 0 <==> x !in xs
  {
    if |xs| == 0 then -1
    else if xs[|xs| - 1] == x && IndexOf(xs[..|xs| - 1], x) < 0 then |xs| - 1
    else
      var r := IndexOf(xs[..|xs| - 1], x);
      assert r < 0 ==> x !in xs[..|xs| - 1];
      r
  }

  /** splice(index, 1): every element but the i-th, in order. */
  function RemoveAt(xs: seq<Sector>, i: int): (r: seq<Sector>)
    requires 0 <= i < |xs|
    ensures |r| == |xs| - 1
    ensures forall j :: 0 <= j < |r| ==> r[j] == (if j < i then xs[j] else xs[j + 1])
  {
    xs[..i] + xs[i + 1..]
  }

  /** Removing one element of a list without repeats removes exactly it. */
  lemma RemoveAtMembers(xs: seq<Sector>, i: int)
    requires 0 <= i < |xs| && Distinct(xs)
    ensures Distinct(RemoveAt(xs, i))
    ensures forall x :: x in RemoveAt(xs, i) <==> x in xs && x != xs[i]
  {
    var r := RemoveAt(xs, i);
    forall x | x in xs && x != xs[i] ensures x in r {
      var j :| 0 <= j < |xs| && xs[j] == x;
      if j < i {
        assert r[j] == x;
      } else {
        assert r[j - 1] == x;
      }
    }
  }

  /** The sector at a position is one the tour still has to visit. */
  predicate Pending(level: Level, unvisited: seq<Sector>, p: Position) {
    (p.x, p.y) in level.grid && level.grid[(p.x, p.y)] in unvisited
  }

  /** visitSector: a pending sector at `pos` without a truthy pathID gets the
      path's id and leaves the list of sectors to visit; anything else is left
      alone.  The source also tests `pos.pathID`, which positions do not carry:
      that test is always true and drops out. */
  method VisitSector(level: Level, unvisited: seq<Sector>, pos: Position, pathID: int)
    returns (rest: seq<Sector>)
    requires level.Valid() && Distinct(unvisited)
    requires forall i :: 0 <= i < |unvisited| ==> unvisited[i] in level.sectors
    modifies level.SectorSet()`pathID
    ensures Distinct(rest) && forall x :: x in rest ==> x in unvisited
    ensures var stamped := Pending(level, unvisited, pos) && !old(Truthy(level.grid[(pos.x, pos.y)].pathID));
            && (stamped ==>
                  && level.grid[(pos.x, pos.y)].pathID == Some(pathID)
                  && |rest| == |unvisited| - 1
                  && forall x :: x in rest <==> x in unvisited && x != level.grid[(pos.x, pos.y)])
            && (!stamped ==> rest == unvisited)
    ensures forall x :: x in level.sectors && (x !in unvisited || x in rest) ==> x.pathID == old(x.pathID)
  {
    rest := unvisited;
    if (pos.x, pos.y) !in level.grid {
      return;
    }
    var posSector := level.grid[(pos.x, pos.y)];
    if Truthy(posSector.pathID) {
      return;
    }
    var index := IndexOf(unvisited, posSector);
    if index < 0 {
      return;
    }
    posSector.pathID := Some(pathID);
    RemoveAtMembers(unvisited, index);
    rest := RemoveAt(unvisited, index);
  }

  /** The first of the sectors nearest to `p`: the head of a stable sort by
      distance. */
  function FirstNearest(xs: seq<Sector>, p: Position, dist: (Position, Position) -> real): (k: nat)
    requires |xs| > 0
    ensures k < |xs|
    ensures forall j :: 0 <= j < |xs| ==> dist(p, xs[k].pos) <= dist(p, xs[j].pos)
    ensures forall j :: 0 <= j < k ==> dist(p, xs[k].pos) < dist(p, xs[j].pos)
  {
    if |xs| == 1 then 0
    else
      var k := FirstNearest(xs[..|xs| - 1], p, dist);
      assert forall j :: 0 <= j < |xs| - 1 ==> xs[..|xs| - 1][j] == xs[j];
      if dist(p, xs[|xs| - 1].pos) < dist(p, xs[k].pos) then |xs| - 1 else k
  }

  /** The tour's measure: two per sector left, plus one while the current
      position is not itself pending. */
  function TourMeasure(level: Level, unvisited: seq<Sector>, current: Position): nat {
    2 * |unvisited| + (if Pending(level, unvisited, current) then 0 else 1)
  }

  /** The stamps one tour may leave: 0 on the start sector, the tour's index on
      every other sector. */
  ghost predicate TourStamp(level: Level, x: Sector, start: Position, resultLen: nat)
    reads x
  {
    x.pathID == Some(resultLen)
    || (x.pathID == Some(0) && (start.x, start.y) in level.grid && level.grid[(start.x, start.y)] == x)
  }

  /** What the tour keeps true: the sectors still to visit are distinct stage
      sectors without a truthy pathID, and every stage sector already visited
      carries a stamp of this tour. */
  ghost predicate TourState(level: Level, sectors: seq<Sector>, unvisited: seq<Sector>, start: Position, resultLen: nat)
    reads sectors, unvisited
  {
    && Distinct(unvisited)
    && (forall x :: x in unvisited ==> x in sectors)
    && (forall i :: 0 <= i < |unvisited| ==> !Truthy(unvisited[i].pathID))
    && (forall i :: 0 <= i < |sectors| && sectors[i] !in unvisited ==> TourStamp(level, sectors[i], start, resultLen))
  }

  /** The pathfinder's answers end at their targets. */
  predicate Reaches(path: seq<Position>, target: Position) {
    |path| > 0 && path[|path| - 1] == target
  }

  /** One visitSector call of the tour, with the tour's state carried through. */
  method VisitStep(level: Level, sectors: seq<Sector>, unvisited: seq<Sector>, start: Position,
                   pos: Position, pathID: int, resultLen: nat)
    returns (rest: seq<Sector>)
    requires level.Valid()
    requires forall i :: 0 <= i < |sectors| ==> sectors[i] in level.sectors
    requires TourState(level, sectors, unvisited, start, resultLen)
    requires pathID == resultLen || (pathID == 0 && pos == start)
    modifies level.SectorSet()`pathID
    ensures TourState(level, sectors, rest, start, resultLen)
    ensures forall x :: x in rest ==> x in unvisited
    ensures !Pending(level, rest, pos)
    ensures Pending(level, unvisited, pos) ==> |rest| == |unvisited| - 1
    ensures !Pending(level, unvisited, pos) ==> rest == unvisited
    ensures forall x :: x in level.sectors && x !in sectors ==> x.pathID == old(x.pathID)
  {
    assert forall x :: x in unvisited ==> x in level.sectors;
    assert forall i :: 0 <= i < |unvisited| ==> unvisited[i] in level.sectors;
    if Pending(level, unvisited, pos) {
      var x := level.grid[(pos.x, pos.y)];
      var k :| 0 <= k < |unvisited| && unvisited[k] == x;
      assert !Truthy(x.pathID);
    }
    rest := VisitSector(level, unvisited, pos, pathID);
  }

  /** The path loop of traverseSectors: every position of the path is visited
      with the tour's index. */
  method WalkPath(level: Level, sectors: seq<Sector>, unvisited: seq<Sector>, path: seq<Position>,
                  start: Position, resultLen: nat)
    returns (rest: seq<Sector>)
    requires level.Valid()
    requires forall i :: 0 <= i < |sectors| ==> sectors[i] in level.sectors
    requires TourState(level, sectors, unvisited, start, resultLen)
    modifies level.SectorSet()`pathID
    ensures TourState(level, sectors, rest, start, resultLen)
    ensures rest == unvisited || |rest| < |unvisited|
    ensures forall x :: x in rest ==> x in unvisited
    ensures forall x :: x in level.sectors && x !in sectors ==> x.pathID == old(x.pathID)
    ensures |path| > 0 ==> !Pending(level, rest, path[|path| - 1])
  {
    rest := unvisited;
    var j := 0;
    while j < |path|
      invariant 0 <= j <= |path|
      invariant TourState(level, sectors, rest, start, resultLen)
      invariant rest == unvisited || |rest| < |unvisited|
      invariant forall x :: x in rest ==> x in unvisited
      invariant forall x :: x in level.sectors && x !in sectors ==> x.pathID == old(x.pathID)
      invariant j > 0 ==> !Pending(level, rest, path[j - 1])
    {
      rest := VisitStep(level, sectors, rest, start, path[j], resultLen, resultLen);
      j := j + 1;
    }
  }

  /** One leg of the tour after visiting the current position: the first of the
      nearest sectors still to visit, the pathfinder's path to it, and the visits
      along that path. */
  method TourLeg(level: Level, sectors: seq<Sector>, unvisited: seq<Sector>, start: Position,
                 current: Position, resultLen: nat,
                 findPath: (Position, Position) -> seq<Position>,
                 dist: (Position, Position) -> real)
    returns (rest: seq<Sector>, next: Position, path: seq<Position>)
    requires level.Valid()
    requires forall i :: 0 <= i < |sectors| ==> sectors[i] in level.sectors
    requires TourState(level, sectors, unvisited, start, resultLen)
    requires |unvisited| > 0
    modifies level.SectorSet()`pathID
    ensures next == unvisited[FirstNearest(unvisited, current, dist)].pos
    ensures path == findPath(current, next)
    ensures TourState(level, sectors, rest, start, resultLen)
    ensures forall x :: x in rest ==> x in unvisited
    ensures forall x :: x in level.sectors && x !in sectors ==> x.pathID == old(x.pathID)
    ensures TourMeasure(level, rest, next) <= 2 * |unvisited|
    ensures Reaches(path, next) ==> !Pending(level, rest, next)
  {
    var target := unvisited[FirstNearest(unvisited, current, dist)];
    next := target.pos;
    path := findPath(current, next);
    rest := WalkPath(level, sectors, unvisited, path, start, resultLen);
    assert target in sectors;
    assert target in level.sectors;
    assert (next.x, next.y) in level.grid && level.grid[(next.x, next.y)] == target;
    assert rest == unvisited ==> Pending(level, rest, next);
  }

  /** traverseSectors for one stage.  `findPath(a, b)` is the pathfinder's answer
      and `dist` the distance the sort uses; `resultLen` is the number of tours
      before this one.  An empty stage yields no tour.  Every stage sector the
      tour reaches is stamped and no other sector is touched.  When the sector at
      the current position is the last one to visit, the source reads the head of
      an empty sorted list and throws; the model stops there with `failed`.  With
      a pathfinder that reaches its targets that happens exactly when the stage
      is the start sector alone. */
  method TraverseSectors(level: Level, start: Position, sectors: seq<Sector>, resultLen: nat,
                         findPath: (Position, Position) -> seq<Position>,
                         dist: (Position, Position) -> real)
    returns (traverse: Option<seq<Position>>, failed: bool)
    requires level.Valid() && Distinct(sectors)
    requires forall i :: 0 <= i < |sectors| ==> sectors[i] in level.sectors
    requires forall i :: 0 <= i < |sectors| ==> !Truthy(sectors[i].pathID)
    modifies level.SectorSet()`pathID
    ensures traverse.None? <==> |sectors| == 0 || failed
    ensures forall x :: x in level.sectors && x !in sectors ==> x.pathID == old(x.pathID)
    ensures forall i :: 0 <= i < |sectors| ==> TourStamp(level, sectors[i], start, resultLen)
    ensures (forall a, b :: Reaches(findPath(a, b), b)) ==>
              (failed <==> |sectors| == 1 && Pending(level, sectors, start))
  {
    failed := false;
    if |sectors| <= 0 {
      return None, false;
    }
    ghost var reachAll := forall a, b :: Reaches(findPath(a, b), b);
    var unvisited := sectors;
    var steps := [];
    var currentPos := start;
    var pathID := 0;
    ghost var first := true;
    while |unvisited| > 0
      invariant TourState(level, sectors, unvisited, start, resultLen)
      invariant forall x :: x in level.sectors && x !in sectors ==> x.pathID == old(x.pathID)
      invariant first ==> pathID == 0 && currentPos == start && unvisited == sectors
      invariant !first ==> pathID == resultLen
      invariant reachAll && !first ==> !Pending(level, unvisited, currentPos)
      invariant reachAll && !first ==> !(|sectors| == 1 && Pending(level, sectors, start))
      decreases TourMeasure(level, unvisited, currentPos)
    {
      var before := unvisited;
      unvisited := VisitStep(level, sectors, unvisited, start, currentPos, pathID, resultLen);
      if |unvisited| == 0 {
        // the head of the empty sorted list is undefined
        return None, true;
      }
      assert Pending(level, before, currentPos) ==> |unvisited| < |before|;
      if first && reachAll {
        assert !(|sectors| == 1 && Pending(level, sectors, start));
      }
      var next, path;
      unvisited, next, path := TourLeg(level, sectors, unvisited, start, currentPos, resultLen, findPath, dist);
      steps := steps + path;
      currentPos := next;
      pathID := resultLen;
      first := false;
    }
    traverse := Some(steps);
  }

  /** generatePaths: a tour of the early-stage sectors restricted to the early
      stage, then an unrestricted tour of the late-stage ones, both from the
      excursion start.  `findPath(a, b, stage)` is the pathfinder.  Early sectors
      end with path 0; late ones with the late tour's index (1 when there was an
      early tour), except that the start sector may keep 0. */
  method GeneratePaths(level: Level, start: Position, early: seq<Sector>, late: seq<Sector>,
                       findPath: (Position, Position, Option<Stage>) -> seq<Position>,
                       dist: (Position, Position) -> real)
    returns (result: seq<seq<Position>>, failed: bool)
    requires level.Valid() && Distinct(early) && Distinct(late)
    requires forall i :: 0 <= i < |early| ==> early[i] in level.sectors && !Truthy(early[i].pathID)
    requires forall i :: 0 <= i < |late| ==> late[i] in level.sectors && !Truthy(late[i].pathID)
    requires forall i, j :: 0 <= i < |early| && 0 <= j < |late| ==> early[i] != late[j]
    modifies level.SectorSet()`pathID
    ensures forall x :: x in level.sectors && x !in early && x !in late ==> x.pathID == old(x.pathID)
    ensures forall i :: 0 <= i < |early| ==> early[i].pathID == Some(0)
    ensures !failed ==> |result| == (if |early| > 0 then 1 else 0) + (if |late| > 0 then 1 else 0)
    ensures !failed ==> forall i :: 0 <= i < |late| ==> TourStamp(level, late[i], start, if |early| > 0 then 1 else 0)
  {
    result := [];
    var traverse;
    traverse, failed := TraverseSectors(level, start, early, 0, (a, b) => findPath(a, b, Some(Early)), dist);
    if failed {
      return;
    }
    if traverse.Some? {
      result := result + [traverse.value];
    }
    assert forall i :: 0 <= i < |late| ==> late[i] !in early;
    traverse, failed := TraverseSectors(level, start, late, |result|, (a, b) => findPath(a, b, None), dist);
    if traverse.Some? {
      result := result + [traverse.value];
    }
  }
}
