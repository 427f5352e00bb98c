// Zone assignment (SectorGenerator.generateZones): the monotonic
// setSectorZone rule, area and path assignment around anchors, the
// nearest-anchor (Voronoi) pass and the forced fill of uncampable levels.

module Zones {
  import opened WorldModel

  /** The constant tables the rule consults: WorldCreatorConstants.getZoneOrdinal
      (a smaller ordinal is a higher priority) and WorldConstants.isAllowedZone. */
  datatype ZoneTables = ZoneTables(ordinal: Zone -> int, isAllowed: (Stage, Zone) -> bool)

  /** A zone is "no worse" than another when it has the same or a smaller ordinal;
      an unzoned sector is the worst of all. */
  predicate NotRaised(before: Option<Zone>, after: Option<Zone>, t: ZoneTables) {
    after == before || (after.Some? && (before.None? || t.ordinal(after.value) < t.ordinal(before.value)))
  }

  /** The sector already holds `zone` or something at least as important. */
  predicate Covered(z: Option<Zone>, zone: Zone, t: ZoneTables) {
    z.Some? && t.ordinal(z.value) <= t.ordinal(zone)
  }

  /** setSectorZone on the sector's current zone: an existing zone with the same or
      a smaller ordinal is kept; a zone the stage does not allow is written only
      when forced. */
  function ZoneAfter(existing: Option<Zone>, stage: Stage, zone: Zone, force: bool, t: ZoneTables): (r: Option<Zone>)
    ensures r == existing || r == Some(zone)
    ensures r != existing ==> existing.None? || t.ordinal(zone) < t.ordinal(existing.value)
    ensures r != existing && !t.isAllowed(stage, zone) ==> force
    ensures (existing.None? || t.ordinal(zone) < t.ordinal(existing.value)) && (force || t.isAllowed(stage, zone))
            ==> r == Some(zone)
    ensures NotRaised(existing, r, t)
  {
    if existing.Some? && t.ordinal(existing.value) <= t.ordinal(zone) then existing
    else if !t.isAllowed(stage, zone) && !force then existing
    else Some(zone)
  }

  /** After the rule runs, the sector holds the zone or something better exactly
      when it already did or the write was allowed or forced. */
  lemma ZoneAfterCovers(existing: Option<Zone>, stage: Stage, zone: Zone, force: bool, t: ZoneTables)
    ensures Covered(ZoneAfter(existing, stage, zone, force, t), zone, t)
            <==> Covered(existing, zone, t) || force || t.isAllowed(stage, zone)
  {
  }

  /** A forced write always leaves the sector zoned. */
  lemma ForcedZoneAssigns(existing: Option<Zone>, stage: Stage, zone: Zone, t: ZoneTables)
    ensures ZoneAfter(existing, stage, zone, true, t).Some?
  {
  }

  /** An equal ordinal never overwrites: a zone of the same priority is kept. */
  lemma EqualOrdinalKeepsZone(existing: Zone, stage: Stage, zone: Zone, force: bool, t: ZoneTables)
    requires t.ordinal(existing) == t.ordinal(zone)
    ensures ZoneAfter(Some(existing), stage, zone, force, t) == Some(existing)
  {
  }

  /** Successive assignments compose: a zone is never raised over several passes. */
  lemma NotRaisedTransitive(a: Option<Zone>, b: Option<Zone>, c: Option<Zone>, t: ZoneTables)
    requires NotRaised(a, b, t) && NotRaised(b, c, t)
    ensures NotRaised(a, c, t)
  {
  }

  /** A zone at least as important as `zone` stays so under later assignments. */
  lemma CoveredNotRaised(before: Option<Zone>, after: Option<Zone>, zone: Zone, t: ZoneTables)
    requires Covered(before, zone, t) && NotRaised(before, after, t)
    ensures Covered(after, zone, t)
  {
  }

  /** What any sequence of assignments of one zone may do: keep the zone or take
      `zone` with a strictly smaller ordinal, and take a zone the stage forbids
      only when forced. */
  predicate ZoneStep(before: Option<Zone>, after: Option<Zone>, stage: Stage, zone: Zone, forced: bool, t: ZoneTables) {
    && (after == before || after == Some(zone))
    && NotRaised(before, after, t)
    && (after != before && !t.isAllowed(stage, zone) ==> forced)
  }

  lemma ZoneStepCompose(a: Option<Zone>, b: Option<Zone>, c: Option<Zone>, stage: Stage, zone: Zone,
                        forced: bool, t: ZoneTables)
    requires ZoneStep(a, b, stage, zone, forced, t) && ZoneStep(b, c, stage, zone, forced, t)
    ensures ZoneStep(a, c, stage, zone, forced, t)
  {
  }

  /** setSectorZone. */
  method SetSectorZone(s: Sector, zone: Zone, force: bool, t: ZoneTables)
    modifies s`zone
    ensures s.zone == ZoneAfter(old(s.zone), s.stage, zone, force, t)
  {
    var existing := s.zone;
    if existing.Some? {
      if t.ordinal(existing.value) <= t.ordinal(zone) {
        return;
      }
    }
    if !t.isAllowed(s.stage, zone) {
      if !force {
        return;
      }
      // the source logs a warning and writes the incompatible zone anyway
    }
    s.zone := Some(zone);
  }

  /** The external pathfinder, reduced to the length of the path it finds between
      two positions (None when it finds none). */
  type PathLength = (Position, Position) -> Option<nat>

  function Abs(v: int): nat { if v < 0 then -v else v }

  /** `s` is a neighbour the area loop reaches from `center` within radius `d`:
      inside the square and at path length at most `d`. */
  predicate InArea(center: Sector, s: Sector, d: int, pathLen: PathLength) {
    && Abs(s.pos.x - center.pos.x) <= d && Abs(s.pos.y - center.pos.y) <= d
    && pathLen(center.pos, s.pos).Some? && pathLen(center.pos, s.pos).value <= d
  }

  /** The area loop passes force to `s` only while `forceArea > path.length`. */
  predicate ForcedInArea(center: Sector, s: Sector, forceArea: int, pathLen: PathLength) {
    pathLen(center.pos, s.pos).Some? && forceArea > pathLen(center.pos, s.pos).value as int
  }

  /** The cell loop has reached the sector's coordinates (row-major order). */
  predicate Visited(s: Sector, x: int, y: int) {
    s.pos.x < x || (s.pos.x == x && s.pos.y < y)
  }

  /** What one area pass may do to one sector: keep its zone, or take `zone` with a
      smaller ordinal, only at the anchor or inside the area, and a zone its stage
      forbids only under force. */
  ghost predicate AreaStep(center: Sector, s: Sector, before: Option<Zone>, zone: Zone, d: int, forceArea: int,
                           t: ZoneTables, pathLen: PathLength)
    reads s
  {
    s.zone == before ||
      (&& s.zone == Some(zone)
       && NotRaised(before, s.zone, t)
       && (s == center || InArea(center, s, d, pathLen))
       && (!t.isAllowed(s.stage, zone) ==>
             (s == center && forceArea > 0) || (InArea(center, s, d, pathLen) && ForcedInArea(center, s, forceArea, pathLen))))
  }

  /** What the cell loop may do to one sector: as AreaStep, without the anchor's
      own forced write. */
  ghost predicate CellStep(center: Sector, s: Sector, before: Option<Zone>, zone: Zone, d: int, forceArea: int,
                           t: ZoneTables, pathLen: PathLength)
    reads s
  {
    s.zone == before ||
      (&& s.zone == Some(zone)
       && NotRaised(before, s.zone, t)
       && InArea(center, s, d, pathLen)
       && (!t.isAllowed(s.stage, zone) ==> ForcedInArea(center, s, forceArea, pathLen)))
  }

  lemma CellStepCompose(center: Sector, s: Sector, a: Option<Zone>, b: Option<Zone>, zone: Zone, d: int,
                        forceArea: int, t: ZoneTables, pathLen: PathLength)
    requires var now := s.zone; (now == b || (now == Some(zone) && NotRaised(b, now, t) && InArea(center, s, d, pathLen)
                                 && (!t.isAllowed(s.stage, zone) ==> ForcedInArea(center, s, forceArea, pathLen))))
    requires b == a || (b == Some(zone) && NotRaised(a, b, t) && InArea(center, s, d, pathLen)
                        && (!t.isAllowed(s.stage, zone) ==> ForcedInArea(center, s, forceArea, pathLen)))
    ensures CellStep(center, s, a, zone, d, forceArea, t, pathLen)
  {
  }

  lemma AreaStepCompose(center: Sector, s: Sector, a: Option<Zone>, b: Option<Zone>, zone: Zone, d: int,
                        forceArea: int, t: ZoneTables, pathLen: PathLength)
    requires var now := s.zone; (now == b || (now == Some(zone) && NotRaised(b, now, t) && InArea(center, s, d, pathLen)
                                 && (!t.isAllowed(s.stage, zone) ==> ForcedInArea(center, s, forceArea, pathLen))))
    requires b == a ||
      (&& b == Some(zone)
       && NotRaised(a, b, t)
       && (s == center || InArea(center, s, d, pathLen))
       && (!t.isAllowed(s.stage, zone) ==>
             (s == center && forceArea > 0) || (InArea(center, s, d, pathLen) && ForcedInArea(center, s, forceArea, pathLen))))
    ensures AreaStep(center, s, a, zone, d, forceArea, t, pathLen)
  {
  }

  lemma CoveredStays(z: Option<Zone>, stage: Stage, zone: Zone, force: bool, t: ZoneTables)
    requires Covered(z, zone, t)
    ensures ZoneAfter(z, stage, zone, force, t) == z
  {
  }

  lemma AreaStepIsZoneStep(center: Sector, s: Sector, before: Option<Zone>, zone: Zone, d: int, forceArea: int,
                           t: ZoneTables, pathLen: PathLength)
    requires AreaStep(center, s, before, zone, d, forceArea, t, pathLen)
    ensures ZoneStep(before, s.zone, s.stage, zone, forceArea > 0, t)
  {
  }

  /** setAreaZone: the anchor itself (forced when forceArea > 0), then every grid
      sector within `area - 1` steps of it in both coordinates whose path from the
      anchor is at most `area - 1` long, forced only while `forceArea` exceeds that
      path length. */
  method SetAreaZone(level: Level, center: Sector, zone: Zone, area: int, forceArea: int,
                     t: ZoneTables, pathLen: PathLength)
    requires level.Valid() && center in level.sectors
    modifies level.SectorSet()`zone
    ensures forall s :: s in level.sectors ==>
              AreaStep(center, s, old(s.zone), zone, area - 1, forceArea, t, pathLen)
    ensures forall s :: s in level.sectors ==> ZoneStep(old(s.zone), s.zone, s.stage, zone, forceArea > 0, t)
    ensures forceArea > 0 || t.isAllowed(center.stage, zone) ==> Covered(center.zone, zone, t)
    ensures forall s :: s in level.sectors && InArea(center, s, area - 1, pathLen) &&
              (t.isAllowed(s.stage, zone) || ForcedInArea(center, s, forceArea, pathLen))
              ==> Covered(s.zone, zone, t)
  {
    SetSectorZone(center, zone, forceArea > 0, t);
    var d := area - 1;
    var cx := center.pos.x;
    var x := cx - d;
    while x <= cx + d
      invariant forall s :: s in level.sectors ==> AreaStep(center, s, old(s.zone), zone, d, forceArea, t, pathLen)
      invariant forceArea > 0 || t.isAllowed(center.stage, zone) ==> Covered(center.zone, zone, t)
      invariant forall s :: s in level.sectors && InArea(center, s, d, pathLen) && s.pos.x < x &&
                  (t.isAllowed(s.stage, zone) || ForcedInArea(center, s, forceArea, pathLen))
                  ==> Covered(s.zone, zone, t)
    {
      label Row:
      VisitRow(level, center, x, zone, d, forceArea, t, pathLen);
      forall s | s in level.sectors
        ensures AreaStep(center, s, old(s.zone), zone, d, forceArea, t, pathLen)
      {
        AreaStepCompose(center, s, old(s.zone), old@Row(s.zone), zone, d, forceArea, t, pathLen);
      }
      x := x + 1;
    }
    forall s | s in level.sectors
      ensures ZoneStep(old(s.zone), s.zone, s.stage, zone, forceArea > 0, t)
    {
      AreaStepIsZoneStep(center, s, old(s.zone), zone, d, forceArea, t, pathLen);
    }
  }

  /** One row `x` of the area loop. */
  method VisitRow(level: Level, center: Sector, x: int, zone: Zone, d: int, forceArea: int,
                  t: ZoneTables, pathLen: PathLength)
    requires level.Valid()
    requires Abs(x - center.pos.x) <= d
    modifies level.SectorSet()`zone
    ensures forall s :: s in level.sectors ==> CellStep(center, s, old(s.zone), zone, d, forceArea, t, pathLen)
    ensures forall s :: s in level.sectors && Covered(old(s.zone), zone, t) ==> s.zone == old(s.zone)
    ensures forall s :: s in level.sectors && s.pos.x == x && InArea(center, s, d, pathLen) &&
              (t.isAllowed(s.stage, zone) || ForcedInArea(center, s, forceArea, pathLen))
              ==> Covered(s.zone, zone, t)
  {
    var cy := center.pos.y;
    var y := cy - d;
    while y <= cy + d
      invariant forall s :: s in level.sectors ==> CellStep(center, s, old(s.zone), zone, d, forceArea, t, pathLen)
      invariant forall s :: s in level.sectors && Covered(old(s.zone), zone, t) ==> s.zone == old(s.zone)
      invariant forall s :: s in level.sectors && InArea(center, s, d, pathLen) && s.pos.x == x && s.pos.y < y &&
                  (t.isAllowed(s.stage, zone) || ForcedInArea(center, s, forceArea, pathLen))
                  ==> Covered(s.zone, zone, t)
    {
      label Cell:
      VisitCell(level, center, x, y, zone, d, forceArea, t, pathLen);
      forall s | s in level.sectors
        ensures CellStep(center, s, old(s.zone), zone, d, forceArea, t, pathLen)
      {
        CellStepCompose(center, s, old(s.zone), old@Cell(s.zone), zone, d, forceArea, t, pathLen);
      }
      y := y + 1;
    }
  }

  /** One cell (x, y) of the area loop: the grid sector there, if any, takes the
      zone when its path from the anchor is at most `d` long. */
  method VisitCell(level: Level, center: Sector, x: int, y: int, zone: Zone, d: int, forceArea: int,
                   t: ZoneTables, pathLen: PathLength)
    requires level.Valid()
    requires Abs(x - center.pos.x) <= d && Abs(y - center.pos.y) <= d
    modifies level.SectorSet()`zone
    ensures forall s :: s in level.sectors && (s.pos.x != x || s.pos.y != y) ==> s.zone == old(s.zone)
    ensures forall s :: s in level.sectors ==> CellStep(center, s, old(s.zone), zone, d, forceArea, t, pathLen)
    ensures forall s :: s in level.sectors && Covered(old(s.zone), zone, t) ==> s.zone == old(s.zone)
    ensures forall s :: s in level.sectors && s.pos.x == x && s.pos.y == y && InArea(center, s, d, pathLen) &&
              (t.isAllowed(s.stage, zone) || ForcedInArea(center, s, forceArea, pathLen))
              ==> Covered(s.zone, zone, t)
  {
    var neighbour := level.GetSector(x, y);
    if neighbour.Some? {
      var n := neighbour.value;
      var path := pathLen(center.pos, n.pos);
      if path.Some? && path.value <= d {
        ghost var prev := n.zone;
        SetSectorZone(n, zone, forceArea > path.value, t);
        ZoneAfterCovers(prev, n.stage, zone, forceArea > path.value, t);
        if Covered(prev, zone, t) {
          CoveredStays(prev, n.stage, zone, forceArea > path.value, t);
        }
      }
    }
  }

  /** setPathZone: setAreaZone around every position of a path found by the
      external pathfinder (each position must name a grid sector). */
  method SetPathZone(level: Level, path: seq<Position>, zone: Zone, area: int, forceArea: int,
                     t: ZoneTables, pathLen: PathLength)
    requires level.Valid()
    requires forall i :: 0 <= i < |path| ==> (path[i].x, path[i].y) in level.grid
    modifies level.SectorSet()`zone
    ensures forall s :: s in level.sectors ==> ZoneStep(old(s.zone), s.zone, s.stage, zone, forceArea > 0, t)
    ensures forceArea > 0 ==> forall i :: 0 <= i < |path| ==> Covered(level.grid[(path[i].x, path[i].y)].zone, zone, t)
  {
    var i := 0;
    while i < |path|
      invariant 0 <= i <= |path|
      invariant forall s :: s in level.sectors ==> ZoneStep(old(s.zone), s.zone, s.stage, zone, forceArea > 0, t)
      invariant forceArea > 0 ==> forall k :: 0 <= k < i ==> Covered(level.grid[(path[k].x, path[k].y)].zone, zone, t)
    {
      var sector := level.GetSector(path[i].x, path[i].y).value;
      label Mid:
      SetAreaZone(level, sector, zone, area, forceArea, t, pathLen);
      forall s | s in level.sectors
        ensures ZoneStep(old(s.zone), s.zone, s.stage, zone, forceArea > 0, t)
        ensures Covered(old@Mid(s.zone), zone, t) ==> Covered(s.zone, zone, t)
      {
        ZoneStepCompose(old(s.zone), old@Mid(s.zone), s.zone, s.stage, zone, forceArea > 0, t);
        if Covered(old@Mid(s.zone), zone, t) {
          CoveredNotRaised(old@Mid(s.zone), s.zone, zone, t);
        }
      }
      i := i + 1;
    }
  }

  /** A Voronoi anchor of getVornoiPoints: its position and zone tag. */
  datatype VoronoiPoint = VoronoiPoint(position: Position, zone: Zone)

  /** The nearest anchor to `p` (lines 142-151): the first anchor with the smallest
      distance, since only a strictly smaller distance replaces the current one. */
  method ClosestPoint(p: Position, points: seq<VoronoiPoint>, dist: (Position, Position) -> real)
    returns (k: nat)
    requires |points| > 0
    ensures k < |points|
    ensures forall j :: 0 <= j < |points| ==> dist(p, points[k].position) <= dist(p, points[j].position)
    ensures forall j :: 0 <= j < k ==> dist(p, points[k].position) < dist(p, points[j].position)
  {
    k := 0;
    var closestDist := dist(p, points[0].position);
    var j := 1;
    while j < |points|
      invariant 1 <= j <= |points| && k < j
      invariant closestDist == dist(p, points[k].position)
      invariant forall i :: 0 <= i < j ==> closestDist <= dist(p, points[i].position)
      invariant forall i :: 0 <= i < k ==> closestDist < dist(p, points[i].position)
    {
      var d := dist(p, points[j].position);
      if d < closestDist {
        k, closestDist := j, d;
      }
      j := j + 1;
    }
  }

  /** The zone an anchor gives a sector: a PoiTemp anchor gives Poi1 to early-stage
      sectors and Poi2 to the others. */
  function VoronoiZone(anchorZone: Zone, stage: Stage): (z: Zone)
    ensures anchorZone != PoiTemp ==> z == anchorZone
    ensures anchorZone == PoiTemp ==> (z == Poi1 <==> stage == Early) && (z == Poi2 <==> stage != Early)
  {
    if anchorZone == PoiTemp then (if stage == Early then Poi1 else Poi2) else anchorZone
  }

  /** Anchor `k` is the first at the smallest distance from `p`: no anchor is
      nearer, and every anchor before it is strictly farther. */
  predicate Nearest(p: Position, points: seq<VoronoiPoint>, k: int, dist: (Position, Position) -> real) {
    && 0 <= k < |points|
    && (forall j :: 0 <= j < |points| ==> dist(p, points[k].position) <= dist(p, points[j].position))
    && (forall j :: 0 <= j < k ==> dist(p, points[k].position) < dist(p, points[j].position))
  }

  /** The sector's zone is what the unforced rule makes of its previous zone and
      the zone of its first nearest anchor. */
  ghost predicate VoronoiAssigned(s: Sector, before: Option<Zone>, points: seq<VoronoiPoint>,
                                  dist: (Position, Position) -> real, t: ZoneTables)
    reads s
  {
    exists k :: Nearest(s.pos, points, k, dist) &&
      s.zone == ZoneAfter(before, s.stage, VoronoiZone(points[k].zone, s.stage), false, t)
  }

  /** The nearest-anchor pass over every sector of a campable level (unforced).
      With no anchors the first sector finds no closest point and the pass
      stops with a TypeError (`closestPoint.sectors` of null); `crashed` says so. */
  method AssignVoronoiZones(level: Level, points: seq<VoronoiPoint>, dist: (Position, Position) -> real,
                            t: ZoneTables)
    returns (crashed: bool)
    requires forall i, j :: 0 <= i < j < |level.sectors| ==> level.sectors[i] != level.sectors[j]
    modifies level.SectorSet()`zone
    ensures crashed <==> |points| == 0 && |level.sectors| > 0
    ensures crashed ==> forall s :: s in level.sectors ==> s.zone == old(s.zone)
    ensures forall s :: s in level.sectors ==> NotRaised(old(s.zone), s.zone, t)
    ensures !crashed ==>
              forall i :: 0 <= i < |level.sectors| ==> VoronoiAssigned(level.sectors[i], old(level.sectors[i].zone), points, dist, t)
  {
    if |level.sectors| == 0 {
      return false;
    }
    if |points| == 0 {
      return true;
    }
    AssignNearest(level, points, dist, t);
    return false;
  }

  /** The loop of the Voronoi pass once there is an anchor to find. */
  method AssignNearest(level: Level, points: seq<VoronoiPoint>, dist: (Position, Position) -> real, t: ZoneTables)
    requires |points| > 0
    requires forall i, j :: 0 <= i < j < |level.sectors| ==> level.sectors[i] != level.sectors[j]
    modifies level.SectorSet()`zone
    ensures forall s :: s in level.sectors ==> NotRaised(old(s.zone), s.zone, t)
    ensures forall i :: 0 <= i < |level.sectors| ==> VoronoiAssigned(level.sectors[i], old(level.sectors[i].zone), points, dist, t)
  {
    var i := 0;
    while i < |level.sectors|
      invariant 0 <= i <= |level.sectors|
      invariant forall m :: i <= m < |level.sectors| ==> level.sectors[m].zone == old(level.sectors[m].zone)
      invariant forall m :: 0 <= m < i ==> VoronoiAssigned(level.sectors[m], old(level.sectors[m].zone), points, dist, t)
    {
      var sector := level.sectors[i];
      var k := ClosestPoint(sector.pos, points, dist);
      var zone := VoronoiZone(points[k].zone, sector.stage);
      SetSectorZone(sector, zone, false, t);
      assert Nearest(sector.pos, points, k, dist);
      i := i + 1;
    }
  }

  /** The forced fill of uncampable levels (lines 168-171): every sector ends up
      zoned, and a sector keeps any zone with the same or a smaller ordinal. */
  method FillZone(level: Level, zone: Zone, t: ZoneTables)
    requires forall i, j :: 0 <= i < j < |level.sectors| ==> level.sectors[i] != level.sectors[j]
    modifies level.SectorSet()`zone
    ensures forall s :: s in level.sectors ==> NotRaised(old(s.zone), s.zone, t)
    ensures forall i :: 0 <= i < |level.sectors| ==>
              level.sectors[i].zone == ZoneAfter(old(level.sectors[i].zone), level.sectors[i].stage, zone, true, t)
    ensures forall s :: s in level.sectors ==> s.zone.Some?
  {
    var i := 0;
    while i < |level.sectors|
      invariant 0 <= i <= |level.sectors|
      invariant forall m :: i <= m < |level.sectors| ==> level.sectors[m].zone == old(level.sectors[m].zone)
      invariant forall m :: 0 <= m < i ==>
                  level.sectors[m].zone == ZoneAfter(old(level.sectors[m].zone), level.sectors[m].stage, zone, true, t)
    {
      SetSectorZone(level.sectors[i], zone, true, t);
      i := i + 1;
    }
  }

  /** Every sector of the path holds `zone` or a more important one. */
  ghost predicate PathCovered(level: Level, path: seq<Position>, zone: Zone, t: ZoneTables)
    requires OnGrid(level, path)
    reads level.SectorSet()
    requires level.Valid()
  {
    forall i :: 0 <= i < |path| ==> Covered(level.grid[(path[i].x, path[i].y)].zone, zone, t)
  }

  /** The entrance of a level (passage1): going down (levels 13 to the bottom)
      players arrive by the passage up, elsewhere by the passage down. */
  function Passage1(world: World, level: Level, passageUp: Option<Sector>, passageDown: Option<Sector>): Option<Sector> {
    if level.level <= 13 && level.level >= world.bottomLevel then passageUp else passageDown
  }

  /** The other passage (passage2). */
  function Passage2(world: World, level: Level, passageUp: Option<Sector>, passageDown: Option<Sector>): Option<Sector> {
    if level.level <= 13 && level.level >= world.bottomLevel then passageDown else passageUp
  }

  /** generateZones.  The pathfinder's answers (entrance to camp, camp to the second
      passage, passage to passage) and the Voronoi anchors of getVornoiPoints are
      inputs; `pathLen` answers the area loops' path queries. */
  method GenerateZones(world: World, level: Level, passageUp: Option<Sector>, passageDown: Option<Sector>,
                       campSector: Option<Sector>, pathToCamp: seq<Position>, pathCampToPassage: seq<Position>,
                       pathBetweenPassages: seq<Position>, points: seq<VoronoiPoint>,
                       dist: (Position, Position) -> real, t: ZoneTables, pathLen: PathLength)
    requires level.Valid() && Distinct(level.sectors)
    requires passageUp.Some? ==> passageUp.value in level.sectors
    requires passageDown.Some? ==> passageDown.value in level.sectors
    requires Passage1(world, level, passageUp, passageDown).Some?
    requires level.isCampable ==> campSector.Some? && campSector.value in level.sectors && |points| > 0
    requires OnGrid(level, pathToCamp) && OnGrid(level, pathCampToPassage) && OnGrid(level, pathBetweenPassages)
    modifies level.SectorSet()`zone
    ensures forall s :: s in level.sectors ==> NotRaised(old(s.zone), s.zone, t)
    ensures Covered(Passage1(world, level, passageUp, passageDown).value.zone, Entrance, t)
    ensures !level.isCampable ==> forall s :: s in level.sectors ==> s.zone.Some?
    ensures !level.isCampable && Passage2(world, level, passageUp, passageDown).Some? ==>
              PathCovered(level, pathBetweenPassages, PassageToPassage, t)
    ensures level.isCampable && level.level != 13 ==>
              Covered(campSector.value.zone, PassageToCamp, t) && PathCovered(level, pathToCamp, PassageToCamp, t)
    ensures level.isCampable && Passage2(world, level, passageUp, passageDown).Some? ==>
              PathCovered(level, pathCampToPassage, CampToPassage, t)
  {
    var passage1 := Passage1(world, level, passageUp, passageDown).value;
    var passage2 := Passage2(world, level, passageUp, passageDown);
    SetAreaZone(level, passage1, Entrance, if level.level == 14 then 4 else 2, 2, t, pathLen);
    if level.isCampable {
      CampableZones(level, passage1, passage2, campSector.value, pathToCamp, pathCampToPassage, points, dist, t, pathLen);
    } else {
      UncampableZones(level, passage1, passage2, pathBetweenPassages, t, pathLen);
    }
  }

  /** The zone passes of a campable level after the entrance area: the corridor
      from the entrance to the camp (not on level 13), the corridor from the camp to
      the second passage, then the nearest-anchor pass. */
  method CampableZones(level: Level, passage1: Sector, passage2: Option<Sector>, campSector: Sector,
                       pathToCamp: seq<Position>, pathCampToPassage: seq<Position>, points: seq<VoronoiPoint>,
                       dist: (Position, Position) -> real, t: ZoneTables, pathLen: PathLength)
    requires level.Valid() && Distinct(level.sectors)
    requires passage1 in level.sectors && campSector in level.sectors && |points| > 0
    requires OnGrid(level, pathToCamp) && OnGrid(level, pathCampToPassage)
    modifies level.SectorSet()`zone
    ensures forall s :: s in level.sectors ==> NotRaised(old(s.zone), s.zone, t)
    ensures level.level != 13 ==>
              Covered(campSector.zone, PassageToCamp, t) && PathCovered(level, pathToCamp, PassageToCamp, t)
    ensures passage2.Some? ==> PathCovered(level, pathCampToPassage, CampToPassage, t)
  {
    if level.level != 13 {
      PassageToCampZones(level, passage1, campSector, pathToCamp, t, pathLen);
    }
    label C:
    if passage2.Some? {
      SetPathZone(level, pathCampToPassage, CampToPassage, 1, 1, t, pathLen);
      if level.level != 13 {
        CoveredNotRaised(old@C(campSector.zone), campSector.zone, PassageToCamp, t);
        forall i | 0 <= i < |pathToCamp|
          ensures Covered(level.grid[(pathToCamp[i].x, pathToCamp[i].y)].zone, PassageToCamp, t)
        {
          var s := level.grid[(pathToCamp[i].x, pathToCamp[i].y)];
          CoveredNotRaised(old@C(s.zone), s.zone, PassageToCamp, t);
        }
      }
      forall s | s in level.sectors
        ensures NotRaised(old(s.zone), s.zone, t)
      {
        NotRaisedTransitive(old(s.zone), old@C(s.zone), s.zone, t);
      }
    }
    label D:
    var crashed := AssignVoronoiZones(level, points, dist, t);
    if level.level != 13 {
      CoveredNotRaised(old@D(campSector.zone), campSector.zone, PassageToCamp, t);
      forall i | 0 <= i < |pathToCamp|
        ensures Covered(level.grid[(pathToCamp[i].x, pathToCamp[i].y)].zone, PassageToCamp, t)
      {
        var s := level.grid[(pathToCamp[i].x, pathToCamp[i].y)];
        CoveredNotRaised(old@D(s.zone), s.zone, PassageToCamp, t);
      }
    }
    if passage2.Some? {
      forall i | 0 <= i < |pathCampToPassage|
        ensures Covered(level.grid[(pathCampToPassage[i].x, pathCampToPassage[i].y)].zone, CampToPassage, t)
      {
        var s := level.grid[(pathCampToPassage[i].x, pathCampToPassage[i].y)];
        CoveredNotRaised(old@D(s.zone), s.zone, CampToPassage, t);
      }
    }
    forall s | s in level.sectors
      ensures NotRaised(old(s.zone), s.zone, t)
    {
      NotRaisedTransitive(old(s.zone), old@D(s.zone), s.zone, t);
    }
  }

  /** The corridor from the entrance to the camp: areas of radius 3 around both
      ends and of radius 2 along the path between them. */
  method PassageToCampZones(level: Level, passage1: Sector, campSector: Sector, pathToCamp: seq<Position>,
                            t: ZoneTables, pathLen: PathLength)
    requires level.Valid()
    requires passage1 in level.sectors && campSector in level.sectors
    requires OnGrid(level, pathToCamp)
    modifies level.SectorSet()`zone
    ensures forall s :: s in level.sectors ==> NotRaised(old(s.zone), s.zone, t)
    ensures Covered(campSector.zone, PassageToCamp, t) && PathCovered(level, pathToCamp, PassageToCamp, t)
  {
    SetAreaZone(level, passage1, PassageToCamp, 3, 1, t, pathLen);
    label A:
    SetAreaZone(level, campSector, PassageToCamp, 3, 1, t, pathLen);
    forall s | s in level.sectors
      ensures NotRaised(old(s.zone), s.zone, t)
    {
      NotRaisedTransitive(old(s.zone), old@A(s.zone), s.zone, t);
    }
    label B:
    SetPathZone(level, pathToCamp, PassageToCamp, 2, 1, t, pathLen);
    CoveredNotRaised(old@B(campSector.zone), campSector.zone, PassageToCamp, t);
    forall s | s in level.sectors
      ensures NotRaised(old(s.zone), s.zone, t)
    {
      NotRaisedTransitive(old(s.zone), old@B(s.zone), s.zone, t);
    }
  }

  /** The zone passes of an uncampable level after the entrance area: the
      passage-to-passage area and corridor, then the forced fill. */
  method UncampableZones(level: Level, passage1: Sector, passage2: Option<Sector>, pathBetweenPassages: seq<Position>,
                         t: ZoneTables, pathLen: PathLength)
    requires level.Valid() && Distinct(level.sectors)
    requires passage1 in level.sectors
    requires OnGrid(level, pathBetweenPassages)
    modifies level.SectorSet()`zone
    ensures forall s :: s in level.sectors ==> NotRaised(old(s.zone), s.zone, t)
    ensures forall s :: s in level.sectors ==> s.zone.Some?
    ensures passage2.Some? ==> PathCovered(level, pathBetweenPassages, PassageToPassage, t)
  {
    SetAreaZone(level, passage1, PassageToPassage, 6, 2, t, pathLen);
    label A:
    if passage2.Some? {
      // the source passes `true` as forceArea here; JavaScript compares it as 1
      SetPathZone(level, pathBetweenPassages, PassageToPassage, 2, 1, t, pathLen);
      forall s | s in level.sectors
        ensures NotRaised(old(s.zone), s.zone, t)
      {
        NotRaisedTransitive(old(s.zone), old@A(s.zone), s.zone, t);
      }
    }
    label B:
    FillZone(level, ExtraUncampable, t);
    if passage2.Some? {
      forall i | 0 <= i < |pathBetweenPassages|
        ensures Covered(level.grid[(pathBetweenPassages[i].x, pathBetweenPassages[i].y)].zone, PassageToPassage, t)
      {
        var s := level.grid[(pathBetweenPassages[i].x, pathBetweenPassages[i].y)];
        CoveredNotRaised(old@B(s.zone), s.zone, PassageToPassage, t);
      }
    }
    forall s | s in level.sectors
      ensures NotRaised(old(s.zone), s.zone, t)
    {
      NotRaisedTransitive(old(s.zone), old@B(s.zone), s.zone, t);
    }
  }
}
