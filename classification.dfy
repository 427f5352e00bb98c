// Per-sector classification: the sector-type threshold cascade, the passage
// types at both ends of a staircase, elevator or hole, and the sunlight rules
// that do not depend on the levels above.

module Classification {
  import opened WorldModel

  // ---------------------------------------------------------------------
  // Sector type (getSectorType)
  // ---------------------------------------------------------------------

  /** One statement `if (rand < threshold) sectorType = sectorType'`. */
  datatype Step = Step(threshold: real, sectorType: SectorType)

  /** The initial assignment of a level band and the overwriting tests after it. */
  datatype Band = Band(start: SectorType, steps: seq<Step>)

  /** Runs the overwriting tests in order: every satisfied test replaces the
      choice made so far. */
  function Overwrites(current: SectorType, steps: seq<Step>, rand: real): SectorType
    decreases |steps|
  {
    if |steps| == 0 then current
    else Overwrites(if rand < steps[0].threshold then steps[0].sectorType else current, steps[1..], rand)
  }

  /** The tests are written from the largest threshold down. */
  predicate Descending(steps: seq<Step>) {
    forall i, j :: 0 <= i < j < |steps| ==> steps[j].threshold < steps[i].threshold
  }

  /** Appending one more test: it wins exactly when it is satisfied. */
  lemma {:induction false} OverwritesSnoc(current: SectorType, steps: seq<Step>, last: Step, rand: real)
    ensures Overwrites(current, steps + [last], rand)
            == if rand < last.threshold then last.sectorType else Overwrites(current, steps, rand)
    decreases |steps|
  {
    if |steps| == 0 {
      assert steps + [last] == [last];
      assert ([last])[1..] == [];
    } else {
      var next := if rand < steps[0].threshold then steps[0].sectorType else current;
      assert (steps + [last])[1..] == steps[1..] + [last];
      OverwritesSnoc(next, steps[1..], last, rand);
    }
  }

  /** Because later tests overwrite earlier ones and the thresholds descend, the
      smallest satisfied threshold decides; with none satisfied the initial
      assignment stands. */
  lemma {:induction false} SmallestThresholdWins(start: SectorType, steps: seq<Step>, rand: real)
    requires Descending(steps)
    ensures (forall i :: 0 <= i < |steps| ==> steps[i].threshold <= rand) ==> Overwrites(start, steps, rand) == start
    ensures forall k :: 0 <= k < |steps| && rand < steps[k].threshold &&
                        (forall j :: 0 <= j < |steps| && rand < steps[j].threshold ==> steps[k].threshold <= steps[j].threshold)
                        ==> Overwrites(start, steps, rand) == steps[k].sectorType
    decreases |steps|
  {
    if |steps| > 0 {
      var init := steps[..|steps| - 1];
      var last := steps[|steps| - 1];
      assert steps == init + [last];
      OverwritesSnoc(start, init, last, rand);
      SmallestThresholdWins(start, init, rand);
      if rand < last.threshold {
        forall k | 0 <= k < |steps| && rand < steps[k].threshold &&
                   (forall j :: 0 <= j < |steps| && rand < steps[j].threshold ==> steps[k].threshold <= steps[j].threshold)
          ensures Overwrites(start, steps, rand) == steps[k].sectorType
        {
          assert steps[k].threshold <= last.threshold;
          assert k == |steps| - 1;
        }
      } else {
        forall k | 0 <= k < |steps| && rand < steps[k].threshold &&
                   (forall j :: 0 <= j < |steps| && rand < steps[j].threshold ==> steps[k].threshold <= steps[j].threshold)
          ensures Overwrites(start, steps, rand) == steps[k].sectorType
        {
          assert k < |steps| - 1;
          assert init[k] == steps[k];
          forall j | 0 <= j < |init| && rand < init[j].threshold
            ensures init[k].threshold <= init[j].threshold
          {
            assert init[j] == steps[j];
          }
        }
      }
    }
  }

  /** The level bands of getSectorType (lines 453-509), first matching band wins. */
  function SectorTypeBand(l: int, top: int, bottom: int): Band {
    if l == top then
      Band(Commercial, [Step(0.6, Public), Step(0.4, Residential), Step(0.05, Maintenance)])
    else if l > top - 4 then
      Band(Commercial, [Step(0.7, Public), Step(0.5, Residential), Step(0.05, Maintenance)])
    else if l > top - 8 then
      Band(Industrial, [Step(0.7, Commercial), Step(0.65, Public), Step(0.5, Maintenance),
                        Step(0.4, Residential), Step(0.2, Slum)])
    else if l > 14 then
      Band(Maintenance, [Step(0.75, Public), Step(0.7, Industrial), Step(0.5, Residential), Step(0.4, Slum)])
    else if l == 14 then
      Band(Industrial, [Step(0.25, Maintenance), Step(0.35, Slum)])
    else if l > 4 then
      Band(Slum, [Step(0.5, Industrial), Step(0.4, Maintenance), Step(0.3, Residential),
                  Step(0.2, Commercial), Step(0.1, Public)])
    else if l > bottom then
      Band(Slum, [Step(0.9, Industrial), Step(0.8, Maintenance), Step(0.6, Residential),
                  Step(0.4, Commercial), Step(0.2, Public)])
    else if l == bottom then
      Band(Maintenance, [Step(0.8, Industrial), Step(0.6, Residential), Step(0.4, Commercial), Step(0.2, Public)])
    else
      Band(Maintenance, [])
  }

  /** getSectorType for the draw `rand`. */
  function SectorTypeFor(l: int, top: int, bottom: int, rand: real): SectorType {
    var band := SectorTypeBand(l, top, bottom);
    Overwrites(band.start, band.steps, rand)
  }

  /** The top level: maintenance exactly below 0.05 and commercial exactly from
      0.6 up. */
  lemma TopLevelSectorTypes(top: int, bottom: int, rand: real)
    ensures SectorTypeFor(top, top, bottom, rand) == Maintenance <==> rand < 0.05
    ensures SectorTypeFor(top, top, bottom, rand) == Commercial <==> rand >= 0.6
    ensures 0.05 <= rand < 0.4 ==> SectorTypeFor(top, top, bottom, rand) == Residential
  {
    var band := SectorTypeBand(top, top, bottom);
    SmallestThresholdWins(band.start, band.steps, rand);
    if rand < 0.05 {
      assert Overwrites(band.start, band.steps, rand) == band.steps[2].sectorType;
    } else if rand < 0.4 {
      assert Overwrites(band.start, band.steps, rand) == band.steps[1].sectorType;
    } else if rand < 0.6 {
      assert Overwrites(band.start, band.steps, rand) == band.steps[0].sectorType;
    }
  }

  /** Level 14 (when it lies below the bands near the top): the slum test at 0.35
      comes after the maintenance test at 0.25 and overwrites it, so only
      industrial and slum occur. */
  lemma Level14SectorTypes(top: int, bottom: int, rand: real)
    requires 14 <= top - 8
    ensures SectorTypeFor(14, top, bottom, rand) == Slum <==> rand < 0.35
    ensures SectorTypeFor(14, top, bottom, rand) == Industrial <==> rand >= 0.35
    ensures SectorTypeFor(14, top, bottom, rand) != Maintenance
  {
  }

  /** Every band lists its tests from the largest threshold down, except level 14,
      whose two tests ascend. */
  lemma BandsDescending(l: int, top: int, bottom: int)
    ensures l != 14 || 14 > top - 8 ==> Descending(SectorTypeBand(l, top, bottom).steps)
    ensures l == 14 && 14 <= top - 8 ==> !Descending(SectorTypeBand(l, top, bottom).steps)
  {
    if l == 14 && 14 <= top - 8 {
      var steps := SectorTypeBand(l, top, bottom).steps;
      assert !(steps[1].threshold < steps[0].threshold);
    }
  }

  /** With descending thresholds, the test just above the draw whose successor
      the draw fails decides. */
  lemma {:induction false} DecidingStep(start: SectorType, steps: seq<Step>, rand: real, k: int)
    requires Descending(steps)
    requires 0 <= k < |steps| && rand < steps[k].threshold
    requires k + 1 == |steps| || steps[k + 1].threshold <= rand
    ensures Overwrites(start, steps, rand) == steps[k].sectorType
  {
    SmallestThresholdWins(start, steps, rand);
    forall j | 0 <= j < |steps| && rand < steps[j].threshold
      ensures steps[k].threshold <= steps[j].threshold
    {
      assert j <= k;
    }
  }

  /** In every band except level 14 the sector type is the one of the smallest
      threshold the draw is under, or the band's initial type above them all. */
  lemma SectorTypeBySmallestThreshold(l: int, top: int, bottom: int, rand: real, k: int)
    requires l != 14 || 14 > top - 8
    requires 0 <= k < |SectorTypeBand(l, top, bottom).steps|
    requires rand < SectorTypeBand(l, top, bottom).steps[k].threshold
    requires k + 1 == |SectorTypeBand(l, top, bottom).steps|
             || SectorTypeBand(l, top, bottom).steps[k + 1].threshold <= rand
    ensures SectorTypeFor(l, top, bottom, rand) == SectorTypeBand(l, top, bottom).steps[k].sectorType
  {
    var band := SectorTypeBand(l, top, bottom);
    BandsDescending(l, top, bottom);
    DecidingStep(band.start, band.steps, rand, k);
  }

  /** Above every threshold of its band a sector keeps the band's initial type. */
  lemma SectorTypeAboveThresholds(l: int, top: int, bottom: int, rand: real)
    requires l != 14 || 14 > top - 8
    requires forall i :: 0 <= i < |SectorTypeBand(l, top, bottom).steps| ==>
               SectorTypeBand(l, top, bottom).steps[i].threshold <= rand
    ensures SectorTypeFor(l, top, bottom, rand) == SectorTypeBand(l, top, bottom).start
  {
    var band := SectorTypeBand(l, top, bottom);
    BandsDescending(l, top, bottom);
    SmallestThresholdWins(band.start, band.steps, rand);
  }

  // ---------------------------------------------------------------------
  // Passage types (getPassageDownType, getPassageUpType)
  // ---------------------------------------------------------------------

  /** The passage types a regular level may draw from: a stairwell always, an
      elevator once the camp ordinal has reached the elevator upgrade, a hole
      above level 14. */
  function AvailablePassageTypes(campOrdinal: int, unlockElevatorOrdinal: int, l: int): (r: seq<PassageType>)
    ensures |r| >= 1 && r[0] == Stairwell
    ensures Stairwell in r && Blocked !in r
    ensures Elevator in r <==> campOrdinal >= unlockElevatorOrdinal
    ensures Hole in r <==> l > 14
  {
    [Stairwell]
    + (if campOrdinal >= unlockElevatorOrdinal then [Elevator] else [])
    + (if l > 14 then [Hole] else [])
  }

  /** getPassageDownType with `k` the index drawn by randomInt over the available
      types (a value in [0, |available|), whose length is at least one). */
  function PassageDownType(isPassageDown: bool, l: int, campOrdinal: int, campOrdinalLimit: int,
                           unlockElevatorOrdinal: int, isCampable: bool, k: int): (r: Option<PassageType>)
    requires 0 <= k < |AvailablePassageTypes(campOrdinal, unlockElevatorOrdinal, l)|
    ensures r.None? <==> !isPassageDown
    ensures isPassageDown && l == 13 ==> r == Some(Stairwell)
    ensures isPassageDown && l != 13 && campOrdinal > campOrdinalLimit ==> r == Some(Blocked)
    ensures r == Some(Blocked) ==> l != 13 && campOrdinal > campOrdinalLimit
    ensures isPassageDown && l != 13 && campOrdinal <= campOrdinalLimit && l == 14 ==> r == Some(Hole)
    ensures isPassageDown && l != 13 && campOrdinal <= campOrdinalLimit && l != 14 &&
            isCampable && campOrdinal == unlockElevatorOrdinal
            ==> r == Some(Elevator)
    ensures r == Some(Elevator) ==> campOrdinal >= unlockElevatorOrdinal && l != 13 && l != 14
    ensures r == Some(Hole) ==> l >= 14
  {
    if !isPassageDown then None
    else if l == 13 then Some(Stairwell)
    else if campOrdinal > campOrdinalLimit then Some(Blocked)
    else if l == 14 then Some(Hole)
    else if isCampable && campOrdinal == unlockElevatorOrdinal then Some(Elevator)
    else Some(AvailablePassageTypes(campOrdinal, unlockElevatorOrdinal, l)[k])
  }

  /** getPassageUpType: a passage up takes the type already chosen for the passage
      down of the sector directly above (that level is processed first). */
  function PassageUpType(sector: Sector, above: Option<Sector>): (r: Option<PassageType>)
    requires sector.isPassageUp ==> above.Some?
    reads if above.Some? then {above.value} else {}
  {
    if !sector.isPassageUp then None else above.value.passageDownType
  }

  /** The two ends of a passage agree: the type drawn for the passage down above is
      the type the passage up below reports, so level 12 always climbs to 13 by
      stairwell. */
  lemma PassageEndsAgree(sector: Sector, above: Sector, l: int, campOrdinal: int, campOrdinalLimit: int,
                         unlockElevatorOrdinal: int, isCampable: bool, k: int)
    requires sector.isPassageUp && above.isPassageDown
    requires 0 <= k < |AvailablePassageTypes(campOrdinal, unlockElevatorOrdinal, l)|
    requires above.passageDownType
             == PassageDownType(above.isPassageDown, l, campOrdinal, campOrdinalLimit, unlockElevatorOrdinal, isCampable, k)
    ensures PassageUpType(sector, Some(above)).Some?
    ensures l == 13 ==> PassageUpType(sector, Some(above)) == Some(Stairwell)
    ensures PassageUpType(sector, Some(above)) == Some(Blocked) <==> l != 13 && campOrdinal > campOrdinalLimit
  {
  }

  // ---------------------------------------------------------------------
  // Sunlight (the rules of isSunlit that need no other level)
  // ---------------------------------------------------------------------

  predicate IsHoleFeature(f: FeatureType) {
    f == HoleWell || f == HoleCollapse || f == HoleSea || f == HoleMountain
  }

  /** isHole: scans the features at a position and stops at the first hole. */
  method IsHole(features: seq<FeatureType>) returns (hole: bool)
    ensures hole <==> exists i :: 0 <= i < |features| && IsHoleFeature(features[i])
  {
    var i := 0;
    while i < |features|
      invariant 0 <= i <= |features|
      invariant forall j :: 0 <= j < i ==> !IsHoleFeature(features[j])
    {
      if IsHoleFeature(features[i]) {
        return true;
      }
      i := i + 1;
    }
    return false;
  }

  /** The first three rules of isSunlit: the top level is lit, level 13 is dark,
      and elsewhere a sector that is itself a hole is lit.  None means the
      decision falls to the scan of the levels above, which is not modelled. */
  function SunlitEarly(l: int, top: int, ownHole: bool): (r: Option<bool>)
    ensures r == Some(true) <==> l == top || (l != 13 && ownHole)
    ensures r == Some(false) <==> l != top && l == 13
    ensures r.None? <==> l != top && l != 13 && !ownHole
  {
    if l == top then Some(true)
    else if l == 13 then Some(false)
    else if ownHole then Some(true)
    else None
  }
}
