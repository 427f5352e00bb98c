// Sector resources (generateResources): the raw scavengeable and collectable
// yields come from the sector type and the draws; this module takes them as
// inputs and applies the source's post-processing in order -- springs, the
// workshop boost, the bottom levels, sunlight, hazards, the floors for required
// resources and the all-or-nothing ranges -- and sums the two bundles.

module ResourceRules {
  import opened WorldModel

  /** What generateResources reads from the sector and the level besides the raw
      yields. */
  datatype SectorFacts = SectorFacts(
    l: int, bottom: int, wear: int, sunlit: bool, poison: real, radiation: real,
    requiredWater: bool, requiredFood: bool, workshopResource: Option<ResourceName>)

  /** The bundles written to the sector and its spring flag. */
  datatype Yield = Yield(scavengable: Resources, collectable: Resources, all: Resources, hasSpring: bool)

  /** A spring needs some water (lines 741-745). */
  function HasSpring(rawSca: Resources, rawCol: Resources, springDraw: real): bool {
    (rawCol.water > 0.0 || rawSca.water > 0.0) && springDraw < 0.25
  }

  /** The workshop's resource is scavengeable at 3 at least (lines 748-750). */
  function WorkshopBoost(sca: Resources, w: Option<ResourceName>): (r: Resources)
    ensures w.Some? ==> r.Get(w.value) >= 3.0 && r.Get(w.value) >= sca.Get(w.value)
    ensures forall n :: (w.None? || n != w.value) ==> r.Get(n) == sca.Get(n)
  {
    if w.None? then sca else sca.Set(w.value, MaxReal(sca.Get(w.value), 3.0))
  }

  /** Herbs on the two bottom levels and in sunlight (lines 753-768); `draw` is
      the one draw all three rules use. */
  function HerbsAfter(herbs: real, f: SectorFacts, draw: real): real {
    var herbs := if f.l == f.bottom then draw * (10 - f.wear) as real else herbs;
    var herbs := if f.l == f.bottom + 1 then draw * (10 - f.wear) as real / 2.0 else herbs;
    if f.sunlit then (if draw > 0.75 then 2.0 else 0.0) else herbs
  }

  /** Collectable food and water on the two bottom levels, then zeroed by poison
      or radiation, then raised to 3 water for a required-water sector
      (lines 753-779). */
  function Collectable(col: Resources, f: SectorFacts): Resources {
    var col := if f.l == f.bottom then
                 col.(food := if col.food > 0.0 then col.food + 2.0 else 0.0,
                      water := if col.water > 0.0 then col.water + 3.0 else 0.0)
               else col;
    var col := if f.l == f.bottom + 1 then
                 col.(food := if col.food > 0.0 then col.food + 1.0 else 0.0,
                      water := if col.water > 0.0 then col.water + 1.0 else 0.0)
               else col;
    var col := if f.poison > 0.0 || f.radiation > 0.0 then col.(water := 0.0, food := 0.0) else col;
    if f.requiredWater then col.(water := MaxReal(col.water, 3.0)) else col
  }

  /** Scavengeable resources: the workshop boost, herbs, the floor of 3 food for a
      required-food sector and the ranges -- food only above 2, herbs only above 2
      and at most 10 (lines 748-787). */
  function Scavengable(sca: Resources, f: SectorFacts, herbsDraw: real): Resources {
    var sca := WorkshopBoost(sca, f.workshopResource);
    var sca := sca.(herbs := HerbsAfter(sca.herbs, f, herbsDraw));
    var sca := if f.requiredFood then sca.(food := MaxReal(sca.food, 3.0)) else sca;
    sca.(food := if sca.food > 2.0 then sca.food else 0.0,
         herbs := if sca.herbs > 2.0 then MinReal(sca.herbs, 10.0) else 0.0)
  }

  /** generateResources after the raw yields. */
  function PostProcess(rawSca: Resources, rawCol: Resources, f: SectorFacts, springDraw: real, herbsDraw: real): (y: Yield)
    requires rawSca.NonNegative() && rawCol.NonNegative()
    // a required resource is there even on a poisoned or radiated sector
    ensures f.requiredWater ==> y.all.water >= 3.0
    ensures f.requiredFood ==> y.scavengable.food >= 3.0
    // all or nothing
    ensures y.scavengable.food == 0.0 || y.scavengable.food > 2.0
    ensures y.scavengable.herbs == 0.0 || 2.0 < y.scavengable.herbs <= 10.0
    // hazards leave nothing to collect beyond what is required
    ensures (f.poison > 0.0 || f.radiation > 0.0) && !f.requiredWater ==> y.collectable.water == 0.0
    ensures (f.poison > 0.0 || f.radiation > 0.0) ==> y.collectable.food == 0.0
    // the workshop's resource
    ensures f.workshopResource.Some? && f.workshopResource.value != Herbs ==>
              y.scavengable.Get(f.workshopResource.value) >= 3.0
    // the sum and the signs
    ensures forall n :: y.all.Get(n) == y.scavengable.Get(n) + y.collectable.Get(n)
    ensures y.scavengable.NonNegative() && y.collectable.NonNegative() && y.all.NonNegative()
    // what the rules do not touch
    ensures forall n :: n != Food && n != Herbs && (f.workshopResource.None? || n != f.workshopResource.value) ==>
              y.scavengable.Get(n) == rawSca.Get(n)
    ensures forall n :: n != Food && n != Water ==> y.collectable.Get(n) == rawCol.Get(n)
    ensures y.hasSpring <==> (rawCol.water > 0.0 || rawSca.water > 0.0) && springDraw < 0.25
  {
    var sca := Scavengable(rawSca, f, herbsDraw);
    var col := Collectable(rawCol, f);
    ScavengableFacts(rawSca, f, herbsDraw);
    CollectableFacts(rawCol, f);
    assert sca.Get(Water) >= 0.0;
    Yield(sca, col, sca.Plus(col), HasSpring(rawSca, rawCol, springDraw))
  }

  lemma ScavengableFacts(rawSca: Resources, f: SectorFacts, herbsDraw: real)
    requires rawSca.NonNegative()
    ensures var sca := Scavengable(rawSca, f, herbsDraw);
            && (f.requiredFood ==> sca.food >= 3.0)
            && (sca.food == 0.0 || sca.food > 2.0)
            && (sca.herbs == 0.0 || 2.0 < sca.herbs <= 10.0)
            && (f.workshopResource.Some? && f.workshopResource.value != Herbs ==> sca.Get(f.workshopResource.value) >= 3.0)
            && sca.NonNegative()
            && (forall n :: n != Food && n != Herbs && (f.workshopResource.None? || n != f.workshopResource.value) ==>
                  sca.Get(n) == rawSca.Get(n))
  {
    var boosted := WorkshopBoost(rawSca, f.workshopResource);
    assert boosted.NonNegative() by {
      forall n ensures boosted.Get(n) >= 0.0 {
        assert rawSca.Get(n) >= 0.0;
      }
    }
    assert boosted.food >= 0.0 by { assert boosted.Get(Food) == boosted.food; }
    var sca := Scavengable(rawSca, f, herbsDraw);
    forall n ensures sca.Get(n) >= 0.0 {
      assert boosted.Get(n) >= 0.0;
    }
  }

  lemma CollectableFacts(rawCol: Resources, f: SectorFacts)
    requires rawCol.NonNegative()
    ensures var col := Collectable(rawCol, f);
            && (f.requiredWater ==> col.water >= 3.0)
            && ((f.poison > 0.0 || f.radiation > 0.0) && !f.requiredWater ==> col.water == 0.0)
            && ((f.poison > 0.0 || f.radiation > 0.0) ==> col.food == 0.0)
            && col.NonNegative()
            && (forall n :: n != Food && n != Water ==> col.Get(n) == rawCol.Get(n))
  {
    var col := Collectable(rawCol, f);
    assert rawCol.Get(Food) >= 0.0 && rawCol.Get(Water) >= 0.0;
    forall n ensures col.Get(n) >= 0.0 {
      assert rawCol.Get(n) >= 0.0;
    }
  }

  /** generateResources for one sector from its raw yields. */
  method GenerateResources(sector: Sector, bottom: int, rawSca: Resources, rawCol: Resources,
                           springDraw: real, herbsDraw: real)
    requires rawSca.NonNegative() && rawCol.NonNegative()
    modifies sector`resourcesScavengable, sector`resourcesCollectable, sector`resourcesAll, sector`hasSpring
    ensures var y := PostProcess(rawSca, rawCol, Facts(sector, bottom), springDraw, herbsDraw);
            && sector.resourcesScavengable == y.scavengable
            && sector.resourcesCollectable == y.collectable
            && sector.resourcesAll == y.all
            && sector.hasSpring == y.hasSpring
  {
    var y := PostProcess(rawSca, rawCol, Facts(sector, bottom), springDraw, herbsDraw);
    sector.hasSpring := y.hasSpring;
    sector.resourcesScavengable := y.scavengable;
    sector.resourcesCollectable := y.collectable;
    sector.resourcesAll := y.all;
  }

  /** The sector fields generateResources consults. */
  function Facts(sector: Sector, bottom: int): SectorFacts
    reads sector
  {
    SectorFacts(sector.pos.level, bottom, sector.wear, sector.sunlit, sector.poison, sector.radiation,
                sector.requiredWater, sector.requiredFood, sector.workshopResource)
  }
}
