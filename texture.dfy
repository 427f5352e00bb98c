// Sector texture (generateTexture): wear from the level depth, damage from the
// holes at and around the sector, building density from the level and the
// sector type.  Every value ends up clamped to the range the game expects.

module Texture {
  import opened WorldModel

  // ---------------------------------------------------------------------
  // Wear
  // ---------------------------------------------------------------------

  /** The level's wear: 0 at the top level growing by 8 / (top - 5) per level
      down, clamped to [0, 10]. */
  function LevelWear(l: int, top: int): (r: real)
    requires top != 5
    ensures 0.0 <= r <= 10.0
  {
    Clamp((top - l) as real / (top - 5) as real * 8.0, 0.0, 10.0)
  }

  /** Deeper levels are never less worn. */
  lemma LevelWearDeepens(l1: int, l2: int, top: int)
    requires top > 5 && l1 <= l2
    ensures LevelWear(l2, top) <= LevelWear(l1, top)
  {
    var d := (top - 5) as real;
    assert (top - l2) as real <= (top - l1) as real;
    assert (top - l2) as real / d <= (top - l1) as real / d;
  }

  /** The sector's wear: the level's wear shifted by a draw in [-3, 3), at most 3
      in a camp, rounded and clamped to [0, 10]. */
  function Wear(levelWear: real, k: int, isCamp: bool): (r: int)
    ensures 0 <= r <= 10
    ensures isCamp ==> r <= 3
  {
    var wear := levelWear + k as real;
    var wear := if isCamp then MinReal(3.0, wear) else wear;
    ClampInt(Round(wear), 0, 10)
  }

  /** Outside camps the sector's wear lies within 3.5 of its level's. */
  lemma WearNearLevel(levelWear: real, k: int)
    requires 0.0 <= levelWear <= 10.0 && IsIntDraw(k, -3, 3)
    ensures levelWear - 3.5 < Wear(levelWear, k, false) as real <= levelWear + 3.5
  {
  }

  // ---------------------------------------------------------------------
  // Damage
  // ---------------------------------------------------------------------

  /** getFeatureDamage. */
  function FeatureDamage(f: FeatureType): (r: int)
    ensures 0 <= r <= 8
    ensures r > 0 <==> f == HoleWell || f == HoleCollapse || f == HoleSea
  {
    match f
    case HoleWell => 1
    case HoleCollapse => 8
    case HoleSea => 3
    case _ => 0
  }

  /** A feature near the sector and its distance from it. */
  datatype NearbyFeature = NearbyFeature(featureType: FeatureType, distance: real)

  function NearbyDamage(f: NearbyFeature): real {
    FeatureDamage(f.featureType) as real - f.distance * 2.0
  }

  /** The two feature loops: the largest damage of a feature at the sector, of a
      nearby feature less twice its distance, and 0. */
  method FeatureDamageMax(features: seq<FeatureType>, nearby: seq<NearbyFeature>) returns (damage: real)
    ensures damage >= 0.0
    ensures forall i :: 0 <= i < |features| ==> FeatureDamage(features[i]) as real <= damage
    ensures forall i :: 0 <= i < |nearby| ==> NearbyDamage(nearby[i]) <= damage
    ensures damage == 0.0
            || (exists i :: 0 <= i < |features| && damage == FeatureDamage(features[i]) as real)
            || (exists i :: 0 <= i < |nearby| && damage == NearbyDamage(nearby[i]))
  {
    damage := 0.0;
    var i := 0;
    while i < |features|
      invariant 0 <= i <= |features|
      invariant damage >= 0.0
      invariant forall j :: 0 <= j < i ==> FeatureDamage(features[j]) as real <= damage
      invariant damage == 0.0 || exists j :: 0 <= j < i && damage == FeatureDamage(features[j]) as real
    {
      damage := MaxReal(damage, FeatureDamage(features[i]) as real);
      i := i + 1;
    }
    i := 0;
    while i < |nearby|
      invariant 0 <= i <= |nearby|
      invariant damage >= 0.0
      invariant forall j :: 0 <= j < |features| ==> FeatureDamage(features[j]) as real <= damage
      invariant forall j :: 0 <= j < i ==> NearbyDamage(nearby[j]) <= damage
      invariant damage == 0.0
                || (exists j :: 0 <= j < |features| && damage == FeatureDamage(features[j]) as real)
                || (exists j :: 0 <= j < i && damage == NearbyDamage(nearby[j]))
    {
      damage := MaxReal(damage, NearbyDamage(nearby[i]));
      i := i + 1;
    }
  }

  /** The sector's damage: at most 3 in a camp, at least 3 on level 14, rounded and
      clamped to [0, 10]. */
  function Damage(featureDamage: real, isCamp: bool, l: int): (r: int)
    ensures 0 <= r <= 10
    ensures isCamp && l != 14 ==> r <= 3
    ensures l == 14 ==> r >= 3
    ensures isCamp && l == 14 ==> r == 3
  {
    var damage := if isCamp then MinReal(3.0, featureDamage) else featureDamage;
    var damage := if l == 14 then MaxReal(3.0, damage) else damage;
    ClampInt(Round(damage), 0, 10)
  }

  // ---------------------------------------------------------------------
  // Building density
  // ---------------------------------------------------------------------

  /** The level's density: ten times a draw clamped to [2, 9], then the fixed
      values of special levels, the later ones overriding the earlier. */
  function LevelDensity(l: int, top: int, bottom: int, rand: real): (r: real)
    ensures 2.0 <= r <= 9.0
    ensures l == bottom ==> r == 3.0
    ensures l == bottom + 1 ==> r == 6.0
    ensures l == 14 && l != bottom && l != bottom + 1 ==> r == 8.0
    ensures l == top && l != 14 && l != bottom && l != bottom + 1 ==> r == 5.0
  {
    var d := Clamp(rand * 10.0, 2.0, 9.0);
    var d := if l == top then 5.0 else d;
    var d := if l == top - 1 then 5.0 else d;
    var d := if l == top - 2 then 7.0 else d;
    var d := if l == top - 3 then 8.0 else d;
    var d := if l == 14 then 8.0 else d;
    var d := if l == bottom + 1 then 6.0 else d;
    if l == bottom then 3.0 else d
  }

  /** The density range of a sector type; an unknown type keeps [0, 10]. */
  function DensityRange(t: Option<SectorType>): (r: (int, int))
    ensures 0 <= r.0 <= r.1 <= 10
    ensures t == Some(Public) <==> r.1 == 7
  {
    match t
    case Some(Residential) => (2, 8)
    case Some(Industrial) => (1, 10)
    case Some(Maintenance) => (2, 10)
    case Some(Commercial) => (1, 10)
    case Some(Public) => (0, 7)
    case Some(Slum) => (3, 10)
    case None => (0, 10)
  }

  /** The sector's density: the mean of the level's density and a draw in the
      type's range (5 in a camp), rounded and clamped to the type's range. */
  function BuildingDensity(levelDensity: real, k: int, isCamp: bool, t: Option<SectorType>): (r: int)
    ensures DensityRange(t).0 <= r <= DensityRange(t).1
  {
    var (lo, hi) := DensityRange(t);
    var randomDensity := if isCamp then 5 else k;
    ClampInt(Round((levelDensity + randomDensity as real) / 2.0), lo, hi)
  }

  /** The clamp only bites when the level's density lies outside the type's range:
      with both parts in range the density is their rounded mean. */
  lemma DensityIsMeanInRange(levelDensity: real, k: int, t: Option<SectorType>)
    requires IsIntDraw(k, DensityRange(t).0, DensityRange(t).1 + 1)
    requires DensityRange(t).0 as real <= levelDensity <= DensityRange(t).1 as real
    ensures BuildingDensity(levelDensity, k, false, t) == Round((levelDensity + k as real) / 2.0)
  {
  }

  /** generateTexture for one sector; `kWear` and `kDensity` are the integer draws
      and `densityDraw` the level density draw.  The damage of the features is
      returned alongside. */
  method GenerateTexture(sector: Sector, top: int, bottom: int, features: seq<FeatureType>,
                         nearby: seq<NearbyFeature>, kWear: int, densityDraw: real, kDensity: int)
    returns (featureDamage: real)
    requires top != 5
    modifies sector`wear, sector`damage, sector`buildingDensity
    ensures sector.wear == Wear(LevelWear(sector.pos.level, top), kWear, sector.isCamp)
    ensures 0 <= sector.wear <= 10 && 0 <= sector.damage <= 10
    ensures sector.isCamp ==> sector.wear <= 3
    ensures sector.isCamp && sector.pos.level != 14 ==> sector.damage <= 3
    ensures sector.pos.level == 14 ==> sector.damage >= 3
    ensures sector.damage == Damage(featureDamage, sector.isCamp, sector.pos.level)
    ensures featureDamage >= 0.0
    ensures forall i :: 0 <= i < |features| ==> FeatureDamage(features[i]) as real <= featureDamage
    ensures forall i :: 0 <= i < |nearby| ==> NearbyDamage(nearby[i]) <= featureDamage
    ensures featureDamage == 0.0
            || (exists i :: 0 <= i < |features| && featureDamage == FeatureDamage(features[i]) as real)
            || (exists i :: 0 <= i < |nearby| && featureDamage == NearbyDamage(nearby[i]))
    ensures sector.buildingDensity
            == BuildingDensity(LevelDensity(sector.pos.level, top, bottom, densityDraw), kDensity, sector.isCamp, sector.sectorType)
    ensures DensityRange(sector.sectorType).0 <= sector.buildingDensity <= DensityRange(sector.sectorType).1
  {
    var l := sector.pos.level;
    sector.wear := Wear(LevelWear(l, top), kWear, sector.isCamp);
    featureDamage := FeatureDamageMax(features, nearby);
    sector.damage := Damage(featureDamage, sector.isCamp, l);
    sector.buildingDensity := BuildingDensity(LevelDensity(l, top, bottom, densityDraw), kDensity, sector.isCamp, sector.sectorType);
  }
}
