// The entities the sector generator decorates: the world, its levels and their
// sectors (mutable records created upstream and annotated in place), and the
// value types the annotation passes write into them.

module WorldModel {

  datatype Option<T> = None | Some(value: T)

  // ---------------------------------------------------------------------
  // The external pseudo-random service.  Its body is not part of this model;
  // each draw is handed to the model as a parameter constrained by the
  // service's contract.
  // ---------------------------------------------------------------------

  /** `random(seed)` yields a real in [0, 1). */
  predicate IsDraw(r: real) {
    0.0 <= r < 1.0
  }

  /** `randomInt(seed, lo, hi)` yields an integer in [lo, hi) when lo < hi;
      for an empty range it yields lo (floor(r * 0) + lo). */
  predicate IsIntDraw(k: int, lo: int, hi: int) {
    if lo < hi then lo <= k < hi else k == lo
  }

  // ---------------------------------------------------------------------
  // Arithmetic of the source's numbers.
  // ---------------------------------------------------------------------

  /** Math.round: halves round towards positive infinity. */
  function Round(x: real): (r: int)
    ensures x - 0.5 < r as real <= x + 0.5
  {
    (x + 0.5).Floor
  }

  /** MathUtils.clamp on reals. */
  function Clamp(x: real, lo: real, hi: real): (r: real)
    requires lo <= hi
    ensures lo <= r <= hi
    ensures lo <= x <= hi ==> r == x
  {
    if x < lo then lo else if x > hi then hi else x
  }

  /** The same clamp applied to integer arguments, whose result is an integer. */
  function ClampInt(x: int, lo: int, hi: int): (r: int)
    requires lo <= hi
    ensures lo <= r <= hi
    ensures lo <= x <= hi ==> r == x
  {
    Clamp(x as real, lo as real, hi as real).Floor
  }

  function MaxReal(a: real, b: real): real { if a >= b then a else b }
  function MinReal(a: real, b: real): real { if a <= b then a else b }

  // ---------------------------------------------------------------------
  // Enumerations of the game constants the generator writes.
  // ---------------------------------------------------------------------

  datatype Zone =
    | Entrance | PassageToCamp | PassageToPassage | CampToPassage
    | Poi1 | Poi2 | ExtraCampable | ExtraUncampable
    | PoiTemp  // Voronoi-anchor tag resolved to Poi1 or Poi2 by stage

  datatype Stage = Early | Late

  datatype SectorType = Residential | Industrial | Maintenance | Commercial | Public | Slum

  datatype PassageType = Stairwell | Elevator | Hole | Blocked

  datatype BlockerType = Debris | Gap | WasteToxic | WasteRadioactive | Gang

  datatype CriticalPathType =
    | PathPassageToCamp | PathPassageToPassage | PathCampToPoi1 | PathCampToPoi2 | PathCampToPassage

  datatype FeatureType = HoleWell | HoleCollapse | HoleSea | HoleMountain | OtherFeature

  datatype UncampableReason = Pollution | Radiation | OtherReason

  datatype LocaleType =
    | House | Market | Lab | Sewer | Camp | Hut | Hermit | Caravan | Warehouse
    | Transport | Factory | MaintenanceLocale | Library | TradingPartner | Grove

  datatype Locale = Locale(localeType: Option<LocaleType>, isEasy: bool, isEarly: bool)

  datatype StashType = StashItem

  datatype Stash = Stash(stashType: StashType, amount: real, itemID: string)

  datatype Position = Position(level: int, x: int, y: int)

  /** A compass direction as the signs of the coordinate differences. */
  datatype Direction = Direction(dx: int, dy: int)

  function Sign(v: int): int { if v < 0 then -1 else if v > 0 then 1 else 0 }

  /** The direction in which `b` lies as seen from `a`. */
  function DirectionFrom(a: Position, b: Position): Direction {
    Direction(Sign(b.x - a.x), Sign(b.y - a.y))
  }

  function Opposite(d: Direction): Direction {
    Direction(-d.dx, -d.dy)
  }

  /** Looking back from `b` towards `a` is the opposite direction. */
  lemma DirectionFromReversed(a: Position, b: Position)
    ensures DirectionFrom(b, a) == Opposite(DirectionFrom(a, b))
  {
  }

  // ---------------------------------------------------------------------
  // Resource bundles (ResourcesVO).
  // ---------------------------------------------------------------------

  datatype ResourceName = Water | Food | Metal | Tools | Rope | Fuel | Rubber | Herbs | Medicine

  datatype Resources = Resources(
    water: real, food: real, metal: real, tools: real, rope: real,
    fuel: real, rubber: real, herbs: real, medicine: real)
  {
    function Get(n: ResourceName): real {
      match n
      case Water => water
      case Food => food
      case Metal => metal
      case Tools => tools
      case Rope => rope
      case Fuel => fuel
      case Rubber => rubber
      case Herbs => herbs
      case Medicine => medicine
    }

    /** Writes one named amount; every other amount is kept. */
    function Set(n: ResourceName, v: real): (r: Resources)
      ensures r.Get(n) == v
      ensures forall m :: m != n ==> r.Get(m) == Get(m)
    {
      match n
      case Water => this.(water := v)
      case Food => this.(food := v)
      case Metal => this.(metal := v)
      case Tools => this.(tools := v)
      case Rope => this.(rope := v)
      case Fuel => this.(fuel := v)
      case Rubber => this.(rubber := v)
      case Herbs => this.(herbs := v)
      case Medicine => this.(medicine := v)
    }

    /** `clone()` followed by `addAll(other)`: the element-wise sum. */
    function Plus(other: Resources): (r: Resources)
      ensures forall n :: r.Get(n) == Get(n) + other.Get(n)
    {
      Resources(water + other.water, food + other.food, metal + other.metal,
                tools + other.tools, rope + other.rope, fuel + other.fuel,
                rubber + other.rubber, herbs + other.herbs, medicine + other.medicine)
    }

    predicate NonNegative() {
      forall n :: Get(n) >= 0.0
    }
  }

  const NoResources := Resources(0.0, 0.0, 0.0, 0.0, 0.0, 0.0, 0.0, 0.0, 0.0)

  // ---------------------------------------------------------------------
  // The mutable records.
  // ---------------------------------------------------------------------

  /** SectorVO: fixed upstream attributes as constants, generated ones as fields. */
  class Sector {
    const pos: Position
    const stage: Stage
    const isCamp: bool          // the camp anchor (read by the texture pass)
    const camp: bool            // the camp flag read by blocker placement
    const isPassageUp: bool
    const isPassageDown: bool
    const poison: real          // hazards.poison
    const radiation: real       // hazards.radiation

    var zone: Option<Zone>
    var pathID: Option<int>
    var requiredWater: bool
    var requiredFood: bool
    var sectorType: Option<SectorType>
    var sunlit: bool
    var passageUpType: Option<PassageType>
    var passageDownType: Option<PassageType>
    var wear: int
    var damage: int
    var buildingDensity: int
    var resourcesScavengable: Resources
    var resourcesCollectable: Resources
    var resourcesAll: Resources
    var hasSpring: bool
    var stashItem: Option<string>
    var stash: Option<Stash>
    var hasWorkshop: bool
    var workshopResource: Option<ResourceName>
    var locales: seq<Locale>
    var movementBlockers: map<Direction, BlockerType>
    var criticalPaths: seq<CriticalPathType>
  }

  /** LevelVO: the sector list, the (x, y) grid over the same sectors and the
      locale bookkeeping. */
  class Level {
    const level: int
    const isCampable: bool
    const levelOrdinal: int
    const campOrdinal: int
    const notCampableReason: Option<UncampableReason>
    const sectors: seq<Sector>
    const grid: map<(int, int), Sector>

    var localeSectors: seq<Sector>
    var numLocales: int

    /** The grid and the sector list hold the same sectors, each under its own
        coordinates, and every sector lies on this level. */
    ghost predicate Valid() {
      && (forall s :: s in sectors ==> (s.pos.x, s.pos.y) in grid && grid[(s.pos.x, s.pos.y)] == s)
      && (forall k :: k in grid ==> grid[k] in sectors && grid[k].pos.x == k.0 && grid[k].pos.y == k.1)
      && (forall s :: s in sectors ==> s.pos.level == level)
    }

    /** getSector(x, y): the sector at those coordinates, if any. */
    function GetSector(x: int, y: int): (r: Option<Sector>)
      ensures r.Some? <==> (x, y) in grid
      ensures r.Some? ==> r.value == grid[(x, y)]
    {
      if (x, y) in grid then Some(grid[(x, y)]) else None
    }

    function SectorSet(): set<Sector> {
      set s | s in sectors
    }
  }

  /** No sector appears twice. */
  predicate Distinct(sectors: seq<Sector>) {
    forall i, j :: 0 <= i < j < |sectors| ==> sectors[i] != sectors[j]
  }

  /** Every position of a path names a sector of the level's grid. */
  predicate OnGrid(level: Level, path: seq<Position>) {
    forall i :: 0 <= i < |path| ==> (path[i].x, path[i].y) in level.grid
  }

  /** The sector of the level at a grid position. */
  function SectorAt(level: Level, p: Position): Sector
    requires (p.x, p.y) in level.grid
  {
    level.grid[(p.x, p.y)]
  }

  /** WorldVO: the level range and the path cache that `resetPaths` drops. */
  class World {
    const topLevel: int
    const bottomLevel: int
    var pathCacheResets: nat   // how many times resetPaths() ran
  }
}
