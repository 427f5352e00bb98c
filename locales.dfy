// Blueprint locales (generateLocales): the locale type cascade over the draw and
// the sector type, the bookkeeping of addLocale, and createLocales, which puts
// one locale on each sector the sampler picks and marks the first ones easy.

module Locales {
  import opened WorldModel

  /** getLocaleType: a lab near the top for a low draw, otherwise a choice by
      sector type; an unknown sector type gives no locale type (null).  The
      second case for public sectors (lines 879-883, lab/transport/library) is
      never reached because the residential case already takes public sectors,
      and the commercial test `localeRandom > 6` can never hold for a draw. */
  function LocaleTypeFor(rand: real, sectorType: Option<SectorType>, l: int, top: int, isEarly: bool): (r: Option<LocaleType>)
    ensures isEarly ==> r != Some(Hermit)
    ensures sectorType == Some(Commercial) && rand <= 6.0 ==> r != Some(Market)
    ensures r.None? <==> sectorType.None? && !(l >= top - 1 && rand < 0.25)
    ensures l >= top - 1 && rand < 0.25 ==> r == Some(Lab)
    ensures r == Some(Lab) ==> l >= top - 1 && rand < 0.25
    ensures r != Some(Library) && r != Some(TradingPartner) && r != Some(Grove)
  {
    if l >= top - 1 && rand < 0.25 then Some(Lab)
    else match sectorType
      case Some(Residential) | Some(Public) =>
        if rand > 0.7 then Some(House)
        else if rand > 0.6 then Some(Transport)
        else if rand > 0.55 then Some(Sewer)
        else if rand > 0.45 then Some(Warehouse)
        else if rand > 0.4 then Some(Camp)
        else if rand > 0.3 then Some(Hut)
        else if rand > 0.2 && !isEarly then Some(Hermit)
        else if rand > 0.1 then Some(Caravan)
        else Some(Market)
      case Some(Industrial) =>
        if rand > 0.5 then Some(Factory)
        else if rand > 0.3 then Some(Warehouse)
        else if rand > 0.2 then Some(Transport)
        else if rand > 0.1 then Some(Sewer)
        else Some(Market)
      case Some(Maintenance) =>
        if rand > 0.6 then Some(MaintenanceLocale)
        else if rand > 0.4 then Some(Transport)
        else if rand > 0.3 && !isEarly then Some(Hermit)
        else if rand > 0.2 then Some(Caravan)
        else Some(Sewer)
      case Some(Commercial) =>
        if rand > 6.0 then Some(Market)
        else if rand > 0.4 then Some(Warehouse)
        else if rand > 0.3 then Some(Transport)
        else if rand > 0.25 then Some(Hut)
        else if rand > 0.2 && !isEarly then Some(Hermit)
        else if rand > 0.15 && !isEarly then Some(Caravan)
        else Some(House)
      case Some(Slum) =>
        if rand > 0.4 then Some(House)
        else if rand > 0.35 then Some(Camp)
        else if rand > 0.3 then Some(Hut)
        else if rand > 0.25 && !isEarly then Some(Hermit)
        else Some(Sewer)
      case None => None
  }

  /** A hermit in the draw band that gives one on a late pass turns into the next
      type down on an early pass. */
  lemma EarlyReplacesHermit(rand: real, sectorType: Option<SectorType>, l: int, top: int)
    requires LocaleTypeFor(rand, sectorType, l, top, false) == Some(Hermit)
    ensures LocaleTypeFor(rand, sectorType, l, top, true) != Some(Hermit)
    ensures sectorType == Some(Slum) ==> LocaleTypeFor(rand, sectorType, l, top, true) == Some(Sewer)
    ensures sectorType == Some(Commercial) ==> LocaleTypeFor(rand, sectorType, l, top, true) == Some(House)
    ensures sectorType == Some(Maintenance) || sectorType == Some(Residential) || sectorType == Some(Public)
            ==> LocaleTypeFor(rand, sectorType, l, top, true) == Some(Caravan)
  {
  }

  /** The zones a pass keeps its locales out of (line 900). */
  function ExcludedZones(isEarly: bool): set<Zone> {
    if isEarly then {Poi2, ExtraCampable, CampToPassage} else {PassageToCamp, Poi1, ExtraCampable}
  }

  /** The sampler's answer lies outside the pass's excluded zones; a sector with
      no zone yet is not excluded. */
  predicate OutsideExcluded(s: Sector, isEarly: bool)
    reads s`zone
  {
    s.zone.Some? ==> s.zone.value !in ExcludedZones(isEarly)
  }

  /** Only the extra campable zone is closed to both passes; the camp corridor and
      the first point of interest are open to early locales, the second point of
      interest and the corridor to the next passage to late ones. */
  lemma ExcludedZonesSplit(z: Zone)
    ensures z in ExcludedZones(true) && z in ExcludedZones(false) <==> z == ExtraCampable
    ensures z == PassageToCamp || z == Poi1 ==> z !in ExcludedZones(true)
    ensures z == Poi2 || z == CampToPassage ==> z !in ExcludedZones(false)
  {
  }

  /** The locale bookkeeping holds one locale sector per counted locale. */
  predicate LocalesCounted(numLocales: int, localeSectors: seq<Sector>) {
    numLocales == |localeSectors|
  }

  /** addLocale: appends the locale to the sector and the sector to the level's
      locale sectors, and counts it. */
  method AddLocale(level: Level, sector: Sector, locale: Locale)
    modifies sector`locales, level`localeSectors, level`numLocales
    ensures sector.locales == old(sector.locales) + [locale]
    ensures level.localeSectors == old(level.localeSectors) + [sector]
    ensures level.numLocales == old(level.numLocales) + 1
    ensures LocalesCounted(old(level.numLocales), old(level.localeSectors))
            ==> LocalesCounted(level.numLocales, level.localeSectors)
  {
    sector.locales := sector.locales + [locale];
    level.localeSectors := level.localeSectors + [sector];
    level.numLocales := level.numLocales + 1;
  }

  /** One trading partner: the sampled sector of the partner's level gets an
      easy, late trading-partner locale, listed on that level. */
  method SpawnTradingPartner(level: Level, sector: Sector)
    modifies sector`locales, level`localeSectors, level`numLocales
    ensures sector.locales == old(sector.locales) + [Locale(Some(TradingPartner), true, false)]
    ensures level.localeSectors == old(level.localeSectors) + [sector]
    ensures level.numLocales == old(level.numLocales) + 1
    ensures LocalesCounted(old(level.numLocales), old(level.localeSectors))
            ==> LocalesCounted(level.numLocales, level.localeSectors)
  {
    AddLocale(level, sector, Locale(Some(TradingPartner), true, false));
  }

  /** Every sector in the level's locale list is one of its own sectors. */
  predicate LocalesOnLevel(level: Level)
    reads level
  {
    forall k :: 0 <= k < |level.localeSectors| ==> level.localeSectors[k] in level.sectors
  }

  /** The grove as written: the sampled sector of the bottom level is made sunlit
      and gets an easy, late grove locale, but addLocale lists it on `listLevel`,
      the level the partner loop left in the shared `levelVO` variable (the last
      partner's level, or the level generateLocales was called with when there
      are no partners).  On any other level than the bottom one, that list then
      holds a sector the level does not own. */
  method SpawnGrove(listLevel: Level, bottomLevel: Level, groveSector: Sector)
    requires groveSector in bottomLevel.sectors
    modifies groveSector`sunlit, groveSector`locales, listLevel`localeSectors, listLevel`numLocales
    ensures groveSector.sunlit
    ensures groveSector.locales == old(groveSector.locales) + [Locale(Some(Grove), true, false)]
    ensures listLevel.localeSectors == old(listLevel.localeSectors) + [groveSector]
    ensures listLevel.numLocales == old(listLevel.numLocales) + 1
    ensures LocalesCounted(old(listLevel.numLocales), old(listLevel.localeSectors))
            ==> LocalesCounted(listLevel.numLocales, listLevel.localeSectors)
    ensures listLevel.Valid() && bottomLevel.Valid() && listLevel.level != bottomLevel.level
            ==> !LocalesOnLevel(listLevel)
  {
    groveSector.sunlit := true;
    AddLocale(listLevel, groveSector, Locale(Some(Grove), true, false));
    if listLevel.Valid() && bottomLevel.Valid() && listLevel.level != bottomLevel.level {
      assert groveSector.pos.level == bottomLevel.level;
      assert listLevel.localeSectors[|listLevel.localeSectors| - 1] !in listLevel.sectors;
    }
  }

  /** The grove as evidently intended: listed and counted on the bottom level it
      was sampled from, so that level's locale list keeps only its own sectors. */
  method SpawnGroveOnBottom(bottomLevel: Level, groveSector: Sector)
    requires groveSector in bottomLevel.sectors
    modifies groveSector`sunlit, groveSector`locales, bottomLevel`localeSectors, bottomLevel`numLocales
    ensures groveSector.sunlit
    ensures groveSector.locales == old(groveSector.locales) + [Locale(Some(Grove), true, false)]
    ensures bottomLevel.localeSectors == old(bottomLevel.localeSectors) + [groveSector]
    ensures bottomLevel.numLocales == old(bottomLevel.numLocales) + 1
    ensures LocalesCounted(old(bottomLevel.numLocales), old(bottomLevel.localeSectors))
            ==> LocalesCounted(bottomLevel.numLocales, bottomLevel.localeSectors)
    ensures old(LocalesOnLevel(bottomLevel)) ==> LocalesOnLevel(bottomLevel)
  {
    groveSector.sunlit := true;
    AddLocale(bottomLevel, groveSector, Locale(Some(Grove), true, false));
  }

  /** The sectors among the first `n` answers of the sampler, skipping the empty
      answers. */
  function Picked(picks: seq<Option<Sector>>, n: nat): (r: seq<Sector>)
    requires n <= |picks|
    ensures |r| <= n
    ensures forall i :: 0 <= i < |r| ==> Some(r[i]) in picks[..n]
    ensures forall i :: 0 <= i < n && picks[i].Some? ==> picks[i].value in r
  {
    if n == 0 then []
    else Picked(picks, n - 1) + (if picks[n - 1].Some? then [picks[n - 1].value] else [])
  }

  /** Sectors the sampler chose outside the excluded zones stay outside them
      once picked. */
  lemma {:induction false} PickedOutside(picks: seq<Option<Sector>>, n: nat, isEarly: bool)
    requires n <= |picks|
    requires forall i :: 0 <= i < |picks| && picks[i].Some? ==> OutsideExcluded(picks[i].value, isEarly)
    ensures forall k :: 0 <= k < |Picked(picks, n)| ==> OutsideExcluded(Picked(picks, n)[k], isEarly)
  {
    if n > 0 {
      PickedOutside(picks, n - 1, isEarly);
    }
  }

  /** The locale createLocales builds for the i-th pick: the first countEasy + 1
      indices (0 to countEasy) are easy. */
  function NewLocale(i: int, rand: real, sectorType: Option<SectorType>, l: int, top: int, isEarly: bool, countEasy: int): Locale {
    Locale(LocaleTypeFor(rand, sectorType, l, top, isEarly), i <= countEasy, isEarly)
  }

  /** The locales the first `n` picks add to the sector `s` of type `t`, in order. */
  function LocalesFor(s: Sector, t: Option<SectorType>, picks: seq<Option<Sector>>, draws: seq<real>,
                      l: int, top: int, isEarly: bool, countEasy: int, n: nat): seq<Locale>
    requires n <= |picks| == |draws|
  {
    if n == 0 then []
    else LocalesFor(s, t, picks, draws, l, top, isEarly, countEasy, n - 1)
         + (if picks[n - 1] == Some(s) then [NewLocale(n - 1, draws[n - 1], t, l, top, isEarly, countEasy)] else [])
  }

  /** One iteration of createLocales: the locale for the i-th answer, if any, goes
      to the picked sector. */
  method PlacePick(level: Level, top: int, isEarly: bool, countEasy: int,
                   picks: seq<Option<Sector>>, draws: seq<real>, i: nat)
    returns (added: seq<Locale>)
    requires i < |picks| == |draws|
    requires picks[i].Some? ==> picks[i].value in level.sectors
    modifies level.SectorSet()`locales, level`localeSectors, level`numLocales
    ensures forall s :: s in level.sectors ==>
              s.locales == old(s.locales)
                           + (if picks[i] == Some(s) then [NewLocale(i, draws[i], s.sectorType, level.level, top, isEarly, countEasy)] else [])
    ensures level.localeSectors == old(level.localeSectors) + (if picks[i].Some? then [picks[i].value] else [])
    ensures level.numLocales == old(level.numLocales) + (if picks[i].Some? then 1 else 0)
    ensures LocalesCounted(old(level.numLocales), old(level.localeSectors))
            ==> LocalesCounted(level.numLocales, level.localeSectors)
    ensures FlagsMatch(added, if picks[i].Some? then [i <= countEasy] else [], isEarly)
  {
    added := [];
    if picks[i].Some? {
      var sector := picks[i].value;
      var locale := NewLocale(i, draws[i], sector.sectorType, level.level, top, isEarly, countEasy);
      AddLocale(level, sector, locale);
      added := [locale];
    }
  }

  /** The easy flags of the locales the first `n` picks create, in order: the
      locale of pick i is easy when i <= countEasy. */
  function EasyFlags(picks: seq<Option<Sector>>, countEasy: int, n: nat): (r: seq<bool>)
    requires n <= |picks|
    ensures |r| <= n
  {
    if n == 0 then []
    else EasyFlags(picks, countEasy, n - 1) + (if picks[n - 1].Some? then [n - 1 <= countEasy] else [])
  }

  /** The created locales carry the flags and belong to the pass. */
  predicate FlagsMatch(created: seq<Locale>, flags: seq<bool>, isEarly: bool) {
    |created| == |flags| && forall i :: 0 <= i < |created| ==> created[i].isEasy == flags[i] && created[i].isEarly == isEarly
  }

  lemma FlagsMatchStep(created: seq<Locale>, added: seq<Locale>, picks: seq<Option<Sector>>, countEasy: int,
                       i: nat, isEarly: bool)
    requires i < |picks|
    requires FlagsMatch(created, EasyFlags(picks, countEasy, i), isEarly)
    requires FlagsMatch(added, if picks[i].Some? then [i <= countEasy] else [], isEarly)
    ensures FlagsMatch(created + added, EasyFlags(picks, countEasy, i + 1), isEarly)
  {
  }

  /** With every pick answered, the flags are those of the indices 0 .. n-1. */
  lemma {:induction false} AnsweredFlags(picks: seq<Option<Sector>>, countEasy: int, n: nat)
    requires n <= |picks|
    requires forall i :: 0 <= i < |picks| ==> picks[i].Some?
    ensures |EasyFlags(picks, countEasy, n)| == n
    ensures forall i :: 0 <= i < n ==> (EasyFlags(picks, countEasy, n)[i] <==> i <= countEasy)
  {
    if n > 0 {
      AnsweredFlags(picks, countEasy, n - 1);
      assert picks[n - 1].Some?;
    }
  }

  /** createLocales for one level and pass; `picks[i]` is the sampler's answer at
      index i (none when it found no sector), which keeps out of the pass's excluded
      zones (line 900), and `draws[i]` the locale draw.  The locales are returned
      in the order they were created. */
  method CreateLocales(level: Level, top: int, isEarly: bool, countEasy: int,
                       picks: seq<Option<Sector>>, draws: seq<real>)
    returns (created: seq<Locale>)
    requires |picks| == |draws|
    requires forall i :: 0 <= i < |picks| && picks[i].Some? ==> picks[i].value in level.sectors
    requires forall i :: 0 <= i < |picks| && picks[i].Some? ==> OutsideExcluded(picks[i].value, isEarly)
    modifies level.SectorSet()`locales, level`localeSectors, level`numLocales
    ensures level.localeSectors == old(level.localeSectors) + Picked(picks, |picks|)
    ensures forall k :: |old(level.localeSectors)| <= k < |level.localeSectors| ==> OutsideExcluded(level.localeSectors[k], isEarly)
    ensures level.numLocales == old(level.numLocales) + |Picked(picks, |picks|)|
    ensures LocalesCounted(old(level.numLocales), old(level.localeSectors))
            ==> LocalesCounted(level.numLocales, level.localeSectors)
    ensures forall s :: s in level.sectors ==>
              s.locales == old(s.locales) + LocalesFor(s, s.sectorType, picks, draws, level.level, top, isEarly, countEasy, |picks|)
    ensures |created| == |Picked(picks, |picks|)|
    ensures FlagsMatch(created, EasyFlags(picks, countEasy, |picks|), isEarly)
  {
    created := PlacePicks(level, top, isEarly, countEasy, picks, draws);
    PickedOutside(picks, |picks|, isEarly);
    forall k | |old(level.localeSectors)| <= k < |level.localeSectors|
      ensures OutsideExcluded(level.localeSectors[k], isEarly)
    {
      assert level.localeSectors[k] == Picked(picks, |picks|)[k - |old(level.localeSectors)|];
    }
  }

  /** The loop of createLocales: every pick in turn, with its locale draw. */
  method PlacePicks(level: Level, top: int, isEarly: bool, countEasy: int,
                    picks: seq<Option<Sector>>, draws: seq<real>)
    returns (created: seq<Locale>)
    requires |picks| == |draws|
    requires forall i :: 0 <= i < |picks| && picks[i].Some? ==> picks[i].value in level.sectors
    modifies level.SectorSet()`locales, level`localeSectors, level`numLocales
    ensures level.localeSectors == old(level.localeSectors) + Picked(picks, |picks|)
    ensures level.numLocales == old(level.numLocales) + |Picked(picks, |picks|)|
    ensures LocalesCounted(old(level.numLocales), old(level.localeSectors))
            ==> LocalesCounted(level.numLocales, level.localeSectors)
    ensures forall s :: s in level.sectors ==>
              s.locales == old(s.locales) + LocalesFor(s, s.sectorType, picks, draws, level.level, top, isEarly, countEasy, |picks|)
    ensures |created| == |Picked(picks, |picks|)|
    ensures FlagsMatch(created, EasyFlags(picks, countEasy, |picks|), isEarly)
  {
    ghost var base := map s | s in level.sectors :: s.locales;
    created := [];
    var i := 0;
    while i < |picks|
      invariant 0 <= i <= |picks|
      invariant forall s :: s in level.sectors ==> s in base && base[s] == old(s.locales)
      invariant level.localeSectors == old(level.localeSectors) + Picked(picks, i)
      invariant level.numLocales == old(level.numLocales) + |Picked(picks, i)|
      invariant SectorLocales(level, base, picks, draws, top, isEarly, countEasy, i)
      invariant |created| == |Picked(picks, i)|
      invariant FlagsMatch(created, EasyFlags(picks, countEasy, i), isEarly)
    {
      created := PlaceNext(level, top, isEarly, countEasy, picks, draws, i, base, created);
      assert Picked(picks, i + 1) == Picked(picks, i) + (if picks[i].Some? then [picks[i].value] else []);
      i := i + 1;
    }
  }

  /** Every sector holds its locales from before the loop followed by those of
      the first `i` picks. */
  predicate SectorLocales(level: Level, base: map<Sector, seq<Locale>>, picks: seq<Option<Sector>>, draws: seq<real>,
                          top: int, isEarly: bool, countEasy: int, i: nat)
    requires i <= |picks| == |draws|
    reads level, level.SectorSet()
  {
    forall s :: s in level.sectors ==>
      s in base && s.locales == base[s] + LocalesFor(s, s.sectorType, picks, draws, level.level, top, isEarly, countEasy, i)
  }

  /** One turn of the loop of createLocales, with its bookkeeping. */
  method PlaceNext(level: Level, top: int, isEarly: bool, countEasy: int,
                   picks: seq<Option<Sector>>, draws: seq<real>, i: nat,
                   ghost base: map<Sector, seq<Locale>>, created: seq<Locale>)
    returns (next: seq<Locale>)
    requires i < |picks| == |draws|
    requires picks[i].Some? ==> picks[i].value in level.sectors
    requires SectorLocales(level, base, picks, draws, top, isEarly, countEasy, i)
    requires FlagsMatch(created, EasyFlags(picks, countEasy, i), isEarly)
    modifies level.SectorSet()`locales, level`localeSectors, level`numLocales
    ensures SectorLocales(level, base, picks, draws, top, isEarly, countEasy, i + 1)
    ensures level.localeSectors == old(level.localeSectors) + (if picks[i].Some? then [picks[i].value] else [])
    ensures level.numLocales == old(level.numLocales) + (if picks[i].Some? then 1 else 0)
    ensures |next| == |created| + (if picks[i].Some? then 1 else 0)
    ensures FlagsMatch(next, EasyFlags(picks, countEasy, i + 1), isEarly)
  {
    var added := PlacePick(level, top, isEarly, countEasy, picks, draws, i);
    forall s | s in level.sectors
      ensures s in base && s.locales == base[s] + LocalesFor(s, s.sectorType, picks, draws, level.level, top, isEarly, countEasy, i + 1)
    {
      assert s.locales == old(s.locales)
                          + (if picks[i] == Some(s) then [NewLocale(i, draws[i], s.sectorType, level.level, top, isEarly, countEasy)] else []);
    }
    FlagsMatchStep(created, added, picks, countEasy, i, isEarly);
    next := created + added;
  }

  /** How many of the locales are easy. */
  function NumEasy(locales: seq<Locale>): nat {
    if |locales| == 0 then 0
    else NumEasy(locales[..|locales| - 1]) + (if locales[|locales| - 1].isEasy then 1 else 0)
  }

  /** With every pick answered, `i <= countEasy` makes countEasy + 1 locales easy
      (or all of them when fewer are created), one more than the minimum count it
      is given. */
  lemma EasyLocaleCount(created: seq<Locale>, picks: seq<Option<Sector>>, countEasy: int, isEarly: bool)
    requires countEasy >= 0
    requires forall i :: 0 <= i < |picks| ==> picks[i].Some?
    requires FlagsMatch(created, EasyFlags(picks, countEasy, |picks|), isEarly)
    ensures NumEasy(created) == if |picks| <= countEasy + 1 then |picks| else countEasy + 1
  {
    AnsweredFlags(picks, countEasy, |picks|);
    EasyPrefixCount(created, countEasy);
  }

  lemma {:induction false} EasyPrefixCount(created: seq<Locale>, countEasy: int)
    requires countEasy >= 0
    requires forall i :: 0 <= i < |created| ==> (created[i].isEasy <==> i <= countEasy)
    ensures NumEasy(created) == if |created| <= countEasy + 1 then |created| else countEasy + 1
  {
    if |created| > 0 {
      var init := created[..|created| - 1];
      assert forall i :: 0 <= i < |init| ==> init[i] == created[i];
      EasyPrefixCount(init, countEasy);
    }
  }
}
