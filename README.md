# Sector generator of the world creator

This project models the sector generator of the game's world creator
(`src/worldcreator/SectorGenerator.js`). Earlier passes build the levels and their sector
grids. The generator then annotates every level and every sector in place:

- **Zones.** The entrance area, the corridors to and from the camp, the Voronoi areas of
  points of interest, and the forced fill of uncampable levels.
- **Movement blockers.** Debris, gaps, waste and gangs on the edges between sectors,
  repeated on neighbouring edges so players cannot walk around them.
- **Excursion paths.** A nearest-first tour of each camp stage, stamping path ids.
- **Required resources.** Water and food stops along a path, spaced by the bag size.
- **Stashes and workshops.**
- **Per-sector values.** Sector type, passage types, sunlight, texture (wear, damage and
  building density) and resource yields.
- **Blueprint locales.** Sites on campable levels, with their easy and early flags.

## How the source is modelled

- **Classes.** Sectors, levels and the world are classes whose fields the operations
  update, as the source's value objects are. Each method's `modifies` clause names the
  fields it may change.
- **Functions.** Pure decision cascades (sector type, locale type, blocker types,
  passage types, wear, density, stash lists) are functions. Lemmas state the properties
  each cascade promises.
- **Random draws.** The generator's random service (`WorldCreatorRandom.random`,
  `randomInt`) is seeded arithmetic outside this file. Every draw is a parameter:
  - `IsDraw(r)` says a real draw lies in [0, 1);
  - `IsIntDraw(k, lo, hi)` says an integer draw lies in [lo, hi), or equals lo for an
    empty range.
- **External helpers.** The pathfinder, the distance measure, the random sector
  sampler, `getNextNeighbours`, `getVornoiPoints` and the item tables are also inputs.
  They appear as function-typed parameters or as the sequences of answers they gave.

Where the code does something unexpected, the model follows the code:

- **Commercial sectors never get a market locale.** getLocaleType tests `rand > 6` for
  a commercial market, and a draw never exceeds 6.
- **Public sectors follow the residential branch.** Their case in getLocaleType is also
  listed under residential, so its own branch never runs.
- **Level 14 has no maintenance sectors.** The test at 0.35 overwrites the one at 0.25.
- **An equal zone ordinal keeps the existing zone.**
- **The `pos.pathID` test of visitSector drops out.** Positions never carry a pathID.
- **Debris is counted twice** in the blocker types, so it is drawn twice as often.
- **A sector sampled by several stash requests keeps the last stash.**
- **`i <= countEasy` makes countEasy + 1 locales easy**, not countEasy.
- **The grove is listed on the last trading partner's level**, not the bottom level (see Findings).
- **A `true` forceArea counts as 1.**

## Model

| member | source | states |
|---|---|---|
| WorldModel.DirectionFromReversed | src/worldcreator/SectorGenerator.js:951-952 | The neighbour's direction back to the sector is the opposite of the sector's direction to it. |
| Zones.ZoneAfter | src/worldcreator/SectorGenerator.js:77-93 | setSectorZone keeps the existing zone or writes the new one. It writes only over no zone or a strictly larger ordinal. A zone the stage forbids is written only when forced. The zone's priority never drops. |
| Zones.ZoneAfterCovers | src/worldcreator/SectorGenerator.js:77-93 | Afterwards the sector holds the zone or a better one exactly when it already did, or the write was forced, or the stage allows the zone. |
| Zones.ForcedZoneAssigns | src/worldcreator/SectorGenerator.js:84-92 | A forced write always leaves the sector zoned. |
| Zones.EqualOrdinalKeepsZone | src/worldcreator/SectorGenerator.js:79-82 | A zone of equal ordinal never replaces the existing one. |
| Zones.NotRaisedTransitive | src/worldcreator/SectorGenerator.js:77-93 | Successive assignments never lower a sector's zone priority. |
| Zones.SetSectorZone | src/worldcreator/SectorGenerator.js:77-93 | The sector's new zone is ZoneAfter of its old one. |
| Zones.SetAreaZone | src/worldcreator/SectorGenerator.js:95-110 | Only sectors in the square within path length area-1 change. Each either keeps its zone or takes the new one under the setSectorZone rule, forced only while forceArea exceeds its path length. The centre is covered when forced or allowed. |
| Zones.SetPathZone | src/worldcreator/SectorGenerator.js:112-118 | Every sector changes only by the rule. With forceArea > 0, every position of the path ends up covered by the zone. |
| Zones.ClosestPoint | src/worldcreator/SectorGenerator.js:142-151 | Returns the first anchor at the smallest distance. |
| Zones.VoronoiZone | src/worldcreator/SectorGenerator.js:153-156 | A POI_TEMP anchor gives POI_1 to early-stage sectors and POI_2 to late-stage ones. Any other anchor gives its own zone. |
| Zones.AssignVoronoiZones | src/worldcreator/SectorGenerator.js:139-158 | Each sector takes, through the unforced rule, the zone of its nearest anchor, the earliest one on a tie (the strict `<` of line 147). No zone is lowered. With no anchors and at least one sector, `crashed` reports the TypeError of line 152 and no zone changes. |
| Zones.FillZone | src/worldcreator/SectorGenerator.js:168-171 | The forced fill leaves every sector zoned and lowers none. |
| Zones.PassageToCampZones | src/worldcreator/SectorGenerator.js:127-132 | The camp sector and every position of the path to the camp hold PASSAGE_TO_CAMP or better. |
| Zones.CampableZones | src/worldcreator/SectorGenerator.js:123-158 | Except on level 13, the corridor to the camp is covered by PASSAGE_TO_CAMP. With a second passage, the path from the camp to it is covered by CAMP_TO_PASSAGE. No zone is lowered. |
| Zones.UncampableZones | src/worldcreator/SectorGenerator.js:159-172 | Every sector ends up zoned. The path between the passages is covered by PASSAGE_TO_PASSAGE. |
| Zones.GenerateZones | src/worldcreator/SectorGenerator.js:67-173 | Passage1 is covered by ENTRANCE. The campable and uncampable guarantees above hold. No sector's zone is lowered. |
| Classification.OverwritesSnoc | src/worldcreator/SectorGenerator.js:453-509 | A later satisfied test overwrites every earlier one. |
| Classification.SmallestThresholdWins | src/worldcreator/SectorGenerator.js:453-509 | With descending thresholds, the type is that of the smallest threshold above the draw, or the initial type when there is none. |
| Classification.DecidingStep | src/worldcreator/SectorGenerator.js:453-509 | The last satisfied test of a descending list decides the type. |
| Classification.BandsDescending | src/worldcreator/SectorGenerator.js:453-509 | Every band's thresholds descend, except level 14's (0.25 before 0.35). |
| Classification.TopLevelSectorTypes | src/worldcreator/SectorGenerator.js:454-459 | On the top level, maintenance holds exactly below 0.05 and commercial exactly from 0.6. Between 0.05 and 0.4 the type is residential. |
| Classification.Level14SectorTypes | src/worldcreator/SectorGenerator.js:481-485 | Level 14 is slum exactly below 0.35 and industrial otherwise. It is never maintenance. |
| Classification.SectorTypeBySmallestThreshold | src/worldcreator/SectorGenerator.js:448-512 | getSectorType returns the type of the smallest threshold above the draw. |
| Classification.SectorTypeAboveThresholds | src/worldcreator/SectorGenerator.js:448-512 | Above every threshold, getSectorType returns the band's initial type. |
| Classification.AvailablePassageTypes | src/worldcreator/SectorGenerator.js:576-580 | Stairwell comes first and is always available; blocked never is. Elevator is available iff the camp ordinal reaches the unlock ordinal, and hole iff the level is above 14. |
| Classification.PassageDownType | src/worldcreator/SectorGenerator.js:561-585 | None iff not a passage down. Level 13 gives a stairwell. Blocked is returned iff the level is not 13 and the camp ordinal is past the limit. Level 14 gives a hole. A campable level at the elevator's unlock ordinal gives an elevator, and an elevator needs that ordinal. |
| Classification.PassageEndsAgree | src/worldcreator/SectorGenerator.js:555-585 | The passage up reports the type drawn for the passage down above it. It is blocked iff the ordinal is past the limit, and a stairwell from level 13. |
| Classification.IsHole | src/worldcreator/SectorGenerator.js:516-528 | True iff some feature at the position is a well, collapse, sea or mountain hole. |
| Classification.SunlitEarly | src/worldcreator/SectorGenerator.js:529-538 | The top level is lit, level 13 is dark, and elsewhere a hole sector is lit. Otherwise the scan decides. |
| Marking.RequireResource | src/worldcreator/SectorGenerator.js:423-431 | Never true when floor(maxSteps/2) < 2 or the counter is at most that half. Always true at the limit. |
| Marking.FoodLimitBelowWater | src/worldcreator/SectorGenerator.js:418-420 | The food step limit never exceeds the water limit. |
| Marking.NoMarksForShortLimits | src/worldcreator/SectorGenerator.js:423-445 | With a half limit below 2, nothing is marked and the counter counts every sector. |
| Marking.CounterBounded | src/worldcreator/SectorGenerator.js:427-444 | The step counter stays within [0, maxSteps]. |
| Marking.QuietAfterMark | src/worldcreator/SectorGenerator.js:435-444 | After a mark the counter restarts, and the next floor(maxSteps/2)+1 sectors are not marked. |
| Marking.CounterGrows | src/worldcreator/SectorGenerator.js:432-445 | Without marks, the counter grows by one per sector. |
| Marking.MarkWithinLimit | src/worldcreator/SectorGenerator.js:427-444 | Every maxSteps+1 consecutive sectors include a marked one. |
| Marking.MarkedSectorStep | src/worldcreator/SectorGenerator.js:432-445 | Scanning one more position adds exactly that position's mark. |
| Marking.GenerateRequiredResources | src/worldcreator/SectorGenerator.js:417-446 | A sector requires water (food) iff it already did or some path position on it is marked by the water (food) counter. |
| Texture.LevelWear | src/worldcreator/SectorGenerator.js:595 | The level's wear lies in [0, 10]. |
| Texture.LevelWearDeepens | src/worldcreator/SectorGenerator.js:595 | Deeper levels are never less worn. |
| Texture.Wear | src/worldcreator/SectorGenerator.js:596-598 | The sector's wear lies in [0, 10], and at most 3 in a camp. |
| Texture.WearNearLevel | src/worldcreator/SectorGenerator.js:596-598 | Outside camps, the sector's wear lies within 3.5 of the level's wear. |
| Texture.FeatureDamage | src/worldcreator/SectorGenerator.js:602-609 | Feature damage lies in [0, 8] and is positive exactly for well, collapse and sea holes. |
| Texture.FeatureDamageMax | src/worldcreator/SectorGenerator.js:610-616 | Returns the maximum of 0, the damage of the sector's own features and the distance-reduced damage of the surrounding features. It is at least each of them and equal to one of them. |
| Texture.Damage | src/worldcreator/SectorGenerator.js:617-619 | Damage lies in [0, 10]; at most 3 in a camp, at least 3 on level 14, exactly 3 for a camp on level 14. |
| Texture.LevelDensity | src/worldcreator/SectorGenerator.js:622-629 | Density lies in [2, 9]. It is 3 on the bottom level, 6 just above it, 8 on level 14 and 5 on the top level, with the later overrides winning. |
| Texture.DensityRange | src/worldcreator/SectorGenerator.js:631-658 | The type's range lies within [0, 10]; only public sectors cap it at 7. |
| Texture.BuildingDensity | src/worldcreator/SectorGenerator.js:660-664 | The building density lies in the range of the sector's type. |
| Texture.DensityIsMeanInRange | src/worldcreator/SectorGenerator.js:660-664 | When the level density lies within the type's range, the building density is the rounded mean of the level density and the draw. |
| Texture.GenerateTexture | src/worldcreator/SectorGenerator.js:587-665 | Writes the wear, damage and density above to the sector, with all their bounds. The damage comes from the largest feature damage, which is at least every feature term and equal to 0 or one of them. |
| ResourceRules.WorkshopBoost | src/worldcreator/SectorGenerator.js:747-750 | The workshop's resource becomes scavengeable at 3 at least; the others are unchanged. |
| ResourceRules.ScavengableFacts | src/worldcreator/SectorGenerator.js:747-787 | Scavengeable food is 0 or above 2, at least 3 when required. Herbs are 0 or in (2, 10]. All values are non-negative. |
| ResourceRules.CollectableFacts | src/worldcreator/SectorGenerator.js:753-779 | Collectable water is at least 3 when required. Poison or radiation empties food, and water unless required. Values are non-negative. |
| ResourceRules.PostProcess | src/worldcreator/SectorGenerator.js:740-792 | The bundle totals are scavengeable plus collectable. Springs need water and a draw below 0.25. The bounds above hold, and untouched resources keep their raw yields. |
| ResourceRules.GenerateResources | src/worldcreator/SectorGenerator.js:667-793 | Writes PostProcess's bundles and spring flag to the sector. |
| Locales.LocaleTypeFor | src/worldcreator/SectorGenerator.js:823-891 | A lab exactly for a draw below 0.25 near the top. No hermit on early passes, no market for commercial sectors, never library, trading partner or grove. None iff the sector type is unknown and no lab is drawn. |
| Locales.EarlyReplacesHermit | src/worldcreator/SectorGenerator.js:832-877 | Where a late pass gets a hermit, the early pass gets the next branch: a sewer in slums, a house in commercial sectors, a caravan elsewhere. |
| Locales.ExcludedZonesSplit | src/worldcreator/SectorGenerator.js:900 | Only EXTRA_CAMPABLE is closed to both passes. The early pass may use the camp corridor and POI_1; the late pass may use POI_2 and CAMP_TO_PASSAGE. |
| Locales.AddLocale | src/worldcreator/SectorGenerator.js:796-800 | Appends the locale to the sector and the sector to the level, and increments the count. |
| Locales.SpawnTradingPartner | src/worldcreator/SectorGenerator.js:802-811 | The sampled sector gets an easy, late trading-partner locale. It is listed on the partner's own level (line 807 sets `levelVO` before addLocale), and that level's count grows by one. |
| Locales.SpawnGrove | src/worldcreator/SectorGenerator.js:796-819 | As written: the grove sector becomes sunlit and gets an easy, late grove locale. addLocale lists and counts it on the level left in the shared `levelVO` variable, not on the bottom level it was sampled from. When that level is not the bottom one, its locale list then holds a sector it does not own. |
| Locales.SpawnGroveOnBottom | src/worldcreator/SectorGenerator.js:813-819 | Corrected: the same writes, but the grove is listed and counted on the bottom level, and a bottom level whose locale list held only its own sectors keeps that property. |
| Locales.Picked | src/worldcreator/SectorGenerator.js:904-907 | Keeps exactly the sampler's non-empty answers. |
| Locales.PlacePick | src/worldcreator/SectorGenerator.js:904-911 | One answered pick adds one locale, whose easy flag is i <= countEasy. An empty answer adds nothing. |
| Locales.AnsweredFlags | src/worldcreator/SectorGenerator.js:909 | With every pick answered, locale i is easy iff i <= countEasy. |
| Locales.CreateLocales | src/worldcreator/SectorGenerator.js:892-917 | Each picked sector gets its locales in order. The level's locale list and count grow by the picks. The created locales carry the pass's flags. Given a sampler that honours the excluded zones of line 900, every newly listed locale sector lies outside them. |
| Locales.PlacePicks | src/worldcreator/SectorGenerator.js:904-916 | The loop over the picks: the level's locale list grows by exactly the answered picks, each picked sector gains its locales in pick order, and the created locales carry the easy flag i <= countEasy and the pass's early flag. |
| Locales.PlaceNext | src/worldcreator/SectorGenerator.js:905-911 | One turn: the answered pick's sector gains its locale, and the per-sector locale lists and the flags are extended by that pick only. |
| Locales.PickedOutside | src/worldcreator/SectorGenerator.js:900-906 | Sectors the sampler chose outside the pass's excluded zones are still outside them in the picked list. |
| Locales.EasyLocaleCount | src/worldcreator/SectorGenerator.js:904-911 | With every pick answered, min(count, countEasy + 1) locales are easy. |
| Blockers.LevelBlockerTypes | src/worldcreator/SectorGenerator.js:1012-1033 | Two debris iff levelOrdinal > 1; a gap iff campOrdinal >= 5; toxic waste iff >= 7; radioactive iff level >= 14 and radiated. Never gangs. |
| Blockers.DebrisDoubleWeighted | src/worldcreator/SectorGenerator.js:1019-1028 | From levelOrdinal 2, debris counts at least twice as often as any other type. Toxic levels also have gaps. |
| Blockers.PickBlockerType | src/worldcreator/SectorGenerator.js:185-188 | The drawn type is one of the level's, and the only one when there is one. |
| Blockers.NumBetweenPassages | src/worldcreator/SectorGenerator.js:213-216 | 5 blockers between passages iff level 14, or an uncampable level of camp ordinal 7; else 0. |
| Blockers.NumRandom | src/worldcreator/SectorGenerator.js:263-267 | 8 random blockers on the top level, 4 below it, 2 on level 14, 1 elsewhere. |
| Blockers.OneInThreeWithoutDiagonals | src/worldcreator/SectorGenerator.js:273-275 | Of three consecutive random blockers exactly one has no diagonals. |
| Blockers.BorderBlockerFarFromCamp | src/worldcreator/SectorGenerator.js:235-245 | A border pair gets a blocker iff both sectors are more than 3 from camp and the draw is below 0.25. |
| Blockers.SplitBoundsValues | src/worldcreator/SectorGenerator.js:203-204 | The split index is drawn from round(len/2) = (len+1)/2 up to max(that, len-2). |
| Blockers.SplitOutOfRangeAtLength3 | src/worldcreator/SectorGenerator.js:200-208 | As written, a path of 3 positions splits at index 2, so its neighbour index 3 is out of range. |
| Blockers.SplitIndex | src/worldcreator/SectorGenerator.js:200-208 | With the guard at 4, the index and its neighbour lie within the path, in its second half. |
| Blockers.SplitInRangeFrom4 | src/worldcreator/SectorGenerator.js:200-208 | From length 4 the as-written index agrees with the corrected one and stays in range. |
| Blockers.SharesBlockedPath | src/worldcreator/SectorGenerator.js:967-979 | Refuses iff a critical path of the sector, neither allowed nor exempt for gangs, is shared by the neighbour. |
| Blockers.GangCrossesCampPaths | src/worldcreator/SectorGenerator.js:968-972 | A gang is never refused on the camp's own path types. |
| Blockers.CheckRejected | src/worldcreator/SectorGenerator.js:954-979 | Refuses for an existing blocker on either side, a camp, the passage-to-camp zone of a campable level, or a shared critical path. |
| Blockers.PlaceEdge | src/worldcreator/SectorGenerator.js:983-984 | Both sectors get the blocker in the directions facing each other. Nothing else changes. |
| Blockers.AddDiagonals | src/worldcreator/SectorGenerator.js:986-997 | Each next neighbour in turn is either blocked on both facing sides with the type, or refused. It is refused whenever the pair is protected (a camp, the passage-to-camp zone of a campable level, a shared critical path) or already blocked, and only then. The count is the number of neighbours not refused, and the path cache is reset once per placement. Only the sector and its next neighbours change, and only by gaining blockers of the type. |
| Blockers.DiagonalStep | src/worldcreator/SectorGenerator.js:990-992 | One next neighbour: refused exactly when nothing was placed, at most one placement, and its outcome is appended to those of the neighbours before it. |
| Blockers.AddDiagonalsKeeping | src/worldcreator/SectorGenerator.js:994-997 | The neighbour's loop, with the outcome of AddDiagonals, keeping the outcome already established for the sector's own next neighbours. |
| Blockers.PlaceWithDiagonals | src/worldcreator/SectorGenerator.js:983-997 | Blocks the edge, then the sector's next neighbours, then the neighbour's. Each side's neighbours have the AddDiagonals outcome, and the count is 1 plus the neighbours blocked on both sides. |
| Blockers.AddMovementBlocker | src/worldcreator/SectorGenerator.js:950-1010 | A refused pair changes nothing. Otherwise both sides get the blocker in facing directions. Without diagonals the two maps gain exactly that entry. With diagonals each next neighbour of either side is blocked on both facing sides or refused, as in AddDiagonals, and the count is 1 plus the neighbours blocked. No sector outside the pair and their next neighbours changes. The path cache is reset once per placed edge. |
| Blockers.PathsTried | src/worldcreator/SectorGenerator.js:198-202 | The loop tries paths until the first missing or too-short one, within maxPaths. |
| Blockers.SplitEdge | src/worldcreator/SectorGenerator.js:205-207 | The edge a round blocks joins two consecutive path positions in the path's second half, and its type is one of the level's. |
| Blockers.BlockRound | src/worldcreator/SectorGenerator.js:205-208 | One round blocks its split edge on both facing sides or is refused (only when protected or already blocked), refused exactly when nothing was placed. Earlier rounds' outcomes stay. |
| Blockers.AddBlockersBetween | src/worldcreator/SectorGenerator.js:195-211 | Tries exactly PathsTried paths. For each tried path the split edge, two consecutive positions in its second half, is blocked on both facing sides with one of the level's types, or was refused because it was protected or already blocked. Blockers are only added, and only of the level's types. The path cache is reset once per placed edge. |
| Paths.RemoveAtMembers | src/worldcreator/SectorGenerator.js:287-290 | Splicing out the found sector removes exactly it. |
| Paths.VisitSector | src/worldcreator/SectorGenerator.js:283-291 | A pending sector without a truthy pathID takes the id and leaves the unvisited list. Otherwise nothing changes. |
| Paths.FirstNearest | src/worldcreator/SectorGenerator.js:301-302 | Returns the first sector at the smallest distance, the head of a stable sort. |
| Paths.VisitStep | src/worldcreator/SectorGenerator.js:299-300 | The current position stops being pending; the list shrinks by one exactly when it was pending. |
| Paths.WalkPath | src/worldcreator/SectorGenerator.js:305-309 | Visiting a path leaves its last position not pending and never grows the list. |
| Paths.TourLeg | src/worldcreator/SectorGenerator.js:301-310 | The next target is the first nearest pending sector and the path is the pathfinder's answer to it. Once the path reaches it, the target is no longer pending. The tour's measure does not grow. |
| Paths.TraverseSectors | src/worldcreator/SectorGenerator.js:292-314 | No tour for an empty stage. Every stage sector's stamp is the tour's index or 0 on the start, and no other sector changes. With a reaching pathfinder, the tour fails exactly for a stage holding only the start sector. |
| Paths.GeneratePaths | src/worldcreator/SectorGenerator.js:280-319 | Early sectors get path 0; late ones the late tour's index. One result per non-empty stage. |
| Stashes.NumHairpinStashes | src/worldcreator/SectorGenerator.js:343-346 | 5 hairpin stashes iff level 13 or uncampable, else 2. |
| Stashes.NumStashIngredients | src/worldcreator/SectorGenerator.js:353 | Between 1 and 3 ingredients, and at most half the list when it has two or more. |
| Stashes.IngredientIndicesInRange | src/worldcreator/SectorGenerator.js:353-355 | The ingredient loop stays in range iff the list is non-empty. |
| Stashes.IngredientAmount | src/worldcreator/SectorGenerator.js:356 | A third of the need, clamped to [3, 10]. |
| Stashes.IngredientStashes | src/worldcreator/SectorGenerator.js:350-358 | One request per ingredient, for two sectors, with the clamped amount. |
| Stashes.EquipmentStashes | src/worldcreator/SectorGenerator.js:361-367 | One-sector single-item requests, kept out of the late zones. |
| Stashes.StashSource | src/worldcreator/SectorGenerator.js:363-366 | Each equipment request comes from a non-craftable item of rarity at most 5. |
| Stashes.EquipmentStashesOnlyStashed | src/worldcreator/SectorGenerator.js:363-366 | Every equipment request is for a stashed item. |
| Stashes.EquipmentStashesAllStashed | src/worldcreator/SectorGenerator.js:363-366 | Every stashed item has a request. |
| Stashes.MetalCaches | src/worldcreator/SectorGenerator.js:376-385 | Level 13 gets both caches; elsewhere cache 1 iff the level is even. |
| Stashes.StashRequests | src/worldcreator/SectorGenerator.js:337-385 | No list iff a campable level's equipment needs no ingredients, where the source throws. |
| Stashes.StashRequestsCover | src/worldcreator/SectorGenerator.js:337-385 | Every level gets hairpins and metal. Campable levels get the first ingredient; uncampable ones the random ingredient; level 13 the lock picks. |
| Stashes.LastWrite | src/worldcreator/SectorGenerator.js:326-334 | The last request that sampled the sector, if any. |
| Stashes.AddStashes | src/worldcreator/SectorGenerator.js:327-335 | The sampled sectors get the stash and its item. Nothing else changes. |
| Stashes.PlaceStashes | src/worldcreator/SectorGenerator.js:326-385 | Each sector holds the last stash written to it, or keeps its own. |
| Stashes.WorkshopResource | src/worldcreator/SectorGenerator.js:392-396 | Rubber iff the bottom level. Fuel iff otherwise campable at the fuel ordinal. None otherwise. |
| Stashes.GenerateWorkshops | src/worldcreator/SectorGenerator.js:391-415 | Without a resource nothing changes. Otherwise each sampled sector gets a workshop of it. No other sector changes. |

## Left out

- **prepareSectors.** The orchestration that runs each pass per level and sector is left out; each pass is modelled on its own. prepareSectors calls generateLocales once per level (line 55), and each call walks every level again (lines 919-947) and spawns every trading partner and the grove again. The model covers one createLocales pass and one spawn at a time, not that repetition.
- **External services.** The random service's seed arithmetic and its bodies, and the random sector sampler (`randomSectors`, `randomSector`, `getRandomSectorNeighbour`), are inputs. So are the pathfinder, `getVornoiPoints`, `getBorderSectorsForZone`, `getDistanceToCamp`, `getNextNeighbours` and `itemsHelper`.
- **Logging** (`log.i`, `log.w`) and the debug printing.
- **Callbacks.** addMovementBlocker's `sectorcb` and `cb` are foreign code.
- **Critical paths.** `addCriticalPath` (workshops, locales) belongs to WorldCreatorHelper, which is not part of this model. Workshops and locales do not record the critical paths they create.
- **Voronoi anchors.** `closestPoint.sectors.push` records sectors on the anchor objects and does not affect any sector; it is not modelled.
- **generateMovementBlockers orchestration.** The passage-pair loop, the border loop, the POI block and the random loop are modelled as their rules only: NumBetweenPassages, BorderBlockerWanted, NumRandom, RandomBlockerHasDiagonals and AddBlockersBetween.
- **isSunlit's upward scan and sea distance.** The scan needs the levels above and the sea feature. Only the first three rules are modelled (SunlitEarly).
- **Raw yields in generateResources.** The per-type formulas at lines 676-738 are inputs of PostProcess; the adjustments after them are modelled.
- **Blueprint counts.** The per-level blueprint counts from UpgradeConstants and the choice of the partners' levels are inputs of CreateLocales and the spawns.
- Zones.ClosestPoint: requires an anchor; the empty anchor list, where the source throws at line 152, is reported by AssignVoronoiZones as `crashed`.
- Zones.CampableZones: requires an anchor, as does Zones.GenerateZones on campable levels; without one the source throws at line 152 (see AssignVoronoiZones).
- Paths.TraverseSectors: requires no stage sector to carry a truthy pathID on entry. Such a sector is never spliced out of the unvisited list (line 286), so the loop at line 299 would not end.
- Texture.LevelWear: requires a top level other than 5, where the source divides by zero.
- Paths.FirstNearest: assumes `sortSectorsByDistanceTo` gives a stable sort, so ties keep list order.
- Paths.GeneratePaths: passes the stage argument straight to the pathfinder; what the pathfinder does with it is not modelled.
- Marking.GenerateRequiredResources: the bag bonus is an input; its table lives in ItemConstants.

## Findings

| source | as written | input that shows it | evidently intended | confidence | as-written member | corrected member |
|---|---|---|---|---|---|---|
| src/worldcreator/SectorGenerator.js:200-208 | addBlockersBetween stops only for paths shorter than 3, then reads `path[index + 1]` with index drawn from [round(len/2), max(round(len/2), len-2)) | a path of 3 positions: both bounds are 2, index is 2 and `path[3]` is undefined, so reading `path[index + 1].sectorX` throws a TypeError before `getSector` runs | skip paths shorter than 4, so both the split sector and its neighbour lie on the path | not executed | Blockers.SplitOutOfRangeAtLength3 | Blockers.SplitIndex |
| src/worldcreator/SectorGenerator.js:796-819 | addLocale pushes onto the enclosing `levelVO`, and the partner loop's `var levelVO = worldVO.getLevel(level)` (line 807) reassigns that same function-scoped variable, so the grove (line 819) is listed and counted on the last partner's level | any partner whose level is not the bottom level: the grove sector, sampled from the bottom level (lines 815-816), is appended to that partner level's `localeSectors`, which then holds a sector of another level. The POI block at lines 252-260 may later choose it as a locale of that level | list and count the grove on the bottom level it was sampled from | not executed | Locales.SpawnGrove | Locales.SpawnGroveOnBottom |
