// Stashes and workshops (generateStashes, generateWorksops): the list of stash
// requests a level makes, their placement on the sampled sectors (a later
// stash on the same sector replaces an earlier one), and the workshop resource
// of a level.  The item tables and the sector sampler are external: their
// answers come in as parameters.

module Stashes {
  import opened WorldModel

  // ---------------------------------------------------------------------
  // Stash requests
  // ---------------------------------------------------------------------

  /** One addStashes call: the item, how many sectors to sample, the amount per
      stash and the zones the sampler must avoid (none given: any zone). */
  datatype StashRequest = StashRequest(itemID: string, num: int, amount: real, excludedZones: Option<seq<Zone>>)

  /** An ingredient of the level's required equipment and how many of it the
      recipes need. */
  datatype Ingredient = Ingredient(id: string, amount: int)

  /** An item that becomes available at the level's camp ordinal. */
  datatype Equipment = Equipment(id: string, craftable: bool, scavengeRarity: int)

  /** The zones of the late camp stage. */
  const LateZones: seq<Zone> := [Poi2, ExtraCampable]

  /** Hairpin stashes: 5 on level 13 and on uncampable levels, 2 elsewhere, 3 pins
      each. */
  function NumHairpinStashes(l: int, isCampable: bool): (r: int)
    ensures r == 2 || r == 5
    ensures r == 5 <==> l == 13 || !isCampable
  {
    var n := 2;
    var n := if l == 13 then 5 else n;
    if !isCampable then 5 else n
  }

  /** How many ingredients get stashes: half the list, but 1 to 3. */
  function NumStashIngredients(n: int): (r: int)
    ensures 1 <= r <= 3
    ensures n >= 2 ==> r <= n / 2
  {
    ClampInt(n / 2, 1, 3)
  }

  /** The loop over the first NumStashIngredients ingredients stays within the
      list exactly when the list is not empty. */
  lemma IngredientIndicesInRange(n: nat)
    ensures NumStashIngredients(n) <= n <==> n >= 1
  {
  }

  /** The amount per ingredient stash: a third of the recipes' need, 3 to 10. */
  function IngredientAmount(amount: int): (r: real)
    ensures 3.0 <= r <= 10.0
    ensures 9 <= amount <= 30 ==> r * 3.0 == amount as real
  {
    Clamp(amount as real / 3.0, 3.0, 10.0)
  }

  /** The ingredient stashes, two sectors each, for the first k ingredients. */
  function IngredientStashes(ingredients: seq<Ingredient>, k: nat): (r: seq<StashRequest>)
    requires k <= |ingredients|
    ensures |r| == k
    ensures forall i :: 0 <= i < k ==>
              r[i] == StashRequest(ingredients[i].id, 2, IngredientAmount(ingredients[i].amount), None)
  {
    if k == 0 then []
    else IngredientStashes(ingredients, k - 1)
         + [StashRequest(ingredients[k - 1].id, 2, IngredientAmount(ingredients[k - 1].amount), None)]
  }

  /** A new item gets a stash when it cannot be crafted and is not too rare. */
  predicate StashedEquipment(e: Equipment) {
    !e.craftable && e.scavengeRarity <= 5
  }

  /** The stashes of non-craftable equipment, one sector each, away from the
      late zones, in the order of the list. */
  function EquipmentStashes(equipment: seq<Equipment>): (r: seq<StashRequest>)
    ensures |r| <= |equipment|
    ensures forall i :: 0 <= i < |r| ==> r[i].num == 1 && r[i].amount == 1.0 && r[i].excludedZones == Some(LateZones)
  {
    if |equipment| == 0 then []
    else
      var last := equipment[|equipment| - 1];
      EquipmentStashes(equipment[..|equipment| - 1])
      + (if StashedEquipment(last) then [StashRequest(last.id, 1, 1.0, Some(LateZones))] else [])
  }

  /** The request is for one of the items that get a stash. */
  predicate ForStashedItem(q: StashRequest, equipment: seq<Equipment>) {
    exists j :: 0 <= j < |equipment| && StashedEquipment(equipment[j]) && q.itemID == equipment[j].id
  }

  /** Some request is for the item. */
  predicate Requested(r: seq<StashRequest>, e: Equipment) {
    exists i :: 0 <= i < |r| && r[i].itemID == e.id
  }

  /** Every request is for an item that gets a stash. */
  predicate OnlyStashed(r: seq<StashRequest>, equipment: seq<Equipment>) {
    forall i :: 0 <= i < |r| ==> ForStashedItem(r[i], equipment)
  }

  /** Every item that gets a stash has a request. */
  predicate AllStashed(r: seq<StashRequest>, equipment: seq<Equipment>) {
    forall j :: 0 <= j < |equipment| && StashedEquipment(equipment[j]) ==> Requested(r, equipment[j])
  }

  /** The item an equipment stash comes from. */
  lemma {:induction false} StashSource(equipment: seq<Equipment>, i: int) returns (j: int)
    requires 0 <= i < |EquipmentStashes(equipment)|
    ensures 0 <= j < |equipment| && StashedEquipment(equipment[j])
    ensures EquipmentStashes(equipment)[i].itemID == equipment[j].id
  {
    var init := equipment[..|equipment| - 1];
    var last := equipment[|equipment| - 1];
    var r0 := EquipmentStashes(init);
    var r := EquipmentStashes(equipment);
    assert r == r0 + (if StashedEquipment(last) then [StashRequest(last.id, 1, 1.0, Some(LateZones))] else []);
    if i < |r0| {
      j := StashSource(init, i);
      assert r[i] == r0[i] && equipment[j] == init[j];
    } else {
      j := |equipment| - 1;
    }
  }

  /** Each equipment stash is for a non-craftable, common item. */
  lemma EquipmentStashesOnlyStashed(equipment: seq<Equipment>)
    ensures OnlyStashed(EquipmentStashes(equipment), equipment)
  {
    var r := EquipmentStashes(equipment);
    forall i | 0 <= i < |r|
      ensures ForStashedItem(r[i], equipment)
    {
      var j := StashSource(equipment, i);
      assert 0 <= j < |equipment| && StashedEquipment(equipment[j]) && r[i].itemID == equipment[j].id;
    }
  }

  /** Each non-craftable, common item has an equipment stash. */
  lemma {:induction false} EquipmentStashesAllStashed(equipment: seq<Equipment>)
    ensures AllStashed(EquipmentStashes(equipment), equipment)
  {
    if |equipment| > 0 {
      var init := equipment[..|equipment| - 1];
      var last := equipment[|equipment| - 1];
      EquipmentStashesAllStashed(init);
      var r0 := EquipmentStashes(init);
      var r := EquipmentStashes(equipment);
      forall j | 0 <= j < |equipment| && StashedEquipment(equipment[j])
        ensures Requested(r, equipment[j])
      {
        if j < |init| {
          assert init[j] == equipment[j];
          var i :| 0 <= i < |r0| && r0[i].itemID == init[j].id;
          assert r[i] == r0[i];
        } else {
          assert r[|r0|].itemID == last.id;
        }
      }
    }
  }

  /** The metal caches: both on level 13, two sectors each away from the late
      zones; elsewhere one, the first on even levels and the second on odd ones. */
  function MetalCaches(l: int): (r: seq<StashRequest>)
    ensures l == 13 ==> |r| == 2 && r[0].itemID == "cache_metal_1" && r[1].itemID == "cache_metal_2"
    ensures l != 13 ==> |r| == 1 && r[0].num == 1 && (r[0].itemID == "cache_metal_1" <==> l % 2 == 0)
  {
    if l == 13 then
      [StashRequest("cache_metal_1", 2, 1.0, Some(LateZones)), StashRequest("cache_metal_2", 2, 1.0, Some(LateZones))]
    else if l % 2 == 0 then [StashRequest("cache_metal_1", 1, 1.0, None)]
    else [StashRequest("cache_metal_2", 1, 1.0, None)]
  }

  /** The stash requests of generateStashes in the order it makes them.  On a
      campable level whose required equipment needs no ingredients the source
      reads the amount of a missing first ingredient and throws: no list. */
  function StashRequests(l: int, isCampable: bool, ingredients: seq<Ingredient>,
                         newEquipment: seq<Equipment>, randomIngredient: string): (r: Option<seq<StashRequest>>)
    ensures r.None? <==> isCampable && |ingredients| == 0
  {
    if isCampable && |ingredients| == 0 then None
    else
      var lockpicks := if l == 13 then [StashRequest("exploration_1", 1, 1.0, Some(LateZones))] else [];
      var hairpins := [StashRequest("res_hairpin", NumHairpinStashes(l, isCampable), 3.0, None)];
      var forEquipment := if isCampable then IngredientStashes(ingredients, NumStashIngredients(|ingredients|)) else [];
      var random := if !isCampable then [StashRequest(randomIngredient, 2, 3.0, None)] else [];
      Some(lockpicks + hairpins + forEquipment + EquipmentStashes(newEquipment) + random + MetalCaches(l))
  }

  /** Every level gets hairpins and metal, campable levels ingredient stashes for
      at least one ingredient, uncampable ones a random ingredient, level 13 the
      lock picks. */
  lemma StashRequestsCover(l: int, isCampable: bool, ingredients: seq<Ingredient>,
                           newEquipment: seq<Equipment>, randomIngredient: string)
    requires !isCampable || |ingredients| > 0
    ensures var r := StashRequests(l, isCampable, ingredients, newEquipment, randomIngredient).value;
            && (exists i :: 0 <= i < |r| && r[i].itemID == "res_hairpin" && r[i].num == NumHairpinStashes(l, isCampable))
            && (exists i :: 0 <= i < |r| && (r[i].itemID == "cache_metal_1" || r[i].itemID == "cache_metal_2"))
            && (isCampable ==> exists i :: 0 <= i < |r| && r[i].itemID == ingredients[0].id && r[i].num == 2)
            && (!isCampable ==> exists i :: 0 <= i < |r| && r[i].itemID == randomIngredient && r[i].amount == 3.0)
            && (l == 13 ==> exists i :: 0 <= i < |r| && r[i].itemID == "exploration_1")
  {
    var lockpicks := if l == 13 then [StashRequest("exploration_1", 1, 1.0, Some(LateZones))] else [];
    var hairpins := [StashRequest("res_hairpin", NumHairpinStashes(l, isCampable), 3.0, None)];
    var forEquipment := if isCampable then IngredientStashes(ingredients, NumStashIngredients(|ingredients|)) else [];
    var equipment := EquipmentStashes(newEquipment);
    var random := if !isCampable then [StashRequest(randomIngredient, 2, 3.0, None)] else [];
    var metal := MetalCaches(l);
    var r := lockpicks + hairpins + forEquipment + equipment + random + metal;
    assert r == StashRequests(l, isCampable, ingredients, newEquipment, randomIngredient).value;
    var base := |lockpicks| + |hairpins| + |forEquipment| + |equipment| + |random|;
    assert r[|lockpicks|] == hairpins[0];
    assert r[base] == metal[0];
    if isCampable {
      assert r[|lockpicks| + |hairpins|] == forEquipment[0];
    } else {
      assert r[base - 1] == random[0];
    }
    if l == 13 {
      assert r[0] == lockpicks[0];
    }
  }

  // ---------------------------------------------------------------------
  // Placement
  // ---------------------------------------------------------------------

  /** The stash a request leaves on a sector. */
  function StashOf(q: StashRequest): Stash {
    Stash(StashItem, q.amount, q.itemID)
  }

  /** The last of the first n requests whose sampled sectors include s. */
  function LastWrite(picks: seq<seq<Sector>>, n: nat, s: Sector): (r: Option<nat>)
    requires n <= |picks|
    ensures r.Some? ==> r.value < n && s in picks[r.value] && forall j :: r.value < j < n ==> s !in picks[j]
    ensures r.None? ==> forall j :: 0 <= j < n ==> s !in picks[j]
  {
    if n == 0 then None
    else if s in picks[n - 1] then Some(n - 1)
    else LastWrite(picks, n - 1, s)
  }

  /** addStashes for one request on the sectors the sampler chose. */
  method AddStashes(level: Level, picked: seq<Sector>, q: StashRequest)
    requires forall i :: 0 <= i < |picked| ==> picked[i] in level.sectors
    modifies level.SectorSet()`stash, level.SectorSet()`stashItem
    ensures forall i :: 0 <= i < |picked| ==>
              picked[i].stash == Some(StashOf(q)) && picked[i].stashItem == Some(q.itemID)
    ensures forall x :: x in level.sectors && x !in picked ==> x.stash == old(x.stash) && x.stashItem == old(x.stashItem)
  {
    var i := 0;
    while i < |picked|
      invariant 0 <= i <= |picked|
      invariant forall j :: 0 <= j < i ==> picked[j].stash == Some(StashOf(q)) && picked[j].stashItem == Some(q.itemID)
      invariant forall x :: x in level.sectors && x !in picked ==> x.stash == old(x.stash) && x.stashItem == old(x.stashItem)
    {
      picked[i].stashItem := Some(q.itemID);
      picked[i].stash := Some(StashOf(q));
      i := i + 1;
    }
  }

  /** The requests placed in order; `picks[k]` are the sectors sampled for
      request k.  A sector ends with the stash of the last request that picked
      it, or keeps what it had. */
  method PlaceStashes(level: Level, requests: seq<StashRequest>, picks: seq<seq<Sector>>)
    requires |picks| == |requests|
    requires forall k, i :: 0 <= k < |picks| && 0 <= i < |picks[k]| ==> picks[k][i] in level.sectors
    modifies level.SectorSet()`stash, level.SectorSet()`stashItem
    ensures forall k, i :: 0 <= k < |picks| && 0 <= i < |picks[k]| ==>
              var x := picks[k][i];
              var w := LastWrite(picks, |picks|, x);
              w.Some? && x.stash == Some(StashOf(requests[w.value])) && x.stashItem == Some(requests[w.value].itemID)
    ensures forall x :: x in level.sectors && LastWrite(picks, |picks|, x).None? ==> x.stash == old(x.stash) && x.stashItem == old(x.stashItem)
  {
    var k := 0;
    while k < |picks|
      invariant 0 <= k <= |picks|
      invariant forall k', i :: 0 <= k' < k && 0 <= i < |picks[k']| ==>
                  var x := picks[k'][i];
                  var w := LastWrite(picks, k, x);
                  w.Some? && x.stash == Some(StashOf(requests[w.value])) && x.stashItem == Some(requests[w.value].itemID)
      invariant forall x :: x in level.sectors && LastWrite(picks, k, x).None? ==> x.stash == old(x.stash) && x.stashItem == old(x.stashItem)
    {
      AddStashes(level, picks[k], requests[k]);
      k := k + 1;
    }
  }

  // ---------------------------------------------------------------------
  // Workshops
  // ---------------------------------------------------------------------

  /** The workshop resource of a level: fuel on the campable level of the fuel
      camp ordinal, rubber on the bottom level (which wins), none elsewhere. */
  function WorkshopResource(isCampable: bool, campOrdinal: int, fuelOrdinal: int, l: int, bottom: int): (r: Option<ResourceName>)
    ensures r == Some(Rubber) <==> l == bottom
    ensures r == Some(Fuel) <==> l != bottom && isCampable && campOrdinal == fuelOrdinal
    ensures r.None? <==> l != bottom && !(isCampable && campOrdinal == fuelOrdinal)
  {
    var w := if isCampable && campOrdinal == fuelOrdinal then Some(Fuel) else None;
    if l == bottom then Some(Rubber) else w
  }

  /** generateWorksops on the sectors the sampler chose: no resource, no
      workshop; otherwise each chosen sector gets a workshop of that resource. */
  method GenerateWorkshops(world: World, level: Level, fuelOrdinal: int, picked: seq<Sector>)
    requires forall i :: 0 <= i < |picked| ==> picked[i] in level.sectors
    modifies level.SectorSet()`hasWorkshop, level.SectorSet()`workshopResource
    ensures var w := WorkshopResource(level.isCampable, level.campOrdinal, fuelOrdinal, level.level, world.bottomLevel);
            && (w.None? ==> forall i :: 0 <= i < |picked| ==>
                  picked[i].hasWorkshop == old(picked[i].hasWorkshop) && picked[i].workshopResource == old(picked[i].workshopResource))
            && (w.Some? ==> forall i :: 0 <= i < |picked| ==> picked[i].hasWorkshop && picked[i].workshopResource == w)
    ensures forall x :: x in level.sectors && x !in picked ==> x.hasWorkshop == old(x.hasWorkshop) && x.workshopResource == old(x.workshopResource)
  {
    var w := WorkshopResource(level.isCampable, level.campOrdinal, fuelOrdinal, level.level, world.bottomLevel);
    if w.None? {
      return;
    }
    var i := 0;
    while i < |picked|
      invariant 0 <= i <= |picked|
      invariant forall j :: 0 <= j < i ==> picked[j].hasWorkshop && picked[j].workshopResource == w
      invariant forall x :: x in level.sectors && x !in picked ==> x.hasWorkshop == old(x.hasWorkshop) && x.workshopResource == old(x.workshopResource)
    {
      picked[i].hasWorkshop := true;
      picked[i].workshopResource := w;
      i := i + 1;
    }
  }
}
