/**
 * The kit builder's catalog (`types.ts`) and what `useKitBuilder` derives
 * from it on every render: the filtered item list, its categories, the
 * progress percentage and the critical-item counts.
 */
module KitCatalog {
  import opened Wrappers
  import opened Seqs
  import opened OrderedSet
  import opened Percent

  datatype Priority = Critical | Recommended | Optional

  /** `KitItem`; the display-only fields (name, quantity, notes, links) are
      carried as `name` only. */
  datatype KitItem = KitItem(
    id: string,
    name: string,
    category: string,
    priority: Priority,
    scenarios: seq<string>)

  /** `CategoryData`; `conditional` is "hasBabies", "hasPets" or absent. */
  datatype CategoryData = CategoryData(id: string, name: string, conditional: Option<string>)

  /** `QuickPreset.config`: every field optional. */
  datatype PresetConfig = PresetConfig(scenario: Option<string>, babies: Option<bool>, pets: Option<bool>)

  /** `QuickPreset`; `config` may be missing in the data. */
  datatype QuickPreset = QuickPreset(id: string, title: string, config: Option<PresetConfig>)

  /** One locale's kit data: the scenario ids in key order, the items, the
      presets and the category descriptions. */
  datatype Catalog = Catalog(
    scenarioIds: seq<string>,
    items: seq<KitItem>,
    presets: seq<QuickPreset>,
    categories: seq<CategoryData>)

  /** `scenarioIds[0] || 'general'`. */
  function DefaultScenario(cat: Catalog): (r: string)
    ensures r != ""
    ensures r == "general" || (|cat.scenarioIds| > 0 && r == cat.scenarioIds[0])
  {
    if |cat.scenarioIds| > 0 && cat.scenarioIds[0] != "" then cat.scenarioIds[0] else "general"
  }

  /** `config.scenario || defaultScenario`: an empty or missing scenario
      falls back to the default. */
  function PresetScenario(cat: Catalog, config: Option<PresetConfig>): (r: string)
    ensures r != ""
    ensures config.Some? && config.value.scenario.Some? && config.value.scenario.value != "" ==> r == config.value.scenario.value
  {
    if config.Some? && config.value.scenario.Some? && config.value.scenario.value != ""
    then config.value.scenario.value
    else DefaultScenario(cat)
  }

  /** The key `categoriesData.find` compares. */
  function CategoryId(c: CategoryData): string { c.id }

  /** The category string the source compares against for babies. It is the
      UTF-8 bytes of "Bebés" read as Latin-1, exactly as it appears there. */
  const BabiesCategoryMojibake: string := "BebÃ©s"

  /** The item's category is shown only with babies in the household. */
  predicate NeedsBabies(cat: Catalog, item: KitItem) {
    var cd := FindById(cat.categories, CategoryId, item.category);
    || (cd.Some? && cd.value.conditional == Some("hasBabies"))
    || item.category == "baby"
    || item.category == BabiesCategoryMojibake
  }

  /** The item's category is shown only with pets in the household. */
  predicate NeedsPets(cat: Catalog, item: KitItem) {
    var cd := FindById(cat.categories, CategoryId, item.category);
    || (cd.Some? && cd.value.conditional == Some("hasPets"))
    || item.category == "huisdieren"
    || item.category == "Mascotas"
  }

  /** The `filteredItems` predicate, rule by rule in the source's order. */
  predicate Shown(cat: Catalog, scenario: string, hasBabies: bool, hasPets: bool, item: KitItem) {
    if scenario !in item.scenarios then false
    else
      var cd := FindById(cat.categories, CategoryId, item.category);
      if cd.Some? && cd.value.conditional == Some("hasBabies") && !hasBabies then false
      else if cd.Some? && cd.value.conditional == Some("hasPets") && !hasPets then false
      else if item.category == "baby" && !hasBabies then false
      else if item.category == "huisdieren" && !hasPets then false
      else if item.category == BabiesCategoryMojibake && !hasBabies then false
      else if item.category == "Mascotas" && !hasPets then false
      else true
  }

  /** `filteredItems`. */
  function FilteredItems(cat: Catalog, scenario: string, hasBabies: bool, hasPets: bool): (r: seq<KitItem>)
    ensures |r| <= |cat.items|
  {
    Filter(cat.items, (i: KitItem) => Shown(cat, scenario, hasBabies, hasPets, i))
  }

  /** `[...new Set(items.map(i => i.category))]`. */
  function CategoriesOf(items: seq<KitItem>): (r: seq<string>)
    ensures NoDup(r)
    ensures forall c :: c in r <==> exists i :: 0 <= i < |items| && items[i].category == c
  {
    var cs := Map(items, (i: KitItem) => i.category);
    assert forall c :: c in cs <==> exists i :: 0 <= i < |items| && items[i].category == c;
    Distinct(cs)
  }

  /** The first two categories of the items tagged with a scenario: what
      mount-time initialisation and `applyPreset` expand. */
  function LeadingCategories(cat: Catalog, scenario: string): (r: seq<string>)
    ensures |r| <= 2 && NoDup(r)
  {
    Take(CategoriesOf(Filter(cat.items, (i: KitItem) => scenario in i.scenarios)), 2)
  }

  function Ids(items: seq<KitItem>): seq<string> {
    Map(items, (i: KitItem) => i.id)
  }

  /** `progress`: 0 with nothing to show, else the rounded percentage of the
      whole checked set (not only its shown part) over the shown items. */
  function Progress(checked: seq<string>, filtered: seq<KitItem>): (r: nat)
    ensures filtered == [] ==> r == 0
    ensures filtered != [] ==> 2 * |filtered| * r <= 200 * |checked| + |filtered| < 2 * |filtered| * r + 2 * |filtered|
  {
    if |filtered| > 0 then RoundPercent(|checked|, |filtered|) else 0
  }

  /** `criticalItems`. */
  function CriticalItems(filtered: seq<KitItem>): (r: seq<KitItem>)
    ensures |r| <= |filtered|
    ensures forall i :: 0 <= i < |r| ==> r[i].priority == Critical
  {
    Filter(filtered, (i: KitItem) => i.priority == Critical)
  }

  /** `criticalChecked`. */
  function CriticalChecked(filtered: seq<KitItem>, checked: seq<string>): (r: nat)
    ensures r <= |CriticalItems(filtered)|
  {
    Count(CriticalItems(filtered), (i: KitItem) => i.id in checked)
  }

  // ---------------------------------------------------------------- lemmas

  /** An item is shown exactly when it is in the catalog, tagged with the
      scenario, and its category's household condition (babies, pets) holds. */
  lemma FilteredMembership(cat: Catalog, scenario: string, hasBabies: bool, hasPets: bool, item: KitItem)
    ensures item in FilteredItems(cat, scenario, hasBabies, hasPets) <==>
            && item in cat.items
            && scenario in item.scenarios
            && (NeedsBabies(cat, item) ==> hasBabies)
            && (NeedsPets(cat, item) ==> hasPets)
  {
  }

  /** The shown items keep the catalog order. */
  lemma FilteredKeepsOrder(cat: Catalog, scenario: string, hasBabies: bool, hasPets: bool)
    ensures IsSubsequence(FilteredItems(cat, scenario, hasBabies, hasPets), cat.items)
  {
    FilterIsSubsequence(cat.items, (i: KitItem) => Shown(cat, scenario, hasBabies, hasPets, i));
  }

  /** Turning a household flag on only adds items. */
  lemma FlagsMonotone(cat: Catalog, scenario: string, b1: bool, p1: bool, b2: bool, p2: bool)
    requires b1 ==> b2
    requires p1 ==> p2
    ensures forall x :: x in FilteredItems(cat, scenario, b1, p1) ==> x in FilteredItems(cat, scenario, b2, p2)
    ensures |FilteredItems(cat, scenario, b1, p1)| <= |FilteredItems(cat, scenario, b2, p2)|
  {
    FilterStronger(cat.items, (i: KitItem) => Shown(cat, scenario, b2, p2, i), (i: KitItem) => Shown(cat, scenario, b1, p1, i));
  }

  /** The category list is duplicate-free, in first-occurrence order, and
      headed by the first shown item's category. */
  lemma CategoriesOrder(items: seq<KitItem>)
    ensures IsSubsequence(CategoriesOf(items), Map(items, (i: KitItem) => i.category))
    ensures items != [] ==> CategoriesOf(items)[0] == items[0].category
  {
    var cs := Map(items, (i: KitItem) => i.category);
    DistinctIsSubsequence(cs);
    if items != [] {
      DistinctFirst(cs);
    }
  }

  /** If every checked id is a shown item's id, progress is at most 100;
      checking every shown item (with distinct ids) gives exactly 100. */
  lemma ProgressSubset(checked: seq<string>, filtered: seq<KitItem>)
    requires NoDup(checked)
    requires forall x :: x in checked ==> x in Ids(filtered)
    ensures Progress(checked, filtered) <= 100
    ensures filtered != [] && NoDup(Ids(filtered)) && (forall x :: x in Ids(filtered) ==> x in checked)
            ==> Progress(checked, filtered) == 100
  {
    NoDupCard(checked);
    CardFromSeq(Elems(checked), Ids(filtered));
    if filtered != [] {
      AtMost100Iff(|checked|, |filtered|);
      if NoDup(Ids(filtered)) && (forall x :: x in Ids(filtered) ==> x in checked) {
        NoDupCard(Ids(filtered));
        CardFromSeq(Elems(Ids(filtered)), checked);
        assert |checked| == |filtered|;
        FullAndEmpty(|filtered|);
      }
    }
  }

  /** The converse fails: progress counts the whole checked set, so an id
      that is not shown still counts. One stale id next to two shown items
      reads 50 without being a subset, and enough stale ids exceed 100. */
  lemma ProgressCountsStaleIds()
    ensures var shown := [KitItem("agua", "Agua", "Agua", Critical, ["general"]),
                          KitItem("radio", "Radio", "Energía", Recommended, ["general"])];
            && Progress(["linterna"], shown) == 50
            && "linterna" !in Ids(shown)
            && Progress(["agua", "radio", "linterna"], shown) == 150
  {
    var shown := [KitItem("agua", "Agua", "Agua", Critical, ["general"]),
                  KitItem("radio", "Radio", "Energía", Recommended, ["general"])];
    RoundPercentUnique(1, 2, 50);
    RoundPercentUnique(3, 2, 150);
    assert Ids(shown) == ["agua", "radio"];
  }

  /** `criticalChecked` counts the shown items that are both critical and
      checked, and never exceeds the critical count or the shown count. */
  lemma CriticalCounts(filtered: seq<KitItem>, checked: seq<string>)
    ensures CriticalChecked(filtered, checked)
            == Count(filtered, (i: KitItem) => i.priority == Critical && i.id in checked)
    ensures CriticalChecked(filtered, checked) <= |CriticalItems(filtered)| <= |filtered|
  {
    FilterFilter(filtered, (i: KitItem) => i.priority == Critical, (i: KitItem) => i.id in checked,
                 (i: KitItem) => i.priority == Critical && i.id in checked);
  }
}
