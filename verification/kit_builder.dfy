/**
 * `useKitBuilder`: the kit builder's state and the transitions its actions
 * and effects perform: mount-time initialisation, the save effect, the
 * milestone effect, item and category toggles, presets, reset, and the share
 * link's query parameters.
 *
 * Each React state update is a field update of `KitState`; the catalog and
 * the translation-supplied settings are parameters.
 */
module KitBuilder {
  import opened Wrappers
  import opened Seqs
  import opened OrderedSet
  import opened Json
  import opened Storage
  import opened UrlParams
  import opened KitCatalog

  /** `kb.urlParams`: the query parameter names. */
  datatype ParamNames = ParamNames(scenario: string, babies: string, pets: string)

  const DefaultParamNames: ParamNames := ParamNames("escenario", "bebes", "mascotas")

  /** The locale's kit-builder translations that drive behaviour: an explicit
      storage key, the parameter names and the milestone messages. */
  datatype Setup = Setup(
    locale: string,
    storageKey: Option<string>,
    urlParams: Option<ParamNames>,
    milestones: Option<map<string, string>>)

  /** `kb.storageKey || 'kit72_builder_' + locale`. */
  function StorageKey(setup: Setup): (k: string)
    ensures setup.storageKey.None? || setup.storageKey.value == "" ==> k == KitBuilderKey(setup.locale)
  {
    if setup.storageKey.Some? && setup.storageKey.value != "" then setup.storageKey.value
    else KitBuilderKey(setup.locale)
  }

  function Names(setup: Setup): ParamNames {
    setup.urlParams.GetOr(DefaultParamNames)
  }

  datatype KitState = KitState(
    scenario: string,
    hasBabies: bool,
    hasPets: bool,
    checked: seq<string>,
    expanded: seq<string>,
    milestone: Option<string>,
    showConfetti: bool,
    isLoaded: bool,
    hasStoredProgress: bool,
    selectedPreset: Option<string>,
    prevProgress: nat)

  /** The two sets are JavaScript `Set`s. */
  predicate Valid(s: KitState) {
    NoDup(s.checked) && NoDup(s.expanded)
  }

  /** The `useState` initial values; `initialScenario` is "" when absent. */
  function Initial(cat: Catalog, initialScenario: string): (s: KitState)
    ensures Valid(s) && !s.isLoaded && s.checked == [] && s.expanded == []
    ensures s.scenario == if initialScenario != "" then initialScenario else DefaultScenario(cat)
  {
    KitState(if initialScenario != "" then initialScenario else DefaultScenario(cat),
             false, false, [], [], None, false, false, false, None, 0)
  }

  function Filtered(cat: Catalog, s: KitState): seq<KitItem> {
    FilteredItems(cat, s.scenario, s.hasBabies, s.hasPets)
  }

  function ProgressOf(cat: Catalog, s: KitState): nat {
    Progress(s.checked, Filtered(cat, s))
  }

  // ------------------------------------------------------------ mount

  /** The key the URL preset lookup compares. */
  function PresetId(p: QuickPreset): string { p.id }

  /** What the stored record read gives: nothing (missing or empty text), a
      record, or an exception (storage unavailable, unparsable text, or a
      value without the record's shape). */
  datatype StoredRead = NothingStored | Stored(rec: KitRecord) | ReadFailed

  function ReadStored(st: Storage, c: Codec, key: string): (r: StoredRead)
    ensures r.Stored? ==> st.available && key in st.data
  {
    if !st.available then ReadFailed
    else if key !in st.data || st.data[key] == "" then NothingStored
    else match c.decode(st.data[key])
      case None => ReadFailed
      case Some(j) =>
        match KitRecordFromJson(j)
        case None => ReadFailed
        case Some(rec) => Stored(rec)
  }

  /** The URL scenario, when it is present, non-empty and `scenarios[v]` is
      truthy: a scenario of the catalog, or a name every object inherits
      from `Object.prototype`. */
  function UrlScenario(cat: Catalog, setup: Setup, query: Params): (r: Option<string>)
    ensures r.Some? ==> r == Get(query, Names(setup).scenario)
    ensures r.Some? <==>
              && Get(query, Names(setup).scenario).Some?
              && Get(query, Names(setup).scenario).value != ""
              && (Get(query, Names(setup).scenario).value in cat.scenarioIds
                  || Get(query, Names(setup).scenario).value in ObjectPrototypeNames)
  {
    var v := Get(query, Names(setup).scenario);
    if v.Some? && v.value != "" && (v.value in cat.scenarioIds || v.value in ObjectPrototypeNames) then v else None
  }

  /** The preset named by the URL, when it is present, non-empty and known. */
  function UrlPreset(cat: Catalog, query: Params): (r: Option<QuickPreset>)
    ensures r.Some? ==> r.value in cat.presets
  {
    var v := Get(query, "preset");
    if v.Some? && v.value != "" then FindById(cat.presets, PresetId, v.value) else None
  }

  function PresetFlags(config: Option<PresetConfig>): (bool, bool) {
    if config.None? then (false, false)
    else (config.value.babies.GetOr(false), config.value.pets.GetOr(false))
  }

  /** The mount effect: a known URL scenario, else a known URL preset, else
      the stored record, else the default expansion. */
  function Mount(cat: Catalog, setup: Setup, initialScenario: string, query: Params,
                 st: Storage, c: Codec): (r: KitState)
    ensures Valid(r) && r.isLoaded
    ensures r.milestone.None? && !r.showConfetti && r.prevProgress == 0 && r.selectedPreset.None?
    ensures r.hasStoredProgress ==> r.checked != []
    ensures |r.expanded| <= 2 || ReadStored(st, c, StorageKey(setup)).Stored?
  {
    var s := Initial(cat, initialScenario);
    var urlScenario := UrlScenario(cat, setup, query);
    var urlPreset := UrlPreset(cat, query);
    if urlScenario.Some? then
      s.(scenario := urlScenario.value, isLoaded := true,
         expanded := LeadingCategories(cat, urlScenario.value))
    else if urlPreset.Some? then
      var config := urlPreset.value.config;
      s.(scenario := PresetScenario(cat, config), hasBabies := PresetFlags(config).0,
         hasPets := PresetFlags(config).1, isLoaded := true)
    else
      match ReadStored(st, c, StorageKey(setup))
      case Stored(rec) =>
        s.(hasStoredProgress := |rec.checkedItems| > 0,
           scenario := if initialScenario == "" then rec.scenario else s.scenario,
           hasBabies := rec.hasBabies, hasPets := rec.hasPets,
           checked := FromSeq(rec.checkedItems), expanded := FromSeq(rec.expandedCategories),
           isLoaded := true)
      case _ =>
        s.(expanded := LeadingCategories(cat, s.scenario), isLoaded := true)
  }

  // ------------------------------------------------------------- save

  /** The kit builder's entry in the global progress record. */
  function ProgressRecordEntry(cat: Catalog, s: KitState, now: string): Json {
    ProgressEntry(|s.checked|, Some(|Filtered(cat, s)|), Some(s.scenario), now)
  }

  function RecordOf(s: KitState, now: string): KitRecord {
    KitRecord(s.scenario, s.hasBabies, s.hasPets, s.checked, s.expanded, now)
  }

  /** `saveState`: nothing before loading; otherwise write the record, then
      merge the `kitBuilder` entry into the global progress record. None of
      the storage calls is guarded. */
  function Save(cat: Catalog, setup: Setup, s: KitState, st: Storage, c: Codec, now: string): (o: Outcome)
    ensures !s.isLoaded ==> o == Completed(st)
    ensures s.isLoaded && !st.available ==> o == Threw(st)
    ensures o.store.available == st.available
    ensures s.isLoaded && st.available && StorageKey(setup) != ProgressKey
            ==> StorageKey(setup) in o.store.data
                && o.store.data[StorageKey(setup)] == c.encode(KitRecordToJson(RecordOf(s, now)))
    ensures forall k :: k != StorageKey(setup) && k != ProgressKey ==> (k in o.store.data <==> k in st.data)
    ensures forall k :: k != StorageKey(setup) && k != ProgressKey && k in st.data ==> o.store.data[k] == st.data[k]
  {
    if !s.isLoaded then Completed(st)
    else
      match WriteUnguarded(st, c, StorageKey(setup), KitRecordToJson(RecordOf(s, now)))
      case Threw(st0) => Threw(st0)
      case Completed(st1) =>
        match ParseOrEmpty(st1, c, ProgressKey)
        case None => Threw(st1)
        case Some(g) =>
          match SetField(g, "kitBuilder", ProgressRecordEntry(cat, s, now))
          case None => Threw(st1)
          case Some(g2) => WriteUnguarded(st1, c, ProgressKey, g2)
  }

  // ------------------------------------------------------------ actions

  /** `toggleItem`. */
  function ToggleItem(s: KitState, id: string): (r: KitState)
    ensures r == s.(checked := r.checked)
    ensures Valid(s) ==> Valid(r)
    ensures forall y :: y in r.checked <==> (if y == id then id !in s.checked else y in s.checked)
  {
    ToggleMembershipAll(s.checked, id);
    s.(checked := Toggle(s.checked, id))
  }

  /** `toggleCategory`. */
  function ToggleCategory(s: KitState, category: string): (r: KitState)
    ensures r == s.(expanded := r.expanded)
    ensures Valid(s) ==> Valid(r)
    ensures forall y :: y in r.expanded <==> (if y == category then category !in s.expanded else y in s.expanded)
  {
    ToggleMembershipAll(s.expanded, category);
    s.(expanded := Toggle(s.expanded, category))
  }

  lemma ToggleMembershipAll(s: seq<string>, x: string)
    ensures forall y :: y in Toggle(s, x) <==> (if y == x then x !in s else y in s)
  {
    forall y
      ensures y in Toggle(s, x) <==> (if y == x then x !in s else y in s)
    {
      ToggleMembership(s, x, y);
    }
  }

  /** `applyPreset`. */
  function ApplyPreset(cat: Catalog, s: KitState, p: QuickPreset): (r: KitState)
    ensures r.scenario == PresetScenario(cat, p.config)
    ensures r == s.(scenario := r.scenario, hasBabies := r.hasBabies, hasPets := r.hasPets,
                    selectedPreset := r.selectedPreset, expanded := r.expanded)
    ensures r.checked == s.checked && r.isLoaded == s.isLoaded && r.prevProgress == s.prevProgress
    ensures r.milestone == s.milestone && r.showConfetti == s.showConfetti
    ensures r.selectedPreset == Some(p.id)
    ensures Valid(s) ==> Valid(r)
  {
    var sc := PresetScenario(cat, p.config);
    s.(scenario := sc, hasBabies := PresetFlags(p.config).0, hasPets := PresetFlags(p.config).1,
       selectedPreset := Some(p.id), expanded := LeadingCategories(cat, sc))
  }

  /** `resetChecklist`: the state updates are queued before the unguarded
      `removeItem`, so they take effect even when it throws. */
  function Reset(setup: Setup, s: KitState, st: Storage): (r: (KitState, Outcome))
    ensures r.0 == s.(checked := [], showConfetti := false)
    ensures r.1.Completed? <==> st.available
    ensures !st.available ==> r.1 == Threw(st)
    ensures st.available ==> StorageKey(setup) !in r.1.store.data
    ensures forall k :: k != StorageKey(setup) ==> (k in r.1.store.data <==> k in st.data)
    ensures forall k :: k != StorageKey(setup) && k in st.data ==> r.1.store.data[k] == st.data[k]
  {
    (s.(checked := [], showConfetti := false),
     if st.available then Completed(RemoveItem(st, StorageKey(setup)).0) else Threw(st))
  }

  /** `getShareUrl`'s query: cleared, then the scenario, then "1" for each
      household flag that is set. */
  function ShareParams(setup: Setup, s: KitState): (r: Params)
    ensures forall k :: k != Names(setup).scenario && k != Names(setup).babies && k != Names(setup).pets
                        ==> Get(r, k).None?
    ensures s.hasPets ==> Get(r, Names(setup).pets) == Some("1")
    ensures Names(setup).scenario != Names(setup).babies && Names(setup).scenario != Names(setup).pets
            ==> Get(r, Names(setup).scenario) == Some(s.scenario)
    ensures Names(setup).scenario != Names(setup).babies && Names(setup).babies != Names(setup).pets
            ==> Get(r, Names(setup).babies) == if s.hasBabies then Some("1") else None
  {
    var n := Names(setup);
    var p1 := Set([], n.scenario, s.scenario);
    var p2 := if s.hasBabies then Set(p1, n.babies, "1") else p1;
    if s.hasPets then Set(p2, n.pets, "1") else p2
  }

  // ---------------------------------------------------------- milestones

  datatype Threshold = Threshold(at: nat, message: string)

  function Message(ms: map<string, string>, k: string): string {
    if k in ms then ms[k] else ""
  }

  /** The thresholds that have a (non-empty) message, in ascending order. */
  function Thresholds(ms: map<string, string>): (ts: seq<Threshold>)
    ensures forall i :: 0 <= i < |ts| ==> ts[i].message != "" && ts[i].at in {25, 50, 75, 100}
    ensures Ascending(ts)
  {
    var all := [Threshold(25, Message(ms, "25")), Threshold(50, Message(ms, "50")),
                Threshold(75, Message(ms, "75")), Threshold(100, Message(ms, "100"))];
    var ts := Filter(all, (t: Threshold) => t.message != "");
    FilterIsSubsequence(all, (t: Threshold) => t.message != "");
    AscendingSub(ts, all);
    ts
  }

  /** The thresholds considered are exactly those whose message is set. */
  lemma ThresholdMembers(ms: map<string, string>)
    ensures Threshold(25, Message(ms, "25")) in Thresholds(ms) <==> Message(ms, "25") != ""
    ensures Threshold(50, Message(ms, "50")) in Thresholds(ms) <==> Message(ms, "50") != ""
    ensures Threshold(75, Message(ms, "75")) in Thresholds(ms) <==> Message(ms, "75") != ""
    ensures Threshold(100, Message(ms, "100")) in Thresholds(ms) <==> Message(ms, "100") != ""
    ensures |Thresholds(ms)| <= 4
  {
  }

  predicate Ascending(ts: seq<Threshold>) {
    forall i, j :: 0 <= i < j < |ts| ==> ts[i].at < ts[j].at
  }

  /** A subsequence of an ascending list is ascending. */
  lemma {:induction false} AscendingSub(a: seq<Threshold>, b: seq<Threshold>)
    requires IsSubsequence(a, b)
    requires Ascending(b)
    ensures Ascending(a)
    decreases |b|
  {
    if a != [] && b != [] {
      if a[0] == b[0] {
        AscendingSub(a[1..], b[1..]);
        forall j | 0 < j < |a|
          ensures a[0].at < a[j].at
        {
          SubsequenceMember(a[1..], b[1..], j - 1);
        }
      } else {
        AscendingSub(a, b[1..]);
      }
    }
  }

  /** Every element of a subsequence occurs in the larger sequence. */
  lemma {:induction false} SubsequenceMember(a: seq<Threshold>, b: seq<Threshold>, k: nat)
    requires IsSubsequence(a, b) && k < |a|
    ensures a[k] in b
    decreases |b|
  {
    if a[0] == b[0] {
      if k > 0 {
        SubsequenceMember(a[1..], b[1..], k - 1);
      }
    } else {
      SubsequenceMember(a, b[1..], k);
    }
  }

  /** `thresholds.find(m => prev < m.threshold && progress >= m.threshold)`. */
  function Crossed(ts: seq<Threshold>, prev: int, progress: int): (r: Option<Threshold>)
    ensures r.Some? ==> r.value in ts && prev < r.value.at <= progress
    ensures r.None? <==> forall i :: 0 <= i < |ts| ==> !(prev < ts[i].at <= progress)
    ensures r.Some? && Ascending(ts) ==> forall t :: t in ts && prev < t.at <= progress ==> r.value.at <= t.at
  {
    if ts == [] then None
    else if prev < ts[0].at <= progress then Some(ts[0])
    else Crossed(ts[1..], prev, progress)
  }

  /** The milestone effect for a new `progress` value. */
  function MilestoneStep(setup: Setup, s: KitState, progress: nat): (r: KitState)
    ensures r == s.(milestone := r.milestone, showConfetti := r.showConfetti, prevProgress := r.prevProgress)
    ensures !s.isLoaded || setup.milestones.None? ==> r == s
  {
    if !s.isLoaded || setup.milestones.None? then s
    else
      match Crossed(Thresholds(setup.milestones.value), s.prevProgress, progress)
      case None => s.(prevProgress := progress)
      case Some(t) =>
        s.(milestone := Some(t.message), showConfetti := s.showConfetti || t.at == 100,
           prevProgress := progress)
  }

  // ---------------------------------------------------------------- lemmas

  /** Toggling the same item, or the same category, twice restores the set. */
  lemma ToggleInvolution(s: KitState, id: string)
    ensures Elems(ToggleItem(ToggleItem(s, id), id).checked) == Elems(s.checked)
    ensures ToggleItem(ToggleItem(s, id), id).scenario == s.scenario
    ensures Elems(ToggleCategory(ToggleCategory(s, id), id).expanded) == Elems(s.expanded)
    ensures id !in s.checked ==> ToggleItem(ToggleItem(s, id), id) == s
  {
    ToggleTwice(s.checked, id);
    ToggleTwice(s.expanded, id);
    if id !in s.checked {
      ToggleTwiceAbsent(s.checked, id);
    }
  }

  /** A valid URL scenario wins over the preset and the stored record: the
      result does not depend on storage, and it expands the scenario's first
      two categories with nothing checked. */
  lemma MountUrlScenarioWins(cat: Catalog, setup: Setup, init: string, query: Params,
                             st1: Storage, st2: Storage, c: Codec)
    requires UrlScenario(cat, setup, query).Some?
    ensures var r := Mount(cat, setup, init, query, st1, c);
            && r == Mount(cat, setup, init, query, st2, c)
            && r.scenario == UrlScenario(cat, setup, query).value
            && r.expanded == LeadingCategories(cat, r.scenario)
            && r.checked == [] && !r.hasBabies && !r.hasPets && !r.hasStoredProgress
  {
  }

  /** `?scenario=constructor` passes the check through the inherited
      member: the builder opens on a scenario no item lists, with nothing
      expanded and nothing checked, whatever is stored. */
  lemma InheritedScenarioName(cat: Catalog, setup: Setup, init: string, st: Storage, c: Codec)
    requires forall i :: 0 <= i < |cat.items| ==> "constructor" !in cat.items[i].scenarios
    ensures var r := Mount(cat, setup, init, [(Names(setup).scenario, "constructor")], st, c);
            r.scenario == "constructor" && r.expanded == [] && r.checked == []
  {
    var q: Params := [(Names(setup).scenario, "constructor")];
    assert Get(q, Names(setup).scenario) == Some("constructor");
    assert "constructor" in ObjectPrototypeNames;
    assert Filter(cat.items, (i: KitItem) => "constructor" in i.scenarios) == [] by {
      FilterNonePass(cat.items, (i: KitItem) => "constructor" in i.scenarios);
    }
  }

  /** Without a valid URL scenario, a known preset wins over storage: its
      config sets scenario and flags, and nothing is expanded or checked. */
  lemma MountPresetBeatsStorage(cat: Catalog, setup: Setup, init: string, query: Params,
                                st1: Storage, st2: Storage, c: Codec)
    requires UrlScenario(cat, setup, query).None?
    requires UrlPreset(cat, query).Some?
    ensures var r := Mount(cat, setup, init, query, st1, c);
            var config := UrlPreset(cat, query).value.config;
            && r == Mount(cat, setup, init, query, st2, c)
            && r.scenario == PresetScenario(cat, config)
            && (r.hasBabies <==> config.Some? && config.value.babies == Some(true))
            && (r.hasPets <==> config.Some? && config.value.pets == Some(true))
            && r.expanded == [] && r.checked == []
  {
  }

  /** With no URL choice and no usable record, the first two categories of
      the current scenario are expanded and nothing else changes. */
  lemma MountDefaults(cat: Catalog, setup: Setup, init: string, query: Params, st: Storage, c: Codec)
    requires UrlScenario(cat, setup, query).None? && UrlPreset(cat, query).None?
    requires !ReadStored(st, c, StorageKey(setup)).Stored?
    ensures var r := Mount(cat, setup, init, query, st, c);
            && r.scenario == Initial(cat, init).scenario
            && r.expanded == LeadingCategories(cat, r.scenario)
            && r.checked == [] && !r.hasStoredProgress && !r.hasBabies && !r.hasPets
  {
  }

  /** Mounting restores what the save effect stored: the scenario (unless the
      page fixes one), the flags, the checked and expanded sets, and
      `hasStoredProgress` iff something was checked. */
  lemma MountAfterSave(cat: Catalog, setup: Setup, s: KitState, st: Storage, c: Codec, now: string,
                       init: string, query: Params)
    requires Lawful(c) && Valid(s) && s.isLoaded && st.available
    requires StorageKey(setup) != ProgressKey
    requires Save(cat, setup, s, st, c, now).Completed?
    requires UrlScenario(cat, setup, query).None? && UrlPreset(cat, query).None?
    ensures var r := Mount(cat, setup, init, query, Save(cat, setup, s, st, c, now).store, c);
            && r.scenario == (if init == "" then s.scenario else Initial(cat, init).scenario)
            && r.hasBabies == s.hasBabies && r.hasPets == s.hasPets
            && r.checked == s.checked && r.expanded == s.expanded
            && (r.hasStoredProgress <==> s.checked != [])
  {
    var key := StorageKey(setup);
    var rec := RecordOf(s, now);
    var st1 := SetItem(st, c, key, KitRecordToJson(rec)).0;
    var st2 := Save(cat, setup, s, st, c, now).store;
    assert st2.data[key] == st1.data[key];
    KitRecordRoundTrip(rec);
    assert ReadStored(st2, c, key) == Stored(rec) by {
      assert c.decode(c.encode(KitRecordToJson(rec))) == Some(KitRecordToJson(rec));
      assert c.encode(KitRecordToJson(rec)) != "";
    }
    DistinctOfNoDup(s.checked);
    DistinctOfNoDup(s.expanded);
  }

  /** After loading, a save with a parsable object record writes the record
      under the builder's key, sets `kitBuilder` = {done: checked count,
      total: shown count} and keeps every other progress section. */
  lemma SaveEffect(cat: Catalog, setup: Setup, s: KitState, st: Storage, c: Codec, now: string)
    requires Lawful(c) && s.isLoaded && st.available
    requires StorageKey(setup) != ProgressKey
    requires ParseOrEmpty(st, c, ProgressKey).Some? && ParseOrEmpty(st, c, ProgressKey).value.JObj?
    ensures var o := Save(cat, setup, s, st, c, now);
            var before := ParseOrEmpty(st, c, ProgressKey).value.fields;
            && o.Completed?
            && GetItem(o.store, c, StorageKey(setup)) == Some(KitRecordToJson(RecordOf(s, now)))
            && GetItem(o.store, c, ProgressKey).Some?
            && GetItem(o.store, c, ProgressKey).value.JObj?
            && var after := GetItem(o.store, c, ProgressKey).value.fields;
               && after["kitBuilder"] == ProgressRecordEntry(cat, s, now)
               && Field(after["kitBuilder"], "done") == Some(JNum(|s.checked|))
               && Field(after["kitBuilder"], "total") == Some(JNum(|Filtered(cat, s)|))
               && forall k :: k != "kitBuilder" ==> (k in after <==> k in before) && (k in before ==> after[k] == before[k])
    ensures var o := Save(cat, setup, s, st, c, now);
            forall k :: k != StorageKey(setup) && k != ProgressKey
                        ==> (k in o.store.data <==> k in st.data) && (k in st.data ==> o.store.data[k] == st.data[k])
  {
    var st1 := SetItem(st, c, StorageKey(setup), KitRecordToJson(RecordOf(s, now))).0;
    assert ParseOrEmpty(st1, c, ProgressKey) == ParseOrEmpty(st, c, ProgressKey);
  }

  /** A save before loading writes nothing; a save with storage unavailable
      throws before writing anything. */
  lemma SaveGuards(cat: Catalog, setup: Setup, s: KitState, st: Storage, c: Codec, now: string)
    ensures !s.isLoaded ==> Save(cat, setup, s, st, c, now) == Completed(st)
    ensures !st.available ==> Save(cat, setup, s, st, c, now).store == st
  {
  }

  /** Reset followed by the save effect leaves a record with nothing checked
      and the same scenario, flags and expanded categories. */
  lemma ResetThenSave(cat: Catalog, setup: Setup, s: KitState, st: Storage, c: Codec, now: string)
    requires Lawful(c) && s.isLoaded && st.available
    requires StorageKey(setup) != ProgressKey
    requires ParseOrEmpty(st, c, ProgressKey).Some? && ParseOrEmpty(st, c, ProgressKey).value.JObj?
    ensures var r := Reset(setup, s, st);
            var o := Save(cat, setup, r.0, r.1.store, c, now);
            && o.Completed?
            && GetItem(o.store, c, StorageKey(setup))
               == Some(KitRecordToJson(KitRecord(s.scenario, s.hasBabies, s.hasPets, [], s.expanded, now)))
  {
    var r := Reset(setup, s, st);
    assert ParseOrEmpty(r.1.store, c, ProgressKey) == ParseOrEmpty(st, c, ProgressKey);
    SaveEffect(cat, setup, r.0, r.1.store, c, now);
  }

  /** `applyPreset` takes scenario and flags from the config (default
      scenario, false flags when absent) and expands the scenario's first two
      categories; two presets with the same config differ only in the
      selected id. */
  lemma ApplyPresetEffect(cat: Catalog, s: KitState, p: QuickPreset, q: QuickPreset)
    ensures var r := ApplyPreset(cat, s, p);
            && (p.config.None? ==> r.scenario == DefaultScenario(cat) && !r.hasBabies && !r.hasPets)
            && (p.config.Some? ==>
                  && r.scenario == (if p.config.value.scenario.Some? && p.config.value.scenario.value != ""
                                    then p.config.value.scenario.value else DefaultScenario(cat))
                  && (r.hasBabies <==> p.config.value.babies == Some(true))
                  && (r.hasPets <==> p.config.value.pets == Some(true)))
            && r.expanded == LeadingCategories(cat, r.scenario)
            && r.expanded == Take(CategoriesOf(Filter(cat.items, (i: KitItem) => r.scenario in i.scenarios)), 2)
    ensures p.config == q.config ==> ApplyPreset(cat, s, p) == ApplyPreset(cat, s, q).(selectedPreset := Some(p.id))
  {
  }

  /** When no threshold is crossed between the previous and the current
      progress, nothing fires; a milestone shown is always one of the
      table's messages; and the previous progress becomes the current one. */
  lemma MilestoneRule(setup: Setup, s: KitState, progress: nat)
    requires s.isLoaded && setup.milestones.Some?
    ensures var r := MilestoneStep(setup, s, progress);
            var ts := Thresholds(setup.milestones.value);
            && r.prevProgress == progress
            && (r.milestone != s.milestone ==> exists t :: t in ts && r.milestone == Some(t.message))
            && ((forall t :: t in ts ==> !(s.prevProgress < t.at <= progress)) ==> r.milestone == s.milestone && r.showConfetti == s.showConfetti)
  {
    var ts := Thresholds(setup.milestones.value);
    var cr := Crossed(ts, s.prevProgress, progress);
    if cr.None? {
      forall t | t in ts
        ensures !(s.prevProgress < t.at <= progress)
      {
        var i :| 0 <= i < |ts| && ts[i] == t;
      }
    }
  }

  /** The threshold fired is the smallest one crossed, and confetti is
      raised iff it is 100. */
  lemma MilestoneSmallest(setup: Setup, s: KitState, progress: nat, t: Threshold)
    requires s.isLoaded && setup.milestones.Some?
    requires t in Thresholds(setup.milestones.value) && s.prevProgress < t.at <= progress
    requires forall u :: u in Thresholds(setup.milestones.value) && s.prevProgress < u.at <= progress ==> t.at <= u.at
    ensures MilestoneStep(setup, s, progress).milestone == Some(t.message)
    ensures MilestoneStep(setup, s, progress).showConfetti <==> s.showConfetti || t.at == 100
  {
    var ts := Thresholds(setup.milestones.value);
    var cr := Crossed(ts, s.prevProgress, progress);
    var i :| 0 <= i < |ts| && ts[i] == t;
    assert cr.Some?;
    var c := cr.value;
    assert c in ts && s.prevProgress < c.at <= progress;
    assert t.at <= c.at;
    assert c.at <= t.at;
    AscendingUniqueAt(ts, t, c);
    assert MilestoneStep(setup, s, progress).milestone == Some(c.message);
  }

  lemma AscendingUniqueAt(ts: seq<Threshold>, a: Threshold, b: Threshold)
    requires Ascending(ts) && a in ts && b in ts && a.at == b.at
    ensures a == b
  {
    var i :| 0 <= i < |ts| && ts[i] == a;
    var j :| 0 <= j < |ts| && ts[j] == b;
    if i < j {
    } else if j < i {
    }
  }

  /** Progress that does not rise fires nothing. */
  lemma MilestoneNotRising(setup: Setup, s: KitState, progress: nat)
    requires progress <= s.prevProgress
    ensures MilestoneStep(setup, s, progress).milestone == s.milestone
    ensures MilestoneStep(setup, s, progress).showConfetti == s.showConfetti
  {
  }

  /** A jump from below 25 to 100 or beyond fires the 25 message when it is
      set, not the 100 one, so no confetti is raised. */
  lemma MilestoneSkipsToSmallest(setup: Setup, s: KitState, progress: nat)
    requires s.isLoaded && setup.milestones.Some?
    requires Message(setup.milestones.value, "25") != ""
    requires s.prevProgress < 25 && progress >= 100
    ensures MilestoneStep(setup, s, progress).milestone == Some(Message(setup.milestones.value, "25"))
    ensures MilestoneStep(setup, s, progress).showConfetti == s.showConfetti
  {
    var ms := setup.milestones.value;
    var all := [Threshold(25, Message(ms, "25")), Threshold(50, Message(ms, "50")),
                Threshold(75, Message(ms, "75")), Threshold(100, Message(ms, "100"))];
    assert Thresholds(ms) == [all[0]] + Filter(all[1..], (t: Threshold) => t.message != "");
  }

  /** The share query carries the scenario, and "1" for exactly the flags
      that are set, and nothing else when the three names differ. */
  lemma ShareParamsContent(setup: Setup, s: KitState, other: string)
    requires Names(setup).scenario != Names(setup).babies
    requires Names(setup).scenario != Names(setup).pets
    requires Names(setup).babies != Names(setup).pets
    ensures Get(ShareParams(setup, s), Names(setup).scenario) == Some(s.scenario)
    ensures Get(ShareParams(setup, s), Names(setup).babies) == if s.hasBabies then Some("1") else None
    ensures Get(ShareParams(setup, s), Names(setup).pets) == if s.hasPets then Some("1") else None
    ensures other !in {Names(setup).scenario, Names(setup).babies, Names(setup).pets}
            ==> Get(ShareParams(setup, s), other).None?
  {
    var n := Names(setup);
    var p1 := Set([], n.scenario, s.scenario);
    var p2 := if s.hasBabies then Set(p1, n.babies, "1") else p1;
    ParamAfterSet([], n.scenario, s.scenario, n.babies);
    ParamAfterSet([], n.scenario, s.scenario, n.pets);
    ParamAfterSet([], n.scenario, s.scenario, other);
    if s.hasBabies {
      ParamAfterSet(p1, n.babies, "1", n.scenario);
      ParamAfterSet(p1, n.babies, "1", n.pets);
      ParamAfterSet(p1, n.babies, "1", other);
    }
    if s.hasPets {
      ParamAfterSet(p2, n.pets, "1", n.scenario);
      ParamAfterSet(p2, n.pets, "1", n.babies);
      ParamAfterSet(p2, n.pets, "1", other);
    }
  }

  /** Every transition keeps the two sets duplicate-free. */
  lemma TransitionsKeepValid(cat: Catalog, setup: Setup, s: KitState, p: QuickPreset, st: Storage, x: string, progress: nat)
    requires Valid(s)
    ensures Valid(ToggleItem(s, x)) && Valid(ToggleCategory(s, x)) && Valid(ApplyPreset(cat, s, p))
    ensures Valid(Reset(setup, s, st).0) && Valid(MilestoneStep(setup, s, progress))
  {
  }
}
