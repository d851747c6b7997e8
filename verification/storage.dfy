/**
 * `src/lib/storage.ts`: the key layout of the site's browser storage and the
 * guarded helpers around it.
 *
 * Browser storage is a map from keys to strings. `available` is false when
 * there is no `window` (server rendering) or when every storage call throws;
 * the guarded helpers then do nothing and report failure, as their `try`
 * blocks do. `clearAllData` has no `try`: it takes whether a `window` exists
 * and throws when one does but storage is blocked.
 */
module Storage {
  import opened Wrappers
  import opened Text
  import opened Json

  datatype Storage = Storage(data: map<string, string>, available: bool)

  /** What a handler that calls storage without a guard leaves behind:
      `Threw` carries the storage as it was when the exception escaped. */
  datatype Outcome = Completed(store: Storage) | Threw(store: Storage)

  // ------------------------------------------------------------------ keys

  const ProgressKey: string := "kit72_progress"
  const KitBuilderPrefix: string := "kit72_builder_"
  const ChecklistPrefix: string := "checklist_"
  const PhasesPrefix: string := "phases_"
  const StickyDismissedPrefix: string := "sticky_dismissed_"

  function KitBuilderKey(locale: string): string { KitBuilderPrefix + locale }
  function ChecklistKey(key: string): string { ChecklistPrefix + key }
  function PhasesKey(scenarioKey: string): string { PhasesPrefix + scenarioKey }
  function StickyDismissedKey(key: string): string { StickyDismissedPrefix + key }

  /** The prefixes `clearAllData` removes. */
  predicate IsAppKey(key: string) {
    || StartsWith(key, "kit72_")
    || StartsWith(key, ChecklistPrefix)
    || StartsWith(key, PhasesPrefix)
    || StartsWith(key, StickyDismissedPrefix)
  }

  // ------------------------------------------------------- raw get/set/remove

  /** `getItem`: the parsed value, `None` for a missing key, an unparsable
      value or unavailable storage. */
  function GetItem(st: Storage, c: Codec, key: string): (r: Option<Json>)
    ensures !st.available || key !in st.data ==> r.None?
  {
    if st.available && key in st.data then c.decode(st.data[key]) else None
  }

  /** `setItem`: stores the serialised value and reports success. */
  function SetItem(st: Storage, c: Codec, key: string, v: Json): (r: (Storage, bool))
    ensures r.1 == st.available
    ensures r.0.available == st.available
    ensures !st.available ==> r.0 == st
    ensures st.available ==> key in r.0.data && r.0.data[key] == c.encode(v)
    ensures forall k :: k != key ==> (k in r.0.data <==> k in st.data)
    ensures forall k :: k != key && k in st.data ==> r.0.data[k] == st.data[k]
  {
    if st.available then (st.(data := st.data[key := c.encode(v)]), true) else (st, false)
  }

  /** `removeItem`. */
  function RemoveItem(st: Storage, key: string): (r: (Storage, bool))
    ensures r.1 == st.available
    ensures r.0.available == st.available
    ensures st.available ==> key !in r.0.data
    ensures forall k :: k != key ==> (k in r.0.data <==> k in st.data)
    ensures forall k :: k != key && k in st.data ==> r.0.data[k] == st.data[k]
  {
    if st.available then (st.(data := st.data - {key}), true) else (st, false)
  }

  /** `isStorageAvailable`: writes and removes a probe key. */
  function IsStorageAvailable(st: Storage): (r: (Storage, bool))
    ensures r.1 == st.available
    ensures r.0.available == st.available
    ensures !st.available ==> r.0 == st
    ensures "__storage_test__" !in r.0.data || !st.available
    ensures forall k :: k != "__storage_test__" ==> (k in r.0.data <==> k in st.data)
    ensures forall k :: k != "__storage_test__" && k in st.data ==> r.0.data[k] == st.data[k]
  {
    if st.available then (st.(data := st.data - {"__storage_test__"}), true) else (st, false)
  }

  /** `localStorage.setItem(key, JSON.stringify(v))` called without a guard:
      it throws when storage is unavailable. */
  function WriteUnguarded(st: Storage, c: Codec, key: string, v: Json): (o: Outcome)
    ensures o.Completed? <==> st.available
    ensures o.Threw? ==> o.store == st
    ensures o.store.available == st.available
    ensures o.Completed? ==> key in o.store.data && o.store.data[key] == c.encode(v)
    ensures forall k :: k != key ==> (k in o.store.data <==> k in st.data)
    ensures forall k :: k != key && k in st.data ==> o.store.data[k] == st.data[k]
  {
    if st.available then Completed(SetItem(st, c, key, v).0) else Threw(st)
  }

  /** `JSON.parse(localStorage.getItem(key) || '{}')` called without a guard:
      `None` when either call throws. */
  function ParseOrEmpty(st: Storage, c: Codec, key: string): (r: Option<Json>)
    ensures !st.available ==> r.None?
    ensures st.available && (key !in st.data || st.data[key] == "") ==> r == Some(JObj(map[]))
  {
    if !st.available then None
    else if key !in st.data || st.data[key] == "" then Some(JObj(map[]))
    else c.decode(st.data[key])
  }

  // --------------------------------------------------------- global progress

  /** `getProgress`: the stored record, or `{}` when it is missing, corrupt or
      falsy. */
  function GetProgress(st: Storage, c: Codec): (r: Json)
    ensures Truthy(r)
    ensures var p := GetItem(st, c, ProgressKey); p.Some? && Truthy(p.value) ==> r == p.value
    ensures var p := GetItem(st, c, ProgressKey); p.None? || !Truthy(p.value) ==> r == JObj(map[])
  {
    var p := GetItem(st, c, ProgressKey);
    if p.Some? && Truthy(p.value) then p.value else JObj(map[])
  }

  /** One section of the global progress record; `total` and `scenario` are
      left out when they are `undefined`. */
  function ProgressEntry(done: int, total: Option<int>, scenario: Option<string>, lastUpdated: string): Json {
    var base := map["done" := JNum(done), "lastUpdated" := JStr(lastUpdated)];
    var withTotal := if total.Some? then base["total" := JNum(total.value)] else base;
    JObj(if scenario.Some? then withTotal["scenario" := JStr(scenario.value)] else withTotal)
  }

  /** `updateProgress(section, data)`: replaces one section. The assignment
      throws when the stored record is a truthy primitive. */
  function UpdateProgress(st: Storage, c: Codec, section: string, done: int, total: int,
                          scenario: Option<string>, now: string): (o: Outcome)
    ensures o.store.available == st.available
    ensures o.Threw? ==> o.store == st
    ensures GetProgress(st, c).JObj? ==> o.Completed?
    ensures st.available && GetProgress(st, c).JObj? ==> ProgressKey in o.store.data
    ensures forall k :: k != ProgressKey ==> (k in o.store.data <==> k in st.data)
    ensures forall k :: k != ProgressKey && k in st.data ==> o.store.data[k] == st.data[k]
  {
    var entry := ProgressEntry(done, Some(total), scenario, now);
    match SetField(GetProgress(st, c), section, entry)
    case None => Threw(st)
    case Some(p) => Completed(SetItem(st, c, ProgressKey, p).0)
  }

  // ------------------------------------------------------- kit builder state

  /** `KitBuilderState` (identical to the kit builder's `StoredKitState`). */
  datatype KitRecord = KitRecord(
    scenario: string,
    hasBabies: bool,
    hasPets: bool,
    checkedItems: seq<string>,
    expandedCategories: seq<string>,
    lastUpdated: string)

  function KitRecordToJson(r: KitRecord): Json {
    JObj(map[
      "scenario" := JStr(r.scenario),
      "hasBabies" := JBool(r.hasBabies),
      "hasPets" := JBool(r.hasPets),
      "checkedItems" := StrArray(r.checkedItems),
      "expandedCategories" := StrArray(r.expandedCategories),
      "lastUpdated" := JStr(r.lastUpdated)])
  }

  /** Reads a record back; a value without the expected fields is `None`. */
  function KitRecordFromJson(j: Json): Option<KitRecord> {
    if !j.JObj? then None
    else
      var m := j.fields;
      if && "scenario" in m && m["scenario"].JStr?
         && "hasBabies" in m && m["hasBabies"].JBool?
         && "hasPets" in m && m["hasPets"].JBool?
         && "checkedItems" in m && AsStrings(m["checkedItems"]).Some?
         && "expandedCategories" in m && AsStrings(m["expandedCategories"]).Some?
         && "lastUpdated" in m && m["lastUpdated"].JStr?
      then Some(KitRecord(m["scenario"].s, m["hasBabies"].b, m["hasPets"].b,
                          AsStrings(m["checkedItems"]).value,
                          AsStrings(m["expandedCategories"]).value,
                          m["lastUpdated"].s))
      else None
  }

  /** `getKitBuilderState`: the parsed value, unchecked, as the source casts it. */
  function GetKitBuilderState(st: Storage, c: Codec, locale: string): (r: Option<Json>)
    ensures !st.available || KitBuilderKey(locale) !in st.data ==> r.None?
    ensures st.available && KitBuilderKey(locale) in st.data ==> r == c.decode(st.data[KitBuilderKey(locale)])
  {
    GetItem(st, c, KitBuilderKey(locale))
  }

  /** `setKitBuilderState`: stores the state, then records `done` = number of
      checked items and `total` = 0 under the `kitBuilder` progress section. */
  function SetKitBuilderState(st: Storage, c: Codec, locale: string, state: KitRecord, now: string): (o: Outcome)
    ensures o.store.available == st.available
    ensures st.available ==> KitBuilderKey(locale) in o.store.data
                             && o.store.data[KitBuilderKey(locale)] == c.encode(KitRecordToJson(state))
    ensures forall k :: k != KitBuilderKey(locale) && k != ProgressKey ==> (k in o.store.data <==> k in st.data)
    ensures forall k :: k != KitBuilderKey(locale) && k != ProgressKey && k in st.data ==> o.store.data[k] == st.data[k]
  {
    KeysDistinct(locale, locale);
    var st1 := SetItem(st, c, KitBuilderKey(locale), KitRecordToJson(state)).0;
    UpdateProgress(st1, c, "kitBuilder", |state.checkedItems|, 0, Some(state.scenario), now)
  }

  /** `clearKitBuilderState`. */
  function ClearKitBuilderState(st: Storage, locale: string): (r: Storage)
    ensures r.available == st.available
    ensures !st.available ==> r == st
    ensures st.available ==> KitBuilderKey(locale) !in r.data
    ensures forall k :: k != KitBuilderKey(locale) ==> (k in r.data <==> k in st.data)
    ensures forall k :: k in r.data ==> k in st.data && r.data[k] == st.data[k]
  {
    RemoveItem(st, KitBuilderKey(locale)).0
  }

  // ------------------------------------------------- checklists and phases

  /** `getItem<string[]>(key) || []`. */
  function GetListOrEmpty(st: Storage, c: Codec, key: string): (r: Json)
    ensures Truthy(r)
    ensures var v := GetItem(st, c, key); v.Some? && Truthy(v.value) ==> r == v.value
    ensures var v := GetItem(st, c, key); v.None? || !Truthy(v.value) ==> r == JArr([])
  {
    var v := GetItem(st, c, key);
    if v.Some? && Truthy(v.value) then v.value else JArr([])
  }

  /** `getCheckedItems`: the list stored under "checklist_" + key, or `[]`. */
  function GetCheckedItems(st: Storage, c: Codec, storageKey: string): (r: Json)
    ensures Truthy(r)
    ensures var v := GetItem(st, c, ChecklistKey(storageKey)); v.Some? && Truthy(v.value) ==> r == v.value
    ensures var v := GetItem(st, c, ChecklistKey(storageKey)); v.None? || !Truthy(v.value) ==> r == JArr([])
  {
    GetListOrEmpty(st, c, ChecklistKey(storageKey))
  }

  /** `setCheckedItems`: stores the list under "checklist_" + key. */
  function SetCheckedItems(st: Storage, c: Codec, storageKey: string, items: seq<string>): (r: Storage)
    ensures r.available == st.available
    ensures !st.available ==> r == st
    ensures st.available ==> ChecklistKey(storageKey) in r.data
                             && r.data[ChecklistKey(storageKey)] == c.encode(StrArray(items))
    ensures forall k :: k != ChecklistKey(storageKey) ==> (k in r.data <==> k in st.data)
    ensures forall k :: k != ChecklistKey(storageKey) && k in st.data ==> r.data[k] == st.data[k]
  {
    SetItem(st, c, ChecklistKey(storageKey), StrArray(items)).0
  }

  /** `getCompletedPhases`: the list stored under "phases_" + key, or `[]`. */
  function GetCompletedPhases(st: Storage, c: Codec, scenarioKey: string): (r: Json)
    ensures Truthy(r)
    ensures var v := GetItem(st, c, PhasesKey(scenarioKey)); v.Some? && Truthy(v.value) ==> r == v.value
    ensures var v := GetItem(st, c, PhasesKey(scenarioKey)); v.None? || !Truthy(v.value) ==> r == JArr([])
  {
    GetListOrEmpty(st, c, PhasesKey(scenarioKey))
  }

  /** `setCompletedPhases`: stores the list under "phases_" + key. */
  function SetCompletedPhases(st: Storage, c: Codec, scenarioKey: string, phases: seq<string>): (r: Storage)
    ensures r.available == st.available
    ensures !st.available ==> r == st
    ensures st.available ==> PhasesKey(scenarioKey) in r.data
                             && r.data[PhasesKey(scenarioKey)] == c.encode(StrArray(phases))
    ensures forall k :: k != PhasesKey(scenarioKey) ==> (k in r.data <==> k in st.data)
    ensures forall k :: k != PhasesKey(scenarioKey) && k in st.data ==> r.data[k] == st.data[k]
  {
    SetItem(st, c, PhasesKey(scenarioKey), StrArray(phases)).0
  }

  // --------------------------------------------------------------- dismissal

  /** `isDismissed`: the raw stored text is exactly "true" (no parsing). */
  function IsDismissed(st: Storage, dismissKey: string): (r: bool)
    ensures r ==> st.available && StickyDismissedKey(dismissKey) in st.data
    ensures r ==> st.data[StickyDismissedKey(dismissKey)] == "true"
    ensures (st.available && StickyDismissedKey(dismissKey) in st.data
             && st.data[StickyDismissedKey(dismissKey)] == "true") ==> r
  {
    var k := StickyDismissedKey(dismissKey);
    st.available && k in st.data && st.data[k] == "true"
  }

  /** `setDismissed`: writes the raw text "true". */
  function SetDismissed(st: Storage, dismissKey: string): (r: Storage)
    ensures r.available == st.available
    ensures !st.available ==> r == st
    ensures st.available ==> StickyDismissedKey(dismissKey) in r.data
                             && r.data[StickyDismissedKey(dismissKey)] == "true"
    ensures forall k :: k != StickyDismissedKey(dismissKey) ==> (k in r.data <==> k in st.data)
    ensures forall k :: k != StickyDismissedKey(dismissKey) && k in st.data ==> r.data[k] == st.data[k]
  {
    if st.available then st.(data := st.data[StickyDismissedKey(dismissKey) := "true"]) else st
  }

  // ---------------------------------------------------------- clearAllData

  /** `clearAllData`: without a `window` it returns at once; otherwise it
      collects, in `localStorage.key(i)` order, the keys with one of the
      application prefixes, then removes them one by one. Nothing catches the
      exception blocked storage raises on `localStorage.length`. */
  method ClearAllData(st: Storage, hasWindow: bool, keys: seq<string>) returns (o: Outcome)
    requires forall k :: k in st.data <==> k in keys
    ensures !hasWindow ==> o == Completed(st)
    ensures hasWindow && !st.available ==> o == Threw(st)
    ensures o.Completed? <==> !hasWindow || st.available
    ensures o.store.available == st.available
    ensures hasWindow && st.available ==> forall k :: k in o.store.data <==> k in st.data && !IsAppKey(k)
    ensures forall k :: k in o.store.data ==> k in st.data && o.store.data[k] == st.data[k]
  {
    if !hasWindow {
      return Completed(st);
    }
    if !st.available {
      return Threw(st);
    }
    var toRemove: seq<string> := [];
    var i := 0;
    while i < |keys|
      invariant 0 <= i <= |keys|
      invariant forall k :: k in toRemove <==> k in keys[..i] && IsAppKey(k)
    {
      assert keys[..i + 1] == keys[..i] + [keys[i]];
      if IsAppKey(keys[i]) {
        toRemove := toRemove + [keys[i]];
      }
      i := i + 1;
    }
    assert keys[..i] == keys;
    var data := st.data;
    var j := 0;
    while j < |toRemove|
      invariant 0 <= j <= |toRemove|
      invariant forall k :: k in data <==> k in st.data && k !in toRemove[..j]
      invariant forall k :: k in data ==> data[k] == st.data[k]
    {
      assert toRemove[..j + 1] == toRemove[..j] + [toRemove[j]];
      data := data - {toRemove[j]};
      j := j + 1;
    }
    assert toRemove[..j] == toRemove;
    o := Completed(st.(data := data));
  }

  // ---------------------------------------------------------------- lemmas

  /** Each key builder is its prefix followed by the argument, and every key
      it builds is one that `clearAllData` removes. */
  lemma KeysAreAppKeys(arg: string)
    ensures StartsWith(KitBuilderKey(arg), KitBuilderPrefix) && IsAppKey(KitBuilderKey(arg))
    ensures StartsWith(ChecklistKey(arg), ChecklistPrefix) && IsAppKey(ChecklistKey(arg))
    ensures StartsWith(PhasesKey(arg), PhasesPrefix) && IsAppKey(PhasesKey(arg))
    ensures StartsWith(StickyDismissedKey(arg), StickyDismissedPrefix) && IsAppKey(StickyDismissedKey(arg))
    ensures IsAppKey(ProgressKey)
  {
    assert KitBuilderKey(arg)[..6] == "kit72_";
    assert ProgressKey[..6] == "kit72_";
  }

  /** Key builders are injective, and the progress key is never a kit-builder
      key, so writing one locale's state never touches the progress record. */
  lemma KeysDistinct(a: string, b: string)
    ensures KitBuilderKey(a) == KitBuilderKey(b) ==> a == b
    ensures ChecklistKey(a) == ChecklistKey(b) ==> a == b
    ensures PhasesKey(a) == PhasesKey(b) ==> a == b
    ensures KitBuilderKey(a) != ProgressKey
    ensures ChecklistKey(a) != PhasesKey(b)
    ensures ChecklistKey(a) != ProgressKey && PhasesKey(a) != ProgressKey
  {
    if KitBuilderKey(a) == KitBuilderKey(b) {
      assert a == KitBuilderKey(a)[|KitBuilderPrefix|..];
    }
    if ChecklistKey(a) == ChecklistKey(b) {
      assert a == ChecklistKey(a)[|ChecklistPrefix|..];
    }
    if PhasesKey(a) == PhasesKey(b) {
      assert a == PhasesKey(a)[|PhasesPrefix|..];
    }
    assert KitBuilderKey(a)[6] == 'b' && ProgressKey[6] == 'p';
    assert ChecklistKey(a)[0] == 'c' && PhasesKey(b)[0] == 'p';
    assert PhasesKey(a)[1] == 'h' && ProgressKey[1] == 'i';
  }

  /** After a successful `setItem(k, v)`, `getItem(k)` yields `v` and every
      other key reads as before. */
  lemma GetAfterSet(st: Storage, c: Codec, key: string, v: Json, other: string)
    requires Lawful(c)
    requires st.available
    ensures GetItem(SetItem(st, c, key, v).0, c, key) == Some(v)
    ensures other != key ==> GetItem(SetItem(st, c, key, v).0, c, other) == GetItem(st, c, other)
  {
  }

  /** `removeItem(k)` makes `getItem(k)` `None` and leaves other keys alone. */
  lemma GetAfterRemove(st: Storage, c: Codec, key: string, other: string)
    ensures GetItem(RemoveItem(st, key).0, c, key).None?
    ensures other != key ==> GetItem(RemoveItem(st, key).0, c, other) == GetItem(st, c, other)
  {
  }

  /** A missing or corrupt progress record reads as `{}`. */
  lemma ProgressDefault(st: Storage, c: Codec)
    requires !st.available || ProgressKey !in st.data || c.decode(st.data[ProgressKey]).None?
    ensures GetProgress(st, c) == JObj(map[])
  {
  }

  /** `updateProgress(s, d)` on an object record replaces entry `s` by one
      whose done/total/scenario are `d` and keeps every other section. */
  lemma UpdateProgressReplacesSection(st: Storage, c: Codec, section: string, done: int, total: int,
                                      scenario: Option<string>, now: string)
    requires Lawful(c)
    requires st.available
    requires GetProgress(st, c).JObj?
    ensures UpdateProgress(st, c, section, done, total, scenario, now).Completed?
    ensures var after := GetProgress(UpdateProgress(st, c, section, done, total, scenario, now).store, c);
            && after.JObj?
            && after.fields == GetProgress(st, c).fields[section := ProgressEntry(done, Some(total), scenario, now)]
            && Field(after.fields[section], "done") == Some(JNum(done))
            && Field(after.fields[section], "total") == Some(JNum(total))
            && (scenario.Some? ==> Field(after.fields[section], "scenario") == Some(JStr(scenario.value)))
            && (scenario.None? ==> Field(after.fields[section], "scenario").None?)
  {
  }

  /** A record read back after being stored is the record. */
  lemma KitRecordRoundTrip(r: KitRecord)
    ensures KitRecordFromJson(KitRecordToJson(r)) == Some(r)
  {
    StrArrayRoundTrip(r.checkedItems);
    StrArrayRoundTrip(r.expandedCategories);
  }

  /** `setKitBuilderState` stores the state under the locale's key and records
      `done` = number of checked items and `total` = 0. */
  lemma SetKitBuilderStateEffect(st: Storage, c: Codec, locale: string, state: KitRecord, now: string)
    requires Lawful(c)
    requires st.available
    requires GetProgress(st, c).JObj?
    ensures var o := SetKitBuilderState(st, c, locale, state, now);
            && o.Completed?
            && GetKitBuilderState(o.store, c, locale) == Some(KitRecordToJson(state))
            && KitRecordFromJson(GetKitBuilderState(o.store, c, locale).value) == Some(state)
            && GetProgress(o.store, c).JObj?
            && GetProgress(o.store, c).fields["kitBuilder"]
               == ProgressEntry(|state.checkedItems|, Some(0), Some(state.scenario), now)
  {
    var st1 := SetItem(st, c, KitBuilderKey(locale), KitRecordToJson(state)).0;
    KeysDistinct(locale, locale);
    assert GetProgress(st1, c) == GetProgress(st, c);
    UpdateProgressReplacesSection(st1, c, "kitBuilder", |state.checkedItems|, 0, Some(state.scenario), now);
    KitRecordRoundTrip(state);
  }

  /** With nothing usable stored, the checked-items and completed-phases
      lists read as `[]`; after a save they read back as saved. */
  lemma ListsDefaultAndRoundTrip(st: Storage, c: Codec, key: string, items: seq<string>)
    requires Lawful(c)
    ensures GetItem(st, c, ChecklistKey(key)).None? ==> GetCheckedItems(st, c, key) == JArr([])
    ensures GetItem(st, c, PhasesKey(key)).None? ==> GetCompletedPhases(st, c, key) == JArr([])
    ensures st.available ==> GetCheckedItems(SetCheckedItems(st, c, key, items), c, key) == StrArray(items)
    ensures st.available ==> GetCompletedPhases(SetCompletedPhases(st, c, key, items), c, key) == StrArray(items)
  {
  }

  /** `setDismissed(k)` makes `isDismissed(k)` hold and changes no other
      dismissal; a stored "false" or a missing key is not dismissed. */
  lemma DismissalRoundTrip(st: Storage, k: string, other: string)
    requires st.available
    ensures IsDismissed(SetDismissed(st, k), k)
    ensures other != k ==> (IsDismissed(SetDismissed(st, k), other) <==> IsDismissed(st, other))
  {
    if other != k {
      KeysDistinctDismissed(k, other);
    }
  }

  lemma KeysDistinctDismissed(a: string, b: string)
    requires a != b
    ensures StickyDismissedKey(a) != StickyDismissedKey(b)
  {
    assert a == StickyDismissedKey(a)[|StickyDismissedPrefix|..];
    assert b == StickyDismissedKey(b)[|StickyDismissedPrefix|..];
  }

  /** Every key the site writes is cleared by `clearAllData`, including the
      fixed key "kit72_builder", while an unrelated key survives. */
  method ClearAllDataRemovesSiteKeys(st: Storage, keys: seq<string>, arg: string) returns (r: Storage)
    requires st.available
    requires forall k :: k in st.data <==> k in keys
    ensures r.available
    ensures ProgressKey !in r.data && KitBuilderKey(arg) !in r.data && "kit72_builder" !in r.data
    ensures ChecklistKey(arg) !in r.data && PhasesKey(arg) !in r.data && StickyDismissedKey(arg) !in r.data
    ensures "theme" in st.data ==> "theme" in r.data && r.data["theme"] == st.data["theme"]
  {
    var o := ClearAllData(st, true, keys);
    r := o.store;
    KeysAreAppKeys(arg);
    assert "kit72_builder"[..6] == "kit72_";
    assert !IsAppKey("theme");
  }
}
