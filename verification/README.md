# kit-72 decision logic in Dafny

kit-72 is a multilingual (Spanish, Dutch, German) emergency-preparedness
site. Under its React widgets sits a layer of small, deterministic logic.
This project models that layer as immutable datatypes and pure functions
and proves properties of it:

- **Kit builder** (`KitCatalog`, `KitBuilder`, `CategorySection`). It
  covers:
  - item filtering by scenario and household flags;
  - the distinct category list;
  - the progress percentage and critical-item counts;
  - the milestone rule;
  - item and category toggles, presets, reset and the share link;
  - mount-time initialisation, whose precedence is URL scenario, then URL
    preset, then stored record, then defaults;
  - the save effect.
- **Browser storage** (`Storage`, `AddToKit`, `InteractiveChecklist`,
  `PhaseTabs`). Storage is a map from keys to strings plus an
  `available` flag. JSON is an abstract codec whose decode inverts its
  encode. It covers:
  - key layout, `getItem`/`setItem`/`removeItem`;
  - the global progress record and `clearAllData`;
  - the "add to kit" button;
  - the hub checklists;
  - the phase tabs, with their monotone set of completed phases.
- **Locales and paths** (`Hreflang`, `I18n`, `BottomNav`, `Sitemap`). It
  covers:
  - the hreflang table, its alternates and the proof that its links are
    bidirectional;
  - locale detection and the dot-path translation lookup;
  - the bottom navigation's active section and its three overlays;
  - the sitemap filter and priority rules.
- **Search and input** (`SearchModal`, `NumberInput`). It covers:
  - the site search with its keyboard index and category grouping;
  - the clamped number field.
- **Calculators** (`CalculatorUtils`, `WaterCalculator`,
  `PowerCalculator`). It covers:
  - container and power-bank recommendations;
  - steppers and presets;
  - the water formulas;
  - the power breakdown.

Support modules:

- `Wrappers`: `Option`.
- `Seqs`: filter, subsequence, distinct.
- `OrderedSet`: a JavaScript `Set` as a duplicate-free sequence in
  insertion order.
- `Text`: substring, split, JavaScript whitespace.
- `Json`: JSON values and the property reads and writes the source does
  on them.
- `Percent`: `Math.round(n / d * 100)`.
- `UrlParams`: `URLSearchParams` get and set.

Three modelling choices hold throughout:

- An operation that can throw returns an `Outcome`, either `Completed` or
  `Threw` with the storage as it was at the throw.
- Timestamps, `parseFloat`, `String(number)`, `toLowerCase`, the catalog,
  the translations and the search page lists are parameters.
- Numbers are mathematical integers and reals.

Some stated properties are consequences of the code as written and are
worth knowing:

- The kit builder's progress divides the size of the whole checked set by
  the number of items shown, so ids checked under another scenario count
  too (`KitCatalog.ProgressCountsStaleIds`).
- The percentage is at most 100 exactly when 200·checked < 201·shown
  (`Percent.AtMost100Iff`). A checked set that is not a subset of the
  shown items can therefore still read 100 or less.
- The milestone effect fires the smallest newly crossed threshold
  (`KitBuilder.MilestoneSmallest`).
- `AddToKitButton` always uses the fixed key `kit72_builder`, which no
  locale's kit builder reads (`AddToKit.FixedKeyIsNotLocaleKey`).
- The search draws its results grouped by category but moves its
  highlighted index over the ungrouped list. The two orders agree because
  every page list keeps each category contiguous
  (`SearchModal.SearchThenEnter`). With interleaved categories they would
  differ (`SearchModal.InterleavedCategoriesReorder`).
- The Dutch kit builder lives under `/tools/`. The sitemap gives it pillar
  priority (`Sitemap.DutchKitBuilderIsPillar`), and the bottom navigation
  puts it in the my-kit section (`BottomNav.ConfiguratorIsMyKit`).

## Model

| member | source | states |
|---|---|---|
| KitCatalog.DefaultScenario | src/components/tools/kit-builder/useKitBuilder.ts:52-53 | the default scenario is never empty: the first scenario id, or "general" when there is none |
| KitCatalog.PresetScenario | src/components/tools/kit-builder/useKitBuilder.ts:214-215 | a preset's scenario is used when it is present and non-empty; otherwise the default scenario; never empty |
| Seqs.FindById | src/components/tools/kit-builder/useKitBuilder.ts:147 | `find` by id answers the first entry carrying the requested id, and answers nothing exactly when no entry carries it; the category lookup here and the URL preset lookup at line 100 both use it |
| KitCatalog.FilteredItems | src/components/tools/kit-builder/useKitBuilder.ts:145-155 | the shown items are never more than the catalog's items |
| KitCatalog.FilteredMembership | src/components/tools/kit-builder/useKitBuilder.ts:145-155 | an item is shown iff it is in the catalog, tagged with the active scenario, and its category's babies/pets condition (category data, "baby", "huisdieren", the mis-encoded "Bebés", "Mascotas") is met by the household flags |
| KitCatalog.FilteredKeepsOrder | src/components/tools/kit-builder/useKitBuilder.ts:145 | the shown items are a subsequence of the catalog, in catalog order |
| KitCatalog.FlagsMonotone | src/components/tools/kit-builder/useKitBuilder.ts:148-153 | turning the babies or pets flag on never hides an item, so the shown list never shrinks |
| KitCatalog.CategoriesOf | src/components/tools/kit-builder/useKitBuilder.ts:157 | the category list has no duplicates and holds exactly the categories of the shown items |
| KitCatalog.CategoriesOrder | src/components/tools/kit-builder/useKitBuilder.ts:157 | the category list is in first-occurrence order (a subsequence of the items' categories) and starts with the first item's category |
| KitCatalog.LeadingCategories | src/components/tools/kit-builder/useKitBuilder.ts:94-95 | the categories expanded for a scenario are at most two and distinct |
| KitCatalog.Progress | src/components/tools/kit-builder/useKitBuilder.ts:226-228 | progress is 0 with no shown items, otherwise the integer nearest to 100·(size of the whole checked set)/(shown count), halves rounded up |
| KitCatalog.ProgressSubset | src/components/tools/kit-builder/useKitBuilder.ts:226-228 | when every checked id is a shown id, progress is at most 100; checking every shown item gives exactly 100 |
| KitCatalog.ProgressCountsStaleIds | src/components/tools/kit-builder/useKitBuilder.ts:226-228 | the converse fails: checked ids that are not shown still count, so progress can be 50 without a subset and exceeds 100 with stale ids |
| KitCatalog.CriticalItems | src/components/tools/kit-builder/useKitBuilder.ts:230 | the critical items are all critical and no more than the shown items |
| KitCatalog.CriticalChecked | src/components/tools/kit-builder/useKitBuilder.ts:231 | the checked critical count is at most the critical count |
| KitCatalog.CriticalCounts | src/components/tools/kit-builder/useKitBuilder.ts:230-231 | the checked critical count is the number of shown items that are critical and checked, and criticalChecked ≤ criticalItems ≤ shown items |
| KitBuilder.StorageKey | src/components/tools/kit-builder/useKitBuilder.ts:47 | without an explicit (non-empty) storage key, the builder uses "kit72_builder_" followed by the locale |
| KitBuilder.Initial | src/components/tools/kit-builder/useKitBuilder.ts:71-82 | the first render has nothing checked or expanded and is not loaded; its scenario is the page's initial scenario, or the default when none is given |
| KitBuilder.ReadStored | src/components/tools/kit-builder/useKitBuilder.ts:110-131 | a stored record is only read from available storage holding the key; a missing or empty value reads as nothing, and unreadable or ill-shaped data as the caught failure |
| KitBuilder.UrlScenario | src/components/tools/kit-builder/useKitBuilder.ts:87-91 | the URL scenario is taken exactly when it is present, non-empty and `scenarios[v]` is truthy: a scenario id of the catalog, or a name inherited from `Object.prototype` such as "constructor"; the value taken is the first `scenario` parameter |
| KitBuilder.UrlPreset | src/components/tools/kit-builder/useKitBuilder.ts:89-101 | a URL preset is used only when it names one of the presets |
| KitBuilder.Mount | src/components/tools/kit-builder/useKitBuilder.ts:86-133 | mounting always ends loaded with duplicate-free sets, no milestone and no confetti; stored progress implies something checked; at most two categories are expanded unless a record was restored |
| KitBuilder.MountUrlScenarioWins | src/components/tools/kit-builder/useKitBuilder.ts:91-97 | a valid URL scenario wins: the result does not depend on storage, takes that scenario and expands its first two categories with nothing checked |
| KitBuilder.InheritedScenarioName | src/components/tools/kit-builder/useKitBuilder.ts:91-97 | `?scenario=constructor` passes the scenario check through the inherited member: the builder opens on that scenario with nothing expanded or checked |
| KitBuilder.MountPresetBeatsStorage | src/components/tools/kit-builder/useKitBuilder.ts:99-108 | without a URL scenario, a known URL preset wins over storage: scenario and flags come from its config and nothing is expanded or checked |
| KitBuilder.MountDefaults | src/components/tools/kit-builder/useKitBuilder.ts:124-131 | with no URL choice and no usable record (missing or corrupt), the current scenario's first two categories are expanded and nothing is checked |
| KitBuilder.MountAfterSave | src/components/tools/kit-builder/useKitBuilder.ts:110-172 | mounting restores what the save stored: the scenario only when the page fixes none, the flags, the checked and expanded sets, and stored progress iff something was checked |
| KitBuilder.Save | src/components/tools/kit-builder/useKitBuilder.ts:160-182 | nothing is written before loading; with storage unavailable the save throws and leaves storage as it was; after loading, with storage available, the builder's key holds the serialised record; every key other than the builder's key and kit72_progress keeps its presence and value |
| KitBuilder.SaveEffect | src/components/tools/kit-builder/useKitBuilder.ts:160-182 | after loading, the record is stored under the builder's key and the progress record gets kitBuilder = {done: checked count, total: shown count} with every other section kept; every other storage key keeps its presence and value |
| KitBuilder.SaveGuards | src/components/tools/kit-builder/useKitBuilder.ts:161-172 | a save before loading writes nothing; a save with storage unavailable leaves storage unchanged |
| KitBuilder.ToggleItem | src/components/tools/kit-builder/useKitBuilder.ts:189-199 | toggling an item flips membership of that id only and changes no other part of the state |
| KitBuilder.ToggleCategory | src/components/tools/kit-builder/useKitBuilder.ts:201-211 | toggling a category flips membership of that category only and changes no other part of the state |
| KitBuilder.ToggleInvolution | src/components/tools/kit-builder/useKitBuilder.ts:189-211 | toggling the same item or category twice restores the set; for an absent item the state comes back exactly |
| KitBuilder.ApplyPreset | src/components/tools/kit-builder/useKitBuilder.ts:213-224 | a preset sets the scenario to the config's non-empty scenario or the default, records its id as selected, and changes only scenario, flags, selected preset and expanded set: checked items, milestone, confetti, loaded and stored-progress flags are kept |
| KitBuilder.ApplyPresetEffect | src/components/tools/kit-builder/useKitBuilder.ts:213-224 | without a config: default scenario and both flags false; with one: its non-empty scenario or the default, and each flag true exactly when the config sets it true; the expanded set is the first two distinct categories of the items tagged with that scenario; presets with equal configs differ only in the selected id |
| KitBuilder.Reset | src/components/tools/kit-builder/useKitBuilder.ts:266-270 | reset empties the checked set and clears confetti, keeps the rest of the state, removes the builder's key and no other, leaves every other key's value as it was, and throws with storage unchanged when storage is unavailable |
| KitBuilder.ShareParams | src/components/tools/kit-builder/useKitBuilder.ts:272-279 | the share query carries the scenario and "1" for each set flag under their names (when the names differ), the pets flag always, and no other parameter |
| KitBuilder.ResetThenSave | src/components/tools/kit-builder/useKitBuilder.ts:160-172 | a reset followed by the save stores a record with nothing checked and the same scenario, flags and expanded categories |
| KitBuilder.ShareParamsContent | src/components/tools/kit-builder/useKitBuilder.ts:272-279 | the share query holds the scenario, "1" for exactly the household flags that are set, and no other parameter |
| KitBuilder.Thresholds | src/components/tools/kit-builder/useKitBuilder.ts:240-245 | the thresholds considered are 25/50/75/100 in ascending order, each with a non-empty message |
| KitBuilder.ThresholdMembers | src/components/tools/kit-builder/useKitBuilder.ts:240-245 | each threshold is considered iff its message is set |
| KitBuilder.Crossed | src/components/tools/kit-builder/useKitBuilder.ts:247-249 | the threshold found lies in (prev, progress], none is found iff no threshold does, and on an ascending list it is the smallest one crossed |
| KitBuilder.MilestoneStep | src/components/tools/kit-builder/useKitBuilder.ts:234-260 | the milestone effect touches only the milestone, confetti and previous progress, and does nothing before loading or without milestone messages |
| KitBuilder.MilestoneRule | src/components/tools/kit-builder/useKitBuilder.ts:240-259 | the previous progress becomes the current one; a new milestone is one of the table's messages; when no threshold is crossed nothing fires |
| KitBuilder.MilestoneSmallest | src/components/tools/kit-builder/useKitBuilder.ts:247-255 | the milestone shown is the smallest crossed threshold's message, and confetti is raised iff that threshold is 100 |
| KitBuilder.MilestoneNotRising | src/components/tools/kit-builder/useKitBuilder.ts:247-249 | progress that does not rise above the previous value fires nothing |
| KitBuilder.MilestoneSkipsToSmallest | src/components/tools/kit-builder/useKitBuilder.ts:247-255 | a jump from below 25 to 100 or more fires the 25 message (when set), not the 100 one, so no confetti |
| KitBuilder.TransitionsKeepValid | src/components/tools/kit-builder/useKitBuilder.ts:189-224 | every transition keeps the checked and expanded sets duplicate-free |
| CategorySection.HeaderOf | src/components/tools/kit-builder/CategorySection.tsx:33-67 | checked ≤ items, critical checked ≤ critical ≤ items, critical checked ≤ checked; "all checked" iff every item's id is checked; the critical badge shows iff some item is critical |
| CategorySection.BadgeIff | src/components/tools/kit-builder/CategorySection.tsx:34-67 | a positive critical count means exactly that some item is critical |
| CategorySection.EmptyCategory | src/components/tools/kit-builder/CategorySection.tsx:33-36 | an empty category counts as all checked, with zero counts and no badge |
| CategorySection.HeaderMatchesBuilderCounts | src/components/tools/kit-builder/CategorySection.tsx:34-35 | the header's critical counts agree with the builder's criticalItems/criticalChecked over the same items |
| Storage.KeysAreAppKeys | src/lib/storage.ts:15-30 | each key builder is its prefix ("kit72_builder_", "checklist_", "phases_", "sticky_dismissed_") followed by the argument, and every key the site builds, including "kit72_progress", is one that clearAllData removes |
| Storage.KeysDistinct | src/lib/storage.ts:15-30 | the key builders are injective, no kit-builder key is the progress key, and no checklist key is a phases key |
| Storage.GetItem | src/lib/storage.ts:61-72 | a missing key or unavailable storage reads as nothing |
| Storage.SetItem | src/lib/storage.ts:77-87 | setItem reports success iff storage is available; it then stores the serialised value under the key and leaves every other key as it was |
| Storage.GetAfterSet | src/lib/storage.ts:61-87 | after a successful setItem(k, v), getItem(k) yields v and every other key reads as before |
| Storage.RemoveItem | src/lib/storage.ts:92-101 | removeItem reports success iff storage is available; the key is then gone and every other key is unchanged |
| Storage.GetAfterRemove | src/lib/storage.ts:61-101 | after removeItem(k), getItem(k) is nothing and every other key reads as before |
| Storage.IsStorageAvailable | src/lib/storage.ts:222-233 | the probe reports availability; available storage ends without the probe key, unavailable storage is untouched, and every other key keeps its value |
| Storage.WriteUnguarded | src/components/tools/kit-builder/useKitBuilder.ts:172 | an unguarded localStorage.setItem completes iff storage is available; a completed write stores the serialised value under its key; a throw leaves storage unchanged; every other key keeps its presence and value |
| Storage.ParseOrEmpty | src/components/tools/kit-builder/useKitBuilder.ts:174 | the unguarded read-and-parse of the progress record throws when storage is unavailable and gives {} for a missing or empty value |
| Storage.GetProgress | src/lib/storage.ts:108-110 | getProgress returns the stored value when it reads as truthy (whatever its shape), and {} when it is missing, corrupt or falsy |
| Storage.ProgressDefault | src/lib/storage.ts:108-110 | a missing or corrupt progress record reads as {} |
| Storage.UpdateProgress | src/lib/storage.ts:115-125 | an object record is always updated (a truthy primitive makes the assignment throw, leaving storage as it was); only the progress key is written |
| Storage.UpdateProgressReplacesSection | src/lib/storage.ts:115-125 | on an object record, updateProgress(s, d) completes, replaces entry s by one with d's done/total/scenario (scenario absent when not given) and keeps every other section |
| Storage.KitRecordRoundTrip | src/lib/storage.ts:48-55 | a kit-builder record read back after being stored is the same record |
| Storage.SetKitBuilderStateEffect | src/lib/storage.ts:139-148 | setKitBuilderState stores the state under the locale's key (it reads back as the state) and sets kitBuilder = {done: checked count, total: 0, scenario} |
| Storage.SetKitBuilderState | src/lib/storage.ts:139-148 | the state is stored under the locale's key; only that key and the progress key change |
| Storage.GetKitBuilderState | src/lib/storage.ts:132-134 | nothing when storage is unavailable or the locale's key is missing; otherwise the parse of the stored text |
| Storage.ClearKitBuilderState | src/lib/storage.ts:153-155 | the locale's kit-builder key is removed when storage works; nothing else changes |
| Storage.IsDismissed | src/lib/storage.ts:194-202 | dismissed exactly when storage works and the raw text under the dismissal key is "true" |
| Storage.SetDismissed | src/lib/storage.ts:207-215 | the raw text "true" is written under the dismissal key when storage works; every other key keeps its value |
| Storage.GetListOrEmpty | src/lib/storage.ts:162-180 | the list read returns the stored value when it reads as truthy, and [] when it is missing, corrupt or falsy |
| Storage.ListsDefaultAndRoundTrip | src/lib/storage.ts:159-187 | with nothing usable stored, checked items and completed phases read as []; after a save they read back as saved |
| Storage.GetCheckedItems | src/lib/storage.ts:162-164 | the list under "checklist_"+key when it reads as truthy, and [] when it is missing, corrupt or falsy |
| Storage.SetCheckedItems | src/lib/storage.ts:169-171 | the serialised list is stored under "checklist_"+key when storage is available; every other key keeps its presence and value; unavailable storage is unchanged |
| Storage.GetCompletedPhases | src/lib/storage.ts:178-180 | the list under "phases_"+key when it reads as truthy, and [] when it is missing, corrupt or falsy |
| Storage.SetCompletedPhases | src/lib/storage.ts:185-187 | the serialised list is stored under "phases_"+key when storage is available; every other key keeps its presence and value; unavailable storage is unchanged |
| Storage.DismissalRoundTrip | src/lib/storage.ts:194-215 | setDismissed(k) makes isDismissed(k) hold and changes no other key's dismissal |
| Storage.ClearAllData | src/lib/storage.ts:238-252 | without a window nothing happens; with a window and blocked storage the call throws and changes nothing; otherwise it removes exactly the keys starting with kit72_, checklist_, phases_ or sticky_dismissed_ and keeps every other key with its value |
| Storage.ClearAllDataRemovesSiteKeys | src/lib/storage.ts:238-252 | every key the site writes, including the fixed "kit72_builder", is cleared, while an unrelated key survives with its value |
| AddToKit.FixedKeyIsNotLocaleKey | src/components/tools/AddToKitButton.tsx:19-20 | the button's fixed key "kit72_builder" is never a locale's kit-builder key, yet it is one clearAllData removes |
| AddToKit.DefaultState | src/components/tools/AddToKitButton.tsx:48-55 | the record used when nothing is stored is an object with an empty checkedItems list |
| AddToKit.DefaultFlags | src/components/tools/AddToKitButton.tsx:48-55 | the default record has scenario "general" and both household flags false |
| AddToKit.Current | src/components/tools/AddToKitButton.tsx:47-55 | with storage unavailable the click has no record to start from (the read throws) |
| AddToKit.Includes | src/components/tools/AddToKitButton.tsx:36-58 | includes is answered for an array or a string receiver and throws for anything else |
| AddToKit.ClickEntry | src/components/tools/AddToKitButton.tsx:65-69 | the progress entry the click writes has done = the new list length, lastUpdated, the record's scenario, and no total |
| AddToKit.Click | src/components/tools/AddToKitButton.tsx:45-81 | a click never changes availability and touches no key but "kit72_builder" and "kit72_progress" |
| AddToKit.PresentWritesNothing | src/components/tools/AddToKitButton.tsx:58-73 | when the item is already listed, the click reaches setIsAdded(true) and writes nothing |
| AddToKit.AbsentAppends | src/components/tools/AddToKitButton.tsx:58-70 | when the item is absent it is appended at the end, the list grows by exactly one, lastUpdated is refreshed, every other field is kept, and kitBuilder becomes {scenario, done: new length, lastUpdated} |
| AddToKit.AbsentShape | src/components/tools/AddToKitButton.tsx:58-73 | when the item is absent and the progress record can take a field, the click completes after the two writes |
| AddToKit.AppendedFields | src/components/tools/AddToKitButton.tsx:59-60 | the updated record holds the list with the item at the end and the new timestamp, and every other field as before |
| AddToKit.EmptyStorageUsesDefault | src/components/tools/AddToKitButton.tsx:47-61 | with nothing stored, the saved record is the default one (scenario "general", both flags false) whose list holds only the item |
| AddToKit.ClickThenMount | src/components/tools/AddToKitButton.tsx:31-73 | after a click that reaches setIsAdded(true), the mount check also finds the item |
| AddToKit.ClickStoresAppended | src/components/tools/AddToKitButton.tsx:58-73 | a completed click that appended the item leaves a stored record whose list includes it |
| AddToKit.ClickKeepsPresent | src/components/tools/AddToKitButton.tsx:58-73 | a completed click that appended nothing found the item already listed in a stored record |
| AddToKit.NoDuplicateAdded | src/components/tools/AddToKitButton.tsx:58-61 | a click never lists the item twice: a duplicate-free stored list stays duplicate-free |
| AddToKit.MountCorruptIsFalse | src/components/tools/AddToKitButton.tsx:31-43 | a missing, unreadable or corrupt record leaves isAdded false |
| AddToKit.AddedOnMount | src/components/tools/AddToKitButton.tsx:31-43 | isAdded is set only when storage is readable and holds a non-empty, parsable record under "kit72_builder" |
| AddToKit.MountReadsCheckedItems | src/components/tools/AddToKitButton.tsx:31-43 | when the record's checkedItems is a list of strings, isAdded is set exactly when the item is in it |
| InteractiveChecklist.ProgressPercent | src/components/hub/InteractiveChecklist.tsx:159-161 | the percentage is 0 with no items, otherwise the integer nearest to 100·(checked count)/(item count), halves rounded up |
| InteractiveChecklist.PercentAtMost100 | src/components/hub/InteractiveChecklist.tsx:159-161 | the percentage is at most 100 iff 200·checked < 201·items, so in particular whenever no more ids are checked than there are items |
| InteractiveChecklist.CategoryChecked | src/components/hub/InteractiveChecklist.tsx:197-199 | a category's checked count is at most its item count, and equal to it iff every item of the category is checked |
| InteractiveChecklist.Load | src/components/hub/InteractiveChecklist.tsx:104-118 | loading yields duplicate-free checked and expanded sets |
| InteractiveChecklist.LoadCorrupt | src/components/hub/InteractiveChecklist.tsx:104-118 | corrupt stored data is ignored: nothing is checked, and only the first category (if any) is expanded |
| InteractiveChecklist.LoadAfterSave | src/components/hub/InteractiveChecklist.tsx:104-122 | loading after a save restores the saved duplicate-free set in its order |
| InteractiveChecklist.MergeEntry | src/components/hub/InteractiveChecklist.tsx:125-130 | on an array record the assignments are lost and the record comes back unchanged |
| InteractiveChecklist.SaveChecked | src/components/hub/InteractiveChecklist.tsx:121-132 | a save never changes whether storage is available; with storage unavailable it throws before writing; otherwise "checklist_"+key holds the serialised list; every key other than that one and kit72_progress keeps its presence and value |
| InteractiveChecklist.SaveEffect | src/components/hub/InteractiveChecklist.tsx:121-132 | a save stores the whole set under "checklist_"+key and sets progress.checklist[key] = {done: set size, total: item count}, keeping every other list's entry, every other section and every other storage key |
| InteractiveChecklist.CorruptProgressThrows | src/components/hub/InteractiveChecklist.tsx:122-125 | a progress record that does not parse makes the save throw, after the list itself was written |
| InteractiveChecklist.ToggleItem | src/components/hub/InteractiveChecklist.tsx:134-145 | an item toggle leaves the expanded set alone, keeps the set duplicate-free, and saves exactly the new set |
| InteractiveChecklist.ToggleCategory | src/components/hub/InteractiveChecklist.tsx:147-157 | a category toggle leaves the checked set alone and keeps the expanded set duplicate-free |
| InteractiveChecklist.ToggleInvolution | src/components/hub/InteractiveChecklist.tsx:134-157 | toggling an item twice restores the checked set and one toggle flips only that id; toggling a category twice restores the expanded set |
| PhaseTabs.ConfigFor | src/components/hub/PhaseTabs.tsx:45-58 | nl and de use their own configuration; a name the table inherits (constructor, toString, ...) finds no configuration; any other locale uses the Spanish one |
| PhaseTabs.BuildPhases | src/components/hub/PhaseTabs.tsx:66-73 | exactly three phases, before/during/after in that order, with the given labels and the shield/activity/check-circle icons |
| PhaseTabs.Resolve | src/components/hub/PhaseTabs.tsx:112-116 | explicit phases are used as given; otherwise there are exactly three, except that a locale naming an inherited member of the table, with no phases or labels given, throws |
| PhaseTabs.ResolvePrecedence | src/components/hub/PhaseTabs.tsx:60-116 | explicit phases beat labels, labels beat the locale; labels alone get the Spanish ids; an unknown locale gives the Spanish phases and an inherited member name throws; phaseIds override the locale's ids; the nl and de tables are used for their locales |
| PhaseTabs.InitialActive | src/components/hub/PhaseTabs.tsx:117 | the first active phase is the first resolved id, or "" when there are none |
| PhaseTabs.FindIndex | src/components/hub/PhaseTabs.tsx:165 | the index is the first position holding the id, or -1 iff no phase has it |
| PhaseTabs.AddFirst | src/components/hub/PhaseTabs.tsx:167-170 | the new set holds exactly the old members and the ids of the first n phases, and stays duplicate-free |
| PhaseTabs.MarkCompleted | src/components/hub/PhaseTabs.tsx:164-176 | the completion effect never changes the active phase |
| PhaseTabs.MarkCompletedEffect | src/components/hub/PhaseTabs.tsx:164-176 | at active index i > 0 every earlier phase is completed, nothing is removed, nothing else is added, the set stays duplicate-free, and it is written (as the new set) iff its size changed |
| PhaseTabs.MarkCompletedIdempotent | src/components/hub/PhaseTabs.tsx:164-176 | running the effect again for the same active phase changes nothing and writes nothing |
| PhaseTabs.CompletedNeverShrinks | src/components/hub/PhaseTabs.tsx:167-172 | the completed set never shrinks |
| PhaseTabs.MarkAndPersist | src/components/hub/PhaseTabs.tsx:163-175 | when the size did not change nothing is written; when it changed the write completes iff storage is available and "phases_"+key then holds the serialised new list; a throw leaves storage unchanged; every other key keeps its presence and value |
| PhaseTabs.PersistReadsBack | src/components/hub/PhaseTabs.tsx:173-173 | what the effect writes reads back through getCompletedPhases as the completed list |
| PhaseTabs.Load | src/components/hub/PhaseTabs.tsx:122-132 | the load throws iff storage is unavailable, keeps the active phase, keeps the set duplicate-free, and with nothing stored changes nothing |
| PhaseTabs.LoadAfterPersist | src/components/hub/PhaseTabs.tsx:122-174 | loading after the effect wrote restores exactly the completed set, in order |
| PhaseTabs.GetPhaseState | src/components/hub/PhaseTabs.tsx:192-196 | completed iff the id is in the completed set; active iff it is the active id and not completed; otherwise upcoming |
| PhaseTabs.TabClick | src/components/hub/PhaseTabs.tsx:178-180 | a tab click makes the clicked id active and leaves the completed set alone |
| PhaseTabs.PhaseStateAfterClick | src/components/hub/PhaseTabs.tsx:178-196 | after a click the clicked phase shows as active unless it is completed; other uncompleted phases show as upcoming |
| Hreflang.UrlFor | src/data/hreflang-map.ts:14-20 | a mapping only has URLs for the locales es, nl and de |
| Hreflang.Entries | src/data/hreflang-map.ts:214-215 | the entries of a mapping are exactly its (locale, URL) pairs, each locale once |
| Hreflang.Keys | src/data/hreflang-map.ts:242 | the keys of a mapping are exactly the locales it has a URL for, at most three |
| Hreflang.Normalize | src/data/hreflang-map.ts:211-237 | the normalised path ends with a slash; a path already ending with one is kept, any other gets one appended |
| Hreflang.MatchIn | src/data/hreflang-map.ts:215-216 | a match is an entry with that URL; no match means no entry has that URL |
| Hreflang.MatchLocale | src/data/hreflang-map.ts:215-216 | a mapping matches a path exactly when one of its locales has that URL, and the locale found has it |
| Hreflang.Lookup | src/data/hreflang-map.ts:214-241 | the search finds the first mapping, in table order, holding the path, and the locale it holds it under; nothing found means no mapping holds it |
| Hreflang.Others | src/data/hreflang-map.ts:218-223 | the alternates are exactly the mapping's other locales with a non-empty URL, never the matched locale, each with its URL |
| Hreflang.GetAlternates | src/data/hreflang-map.ts:209-231 | an unmapped path has no alternates; a mapped one has exactly the other locales of its mapping with a non-empty URL, each with its URL |
| Hreflang.AvailableLocales | src/data/hreflang-map.ts:236-250 | every locale offered is es, nl or de; a mapped path is offered in its own locale; an unmapped one in exactly one locale |
| Hreflang.TrailingSlashInsensitive | src/data/hreflang-map.ts:211-237 | a path with and without its trailing slash gets the same alternates and locales, and normalising is idempotent |
| Hreflang.LookupOwn | src/data/hreflang-map.ts:214-216 | in a table repeating no URL, every URL is found at its own mapping under its own locale |
| Hreflang.SwapOthers | src/data/hreflang-map.ts:218-223 | seen from another locale of the same mapping, the alternates are the first view's with the two locales swapped |
| Hreflang.UrlShape | src/data/hreflang-map.ts:27-203 | every URL of a table whose URLs sit under their locale's directory is non-empty and already normalised |
| Hreflang.AlternatesSymmetric | src/data/hreflang-map.ts:209-231 | the relationships are bidirectional: following an alternate leads to a page whose alternates are the first page's with that locale replaced by the first page |
| Hreflang.AvailableIsOwnPlusAlternates | src/data/hreflang-map.ts:209-245 | for a mapped page, a locale is offered exactly when it is the page's own locale or one of its alternates |
| Hreflang.AvailableFallback | src/data/hreflang-map.ts:247-249 | an unmapped path under /es, /nl or /de is offered in that locale only |
| Hreflang.HasAlternatesIff | src/data/hreflang-map.ts:255-258 | a page has alternates exactly when it is mapped and its mapping names another locale with a non-empty URL |
| Hreflang.HasAlternates | src/data/hreflang-map.ts:255-258 | true exactly when the alternates map is non-empty, and never for an unmapped path |
| Hreflang.SameLocale | src/data/hreflang-map.ts:27-203 | in a table whose URLs sit under their locale's directory, a URL shared by two rows is under the same locale in both |
| Hreflang.UniqueFromColumns | src/data/hreflang-map.ts:27-203 | if no locale column repeats a URL, no URL appears twice anywhere in the table |
| Hreflang.EsColumn | src/data/hreflang-map.ts:27-203 | the Spanish URLs of the table all sit under /es and none repeats |
| Hreflang.NlColumn | src/data/hreflang-map.ts:27-203 | the Dutch URLs of the table all sit under /nl and none repeats |
| Hreflang.DeColumn | src/data/hreflang-map.ts:27-203 | the German URLs of the table all sit under /de and none repeats |
| Hreflang.HreflangMapUnique | src/data/hreflang-map.ts:27-203 | the site's table is well formed and repeats no URL, so its alternate links are bidirectional |
| Hreflang.FloodingRow | src/data/hreflang-map.ts:75-79 | the flooding scenario has Dutch and German pages and no Spanish one |
| Hreflang.FloodingLookup | src/data/hreflang-map.ts:76-79 | the Dutch flooding URL is found at the flooding row under nl |
| Hreflang.FloodingNormalize | src/data/hreflang-map.ts:211 | the Dutch flooding path without its slash normalises to the table's URL |
| Hreflang.FloodingOthers | src/data/hreflang-map.ts:76-79 | the Dutch flooding page's only other locale is the German page |
| Hreflang.FloodingAlternates | src/data/hreflang-map.ts:76-79 | from the Dutch flooding page, with or without its slash, the only alternate is the German page |
| Hreflang.FloodingLocales | src/data/hreflang-map.ts:76-79 | the flooding page is offered in Dutch and German only |
| I18n.GetTranslations | src/i18n/index.ts:26-28 | nl and de read their own bundles; a name the translations object inherits reads a dead end; es and every other locale read the Spanish one |
| I18n.Walk | src/i18n/index.ts:39-46 | an empty path ends where it starts; a step from anything but an object misses |
| I18n.T | src/i18n/index.ts:34-49 | the result is the string the key's dot-path leads to; a missing segment, or a value that is not a string, gives the key itself |
| I18n.DetectLocale | src/i18n/index.ts:80-83 | the detected locale is always a supported one |
| I18n.IsValidLocale | src/i18n/index.ts:73-75 | a string is a valid locale exactly when it is es, nl or de |
| I18n.WalkAppend | src/i18n/index.ts:39-46 | walking a dot-path is walking its first segments and then the rest from where they lead |
| I18n.SingleSegment | src/i18n/index.ts:34-49 | a key without a dot is a single member lookup in the locale's bundle |
| I18n.TwoSegments | src/i18n/index.ts:34-49 | a key "section.name" reads the member name of the object section, or gives the key back |
| I18n.NavHomeExample | src/i18n/index.ts:31-32 | t('nav.home', 'es') is 'Inicio' for a bundle holding it; a missing member or a key naming an object gives the key |
| I18n.TResult | src/i18n/index.ts:34-49 | t returns either the key or a string the bundle holds at that path |
| I18n.FallbackToSpanish | src/i18n/index.ts:26-35 | every locale other than nl and de translates as Spanish does, except a name the translations object inherits, for which every key translates to itself |
| I18n.DetectLocaleOfPath | src/i18n/index.ts:73-83 | a path whose first segment is a supported locale is in that locale; any other path is in the default locale es |
| I18n.DetectLocaleEmpty | src/i18n/index.ts:80-83 | the empty path is in the default locale |
| I18n.LocaleTagsAgree | src/i18n/index.ts:54-58 | each locale's Open Graph tag is its hreflang tag with '_' for '-', and its html lang is the locale itself |
| SearchModal.PagesFor | src/components/layout/SearchModal.tsx:188 | nl and de search their own page lists; a name the content object inherits finds no page list; every other locale searches the Spanish one |
| SearchModal.InputChange | src/components/layout/SearchModal.tsx:213-236 | the query is stored as typed; a blank query clears the results and keeps the highlighted index; any other query shows exactly the pages whose lowercased title, description or category contains the lowercased query, and highlights the first |
| SearchModal.KeyDown | src/components/layout/SearchModal.tsx:239-251 | Escape closes; ArrowDown moves the index to min(i + 1, length − 1) and ArrowUp to max(i − 1, 0); other keys keep the state; query and results never change; Enter navigates exactly when the index is on a result, to that result's path |
| SearchModal.Close | src/components/layout/SearchModal.tsx:198-206 | closing clears the query, the results and the index |
| SearchModal.Push | src/components/layout/SearchModal.tsx:254-260 | a reduce step keeps every category listed once, with a list exactly under each listed category |
| SearchModal.Reduce | src/components/layout/SearchModal.tsx:254-260 | the whole reduce keeps every category listed once, with a list exactly under each listed category |
| SearchModal.Occurs | src/components/layout/SearchModal.tsx:255-257 | a category occurs in the results exactly when some result has it |
| SearchModal.IndexStaysInRange | src/components/layout/SearchModal.tsx:213-251 | with results on screen the index always points at one of them, so Enter opens the highlighted result |
| SearchModal.ArrowBounds | src/components/layout/SearchModal.tsx:242-250 | ArrowDown at the last result and ArrowUp at the first change nothing; with no results ArrowDown gives -1, where Enter does nothing |
| SearchModal.SearchKeepsPageOrder | src/components/layout/SearchModal.tsx:213-229 | the results of a search appear in the order of the page list |
| SearchModal.SpacesShowNoResults | src/components/layout/SearchModal.tsx:213-216 | a query of spaces is blank: no results, and the no-results message shows |
| SearchModal.CloseForgets | src/components/layout/SearchModal.tsx:198-206 | after closing, Enter does nothing and no no-results message shows |
| SearchModal.PushItems | src/components/layout/SearchModal.tsx:255-258 | a result joins its own category's list and no other list changes |
| SearchModal.ReduceItems | src/components/layout/SearchModal.tsx:254-260 | the reduce appends each category's results, in order, to that category's list |
| SearchModal.GroupedPartitions | src/components/layout/SearchModal.tsx:254-260 | the grouping puts each result in exactly one list, its category's, in result order, and lists exactly the categories that occur |
| SearchModal.ContiguousGroupsKeepOrder | src/components/layout/SearchModal.tsx:254-260 | when no category's results are interrupted by another's, the rows are drawn in result order |
| SearchModal.HighlightMatchesEnter | src/components/layout/SearchModal.tsx:349-357 | with contiguous categories the highlighted row is the result Enter opens |
| SearchModal.SubsequenceContiguous | src/components/layout/SearchModal.tsx:220-225 | filtering a page list whose categories are contiguous keeps them contiguous |
| SearchModal.SearchThenEnter | src/components/layout/SearchModal.tsx:213-229 | over a page list grouped by category, as the site's lists are, the row a search highlights is the result Enter opens |
| SearchModal.InterleavedCategoriesReorder | src/components/layout/SearchModal.tsx:343-357 | with interleaved categories the rows are drawn grouped, so the second row drawn is not the second result |
| BottomNav.ContainsAny | src/components/layout/BottomNav.tsx:355-361 | a path matches a marker list exactly when it contains one of the markers |
| BottomNav.ActiveSection | src/components/layout/BottomNav.tsx:352-363 | the rules apply in order: home if the path is the locale's home with or without its slash; else scenarios if it holds a scenario marker; else my kit if it holds a configurator marker; else more if it holds a guide, product or tools marker; else none |
| BottomNav.ContentLocale | src/components/layout/BottomNav.tsx:349 | each supported locale uses its own texts; a name the content object inherits finds no texts; any other value uses the Spanish texts |
| BottomNav.Step | src/components/layout/BottomNav.tsx:368-399 | each click opens its overlay and closes the other two; Escape closes all three; any other key changes nothing; each sheet's close button closes only that sheet |
| BottomNav.StepKeepsAtMostOne | src/components/layout/BottomNav.tsx:368-399 | no handler leaves two overlays open when at most one was |
| BottomNav.RunKeepsAtMostOne | src/components/layout/BottomNav.tsx:345-399 | from any state with at most one overlay open, no sequence of events opens two |
| BottomNav.LastClickWins | src/components/layout/BottomNav.tsx:368-399 | whatever happened before, the last click decides which overlay is open, and a later Escape closes everything |
| BottomNav.ScenarioBeatsTools | src/components/layout/BottomNav.tsx:355-361 | a scenario page under a tools directory is in the scenarios section |
| BottomNav.ConfiguratorNotScenario | src/components/layout/BottomNav.tsx:355 | the Dutch kit configurator path holds no scenario marker |
| BottomNav.ConfiguratorIsMyKit | src/components/layout/BottomNav.tsx:355-361 | the Dutch kit configurator is in the my-kit section although it also holds the generic tools marker of the more section |
| NumberInput.Clamp | src/components/ui/NumberInput.tsx:61-64 | with min at most max the result lies in [min, max]; a value already in range is kept; otherwise the result is min or max; with min above max everything becomes max |
| NumberInput.Increment | src/components/ui/NumberInput.tsx:66-69 | the step up is the value plus the step when that is in range, the maximum when it overshoots, and always in range for a non-empty interval |
| NumberInput.Decrement | src/components/ui/NumberInput.tsx:71-74 | the step down is the value minus the step when that is in range, the minimum when it undershoots, and always in range for a non-empty interval |
| NumberInput.CanIncrement | src/components/ui/NumberInput.tsx:112 | with sane props and a positive step, plus is enabled exactly when a step up changes the value; with max Infinity it always is |
| NumberInput.CanDecrement | src/components/ui/NumberInput.tsx:111 | with sane props and a positive step, minus is enabled exactly when a step down changes the value; never at the minimum |
| NumberInput.Sync | src/components/ui/NumberInput.tsx:56-59 | a new value prop rewrites the text as String(value); the same value leaves the text alone |
| NumberInput.InputChange | src/components/ui/NumberInput.tsx:76-85 | the text is kept exactly as typed; a value is emitted exactly when the text parses as a number, and it is the parsed number clamped |
| NumberInput.Blur | src/components/ui/NumberInput.tsx:87-99 | text that is no number falls back to the value and emits nothing; a number is shown clamped, and the clamped number is emitted exactly when it differs from the current value |
| NumberInput.KeyDown | src/components/ui/NumberInput.tsx:101-109 | ArrowUp emits the step up, ArrowDown the step down, any other key nothing |
| NumberInput.ClampIdempotent | src/components/ui/NumberInput.tsx:61-64 | clamping a clamped value changes nothing |
| NumberInput.ClampMonotone | src/components/ui/NumberInput.tsx:61-64 | clamping keeps the order of two values |
| NumberInput.StepsStayInRange | src/components/ui/NumberInput.tsx:66-74 | with a value in a non-empty range and a non-negative step, a step up never lowers the value, a step down never raises it, and both stay in range |
| NumberInput.ButtonsEnabledIff | src/components/ui/NumberInput.tsx:66-112 | with sane props and a positive step, plus is enabled exactly when a step up changes the value, and minus exactly when a step down does |
| NumberInput.DefaultButtons | src/components/ui/NumberInput.tsx:45-47 | with the default props plus is always enabled, minus exactly when the value is positive, and a step up adds one |
| NumberInput.BlurSettles | src/components/ui/NumberInput.tsx:56-99 | once the parent takes the emitted value, a second blur shows the same text and emits nothing |
| NumberInput.TypeThenBlur | src/components/ui/NumberInput.tsx:56-99 | typing a number, the parent taking the emitted value (with the sync effect), then leaving the field: the field shows the emitted value and the blur emits nothing more |
| NumberInput.TypeThenSync | src/components/ui/NumberInput.tsx:56-85 | once the parent takes a typed number, the text shows the clamped value if it changed the prop, and stays as typed otherwise |
| NumberInput.TypeFiftyShowsTen | src/components/ui/NumberInput.tsx:56-85 | with value 5 and max 10, typing "50" emits 10 and the field shows "10" before any blur |
| NumberInput.EmptyIntervalClampsToMax | src/components/ui/NumberInput.tsx:61-74 | with min above max both buttons emit max, so a step down can raise the value |
| CalculatorUtils.LocaleDateFormat | src/lib/calculator-utils.ts:25-32 | any locale other than nl and de formats numbers as es-ES |
| CalculatorUtils.Ceil | src/lib/calculator-utils.ts:131-143 | Math.ceil gives the least integer not below its argument |
| CalculatorUtils.CeilDiv | src/lib/calculator-utils.ts:131-143 | the ceiling of a quotient is the fewest multiples of the divisor that reach the dividend |
| CalculatorUtils.GetStorageRecommendation | src/lib/calculator-utils.ts:120-147 | up to 20 L two 10L containers, up to 40 L two 20L; one 10,000, 20,000 or 50,000 mAh bank up to that capacity; above those, containers of the largest size (20L, 50,000mAh); always at least one, and together they hold the need |
| CalculatorUtils.WaterNeeds | src/lib/calculator-utils.ts:150-178 | the daily amount is each member's litres per day times their count; the total is the daily amount times the days; a household with non-negative counts and days needs a non-negative total |
| CalculatorUtils.DateFormatIsHreflang | src/lib/calculator-utils.ts:25-32 | the number format tag of each locale is its hreflang tag |
| CalculatorUtils.CeilDivIsCeil | src/lib/calculator-utils.ts:131-143 | integer ceiling division is Math.ceil of the quotient |
| CalculatorUtils.CeilUnique | src/lib/calculator-utils.ts:131-143 | an integer within one above a number is its ceiling |
| CalculatorUtils.CeilSubadditive | src/lib/calculator-utils.ts:131-143 | the ceiling of a sum is at most the sum of the ceilings |
| CalculatorUtils.CeilMonotone | src/lib/calculator-utils.ts:131-143 | Math.ceil keeps order |
| CalculatorUtils.StorageIsMinimal | src/lib/calculator-utils.ts:130-145 | above the fixed packs the recommendation uses the largest size (20L for water, 50,000mAh for power) and one container fewer would not hold the need |
| CalculatorUtils.WaterNeedsAdditive | src/lib/calculator-utils.ts:159-178 | the daily and total water needs of two households together are the sums of their needs |
| CalculatorUtils.WaterNeedsMonotone | src/lib/calculator-utils.ts:159-178 | more members never need less water per day, nor in total |
| WaterCalculator.StepDown | src/components/tools/WaterCalculator.tsx:280 | the minus button gives max(min, value − 1): one lower, or the minimum when that would go below it |
| WaterCalculator.StepUp | src/components/tools/WaterCalculator.tsx:291 | the plus button gives min(max, value + 1): one higher, or the maximum when that would go above it |
| WaterCalculator.ApplyPreset | src/components/tools/WaterCalculator.tsx:438-443 | solo is 1 adult, couple 2 adults, family 2 adults and 2 children, with-pet 2 adults and a dog; always no babies or cats, three days, and climate and comfort left alone |
| WaterCalculator.Calculate | src/components/tools/WaterCalculator.tsx:445-476 | each of the five shown parts (drinking, cooking, hygiene, sanitation, pets) is its formula rounded up; the shown total is the exact total rounded up, at most the sum of the rounded parts; the shown daily figure is the exact total per day rounded up |
| WaterCalculator.Suggest | src/components/tools/WaterCalculator.tsx:704-726 | the 5 L bottles for the drinking water, the 20 L containers for the rest and the 8 L containers for the total are each the fewest that hold it (Math.ceil of the quotient) |
| WaterCalculator.CanCalculate | src/components/tools/WaterCalculator.tsx:486-613 | Calculate is disabled while calculating; with counts in bounds it is enabled exactly when there is at least one adult, child or baby (pets alone do not count) |
| WaterCalculator.StepperStaysInRange | src/components/tools/WaterCalculator.tsx:279-297 | a stepped value stays within the bounds, and each button is disabled exactly when pressing it would change nothing |
| WaterCalculator.StepUpThenDown | src/components/tools/WaterCalculator.tsx:280-291 | below the maximum, plus then minus returns the value |
| WaterCalculator.PresetsEnableCalculate | src/components/tools/WaterCalculator.tsx:438-443 | every preset keeps the inputs within bounds and enables the Calculate button |
| WaterCalculator.ComfortEffects | src/components/tools/WaterCalculator.tsx:455-463 | comfort scales cooking, hygiene and sanitation by 0.5, 1 or 1.5 of the standard amounts and changes neither drinking nor pet water |
| WaterCalculator.ClimateEffects | src/components/tools/WaterCalculator.tsx:451-462 | a hot climate adds a litre per adult, half a litre per child and half a litre per dog each day, and changes neither cooking nor hygiene |
| WaterCalculator.HotNeedsMore | src/components/tools/WaterCalculator.tsx:451-476 | within bounds, a hot climate never gives a smaller total |
| WaterCalculator.PartsNonNegative | src/components/tools/WaterCalculator.tsx:458-464 | within bounds, no use needs a negative amount |
| WaterCalculator.SuggestionsCover | src/components/tools/WaterCalculator.tsx:704-715 | within bounds, the drinking water is part of the total, and the bottles plus the 20 L containers hold the whole rounded total |
| WaterCalculator.InitialResult | src/components/tools/WaterCalculator.tsx:425-476 | the initial household, two adults for three days at standard comfort, needs 15 L to drink, 48 L in all and 16 L a day |
| WaterCalculator.PresetOverridesHousehold | src/components/tools/WaterCalculator.tsx:438-443 | a preset replaces the whole household, so the last preset pressed decides it; the presets count 1, 2, 4 and 2 people and only the pet preset has a dog |
| PowerCalculator.LocalizedDevices | src/components/tools/PowerCalculator.tsx:325-342 | one device per default spec, in order, with the spec's battery, charges and category; named by its non-empty translation when there is one, and by its id otherwise |
| PowerCalculator.HandleDeviceChange | src/components/tools/PowerCalculator.tsx:703-708 | the stored count is the given count, or exactly 0 for a negative one; every other device keeps its count |
| PowerCalculator.Minus | src/components/tools/PowerCalculator.tsx:143 | the minus button passes one less, never below zero |
| PowerCalculator.Plus | src/components/tools/PowerCalculator.tsx:164 | the plus button passes count + 1, which the minus button takes back and which leaves minus enabled |
| PowerCalculator.MinusDisabled | src/components/tools/PowerCalculator.tsx:143-144 | for a stored count, the minus button is disabled exactly when pressing it would change nothing |
| PowerCalculator.Entries | src/components/tools/PowerCalculator.tsx:630-642 | the breakdown has at most one entry per device, each with a positive count |
| PowerCalculator.Recommend | src/components/tools/PowerCalculator.tsx:649-664 | the fewest banks of the capacity that hold the total, priced per bank |
| PowerCalculator.Breakdown | src/components/tools/PowerCalculator.tsx:626-642 | the walk over the devices yields exactly the counted devices' entries, in device order, and their summed mAh |
| PowerCalculator.NeededMah | src/components/tools/PowerCalculator.tsx:644-645 | the stored mAh is the raw mAh divided by the 0.7 charging efficiency, rounded up |
| PowerCalculator.WithMargin | src/components/tools/PowerCalculator.tsx:646 | the total with margin is the needed mAh times the margin, rounded up |
| PowerCalculator.Push | src/components/tools/PowerCalculator.tsx:634-640 | pushing an entry appends it and keeps the running total equal to the entries' sum |
| PowerCalculator.Calculate | src/components/tools/PowerCalculator.tsx:626-674 | the calculation returns the breakdown of counted devices, its raw sum, the efficiency-adjusted and margin-adjusted totals rounded up, and the 20K and 10K recommendations for that total |
| PowerCalculator.MaxPower | src/components/tools/PowerCalculator.tsx:677-687 | the bar scale is at least every counted device's mAh and is one of them, or 0 when none is counted |
| PowerCalculator.Shortlist | src/components/tools/PowerCalculator.tsx:974-987 | at most four cards, each of a product in the capacity band, and only the first marked as ideal |
| PowerCalculator.AddCustomDevice | src/components/tools/PowerCalculator.tsx:710-723 | a blank name changes nothing; otherwise the form's device is appended, counted once, the form is reset, and no other device's count changes |
| PowerCalculator.ActiveDeviceCount | src/components/tools/PowerCalculator.tsx:754 | at most one per selection entry, and zero exactly when no entry is positive |
| PowerCalculator.ChangeKeepsNonNegative | src/components/tools/PowerCalculator.tsx:703-708 | device changes keep every stored count non-negative |
| PowerCalculator.PlusThenMinus | src/components/tools/PowerCalculator.tsx:143-164 | plus then minus gives a stored count back; minus at zero stays at zero |
| PowerCalculator.ActiveIdsAfterChange | src/components/tools/PowerCalculator.tsx:703-708 | changing a count moves its device into or out of the counted set and leaves the others |
| PowerCalculator.ActiveAfterChange | src/components/tools/PowerCalculator.tsx:703-708 | the active count drops by one when a counted device goes to zero, rises by one when an uncounted one is counted, and stays otherwise |
| PowerCalculator.AddCustomDeviceCounts | src/components/tools/PowerCalculator.tsx:710-754 | adding a custom device under a new id counts one more active device |
| PowerCalculator.EntriesSnoc | src/components/tools/PowerCalculator.tsx:630-642 | one more device at the end adds its entry at the end exactly when it is counted |
| PowerCalculator.EntriesMembership | src/components/tools/PowerCalculator.tsx:630-642 | a device is in the breakdown exactly when it is counted, with its count and mAh |
| PowerCalculator.EntriesFrame | src/components/tools/PowerCalculator.tsx:630-642 | the breakdown only depends on the counts of the devices listed |
| PowerCalculator.AddCustomDeviceAppendsEntry | src/components/tools/PowerCalculator.tsx:710-723 | a custom device added under a new id shows up once, last, in the breakdown, and nothing before it changes |
| PowerCalculator.SumMahAppend | src/components/tools/PowerCalculator.tsx:634 | the total over two parts of the breakdown is the sum of their totals |
| PowerCalculator.SumMahNonNegative | src/components/tools/PowerCalculator.tsx:630-642 | with non-negative batteries, charges and days the raw total is non-negative |
| PowerCalculator.CompactIsAboutDouble | src/components/tools/PowerCalculator.tsx:649-664 | the 10K recommendation is twice the 20K count or one fewer |
| PowerCalculator.RecommendationCoversDevices | src/components/tools/PowerCalculator.tsx:644-664 | with a margin of at least 1, both recommendations store at least what the devices draw after charging losses |
| PowerCalculator.BandBoundaries | src/components/tools/PowerCalculator.tsx:975-981 | a 10K product shows up to 20000 mAh needed, a 20K one above 10000, smaller ones only up to 10000 and larger ones only above 20000 |
| PowerCalculator.ShortlistIsPrefix | src/components/tools/PowerCalculator.tsx:974-987 | the shortlist is the first four products of the band in the given order; a band of at most four is shown whole |
| PowerCalculator.InitialActiveCount | src/components/tools/PowerCalculator.tsx:608-617 | the calculator opens with four devices counted |
| Sitemap.Keep | astro.config.mjs:70-80 | a page is kept in the sitemap exactly when it holds none of the cookie, privacy and affiliate-disclosure directories |
| Sitemap.Classify | astro.config.mjs:82-143 | the priority is one of 0.3, 0.5, 0.6, 0.7, 0.8, 0.9 and 1.0; the change frequency is weekly exactly for 0.9 and 1.0; 1.0 exactly for a locale home page; 0.3 exactly for the language hub |
| Sitemap.ScenarioRule | astro.config.mjs:114-128 | a scenario rule fires exactly when the URL holds that scenario directory without ending in it |
| Sitemap.Serialize | astro.config.mjs:82-153 | the entry keeps the item's URL and every other field, sets the priority and frequency of the first matching rule, and sets lastmod to today |
| Sitemap.RuleOrder | astro.config.mjs:99-143 | below the hub and home rules, the rules apply in order: pillar 0.9 weekly, scenario 0.8, guide and product 0.7, tools 0.6, otherwise 0.5, all monthly |
| Sitemap.HubsAreNotScenarioPages | astro.config.mjs:114-128 | a scenario hub, whose URL ends in its directory, never gets the scenario priority |
| Sitemap.DutchKitBuilderIsPillar | astro.config.mjs:104-143 | the Dutch kit builder sits under the tools directory yet gets the pillar priority 0.9 weekly, since that rule comes first |
| Sitemap.KeepDropsLegalPages | astro.config.mjs:70-80 | any URL holding a legal-page directory is left out of the sitemap |
| OrderedSet.Add | src/components/tools/kit-builder/useKitBuilder.ts:195 | adding makes x a member and keeps the others; an absent x is appended at the end, a present one changes nothing; no duplicate appears |
| OrderedSet.Delete | src/components/tools/kit-builder/useKitBuilder.ts:193 | deleting removes exactly x and keeps the set duplicate-free |
| OrderedSet.Toggle | src/components/tools/kit-builder/useKitBuilder.ts:191-197 | a toggle keeps the set duplicate-free |
| OrderedSet.FromSeq | src/components/tools/kit-builder/useKitBuilder.ts:122-123 | a set built from a list has exactly the list's elements, each once |
| OrderedSet.ToggleMembership | src/components/tools/kit-builder/useKitBuilder.ts:191-197 | one toggle flips the membership of x and of nothing else |
| OrderedSet.ToggleTwice | src/components/tools/kit-builder/useKitBuilder.ts:191-197 | toggling the same element twice restores the members |
| OrderedSet.ToggleTwiceAbsent | src/components/tools/kit-builder/useKitBuilder.ts:191-197 | when x was absent, toggling it twice restores the iteration order too |
| OrderedSet.ToggleLength | src/components/tools/kit-builder/useKitBuilder.ts:191-197 | one toggle changes the set's size by exactly one, down when x was present and up otherwise |
| Percent.RoundPercent | src/components/tools/kit-builder/useKitBuilder.ts:226-228 | the result is the percentage rounded half up: within half a unit of 100n/d, from below or at the half |
| Percent.RoundPercentUnique | src/components/tools/kit-builder/useKitBuilder.ts:226-228 | any whole number within those rounding bounds is the rounded percentage |
| Percent.AtMost100Iff | src/components/tools/kit-builder/useKitBuilder.ts:226-228 | the percentage is at most 100 exactly when 200n < 201d |
| Percent.FullAndEmpty | src/components/tools/kit-builder/useKitBuilder.ts:226-228 | all of a list done is 100 and none done is 0 |
| Percent.Monotone | src/components/tools/kit-builder/useKitBuilder.ts:226-228 | more done never lowers the percentage |
| Percent.HundredBeforeDone | src/components/hub/InteractiveChecklist.tsx:161 | 199 of 200 already reads 100, and so does a count just above the total |
| UrlParams.Get | src/components/tools/kit-builder/useKitBuilder.ts:87-89 | a parameter read is present exactly when some pair has the name, and is the value of the first such pair |
| UrlParams.Set | src/components/tools/kit-builder/useKitBuilder.ts:275-277 | after `set` the name reads the new value and every other name reads as before |
| UrlParams.ParamAfterSet | src/components/tools/kit-builder/useKitBuilder.ts:275-277 | after setting a parameter it reads back the new value, and every other parameter reads as before |
| UrlParams.SetSingle | src/components/tools/kit-builder/useKitBuilder.ts:275-277 | setting a parameter leaves exactly one pair with that name |
| Json.StrArrayRoundTrip | src/lib/storage.ts:162-180 | a list of strings stored as a JSON array reads back as the same list |

## Left out

- Rendering is not modelled: JSX, CSS, icons, animations (`AnimatedNumber`, `ProgressRing`, `Confetti`), the bottom sheets' swipe handling and scroll-driven visibility. It is presentation, with no decisions of its own.
- Timers are not modelled: the 400 ms "calculating" delays, the milestone auto-dismiss and input focus delays. Each effect is modelled as if it had already run.
- Browser I/O is abstracted. `window.location`, the clipboard, `window.print` and `scrollIntoView` are left out. `URLSearchParams` is a list of pairs, without percent-encoding or its text form. Storage is a map plus an availability flag.
- `JSON.stringify`/`JSON.parse` are an abstract codec. The proofs assume decoding inverts encoding and that encoded text is never empty. Text that does not parse decodes to nothing.
- `toLowerCase`, `parseFloat`, `String(number)` and `toLocaleString` are parameters. They are library behaviour.
- Timestamps (`new Date().toISOString()`, `Date.now()` ids, the sitemap's `lastmod`) are parameters. They depend on the clock.
- The catalog, the presets, the translation bundles and the search page lists are parameters or small constants. The item and translation JSON files are data, not logic.
- Numbers are exact. Floating-point rounding is not modelled: `n / d * 100` before `Math.round`, the water formulas (0.3 L for a cat is inexact in binary), and the power calculator's division by 0.7 and multiplication by the margin. In the source a ceiling or rounding can therefore land one unit differently at exact boundaries.
- `PowerCalculator.RecommendationCoversDevices`: it takes the efficiency and margin rounding as hypotheses rather than unfolding them, so it holds for any totals computed that way.
- `CalculatorUtils.GetStorageRecommendation`: it compares the need with the size labels' numbers as the source does. The Wh unit is matched against mAh labels, and the model does not convert between them.
- `I18n.T`: members inherited from `Object.prototype` (`toString`, `constructor`) are treated as missing. Arrays in a bundle are dead ends, although `k in array` would accept an index key. No bundle reads them that way.
- `InteractiveChecklist.Load` and `PhaseTabs.Load`: a stored JSON string, or an array holding non-strings, is treated as no list. JavaScript's `new Set(string)` would make a set of its characters. The site itself never stores such values.
- `KitBuilder.ReadStored`: a record that parses but lacks the stored shape counts as corrupt and falls back to defaults. The source would apply whatever fields are usable before failing.
- `NumberInput.BlurSettles`: it assumes `parseFloat(String(x)) == x`. The model does not prove that about the floating-point formatting.
- `NumberInput.TypeThenBlur`: it also assumes `parseFloat(String(x)) == x`, for the text the sync effect writes back before the blur reads it.
- `SearchModal.InputChange`: a blank query clears the results but keeps the highlighted index, as the code does. Stating only that the results empty would be weaker.
- Out of scope: the power calculator's `groupedDevices` display grouping, the duration and safety option lists, and product prices. They only feed rendering.
- Out of scope: the content schemas, `ErrorBoundary`, and the item, scenario and translation JSON files. They hold no logic.
