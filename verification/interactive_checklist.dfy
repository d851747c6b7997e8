/**
 * `InteractiveChecklist`: the collapsible checklists on hub pages. Checked
 * ids are saved under "checklist_" + the list's key, and every toggle also
 * records the list's done/total counts in the global progress record.
 *
 * None of the storage calls in the load effect and the save are guarded
 * except the parse of the stored list, so an unreadable storage or a corrupt
 * progress record makes them throw (`Threw`).
 */
module InteractiveChecklist {
  import opened Wrappers
  import opened Seqs
  import opened OrderedSet
  import opened Json
  import opened Storage
  import opened Percent

  datatype Item = Item(id: string, text: string)

  datatype Category = Category(id: string, title: string, items: seq<Item>)

  datatype ChecklistState = ChecklistState(checked: seq<string>, expanded: seq<string>)

  predicate Valid(s: ChecklistState) {
    NoDup(s.checked) && NoDup(s.expanded)
  }

  /** `categories.reduce((acc, cat) => acc + cat.items.length, 0)`. */
  function TotalItems(cs: seq<Category>): nat {
    if cs == [] then 0 else |cs[0].items| + TotalItems(cs[1..])
  }

  /** `progressPercent`. */
  function ProgressPercent(s: ChecklistState, cs: seq<Category>): (r: nat)
    ensures TotalItems(cs) == 0 ==> r == 0
    ensures TotalItems(cs) > 0 ==>
              2 * TotalItems(cs) * r <= 200 * |s.checked| + TotalItems(cs) < 2 * TotalItems(cs) * r + 2 * TotalItems(cs)
  {
    if TotalItems(cs) > 0 then RoundPercent(|s.checked|, TotalItems(cs)) else 0
  }

  /** A category header's `categoryChecked`. */
  function CategoryChecked(cat: Category, checked: seq<string>): (r: nat)
    ensures r <= |cat.items|
    ensures r == |cat.items| <==> forall i :: 0 <= i < |cat.items| ==> cat.items[i].id in checked
  {
    FilterFull(cat.items, (i: Item) => i.id in checked);
    Count(cat.items, (i: Item) => i.id in checked)
  }

  /** The load effect. Starting from empty sets, a parsable stored list
      becomes the checked set (anything else stored is ignored), and the
      first category is expanded. `None` when reading storage throws. */
  function Load(st: Storage, c: Codec, storageKey: string, cs: seq<Category>): (r: Option<ChecklistState>)
    ensures r.Some? ==> Valid(r.value)
  {
    if !st.available then None
    else
      var key := ChecklistKey(storageKey);
      var checked :=
        if key in st.data && st.data[key] != "" then
          match c.decode(st.data[key])
          case Some(j) => (if j.JNull? then [] else match AsStrings(j) case Some(xs) => FromSeq(xs) case None => [])
          case None => []
        else [];
      Some(ChecklistState(checked, if |cs| > 0 then [cs[0].id] else []))
  }

  /** The list's entry in the global progress record. */
  function Entry(items: seq<string>, cs: seq<Category>): Json {
    JObj(map["done" := JNum(|items|), "total" := JNum(TotalItems(cs))])
  }

  /** `progress.checklist = progress.checklist || {}` followed by
      `progress.checklist[storageKey] = entry`, on a parsed record. */
  function MergeEntry(g: Json, storageKey: string, entry: Json): (r: Option<Json>)
    ensures g.JArr? ==> r == Some(g)
  {
    match g
    case JArr(_) => Some(g)
    case JObj(m) =>
      var cl := if "checklist" in m && Truthy(m["checklist"]) then m["checklist"] else JObj(map[]);
      (match SetField(cl, storageKey, entry)
       case None => None
       case Some(cl2) => Some(JObj(m["checklist" := cl2])))
    case _ => None
  }

  /** `saveChecked(items)`. */
  function SaveChecked(st: Storage, c: Codec, storageKey: string, cs: seq<Category>, items: seq<string>): (o: Outcome)
    ensures o.store.available == st.available
    ensures !st.available ==> o == Threw(st)
    ensures st.available ==> ChecklistKey(storageKey) in o.store.data
                             && o.store.data[ChecklistKey(storageKey)] == c.encode(StrArray(items))
    ensures forall k :: k != ChecklistKey(storageKey) && k != ProgressKey ==> (k in o.store.data <==> k in st.data)
    ensures forall k :: k != ChecklistKey(storageKey) && k != ProgressKey && k in st.data ==> o.store.data[k] == st.data[k]
  {
    KeysDistinct(storageKey, storageKey);
    match WriteUnguarded(st, c, ChecklistKey(storageKey), StrArray(items))
    case Threw(st0) => Threw(st0)
    case Completed(st1) =>
      match ParseOrEmpty(st1, c, ProgressKey)
      case None => Threw(st1)
      case Some(g) =>
        match MergeEntry(g, storageKey, Entry(items, cs))
        case None => Threw(st1)
        case Some(g2) => WriteUnguarded(st1, c, ProgressKey, g2)
  }

  /** `toggleItem`: flips the id and saves the new set. */
  function ToggleItem(s: ChecklistState, st: Storage, c: Codec, storageKey: string, cs: seq<Category>, itemId: string)
    : (r: (ChecklistState, Outcome))
    ensures r.0.expanded == s.expanded
    ensures Valid(s) ==> Valid(r.0)
    ensures r.1 == SaveChecked(st, c, storageKey, cs, r.0.checked)
  {
    var next := Toggle(s.checked, itemId);
    (s.(checked := next), SaveChecked(st, c, storageKey, cs, next))
  }

  /** `toggleCategory`. */
  function ToggleCategory(s: ChecklistState, categoryId: string): (r: ChecklistState)
    ensures r.checked == s.checked
    ensures Valid(s) ==> Valid(r)
  {
    s.(expanded := Toggle(s.expanded, categoryId))
  }

  // ---------------------------------------------------------------- lemmas

  /** Toggling an item twice restores the checked set; one toggle changes
      only that id. Toggling a category twice restores the expanded set. */
  lemma ToggleInvolution(s: ChecklistState, st: Storage, c: Codec, key: string, cs: seq<Category>, x: string, y: string)
    ensures var once := ToggleItem(s, st, c, key, cs, x).0;
            var twice := ToggleItem(once, st, c, key, cs, x).0;
            && Elems(twice.checked) == Elems(s.checked)
            && (y != x ==> (y in once.checked <==> y in s.checked))
            && (x in once.checked <==> x !in s.checked)
    ensures Elems(ToggleCategory(ToggleCategory(s, x), x).expanded) == Elems(s.expanded)
  {
    ToggleTwice(s.checked, x);
    ToggleTwice(s.expanded, x);
    ToggleMembership(s.checked, x, y);
    ToggleMembership(s.checked, x, x);
  }

  /** A save stores the whole set under "checklist_" + key and, on a record
      whose `checklist` section is an object or missing, sets that list's
      entry to {done: set size, total: item count}, keeping every other
      list's entry and every other section. */
  lemma SaveEffect(st: Storage, c: Codec, storageKey: string, cs: seq<Category>, items: seq<string>)
    requires Lawful(c) && st.available
    requires ParseOrEmpty(st, c, ProgressKey).Some? && ParseOrEmpty(st, c, ProgressKey).value.JObj?
    requires var m := ParseOrEmpty(st, c, ProgressKey).value.fields;
             "checklist" in m && Truthy(m["checklist"]) ==> m["checklist"].JObj?
    ensures var o := SaveChecked(st, c, storageKey, cs, items);
            var before := ParseOrEmpty(st, c, ProgressKey).value.fields;
            && o.Completed?
            && GetItem(o.store, c, ChecklistKey(storageKey)) == Some(StrArray(items))
            && GetItem(o.store, c, ProgressKey).Some?
            && var after := GetItem(o.store, c, ProgressKey).value;
               && after.JObj? && "checklist" in after.fields && after.fields["checklist"].JObj?
               && var lists := after.fields["checklist"].fields;
                  && lists[storageKey] == Entry(items, cs)
                  && Field(lists[storageKey], "done") == Some(JNum(|items|))
                  && Field(lists[storageKey], "total") == Some(JNum(TotalItems(cs)))
                  && (forall k :: k != storageKey && "checklist" in before && before["checklist"].JObj? && k in before["checklist"].fields
                        ==> k in lists && lists[k] == before["checklist"].fields[k])
                  && (forall k :: k != "checklist" ==> (k in after.fields <==> k in before) && (k in before ==> after.fields[k] == before[k]))
    ensures var o := SaveChecked(st, c, storageKey, cs, items);
            forall k :: k != ChecklistKey(storageKey) && k != ProgressKey
                        ==> (k in o.store.data <==> k in st.data) && (k in st.data ==> o.store.data[k] == st.data[k])
  {
    var st1 := SetItem(st, c, ChecklistKey(storageKey), StrArray(items)).0;
    KeysDistinct(storageKey, storageKey);
    assert ChecklistKey(storageKey) != ProgressKey by {
      assert ChecklistKey(storageKey)[0] == 'c';
    }
    assert ParseOrEmpty(st1, c, ProgressKey) == ParseOrEmpty(st, c, ProgressKey);
  }

  /** A progress record that does not parse makes the save throw after the
      list itself was written. */
  lemma CorruptProgressThrows(st: Storage, c: Codec, storageKey: string, cs: seq<Category>, items: seq<string>)
    requires Lawful(c) && st.available
    requires ProgressKey in st.data && st.data[ProgressKey] != "" && c.decode(st.data[ProgressKey]).None?
    ensures var o := SaveChecked(st, c, storageKey, cs, items);
            o.Threw? && GetItem(o.store, c, ChecklistKey(storageKey)) == Some(StrArray(items))
  {
    assert ChecklistKey(storageKey) != ProgressKey by {
      assert ChecklistKey(storageKey)[0] == 'c';
    }
  }

  /** On load, corrupt stored data leaves the checked set empty and the
      first category is the only one expanded. */
  lemma LoadCorrupt(st: Storage, c: Codec, storageKey: string, cs: seq<Category>)
    requires st.available
    requires ChecklistKey(storageKey) in st.data
    requires c.decode(st.data[ChecklistKey(storageKey)]).None?
    ensures Load(st, c, storageKey, cs) == Some(ChecklistState([], if |cs| > 0 then [cs[0].id] else []))
  {
  }

  /** Loading what a save stored restores a duplicate-free checked set. */
  lemma LoadAfterSave(st: Storage, c: Codec, storageKey: string, cs: seq<Category>, items: seq<string>)
    requires Lawful(c) && st.available && NoDup(items)
    ensures var st1 := SaveChecked(st, c, storageKey, cs, items).store;
            Load(st1, c, storageKey, cs).Some? && Load(st1, c, storageKey, cs).value.checked == items
  {
    var key := ChecklistKey(storageKey);
    var st1 := SaveChecked(st, c, storageKey, cs, items).store;
    assert key != ProgressKey by {
      assert key[0] == 'c';
    }
    assert st1.data[key] == c.encode(StrArray(items));
    StrArrayRoundTrip(items);
    DistinctOfNoDup(items);
  }

  /** The percentage exceeds 100 exactly when the checked set outgrows the
      item count by more than half a percent, so it is at most 100 whenever
      no more ids are checked than there are items. */
  lemma PercentAtMost100(s: ChecklistState, cs: seq<Category>)
    ensures TotalItems(cs) > 0 ==> (ProgressPercent(s, cs) <= 100 <==> 200 * |s.checked| < 201 * TotalItems(cs))
    ensures |s.checked| <= TotalItems(cs) ==> ProgressPercent(s, cs) <= 100
  {
    if TotalItems(cs) > 0 {
      AtMost100Iff(|s.checked|, TotalItems(cs));
    }
  }
}
