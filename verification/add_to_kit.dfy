/**
 * `AddToKitButton`: the button on guide pages that adds one item to the kit
 * builder's saved checklist, and its mount-time "already added" check.
 *
 * The component reads and writes the fixed key "kit72_builder" and handles
 * the stored value untyped, so the model works on `Json` values. Its click
 * handler is wrapped in one `try`: any exception ends it early, after
 * whatever writes already happened, and leaves `isAdded` unset.
 */
module AddToKit {
  import opened Wrappers
  import opened Text
  import opened Json
  import opened Storage

  /** The component's own key; it is not a per-locale kit-builder key. */
  const FixedKey: string := "kit72_builder"

  /** The record used when nothing is stored. */
  function DefaultState(now: string): (j: Json)
    ensures j.JObj? && Field(j, "checkedItems") == Some(JArr([]))
  {
    JObj(map[
      "scenario" := JStr("general"),
      "hasBabies" := JBool(false),
      "hasPets" := JBool(false),
      "checkedItems" := JArr([]),
      "expandedCategories" := StrArray(["Agua", "Alimentación"]),
      "lastUpdated" := JStr(now)])
  }

  /** `list.includes(itemId)` for the two receivers that have `includes`:
      an array compares elements, a string looks for a substring. `None`
      stands for the TypeError any other receiver raises. */
  function Includes(list: Option<Json>, itemId: string): (r: Option<bool>)
    ensures r.Some? <==> list.Some? && (list.value.JArr? || list.value.JStr?)
  {
    match list
    case Some(JArr(xs)) => Some(JStr(itemId) in xs)
    case Some(JStr(s)) => Some(Contains(s, itemId))
    case _ => None
  }

  /** The mount effect: `isAdded` is set when the stored record's
      `checkedItems` includes the item; a missing, corrupt or unreadable
      record leaves it false. */
  function AddedOnMount(st: Storage, c: Codec, itemId: string): (r: bool)
    ensures r ==> st.available && FixedKey in st.data && st.data[FixedKey] != ""
    ensures r ==> c.decode(st.data[FixedKey]).Some?
  {
    && st.available
    && FixedKey in st.data
    && st.data[FixedKey] != ""
    && var j := c.decode(st.data[FixedKey]);
       j.Some? && Includes(Field(j.value, "checkedItems"), itemId) == Some(true)
  }

  /** When the stored record's `checkedItems` is a list of strings, the
      mount effect marks the item added exactly when it is in that list. */
  lemma MountReadsCheckedItems(st: Storage, c: Codec, itemId: string, xs: seq<string>)
    requires st.available && FixedKey in st.data && st.data[FixedKey] != ""
    requires c.decode(st.data[FixedKey]).Some?
    requires Field(c.decode(st.data[FixedKey]).value, "checkedItems") == Some(StrArray(xs))
    ensures AddedOnMount(st, c, itemId) <==> itemId in xs
  {
    var items := StrArray(xs).items;
    if itemId in xs {
      var i :| 0 <= i < |xs| && xs[i] == itemId;
      assert items[i] == JStr(itemId);
    }
    if JStr(itemId) in items {
      var i :| 0 <= i < |items| && items[i] == JStr(itemId);
      assert xs[i] == itemId;
    }
  }

  /** The global progress entry the click writes: no `total`, and the
      record's `scenario` copied as it is (dropped when absent). */
  function ClickEntry(state: Json, done: nat, now: string): (e: Json)
    ensures e.JObj? && "total" !in e.fields
    ensures Field(e, "done") == Some(JNum(done)) && Field(e, "lastUpdated") == Some(JStr(now))
    ensures Field(e, "scenario") == Field(state, "scenario")
  {
    var base := map["done" := JNum(done), "lastUpdated" := JStr(now)];
    match Field(state, "scenario")
    case Some(v) => JObj(base["scenario" := v])
    case None => JObj(base)
  }

  /** The record with the item appended and `lastUpdated` refreshed. */
  function Appended(state: Json, xs: seq<Json>, itemId: string, now: string): Json
    requires state.JObj?
  {
    JObj(state.fields["checkedItems" := JArr(xs + [JStr(itemId)])]["lastUpdated" := JStr(now)])
  }

  /** The record the click starts from: the stored one, or the default when
      nothing is stored; `None` when reading or parsing throws. */
  function Current(st: Storage, c: Codec, now: string): (r: Option<Json>)
    ensures !st.available ==> r.None?
  {
    if !st.available then None
    else if FixedKey !in st.data || st.data[FixedKey] == "" then Some(DefaultState(now))
    else c.decode(st.data[FixedKey])
  }

  /** `handleClick`: whether it reached `setIsAdded(true)`, and the storage it
      leaves behind. */
  function Click(st: Storage, c: Codec, itemId: string, now: string): (r: (bool, Storage))
    ensures r.1.available == st.available
    ensures forall k :: k != FixedKey && k != ProgressKey ==> (k in r.1.data <==> k in st.data)
    ensures forall k :: k != FixedKey && k != ProgressKey && k in st.data ==> r.1.data[k] == st.data[k]
  {
    match Current(st, c, now)
    case None => (false, st)
    case Some(state) =>
      var list := Field(state, "checkedItems");
      if list.Some? && list.value.JArr? then
        var xs := list.value.items;
        if JStr(itemId) in xs then (true, st)
        else
          var st1 := SetItem(st, c, FixedKey, Appended(state, xs, itemId, now)).0;
          (match ParseOrEmpty(st1, c, ProgressKey)
           case None => (false, st1)
           case Some(g) =>
             match SetField(g, "kitBuilder", ClickEntry(state, |xs| + 1, now))
             case None => (false, st1)
             case Some(g2) => (true, SetItem(st1, c, ProgressKey, g2).0))
      else if list.Some? && list.value.JStr? then
        // `push` is not a string method: a string that does not already
        // include the item throws.
        (Contains(list.value.s, itemId), st)
      else (false, st)
  }

  // ---------------------------------------------------------------- lemmas

  /** The fixed key is never a kit builder's per-locale key, so the builder
      does not see items added here unless a locale configures this exact
      key as its storage key. */
  lemma FixedKeyIsNotLocaleKey(locale: string)
    ensures FixedKey != KitBuilderKey(locale)
    ensures IsAppKey(FixedKey)
  {
    assert |KitBuilderKey(locale)| >= 14;
    assert FixedKey[..6] == "kit72_";
  }

  /** If the item is already listed, a click writes nothing. */
  lemma PresentWritesNothing(st: Storage, c: Codec, itemId: string, now: string, xs: seq<Json>)
    requires Current(st, c, now).Some?
    requires Field(Current(st, c, now).value, "checkedItems") == Some(JArr(xs))
    requires JStr(itemId) in xs
    ensures Click(st, c, itemId, now) == (true, st)
  {
  }

  /** A click on a record whose list lacks the item appends it at the end,
      grows the list by one, refreshes `lastUpdated`, keeps every other
      field, and sets `kitBuilder` = {scenario, done: new length,
      lastUpdated} with no total. */
  lemma AbsentAppends(st: Storage, c: Codec, itemId: string, now: string, xs: seq<Json>)
    requires Lawful(c)
    requires Current(st, c, now).Some?
    requires Field(Current(st, c, now).value, "checkedItems") == Some(JArr(xs))
    requires JStr(itemId) !in xs
    requires ParseOrEmpty(st, c, ProgressKey).Some? && ParseOrEmpty(st, c, ProgressKey).value.JObj?
    ensures var r := Click(st, c, itemId, now);
            var state := Current(st, c, now).value;
            && r.0
            && GetItem(r.1, c, FixedKey).Some?
            && var saved := GetItem(r.1, c, FixedKey).value;
               && saved.JObj?
               && Field(saved, "checkedItems") == Some(JArr(xs + [JStr(itemId)]))
               && |xs + [JStr(itemId)]| == |xs| + 1
               && Field(saved, "lastUpdated") == Some(JStr(now))
               && (forall k :: k != "checkedItems" && k != "lastUpdated" ==> Field(saved, k) == Field(state, k))
               && GetItem(r.1, c, ProgressKey).Some?
               && GetItem(r.1, c, ProgressKey).value.JObj?
               && GetItem(r.1, c, ProgressKey).value.fields["kitBuilder"] == ClickEntry(state, |xs| + 1, now)
  {
    var state := Current(st, c, now).value;
    var saved := Appended(state, xs, itemId, now);
    var st1 := SetItem(st, c, FixedKey, saved).0;
    var g2 := JObj(ParseOrEmpty(st, c, ProgressKey).value.fields["kitBuilder" := ClickEntry(state, |xs| + 1, now)]);
    AbsentShape(st, c, itemId, now, xs);
    GetAfterSet(st1, c, ProgressKey, g2, FixedKey);
    GetAfterSet(st, c, FixedKey, saved, FixedKey);
    GetAfterSet(st1, c, ProgressKey, g2, ProgressKey);
    AppendedFields(state, xs, itemId, now);
  }

  /** The writes a click makes when the item is not yet listed. */
  lemma AbsentShape(st: Storage, c: Codec, itemId: string, now: string, xs: seq<Json>)
    requires Current(st, c, now).Some?
    requires Field(Current(st, c, now).value, "checkedItems") == Some(JArr(xs))
    requires JStr(itemId) !in xs
    requires ParseOrEmpty(st, c, ProgressKey).Some?
    requires ParseOrEmpty(st, c, ProgressKey).value.JObj? || ParseOrEmpty(st, c, ProgressKey).value.JArr?
    ensures var state := Current(st, c, now).value;
            var st1 := SetItem(st, c, FixedKey, Appended(state, xs, itemId, now)).0;
            var g2 := SetField(ParseOrEmpty(st, c, ProgressKey).value, "kitBuilder", ClickEntry(state, |xs| + 1, now)).value;
            && st.available
            && Click(st, c, itemId, now) == (true, SetItem(st1, c, ProgressKey, g2).0)
  {
    var state := Current(st, c, now).value;
    var st1 := SetItem(st, c, FixedKey, Appended(state, xs, itemId, now)).0;
    assert ParseOrEmpty(st1, c, ProgressKey) == ParseOrEmpty(st, c, ProgressKey) by {
      assert FixedKey != ProgressKey;
    }
  }

  /** The appended record's fields. */
  lemma AppendedFields(state: Json, xs: seq<Json>, itemId: string, now: string)
    requires state.JObj?
    ensures var saved := Appended(state, xs, itemId, now);
            && Field(saved, "checkedItems") == Some(JArr(xs + [JStr(itemId)]))
            && Field(saved, "lastUpdated") == Some(JStr(now))
            && (forall k :: k != "checkedItems" && k != "lastUpdated" ==> Field(saved, k) == Field(state, k))
  {
  }

  /** With nothing stored, the click starts from the default record:
      scenario "general", both flags false, and a list holding only the item. */
  lemma EmptyStorageUsesDefault(st: Storage, c: Codec, itemId: string, now: string)
    requires Lawful(c) && st.available
    requires FixedKey !in st.data
    requires ParseOrEmpty(st, c, ProgressKey).Some? && ParseOrEmpty(st, c, ProgressKey).value.JObj?
    ensures var r := Click(st, c, itemId, now);
            && r.0
            && GetItem(r.1, c, FixedKey).Some?
            && var saved := GetItem(r.1, c, FixedKey).value;
               && Field(saved, "scenario") == Some(JStr("general"))
               && Field(saved, "hasBabies") == Some(JBool(false))
               && Field(saved, "hasPets") == Some(JBool(false))
               && Field(saved, "checkedItems") == Some(JArr([JStr(itemId)]))
  {
    var state := DefaultState(now);
    assert Current(st, c, now) == Some(state);
    AbsentAppends(st, c, itemId, now, []);
    DefaultFlags(now);
    assert [] + [JStr(itemId)] == [JStr(itemId)];
  }

  /** The default record's scenario and flags. */
  lemma DefaultFlags(now: string)
    ensures Field(DefaultState(now), "scenario") == Some(JStr("general"))
    ensures Field(DefaultState(now), "hasBabies") == Some(JBool(false))
    ensures Field(DefaultState(now), "hasPets") == Some(JBool(false))
  {
  }

  /** After a click that completes, the mount check sees the item. */
  lemma ClickThenMount(st: Storage, c: Codec, itemId: string, now: string)
    requires Lawful(c)
    requires Click(st, c, itemId, now).0
    ensures AddedOnMount(Click(st, c, itemId, now).1, c, itemId)
  {
    var state := Current(st, c, now).value;
    var list := Field(state, "checkedItems");
    if list.Some? && list.value.JArr? && JStr(itemId) !in list.value.items {
      ClickStoresAppended(st, c, itemId, now, list.value.items);
    } else {
      ClickKeepsPresent(st, c, itemId, now);
    }
  }

  /** A completed click on a list lacking the item leaves the appended
      record under the fixed key. */
  lemma ClickStoresAppended(st: Storage, c: Codec, itemId: string, now: string, xs: seq<Json>)
    requires Lawful(c)
    requires Click(st, c, itemId, now).0
    requires Field(Current(st, c, now).value, "checkedItems") == Some(JArr(xs))
    requires JStr(itemId) !in xs
    ensures AddedOnMount(Click(st, c, itemId, now).1, c, itemId)
  {
    var state := Current(st, c, now).value;
    var g := ParseOrEmpty(st, c, ProgressKey);
    assert g.Some? && (g.value.JObj? || g.value.JArr?);
    AbsentShape(st, c, itemId, now, xs);
    var saved := Appended(state, xs, itemId, now);
    AppendedFields(state, xs, itemId, now);
    var st1 := SetItem(st, c, FixedKey, saved).0;
    var g2 := SetField(g.value, "kitBuilder", ClickEntry(state, |xs| + 1, now)).value;
    GetAfterSet(st1, c, ProgressKey, g2, FixedKey);
    GetAfterSet(st, c, FixedKey, saved, FixedKey);
    assert JStr(itemId) in xs + [JStr(itemId)];
  }

  /** A completed click that appends nothing leaves storage as it was, with
      the item already listed. */
  lemma ClickKeepsPresent(st: Storage, c: Codec, itemId: string, now: string)
    requires Lawful(c)
    requires Click(st, c, itemId, now).0
    requires var list := Field(Current(st, c, now).value, "checkedItems");
             !(list.Some? && list.value.JArr? && JStr(itemId) !in list.value.items)
    ensures AddedOnMount(Click(st, c, itemId, now).1, c, itemId)
  {
    assert Click(st, c, itemId, now).1 == st;
    assert FixedKey in st.data && st.data[FixedKey] != "";
  }

  /** A click never lists the item twice: a duplicate-free list stays
      duplicate-free. */
  lemma NoDuplicateAdded(st: Storage, c: Codec, itemId: string, now: string, xs: seq<Json>)
    requires Lawful(c)
    requires Current(st, c, now).Some?
    requires Field(Current(st, c, now).value, "checkedItems") == Some(JArr(xs))
    requires forall i, j :: 0 <= i < j < |xs| ==> xs[i] != xs[j]
    ensures var r := Click(st, c, itemId, now);
            var saved := GetItem(r.1, c, FixedKey);
            saved.Some? && Field(saved.value, "checkedItems").Some? && Field(saved.value, "checkedItems").value.JArr?
            ==> var ys := Field(saved.value, "checkedItems").value.items;
                forall i, j :: 0 <= i < j < |ys| ==> ys[i] != ys[j]
  {
    var state := Current(st, c, now).value;
    var r := Click(st, c, itemId, now);
    if JStr(itemId) !in xs && r.1 != st {
      var saved := Appended(state, xs, itemId, now);
      assert r.1.data[FixedKey] == c.encode(saved);
    }
  }

  /** A missing, corrupt or unreadable record leaves `isAdded` false. */
  lemma MountCorruptIsFalse(st: Storage, c: Codec, itemId: string)
    requires !st.available || FixedKey !in st.data || c.decode(st.data[FixedKey]).None?
    ensures !AddedOnMount(st, c, itemId)
  {
  }
}
