/**
 * The counters `CategorySection` shows in a category header: how many of the
 * category's items are checked, how many are critical, how many critical
 * ones are checked, whether the category is complete, and whether the
 * critical badge is rendered.
 */
module CategorySection {
  import opened Seqs
  import opened KitCatalog

  datatype Header = Header(
    checkedCount: nat,
    criticalCount: nat,
    criticalChecked: nat,
    allChecked: bool,
    showCriticalBadge: bool)

  function HeaderOf(items: seq<KitItem>, checked: seq<string>): (h: Header)
    ensures h.checkedCount <= |items|
    ensures h.criticalChecked <= h.criticalCount <= |items|
    ensures h.criticalChecked <= h.checkedCount
    ensures h.allChecked <==> forall i :: 0 <= i < |items| ==> items[i].id in checked
    ensures h.showCriticalBadge <==> exists i :: 0 <= i < |items| && items[i].priority == Critical
  {
    var checkedCount := Count(items, (i: KitItem) => i.id in checked);
    var criticalCount := Count(items, (i: KitItem) => i.priority == Critical);
    var criticalChecked := Count(items, (i: KitItem) => i.priority == Critical && i.id in checked);
    FilterStronger(items, (i: KitItem) => i.priority == Critical, (i: KitItem) => i.priority == Critical && i.id in checked);
    FilterStronger(items, (i: KitItem) => i.id in checked, (i: KitItem) => i.priority == Critical && i.id in checked);
    FilterFull(items, (i: KitItem) => i.id in checked);
    BadgeIff(items);
    Header(checkedCount, criticalCount, criticalChecked,
           checkedCount == |items|, criticalCount > 0)
  }

  lemma BadgeIff(items: seq<KitItem>)
    ensures Count(items, (i: KitItem) => i.priority == Critical) > 0
            <==> exists i :: 0 <= i < |items| && items[i].priority == Critical
  {
    var p := (i: KitItem) => i.priority == Critical;
    if exists i :: 0 <= i < |items| && items[i].priority == Critical {
      var i :| 0 <= i < |items| && items[i].priority == Critical;
      assert items[i] in Filter(items, p);
    }
    if Count(items, p) > 0 {
      assert Filter(items, p)[0] in items;
    }
  }

  /** An empty category reads as complete and shows no badge. */
  lemma EmptyCategory(checked: seq<string>)
    ensures HeaderOf([], checked) == Header(0, 0, 0, true, false)
  {
  }

  /** The header's critical counts are the builder's critical counts
      restricted to the category. */
  lemma HeaderMatchesBuilderCounts(items: seq<KitItem>, checked: seq<string>)
    ensures HeaderOf(items, checked).criticalCount == |CriticalItems(items)|
    ensures HeaderOf(items, checked).criticalChecked == CriticalChecked(items, checked)
  {
    CriticalCounts(items, checked);
  }
}
