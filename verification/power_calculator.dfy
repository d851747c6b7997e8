/**
 * `PowerCalculator`: how many power banks a household needs to keep its
 * devices charged, which devices enter the breakdown, and the custom
 * devices a user adds.
 *
 * Numbers are reals, so floating-point rounding of the mAh products and of
 * `totalRawMah / 0.7` is not modelled. The time stamp a custom device's id
 * is built from is a parameter.
 */
module PowerCalculator {
  import opened Seqs
  import opened Text
  import opened CalculatorUtils

  datatype Category = Communication | Lighting | Medical | Other

  /** A device: battery capacity in mAh and how many full charges a day it
      needs. */
  datatype Device = Device(id: string, name: string, batteryMah: real, chargesPerDay: real, category: Category)

  /** The devices offered by default, named by their ids. */
  const DeviceSpecs: seq<Device> := [
    Device("smartphone", "smartphone", 4000.0, 1.0, Communication),
    Device("tablet", "tablet", 7500.0, 0.5, Communication),
    Device("smartwatch", "smartwatch", 300.0, 0.33, Communication),
    Device("headlamp", "headlamp", 1500.0, 0.5, Lighting),
    Device("lantern", "lantern", 2000.0, 0.33, Lighting),
    Device("radio", "radio", 2000.0, 0.25, Communication),
    Device("cpap", "cpap", 10000.0, 1.0, Medical),
    Device("nebulizer", "nebulizer", 3000.0, 0.5, Medical)]

  /** `getLocalizedDevices`: each default device named by the translation
      for its id, or by the id when there is none. */
  function LocalizedDevices(names: map<string, string>): (r: seq<Device>)
    ensures |r| == |DeviceSpecs|
    ensures forall i :: 0 <= i < |r| ==> r[i] == DeviceSpecs[i].(name := r[i].name)
    ensures forall i :: 0 <= i < |r| ==> r[i].name == r[i].id || r[i].id in names
    ensures forall i :: 0 <= i < |r| && r[i].id in names && names[r[i].id] != "" ==> r[i].name == names[r[i].id]
    ensures forall i :: 0 <= i < |r| && (r[i].id !in names || names[r[i].id] == "") ==> r[i].name == r[i].id
  {
    Map(DeviceSpecs, (d: Device) => d.(name := if d.id in names && names[d.id] != "" then names[d.id] else d.id))
  }

  /** How many of each device the user keeps charged, by device id. */
  type Selection = map<string, int>

  /** The selection the calculator opens with. */
  const DefaultSelection: Selection := map[
    "smartphone" := 2, "tablet" := 0, "smartwatch" := 0, "headlamp" := 1,
    "lantern" := 1, "radio" := 1, "cpap" := 0, "nebulizer" := 0]

  /** `selectedDevices[id] || 0`. */
  function CountOf(sel: Selection, id: string): int {
    if id in sel then sel[id] else 0
  }

  predicate NonNegative(sel: Selection) {
    forall k :: k in sel ==> sel[k] >= 0
  }

  /** `handleDeviceChange`: the count stored is never negative. */
  function HandleDeviceChange(sel: Selection, id: string, count: int): (r: Selection)
    ensures CountOf(r, id) >= 0 && (count >= 0 ==> CountOf(r, id) == count)
    ensures count < 0 ==> CountOf(r, id) == 0
    ensures r.Keys == sel.Keys + {id}
    ensures forall k :: k in sel && k != id ==> r[k] == sel[k]
  {
    sel[id := if count > 0 then count else 0]
  }

  /** The count the minus button passes on. */
  function Minus(count: int): (r: int)
    ensures r >= 0 && (count > 0 ==> r == count - 1)
  {
    if count - 1 > 0 then count - 1 else 0
  }

  /** The count the plus button passes on: one more, which the minus
      button takes back. */
  function Plus(count: int): (r: int)
    ensures r > count && r - 1 == count
    ensures count >= 0 ==> Minus(r) == count && !MinusDisabled(r)
  {
    count + 1
  }

  /** The minus button is disabled at zero: for a stored (non-negative)
      count, exactly when pressing it would change nothing. */
  function MinusDisabled(count: int): (r: bool)
    ensures count >= 0 ==> (r <==> Minus(count) == count)
  {
    count == 0
  }

  // ------------------------------------------------------------- breakdown

  /** A row of the breakdown. */
  datatype Entry = Entry(name: string, count: int, totalMah: real, category: Category)

  /** The device is counted: `count > 0`. */
  predicate IsActive(sel: Selection, d: Device) {
    CountOf(sel, d.id) > 0
  }

  /** The mAh a device needs over the days, at its count. */
  function Power(d: Device, count: int, days: int): real {
    d.batteryMah * d.chargesPerDay * days as real * count as real
  }

  function EntryOf(d: Device, sel: Selection, days: int): Entry {
    Entry(d.name, CountOf(sel, d.id), Power(d, CountOf(sel, d.id), days), d.category)
  }

  /** The breakdown: one entry per counted device, in device order. */
  function Entries(ds: seq<Device>, sel: Selection, days: int): (r: seq<Entry>)
    ensures |r| <= |ds|
    ensures forall j :: 0 <= j < |r| ==> r[j].count > 0
  {
    if ds == [] then []
    else
      var pre := ds[..|ds| - 1];
      var d := ds[|ds| - 1];
      var rest := Entries(pre, sel, days);
      if IsActive(sel, d) then rest + [EntryOf(d, sel, days)] else rest
  }

  /** The sum of the entries' mAh. */
  function SumMah(es: seq<Entry>): real {
    if es == [] then 0.0 else SumMah(es[..|es| - 1]) + es[|es| - 1].totalMah
  }

  /** One power bank size recommended: how many, of what capacity, at what
      price in euros. */
  datatype Rec = Rec(count: int, capacity: int, price: int)

  /** `Math.ceil(total / capacity)` banks of the capacity, priced per bank. */
  function Recommend(total: int, capacity: int, unitPrice: int): (r: Rec)
    requires capacity > 0
    ensures r.capacity == capacity && r.price == r.count * unitPrice
    ensures r.count * capacity >= total
    ensures (r.count - 1) * capacity < total
  {
    var n := CeilDiv(total, capacity);
    Rec(n, capacity, n * unitPrice)
  }

  /** The recommendation in 20K banks at 45 euros. */
  function Simple(total: int): Rec {
    Recommend(total, 20000, 45)
  }

  /** The recommendation in 10K banks at 25 euros. */
  function Compact(total: int): Rec {
    Recommend(total, 10000, 25)
  }

  /** What the calculation memo returns. */
  datatype Calculation = Calculation(breakdown: seq<Entry>, totalRawMah: real, totalNeededMah: int,
                                     totalWithMargin: int, simple: Rec, compact: Rec)

  /** The efficiency of charging from a power bank. */
  const EfficiencyFactor: real := 0.7

  /** The walk over the devices: keep the counted ones, in order, and add
      up their mAh. */
  method Breakdown(ds: seq<Device>, sel: Selection, days: int) returns (breakdown: seq<Entry>, total: real)
    ensures breakdown == Entries(ds, sel, days)
    ensures total == SumMah(breakdown)
  {
    breakdown := [];
    total := 0.0;
    var i := 0;
    while i < |ds|
      invariant 0 <= i <= |ds|
      invariant breakdown == Entries(ds[..i], sel, days)
      invariant total == SumMah(breakdown)
    {
      var d := ds[i];
      assert ds[..i + 1] == ds[..i] + [d];
      EntriesSnoc(ds[..i], d, sel, days);
      if CountOf(sel, d.id) > 0 {
        breakdown, total := Push(breakdown, total, EntryOf(d, sel, days));
      }
      i := i + 1;
    }
    assert ds[..|ds|] == ds;
  }

  /** `Math.ceil(totalRawMah / efficiencyFactor)`: the mAh to store so
      that the devices get theirs after the charging loss. */
  function NeededMah(raw: real): (r: int)
    ensures raw / EfficiencyFactor <= r as real < raw / EfficiencyFactor + 1.0
  {
    Ceil(raw / EfficiencyFactor)
  }

  /** `Math.ceil(totalNeededMah * safetyMargin)`. */
  function WithMargin(needed: int, margin: real): (r: int)
    ensures needed as real * margin <= r as real < needed as real * margin + 1.0
  {
    Ceil(needed as real * margin)
  }

  /** `deviceBreakdown.push(entry)` with `totalRawMah += entry.totalMah`. */
  method Push(breakdown: seq<Entry>, total: real, e: Entry) returns (breakdown': seq<Entry>, total': real)
    requires total == SumMah(breakdown)
    ensures breakdown' == breakdown + [e]
    ensures total' == SumMah(breakdown')
  {
    SumMahSnoc(breakdown, e);
    breakdown' := breakdown + [e];
    total' := total + e.totalMah;
  }

  /** The calculation: the breakdown, the charging loss and the safety
      margin, and the two recommendations sized from the result. */
  method Calculate(ds: seq<Device>, sel: Selection, days: int, margin: real) returns (r: Calculation)
    ensures r.breakdown == Entries(ds, sel, days)
    ensures r.totalRawMah == SumMah(r.breakdown)
    ensures r.totalNeededMah == NeededMah(r.totalRawMah)
    ensures r.totalWithMargin == WithMargin(r.totalNeededMah, margin)
    ensures r.simple == Simple(r.totalWithMargin) && r.compact == Compact(r.totalWithMargin)
  {
    var breakdown, total := Breakdown(ds, sel, days);
    var needed := NeededMah(total);
    var withMargin := WithMargin(needed, margin);
    r := Calculation(breakdown, total, needed, withMargin, Simple(withMargin), Compact(withMargin));
  }

  /** `maxDevicePower`: the largest mAh any counted device needs, or 0. */
  function MaxPower(ds: seq<Device>, sel: Selection, days: int): (r: real)
    ensures r >= 0.0
    ensures forall i :: 0 <= i < |ds| && IsActive(sel, ds[i]) ==> Power(ds[i], CountOf(sel, ds[i].id), days) <= r
    ensures r == 0.0 || exists i :: 0 <= i < |ds| && IsActive(sel, ds[i]) && r == Power(ds[i], CountOf(sel, ds[i].id), days)
  {
    if ds == [] then 0.0
    else
      var pre := ds[..|ds| - 1];
      var d := ds[|ds| - 1];
      var m := MaxPower(pre, sel, days);
      assert forall i :: 0 <= i < |pre| ==> pre[i] == ds[i];
      var p := Power(d, CountOf(sel, d.id), days);
      if IsActive(sel, d) && p > m then p else m
  }

  // ------------------------------------------------------------- products

  /** A product suggestion, with its capacity in mAh. */
  datatype Product = Product(id: string, name: string, capacity: int)

  /** The product filter: the capacity band that fits the need. */
  predicate InBand(needed: int, p: Product) {
    if needed <= 10000 then p.capacity <= 10000
    else if needed <= 20000 then 10000 <= p.capacity <= 20000
    else p.capacity >= 20000
  }

  function Band(needed: int): Product -> bool {
    p => InBand(needed, p)
  }

  /** A product card, and whether it is marked as ideal. */
  datatype Card = Card(product: Product, isRecommended: bool)

  /** The product shortlist: the first four products in the band, the first
      of them marked as ideal. */
  function Shortlist(products: seq<Product>, needed: int): (r: seq<Card>)
    ensures |r| <= 4
    ensures forall i :: 0 <= i < |r| ==> InBand(needed, r[i].product) && r[i].product in products
    ensures forall i :: 0 <= i < |r| ==> (r[i].isRecommended <==> i == 0)
  {
    var shown := Take(Filter(products, Band(needed)), 4);
    seq(|shown|, i requires 0 <= i < |shown| => Card(shown[i], i == 0))
  }

  // -------------------------------------------------------- custom devices

  /** The form for a custom device. */
  datatype Form = Form(name: string, batteryMah: real, chargesPerDay: real)

  const EmptyForm: Form := Form("", 3000.0, 1.0)

  /** The part of the calculator's state custom devices touch. */
  datatype State = State(custom: seq<Device>, selected: Selection, form: Form)

  /** The id a custom device gets from the time stamp. */
  function CustomId(stamp: string): string {
    "custom-" + stamp
  }

  /** The device the form describes. */
  function FormDevice(f: Form, stamp: string): Device {
    Device(CustomId(stamp), f.name, f.batteryMah, f.chargesPerDay, Other)
  }

  /** `addCustomDevice`: a blank name changes nothing; otherwise the form's
      device is appended, selected once, and the form is reset. */
  function AddCustomDevice(s: State, stamp: string): (r: State)
    ensures IsBlank(s.form.name) ==> r == s
    ensures !IsBlank(s.form.name) ==>
              && r.custom == s.custom + [FormDevice(s.form, stamp)]
              && CountOf(r.selected, CustomId(stamp)) == 1
              && r.form == EmptyForm
    ensures forall k :: k in s.selected && k != CustomId(stamp) ==> k in r.selected && r.selected[k] == s.selected[k]
  {
    if IsBlank(s.form.name) then s
    else
      var id := CustomId(stamp);
      State(s.custom + [FormDevice(s.form, stamp)], s.selected[id := 1], EmptyForm)
  }

  /** The ids of the counted entries. */
  function ActiveIds(sel: Selection): set<string> {
    set k | k in sel && sel[k] > 0
  }

  /** `activeDeviceCount`: how many entries of the selection are positive. */
  function ActiveDeviceCount(sel: Selection): (r: nat)
    ensures r <= |sel.Keys|
    ensures r == 0 <==> forall k :: k in sel ==> sel[k] <= 0
  {
    SubsetCard(ActiveIds(sel), sel.Keys);
    NoActiveIff(sel);
    |ActiveIds(sel)|
  }

  lemma NoActiveIff(sel: Selection)
    ensures ActiveIds(sel) == {} <==> forall k :: k in sel ==> sel[k] <= 0
  {
    if ActiveIds(sel) != {} {
      var k :| k in ActiveIds(sel);
      assert k in sel && sel[k] > 0;
    } else {
      forall k | k in sel
        ensures sel[k] <= 0
      {
        assert k !in ActiveIds(sel);
      }
    }
  }

  /** A subset is no larger than the set. */
  lemma {:induction false} SubsetCard(a: set<string>, b: set<string>)
    requires a <= b
    ensures |a| <= |b|
    decreases |a|
  {
    if a != {} {
      var x :| x in a;
      SubsetCard(a - {x}, b - {x});
    }
  }

  // ---------------------------------------------------------------- lemmas

  /** Device changes keep every stored count non-negative. */
  lemma ChangeKeepsNonNegative(sel: Selection, id: string, count: int)
    requires NonNegative(sel)
    ensures NonNegative(HandleDeviceChange(sel, id, count))
  {
  }

  /** Plus then minus gives the count back, for any count the handler can
      have stored; minus at zero stays at zero. */
  lemma PlusThenMinus(sel: Selection, id: string)
    requires NonNegative(sel)
    ensures var c := CountOf(sel, id);
            var s1 := HandleDeviceChange(sel, id, Plus(c));
            CountOf(HandleDeviceChange(s1, id, Minus(CountOf(s1, id))), id) == c
    ensures MinusDisabled(CountOf(sel, id)) ==> Minus(CountOf(sel, id)) == CountOf(sel, id)
  {
  }

  /** Changing a count moves its id into or out of the active set and
      leaves the rest. */
  lemma ActiveIdsAfterChange(sel: Selection, id: string, count: int)
    ensures ActiveIds(HandleDeviceChange(sel, id, count)) == (ActiveIds(sel) - {id}) + (if count > 0 then {id} else {})
  {
    var s1 := HandleDeviceChange(sel, id, count);
    forall k | k in ActiveIds(s1)
      ensures k in (ActiveIds(sel) - {id}) + (if count > 0 then {id} else {})
    {
      assert k in s1 && s1[k] > 0;
    }
  }

  /** So the active count drops by one when a counted device goes to zero,
      rises by one when an uncounted one is counted, and stays otherwise. */
  lemma ActiveAfterChange(sel: Selection, id: string, count: int)
    ensures ActiveDeviceCount(HandleDeviceChange(sel, id, count))
            == ActiveDeviceCount(sel) - (if id in ActiveIds(sel) then 1 else 0) + (if count > 0 then 1 else 0)
  {
    var a := ActiveIds(sel);
    var b := ActiveIds(HandleDeviceChange(sel, id, count));
    ActiveIdsAfterChange(sel, id, count);
    if count > 0 {
      if id in a {
        assert b == a;
      } else {
        assert b == a + {id};
      }
    } else {
      if id in a {
        assert b == a - {id};
      } else {
        assert b == a;
      }
    }
  }

  /** Adding a custom device under a new id counts one more active device;
      under an id already counted, the count is unchanged. */
  lemma AddCustomDeviceCounts(s: State, stamp: string)
    requires !IsBlank(s.form.name)
    ensures ActiveDeviceCount(AddCustomDevice(s, stamp).selected)
            == ActiveDeviceCount(s.selected) + (if CustomId(stamp) in ActiveIds(s.selected) then 0 else 1)
  {
    ActiveAfterChange(s.selected, CustomId(stamp), 1);
    assert AddCustomDevice(s, stamp).selected == HandleDeviceChange(s.selected, CustomId(stamp), 1);
  }

  /** The breakdown of a sequence with one more device at the end. */
  lemma EntriesSnoc(ds: seq<Device>, d: Device, sel: Selection, days: int)
    ensures Entries(ds + [d], sel, days) == Entries(ds, sel, days) + (if IsActive(sel, d) then [EntryOf(d, sel, days)] else [])
  {
    assert (ds + [d])[..|ds|] == ds;
  }

  /** A device is in the breakdown exactly when it is counted, with its
      count and its mAh. */
  lemma {:induction false} EntriesMembership(ds: seq<Device>, sel: Selection, days: int)
    ensures forall i :: 0 <= i < |ds| && IsActive(sel, ds[i]) ==> EntryOf(ds[i], sel, days) in Entries(ds, sel, days)
    ensures forall e :: e in Entries(ds, sel, days) ==>
              exists i :: 0 <= i < |ds| && IsActive(sel, ds[i]) && e == EntryOf(ds[i], sel, days)
  {
    if ds != [] {
      var pre := ds[..|ds| - 1];
      var d := ds[|ds| - 1];
      EntriesMembership(pre, sel, days);
      assert forall i :: 0 <= i < |pre| ==> pre[i] == ds[i];
    }
  }

  /** The breakdown only looks at the counts of the devices in it. */
  lemma {:induction false} EntriesFrame(ds: seq<Device>, sel: Selection, id: string, v: int, days: int)
    requires forall i :: 0 <= i < |ds| ==> ds[i].id != id
    ensures Entries(ds, sel[id := v], days) == Entries(ds, sel, days)
  {
    if ds != [] {
      var pre := ds[..|ds| - 1];
      EntriesFrame(pre, sel, id, v, days);
    }
  }

  /** A custom device added under a new id shows up last in the breakdown,
      once, and nothing before it changes. */
  lemma AddCustomDeviceAppendsEntry(defaults: seq<Device>, s: State, stamp: string, days: int)
    requires !IsBlank(s.form.name)
    requires forall i :: 0 <= i < |defaults + s.custom| ==> (defaults + s.custom)[i].id != CustomId(stamp)
    ensures var r := AddCustomDevice(s, stamp);
            Entries(defaults + r.custom, r.selected, days)
            == Entries(defaults + s.custom, s.selected, days)
               + [Entry(s.form.name, 1, Power(FormDevice(s.form, stamp), 1, days), Other)]
  {
    var r := AddCustomDevice(s, stamp);
    var d := FormDevice(s.form, stamp);
    assert defaults + r.custom == (defaults + s.custom) + [d];
    EntriesSnoc(defaults + s.custom, d, r.selected, days);
    EntriesFrame(defaults + s.custom, s.selected, CustomId(stamp), 1, days);
  }

  /** One more entry adds its mAh. */
  lemma SumMahSnoc(es: seq<Entry>, e: Entry)
    ensures SumMah(es + [e]) == SumMah(es) + e.totalMah
  {
    assert (es + [e])[..|es|] == es;
  }

  /** The breakdown adds up over a split of the devices. */
  lemma {:induction false} SumMahAppend(a: seq<Entry>, b: seq<Entry>)
    ensures SumMah(a + b) == SumMah(a) + SumMah(b)
    decreases |b|
  {
    if b != [] {
      var b' := b[..|b| - 1];
      assert (a + b)[..|a + b| - 1] == a + b';
      assert (a + b)[|a + b| - 1] == b[|b| - 1];
      SumMahAppend(a, b');
    } else {
      assert a + b == a;
    }
  }

  /** With non-negative batteries, charges and days, every entry and the raw
      total are non-negative. */
  lemma {:induction false} SumMahNonNegative(ds: seq<Device>, sel: Selection, days: int)
    requires days >= 0
    requires forall i :: 0 <= i < |ds| ==> ds[i].batteryMah >= 0.0 && ds[i].chargesPerDay >= 0.0
    ensures SumMah(Entries(ds, sel, days)) >= 0.0
  {
    if ds != [] {
      var pre := ds[..|ds| - 1];
      var d := ds[|ds| - 1];
      SumMahNonNegative(pre, sel, days);
      EntriesSnoc(pre, d, sel, days);
      assert ds == pre + [d];
      if IsActive(sel, d) {
        PowerNonNegative(d, CountOf(sel, d.id), days);
        SumMahAppend(Entries(pre, sel, days), [EntryOf(d, sel, days)]);
      }
    }
  }

  lemma PowerNonNegative(d: Device, count: int, days: int)
    requires d.batteryMah >= 0.0 && d.chargesPerDay >= 0.0 && days >= 0 && count >= 0
    ensures Power(d, count, days) >= 0.0
  {
    MulNonNegative(d.batteryMah, d.chargesPerDay);
    MulNonNegative(d.batteryMah * d.chargesPerDay, days as real);
    MulNonNegative(d.batteryMah * d.chargesPerDay * days as real, count as real);
  }

  /** The 10K recommendation needs twice the 20K count, or one fewer. */
  lemma CompactIsAboutDouble(total: int)
    ensures 2 * Simple(total).count - 1 <= Compact(total).count <= 2 * Simple(total).count
  {
    var s := Simple(total).count;
    var c := Compact(total).count;
    assert (2 * s) * 10000 == s * 20000;
    assert (2 * s - 2) * 10000 == (s - 1) * 20000;
  }

  /** With a margin of at least 1, the 20K banks hold what the devices draw,
      after the charging loss. */
  lemma RecommendationCoversDevices(ds: seq<Device>, sel: Selection, days: int, margin: real, r: Calculation)
    requires r.totalRawMah >= 0.0 && margin >= 1.0
    requires r.totalRawMah / EfficiencyFactor <= r.totalNeededMah as real
    requires r.totalNeededMah as real * margin <= r.totalWithMargin as real
    requires r.simple == Simple(r.totalWithMargin) && r.compact == Compact(r.totalWithMargin)
    ensures (r.simple.count * 20000) as real >= r.totalRawMah / EfficiencyFactor
    ensures (r.compact.count * 10000) as real >= r.totalRawMah / EfficiencyFactor
  {
    var n := r.totalNeededMah as real;
    assert n >= 0.0;
    MulNonNegative(n, margin - 1.0);
    assert n * margin >= n;
  }

  /** The product bands: a 10K product is shown up to 20000 mAh, a 20K one
      from 10001 mAh on, and every need has exactly one band. */
  lemma BandBoundaries(needed: int, p: Product)
    ensures p.capacity == 10000 ==> (InBand(needed, p) <==> needed <= 20000)
    ensures p.capacity == 20000 ==> (InBand(needed, p) <==> needed > 10000)
    ensures p.capacity < 10000 ==> (InBand(needed, p) <==> needed <= 10000)
    ensures p.capacity > 20000 ==> (InBand(needed, p) <==> needed > 20000)
  {
  }

  /** The shortlist is the first four products in the band, in the given
      order; when the band has at most four, all of them are shown. */
  lemma ShortlistIsPrefix(products: seq<Product>, needed: int)
    ensures var r := Shortlist(products, needed);
            var band := Filter(products, Band(needed));
            |r| == (if |band| <= 4 then |band| else 4)
            && forall i :: 0 <= i < |r| ==> r[i].product == band[i]
    ensures |Filter(products, Band(needed))| <= 4 ==>
              forall p :: p in products && InBand(needed, p) ==> exists i :: 0 <= i < |Shortlist(products, needed)| && Shortlist(products, needed)[i].product == p
  {
    var band := Filter(products, Band(needed));
    var r := Shortlist(products, needed);
    if |band| <= 4 {
      forall p | p in products && InBand(needed, p)
        ensures exists i :: 0 <= i < |r| && r[i].product == p
      {
        assert Band(needed)(p);
        var i :| 0 <= i < |band| && band[i] == p;
        assert r[i].product == p;
      }
    }
  }

  /** The calculator opens with four devices counted. */
  lemma InitialActiveCount()
    ensures ActiveDeviceCount(DefaultSelection) == 4
  {
    assert ActiveIds(DefaultSelection) == {"smartphone", "headlamp", "lantern", "radio"};
  }
}
