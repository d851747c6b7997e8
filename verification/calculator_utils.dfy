/**
 * `CalculatorUtils`: the helpers the water and power calculators share —
 * the locale's number format tag, `Math.ceil`, the storage recommendation
 * and the water-needs formula.
 *
 * Numbers are reals: the model has no floating-point rounding, so 0.3 (the
 * cat's litres per day) is exact here.
 */
module CalculatorUtils {
  import I18n

  /** `getLocaleDateFormat`: the BCP 47 tag used to format numbers. */
  function LocaleDateFormat(locale: string): (r: string)
    ensures locale != "nl" && locale != "de" ==> r == "es-ES"
  {
    if locale == "nl" then "nl-NL" else if locale == "de" then "de-DE" else "es-ES"
  }

  /** `Math.ceil`: the least integer not below `x`. */
  function Ceil(x: real): (r: int)
    ensures x <= r as real < x + 1.0
  {
    var f := x.Floor;
    if f as real == x then f else f + 1
  }

  /** `Math.ceil(a / b)` for integers and a positive divisor. */
  function CeilDiv(a: int, b: int): (r: int)
    requires b > 0
    ensures r * b >= a && (r - 1) * b < a
  {
    (a + b - 1) / b
  }

  /** The two units `getStorageRecommendation` distinguishes. */
  datatype Unit = Liters | WattHours

  /** A recommendation: the size label and how many to get. */
  datatype StorageRec = StorageRec(size: string, containers: int)

  /** The capacity a size label stands for, in the unit's own numbers. */
  function Capacity(size: string): real {
    if size == "10L" then 10.0
    else if size == "20L" then 20.0
    else if size == "10,000mAh" then 10000.0
    else if size == "20,000mAh" then 20000.0
    else if size == "50,000mAh" then 50000.0
    else 0.0
  }

  /** `getStorageRecommendation`: small needs get a fixed pack; larger ones
      as many of the largest size as it takes. */
  function GetStorageRecommendation(totalNeeded: real, unit: Unit): (r: StorageRec)
    ensures r.containers >= 1
    ensures Capacity(r.size) * r.containers as real >= totalNeeded
    ensures unit == Liters ==> r.size == "10L" || r.size == "20L"
    ensures unit == WattHours ==> r.size == "10,000mAh" || r.size == "20,000mAh" || r.size == "50,000mAh"
    // Small needs get a fixed pack.
    ensures unit == Liters && totalNeeded <= 20.0 ==> r == StorageRec("10L", 2)
    ensures unit == Liters && 20.0 < totalNeeded <= 40.0 ==> r == StorageRec("20L", 2)
    ensures unit == WattHours && totalNeeded <= 10000.0 ==> r == StorageRec("10,000mAh", 1)
    ensures unit == WattHours && 10000.0 < totalNeeded <= 20000.0 ==> r == StorageRec("20,000mAh", 1)
    ensures unit == WattHours && 20000.0 < totalNeeded <= 50000.0 ==> r == StorageRec("50,000mAh", 1)
    // Larger needs take the largest size.
    ensures unit == Liters && totalNeeded > 40.0 ==> r.size == "20L"
    ensures unit == WattHours && totalNeeded > 50000.0 ==> r.size == "50,000mAh"
  {
    if unit == Liters then
      if totalNeeded <= 20.0 then StorageRec("10L", 2)
      else if totalNeeded <= 40.0 then StorageRec("20L", 2)
      else StorageRec("20L", Ceil(totalNeeded / 20.0))
    else
      if totalNeeded <= 10000.0 then StorageRec("10,000mAh", 1)
      else if totalNeeded <= 20000.0 then StorageRec("20,000mAh", 1)
      else if totalNeeded <= 50000.0 then StorageRec("50,000mAh", 1)
      else StorageRec("50,000mAh", Ceil(totalNeeded / 50000.0))
  }

  const AdultLitersPerDay: real := 3.0
  const ChildLitersPerDay: real := 2.0
  const BabyLitersPerDay: real := 1.5
  const DogLitersPerDay: real := 1.0
  const CatLitersPerDay: real := 0.3

  /** The input of `calculateWaterNeeds`. */
  datatype Household = Household(adults: int, children: int, babies: int, dogs: int, cats: int, days: int)

  /** Litres per day: each member's daily amount times their count. */
  function PerDay(h: Household): real {
    h.adults as real * AdultLitersPerDay + h.children as real * ChildLitersPerDay
    + h.babies as real * BabyLitersPerDay + h.dogs as real * DogLitersPerDay
    + h.cats as real * CatLitersPerDay
  }

  /** `calculateWaterNeeds`: (total, perDay). */
  function WaterNeeds(h: Household): (r: (real, real))
    ensures r.1 == PerDay(h)
    ensures r.0 == r.1 * h.days as real
    ensures h.days >= 0 && PerDay(h) >= 0.0 ==> r.0 >= 0.0
  {
    (PerDay(h) * h.days as real, PerDay(h))
  }

  /** Counts added member by member, over the first household's days. */
  function Join(a: Household, b: Household): Household {
    Household(a.adults + b.adults, a.children + b.children, a.babies + b.babies,
              a.dogs + b.dogs, a.cats + b.cats, a.days)
  }

  /** Every count at most the other's, over the same days. */
  predicate FewerOrEqual(a: Household, b: Household) {
    a.adults <= b.adults && a.children <= b.children && a.babies <= b.babies
    && a.dogs <= b.dogs && a.cats <= b.cats && a.days == b.days
  }

  // ---------------------------------------------------------------- lemmas

  /** A product of non-negative reals is non-negative. */
  lemma MulNonNegative(a: real, b: real)
    requires a >= 0.0 && b >= 0.0
    ensures a * b >= 0.0
  {
  }

  /** The number format tag is the locale's hreflang tag. */
  lemma DateFormatIsHreflang(locale: string)
    requires I18n.IsValidLocale(locale)
    ensures LocaleDateFormat(locale) == I18n.LocaleConfig(locale).hreflang
  {
  }

  /** Integer ceiling division is `Math.ceil` of the quotient. */
  lemma CeilDivIsCeil(a: int, b: int)
    requires b > 0
    ensures CeilDiv(a, b) == Ceil(a as real / b as real)
  {
    var r := CeilDiv(a, b);
    var q := a as real / b as real;
    assert (r * b) as real == r as real * b as real;
    assert ((r - 1) * b) as real == (r - 1) as real * b as real;
    assert r as real >= q;
    assert (r - 1) as real < q;
    CeilUnique(q, r);
  }

  /** An integer within one above `x` is its ceiling. */
  lemma CeilUnique(x: real, n: int)
    requires x <= n as real < x + 1.0
    ensures Ceil(x) == n
  {
  }

  /** The ceiling of a sum is at most the sum of the ceilings. */
  lemma CeilSubadditive(a: real, b: real)
    ensures Ceil(a + b) <= Ceil(a) + Ceil(b)
  {
  }

  /** `Math.ceil` keeps order. */
  lemma CeilMonotone(a: real, b: real)
    requires a <= b
    ensures Ceil(a) <= Ceil(b)
  {
  }

  /** Above the fixed packs, the recommendation is the fewest containers of
      the largest size that hold the need. */
  lemma StorageIsMinimal(totalNeeded: real, unit: Unit)
    requires unit == Liters ==> totalNeeded > 40.0
    requires unit == WattHours ==> totalNeeded > 50000.0
    ensures var r := GetStorageRecommendation(totalNeeded, unit);
            && r.size == (if unit == Liters then "20L" else "50,000mAh")
            && Capacity(r.size) * (r.containers - 1) as real < totalNeeded
  {
    var r := GetStorageRecommendation(totalNeeded, unit);
    var cap := Capacity(r.size);
    var c := r.containers;
    assert (c - 1) as real < totalNeeded / cap;
    assert cap * ((c - 1) as real) < cap * (totalNeeded / cap);
  }

  /** The water needed is additive over households. */
  lemma WaterNeedsAdditive(a: Household, b: Household)
    requires a.days == b.days
    ensures WaterNeeds(Join(a, b)).1 == WaterNeeds(a).1 + WaterNeeds(b).1
    ensures WaterNeeds(Join(a, b)).0 == WaterNeeds(a).0 + WaterNeeds(b).0
  {
  }

  /** More members never need less water per day, nor in total. */
  lemma WaterNeedsMonotone(a: Household, b: Household)
    requires FewerOrEqual(a, b) && a.days >= 0
    ensures WaterNeeds(a).1 <= WaterNeeds(b).1
    ensures WaterNeeds(a).0 <= WaterNeeds(b).0
  {
    var d := Household(b.adults - a.adults, b.children - a.children, b.babies - a.babies,
                       b.dogs - a.dogs, b.cats - a.cats, a.days);
    assert Join(a, d) == b;
    WaterNeedsAdditive(a, d);
    assert PerDay(d) >= 0.0;
  }
}
