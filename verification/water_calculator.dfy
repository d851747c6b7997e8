/**
 * `WaterCalculator`: household steppers, presets, climate and comfort
 * choices, and the litres needed per use, rounded up for display, with the
 * container suggestions drawn from the rounded result.
 *
 * The 400 ms "calculating" delay and the result animation are left out.
 */
module WaterCalculator {
  import opened CalculatorUtils

  datatype Climate = Normal | Hot

  datatype Comfort = Minimal | Standard | Comfortable

  /** The calculator's inputs. */
  datatype Inputs = Inputs(adults: int, children: int, babies: int, days: int, dogs: int, cats: int,
                           climate: Climate, comfort: Comfort)

  /** The initial state: two adults for three days, normal climate,
      standard comfort. */
  const Initial: Inputs := Inputs(2, 0, 0, 3, 0, 0, Normal, Standard)

  /** The `NumberStepper` default bounds and the days slider's range. */
  const StepperMin: int := 0
  const StepperMax: int := 99
  const DaysMin: int := 1
  const DaysMax: int := 14

  /** The minus button: `Math.max(min, value - 1)`. */
  function StepDown(v: int, min: int): (r: int)
    ensures r >= min && r <= (if v - 1 > min then v - 1 else min)
    ensures r >= v - 1 && (r == v - 1 || r == min)
  {
    if v - 1 > min then v - 1 else min
  }

  /** The plus button: `Math.min(max, value + 1)`. */
  function StepUp(v: int, max: int): (r: int)
    ensures r <= max && r >= (if v + 1 < max then v + 1 else max)
    ensures r <= v + 1 && (r == v + 1 || r == max)
  {
    if v + 1 < max then v + 1 else max
  }

  /** Every count within the steppers' bounds and the days within the
      slider's. */
  predicate InBounds(i: Inputs) {
    && StepperMin <= i.adults <= StepperMax && StepperMin <= i.children <= StepperMax
    && StepperMin <= i.babies <= StepperMax && StepperMin <= i.dogs <= StepperMax
    && StepperMin <= i.cats <= StepperMax && DaysMin <= i.days <= DaysMax
  }

  datatype Preset = Solo | Couple | Family | WithPet

  /** A preset button: the household and three days; climate and comfort
      stay as they were. */
  function ApplyPreset(i: Inputs, p: Preset): (r: Inputs)
    ensures r.climate == i.climate && r.comfort == i.comfort
    ensures r.days == 3 && r.babies == 0 && r.cats == 0
    ensures r.adults >= 1
    ensures p == Solo ==> r.adults == 1 && r.children == 0 && r.dogs == 0
    ensures p == Couple ==> r.adults == 2 && r.children == 0 && r.dogs == 0
    ensures p == Family ==> r.adults == 2 && r.children == 2 && r.dogs == 0
    ensures p == WithPet ==> r.adults == 2 && r.children == 0 && r.dogs == 1
  {
    match p
    case Solo => i.(adults := 1, children := 0, babies := 0, dogs := 0, cats := 0, days := 3)
    case Couple => i.(adults := 2, children := 0, babies := 0, dogs := 0, cats := 0, days := 3)
    case Family => i.(adults := 2, children := 2, babies := 0, dogs := 0, cats := 0, days := 3)
    case WithPet => i.(adults := 2, children := 0, babies := 0, dogs := 1, cats := 0, days := 3)
  }

  /** `totalPeople`. */
  function TotalPeople(i: Inputs): int {
    i.adults + i.children + i.babies
  }

  /** The Calculate button is enabled: no calculation is running and, with
      counts in bounds, there is at least one person (pets alone are not
      enough). */
  function CanCalculate(i: Inputs, isCalculating: bool): (r: bool)
    ensures r ==> !isCalculating
    ensures InBounds(i) ==> (r <==> !isCalculating && (i.adults > 0 || i.children > 0 || i.babies > 0))
  {
    !isCalculating && TotalPeople(i) != 0
  }

  function AdultDrinking(c: Climate): real {
    if c == Hot then 3.5 else 2.5
  }

  function ChildDrinking(c: Climate): real {
    if c == Hot then 2.0 else 1.5
  }

  const BabyDrinking: real := 1.0

  /** `comfortMultiplier[comfort]`. */
  function Mult(c: Comfort): real {
    match c
    case Minimal => 0.5
    case Standard => 1.0
    case Comfortable => 1.5
  }

  function Drinking(i: Inputs): real {
    (i.adults as real * AdultDrinking(i.climate) + i.children as real * ChildDrinking(i.climate)
     + i.babies as real * BabyDrinking) * i.days as real
  }

  function Cooking(i: Inputs): real {
    (i.adults + i.children) as real * 0.5 * i.days as real * Mult(i.comfort)
  }

  function Hygiene(i: Inputs): real {
    (i.adults as real * 2.0 + i.children as real * 1.5 + i.babies as real * 1.0) * i.days as real * Mult(i.comfort)
  }

  function Sanitation(i: Inputs): real {
    (i.adults + i.children) as real * 3.0 * i.days as real * Mult(i.comfort)
  }

  function Pets(i: Inputs): real {
    i.dogs as real * (if i.climate == Hot then 1.5 else 1.0) * i.days as real
    + i.cats as real * 0.3 * i.days as real
  }

  function Total(i: Inputs): real {
    Drinking(i) + Cooking(i) + Hygiene(i) + Sanitation(i) + Pets(i)
  }

  /** The displayed result: every figure rounded up. */
  datatype WaterResult = WaterResult(drinking: int, cooking: int, hygiene: int, sanitation: int,
                                     pets: int, total: int, perDay: int)

  /** `calculateWater`. The total is rounded once, so it can be less than
      the sum of the rounded parts but never more. */
  function Calculate(i: Inputs): (r: WaterResult)
    requires i.days >= 1
    ensures Drinking(i) <= r.drinking as real < Drinking(i) + 1.0
    ensures Cooking(i) <= r.cooking as real < Cooking(i) + 1.0
    ensures Hygiene(i) <= r.hygiene as real < Hygiene(i) + 1.0
    ensures Sanitation(i) <= r.sanitation as real < Sanitation(i) + 1.0
    ensures Pets(i) <= r.pets as real < Pets(i) + 1.0
    ensures r.total <= r.drinking + r.cooking + r.hygiene + r.sanitation + r.pets
    ensures Total(i) <= r.total as real < Total(i) + 1.0
    ensures Total(i) / i.days as real <= r.perDay as real < Total(i) / i.days as real + 1.0
  {
    CeilSubadditive(Drinking(i), Cooking(i));
    CeilSubadditive(Drinking(i) + Cooking(i), Hygiene(i));
    CeilSubadditive(Drinking(i) + Cooking(i) + Hygiene(i), Sanitation(i));
    CeilSubadditive(Drinking(i) + Cooking(i) + Hygiene(i) + Sanitation(i), Pets(i));
    WaterResult(Ceil(Drinking(i)), Ceil(Cooking(i)), Ceil(Hygiene(i)), Ceil(Sanitation(i)),
                Ceil(Pets(i)), Ceil(Total(i)), Ceil(Total(i) / i.days as real))
  }

  /** The three storage suggestions: 5 L bottles for drinking water, 20 L
      containers for the rest, or 8 L containers for everything. */
  datatype Suggestions = Suggestions(bottles5: int, containers20: int, containers8: int)

  function Suggest(r: WaterResult): (s: Suggestions)
    ensures 5 * s.bottles5 >= r.drinking && 20 * s.containers20 >= r.total - r.drinking
    ensures 8 * s.containers8 >= r.total
    ensures 5 * (s.bottles5 - 1) < r.drinking && 20 * (s.containers20 - 1) < r.total - r.drinking
    ensures 8 * (s.containers8 - 1) < r.total
  {
    Suggestions(CeilDiv(r.drinking, 5), CeilDiv(r.total - r.drinking, 20), CeilDiv(r.total, 8))
  }

  // ---------------------------------------------------------------- lemmas

  /** A stepped value stays within the bounds, and a button is disabled
      exactly when pressing it would change nothing. */
  lemma StepperStaysInRange(v: int, min: int, max: int)
    requires min <= v <= max
    ensures min <= StepDown(v, min) <= max && min <= StepUp(v, max) <= max
    ensures v <= min <==> StepDown(v, min) == v
    ensures v >= max <==> StepUp(v, max) == v
  {
  }

  /** A preset forgets the household it replaces, so the last preset pressed
      decides it; the solo, couple, family and pet presets count 1, 2, 4 and
      2 people, and only the pet preset a dog. */
  lemma PresetOverridesHousehold(i: Inputs, j: Inputs, p: Preset, q: Preset)
    requires i.climate == j.climate && i.comfort == j.comfort
    ensures ApplyPreset(i, p) == ApplyPreset(j, p)
    ensures ApplyPreset(ApplyPreset(i, q), p) == ApplyPreset(i, p)
    ensures TotalPeople(ApplyPreset(i, p)) == (match p case Solo => 1 case Couple => 2 case Family => 4 case WithPet => 2)
    ensures ApplyPreset(i, p).dogs == (if p == WithPet then 1 else 0)
  {
  }

  /** Stepping up then down (away from the top) returns the value. */
  lemma StepUpThenDown(v: int, min: int, max: int)
    requires min <= v < max
    ensures StepDown(StepUp(v, max), min) == v
  {
  }

  /** Every preset keeps the inputs within bounds and enables Calculate. */
  lemma PresetsEnableCalculate(i: Inputs, p: Preset)
    requires InBounds(i)
    ensures InBounds(ApplyPreset(i, p))
    ensures CanCalculate(ApplyPreset(i, p), false)
  {
  }

  /** Comfort scales cooking, hygiene and sanitation by 0.5, 1 or 1.5 of
      the standard amount and changes neither drinking nor pet water. */
  lemma ComfortEffects(i: Inputs, c: Comfort)
    ensures Drinking(i.(comfort := c)) == Drinking(i) && Pets(i.(comfort := c)) == Pets(i)
    ensures Cooking(i.(comfort := c)) == Mult(c) * Cooking(i.(comfort := Standard))
    ensures Hygiene(i.(comfort := c)) == Mult(c) * Hygiene(i.(comfort := Standard))
    ensures Sanitation(i.(comfort := c)) == Mult(c) * Sanitation(i.(comfort := Standard))
  {
  }

  /** A hot climate adds a litre per adult, half a litre per child and half
      a litre per dog each day; babies and cats need the same. */
  lemma ClimateEffects(i: Inputs)
    ensures Drinking(i.(climate := Hot)) - Drinking(i.(climate := Normal))
            == (i.adults as real * 1.0 + i.children as real * 0.5) * i.days as real
    ensures Pets(i.(climate := Hot)) - Pets(i.(climate := Normal)) == i.dogs as real * 0.5 * i.days as real
    ensures Cooking(i.(climate := Hot)) == Cooking(i.(climate := Normal))
    ensures Hygiene(i.(climate := Hot)) == Hygiene(i.(climate := Normal))
  {
  }

  /** For a household within bounds, a hot climate never needs less. */
  lemma HotNeedsMore(i: Inputs)
    requires InBounds(i)
    ensures Calculate(i.(climate := Normal)).total <= Calculate(i.(climate := Hot)).total
  {
    ClimateEffects(i);
    var n := i.(climate := Normal);
    var h := i.(climate := Hot);
    MulNonNegative(i.adults as real * 1.0 + i.children as real * 0.5, i.days as real);
    MulNonNegative(i.dogs as real * 0.5, i.days as real);
    assert Sanitation(h) == Sanitation(n);
    CeilMonotone(Total(n), Total(h));
  }

  /** Within bounds, no use needs a negative amount. */
  lemma PartsNonNegative(i: Inputs)
    requires InBounds(i)
    ensures Drinking(i) >= 0.0 && Cooking(i) >= 0.0 && Hygiene(i) >= 0.0
    ensures Sanitation(i) >= 0.0 && Pets(i) >= 0.0
  {
    DrinkingNonNegative(i);
    ComfortPartsNonNegative(i);
    PetsNonNegative(i);
  }

  lemma DrinkingNonNegative(i: Inputs)
    requires InBounds(i)
    ensures Drinking(i) >= 0.0
  {
    var drink := i.adults as real * AdultDrinking(i.climate) + i.children as real * ChildDrinking(i.climate)
                 + i.babies as real * BabyDrinking;
    MulNonNegative(drink, i.days as real);
  }

  lemma ComfortPartsNonNegative(i: Inputs)
    requires InBounds(i)
    ensures Cooking(i) >= 0.0 && Hygiene(i) >= 0.0 && Sanitation(i) >= 0.0
  {
    var d := i.days as real;
    var m := Mult(i.comfort);
    var people := (i.adults + i.children) as real;
    var washing := i.adults as real * 2.0 + i.children as real * 1.5 + i.babies as real * 1.0;
    MulNonNegative(people * 0.5, d);
    MulNonNegative(people * 0.5 * d, m);
    MulNonNegative(washing, d);
    MulNonNegative(washing * d, m);
    MulNonNegative(people * 3.0, d);
    MulNonNegative(people * 3.0 * d, m);
  }

  lemma PetsNonNegative(i: Inputs)
    requires InBounds(i)
    ensures Pets(i) >= 0.0
  {
    MulNonNegative(i.dogs as real * (if i.climate == Hot then 1.5 else 1.0), i.days as real);
    MulNonNegative(i.cats as real * 0.3, i.days as real);
  }

  /** For a household within bounds, the drinking water is part of the
      total, so the general-use suggestion is never negative, and the
      bottles plus the general containers hold the whole rounded total. */
  lemma SuggestionsCover(i: Inputs)
    requires InBounds(i)
    ensures var r := Calculate(i);
            var s := Suggest(r);
            && r.drinking <= r.total
            && s.containers20 >= 0
            && 5 * s.bottles5 + 20 * s.containers20 >= r.total
  {
    PartsNonNegative(i);
    CeilMonotone(Drinking(i), Total(i));
  }

  /** The initial household: two adults for three days need 15 L to drink
      and 48 L in all at standard comfort, 16 L a day. */
  lemma InitialResult()
    ensures Drinking(Initial) == 15.0
    ensures Calculate(Initial).total == 48 && Calculate(Initial).perDay == 16
  {
    assert Total(Initial) == 15.0 + 3.0 + 12.0 + 18.0 + 0.0;
    CeilUnique(Total(Initial), 48);
    CeilUnique(Total(Initial) / 3.0, 16);
  }
}
