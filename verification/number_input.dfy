/**
 * `NumberInput`: a number field between minus and plus buttons. Every value
 * it emits is clamped to [min, max]. The text field shows what was typed
 * until the `value` prop changes: the parent taking an emitted value that
 * differs from the current one rewrites the text as `String(value)` at once,
 * so typing "50" with max 10 shows "10" before the field loses focus.
 *
 * Numbers are reals, so floating-point rounding of `value ± step` is not
 * modelled. `parseFloat` is a parameter returning `None` for NaN, and
 * `String(number)` is a parameter too.
 */
module NumberInput {
  import opened Wrappers

  /** The props; `max` is `None` for the default `Infinity`. */
  datatype Props = Props(value: real, min: real, max: Option<real>, step: real)

  /** The defaults `min = 0`, `max = Infinity`, `step = 1`. */
  function Defaults(value: real): Props {
    Props(value, 0.0, None, 1.0)
  }

  /** The interval is not empty. */
  predicate Ordered(min: real, max: Option<real>) {
    max.None? || min <= max.value
  }

  predicate InRange(v: real, min: real, max: Option<real>) {
    min <= v && (max.None? || v <= max.value)
  }

  /** `Math.min(Math.max(val, min), max)`. */
  function Clamp(v: real, min: real, max: Option<real>): (r: real)
    ensures Ordered(min, max) ==> InRange(r, min, max)
    ensures InRange(v, min, max) ==> r == v
    ensures r == v || r == min || (max.Some? && r == max.value)
    ensures max.Some? && min > max.value ==> r == max.value
  {
    var low := if v > min then v else min;
    if max.Some? && max.value < low then max.value else low
  }

  /** `increment`: the clamped value one step up. */
  function Increment(p: Props): (r: real)
    ensures Ordered(p.min, p.max) ==> InRange(r, p.min, p.max)
    ensures InRange(p.value + p.step, p.min, p.max) ==> r == p.value + p.step
    ensures p.max.Some? && p.value + p.step > p.max.value && p.min <= p.max.value ==> r == p.max.value
  {
    Clamp(p.value + p.step, p.min, p.max)
  }

  /** `decrement`: the clamped value one step down. */
  function Decrement(p: Props): (r: real)
    ensures Ordered(p.min, p.max) ==> InRange(r, p.min, p.max)
    ensures InRange(p.value - p.step, p.min, p.max) ==> r == p.value - p.step
    ensures p.value - p.step < p.min && Ordered(p.min, p.max) ==> r == p.min
  {
    Clamp(p.value - p.step, p.min, p.max)
  }

  /** `canIncrement`: the plus button is enabled; with sane props and a
      positive step, exactly when a step up would change the value. */
  function CanIncrement(p: Props): (r: bool)
    ensures Sane(p) && p.step > 0.0 ==> (r <==> Increment(p) != p.value)
    ensures p.max.None? ==> r
  {
    p.max.None? || p.value < p.max.value
  }

  /** `canDecrement`: the minus button is enabled; with sane props and a
      positive step, exactly when a step down would change the value. */
  function CanDecrement(p: Props): (r: bool)
    ensures Sane(p) && p.step > 0.0 ==> (r <==> Decrement(p) != p.value)
    ensures r ==> p.value != p.min
  {
    p.value > p.min
  }

  /** `handleInputChange`: the text is kept as typed; a number in it is
      emitted clamped. Returns the new text and the value emitted. */
  function InputChange(p: Props, typed: string, parse: string -> Option<real>): (r: (string, Option<real>))
    ensures r.0 == typed
    ensures r.1.Some? <==> parse(typed).Some?
    ensures r.1.Some? ==> InRange(r.1.value, p.min, p.max) || !Ordered(p.min, p.max)
    ensures r.1.Some? ==> r.1.value == Clamp(parse(typed).value, p.min, p.max)
  {
    match parse(typed)
    case None => (typed, None)
    case Some(x) => (typed, Some(Clamp(x, p.min, p.max)))
  }

  /** `handleBlur`: text that is no number falls back to the value; a
      number is shown clamped, and emitted only when it differs from the
      value. */
  function Blur(p: Props, text: string, parse: string -> Option<real>, show: real -> string): (r: (string, Option<real>))
    ensures parse(text).None? ==> r == (show(p.value), None)
    ensures r.1.Some? ==> r.1.value != p.value && r.0 == show(r.1.value)
    ensures parse(text).Some? ==> r.0 == show(Clamp(parse(text).value, p.min, p.max))
    ensures parse(text).Some? ==> (r.1.Some? <==> Clamp(parse(text).value, p.min, p.max) != p.value)
    ensures r.1.Some? ==> r.1.value == Clamp(parse(text).value, p.min, p.max)
  {
    match parse(text)
    case None => (show(p.value), None)
    case Some(x) =>
      var c := Clamp(x, p.min, p.max);
      (show(c), if c != p.value then Some(c) else None)
  }

  /** `handleKeyDown`: the arrow keys step the value; other keys do
      nothing. */
  function KeyDown(p: Props, key: string): (r: Option<real>)
    ensures key == "ArrowUp" ==> r == Some(Increment(p))
    ensures key == "ArrowDown" ==> r == Some(Decrement(p))
    ensures key != "ArrowUp" && key != "ArrowDown" ==> r.None?
  {
    if key == "ArrowUp" then Some(Increment(p))
    else if key == "ArrowDown" then Some(Decrement(p))
    else None
  }

  /** The parent sets `value` to `v`, and the effect on `value` runs: a
      value different from the current one rewrites the text as
      `String(v)`; the same value leaves the text as it is. */
  function Sync(p: Props, text: string, v: real, show: real -> string): (r: (Props, string))
    ensures r.0.value == v && r.0.min == p.min && r.0.max == p.max && r.0.step == p.step
    ensures v != p.value ==> r.1 == show(v)
    ensures v == p.value ==> r.1 == text
  {
    (p.(value := v), if v != p.value then show(v) else text)
  }

  /** Props the parent keeps consistent: a non-empty interval holding the
      value, and a non-negative step. */
  predicate Sane(p: Props) {
    Ordered(p.min, p.max) && InRange(p.value, p.min, p.max) && p.step >= 0.0
  }

  // ---------------------------------------------------------------- lemmas

  /** Clamping twice is clamping once. */
  lemma ClampIdempotent(v: real, min: real, max: Option<real>)
    ensures Clamp(Clamp(v, min, max), min, max) == Clamp(v, min, max)
  {
  }

  /** Clamping keeps order. */
  lemma ClampMonotone(v: real, w: real, min: real, max: Option<real>)
    requires v <= w
    ensures Clamp(v, min, max) <= Clamp(w, min, max)
  {
  }

  /** With sane props, a step up never lowers the value and a step down
      never raises it; both stay in range. */
  lemma StepsStayInRange(p: Props)
    requires Sane(p)
    ensures p.value <= Increment(p) && InRange(Increment(p), p.min, p.max)
    ensures Decrement(p) <= p.value && InRange(Decrement(p), p.min, p.max)
  {
  }

  /** With sane props and a positive step, the plus button is enabled
      exactly when a step up would change the value, and the minus button
      exactly when a step down would. */
  lemma ButtonsEnabledIff(p: Props)
    requires Sane(p) && p.step > 0.0
    ensures CanIncrement(p) <==> Increment(p) != p.value
    ensures CanDecrement(p) <==> Decrement(p) != p.value
  {
  }

  /** With the defaults the plus button is always enabled, and the minus
      button exactly when the value is positive. */
  lemma DefaultButtons(value: real)
    ensures CanIncrement(Defaults(value))
    ensures CanDecrement(Defaults(value)) <==> value > 0.0
    ensures value >= 0.0 ==> Increment(Defaults(value)) == value + 1.0
  {
  }

  /** Once the parent takes the emitted value, a second blur shows the same
      text and emits nothing (for text that is no number, provided the value
      was in range). */
  lemma BlurSettles(p: Props, text: string, parse: string -> Option<real>, show: real -> string)
    requires forall x :: parse(show(x)) == Some(x)
    requires parse(text).None? ==> InRange(p.value, p.min, p.max)
    ensures var (t1, e) := Blur(p, text, parse, show);
            var p1 := if e.Some? then p.(value := e.value) else p;
            Blur(p1, t1, parse, show) == (t1, None)
  {
    var (t1, e) := Blur(p, text, parse, show);
    var p1 := if e.Some? then p.(value := e.value) else p;
    if parse(text).Some? {
      var c := Clamp(parse(text).value, p.min, p.max);
      assert parse(t1) == Some(c);
      ClampIdempotent(parse(text).value, p.min, p.max);
    } else {
      assert parse(t1) == Some(p.value);
    }
  }

  /** Typing a number whose clamp differs from the value replaces the text
      with the clamped value as soon as the parent takes it; a number whose
      clamp is the current value leaves the typed text in the field. */
  lemma TypeThenSync(p: Props, typed: string, parse: string -> Option<real>, show: real -> string)
    requires parse(typed).Some?
    ensures var (t1, e) := InputChange(p, typed, parse);
            var (p2, t2) := Sync(p, t1, e.value, show);
            && p2.value == Clamp(parse(typed).value, p.min, p.max)
            && t2 == (if p2.value != p.value then show(p2.value) else typed)
  {
  }

  /** Value 5 and max 10: typing "50" emits 10 and the field shows "10"
      before any blur. */
  lemma TypeFiftyShowsTen(parse: string -> Option<real>, show: real -> string)
    requires parse("50") == Some(50.0) && show(10.0) == "10"
    ensures var p := Props(5.0, 0.0, Some(10.0), 1.0);
            var (t1, e) := InputChange(p, "50", parse);
            e == Some(10.0) && Sync(p, t1, e.value, show).1 == "10"
  {
  }

  /** Typing a number, the parent taking it, then leaving the field: the
      field shows the emitted value and the blur emits nothing more. */
  lemma TypeThenBlur(p: Props, typed: string, parse: string -> Option<real>, show: real -> string)
    requires parse(typed).Some?
    requires forall x :: parse(show(x)) == Some(x)
    ensures var (t1, e) := InputChange(p, typed, parse);
            var (p2, t2) := Sync(p, t1, e.value, show);
            Blur(p2, t2, parse, show) == (show(e.value), None)
  {
    var (t1, e) := InputChange(p, typed, parse);
    var (p2, t2) := Sync(p, t1, e.value, show);
    ClampIdempotent(parse(typed).value, p.min, p.max);
    if e.value != p.value {
      assert parse(t2) == Some(e.value);
    }
  }

  /** An empty interval clamps everything to `max`, so with min above max
      a step down emits `max` and may raise the value. */
  lemma EmptyIntervalClampsToMax(p: Props)
    requires p.max.Some? && p.min > p.max.value
    ensures Increment(p) == p.max.value && Decrement(p) == p.max.value
  {
  }
}
