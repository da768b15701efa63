/**
  The plus and minus buttons of a number control: one step up or down
  from the current state, rounded to the step's decimals, clamped to the
  entity's limits, and sent with the service its domain understands.
 */
module NumberControl {
  import opened Common
  import opened HassService

  datatype Direction = Increase | Decrease

  function Sign(d: Direction): real
  {
    if d == Increase then 1.0 else -1.0
  }

  function Pow10(p: nat): (r: real)
    ensures r >= 1.0
  {
    if p == 0 then 1.0 else 10.0 * Pow10(p - 1)
  }

  function DecimalValue(d: Decimal): real
  {
    (d.units as real) / Pow10(d.places)
  }

  /** `stateObj.attributes.step || 1`: a missing or zero step is 1. */
  function StepOf(a: Attributes): (s: Decimal)
    ensures DecimalValue(s) != 0.0
  {
    if a.step.Some? && a.step.value.units != 0 then
      var s := a.step.value;
      assert DecimalValue(s) * Pow10(s.places) == s.units as real;
      s
    else Decimal(1, 0)
  }

  /**
    `step.toString().split('.')[1]?.length || 0`: the digits after the point
    as the number prints, trailing zeros never being printed.
   */
  function Precision(d: Decimal): (p: nat)
    ensures p <= d.places
    ensures d.units % 10 != 0 ==> p == d.places
    decreases d.places
  {
    if d.places > 0 && d.units % 10 == 0 then Precision(Decimal(d.units / 10, d.places - 1)) else d.places
  }

  lemma DivThenMul(a: real, s: real)
    requires s > 0.0
    ensures (a / s) * s == a
  {
  }

  lemma MulSub(a: real, b: real, s: real)
    ensures (a - b) * s == a * s - b * s
  {
  }

  lemma NegDiv(a: real, s: real)
    requires s > 0.0
    ensures -(a / s) == (-a) / s
  {
  }

  /**
    `x.toFixed(p)` on the exact value, in units of the last place: the
    nearest integer to `x * 10^p`, halves rounded away from zero.
   */
  function RoundedUnits(x: real, p: nat): int
  {
    var s := Pow10(p);
    if x >= 0.0 then (x * s + 0.5).Floor else -((-x * s + 0.5).Floor)
  }

  /** `parseFloat(x.toFixed(p))`: the nearest multiple of 10^-p. */
  function RoundTo(x: real, p: nat): real
  {
    (RoundedUnits(x, p) as real) / Pow10(p)
  }

  /** Rounding moves the value by at most half a unit of the last place. */
  lemma RoundError(x: real, p: nat)
    ensures -0.5 <= (RoundTo(x, p) - x) * Pow10(p) <= 0.5
  {
    var s := Pow10(p);
    var n := RoundedUnits(x, p);
    DivThenMul(n as real, s);
    MulSub(RoundTo(x, p), x, s);
    if x >= 0.0 {
      var y := x * s;
      assert y - 0.5 < n as real <= y + 0.5;
    } else {
      var y := -x * s;
      assert -(x * s) == y;
      assert y - 0.5 < (-n) as real <= y + 0.5;
    }
  }

  /** The rounded value is a whole number of last-place units. */
  lemma RoundOnGrid(x: real, p: nat)
    ensures RoundTo(x, p) * Pow10(p) == RoundedUnits(x, p) as real
  {
    DivThenMul(RoundedUnits(x, p) as real, Pow10(p));
  }

  /** A value that already has at most `p` decimals is kept. */
  lemma RoundKeepsGrid(n: int, p: nat)
    ensures RoundTo((n as real) / Pow10(p), p) == (n as real) / Pow10(p)
  {
    var s := Pow10(p);
    var x := (n as real) / s;
    DivThenMul(n as real, s);
    if x >= 0.0 {
      assert x * s + 0.5 == (n as real) + 0.5;
      assert RoundedUnits(x, p) == n;
    } else {
      assert -x * s == -(x * s);
      assert -x * s + 0.5 == ((-n) as real) + 0.5;
      assert RoundedUnits(x, p) == n;
    }
  }

  /** `if (min !== undefined && v < min) v = min; if (max !== undefined && v > max) v = max;` */
  function Clamp(v: real, min: Option<real>, max: Option<real>): (r: real)
    ensures max.Some? ==> r <= max.value
    ensures min.Some? && (max.None? || min.value <= max.value) ==> min.value <= r
    ensures (min.None? || min.value <= v) && (max.None? || v <= max.value) ==> r == v
  {
    var low := if min.Some? && v < min.value then min.value else v;
    if max.Some? && low > max.value then max.value else low
  }

  /** `current + step * direction`. */
  function Stepped(current: real, step: Decimal, dir: Direction): (r: real)
    ensures dir == Increase ==> r == current + DecimalValue(step)
    ensures dir == Decrease ==> r == current - DecimalValue(step)
  {
    current + DecimalValue(step) * Sign(dir)
  }

  /** The value a press sends: one step in the direction, rounded to the step's decimals, clamped. */
  function NewValue(current: real, a: Attributes, dir: Direction): real
  {
    var step := StepOf(a);
    Clamp(RoundTo(Stepped(current, step, dir), Precision(step)), a.min, a.max)
  }

  /**
    `updateNumberEntity`: nothing for an unknown entity or a domain without
    a setter; `set_value` for `number` and `input_number`, `set_temperature`
    for `water_heater`. `parseFloat` of the state is a parameter.
   */
  method UpdateNumberEntity(states: States, entityId: string, dir: Direction, parse: string -> real)
    returns (call: Option<ServiceCall>)
    ensures entityId !in states ==> call.None?
    ensures entityId in states && (DomainOf(entityId) == "number" || DomainOf(entityId) == "input_number") ==>
              call == Some(ServiceCall(DomainOf(entityId), "set_value", entityId,
                                       Value(NewValue(parse(states[entityId].state), states[entityId].attributes, dir))))
    ensures entityId in states && DomainOf(entityId) == "water_heater" ==>
              call == Some(ServiceCall("water_heater", "set_temperature", entityId,
                                       Temperature(NewValue(parse(states[entityId].state), states[entityId].attributes, dir))))
    ensures DomainOf(entityId) != "number" && DomainOf(entityId) != "input_number" && DomainOf(entityId) != "water_heater" ==>
              call.None?
  {
    if entityId !in states {
      return None;
    }
    var stateObj := states[entityId];
    var current := parse(stateObj.state);
    var step := StepOf(stateObj.attributes);
    var min := stateObj.attributes.min;
    var max := stateObj.attributes.max;

    var newValue := Stepped(current, step, dir);
    newValue := RoundTo(newValue, Precision(step));
    if min.Some? && newValue < min.value {
      newValue := min.value;
    }
    if max.Some? && newValue > max.value {
      newValue := max.value;
    }
    assert newValue == NewValue(current, stateObj.attributes, dir);

    var domain := DomainOf(entityId);
    if domain == "number" || domain == "input_number" {
      return Some(ServiceCall(domain, "set_value", entityId, Value(newValue)));
    }
    if domain == "water_heater" {
      return Some(ServiceCall("water_heater", "set_temperature", entityId, Temperature(newValue)));
    }
    return None;
  }

  /**
    With consistent limits the value sent lies within them, and within half
    a last-place unit of one step from the current value unless a limit cut it.
   */
  lemma NewValueBounds(current: real, a: Attributes, dir: Direction)
    requires a.min.Some? && a.max.Some? && a.min.value <= a.max.value
    ensures a.min.value <= NewValue(current, a, dir) <= a.max.value
    ensures var step := StepOf(a);
            var target := Stepped(current, step, dir);
            a.min.value <= RoundTo(target, Precision(step)) <= a.max.value ==>
              -0.5 <= (NewValue(current, a, dir) - target) * Pow10(Precision(step)) <= 0.5
  {
    var step := StepOf(a);
    RoundError(Stepped(current, step, dir), Precision(step));
  }

  /** A step of 0.5 from 30 goes to 30.5 within the limits 20 and 60. */
  lemma HalfStepExample()
    ensures NewValue(30.0, Attributes(Some(Decimal(5, 1)), Some(20.0), Some(60.0)), Increase) == 30.5
  {
    assert Pow10(1) == 10.0;
    assert DecimalValue(Decimal(5, 1)) == 0.5;
    assert Precision(Decimal(5, 1)) == 1;
    assert Stepped(30.0, Decimal(5, 1), Increase) == 30.5;
    assert RoundedUnits(30.5, 1) == 305;
  }

  /** A step of 1 from 5 is held at the maximum 5. */
  lemma ClampedExample()
    ensures NewValue(5.0, Attributes(Some(Decimal(1, 0)), Some(0.0), Some(5.0)), Increase) == 5.0
  {
    assert Stepped(5.0, Decimal(1, 0), Increase) == 6.0;
    assert RoundedUnits(6.0, 0) == 6;
  }
}
