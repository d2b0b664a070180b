/** The scalar state of a parameter on the audio thread: fixed values, linear ramps and additive modulation, one
    step per rendered sample. */
module ValueRamps {
  import opened ParameterEvents

  datatype Ramp = Ramp(current: real, target: real, increment: real, modulation: real, remaining: nat)

  function Begun(r: Ramp, fallback: real): Ramp {
    if r.remaining > 0 then r else r.(current := fallback, target := fallback)
  }

  function Larger(a: int, b: int): int { if a < b then b else a }

  function Applied(r: Ramp, e: NodeEvent): Ramp {
    match e.kind
    case Value => r.(current := e.value, target := e.value, increment := 0.0, remaining := 0)
    case LinearRamp =>
      var samples := Larger(1, e.duration);
      r.(target := e.value, remaining := samples, increment := (e.value - r.current) / (samples as real))
    case Modulation => r.(modulation := e.value)
  }

  function Advanced(r: Ramp): Ramp {
    if r.remaining == 0 then r
    else if r.remaining == 1 then r.(current := r.target, increment := 0.0, remaining := 0)
    else r.(current := r.current + r.increment, remaining := r.remaining - 1)
  }

  function AdvancedBy(r: Ramp, samples: nat): Ramp {
    if samples == 0 then r else Advanced(AdvancedBy(r, samples - 1))
  }

  /** What an event makes of the state of a parameter, field by field: a value is taken at once and ends a ramp, a
      ramp starts where the parameter is, and a modulation changes nothing but the modulation. */
  predicate Moved(r: Ramp, kind: EventKind, value: real, duration: int, after: Ramp) {
    && (kind == Modulation ==>
          after.modulation == value && after.current == r.current && after.target == r.target
          && after.increment == r.increment && after.remaining == r.remaining)
    && (kind != Modulation ==> after.modulation == r.modulation && after.target == value)
    && (kind == Value ==> after.current == value && after.remaining == 0 && after.increment == 0.0)
    && (kind == LinearRamp ==>
          after.current == r.current && after.remaining >= 1
          && after.remaining == (if duration >= 1 then duration else 1)
          && after.increment == (value - r.current) / (after.remaining as real))
  }

  lemma AppliedInFields(r: Ramp, e: NodeEvent)
    ensures Moved(r, e.kind, e.value, e.duration, Applied(r, e))
  {}

  /** The point of a straight line after `samples` steps of a ramp, which takes at least one. */
  function OnLine(start: real, end: real, duration: int, samples: nat): real {
    var steps := if duration >= 1 then duration else 1;
    if samples < steps then start + (samples as real) * ((end - start) / (steps as real)) else end
  }

  /** A ramp runs on the straight line from its start to its target and stays there. */
  lemma {:induction false} RampIsLinear(r: Ramp, e: NodeEvent, samples: nat)
    requires e.kind == LinearRamp
    ensures var now, steps := AdvancedBy(Applied(r, e), samples), if e.duration >= 1 then e.duration else 1;
      && now.remaining == (if samples < steps then steps - samples else 0)
      && now.current == OnLine(r.current, e.value, e.duration, samples)
      && now.target == e.value && now.modulation == r.modulation
      && (samples < steps ==> now.increment == (e.value - r.current) / (steps as real))
  {
    if samples > 0 {
      RampIsLinear(r, e, samples - 1);
      var step := (e.value - r.current) / ((if e.duration >= 1 then e.duration else 1) as real);
      assert (samples as real) * step == ((samples - 1) as real) * step + step;
    }
  }

  lemma {:induction false} ValueIsHeld(r: Ramp, e: NodeEvent, samples: nat)
    requires e.kind == Value
    ensures AdvancedBy(Applied(r, e), samples) == Ramp(e.value, e.value, 0.0, r.modulation, 0)
  {
    if samples > 0 { ValueIsHeld(r, e, samples - 1); }
  }

  /** A modulation neither stops nor bends a ramp. */
  lemma {:induction false} ModulationIsAdded(r: Ramp, e: NodeEvent, samples: nat)
    requires e.kind == Modulation
    ensures AdvancedBy(Applied(r, e), samples) == AdvancedBy(r, samples).(modulation := e.value)
  {
    if samples > 0 { ModulationIsAdded(r, e, samples - 1); }
  }

  lemma EventIsHeard(r: Ramp, e: NodeEvent, samples: nat)
    ensures var now := AdvancedBy(Applied(r, e), samples);
      match e.kind
      case Value => now.current == e.value && now.modulation == r.modulation
      case LinearRamp => now.current == OnLine(r.current, e.value, e.duration, samples)
        && now.modulation == r.modulation
      case Modulation => now.current == AdvancedBy(r, samples).current && now.modulation == e.value
  {
    match e.kind {
      case Value => ValueIsHeld(r, e, samples);
      case LinearRamp => RampIsLinear(r, e, samples);
      case Modulation => ModulationIsAdded(r, e, samples);
    }
  }

  class ParameterValueState {
    var currentValue: real
    var targetValue: real
    var rampIncrement: real
    var modulation: real
    var remainingRampSamples: nat

    constructor (initialValue: real)
      ensures State() == Ramp(initialValue, initialValue, 0.0, 0.0, 0)
    {
      currentValue, targetValue := initialValue, initialValue;
      rampIncrement, modulation, remainingRampSamples := 0.0, 0.0, 0;
    }

    function State(): Ramp
      reads this
    {
      Ramp(currentValue, targetValue, rampIncrement, modulation, remainingRampSamples)
    }

    method BeginBlock(fallback: real)
      modifies this
      ensures State() == Begun(old(State()), fallback)
      ensures remainingRampSamples == old(remainingRampSamples) && rampIncrement == old(rampIncrement)
        && modulation == old(modulation)
      ensures if remainingRampSamples == 0 then currentValue == targetValue == fallback
        else currentValue == old(currentValue) && targetValue == old(targetValue)
    {
      if remainingRampSamples == 0 {
        currentValue := fallback;
        targetValue := fallback;
      }
    }

    method Apply(e: NodeEvent)
      modifies this
      ensures State() == Applied(old(State()), e)
      ensures Moved(old(State()), e.kind, e.value, e.duration, State())
    {
      match e.kind {
        case Value =>
          currentValue, targetValue := e.value, e.value;
          rampIncrement, remainingRampSamples := 0.0, 0;
        case LinearRamp =>
          targetValue := e.value;
          remainingRampSamples := Larger(1, e.duration);
          rampIncrement := (targetValue - currentValue) / (remainingRampSamples as real);
        case Modulation =>
          modulation := e.value;
      }
    }

    method NextValue() returns (value: real)
      modifies this
      ensures State() == Advanced(old(State())) && value == currentValue + modulation
      ensures targetValue == old(targetValue) && modulation == old(modulation)
      ensures match old(remainingRampSamples)
        case 0 => currentValue == old(currentValue) && remainingRampSamples == 0
        case 1 => currentValue == targetValue && remainingRampSamples == 0
        case _ => currentValue == old(currentValue) + rampIncrement && rampIncrement == old(rampIncrement)
                  && remainingRampSamples == old(remainingRampSamples) - 1
    {
      if remainingRampSamples > 0 {
        currentValue := currentValue + rampIncrement;
        remainingRampSamples := remainingRampSamples - 1;
        if remainingRampSamples == 0 {
          currentValue := targetValue;
          rampIncrement := 0.0;
        }
      }
      value := currentValue + modulation;
    }
  }
}
