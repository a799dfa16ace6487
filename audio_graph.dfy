/**
 * What the synthesizer and the effects chain hand to the audio substrate,
 * recorded as data: automation points on a scalar parameter and the
 * settings of biquad filters. Node creation, wiring and rendering belong to
 * the substrate and are not modelled.
 */
module AudioGraph {

  /** One timed automation point on a scalar audio parameter. */
  datatype Automation =
    | SetValueAtTime(value: real, time: real)
    | LinearRampToValueAtTime(value: real, time: real)
    | ExponentialRampToValueAtTime(value: real, time: real)

  datatype FilterType = Lowpass | Highpass | Bandpass | Highshelf | Peaking

  /** The settings of a biquad filter node. */
  datatype Biquad = Biquad(kind: FilterType, frequency: real, q: real, gainDb: real)

  /** The value a biquad node's Q has until it is assigned. */
  const DefaultQ: real := 1.0

  /** The value a biquad node's gain (in dB) has until it is assigned. */
  const DefaultGainDb: real := 0.0

  /** The error the substrate raises when a schedule breaks its rules. */
  datatype AudioError = RangeError

  /** Whether the substrate accepts every point of a schedule: an
      exponential ramp to 0 is refused with a RangeError. */
  predicate Schedulable(schedule: seq<Automation>) {
    forall j | 0 <= j < |schedule| :: schedule[j].ExponentialRampToValueAtTime? ==> schedule[j].value != 0.0
  }

  /** The schedule with every exponential ramp to 0 aimed at `floor`
      instead; every other point is kept as it is. */
  function AvoidZeroTargets(schedule: seq<Automation>, floor: real): (r: seq<Automation>)
    requires floor != 0.0
    ensures |r| == |schedule| && Schedulable(r)
    ensures forall j | 0 <= j < |schedule| ::
      r[j] == (if schedule[j].ExponentialRampToValueAtTime? && schedule[j].value == 0.0
               then ExponentialRampToValueAtTime(floor, schedule[j].time) else schedule[j])
    ensures Schedulable(schedule) ==> r == schedule
  {
    seq(|schedule|, j requires 0 <= j < |schedule| => Lifted(schedule[j], floor))
  }

  function Lifted(point: Automation, floor: real): Automation {
    if point.ExponentialRampToValueAtTime? && point.value == 0.0
    then ExponentialRampToValueAtTime(floor, point.time) else point
  }
}
