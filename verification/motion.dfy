/**
 * The recorded motion commands: instead of toggling step pins, every driver
 * loop of the gantry appends one `Run` to a trace.
 */
module Motion {
  import opened Sensors

  /** The three logical axes; Y drives its two motors with identical pulses. */
  datatype Axis = X | Y | Z

  /** The pulse delay tier a loop runs at. */
  datatype Pace =
    | Fast    // HOMING_SPEED_FAST: homing seeks and centring
    | Slow    // HOMING_SPEED_SLOW: backoffs and Z parking
    | Drive   // STEP_DELAY / Z_STEP_DELAY: ordinary moves

  /**
   * One driver loop: the level written to the direction pin(s), the pace,
   * the pulse count the loop was asked for (or bounded by) and the pulses it
   * actually issued.
   */
  datatype Run = Run(axis: Axis, dir: Level, pace: Pace, requested: int, pulses: nat)

  type Trace = seq<Run>

  /** Whether every run of a trace is on axis `a`. */
  predicate OnlyOn(t: Trace, a: Axis)
  {
    forall i :: 0 <= i < |t| ==> t[i].axis == a
  }

  /** The position estimate after `n` open-loop pulses of `delta` each. */
  function Advance(pos: real, n: nat, delta: real): (r: real)
    ensures r == pos + n as real * delta
    decreases n
  {
    if n == 0 then pos else Advance(pos + delta, n - 1, delta)
  }
}
