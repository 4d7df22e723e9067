/**
 * The six limit switches as the software sees them.
 *
 * The hardware is replaced by an oracle: the sequence of pin samples that
 * successive `GPIO.input` calls observe, one sample (the levels of all six
 * pins at that instant) consumed per call.  Once the sequence is exhausted
 * every pin reads High, the idle level of a pulled-up input.
 */
module Sensors {

  /** The electrical level a pin reads. */
  datatype Level = Low | High

  /** The six limit switches. */
  datatype Switch = XMin | XMax | YMin | YMax | ZMin | ZMax

  /** The levels of all six limit pins at the instant of one read. */
  datatype Sample = Sample(xMin: Level, xMax: Level, yMin: Level, yMax: Level, zMin: Level, zMax: Level)

  /** The remaining reads the hardware will answer, in order. */
  type Env = seq<Sample>

  /** What a pulled-up, open switch reads. */
  const Idle: Sample := Sample(High, High, High, High, High, High)

  function LevelOf(s: Sample, sw: Switch): Level
  {
    match sw
    case XMin => s.xMin
    case XMax => s.xMax
    case YMin => s.yMin
    case YMax => s.yMax
    case ZMin => s.zMin
    case ZMax => s.zMax
  }

  /** The environment after `n` reads. */
  function Drop(env: Env, n: nat): Env
  {
    if n <= |env| then env[n..] else []
  }

  /** Whether the `i`-th read from `env` would find switch `sw` triggered (pin Low). */
  predicate TriggeredAt(env: Env, sw: Switch, i: nat)
  {
    i < |env| && LevelOf(env[i], sw) == Low
  }

  /** `GPIO.input(pin)`: one read of one pin. */
  function Input(env: Env, sw: Switch): (r: (Level, Env))
    ensures r.1 == Drop(env, 1)
    ensures r.0 == Low <==> TriggeredAt(env, sw, 0)
  {
    if |env| == 0 then (High, env) else (LevelOf(env[0], sw), env[1..])
  }

  /** `check_limit_switch`: a switch is triggered exactly when its pin reads Low. */
  function CheckLimitSwitch(env: Env, sw: Switch): (r: (bool, Env))
    ensures r.0 <==> TriggeredAt(env, sw, 0)
    ensures r.1 == Drop(env, 1)
  {
    var (level, rest) := Input(env, sw);
    (level == Low, rest)
  }

  /** The dictionary `check_axis_limits` returns: true means triggered. */
  datatype LimitState = LimitState(xMin: bool, xMax: bool, yMin: bool, yMax: bool, zMin: bool, zMax: bool)

  /** The entry of a `LimitState` named after a switch. */
  function Flag(s: LimitState, sw: Switch): bool
  {
    match sw
    case XMin => s.xMin
    case XMax => s.xMax
    case YMin => s.yMin
    case YMax => s.yMax
    case ZMin => s.zMin
    case ZMax => s.zMax
  }

  /** The order in which `check_axis_limits` reads the switches. */
  function ReadIndex(sw: Switch): nat
  {
    match sw
    case XMin => 0
    case XMax => 1
    case YMin => 2
    case YMax => 3
    case ZMin => 4
    case ZMax => 5
  }

  /**
   * `check_axis_limits`: reads every switch once, in the order x_min, x_max,
   * y_min, y_max, z_min, z_max, and reports each as triggered or not.
   */
  function CheckAxisLimits(env: Env): (r: (LimitState, Env))
    ensures r.0 == LimitState(TriggeredAt(env, XMin, 0), TriggeredAt(env, XMax, 1), TriggeredAt(env, YMin, 2),
                              TriggeredAt(env, YMax, 3), TriggeredAt(env, ZMin, 4), TriggeredAt(env, ZMax, 5))
    ensures r.1 == Drop(env, 6)
  {
    assert Drop(env, 0) == env;
    ReadAt(env, 0, XMin);
    ReadAt(env, 1, XMax);
    ReadAt(env, 2, YMin);
    ReadAt(env, 3, YMax);
    ReadAt(env, 4, ZMin);
    ReadAt(env, 5, ZMax);
    var r1 := CheckLimitSwitch(env, XMin);
    var r2 := CheckLimitSwitch(r1.1, XMax);
    var r3 := CheckLimitSwitch(r2.1, YMin);
    var r4 := CheckLimitSwitch(r3.1, YMax);
    var r5 := CheckLimitSwitch(r4.1, ZMin);
    var r6 := CheckLimitSwitch(r5.1, ZMax);
    (LimitState(r1.0, r2.0, r3.0, r4.0, r5.0, r6.0), r6.1)
  }

  /**
   * The limit check installed into the motor driver by the checkers
   * application: one full `check_axis_limits` snapshot, of which the entry
   * for `sw` is returned.
   */
  function CheckLimit(env: Env, sw: Switch): (r: (bool, Env))
    ensures r.0 <==> TriggeredAt(env, sw, ReadIndex(sw))
    ensures r.1 == Drop(env, 6)
  {
    var snapshot := CheckAxisLimits(env);
    FlagOfSnapshot(env, sw);
    (Flag(snapshot.0, sw), snapshot.1)
  }

  /** Each entry of a snapshot is the read of its switch at that switch's place in the order. */
  lemma FlagOfSnapshot(env: Env, sw: Switch)
    ensures Flag(CheckAxisLimits(env).0, sw) == TriggeredAt(env, sw, ReadIndex(sw))
  {
    match sw
    case XMin =>
    case XMax =>
    case YMin =>
    case YMax =>
    case ZMin =>
    case ZMax =>
  }

  /** An environment in which every remaining read finds every switch open. */
  predicate Quiet(env: Env)
  {
    forall i :: 0 <= i < |env| ==> env[i] == Idle
  }

  /** No read of a quiet environment finds a switch triggered, and it stays quiet. */
  lemma QuietDrop(env: Env, n: nat)
    requires Quiet(env)
    ensures Quiet(Drop(env, n))
    ensures forall sw, i: nat :: !TriggeredAt(Drop(env, n), sw, i)
  {
  }

  /** Reading switch `sw` after `k` reads: the `k`-th sample decides it, and one more read is consumed. */
  lemma ReadAt(env: Env, k: nat, sw: Switch)
    ensures CheckLimitSwitch(Drop(env, k), sw) == (TriggeredAt(env, sw, k), Drop(env, k + 1))
  {
    if k < |env| {
      assert Drop(env, k)[0] == env[k];
      assert Drop(Drop(env, k), 1) == Drop(env, k + 1);
    }
  }
}
