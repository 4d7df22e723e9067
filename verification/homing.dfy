/**
 * Limit-switch homing of the three axes.
 *
 * Each axis homes in two phases, one per end switch.  A phase first reads
 * its switch once: if it is already triggered it only backs off; otherwise
 * it seeks toward the switch under a pulse ceiling, reports failure when the
 * ceiling is exhausted, and backs off.  Z and X seeks debounce each
 * triggered read with a second read; Y seeks stop on a single read.  After
 * both phases Z derives its working heights and parks at the release
 * height, X re-zeroes and centres, and Y records ordered soft limits and
 * re-zeroes before its centring loop.
 */
module Homing {
  import opened Numeric
  import opened Sensors
  import opened Motion
  import opened MotorControl

  /** The overridable homing parameters: MAX_HOMING_DISTANCE and HOMING_BACKOFF, in mm. */
  datatype Config = Config(maxDistance: real, backoff: real)

  const Default: Config := Config(2000.0, 10.0)

  const ZMaxSafetyMargin: real := 1.0
  const ZMinSafetyMargin: real := 5.0

  function StepsPerMm(a: Axis): real
  {
    match a
    case X => StepsPerMmX
    case Y => StepsPerMmY
    case Z => StepsPerMmZ
  }

  /** The seek ceiling `int(MAX_HOMING_DISTANCE * STEPS_PER_MM)`. */
  function MaxSteps(cfg: Config, a: Axis): int
  {
    Trunc(cfg.maxDistance * StepsPerMm(a))
  }

  /** The backoff length `int(HOMING_BACKOFF * STEPS_PER_MM)`. */
  function BackoffSteps(cfg: Config, a: Axis): int
  {
    Trunc(cfg.backoff * StepsPerMm(a))
  }

  /**
   * The direction level under which homing counts an axis's estimate
   * upward: X and Y add with DIR High, Z adds with DIR Low (up).
   */
  function Plus(a: Axis): Level
  {
    if a == Z then Low else High
  }

  /** The estimate change of one homing pulse on `a` with direction level `dir`. */
  function Pulse(a: Axis, dir: Level): real
  {
    if dir == Plus(a) then 1.0 / StepsPerMm(a) else -(1.0 / StepsPerMm(a))
  }

  /** The estimate change a homing run accounts for. */
  function Effect(r: Run): real
  {
    r.pulses as real * Pulse(r.axis, r.dir)
  }

  /** The estimate after the pulses of `run`, one `Pulse` at a time. */
  function After(pos: real, run: Run): (r: real)
    ensures r == pos + Effect(run)
  {
    Advance(pos, run.pulses, Pulse(run.axis, run.dir))
  }

  /** The total estimate change of a homing trace. */
  function Displacement(t: Trace): real
  {
    if |t| == 0 then 0.0 else Effect(t[0]) + Displacement(t[1..])
  }

  lemma DisplacementPair(a: Run, b: Run)
    ensures Displacement([a, b]) == Effect(a) + Effect(b)
  {
    assert [a, b][1..] == [b];
    assert [b][1..] == [];
    assert Displacement([b]) == Effect(b) + Displacement([]);
  }

  /** How far a seek got: pulses issued, and the index of the next unread sample. */
  datatype Seek = Seek(pulses: nat, next: nat)

  /** Reads `k` and `k + 1` both find `sw` triggered. */
  predicate PairAt(env: Env, sw: Switch, k: nat)
  {
    TriggeredAt(env, sw, k) && TriggeredAt(env, sw, k + 1)
  }

  /**
   * The Z and X seek loop, reading from sample `i` with `budget` pulses
   * left: while pulses remain, read the switch; if triggered, read it again
   * and stop if it is still triggered; otherwise pulse once.  The seek stops
   * exactly at the first pair of consecutive triggered reads, and it
   * succeeds exactly when it stops before exhausting its budget.
   */
  function DebouncedSeek(env: Env, i: nat, sw: Switch, budget: nat): (r: Seek)
    ensures r.pulses <= budget
    ensures i + r.pulses <= r.next <= i + 2 * r.pulses + 2
    ensures r.pulses < budget ==> i + 2 <= r.next && PairAt(env, sw, r.next - 2)
    ensures forall k :: i <= k && k + 1 < r.next - (if r.pulses < budget then 1 else 0) ==> !PairAt(env, sw, k)
    decreases budget
  {
    if budget == 0 then Seek(0, i)
    else if PairAt(env, sw, i) then Seek(0, i + 2)
    else
      var r := DebouncedSeek(env, if TriggeredAt(env, sw, i) then i + 2 else i + 1, sw, budget - 1);
      Seek(r.pulses + 1, r.next)
  }

  /**
   * The Y seek loop `while not triggered and taken < max`: the read comes
   * first, so every pulse is preceded by one untriggered read, and one more
   * read ends the loop.  Success (pulses below budget) means the last read
   * found the switch triggered.
   */
  function SingleSeek(env: Env, i: nat, sw: Switch, budget: nat): (r: Seek)
    ensures r.pulses <= budget
    ensures r.next == i + r.pulses + 1
    ensures forall k :: i <= k < i + r.pulses ==> !TriggeredAt(env, sw, k)
    ensures r.pulses < budget ==> TriggeredAt(env, sw, i + r.pulses)
    decreases budget
  {
    if TriggeredAt(env, sw, i) || budget == 0 then Seek(0, i + 1)
    else
      var r := SingleSeek(env, i + 1, sw, budget - 1);
      Seek(r.pulses + 1, r.next)
  }

  /**
   * A lone triggered read followed by an untriggered one stops a single-read
   * seek at once but is ignored by a debounced seek.
   */
  lemma DebounceIgnoresGlitch(env: Env, i: nat, sw: Switch, budget: nat)
    requires 0 < budget
    requires TriggeredAt(env, sw, i) && !TriggeredAt(env, sw, i + 1)
    ensures SingleSeek(env, i, sw, budget).pulses == 0
    ensures DebouncedSeek(env, i, sw, budget).pulses >= 1
  {
  }

  /**
   * The seek loop of `move_y_to_max`: the single-read loop with an extra,
   * ignored probe read after every hundredth pulse.  `taken` counts the
   * pulses so far.
   */
  function ProbedSeek(env: Env, i: nat, sw: Switch, taken: nat, max: int): (r: Seek)
    ensures taken < max ==> taken + r.pulses <= max
    ensures max <= taken ==> r.pulses == 0
    ensures r.next == i + r.pulses + 1 + ((taken + r.pulses) / 100 - taken / 100)
    ensures taken + r.pulses < max ==> TriggeredAt(env, sw, r.next - 1)
    decreases if taken < max then max - taken else 0
  {
    if TriggeredAt(env, sw, i) || taken >= max then Seek(0, i + 1)
    else
      var probe := if (taken + 1) % 100 == 0 then 1 else 0;
      var r := ProbedSeek(env, i + 1 + probe, sw, taken + 1, max);
      Seek(r.pulses + 1, r.next)
  }

  /** The seek loop of a Z or X phase (debounced) or of a Y phase (single read). */
  function SeekFor(debounced: bool, env: Env, i: nat, sw: Switch, budget: nat): (r: Seek)
    ensures r.pulses <= budget && i <= r.next
    ensures r.pulses < budget && debounced ==> i + 2 <= r.next && PairAt(env, sw, r.next - 2)
    ensures r.pulses < budget && !debounced ==> i + 1 <= r.next && TriggeredAt(env, sw, r.next - 1)
  {
    if debounced then DebouncedSeek(env, i, sw, budget) else SingleSeek(env, i, sw, budget)
  }

  /**
   * One homing phase toward one end switch: the direction levels of the
   * seek, of the backoff after a seek, and of the backoff taken when the
   * switch is already triggered at the start.
   */
  datatype Approach = Approach(axis: Axis, sw: Switch, seek: Level, backoff: Level, startBackoff: Level)

  const ZMinApproach: Approach := Approach(Z, ZMin, High, Low, Low)
  const ZMaxApproach: Approach := Approach(Z, ZMax, Low, High, High)
  const XMinApproach: Approach := Approach(X, XMin, Low, High, High)
  const XMaxApproach: Approach := Approach(X, XMax, High, Low, Low)
  const YMaxApproach: Approach := Approach(Y, YMax, Low, High, High)
  /** Y-MIN backs off with DIR High when found at the start, the level its seek uses. */
  const YMinApproach: Approach := Approach(Y, YMin, High, Low, High)

  /** The outcome of a phase: success, the estimate, the next unread sample, the runs. */
  datatype Located = Located(ok: bool, pos: real, next: nat, trace: Trace)

  function BackoffRun(cfg: Config, a: Axis, dir: Level): Run
  {
    Run(a, dir, Slow, BackoffSteps(cfg, a), Count(BackoffSteps(cfg, a)))
  }

  /**
   * A homing phase reading from sample `i` with the estimate at `pos`.
   * Every pulse of the phase moves the estimate by exactly one step in the
   * direction its level denotes, and a seek never exceeds its ceiling.
   */
  function Locate(cfg: Config, a: Approach, debounced: bool, env: Env, i: nat, pos: real): (r: Located)
    ensures i < r.next
    ensures OnlyOn(r.trace, a.axis) && 1 <= |r.trace| <= 2
    ensures r.pos == pos + Displacement(r.trace)
    ensures TriggeredAt(env, a.sw, i) ==>
              r.ok && r.next == i + 1 && r.trace == [BackoffRun(cfg, a.axis, a.startBackoff)]
    ensures !TriggeredAt(env, a.sw, i) ==>
              (r.trace[0] == Run(a.axis, a.seek, Fast, MaxSteps(cfg, a.axis), r.trace[0].pulses)
              && r.trace[0].pulses <= Count(MaxSteps(cfg, a.axis))
              && (r.ok <==> r.trace[0].pulses < Count(MaxSteps(cfg, a.axis)))
              && (r.ok <==> |r.trace| == 2)
              && (r.ok ==> r.trace[1] == BackoffRun(cfg, a.axis, a.backoff)))
    ensures !TriggeredAt(env, a.sw, i) && r.ok && debounced ==>
              2 <= r.next && PairAt(env, a.sw, r.next - 2)
    ensures !TriggeredAt(env, a.sw, i) && r.ok && !debounced ==>
              TriggeredAt(env, a.sw, r.next - 1)
  {
    if TriggeredAt(env, a.sw, i) then
      var run := BackoffRun(cfg, a.axis, a.startBackoff);
      assert Displacement([run]) == Effect(run);
      Located(true, After(pos, run), i + 1, [run])
    else
      var budget := Count(MaxSteps(cfg, a.axis));
      var s := SeekFor(debounced, env, i + 1, a.sw, budget);
      var seekRun := Run(a.axis, a.seek, Fast, MaxSteps(cfg, a.axis), s.pulses);
      var p := After(pos, seekRun);
      assert Displacement([seekRun]) == Effect(seekRun);
      if s.pulses == budget then Located(false, p, s.next, [seekRun])
      else
        var run := BackoffRun(cfg, a.axis, a.backoff);
        DisplacementPair(seekRun, run);
        Located(true, After(p, run), s.next, [seekRun, run])
  }

  /** The homing module's state on top of the driver's: `z_max_travel`. */
  datatype Machine = Machine(gantry: Gantry, zMaxTravel: real)

  /** The machine before homing: the driver's initial state and `z_max_travel` 0. */
  const Start: Machine := Machine(Initial, 0.0)

  /** A homing routine's result: its return value, the new state, the unread samples, the runs. */
  datatype Homed = Homed(ok: bool, machine: Machine, env: Env, trace: Trace)

  /** The Z-MIN phase of `home_z_axis`. */
  function ZMinPhase(cfg: Config, m: Machine, env: Env): Located
  {
    Locate(cfg, ZMinApproach, true, env, 0, m.gantry.z)
  }

  /** The Z-MAX phase of `home_z_axis`, after a successful Z-MIN phase. */
  function ZMaxPhase(cfg: Config, m: Machine, env: Env): Located
  {
    var lo := ZMinPhase(cfg, m, env);
    Locate(cfg, ZMaxApproach, true, env, lo.next, lo.pos)
  }

  /**
   * `home_z_axis`.  On success the travel range is the distance between the
   * two backed-off points, the maximum height sits one margin below the MAX
   * point, release and travel heights five margins above the MIN point, and
   * the estimate is set to the release height after the park move.  A
   * failed MIN seek leaves `z_max_travel` alone; a failed MAX seek sets it
   * to 100.  Nothing but Z moves, and X/Y settings are untouched.
   */
  function HomeZ(cfg: Config, m: Machine, env: Env): (r: Homed)
    ensures OnlyOn(r.trace, Z) && 1 <= |r.trace|
    ensures r.machine.gantry == m.gantry.(z := r.machine.gantry.z, zMaxHeight := r.machine.gantry.zMaxHeight,
              zRelease := r.machine.gantry.zRelease, zTravel := r.machine.gantry.zTravel)
    ensures !r.ok ==> r.machine.gantry == m.gantry.(z := r.machine.gantry.z)
    ensures !ZMinPhase(cfg, m, env).ok ==>
              !r.ok && r.machine.zMaxTravel == m.zMaxTravel && r.machine.gantry.z == ZMinPhase(cfg, m, env).pos
    ensures ZMinPhase(cfg, m, env).ok && !ZMaxPhase(cfg, m, env).ok ==>
              !r.ok && r.machine.zMaxTravel == 100.0 && r.machine.gantry.z == ZMaxPhase(cfg, m, env).pos
    ensures r.ok <==> ZMinPhase(cfg, m, env).ok && ZMaxPhase(cfg, m, env).ok
    ensures r.ok ==>
              var zMin := ZMinPhase(cfg, m, env).pos;
              var zMax := ZMaxPhase(cfg, m, env).pos;
              r.machine.zMaxTravel == Abs(zMax - zMin)
              && r.machine.gantry.zMaxHeight == zMax - ZMaxSafetyMargin
              && r.machine.gantry.zRelease == zMin + ZMinSafetyMargin
              && r.machine.gantry.zTravel == r.machine.gantry.zRelease
              && r.machine.gantry.z == r.machine.gantry.zRelease
    ensures r.ok ==>
              r.machine.zMaxTravel == Abs((r.machine.gantry.zMaxHeight + ZMaxSafetyMargin) - (r.machine.gantry.zRelease - ZMinSafetyMargin))
    ensures r.ok ==>
              var zMax := ZMaxPhase(cfg, m, env).pos;
              var park := r.trace[|r.trace| - 1];
              park.pace == Slow && park.requested == Trunc(Abs(zMax - r.machine.gantry.zRelease) * StepsPerMmZ)
              && park.pulses == Count(park.requested)
              && (park.dir == High <==> zMax > r.machine.gantry.zRelease)
  {
    var g := m.gantry;
    var lo := ZMinPhase(cfg, m, env);
    if !lo.ok then Homed(false, Machine(g.(z := lo.pos), m.zMaxTravel), Drop(env, lo.next), lo.trace)
    else
      var hi := ZMaxPhase(cfg, m, env);
      if !hi.ok then Homed(false, Machine(g.(z := hi.pos), 100.0), Drop(env, hi.next), lo.trace + hi.trace)
      else
        var release := lo.pos + ZMinSafetyMargin;
        var down := hi.pos > release;
        var steps := if down then Trunc((hi.pos - release) * StepsPerMmZ) else Trunc((release - hi.pos) * StepsPerMmZ);
        var park := Run(Z, if down then High else Low, Slow, steps, Count(steps));
        var g' := g.(z := release, zMaxHeight := hi.pos - ZMaxSafetyMargin, zRelease := release, zTravel := release);
        Homed(true, Machine(g', Abs(hi.pos - lo.pos)), Drop(env, hi.next), lo.trace + hi.trace + [park])
  }

  /** The X-MIN phase of `home_x_axis`. */
  function XMinPhase(cfg: Config, m: Machine, env: Env): Located
  {
    Locate(cfg, XMinApproach, true, env, 0, m.gantry.x)
  }

  /** The X-MAX phase of `home_x_axis`, after a successful X-MIN phase. */
  function XMaxPhase(cfg: Config, m: Machine, env: Env): Located
  {
    var lo := XMinPhase(cfg, m, env);
    Locate(cfg, XMaxApproach, true, env, lo.next, lo.pos)
  }

  /**
   * Step 3 of `home_x_axis`: from the estimate reset to `range`, step
   * toward the centre range/2 (toward MIN, DIR Low, unless the range is 0).
   */
  function CentreX(range: real): (r: (real, Run))
    requires 0.0 <= range
    ensures range / 2.0 <= r.0 < range / 2.0 + 1.0 / StepsPerMmX
    ensures r.1.axis == X && r.1.pace == Fast && r.1.requested == Trunc(Abs(range - range / 2.0) * StepsPerMmX)
    ensures r.1.pulses == Count(r.1.requested)
    ensures r.1.dir == Low <==> range > 0.0
  {
    var centre := range / 2.0;
    var steps := Trunc(Abs(range - centre) * StepsPerMmX);
    var towardMin := range > centre;
    TruncatedApproach(range - centre, StepsPerMmX);
    var x := Advance(range, Count(steps), if towardMin then -(1.0 / StepsPerMmX) else 1.0 / StepsPerMmX);
    (x, Run(X, if towardMin then Low else High, Fast, steps, Count(steps)))
  }

  /**
   * `home_x_axis`.  On success the estimate is reset to the travel range
   * and stepped toward range/2 by the truncated step count, ending within
   * one step above the centre; the soft limits stored are the two
   * backed-off points as measured before the reset.
   */
  function HomeX(cfg: Config, m: Machine, env: Env): (r: Homed)
    ensures OnlyOn(r.trace, X) && 1 <= |r.trace|
    ensures r.machine.zMaxTravel == m.zMaxTravel
    ensures r.machine.gantry == m.gantry.(x := r.machine.gantry.x, xMin := r.machine.gantry.xMin, xMax := r.machine.gantry.xMax)
    ensures r.ok <==> XMinPhase(cfg, m, env).ok && XMaxPhase(cfg, m, env).ok
    ensures !r.ok ==> r.machine.gantry == m.gantry.(x := r.machine.gantry.x)
    ensures r.ok ==>
              var range := Abs(XMaxPhase(cfg, m, env).pos - XMinPhase(cfg, m, env).pos);
              r.machine.gantry.xMin == XMinPhase(cfg, m, env).pos
              && r.machine.gantry.xMax == XMaxPhase(cfg, m, env).pos
              && range / 2.0 <= r.machine.gantry.x < range / 2.0 + 1.0 / StepsPerMmX
    ensures r.ok ==>
              var range := Abs(XMaxPhase(cfg, m, env).pos - XMinPhase(cfg, m, env).pos);
              var centre := r.trace[|r.trace| - 1];
              centre.pace == Fast && centre.requested == Trunc(Abs(range - range / 2.0) * StepsPerMmX)
              && centre.pulses == Count(centre.requested)
              && (centre.dir == Low <==> range > 0.0)
  {
    var g := m.gantry;
    var lo := XMinPhase(cfg, m, env);
    if !lo.ok then Homed(false, Machine(g.(x := lo.pos), m.zMaxTravel), Drop(env, lo.next), lo.trace)
    else
      var hi := XMaxPhase(cfg, m, env);
      if !hi.ok then Homed(false, Machine(g.(x := hi.pos), m.zMaxTravel), Drop(env, hi.next), lo.trace + hi.trace)
      else
        var (x, run) := CentreX(Abs(hi.pos - lo.pos));
        Homed(true, Machine(g.(x := x, xMin := lo.pos, xMax := hi.pos), m.zMaxTravel), Drop(env, hi.next),
              lo.trace + hi.trace + [run])
  }

  /**
   * `move_y_to_max`: if Y-MAX already reads triggered, back off and succeed;
   * otherwise seek with DIR Low (counting the estimate down), probing the
   * switch again after every hundredth pulse, fail when the ceiling is
   * exhausted, and back off with DIR High.
   */
  function MoveYToMax(cfg: Config, g: Gantry, env: Env): (r: (bool, Gantry, Env, Trace))
    ensures r.1 == g.(y := r.1.y)
    ensures OnlyOn(r.3, Y) && 1 <= |r.3| <= 2
    ensures r.1.y == g.y + Displacement(r.3)
    ensures TriggeredAt(env, YMax, 0) ==> r.0 && r.2 == Drop(env, 1) && r.3 == [BackoffRun(cfg, Y, High)]
    ensures !TriggeredAt(env, YMax, 0) ==>
              (r.3[0] == Run(Y, Low, Fast, MaxSteps(cfg, Y), r.3[0].pulses)
              && (r.0 <==> r.3[0].pulses < MaxSteps(cfg, Y))
              && (r.0 <==> |r.3| == 2)
              && (r.0 ==> r.3[1] == BackoffRun(cfg, Y, High)))
  {
    if TriggeredAt(env, YMax, 0) then
      var run := BackoffRun(cfg, Y, High);
      assert Displacement([run]) == Effect(run);
      (true, g.(y := After(g.y, run)), Drop(env, 1), [run])
    else
      var s := ProbedSeek(env, 1, YMax, 0, MaxSteps(cfg, Y));
      var seekRun := Run(Y, Low, Fast, MaxSteps(cfg, Y), s.pulses);
      var p := After(g.y, seekRun);
      assert Displacement([seekRun]) == Effect(seekRun);
      if s.pulses >= MaxSteps(cfg, Y) then (false, g.(y := p), Drop(env, s.next), [seekRun])
      else
        var run := BackoffRun(cfg, Y, High);
        DisplacementPair(seekRun, run);
        (true, g.(y := After(p, run)), Drop(env, s.next), [seekRun, run])
  }

  /** The Y-MAX phase of `home_y_axes`. */
  function YMaxPhase(cfg: Config, m: Machine, env: Env): Located
  {
    Locate(cfg, YMaxApproach, false, env, 0, m.gantry.y)
  }

  /** The Y-MIN phase of `home_y_axes`, after a successful Y-MAX phase. */
  function YMinPhase(cfg: Config, m: Machine, env: Env): Located
  {
    var hi := YMaxPhase(cfg, m, env);
    Locate(cfg, YMinApproach, false, env, hi.next, hi.pos)
  }

  /**
   * Step 4 of `home_y_axes`: from the estimate reset to 0, the centring
   * loop issues the truncated half range of pulses with DIR Low, counting
   * the estimate down, so it ends at minus half the range, not plus.
   */
  function CentreY(range: real): (r: (real, Run))
    requires 0.0 <= range
    ensures r.0 <= 0.0
    ensures -(range / 2.0) <= r.0 < -(range / 2.0) + 1.0 / StepsPerMmY
    ensures r.1 == Run(Y, Low, Fast, Trunc(range / 2.0 * StepsPerMmY), Count(Trunc(range / 2.0 * StepsPerMmY)))
  {
    var steps := Trunc(range / 2.0 * StepsPerMmY);
    TruncatedApproach(range / 2.0, StepsPerMmY);
    (Advance(0.0, Count(steps), -(1.0 / StepsPerMmY)), Run(Y, Low, Fast, steps, Count(steps)))
  }

  /**
   * `home_y_axes`: MAX first, then MIN.  On success the soft limits are the
   * two backed-off points in increasing order, the estimate is reset to 0,
   * and the centring loop counts it down by the truncated half range, so it
   * ends at or below 0, within one step of minus half the range.
   */
  function HomeY(cfg: Config, m: Machine, env: Env): (r: Homed)
    ensures OnlyOn(r.trace, Y) && 1 <= |r.trace|
    ensures r.machine.zMaxTravel == m.zMaxTravel
    ensures r.machine.gantry == m.gantry.(y := r.machine.gantry.y, yMin := r.machine.gantry.yMin, yMax := r.machine.gantry.yMax)
    ensures r.ok <==> YMaxPhase(cfg, m, env).ok && YMinPhase(cfg, m, env).ok
    ensures !r.ok ==> r.machine.gantry == m.gantry.(y := r.machine.gantry.y)
    ensures r.ok ==>
              var a := YMinPhase(cfg, m, env).pos;
              var b := YMaxPhase(cfg, m, env).pos;
              r.machine.gantry.yMin <= r.machine.gantry.yMax
              && {r.machine.gantry.yMin, r.machine.gantry.yMax} == {a, b}
              && r.machine.gantry.y <= 0.0
              && -(Abs(b - a) / 2.0) <= r.machine.gantry.y < -(Abs(b - a) / 2.0) + 1.0 / StepsPerMmY
    ensures r.ok ==>
              var range := Abs(YMaxPhase(cfg, m, env).pos - YMinPhase(cfg, m, env).pos);
              var centre := r.trace[|r.trace| - 1];
              centre == Run(Y, Low, Fast, Trunc(range / 2.0 * StepsPerMmY), Count(Trunc(range / 2.0 * StepsPerMmY)))
  {
    var g := m.gantry;
    var hi := YMaxPhase(cfg, m, env);
    if !hi.ok then Homed(false, Machine(g.(y := hi.pos), m.zMaxTravel), Drop(env, hi.next), hi.trace)
    else
      var lo := YMinPhase(cfg, m, env);
      if !lo.ok then Homed(false, Machine(g.(y := lo.pos), m.zMaxTravel), Drop(env, lo.next), hi.trace + lo.trace)
      else
        var (y, run) := CentreY(Abs(hi.pos - lo.pos));
        var g' := g.(y := y, yMin := Min(lo.pos, hi.pos), yMax := Max(lo.pos, hi.pos));
        Homed(true, Machine(g', m.zMaxTravel), Drop(env, lo.next), hi.trace + lo.trace + [run])
  }

  /** The result of `home_cnc`, with the trace positions where X and Y homing begin. */
  datatype AllHomed = AllHomed(machine: Machine, env: Env, trace: Trace, xFrom: nat, yFrom: nat)

  /**
   * `home_cnc`: Z, then X, then Y, each started whatever the previous one
   * returned.  All three axes move, in that order, and each routine's
   * settings survive the ones after it.
   */
  function HomeCnc(cfg: Config, m: Machine, env: Env): (r: AllHomed)
    ensures 1 <= r.xFrom < r.yFrom < |r.trace|
    ensures OnlyOn(r.trace[..r.xFrom], Z) && OnlyOn(r.trace[r.xFrom..r.yFrom], X) && OnlyOn(r.trace[r.yFrom..], Y)
    ensures var z := HomeZ(cfg, m, env).machine;
      r.machine.zMaxTravel == z.zMaxTravel && r.machine.gantry.z == z.gantry.z
      && r.machine.gantry.zMaxHeight == z.gantry.zMaxHeight && r.machine.gantry.zRelease == z.gantry.zRelease
      && r.machine.gantry.zTravel == z.gantry.zTravel
    ensures var z := HomeZ(cfg, m, env);
      var x := HomeX(cfg, z.machine, z.env).machine;
      r.machine.gantry.x == x.gantry.x && r.machine.gantry.xMin == x.gantry.xMin && r.machine.gantry.xMax == x.gantry.xMax
    ensures r.machine.gantry.limitCheck == m.gantry.limitCheck
  {
    var z := HomeZ(cfg, m, env);
    var x := HomeX(cfg, z.machine, z.env);
    var y := HomeY(cfg, x.machine, x.env);
    var t := z.trace + x.trace + y.trace;
    assert t[..|z.trace|] == z.trace;
    assert t[|z.trace|..|z.trace| + |x.trace|] == x.trace;
    assert t[|z.trace| + |x.trace|..] == y.trace;
    AllHomed(y.machine, y.env, t, |z.trace|, |z.trace| + |x.trace|)
  }

  /**
   * Y is homed last, from the state X homing left, which Z homing left in
   * turn; the machine and sensors Y homing leaves are those of the whole,
   * and the trace is the three routines' traces in order.
   */
  lemma HomeCncSequence(cfg: Config, m: Machine, env: Env)
    ensures var z := HomeZ(cfg, m, env); var x := HomeX(cfg, z.machine, z.env); var y := HomeY(cfg, x.machine, x.env);
      var r := HomeCnc(cfg, m, env);
      r.machine == y.machine && r.env == y.env && r.trace == z.trace + x.trace + y.trace
  {
  }

  /** `get_z_limits`: the release height and the maximum height, as (Z_MIN, Z_MAX). */
  function GetZLimits(g: Gantry): (r: (real, real))
    ensures r.0 == g.zRelease && r.1 == g.zMaxHeight
  {
    (g.zRelease, g.zMaxHeight)
  }

  /**
   * Homing and the driver agree on X: a completed `move_x_axis` changes
   * the position by exactly what homing would account for its pulses.
   */
  lemma XConventionsAgree(g: Gantry, env: Env, steps: int, forward: bool)
    requires Quiet(env)
    ensures var r := MoveXAxis(g, env, steps, forward);
      r.gantry.x == g.x + Effect(r.run)
  {
  }

  /**
   * They disagree on Y: a completed forward `move_y_axes` increases the
   * position, while homing counts the same pulses (DIR Low on Y) as a
   * decrease.
   */
  lemma YConventionsDisagree(g: Gantry, env: Env, steps: int)
    requires Quiet(env) && steps > 0
    ensures var r := MoveYAxes(g, env, steps, true);
      r.gantry.y > g.y && Effect(r.run) < 0.0 && r.gantry.y == g.y - Effect(r.run)
  {
    var r := MoveYAxes(g, env, steps, true);
    assert r.run.pulses > 0;
  }
}
