/**
 * The motor driver and move planner: dead-reckoned step loops for X, the
 * paired Y motors and Z, and `move_to_position`, which checks XY soft limits
 * and orders the Z moves around X-then-Y travel.
 *
 * All module-level globals of the driver are one immutable `Gantry` record
 * that every operation takes and returns.
 */
module MotorControl {
  import opened Wrappers
  import opened Numeric
  import opened Sensors
  import opened Motion

  const StepsPerMmX: real := 80.0
  const StepsPerMmY: real := 80.0
  const StepsPerMmZ: real := 400.0

  /**
   * The driver's state: position estimates, XY soft limits, the Z working
   * heights homing derives, and whether a limit-check function is installed.
   */
  datatype Gantry = Gantry(
    x: real, y: real, z: real,
    xMin: real, xMax: real, yMin: real, yMax: real,
    zMaxHeight: real, zRelease: real, zTravel: real,
    limitCheck: bool)

  /** The module's state on import: every limit 0.0, Z heights 100 / 20 / 20, no limit check. */
  const Initial: Gantry := Gantry(0.0, 0.0, 0.0, 0.0, 0.0, 0.0, 0.0, 100.0, 20.0, 20.0, false)

  /** `get_limit_positions`. */
  function GetLimitPositions(g: Gantry): (r: (real, real, real, real))
    // the four values are exactly the soft limits: writing them back changes nothing
    ensures g.(xMin := r.0, xMax := r.1, yMin := r.2, yMax := r.3) == g
  {
    (g.xMin, g.xMax, g.yMin, g.yMax)
  }

  /** `get_current_position`. */
  function GetCurrentPosition(g: Gantry): (r: (real, real, real))
    // the three values are exactly the position estimate: writing them back changes nothing
    ensures g.(x := r.0, y := r.1, z := r.2) == g
  {
    (g.x, g.y, g.z)
  }

  /** The part of the state that no move changes. */
  predicate SameSettings(a: Gantry, b: Gantry)
  {
    GetLimitPositions(a) == GetLimitPositions(b)
    && a.zMaxHeight == b.zMaxHeight && a.zRelease == b.zRelease && a.zTravel == b.zTravel
    && a.limitCheck == b.limitCheck
  }

  /** `set_limit_positions`: the four soft limits read back unchanged, and nothing else moves. */
  function SetLimitPositions(g: Gantry, xMin: real, xMax: real, yMin: real, yMax: real): (r: Gantry)
    ensures GetLimitPositions(r) == (xMin, xMax, yMin, yMax)
    ensures GetCurrentPosition(r) == GetCurrentPosition(g)
    ensures r.zMaxHeight == g.zMaxHeight && r.zRelease == g.zRelease && r.zTravel == g.zTravel
    ensures r.limitCheck == g.limitCheck
  {
    g.(xMin := xMin, xMax := xMax, yMin := yMin, yMax := yMax)
  }

  /** `set_current_position`: the position reads back unchanged, and the settings are kept. */
  function SetCurrentPosition(g: Gantry, x: real, y: real, z: real): (r: Gantry)
    ensures GetCurrentPosition(r) == (x, y, z)
    ensures SameSettings(r, g)
  {
    g.(x := x, y := y, z := z)
  }

  /** `set_limit_check_function`, installing (or, with `on` false, removing) the limit check. */
  function SetLimitCheck(g: Gantry, on: bool): (r: Gantry)
    ensures r.limitCheck == on
    ensures GetCurrentPosition(r) == GetCurrentPosition(g)
    ensures GetLimitPositions(r) == GetLimitPositions(g)
  {
    g.(limitCheck := on)
  }

  /**
   * Whether the `k`-th limit check of a loop reading from `env` reports `sw`
   * triggered; each check is one `check_axis_limits` snapshot of six reads.
   */
  predicate SnapshotFlag(env: Env, k: nat, sw: Switch)
  {
    TriggeredAt(Drop(env, 6 * k), sw, ReadIndex(sw))
  }

  /** `SnapshotFlag` is what the installed check returns at that point. */
  lemma SnapshotIsCheck(env: Env, k: nat, sw: Switch)
    ensures SnapshotFlag(env, k, sw) == CheckLimit(Drop(env, 6 * k), sw).0
  {
  }

  datatype Stepped = Stepped(pos: real, pulses: nat, checks: nat)

  /** The number of loop passes before the first index from `first` on at which `stop` holds, at most `steps`. */
  function FirstStop(stop: nat -> bool, first: nat, steps: nat): (n: nat)
    ensures n <= steps
    ensures forall k :: first <= k < first + n ==> !stop(k)
    ensures n < steps ==> stop(first + n)
    decreases steps
  {
    if steps == 0 || stop(first) then 0 else 1 + FirstStop(stop, first + 1, steps - 1)
  }

  /**
   * The loop shared by the three drivers: before each of up to `steps`
   * pulses, consult the installed limit check (if any) for `guard` and stop
   * if it reports triggered.  The checks read successive snapshots of
   * `env` (`SnapshotIsCheck`: each answers what the installed `CheckLimit`
   * would); the result is the number of pulses issued.
   */
  function Pulses(env: Env, steps: nat, check: bool, guard: Switch): (n: nat)
    ensures n <= steps
    ensures !check ==> n == steps
    ensures check ==> forall k :: 0 <= k < n ==> !SnapshotFlag(env, k, guard)
    ensures n < steps ==> check && SnapshotFlag(env, n, guard)
  {
    if !check then steps
    else
      var stop := (k: nat) => SnapshotFlag(env, k, guard);
      var n := FirstStop(stop, 0, steps);
      assert forall k: nat :: stop(k) == SnapshotFlag(env, k, guard);
      n
  }

  /** How many limit checks a loop of `steps` makes when it issues `n` pulses: one before each pulse, and the one that stopped it. */
  function Checks(n: nat, steps: nat, check: bool): nat
  {
    if !check then 0 else if n < steps then n + 1 else n
  }

  /**
   * Runs the loop from the first snapshot, moving the estimate one pulse's
   * length (`1/spm`, signed by the direction) per pulse, which adds up to
   * `Travel` (`PulseTravel`), and reports what remains of `env`.
   */
  function Step(env: Env, pos: real, forward: bool, spm: real, steps: nat, check: bool, guard: Switch): (r: (Stepped, Env))
    requires spm > 0.0
    ensures r.0.pulses == Pulses(env, steps, check, guard)
    ensures r.0.pos == pos + Travel(r.0.pulses, forward, spm)
    ensures r.0.checks == Checks(r.0.pulses, steps, check)
    ensures r.1 == Drop(env, 6 * r.0.checks)
    ensures !check ==> r.1 == env
    ensures check ==> r.1 == Drop(env, 6 * (if r.0.pulses < steps then r.0.pulses + 1 else r.0.pulses))
    ensures Quiet(env) ==> r.0.pulses == steps && Quiet(r.1)
  {
    var n := Pulses(env, steps, check, guard);
    var s := Stepped(pos + Travel(n, forward, spm), n, Checks(n, steps, check));
    QuietSteps(env, guard, s, steps);
    assert Drop(env, 0) == env;
    (s, Drop(env, 6 * s.checks))
  }

  /** `n` pulses of `1/spm` each, one after the other, cover the signed distance `Travel(n, forward, spm)`. */
  lemma PulseTravel(pos: real, n: nat, forward: bool, spm: real)
    requires spm > 0.0
    ensures Advance(pos, n, if forward then 1.0 / spm else -(1.0 / spm)) == pos + Travel(n, forward, spm)
  {
    var u := 1.0 / spm;
    assert n as real * u == n as real / spm;
    if forward {
      assert Advance(pos, n, u) == pos + n as real * u;
    } else {
      assert Advance(pos, n, -u) == pos + n as real * -u;
      assert n as real * -u == -(n as real * u);
    }
  }

  /**
   * In a quiet environment no snapshot reports a limit, so a driver loop
   * runs to completion and leaves the environment quiet.
   */
  lemma QuietSteps(env: Env, guard: Switch, s: Stepped, steps: nat)
    requires s.pulses <= steps
    requires s.pulses < steps ==> SnapshotFlag(env, s.pulses, guard)
    ensures Quiet(env) ==> s.pulses == steps && Quiet(Drop(env, 6 * s.checks))
  {
    if Quiet(env) {
      QuietDrop(env, 6 * s.pulses);
      assert !TriggeredAt(Drop(env, 6 * s.pulses), guard, ReadIndex(guard));
      QuietDrop(env, 6 * s.checks);
    }
  }

  /** The switch each driver consults in its direction of travel. */
  function XGuard(forward: bool): Switch { if forward then XMax else XMin }
  function YGuard(forward: bool): Switch { if forward then YMax else YMin }
  function ZGuard(up: bool): Switch { if up then ZMax else ZMin }

  /** The result of one driver call: new state, remaining reads, and the run it records. */
  datatype Driven = Driven(gantry: Gantry, env: Env, run: Run)

  /** The signed distance of `n` pulses at `spm` pulses per millimetre. */
  function Travel(n: nat, forward: bool, spm: real): real
    requires spm > 0.0
  {
    if forward then n as real / spm else -(n as real / spm)
  }

  /** `move_x_axis`: forward (toward X-MAX) writes DIR High and stops on x_max. */
  function MoveXAxis(g: Gantry, env: Env, steps: int, forward: bool): (r: Driven)
    ensures r.run == Run(X, if forward then High else Low, Drive, steps, r.run.pulses)
    ensures r.run.pulses <= Count(steps)
    ensures r.gantry == g.(x := g.x + Travel(r.run.pulses, forward, StepsPerMmX))
    ensures !g.limitCheck ==> r.run.pulses == Count(steps) && r.env == env
    ensures g.limitCheck ==> forall k :: 0 <= k < r.run.pulses ==> !SnapshotFlag(env, k, XGuard(forward))
    ensures r.run.pulses < Count(steps) ==> SnapshotFlag(env, r.run.pulses, XGuard(forward))
    ensures g.limitCheck ==> r.env == Drop(env, 6 * (if r.run.pulses < Count(steps) then r.run.pulses + 1 else r.run.pulses))
    ensures Quiet(env) ==> r.run.pulses == Count(steps) && Quiet(r.env)
  {
    var st := Step(env, g.x, forward, StepsPerMmX, Count(steps), g.limitCheck, XGuard(forward));
    var s, rest := st.0, st.1;
    Driven(g.(x := s.pos), rest, Run(X, if forward then High else Low, Drive, steps, s.pulses))
  }

  /** `move_y_axes`: both Y motors; forward (toward Y-MAX) writes DIR Low and stops on y_max. */
  function MoveYAxes(g: Gantry, env: Env, steps: int, forward: bool): (r: Driven)
    ensures r.run == Run(Y, if forward then Low else High, Drive, steps, r.run.pulses)
    ensures r.run.pulses <= Count(steps)
    ensures r.gantry == g.(y := g.y + Travel(r.run.pulses, forward, StepsPerMmY))
    ensures !g.limitCheck ==> r.run.pulses == Count(steps) && r.env == env
    ensures g.limitCheck ==> forall k :: 0 <= k < r.run.pulses ==> !SnapshotFlag(env, k, YGuard(forward))
    ensures r.run.pulses < Count(steps) ==> SnapshotFlag(env, r.run.pulses, YGuard(forward))
    ensures g.limitCheck ==> r.env == Drop(env, 6 * (if r.run.pulses < Count(steps) then r.run.pulses + 1 else r.run.pulses))
    ensures Quiet(env) ==> r.run.pulses == Count(steps) && Quiet(r.env)
  {
    var st := Step(env, g.y, forward, StepsPerMmY, Count(steps), g.limitCheck, YGuard(forward));
    var s, rest := st.0, st.1;
    Driven(g.(y := s.pos), rest, Run(Y, if forward then Low else High, Drive, steps, s.pulses))
  }

  /**
   * `move_z_axis`: up writes DIR Low and stops on z_max; afterwards the
   * estimate is clamped into [0, Z_MAX_HEIGHT].
   */
  function MoveZAxis(g: Gantry, env: Env, steps: int, up: bool): (r: Driven)
    ensures r.run == Run(Z, if up then Low else High, Drive, steps, r.run.pulses)
    ensures r.run.pulses <= Count(steps)
    ensures r.gantry == g.(z := Clamp(g.z + Travel(r.run.pulses, up, StepsPerMmZ), g.zMaxHeight))
    ensures 0.0 <= r.gantry.z && (0.0 <= g.zMaxHeight ==> r.gantry.z <= g.zMaxHeight)
    ensures !g.limitCheck ==> r.run.pulses == Count(steps) && r.env == env
    ensures g.limitCheck ==> forall k :: 0 <= k < r.run.pulses ==> !SnapshotFlag(env, k, ZGuard(up))
    ensures r.run.pulses < Count(steps) ==> SnapshotFlag(env, r.run.pulses, ZGuard(up))
    ensures g.limitCheck ==> r.env == Drop(env, 6 * (if r.run.pulses < Count(steps) then r.run.pulses + 1 else r.run.pulses))
    ensures Quiet(env) ==> r.run.pulses == Count(steps) && Quiet(r.env)
  {
    var st := Step(env, g.z, up, StepsPerMmZ, Count(steps), g.limitCheck, ZGuard(up));
    var s, rest := st.0, st.1;
    Driven(g.(z := Clamp(s.pos, g.zMaxHeight)), rest, Run(Z, if up then Low else High, Drive, steps, s.pulses))
  }

  /** Why `move_to_position` returned: it moved, or it rejected the target before any motion. */
  datatype Outcome = Moved | XOutOfRange | YOutOfRange

  /**
   * The driver calls `move_to_position` makes, in the order it makes them:
   * an optional Z pre-lower, X, Y, and an optional final Z move.
   */
  datatype Plan = Plan(preZ: Option<Run>, xRun: Option<Run>, yRun: Option<Run>, postZ: Option<Run>)

  const NoMotion: Plan := Plan(None, None, None, None)

  function Runs(o: Option<Run>): Trace
  {
    if o.Some? then [o.value] else []
  }

  /** The recorded trace of a plan. */
  function PlanTrace(p: Plan): Trace
  {
    Runs(p.preZ) + Runs(p.xRun) + Runs(p.yRun) + Runs(p.postZ)
  }

  /** A `move_to_position` call: its outcome, the state after it, its driver calls, and the Z estimate during XY travel. */
  datatype Planned = Planned(outcome: Outcome, gantry: Gantry, env: Env, plan: Plan, travelZ: real)

  /** A driver call that may be skipped: the state passes through unchanged when it is. */
  datatype Stage = Stage(gantry: Gantry, env: Env, run: Option<Run>)

  function Skip(g: Gantry, env: Env): Stage
  {
    Stage(g, env, None)
  }

  function Did(d: Driven): Stage
  {
    Stage(d.gantry, d.env, Some(d.run))
  }

  /** Whether `v` lies between `a` and `b`, in either order. */
  predicate Between(v: real, a: real, b: real)
  {
    (a <= v <= b) || (b <= v <= a)
  }

  /** The pulse count `move_to_position` and `move_z` derive from a distance. */
  function StepsFor(distance: real, spm: real): int
  {
    Trunc(Abs(distance) * spm)
  }

  /**
   * Whether every driver call completes its requested pulses: no limit
   * check is installed, or none of the remaining reads finds a switch
   * triggered.
   */
  predicate Completes(g: Gantry, env: Env)
  {
    !g.limitCheck || Quiet(env)
  }

  /** Whether `move_to_position` lowers Z before XY travel: Z is above release and the target is lower. */
  predicate PreLowers(g: Gantry, z: Option<real>)
  {
    !(g.z <= g.zRelease) && z.Some? && z.value < g.z
  }

  /** The pre-lower run is made exactly when `PreLowers`, as a downward Z run by the truncated distance to the target. */
  predicate PreZFor(g: Gantry, z: Option<real>, o: Option<Run>)
  {
    (o.Some? <==> PreLowers(g, z))
    && (o.Some? ==> o.value.axis == Z && o.value.dir == High && o.value.requested == StepsFor(g.z - z.value, StepsPerMmZ))
  }

  /** The X run is made exactly when its truncated step count is positive, toward X-MAX (DIR High) when the target is greater. */
  predicate XRunFor(g: Gantry, x: real, o: Option<Run>)
  {
    (o.Some? <==> StepsFor(x - g.x, StepsPerMmX) > 0)
    && (o.Some? ==> o.value.axis == X && o.value.requested == StepsFor(x - g.x, StepsPerMmX)
                    && (o.value.dir == High <==> x - g.x > 0.0))
  }

  /** The Y run likewise, toward Y-MAX (DIR Low) when the target is greater. */
  predicate YRunFor(g: Gantry, y: real, o: Option<Run>)
  {
    (o.Some? <==> StepsFor(y - g.y, StepsPerMmY) > 0)
    && (o.Some? ==> o.value.axis == Y && o.value.requested == StepsFor(y - g.y, StepsPerMmY)
                    && (o.value.dir == Low <==> y - g.y > 0.0))
  }

  /**
   * The final Z run, judged against the estimate `zMid` left by the
   * pre-lower: upward (DIR Low) exactly when the target is higher, downward
   * (DIR High) exactly when it is lower and Z started at or below the
   * release height, each by the truncated distance; otherwise none.
   */
  predicate PostZFor(zWasLow: bool, zMid: real, z: Option<real>, o: Option<Run>)
  {
    (o.Some? ==> o.value.axis == Z)
    && (o.Some? && o.value.dir == Low <==> z.Some? && z.value > zMid)
    && (o.Some? && o.value.dir == High <==> z.Some? && z.value < zMid && zWasLow)
    && (o.Some? && z.Some? ==> o.value.requested == StepsFor(z.value - zMid, StepsPerMmZ))
  }

  /** The Z pre-lower of `move_to_position`: straight to the target z, not to the release height. */
  function PreLower(g: Gantry, env: Env, z: Option<real>): (s: Stage)
    ensures PreZFor(g, z, s.run)
    ensures s.gantry == g.(z := s.gantry.z)
    ensures !PreLowers(g, z) ==> s == Skip(g, env)
    ensures Quiet(env) ==> Quiet(s.env)
    ensures Completes(g, env) && PreLowers(g, z) && 0.0 <= z.value <= g.zMaxHeight ==>
              z.value <= s.gantry.z < z.value + 1.0 / StepsPerMmZ
  {
    if PreLowers(g, z) then
      var d := MoveZAxis(g, env, StepsFor(g.z - z.value, StepsPerMmZ), false);
      assert StepsFor(g.z - z.value, StepsPerMmZ) == StepsFor(z.value - g.z, StepsPerMmZ);
      ClampedApproach(g.z, z.value, g.zMaxHeight, d.run.pulses);
      Did(d)
    else Skip(g, env)
  }

  /** The X leg: skipped when the truncated step count is zero. */
  function XLeg(g: Gantry, env: Env, x: real): (s: Stage)
    ensures XRunFor(g, x, s.run)
    ensures s.gantry == g.(x := s.gantry.x)
    ensures Between(s.gantry.x, g.x, x)
    ensures Quiet(env) ==> Quiet(s.env)
    ensures Completes(g, env) ==> Abs(s.gantry.x - x) < 1.0 / StepsPerMmX
  {
    var steps := StepsFor(x - g.x, StepsPerMmX);
    if steps > 0 then
      var d := MoveXAxis(g, env, steps, x - g.x > 0.0);
      StepApproach(g.x, x, StepsPerMmX, d.run.pulses);
      Did(d)
    else
      StepApproach(g.x, x, StepsPerMmX, 0);
      Skip(g, env)
  }

  /** The Y leg: skipped when the truncated step count is zero. */
  function YLeg(g: Gantry, env: Env, y: real): (s: Stage)
    ensures YRunFor(g, y, s.run)
    ensures s.gantry == g.(y := s.gantry.y)
    ensures Between(s.gantry.y, g.y, y)
    ensures Quiet(env) ==> Quiet(s.env)
    ensures Completes(g, env) ==> Abs(s.gantry.y - y) < 1.0 / StepsPerMmY
  {
    var steps := StepsFor(y - g.y, StepsPerMmY);
    if steps > 0 then
      var d := MoveYAxes(g, env, steps, y - g.y > 0.0);
      StepApproach(g.y, y, StepsPerMmY, d.run.pulses);
      Did(d)
    else
      StepApproach(g.y, y, StepsPerMmY, 0);
      Skip(g, env)
  }

  /**
   * The final Z move of `move_to_position`, judged against the estimate `g`
   * after XY travel: raise if the target is higher; lower only if Z started
   * at or below the release height.
   */
  function FinalZ(g: Gantry, env: Env, z: Option<real>, zWasLow: bool): (s: Stage)
    ensures PostZFor(zWasLow, g.z, z, s.run)
    ensures s.run.None? ==> s == Skip(g, env)
    ensures s.gantry == g.(z := s.gantry.z)
    ensures Quiet(env) ==> Quiet(s.env)
    ensures Completes(g, env) && z.Some? && 0.0 <= z.value <= g.zMaxHeight
              && (zWasLow || g.z < z.value + 1.0 / StepsPerMmZ) ==>
              Abs(s.gantry.z - z.value) < 1.0 / StepsPerMmZ
  {
    if z.None? then Skip(g, env)
    else if z.value > g.z then
      var d := MoveZAxis(g, env, StepsFor(z.value - g.z, StepsPerMmZ), true);
      ClampedApproach(g.z, z.value, g.zMaxHeight, d.run.pulses);
      Did(d)
    else if z.value < g.z && zWasLow then
      var d := MoveZAxis(g, env, StepsFor(g.z - z.value, StepsPerMmZ), false);
      assert StepsFor(g.z - z.value, StepsPerMmZ) == StepsFor(z.value - g.z, StepsPerMmZ);
      ClampedApproach(g.z, z.value, g.zMaxHeight, d.run.pulses);
      Did(d)
    else Skip(g, env)
  }

  /** The two travel legs: the state after them and the runs they made. */
  datatype Legs = Legs(gantry: Gantry, env: Env, xRun: Option<Run>, yRun: Option<Run>)

  /** X travel, then Y travel, each skipped when its truncated step count is zero. */
  function TravelXY(g: Gantry, env: Env, x: real, y: real): (t: Legs)
    ensures XRunFor(g, x, t.xRun) && YRunFor(g, y, t.yRun)
    ensures t.gantry == g.(x := t.gantry.x, y := t.gantry.y)
    ensures Between(t.gantry.x, g.x, x) && Between(t.gantry.y, g.y, y)
    ensures Quiet(env) ==> Quiet(t.env)
    ensures Completes(g, env) ==> Abs(t.gantry.x - x) < 1.0 / StepsPerMmX && Abs(t.gantry.y - y) < 1.0 / StepsPerMmY
  {
    var sx := XLeg(g, env, x);
    var sy := YLeg(sx.gantry, sx.env, y);
    Legs(sy.gantry, sy.env, sx.run, sy.run)
  }

  /** The motion of an accepted `move_to_position`: pre-lower, travel, final Z. */
  function Accepted(g: Gantry, env: Env, x: real, y: real, z: Option<real>): (r: Planned)
    ensures r.outcome == Moved && SameSettings(r.gantry, g)
    ensures PreZFor(g, z, r.plan.preZ) && PostZFor(g.z <= g.zRelease, r.travelZ, z, r.plan.postZ)
    ensures r.plan.preZ.None? ==> r.travelZ == g.z
    ensures XRunFor(g, x, r.plan.xRun) && YRunFor(g, y, r.plan.yRun)
    ensures z.None? ==> r.gantry.z == g.z
    ensures Between(r.gantry.x, g.x, x) && Between(r.gantry.y, g.y, y)
    ensures Quiet(env) ==> Quiet(r.env)
  {
    var zWasLow := g.z <= g.zRelease;
    var s1 := PreLower(g, env, z);
    var t := TravelXY(s1.gantry, s1.env, x, y);
    var s4 := FinalZ(t.gantry, t.env, z, zWasLow);
    Composed(g, env, x, y, z, s1, t, s4);
    Planned(Moved, s4.gantry, s4.env, Plan(s1.run, t.xRun, t.yRun, s4.run), s1.gantry.z)
  }

  /** The guarantees of the three stages of an accepted move add up to those of the whole. */
  lemma Composed(g: Gantry, env: Env, x: real, y: real, z: Option<real>, s1: Stage, t: Legs, s4: Stage)
    requires PreZFor(g, z, s1.run) && s1.gantry == g.(z := s1.gantry.z)
    requires !PreLowers(g, z) ==> s1 == Skip(g, env)
    requires Quiet(env) ==> Quiet(s1.env)
    requires XRunFor(s1.gantry, x, t.xRun) && YRunFor(s1.gantry, y, t.yRun)
    requires t.gantry == s1.gantry.(x := t.gantry.x, y := t.gantry.y)
    requires Between(t.gantry.x, s1.gantry.x, x) && Between(t.gantry.y, s1.gantry.y, y)
    requires Quiet(s1.env) ==> Quiet(t.env)
    requires PostZFor(g.z <= g.zRelease, t.gantry.z, z, s4.run)
    requires s4.run.None? ==> s4 == Skip(t.gantry, t.env)
    requires s4.gantry == t.gantry.(z := s4.gantry.z)
    requires Quiet(t.env) ==> Quiet(s4.env)
    ensures SameSettings(s4.gantry, g)
    ensures PreZFor(g, z, s1.run) && PostZFor(g.z <= g.zRelease, s1.gantry.z, z, s4.run)
    ensures !PreLowers(g, z) ==> s1.gantry.z == g.z
    ensures XRunFor(g, x, t.xRun) && YRunFor(g, y, t.yRun)
    ensures z.None? ==> s4.gantry.z == g.z
    ensures Between(s4.gantry.x, g.x, x) && Between(s4.gantry.y, g.y, y)
    ensures Quiet(env) ==> Quiet(s4.env)
  {
    assert s1.gantry.x == g.x && s1.gantry.y == g.y;
    assert s4.gantry.x == t.gantry.x && s4.gantry.y == t.gantry.y;
    assert t.gantry.z == s1.gantry.z;
  }

  /**
   * `move_to_position`: reject an XY target outside the soft limits before
   * any motion; otherwise lower Z first when it is high and descending, move
   * X then Y by truncated step counts (skipping zero-step axes), and finish
   * with the Z move that is still needed.
   */
  function MoveToPosition(g: Gantry, env: Env, x: real, y: real, z: Option<real>): (r: Planned)
    // fail-closed soft limits: a rejected target changes nothing
    ensures r.outcome == XOutOfRange <==> x < g.xMin || x > g.xMax
    ensures r.outcome == YOutOfRange <==> !(x < g.xMin || x > g.xMax) && (y < g.yMin || y > g.yMax)
    ensures r.outcome != Moved ==> r.gantry == g && r.env == env && r.plan == NoMotion
    ensures SameSettings(r.gantry, g)
    // the Z interlock, then X and Y by truncated step counts, zero-step axes skipped
    ensures r.outcome == Moved ==> PreZFor(g, z, r.plan.preZ) && PostZFor(g.z <= g.zRelease, r.travelZ, z, r.plan.postZ)
    ensures r.plan.preZ.None? ==> r.travelZ == g.z
    ensures r.outcome == Moved ==> XRunFor(g, x, r.plan.xRun) && YRunFor(g, y, r.plan.yRun)
    ensures z.None? ==> r.gantry.z == g.z
    // dead reckoning: XY end between start and target
    ensures Between(r.gantry.x, g.x, x) && Between(r.gantry.y, g.y, y)
    ensures Quiet(env) ==> Quiet(r.env)
  {
    if x < g.xMin || x > g.xMax then Planned(XOutOfRange, g, env, NoMotion, g.z)
    else if y < g.yMin || y > g.yMax then Planned(YOutOfRange, g, env, NoMotion, g.z)
    else Accepted(g, env, x, y, z)
  }

  /**
   * A `move_to_position` call as a caller sees it: fail-closed limits, the
   * settings kept, and, when every driver call completes, an accepted move
   * within one step of its target.
   */
  method CallMoveToPosition(g: Gantry, env: Env, x: real, y: real, z: Option<real>) returns (r: Planned)
    ensures r.outcome != Moved ==> r.gantry == g && r.env == env
    ensures r.outcome == Moved <==> g.xMin <= x <= g.xMax && g.yMin <= y <= g.yMax
    ensures SameSettings(r.gantry, g)
    ensures Quiet(env) ==> Quiet(r.env)
    ensures Completes(g, env) && r.outcome == Moved ==>
              Abs(r.gantry.x - x) < 1.0 / StepsPerMmX && Abs(r.gantry.y - y) < 1.0 / StepsPerMmY
              && (z.Some? && 0.0 <= z.value <= g.zMaxHeight ==> Abs(r.gantry.z - z.value) < 1.0 / StepsPerMmZ)
  {
    r := MoveToPosition(g, env, x, y, z);
    if Completes(g, env) {
      MoveToPositionAccuracy(g, env, x, y, z);
    }
  }

  /** `move_z`: one Z driver call by the truncated step count toward `zTarget`. */
  function MoveZ(g: Gantry, env: Env, zTarget: real): (r: Driven)
    ensures r.run.axis == Z && r.run.requested == StepsFor(zTarget - g.z, StepsPerMmZ)
    ensures r.run.dir == Low <==> zTarget - g.z > 0.0
    ensures SameSettings(r.gantry, g) && r.gantry.x == g.x && r.gantry.y == g.y
    ensures Quiet(env) ==> Quiet(r.env)
    ensures Completes(g, env) && 0.0 <= zTarget <= g.zMaxHeight ==> Abs(r.gantry.z - zTarget) < 1.0 / StepsPerMmZ
  {
    var d := MoveZAxis(g, env, StepsFor(zTarget - g.z, StepsPerMmZ), zTarget - g.z > 0.0);
    ClampedApproach(g.z, zTarget, g.zMaxHeight, d.run.pulses);
    d
  }

  /**
   * With no limit check installed every leg of an accepted move completes,
   * so the estimate lands within one step of the target on each axis; Z
   * only when the target lies inside [0, Z_MAX_HEIGHT], where the clamp is
   * harmless.
   */
  lemma MoveToPositionAccuracy(g: Gantry, env: Env, x: real, y: real, z: Option<real>)
    requires Completes(g, env)
    ensures var r := MoveToPosition(g, env, x, y, z);
      r.outcome == Moved ==>
        Abs(r.gantry.x - x) < 1.0 / StepsPerMmX && Abs(r.gantry.y - y) < 1.0 / StepsPerMmY
        && (z.Some? && 0.0 <= z.value <= g.zMaxHeight ==> Abs(r.gantry.z - z.value) < 1.0 / StepsPerMmZ)
  {
    var r := MoveToPosition(g, env, x, y, z);
    if r.outcome == Moved {
      var zWasLow := g.z <= g.zRelease;
      var s1 := PreLower(g, env, z);
      var t := TravelXY(s1.gantry, s1.env, x, y);
      var s4 := FinalZ(t.gantry, t.env, z, zWasLow);
      assert r == Accepted(g, env, x, y, z);
      assert r.gantry == s4.gantry;
      assert t.gantry.z == s1.gantry.z;
      if z.Some? && 0.0 <= z.value <= g.zMaxHeight && !zWasLow {
        assert t.gantry.z < z.value + 1.0 / StepsPerMmZ;
      }
    }
  }

  /**
   * A driver call of at most the truncated step count toward a target ends
   * between start and target, and, when it completes, within one step of it.
   */
  lemma StepApproach(start: real, target: real, spm: real, p: nat)
    requires spm > 0.0
    requires p <= Count(StepsFor(target - start, spm))
    ensures Between(start + Travel(p, target - start > 0.0, spm), start, target)
    ensures p == Count(StepsFor(target - start, spm)) ==>
              Abs(start + Travel(p, target - start > 0.0, spm) - target) < 1.0 / spm
  {
    var d := target - start;
    var n := StepsFor(d, spm);
    TruncatedApproach(d, spm);
    assert 0 <= n && Count(n) == n;
    var (t, m, u) := (p as real / spm, n as real / spm, 1.0 / spm);
    assert 0.0 <= m <= Abs(d) < m + u;
    DivideMonotone(0.0, p as real, spm);
    DivideMonotone(p as real, n as real, spm);
    assert 0.0 <= t <= m;
    assert Travel(p, d > 0.0, spm) == (if d > 0.0 then t else -t);
    LinearApproach(start, target, t, m, u);
  }

  /** Moving `t` toward the target, with `t` at most `m` and `m` within `u` below the distance. */
  lemma LinearApproach(start: real, target: real, t: real, m: real, u: real)
    requires 0.0 <= t <= m <= Abs(target - start) < m + u
    ensures var e := start + (if target - start > 0.0 then t else -t);
      Between(e, start, target) && (t == m ==> Abs(e - target) < u)
  {
  }

  lemma DivideMonotone(a: real, b: real, c: real)
    requires a <= b && c > 0.0
    ensures a / c <= b / c
  {
    assert b / c - a / c == (b - a) / c;
  }

  /**
   * A completed Z call toward a target inside [0, Z_MAX_HEIGHT] ends, after
   * clamping, within one step of it, and never below it when descending.
   */
  lemma ClampedApproach(start: real, target: real, hi: real, p: nat)
    requires p <= Count(StepsFor(target - start, StepsPerMmZ))
    ensures var c := Clamp(start + Travel(p, target - start > 0.0, StepsPerMmZ), hi);
      p == Count(StepsFor(target - start, StepsPerMmZ)) && 0.0 <= target <= hi ==> Abs(c - target) < 1.0 / StepsPerMmZ && (target < start ==> target <= c)
  {
    StepApproach(start, target, StepsPerMmZ, p);
  }
}
