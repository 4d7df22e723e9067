/**
 * The checkers application on the CNC gantry: start-up (limit check,
 * homing, working heights, home position, board) and the pick-and-place
 * choreography of `move_piece`, executed against the motor driver.
 */
module Checkers {
  import opened Wrappers
  import opened Numeric
  import opened Sensors
  import opened Motion
  import opened MotorControl
  import Homing
  import Board

  /** The application's state after start-up. */
  datatype System = System(board: Board.Board, zMin: real, zMax: real, zAttach: real, zPlace: real, home: (real, real, real))

  /** Start-up's result: the application, the homed machine, the unread samples, the homing runs. */
  datatype Started = Started(system: System, machine: Homing.Machine, env: Env, trace: Trace)

  /** The heights start-up derives: attach 2 mm below the maximum, place 2 mm above the minimum. */
  const AttachMargin: real := 2.0
  const PlaceMargin: real := 2.0

  /**
   * `CNCCheckersSystem(board_size_mm, squares)`: install the limit check,
   * home, read the Z limits, remember the homed position as home, then
   * build the board, which fails on a square count of 0.
   */
  function Init(boardSize: real, squares: int, env: Env): (r: Result<Started>)
    ensures squares == 0 <==> r == Err(ZeroDivision)
    ensures r.Ok? ==> (r.value.machine.gantry.limitCheck
              && r.value.system.home == GetCurrentPosition(r.value.machine.gantry)
              && r.value.system.zMin == r.value.machine.gantry.zRelease
              && r.value.system.zMax == r.value.machine.gantry.zMaxHeight
              && r.value.system.zAttach == r.value.system.zMax - AttachMargin
              && r.value.system.zPlace == r.value.system.zMin + PlaceMargin
              && Board.NewBoard(boardSize, squares) == Ok(r.value.system.board))
    // the machine, the unread samples and the runs are those of homing with the limit check installed
    ensures r.Ok? ==> (var h := Homing.HomeCnc(Homing.Default, Homing.Machine(SetLimitCheck(Homing.Start.gantry, true), Homing.Start.zMaxTravel), env);
              r.value.machine == h.machine && r.value.env == h.env && r.value.trace == h.trace)
  {
    var m := Homing.Machine(SetLimitCheck(Homing.Start.gantry, true), Homing.Start.zMaxTravel);
    var homed := Homing.HomeCnc(Homing.Default, m, env);
    var g := homed.machine.gantry;
    var (zMin, zMax) := Homing.GetZLimits(g);
    var board := Board.NewBoard(boardSize, squares);
    if board.Err? then Err(board.error)
    else
      var sys := System(board.value, zMin, zMax, zMax - AttachMargin, zMin + PlaceMargin, GetCurrentPosition(g));
      Ok(Started(sys, homed.machine, homed.env, homed.trace))
  }

  /** One driver request of the choreography: `move_to_position(x, y, z)` or `move_z(z)`. */
  datatype Command = MoveTo(x: real, y: real, z: real) | MoveZTo(z: real)

  /** The XY point a square's centre maps to. */
  function Centre(b: Board.Board, sq: (int, int)): (real, real)
  {
    Board.BoardToCnc(b, Board.Square(sq.0), Board.Square(sq.1))
  }

  /**
   * `move_piece`: nothing (and False) unless both squares are valid;
   * otherwise the five requests: go to the start square at Z_MIN, raise to
   * the attach height, travel to the end square at that height, lower to
   * the place height, and return to the home XY at Z_MIN.
   */
  function MovePiece(s: System, from: (int, int), to: (int, int)): (r: Option<seq<Command>>)
    ensures r.None? <==> !(Board.IsValidSquare(s.board, from.0, from.1) && Board.IsValidSquare(s.board, to.0, to.1))
    ensures r.Some? ==> |r.value| == 5
    // the piece is picked up over `from` and put down over `to`, both at the attach height
    ensures r.Some? ==> (r.value[0].MoveTo? && (r.value[0].x, r.value[0].y) == Centre(s.board, from)
              && r.value[1] == MoveZTo(s.zAttach)
              && r.value[2] == MoveTo(Centre(s.board, to).0, Centre(s.board, to).1, s.zAttach))
    // the piece is released at the place height, then the head goes home at the minimum height
    ensures r.Some? ==> (r.value[3] == MoveZTo(s.zPlace) && r.value[4].MoveTo?
              && (r.value[4].x, r.value[4].y, r.value[4].z) == (s.home.0, s.home.1, s.zMin)
              && r.value[0].z == s.zMin)
  {
    if !(Board.IsValidSquare(s.board, from.0, from.1) && Board.IsValidSquare(s.board, to.0, to.1)) then None
    else
      var (sx, sy) := Centre(s.board, from);
      var (ex, ey) := Centre(s.board, to);
      var (hx, hy, _) := s.home;
      Some([MoveTo(sx, sy, s.zMin), MoveZTo(s.zAttach), MoveTo(ex, ey, s.zAttach), MoveZTo(s.zPlace), MoveTo(hx, hy, s.zMin)])
  }

  /**
   * Whether the gantry estimate `g` is where request `c` asked for, to
   * within one step per axis, given the request's outcome: a
   * `move_to_position` only when it was accepted, and Z only for a target
   * inside [0, Z_MAX_HEIGHT].
   */
  predicate Reached(g: Gantry, c: Command, o: Outcome)
  {
    match c
    case MoveTo(x, y, z) =>
      o == Moved ==>
        Abs(g.x - x) < 1.0 / StepsPerMmX && Abs(g.y - y) < 1.0 / StepsPerMmY
        && (0.0 <= z <= g.zMaxHeight ==> Abs(g.z - z) < 1.0 / StepsPerMmZ)
    case MoveZTo(z) =>
      0.0 <= z <= g.zMaxHeight ==> Abs(g.z - z) < 1.0 / StepsPerMmZ
  }

  datatype Applied = Applied(gantry: Gantry, env: Env, outcome: Outcome)

  /** Whether an XY target lies inside the soft limits of `g`. */
  predicate InLimits(g: Gantry, x: real, y: real)
  {
    g.xMin <= x <= g.xMax && g.yMin <= y <= g.yMax
  }

  /**
   * What one request does from `prev` to `next`, judged against the soft
   * limits of `lim`: a `move_to_position` is accepted exactly inside them,
   * and a `move_z` is always accepted and leaves X and Y alone.
   */
  predicate Stepped(lim: Gantry, prev: Gantry, c: Command, next: Gantry, o: Outcome)
  {
    (c.MoveTo? ==> (o == Moved <==> InLimits(lim, c.x, c.y)))
    && (c.MoveZTo? ==> o == Moved && next.x == prev.x && next.y == prev.y)
  }

  /** One request against the driver; `move_z` always counts as moved. */
  method Apply(g: Gantry, env: Env, c: Command) returns (r: Applied)
    ensures SameSettings(r.gantry, g)
    ensures Quiet(env) ==> Quiet(r.env)
    ensures c.MoveZTo? ==> r.outcome == Moved
    ensures Stepped(g, g, c, r.gantry, r.outcome)
    ensures r.outcome != Moved ==> r.gantry == g && r.env == env
    ensures Completes(g, env) ==> Reached(r.gantry, c, r.outcome)
  {
    match c
    case MoveTo(x, y, z) => r := ApplyMoveTo(g, env, x, y, z);
    case MoveZTo(z) => r := ApplyMoveZ(g, env, z);
  }

  method ApplyMoveTo(g: Gantry, env: Env, x: real, y: real, z: real) returns (r: Applied)
    ensures SameSettings(r.gantry, g)
    ensures Quiet(env) ==> Quiet(r.env)
    ensures r.outcome == Moved <==> InLimits(g, x, y)
    ensures r.outcome != Moved ==> r.gantry == g && r.env == env
    ensures Completes(g, env) ==> Reached(r.gantry, MoveTo(x, y, z), r.outcome)
  {
    var p := CallMoveToPosition(g, env, x, y, Some(z));
    r := Applied(p.gantry, p.env, p.outcome);
  }

  function ApplyMoveZ(g: Gantry, env: Env, z: real): (r: Applied)
    ensures SameSettings(r.gantry, g)
    ensures Quiet(env) ==> Quiet(r.env)
    ensures r.outcome == Moved
    ensures r.gantry.x == g.x && r.gantry.y == g.y
    ensures Completes(g, env) ==> Reached(r.gantry, MoveZTo(z), r.outcome)
  {
    var d := MoveZ(g, env, z);
    Applied(d.gantry, d.env, Moved)
  }

  /** What the requests did: the state after each one, its outcome, and the final state. */
  datatype Executed = Executed(gantry: Gantry, env: Env, states: seq<Gantry>, outcomes: seq<Outcome>)

  /**
   * The requests issued in order, each from the state the previous one
   * left.  A rejected request leaves the state as it was; with every driver
   * call completing, each request lands where it asked.
   */
  method Execute(g: Gantry, env: Env, cmds: seq<Command>) returns (r: Executed)
    ensures |r.states| == |cmds| && |r.outcomes| == |cmds|
    ensures SameSettings(r.gantry, g) && forall i :: 0 <= i < |cmds| ==> SameSettings(r.states[i], g)
    ensures |cmds| == 0 ==> r.gantry == g && r.env == env
    ensures |cmds| > 0 ==> r.gantry == r.states[|cmds| - 1]
    ensures Quiet(env) ==> Quiet(r.env)
    ensures forall i :: 0 <= i < |cmds| && cmds[i].MoveZTo? ==> r.outcomes[i] == Moved
    ensures |cmds| > 0 && r.outcomes[0] != Moved ==> r.states[0] == g
    ensures forall i :: 0 < i < |cmds| && r.outcomes[i] != Moved ==> r.states[i] == r.states[i - 1]
    ensures |cmds| > 0 ==> Stepped(g, g, cmds[0], r.states[0], r.outcomes[0])
    ensures forall i :: 0 < i < |cmds| ==> Stepped(g, r.states[i - 1], cmds[i], r.states[i], r.outcomes[i])
    ensures Completes(g, env) ==> forall i :: 0 <= i < |cmds| ==> Reached(r.states[i], cmds[i], r.outcomes[i])
  {
    var h, e := g, env;
    var states: seq<Gantry> := [];
    var outcomes: seq<Outcome> := [];
    for k := 0 to |cmds|
      invariant |states| == k && |outcomes| == k
      invariant SameSettings(h, g) && forall i :: 0 <= i < k ==> SameSettings(states[i], g)
      invariant k == 0 ==> h == g && e == env
      invariant k > 0 ==> h == states[k - 1]
      invariant Quiet(env) ==> Quiet(e)
      invariant forall i :: 0 <= i < k && cmds[i].MoveZTo? ==> outcomes[i] == Moved
      invariant k > 0 && outcomes[0] != Moved ==> states[0] == g
      invariant forall i :: 0 < i < k && outcomes[i] != Moved ==> states[i] == states[i - 1]
      invariant k > 0 ==> Stepped(g, g, cmds[0], states[0], outcomes[0])
      invariant forall i :: 0 < i < k ==> Stepped(g, states[i - 1], cmds[i], states[i], outcomes[i])
      invariant Completes(g, env) ==> Completes(h, e) && forall i :: 0 <= i < k ==> Reached(states[i], cmds[i], outcomes[i])
    {
      var a := Apply(h, e, cmds[k]);
      h, e := a.gantry, a.env;
      states := states + [h];
      outcomes := outcomes + [a.outcome];
    }
    r := Executed(h, e, states, outcomes);
  }

  /** Whether the gantry estimate lies over square `sq`, by `cnc_to_board`. */
  predicate OverSquare(b: Board.Board, g: Gantry, sq: (int, int))
  {
    Board.CncToBoard(b, g.x, g.y) == Ok(sq)
  }

  /**
   * `move_piece` carried out: False, with no request, unless both squares
   * are valid; otherwise the five requests of `MovePiece` run in order.
   * With every driver call completing, the head stands over the start
   * square after the first request and over the end square after the
   * third when those travel moves are accepted (on squares at least 1 mm
   * wide), at the attach height after the second and the place height
   * after the fourth (when those lie inside [0, Z_MAX_HEIGHT]), and within
   * a step of the home XY after an accepted return.
   */
  method RunMovePiece(s: System, g: Gantry, env: Env, from: (int, int), to: (int, int)) returns (ok: bool, r: Executed)
    ensures ok <==> Board.IsValidSquare(s.board, from.0, from.1) && Board.IsValidSquare(s.board, to.0, to.1)
    ensures !ok ==> r == Executed(g, env, [], [])
    ensures ok ==> |r.states| == 5 && |r.outcomes| == 5 && r.gantry == r.states[4] && SameSettings(r.gantry, g)
    // the three travel moves are accepted exactly when their targets lie inside the soft limits
    ensures ok ==> ((r.outcomes[0] == Moved <==> InLimits(g, Centre(s.board, from).0, Centre(s.board, from).1))
                    && (r.outcomes[2] == Moved <==> InLimits(g, Centre(s.board, to).0, Centre(s.board, to).1))
                    && (r.outcomes[4] == Moved <==> InLimits(g, s.home.0, s.home.1)))
    // the head raises and lowers in place: over the start square for the pick, over the end square for the place
    ensures ok ==> ((r.states[1].x, r.states[1].y) == (r.states[0].x, r.states[0].y)
                    && (r.states[3].x, r.states[3].y) == (r.states[2].x, r.states[2].y))
    ensures ok && Completes(g, env) && 1.0 <= s.board.squareSize ==>
              (r.outcomes[0] == Moved ==> OverSquare(s.board, r.states[0], from))
              && (r.outcomes[2] == Moved ==> OverSquare(s.board, r.states[2], to))
    ensures ok && Completes(g, env) && 0.0 <= s.zAttach <= g.zMaxHeight ==> Abs(r.states[1].z - s.zAttach) < 1.0 / StepsPerMmZ
    ensures ok && Completes(g, env) && 0.0 <= s.zPlace <= g.zMaxHeight ==> Abs(r.states[3].z - s.zPlace) < 1.0 / StepsPerMmZ
    ensures ok && Completes(g, env) && r.outcomes[4] == Moved ==>
              Abs(r.gantry.x - s.home.0) < 1.0 / StepsPerMmX && Abs(r.gantry.y - s.home.1) < 1.0 / StepsPerMmY
  {
    var plan := MovePiece(s, from, to);
    if plan.None? {
      return false, Executed(g, env, [], []);
    }
    var cmds := plan.value;
    ok := true;
    r := Execute(g, env, cmds);
    if Completes(g, env) {
      assert Reached(r.states[0], cmds[0], r.outcomes[0]) && Reached(r.states[2], cmds[2], r.outcomes[2]);
      if 1.0 <= s.board.squareSize {
        if r.outcomes[0] == Moved {
          LandedOverSquare(s.board, r.states[0], cmds[0], from);
        }
        if r.outcomes[2] == Moved {
          LandedOverSquare(s.board, r.states[2], cmds[2], to);
        }
      }
      assert Reached(r.states[1], cmds[1], r.outcomes[1]) && Reached(r.states[3], cmds[3], r.outcomes[3]);
      assert r.states[1].zMaxHeight == g.zMaxHeight && r.states[3].zMaxHeight == g.zMaxHeight;
      assert Reached(r.states[4], cmds[4], r.outcomes[4]);
    }
  }

  lemma LandedOverSquare(b: Board.Board, g: Gantry, c: Command, sq: (int, int))
    requires 1.0 <= b.squareSize && 0 <= sq.0 && 0 <= sq.1
    requires c.MoveTo? && (c.x, c.y) == Centre(b, sq) && Reached(g, c, Moved)
    ensures OverSquare(b, g, sq)
  {
    var (cx, cy) := Centre(b, sq);
    assert Abs(g.x - cx) < 1.0 / StepsPerMmX && Abs(g.y - cy) < 1.0 / StepsPerMmY;
    NearCentre(b.squareSize, sq.0, g.x, b.offsetX, cx);
    NearCentre(b.squareSize, sq.1, g.y, b.offsetY, cy);
  }

  /** Scaling by a factor of at least 1 does not shrink a magnitude. */
  lemma ScaleAtLeast(d: real, s: real)
    requires 1.0 <= s
    ensures Abs(d) <= Abs(d * s)
  {
    assert d * s - d == d * (s - 1.0);
    if d >= 0.0 {
      assert d * (s - 1.0) >= 0.0;
    } else {
      assert d * (s - 1.0) <= 0.0;
    }
  }

  /**
   * A coordinate within one X/Y step of square `i`'s centre truncates back
   * to `i`, when squares are at least 1 mm wide.
   */
  lemma NearCentre(s: real, i: int, v: real, offset: real, c: real)
    requires 0 <= i && 1.0 <= s
    requires c - offset == (i as real + 0.5) * s && Abs(v - c) < 1.0 / 80.0
    ensures Trunc((v - offset) / s) == i
  {
    var q := (v - offset) / s;
    var m := i as real + 0.5;
    assert q * s == v - offset;
    assert (q - m) * s == v - c;
    ScaleAtLeast(q - m, s);
    assert i as real < q < i as real + 1.0;
  }
}
