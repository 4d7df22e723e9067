/**
 * Board calibration of the CNC checkers application: re-home, find the
 * board in a camera frame, record the gantry position at four corners,
 * and derive the board offset and size from them; saving and loading
 * the result.
 */
module Calibration {
  import opened Wrappers
  import opened Numeric
  import opened Sensors
  import opened Store
  import Homing
  import Board

  /** The four recorded XY positions, in the order the operator is asked for them. */
  datatype Corners = Corners(bottomLeft: (real, real), bottomRight: (real, real), topRight: (real, real), topLeft: (real, real))

  /** The calibration object: the board it adjusts and the data of the last calibration or load. */
  datatype Calibration = Calibration(board: Board.Board, data: Option<Archive>)

  /** What calibration observes besides the gantry: whether a frame was captured, and the corners found in it. */
  datatype Camera = Camera(frame: bool, imageCorners: Option<seq<(real, real)>>)

  /** The entries calibration stores. */
  const OffsetXKey: string := "board_offset_x"
  const OffsetYKey: string := "board_offset_y"
  const SizeKey: string := "board_size_mm"
  const ImageKey: string := "image_corners"
  const CornersKey: string := "cnc_corners"

  /** The board size the four corners give: the mean of the bottom edge's and the left edge's lengths. */
  function SizeFromCorners(c: Corners): (size: real)
    ensures 0.0 <= size
    ensures size == (Abs(c.bottomRight.0 - c.bottomLeft.0) + Abs(c.topLeft.1 - c.bottomLeft.1)) / 2.0
  {
    (Abs(c.bottomRight.0 - c.bottomLeft.0) + Abs(c.topLeft.1 - c.bottomLeft.1)) / 2.0
  }

  /** The board after calibration: offset at the bottom-left corner, the square size following the board size. */
  function Calibrate(b: Board.Board, c: Corners): (r: Result<Board.Board>)
    ensures b.squares == 0 <==> r == Err(ZeroDivision)
    ensures r.Ok? ==> (r.value.offsetX == c.bottomLeft.0 && r.value.offsetY == c.bottomLeft.1
              && r.value.boardSize == SizeFromCorners(c) && r.value.squares == b.squares
              && r.value.squareSize * b.squares as real == r.value.boardSize)
  {
    var size := SizeFromCorners(c);
    if b.squares == 0 then Err(ZeroDivision)
    else Ok(b.(offsetX := c.bottomLeft.0, offsetY := c.bottomLeft.1, boardSize := size, squareSize := size / b.squares as real))
  }

  /** The archive a successful calibration keeps. */
  function Record(b: Board.Board, image: seq<(real, real)>, c: Corners): Archive
  {
    map[OffsetXKey := Number(b.offsetX), OffsetYKey := Number(b.offsetY), SizeKey := Number(b.boardSize),
        ImageKey := Points(image), CornersKey := Points([c.bottomLeft, c.bottomRight, c.topRight, c.topLeft])]
  }

  /** The result of `run_calibration`: its return value, the calibration object, and the homing it did first. */
  datatype Ran = Ran(ok: bool, calibration: Calibration, homed: Homing.AllHomed)

  /**
   * `run_calibration` as its prompts intend it: home first; fail, changing
   * nothing, without a frame or without board corners in it; otherwise
   * derive the board from the corners `c` the operator has brought the
   * gantry to, and keep the data.  A board of 0 squares raises.
   */
  function RunCalibrationAt(cal: Calibration, cfg: Homing.Config, m: Homing.Machine, env: Env, cam: Camera, c: Corners): (r: Result<Ran>)
    ensures r.Ok? ==> r.value.homed == Homing.HomeCnc(cfg, m, env)
    ensures !cam.frame || cam.imageCorners.None? ==> r.Ok? && !r.value.ok && r.value.calibration == cal
    ensures cam.frame && cam.imageCorners.Some? ==> (r.Ok? <==> cal.board.squares != 0) && (r.Ok? ==> r.value.ok)
    ensures r.Ok? && r.value.ok ==> (Calibrate(cal.board, c) == Ok(r.value.calibration.board)
              && r.value.calibration.data == Some(Record(r.value.calibration.board, cam.imageCorners.value, c)))
  {
    var homed := Homing.HomeCnc(cfg, m, env);
    if !cam.frame || cam.imageCorners.None? then Ok(Ran(false, cal, homed))
    else
      // the offset and size assigned before the square size raises are lost with the object
      var b := Calibrate(cal.board, c);
      if b.Err? then Err(b.error)
      else Ok(Ran(true, Calibration(b.value, Some(Record(b.value, cam.imageCorners.value, c))), homed))
  }

  /** The XY position estimate after homing. */
  function HomePosition(h: Homing.AllHomed): (real, real)
  {
    (h.machine.gantry.x, h.machine.gantry.y)
  }

  /**
   * The calibration step of `run_calibration` as written, after `homed`:
   * nothing moves the gantry between the homing and the four corner
   * prompts, so each prompt reads the homed position.
   */
  function CalibrateUnmoved(cal: Calibration, homed: Homing.AllHomed, cam: Camera): (r: Result<Ran>)
    ensures r.Ok? ==> r.value.homed == homed
    ensures !cam.frame || cam.imageCorners.None? ==> r.Ok? && !r.value.ok && r.value.calibration == cal
    ensures cam.frame && cam.imageCorners.Some? ==> (r.Ok? <==> cal.board.squares != 0) && (r.Ok? ==> r.value.ok)
    ensures r.Ok? && r.value.ok ==> (var p := HomePosition(homed); var b := r.value.calibration.board;
              b.offsetX == p.0 && b.offsetY == p.1 && b.boardSize == 0.0 && b.squareSize == 0.0
              && b.squares == cal.board.squares
              && r.value.calibration.data == Some(Record(b, cam.imageCorners.value, Corners(p, p, p, p))))
  {
    if !cam.frame || cam.imageCorners.None? then Ok(Ran(false, cal, homed))
    else
      var p := HomePosition(homed);
      var b := Calibrate(cal.board, Corners(p, p, p, p));
      if b.Err? then Err(b.error)
      else
        DivideBack(b.value.squareSize, 0.0, cal.board.squares as real, 0.0);
        Ok(Ran(true, Calibration(b.value, Some(Record(b.value, cam.imageCorners.value, Corners(p, p, p, p)))), homed))
  }

  /**
   * `run_calibration` as written: home, then calibrate from four corner
   * readings that all give the homed position, so a successful run always
   * calibrates a board of size 0 with its offset at that position.
   */
  function RunCalibration(cal: Calibration, cfg: Homing.Config, m: Homing.Machine, env: Env, cam: Camera): (r: Result<Ran>)
    ensures r.Ok? ==> r.value.homed == Homing.HomeCnc(cfg, m, env)
    ensures !cam.frame || cam.imageCorners.None? ==> r.Ok? && !r.value.ok && r.value.calibration == cal
    ensures cam.frame && cam.imageCorners.Some? ==> (r.Ok? <==> cal.board.squares != 0) && (r.Ok? ==> r.value.ok)
    ensures r.Ok? && r.value.ok ==> (var p := HomePosition(r.value.homed); var b := r.value.calibration.board;
              b.offsetX == p.0 && b.offsetY == p.1 && b.boardSize == 0.0 && b.squareSize == 0.0
              && b.squares == cal.board.squares)
  {
    CalibrateUnmoved(cal, Homing.HomeCnc(cfg, m, env), cam)
  }

  /** The run as written is the intended run with all four corners at the homed position. */
  lemma AsWrittenUnmoved(cal: Calibration, cfg: Homing.Config, m: Homing.Machine, env: Env, cam: Camera)
    ensures var p := HomePosition(Homing.HomeCnc(cfg, m, env));
      RunCalibration(cal, cfg, m, env, cam) == RunCalibrationAt(cal, cfg, m, env, cam, Corners(p, p, p, p))
  {
  }

  /** The top-right corner is recorded but never used. */
  lemma TopRightUnused(b: Board.Board, c: Corners, p: (real, real))
    ensures Calibrate(b, c) == Calibrate(b, c.(topRight := p))
  {
  }

  /**
   * Every successful run as written leaves a board whose inverse mapping
   * divides by zero, whatever position it is asked about.
   */
  lemma UnmovedCornersCollapse(cal: Calibration, cfg: Homing.Config, m: Homing.Machine, env: Env, cam: Camera, x: real, y: real)
    requires cam.frame && cam.imageCorners.Some? && cal.board.squares != 0
    ensures RunCalibration(cal, cfg, m, env, cam).Ok? && RunCalibration(cal, cfg, m, env, cam).value.ok
    ensures Board.CncToBoard(RunCalibration(cal, cfg, m, env, cam).value.calibration.board, x, y) == Err(ZeroDivision)
  {
  }

  /**
   * Corners that span the board along its bottom or its left edge give a
   * board of positive square size on which every non-negative square maps
   * to the gantry and back.
   */
  lemma {:induction false} SpanningCornersMap(b: Board.Board, c: Corners, i: int, j: int)
    requires b.squares > 0 && (c.bottomLeft.0 != c.bottomRight.0 || c.bottomLeft.1 != c.topLeft.1)
    requires 0 <= i && 0 <= j
    ensures Calibrate(b, c).Ok? && Calibrate(b, c).value.squareSize > 0.0
    ensures var cb := Calibrate(b, c).value; var (cx, cy) := Board.BoardToCnc(cb, Board.Square(i), Board.Square(j));
      Board.CncToBoard(cb, cx, cy) == Ok((i, j))
  {
    var cb := Calibrate(b, c).value;
    assert cb.boardSize > 0.0;
    assert cb.squareSize > 0.0 by {
      PositiveFactor(cb.squareSize, b.squares as real, cb.boardSize);
    }
    Board.SquareRoundTrip(cb, i, j);
  }

  /** `save_calibration`: writes the kept data when there is any. */
  function SaveCalibration(cal: Calibration): (r: Option<Archive>)
    ensures r.Some? <==> cal.data.Some? && |cal.data.value| > 0
    ensures r.Some? ==> r.value == cal.data.value
  {
    if cal.data.Some? && |cal.data.value| > 0 then cal.data else None
  }

  /**
   * `load_calibration`: the fields are assigned one at a time, so a
   * missing or malformed entry fails the load after the entries before it
   * have already been applied; a board of 0 squares fails it likewise,
   * after the size has been set.  Only a complete load keeps the data.
   */
  function LoadCalibration(cal: Calibration, file: Option<Archive>): (r: (bool, Calibration))
    ensures file.None? ==> r == (false, cal)
    ensures r.0 ==> (file.Some? && r.1.data == file
              && FloatAt(file.value, OffsetXKey) == Ok(r.1.board.offsetX)
              && FloatAt(file.value, OffsetYKey) == Ok(r.1.board.offsetY)
              && FloatAt(file.value, SizeKey) == Ok(r.1.board.boardSize)
              && r.1.board.squareSize * cal.board.squares as real == r.1.board.boardSize
              && ImageKey in file.value)
    ensures r.0 <==> (file.Some? && FloatAt(file.value, OffsetXKey).Ok? && FloatAt(file.value, OffsetYKey).Ok?
              && FloatAt(file.value, SizeKey).Ok? && cal.board.squares != 0 && ImageKey in file.value)
    ensures r.1.board.squares == cal.board.squares && (!r.0 ==> r.1.data == cal.data)
    // entries already applied stay applied when a later one fails
    ensures file.Some? && FloatAt(file.value, OffsetXKey).Err? ==> r == (false, cal)
    ensures file.Some? && FloatAt(file.value, OffsetXKey).Ok? && FloatAt(file.value, OffsetYKey).Ok? ==>
              (r.1.board.offsetX == FloatAt(file.value, OffsetXKey).value
               && r.1.board.offsetY == FloatAt(file.value, OffsetYKey).value)
    ensures file.Some? && FloatAt(file.value, OffsetXKey).Ok? && FloatAt(file.value, OffsetYKey).Err? ==>
              r == (false, cal.(board := cal.board.(offsetX := FloatAt(file.value, OffsetXKey).value)))
    ensures file.Some? && FloatAt(file.value, OffsetXKey).Ok? && FloatAt(file.value, OffsetYKey).Ok?
              && FloatAt(file.value, SizeKey).Err? ==>
              r == (false, cal.(board := cal.board.(offsetX := FloatAt(file.value, OffsetXKey).value,
                                                    offsetY := FloatAt(file.value, OffsetYKey).value)))
    ensures file.Some? && FloatAt(file.value, OffsetXKey).Ok? && FloatAt(file.value, OffsetYKey).Ok?
              && FloatAt(file.value, SizeKey).Ok? && cal.board.squares == 0 ==>
              r == (false, cal.(board := cal.board.(offsetX := FloatAt(file.value, OffsetXKey).value,
                                                    offsetY := FloatAt(file.value, OffsetYKey).value,
                                                    boardSize := FloatAt(file.value, SizeKey).value)))
    ensures file.Some? && FloatAt(file.value, OffsetXKey).Ok? && FloatAt(file.value, OffsetYKey).Ok?
              && FloatAt(file.value, SizeKey).Ok? && cal.board.squares != 0 && ImageKey !in file.value ==>
              r == (false, cal.(board := cal.board.(offsetX := FloatAt(file.value, OffsetXKey).value,
                                                    offsetY := FloatAt(file.value, OffsetYKey).value,
                                                    boardSize := FloatAt(file.value, SizeKey).value,
                                                    squareSize := FloatAt(file.value, SizeKey).value / cal.board.squares as real)))
  {
    if file.None? then (false, cal)
    else
      var a := file.value;
      var b := cal.board;
      var ox := FloatAt(a, OffsetXKey);
      if ox.Err? then (false, cal)
      else
        var b1 := b.(offsetX := ox.value);
        var oy := FloatAt(a, OffsetYKey);
        if oy.Err? then (false, cal.(board := b1))
        else
          var b2 := b1.(offsetY := oy.value);
          var size := FloatAt(a, SizeKey);
          if size.Err? then (false, cal.(board := b2))
          else
            var b3 := b2.(boardSize := size.value);
            if b.squares == 0 then (false, cal.(board := b3))
            else
              var b4 := b3.(squareSize := size.value / b.squares as real);
              if ImageKey !in a then (false, cal.(board := b4))
              else (true, Calibration(b4, Some(a)))
  }

  /** Loading the record of a calibrated board over a board with the same square count gives that board back. */
  lemma {:induction false} LoadRecord(b: Board.Board, c: Corners, image: seq<(real, real)>, cb: Board.Board, other: Calibration)
    requires Calibrate(b, c) == Ok(cb) && other.board.squares == b.squares
    ensures var loaded := LoadCalibration(other, Some(Record(cb, image, c)));
      loaded.0 && loaded.1.board == cb
  {
    var a := Record(cb, image, c);
    var loaded := LoadCalibration(other, Some(a));
    assert FloatAt(a, OffsetXKey).Ok? && FloatAt(a, OffsetYKey).Ok? && FloatAt(a, SizeKey).Ok? && ImageKey in a;
    assert loaded.1.board.squareSize == cb.squareSize by {
      DivideBack(loaded.1.board.squareSize, cb.squareSize, b.squares as real, cb.boardSize);
    }
  }

  lemma PositiveFactor(p: real, n: real, v: real)
    requires n > 0.0 && p * n == v && v > 0.0
    ensures p > 0.0
  {
  }

  lemma DivideBack(p: real, q: real, n: real, v: real)
    requires n != 0.0 && p * n == v && q * n == v
    ensures p == q
  {
    assert (p - q) * n == 0.0;
  }

  /**
   * Saving a successful calibration (one with a frame, detected corners
   * and a board with squares) and loading the file into a
   * calibration object over a board with the same square count restores
   * the calibrated board exactly.
   */
  lemma SaveLoadRoundTrip(cal: Calibration, cfg: Homing.Config, m: Homing.Machine, env: Env,
                          cam: Camera, c: Corners, other: Calibration)
    requires other.board.squares == cal.board.squares
    requires cam.frame && cam.imageCorners.Some? && cal.board.squares != 0
    ensures var ran := RunCalibrationAt(cal, cfg, m, env, cam, c).value;
      var loaded := LoadCalibration(other, SaveCalibration(ran.calibration));
      loaded.0 && loaded.1.board == ran.calibration.board
  {
    var ran := RunCalibrationAt(cal, cfg, m, env, cam, c).value;
    var b := ran.calibration.board;
    var a := Record(b, cam.imageCorners.value, c);
    assert OffsetXKey in a;
    assert |a| > 0 by {
      assert OffsetXKey in a.Keys;
    }
    assert SaveCalibration(ran.calibration) == Some(a);
    LoadRecord(cal.board, c, cam.imageCorners.value, b, other);
  }
}
