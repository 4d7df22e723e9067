/**
 * Calibration of the remote-control checkers application: three ways of
 * fitting the remote board (a stated board size around the homed
 * position, four corners reached by keyboard jogging, or the gantry's axis
 * limits), the keyboard jog loop itself, and loading the saved result.
 *
 * The gantry's position and limits arrive over the network; they are
 * parameters here, as are the keyboard, the typed answers and the camera.
 */
module RemoteCalibration {
  import opened Wrappers
  import opened Text
  import opened Store
  import RemoteBoard
  import RemoteCheckers
  import Calibration
  import Numeric

  /** One byte read from the keyboard. */
  newtype Byte = x: int | 0 <= x < 256

  /** Decoding one byte as UTF-8: only an ASCII byte is a whole character. */
  function Decode(b: Byte): (r: Option<char>)
    ensures r.Some? <==> b < 128
    ensures r.Some? ==> r.value as int == b as int
  {
    if b < 128 then Some(b as int as char) else None
  }

  /** The key that confirms a position, and the distance one key press jogs. */
  const Enter: char := '\r'
  const JogStep: real := 1.0

  /** The point one key asks for: w/s move Y, d/a move X, q/e move Z; any other key leaves it. */
  function Nudge(p: RemoteCheckers.Jog, k: char): (r: RemoteCheckers.Jog)
    // one of the six movement keys moves exactly one axis by exactly one step; any other key moves nothing
    ensures Numeric.Abs(r.x - p.x) + Numeric.Abs(r.y - p.y) + Numeric.Abs(r.z - p.z)
            == if k == 'w' || k == 's' || k == 'a' || k == 'd' || k == 'q' || k == 'e' then JogStep else 0.0
    ensures r.x != p.x ==> r.y == p.y && r.z == p.z
    ensures r.y != p.y ==> r.z == p.z
  {
    if k == 'w' then p.(y := p.y + JogStep)
    else if k == 's' then p.(y := p.y - JogStep)
    else if k == 'a' then p.(x := p.x - JogStep)
    else if k == 'd' then p.(x := p.x + JogStep)
    else if k == 'q' then p.(z := p.z + JogStep)
    else if k == 'e' then p.(z := p.z - JogStep)
    else p
  }

  /** Whether a byte is read as the (lower-cased) key `k`. */
  predicate IsKey(b: Byte, k: char)
  {
    Decode(b).Some? && Lower(Decode(b).value) == k
  }

  /** How many of `keys` are read as the key `k`. */
  function Presses(keys: seq<Byte>, k: char): nat
  {
    if |keys| == 0 then 0 else (if IsKey(keys[0], k) then 1 else 0) + Presses(keys[1..], k)
  }

  /** How many of `keys` decode at all. */
  function Decodable(keys: seq<Byte>): nat
  {
    if |keys| == 0 then 0 else (if Decode(keys[0]).Some? then 1 else 0) + Decodable(keys[1..])
  }

  /** The jog loop's result: the requests it sent, the point it reached, the bytes it read, whether Enter ended it. */
  datatype Jogged = Jogged(jogs: seq<RemoteCheckers.Jog>, at: RemoteCheckers.Jog, used: nat, confirmed: bool)

  /**
   * `_keyboard_jog_loop` from the point `p` the gantry reported: an
   * undecodable byte is skipped, Enter ends the loop, and every other key
   * updates the point and sends one `jog_to` to it.  The loop reads until
   * Enter; when the keys run out first it has not ended.
   */
  function JogLoop(p: RemoteCheckers.Jog, keys: seq<Byte>): (r: Jogged)
    ensures r.used <= |keys|
    ensures r.confirmed ==> 0 < r.used && IsKey(keys[r.used - 1], Enter)
    ensures !r.confirmed ==> r.used == |keys|
    ensures |r.jogs| == 0 ==> r.at == p
    ensures |r.jogs| > 0 ==> r.jogs[|r.jogs| - 1] == r.at
    decreases |keys|
  {
    if |keys| == 0 then Jogged([], p, 0, false)
    else
      var d := Decode(keys[0]);
      if d.None? then
        var rest := JogLoop(p, keys[1..]);
        rest.(used := rest.used + 1)
      else if Lower(d.value) == Enter then Jogged([], p, 1, true)
      else
        var q := Nudge(p, Lower(d.value));
        var rest := JogLoop(q, keys[1..]);
        Jogged([q] + rest.jogs, rest.at, rest.used + 1, rest.confirmed)
  }

  /** The count of a key over the bytes the loop read, split at the first byte. */
  lemma PressesFront(keys: seq<Byte>, n: nat, k: char)
    requires 0 < n <= |keys|
    ensures Presses(keys[..n], k) == (if IsKey(keys[0], k) then 1 else 0) + Presses(keys[1..][..n - 1], k)
    ensures Decodable(keys[..n]) == (if Decode(keys[0]).Some? then 1 else 0) + Decodable(keys[1..][..n - 1])
  {
    assert keys[..n][1..] == keys[1..][..n - 1];
  }

  /** The coordinate of a point along axis 0 (X), 1 (Y) or 2 (Z). */
  function Coord(p: RemoteCheckers.Jog, axis: nat): real
  {
    if axis == 0 then p.x else if axis == 1 then p.y else p.z
  }

  /** The keys that move along an axis forwards and backwards. */
  function Forward(axis: nat): char
  {
    if axis == 0 then 'd' else if axis == 1 then 'w' else 'q'
  }

  function Backward(axis: nat): char
  {
    if axis == 0 then 'a' else if axis == 1 then 's' else 'e'
  }

  /** One key moves each axis a step forwards, a step backwards, or not at all. */
  lemma NudgeCoord(p: RemoteCheckers.Jog, k: char, axis: nat)
    requires axis < 3
    ensures Coord(Nudge(p, k), axis) == Coord(p, axis)
              + (if k == Forward(axis) then JogStep else if k == Backward(axis) then -JogStep else 0.0)
  {
  }

  /**
   * Along each axis, the point the loop reaches is the reported point
   * moved one step per forward key less one per backward key read.
   */
  lemma {:induction false} JogLoopTally(p: RemoteCheckers.Jog, keys: seq<Byte>, axis: nat)
    requires axis < 3
    ensures var r := JogLoop(p, keys);
      var read := keys[..r.used];
      Coord(r.at, axis) == Coord(p, axis) + (Presses(read, Forward(axis)) - Presses(read, Backward(axis))) as real * JogStep
    decreases |keys|
  {
    var r := JogLoop(p, keys);
    if |keys| > 0 {
      var d := Decode(keys[0]);
      PressesFront(keys, r.used, Forward(axis));
      PressesFront(keys, r.used, Backward(axis));
      if d.None? {
        JogLoopTally(p, keys[1..], axis);
      } else if Lower(d.value) == Enter {
        assert keys[1..][..0] == [];
      } else {
        var q := Nudge(p, Lower(d.value));
        NudgeCoord(p, Lower(d.value), axis);
        JogLoopTally(q, keys[1..], axis);
      }
    }
  }

  /**
   * Enter is read at most once, as the last byte, and every other
   * decodable byte read sends one request.
   */
  lemma {:induction false} JogLoopRequests(p: RemoteCheckers.Jog, keys: seq<Byte>)
    ensures var r := JogLoop(p, keys);
      var read := keys[..r.used];
      Presses(read, Enter) == (if r.confirmed then 1 else 0)
      && |r.jogs| + Presses(read, Enter) == Decodable(read)
    decreases |keys|
  {
    var r := JogLoop(p, keys);
    if |keys| > 0 {
      var d := Decode(keys[0]);
      PressesFront(keys, r.used, Enter);
      if d.None? {
        var rest := JogLoop(p, keys[1..]);
        JogLoopRequests(p, keys[1..]);
        assert r.used == rest.used + 1 && r.jogs == rest.jogs && r.confirmed == rest.confirmed;
        assert !IsKey(keys[0], Enter);
      } else if Lower(d.value) == Enter {
        assert r.used == 1 && r.confirmed && r.jogs == [];
        assert keys[1..][..0] == [];
      } else {
        var q := Nudge(p, Lower(d.value));
        var rest := JogLoop(q, keys[1..]);
        JogLoopRequests(q, keys[1..]);
        assert r.used == rest.used + 1 && |r.jogs| == |rest.jogs| + 1 && r.confirmed == rest.confirmed;
        assert !IsKey(keys[0], Enter);
      }
    }
  }

  /** Whether `b` is `a` moved by at most one jog step along at most one axis. */
  predicate OneStep(a: RemoteCheckers.Jog, b: RemoteCheckers.Jog)
  {
    b == a
    || (b.y == a.y && b.z == a.z && (b.x == a.x + JogStep || b.x == a.x - JogStep))
    || (b.x == a.x && b.z == a.z && (b.y == a.y + JogStep || b.y == a.y - JogStep))
    || (b.x == a.x && b.y == a.y && (b.z == a.z + JogStep || b.z == a.z - JogStep))
  }

  /** Whether each of `js` lies one step at most from the one before it, the first from `p`. */
  predicate Steps(p: RemoteCheckers.Jog, js: seq<RemoteCheckers.Jog>)
  {
    (|js| > 0 ==> OneStep(p, js[0])) && forall i :: 0 < i < |js| ==> OneStep(js[i - 1], js[i])
  }

  lemma StepsCons(p: RemoteCheckers.Jog, q: RemoteCheckers.Jog, js: seq<RemoteCheckers.Jog>)
    requires OneStep(p, q) && Steps(q, js)
    ensures Steps(p, [q] + js)
  {
    var r := [q] + js;
    forall i | 0 < i < |r|
      ensures OneStep(r[i - 1], r[i])
    {
      if i == 1 {
        assert r[0] == q && r[1] == js[0];
      } else {
        assert r[i - 1] == js[i - 2] && r[i] == js[i - 1];
      }
    }
  }

  /** Each request of the loop lies one step at most from the one before it, the first from the reported point. */
  lemma {:induction false} JogsAreSteps(p: RemoteCheckers.Jog, keys: seq<Byte>)
    ensures Steps(p, JogLoop(p, keys).jogs)
    decreases |keys|
  {
    if |keys| > 0 {
      var d := Decode(keys[0]);
      if d.None? {
        JogsAreSteps(p, keys[1..]);
      } else if Lower(d.value) != Enter {
        var q := Nudge(p, Lower(d.value));
        JogsAreSteps(q, keys[1..]);
        assert JogLoop(p, keys).jogs == [q] + JogLoop(q, keys[1..]).jogs;
        assert OneStep(p, q);
        StepsCons(p, q, JogLoop(q, keys[1..]).jogs);
      }
    }
  }

  /** The answer to "Use these corners? (y/n)" that accepts them, after stripping and lower-casing. */
  predicate Confirms(answer: string)
  {
    Strip(answer) == "y" || Strip(answer) == "Y"
  }

  /** What a calibration run observes besides the keyboard. */
  datatype Inputs = Inputs(
    frame: bool,                                   // a camera frame was captured
    imageCorners: Option<seq<(real, real)>>,       // board corners detected in it
    confirm: string,                               // the answer to the confirmation prompt
    boardSize: Option<real>,                       // the typed board size, if it parses as a float
    home: Option<(real, real)>,                    // the position the gantry reports, None when it answers otherwise
    corners: Option<Calibration.Corners>,          // the positions reported at the four corner prompts,
                                                   // None when any position request of mode 2 goes unanswered
    limits: Option<(real, real, real, real)>)      // the axis limits the gantry reports, if any

  /** A run's result: its return value, the board, and the calibration data (also the file written when it succeeds). */
  datatype Ran = Ran(ok: bool, board: RemoteBoard.RemoteBoard, data: Option<Archive>)

  /**
   * Mode 1, `_run_fixed_size_mode`: with a frame, detected corners, a
   * confirmation and a parsable size, centre a board of that size on the
   * reported position; otherwise fail without change.  A missing position
   * reply raises before anything changes.
   */
  function FixedSizeMode(b: RemoteBoard.RemoteBoard, data: Option<Archive>, obs: Inputs): (r: Result<Ran>)
    ensures r.Err? <==> obs.frame && obs.imageCorners.Some? && Confirms(obs.confirm) && obs.boardSize.Some? && obs.home.None?
    ensures r.Err? ==> r.error == NotUnpackable
    ensures r.Ok? ==> (r.value.ok <==> obs.frame && obs.imageCorners.Some? && Confirms(obs.confirm) && obs.boardSize.Some?)
    ensures r.Ok? && !r.value.ok ==> r.value == Ran(false, b, data)
    ensures r.Ok? && r.value.ok ==> (var size := obs.boardSize.value; var board := r.value.board;
              board.offsetX + size / 2.0 == obs.home.value.0 && board.offsetY + size / 2.0 == obs.home.value.1
              && board.boardSize == size && board.squareX * RemoteBoard.Squares == size
              && board.squareY * RemoteBoard.Squares == size
              && board.xMin == b.xMin && board.yMin == b.yMin
              && r.value.data == Some(map["offset_x" := Number(board.offsetX), "offset_y" := Number(board.offsetY),
                                          "board_size" := Number(size), "image_corners" := Points(obs.imageCorners.value)]))
  {
    if !obs.frame || obs.imageCorners.None? || !Confirms(obs.confirm) || obs.boardSize.None? then Ok(Ran(false, b, data))
    else if obs.home.None? then Err(NotUnpackable)
    else
      var size := obs.boardSize.value;
      var ox := obs.home.value.0 - size / 2.0;
      var oy := obs.home.value.1 - size / 2.0;
      Ok(Ran(true, RemoteBoard.SetBoardSize(RemoteBoard.SetOffset(b, ox, oy), size),
             Some(map["offset_x" := Number(ox), "offset_y" := Number(oy), "board_size" := Number(size),
                      "image_corners" := Points(obs.imageCorners.value)])))
  }

  /** The board size mode 2 derives: the mean of the signed bottom-edge width and left-edge height. */
  function ManualSize(c: Calibration.Corners): real
  {
    ((c.bottomRight.0 - c.bottomLeft.0) + (c.topLeft.1 - c.bottomLeft.1)) / 2.0
  }

  /**
   * Mode 2, `_run_manual_jog_mode`: the offset is the bottom-left corner
   * and the size the mean of the signed edge lengths; it succeeds whenever
   * every position request is answered, and otherwise raises before the
   * board changes.
   */
  function ManualJogMode(b: RemoteBoard.RemoteBoard, obs: Inputs): (r: Result<Ran>)
    ensures r.Err? <==> obs.corners.None?
    ensures r.Err? ==> r.error == NotUnpackable
    ensures r.Ok? ==> r.value.ok
    ensures r.Ok? ==> (var c := obs.corners.value; var board := r.value.board;
              board.offsetX == c.bottomLeft.0 && board.offsetY == c.bottomLeft.1
              && 2.0 * board.boardSize == (c.bottomRight.0 - c.bottomLeft.0) + (c.topLeft.1 - c.bottomLeft.1)
              && board.squareX * RemoteBoard.Squares == board.boardSize && board.squareY == board.squareX
              && board.xMin == b.xMin && board.yMin == b.yMin
              && r.value.data == Some(map["offset_x" := Number(board.offsetX), "offset_y" := Number(board.offsetY),
                                          "board_size" := Number(board.boardSize),
                                          "corners_manual" := Points([c.bottomLeft, c.bottomRight, c.topRight, c.topLeft])]))
  {
    if obs.corners.None? then Err(NotUnpackable)
    else
      var c := obs.corners.value;
      var size := ManualSize(c);
      Ok(Ran(true, RemoteBoard.SetBoardSize(RemoteBoard.SetOffset(b, c.bottomLeft.0, c.bottomLeft.1), size),
             Some(map["offset_x" := Number(c.bottomLeft.0), "offset_y" := Number(c.bottomLeft.1), "board_size" := Number(size),
                      "corners_manual" := Points([c.bottomLeft, c.bottomRight, c.topRight, c.topLeft])])))
  }

  /**
   * Unlike the CNC application's calibration, the edge lengths are not
   * made absolute: the size agrees with that calibration's exactly when
   * neither edge runs backwards, and corners recorded mirrored give a
   * negative size.
   */
  lemma ManualSizeSigned(c: Calibration.Corners)
    ensures ManualSize(c) <= Calibration.SizeFromCorners(c)
    ensures ManualSize(c) == Calibration.SizeFromCorners(c) <==>
              c.bottomLeft.0 <= c.bottomRight.0 && c.bottomLeft.1 <= c.topLeft.1
  {
  }

  /**
   * Mode 3, `_run_limit_based_mode`: without limits it fails without
   * change; with them the board's squares divide the axis ranges.
   */
  function LimitMode(b: RemoteBoard.RemoteBoard, data: Option<Archive>, obs: Inputs): (r: Ran)
    ensures r.ok <==> obs.limits.Some?
    ensures !r.ok ==> r == Ran(false, b, data)
    ensures r.ok ==> (var (xMin, xMax, yMin, yMax) := obs.limits.value;
              r.board == RemoteBoard.SetAxisLimits(b, xMin, xMax, yMin, yMax)
              && r.data == Some(map["x_min" := Number(xMin), "x_max" := Number(xMax),
                                    "y_min" := Number(yMin), "y_max" := Number(yMax),
                                    "square_size_x" := Number(r.board.squareX),
                                    "square_size_y" := Number(r.board.squareY)]))
  {
    if obs.limits.None? then Ran(false, b, data)
    else
      var (xMin, xMax, yMin, yMax) := obs.limits.value;
      Ran(true, RemoteBoard.SetAxisLimits(b, xMin, xMax, yMin, yMax),
          Some(map["x_min" := Number(xMin), "x_max" := Number(xMax), "y_min" := Number(yMin), "y_max" := Number(yMax),
                   "square_size_x" := Number((xMax - xMin) / 8.0), "square_size_y" := Number((yMax - yMin) / 8.0)]))
  }

  /** `run`: the stripped menu answer picks the mode; any other answer fails without change. */
  function Run(b: RemoteBoard.RemoteBoard, data: Option<Archive>, mode: string, obs: Inputs): (r: Result<Ran>)
    ensures Strip(mode) == "1" ==> r == FixedSizeMode(b, data, obs)
    ensures Strip(mode) == "2" ==> r == ManualJogMode(b, obs)
    ensures Strip(mode) == "3" ==> r == Ok(LimitMode(b, data, obs))
    ensures !(Strip(mode) in {"1", "2", "3"}) ==> r == Ok(Ran(false, b, data))
  {
    var m := Strip(mode);
    if m == "1" then FixedSizeMode(b, data, obs)
    else if m == "2" then ManualJogMode(b, obs)
    else if m == "3" then Ok(LimitMode(b, data, obs))
    else Ok(Ran(false, b, data))
  }

  /**
   * `load`: offsets default to 0 and the size to 300, and are applied
   * before the limits are read; limits are applied only when `x_min` is
   * stored, and then all four must be numbers.  Any failure leaves the
   * entries already applied in place.
   */
  function Load(b: RemoteBoard.RemoteBoard, file: Option<Archive>): (r: (bool, RemoteBoard.RemoteBoard))
    ensures file.None? ==> r == (false, b)
    ensures file.Some? ==> (var a := file.value;
              var ox := FloatOr(a, "offset_x", 0.0);
              var oy := FloatOr(a, "offset_y", 0.0);
              var size := FloatOr(a, "board_size", 300.0);
              (ox.Err? || oy.Err? ==> r == (false, b))
              && (ox.Ok? && oy.Ok? && size.Err? ==> r == (false, RemoteBoard.SetOffset(b, ox.value, oy.value)))
              && (ox.Ok? && oy.Ok? && size.Ok? ==>
                    (var sized := RemoteBoard.SetBoardSize(RemoteBoard.SetOffset(b, ox.value, oy.value), size.value);
                     ("x_min" !in a ==> r == (true, sized))
                     && ("x_min" in a ==>
                           (var (x0, x1, y0, y1) := (FloatAt(a, "x_min"), FloatAt(a, "x_max"), FloatAt(a, "y_min"), FloatAt(a, "y_max"));
                            (x0.Ok? && x1.Ok? && y0.Ok? && y1.Ok? ==>
                               r == (true, RemoteBoard.SetAxisLimits(sized, x0.value, x1.value, y0.value, y1.value)))
                            && (!(x0.Ok? && x1.Ok? && y0.Ok? && y1.Ok?) ==> r == (false, sized)))))))
  {
    if file.None? then (false, b)
    else
      var a := file.value;
      var ox := FloatOr(a, "offset_x", 0.0);
      var oy := FloatOr(a, "offset_y", 0.0);
      if ox.Err? || oy.Err? then (false, b)
      else
        var b1 := RemoteBoard.SetOffset(b, ox.value, oy.value);
        var size := FloatOr(a, "board_size", 300.0);
        if size.Err? then (false, b1)
        else
          var b2 := RemoteBoard.SetBoardSize(b1, size.value);
          if "x_min" !in a then (true, b2)
          else
            var x0 := FloatAt(a, "x_min");
            var x1 := FloatAt(a, "x_max");
            var y0 := FloatAt(a, "y_min");
            var y1 := FloatAt(a, "y_max");
            if x0.Err? || x1.Err? || y0.Err? || y1.Err? then (false, b2)
            else (true, RemoteBoard.SetAxisLimits(b2, x0.value, x1.value, y0.value, y1.value))
  }

  /**
   * Loading a file that stores numeric offsets and size and no limits
   * applies exactly those.
   */
  lemma LoadSized(b: RemoteBoard.RemoteBoard, a: Archive, ox: real, oy: real, size: real)
    requires "offset_x" in a && a["offset_x"] == Number(ox) && "offset_y" in a && a["offset_y"] == Number(oy)
    requires "board_size" in a && a["board_size"] == Number(size) && "x_min" !in a
    ensures Load(b, Some(a)) == (true, RemoteBoard.SetBoardSize(RemoteBoard.SetOffset(b, ox, oy), size))
  {
    assert FloatOr(a, "offset_x", 0.0) == Ok(ox);
    assert FloatOr(a, "offset_y", 0.0) == Ok(oy);
    assert FloatOr(a, "board_size", 300.0) == Ok(size);
  }

  /** Boards that agree on their axis minima agree after the same offsets and size. */
  lemma SizedAgree(b: RemoteBoard.RemoteBoard, other: RemoteBoard.RemoteBoard, ox: real, oy: real, size: real)
    requires other.xMin == b.xMin && other.yMin == b.yMin
    ensures RemoteBoard.SetBoardSize(RemoteBoard.SetOffset(other, ox, oy), size)
            == RemoteBoard.SetBoardSize(RemoteBoard.SetOffset(b, ox, oy), size)
  {
  }

  /**
   * Loading what a successful mode 1 run saved, into any board with the
   * same axis minima, gives the board that run calibrated.
   */
  lemma FixedSizeRoundTrip(b: RemoteBoard.RemoteBoard, other: RemoteBoard.RemoteBoard, data: Option<Archive>, obs: Inputs)
    requires obs.frame && obs.imageCorners.Some? && Confirms(obs.confirm) && obs.boardSize.Some? && obs.home.Some?
    requires other.xMin == b.xMin && other.yMin == b.yMin
    ensures FixedSizeMode(b, data, obs).Ok?
    ensures Load(other, FixedSizeMode(b, data, obs).value.data) == (true, FixedSizeMode(b, data, obs).value.board)
  {
    var r := FixedSizeMode(b, data, obs).value;
    var size := obs.boardSize.value;
    var (ox, oy) := (obs.home.value.0 - size / 2.0, obs.home.value.1 - size / 2.0);
    assert r.board == RemoteBoard.SetBoardSize(RemoteBoard.SetOffset(b, ox, oy), size);
    LoadSized(other, r.data.value, ox, oy, size);
    SizedAgree(b, other, ox, oy, size);
  }

  /**
   * Loading what a mode 2 run saved, into any board with the same axis
   * minima, gives the board that run calibrated.
   */
  lemma ManualJogRoundTrip(b: RemoteBoard.RemoteBoard, other: RemoteBoard.RemoteBoard, obs: Inputs)
    requires obs.corners.Some?
    requires other.xMin == b.xMin && other.yMin == b.yMin
    ensures ManualJogMode(b, obs).Ok?
    ensures Load(other, ManualJogMode(b, obs).value.data) == (true, ManualJogMode(b, obs).value.board)
  {
    var r := ManualJogMode(b, obs).value;
    var c := obs.corners.value;
    var size := ManualSize(c);
    assert r.board == RemoteBoard.SetBoardSize(RemoteBoard.SetOffset(b, c.bottomLeft.0, c.bottomLeft.1), size);
    LoadSized(other, r.data.value, c.bottomLeft.0, c.bottomLeft.1, size);
    SizedAgree(b, other, c.bottomLeft.0, c.bottomLeft.1, size);
  }

  /**
   * Loading what a successful mode 3 run saved, into a board whose
   * offsets and size are the defaults (as a freshly built board's are),
   * gives the calibrated board of that run.
   */
  lemma LimitModeRoundTrip(b: RemoteBoard.RemoteBoard, other: RemoteBoard.RemoteBoard, data: Option<Archive>, obs: Inputs)
    requires LimitMode(b, data, obs).ok
    requires other.offsetX == b.offsetX == 0.0 && other.offsetY == b.offsetY == 0.0
    requires other.boardSize == b.boardSize == 300.0
    ensures Load(other, LimitMode(b, data, obs).data) == (true, LimitMode(b, data, obs).board)
  {
    var r := LimitMode(b, data, obs);
    var a := r.data.value;
    assert "offset_x" !in a && "offset_y" !in a && "board_size" !in a && "x_min" in a;
    var (xMin, xMax, yMin, yMax) := obs.limits.value;
    assert FloatAt(a, "x_min") == Ok(xMin) && FloatAt(a, "x_max") == Ok(xMax);
    assert FloatAt(a, "y_min") == Ok(yMin) && FloatAt(a, "y_max") == Ok(yMax);
  }

  /**
   * The offsets modes 1 and 2 compute have no effect on where pieces go:
   * the calibrated mapping is the one the board size alone gives.
   */
  lemma SizeModesIgnoreOffset(b: RemoteBoard.RemoteBoard, data: Option<Archive>, mode: string, obs: Inputs, col: int, row: int)
    requires Strip(mode) == "1" || Strip(mode) == "2"
    requires Run(b, data, mode, obs).Ok? && Run(b, data, mode, obs).value.ok
    ensures var r := Run(b, data, mode, obs).value;
      RemoteBoard.BoardToCnc(r.board, col, row) == RemoteBoard.BoardToCnc(RemoteBoard.SetBoardSize(b, r.board.boardSize), col, row)
  {
    var r := Run(b, data, mode, obs).value;
    RemoteBoard.OffsetIgnored(RemoteBoard.SetBoardSize(b, r.board.boardSize), r.board.offsetX, r.board.offsetY, col, row);
    assert r.board == RemoteBoard.SetOffset(RemoteBoard.SetBoardSize(b, r.board.boardSize), r.board.offsetX, r.board.offsetY);
  }
}
