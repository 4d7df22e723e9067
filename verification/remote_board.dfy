/**
 * The limit-calibrated board of the remote-control variant: square sizes
 * per axis, derived from a board size or from axis limits, and a mapping
 * from a square to the grid line after it.
 */
module RemoteBoard {

  datatype RemoteBoard = RemoteBoard(
    offsetX: real, offsetY: real, boardSize: real,
    squareX: real, squareY: real, xMin: real, yMin: real)

  /** The squares per side this variant assumes. */
  const Squares: real := 8.0

  /** `BoardSystem()`: offsets 0, a 300 mm board of 37.5 mm squares, axis minima 0. */
  const Initial: RemoteBoard := RemoteBoard(0.0, 0.0, 300.0, 37.5, 37.5, 0.0, 0.0)

  lemma InitialSquares()
    ensures Initial.squareX == Initial.boardSize / Squares && Initial.squareY == Initial.squareX
    ensures BoardToCnc(Initial, 0, 0) == (Initial.squareX, Initial.squareY)
  {
  }

  /** `board_to_cnc`: the axis minimum plus `col + 1` (`row + 1`) squares. */
  function BoardToCnc(b: RemoteBoard, col: int, row: int): (r: (real, real))
    ensures r.0 - b.xMin == (col + 1) as real * b.squareX
    ensures r.1 - b.yMin == (row + 1) as real * b.squareY
  {
    (b.xMin + (col + 1) as real * b.squareX, b.yMin + (row + 1) as real * b.squareY)
  }

  /** `set_offset`: stores the offsets, which the mapping never reads. */
  function SetOffset(b: RemoteBoard, x: real, y: real): (r: RemoteBoard)
    ensures r.offsetX == x && r.offsetY == y
    ensures r.boardSize == b.boardSize && r.squareX == b.squareX && r.squareY == b.squareY
    ensures r.xMin == b.xMin && r.yMin == b.yMin
  {
    b.(offsetX := x, offsetY := y)
  }

  /** The offsets do not affect the mapping. */
  lemma OffsetIgnored(b: RemoteBoard, x: real, y: real, col: int, row: int)
    ensures BoardToCnc(SetOffset(b, x, y), col, row) == BoardToCnc(b, col, row)
  {
    var r := SetOffset(b, x, y);
    assert BoardToCnc(r, col, row).0 == BoardToCnc(b, col, row).0;
    assert BoardToCnc(r, col, row).1 == BoardToCnc(b, col, row).1;
  }

  /** `set_board_size`: both square sizes become a eighth of the board. */
  function SetBoardSize(b: RemoteBoard, size: real): (r: RemoteBoard)
    ensures r.boardSize == size
    ensures r.squareX * Squares == size && r.squareY * Squares == size
    ensures r.offsetX == b.offsetX && r.offsetY == b.offsetY && r.xMin == b.xMin && r.yMin == b.yMin
  {
    b.(boardSize := size, squareX := size / Squares, squareY := size / Squares)
  }

  /**
   * `set_axis_limits`: stores the two minima and makes each square an eighth
   * of its axis range; the board size is left as it was.
   */
  function SetAxisLimits(b: RemoteBoard, xMin: real, xMax: real, yMin: real, yMax: real): (r: RemoteBoard)
    ensures r.xMin == xMin && r.yMin == yMin
    ensures r.squareX * Squares == xMax - xMin && r.squareY * Squares == yMax - yMin
    ensures r.boardSize == b.boardSize && r.offsetX == b.offsetX && r.offsetY == b.offsetY
  {
    b.(xMin := xMin, yMin := yMin, squareX := (xMax - xMin) / Squares, squareY := (yMax - yMin) / Squares)
  }

  /**
   * After calibrating to axis limits, square (7, 7) maps onto the two
   * maxima and square (-1, -1) onto the two minima: the eight squares span
   * the limits, each mapped to its far grid line.
   */
  lemma LimitsSpanBoard(b: RemoteBoard, xMin: real, xMax: real, yMin: real, yMax: real)
    ensures var c := SetAxisLimits(b, xMin, xMax, yMin, yMax);
      BoardToCnc(c, 7, 7) == (xMax, yMax) && BoardToCnc(c, -1, -1) == (xMin, yMin)
  {
    var c := SetAxisLimits(b, xMin, xMax, yMin, yMax);
    assert 8.0 * c.squareX == xMax - xMin;
    assert 8.0 * c.squareY == yMax - yMin;
  }

  /** With a positive square size the mapping is strictly increasing in the column. */
  lemma {:induction false} IncreasingInColumn(b: RemoteBoard, c1: int, c2: int, row: int)
    requires 0.0 < b.squareX && c1 < c2
    ensures BoardToCnc(b, c1, row).0 < BoardToCnc(b, c2, row).0
  {
    var d := (c2 - c1) as real;
    calc {
      BoardToCnc(b, c2, row).0;
    ==
      b.xMin + (c2 + 1) as real * b.squareX;
    == { assert (c2 + 1) as real == (c1 + 1) as real + d; }
      b.xMin + ((c1 + 1) as real + d) * b.squareX;
    == { Distribute((c1 + 1) as real, d, b.squareX); }
      BoardToCnc(b, c1, row).0 + d * b.squareX;
    }
    PositiveProduct(d, b.squareX);
  }

  lemma Distribute(a: real, d: real, s: real)
    ensures (a + d) * s == a * s + d * s
  {
  }

  lemma PositiveProduct(d: real, s: real)
    requires 0.0 < d && 0.0 < s
    ensures 0.0 < d * s
  {
  }

  /** Hence, after `set_axis_limits` with `x_max > x_min`, in particular. */
  lemma IncreasingAfterLimits(b: RemoteBoard, xMin: real, xMax: real, yMin: real, yMax: real, c1: int, c2: int, row: int)
    requires xMin < xMax && c1 < c2
    ensures var c := SetAxisLimits(b, xMin, xMax, yMin, yMax);
      BoardToCnc(c, c1, row).0 < BoardToCnc(c, c2, row).0
  {
    IncreasingInColumn(SetAxisLimits(b, xMin, xMax, yMin, yMax), c1, c2, row);
  }
}
