/**
 * The board-square mapper of the gantry controller: square indices to
 * millimetre coordinates (the centre of the square) and back.
 */
module Board {
  import opened Wrappers
  import opened Numeric

  datatype Board = Board(boardSize: real, squares: int, squareSize: real, offsetX: real, offsetY: real)

  /**
   * `BoardSystem(board_size_mm, squares)`: the square size is the board size
   * over the square count, and both offsets are 0.  A count of 0 divides by
   * zero.
   */
  function NewBoard(boardSize: real, squares: int): (r: Result<Board>)
    ensures squares == 0 <==> r == Err(ZeroDivision)
    ensures r.Ok? ==> (r.value.boardSize == boardSize && r.value.squares == squares
              && r.value.squareSize * squares as real == boardSize
              && r.value.offsetX == 0.0 && r.value.offsetY == 0.0)
  {
    if squares == 0 then Err(ZeroDivision)
    else Ok(Board(boardSize, squares, boardSize / squares as real, 0.0, 0.0))
  }

  /** The default board: 200 mm, 8 squares of 25 mm. */
  lemma DefaultBoard()
    ensures NewBoard(200.0, 8) == Ok(Board(200.0, 8, 25.0, 0.0, 0.0))
  {
  }

  /** `is_valid_square`: both indices are among the `range(squares)` a loop over the board visits. */
  predicate IsValidSquare(b: Board, x: int, y: int)
    ensures IsValidSquare(b, x, y) <==> 0 <= x < Count(b.squares) && 0 <= y < Count(b.squares)
  {
    0 <= x < b.squares && 0 <= y < b.squares
  }

  /**
   * A board coordinate as Python sees it: an `int` square index, which
   * `board_to_cnc` moves to the square's centre, or a `float` used as is.
   */
  datatype Coord = Square(index: int) | Fraction(value: real)

  function Value(c: Coord): (v: real)
    ensures c.Square? ==> v == c.index as real + 0.5
    ensures c.Fraction? ==> v == c.value
  {
    match c
    case Square(i) => i as real + 0.5
    case Fraction(v) => v
  }

  /** `board_to_cnc`: offset plus the coordinate in square units. */
  function BoardToCnc(b: Board, x: Coord, y: Coord): (r: (real, real))
    ensures r.0 - b.offsetX == Value(x) * b.squareSize
    ensures r.1 - b.offsetY == Value(y) * b.squareSize
  {
    (b.offsetX + Value(x) * b.squareSize, b.offsetY + Value(y) * b.squareSize)
  }

  /** `cnc_to_board`: square units relative to the offset, truncated toward zero. */
  function CncToBoard(b: Board, cx: real, cy: real): (r: Result<(int, int)>)
    ensures b.squareSize == 0.0 <==> r == Err(ZeroDivision)
    ensures r.Ok? ==> r.value == (Trunc((cx - b.offsetX) / b.squareSize), Trunc((cy - b.offsetY) / b.squareSize))
  {
    if b.squareSize == 0.0 then Err(ZeroDivision)
    else Ok((Trunc((cx - b.offsetX) / b.squareSize), Trunc((cy - b.offsetY) / b.squareSize)))
  }

  /** `set_board_offset`: only the offsets change. */
  function SetBoardOffset(b: Board, x: real, y: real): (r: Board)
    ensures r.offsetX == x && r.offsetY == y
    ensures r.boardSize == b.boardSize && r.squares == b.squares && r.squareSize == b.squareSize
  {
    b.(offsetX := x, offsetY := y)
  }

  /** `set_square_size`: the board size follows, square size times square count. */
  function SetSquareSize(b: Board, size: real): (r: Board)
    ensures r.squareSize == size && r.boardSize == size * b.squares as real
    ensures r.squares == b.squares && r.offsetX == b.offsetX && r.offsetY == b.offsetY
  {
    b.(squareSize := size, boardSize := size * b.squares as real)
  }

  lemma ScaleBack(v: real, s: real)
    requires s != 0.0
    ensures v * s / s == v
  {
  }

  /**
   * Mapping a coordinate to millimetres and back yields its truncation
   * toward zero, whatever the offset and whatever the sign of the square
   * size, as long as it is not 0.
   */
  lemma {:induction false} CncToBoardOfBoardToCnc(b: Board, x: Coord, y: Coord)
    requires b.squareSize != 0.0
    ensures var (cx, cy) := BoardToCnc(b, x, y);
      CncToBoard(b, cx, cy) == Ok((Trunc(Value(x)), Trunc(Value(y))))
  {
    var (cx, cy) := BoardToCnc(b, x, y);
    ScaleBack(Value(x), b.squareSize);
    ScaleBack(Value(y), b.squareSize);
    assert (cx - b.offsetX) / b.squareSize == Value(x);
    assert (cy - b.offsetY) / b.squareSize == Value(y);
  }

  /** Every non-negative integer square survives the round trip. */
  lemma SquareRoundTrip(b: Board, i: int, j: int)
    requires b.squareSize != 0.0 && 0 <= i && 0 <= j
    ensures var (cx, cy) := BoardToCnc(b, Square(i), Square(j));
      CncToBoard(b, cx, cy) == Ok((i, j))
  {
    CncToBoardOfBoardToCnc(b, Square(i), Square(j));
  }

  /**
   * Truncation toward zero maps the centre of square -1 back to square 0,
   * so the round trip holds only for non-negative squares.
   */
  lemma NegativeSquareFolds(b: Board)
    requires b.squareSize != 0.0
    ensures var (cx, cy) := BoardToCnc(b, Square(-1), Square(-1));
      CncToBoard(b, cx, cy) == Ok((0, 0))
  {
    CncToBoardOfBoardToCnc(b, Square(-1), Square(-1));
  }

  /**
   * The centre of a valid square lies strictly inside the board: between
   * the offset and the offset plus the square count times the square size.
   */
  lemma InsideScaled(v: real, n: real, s: real)
    requires 0.0 < v < n && 0.0 < s
    ensures 0.0 < v * s < n * s
  {
    assert n * s - v * s == (n - v) * s;
  }

  lemma {:induction false} ValidSquareOnBoard(b: Board, i: int, j: int)
    requires 0.0 < b.squareSize && IsValidSquare(b, i, j)
    ensures var (cx, cy) := BoardToCnc(b, Square(i), Square(j));
      b.offsetX < cx < b.offsetX + b.squares as real * b.squareSize
      && b.offsetY < cy < b.offsetY + b.squares as real * b.squareSize
  {
    var (cx, cy) := BoardToCnc(b, Square(i), Square(j));
    assert cx - b.offsetX == (i as real + 0.5) * b.squareSize;
    assert cy - b.offsetY == (j as real + 0.5) * b.squareSize;
    InsideScaled(i as real + 0.5, b.squares as real, b.squareSize);
    InsideScaled(j as real + 0.5, b.squares as real, b.squareSize);
  }
}
