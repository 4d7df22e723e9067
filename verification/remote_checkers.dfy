/**
 * The remote-control checkers application's `move_piece`: it validates
 * the four coordinates and sends five `jog_to` requests to the gantry
 * server, picking the piece up and putting it down on the limit-calibrated
 * board.
 */
module RemoteCheckers {
  import RemoteBoard

  /** One `jog_to(x, y, z)` request. */
  datatype Jog = Jog(x: real, y: real, z: real)

  /** The fixed heights of the choreography. */
  const ZAttach: real := 10.0
  const ZPlace: real := 2.0
  const ZLow: real := 0.0

  /** The range every coordinate must lie in. */
  predicate OnBoard(v: int)
  {
    0 <= v < 8
  }

  function JogAt(p: (real, real), z: real): (j: Jog)
  {
    Jog(p.0, p.1, z)
  }

  /**
   * `move_piece`: no request unless all four coordinates lie in [0, 8);
   * otherwise down at the start, up to the attach height, across at that
   * height, down to the place height, and down to the low height, all at
   * the end square.
   */
  function MovePiece(b: RemoteBoard.RemoteBoard, from: (int, int), to: (int, int)): (r: seq<Jog>)
    ensures |r| == 0 <==> !(OnBoard(from.0) && OnBoard(from.1) && OnBoard(to.0) && OnBoard(to.1))
    ensures |r| != 0 ==> |r| == 5
    ensures |r| == 5 ==> (r[0].x, r[0].y) == RemoteBoard.BoardToCnc(b, from.0, from.1)
    ensures |r| == 5 ==> (r[4].x, r[4].y) == RemoteBoard.BoardToCnc(b, to.0, to.1)
    // lifted where it stood, lowered where it goes, ending there at the low height rather than at home
    ensures |r| == 5 ==> (r[0].z == ZLow && r[1] == r[0].(z := ZAttach) && r[2].z == ZAttach
              && r[3] == r[4].(z := ZPlace) && r[4].z == ZLow && (r[2].x, r[2].y) == (r[4].x, r[4].y))
  {
    if !(OnBoard(from.0) && OnBoard(from.1) && OnBoard(to.0) && OnBoard(to.1)) then []
    else
      var s := RemoteBoard.BoardToCnc(b, from.0, from.1);
      var e := RemoteBoard.BoardToCnc(b, to.0, to.1);
      [JogAt(s, ZLow), JogAt(s, ZAttach), JogAt(e, ZAttach), JogAt(e, ZPlace), JogAt(e, ZLow)]
  }

  /** Whether a request moves in the plane only, holding the height. */
  predicate PlanarStep(a: Jog, b: Jog)
  {
    a.z == b.z
  }

  /** Whether a request moves vertically only, holding the XY point. */
  predicate VerticalStep(a: Jog, b: Jog)
  {
    a.x == b.x && a.y == b.y
  }

  /**
   * Consecutive requests change the XY point or the height, never both,
   * and the XY point changes only at the attach height.
   */
  lemma StepsAreSeparate(b: RemoteBoard.RemoteBoard, from: (int, int), to: (int, int))
    ensures var r := MovePiece(b, from, to);
      forall i :: 0 < i < |r| ==>
        (PlanarStep(r[i - 1], r[i]) || VerticalStep(r[i - 1], r[i]))
        && (!VerticalStep(r[i - 1], r[i]) ==> r[i - 1].z == ZAttach && r[i].z == ZAttach)
  {
    var r := MovePiece(b, from, to);
    if |r| == 5 {
      assert VerticalStep(r[0], r[1]) && VerticalStep(r[2], r[3]) && VerticalStep(r[3], r[4]);
      assert r[1].z == ZAttach && r[2].z == ZAttach;
    }
  }

  /**
   * With axis limits calibrated and the start and end squares differing in
   * column, the travel request really moves along X, in the direction of
   * the column change.
   */
  lemma TravelFollowsColumns(b: RemoteBoard.RemoteBoard, from: (int, int), to: (int, int))
    requires OnBoard(from.0) && OnBoard(from.1) && OnBoard(to.0) && OnBoard(to.1)
    requires 0.0 < b.squareX && from.0 < to.0
    ensures var r := MovePiece(b, from, to);
      r[1].x < r[2].x
  {
    RemoteBoard.IncreasingInColumn(b, from.0, to.0, from.1);
    RemoteBoard.IncreasingInColumn(b, from.0, to.0, to.1);
  }
}
