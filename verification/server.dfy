/**
 * The gantry's TCP command server: `handle_command` turns one text
 * command into at most one `move_to_position` call and a reply line.
 *
 * Python's `float()`, `int()`, `str()` of an int and `%.2f` formatting are
 * parameters: partial parsers that answer `None` where Python raises
 * `ValueError`, and total formatters.
 */
module Server {
  import opened Wrappers
  import opened Sensors
  import opened MotorControl
  import opened Text

  /** The conversions the handler relies on. */
  datatype Conversions = Conversions(
    parseFloat: string -> Option<real>,
    parseInt: string -> Option<int>,
    showInt: int -> string,
    fixed2: real -> string)

  /** The handler's result: the reply, the driver state and the unread samples afterwards. */
  datatype Handled = Handled(reply: string, gantry: Gantry, env: Env)

  const Empty: string := "EMPTY\n"
  const Ok: string := "OK\n"
  const BadJog: string := "BAD JOG FORMAT\n"
  const BadMove: string := "BAD MOVE FORMAT\n"
  const Unknown: string := "UNKNOWN CMD\n"

  /** The reply to a well-formed `MOVE`, which the server does not carry out. */
  function NotImplemented(cv: Conversions, x1: int, y1: int, x2: int, y2: int): string
  {
    "Move logic for board squares " + cv.showInt(x1) + "," + cv.showInt(y1)
      + " \U{2192} " + cv.showInt(x2) + "," + cv.showInt(y2) + " not yet implemented\n"
  }

  /** The reply to `GET_POSITION`. */
  function PositionReply(cv: Conversions, g: Gantry): string
  {
    "POS " + cv.fixed2(g.x) + " " + cv.fixed2(g.y) + " " + cv.fixed2(g.z) + "\n"
  }

  /** The reply to `GET_XY_LIMITS`. */
  function LimitsReply(cv: Conversions, g: Gantry): string
  {
    cv.fixed2(g.xMin) + "," + cv.fixed2(g.xMax) + "," + cv.fixed2(g.yMin) + "," + cv.fixed2(g.yMax) + "\n"
  }

  /** The three floats of a `JOG_TO`, when all of them parse. */
  function JogTarget(cv: Conversions, parts: seq<string>): (r: Option<(real, real, real)>)
    requires |parts| == 4
    ensures r.Some? <==> cv.parseFloat(parts[1]).Some? && cv.parseFloat(parts[2]).Some? && cv.parseFloat(parts[3]).Some?
    ensures r.Some? ==> r.value == (cv.parseFloat(parts[1]).value, cv.parseFloat(parts[2]).value, cv.parseFloat(parts[3]).value)
  {
    var x := cv.parseFloat(parts[1]);
    var y := cv.parseFloat(parts[2]);
    var z := cv.parseFloat(parts[3]);
    if x.Some? && y.Some? && z.Some? then Some((x.value, y.value, z.value)) else None
  }

  /** Whether all four squares of a `MOVE` parse as ints. */
  predicate MoveParses(cv: Conversions, parts: seq<string>)
    requires |parts| == 5
  {
    cv.parseInt(parts[1]).Some? && cv.parseInt(parts[2]).Some? && cv.parseInt(parts[3]).Some? && cv.parseInt(parts[4]).Some?
  }

  /** The commands `handle_command` recognises, decided on the first token and the token count. */
  datatype Kind = Blank | JogTo | MoveSquares | GetPosition | GetLimits | Other

  function KindOf(parts: seq<string>): (k: Kind)
    ensures k == Blank <==> |parts| == 0
    ensures k == JogTo <==> |parts| == 4 && parts[0] == "JOG_TO"
    ensures k == MoveSquares <==> |parts| == 5 && parts[0] == "MOVE"
    ensures k == GetPosition <==> |parts| > 0 && parts[0] == "GET_POSITION"
    ensures k == GetLimits <==> |parts| > 0 && parts[0] == "GET_XY_LIMITS"
  {
    if |parts| == 0 then Blank
    else if parts[0] == "JOG_TO" && |parts| == 4 then JogTo
    else if parts[0] == "MOVE" && |parts| == 5 then MoveSquares
    else if parts[0] == "GET_POSITION" then GetPosition
    else if parts[0] == "GET_XY_LIMITS" then GetLimits
    else Other
  }

  /**
   * `handle_command`.  Only a well-formed `JOG_TO` touches the driver, with
   * one `move_to_position`, and it replies OK whatever that call decided;
   * every reply ends in a newline.
   */
  function HandleCommand(cv: Conversions, g: Gantry, env: Env, command: string): (r: Handled)
    ensures |r.reply| > 0 && r.reply[|r.reply| - 1] == '\n'
    ensures KindOf(Words(command)) != JogTo || JogTarget(cv, Words(command)).None? ==> r.gantry == g && r.env == env
    ensures KindOf(Words(command)) == Blank ==> r.reply == Empty
    ensures KindOf(Words(command)) == JogTo ==>
              (var t := JogTarget(cv, Words(command));
               (t.None? ==> r.reply == BadJog)
               && (t.Some? ==>
                     (r.reply == Ok
                      && var p := MoveToPosition(g, env, t.value.0, t.value.1, Some(t.value.2));
                      r.gantry == p.gantry && r.env == p.env)))
    ensures KindOf(Words(command)) == MoveSquares ==>
              (var parts := Words(command);
               (MoveParses(cv, parts) ==> r.reply == NotImplemented(cv, cv.parseInt(parts[1]).value,
                   cv.parseInt(parts[2]).value, cv.parseInt(parts[3]).value, cv.parseInt(parts[4]).value))
               && (!MoveParses(cv, parts) ==> r.reply == BadMove))
    ensures KindOf(Words(command)) == GetPosition ==> r.reply == PositionReply(cv, g)
    ensures KindOf(Words(command)) == GetLimits ==> r.reply == LimitsReply(cv, g)
    ensures KindOf(Words(command)) == Other ==> r.reply == Unknown
  {
    var parts := Words(command);
    match KindOf(parts)
    case Blank => Handled(Empty, g, env)
    case JogTo =>
      var t := JogTarget(cv, parts);
      if t.None? then Handled(BadJog, g, env)
      else
        var p := MoveToPosition(g, env, t.value.0, t.value.1, Some(t.value.2));
        Handled(Ok, p.gantry, p.env)
    case MoveSquares =>
      if MoveParses(cv, parts) then
        Handled(NotImplemented(cv, cv.parseInt(parts[1]).value, cv.parseInt(parts[2]).value,
                               cv.parseInt(parts[3]).value, cv.parseInt(parts[4]).value), g, env)
      else Handled(BadMove, g, env)
    case GetPosition => Handled(PositionReply(cv, g), g, env)
    case GetLimits => Handled(LimitsReply(cv, g), g, env)
    case Other => Handled(Unknown, g, env)
  }

  /**
   * The reply does not tell a rejected jog from an accepted one: a target
   * left of the X soft limit is answered OK although nothing moved.
   */
  lemma RejectedJogAnsweredOk(cv: Conversions, g: Gantry, env: Env, command: string)
    requires KindOf(Words(command)) == JogTo
    requires JogTarget(cv, Words(command)).Some? && JogTarget(cv, Words(command)).value.0 < g.xMin
    ensures var r := HandleCommand(cv, g, env, command);
      r.reply == Ok && r.gantry == g && r.env == env
  {
  }

  /**
   * A blank or whitespace-only line is answered EMPTY, and only such a
   * line is.
   */
  lemma BlankIsEmpty(cv: Conversions, g: Gantry, env: Env, command: string)
    ensures HandleCommand(cv, g, env, command).reply == Empty <==> forall i :: 0 <= i < |command| ==> IsSpace(command[i])
  {
    WordsEmpty(command);
    var parts := Words(command);
    if |parts| > 0 {
      var r := HandleCommand(cv, g, env, command);
      assert r.reply != Empty by {
        match KindOf(parts)
        case JogTo => assert r.reply == Ok || r.reply == BadJog;
        case MoveSquares =>
          if MoveParses(cv, parts) {
            assert r.reply[0] == 'M';
          } else {
            assert r.reply == BadMove;
          }
        case GetPosition => assert r.reply[0] == 'P';
        case GetLimits =>
          assert r.reply[|r.reply| - 1] == '\n';
          LimitsNotEmpty(cv, g);
        case Other =>
      }
    }
  }

  lemma LimitsNotEmpty(cv: Conversions, g: Gantry)
    ensures LimitsReply(cv, g) != Empty
  {
    var s := LimitsReply(cv, g);
    var k := |cv.fixed2(g.xMin)|;
    assert s[k] == ',';
    assert forall i :: 0 <= i < |Empty| ==> Empty[i] != ',';
  }

  /**
   * The client reads a position reply by splitting it: when every
   * formatted number is a single token, it gets back "POS" and the three
   * formatted coordinates.
   */
  lemma PositionReplySplits(cv: Conversions, g: Gantry)
    requires IsWord(cv.fixed2(g.x)) && IsWord(cv.fixed2(g.y)) && IsWord(cv.fixed2(g.z))
    ensures Words(PositionReply(cv, g)) == ["POS", cv.fixed2(g.x), cv.fixed2(g.y), cv.fixed2(g.z)]
  {
    var (x, y, z) := (cv.fixed2(g.x), cv.fixed2(g.y), cv.fixed2(g.z));
    var ws := ["POS", x, y, z];
    assert IsWord("POS");
    WordsOfJoin(ws);
    assert ws[1..] == [x, y, z] && ws[1..][1..] == [y, z] && ws[1..][1..][1..] == [z];
    assert Join([y, z]) == y + " " + z;
    assert Join([x, y, z]) == x + " " + (y + " " + z);
    assert Join(ws) == "POS " + x + " " + y + " " + z;
    TrailingSpace(Join(ws), "\n");
    assert PositionReply(cv, g) == Join(ws) + "\n";
  }
}
