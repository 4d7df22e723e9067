# CNC checkers gantry, modelled in Dafny

This project models the control core of a BeagleBone-driven three-axis
gantry that plays checkers. The core has these parts:

- **Limit switches.** `check_limit_switch` and `check_axis_limits` read the six
  switches. The hardware is an oracle: a sequence of pin samples. Each
  `GPIO.input` consumes one sample. Once the samples run out, every pin reads
  High, which is idle.
- **Motor driver and move planner** (`motor_control.py`). The driver's module
  globals form one immutable `Gantry` record. The step loops record `Run`s
  in place of toggling pins. `move_to_position` checks the soft limits before
  anything moves. It then orders the Z moves around X-then-Y travel, using
  truncated step counts.
- **Homing** (`home_cnc.py`). Each axis seeks both of its end switches under a
  pulse ceiling. Z and X confirm a triggered read with a second read; Y stops
  on a single read. Each axis then backs off. Z derives its working heights and
  parks at the release height. X re-zeroes and centres. Y stores ordered soft
  limits and centres.
- **Board mappers.** The CNC variant maps a square to its centre and maps back
  by truncation. The remote variant maps a square to the grid line after it
  and never reads its offsets.
- **Pick-and-place choreographies.** The CNC application's five requests run
  against the driver. The remote application's five `jog_to` requests are
  recorded.
- **Server.** `handle_command` of the TCP command server.
- **Calibration.** The CNC variant records four corners and saves or loads its
  record. The remote variant has three modes, a keyboard jog loop and a loader.

Positions are exact reals. Python's `int()` is truncation toward zero
(`Numeric.Trunc`), and `range(n)` runs `max(n, 0)` times (`Numeric.Count`). A
limit check installed in the driver is one full `check_axis_limits` snapshot:
six reads, the one `CNCCheckersSystem.check_limit` makes.

The model keeps several behaviours exactly as the code has them:

- The Z pre-lower goes straight to the target height, not to the release height.
- X soft limits are the raw positions measured before X is re-zeroed.
- Y centring counts the estimate down to minus half the range.
- Homing's Y direction convention is the opposite of the driver's.
- When Y-MIN already reads triggered at the start, the backoff uses the direction level of the Y-MIN seek.
- The server answers OK to a jog that the soft limits rejected.
- The remote `move_piece` ends at the destination at Z_LOW, not at home.
- The remote calibration modes do not catch the `TypeError` of a position request the gantry does not answer with a position.
- The CNC calibration's four corner prompts all read the homed position (see Findings).

## Model

| member | source | states |
|---|---|---|
| Numeric.Trunc | CNC_Mechanism/motor_control.py:126 | `int()` of a float truncates toward zero: the result is within one unit of the value, on the side of zero |
| Numeric.Count | CNC_Mechanism/motor_control.py:66 | `range(n)` runs n times for a non-negative n and not at all for a non-positive one |
| Numeric.Clamp | CNC_Mechanism/motor_control.py:112 | the clamped Z estimate lies in [0, hi] and equals the value when the value is already inside |
| Numeric.TruncatedApproach | CNC_Mechanism/motor_control.py:125-131 | the truncated pulse count covers the distance to within one pulse, never overshooting |
| Motion.Advance | CNC_Mechanism/motor_control.py:75 | n open-loop pulses of a fixed increment move the estimate by n times that increment |
| Sensors.Input | project_01/CNC_Mechanism_Cloud9/home_cnc.py:48-51 | one pin read consumes exactly one sample and reads Low exactly when that sample has the switch triggered |
| Sensors.CheckLimitSwitch | project_01/CNC_Mechanism_Cloud9/home_cnc.py:48-51 | a switch reports triggered exactly when its pin reads Low, after one read |
| Sensors.CheckAxisLimits | project_01/CNC_Mechanism_Cloud9/home_cnc.py:53-65 | the six entries are the six switches read once each in the order x_min, x_max, y_min, y_max, z_min, z_max, consuming six reads |
| Sensors.CheckLimit | CNC_Mechanism/cnc_checkers.py:50-53 | the installed check returns the named switch's read at that switch's place in a full six-read snapshot |
| Sensors.FlagOfSnapshot | project_01/CNC_Mechanism_Cloud9/home_cnc.py:53-65 | each snapshot entry is the read of its own switch at its own position in the read order |
| Sensors.QuietDrop | project_01/CNC_Mechanism_Cloud9/home_cnc.py:48-51 | once every remaining read is idle, no later read finds any switch triggered |
| MotorControl.GetLimitPositions | CNC_Mechanism/motor_control.py:58-59 | the four values reported are exactly the soft limits: writing them back changes nothing |
| MotorControl.SetLimitPositions | CNC_Mechanism/motor_control.py:51-59 | the four soft limits read back exactly as set, and the position and Z settings are untouched |
| MotorControl.GetCurrentPosition | CNC_Mechanism/motor_control.py:159-160 | the three values reported are exactly the position estimate: writing them back changes nothing |
| MotorControl.SetCurrentPosition | CNC_Mechanism/motor_control.py:159-167 | the position reads back exactly as set, and the limits and heights are kept |
| MotorControl.SetLimitCheck | CNC_Mechanism/motor_control.py:46-49 | installing or removing the check changes neither position nor limits |
| MotorControl.SnapshotIsCheck | CNC_Mechanism/motor_control.py:67-68 | the k-th check of a driver loop answers what the installed check answers after k snapshots |
| MotorControl.FirstStop | CNC_Mechanism/motor_control.py:66-70 | the loop runs until the first pass whose check stops it, or until its step count is exhausted |
| MotorControl.Pulses | CNC_Mechanism/motor_control.py:66-70 | without a check every requested pulse is issued; with one, the pulses stop exactly before the first snapshot reporting the guarded switch |
| MotorControl.Step | CNC_Mechanism/motor_control.py:66-75 | the loop's pulses move the estimate by their signed distance and consume one snapshot per check made; in a quiet environment it completes |
| MotorControl.PulseTravel | CNC_Mechanism/motor_control.py:75 | adding one signed 1/spm per pulse amounts to the loop's closed-form travel |
| MotorControl.QuietSteps | CNC_Mechanism/motor_control.py:66-70 | with all switches open the loop issues every pulse and leaves the environment quiet |
| MotorControl.MoveXAxis | CNC_Mechanism/motor_control.py:61-75 | forward writes DIR High and is guarded by x_max; only X moves, by the pulses actually issued; it stops exactly at the first triggered snapshot |
| MotorControl.MoveYAxes | CNC_Mechanism/motor_control.py:77-95 | forward writes DIR Low on both motors and is guarded by y_max; only Y moves, by the pulses issued |
| MotorControl.MoveZAxis | CNC_Mechanism/motor_control.py:97-112 | up writes DIR Low and is guarded by z_max; the estimate is clamped into [0, Z_MAX_HEIGHT] afterwards |
| MotorControl.PreLower | CNC_Mechanism/motor_control.py:133-137 | Z is lowered first exactly when it is above release and the target is lower, straight to the target, landing within a step above it |
| MotorControl.XLeg | CNC_Mechanism/motor_control.py:125-140 | X moves only when the truncated count is positive, toward the target, ending between start and target and within a step when it completes |
| MotorControl.YLeg | CNC_Mechanism/motor_control.py:129-142 | likewise for Y, with the direction flag toward Y-MAX |
| MotorControl.FinalZ | CNC_Mechanism/motor_control.py:144-148 | judged against the estimate after the pre-lower: an upward run exactly when the target is higher, a downward run exactly when it is lower and Z started at or below release, each by the truncated distance, and no run otherwise; it lands within a step when it completes inside the Z range |
| MotorControl.TravelXY | CNC_Mechanism/motor_control.py:139-142 | X then Y travel each end between start and target, and within a step when they complete |
| MotorControl.Accepted | CNC_Mechanism/motor_control.py:125-148 | an accepted move keeps all settings and makes exactly the runs the Z interlock and the step counts call for: the pre-lower, X, Y, and the final Z run judged against the Z estimate during travel (the start height when there is no pre-lower); Z is left alone without a target |
| MotorControl.Composed | CNC_Mechanism/motor_control.py:125-148 | the stage guarantees of pre-lower, travel and final Z add up to those of the whole move, with the final Z run judged against the height the pre-lower left |
| MotorControl.MoveToPosition | CNC_Mechanism/motor_control.py:114-150 | an out-of-limits X (then Y) target is rejected with no motion and no read; otherwise the Z pre-lower, X-then-Y travel and the final Z run exactly as the interlock and the truncated counts call for, ending between start and target |
| MotorControl.MoveZ | CNC_Mechanism/motor_control.py:152-157 | one Z call by the truncated count toward the target, X and Y untouched, landing within a step when it completes inside the Z range |
| MotorControl.MoveToPositionAccuracy | CNC_Mechanism/motor_control.py:114-150 | when every call completes, an accepted move lands within one step of the target on X, Y and, for a target inside the Z range, Z |
| MotorControl.CallMoveToPosition | CNC_Mechanism/motor_control.py:114-150 | a `move_to_position` call as its callers rely on it: rejected exactly for targets outside the limits, changing nothing; the settings kept; an accepted move within one step of its target when every driver call completes |
| MotorControl.StepApproach | CNC_Mechanism/motor_control.py:125-131 | at most the truncated count of pulses toward a target ends between start and target, and the full count ends within one step |
| MotorControl.ClampedApproach | CNC_Mechanism/motor_control.py:112 | the clamp does not spoil a completed Z approach to a target inside [0, Z_MAX_HEIGHT], and a descent never ends below the target |
| Homing.After | project_01/CNC_Mechanism_Cloud9/home_cnc.py:120 | a homing run's pulses each move the estimate by one signed step, adding up to the run's effect |
| Homing.DisplacementPair | project_01/CNC_Mechanism_Cloud9/home_cnc.py:164-183 | a seek followed by a backoff displaces the estimate by the sum of their effects |
| Homing.DebouncedSeek | project_01/CNC_Mechanism_Cloud9/home_cnc.py:390-417 | the Z/X seek stops exactly at the first pair of consecutive triggered reads, and succeeds exactly when it stops under the ceiling |
| Homing.SingleSeek | project_01/CNC_Mechanism_Cloud9/home_cnc.py:712-740 | the Y seek reads before each pulse, pulses only after an untriggered read, and succeeds only on a triggered read |
| Homing.DebounceIgnoresGlitch | project_01/CNC_Mechanism_Cloud9/home_cnc.py:394-401 | a lone triggered read stops a single-read seek at once but not a debounced one |
| Homing.ProbedSeek | project_01/CNC_Mechanism_Cloud9/home_cnc.py:625-658 | the `move_y_to_max` seek makes one extra ignored read per hundred pulses, stays under its ceiling, and succeeds only on a triggered read |
| Homing.SeekFor | project_01/CNC_Mechanism_Cloud9/home_cnc.py:394-401 | a successful seek has just read its switch triggered, twice when debounced |
| Homing.Locate | project_01/CNC_Mechanism_Cloud9/home_cnc.py:98-183 | a switch already triggered only backs off; otherwise the seek is bounded by its ceiling, fails exactly when the ceiling is exhausted, and is followed by a backoff on success; the estimate moves by exactly the runs made |
| Homing.HomeZ | project_01/CNC_Mechanism_Cloud9/home_cnc.py:87-347 | success needs both phases; the travel range, maximum, release and travel heights derive from the two backed-off points; the park move runs toward release; a failed MAX seek sets z_max_travel to 100 |
| Homing.CentreX | project_01/CNC_Mechanism_Cloud9/home_cnc.py:543-586 | from the range, the truncated step count toward range/2 ends within one step above the centre |
| Homing.HomeX | project_01/CNC_Mechanism_Cloud9/home_cnc.py:349-591 | success needs both phases; the soft limits are the backed-off points before re-zeroing; X ends within one step above half the range |
| Homing.MoveYToMax | project_01/CNC_Mechanism_Cloud9/home_cnc.py:593-679 | an already triggered Y-MAX only backs off; otherwise the seek counts down, fails on the ceiling and backs off with DIR High; only Y changes |
| Homing.CentreY | project_01/CNC_Mechanism_Cloud9/home_cnc.py:852-876 | centring from 0 with DIR Low ends at or below 0, within one step of minus half the range |
| Homing.HomeY | project_01/CNC_Mechanism_Cloud9/home_cnc.py:681-884 | MAX then MIN; on success the soft limits are the two points in increasing order and Y ends near minus half the range |
| Homing.HomeCnc | project_01/CNC_Mechanism_Cloud9/home_cnc.py:67-84 | Z, X, Y run in that order regardless of results; each axis's settings survive the later routines |
| Homing.HomeCncSequence | project_01/CNC_Mechanism_Cloud9/home_cnc.py:67-84 | the machine and sensors Y homing leaves, started from what X homing left after Z homing, are those of the whole, and the trace is the three traces in order |
| Homing.GetZLimits | project_01/CNC_Mechanism_Cloud9/home_cnc.py:898-905 | Z_MIN is the release height and Z_MAX the maximum height |
| Homing.XConventionsAgree | CNC_Mechanism/motor_control.py:61-75 | a completed driver X move changes X by exactly what homing would count for its pulses |
| Homing.YConventionsDisagree | CNC_Mechanism/motor_control.py:77-95 | a completed forward Y move increases Y while homing counts the same DIR Low pulses as a decrease |
| Board.NewBoard | CNC_Mechanism/board_system.py:8-16 | the square size is board size over square count, offsets are 0, and a count of 0 raises |
| Board.IsValidSquare | CNC_Mechanism/board_system.py:18-22 | a square is valid exactly when both indices are among the `range(squares)` a loop over the board visits |
| Board.DefaultBoard | CNC_Mechanism/board_system.py:8-16 | the default board has 8 squares of 25 mm |
| Board.Value | CNC_Mechanism/board_system.py:29-32 | an int index moves to its square's centre, and a float is used as is |
| Board.BoardToCnc | CNC_Mechanism/board_system.py:24-36 | the mm coordinate minus the offset is the board coordinate in square units |
| Board.CncToBoard | CNC_Mechanism/board_system.py:38-48 | square units relative to the offset, truncated toward zero; a square size of 0 raises |
| Board.SetBoardOffset | CNC_Mechanism/board_system.py:50-56 | only the offsets change |
| Board.SetSquareSize | CNC_Mechanism/board_system.py:58-64 | the board size follows as square size times square count, and nothing else changes |
| Board.CncToBoardOfBoardToCnc | CNC_Mechanism/board_system.py:24-48 | mapping to mm and back yields the truncation of the coordinate, for any offset and any non-zero square size |
| Board.SquareRoundTrip | CNC_Mechanism/board_system.py:24-48 | every non-negative square survives the round trip |
| Board.NegativeSquareFolds | CNC_Mechanism/board_system.py:45-46 | square -1 maps back to square 0, because of truncation toward zero |
| Board.ValidSquareOnBoard | CNC_Mechanism/board_system.py:18-36 | the centre of a valid square lies strictly inside the board's mm extent |
| RemoteBoard.InitialSquares | project_01/Checkers_Mechanism_Remote_Control/board_system.py:3-10 | the initial board, `RemoteBoard.Initial`, has square sizes an eighth of its board size, and its first square lies one square from the origin on each axis |
| RemoteBoard.BoardToCnc | project_01/Checkers_Mechanism_Remote_Control/board_system.py:27-30 | a square maps to the axis minimum plus col + 1 (row + 1) squares |
| RemoteBoard.SetOffset | project_01/Checkers_Mechanism_Remote_Control/board_system.py:12-14 | only the offsets change |
| RemoteBoard.OffsetIgnored | project_01/Checkers_Mechanism_Remote_Control/board_system.py:12-30 | the offsets never affect the mapping |
| RemoteBoard.SetBoardSize | project_01/Checkers_Mechanism_Remote_Control/board_system.py:16-19 | both square sizes become an eighth of the board, and the minima and offsets stay |
| RemoteBoard.SetAxisLimits | project_01/Checkers_Mechanism_Remote_Control/board_system.py:21-25 | the minima are stored and each square is an eighth of its axis range; the board size is left stale |
| RemoteBoard.LimitsSpanBoard | project_01/Checkers_Mechanism_Remote_Control/board_system.py:21-30 | after limit calibration square 7 maps onto the maxima and square -1 onto the minima |
| RemoteBoard.IncreasingInColumn | project_01/Checkers_Mechanism_Remote_Control/board_system.py:27-30 | with a positive square size the mapping strictly increases with the column |
| RemoteBoard.IncreasingAfterLimits | project_01/Checkers_Mechanism_Remote_Control/board_system.py:21-30 | after calibrating to limits with x_max > x_min the mapping strictly increases with the column |
| Checkers.Init | CNC_Mechanism/cnc_checkers.py:18-36 | the check is installed and the machine, unread samples and runs are exactly those of `home_cnc` on the checked gantry; home and Z limits come from the homed gantry, attach and place heights are 2 mm inside them, and a board of 0 squares raises |
| Checkers.MovePiece | CNC_Mechanism/cnc_checkers.py:61-94 | no request unless both squares are valid; otherwise pick up over the start centre, carry at attach height to the end centre, place, and return home at Z_MIN |
| Checkers.Apply | CNC_Mechanism/cnc_checkers.py:78-93 | one request keeps all settings; a `move_to_position` is accepted exactly inside the soft limits, a `move_z` always runs and keeps X and Y; a rejected move changes nothing; a completed one lands where it asked |
| Checkers.ApplyMoveTo | CNC_Mechanism/cnc_checkers.py:79 | a `move_to_position` request is accepted exactly when its XY target is inside the soft limits, changes nothing when rejected, and lands within a step of its target when every call completes |
| Checkers.ApplyMoveZ | CNC_Mechanism/cnc_checkers.py:82 | a `move_z` request always runs, leaves X and Y where they were, and lands within a step of its height when it completes inside the Z range |
| Checkers.Execute | CNC_Mechanism/cnc_checkers.py:78-94 | the requests run in order, each from the state the previous one left; each `move_to_position` is accepted exactly inside the soft limits and each `move_z` keeps X and Y; rejected ones change nothing; with completing calls each lands where it asked |
| Checkers.RunMovePiece | CNC_Mechanism/cnc_checkers.py:61-94 | False with no motion on an invalid square; otherwise the three travel moves are accepted exactly when the start centre, end centre and home lie inside the soft limits, the pick and the place raise and lower in place, and, with completing calls, the head is over the start square, at attach height, over the end square, at place height and back near home, in that order |
| Checkers.LandedOverSquare | CNC_Mechanism/cnc_checkers.py:69-79 | landing within a step of a square's centre puts the head over that square by `cnc_to_board` |
| Checkers.NearCentre | CNC_Mechanism/board_system.py:42-46 | a coordinate within one X/Y step of a centre truncates back to that square when squares are at least 1 mm |
| RemoteCheckers.MovePiece | Checkers_Mechanism_Remote_Control/cnc_checkers.py:19-43 | no request unless all four coordinates are in [0, 8); otherwise lift at the start, carry at attach height, place and end low at the destination |
| RemoteCheckers.StepsAreSeparate | Checkers_Mechanism_Remote_Control/cnc_checkers.py:34-42 | consecutive requests change either the XY point or the height, and XY only at the attach height |
| RemoteCheckers.TravelFollowsColumns | Checkers_Mechanism_Remote_Control/cnc_checkers.py:27-38 | with calibrated limits, travel moves along X in the direction of the column change |
| Text.WordLength | project_01/CNC_Mechanism_Cloud9/cnc_server.py:11 | the first token is the maximal whitespace-free prefix |
| Text.Words | project_01/CNC_Mechanism_Cloud9/cnc_server.py:11 | `split()` yields non-empty whitespace-free tokens |
| Text.WordsEmpty | project_01/CNC_Mechanism_Cloud9/cnc_server.py:11-13 | `split()` yields nothing exactly when the line is all whitespace |
| Text.WordsOfJoin | project_01/CNC_Mechanism_Cloud9/cnc_server.py:32 | splitting tokens joined by single spaces gives the tokens back |
| Text.TrailingSpace | project_01/CNC_Mechanism_Cloud9/cnc_server.py:32 | trailing whitespace such as the reply's newline adds no token |
| Text.Strip | Checkers_Mechanism_Remote_Control/calibration_system.py:20 | `strip()` keeps the infix between leading and trailing whitespace, starting and ending with non-whitespace |
| Text.StripEmpty | Checkers_Mechanism_Remote_Control/calibration_system.py:20 | only an all-whitespace line strips to nothing |
| Text.Lower | Checkers_Mechanism_Remote_Control/calibration_system.py:161 | an ASCII capital becomes its lower-case letter and every other character stays |
| Server.JogTarget | project_01/CNC_Mechanism_Cloud9/cnc_server.py:15-21 | a jog target exists exactly when all three numbers parse as floats |
| Server.KindOf | project_01/CNC_Mechanism_Cloud9/cnc_server.py:12-34 | the command is told by its first token, JOG_TO needing four tokens and MOVE five |
| Server.HandleCommand | project_01/CNC_Mechanism_Cloud9/cnc_server.py:10-38 | only a well-formed JOG_TO touches the driver, with one `move_to_position`; each command gets its own reply ending in a newline |
| Server.RejectedJogAnsweredOk | project_01/CNC_Mechanism_Cloud9/cnc_server.py:15-19 | a jog outside the X soft limits is answered OK although nothing moved |
| Server.BlankIsEmpty | project_01/CNC_Mechanism_Cloud9/cnc_server.py:11-13 | EMPTY is the reply to, and only to, a blank line |
| Server.PositionReplySplits | project_01/CNC_Mechanism_Cloud9/cnc_server.py:30-32 | a client splitting the position reply gets "POS" and the three formatted coordinates back |
| Store.FloatAt | CNC_Mechanism/calibration_system.py:106-108 | `float(data[key])` fails on a missing key and on an array, and returns the stored number otherwise |
| Store.FloatOr | Checkers_Mechanism_Remote_Control/calibration_system.py:180-181 | a missing key gives the default, and a present one behaves like `float(data[key])` |
| Calibration.SizeFromCorners | CNC_Mechanism/calibration_system.py:70-75 | the board size is the mean of the absolute bottom-edge width and left-edge height |
| Calibration.Calibrate | CNC_Mechanism/calibration_system.py:65-76 | the offset is the bottom-left corner, the square size follows the board size, and 0 squares raises |
| Calibration.RunCalibrationAt | CNC_Mechanism/calibration_system.py:19-92 | the run as its prompts intend it: homes first; without a frame or detected corners it fails changing nothing; otherwise it calibrates from the corners the gantry was brought to and keeps the record; 0 squares raises |
| Calibration.CalibrateUnmoved | CNC_Mechanism/calibration_system.py:44-92 | after homing, all four corner readings give the homed position, so a successful run calibrates a board of size 0 and square size 0 with its offset at that position |
| Calibration.RunCalibration | CNC_Mechanism/calibration_system.py:19-92 | the run as written: homes first; fails without a frame or corners, changing nothing; 0 squares raises; a successful run always yields a board of size 0 at the homed position |
| Calibration.AsWrittenUnmoved | CNC_Mechanism/calibration_system.py:52-62 | the run as written is the intended run with all four corners at the homed position |
| Calibration.TopRightUnused | CNC_Mechanism/calibration_system.py:52-75 | the recorded top-right corner never affects the calibrated board |
| Calibration.UnmovedCornersCollapse | CNC_Mechanism/calibration_system.py:52-76 | with a frame, detected corners and squares, the run as written succeeds, and the board it leaves raises on every inverse mapping |
| Calibration.SpanningCornersMap | CNC_Mechanism/calibration_system.py:64-76 | corners apart along the bottom or left edge give a positive square size, and every non-negative square maps to the gantry and back |
| Calibration.SaveCalibration | CNC_Mechanism/calibration_system.py:94-97 | a file is written exactly when there is non-empty data, and it holds that data |
| Calibration.LoadCalibration | CNC_Mechanism/calibration_system.py:100-125 | success exactly when every entry is present and numeric and the board has squares; entries applied before a failure stay applied |
| Calibration.LoadRecord | CNC_Mechanism/calibration_system.py:100-115 | loading a calibration's record over a board with the same square count restores that board |
| Calibration.SaveLoadRoundTrip | CNC_Mechanism/calibration_system.py:94-115 | saving a successful intended calibration and loading it back restores the calibrated board exactly |
| RemoteCalibration.Decode | Checkers_Mechanism_Remote_Control/calibration_system.py:159-164 | a byte decodes on its own exactly when it is ASCII |
| RemoteCalibration.JogLoop | Checkers_Mechanism_Remote_Control/calibration_system.py:152-175 | the loop ends on Enter, skips undecodable bytes, and its last request is the point it reached |
| RemoteCalibration.Nudge | Checkers_Mechanism_Remote_Control/calibration_system.py:166-173 | each of the six movement keys moves exactly one axis by exactly one step, and any other key moves nothing |
| RemoteCalibration.NudgeCoord | Checkers_Mechanism_Remote_Control/calibration_system.py:168-173 | one key moves one axis a step forward or back, or nothing |
| RemoteCalibration.JogLoopTally | Checkers_Mechanism_Remote_Control/calibration_system.py:166-175 | on each axis the reached point is the start plus one step per forward key minus one per backward key read |
| RemoteCalibration.JogLoopRequests | Checkers_Mechanism_Remote_Control/calibration_system.py:157-175 | Enter is read at most once, as the last byte, and every other decodable byte sends one request |
| RemoteCalibration.JogsAreSteps | Checkers_Mechanism_Remote_Control/calibration_system.py:166-175 | each request is at most one step from the previous one, the first from the reported point |
| RemoteCalibration.FixedSizeMode | Checkers_Mechanism_Remote_Control/calibration_system.py:32-84 | without a frame, corners, a confirmation or a parsable size it fails changing nothing; with them, a missing position reply raises a TypeError; otherwise the board is centred on the reported position |
| RemoteCalibration.ManualJogMode | Checkers_Mechanism_Remote_Control/calibration_system.py:86-125 | a missing position reply raises a TypeError before the board changes; otherwise it succeeds, the offset is the bottom-left corner and the size the mean of the signed edges |
| RemoteCalibration.ManualSizeSigned | Checkers_Mechanism_Remote_Control/calibration_system.py:105-111 | the signed size never exceeds the CNC calibration's size, and equals it exactly when neither edge runs backwards |
| RemoteCalibration.LimitMode | Checkers_Mechanism_Remote_Control/calibration_system.py:127-150 | succeeds exactly when limits are reported, and then the squares divide the axis ranges |
| RemoteCalibration.Run | Checkers_Mechanism_Remote_Control/calibration_system.py:15-30 | the stripped answer picks the mode, a raise in a mode propagates, and any other answer fails changing nothing |
| RemoteCalibration.Load | Checkers_Mechanism_Remote_Control/calibration_system.py:177-193 | defaults for missing offsets and size; limits only when x_min is stored; entries applied before a failure stay applied |
| RemoteCalibration.LoadSized | Checkers_Mechanism_Remote_Control/calibration_system.py:180-181 | a file with numeric offsets and size and no limits applies exactly those |
| RemoteCalibration.FixedSizeRoundTrip | Checkers_Mechanism_Remote_Control/calibration_system.py:68-82 | loading what mode 1 saved restores the board it calibrated |
| RemoteCalibration.ManualJogRoundTrip | Checkers_Mechanism_Remote_Control/calibration_system.py:108-123 | loading what mode 2 saved restores the board it calibrated |
| RemoteCalibration.LimitModeRoundTrip | Checkers_Mechanism_Remote_Control/calibration_system.py:134-148 | loading what mode 3 saved into a default board restores the board it calibrated |
| RemoteCalibration.SizeModesIgnoreOffset | Checkers_Mechanism_Remote_Control/calibration_system.py:68-72 | the offsets computed by modes 1 and 2 have no effect on where pieces go |

## Left out

- Pin setup, motor initialisation, `GPIO.cleanup` and `get_limit_pins` are left out. They only name pins, and the model addresses switches directly.
- Step delays and `time.sleep` are left out. A run keeps only its pace tier.
- Progress prints are left out. They read nothing.
- The vision system, the camera, preview windows and the assignment of `board_corners` are left out. The camera is the parameter `Camera` or `Inputs`.
- The interactive menus are left out: `run` of the CNC application, `menu` of the remote application, the corner prompts' `input()` and `test_calibration_system`. Each is a loop over user input around the modelled operations.
- The optional `load_calibration` that `CNCCheckersSystem.__init__` makes when a file exists is left out of `Checkers.Init`. File existence is I/O, and the load itself is `Calibration.LoadCalibration`.
- The server's `main` is left out. It is the socket accept loop around `handle_command`.
- `float()`, `int()`, `str()` and `%.2f` are parameters of `Server.HandleCommand` and `RemoteCalibration`. Float parsing and formatting are not modelled.
- Non-finite floats are not modelled: positions are reals, so a `nan` or `inf` that `float()` accepts in a `JOG_TO` has no counterpart. In the source a `nan` X or Y passes the soft limits and then makes `int()` raise a `ValueError`, answered `BAD JOG FORMAT`. A `nan` height moves X and Y only and is answered `OK`. An infinite X or Y is rejected by the soft limits. An infinite height makes `int()` raise an `OverflowError` that nothing catches.
- The NumPy archive format is a map from names to numbers or point arrays. `np.savez` is the run's `data` result.
- The network client `remote_motor_control` is not part of this model. The positions and limits it returns are inputs, with `None` for a reply that is not a position, and its `jog_to` calls are recorded requests. A malformed `POS` reply, which would raise a `ValueError` in the client, is not modelled.
- The remote `CNCCheckers.__init__` is not a member of its own. It is `RemoteBoard.Initial` followed by `RemoteCalibration.Load`.
- Floating-point rounding is left out. Positions are exact reals, so accumulated round-off of `1 / STEPS_PER_MM` is not modelled.
- Checkers.RunMovePiece: states arrival over a square only when squares are at least 1 mm wide, because a narrower square can be missed within the one-step tolerance.
- MotorControl.MoveToPositionAccuracy: states Z accuracy only for targets inside [0, Z_MAX_HEIGHT], because the driver's clamp moves any other target.
- Checkers.Init: on a board of 0 squares the error carries no state, so the homing that ran before `BoardSystem` raised, moving the gantry, is not part of the result.
- Calibration.RunCalibrationAt: on a board of 0 squares the error carries no state, so the offset and size the source assigns to the live board before the division raises are not modelled; neither is the homing that preceded it. Calibration.RunCalibration and Calibration.CalibrateUnmoved share this gap.

## Findings

| source | as written | input that shows it | evidently intended | confidence | as-written member | corrected member |
|---|---|---|---|---|---|---|
| CNC_Mechanism/calibration_system.py:52-76 | the four corner prompts read `get_current_position()`, but nothing moves the gantry between them, so all four readings are the homed position | any run with a frame, detected corners and 8 squares: width and height are 0, so the board size and square size are 0 and every later `cnc_to_board` divides by zero | the operator brings the gantry to each corner before pressing Enter, and the board is derived from those four positions | not executed | Calibration.RunCalibration, Calibration.UnmovedCornersCollapse | Calibration.RunCalibrationAt, Calibration.SpanningCornersMap, Calibration.SaveLoadRoundTrip |
