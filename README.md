# FIRAClient: the per-tick decision pipeline

This project models the Python client of the FIRA robot-soccer simulator:
what it does with one round of referee and vision readings. It covers:

- `radians.dfy` (module `Radians`): the parts of Python's `math` that the
  client uses. `pi` is the binary64 value of `math.pi`, written out exactly.
  `fmod(x, 2*pi)` is a remainder truncated toward zero. `atan2` is known
  only through its range and its values on the x axis. The module also
  defines when two angles name the same direction: they differ by whole
  turns.
- `bridge.dfy` (module `Bridge`): the pure conversions of `bridge.py` from
  simulator metres and radians to field centimetres and headings in
  [-pi, pi]. It also holds the vision and referee records built from raw
  readings, and the `Actuator` class. That class keeps the log of wheel
  commands handed to the native library, which `send`, `send_all` and
  `stop` append to.
- `client.dfy` (module `Client`): the client's decision logic in
  `main.py`. This is `smallestAngleDiff`, the strategy that sends every
  robot to the ball, and the proportional-derivative controller as a
  `Controller` class. The retained error is one shared `lastError` field.
  It also has one pass of the match loop (`Tick`).

Where the documentation and the code disagree, the model follows the code:

- `convert_angle`'s docstring claims a range of -pi/2 to pi/2. The code
  returns values in [-pi, pi], both ends included: `convert_angle(pi)` is
  `pi` and `convert_angle(-pi)` is `-pi`.
- The retained error is one shared `controller.lastError` attribute, not
  one value per robot. Robot i reads it right after robot i-1 wrote it, and
  robot 0 reads the value left by the previous call.
- `game_on` is its own query to the native library. It is not derived from
  the interrupt type, so it is an independent input of `Tick`.
- `smallestAngleDiff` is guaranteed to lie in [-pi, pi] when both inputs
  are above -2*pi. Below that its result can reach anywhere in
  (-2*pi, 2*pi). Every caller in the client passes headings and bearings
  from [-pi, pi].
- With fewer than NUM_BOTS own robots, the controller raises `IndexError`
  at the first missing index. The exception leaves the match loop and ends
  the program, so nothing is sent on that tick.

## Model

| member | source | states |
|---|---|---|
| Radians.Abs | main.py:66 | `fabs`: the result is non-negative and is `x` or `-x` |
| Radians.Trunc | main.py:20 | truncation toward zero: the integer between 0 and `x` less than one away from `x` |
| Radians.FModTurn | bridge.py:90 | `fmod(x, 2*pi)` carries the sign of `x`, is smaller than a full turn in magnitude, and leaves any `x` strictly inside (-2*pi, 2*pi) unchanged |
| Radians.FModTurnCongruent | bridge.py:90 | `fmod(x, 2*pi)` names the same direction as `x` |
| Radians.CongruentInHalfTurns | bridge.py:91-95 | two angles of [-pi, pi] naming the same direction are equal, unless one is pi and the other -pi |
| Bridge.ConvertWidth | bridge.py:64-72 | a numeric width reading is recovered exactly from its centimetres, and a reading on the field maps into [0, 130]; a non-number gives 0 |
| Bridge.ConvertLength | bridge.py:74-82 | a numeric length reading is recovered exactly from its centimetres, and a reading on the field maps into [0, 170]; a non-number gives 0 |
| Bridge.ConvertEdges | bridge.py:57-82 | the field's edges (plus or minus LENGTH, plus or minus WIDTH) map to 0 and to 170 and 130 centimetres |
| Bridge.ConvertStrictlyIncreasing | bridge.py:64-82 | both coordinate conversions are strictly increasing |
| Bridge.ConvertAngle | bridge.py:84-97 | the result lies in [-pi, pi] and names the direction of the input; an input already in [-pi, pi] is returned unchanged; a non-number gives 0 |
| Bridge.ConvertAngleIdempotent | bridge.py:84-97 | normalising a normalised angle changes nothing |
| Bridge.GetBall | bridge.py:141-160 | the ball's readings are recovered from its centimetres, its speeds pass through, and its angle is 0 |
| Bridge.GetRobot | bridge.py:162-186 | a robot's heading lies in [-pi, pi]; positions and heading are the conversions of the readings; speeds pass through |
| Bridge.GetFieldData | bridge.py:129-139 | NUM_BOTS yellow and NUM_BOTS blue robots, robot i read with index i and its colour, every heading in [-pi, pi], and the ball |
| Bridge.IsYellow | bridge.py:266-268 | true exactly when the interrupt colour is YELLOW (1) |
| Bridge.GetData | bridge.py:218-234 | `is_game_halt` holds exactly when the interrupt is HALT (7); `yellow` exactly when the colour is YELLOW; foul, game-on flag and quadrant are the readings |
| Bridge.ZeroCommands | bridge.py:325-327 | `n` commands, command i being (i, 0, 0) |
| Bridge.Actuator.constructor | bridge.py:291-306 | a fresh actuator has sent nothing |
| Bridge.Actuator.Send | bridge.py:308-315 | exactly one command (index, left, right) is appended to what was sent |
| Bridge.Actuator.SendAll | bridge.py:317-323 | every command of the list is sent, in order, and nothing else |
| Bridge.Actuator.Stop | bridge.py:325-327 | robots 0, 1, 2 are sent (0, 0), in index order, and nothing else |
| Client.SmallestAngleDiff | main.py:18-28 | the result names the direction of `target - source`, is 0 for equal inputs, lies in (-2*pi, 2*pi), and lies in [-pi, pi] when both inputs exceed -2*pi |
| Client.DifferenceCongruent | main.py:20 | the difference of the two reduced headings names the direction of `target - source` |
| Client.SmallestAngleDiffAntisymmetric | main.py:18-28 | swapping the two inputs negates the result, on every input |
| Client.SmallestAngleDiffIsConvertedDifference | main.py:18-28 | for inputs above -2*pi the result is `convert_angle(target - source)`, up to pi against -pi |
| Client.BallObjectives | main.py:8-16 | the strategy's result: NUM_BOTS objectives, objective i with index i at the ball's position |
| Client.MainStrategy | main.py:8-16 | NUM_BOTS objectives, objective i with index i at the ball's position |
| Client.BearingTo | main.py:61-62 | the bearing to the objective lies in [-pi, pi] |
| Client.Steer | main.py:59-69 | the first error is the heading difference to the bearing; the robot reverses exactly when that error exceeds pi/2 + pi/20 in magnitude; then the new error names the direction of the old error plus pi; for a heading in [-pi, pi] the error lies in [-pi, pi] |
| Client.ReversedCongruent | main.py:66-69 | turning the heading by pi turns the error by pi |
| Client.ReversedErrorBound | main.py:66-69 | after the reversal the error is below pi/2 - pi/20 in magnitude |
| Client.Clamp | main.py:79-80 | the correction is limited to [-30, 30]: unchanged inside, saturated outside |
| Client.Mix | main.py:82-95 | the left wheel runs exactly the correction faster than the right; forwards both wheels lie in [0, 30] with one at 30; in reverse both lie in [-30, 0] with one at -30 |
| Client.ErrorSpeed | main.py:72 | the proportional-derivative correction is purely proportional (20 times the error) when the error did not change, and has the error's sign when the error grew in that direction |
| Client.RobotCommand | main.py:54-98 | the command carries the robot's index, and left minus right is the clamped correction `20*e + 2.5*(e - lastError)` |
| Client.RobotCommandBounds | main.py:76-95 | every wheel speed lies in [0, 30] forwards and in [-30, 0] in reverse, with one wheel at full speed |
| Client.NoErrorFullSpeed | main.py:72-87 | with no heading error and no stored error both wheels run at 30 |
| Client.StraightAhead | main.py:59-87 | a robot facing its objective along +x has no error and drives (30, 30) |
| Client.StraightBehind | main.py:59-95 | a robot with its objective straight behind has first error -pi, reverses with error 0, and drives (-30, -30) |
| Client.PreviousError | main.py:46-74 | the shared error robot i reads: the retained value for robot 0, robot i-1's error otherwise, and in [-pi, pi] when robot i-1's heading is |
| Client.CommandsUpTo | main.py:38-98 | the commands for robots 0 .. n-1: one per robot, in index order |
| Client.ControlSpeeds | main.py:38-99 | the controller's result: NUM_BOTS commands, one per robot, in index order |
| Client.Handled | main.py:42-57 | the robots one call handles before it returns or raises: NUM_BOTS, or the first index with no robot or no objective |
| Client.ControlSpeedsChain | main.py:42-74 | robot 0's correction uses the retained error, and robot i's uses robot i-1's error from the same call |
| Client.RunningAimsAtBall | main.py:120-124 | on a running tick every robot's command steers it towards the ball |
| Client.Controller.constructor | main.py:46-49 | the retained error starts at 0 |
| Client.Controller.Control | main.py:31-99 | with NUM_BOTS robots and objectives, the speeds are the chained commands of robots 0 .. NUM_BOTS-1; with fewer, the call raises `IndexError` (`None`); either way the retained error becomes the error of the last robot handled |
| Client.RobotStep | main.py:54-98 | one pass of the controller's loop yields the robot's command and its error |
| Client.HeadingError | main.py:54-69 | the loop's imperative heading-error code computes the error and reversal of `Steer` |
| Client.Wheels | main.py:76-95 | the loop's imperative clamp-and-mix code computes `Mix(Clamp(correction), reversed)` |
| Client.PhaseOf | main.py:120-134 | running exactly when the game is on; halted exactly when it is off and the interrupt is HALT; stopped otherwise |
| Client.Tick | main.py:113-134 | running with NUM_BOTS own robots: the controller's commands for the ball objectives are sent in order, and the retained error becomes robot 2's; running with fewer: the tick raises, nothing is sent, and the errors of the robots handled stay stored; stopped or halted: every robot is sent (0, 0) and the retained error is kept |

## Left out

- The native library `libfira.so` and its foreign calls. Every reading is a parameter, and every command is appended to `Actuator.sent`.
- Network addresses, `update` calls, constructors that open connections, and destructors. These are input and output only.
- `Replacer` and the `__main__` set-up of the four clients. They are outside the decision pipeline.
- The infinite loop. One pass (`Tick`) is modelled, and the loop is that pass repeated.
- Floating-point rounding. Arithmetic is on reals, and `pi` is the binary64 value of `math.pi` treated as exact.
- Radians.Atan2: known only through its range [-pi, pi] and its values on the x axis. The model does not pin down the exact bearing.
- Radians.FModTurn: `fmod` is modelled only for the divisor 2*pi, the only one the client uses.
- Bridge.GetFieldData: the `TypeError` path that returns `None` is not modelled. Every speed reading is declared `c_double`, and the conversions already catch `TypeError`, so it cannot occur.
- Bridge.GetData: the `TypeError` path that returns `None` is not modelled. `get_data` only calls the referee getters, which return the library's integer and boolean results unconverted, and compares an integer (bridge.py:226-230), so nothing there can raise `TypeError`.
- Bridge.Actuator.SendAll: the `except` branch that prints and skips a malformed command is not modelled. Every `Command` has an index and both speeds.
- `main.py` reads `field["our_bots"]` and uses attribute access (`ball.x`, `our_bot.a`). `get_field_data` returns dictionaries without that key. `Entity` is imported from `bridge.py`, which does not define it. The model therefore takes a `Snapshot` of the ball and the team's own robots from the caller, and which colour's robots form `ourBots` is left to the caller.
- Client.MainStrategy: the `Entity` objects are modelled as `Objective` values. Their coordinates start at 0 until the strategy sets them.
- Client.Controller.Control: the loop body is split into `RobotStep`, `HeadingError` and `Wheels`. Each computes what the inline code computes.
- Client.Tick: a raised `IndexError` is reported by `raised`. The end of the program that follows it is left to the caller, which runs no further tick.
