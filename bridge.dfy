/** The client-side half of the link to the simulator (bridge.py): the
    conversions from the simulator's centred metres and raw angles to the
    field's centimetres and normalised headings, the records filled from the
    vision and referee readings, and the actuator that sends wheel commands.
    The native library behind every reading and every command is not modelled:
    readings are parameters and commands are appended to a log. */
module Bridge {
  import opened Radians

  /** Robots per team. */
  const NUM_BOTS: nat := 3

  /** Half the field's length and half its width, in metres. */
  const LENGTH: real := 1.7 / 2.0
  const WIDTH: real := 1.3 / 2.0

  /** A raw reading as Python sees it: a number, or a value (such as None)
      on which arithmetic raises TypeError. */
  datatype Value = Number(v: real) | NotNumber

  // ---------------------------------------------------------------------
  // Coordinate and angle conversions

  /** `convert_width`: a centred width coordinate in metres to centimetres
      from the bottom edge; 0 when the reading is not a number. */
  function ConvertWidth(w: Value): (r: real)
    ensures w.NotNumber? ==> r == 0.0
    ensures w.Number? ==> WidthOf(r) == w.v
    ensures w.Number? && -WIDTH <= w.v <= WIDTH ==> 0.0 <= r <= 130.0
  {
    match w
    case Number(v) => (WIDTH + v) * 100.0
    case NotNumber => 0.0
  }

  /** `convert_length`: a centred length coordinate in metres to centimetres
      from the left edge; 0 when the reading is not a number. */
  function ConvertLength(d: Value): (r: real)
    ensures d.NotNumber? ==> r == 0.0
    ensures d.Number? ==> LengthOf(r) == d.v
    ensures d.Number? && -LENGTH <= d.v <= LENGTH ==> 0.0 <= r <= 170.0
  {
    match d
    case Number(v) => (LENGTH + v) * 100.0
    case NotNumber => 0.0
  }

  /** The centred metres a field width in centimetres came from. */
  function WidthOf(cm: real): real
  {
    cm / 100.0 - WIDTH
  }

  /** The centred metres a field length in centimetres came from. */
  function LengthOf(cm: real): real
  {
    cm / 100.0 - LENGTH
  }

  /** The field's edges land on 0 and on its full size in centimetres. */
  lemma ConvertEdges()
    ensures ConvertLength(Number(-LENGTH)) == 0.0 && ConvertLength(Number(LENGTH)) == 170.0
    ensures ConvertWidth(Number(-WIDTH)) == 0.0 && ConvertWidth(Number(WIDTH)) == 130.0
  {
  }

  /** Both conversions are strictly increasing on numbers. */
  lemma ConvertStrictlyIncreasing(a: real, b: real)
    requires a < b
    ensures ConvertLength(Number(a)) < ConvertLength(Number(b))
    ensures ConvertWidth(Number(a)) < ConvertWidth(Number(b))
  {
  }

  /** `convert_angle`: an angle in radians folded into [-PI, PI] by `fmod`
      and at most one correction by a full turn; 0 when the reading is not a
      number. The result names the same direction as the input, and an angle
      already in [-PI, PI] is returned unchanged. */
  function ConvertAngle(a: Value): (r: real)
    ensures -PI <= r <= PI
    ensures a.NotNumber? ==> r == 0.0
    ensures a.Number? ==> Congruent(r, a.v)
    ensures a.Number? && -PI <= a.v <= PI ==> r == a.v
  {
    match a
    case NotNumber => 0.0
    case Number(v) =>
      var angle := FModTurn(v);
      FModTurnCongruent(v);
      if angle < -PI then
        CongruentShift(angle, v, 1);
        angle + TWO_PI
      else if angle > PI then
        CongruentShift(angle, v, -1);
        angle - TWO_PI
      else
        angle
  }

  /** Normalising a normalised angle changes nothing. */
  lemma ConvertAngleIdempotent(a: Value)
    ensures ConvertAngle(Number(ConvertAngle(a))) == ConvertAngle(a)
  {
  }

  // ---------------------------------------------------------------------
  // Vision records

  /** The native library's readings for the ball. */
  datatype BallReading = BallReading(x: Value, y: Value, vx: real, vy: real)

  /** The native library's readings for one robot. */
  datatype RobotReading = RobotReading(x: Value, y: Value, angle: Value, vx: real, vy: real, vangle: real)

  /** The ball record: position in field centimetres, raw speeds, angle 0. */
  datatype Ball = Ball(x: real, y: real, vx: real, vy: real, angle: real)

  /** A robot record: position in field centimetres, heading in [-PI, PI],
      raw speeds. */
  datatype Robot = Robot(x: real, y: real, angle: real, vx: real, vy: real, vangle: real)

  /** The field record of `get_field_data`. */
  datatype Field = Field(yellow: seq<Robot>, blue: seq<Robot>, ball: Ball)

  /** `Vision.get_ball`: positions converted to field centimetres (the
      readings they came from are recovered by `LengthOf` and `WidthOf`),
      speeds passed through, angle 0. */
  function GetBall(raw: BallReading): (b: Ball)
    ensures raw.x.Number? ==> LengthOf(b.x) == raw.x.v
    ensures raw.y.Number? ==> WidthOf(b.y) == raw.y.v
    ensures raw.x.NotNumber? ==> b.x == 0.0
    ensures raw.y.NotNumber? ==> b.y == 0.0
    ensures b.vx == raw.vx && b.vy == raw.vy && b.angle == 0.0
  {
    Ball(ConvertLength(raw.x), ConvertWidth(raw.y), raw.vx, raw.vy, 0.0)
  }

  /** `Vision.get_robot`: positions and heading converted, speeds passed
      through; the heading is always in [-PI, PI]. */
  function GetRobot(raw: RobotReading): (r: Robot)
    ensures -PI <= r.angle <= PI
    ensures r.x == ConvertLength(raw.x) && r.y == ConvertWidth(raw.y) && r.angle == ConvertAngle(raw.angle)
    ensures r.vx == raw.vx && r.vy == raw.vy && r.vangle == raw.vangle
  {
    Robot(ConvertLength(raw.x), ConvertWidth(raw.y), ConvertAngle(raw.angle), raw.vx, raw.vy, raw.vangle)
  }

  /** `Vision.get_field_data`: NUM_BOTS robots of each colour, queried by
      index and colour, and the ball. */
  function GetFieldData(read: (int, bool) -> RobotReading, ball: BallReading): (f: Field)
    ensures |f.yellow| == NUM_BOTS && |f.blue| == NUM_BOTS
    ensures forall i :: 0 <= i < NUM_BOTS ==> f.yellow[i] == GetRobot(read(i, true))
    ensures forall i :: 0 <= i < NUM_BOTS ==> f.blue[i] == GetRobot(read(i, false))
    ensures forall i :: 0 <= i < NUM_BOTS ==> -PI <= f.yellow[i].angle <= PI && -PI <= f.blue[i].angle <= PI
    ensures f.ball == GetBall(ball)
  {
    Field(seq(NUM_BOTS, i => GetRobot(read(i, true))),
          seq(NUM_BOTS, i => GetRobot(read(i, false))),
          GetBall(ball))
  }

  // ---------------------------------------------------------------------
  // Referee records

  /** Interrupt types of the referee. */
  const FREE_KICK: int := 0
  const PENALTY_KICK: int := 1
  const GOAL_KICK: int := 2
  const FREE_BALL: int := 3
  const KICKOFF: int := 4
  const STOP: int := 5
  const GAME_ON: int := 6
  const HALT: int := 7

  /** Interrupt colours of the referee. */
  const BLUE: int := 0
  const YELLOW: int := 1
  const NO_COLOR: int := 2

  /** The native library's referee readings; `gameOn` is its own query and
      is not derived from `interruptType` on this side. */
  datatype RefereeReading = RefereeReading(interruptType: int, gameOn: bool, color: int, quadrant: int)

  /** The referee record of `get_data`. */
  datatype RefereeData = RefereeData(foul: int, gameOn: bool, yellow: bool, quad: int, isGameHalt: bool)

  /** `Referee.is_yellow`: the foul was given to the yellow team. */
  function IsYellow(raw: RefereeReading): (b: bool)
    ensures b <==> raw.color == YELLOW
  {
    raw.color == YELLOW
  }

  /** `Referee.get_data`: the raw interrupt, the game-on flag, the foul
      colour, the quadrant, and whether the interrupt is HALT. */
  function GetData(raw: RefereeReading): (d: RefereeData)
    ensures d.isGameHalt <==> raw.interruptType == HALT
    ensures d.yellow <==> raw.color == YELLOW
    ensures d.foul == raw.interruptType && d.gameOn == raw.gameOn && d.quad == raw.quadrant
  {
    RefereeData(raw.interruptType, raw.gameOn, IsYellow(raw), raw.quadrant, raw.interruptType == HALT)
  }

  // ---------------------------------------------------------------------
  // Actuator

  /** One wheel command: robot index and left and right wheel speeds. */
  datatype Command = Command(index: int, left: real, right: real)

  /** The commands that stop robots 0 .. n-1, in index order. */
  function ZeroCommands(n: nat): (r: seq<Command>)
    ensures |r| == n
    ensures forall i :: 0 <= i < n ==> r[i] == Command(i, 0.0, 0.0)
  {
    if n == 0 then [] else ZeroCommands(n - 1) + [Command(n - 1, 0.0, 0.0)]
  }

  /** The actuator client. `sent` is every command handed to the native
      library so far, oldest first. */
  class Actuator {
    var sent: seq<Command>

    constructor ()
      ensures sent == []
    {
      sent := [];
    }

    /** `send`: one command for one robot. */
    method Send(index: int, left: real, right: real)
      modifies this
      ensures sent == old(sent) + [Command(index, left, right)]
    {
      sent := sent + [Command(index, left, right)];
    }

    /** `send_all`: every command of `speeds`, in order. */
    method SendAll(speeds: seq<Command>)
      modifies this
      ensures sent == old(sent) + speeds
    {
      for k := 0 to |speeds|
        invariant sent == old(sent) + speeds[..k]
      {
        var s := speeds[k];
        Send(s.index, s.left, s.right);
      }
    }

    /** `stop`: speed 0 on both wheels of every robot, in index order. */
    method Stop()
      modifies this
      ensures sent == old(sent) + ZeroCommands(NUM_BOTS)
    {
      for i := 0 to NUM_BOTS
        invariant sent == old(sent) + ZeroCommands(i)
      {
        Send(i, 0.0, 0.0);
      }
    }
  }
}
