/** The per-tick decision pipeline of the client (main.py): the heading-error
    helper, the strategy that sends every robot to the ball, the
    proportional-derivative differential-drive controller with its single
    retained error, and one pass of the match loop. */
module Client {
  import opened Radians
  import opened Bridge

  /** A result, or its absence when the Python code raises. */
  datatype Option<T> = None | Some(value: T)

  // ---------------------------------------------------------------------
  // Heading error

  /** `smallestAngleDiff(target, source)`: both headings are reduced with
      `fmod` after adding a full turn, subtracted, and the difference gets at
      most one correction by a full turn. The result always names the
      direction of `target - source`; when both inputs exceed -2*PI (so in
      particular for headings in [-PI, PI]) it lies in [-PI, PI]. */
  function SmallestAngleDiff(target: real, source: real): (r: real)
    ensures target == source ==> r == 0.0
    ensures Congruent(r, target - source)
    ensures -TWO_PI < r < TWO_PI
    ensures target > -TWO_PI && source > -TWO_PI ==> -PI <= r <= PI
  {
    var t := FModTurn(target + TWO_PI);
    var s := FModTurn(source + TWO_PI);
    var a := t - s;
    DifferenceCongruent(target, source);
    if a > PI then
      CongruentShift(a, target - source, -1);
      a - TWO_PI
    else if a < -PI then
      CongruentShift(a, target - source, 1);
      a + TWO_PI
    else
      a
  }

  /** The uncorrected difference of the two reduced headings names the
      direction of `target - source`. */
  lemma DifferenceCongruent(target: real, source: real)
    ensures Congruent(FModTurn(target + TWO_PI) - FModTurn(source + TWO_PI), target - source)
  {
    var t, s := FModTurn(target + TWO_PI), FModTurn(source + TWO_PI);
    var k :| t - (target + TWO_PI) == Turns(k) by { FModTurnCongruent(target + TWO_PI); }
    var l :| s - (source + TWO_PI) == Turns(l) by { FModTurnCongruent(source + TWO_PI); }
    assert Turns(k - l) == Turns(k) - Turns(l);
    assert (t - s) - (target - source) == Turns(k - l);
  }

  /** Swapping the two headings negates the difference, on every input. */
  lemma SmallestAngleDiffAntisymmetric(target: real, source: real)
    ensures SmallestAngleDiff(source, target) == -SmallestAngleDiff(target, source)
  {
  }

  /** For headings above -2*PI the helper agrees with normalising the plain
      difference by `convert_angle`, except that one of them may say PI
      where the other says -PI. */
  lemma SmallestAngleDiffIsConvertedDifference(target: real, source: real)
    requires target > -TWO_PI && source > -TWO_PI
    ensures var d, n := SmallestAngleDiff(target, source), ConvertAngle(Number(target - source));
      d == n || (Abs(d) == PI && Abs(n) == PI)
  {
    var d, n := SmallestAngleDiff(target, source), ConvertAngle(Number(target - source));
    CongruentSymmetric(n, target - source);
    CongruentTransitive(d, target - source, n);
    CongruentInHalfTurns(d, n);
  }

  // ---------------------------------------------------------------------
  // Strategy

  /** One robot's target point. */
  datatype Objective = Objective(index: int, x: real, y: real)

  /** The field as main.py reads it: the ball and the team's own robots. */
  datatype Snapshot = Snapshot(ball: Ball, ourBots: seq<Robot>)

  /** The objectives the strategy hands out: one per robot index, every
      one at the ball. */
  function BallObjectives(ball: Ball): (r: seq<Objective>)
    ensures |r| == NUM_BOTS
    ensures forall i :: 0 <= i < NUM_BOTS ==> r[i].index == i && r[i].x == ball.x && r[i].y == ball.y
  {
    seq(NUM_BOTS, i => Objective(i, ball.x, ball.y))
  }

  /** `main_strategy`: builds one objective per robot index and then sets the
      point of each to the ball's position. */
  method MainStrategy(field: Snapshot) returns (objectives: seq<Objective>)
    ensures |objectives| == NUM_BOTS
    ensures forall i :: 0 <= i < NUM_BOTS ==> objectives[i] == Objective(i, field.ball.x, field.ball.y)
  {
    objectives := seq(NUM_BOTS, i => Objective(i, 0.0, 0.0));
    for k := 0 to |objectives|
      invariant |objectives| == NUM_BOTS
      invariant forall i :: k <= i < NUM_BOTS ==> objectives[i].index == i
      invariant forall i :: 0 <= i < k ==> objectives[i] == Objective(i, field.ball.x, field.ball.y)
    {
      objectives := objectives[k := objectives[k].(x := field.ball.x, y := field.ball.y)];
    }
  }

  // ---------------------------------------------------------------------
  // Controller: the per-robot computation

  /** Proportional and derivative gains, and the base wheel speed. */
  const KP: real := 20.0
  const KD: real := 2.5
  const BASE_SPEED: real := 30.0

  /** Beyond this heading error (pi/2 + pi/20) the robot drives backwards. */
  const REVERSE_LIMIT: real := PI / 2.0 + PI / 20.0

  /** The bearing from a robot to its objective. */
  function BearingTo(bot: Robot, objective: Objective): (b: real)
    ensures -PI <= b <= PI
  {
    Atan2(objective.y - bot.y, objective.x - bot.x)
  }

  /** The heading error before the reverse-heading rule, whether the rule
      fired, and the error the controller then works with. */
  datatype Steering = Steering(initialError: real, reversed: bool, error: real)

  /** The heading error of one robot, with the reverse-heading rule: when the
      objective is more than REVERSE_LIMIT off the nose, the heading is turned
      by PI and the error taken again. */
  function Steer(bot: Robot, objective: Objective): (s: Steering)
    ensures s.initialError == SmallestAngleDiff(bot.angle, BearingTo(bot, objective))
    ensures s.reversed <==> Abs(s.initialError) > REVERSE_LIMIT
    ensures !s.reversed ==> s.error == s.initialError
    ensures s.reversed ==> Congruent(s.error, s.initialError + PI)
    ensures -PI <= bot.angle <= PI ==> -PI <= s.error <= PI
  {
    var bearing := BearingTo(bot, objective);
    var e := SmallestAngleDiff(bot.angle, bearing);
    if Abs(e) > REVERSE_LIMIT then
      var heading := ConvertAngle(Number(bot.angle + PI));
      var e' := SmallestAngleDiff(heading, bearing);
      ReversedCongruent(bot.angle, bearing);
      Steering(e, true, e')
    else
      Steering(e, false, e)
  }

  /** After turning the heading by PI the new error names the direction of
      the old error plus PI. */
  lemma ReversedCongruent(heading: real, bearing: real)
    ensures Congruent(SmallestAngleDiff(ConvertAngle(Number(heading + PI)), bearing),
                      SmallestAngleDiff(heading, bearing) + PI)
  {
    var e0 := SmallestAngleDiff(heading, bearing);
    var h1 := ConvertAngle(Number(heading + PI));
    var e1 := SmallestAngleDiff(h1, bearing);
    CongruentAdd(h1, heading + PI, -bearing);
    CongruentTransitive(e1, h1 - bearing, heading + PI - bearing);
    CongruentSymmetric(e0, heading - bearing);
    CongruentAdd(heading - bearing, e0, PI);
    CongruentTransitive(e1, heading + PI - bearing, e0 + PI);
  }

  /** When the reverse-heading rule fires for a heading and a bearing in
      [-PI, PI], the recomputed error is below pi/2 - pi/20 in magnitude. */
  lemma ReversedErrorBound(heading: real, bearing: real)
    requires -PI <= heading <= PI && -PI <= bearing <= PI
    requires Abs(SmallestAngleDiff(heading, bearing)) > REVERSE_LIMIT
    ensures Abs(SmallestAngleDiff(ConvertAngle(Number(heading + PI)), bearing)) < PI / 2.0 - PI / 20.0
  {
    var e0 := SmallestAngleDiff(heading, bearing);
    var e1 := SmallestAngleDiff(ConvertAngle(Number(heading + PI)), bearing);
    ReversedCongruent(heading, bearing);
    CongruentSymmetric(e1, e0 + PI);
    if e0 > 0.0 {
      CongruentShift(e0 + PI, e1, -1);
      CongruentSymmetric(e0 + PI + Turns(-1), e1);
      CongruentInHalfTurns(e1, e0 - PI);
    } else {
      CongruentInHalfTurns(e1, e0 + PI);
    }
  }

  /** The proportional-derivative correction, against the stored error: purely
      proportional when the error did not change, and of the error's sign when
      the error grew in that direction. */
  function ErrorSpeed(error: real, lastError: real): (v: real)
    ensures error == lastError ==> v == KP * error
    ensures error > 0.0 && error >= lastError ==> v > 0.0
    ensures error < 0.0 && error <= lastError ==> v < 0.0
  {
    KP * error + KD * (error - lastError)
  }

  /** The correction limited to [-BASE_SPEED, BASE_SPEED]: first from above,
      then from below. */
  function Clamp(v: real): (c: real)
    ensures -BASE_SPEED <= c <= BASE_SPEED
    ensures -BASE_SPEED <= v <= BASE_SPEED ==> c == v
    ensures v > BASE_SPEED ==> c == BASE_SPEED
    ensures v < -BASE_SPEED ==> c == -BASE_SPEED
  {
    var upper := if v < BASE_SPEED then v else BASE_SPEED;
    if upper > -BASE_SPEED then upper else -BASE_SPEED
  }

  /** The differential mix of a clamped correction into (left, right). The
      left wheel always runs `errorSpeed` faster than the right. Forwards, the
      faster wheel runs at BASE_SPEED and both lie in [0, BASE_SPEED];
      backwards, the faster-reversing wheel runs at -BASE_SPEED and both lie in
      [-BASE_SPEED, 0]. */
  function Mix(errorSpeed: real, reversed: bool): (w: (real, real))
    ensures w.0 - w.1 == errorSpeed
    ensures -BASE_SPEED <= errorSpeed <= BASE_SPEED && !reversed ==>
      0.0 <= w.0 <= BASE_SPEED && 0.0 <= w.1 <= BASE_SPEED && (w.0 == BASE_SPEED || w.1 == BASE_SPEED)
    ensures -BASE_SPEED <= errorSpeed <= BASE_SPEED && reversed ==>
      -BASE_SPEED <= w.0 <= 0.0 && -BASE_SPEED <= w.1 <= 0.0 && (w.0 == -BASE_SPEED || w.1 == -BASE_SPEED)
  {
    if reversed then
      if errorSpeed > 0.0 then (-BASE_SPEED + errorSpeed, -BASE_SPEED)
      else (-BASE_SPEED, -BASE_SPEED - errorSpeed)
    else
      if errorSpeed > 0.0 then (BASE_SPEED, BASE_SPEED - errorSpeed)
      else (BASE_SPEED + errorSpeed, BASE_SPEED)
  }

  /** The wheel command for robot `index`, given the stored error it reads. */
  function RobotCommand(index: int, bot: Robot, objective: Objective, lastError: real): (c: Command)
    ensures c.index == index
    ensures c.left - c.right == Clamp(ErrorSpeed(Steer(bot, objective).error, lastError))
  {
    var s := Steer(bot, objective);
    var w := Mix(Clamp(ErrorSpeed(s.error, lastError)), s.reversed);
    Command(index, w.0, w.1)
  }

  /** Forwards both wheels lie in [0, 30] and one of them is 30; in reverse
      both lie in [-30, 0] and one of them is -30. */
  lemma RobotCommandBounds(index: int, bot: Robot, objective: Objective, lastError: real)
    ensures var c, s := RobotCommand(index, bot, objective, lastError), Steer(bot, objective);
      && (!s.reversed ==> 0.0 <= c.left <= 30.0 && 0.0 <= c.right <= 30.0 && (c.left == 30.0 || c.right == 30.0))
      && (s.reversed ==> -30.0 <= c.left <= 0.0 && -30.0 <= c.right <= 0.0 && (c.left == -30.0 || c.right == -30.0))
  {
  }

  /** With no heading error and no stored error both wheels run at full
      speed forwards. */
  lemma NoErrorFullSpeed(index: int, bot: Robot, objective: Objective)
    requires Steer(bot, objective) == Steering(0.0, false, 0.0)
    ensures RobotCommand(index, bot, objective, 0.0) == Command(index, 30.0, 30.0)
  {
  }

  /** A robot facing along +x with its objective straight ahead gets no
      correction, and drives straight forwards when the stored error is 0. */
  lemma StraightAhead(index: int, bot: Robot, objective: Objective)
    requires bot.angle == 0.0 && objective.y == bot.y && objective.x > bot.x
    ensures Steer(bot, objective) == Steering(0.0, false, 0.0)
    ensures RobotCommand(index, bot, objective, 0.0) == Command(index, BASE_SPEED, BASE_SPEED)
  {
    assert BearingTo(bot, objective) == 0.0;
  }

  /** A robot facing along +x with its objective straight behind it has an
      initial error of -PI, drives backwards, and with the stored error 0 runs
      both wheels at full speed in reverse. */
  lemma StraightBehind(index: int, bot: Robot, objective: Objective)
    requires bot.angle == 0.0 && objective.y == bot.y && objective.x < bot.x
    ensures Steer(bot, objective) == Steering(-PI, true, 0.0)
    ensures RobotCommand(index, bot, objective, 0.0) == Command(index, -BASE_SPEED, -BASE_SPEED)
  {
    assert BearingTo(bot, objective) == PI;
    assert FModTurn(0.0 + TWO_PI) == 0.0;
    assert FModTurn(PI + TWO_PI) == PI;
    assert SmallestAngleDiff(0.0, PI) == -PI;
    assert ConvertAngle(Number(0.0 + PI)) == PI;
  }

  // ---------------------------------------------------------------------
  // Controller: one call over all robots

  /** The stored error robot `i` reads during one call: the retained value for
      robot 0, and robot i-1's error from the same call for the others. For
      headings in [-PI, PI] the errors written during the call stay in
      [-PI, PI]. */
  function PreviousError(bots: seq<Robot>, objectives: seq<Objective>, lastError: real, i: nat): (e: real)
    requires i <= |bots| && i <= |objectives|
    ensures i > 0 && -PI <= bots[i - 1].angle <= PI ==> -PI <= e <= PI
  {
    if i == 0 then lastError else Steer(bots[i - 1], objectives[i - 1]).error
  }

  /** The commands one call of the controller computes for robots
      0 .. n-1: one per robot, in index order. */
  function CommandsUpTo(bots: seq<Robot>, objectives: seq<Objective>, lastError: real, n: nat): (r: seq<Command>)
    requires n <= |bots| && n <= |objectives|
    ensures |r| == n
    ensures forall i :: 0 <= i < n ==> r[i].index == i
  {
    seq(n, i requires 0 <= i < n =>
      RobotCommand(i, bots[i], objectives[i], PreviousError(bots, objectives, lastError, i)))
  }

  /** The commands one call of the controller returns: one per robot, in
      index order. */
  function ControlSpeeds(bots: seq<Robot>, objectives: seq<Objective>, lastError: real): (r: seq<Command>)
    requires |bots| >= NUM_BOTS && |objectives| >= NUM_BOTS
    ensures |r| == NUM_BOTS
    ensures forall i :: 0 <= i < NUM_BOTS ==> r[i].index == i
  {
    CommandsUpTo(bots, objectives, lastError, NUM_BOTS)
  }

  /** One call yields NUM_BOTS commands, command `i` for robot `i`; robot 0's
      correction reads the retained error and robot i's reads robot i-1's
      error of the same call. */
  lemma ControlSpeedsChain(bots: seq<Robot>, objectives: seq<Objective>, lastError: real, i: nat)
    requires |bots| >= NUM_BOTS && |objectives| >= NUM_BOTS && i < NUM_BOTS
    ensures var r := ControlSpeeds(bots, objectives, lastError);
      var e := Steer(bots[i], objectives[i]).error;
      && |r| == NUM_BOTS && r[i].index == i
      && (i == 0 ==> r[i].left - r[i].right == Clamp(KP * e + KD * (e - lastError)))
      && (i > 0 ==> var e' := Steer(bots[i - 1], objectives[i - 1]).error;
                    r[i].left - r[i].right == Clamp(KP * e + KD * (e - e')))
  {
  }

  /** On a running tick every command steers its robot towards the ball. */
  lemma RunningAimsAtBall(bots: seq<Robot>, ball: Ball, lastError: real, i: nat)
    requires |bots| >= NUM_BOTS && i < NUM_BOTS
    ensures ControlSpeeds(bots, BallObjectives(ball), lastError)[i]
      == RobotCommand(i, bots[i], Objective(i, ball.x, ball.y),
                      if i == 0 then lastError else Steer(bots[i - 1], Objective(i - 1, ball.x, ball.y)).error)
  {
  }

  /** The controller with its retained error. Python keeps that error in one
      attribute of the controller function, created as 0 on first use and
      shared by every robot and every call. */
  class Controller {
    var lastError: real

    constructor ()
      ensures lastError == 0.0
    {
      lastError := 0.0;
    }

    /** `controller`: computes the wheel commands of robots 0 .. NUM_BOTS-1 in
        order, storing each robot's error for the next robot and, after the
        last robot, for the next call. With fewer than NUM_BOTS robots or
        objectives, the robot index that is missing raises IndexError
        (`None`). The errors of the robots handled before it stay stored. */
    method Control(field: Snapshot, objectives: seq<Objective>) returns (result: Option<seq<Command>>)
      modifies this
      ensures result.Some? <==> |field.ourBots| >= NUM_BOTS && |objectives| >= NUM_BOTS
      ensures result.Some? ==> result.value == ControlSpeeds(field.ourBots, objectives, old(lastError))
      ensures lastError == PreviousError(field.ourBots, objectives, old(lastError), Handled(|field.ourBots|, |objectives|))
    {
      var bots := field.ourBots;
      ghost var expected := CommandsUpTo(bots, objectives, lastError, Handled(|bots|, |objectives|));
      var speeds := seq(NUM_BOTS, i => Command(i, 0.0, 0.0));
      for i := 0 to |speeds|
        invariant |speeds| == NUM_BOTS
        invariant i <= Handled(|bots|, |objectives|)
        invariant forall j :: i <= j < NUM_BOTS ==> speeds[j].index == j
        invariant forall j :: 0 <= j < i ==> speeds[j] == expected[j]
        invariant lastError == PreviousError(bots, objectives, old(lastError), i)
      {
        if i == |objectives| || i == |bots| {
          return None;
        }
        var left, right, error := RobotStep(i, bots[i], objectives[i], lastError);
        lastError := error;
        speeds := speeds[i := speeds[i].(left := left, right := right)];
      }
      result := Some(speeds);
    }
  }

  /** How many robots one call of the controller handles before it returns
      or raises: NUM_BOTS, or the first index with no robot or no objective. */
  function Handled(bots: nat, objectives: nat): (n: nat)
    ensures n <= bots && n <= objectives && n <= NUM_BOTS
    ensures n == NUM_BOTS || n == bots || n == objectives
  {
    if bots < objectives then (if bots < NUM_BOTS then bots else NUM_BOTS)
    else if objectives < NUM_BOTS then objectives else NUM_BOTS
  }

  /** One pass of the controller's loop for robot `index`: its heading error,
      then its wheel speeds against the stored error `lastError`. */
  method RobotStep(index: int, bot: Robot, objective: Objective, lastError: real)
    returns (left: real, right: real, error: real)
    ensures Command(index, left, right) == RobotCommand(index, bot, objective, lastError)
    ensures error == Steer(bot, objective).error
  {
    var reversed;
    error, reversed := HeadingError(bot, objective);
    var errorSpeed := KP * error + KD * (error - lastError);
    left, right := Wheels(errorSpeed, reversed);
  }

  /** The heading error of one robot as the controller's loop computes it,
      reassigning the heading and the error when the reverse-heading rule
      fires. */
  method HeadingError(bot: Robot, objective: Objective) returns (error: real, reversed: bool)
    ensures error == Steer(bot, objective).error && reversed == Steer(bot, objective).reversed
  {
    reversed := false;
    var angleRob := bot.angle;
    var angleObj := Atan2(objective.y - bot.y, objective.x - bot.x);
    error := SmallestAngleDiff(angleRob, angleObj);
    if Abs(error) > PI / 2.0 + PI / 20.0 {
      reversed := true;
      angleRob := ConvertAngle(Number(angleRob + PI));
      error := SmallestAngleDiff(angleRob, angleObj);
    }
  }

  /** The wheel speeds as the controller's loop computes them: the correction
      limited to [-BASE_SPEED, BASE_SPEED], the forward mix, and the reverse
      mix in its place when the robot drives backwards. */
  method Wheels(errorSpeed: real, reversed: bool) returns (leftMotorSpeed: real, rightMotorSpeed: real)
    ensures (leftMotorSpeed, rightMotorSpeed) == Mix(Clamp(errorSpeed), reversed)
  {
    var speed := errorSpeed;
    speed := if speed < BASE_SPEED then speed else BASE_SPEED;
    speed := if speed > -BASE_SPEED then speed else -BASE_SPEED;
    if speed > 0.0 {
      leftMotorSpeed := BASE_SPEED;
      rightMotorSpeed := BASE_SPEED - speed;
    } else {
      leftMotorSpeed := BASE_SPEED + speed;
      rightMotorSpeed := BASE_SPEED;
    }
    if reversed {
      if speed > 0.0 {
        leftMotorSpeed := -BASE_SPEED + speed;
        rightMotorSpeed := -BASE_SPEED;
      } else {
        leftMotorSpeed := -BASE_SPEED;
        rightMotorSpeed := -BASE_SPEED - speed;
      }
    }
  }

  // ---------------------------------------------------------------------
  // Match loop

  /** The three branches of the loop body. */
  datatype Phase = Running | Stopped | Halted

  /** Which branch a tick takes: running when the referee says game on,
      otherwise halted for interrupt HALT and stopped for any other. */
  function PhaseOf(ref: RefereeData): (p: Phase)
    ensures p == Running <==> ref.gameOn
    ensures p == Halted <==> !ref.gameOn && ref.foul == HALT
    ensures p == Stopped <==> !ref.gameOn && ref.foul != HALT
  {
    if ref.gameOn then Running else if ref.foul != HALT then Stopped else Halted
  }

  /** One pass of the match loop, after the referee and vision data are read.
      Running: objectives, controller, and every command sent; with fewer
      than NUM_BOTS own robots the controller raises IndexError, nothing is
      sent, and `raised` reports that the loop ends there. Stopped or halted:
      every robot is sent (0, 0) and the retained error is kept. */
  method Tick(ref: RefereeData, field: Snapshot, controller: Controller, actuator: Actuator)
    returns (raised: bool)
    modifies controller, actuator
    ensures raised <==> PhaseOf(ref) == Running && |field.ourBots| < NUM_BOTS
    ensures PhaseOf(ref) == Running && !raised ==>
      && actuator.sent == old(actuator.sent) + ControlSpeeds(field.ourBots, BallObjectives(field.ball), old(controller.lastError))
      && controller.lastError == Steer(field.ourBots[NUM_BOTS - 1], Objective(NUM_BOTS - 1, field.ball.x, field.ball.y)).error
    ensures raised ==>
      && actuator.sent == old(actuator.sent)
      && controller.lastError == PreviousError(field.ourBots, BallObjectives(field.ball), old(controller.lastError), |field.ourBots|)
    ensures PhaseOf(ref) != Running ==>
      && actuator.sent == old(actuator.sent) + ZeroCommands(NUM_BOTS)
      && controller.lastError == old(controller.lastError)
  {
    raised := false;
    if ref.gameOn {
      var objectives := MainStrategy(field);
      assert objectives == BallObjectives(field.ball);
      var speeds := controller.Control(field, objectives);
      if speeds.None? {
        raised := true;
        return;
      }
      actuator.SendAll(speeds.value);
    } else if ref.foul != HALT {
      // foul behaviour
      actuator.Stop();
    } else {
      // halt behaviour
      actuator.Stop();
    }
  }
}
