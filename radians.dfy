/** The real-number stand-ins for what the client takes from Python's `math`
    module: the constant pi, `fmod` by a full turn (a truncating remainder)
    and `atan2`, and the notion of two angles naming the same direction. */
module Radians {

  /** `math.pi`: the binary64 number nearest to pi, written out exactly. */
  const PI: real := 884279719003555.0 / 281474976710656.0

  /** `2*pi`, the divisor of every `fmod` in the client. */
  const TWO_PI: real := 2.0 * PI

  /** Candidates for `math.atan2(y, x)`: every result lies in [-PI, PI], and on
      the positive x axis the bearing is 0 and on the negative x axis it is PI. */
  type Bearing = f: (real, real) -> real
    | (forall y, x :: -PI <= f(y, x) <= PI)
      && (forall x :: x > 0.0 ==> f(0.0, x) == 0.0)
      && (forall x :: x < 0.0 ==> f(0.0, x) == PI)
    witness AxisBearing

  /** The bearing that is PI on the negative x axis and 0 elsewhere. */
  function AxisBearing(y: real, x: real): real
  {
    if y == 0.0 && x < 0.0 then PI else 0.0
  }

  /** `math.atan2`, known here only through the laws of `Bearing`. */
  const Atan2: Bearing

  /** `math.fabs`. */
  function Abs(x: real): (r: real)
    ensures r >= 0.0 && (r == x || r == -x)
  {
    if x < 0.0 then -x else x
  }

  /** Truncation toward zero. */
  function Trunc(x: real): (t: int)
    ensures 0.0 <= x ==> 0 <= t && t as real <= x < t as real + 1.0
    ensures x < 0.0 ==> t <= 0 && t as real - 1.0 < x <= t as real
  {
    if x >= 0.0 then x.Floor else -((-x).Floor)
  }

  /** `math.fmod(x, 2*pi)`: the remainder of the division truncated toward
      zero, which carries the sign of the dividend. */
  function FModTurn(x: real): (r: real)
    ensures 0.0 <= x ==> 0.0 <= r < TWO_PI
    ensures x < 0.0 ==> -TWO_PI < r <= 0.0
    ensures -TWO_PI < x < TWO_PI ==> r == x
  {
    x - Trunc(x / TWO_PI) as real * TWO_PI
  }

  /** `k` full turns. */
  function Turns(k: int): real
  {
    k as real * TWO_PI
  }

  /** `a` and `b` name the same direction: they differ by whole turns. */
  ghost predicate Congruent(a: real, b: real)
  {
    exists k: int :: a - b == Turns(k)
  }

  /** `FModTurn(x)` names the same direction as `x`. */
  lemma FModTurnCongruent(x: real)
    ensures Congruent(FModTurn(x), x)
  {
    assert FModTurn(x) - x == Turns(-Trunc(x / TWO_PI));
  }

  lemma CongruentSymmetric(a: real, b: real)
    requires Congruent(a, b)
    ensures Congruent(b, a)
  {
    var k :| a - b == Turns(k);
    assert b - a == Turns(-k);
  }

  lemma CongruentTransitive(a: real, b: real, c: real)
    requires Congruent(a, b) && Congruent(b, c)
    ensures Congruent(a, c)
  {
    var k :| a - b == Turns(k);
    var l :| b - c == Turns(l);
    assert a - c == Turns(k + l);
  }

  /** Adding whole turns to one side keeps the direction. */
  lemma CongruentShift(a: real, b: real, k: int)
    requires Congruent(a, b)
    ensures Congruent(a + Turns(k), b)
  {
    var l :| a - b == Turns(l);
    assert a + Turns(k) - b == Turns(k + l);
  }

  /** Adding the same amount to both sides keeps the congruence. */
  lemma CongruentAdd(a: real, b: real, c: real)
    requires Congruent(a, b)
    ensures Congruent(a + c, b + c)
  {
    var k :| a - b == Turns(k);
    assert (a + c) - (b + c) == Turns(k);
  }

  /** Two angles of [-PI, PI] that name the same direction are equal, except
      that PI and -PI name the same direction. */
  lemma CongruentInHalfTurns(a: real, b: real)
    requires -PI <= a <= PI && -PI <= b <= PI
    requires Congruent(a, b)
    ensures a == b || (a == PI && b == -PI) || (a == -PI && b == PI)
  {
    var k :| a - b == Turns(k);
    if k >= 2 || k <= -2 {
      assert false;
    } else if k == 1 {
      assert a - b == TWO_PI;
    } else if k == -1 {
      assert a - b == -TWO_PI;
    }
  }
}
