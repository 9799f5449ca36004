/** The value a motor's set(speed) receives, shared by both position controllers. */
module MotorCommand {

  /** A speed command. Java divides doubles by a totalDelta that may be 0.0;
      the quotient is then an infinity, and Infinity records that command
      (with its sign) instead of a real number. */
  datatype Command = Speed(value: real) | Infinity(positive: bool)

  /** Math.abs on a double, without signed zeros. */
  function Abs(x: real): (r: real)
    ensures r >= 0.0 && (r == x || r == -x)
  {
    if x < 0.0 then -x else x
  }

  /** The command of opposite sign (Java's unary minus on a double). */
  function Negate(c: Command): (r: Command)
    ensures Forward(r) <==> Backward(c)
    ensures Backward(r) <==> Forward(c)
  {
    match c
    case Speed(v) => Speed(-v)
    case Infinity(p) => Infinity(!p)
  }

  /** The command turns the motor forward. */
  predicate Forward(c: Command) {
    match c
    case Speed(v) => v > 0.0
    case Infinity(p) => p
  }

  /** The command turns the motor backward. */
  predicate Backward(c: Command) {
    match c
    case Speed(v) => v < 0.0
    case Infinity(p) => !p
  }
}
