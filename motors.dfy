/** Values shared by every part of the robot command path: the three motor
    powers of one command and the five direction words both Python back ends
    dispatch on. */
module Motors {

  datatype Option<T> = None | Some(value: T)

  /** One command: the power of motor 1, motor 2 and motor 3, in that order.
      Nothing in the code clamps these, so they are unbounded integers. */
  datatype Motors = Motors(m1: int, m2: int, m3: int)

  const Zero := Motors(0, 0, 0)

  /** Componentwise negation. */
  function Neg(m: Motors): Motors
  {
    Motors(-m.m1, -m.m2, -m.m3)
  }

  /** Every component lies in [-bound, bound]. */
  predicate Within(m: Motors, bound: int)
  {
    -bound <= m.m1 <= bound && -bound <= m.m2 <= bound && -bound <= m.m3 <= bound
  }

  /** How many of the three motors are given zero power. */
  function IdleCount(m: Motors): nat
  {
    (if m.m1 == 0 then 1 else 0) + (if m.m2 == 0 then 1 else 0) + (if m.m3 == 0 then 1 else 0)
  }

  /** The directions both back ends recognise. */
  datatype Direction = Forward | Backward | Left | Right | Stop

  /** The word a client sends for each direction. */
  function Name(d: Direction): (w: string)
    ensures |w| > 0 && forall i :: 0 <= i < |w| ==> 'a' <= w[i] <= 'z'
  {
    match d
    case Forward => "forward"
    case Backward => "backward"
    case Left => "left"
    case Right => "right"
    case Stop => "stop"
  }

  /** The if/elif chains of both back ends: an absent action or a word other
      than the five names is not recognised. */
  function ParseDirection(word: Option<string>): (r: Option<Direction>)
    ensures r.Some? ==> word == Some(Name(r.value))
    ensures word.Some? && (exists d :: word.value == Name(d)) ==> r.Some?
  {
    match word
    case None => None
    case Some(w) =>
      if w == "forward" then Some(Forward)
      else if w == "backward" then Some(Backward)
      else if w == "left" then Some(Left)
      else if w == "right" then Some(Right)
      else if w == "stop" then Some(Stop)
      else None
  }

  /** Every direction's own name is recognised as that direction. */
  lemma ParseName(d: Direction)
    ensures ParseDirection(Some(Name(d))) == Some(d)
  {
  }
}
