/** The two Python back ends drive the same three motors with different
    tables; nothing in either reconciles them. */
module BackEnds {
  import opened Motors
  import WebControl
  import AutonomousControl

  /** At any nonzero speed the back ends agree only on stop: every moving
      direction gives a different command, and only the autonomous table
      makes left the negation of right. */
  lemma TablesDisagree(d: Direction, speed: int)
    requires speed != 0
    ensures WebControl.WebTable(d, speed) == AutonomousControl.AutoTable(d, speed) <==> d == Stop
    ensures AutonomousControl.AutoTable(Left, speed) == Neg(AutonomousControl.AutoTable(Right, speed))
    ensures WebControl.WebTable(Left, speed) != Neg(WebControl.WebTable(Right, speed))
  {
  }
}
