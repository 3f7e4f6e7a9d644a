/** The per-motor panel (src/components/MotorSpeedControl.tsx): three
    editable motor values and the GO and STOP buttons, which hand a command
    to the page's sendCommand. */
module MotorSpeedControl {
  import opened Motors
  import opened Frame
  import IndexPage

  datatype MotorIndex = M1 | M2 | M3

  /** The range and step the sliders allow. */
  predicate SliderValue(v: int)
  {
    -255 <= v <= 255
  }

  /** A command with motor k set to v and the other two kept. */
  function WithMotor(m: Motors, k: MotorIndex, v: int): (r: Motors)
    ensures k == M1 ==> r.m1 == v && r.m2 == m.m2 && r.m3 == m.m3
    ensures k == M2 ==> r.m1 == m.m1 && r.m2 == v && r.m3 == m.m3
    ensures k == M3 ==> r.m1 == m.m1 && r.m2 == m.m2 && r.m3 == v
  {
    match k
    case M1 => m.(m1 := v)
    case M2 => m.(m2 := v)
    case M3 => m.(m3 := v)
  }

  class MotorSpeedControl {
    var motor1: int
    var motor2: int
    var motor3: int

    function Values(): Motors
      reads this
    {
      Motors(motor1, motor2, motor3)
    }

    /** All three motors start at zero. */
    constructor ()
      ensures Values() == Zero
    {
      motor1, motor2, motor3 := 0, 0, 0;
    }

    /** setMotor1, setMotor2, setMotor3 from the number inputs: the typed
        value is stored as it is, with no range check. */
    method TypeMotor(k: MotorIndex, v: int)
      modifies this
      ensures Values() == WithMotor(old(Values()), k, v)
    {
      match k
      case M1 => motor1 := v;
      case M2 => motor2 := v;
      case M3 => motor3 := v;
    }

    /** The same setters driven by a slider, which only produces integers
        in [-255, 255]; values within the slider range stay within it. */
    method SlideMotor(k: MotorIndex, v: int)
      requires SliderValue(v)
      modifies this
      ensures Values() == WithMotor(old(Values()), k, v)
      ensures Within(old(Values()), 255) ==> Within(Values(), 255)
    {
      TypeMotor(k, v);
    }

    /** GO: send the stored values, unchanged and unclamped. The button is
        rendered only on the motor panel, so the page is connected and in
        the motor mode. */
    method GoCommand(page: IndexPage.IndexPage, w: IndexPage.WriteOutcome)
      requires page.Valid()
      requires page.isConnected && page.controlMode == IndexPage.Motor
      modifies page`sent, page`error
      ensures page.Valid()
      ensures page.Snapshot() == IndexPage.Step(page.supported, old(page.Snapshot()), IndexPage.Send(Values(), w))
    {
      page.SendCommand(Values(), w);
    }

    /** STOP: send zero to every motor, leaving the stored values alone;
        like GO, only on the motor panel. */
    method StopCommand(page: IndexPage.IndexPage, w: IndexPage.WriteOutcome)
      requires page.Valid()
      requires page.isConnected && page.controlMode == IndexPage.Motor
      modifies page`sent, page`error
      ensures page.Valid()
      ensures page.Snapshot() == IndexPage.Step(page.supported, old(page.Snapshot()), IndexPage.Send(Zero, w))
    {
      page.SendCommand(Zero, w);
    }
  }

  /** The values a run of edits (motor, new value) leaves behind, first to last. */
  function Edited(m: Motors, edits: seq<(MotorIndex, int)>): Motors
    decreases |edits|
  {
    if edits == [] then m else Edited(WithMotor(m, edits[0].0, edits[0].1), edits[1..])
  }

  /** Edits made only with the sliders keep every motor in [-255, 255], so
      the frame GO sends then carries powers in that range. */
  lemma {:induction false} SliderEditsBounded(m: Motors, edits: seq<(MotorIndex, int)>)
    requires Within(m, 255)
    requires forall i :: 0 <= i < |edits| ==> SliderValue(edits[i].1)
    decreases |edits|
    ensures Within(Edited(m, edits), 255)
    ensures Decode(Encode(Edited(m, edits))) == Some(Edited(m, edits))
  {
    if edits == [] {
      DecodeEncode(m);
    } else {
      SliderEditsBounded(WithMotor(m, edits[0].0, edits[0].1), edits[1..]);
    }
  }

  /** A typed value outside the slider range reaches the frame untouched. */
  lemma TypedValueUnclamped(v: int)
    ensures Decode(Encode(Edited(Zero, [(M1, v)]))) == Some(Motors(v, 0, 0))
  {
    assert Edited(Zero, [(M1, v)]) == Motors(v, 0, 0);
    DecodeEncode(Motors(v, 0, 0));
  }
}
