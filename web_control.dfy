/** The Flask web controller (robot_control_web.py): a RobotController that
    owns one serial connection, its directional table and the /api/move
    route. */
module WebControl {
  import opened Motors
  import opened Frame

  /** The web controller's table: move_forward, move_backward, move_right,
      move_left and stop at the controller's current speed. */
  function WebTable(d: Direction, speed: int): (m: Motors)
    ensures d == Stop ==> m == Zero
    ensures 0 <= speed <= 255 ==> Within(m, 255)
    ensures d != Stop && speed != 0 ==> IdleCount(m) == 1
  {
    match d
    case Forward => Motors(0, speed, -speed)
    case Backward => Motors(0, -speed, speed)
    case Right => Motors(-speed, 0, speed)
    case Left => Motors(speed, -speed, 0)
    case Stop => Motors(0, 0, 0)
  }

  /** Backward undoes forward: it is forward negated componentwise. */
  lemma BackwardNegatesForward(speed: int)
    ensures WebTable(Backward, speed) == Neg(WebTable(Forward, speed))
  {
    assert WebTable(Forward, speed) == Motors(0, speed, -speed);
  }

  /** Left is not right negated: the two turns idle different motors. */
  lemma LeftIsNotNegatedRight(speed: int)
    requires speed != 0
    ensures WebTable(Left, speed) != Neg(WebTable(Right, speed))
    ensures WebTable(Left, speed).m3 == 0 && WebTable(Right, speed).m2 == 0
  {
  }

  /** One serial.Serial object the controller created: the port name it was
      given (None when the request named none) and whether it is open. */
  datatype Link = Link(port: Option<string>, isOpen: bool)

  /** The (success, message) pair every operation returns. */
  datatype Reply = Reply(success: bool, message: string)

  class RobotController {
    /** Every connection object created so far, oldest first. */
    var links: seq<Link>
    /** serial_connection: the index of the current object in links. */
    var current: Option<nat>
    var isConnected: bool
    var speed: int
    /** The frames written to the serial link, oldest first. */
    var sent: seq<string>

    /** serial_connection is set and open. */
    predicate Open()
      reads this
    {
      current.Some? && current.value < |links| && links[current.value].isOpen
    }

    /** At most one connection is open, and it is the current one; an open
        current connection means the latest attempt succeeded. */
    ghost predicate Valid()
      reads this
    {
      (current.Some? ==> current.value < |links|) &&
      (forall i :: 0 <= i < |links| && links[i].isOpen ==> current == Some(i)) &&
      (isConnected ==> current.Some?) &&
      (Open() ==> isConnected)
    }

    constructor ()
      ensures Valid()
      ensures links == [] && current == None && !isConnected && speed == 200 && sent == []
    {
      links, current, isConnected, speed, sent := [], None, false, 200, [];
    }

    /** connect_serial: close the current connection if it is open, then
        create a new one; `created` says whether creating it succeeded.
        pyserial leaves an object created without a port name unopened. */
    method ConnectSerial(port: Option<string>, created: bool, error: string) returns (r: Reply)
      requires Valid()
      modifies this`links, this`current, this`isConnected
      ensures Valid()
      ensures r.success == created && isConnected == created
      ensures r.message == if created then "Conectado com sucesso" else "Erro: " + error
      ensures |old(links)| <= |links|
      ensures forall i :: 0 <= i < |old(links)| ==> links[i] == Link(old(links)[i].port, false)
      ensures created ==> links == links[..|old(links)|] + [Link(port, port.Some?)] && current == Some(|old(links)|)
      ensures !created ==> |links| == |old(links)| && current == old(current)
      ensures Open() <==> created && port.Some?
    {
      if Open() {
        var c := current.value;
        links := links[c := Link(links[c].port, false)];
      }
      if created {
        links := links + [Link(port, port.Some?)];
        current := Some(|links| - 1);
        isConnected := true;
        r := Reply(true, "Conectado com sucesso");
      } else {
        isConnected := false;
        r := Reply(false, "Erro: " + error);
      }
    }

    /** send_command: write the frame when the connection is open; `writeOk`
        says whether the write succeeded. */
    method SendCommand(m: Motors, writeOk: bool, error: string) returns (r: Reply)
      requires Valid()
      modifies this`sent
      ensures Valid()
      ensures r.success <==> Open() && writeOk
      ensures sent == old(sent) + if r.success then [Encode(m)] else []
      ensures !Open() ==> r.message == "Não conectado"
      ensures r.success ==> r.message == "Enviado: M1=" + IntText(m.m1) + ", M2=" + IntText(m.m2) + ", M3=" + IntText(m.m3)
      ensures Open() && !writeOk ==> r.message == "Erro ao enviar comando: " + error
    {
      if Open() {
        if writeOk {
          sent := sent + [Encode(m)];
          r := Reply(true, "Enviado: M1=" + IntText(m.m1) + ", M2=" + IntText(m.m2) + ", M3=" + IntText(m.m3));
        } else {
          r := Reply(false, "Erro ao enviar comando: " + error);
        }
      } else {
        r := Reply(false, "Não conectado");
      }
    }

    /** move_forward, move_backward, move_right, move_left and stop: send the
        table's command for d at the current speed. */
    method Drive(d: Direction, writeOk: bool, error: string) returns (r: Reply)
      requires Valid()
      modifies this`sent
      ensures Valid()
      ensures r.success <==> Open() && writeOk
      ensures sent == old(sent) + if r.success then [Encode(WebTable(d, speed))] else []
    {
      r := SendCommand(WebTable(d, speed), writeOk, error);
    }

    /** The /api/move route: store the requested speed (200 when absent),
        even for an action it then rejects, and dispatch on the action. */
    method MoveRoute(action: Option<string>, requested: Option<int>, writeOk: bool, error: string) returns (r: Reply)
      requires Valid()
      modifies this`speed, this`sent
      ensures Valid()
      ensures speed == if requested.Some? then requested.value else 200
      ensures ParseDirection(action).None? ==> r == Reply(false, "Comando inválido") && sent == old(sent)
      ensures ParseDirection(action).Some? ==>
        (r.success <==> Open() && writeOk) &&
        sent == old(sent) + if r.success then [Encode(WebTable(ParseDirection(action).value, speed))] else []
    {
      speed := if requested.Some? then requested.value else 200;
      match ParseDirection(action)
      case None =>
        r := Reply(false, "Comando inválido");
      case Some(d) =>
        r := Drive(d, writeOk, error);
    }
  }

  /** Every frame a controller writes at a slider speed (0 to 255) carries
      motor powers in [-255, 255]. */
  lemma SliderSpeedFrameBounded(d: Direction, speed: int)
    requires 0 <= speed <= 255
    ensures Decode(Encode(WebTable(d, speed))).Some?
    ensures Within(Decode(Encode(WebTable(d, speed))).value, 255)
  {
    DecodeEncode(WebTable(d, speed));
  }

}
