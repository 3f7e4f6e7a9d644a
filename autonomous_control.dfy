/** The autonomous back end (robot_autonomous_control.py): the navigator's
    decision rule, the controller's direction table, the split of a depth
    image into three sectors, the serial controller and the WebSocket
    server's mode flag and sensor loop. */
module AutonomousControl {
  import opened Motors
  import opened Frame

  /** Which sectors analyze_lidar found closer than the safe distance. */
  datatype Obstacles = Obstacles(left: bool, center: bool, right: bool)

  /** decide_movement: straight on while the centre is clear, otherwise
      swerve right, then left, and back off when all three are blocked. */
  function DecideMovement(o: Obstacles): (r: (Direction, int))
    ensures r.0 != Stop
    ensures r.1 in {100, 120, 150}
    ensures r.0 == Forward <==> !o.center
    ensures r.0 == Right <==> o.center && !o.right
    ensures r.0 == Left <==> o.center && o.right && !o.left
    ensures r.0 == Backward <==> o.center && o.right && o.left
    ensures r.1 == 150 <==> r.0 == Forward
    ensures r.1 == 100 <==> r.0 == Backward
  {
    if !o.center then (Forward, 150)
    else if !o.right then (Right, 120)
    else if !o.left then (Left, 120)
    else (Backward, 100)
  }

  /** The navigator never drives into a sector it found blocked, and backs
      off only when every sector is blocked. */
  lemma DecisionAvoidsObstacles(o: Obstacles)
    ensures DecideMovement(o).0 == Forward ==> !o.center
    ensures DecideMovement(o).0 == Right ==> !o.right
    ensures DecideMovement(o).0 == Left ==> !o.left
    ensures DecideMovement(o).0 == Backward ==> o.left && o.center && o.right
  {
  }

  /** With the centre blocked and both sides clear, right wins over left;
      with the centre clear, the sides are not consulted. */
  lemma DecisionPriorities(left: bool, right: bool)
    ensures DecideMovement(Obstacles(false, true, false)).0 == Right
    ensures DecideMovement(Obstacles(left, false, right)) == (Forward, 150)
  {
  }

  /** The autonomous controller's table in move. */
  function AutoTable(d: Direction, speed: int): (m: Motors)
    ensures d == Stop ==> m == Zero
    ensures speed >= 0 ==> Within(m, speed)
    ensures d == Forward || d == Backward ==> IdleCount(m) == (if speed == 0 then 3 else 0)
    ensures d == Left || d == Right ==> m.m3 == 0
  {
    match d
    case Forward => Motors(speed, speed, speed)
    case Backward => Motors(-speed, -speed, -speed)
    case Left => Motors(-speed, speed, 0)
    case Right => Motors(speed, -speed, 0)
    case Stop => Motors(0, 0, 0)
  }

  /** Here each direction is undone by its opposite: backward negates
      forward and right negates left. */
  lemma AutoTableOpposites(speed: int)
    ensures AutoTable(Backward, speed) == Neg(AutoTable(Forward, speed))
    ensures AutoTable(Right, speed) == Neg(AutoTable(Left, speed))
  {
  }

  /** The command the navigator issues for one reading: it always moves the
      robot, at no more than 150. */
  function Command(o: Obstacles): (m: Motors)
    ensures Within(m, 150)
    ensures m != Zero
  {
    AutoTable(DecideMovement(o).0, DecideMovement(o).1)
  }

  /** The three column sectors of a depth image of the given width. */
  datatype Sector = LeftSector | CenterSector | RightSector

  /** First column of a sector and the column after its last, with
      Python's floor division: [0, w/3), [w/3, 2w/3), [2w/3, w). */
  function Bounds(s: Sector, width: nat): (b: (nat, nat))
    ensures b.0 <= b.1 <= width
  {
    match s
    case LeftSector => (0, width / 3)
    case CenterSector => (width / 3, 2 * width / 3)
    case RightSector => (2 * width / 3, width)
  }

  predicate InSector(col: nat, s: Sector, width: nat)
  {
    Bounds(s, width).0 <= col < Bounds(s, width).1
  }

  /** The sectors are disjoint and together cover exactly the columns of
      the image. */
  lemma SectorsPartition(width: nat, col: nat)
    ensures col < width <==> InSector(col, LeftSector, width) || InSector(col, CenterSector, width) || InSector(col, RightSector, width)
    ensures !(InSector(col, LeftSector, width) && InSector(col, CenterSector, width))
    ensures !(InSector(col, CenterSector, width) && InSector(col, RightSector, width))
    ensures !(InSector(col, LeftSector, width) && InSector(col, RightSector, width))
  {
    assert width / 3 <= 2 * width / 3 <= width;
  }

  /** Every sector has a column to take a minimum over exactly when the
      image is at least three columns wide. */
  lemma SectorsNonEmpty(width: nat)
    ensures (forall s :: Bounds(s, width).0 < Bounds(s, width).1) <==> width >= 3
  {
    if width >= 3 {
      assert width / 3 < 2 * width / 3 < width;
    } else {
      assert Bounds(LeftSector, width).1 == 0;
    }
  }

  /** The serial.Serial object the controller holds: the port name it was
      created with and whether it is open. */
  datatype Port = Port(name: Option<string>, isOpen: bool)

  class RobotController {
    /** serial_port, None until a connect succeeds. */
    var serialPort: Option<Port>
    var speed: int
    /** The frames written to the serial link, oldest first. */
    var sent: seq<string>

    constructor ()
      ensures serialPort == None && speed == 150 && sent == []
    {
      serialPort, speed, sent := None, 150, [];
    }

    /** A write can reach the robot: serial_port is set and open. */
    predicate Writable()
      reads this
    {
      serialPort.Some? && serialPort.value.isOpen
    }

    /** connect: replace serial_port with a new object when creating it
        succeeds (`created`); on failure keep the old one. pyserial leaves
        an object created without a port name unopened. */
    method Connect(port: Option<string>, created: bool) returns (ok: bool)
      modifies this`serialPort
      ensures ok == created
      ensures serialPort == if created then Some(Port(port, port.Some?)) else old(serialPort)
    {
      if created {
        serialPort := Some(Port(port, port.Some?));
        ok := true;
      } else {
        ok := false;
      }
    }

    /** send_command: False without a port; writing to an unopened port or
        a failed write (`writeOk` false) is caught and also gives False. */
    method SendCommand(m: Motors, writeOk: bool) returns (ok: bool)
      modifies this`sent
      ensures ok <==> Writable() && writeOk
      ensures sent == old(sent) + if ok then [Encode(m)] else []
    {
      if serialPort.None? {
        return false;
      }
      if serialPort.value.isOpen && writeOk {
        sent := sent + [Encode(m)];
        ok := true;
      } else {
        ok := false;
      }
    }

    /** move: send the table's command for a recognised direction; any
        other direction gives False and writes nothing. */
    method Move(direction: Option<string>, speed: int, writeOk: bool) returns (ok: bool)
      modifies this`sent
      ensures ParseDirection(direction).None? ==> !ok && sent == old(sent)
      ensures ParseDirection(direction).Some? ==>
        (ok <==> Writable() && writeOk) &&
        sent == old(sent) + if ok then [Encode(AutoTable(ParseDirection(direction).value, speed))] else []
    {
      match ParseDirection(direction)
      case None =>
        ok := false;
      case Some(d) =>
        ok := SendCommand(AutoTable(d, speed), writeOk);
    }
  }

  /** A JSON message from a client; each field is None when absent. */
  datatype Message = Message(kind: Option<string>, port: Option<string>, direction: Option<string>,
                             speed: Option<int>, enabled: Option<bool>)

  /** One pass of the sensor loop: the obstacles computed from the LiDAR
      frame (None when there was no frame) and whether the write it may
      cause succeeds. */
  datatype Tick = Tick(reading: Option<Obstacles>, writeOk: bool)

  /** What one pass writes: a command only in autonomous mode, with
      obstacles computed, a writable port and a successful write. */
  function TickFrames(autonomous: bool, writable: bool, t: Tick): seq<string>
  {
    if autonomous && t.reading.Some? && writable && t.writeOk then [Encode(Command(t.reading.value))] else []
  }

  /** What a run of passes writes, oldest first. */
  function LoopFrames(autonomous: bool, writable: bool, ticks: seq<Tick>): seq<string>
  {
    if ticks == [] then []
    else LoopFrames(autonomous, writable, ticks[..|ticks| - 1]) + TickFrames(autonomous, writable, ticks[|ticks| - 1])
  }

  /** Running one more pass appends what that pass writes. */
  lemma LoopFramesSnoc(autonomous: bool, writable: bool, ticks: seq<Tick>, i: nat)
    requires i < |ticks|
    ensures LoopFrames(autonomous, writable, ticks[..i + 1]) ==
            LoopFrames(autonomous, writable, ticks[..i]) + TickFrames(autonomous, writable, ticks[i])
  {
    assert ticks[..i + 1][..i] == ticks[..i];
  }

  /** With autonomous mode off, the sensor loop writes nothing. */
  lemma {:induction false} ManualLoopSilent(writable: bool, ticks: seq<Tick>)
    ensures LoopFrames(false, writable, ticks) == []
  {
    if ticks != [] {
      ManualLoopSilent(writable, ticks[..|ticks| - 1]);
    }
  }

  /** Every frame the sensor loop writes decodes to a moving command whose
      powers lie in [-150, 150]. */
  lemma {:induction false} LoopFramesBounded(autonomous: bool, writable: bool, ticks: seq<Tick>)
    ensures forall f :: f in LoopFrames(autonomous, writable, ticks) ==>
      Decode(f).Some? && Within(Decode(f).value, 150) && Decode(f).value != Zero
  {
    if ticks != [] {
      LoopFramesBounded(autonomous, writable, ticks[..|ticks| - 1]);
      var t := ticks[|ticks| - 1];
      if t.reading.Some? {
        DecodeEncode(Command(t.reading.value));
      }
    }
  }

  class WebSocketServer {
    const robot: RobotController
    var autonomousMode: bool

    constructor (robot: RobotController)
      ensures this.robot == robot && !autonomousMode
    {
      this.robot := robot;
      autonomousMode := false;
    }

    /** process_command: 'connect' connects (`created` says whether that
        succeeds), 'move' moves whatever the mode, 'set_autonomous' sets the
        mode from 'enabled' (False when absent); anything else changes
        nothing here. Replies to clients are not modelled. */
    method ProcessCommand(msg: Message, created: bool, writeOk: bool)
      modifies this`autonomousMode, robot`serialPort, robot`sent
      ensures msg.kind == Some("connect") ==>
        robot.serialPort == (if created then Some(Port(msg.port, msg.port.Some?)) else old(robot.serialPort)) &&
        robot.sent == old(robot.sent) && autonomousMode == old(autonomousMode)
      ensures msg.kind == Some("move") ==>
        var d := ParseDirection(msg.direction);
        var s := if msg.speed.Some? then msg.speed.value else 150;
        robot.sent == old(robot.sent) + (if d.Some? && robot.Writable() && writeOk then [Encode(AutoTable(d.value, s))] else []) &&
        robot.serialPort == old(robot.serialPort) && autonomousMode == old(autonomousMode)
      ensures msg.kind == Some("set_autonomous") ==>
        autonomousMode == (msg.enabled == Some(true)) && unchanged(robot)
      ensures msg.kind !in {Some("connect"), Some("move"), Some("set_autonomous")} ==>
        unchanged(robot) && autonomousMode == old(autonomousMode)
    {
      if msg.kind == Some("connect") {
        var _ := robot.Connect(msg.port, created);
      } else if msg.kind == Some("move") {
        var speed := if msg.speed.Some? then msg.speed.value else 150;
        var _ := robot.Move(msg.direction, speed, writeOk);
      } else if msg.kind == Some("set_autonomous") {
        autonomousMode := if msg.enabled.Some? then msg.enabled.value else false;
      }
    }

    /** One pass of sensor_loop: navigate only in autonomous mode and when
        obstacles were computed; returns the move issued, if any. */
    method SensorStep(t: Tick) returns (issued: Option<(Direction, int)>)
      modifies robot`sent
      ensures issued.Some? <==> autonomousMode && t.reading.Some?
      ensures issued.Some? ==> issued.value == DecideMovement(t.reading.value)
      ensures robot.sent == old(robot.sent) + TickFrames(autonomousMode, robot.Writable(), t)
    {
      issued := None;
      if autonomousMode && t.reading.Some? {
        var decision := DecideMovement(t.reading.value);
        ParseName(decision.0);
        var _ := robot.Move(Some(Name(decision.0)), decision.1, t.writeOk);
        issued := Some(decision);
      }
    }

    /** sensor_loop over a finite run of passes, with no command processed
        in between. */
    method SensorLoop(ticks: seq<Tick>)
      modifies robot`sent
      ensures robot.sent == old(robot.sent) + LoopFrames(autonomousMode, robot.Writable(), ticks)
    {
      ghost var writable := robot.Writable();
      for i := 0 to |ticks|
        invariant robot.Writable() == writable
        invariant robot.sent == old(robot.sent) + LoopFrames(autonomousMode, writable, ticks[..i])
      {
        var _ := SensorStep(ticks[i]);
        LoopFramesSnoc(autonomousMode, writable, ticks, i);
      }
      assert ticks[..|ticks|] == ticks;
    }
  }
}
