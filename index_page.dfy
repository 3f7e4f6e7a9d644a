/** The WebSerial page (src/pages/Index.tsx): its four state cells, the
    connect and send handlers, and the screens it shows. */
module IndexPage {
  import opened Motors
  import opened Frame

  type PortId = nat

  datatype ControlMode = Select | Motor | Directional

  /** What a rejected promise carried: an Error with its message, or some
      other value. */
  datatype Thrown = ErrorValue(message: string) | OtherValue

  /** How the two awaited steps of connecting end. */
  datatype ConnectOutcome =
    | RequestRejected(reason: Thrown)            // requestPort() rejects, e.g. the user cancels
    | OpenRejected(reason: Thrown)               // the chosen port fails to open at 9600 baud
    | Opened(port: PortId)                       // both steps succeed

  /** How one send ends. */
  datatype WriteOutcome =
    | NoWriter                                   // port.writable is null: nothing happens
    | Written                                    // the frame is written and the lock released
    | WriteRejected(reason: Thrown)              // getWriter or write throws

  /** The message part of the page's error texts. */
  function Describe(t: Thrown): string
  {
    match t
    case ErrorValue(msg) => msg
    case OtherValue => "Erro desconhecido"
  }

  const Unsupported := "WebSerial não é suportado neste navegador"

  /** The panel the page renders below its status area. */
  datatype Panel = ConnectButton | NoPanel | ModeChoice | MotorPanel | DirectionalPanel

  function Shown(supported: bool, isConnected: bool, mode: ControlMode): (p: Panel)
    ensures p in {ModeChoice, MotorPanel, DirectionalPanel} ==> isConnected
    ensures p == ConnectButton <==> !isConnected && supported
  {
    if !isConnected then (if supported then ConnectButton else NoPanel)
    else match mode
      case Select => ModeChoice
      case Motor => MotorPanel
      case Directional => DirectionalPanel
  }

  /** A user action on the page. */
  datatype Event =
    | Connect(outcome: ConnectOutcome)
    | Send(m: Motors, w: WriteOutcome)
    | Choose(mode: ControlMode)
    | GoBack

  /** The page's state cells, as a value. */
  datatype State = State(port: Option<PortId>, isConnected: bool, error: string, controlMode: ControlMode, sent: seq<string>)

  function Init(): State
  {
    State(None, false, "", Select, [])
  }

  /** The handlers' effect on the state cells: connectToArduino,
      sendCommand and the mode buttons. A mode button that is not rendered
      cannot be pressed, so pressing it changes nothing. Connect is not gated
      on its button being shown (not connected, WebSerial supported): the
      step also allows a connected page to take a new port, which the page
      itself never offers, so the step over-approximates what can happen. */
  function Step(supported: bool, s: State, e: Event): (t: State)
    ensures (s.isConnected <==> s.port.Some?) ==> (t.isConnected <==> t.port.Some?)
    ensures (s.controlMode != Select ==> s.isConnected) ==> (t.controlMode != Select ==> t.isConnected)
    ensures s.isConnected ==> t.isConnected
    ensures !s.isConnected ==> t.sent == s.sent
  {
    match e
    case Connect(o) =>
      if !supported then s.(error := "Erro na conexão: " + Unsupported)
      else if o.Opened? then s.(port := Some(o.port), isConnected := true, error := "")
      else s.(error := "Erro na conexão: " + Describe(o.reason))
    case Send(m, w) =>
      if s.port.None? || !s.isConnected then s
      else if w.Written? then s.(sent := s.sent + [Encode(m)])
      else if w.WriteRejected? then s.(error := "Erro ao enviar comando: " + Describe(w.reason))
      else s
    case Choose(mode) =>
      if s.isConnected && s.controlMode == Select && mode != Select then s.(controlMode := mode) else s
    case GoBack =>
      if s.isConnected && s.controlMode != Select then s.(controlMode := Select) else s
  }

  /** The state after a sequence of events, first to last. */
  function Run(supported: bool, s: State, events: seq<Event>): State
    decreases |events|
  {
    if events == [] then s else Run(supported, Step(supported, s, events[0]), events[1..])
  }

  /** Connecting stores the port and clears the error only when the port
      was both chosen and opened; otherwise only the error text changes. */
  lemma ConnectEffect(supported: bool, s: State, o: ConnectOutcome)
    ensures var t := Step(supported, s, Connect(o));
      if supported && o.Opened? then t == s.(port := Some(o.port), isConnected := true, error := "")
      else t.port == s.port && t.isConnected == s.isConnected && t.controlMode == s.controlMode &&
           t.sent == s.sent && t.error != ""
  {
  }

  /** Sending writes exactly the encoded command, and only when connected;
      a failed write changes nothing but the error text. */
  lemma SendEffect(supported: bool, s: State, m: Motors, w: WriteOutcome)
    requires s.isConnected <==> s.port.Some?
    ensures var t := Step(supported, s, Send(m, w));
      t.port == s.port && t.isConnected == s.isConnected && t.controlMode == s.controlMode &&
      t.sent == s.sent + (if s.isConnected && w.Written? then [Encode(m)] else []) &&
      (t.error != s.error ==> s.isConnected && w.WriteRejected?)
  {
  }

  /** Every frame the page has written decodes to the command it was given. */
  lemma SentFrameDecodes(supported: bool, s: State, m: Motors)
    requires s.isConnected && s.port.Some?
    ensures var t := Step(supported, s, Send(m, Written));
      |t.sent| == |s.sent| + 1 && Decode(t.sent[|s.sent|]) == Some(m)
  {
    DecodeEncode(m);
  }

  class IndexPage {
    var port: Option<PortId>
    var isConnected: bool
    var error: string
    var controlMode: ControlMode
    /** Whether the browser offers navigator.serial. */
    const supported: bool
    /** The frames written to the port, oldest first. */
    var sent: seq<string>

    function Snapshot(): State
      reads this
    {
      State(port, isConnected, error, controlMode, sent)
    }

    /** A port is stored exactly when the page is connected, and a mode
        other than the choice screen is only ever entered while connected. */
    ghost predicate Valid()
      reads this
    {
      (isConnected <==> port.Some?) &&
      (controlMode != Select ==> isConnected)
    }

    constructor (supported: bool)
      ensures Valid()
      ensures port == None && !isConnected && error == "" && controlMode == Select && sent == []
      ensures this.supported == supported
    {
      this.supported := supported;
      port, isConnected, error, controlMode, sent := None, false, "", Select, [];
    }

    /** connectToArduino: only a port that was both chosen and opened is
        stored; any failure only sets the error text. */
    method ConnectToArduino(outcome: ConnectOutcome)
      requires Valid()
      modifies this`port, this`isConnected, this`error
      ensures Valid()
      ensures Snapshot() == Step(supported, old(Snapshot()), Connect(outcome))
    {
      if !supported {
        error := "Erro na conexão: " + Unsupported;
        return;
      }
      match outcome
      case RequestRejected(t) =>
        error := "Erro na conexão: " + Describe(t);
      case OpenRejected(t) =>
        error := "Erro na conexão: " + Describe(t);
      case Opened(p) =>
        port := Some(p);
        isConnected := true;
        error := "";
    }

    /** sendCommand: nothing without a stored, connected port; otherwise the
        frame is written, or a failure is reported in the error text. */
    method SendCommand(m: Motors, w: WriteOutcome)
      requires Valid()
      modifies this`sent, this`error
      ensures Valid()
      ensures Snapshot() == Step(supported, old(Snapshot()), Send(m, w))
    {
      if port.None? || !isConnected {
        return;
      }
      match w
      case NoWriter =>
      case Written =>
        sent := sent + [Encode(m)];
      case WriteRejected(t) =>
        error := "Erro ao enviar comando: " + Describe(t);
    }

    /** The choice screen's two buttons, present only while it is shown. */
    method ChooseMode(mode: ControlMode)
      requires Valid()
      requires mode != Select
      modifies this`controlMode
      ensures Valid()
      ensures Snapshot() == Step(supported, old(Snapshot()), Choose(mode))
      ensures controlMode == if Shown(supported, isConnected, old(controlMode)) == ModeChoice then mode else old(controlMode)
    {
      if isConnected && controlMode == Select {
        controlMode := mode;
      }
    }

    /** "Voltar" on either control panel returns to the choice screen. */
    method Back()
      requires Valid()
      modifies this`controlMode
      ensures Valid()
      ensures Snapshot() == Step(supported, old(Snapshot()), GoBack)
      ensures Shown(supported, isConnected, old(controlMode)) in {MotorPanel, DirectionalPanel} ==> controlMode == Select
    {
      if isConnected && controlMode != Select {
        controlMode := Select;
      }
    }
  }

  /** Over any sequence of events from the initial page: a port is stored
      exactly while connected, a control panel is only entered while
      connected, nothing is written before connecting, and once connected
      the page stays connected. */
  lemma {:induction false} RunInvariant(supported: bool, s: State, events: seq<Event>)
    requires s.isConnected <==> s.port.Some?
    requires s.controlMode != Select ==> s.isConnected
    requires !s.isConnected ==> s.sent == []
    decreases |events|
    ensures var t := Run(supported, s, events);
      (t.isConnected <==> t.port.Some?) &&
      (t.controlMode != Select ==> t.isConnected) &&
      (!t.isConnected ==> t.sent == []) &&
      (s.isConnected ==> t.isConnected)
  {
    if events != [] {
      RunInvariant(supported, Step(supported, s, events[0]), events[1..]);
    }
  }

  /** The same, from the state the page starts in. */
  lemma InitialRunInvariant(supported: bool, events: seq<Event>)
    ensures var t := Run(supported, Init(), events);
      (t.isConnected <==> t.port.Some?) && (t.controlMode != Select ==> t.isConnected) && (!t.isConnected ==> t.sent == [])
  {
    RunInvariant(supported, Init(), events);
  }
}
