# Robot command path of a three-motor teleoperation front end

This project models the command path of a small robot teleoperation system.
Three front ends all drive the same three motors over a serial link:

- a Flask web controller (`robot_control_web.py`) with a browser page and
  keyboard control;
- an autonomous controller (`robot_autonomous_control.py`) that steers away
  from obstacles and listens to a WebSocket;
- a React page (`src/pages/Index.tsx` and `src/components/MotorSpeedControl.tsx`)
  that writes to the port through WebSerial.

Every command is three motor powers. Each one goes on the wire as the frame
`"<m1>,<m2>,<m3>\n"`.

The model has eight modules:

- `Motors` (motors.dfy): the command triple and the five direction words
  both Python back ends dispatch on.
- `Frame` (frame.dfy): the decimal wire frame, a decoder for it, and the
  proof that decoding an encoded frame gives back the command.
- `WebControl` (web_control.dfy): the web controller's directional table
  and its `RobotController`. The controller is a class whose fields are the
  connection objects it created, the current one, `is_connected`, `speed`
  and the frames written. The model covers `connect_serial`,
  `send_command`, the `move_*`/`stop` methods and the `/api/move` route.
- `KeyMap` (key_map.dfy): the browser script's keydown mapping.
- `AutonomousControl` (autonomous_control.dfy): `decide_movement`, the
  autonomous direction table, the three-sector column split, the serial
  `RobotController`, and the `WebSocketServer`'s `process_command` and
  sensor loop.
- `IndexPage` (index_page.dfy): the page's `port`, `isConnected`, `error`
  and `controlMode` cells. The class's handlers are proved against a
  step function. A lemma covers every sequence of user events.
- `MotorSpeedControl` (motor_speed_control.dfy): the three motor cells and
  the GO and STOP buttons, which call the page's `sendCommand`.
- `BackEnds` (back_ends.dfy): the two Python direction tables compared.

Effects outside the program are parameters. Whether a port opens, whether
a write succeeds, what an exception says, and what the LiDAR analysis
found are all passed in. A successful write appends the frame to a `sent`
log. That log is what the robot receives.

Some features one might expect are absent from the code, and the model
has none of them either:

- There is no percentage speed scale (`floor(scale*2.55)`).
- Motor values are never clamped.
- There is no emergency-stopped mode, no disconnect and no suppression of
  repeated commands.
- The two Python back ends use different tables. In the web table, left is
  not the negation of right.
- The page's mode is `select`/`motor`/`directional`. It is not a
  manual/autonomous machine.

## Model

| member | source | states |
|---|---|---|
| `Motors.Name` | robot_control_web.py:352-356 | the word posted for each direction is a nonempty lower-case word, so the case-sensitive comparison in `/api/move` can match it |
| `Motors.ParseDirection` | robot_control_web.py:418-429 | only the five words `forward`, `backward`, `left`, `right`, `stop` are recognised, each as its own direction; an absent action or any other word is not |
| `Frame.Encode` | robot_control_web.py:34 | a frame is at least six characters long and holds exactly one newline, as its last character |
| `Frame.IntText` | src/pages/Index.tsx:43 | the decimal text of a motor value is nonempty and contains no comma and no newline, so it cannot break the frame |
| `Frame.NatTextNoLeadingZero` | robot_control_web.py:34 | decimal text starts with `0` only for zero (no leading zeros) |
| `Frame.DecodeEncode` | robot_control_web.py:34 | splitting the frame on commas after dropping the newline gives back exactly the three integers encoded |
| `Frame.EncodeInjective` | robot_autonomous_control.py:188 | two different commands never produce the same frame |
| `WebControl.WebTable` | robot_control_web.py:41-54 | stop is `(0,0,0)` at any speed; for speeds 0..255 every component lies in [-255,255]; each moving direction idles exactly one motor at a nonzero speed |
| `WebControl.BackwardNegatesForward` | robot_control_web.py:41-45 | backward `(0,-s,s)` is forward `(0,s,-s)` negated componentwise |
| `WebControl.LeftIsNotNegatedRight` | robot_control_web.py:47-51 | at any nonzero speed left `(s,-s,0)` is not right `(-s,0,s)` negated; they idle different motors |
| `WebControl.RobotController.constructor` | robot_control_web.py:10-13 | no connection, not connected, speed 200 |
| `WebControl.RobotController.ConnectSerial` | robot_control_web.py:18-29 | every earlier connection is closed; on success a new one is current and `is_connected` is true, and on failure `is_connected` is false; at most one connection is ever open; it is open exactly when a port name was given and creation succeeded |
| `WebControl.RobotController.SendCommand` | robot_control_web.py:31-39 | the frame is written exactly when the connection is open and the write succeeds; otherwise nothing is written and the reply is `(False, "Não conectado")` or the write error |
| `WebControl.RobotController.Drive` | robot_control_web.py:41-54 | `move_forward`..`stop` write the table's command at the current speed, under the same guard |
| `WebControl.RobotController.MoveRoute` | robot_control_web.py:410-431 | the requested speed (200 when absent) is stored before dispatch, even for an unknown action; an unknown action replies `(False, "Comando inválido")` and writes nothing |
| `WebControl.SliderSpeedFrameBounded` | robot_control_web.py:241 | at a slider speed (0..255) every frame the web table produces decodes to powers in [-255,255] |
| `KeyMap.KeyAction` | robot_control_web.py:362-387 | the switch on the lower-cased key yields a direction exactly when that key is bound to one, and then it is the direction the key is bound to |
| `KeyMap.KeyDown` | robot_control_web.py:359-388 | nothing while not connected; otherwise a direction exactly when the lower-cased key is one bound to it |
| `KeyMap.KeyCaseInsensitive` | robot_control_web.py:362 | a key and its lower-case spelling map to the same action |
| `KeyMap.VerticalArrowKeys` | robot_control_web.py:363-372 | `ArrowUp` drives forward and `ArrowDown` backward |
| `KeyMap.HorizontalArrowKeys` | robot_control_web.py:373-382 | `ArrowLeft` turns left and `ArrowRight` right |
| `KeyMap.LetterKeyNames` | robot_control_web.py:362-386 | upper-case W/S/A/D map like their lower-case keys, and space stops |
| `KeyMap.ListenerPostsKnownAction` | robot_control_web.py:352-356 | every direction the listener produces is posted under a name `/api/move` recognises as that direction |
| `AutonomousControl.DecideMovement` | robot_autonomous_control.py:150-163 | total over the eight inputs and never stop; forward iff the centre is clear, right iff the centre is blocked and the right is clear, left iff the centre and the right are blocked and the left is clear, backward iff all three are blocked; speed 150, 120 or 100 accordingly |
| `AutonomousControl.DecisionAvoidsObstacles` | robot_autonomous_control.py:150-163 | the chosen direction's sector is clear, and it backs off only when all three are blocked |
| `AutonomousControl.DecisionPriorities` | robot_autonomous_control.py:152-157 | with the centre clear the sides are ignored; with the centre blocked and both sides clear, right wins |
| `AutonomousControl.AutoTable` | robot_autonomous_control.py:196-208 | stop is `(0,0,0)`; for a nonnegative speed every component is within it; at a nonzero speed forward/backward drive all three motors; left/right idle motor 3 |
| `AutonomousControl.AutoTableOpposites` | robot_autonomous_control.py:198-205 | backward `(-s,-s,-s)` negates forward `(s,s,s)`, and right `(s,-s,0)` negates left `(-s,s,0)` |
| `AutonomousControl.Command` | robot_autonomous_control.py:292-293 | every command the navigator issues moves the robot, with powers in [-150,150] |
| `AutonomousControl.Bounds` | robot_autonomous_control.py:119-122 | each sector's slice `[lo, hi)` has `lo <= hi <= width`, so it stays within the image |
| `AutonomousControl.SectorsPartition` | robot_autonomous_control.py:119-122 | the column ranges `[0,w//3)`, `[w//3,2*w//3)`, `[2*w//3,w)` are pairwise disjoint and together cover exactly the columns `0..w-1` |
| `AutonomousControl.SectorsNonEmpty` | robot_autonomous_control.py:119-127 | all three column ranges are nonempty exactly when the image is at least three columns wide; this is necessary but not sufficient for the minima, which also need a positive depth in each sector (see "Left out") |
| `AutonomousControl.RobotController.constructor` | robot_autonomous_control.py:169-171 | no serial port, speed 150 |
| `AutonomousControl.RobotController.Connect` | robot_autonomous_control.py:173-181 | success replaces `serial_port` with the new object; failure leaves it unchanged; the result says which |
| `AutonomousControl.RobotController.SendCommand` | robot_autonomous_control.py:183-194 | False and nothing written without a port; the frame is written exactly when the port is open and the write succeeds |
| `AutonomousControl.RobotController.Move` | robot_autonomous_control.py:196-208 | a recognised direction sends the table's command; any other direction gives False and writes nothing |
| `AutonomousControl.ManualLoopSilent` | robot_autonomous_control.py:290-293 | with autonomous mode off the sensor loop writes nothing, over any number of passes |
| `AutonomousControl.LoopFramesBounded` | robot_autonomous_control.py:278-293 | every frame the sensor loop writes decodes to a moving command with powers in [-150,150] |
| `AutonomousControl.WebSocketServer.constructor` | robot_autonomous_control.py:219-226 | autonomous mode starts off |
| `AutonomousControl.WebSocketServer.ProcessCommand` | robot_autonomous_control.py:256-276 | `connect` connects; `move` moves (default speed 150) whatever the mode; `set_autonomous` sets the mode to `enabled`, false when absent; any other type changes nothing |
| `AutonomousControl.WebSocketServer.SensorStep` | robot_autonomous_control.py:280-293 | a move is issued iff autonomous mode is on and obstacles were computed (a LiDAR frame arrived); it is `decide_movement`'s choice, and what it writes is that choice's command |
| `AutonomousControl.WebSocketServer.SensorLoop` | robot_autonomous_control.py:278-293 | a run of passes writes exactly the frames its passes would each write, in order |
| `IndexPage.Shown` | src/pages/Index.tsx:83-128 | the connect button shows iff not connected and WebSerial is supported; the mode choice and both control panels show only while connected |
| `IndexPage.Step` | src/pages/Index.tsx:20-51 | every handler keeps "a port is stored iff connected" and "a panel only while connected", never disconnects, and writes nothing while disconnected |
| `IndexPage.ConnectEffect` | src/pages/Index.tsx:20-35 | only a port both chosen and opened is stored, setting `isConnected` and clearing `error`; an unsupported browser or a failure changes only `error` (to a nonempty text) |
| `IndexPage.SendEffect` | src/pages/Index.tsx:37-51 | a write happens only when connected and writes exactly the encoded command; a failed write changes only `error` |
| `IndexPage.SentFrameDecodes` | src/pages/Index.tsx:43-45 | the written frame decodes to the command sent |
| `IndexPage.RunInvariant` | src/pages/Index.tsx:12-51 | over any sequence of events: a port is stored iff connected, a control panel is entered only while connected, nothing is written before connecting, and once connected the page stays connected |
| `IndexPage.InitialRunInvariant` | src/pages/Index.tsx:12-15 | the same invariants hold from the initial cells `null`, `false`, `''`, `'select'` |
| `IndexPage.IndexPage.constructor` | src/pages/Index.tsx:12-18 | initial cells: no port, not connected, no error, mode `select` |
| `IndexPage.IndexPage.ConnectToArduino` | src/pages/Index.tsx:20-35 | the cells change as the connect step says, and the page invariant is kept |
| `IndexPage.IndexPage.SendCommand` | src/pages/Index.tsx:37-51 | the cells and the written frames change as the send step says |
| `IndexPage.IndexPage.ChooseMode` | src/pages/Index.tsx:90-101 | from the choice screen (connected, mode `select`) the buttons enter `motor` or `directional`; otherwise nothing changes |
| `IndexPage.IndexPage.Back` | src/pages/Index.tsx:104-128 | "Voltar" on either panel returns to `select` |
| `MotorSpeedControl.WithMotor` | src/components/MotorSpeedControl.tsx:33 | setting motor k stores the new value in motor k and keeps the other two motors; this is the one formulation of an edit being isolated |
| `MotorSpeedControl.MotorSpeedControl.constructor` | src/components/MotorSpeedControl.tsx:12-14 | all three motors start at 0 |
| `MotorSpeedControl.MotorSpeedControl.TypeMotor` | src/components/MotorSpeedControl.tsx:43-51 | a typed value is stored in its motor as it is, unchecked |
| `MotorSpeedControl.MotorSpeedControl.SlideMotor` | src/components/MotorSpeedControl.tsx:31-38 | a slider value is in [-255,255] and keeps the motors in that range |
| `MotorSpeedControl.MotorSpeedControl.GoCommand` | src/components/MotorSpeedControl.tsx:16-18 | GO, pressed on the motor panel (connected, mode `motor`), sends exactly the stored `(motor1, motor2, motor3)` through the page's send step |
| `MotorSpeedControl.MotorSpeedControl.StopCommand` | src/components/MotorSpeedControl.tsx:20-22 | STOP, pressed on the motor panel, sends `(0,0,0)` whatever is stored, and leaves the stored values alone |
| `MotorSpeedControl.SliderEditsBounded` | src/components/MotorSpeedControl.tsx:34-36 | after any sequence of slider edits every motor is in [-255,255], and GO's frame decodes to those values |
| `MotorSpeedControl.TypedValueUnclamped` | src/components/MotorSpeedControl.tsx:104 | a typed value outside the slider range reaches the frame unchanged |
| `BackEnds.TablesDisagree` | robot_control_web.py:41-54 | at any nonzero speed the two back ends agree only on stop; left negates right only in the autonomous table |

## Left out

- Serial and WebSerial I/O (`serial.Serial`, `write`, `close`, `requestPort`, `open`, `getWriter`), port listing and `time.sleep(2)` are foreign calls. Their success or failure is a parameter. A successful write appends the frame to a log.
- A `close()` that raises inside `connect_serial` is not modelled. Closing always succeeds.
- A write that raises is taken to have written nothing. Partially written bytes are not modelled.
- Index.tsx does not release the writer lock when `write` rejects. The model does not track the lock, so sends after such a failure behave like any other send.
- The autonomous `connect` drops the previous `serial.Serial` object without closing it. Python closes it when the object is collected. Only the current object is modelled.
- Flask routing, JSON parsing and the HTML/CSS page are not modelled. A request is its already-parsed fields. An absent field is `None`.
- A speed that `int()` cannot convert makes the route raise. The model takes speed as an integer.
- A `set_autonomous` `enabled` value that is not a boolean is not modelled.
- The browser script's own `isConnected` flag is not modelled. Neither are its `fetch` calls or `showMessage`. The keydown handler takes the flag as an input.
- KeyMap.Lower: lower-cases ASCII letters only, because JavaScript's full Unicode `toLowerCase` has no Dafny counterpart. No non-ASCII key lower-cases to one of the bound key names, so the mapping is the same.
- MotorSpeedControl.TypedValueUnclamped: motor values are unbounded integers written in decimal. JavaScript numbers are doubles: `Number()` rounds integers beyond 2^53, and the template string at src/pages/Index.tsx:43 writes magnitudes of 1e21 or more in exponent form (`1e+21`), which the decimal frame does not capture; the same holds for `MotorSpeedControl.MotorSpeedControl.TypeMotor` and the page's `sendCommand`.
- MotorSpeedControl.MotorSpeedControl.constructor: the panel is modelled as one object whose cells persist. In the code, src/pages/Index.tsx:104-115 mounts a new panel, with cells at 0, each time the motor mode is entered, and "Voltar" unmounts it and discards `motor1..3`. The model does not reset the cells when the motor mode is entered again; a caller must build a new `MotorSpeedControl` to match that behaviour.
- WebControl.RobotController.MoveRoute: the model takes requests one at a time, each route call running to completion. Flask's `app.run` serves requests on threads, so another `/api/move` can change `speed` between this request's store and its `move_*` reading it back, sending one request's action at the other's speed; likewise a request arriving during `connect_serial`'s two-second sleep writes to the new connection while `is_connected` still holds its earlier value. These interleavings are not modelled.
- AutonomousControl.WebSocketServer.ProcessCommand: a `move` speed is taken as an integer or absent. The code passes `data.get('speed', 150)` to `move` unconverted, so a JSON `null` speed (which is not absent) writes `None,None,None` for forward and raises a `TypeError` at `-speed` for backward, left and right, escaping `process_command`; a float speed writes a fractional frame. None of these cases is modelled.
- AutonomousControl.WebSocketServer.SensorLoop: every pass completes. `analyze_lidar` raises a `ValueError` when any sector has no positive depth (`np.min` of an empty array), whatever the image width; `sensor_loop` has no `try`, so that error ends the loop and the server, and `main` catches only `KeyboardInterrupt`, so no final stop is sent. A pass that raises is not modelled.
- `ObstacleDetector.analyze_lidar` is not modelled: its depth scaling, numpy minima and the 0.8 m threshold are float work. The sensor loop takes its result (three flags, or none when there is no LiDAR frame) as input. Only the integer sector split is modelled.
- `RealSenseController`, camera JPEG/base64 encoding, `send_to_all` broadcasts, the client registry and `get_ports` are hardware or network I/O, so none of them is modelled.
- The asyncio 10 Hz timing of `sensor_loop` is not modelled. The loop runs while `running` is true, and the code never sets it false. The model runs it over a finite sequence of passes. Commands processed between passes are not interleaved.
- The `KeyboardInterrupt` shutdown in `main()` sends a final stop. It lies outside the modelled classes.
- JavaScript `Number()` can yield fractional or NaN motor values. Motor values are modelled as integers only.
- `DirectionalControl`, `SensorVisualization` and `AutonomousControl` are presentation components or are not part of this model.
