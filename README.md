# TouchOMaticController core, modelled in Dafny

This project models the logic of three files of TouchOMaticController, a
controller for a serial-driven camera/scan gantry:

- **clickanddraw.py**, the click-and-draw path builder. A `QCDScene` keeps an
  append-only list `destinations` of `QDragPoint`s. Consecutive points share a
  line item: the previous point's `nextline` is the next point's `traceline`.
  Three mouse events drive it. A press picks the point to drag, if the pointer
  is on one. A move drags that point, or else redraws the preview line from the
  last point. A release fixes the held point's logical position (the point
  stays held) and, if a segment was being drawn, appends a point.
- **commands.py**, the `Action` enumeration with its display strings, and the
  `Command` record of dispatch metadata.
- **gui.py**, the scan controls. A unit label and a value become a timer
  period. A repeating scan timer is started and stopped. Each tick writes
  `Scan.` to the serial handle and reads one reply line.

Files:

- `options.dfy`: module `Options`, the `Option` type standing for Python's `None`-or-value.
- `commands.dfy`: module `Commands`.
- `scene_model.dfy`: module `SceneModel`. It models the scene as a state
  machine over values and holds the proofs. Graphics items live in an arena.
  A drag point is a record in the sequence `destinations`, named by its index.
  A line item is an entry of the map `lines`, named by an id. `addLine` takes
  the next unused id, and `removeItem` on the preview line deletes its entry.
  `Inv` is the invariant of every reachable scene. Every event function
  preserves it, and `Run` carries it over any sequence of events.
- `clickanddraw.dfy`: module `ClickAndDraw`. Its class `Scene` has the scene's
  fields and updates them in place. Each event handler is proved to produce the
  state that the matching `SceneModel` function describes. So everything proved
  in `SceneModel` also holds of the object.
- `gui.dfy`: module `Gui`. It holds the pure period conversion and the class
  `TouchOMaticApp`, which has the timer state, the serial handle and an
  abstract serial log.

Some behaviour follows from the code and is stated in the model as it is:

- The new point appended on release sits at the release position. Its
  incoming line ends where the last move left it.
- A release does not clear the dragged point. A later move with no new press
  drags that point again.
- Only the head point has no incoming line, and it can be dragged like any
  other point.

clickanddraw.py only appends points; it has no insert, remove or grid
snapping, and neither does the model.

## Model

| member | source | states |
|---|---|---|
| `Commands.Value` | commands.py:3-6 | `NO_ACTION`, `TAKE_PHOTO`, `START_RECORDING` and `STOP_RECORDING` have the values 0, 1, 2 and 3 |
| `Commands.FromValue` | commands.py:2-6 | lookup by value succeeds exactly for 0..3, and the member found has that value |
| `Commands.ValueRoundTrip` | commands.py:3-6 | every member is found again from its value, so the four values are distinct and the enumeration has exactly four members |
| `Commands.ToString` | commands.py:8-14 | `str` gives "No Action", "Take Photo", "Start Recording", "Stop Recording" for the four members in order |
| `Commands.ToStringNeverFallback` | commands.py:9-14 | the lookup table covers every member, so the "--" fallback is never returned |
| `Commands.ToStringInjective` | commands.py:10-13 | two members with the same display string are the same member |
| `Commands.NewCommand` | commands.py:19-32 | the constructor stores text, sequence, action, instant and response as passed, and stores pos as None whatever pos is passed |
| `Commands.NewCommandDefaults` | commands.py:19-20 | a command built from text alone has no sequence, no action, and instant and response false |
| `Commands.NewCommandIgnoresPos` | commands.py:19-30 | the pos argument has no effect on the command built |
| `SceneModel.NewDragPoint` | clickanddraw.py:5-13 | a new point's logical position and creation position are both (x, y); it has no offset and no outgoing line, and its incoming line is the one passed |
| `SceneModel.Init` | clickanddraw.py:35-43 | a new scene is exactly one point, created at the origin with no traceline and no nextline; it has no lines, no preview, nothing dragged and `_moved` false; it satisfies the invariant |
| `SceneModel.MoveLineEnd` | clickanddraw.py:18-21 | `setLine` on the incoming line moves its end to (x, y), keeps its start, and changes no other line |
| `SceneModel.MoveLineStart` | clickanddraw.py:22-25 | `setLine` on the outgoing line moves its start to (x, y), keeps its end, and changes no other line |
| `SceneModel.SetScenePos` | clickanddraw.py:16-25 | the point's offset becomes (x - `_x`, y - `_y`); its incoming line now ends and its outgoing line now starts at (x, y), with their far endpoints unchanged; no other line or point changes; the logical x, y stay as they were; the invariant is kept |
| `SceneModel.FinalizeScenePos` | clickanddraw.py:27-29 | the point's logical x, y become (x, y); nothing else changes; the invariant is kept |
| `SceneModel.Press` | clickanddraw.py:45-48 | the dragged point is the item under the pointer exactly when that item is a drag point, and is none otherwise; nothing else changes |
| `SceneModel.MoveNew` | clickanddraw.py:51-58 | `_moved` is set; the old preview line is removed; one new preview line runs from the last point's logical (x, y) to the pointer; points are unchanged; the scene keeps at most one preview line |
| `SceneModel.MoveExisting` | clickanddraw.py:60-62 | dragging is `setScenePos` on the held point: its offset becomes the pointer less its creation position, its incoming line's end and outgoing line's start move to the pointer, its logical x, y stay; `_moved`, the preview line and the number of points are unchanged |
| `SceneModel.Move` | clickanddraw.py:65-69 | a move with a point held is the drag of `_moveexisting`, never sets `_moved` and adds no point; a move with none held is the preview redraw of `_movenew` and sets `_moved`; the held point is unchanged |
| `SceneModel.AppendPoint` | clickanddraw.py:75-79 | the end of a drawn segment: one point is appended at (x, y) whose incoming line is the preview line, which also becomes the old last point's outgoing line; the preview is cleared, `_moved` is false, and the invariant is kept |
| `SceneModel.AppendKeepsInv` | clickanddraw.py:75-79 | appending that point keeps the chain linked and its incoming lines distinct, so the invariant holds afterwards |
| `SceneModel.Release` | clickanddraw.py:71-80 | the held point takes the release position as its logical x, y; if `_moved` was set, exactly one point is appended, a new point created at the release position (logical and creation position both there, zero offset) whose incoming line is the preview line, which also becomes the old last point's outgoing line; the new last point has no outgoing line; the preview is cleared and `_moved` is false; otherwise no point is appended; existing points keep their place, incoming line and offset, every point but the held one keeps its logical x, y, and every point but the old last one keeps its outgoing line; the held point stays held |
| `SceneModel.Step` | clickanddraw.py:45-80 | every event keeps the invariant: the points form a chain where `destinations[i-1].nextline == destinations[i].traceline` for every i ≥ 1, and a preview line exists exactly when `_moved` is set; no event removes a point |
| `SceneModel.Run` | clickanddraw.py:45-80 | over any sequence of events the invariant holds, and `destinations` only grows, each existing point keeping its index and incoming line |
| `SceneModel.DragAddsNoDestination` | clickanddraw.py:60-80 | with a point held and no segment being drawn, any moves and releases add no point, never set `_moved`, keep the point held, and keep the set of lines |
| `SceneModel.DrawSegment` | clickanddraw.py:51-80 | with no point held, a move and a release append one new point created at the release position (zero offset), linked to the old last point by a line drawn from that point's logical position to the move position |
| `ClickAndDraw.Scene.constructor` | clickanddraw.py:35-43 | the new object's state is the initial scene |
| `ClickAndDraw.Scene.SetScenePos` | clickanddraw.py:16-25 | the in-place update gives the state `SceneModel.SetScenePos` describes |
| `ClickAndDraw.Scene.FinalizeScenePos` | clickanddraw.py:27-29 | the in-place update gives the state `SceneModel.FinalizeScenePos` describes |
| `ClickAndDraw.Scene.MousePressEvent` | clickanddraw.py:45-48 | the in-place update gives the state `SceneModel.Press` describes |
| `ClickAndDraw.Scene.MoveNew` | clickanddraw.py:51-58 | the in-place update gives the state `SceneModel.MoveNew` describes |
| `ClickAndDraw.Scene.MoveExisting` | clickanddraw.py:60-62 | the in-place update gives the state `SceneModel.MoveExisting` describes |
| `ClickAndDraw.Scene.MouseMoveEvent` | clickanddraw.py:65-69 | the in-place update gives the state `SceneModel.Move` describes |
| `ClickAndDraw.Scene.MouseReleaseEvent` | clickanddraw.py:71-80 | the in-place update gives the state `SceneModel.Release` describes |
| `Gui.UnitMultiplier` | gui.py:34-35 | the multiplier is 1 for "Seconds", 60 for "Minutes" and 3600 for "Hours"; every other label fails the lookup |
| `Gui.ScanPeriodMs` | gui.py:33-38 | the period is defined exactly for the three known units, and is value × multiplier seconds, times 1000 ms |
| `Gui.ScanPeriodUnitsAgree` | gui.py:34-36 | n minutes gives the same period as 60n seconds, and n hours the same as 60n minutes |
| `Gui.ScanPeriodRoundTrip` | gui.py:34-38 | the period is whole seconds and whole units, and dividing back gives the value chosen |
| `Gui.TouchOMaticApp.constructor` | gui.py:10-26 | `ser` is None, nothing has been sent, and the scan timer is stopped and not single-shot |
| `Gui.TouchOMaticApp.Connect` | gui.py:28-30 | `ser` becomes a handle on the chosen port at the chosen baud rate; the timer and the log are unchanged |
| `Gui.TouchOMaticApp.StartScanning` | gui.py:33-38 | with a known unit, the timer is (re)started with the newly computed period; with any other unit the lookup fails and the timer is left as it was |
| `Gui.TouchOMaticApp.StopScanning` | gui.py:40-42 | the timer is stopped; nothing else changes |
| `Gui.TouchOMaticApp.SendScanCommand` | gui.py:44-47 | with a handle, exactly one write of "Scan." and then one line read are logged; with no handle the write fails and nothing is logged |
| `Gui.TouchOMaticApp.ScanTimerTimeout` | gui.py:24-26 | a timeout leaves the repeating timer running and sends one scan command |
| `Gui.ScanFiresEveryTick` | gui.py:20-47 | once connected and started with a known unit, the timer survives any number of timeouts, and the log is exactly one write of "Scan." and one line read per timeout; with an unknown unit the timer never starts and nothing is sent |

## Left out

- Qt rendering and scene plumbing: `addItem`, ellipse geometry and the r=8 bounding box, `setAcceptDrops`, and the `QClickAndDraw` view wrapper. Items are records in an arena, not graphics objects.
- Hit-testing with `itemAt`: the item under the pointer at a press is an input (`Hit`). A point it names must be one of the scene's points, because `itemAt` only returns items of the scene.
- Object identity of drag points: a point is named by its index in `destinations`. The lines shared by two points are shared ids into `lines`.
- Floating-point scene coordinates: coordinates are integers, since the code only copies and subtracts them.
- `print` calls: they have no effect on state.
- QTimer scheduling: a timeout is an explicit call to `ScanTimerTimeout`. The limit of `QTimer.start` to a C `int` of milliseconds is not modelled.
- The serial transport: writes and line reads are appended to an abstract log. The reply text is not recorded, since `sendScanCommand` discards it.
- Exceptions: a `KeyError` from an unknown unit and the failed `write` on a missing handle are `ok == false` outcomes that leave the state unchanged. What Qt then does with the uncaught exception is not modelled.
- The unit and value widgets and the port and baud-rate widgets: their current values are parameters.
- Application startup, signal/slot wiring, and the generated UI class: these are Qt plumbing, and `touch_o_matic` is not part of this model.
- dummySerial.py: it is a stand-in transport with constant replies, so it adds no logic to model.
