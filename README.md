# Gesture-controlled home automation: a verified model of its control core

This project models, in Dafny, the logic that turns hand landmarks into device
commands in a small gesture-controlled home-automation server:

- **Finger counting and gesture classification** (`gesture_detector.py`): a hand is a
  list of 21 integer `[id, x, y]` landmarks. The thumb is extended when the x of point 4
  is strictly less than the x of point 3. Each other finger is extended when its tip
  (8, 12, 16, 20) has a strictly smaller y than the point two before it. The count of
  extended fingers maps to a gesture name: 0 is "FIST (OFF)", 5 is "OPEN PALM (ON)",
  1 to 4 are "ONE FINGER" to "FOUR FINGERS", and an empty list is "No Hand".
- **The device-control server** (`server.py`): a fixed table of four devices, the
  process-wide selected device, the gesture settings, the connection list with its
  best-effort broadcast, the REST handlers that read and change the table, and the
  per-frame step of the real-time loop. That step selects `device_<n>` at once when the
  frame shows 1 to 4 fingers. It switches the selected device on (open palm) or off
  (fist) only once the same command gesture has been seen continuously for `hold_time`,
  and then restarts the timer.

Modules: `Options` (the `None`-or-value type), `GestureDetector`, `Registry` (the device
table as a value), `Connections` (`ConnectionManager`), `HoldGate` (the per-connection
`last_gesture` / `gesture_start_time` pair), and `Server` (the `Server` object holding
`devices`, `current_device` and `gesture_settings`, plus one `Session` per real-time
connection).

Modelling choices:
- Time is an integer `now` passed to every operation that reads the clock. All
  `datetime.now()` calls within one frame or one request read the same `now`. The unit
  is the millisecond, so the default `hold_time` of 1.5 s is `1500`.
- A broadcast appends one `Delivery` per successful send to the manager's `sent` log.
  The connections whose send raises are a `failing` parameter; their sends are skipped.
- Image decoding and hand detection are abstracted. A frame message carries either the
  landmark list of the first hand (`Some`, possibly empty) or nothing, when the image
  does not decode.
- The `enabled` setting is stored and updated but never consulted by the real-time
  loop. The model does the same.
- The hold state of a connection is only `last_gesture` and `gesture_start_time`
  (server.py:275-276).
- `select_device` broadcasts even when the device is already selected
  (server.py:206-212). The frame path broadcasts only on a change (server.py:312-320).
- Nothing is locked: handlers and frame steps run one at a time.
- `hold_time` is read afresh on every frame (server.py:330), so the frame traces of
  `HoldGate` carry the threshold in force at each frame.

## Model

| member | source | states |
|---|---|---|
| `GestureDetector.FingerVector` | gesture_detector.py:132-147 | five flags, thumb first; their meaning is stated by `FingerCountMatchesCoordinates`, `FingerCountExtremes` and `FingerCountLocal` |
| `GestureDetector.FingerCount` | gesture_detector.py:129-149 | the number of set flags, 0 for an empty list, at most 5; equal to the coordinate sum by `FingerCountMatchesCoordinates` |
| `GestureDetector.CountFingers` | gesture_detector.py:118-150 | the count is 0 for an empty list; otherwise it is the number of set flags among the five comparisons 4.x<3.x, 8.y<6.y, 12.y<10.y, 16.y<14.y, 20.y<18.y, so it is at most 5 |
| `GestureDetector.FingerCountMatchesCoordinates` | gesture_detector.py:132-150 | counting the five-flag vector equals the sum of the five strict coordinate comparisons |
| `GestureDetector.FingerCountExtremes` | gesture_detector.py:135-150 | the count is 5 iff all five flags are set, and 0 iff none is |
| `GestureDetector.FingerCountLocal` | gesture_detector.py:135-147 | two hands that agree on x of points 3, 4 and y of points 6, 8, 10, 12, 14, 16, 18, 20 get the same flags and count, whatever their other coordinates and ids |
| `GestureDetector.DetectGesture` | gesture_detector.py:153-183 | "No Hand" iff the list is empty; "Unknown" is never returned; every other result names exactly the finger count of the hand |
| `GestureDetector.DetectGestureInvertible` | gesture_detector.py:170-181 | two hands get the same gesture iff they have the same finger count (the count-to-name table is injective) |
| `GestureDetector.NameInjective` | gesture_detector.py:164-183 | two gestures are equal iff their returned strings are, so string comparisons in the loop are gesture comparisons |
| `Registry.DeviceKey` | server.py:310-311 | every finger count 1 to 4 names a device of the initial table |
| `Registry.DeviceKeyInjective` | server.py:310-311 | different finger counts select different devices |
| `Registry.Toggle` | server.py:149-150 | keeps the keys and flips the target's state; the full effect is stated by `ToggleEffect`, `ToggleTwice` and `ToggleIsSetOpposite` |
| `Registry.SetState` | server.py:179-180 | keeps the keys and leaves the target in the requested state; the full effect is stated by `SetStateEffect` and `SetStateIdempotent` |
| `Registry.ToggleEffect` | server.py:148-150 | toggling negates the target's state, stamps it, keeps the keys and every other device, and keeps names and kinds |
| `Registry.ToggleTwice` | server.py:149-150 | toggling twice restores the original table except for the target's stamp |
| `Registry.SetStateEffect` | server.py:176-180 | setting a state leaves the target in exactly that state and stamped, with every other device, the keys, names and kinds unchanged |
| `Registry.SetStateIdempotent` | server.py:176-180 | setting the same state twice equals setting it once at the later time |
| `Registry.ToggleIsSetOpposite` | server.py:148-150 | a toggle is a set-state to the opposite of the current state |
| `Connections.Deliveries` | server.py:96-100 | the sends of one broadcast, no more than list entries; stated by `DeliveredIff`, `DeliveriesPerConnection`, `DeliveriesCarryEvent` and `DeliveriesWithoutFailure` |
| `Connections.DeliveredIff` | server.py:94-100 | a broadcast reaches a connection iff it is in the list and its send does not fail; a failing send does not stop the others |
| `Connections.DeliveriesCarryEvent` | server.py:94-100 | a broadcast delivers only its own message, only to listed connections, and no more deliveries than list entries |
| `Connections.DeliveriesPerConnection` | server.py:96-100 | a connection receives the message exactly as many times as it is listed, or never when its send fails |
| `Connections.DeliveriesWithoutFailure` | server.py:96-98 | with no failing sends, every list entry gets the message once, in list order |
| `Connections.RemoveFirst` | server.py:91 | one entry shorter when the connection is listed, unchanged in length otherwise; stated in full by `RemoveFirstAt` and `RemoveFirstEffect` |
| `Connections.RemoveFirstAt` | server.py:90-91 | removing drops exactly the first occurrence, found by a front-to-back scan, and keeps the order of the rest |
| `Connections.RemoveFirstEffect` | server.py:90-92 | removing a listed connection drops exactly one occurrence (length and multiset); removing an unlisted one changes nothing |
| `Connections.ConnectThenDisconnect` | server.py:85-92 | connecting a new websocket and disconnecting it restores the list |
| `Connections.ConnectionManager.constructor` | server.py:82-83 | a new manager has no connections and has sent nothing |
| `Connections.ConnectionManager.Connect` | server.py:85-88 | appends the websocket at the end; nothing is sent |
| `Connections.ConnectionManager.Disconnect` | server.py:90-92 | removes the first occurrence; reports false and changes nothing when the websocket is not listed (the ValueError case) |
| `Connections.ConnectionManager.Broadcast` | server.py:94-100 | the list is unchanged and the log grows by exactly the deliveries of the message to the non-failing connections, in list order |
| `HoldGate.Step` | server.py:323-358 | the gate stays consistent; a repeated command gesture reports `now - start` as its hold duration; a fire needs the same command gesture already held for at least the threshold and restarts the timer at `now`; a repeat below the threshold leaves the gate unchanged; a new command gesture starts the timer at `now` without firing; any other gesture clears the gate |
| `HoldGate.StepFiresIff` | server.py:324-330 | a frame fires iff its gesture is a command, equals the held gesture, and has been held for at least the threshold |
| `HoldGate.GateAfter` | server.py:275-276 | after any run of frames from an idle gate, both variables are set together and only for FIST or OPEN PALM |
| `HoldGate.HoldingHasWitness` | server.py:352-358 | while a gesture is held since time s, an earlier frame was seen at s and every frame since has shown that gesture |
| `HoldGate.FireNeedsUnbrokenHold` | server.py:323-358 | a command fires only at the end of an unbroken run of that gesture, begun on an earlier frame, spanning at least the threshold in force at the firing frame |
| `HoldGate.HoldStartsAt` | server.py:352-355 | a hold of a command gesture that began at frame j and has not fired since leaves the gate holding that gesture with frame j's time as its start |
| `HoldGate.FiresOnReachingThreshold` | server.py:324-351 | conversely, such an unbroken, not-yet-fired hold fires on the first frame whose time is at least the threshold in force after its start |
| `HoldGate.StartAfterFire` | server.py:350-351 | after a fire, with frame times in order, the timer never restarts earlier than the fire |
| `HoldGate.FiresSpaced` | server.py:324-351 | with frame times in order, two fires of one connection are at least the threshold in force at the second fire apart |
| `HoldGate.LoweredThresholdApplies` | server.py:238-239 | a hold_time lowered between frames applies on the next frame: fires at 1500 and then at 1600 once the threshold is 50 |
| `HoldGate.SustainedFistFiresEveryThreshold` | server.py:323-358 | a fist held from 0 and sampled every 750 ms with a 1500 ms threshold fires at 1500 and 3000 and on no other frame |
| `HoldGate.InterruptedHoldRestarts` | server.py:352-358 | one open-palm frame inside a fist hold restarts it: the fist fires only a full threshold after it resumes |
| `Server.ApplySettings` | server.py:234-239 | never changes max_hands; stated in full by `ApplySettingsEffect` and `ApplySettingsIdempotent` |
| `Server.ApplySettingsEffect` | server.py:234-239 | present keys among enabled, confidence and hold_time overwrite; absent ones and max_hands are kept, even when the update names max_hands |
| `Server.ApplySettingsIdempotent` | server.py:234-239 | applying the same update twice equals applying it once |
| `Server.FrameSelection` | server.py:310-313 | a reported selection is an existing device, differs from the current one and comes from 1 to 4 fingers; stated in full by `FrameSelectionEffect` |
| `Server.FrameSelectionEffect` | server.py:310-314 | after a frame with 1 to 4 fingers the selection is `device_<n>`; otherwise it is unchanged; it always names a device; a reported selection is a change |
| `Server.SelectingFrameNeverFires` | server.py:310-358 | a frame that changes the selection shows a counted gesture, so it clears the gate and fires nothing |
| `Server.Session.constructor` | server.py:275-276 | a new connection starts with `last_gesture` and `gesture_start_time` both unset |
| `Server.Server.constructor` | server.py:37-73 | the initial table, `device_1` selected, default settings, no connections |
| `Server.Server.GetDevice` | server.py:124-136 | returns the device iff it exists, otherwise 404 with "Device not found"; changes nothing |
| `Server.Server.ToggleDevice` | server.py:139-164 | an unknown id gives 404 "Device not found" and changes nothing; otherwise the table becomes the toggled table, the device is broadcast, and the selection and settings are kept |
| `Server.Server.SetDeviceState` | server.py:167-192 | an unknown id gives 404 "Device not found" and changes nothing; otherwise the device gets the requested state (off when absent) and a stamp, and is broadcast |
| `Server.Server.SelectDevice` | server.py:195-217 | an unknown id gives 404 "Device not found" and changes nothing; otherwise the device becomes selected and the selection is broadcast |
| `Server.Server.UpdateSettings` | server.py:229-244 | the settings become the update applied to the old settings; devices and selection are kept |
| `Server.Server.OpenSession` | server.py:266-276 | the websocket is appended to the connection list and its gate starts idle |
| `Server.Server.CloseSession` | server.py:367-373 | the websocket's first occurrence leaves the list; devices, selection and other sessions are untouched |
| `Server.Server.HandleFrame` | server.py:290-361 | reports the gesture, count and hand presence; selection follows `FrameSelection`; the gate follows `Step` under the current hold_time; on a fire only the selected device is switched (on for open palm, off for fist) and stamped; broadcasts are the selection and then the device update, each to every non-failing connection; the table keeps its shape and the selection stays a device |
| `Server.Server.SelectForFrame` | server.py:308-320 | selects `device_<n>` for 1 to 4 fingers when it differs from the selection, and broadcasts only then |
| `Server.Server.ConfirmHold` | server.py:322-358 | advances the session's gate by `Step`; when it fires, sets the selected device as `set_device_state` would and broadcasts it |
| `Server.Server.HandleMessage` | server.py:279-365 | a decoded frame is handled and answered; a ping gets a pong; an undecodable frame or other message changes nothing and gets no reply |

## Left out

- Image decoding, MediaPipe hand detection and the float-to-pixel scaling of landmarks (`find_hands`, `get_hand_landmarks`). These are foreign-library calls and floating point. A decoded frame is given directly as its integer landmark list.
- `calculate_distance` and `calculate_fps`. They use floating-point square roots, wall-clock time and drawing.
- The camera demo loop `main()` and the `close()` calls that release the detector.
- JSON parsing, websocket receive/send, FastAPI routing, templates, static files, `home`, `get_devices`, `get_settings`, `health_check`, and the startup/shutdown printing.
- Concurrency between connections and handlers. Every operation runs to completion before the next one starts.
- A list of landmarks that is neither empty nor a full hand. Indexing it raises in the source, so `WellFormed` is a precondition.
- Python's dynamic typing of request bodies. `state`, `enabled`, `confidence` and `hold_time` are typed values.
- `Server.Server.HandleMessage`: for a decoded frame it states only that the reply is a gesture result naming the detected gesture; the full effect of the frame is stated by `Server.Server.HandleFrame`, which it calls.
- `HoldGate.Step`: `hold_duration` is an integer number of milliseconds rather than float seconds. The stamps taken within one frame are one `now` rather than successive clock readings.
- `HoldGate.FiresSpaced`: assumes frame times never go backwards. The source reads a wall clock, which can be set back.
