/**
 * The device-control server (server.py): the shared device table and selected
 * device, the gesture settings, the REST handlers that change them, and the
 * per-frame step of the real-time loop that selects devices instantly and
 * switches them once a command gesture has been held long enough.
 */
module Server {
  import opened Options
  import opened GestureDetector
  import opened Registry
  import opened Connections
  import opened HoldGate

  /** The gesture settings; `holdTime` is in the same integer time unit as frame times. */
  datatype Settings = Settings(enabled: bool, confidence: real, holdTime: int, maxHands: int)

  /** The settings the process starts with: a 1.5 s hold, measured in milliseconds. */
  const DefaultSettings: Settings := Settings(true, 0.7, 1500, 1)

  /** The body of a settings update: each key may be present or absent. */
  datatype SettingsUpdate = SettingsUpdate(
    enabled: Option<bool>, confidence: Option<real>, holdTime: Option<int>, maxHands: Option<int>)

  /** The settings after an update: present keys among enabled, confidence and hold_time overwrite. */
  function ApplySettings(s: Settings, u: SettingsUpdate): (r: Settings)
    ensures r.maxHands == s.maxHands
  {
    Settings(u.enabled.GetOr(s.enabled), u.confidence.GetOr(s.confidence), u.holdTime.GetOr(s.holdTime), s.maxHands)
  }

  /** An update overwrites exactly the present keys and never max_hands, even when the update names it. */
  lemma ApplySettingsEffect(s: Settings, u: SettingsUpdate)
    ensures ApplySettings(s, u).maxHands == s.maxHands
    ensures u.enabled.None? ==> ApplySettings(s, u).enabled == s.enabled
    ensures u.enabled.Some? ==> ApplySettings(s, u).enabled == u.enabled.value
    ensures u.confidence.None? ==> ApplySettings(s, u).confidence == s.confidence
    ensures u.confidence.Some? ==> ApplySettings(s, u).confidence == u.confidence.value
    ensures u.holdTime.None? ==> ApplySettings(s, u).holdTime == s.holdTime
    ensures u.holdTime.Some? ==> ApplySettings(s, u).holdTime == u.holdTime.value
  {
  }

  /** Sending the same update twice is the same as sending it once. */
  lemma ApplySettingsIdempotent(s: Settings, u: SettingsUpdate)
    ensures ApplySettings(ApplySettings(s, u), u) == ApplySettings(s, u)
  {
  }

  /** The message a 404 reply carries. */
  const NotFoundMessage: string := "Device not found"

  /** Result of a handler that names a device: the payload, or a 404 with its message. */
  datatype Reply<T> = Found(value: T) | NotFound(message: string)

  /** The action a confirmed command reports: "turned_on" or "turned_off". */
  datatype Action = TurnedOn | TurnedOff

  /** The action a command gesture performs and the state it switches the device to. */
  function ActionFor(g: Gesture): Action {
    if g == OpenPalm then TurnedOn else TurnedOff
  }

  /** The `gesture_result` reply to one frame; optional keys are absent unless set. */
  datatype GestureResult = GestureResult(
    gesture: Gesture,
    fingerCount: nat,
    handDetected: bool,
    timestamp: int,
    holdDuration: Option<int>,
    actionTriggered: Option<Action>,
    deviceId: Option<string>,
    deviceSelected: Option<string>)

  /**
   * The device a frame with `fingerCount` fingers switches the selection to, if any:
   * counts 1 to 4 select `device_<n>` when it exists and is not selected already.
   */
  function FrameSelection(devices: DeviceTable, current: string, fingerCount: int): (r: Option<string>)
    ensures r.Some? ==> r.value in devices && r.value != current && 1 <= fingerCount <= 4
  {
    if 1 <= fingerCount <= 4 && DeviceKey(fingerCount) in devices && current != DeviceKey(fingerCount)
    then Some(DeviceKey(fingerCount))
    else None
  }

  /**
   * After a frame with 1 to 4 fingers the selected device is `device_<n>`, with no
   * hold delay; after any other frame the selection is what it was.
   */
  lemma FrameSelectionEffect(devices: DeviceTable, current: string, fingerCount: int)
    requires Shaped(devices) && current in devices
    ensures 1 <= fingerCount <= 4 ==> FrameSelection(devices, current, fingerCount).GetOr(current) == DeviceKey(fingerCount)
    ensures !(1 <= fingerCount <= 4) ==> FrameSelection(devices, current, fingerCount) == None
    ensures FrameSelection(devices, current, fingerCount).GetOr(current) in devices
    ensures FrameSelection(devices, current, fingerCount).Some? ==> FrameSelection(devices, current, fingerCount).value != current
  {
  }

  /** A frame that changes the selection shows a counted gesture, so it clears the hold gate and fires nothing. */
  lemma SelectingFrameNeverFires(devices: DeviceTable, current: string, landmarks: seq<Landmark>, gate: Gate, now: int, holdTime: int)
    requires WellFormed(landmarks) && Consistent(gate)
    requires FrameSelection(devices, current, FingerCount(landmarks)).Some?
    ensures !IsCommand(DetectGesture(landmarks))
    ensures Step(gate, DetectGesture(landmarks), now, holdTime) == Outcome(Idle, None, false)
  {
    var g := DetectGesture(landmarks);
    assert g != NoHand && g.Fingers() == FingerCount(landmarks);
  }

  /** One real-time connection's loop state: its websocket and its hold gate. */
  class Session {
    const websocket: ConnId
    var lastGesture: Option<Gesture>
    var gestureStartTime: Option<int>

    function GateState(): Gate
      reads this
    {
      Gate(lastGesture, gestureStartTime)
    }

    predicate Valid()
      reads this
    {
      Consistent(GateState())
    }

    constructor (websocket: ConnId)
      ensures this.websocket == websocket && GateState() == Idle && Valid()
    {
      this.websocket := websocket;
      lastGesture := None;
      gestureStartTime := None;
    }
  }

  /** One inbound websocket message; a frame's image decodes to a landmark list or fails to decode. */
  datatype Message = FrameMessage(image: Option<seq<Landmark>>) | Ping | OtherMessage

  /** One outbound reply to the sender. */
  datatype Outbound = GestureReply(result: GestureResult) | Pong

  class Server {
    var devices: DeviceTable
    var currentDevice: string
    var settings: Settings
    const manager: ConnectionManager

    /** The table keeps its devices and the selection always names one of them. */
    ghost predicate Valid()
      reads this
    {
      Shaped(devices) && currentDevice in devices
    }

    constructor ()
      ensures Valid() && fresh(manager)
      ensures devices == InitialDevices() && currentDevice == InitialDevice && settings == DefaultSettings
      ensures manager.activeConnections == [] && manager.sent == []
    {
      devices := InitialDevices();
      currentDevice := InitialDevice;
      settings := DefaultSettings;
      manager := new ConnectionManager();
    }

    /** GET /api/devices/{id}: the device, or 404 when no such device exists. */
    method GetDevice(deviceId: string) returns (r: Reply<Device>)
      ensures r.NotFound? <==> deviceId !in devices
      ensures r.NotFound? ==> r.message == NotFoundMessage
      ensures r.Found? ==> r.value == devices[deviceId]
    {
      if deviceId !in devices {
        return NotFound(NotFoundMessage);
      }
      r := Found(devices[deviceId]);
    }

    /** POST /api/devices/{id}/toggle: flips the device, stamps it and broadcasts it. */
    method ToggleDevice(deviceId: string, now: int, failing: set<ConnId>) returns (r: Reply<Device>)
      requires Valid()
      modifies this, manager
      ensures Valid()
      ensures currentDevice == old(currentDevice) && settings == old(settings)
      ensures manager.activeConnections == old(manager.activeConnections)
      ensures r.NotFound? <==> deviceId !in old(devices)
      ensures r.NotFound? ==> r.message == NotFoundMessage
      ensures deviceId !in old(devices) ==> devices == old(devices) && manager.sent == old(manager.sent)
      ensures deviceId in old(devices) ==>
                && devices == Toggle(old(devices), deviceId, now)
                && r == Found(devices[deviceId])
                && manager.sent == old(manager.sent)
                     + Deliveries(manager.activeConnections, failing, DeviceUpdate(deviceId, devices[deviceId]))
    {
      if deviceId !in devices {
        return NotFound(NotFoundMessage);
      }
      ToggleEffect(devices, deviceId, now);
      var device := devices[deviceId];
      device := device.(state := !device.state);
      device := device.(lastUpdated := Some(now));
      devices := devices[deviceId := device];
      manager.Broadcast(DeviceUpdate(deviceId, devices[deviceId]), failing);
      r := Found(devices[deviceId]);
    }

    /**
     * POST /api/devices/{id}/state: sets the device to the requested state, off when
     * the body has no "state", stamps it and broadcasts it.
     */
    method SetDeviceState(deviceId: string, requested: Option<bool>, now: int, failing: set<ConnId>)
      returns (r: Reply<Device>)
      requires Valid()
      modifies this, manager
      ensures Valid()
      ensures currentDevice == old(currentDevice) && settings == old(settings)
      ensures manager.activeConnections == old(manager.activeConnections)
      ensures r.NotFound? <==> deviceId !in old(devices)
      ensures r.NotFound? ==> r.message == NotFoundMessage
      ensures deviceId !in old(devices) ==> devices == old(devices) && manager.sent == old(manager.sent)
      ensures deviceId in old(devices) ==>
                && devices == SetState(old(devices), deviceId, requested.GetOr(false), now)
                && r == Found(devices[deviceId])
                && manager.sent == old(manager.sent)
                     + Deliveries(manager.activeConnections, failing, DeviceUpdate(deviceId, devices[deviceId]))
    {
      if deviceId !in devices {
        return NotFound(NotFoundMessage);
      }
      var state := requested.GetOr(false);
      SetStateEffect(devices, deviceId, state, now);
      var device := devices[deviceId];
      device := device.(state := state);
      device := device.(lastUpdated := Some(now));
      devices := devices[deviceId := device];
      manager.Broadcast(DeviceUpdate(deviceId, devices[deviceId]), failing);
      r := Found(devices[deviceId]);
    }

    /** POST /api/select-device/{id}: selects the device and broadcasts the selection, even when unchanged. */
    method SelectDevice(deviceId: string, failing: set<ConnId>) returns (r: Reply<string>)
      requires Valid()
      modifies this, manager
      ensures Valid()
      ensures devices == old(devices) && settings == old(settings)
      ensures manager.activeConnections == old(manager.activeConnections)
      ensures r.NotFound? <==> deviceId !in devices
      ensures r.NotFound? ==> r.message == NotFoundMessage
      ensures deviceId !in devices ==> currentDevice == old(currentDevice) && manager.sent == old(manager.sent)
      ensures deviceId in devices ==>
                && currentDevice == deviceId
                && r == Found(deviceId)
                && manager.sent == old(manager.sent)
                     + Deliveries(manager.activeConnections, failing, DeviceSelected(deviceId))
    {
      if deviceId !in devices {
        return NotFound(NotFoundMessage);
      }
      currentDevice := deviceId;
      manager.Broadcast(DeviceSelected(deviceId), failing);
      r := Found(currentDevice);
    }

    /** POST /api/settings: overwrites enabled, confidence and hold_time when present. */
    method UpdateSettings(update: SettingsUpdate) returns (r: Settings)
      modifies this
      ensures settings == ApplySettings(old(settings), update) && r == settings
      ensures devices == old(devices) && currentDevice == old(currentDevice)
    {
      if update.enabled.Some? {
        settings := settings.(enabled := update.enabled.value);
      }
      if update.confidence.Some? {
        settings := settings.(confidence := update.confidence.value);
      }
      if update.holdTime.Some? {
        settings := settings.(holdTime := update.holdTime.value);
      }
      r := settings;
    }

    /** Opening the real-time endpoint: register the websocket and start with an idle gate. */
    method OpenSession(websocket: ConnId) returns (session: Session)
      modifies manager
      ensures fresh(session) && session.Valid()
      ensures session.websocket == websocket && session.GateState() == Idle
      ensures manager.activeConnections == old(manager.activeConnections) + [websocket]
      ensures manager.sent == old(manager.sent)
    {
      manager.Connect(websocket);
      session := new Session(websocket);
    }

    /** Losing the real-time connection: deregister it; device state and other sessions are untouched. */
    method CloseSession(session: Session) returns (removed: bool)
      modifies manager
      ensures removed <==> session.websocket in old(manager.activeConnections)
      ensures manager.activeConnections == RemoveFirst(old(manager.activeConnections), session.websocket)
      ensures manager.sent == old(manager.sent)
    {
      removed := manager.Disconnect(session.websocket);
    }

    /**
     * One decoded frame of the real-time loop, seen at time `now`: classify it, select a
     * device on 1 to 4 fingers, then run the hold gate, switching the selected device
     * when a command gesture has been held for `settings.holdTime`.
     */
    method HandleFrame(session: Session, landmarks: seq<Landmark>, now: int, failing: set<ConnId>)
      returns (response: GestureResult)
      requires Valid() && session.Valid() && WellFormed(landmarks)
      modifies this, manager, session
      ensures Valid() && session.Valid()
      ensures settings == old(settings)
      ensures manager.activeConnections == old(manager.activeConnections)
      ensures response.gesture == DetectGesture(landmarks)
      ensures response.fingerCount == FingerCount(landmarks)
      ensures response.handDetected == (|landmarks| > 0)
      ensures response.timestamp == now
      ensures response.deviceSelected == FrameSelection(old(devices), old(currentDevice), FingerCount(landmarks))
      ensures currentDevice == response.deviceSelected.GetOr(old(currentDevice))
      ensures var o := Step(old(session.GateState()), response.gesture, now, settings.holdTime);
              && session.GateState() == o.next
              && response.holdDuration == o.holdDuration
              && devices == (if o.fired then SetState(old(devices), currentDevice, response.gesture == OpenPalm, now)
                             else old(devices))
              && response.actionTriggered == (if o.fired then Some(ActionFor(response.gesture)) else None)
              && response.deviceId == (if o.fired then Some(currentDevice) else None)
              && manager.sent == old(manager.sent)
                   + (if response.deviceSelected.Some?
                      then Deliveries(manager.activeConnections, failing, DeviceSelected(currentDevice)) else [])
                   + (if o.fired
                      then Deliveries(manager.activeConnections, failing, DeviceUpdate(currentDevice, devices[currentDevice]))
                      else [])
    {
      var gesture := DetectGesture(landmarks);
      var fingerCount := 0;
      if |landmarks| > 0 {
        fingerCount := CountFingers(landmarks);
      }
      response := GestureResult(gesture, fingerCount, |landmarks| > 0, now, None, None, None, None);
      var selected := SelectForFrame(fingerCount, failing);
      response := response.(deviceSelected := selected);
      var holdDuration, action := ConfirmHold(session, gesture, now, failing);
      response := response.(holdDuration := holdDuration);
      if action.Some? {
        response := response.(actionTriggered := action, deviceId := Some(currentDevice));
      }
    }

    /** Instant selection: one to four fingers select `device_<n>` if it is not selected already. */
    method SelectForFrame(fingerCount: int, failing: set<ConnId>) returns (selected: Option<string>)
      requires Valid()
      modifies this, manager
      ensures Valid()
      ensures devices == old(devices) && settings == old(settings)
      ensures manager.activeConnections == old(manager.activeConnections)
      ensures selected == FrameSelection(old(devices), old(currentDevice), fingerCount)
      ensures currentDevice == selected.GetOr(old(currentDevice))
      ensures manager.sent == old(manager.sent)
                + (if selected.Some? then Deliveries(manager.activeConnections, failing, DeviceSelected(currentDevice)) else [])
    {
      selected := None;
      if 1 <= fingerCount <= 4 {
        var deviceKey := DeviceKey(fingerCount);
        if deviceKey in devices && currentDevice != deviceKey {
          currentDevice := deviceKey;
          selected := Some(currentDevice);
          manager.Broadcast(DeviceSelected(currentDevice), failing);
        }
      }
    }

    /**
     * Hold confirmation for the on/off commands: advances the session's gate and,
     * when it fires, switches the selected device, stamps it and broadcasts it.
     */
    method ConfirmHold(session: Session, gesture: Gesture, now: int, failing: set<ConnId>)
      returns (holdDuration: Option<int>, action: Option<Action>)
      requires Valid() && session.Valid()
      modifies this, manager, session
      ensures Valid() && session.Valid()
      ensures currentDevice == old(currentDevice) && settings == old(settings)
      ensures manager.activeConnections == old(manager.activeConnections)
      ensures var o := Step(old(session.GateState()), gesture, now, settings.holdTime);
              && session.GateState() == o.next
              && holdDuration == o.holdDuration
              && action == (if o.fired then Some(ActionFor(gesture)) else None)
              && devices == (if o.fired then SetState(old(devices), currentDevice, gesture == OpenPalm, now)
                             else old(devices))
              && manager.sent == old(manager.sent)
                   + (if o.fired
                      then Deliveries(manager.activeConnections, failing, DeviceUpdate(currentDevice, devices[currentDevice]))
                      else [])
    {
      holdDuration, action := None, None;
      if gesture == Fist || gesture == OpenPalm {
        if session.lastGesture == Some(gesture) {
          var held := now - session.gestureStartTime.value;
          holdDuration := Some(held);
          if held >= settings.holdTime {
            SetStateEffect(devices, currentDevice, gesture == OpenPalm, now);
            var device := devices[currentDevice];
            if gesture == OpenPalm {
              device := device.(state := true);
              action := Some(TurnedOn);
            } else {
              device := device.(state := false);
              action := Some(TurnedOff);
            }
            device := device.(lastUpdated := Some(now));
            devices := devices[currentDevice := device];
            manager.Broadcast(DeviceUpdate(currentDevice, devices[currentDevice]), failing);
            session.gestureStartTime := Some(now);
          }
        } else {
          session.lastGesture := Some(gesture);
          session.gestureStartTime := Some(now);
        }
      } else {
        session.lastGesture := None;
        session.gestureStartTime := None;
      }
    }

    /**
     * One message of the real-time loop: a decoded frame is handled and answered, a ping
     * is answered with a pong, and an undecodable frame or any other message changes
     * nothing and gets no reply.
     */
    method HandleMessage(session: Session, message: Message, now: int, failing: set<ConnId>)
      returns (reply: Option<Outbound>)
      requires Valid() && session.Valid()
      requires message.FrameMessage? && message.image.Some? ==> WellFormed(message.image.value)
      modifies this, manager, session
      ensures Valid() && session.Valid()
      ensures settings == old(settings)
      ensures manager.activeConnections == old(manager.activeConnections)
      ensures message.Ping? ==> reply == Some(Pong)
      ensures message.FrameMessage? && message.image.Some? ==>
                reply.Some? && reply.value.GestureReply?
                && reply.value.result.gesture == DetectGesture(message.image.value)
      ensures !(message.FrameMessage? && message.image.Some?) ==>
                && devices == old(devices) && currentDevice == old(currentDevice)
                && session.GateState() == old(session.GateState()) && manager.sent == old(manager.sent)
                && (message.Ping? || reply == None)
    {
      match message
      case FrameMessage(image) =>
        if image.Some? {
          var result := HandleFrame(session, image.value, now, failing);
          reply := Some(GestureReply(result));
        } else {
          reply := None;
        }
      case Ping =>
        reply := Some(Pong);
      case OtherMessage =>
        reply := None;
    }
  }
}
