/**
 * The in-memory device table of server.py as a value: four fixed devices whose
 * on/off state and last-updated stamp are the only things that ever change.
 */
module Registry {
  import opened Options

  /** One entry of the device table; `kind` is the record's "type" field. */
  datatype Device = Device(name: string, state: bool, kind: string, lastUpdated: Option<int>)

  type DeviceTable = map<string, Device>

  /** The table the process starts with: every device off and never updated. */
  function InitialDevices(): DeviceTable {
    map[
      "device_1" := Device("Living Room Light", false, "light", None),
      "device_2" := Device("Bedroom Fan", false, "fan", None),
      "device_3" := Device("Kitchen Light", false, "light", None),
      "device_4" := Device("TV", false, "tv", None)
    ]
  }

  /** The device selected when the process starts. */
  const InitialDevice: string := "device_1"

  /** The key `device_<n>` that a finger count of n selects. */
  function DeviceKey(n: int): (key: string)
    requires 1 <= n <= 4
    ensures key in InitialDevices()
  {
    if n == 1 then "device_1"
    else if n == 2 then "device_2"
    else if n == 3 then "device_3"
    else "device_4"
  }

  /** Different finger counts select different devices. */
  lemma DeviceKeyInjective(m: int, n: int)
    requires 1 <= m <= 4 && 1 <= n <= 4
    ensures DeviceKey(m) == DeviceKey(n) <==> m == n
  {
  }

  /**
   * The shape the table keeps for the life of the process: the same keys as
   * the initial table, and each device keeps its name and kind.
   */
  predicate Shaped(devices: DeviceTable) {
    && devices.Keys == InitialDevices().Keys
    && forall id :: id in devices ==>
         devices[id].name == InitialDevices()[id].name && devices[id].kind == InitialDevices()[id].kind
  }

  /** Flips the state of device `id` and stamps it with `now`. */
  function Toggle(devices: DeviceTable, id: string, now: int): (r: DeviceTable)
    requires id in devices
    ensures r.Keys == devices.Keys && r[id].state != devices[id].state
  {
    devices[id := devices[id].(state := !devices[id].state, lastUpdated := Some(now))]
  }

  /** Sets the state of device `id` to `on` and stamps it with `now`. */
  function SetState(devices: DeviceTable, id: string, on: bool, now: int): (r: DeviceTable)
    requires id in devices
    ensures r.Keys == devices.Keys && r[id].state == on
  {
    devices[id := devices[id].(state := on, lastUpdated := Some(now))]
  }

  /** Toggling negates the target's state, stamps it and leaves every other device as it was. */
  lemma ToggleEffect(devices: DeviceTable, id: string, now: int)
    requires id in devices
    ensures Toggle(devices, id, now).Keys == devices.Keys
    ensures Toggle(devices, id, now)[id].state == !devices[id].state
    ensures Toggle(devices, id, now)[id].lastUpdated == Some(now)
    ensures forall other :: other in devices && other != id ==> Toggle(devices, id, now)[other] == devices[other]
    ensures Shaped(devices) ==> Shaped(Toggle(devices, id, now))
  {
  }

  /** Toggling twice restores the original state; only the stamp remembers the toggles. */
  lemma ToggleTwice(devices: DeviceTable, id: string, t1: int, t2: int)
    requires id in devices
    ensures Toggle(Toggle(devices, id, t1), id, t2) == devices[id := devices[id].(lastUpdated := Some(t2))]
  {
  }

  /** Setting a state affects only the target, which ends up in exactly that state. */
  lemma SetStateEffect(devices: DeviceTable, id: string, on: bool, now: int)
    requires id in devices
    ensures SetState(devices, id, on, now).Keys == devices.Keys
    ensures SetState(devices, id, on, now)[id].state == on
    ensures SetState(devices, id, on, now)[id].lastUpdated == Some(now)
    ensures forall other :: other in devices && other != id ==> SetState(devices, id, on, now)[other] == devices[other]
    ensures Shaped(devices) ==> Shaped(SetState(devices, id, on, now))
  {
  }

  /** Setting the same state again changes nothing but the stamp. */
  lemma SetStateIdempotent(devices: DeviceTable, id: string, on: bool, t1: int, t2: int)
    requires id in devices
    ensures SetState(SetState(devices, id, on, t1), id, on, t2) == SetState(devices, id, on, t2)
  {
  }

  /** Toggling is setting the opposite of the current state. */
  lemma ToggleIsSetOpposite(devices: DeviceTable, id: string, now: int)
    requires id in devices
    ensures Toggle(devices, id, now) == SetState(devices, id, !devices[id].state, now)
  {
  }
}
