/** `deviceReducer` and the `selectedDevice` lookup of `useDeviceManager`:
    a pure state machine over the device list and the selected id. */
module DeviceManager {
  import opened Wrappers
  import opened JsBuiltins

  /** A registered device; `name` is absent until one is saved. */
  datatype Device = Device(id: string, name: Option<string>, auto: bool, rateMs: int, online: bool)

  datatype DeviceState = DeviceState(devices: seq<Device>, selectedId: Option<string>)

  /** `Partial<Omit<Device, 'id'>>`: each field either absent (keep the old
      value) or given. A name may be given as `undefined`, which clears it. */
  datatype Patch = Patch(name: Option<Option<string>>, auto: Option<bool>, rateMs: Option<int>, online: Option<bool>)

  datatype Action =
    | AddDevice(id: string)
    | SetDevices(devices: seq<Device>)
    | SelectDevice(selectedId: Option<string>)
    | UpdateDevice(id: string, data: Patch)

  const DefaultRateMs: int := 1000

  const InitialState: DeviceState := DeviceState([], None)

  /** The device ADD_DEVICE appends: no name, auto off, 1000 ms, offline. */
  function NewDevice(id: string): Device {
    Device(id, None, false, DefaultRateMs, false)
  }

  /** `{ ...d, ...data }`. */
  function Apply(d: Device, data: Patch): Device {
    Device(d.id,
           if data.name.Some? then data.name.value else d.name,
           data.auto.GetOr(d.auto),
           data.rateMs.GetOr(d.rateMs),
           data.online.GetOr(d.online))
  }

  /** `devices.some((d) => d.id === id)`. */
  predicate HasId(devices: seq<Device>, id: string) {
    exists k | 0 <= k < |devices| :: devices[k].id == id
  }

  /** `devices.map((d) => d.id === id ? { ...d, ...data } : d)`. */
  function UpdateMatching(devices: seq<Device>, id: string, data: Patch): seq<Device> {
    seq(|devices|, k requires 0 <= k < |devices| =>
      if devices[k].id == id then Apply(devices[k], data) else devices[k])
  }

  function Reduce(state: DeviceState, action: Action): DeviceState {
    match action
    case AddDevice(id) =>
      if HasId(state.devices, id) then state
      else state.(devices := state.devices + [NewDevice(id)])
    case SelectDevice(sel) => state.(selectedId := sel)
    case UpdateDevice(id, data) => state.(devices := UpdateMatching(state.devices, id, data))
    case SetDevices(_) => state
  }

  predicate DistinctIds(devices: seq<Device>) {
    forall i, j | 0 <= i < j < |devices| :: devices[i].id != devices[j].id
  }

  /** `devices.find((d) => d.id === selectedId) || null`. */
  function SelectedDevice(state: DeviceState): Option<Device> {
    if state.selectedId.None? then None
    else
      match FindFirst(state.devices, (d: Device) => d.id == state.selectedId.value)
      case None => None
      case Some(k) => Some(state.devices[k])
  }

  // ---------------------------------------------------------------- properties

  /** Adding an id that is already registered returns the state unchanged. */
  lemma AddExistingIsNoOp(state: DeviceState, id: string, k: nat)
    requires k < |state.devices| && state.devices[k].id == id
    ensures Reduce(state, AddDevice(id)) == state
  {
  }

  /** Adding a new id appends exactly one default device at the end; the earlier
      devices and the selection are untouched. */
  lemma AddNewAppends(state: DeviceState, id: string)
    requires !HasId(state.devices, id)
    ensures Reduce(state, AddDevice(id)).devices == state.devices + [Device(id, None, false, 1000, false)]
    ensures Reduce(state, AddDevice(id)).selectedId == state.selectedId
  {
  }

  /** No action can introduce a duplicate id. */
  lemma ReducePreservesDistinctIds(state: DeviceState, action: Action)
    requires DistinctIds(state.devices)
    ensures DistinctIds(Reduce(state, action).devices)
  {
    match action
    case AddDevice(id) =>
      if !HasId(state.devices, id) {
        var ds := Reduce(state, action).devices;
        forall i, j | 0 <= i < j < |ds|
          ensures ds[i].id != ds[j].id
        {
          if j == |state.devices| {
            assert ds[i] == state.devices[i];
          }
        }
      }
    case UpdateDevice(id, data) =>
    case SelectDevice(_) =>
    case SetDevices(_) =>
  }

  /** Selecting changes only the selected id, and any id (or none) may be selected. */
  lemma SelectChangesOnlySelection(state: DeviceState, sel: Option<string>)
    ensures Reduce(state, SelectDevice(sel)) == DeviceState(state.devices, sel)
  {
  }

  /** An update keeps the length, the order and every id; the matching devices
      take the patch and every other device is unchanged. */
  lemma UpdateChangesOnlyMatching(state: DeviceState, id: string, data: Patch)
    ensures var ds := Reduce(state, UpdateDevice(id, data)).devices;
      |ds| == |state.devices| &&
      Reduce(state, UpdateDevice(id, data)).selectedId == state.selectedId &&
      forall k | 0 <= k < |ds| ::
        ds[k].id == state.devices[k].id &&
        (state.devices[k].id != id ==> ds[k] == state.devices[k]) &&
        (state.devices[k].id == id ==>
          (data.name.Some? ==> ds[k].name == data.name.value) &&
          (data.name.None? ==> ds[k].name == state.devices[k].name) &&
          ds[k].auto == data.auto.GetOr(state.devices[k].auto) &&
          ds[k].rateMs == data.rateMs.GetOr(state.devices[k].rateMs) &&
          ds[k].online == data.online.GetOr(state.devices[k].online))
  {
  }

  /** An update for an id that is not registered leaves the list as it was. */
  lemma UpdateUnknownIdIsNoOp(state: DeviceState, id: string, data: Patch)
    requires !HasId(state.devices, id)
    ensures Reduce(state, UpdateDevice(id, data)) == state
  {
    var ds := UpdateMatching(state.devices, id, data);
    assert forall k | 0 <= k < |ds| :: ds[k] == state.devices[k];
  }

  /** SET_DEVICES is declared but has no case in the reducer: it is ignored. */
  lemma SetDevicesIsIgnored(state: DeviceState, devices: seq<Device>)
    ensures Reduce(state, SetDevices(devices)) == state
  {
  }

  /** The selected device is the first device carrying the selected id; there is
      none when nothing is selected or no device carries it. */
  lemma SelectedIsFirstMatch(state: DeviceState)
    ensures SelectedDevice(state).None? <==>
      state.selectedId.None? || !HasId(state.devices, state.selectedId.value)
    ensures SelectedDevice(state).Some? ==>
      exists k | 0 <= k < |state.devices| ::
        state.devices[k] == SelectedDevice(state).value &&
        state.devices[k].id == state.selectedId.value &&
        forall j | 0 <= j < k :: state.devices[j].id != state.selectedId.value
  {
    if state.selectedId.Some? {
      var p := (d: Device) => d.id == state.selectedId.value;
      var r := FindFirst(state.devices, p);
      if r.Some? {
        assert p(state.devices[r.value]);
        assert forall j | 0 <= j < r.value :: !p(state.devices[j]);
      } else {
        assert forall j | 0 <= j < |state.devices| :: !p(state.devices[j]);
      }
    }
  }

  /** With distinct ids, the selected device is the only one carrying the id. */
  lemma SelectedIsUnique(state: DeviceState, k: nat)
    requires DistinctIds(state.devices)
    requires state.selectedId.Some? && k < |state.devices| && state.devices[k].id == state.selectedId.value
    ensures SelectedDevice(state) == Some(state.devices[k])
  {
    SelectedIsFirstMatch(state);
  }
}
