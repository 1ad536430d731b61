/** The top-level `App` component: its own device list with names, the
    per-id settings maps handed to the device screen, and the discovery scan's
    flag sequence. */
module App {
  import opened Wrappers
  import opened JsBuiltins
  import ModbusService
  import IdUtils
  import Discovery
  import IpcSchemas
  import opened Notices
  import DeviceManager

  /** `{ id, name? }`, the App's own device record. */
  datatype Entry = Entry(id: string, name: Option<string>)

  const ScanTimeoutMs: int := 400

  // ---------------------------------------------------------------- the device list

  /** `${host.host}:${host.port}:1`: a discovered device always gets unit id 1. */
  function DiscoveredId(hit: Discovery.Hit): string {
    hit.host + ":" + IntToString(hit.port) + ":1"
  }

  /** The id is the pool key of the hit with unit id 1, and it reads back as
      that endpoint when the host has no ':'. */
  lemma DiscoveredIdIsPoolKey(hit: Discovery.Hit)
    ensures DiscoveredId(hit) == ModbusService.KeyOf(hit.host, hit.port, 1)
    ensures ':' !in hit.host ==>
      IdUtils.ParseId(DiscoveredId(hit)) == IdUtils.ParsedId(hit.host, Finite(hit.port), Finite(1))
  {
    assert IntToString(1) == "1";
    if ':' !in hit.host {
      IdUtils.ParseKeyOf(hit.host, hit.port, 1);
    }
  }

  predicate HasEntry(devices: seq<Entry>, id: string) {
    exists k | 0 <= k < |devices| :: devices[k].id == id
  }

  predicate DistinctIds(devices: seq<Entry>) {
    forall i, j | 0 <= i < j < |devices| :: devices[i].id != devices[j].id
  }

  /** `addDiscovered`: append `{ id }` unless the id is already listed. */
  function AddDiscovered(devices: seq<Entry>, hit: Discovery.Hit): seq<Entry> {
    var id := DiscoveredId(hit);
    if HasEntry(devices, id) then devices else devices + [Entry(id, None)]
  }

  /** Adding keeps every earlier entry in place, lists the hit's id afterwards
      and nothing else new, never duplicates an id, and adding twice is adding once. */
  lemma AddDiscoveredProperties(devices: seq<Entry>, hit: Discovery.Hit)
    ensures var r := AddDiscovered(devices, hit);
      |devices| <= |r| <= |devices| + 1 && r[..|devices|] == devices &&
      (forall id :: HasEntry(r, id) <==> HasEntry(devices, id) || id == DiscoveredId(hit)) &&
      (DistinctIds(devices) ==> DistinctIds(r)) &&
      AddDiscovered(r, hit) == r
  {
    var r := AddDiscovered(devices, hit);
    var id := DiscoveredId(hit);
    if !HasEntry(devices, id) {
      assert r[|devices|].id == id;
      forall x | HasEntry(r, x)
        ensures HasEntry(devices, x) || x == id
      {
        var k :| 0 <= k < |r| && r[k].id == x;
        if k < |devices| {
          assert devices[k].id == x;
        }
      }
    }
  }

  /** `devices.find((d) => d.id === selectedId) || null`. */
  function Selected(devices: seq<Entry>, selectedId: Option<string>): Option<Entry> {
    if selectedId.None? then None
    else
      match FindFirst(devices, (d: Entry) => d.id == selectedId.value)
      case None => None
      case Some(k) => Some(devices[k])
  }

  // ---------------------------------------------------------------- per-id settings

  /** `selected ? !!autoPollById[selected.id] : false` (also used for `online`). */
  function FlagOf(selected: Option<Entry>, byId: map<string, bool>): bool {
    selected.Some? && selected.value.id in byId && byId[selected.value.id]
  }

  /** `selected ? (pollingRateById[selected.id] ?? 1000) : 1000`. */
  function RateOf(selected: Option<Entry>, byId: map<string, int>): int {
    if selected.Some? && selected.value.id in byId then byId[selected.value.id] else DeviceManager.DefaultRateMs
  }

  /** Without an entry for the selected device (or without a selection) auto
      polling is off, the device is offline and the rate is 1000 ms. */
  lemma SettingDefaults(selected: Option<Entry>, autoById: map<string, bool>,
                        rateById: map<string, int>, onlineById: map<string, bool>)
    requires selected.None? || (selected.value.id !in autoById && selected.value.id !in rateById &&
                                selected.value.id !in onlineById)
    ensures !FlagOf(selected, autoById) && RateOf(selected, rateById) == 1000 && !FlagOf(selected, onlineById)
  {
  }

  /** `selected && setXById((m) => ({ ...m, [selected.id]: v }))`. */
  function SetForSelected<T>(m: map<string, T>, selected: Option<Entry>, v: T): map<string, T> {
    if selected.Some? then m[selected.value.id := v] else m
  }

  /** A per-id setter changes only the selected id's entry, and the getter then
      reads back the value that was set. */
  lemma SetterChangesOnlySelected(m: map<string, bool>, rates: map<string, int>, selected: Option<Entry>, v: bool, ms: int)
    ensures selected.None? ==> SetForSelected(m, selected, v) == m && SetForSelected(rates, selected, ms) == rates
    ensures selected.Some? ==>
      var id := selected.value.id;
      var m' := SetForSelected(m, selected, v);
      var rates' := SetForSelected(rates, selected, ms);
      m'.Keys == m.Keys + {id} && rates'.Keys == rates.Keys + {id} &&
      (forall k | k in m && k != id :: m'[k] == m[k]) &&
      (forall k | k in rates && k != id :: rates'[k] == rates[k]) &&
      FlagOf(selected, m') == v && RateOf(selected, rates') == ms
  {
  }

  /** `onSaveName`: every device carrying the selected id takes the name. */
  function SaveName(devices: seq<Entry>, selected: Option<Entry>, name: Option<string>): seq<Entry> {
    if selected.None? then devices
    else
      seq(|devices|, k requires 0 <= k < |devices| =>
        if devices[k].id == selected.value.id then devices[k].(name := name) else devices[k])
  }

  /** Saving keeps length, order and ids, renames only the selected id's entry,
      and the selection then shows the new name. */
  lemma SaveNameChangesOnlySelected(devices: seq<Entry>, selectedId: Option<string>, name: Option<string>)
    ensures var sel := Selected(devices, selectedId);
      var r := SaveName(devices, sel, name);
      |r| == |devices| &&
      (forall k | 0 <= k < |r| :: r[k].id == devices[k].id) &&
      (forall k | 0 <= k < |r| && (sel.None? || devices[k].id != sel.value.id) :: r[k] == devices[k]) &&
      (sel.Some? ==> Selected(r, selectedId) == Some(sel.value.(name := name)))
  {
    var sel := Selected(devices, selectedId);
    var r := SaveName(devices, sel, name);
    if sel.Some? {
      var p := (d: Entry) => d.id == selectedId.value;
      var k := FindFirst(devices, p).value;
      assert devices[k].id == selectedId.value;
      assert forall j | 0 <= j < |devices| :: p(r[j]) == p(devices[j]);
      assert FindFirst(r, p) == Some(k) by {
        FindFirstAgrees(devices, r, p);
      }
    }
  }

  // ---------------------------------------------------------------- scan

  /** The App's discovery state: the error alert, the dialog, the busy flag and
      the last scan's hits. */
  class Shell {
    var error: Option<Notice>
    var discoveryOpen: bool
    var scanning: bool
    var discovered: seq<Discovery.Hit>

    constructor ()
      ensures error == None && !discoveryOpen && !scanning && discovered == []
    {
      error, discoveryOpen, scanning, discovered := None, false, false, [];
    }

    /** `scan` up to the awaited `api.scan`: without the api only the error is
        set; otherwise the error is cleared, the dialog opened, the busy flag
        set, the list emptied, and a scan with a 400 ms timeout requested. */
    method BeginScan(apiAvailable: bool) returns (request: Option<IpcSchemas.DiscoveryPayload>)
      modifies this
      ensures !apiAvailable ==>
        request == None && error == Some(DiscoveryUnavailable) &&
        discoveryOpen == old(discoveryOpen) && scanning == old(scanning) && discovered == old(discovered)
      ensures apiAvailable ==>
        request == Some(IpcSchemas.DiscoveryPayload(Some(Finite(ScanTimeoutMs)))) &&
        error == None && discoveryOpen && scanning && discovered == []
    {
      if !apiAvailable {
        error := Some(DiscoveryUnavailable);
        return None;
      }
      error := None;
      discoveryOpen := true;
      scanning := true;
      discovered := [];
      return Some(IpcSchemas.DiscoveryPayload(Some(Finite(ScanTimeoutMs))));
    }

    /** The rest of `scan`: the hits replace the list on success; a rejection
        propagates out of `scan`; either way the busy flag is cleared. */
    method FinishScan(reply: Result<seq<Discovery.Hit>, string>) returns (thrown: Option<string>)
      modifies this
      ensures !scanning
      ensures error == old(error) && discoveryOpen == old(discoveryOpen)
      ensures reply.Success? ==> discovered == reply.value && thrown == None
      ensures reply.Failure? ==> discovered == old(discovered) && thrown == Some(reply.error)
    {
      if reply.Success? {
        discovered := reply.value;
        thrown := None;
      } else {
        thrown := Some(reply.error);
      }
      scanning := false;
    }
  }

  /** The App's request passes the main process's discovery schema unchanged. */
  lemma ScanRequestIsAccepted()
    ensures IpcSchemas.ParseDiscovery(Some(IpcSchemas.DiscoveryPayload(Some(Finite(ScanTimeoutMs))))) == Success(400)
  {
  }

  /** A full scan with the api: whatever the reply, the busy flag ends cleared,
      and the dialog stays open. */
  method ScanSequence(shell: Shell, reply: Result<seq<Discovery.Hit>, string>)
    modifies shell
  {
    var request := shell.BeginScan(true);
    assert shell.scanning && shell.discovered == [];
    var thrown := shell.FinishScan(reply);
    assert !shell.scanning && shell.discoveryOpen && shell.error == None;
    assert reply.Failure? ==> shell.discovered == [];
  }
}
