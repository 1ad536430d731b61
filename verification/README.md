# Modbus TCP dashboard — a Dafny model of its core

The system is an Electron + React dashboard for Modbus TCP devices. Its main
process keeps a pool of Modbus sessions keyed by `host:port:unitId`, validates
every request from the renderer with zod schemas, and can scan the local /24
subnets for hosts listening on port 502. The renderer keeps a registry of
devices and shows the selected device on one screen, which is reused as the
selection moves from device to device. That screen has four data panels (coils, discrete inputs,
input registers, holding registers). Each panel can poll once on demand or
repeatedly on a timer. A separate online check also polls while auto mode is
on. Coils and holding registers can be written back.

The model has one Dafny module per source file, plus three shared modules:

| module | file | models |
|---|---|---|
| `Wrappers` | `wrappers.dfy` | `Option` (JavaScript `undefined`/`null`) and `Result` (a value or the error a call throws or rejects with) |
| `JsBuiltins` | `js_builtins.dfy` | the built-ins the code relies on: `String(n)`, `Number`/`parseInt` on decimal text, one-character `split` and `join`, `trim`, the `/[^0-9]/g` digit filter and `find` |
| `Notices` | `notices.dfy` | the messages passed to `onError` |
| `ModbusService` | `modbus_service.dfy` | `keyOf` and the `ModbusManager` class (`my-app/electron/services/modbus.ts`) |
| `IpcSchemas` | `ipc_schemas.dfy` | the zod schemas of `my-app/electron/main.ts` as validators |
| `Discovery` | `discovery.dfy` | the `discovery:scan` handler of `my-app/electron/main.ts` |
| `IdUtils` | `id_utils.dfy` | `parseId` and `addrLabel` (`my-app/src/utils/modbus.ts`) |
| `DeviceManager` | `device_manager.dfy` | `deviceReducer` and `selectedDevice` (`my-app/useDeviceManager.ts`) |
| `App` | `app.dfy` | the App component's device list, per-id settings and scan flags (`my-app/src/App.tsx`) |
| `Polling` | `polling.dfy` | the four data panels, modelled once and told apart by `Kind` |
| `DeviceScreen` | `device_screen.dfy` | caption, rate and name inputs, Connect button and online check (`my-app/src/screens/DeviceScreen.tsx`) |

Code that mutates state is modelled as classes: the session pool, the probe's
`resolved` flag, the scan flags, a panel's state, and the polling effect's
`alive`/`running` closure flags (`Polling.PollTask`). Each `await` is split
into a Begin method and a Complete method. Begin runs up to the call into the
other process and returns the request. Complete takes the reply. This lets a
cancellation or a second timer tick happen between the two. Loops are kept as
loops: the subnet loop, the host expansion and the worker queue. Each is
proved equal to a specification function, and the properties are proved about
that function.

Everything outside the code is an input. The Modbus client's dial and
transport are function-valued oracles. So is the TCP probe. The interface
table is a parameter, and so is the presence of `window.api` (`apiAvailable`).

Numbers are `JsBuiltins.JsNumber`: an integer or NaN. `parseInt` and `Number`
are modelled on decimal digits with an optional leading '+' or '-'. All other
text gives NaN, except that `Number` of empty text is 0.

Where the intended design and the code differ, the model follows the code:

- Register reads are capped at 125 only in the renderer. The main process's
  `ReadSchema` accepts up to 200 for all four reads (`IpcSchemas.ParseRead`,
  `IpcSchemas.ReadLengthBoundary`).
- `ConnectSchema` puts no range on the port. The unit id is range-checked only
  on connect, not by the read or write schemas.
- There is no per-key guard in `connect`. Two calls that overlap can both dial.
  The model runs calls one after another, so this race is not represented.
- The online check publishes its result without testing `alive`. A reply that
  arrives after cleanup is still published (`DeviceScreen.Screen.CompleteOnlineCheck`,
  `DeviceScreen.LateReplyAfterCleanup`). The data panels do test `alive`.
- The screen and its panels are rendered without a `key`, so a device switch
  keeps their state. Only the name draft and the rate field are reset
  (`DeviceScreen.Screen.SwitchDevice`). Each panel keeps its array, address and
  length texts, busy flag and pending edits (`Polling.Panel.SwitchDevice`). A
  manual read begun for one device is therefore published in the next device's
  panel (`Polling.ManualReplyAfterSwitch`). A pending analog-output edit is
  written to the next device (`Polling.PendingEditAfterSwitch`). The coil
  switches show the previous device's states until the next read, and toggling
  one writes the negation of that state to the new device.
- A subnet comes from every address whose family is `IPv4` and that is not
  `internal`. The netmask is never consulted.
- The scan returns hits in the order the workers finish. The model's
  sequential queue returns them in host order.
- Without the api, only the discrete-input panel reports an error on a manual
  poll. The other three panels return silently.

## Model

| member | source | states |
|---|---|---|
| `JsBuiltins.Split` | my-app/src/utils/modbus.ts:2 | `split(':')` always gives at least one part, and no part contains the separator. The first part is the text before the first separator, or all of the text when there is none. |
| `JsBuiltins.SplitJoin` | my-app/src/utils/modbus.ts:2 | Splitting joined parts gives the parts back, provided no part contains the separator. |
| `JsBuiltins.Trim` | my-app/src/screens/DeviceScreen.tsx:126 | `trim()` gives the text that starts after the leading white space, with only white space after it. |
| `JsBuiltins.TrimEnds` | my-app/src/screens/DeviceScreen.tsx:126 | The trimmed text neither starts nor ends with white space. It is empty exactly when the text is all white space. |
| `JsBuiltins.KeepDigits` | my-app/src/components/PollCoils.tsx:75 | The digit filter leaves only digits, is never longer than its input, and is the identity on digit text. |
| `JsBuiltins.KeepDigitsFilters` | my-app/src/components/PollCoils.tsx:75 | The filter is an order-preserving filter: a single digit is kept, any other single character is dropped, and filtering a concatenation concatenates the filtered halves. |
| `JsBuiltins.FindFirst` | my-app/useDeviceManager.ts:59 | `find` returns the first element that satisfies the predicate, and none exactly when no element does. |
| `ModbusService.KeyOfInjective` | my-app/electron/services/modbus.ts:4-6 | Two keys are equal exactly when their (host, port, unitId) triples are equal, for every host. |
| `ModbusService.BitsToInts` | my-app/electron/services/modbus.ts:46 | `map(b => b ? 1 : 0)` keeps the length, and each element is 1 exactly when its bit is set. |
| `ModbusService.ModbusManager.constructor` | my-app/electron/services/modbus.ts:9 | The pool starts empty and nothing has been dialled. |
| `ModbusService.ModbusManager.Connect` | my-app/electron/services/modbus.ts:11-34 | A key already in the pool returns `{ok, device: key}` with no dial and no change. Otherwise exactly one dial is made. A successful dial inserts one session under the key, with the target's endpoint and unit id; nothing else changes. A dial error or the 4000 ms timeout rejects and leaves the pool unchanged. Port defaults to 502 and unit id to 1. The pool stays well keyed. |
| `ModbusService.ModbusManager.GetClient` | my-app/electron/services/modbus.ts:36-41 | Returns the session under the target's key (same defaults), or fails with 'Not connected' exactly when the key is absent. |
| `ModbusService.ModbusManager.ClientMatchesTarget` | my-app/electron/services/modbus.ts:30-31 | In a well-keyed pool, the session found for a target was opened to that host and port with that unit id. |
| `ModbusService.ModbusManager.ReadCoils` | my-app/electron/services/modbus.ts:43-47 | An unconnected target gives 'Not connected', whatever the transport would return. A transport error is passed through. Otherwise the result is the 0/1 form of the transport's bits. The pool is not modified. |
| `ModbusService.ModbusManager.ReadDiscreteInputs` | my-app/electron/services/modbus.ts:48-52 | Same as `ReadCoils`, for discrete inputs. |
| `ModbusService.ModbusManager.ReadHoldingRegisters` | my-app/electron/services/modbus.ts:53-57 | 'Not connected' when the key is absent. Otherwise the transport's data unchanged, or its error. |
| `ModbusService.ModbusManager.ReadInputRegisters` | my-app/electron/services/modbus.ts:58-62 | Same as `ReadHoldingRegisters`, for input registers. |
| `ModbusService.ModbusManager.WriteCoil` | my-app/electron/services/modbus.ts:63-67 | 'Not connected' when the key is absent. Otherwise `true` once the transport accepts the write, or the transport's error. |
| `ModbusService.ModbusManager.WriteRegister` | my-app/electron/services/modbus.ts:68-72 | Same as `WriteCoil`, for a register value. |
| `IdUtils.NumberOr` | my-app/src/utils/modbus.ts:3 | A missing or empty field gives the default. |
| `IdUtils.ParseIdFields` | my-app/src/utils/modbus.ts:1-4 | The host is the text before the first ':', or the whole id when there is none. An id without ':' gives port 502 and unit id 1. |
| `IdUtils.ParseKeyOf` | my-app/src/utils/modbus.ts:2-3 | For a host without ':', `parseId(keyOf(h, p, u))` is `(h, p, u)`. |
| `IdUtils.ExtraFieldsIgnored` | my-app/src/utils/modbus.ts:2 | For any id whose first three fields are ':'-free, appending ':' and further text does not change the result. |
| `IdUtils.EmptyFieldsDefault` | my-app/src/utils/modbus.ts:3 | Empty or missing port and unit fields give 502 and 1. |
| `IdUtils.DoubleColonHost` | my-app/src/utils/modbus.ts:2-3 | For a host `a::b`, the key parses as host `a`, port 502 (the empty field), and unit id `b`, whatever port and unit were given. |
| `IdUtils.Ipv6HostDoesNotRoundTrip` | my-app/src/utils/modbus.ts:2 | The round trip needs its precondition: the key of host `fe80::1` parses as host `fe80`. |
| `IdUtils.AddrLabel` | my-app/src/utils/modbus.ts:6-8 | The label reads back as `base + offset`. |
| `IpcSchemas.ParseEndpoint` | my-app/electron/main.ts:55 | Accepted exactly when the host is present and port and unit id are absent or numbers. Defaults are 502 and 1. |
| `IpcSchemas.ParseConnect` | my-app/electron/main.ts:49 | Accepted exactly when, in addition, the unit id (given or default 1) is in [1, 247]. The port has no range. |
| `IpcSchemas.ParseRead` | my-app/electron/main.ts:55 | Accepted exactly when the endpoint is valid, address >= 0, and 0 < length <= 200. The same bound holds for registers, and the unit id is not range-checked. |
| `IpcSchemas.ParseWriteCoil` | my-app/electron/main.ts:73 | Accepted exactly when the endpoint is valid, address >= 0, and a boolean state is present. |
| `IpcSchemas.ParseWriteRegister` | my-app/electron/main.ts:79 | Accepted exactly when the endpoint is valid, address >= 0, and the value is in [0, 0xffff]. |
| `IpcSchemas.ParseDiscovery` | my-app/electron/main.ts:86-88 | An absent payload gives 500 ms. Otherwise the timeout (default 500) is accepted exactly when it is in [100, 5000]. |
| `IpcSchemas.ReadLengthBoundary` | my-app/electron/main.ts:55 | Length 200 is accepted. Lengths 201 and 0 are rejected. |
| `IpcSchemas.WriteRegisterValueBoundary` | my-app/electron/main.ts:79 | Value 65535 is accepted and 65536 is rejected. |
| `Discovery.EligibleOfMembers` | my-app/electron/main.ts:93-94 | The kept entries of a group are exactly its IPv4, non-internal entries. |
| `Discovery.EligiblesMembers` | my-app/electron/main.ts:91-94 | The kept entries of the table are exactly the eligible entries of its groups. Groups that are `undefined` contribute nothing. |
| `Discovery.PrefixOfDottedQuad` | my-app/electron/main.ts:95-97 | For a dotted quad `a.b.c.d`, the prefix is `a.b.c`. |
| `Discovery.DedupFacts` | my-app/electron/main.ts:90 | The set has no repeats and holds exactly the added prefixes. |
| `Discovery.SubnetsFromEligibleAddresses` | my-app/electron/main.ts:89-100 | Every subnet is the prefix of some eligible address, and every eligible address contributes its prefix. No prefix is repeated. |
| `Discovery.CollectSubnets` | my-app/electron/main.ts:89-100 | The nested loop computes the set of subnets. |
| `Discovery.AddGroup` | my-app/electron/main.ts:93-99 | The inner loop adds the prefix of each eligible entry of one group. |
| `Discovery.Block` | my-app/electron/main.ts:121 | 254 hosts, where host k is `base.(k+1)`. |
| `Discovery.HostsLayout` | my-app/electron/main.ts:119-122 | The host list has 254 hosts per prefix, and host n is prefix n/254 followed by `.` and n%254 + 1. |
| `Discovery.ExpandHosts` | my-app/electron/main.ts:119-122 | The loop builds exactly that list. |
| `Discovery.HostsMembership` | my-app/electron/main.ts:119-122 | The hosts are exactly the addresses `prefix.k` with 1 <= k <= 254 of the listed prefixes. |
| `Discovery.HostsDistinct` | my-app/electron/main.ts:119-122 | When the prefixes are distinct, so are the hosts. |
| `Discovery.ProbeAttempt.constructor` | my-app/electron/main.ts:103-104 | A probe starts unresolved. |
| `Discovery.ProbeAttempt.Done` | my-app/electron/main.ts:105-111 | Only the first `done` settles the probe and destroys the socket. Later calls change nothing. |
| `Discovery.ProbeAttempt.OnEvent` | my-app/electron/main.ts:113-115 | 'connect' settles true. 'timeout' and 'error' settle false. |
| `Discovery.ProbeAttempt.Deliver` | my-app/electron/main.ts:102-117 | For any sequence of events, the first one fixes the outcome and the later ones have no effect. |
| `Discovery.Hits` | my-app/electron/main.ts:126-131 | A hit is exactly a listed host whose probe returned true, always with port 502. |
| `Discovery.DrainQueue` | my-app/electron/main.ts:124-133 | The queue takes every host index exactly once, in order, and collects exactly those hits. |
| `Discovery.HitsWhenAllAnswer` | my-app/electron/main.ts:127-130 | When every probe answers, the hits are the hosts in order. |
| `Discovery.ScanCompleteWhenAllAnswer` | my-app/electron/main.ts:119-133 | When every candidate answers, each of the 254 hosts of every prefix is reported once, on port 502. |
| `Discovery.HitsAreProbedHosts` | my-app/electron/main.ts:119-131 | A hit is exactly an answering `prefix.k` with 1 <= k <= 254 of a collected prefix, on port 502. |
| `Discovery.Scan` | my-app/electron/main.ts:87-135 | An invalid payload is rejected before any probe. Otherwise the result is the hits of the expanded subnets, probed with the validated timeout. |
| `DeviceManager.AddExistingIsNoOp` | my-app/useDeviceManager.ts:29-32 | ADD_DEVICE with an id already present returns the state unchanged. |
| `DeviceManager.AddNewAppends` | my-app/useDeviceManager.ts:33-39 | A new id appends one device (no name, auto off, 1000 ms, offline). Earlier devices and the selection are untouched. |
| `DeviceManager.ReducePreservesDistinctIds` | my-app/useDeviceManager.ts:27-53 | If the ids are distinct before an action, of any kind, they are distinct after it. |
| `DeviceManager.SelectChangesOnlySelection` | my-app/useDeviceManager.ts:41-42 | SELECT_DEVICE sets only the selected id. |
| `DeviceManager.UpdateChangesOnlyMatching` | my-app/useDeviceManager.ts:43-49 | UPDATE_DEVICE keeps length, order, ids and selection. Matching devices take the patch's given fields and keep the rest. Other devices are unchanged. |
| `DeviceManager.UpdateUnknownIdIsNoOp` | my-app/useDeviceManager.ts:46-48 | An update for an unregistered id leaves the state equal to before. |
| `DeviceManager.SetDevicesIsIgnored` | my-app/useDeviceManager.ts:50-51 | SET_DEVICES falls through to the default case and returns the state unchanged. |
| `DeviceManager.SelectedIsFirstMatch` | my-app/useDeviceManager.ts:58-61 | The selected device is the first device with the selected id. There is none exactly when nothing is selected or no device has that id. |
| `DeviceManager.SelectedIsUnique` | my-app/useDeviceManager.ts:58-61 | With distinct ids, the selected device is the one with that id. |
| `App.DiscoveredIdIsPoolKey` | my-app/src/App.tsx:40 | A discovered host's id is its pool key with unit id 1, and for a host without ':' it parses back as (host, port, 1). |
| `App.AddDiscoveredProperties` | my-app/src/App.tsx:39-42 | Earlier entries stay in place, the id is listed afterwards and nothing else is new, no id is duplicated, and adding twice equals adding once. |
| `App.SettingDefaults` | my-app/src/App.tsx:45-47 | With no entry, auto is off, the rate is 1000 and online is false. |
| `App.SetterChangesOnlySelected` | my-app/src/App.tsx:81-84 | The per-id setters change only the selected id's entry, and reading it back gives the value set. Without a selection nothing changes. |
| `App.SaveNameChangesOnlySelected` | my-app/src/App.tsx:83 | Saving renames only the entries with the selected id and keeps length, order and ids. The selection then shows the new name. |
| `App.Shell.constructor` | my-app/src/App.tsx:13-16 | No error, dialog closed, not scanning, no hits. |
| `App.Shell.BeginScan` | my-app/src/App.tsx:21-32 | Without the api, only the unavailable error is set. Otherwise the error is cleared, the dialog opened, scanning set, the list emptied, and a 400 ms scan requested. |
| `App.Shell.FinishScan` | my-app/src/App.tsx:31-36 | Scanning is always cleared. Hits replace the list. A rejection propagates and leaves the list empty. |
| `App.ScanRequestIsAccepted` | my-app/src/App.tsx:32 | The App's 400 ms request passes the discovery schema. |
| `Polling.Period` | my-app/src/components/PollCoils.tsx:61 | The period is at least 200 and at least the rate, and equals one of them. The same timer period is used by the other panels and by the online check in DeviceScreen.tsx. |
| `Polling.Address` | my-app/src/components/PollCoils.tsx:20 | The address is never negative and is the value of the digits typed. |
| `Polling.ManualLength` | my-app/src/components/PollCoils.tsx:21 | The manual length is in [1, cap]. An in-range value is kept, a larger one becomes the cap, and 0 or empty becomes 1. The cap is 200 for coils and discrete inputs and 125 for the register panels. |
| `Polling.AutoLength` | my-app/src/components/PollCoils.tsx:49-50 | The auto length is in [0, cap], and it is 0 (no read) exactly when the digits read as 0. The cap is 200 for coils and discrete inputs and 125 for the register panels. |
| `Polling.SaveValue` | my-app/src/components/AnalogOutputs.tsx:130-131 | The written value is always in [0, 65535]. Non-numeric text gives 0, and an in-range number is kept. |
| `Polling.SaveUntouchedWritesShown` | my-app/src/components/AnalogOutputs.tsx:109 | Without a pending edit, saving writes back the register value shown. |
| `Polling.SaveEditedDigits` | my-app/src/components/AnalogOutputs.tsx:130-131 | A pending digit edit is written as its value capped at 65535, and an emptied field as 0. |
| `Polling.SetAt` | my-app/src/components/PollCoils.tsx:117-118 | Copying and assigning index i changes only element i and keeps the length. |
| `Polling.PollTask.constructor` | my-app/src/components/PollCoils.tsx:37-38 | A new effect run is alive and not running, with period `max(200, rateMs)`. |
| `Polling.PollTask.TryStart` | my-app/src/components/PollCoils.tsx:41-42 | A tick starts a cycle exactly when the task is alive and not running. A skipped tick changes nothing. |
| `Polling.PollTask.Finish` | my-app/src/components/PollCoils.tsx:56-58 | The `finally` clears `running`. |
| `Polling.PollTask.Cancel` | my-app/src/components/PollCoils.tsx:63 | Cleanup sets `alive` to false. |
| `Polling.Panel.constructor` | my-app/src/components/PollCoils.tsx:12-15 | Address '0', length '8' for bits or '4' for registers, no values, not polling. |
| `Polling.Panel.SwitchDevice` | my-app/src/screens/DeviceScreen.tsx:156-159 | A device switch changes only the panel's device id. The texts, the array, the busy flag, the pending edits and the reports carry over. |
| `Polling.Panel.EditAddress` | my-app/src/components/PollCoils.tsx:75 | The address field keeps only the digits typed. |
| `Polling.Panel.EditLength` | my-app/src/components/PollCoils.tsx:83 | The length field keeps only the digits typed. |
| `Polling.Panel.BeginManualPoll` | my-app/src/components/PollDiscreteInputs.tsx:17-28 | Without the api the discrete-input panel reports 'unavailable' and does not read; the coil and register panels return silently. Otherwise polling is set and a clamped read of the parsed device is issued, with the panel's cap on the length. |
| `Polling.Panel.CompleteManualPoll` | my-app/src/components/PollDiscreteInputs.tsx:29-35 | Data replaces the array. A failure reports the panel's message ('Failed to poll inputs: …', or 'coils', 'input registers', 'holding registers') and keeps the array. Polling is cleared either way. |
| `Polling.Panel.BeginAutoCycle` | my-app/src/components/PollDiscreteInputs.tsx:43-55 | A tick that is not alive, or that comes while running, is skipped. With no api the cycle ends and `running` is cleared. Otherwise the cycle connects and then reads the clamped auto length; at length 0 it only connects. The four panels share this code. |
| `Polling.Panel.CompleteAutoCycle` | my-app/src/components/PollDiscreteInputs.tsx:55-61 | Data is published only if the task is still alive. A failure is swallowed: no report and an unchanged array. `running` is cleared. The four panels share this code. |
| `Polling.Panel.BeginCoilWrite` | my-app/src/components/PollCoils.tsx:108-114 | On the coil panel, coil i is written at `max(0, address) + i` with the switch state. Without the api nothing happens. |
| `Polling.Panel.CompleteCoilWrite` | my-app/src/components/PollCoils.tsx:115-124 | On success only element i becomes 1 or 0, and a null array stays null. On failure 'Failed to write coil: …' is reported and the array is kept. |
| `Polling.Panel.EditOutput` | my-app/src/components/AnalogOutputs.tsx:116-123 | Element i's pending text becomes the digits typed. Other pending texts are kept, and a null edit list starts empty. |
| `Polling.Panel.BeginSave` | my-app/src/components/AnalogOutputs.tsx:127-134 | For a rendered element i of the analog-output panel, shown with its current value, the clamped value, always in [0, 65535], is written at `max(0, address) + i`. |
| `Polling.Panel.CompleteSave` | my-app/src/components/AnalogOutputs.tsx:135-149 | On success only `aos[i]` (unless null) and `aoEdits[i]` change, to the value and its text. On failure 'Failed to write register: …' is reported and nothing else changes. |
| `Polling.PanelReadsPassSchema` | my-app/src/components/PollCoils.tsx:24-25 | Every non-empty read a panel issues for a `keyOf` id passes the read schema and addresses that device's pool key. Register lengths stay at or below 125. |
| `Polling.SaveRequestPassesSchema` | my-app/src/components/AnalogOutputs.tsx:133-134 | Every save request passes the register-write schema. |
| `Polling.CoilWritePassesSchema` | my-app/src/components/PollCoils.tsx:112-114 | Every coil write passes the coil-write schema. |
| `DeviceScreen.HostPortOfKey` | my-app/src/screens/DeviceScreen.tsx:52-55 | The caption of a `keyOf` id is the host and port it was built from. |
| `DeviceScreen.HostPortDefault` | my-app/src/screens/DeviceScreen.tsx:52-55 | An id without ':' shows port 502. |
| `DeviceScreen.RateFromInput` | my-app/src/screens/DeviceScreen.tsx:136-139 | The rate passed on is always positive. No digits, or digits that read as 0, give 1000; otherwise the digits' value. |
| `DeviceScreen.SavedName` | my-app/src/screens/DeviceScreen.tsx:126 | The saved name is the trimmed draft, and there is no name exactly when the draft is blank. |
| `DeviceScreen.Screen.constructor` | my-app/src/screens/DeviceScreen.tsx:40-42 | The draft starts from the name (or empty) and the rate field from the rate. |
| `DeviceScreen.Screen.EditRate` | my-app/src/screens/DeviceScreen.tsx:135-140 | The field keeps the digits, and the rate passed on is `RateFromInput`. |
| `DeviceScreen.Screen.SwitchDevice` | my-app/src/screens/DeviceScreen.tsx:44-50 | A device switch sets the id and resets the name draft to the new name (or empty) and the rate field to the new rate. `connecting` and the reports carry over. |
| `DeviceScreen.Screen.OnRateChanged` | my-app/src/screens/DeviceScreen.tsx:48-50 | Whenever the rate given to the screen changes, the field is rewritten as that rate's decimal text; nothing else changes. |
| `DeviceScreen.Screen.BeginConnect` | my-app/src/screens/DeviceScreen.tsx:57-66 | Without the api an error is reported and nothing connects. Otherwise `connecting` is set and the alert cleared before connecting to the parsed id. |
| `DeviceScreen.Screen.CompleteConnect` | my-app/src/screens/DeviceScreen.tsx:66-72 | A failure reports 'Failed to connect: …'. `connecting` is always cleared. |
| `DeviceScreen.Screen.BeginOnlineCheck` | my-app/src/screens/DeviceScreen.tsx:80-89 | The same tick guard as the panels, followed by a one-register read of holding register 0. |
| `DeviceScreen.Screen.CompleteOnlineCheck` | my-app/src/screens/DeviceScreen.tsx:88-96 | Online is true exactly for a non-empty reply and false on failure. `alive` is not consulted. `running` is cleared. |

The methods `ModbusService.ConnectTwiceDialsOnce`, `Polling.AutoPollScenarios`,
`App.ScanSequence` and `DeviceScreen.LateReplyAfterCleanup` have no contract
of their own. Each one chains the contracts above and asserts what a caller
can conclude from them:

- connecting twice dials once;
- an overlapping tick is skipped;
- a reply after cancellation is discarded;
- an auto-poll failure is silent;
- a failed scan still clears the busy flag;
- after cleanup the online check still publishes while a data panel does not.

## Left out

- The Electron bootstrap and window lifecycle, the `ipcMain.handle` wiring, the preload bridge and the type declarations. They contain no logic beyond calling the modelled validators and manager.
- The `modbus-serial` client is not modelled: its framing, `connectTCP`, `setID`, and the `close` on timeout. Dials and transport calls are oracles. A session records the endpoint and the unit id `setID` bound it to.
- Real sockets and `os.networkInterfaces()`. The probe is an oracle and the interface table is an input.
- Discovery.Scan: the probe is any function of host and timeout. The settle-once behaviour of `tryConnect` is proved separately (`Discovery.ProbeAttempt`) and is not composed into the scan.
- Concurrency. The 128 workers become one sequential loop, so the in-flight bound of 128 is not stated. Concurrent `connect` calls for one key, which can both dial, are not represented. Timer timing (`setInterval` and the immediate first run) is not modelled: the caller invokes each tick.
- The arrival order of scan results. The sequential model returns them in host order.
- JavaScript number quirks. Fractions accepted by `z.number()`, hexadecimal, exponent or space-padded text in `Number`/`parseInt`, and `Infinity` are left out: any text other than decimal digits with an optional leading '+' or '-' is NaN (except that `Number("")` is 0). That includes text with trailing non-digits, which `parseInt` would read up to the first non-digit; every text the panels parse is digit-filtered first. With integer numbers, the `.int()` check of the register-write schema always holds.
- Error messages are modelled by kind and cause. The text of an `Error` beyond the prefix, and the console log at the end of the scan handler, are left out.
- JSX rendering, layout, theming, the navigation list, the discovery dialog, the error alert's close button, and the dialog's open/close handlers.
- DeviceManager.Patch: a patch that gives `undefined` explicitly for `auto`, `rateMs` or `online` would set that field to `undefined`. The model allows this only for `name`.
- Polling.Panel.CompleteCoilWrite: if the array shrank below i + 1 before the write completed, JavaScript assigns past the end and grows the array with holes. The model leaves the array unchanged.
- Polling.Panel.CompleteSave: same for `aos` when it shrank below i + 1. `aoEdits` is a map from index to text, so holes are absent keys.
- Polling.Panel.BeginAutoCycle: the outcome of the swallowed `connect` is not an input, because nothing after it depends on it.
- Re-running an effect when its dependencies change (cleanup, then a new run) is shown as `PollTask.Cancel` followed by a new `PollTask`; no method composes the two. The name draft's and rate field's resets on a device change are part of `DeviceScreen.Screen.SwitchDevice`; the auto-poll and online-check effects restarting on that change are the same `Cancel` and new `PollTask`. The rate field's reset also runs whenever `rateMs` changes, including a change caused by the screen's own edit: typing "05" then shows "5", and clearing the field shows "1000" once the rate was not already 1000. That reset is `DeviceScreen.Screen.OnRateChanged`, which the caller invokes after each rate change (`DeviceScreen.RateFieldAfterEdit` composes the two); the model does not detect the change itself.
- Results of the online check and of the App's per-id setters are not composed into one method. `CompleteOnlineCheck` returns the value that `onUpdateOnline` passes to the setter modelled by `App.SetForSelected`.
