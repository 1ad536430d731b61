/** The renderer's data panels: PollCoils, PollDiscreteInputs, AnalogInputs and
    AnalogOutputs share one shape, modelled once and told apart by `Kind`.
    Each has digit-filtered address and length inputs, a manual poll, an
    auto-poll effect driven by a `PollTask` (the effect's `alive` and
    `running` closure flags), and a published array of values. Every await is
    split in two: a Begin method runs up to the call into the main process and
    returns the request, a Complete method takes the reply. */
module Polling {
  import opened Wrappers
  import opened JsBuiltins
  import ModbusService
  import IdUtils
  import IpcSchemas
  import opened Notices

  /** Which panel, and with it which read. */
  datatype Kind = Coils | DiscreteInputs | InputRegisters | HoldingRegisters

  /** The client-side length cap: 200 for bits, 125 for registers. */
  function Cap(kind: Kind): int {
    if kind == Coils || kind == DiscreteInputs then 200 else 125
  }

  /** Initial text of the length input: '8' for bits, '4' for registers. */
  function DefaultLength(kind: Kind): DigitText {
    if kind == Coils || kind == DiscreteInputs then "8" else "4"
  }

  const DefaultAddress: DigitText := "0"
  const MinPeriodMs: int := 200

  /** `Math.max(200, rateMs)`: the auto-poll interval. */
  function Period(rateMs: int): (p: int)
    ensures p >= MinPeriodMs && p >= rateMs
    ensures p == MinPeriodMs || p == rateMs
  {
    if rateMs < MinPeriodMs then MinPeriodMs else rateMs
  }

  /** `parseInt(text || fallback, 10)` on digit-filtered text. */
  function NumberOf(text: DigitText, fallback: DigitText): nat {
    DigitsValue(if text == "" then fallback else text)
  }

  /** `Math.max(0, parseInt(address || '0', 10))`. */
  function Address(text: DigitText): (a: int)
    ensures a >= 0
    ensures a == DigitsValue(text)
  {
    var n := NumberOf(text, "0");
    if n < 0 then 0 else n
  }

  /** `Math.min(cap, Math.max(1, parseInt(length || '1', 10)))`: the manual length. */
  function ManualLength(kind: Kind, text: DigitText): (len: int)
    ensures 1 <= len <= Cap(kind)
    ensures 1 <= DigitsValue(text) <= Cap(kind) ==> len == DigitsValue(text)
    ensures DigitsValue(text) > Cap(kind) ==> len == Cap(kind)
    ensures DigitsValue(text) == 0 ==> len == 1
  {
    var n := NumberOf(text, "1");
    var atLeastOne := if n < 1 then 1 else n;
    if atLeastOne > Cap(kind) then Cap(kind) else atLeastOne
  }

  /** `Math.min(cap, Math.max(0, parseInt(length || '0', 10)))`: the auto length,
      where 0 means "connect only, no read". */
  function AutoLength(kind: Kind, text: DigitText): (len: int)
    ensures 0 <= len <= Cap(kind)
    ensures DigitsValue(text) <= Cap(kind) ==> len == DigitsValue(text)
    ensures DigitsValue(text) > Cap(kind) ==> len == Cap(kind)
    ensures len == 0 <==> DigitsValue(text) == 0
  {
    var n := NumberOf(text, "0");
    var atLeastZero := if n < 0 then 0 else n;
    if atLeastZero > Cap(kind) then Cap(kind) else atLeastZero
  }

  // ---------------------------------------------------------------- requests

  /** `api.readX({ ...parseId(deviceId), address, length })`. */
  datatype ReadRequest = ReadRequest(kind: Kind, device: IdUtils.ParsedId, address: int, length: int)

  /** `api.writeCoil({ ...parseId(deviceId), address, state })`. */
  datatype CoilWrite = CoilWrite(device: IdUtils.ParsedId, address: int, state: bool)

  /** `api.writeRegister({ ...parseId(deviceId), address, value })`. */
  datatype RegisterWrite = RegisterWrite(device: IdUtils.ParsedId, address: int, value: int)

  /** The payload as the main process's schema sees it. */
  function ReadPayloadOf(r: ReadRequest): IpcSchemas.ReadPayload {
    IpcSchemas.ReadPayload(Some(r.device.host), Some(r.device.port), Some(r.device.unitId),
                           Some(Finite(r.address)), Some(Finite(r.length)))
  }

  function RegisterPayloadOf(w: RegisterWrite): IpcSchemas.WriteRegisterPayload {
    IpcSchemas.WriteRegisterPayload(Some(w.device.host), Some(w.device.port), Some(w.device.unitId),
                                    Some(Finite(w.address)), Some(Finite(w.value)))
  }

  function CoilPayloadOf(w: CoilWrite): IpcSchemas.WriteCoilPayload {
    IpcSchemas.WriteCoilPayload(Some(w.device.host), Some(w.device.port), Some(w.device.unitId),
                                Some(Finite(w.address)), Some(w.state))
  }

  /** The notice a failed manual poll reports. */
  function PollFailure(kind: Kind, cause: string): Notice {
    match kind
    case Coils => CoilPollFailed(cause)
    case DiscreteInputs => InputPollFailed(cause)
    case InputRegisters => InputRegisterPollFailed(cause)
    case HoldingRegisters => HoldingRegisterPollFailed(cause)
  }

  /** `Math.max(0, Math.min(0xffff, isNaN(n) ? 0 : n))` with
      `n = parseInt(text || '0', 10)`: the value the save button writes. */
  function SaveValue(text: string): (v: int)
    ensures 0 <= v <= IpcSchemas.MaxRegisterValue
    ensures ToNumber(text) == NaN ==> v == 0
    ensures ToNumber(text).Finite? && 0 <= ToNumber(text).value <= 0xffff ==> v == ToNumber(text).value
  {
    var n := ParseInt(if text == "" then "0" else text);
    assert DigitsValue("0") == 0 by { assert "0"[..0] == ""; }
    var m := if n.NaN? then 0 else n.value;
    if m > 0xffff then 0xffff else if m < 0 then 0 else m
  }

  /** The text a save parses: the pending edit for element i if there is one,
      else the shown value (`aoEdits?.[i] ?? String(v)`). */
  function SaveText(edits: Option<map<nat, string>>, i: nat, shown: int): string {
    if edits.Some? && i in edits.value then edits.value[i] else IntToString(shown)
  }

  /** Saving an untouched element writes back the value shown, when it is a
      register value. */
  lemma SaveUntouchedWritesShown(edits: Option<map<nat, string>>, i: nat, shown: int)
    requires edits.None? || i !in edits.value
    requires 0 <= shown <= 0xffff
    ensures SaveValue(SaveText(edits, i, shown)) == shown
  {
    IntToStringRoundTrip(shown);
  }

  /** Saving an element whose edit is digit text writes its value, capped at 0xffff;
      an emptied field writes 0. */
  lemma SaveEditedDigits(edits: map<nat, string>, i: nat, shown: int)
    requires i in edits && AllDigits(edits[i])
    ensures var v := SaveValue(SaveText(Some(edits), i, shown));
      v == if DigitsValue(edits[i]) > 0xffff then 0xffff else DigitsValue(edits[i])
  {
  }

  /** `next[i] = ...` on a copy of the array: only element i changes; past the
      end the copy is left as it was (see README). */
  function SetAt(values: seq<int>, i: nat, v: int): (r: seq<int>)
    ensures |r| == |values|
    ensures forall k | 0 <= k < |r| && k != i :: r[k] == values[k]
    ensures i < |values| ==> r[i] == v
  {
    if i < |values| then values[i := v] else values
  }

  // ---------------------------------------------------------------- the effect's flags

  /** One run of the auto-poll effect: created when the effect starts, and
      cancelled by its cleanup. */
  class PollTask {
    var alive: bool
    var running: bool
    const periodMs: int

    /** The effect body: `alive = true`, `running = false`, interval of
        `max(200, rateMs)`. */
    constructor (rateMs: int)
      ensures alive && !running && periodMs == Period(rateMs)
    {
      alive := true;
      running := false;
      periodMs := Period(rateMs);
    }

    /** `if (!alive || running) return; running = true`. */
    method TryStart() returns (started: bool)
      modifies this
      ensures started <==> old(alive) && !old(running)
      ensures alive == old(alive)
      ensures running == (old(running) || started)
    {
      if !alive || running {
        return false;
      }
      running := true;
      return true;
    }

    /** The `finally` of a cycle. */
    method Finish()
      modifies this
      ensures !running && alive == old(alive)
    {
      running := false;
    }

    /** The cleanup: `alive = false` (the interval is cleared with it). */
    method Cancel()
      modifies this
      ensures !alive && running == old(running)
    {
      alive := false;
    }
  }

  /** What a started auto cycle does after the guard: nothing (skipped, or no
      api), only the swallowed connect (length 0), or connect and then read. */
  datatype Tick = Skipped | NoApi | ConnectOnly(device: IdUtils.ParsedId) | ConnectThenRead(device: IdUtils.ParsedId, read: ReadRequest)

  // ---------------------------------------------------------------- a panel

  /** One panel instance; React keeps it when the selection moves to another
      device, so only `deviceId` follows the switch. */
  class Panel {
    const kind: Kind
    var deviceId: string
    var addressText: DigitText
    var lengthText: DigitText
    /** The published array (`coils`, `inputs`, `ais`, `aos`); null before the first read. */
    var values: Option<seq<int>>
    /** The manual poll's busy flag. */
    var polling: bool
    /** `aoEdits` of AnalogOutputs: pending texts by element; null until the first edit. */
    var edits: Option<map<nat, string>>
    /** Every `onError` call made so far, in order. */
    var reports: seq<Notice>

    constructor (kind: Kind, deviceId: string)
      ensures this.kind == kind && this.deviceId == deviceId
      ensures addressText == DefaultAddress && lengthText == DefaultLength(kind)
      ensures values == None && !polling && edits == None && reports == []
    {
      this.kind := kind;
      this.deviceId := deviceId;
      addressText := DefaultAddress;
      lengthText := DefaultLength(kind);
      values := None;
      polling := false;
      edits := None;
      reports := [];
    }

    /** The selection moves to another device. The panel is rendered without a
        `key`, so React keeps this instance: the new id replaces the old one and
        the texts, the array, the busy flag and the pending edits carry over. */
    method SwitchDevice(id: string)
      modifies this
      ensures deviceId == id
      ensures addressText == old(addressText) && lengthText == old(lengthText)
      ensures values == old(values) && polling == old(polling)
      ensures edits == old(edits) && reports == old(reports)
    {
      deviceId := id;
    }

    /** The address field's `onChange`: only digits are kept. */
    method EditAddress(raw: string)
      modifies this
      ensures deviceId == old(deviceId)
      ensures addressText == KeepDigits(raw)
      ensures lengthText == old(lengthText) && values == old(values) && polling == old(polling)
      ensures edits == old(edits) && reports == old(reports)
    {
      addressText := KeepDigits(raw);
    }

    /** The length field's `onChange`: only digits are kept. */
    method EditLength(raw: string)
      modifies this
      ensures deviceId == old(deviceId)
      ensures lengthText == KeepDigits(raw)
      ensures addressText == old(addressText) && values == old(values) && polling == old(polling)
      ensures edits == old(edits) && reports == old(reports)
    {
      lengthText := KeepDigits(raw);
    }

    /** The manual poll up to the read: without the api the discrete-input
        panel reports that polling is unavailable and the other panels return
        silently; otherwise the busy flag is set and the clamped read issued. */
    method BeginManualPoll(apiAvailable: bool) returns (request: Option<ReadRequest>)
      modifies this
      ensures deviceId == old(deviceId)
      ensures addressText == old(addressText) && lengthText == old(lengthText)
      ensures values == old(values) && edits == old(edits)
      ensures !apiAvailable ==>
        request == None && polling == old(polling) &&
        reports == old(reports) + (if kind == DiscreteInputs then [PollingUnavailable] else [])
      ensures apiAvailable ==>
        polling && reports == old(reports) &&
        request == Some(ReadRequest(kind, IdUtils.ParseId(deviceId), Address(addressText), ManualLength(kind, lengthText)))
    {
      if !apiAvailable {
        if kind == DiscreteInputs {
          reports := reports + [PollingUnavailable];
        }
        return None;
      }
      var addr := Address(addressText);
      var len := ManualLength(kind, lengthText);
      polling := true;
      var params := IdUtils.ParseId(deviceId);
      return Some(ReadRequest(kind, params, addr, len));
    }

    /** The manual poll's reply: the data replaces the array, or the failure is
        reported and the array kept; the busy flag is cleared either way. */
    method CompleteManualPoll(reply: Result<seq<int>, string>)
      modifies this
      ensures deviceId == old(deviceId)
      ensures !polling
      ensures addressText == old(addressText) && lengthText == old(lengthText) && edits == old(edits)
      ensures reply.Success? ==> values == Some(reply.value) && reports == old(reports)
      ensures reply.Failure? ==> values == old(values) && reports == old(reports) + [PollFailure(kind, reply.error)]
    {
      if reply.Success? {
        values := Some(reply.value);
      } else {
        reports := reports + [PollFailure(kind, reply.error)];
      }
      polling := false;
    }

    /** An auto tick up to its first await. A tick that the guard lets through
        and that finds no api ends at once, its `finally` clearing `running`. */
    method BeginAutoCycle(task: PollTask, apiAvailable: bool) returns (tick: Tick)
      modifies task
      ensures task.alive == old(task.alive)
      ensures !old(task.alive) || old(task.running) ==> tick == Skipped && task.running == old(task.running)
      ensures old(task.alive) && !old(task.running) && !apiAvailable ==> tick == NoApi && !task.running
      ensures old(task.alive) && !old(task.running) && apiAvailable ==>
        task.running &&
        var device := IdUtils.ParseId(deviceId);
        tick == if AutoLength(kind, lengthText) == 0 then ConnectOnly(device)
                else ConnectThenRead(device, ReadRequest(kind, device, Address(addressText), AutoLength(kind, lengthText)))
    {
      var started := task.TryStart();
      if !started {
        return Skipped;
      }
      if !apiAvailable {
        task.Finish();
        return NoApi;
      }
      var params := IdUtils.ParseId(deviceId);
      // the connect's outcome is swallowed: it does not decide anything below
      var addr := Address(addressText);
      var len := AutoLength(kind, lengthText);
      if len > 0 {
        return ConnectThenRead(params, ReadRequest(kind, params, addr, len));
      }
      return ConnectOnly(params);
    }

    /** The end of a started auto cycle. A read's data is published only while
        the task is alive; a failed read is swallowed. `running` is cleared. */
    method CompleteAutoCycle(task: PollTask, reply: Option<Result<seq<int>, string>>)
      modifies this, task
      ensures deviceId == old(deviceId)
      ensures !task.running && task.alive == old(task.alive)
      ensures values == if old(task.alive) && reply.Some? && reply.value.Success? then Some(reply.value.value) else old(values)
      ensures reports == old(reports) && polling == old(polling) && edits == old(edits)
      ensures addressText == old(addressText) && lengthText == old(lengthText)
    {
      if reply.Some? && reply.value.Success? && task.alive {
        values := Some(reply.value.value);
      }
      task.Finish();
    }

    /** A coil switch up to `writeCoil`: element i is written at `base + i`
        with `base = max(0, address)`. Without the api nothing happens. */
    method BeginCoilWrite(i: nat, checked: bool, apiAvailable: bool) returns (request: Option<CoilWrite>)
      requires kind == Coils
      ensures !apiAvailable ==> request == None
      ensures apiAvailable ==> request == Some(CoilWrite(IdUtils.ParseId(deviceId), Address(addressText) + i, checked))
    {
      if !apiAvailable {
        return None;
      }
      var params := IdUtils.ParseId(deviceId);
      var base := Address(addressText);
      return Some(CoilWrite(params, base + i, checked));
    }

    /** The coil write's reply: on success only element i becomes 1 or 0 (a
        null array stays null); on failure the error is reported. */
    method CompleteCoilWrite(i: nat, checked: bool, reply: Result<bool, string>)
      requires kind == Coils
      modifies this
      ensures deviceId == old(deviceId)
      ensures addressText == old(addressText) && lengthText == old(lengthText)
      ensures polling == old(polling) && edits == old(edits)
      ensures reply.Success? ==>
        reports == old(reports) &&
        values == if old(values).None? then None else Some(SetAt(old(values).value, i, if checked then 1 else 0))
      ensures reply.Failure? ==> values == old(values) && reports == old(reports) + [CoilWriteFailed(reply.error)]
    {
      if reply.Failure? {
        reports := reports + [CoilWriteFailed(reply.error)];
        return;
      }
      if values.Some? {
        values := Some(SetAt(values.value, i, if checked then 1 else 0));
      }
    }

    /** An analog output field's `onChange`: element i's pending text becomes
        the digits of the input; the other pending texts are kept. */
    method EditOutput(i: nat, raw: string)
      requires kind == HoldingRegisters && values.Some? && i < |values.value|
      modifies this
      ensures deviceId == old(deviceId)
      ensures edits == Some(old(edits).GetOr(map[])[i := KeepDigits(raw)])
      ensures values == old(values) && reports == old(reports) && polling == old(polling)
      ensures addressText == old(addressText) && lengthText == old(lengthText)
    {
      var s := KeepDigits(raw);
      var next := if edits.Some? then edits.value else map[];
      edits := Some(next[i := s]);
    }

    /** The save button of element i, rendered with its current value `shown`,
        up to `writeRegister`: the parsed, clamped value is written at `base + i`. */
    method BeginSave(i: nat, shown: int, apiAvailable: bool) returns (request: Option<RegisterWrite>)
      requires kind == HoldingRegisters && values.Some? && i < |values.value| && shown == values.value[i]
      ensures !apiAvailable ==> request == None
      ensures apiAvailable ==> request == Some(RegisterWrite(IdUtils.ParseId(deviceId), Address(addressText) + i,
                                                             SaveValue(SaveText(edits, i, shown))))
      ensures request.Some? ==> 0 <= request.value.value <= 0xffff
    {
      if !apiAvailable {
        return None;
      }
      var base := Address(addressText);
      var addr := base + i;
      var safe := SaveValue(SaveText(edits, i, shown));
      var params := IdUtils.ParseId(deviceId);
      return Some(RegisterWrite(params, addr, safe));
    }

    /** The save's reply: on success element i of the array (unless null) and
        its pending text take the written value; on failure the error is reported. */
    method CompleteSave(i: nat, safe: int, reply: Result<bool, string>)
      requires kind == HoldingRegisters
      modifies this
      ensures deviceId == old(deviceId)
      ensures addressText == old(addressText) && lengthText == old(lengthText) && polling == old(polling)
      ensures reply.Success? ==>
        reports == old(reports) &&
        values == (if old(values).None? then None else Some(SetAt(old(values).value, i, safe))) &&
        edits == Some(old(edits).GetOr(map[])[i := IntToString(safe)])
      ensures reply.Failure? ==>
        values == old(values) && edits == old(edits) &&
        reports == old(reports) + [RegisterWriteFailed(reply.error)]
    {
      if reply.Failure? {
        reports := reports + [RegisterWriteFailed(reply.error)];
        return;
      }
      if values.Some? {
        values := Some(SetAt(values.value, i, safe));
      }
      var next := if edits.Some? then edits.value else map[];
      edits := Some(next[i := IntToString(safe)]);
    }
  }

  // ---------------------------------------------------------------- the requests reach the pool

  /** For a device id built by `keyOf` from a host without ':', every read a
      panel issues (manual or auto) passes the read schema and addresses that
      device's pool entry. Register lengths stay at or below 125 although the
      schema would take up to 200. */
  lemma PanelReadsPassSchema(kind: Kind, host: string, port: int, unitId: int,
                             addressText: DigitText, lengthText: DigitText, manual: bool)
    requires ':' !in host
    ensures var device := IdUtils.ParseId(ModbusService.KeyOf(host, port, unitId));
      var len := if manual then ManualLength(kind, lengthText) else AutoLength(kind, lengthText);
      var parsed := IpcSchemas.ParseRead(ReadPayloadOf(ReadRequest(kind, device, Address(addressText), len)));
      (len > 0 ==>
        parsed.Success? &&
        parsed.value.endpoint == IpcSchemas.Endpoint(host, port, unitId) &&
        parsed.value.endpoint.Target().Key() == ModbusService.KeyOf(host, port, unitId)) &&
      ((kind == InputRegisters || kind == HoldingRegisters) ==> len <= 125)
  {
    IdUtils.ParseKeyOf(host, port, unitId);
  }

  /** Every save request passes the register-write schema. */
  lemma SaveRequestPassesSchema(host: string, port: int, unitId: int, addressText: DigitText,
                                i: nat, edits: Option<map<nat, string>>, shown: int)
    requires ':' !in host
    ensures var device := IdUtils.ParseId(ModbusService.KeyOf(host, port, unitId));
      var w := RegisterWrite(device, Address(addressText) + i, SaveValue(SaveText(edits, i, shown)));
      IpcSchemas.ParseWriteRegister(RegisterPayloadOf(w)).Success?
  {
    IdUtils.ParseKeyOf(host, port, unitId);
  }

  /** Every coil write passes the coil-write schema. */
  lemma CoilWritePassesSchema(host: string, port: int, unitId: int, addressText: DigitText, i: nat, checked: bool)
    requires ':' !in host
    ensures var device := IdUtils.ParseId(ModbusService.KeyOf(host, port, unitId));
      IpcSchemas.ParseWriteCoil(CoilPayloadOf(CoilWrite(device, Address(addressText) + i, checked))).Success?
  {
    IdUtils.ParseKeyOf(host, port, unitId);
  }

  // ---------------------------------------------------------------- consequences

  /** What callers can conclude from the contracts alone about a device
      switch: a manual read begun for the old device lands in the new device's
      panel, since the manual path has no `alive` test. */
  method ManualReplyAfterSwitch(p: Panel, next: string, data: seq<int>)
    modifies p
  {
    var request := p.BeginManualPoll(true);
    p.SwitchDevice(next);
    p.CompleteManualPoll(Success(data));
    assert p.deviceId == next && p.values == Some(data);
  }

  /** An analog-output edit typed for the old device is written to the new
      one by its Save button. */
  method PendingEditAfterSwitch(p: Panel, next: string, i: nat, raw: string)
    requires p.kind == HoldingRegisters && p.values.Some? && i < |p.values.value|
    modifies p
  {
    p.EditOutput(i, raw);
    p.SwitchDevice(next);
    var request := p.BeginSave(i, p.values.value[i], true);
    assert request.value.device == IdUtils.ParseId(next);
    assert request.value.value == SaveValue(KeepDigits(raw));
  }

  /** What callers can conclude from the contracts alone: a tick while a cycle
      runs is skipped; a reply that arrives after cleanup is dropped; a failed
      auto read leaves the array and reports nothing. */
  method AutoPollScenarios(p: Panel, data: seq<int>)
    modifies p
  {
    var task := new PollTask(50);
    assert task.periodMs == 200;
    var first := p.BeginAutoCycle(task, true);
    assert task.running;
    var second := p.BeginAutoCycle(task, true);
    assert second == Skipped;
    var before := p.values;
    task.Cancel();
    p.CompleteAutoCycle(task, Some(Success(data)));
    assert p.values == before && !task.running;
    var third := p.BeginAutoCycle(task, true);
    assert third == Skipped;

    var next := new PollTask(1500);
    var reports := p.reports;
    var tick := p.BeginAutoCycle(next, true);
    p.CompleteAutoCycle(next, Some(Failure("timeout")));
    assert p.values == before && p.reports == reports && !next.running;
  }
}
