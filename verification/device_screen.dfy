/** The selected device's screen: its `host:port` caption, the name and
    polling-rate inputs, the Connect button and the online check that runs
    while auto polling is on. */
module DeviceScreen {
  import opened Wrappers
  import opened JsBuiltins
  import ModbusService
  import IdUtils
  import opened Notices
  import Polling

  /** `${host}:${port}` of `parseId(device.id)`. */
  function HostPort(id: string): string {
    var p := IdUtils.ParseId(id);
    p.host + ":" + NumberToString(p.port)
  }

  /** For an id built by `keyOf` from a host without ':', the caption is the
      host and port it was built from. */
  lemma HostPortOfKey(host: string, port: int, unitId: int)
    requires ':' !in host
    ensures HostPort(ModbusService.KeyOf(host, port, unitId)) == host + ":" + IntToString(port)
  {
    IdUtils.ParseKeyOf(host, port, unitId);
  }

  /** An id without ':' shows the default port. */
  lemma HostPortDefault(host: string)
    requires ':' !in host
    ensures HostPort(host) == host + ":502"
  {
    ModbusService.DefaultPortText();
    assert HostPort(host) == host + ":" + "502";
    assert ":" + "502" == ":502";
  }

  /** The rate handed to `onChangeRateMs` for the raw text of the rate input:
      the digits' value, or 1000 when there are none or they read as 0. */
  function RateFromInput(raw: string): (ms: int)
    ensures ms > 0
    ensures DigitsValue(KeepDigits(raw)) == 0 ==> ms == 1000
    ensures DigitsValue(KeepDigits(raw)) > 0 ==> ms == DigitsValue(KeepDigits(raw))
  {
    var v := KeepDigits(raw);
    var n := ParseInt(if v == "" then "0" else v);
    assert DigitsValue("0") == 0 by { assert "0"[..0] == ""; }
    if n.NaN? || n.value <= 0 then 1000 else n.value
  }

  /** `nameDraft.trim() || undefined`: the trimmed draft, or no name when the
      draft is blank. */
  function SavedName(draft: string): (name: Option<string>)
    ensures name.None? <==> forall i | 0 <= i < |draft| :: IsSpace(draft[i])
    ensures name.Some? ==> name.value == Trim(draft) && name.value != ""
    ensures name.Some? ==> !IsSpace(name.value[0]) && !IsSpace(name.value[|name.value| - 1])
  {
    TrimEnds(draft);
    var t := Trim(draft);
    if t == "" then None else Some(t)
  }

  /** What a started online check does after the guard. */
  datatype OnlineTick = Skipped | NoApi | Check(device: IdUtils.ParsedId, read: Polling.ReadRequest)

  /** The screen of the selected device. The App renders it without a `key`,
      so one instance serves every device the selection moves to. */
  class Screen {
    var deviceId: string
    var nameDraft: string
    var rateInput: string
    var connecting: bool
    /** Every `onError` call so far; `None` is `onError(null)`, which clears the alert. */
    var reports: seq<Option<Notice>>

    /** The screen for a device: the draft starts from its name (or empty) and
        the rate field from its rate. */
    constructor (deviceId: string, name: Option<string>, rateMs: int)
      ensures this.deviceId == deviceId && nameDraft == name.GetOr("") && rateInput == IntToString(rateMs)
      ensures !connecting && reports == []
    {
      this.deviceId := deviceId;
      nameDraft := name.GetOr("");
      rateInput := IntToString(rateMs);
      connecting := false;
      reports := [];
    }

    /** The selection moves to another device: the effects on `[device.id]`
        and `[device.id, rateMs]` reset the name draft and the rate field to the
        new device's values, while `connecting` and the reports carry over. */
    method SwitchDevice(id: string, name: Option<string>, rateMs: int)
      modifies this
      ensures deviceId == id && nameDraft == name.GetOr("") && rateInput == IntToString(rateMs)
      ensures connecting == old(connecting) && reports == old(reports)
    {
      deviceId := id;
      nameDraft := name.GetOr("");
      rateInput := IntToString(rateMs);
    }

    /** The rate field's `onChange`: the field keeps the digits, and the rate
        passed on is always positive. */
    method EditRate(raw: string) returns (ms: int)
      modifies this
      ensures deviceId == old(deviceId)
      ensures rateInput == KeepDigits(raw) && ms == RateFromInput(raw)
      ensures nameDraft == old(nameDraft) && connecting == old(connecting) && reports == old(reports)
    {
      rateInput := KeepDigits(raw);
      ms := RateFromInput(raw);
    }

    /** The effect on `[device.id, rateMs]`: whenever the rate the screen is
        given changes (also when it changes because of this screen's own
        edit), the field is rewritten as that rate's decimal text. */
    method OnRateChanged(rateMs: int)
      modifies this
      ensures deviceId == old(deviceId)
      ensures rateInput == IntToString(rateMs)
      ensures nameDraft == old(nameDraft) && connecting == old(connecting) && reports == old(reports)
    {
      rateInput := IntToString(rateMs);
    }

    /** `connectSelected` up to `api.connect`: without the api an error is
        reported and nothing connects; otherwise the busy flag is set and the
        alert cleared before connecting. */
    method BeginConnect(apiAvailable: bool) returns (request: Option<IdUtils.ParsedId>)
      modifies this
      ensures deviceId == old(deviceId)
      ensures nameDraft == old(nameDraft) && rateInput == old(rateInput)
      ensures !apiAvailable ==>
        request == None && connecting == old(connecting) && reports == old(reports) + [Some(ConnectUnavailable)]
      ensures apiAvailable ==>
        request == Some(IdUtils.ParseId(deviceId)) && connecting && reports == old(reports) + [None]
    {
      if !apiAvailable {
        reports := reports + [Some(ConnectUnavailable)];
        return None;
      }
      connecting := true;
      reports := reports + [None];
      return Some(IdUtils.ParseId(deviceId));
    }

    /** The connect's reply: a failure is reported; the busy flag is cleared. */
    method CompleteConnect(reply: Result<string, string>)
      modifies this
      ensures deviceId == old(deviceId)
      ensures !connecting && nameDraft == old(nameDraft) && rateInput == old(rateInput)
      ensures reply.Success? ==> reports == old(reports)
      ensures reply.Failure? ==> reports == old(reports) + [Some(ConnectFailed(reply.error))]
    {
      if reply.Failure? {
        reports := reports + [Some(ConnectFailed(reply.error))];
      }
      connecting := false;
    }

    /** An online-check tick up to its first await: the guard as in the data
        panels, then a swallowed connect and a one-register read at address 0. */
    method BeginOnlineCheck(task: Polling.PollTask, apiAvailable: bool) returns (tick: OnlineTick)
      modifies task
      ensures task.alive == old(task.alive)
      ensures !old(task.alive) || old(task.running) ==> tick == Skipped && task.running == old(task.running)
      ensures old(task.alive) && !old(task.running) && !apiAvailable ==> tick == NoApi && !task.running
      ensures old(task.alive) && !old(task.running) && apiAvailable ==>
        var device := IdUtils.ParseId(deviceId);
        task.running && tick == Check(device, Polling.ReadRequest(Polling.HoldingRegisters, device, 0, 1))
    {
      var started := task.TryStart();
      if !started {
        return Skipped;
      }
      if !apiAvailable {
        task.Finish();
        return NoApi;
      }
      var params := IdUtils.ParseId(deviceId);
      return Check(params, Polling.ReadRequest(Polling.HoldingRegisters, params, 0, 1));
    }

    /** The read's reply: `onUpdateOnline` gets true exactly for a non-empty
        array and false for a failure. Unlike the data panels this does not
        test `alive`, so a reply after cleanup is still published. */
    method CompleteOnlineCheck(task: Polling.PollTask, reply: Result<seq<int>, string>) returns (online: bool)
      modifies task
      ensures online <==> reply.Success? && |reply.value| > 0
      ensures !task.running && task.alive == old(task.alive)
    {
      if reply.Success? {
        online := |reply.value| > 0;
      } else {
        online := false;
      }
      task.Finish();
    }
  }

  /** An edit that changes the rate is followed by the effect, which rewrites
      the field: typed leading zeros disappear, and a cleared field shows the
      fallback rate of 1000. */
  method RateFieldAfterEdit(screen: Screen)
    modifies screen
  {
    TypedRates();
    RenderedRates();
    var ms := screen.EditRate("05");
    screen.OnRateChanged(ms);
    assert screen.rateInput == "5";
    ms := screen.EditRate("");
    screen.OnRateChanged(ms);
    assert screen.rateInput == "1000";
  }

  lemma TypedRates()
    ensures RateFromInput("05") == 5 && RateFromInput("") == 1000
  {
    assert KeepDigits("05") == "05" by {
      assert AllDigits("05");
    }
    assert DigitsValue("05") == 5 by {
      assert "05"[..1] == "0" && "0"[..0] == "";
    }
    assert KeepDigits("") == "";
  }

  lemma RenderedRates()
    ensures IntToString(5) == "5" && IntToString(1000) == "1000"
  {
    assert NatToString(1) == "1";
    assert NatToString(10) == "10";
    assert NatToString(100) == "100";
    assert NatToString(1000) == "1000";
  }

  /** What callers can conclude from the contracts alone: after cleanup a data
      panel drops a late reply, while the online check still publishes it. */
  method LateReplyAfterCleanup(screen: Screen, panel: Polling.Panel, data: seq<int>)
    requires |data| > 0
    modifies screen, panel
  {
    var onlineTask := new Polling.PollTask(1000);
    var panelTask := new Polling.PollTask(1000);
    var t1 := screen.BeginOnlineCheck(onlineTask, true);
    var t2 := panel.BeginAutoCycle(panelTask, true);
    onlineTask.Cancel();
    panelTask.Cancel();
    var before := panel.values;
    var online := screen.CompleteOnlineCheck(onlineTask, Success(data));
    panel.CompleteAutoCycle(panelTask, Some(Success(data)));
    assert online;
    assert panel.values == before;
  }
}
