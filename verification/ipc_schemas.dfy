/** The main process's zod schemas as validators: each payload field is either
    absent (`undefined`) or present, numbers may be NaN, and a validator returns
    the parsed parameters with defaults applied, or rejects the payload. */
module IpcSchemas {
  import opened Wrappers
  import opened JsBuiltins
  import ModbusService

  /** The schema's `parse` threw a ZodError; which issues it lists is not modelled. */
  datatype ValidationError = Rejected

  /** Host, port and unit id after validation, defaults applied. */
  datatype Endpoint = Endpoint(host: string, port: int, unitId: int) {
    /** The manager's argument: every field present. */
    function Target(): ModbusService.Target {
      ModbusService.Target(host, Some(port), Some(unitId))
    }
  }

  datatype ConnectPayload = ConnectPayload(host: Option<string>, port: Option<JsNumber>, unitId: Option<JsNumber>)
  datatype ReadPayload = ReadPayload(host: Option<string>, port: Option<JsNumber>, unitId: Option<JsNumber>,
                                     address: Option<JsNumber>, length: Option<JsNumber>)
  datatype WriteCoilPayload = WriteCoilPayload(host: Option<string>, port: Option<JsNumber>, unitId: Option<JsNumber>,
                                               address: Option<JsNumber>, state: Option<bool>)
  datatype WriteRegisterPayload = WriteRegisterPayload(host: Option<string>, port: Option<JsNumber>, unitId: Option<JsNumber>,
                                                       address: Option<JsNumber>, value: Option<JsNumber>)
  datatype DiscoveryPayload = DiscoveryPayload(timeoutMs: Option<JsNumber>)

  datatype ReadParams = ReadParams(endpoint: Endpoint, address: int, length: int)
  datatype WriteCoilParams = WriteCoilParams(endpoint: Endpoint, address: int, state: bool)
  datatype WriteRegisterParams = WriteRegisterParams(endpoint: Endpoint, address: int, value: int)

  const MaxReadLength: int := 200
  const MaxRegisterValue: int := 0xffff
  const DefaultScanTimeoutMs: int := 500

  // ---------------------------------------------------------------- field rules

  /** `z.string()` / `z.boolean()`: the field must be present. */
  function Required<T>(f: Option<T>): Result<T, ValidationError> {
    match f
    case Some(v) => Success(v)
    case None => Failure(Rejected)
  }

  /** `z.number()`: present and not NaN. */
  function RequiredNumber(f: Option<JsNumber>): Result<int, ValidationError> {
    match f
    case Some(Finite(n)) => Success(n)
    case _ => Failure(Rejected)
  }

  /** `z.number().default(d)`: absent gives `d`; NaN is rejected. */
  function NumberOrDefault(f: Option<JsNumber>, d: int): Result<int, ValidationError> {
    match f
    case None => Success(d)
    case Some(Finite(n)) => Success(n)
    case Some(NaN) => Failure(Rejected)
  }

  /** Whether a number field is acceptable to `z.number().default(d)`, and its value then. */
  predicate NumberOk(f: Option<JsNumber>) {
    f.None? || f.value.Finite?
  }

  function NumberValue(f: Option<JsNumber>, d: int): int {
    if f.Some? && f.value.Finite? then f.value.value else d
  }

  /** `host`, `port` (default 502) and `unitId` (default 1, no range check). */
  function ParseEndpoint(host: Option<string>, port: Option<JsNumber>, unitId: Option<JsNumber>): (r: Result<Endpoint, ValidationError>)
    ensures r.Success? <==> host.Some? && NumberOk(port) && NumberOk(unitId)
    ensures r.Success? ==> r.value == Endpoint(host.value, NumberValue(port, 502), NumberValue(unitId, 1))
  {
    var h :- Required(host);
    var p :- NumberOrDefault(port, ModbusService.DefaultPort);
    var u :- NumberOrDefault(unitId, ModbusService.DefaultUnitId);
    Success(Endpoint(h, p, u))
  }

  // ---------------------------------------------------------------- schemas

  /** `ConnectSchema`: the unit id, given or defaulted to 1, must lie in [1, 247];
      the port has no range. */
  function ParseConnect(p: ConnectPayload): (r: Result<Endpoint, ValidationError>)
    ensures r.Success? <==>
      p.host.Some? && NumberOk(p.port) && NumberOk(p.unitId) && 1 <= NumberValue(p.unitId, 1) <= 247
    ensures r.Success? ==>
      r.value == Endpoint(p.host.value, NumberValue(p.port, 502), NumberValue(p.unitId, 1)) &&
      1 <= r.value.unitId <= 247
  {
    var e :- ParseEndpoint(p.host, p.port, p.unitId);
    if 1 <= e.unitId <= 247 then Success(e) else Failure(Rejected)
  }

  /** `ReadSchema`, shared by all four reads: address at least 0, length in
      (0, 200], registers included; the unit id is not range-checked. */
  function ParseRead(p: ReadPayload): (r: Result<ReadParams, ValidationError>)
    ensures r.Success? <==>
      p.host.Some? && NumberOk(p.port) && NumberOk(p.unitId) &&
      p.address.Some? && p.address.value.Finite? && p.address.value.value >= 0 &&
      p.length.Some? && p.length.value.Finite? && 0 < p.length.value.value <= MaxReadLength
    ensures r.Success? ==>
      r.value.endpoint == Endpoint(p.host.value, NumberValue(p.port, 502), NumberValue(p.unitId, 1)) &&
      r.value.address == p.address.value.value && r.value.length == p.length.value.value
  {
    var e :- ParseEndpoint(p.host, p.port, p.unitId);
    var address :- RequiredNumber(p.address);
    var length :- RequiredNumber(p.length);
    if address >= 0 && 0 < length <= MaxReadLength then Success(ReadParams(e, address, length))
    else Failure(Rejected)
  }

  /** `WriteCoilSchema`: address at least 0 and a boolean state. */
  function ParseWriteCoil(p: WriteCoilPayload): (r: Result<WriteCoilParams, ValidationError>)
    ensures r.Success? <==>
      p.host.Some? && NumberOk(p.port) && NumberOk(p.unitId) &&
      p.address.Some? && p.address.value.Finite? && p.address.value.value >= 0 && p.state.Some?
    ensures r.Success? ==>
      r.value == WriteCoilParams(Endpoint(p.host.value, NumberValue(p.port, 502), NumberValue(p.unitId, 1)),
                                 p.address.value.value, p.state.value)
  {
    var e :- ParseEndpoint(p.host, p.port, p.unitId);
    var address :- RequiredNumber(p.address);
    var state :- Required(p.state);
    if address >= 0 then Success(WriteCoilParams(e, address, state)) else Failure(Rejected)
  }

  /** `WriteRegSchema`: address at least 0 and an integer value in [0, 0xffff]. */
  function ParseWriteRegister(p: WriteRegisterPayload): (r: Result<WriteRegisterParams, ValidationError>)
    ensures r.Success? <==>
      p.host.Some? && NumberOk(p.port) && NumberOk(p.unitId) &&
      p.address.Some? && p.address.value.Finite? && p.address.value.value >= 0 &&
      p.value.Some? && p.value.value.Finite? && 0 <= p.value.value.value <= MaxRegisterValue
    ensures r.Success? ==>
      r.value == WriteRegisterParams(Endpoint(p.host.value, NumberValue(p.port, 502), NumberValue(p.unitId, 1)),
                                     p.address.value.value, p.value.value.value)
  {
    var e :- ParseEndpoint(p.host, p.port, p.unitId);
    var address :- RequiredNumber(p.address);
    var value :- RequiredNumber(p.value);
    if address >= 0 && 0 <= value <= MaxRegisterValue then Success(WriteRegisterParams(e, address, value))
    else Failure(Rejected)
  }

  /** `DiscoverySchema.parse(payload ?? {})`: the timeout, given or defaulted to
      500 ms, must lie in [100, 5000]. */
  function ParseDiscovery(payload: Option<DiscoveryPayload>): (r: Result<int, ValidationError>)
    ensures payload.None? ==> r == Success(DefaultScanTimeoutMs)
    ensures payload.Some? ==>
      (r.Success? <==> NumberOk(payload.value.timeoutMs) && 100 <= NumberValue(payload.value.timeoutMs, 500) <= 5000)
    ensures r.Success? ==> 100 <= r.value <= 5000
    ensures r.Success? && payload.Some? ==> r.value == NumberValue(payload.value.timeoutMs, 500)
  {
    var p := payload.GetOr(DiscoveryPayload(None));
    var t :- NumberOrDefault(p.timeoutMs, DefaultScanTimeoutMs);
    if 100 <= t <= 5000 then Success(t) else Failure(Rejected)
  }

  // ---------------------------------------------------------------- boundary cases

  /** Length 200 is the largest accepted read; 201 is rejected before any
      network activity, and so is length 0. */
  lemma ReadLengthBoundary(host: string, address: nat)
    ensures ParseRead(ReadPayload(Some(host), None, None, Some(Finite(address)), Some(Finite(200)))).Success?
    ensures ParseRead(ReadPayload(Some(host), None, None, Some(Finite(address)), Some(Finite(201)))).Failure?
    ensures ParseRead(ReadPayload(Some(host), None, None, Some(Finite(address)), Some(Finite(0)))).Failure?
  {
  }

  /** 0xffff is the largest register value accepted; 0x10000 is rejected. */
  lemma WriteRegisterValueBoundary(host: string, address: nat)
    ensures ParseWriteRegister(WriteRegisterPayload(Some(host), None, None, Some(Finite(address)), Some(Finite(65535)))).Success?
    ensures ParseWriteRegister(WriteRegisterPayload(Some(host), None, None, Some(Finite(address)), Some(Finite(65536)))).Failure?
  {
  }
}
