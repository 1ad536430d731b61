/** The main process's connection pool: `keyOf` and `ModbusManager`.
    The `modbus-serial` client is not modelled; a dial and each transport request
    are oracles passed in as parameters. */
module ModbusService {
  import opened Wrappers
  import opened JsBuiltins

  const DefaultPort: int := 502
  const DefaultUnitId: int := 1

  /** The default port renders as "502". */
  lemma DefaultPortText()
    ensures IntToString(DefaultPort) == "502"
  {
    assert NatToString(5) == "5";
    assert NatToString(50) == "50";
  }

  /** `host:port:unitId`, the pool key of one logical device. */
  function KeyOf(host: string, port: int, unitId: int): string {
    host + ":" + IntToString(port) + ":" + IntToString(unitId)
  }

  /** Keys are equal exactly when the triples are: numbers are rendered without ':',
      so the last two fields can be read back from the right whatever the host. */
  lemma KeyOfInjective(h1: string, p1: int, u1: int, h2: string, p2: int, u2: int)
    ensures KeyOf(h1, p1, u1) == KeyOf(h2, p2, u2) <==> (h1, p1, u1) == (h2, p2, u2)
  {
    if KeyOf(h1, p1, u1) == KeyOf(h2, p2, u2) {
      IntToStringHasNoSeparator(p1);
      IntToStringHasNoSeparator(p2);
      IntToStringHasNoSeparator(u1);
      IntToStringHasNoSeparator(u2);
      LastSeparatorSplits(h1 + ":" + IntToString(p1), IntToString(u1), h2 + ":" + IntToString(p2), IntToString(u2), ':');
      LastSeparatorSplits(h1, IntToString(p1), h2, IntToString(p2), ':');
      IntToStringInjective(p1, p2);
      IntToStringInjective(u1, u2);
    }
  }

  /** Host, port and unit id as the manager's methods receive them; an absent
      port or unit id takes the destructuring default (502, 1). */
  datatype Target = Target(host: string, port: Option<int>, unitId: Option<int>) {
    function Port(): int { port.GetOr(DefaultPort) }
    function UnitId(): int { unitId.GetOr(DefaultUnitId) }
    function Key(): string { KeyOf(host, Port(), UnitId()) }
  }

  /** A dialled `modbus-serial` client: the endpoint it was opened to and the
      unit id that `setID` bound it to. */
  datatype Session = Session(host: string, port: int, unitId: int)

  /** How a dial ends: the connect callback without error, the callback with an
      error, or the 4000 ms timer firing first. */
  datatype DialOutcome = Opened | DialFailed(cause: string) | TimedOut

  /** Why `connect` rejects: 'Connection timeout', or the dial's own error. */
  datatype ConnError = Timeout | Refused(cause: string)

  /** Why a read or write rejects: 'Not connected' from `getClient`, or the
      transport's error. */
  datatype OpError = NotConnected | TransportFailure(cause: string)

  /** `r.data.map((b) => (b ? 1 : 0))`. */
  function BitsToInts(bits: seq<bool>): (r: seq<int>)
    ensures |r| == |bits|
    ensures forall i | 0 <= i < |r| :: r[i] == (if bits[i] then 1 else 0)
  {
    seq(|bits|, i requires 0 <= i < |bits| => if bits[i] then 1 else 0)
  }

  /** Every session is stored under the key of the endpoint it was opened to. */
  ghost predicate WellKeyed(clients: map<string, Session>) {
    forall k | k in clients :: k == KeyOf(clients[k].host, clients[k].port, clients[k].unitId)
  }

  class ModbusManager {
    /** `clients`: the pool, one session per key. */
    var clients: map<string, Session>
    /** Keys dialled so far, in order (instrumentation: one entry per `new ModbusRTU()`). */
    ghost var dials: seq<string>

    ghost predicate Valid()
      reads this
    {
      WellKeyed(clients)
    }

    constructor ()
      ensures Valid() && clients == map[] && dials == []
    {
      clients := map[];
      dials := [];
    }

    /** `connect`: reuse the session under the key, or dial one and insert it
        after the dial succeeds. A failed dial leaves the pool as it was. */
    method Connect(target: Target, dial: (string, int) -> DialOutcome) returns (r: Result<string, ConnError>)
      requires Valid()
      modifies this
      ensures Valid()
      ensures target.Key() in old(clients) ==>
        r == Success(target.Key()) && clients == old(clients) && dials == old(dials)
      ensures target.Key() !in old(clients) ==>
        dials == old(dials) + [target.Key()] &&
        match dial(target.host, target.Port())
        case Opened =>
          r == Success(target.Key()) &&
          clients == old(clients)[target.Key() := Session(target.host, target.Port(), target.UnitId())]
        case DialFailed(cause) => r == Failure(Refused(cause)) && clients == old(clients)
        case TimedOut => r == Failure(Timeout) && clients == old(clients)
    {
      var key := KeyOf(target.host, target.Port(), target.UnitId());
      if key !in clients {
        dials := dials + [key];
        var outcome := dial(target.host, target.Port());
        match outcome
        case TimedOut =>
          return Failure(Timeout);
        case DialFailed(cause) =>
          return Failure(Refused(cause));
        case Opened =>
          var client := Session(target.host, target.Port(), target.UnitId());
          clients := clients[key := client];
      }
      return Success(key);
    }

    /** `getClient`: the session under the target's key, or 'Not connected'. */
    function GetClient(target: Target): (r: Result<Session, OpError>)
      reads this
      ensures r.Success? <==> target.Key() in clients
      ensures r.Success? ==> r.value == clients[target.Key()]
      ensures r.Failure? ==> r.error == NotConnected
    {
      var key := KeyOf(target.host, target.Port(), target.UnitId());
      if key in clients then Success(clients[key]) else Failure(NotConnected)
    }

    /** In a well-keyed pool, the session found for a target was opened to that
        target's endpoint with its unit id. */
    lemma ClientMatchesTarget(target: Target)
      requires Valid()
      requires GetClient(target).Success?
      ensures GetClient(target).value == Session(target.host, target.Port(), target.UnitId())
    {
      var s := clients[target.Key()];
      KeyOfInjective(s.host, s.port, s.unitId, target.host, target.Port(), target.UnitId());
    }

    /** `readCoils`: the transport's bits as 0/1. */
    method ReadCoils(target: Target, address: int, length: int,
                     transport: (Session, int, int) -> Result<seq<bool>, string>)
      returns (r: Result<seq<int>, OpError>)
      ensures target.Key() !in clients ==> r == Failure(NotConnected)
      ensures target.Key() in clients ==>
        var reply := transport(clients[target.Key()], address, length);
        (reply.Failure? ==> r == Failure(TransportFailure(reply.error))) &&
        (reply.Success? ==> r.Success? && r.value == BitsToInts(reply.value))
    {
      var c :- GetClient(target);
      var reply := transport(c, address, length);
      if reply.Failure? {
        return Failure(TransportFailure(reply.error));
      }
      return Success(BitsToInts(reply.value));
    }

    /** `readDiscreteInputs`: the transport's bits as 0/1. */
    method ReadDiscreteInputs(target: Target, address: int, length: int,
                              transport: (Session, int, int) -> Result<seq<bool>, string>)
      returns (r: Result<seq<int>, OpError>)
      ensures target.Key() !in clients ==> r == Failure(NotConnected)
      ensures target.Key() in clients ==>
        var reply := transport(clients[target.Key()], address, length);
        (reply.Failure? ==> r == Failure(TransportFailure(reply.error))) &&
        (reply.Success? ==> r.Success? && r.value == BitsToInts(reply.value))
    {
      var c :- GetClient(target);
      var reply := transport(c, address, length);
      if reply.Failure? {
        return Failure(TransportFailure(reply.error));
      }
      return Success(BitsToInts(reply.value));
    }

    /** `readHoldingRegisters`: the transport's data unchanged. */
    method ReadHoldingRegisters(target: Target, address: int, length: int,
                                transport: (Session, int, int) -> Result<seq<int>, string>)
      returns (r: Result<seq<int>, OpError>)
      ensures target.Key() !in clients ==> r == Failure(NotConnected)
      ensures target.Key() in clients ==>
        var reply := transport(clients[target.Key()], address, length);
        (reply.Failure? ==> r == Failure(TransportFailure(reply.error))) &&
        (reply.Success? ==> r == Success(reply.value))
    {
      var c :- GetClient(target);
      var reply := transport(c, address, length);
      if reply.Failure? {
        return Failure(TransportFailure(reply.error));
      }
      return Success(reply.value);
    }

    /** `readInputRegisters`: the transport's data unchanged. */
    method ReadInputRegisters(target: Target, address: int, length: int,
                              transport: (Session, int, int) -> Result<seq<int>, string>)
      returns (r: Result<seq<int>, OpError>)
      ensures target.Key() !in clients ==> r == Failure(NotConnected)
      ensures target.Key() in clients ==>
        var reply := transport(clients[target.Key()], address, length);
        (reply.Failure? ==> r == Failure(TransportFailure(reply.error))) &&
        (reply.Success? ==> r == Success(reply.value))
    {
      var c :- GetClient(target);
      var reply := transport(c, address, length);
      if reply.Failure? {
        return Failure(TransportFailure(reply.error));
      }
      return Success(reply.value);
    }

    /** `writeCoil`: true once the transport accepts the write. */
    method WriteCoil(target: Target, address: int, state: bool,
                     transport: (Session, int, bool) -> Result<(), string>)
      returns (r: Result<bool, OpError>)
      ensures target.Key() !in clients ==> r == Failure(NotConnected)
      ensures target.Key() in clients ==>
        var reply := transport(clients[target.Key()], address, state);
        (reply.Failure? ==> r == Failure(TransportFailure(reply.error))) &&
        (reply.Success? ==> r == Success(true))
    {
      var c :- GetClient(target);
      var reply := transport(c, address, state);
      if reply.Failure? {
        return Failure(TransportFailure(reply.error));
      }
      return Success(true);
    }

    /** `writeRegister`: true once the transport accepts the write. */
    method WriteRegister(target: Target, address: int, value: int,
                         transport: (Session, int, int) -> Result<(), string>)
      returns (r: Result<bool, OpError>)
      ensures target.Key() !in clients ==> r == Failure(NotConnected)
      ensures target.Key() in clients ==>
        var reply := transport(clients[target.Key()], address, value);
        (reply.Failure? ==> r == Failure(TransportFailure(reply.error))) &&
        (reply.Success? ==> r == Success(true))
    {
      var c :- GetClient(target);
      var reply := transport(c, address, value);
      if reply.Failure? {
        return Failure(TransportFailure(reply.error));
      }
      return Success(true);
    }
  }

  /** What callers can conclude from the contracts alone: a second `connect` to
      the same endpoint neither dials nor changes the pool, and a read after a
      successful connect reaches the transport instead of failing 'Not connected'. */
  method ConnectTwiceDialsOnce(dial: (string, int) -> DialOutcome,
                               transport: (Session, int, int) -> Result<seq<int>, string>)
  {
    var m := new ModbusManager();
    var t := Target("10.0.0.7", None, Some(3));
    var first := m.Connect(t, dial);
    var poolAfterFirst, dialsAfterFirst := m.clients, m.dials;
    if first.Success? {
      var second := m.Connect(t, dial);
      assert second == Success(KeyOf("10.0.0.7", 502, 3));
      assert m.clients == poolAfterFirst && m.dials == dialsAfterFirst && |m.dials| == 1;
      var data := m.ReadHoldingRegisters(t, 0, 1, transport);
      assert data != Failure(NotConnected);
    }
  }
}
