/** The renderer's device-id helpers: `parseId` takes a `host:port:unitId` id
    apart again, `addrLabel` renders a register address. */
module IdUtils {
  import opened Wrappers
  import opened JsBuiltins
  import ModbusService

  /** What `parseId` returns; port and unit id are whatever `Number` makes of
      their fields. */
  datatype ParsedId = ParsedId(host: string, port: JsNumber, unitId: JsNumber)

  /** `parts[k]`, `undefined` past the end. */
  function Field(parts: seq<string>, k: nat): Option<string> {
    if k < |parts| then Some(parts[k]) else None
  }

  /** `Number(f || d)`: a missing or empty field gives the default. */
  function NumberOr(f: Option<string>, d: int): (r: JsNumber)
    ensures (f.None? || f.value == "") ==> r == Finite(d)
  {
    if f.None? || f.value == "" then Finite(d) else ToNumber(f.value)
  }

  /** `parseId`: split on ':' and take the first three fields, with port 502 and
      unit 1 for missing or empty fields. */
  function ParseId(id: string): ParsedId {
    var parts := Split(id, ':');
    ParsedId(parts[0], NumberOr(Field(parts, 1), 502), NumberOr(Field(parts, 2), 1))
  }

  /** The host is the text before the first ':' (all of the id when there is
      none), and an id without ':' gets port 502 and unit id 1. */
  lemma ParseIdFields(id: string)
    ensures ':' !in ParseId(id).host
    ensures |ParseId(id).host| <= |id| && ParseId(id).host == id[..|ParseId(id).host|]
    ensures |ParseId(id).host| < |id| ==> id[|ParseId(id).host|] == ':'
    ensures ':' !in id ==> ParseId(id) == ParsedId(id, Finite(502), Finite(1))
  {
  }

  /** `parseId` is a left inverse of `keyOf` for hosts without ':'. */
  lemma ParseKeyOf(host: string, port: int, unitId: int)
    requires ':' !in host
    ensures ParseId(ModbusService.KeyOf(host, port, unitId)) == ParsedId(host, Finite(port), Finite(unitId))
  {
    var p, u := IntToString(port), IntToString(unitId);
    IntToStringHasNoSeparator(port);
    IntToStringHasNoSeparator(unitId);
    IntToStringRoundTrip(port);
    IntToStringRoundTrip(unitId);
    JoinOfThree(host, p, u);
    SplitJoin([host, p, u], ':');
  }

  lemma JoinOfThree(a: string, b: string, c: string)
    ensures Join([a, b, c], ':') == a + ":" + b + ":" + c
  {
    assert Join([c], ':') == c;
    assert [b, c][1..] == [c];
    assert Join([b, c], ':') == b + ":" + c;
    assert [a, b, c][1..] == [b, c];
  }

  /** Two separator-free fields at the front split off as the first two parts. */
  lemma SplitTwoFields(a: string, b: string, tail: string)
    requires ':' !in a && ':' !in b
    ensures Split(a + ":" + b + ":" + tail, ':') == [a, b] + Split(tail, ':')
  {
    assert a + ":" + b + ":" + tail == a + [':'] + (b + [':'] + tail);
    SplitAtFirst(a, ':', b + [':'] + tail);
    SplitAtFirst(b, ':', tail);
  }

  /** Fields after the third are ignored: for any id with at least three
      fields, appending another ':' and more text does not change the result. */
  lemma ExtraFieldsIgnored(a: string, b: string, c: string, extra: string)
    requires ':' !in a && ':' !in b && ':' !in c
    ensures ParseId(a + ":" + b + ":" + c + ":" + extra) == ParseId(a + ":" + b + ":" + c)
  {
    assert a + ":" + b + ":" + c + ":" + extra == a + ":" + b + ":" + (c + [':'] + extra);
    SplitTwoFields(a, b, c + [':'] + extra);
    SplitAtFirst(c, ':', extra);
    SplitTwoFields(a, b, c);
  }

  /** An empty port or unit field falls back to its default. */
  lemma EmptyFieldsDefault(host: string)
    requires ':' !in host
    ensures ParseId(host + "::") == ParsedId(host, Finite(502), Finite(1))
    ensures ParseId(host + ":") == ParsedId(host, Finite(502), Finite(1))
  {
    JoinOfThree(host, "", "");
    assert host + "::" == host + ":" + "" + ":" + "";
    SplitJoin([host, "", ""], ':');
    assert Join([host, ""], ':') == host + ":" by {
      assert [host, ""][1..] == [""];
      assert Join([""], ':') == "";
    }
    SplitJoin([host, ""], ':');
  }

  /** A host of the form `a::b` (an IPv6 address) loses everything after its
      first ':': the empty field becomes the port, so the port is 502 whatever
      was given, and `b` becomes the unit id. */
  lemma DoubleColonHost(a: string, b: string, port: int, unitId: int)
    requires ':' !in a && ':' !in b
    ensures ParseId(ModbusService.KeyOf(a + "::" + b, port, unitId)) == ParsedId(a, Finite(502), NumberOr(Some(b), 1))
  {
    DoubleColonFields(a, b, IntToString(port), IntToString(unitId));
  }

  /** The first three fields of `a::b:p:u` are `a`, the empty field and `b`. */
  lemma DoubleColonFields(a: string, b: string, p: string, u: string)
    requires ':' !in a && ':' !in b
    ensures var parts := Split(a + "::" + b + ":" + p + ":" + u, ':');
      |parts| >= 3 && parts[0] == a && parts[1] == "" && parts[2] == b
  {
    var rest := p + ":" + u;
    assert a + "::" + b + ":" + p + ":" + u == a + ":" + "" + ":" + (b + [':'] + rest) by {
      assert "::" == ":" + "" + ":";
    }
    SplitTwoFields(a, "", b + [':'] + rest);
    SplitAtFirst(b, ':', rest);
  }

  /** The round trip needs its precondition: the key of host `fe80::1` parses
      as host `fe80`. */
  lemma Ipv6HostDoesNotRoundTrip()
    ensures ParseId(ModbusService.KeyOf("fe80::1", 502, 1)) == ParsedId("fe80", Finite(502), Finite(1))
  {
    assert "fe80::1" == "fe80" + "::" + "1";
    DoubleColonHost("fe80", "1", 502, 1);
    assert ToNumber("1") == Finite(1) by {
      assert "1"[..0] == "";
    }
  }

  /** `addrLabel(base, offset)`: the decimal rendering of `base + offset`. */
  function AddrLabel(base: int, offset: int): (text: string)
    ensures ParseInt(text) == Finite(base + offset)
  {
    IntToStringRoundTrip(base + offset);
    IntToString(base + offset)
  }
}
