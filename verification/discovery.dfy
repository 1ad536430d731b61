/** The `discovery:scan` handler: collect the /24 prefixes of the machine's
    external IPv4 addresses, expand each to its 254 host addresses, probe every
    host once on port 502 and keep the hosts that answered.
    The interface table and the TCP probe are inputs; the 128 concurrent
    workers are modelled as one sequential loop over the shared index. */
module Discovery {
  import opened Wrappers
  import opened JsBuiltins
  import IpcSchemas

  /** One entry of `os.networkInterfaces()`. */
  datatype Iface = Iface(family: string, internal: bool, address: string)

  /** `Object.values(os.networkInterfaces())`: one group per interface name,
      `undefined` for a name without entries. */
  type InterfaceTable = seq<Option<seq<Iface>>>

  /** A host that accepted the probe; the port is always 502. */
  datatype Hit = Hit(host: string, port: int)

  const ScanPort: int := 502
  const HostsPerSubnet: nat := 254

  // ---------------------------------------------------------------- subnets

  predicate Eligible(i: Iface) {
    i.family == "IPv4" && !i.internal
  }

  /** The eligible entries of one group, in order. */
  function EligibleOf(ifs: seq<Iface>): seq<Iface> {
    if ifs == [] then []
    else
      var last := ifs[|ifs| - 1];
      EligibleOf(ifs[..|ifs| - 1]) + (if Eligible(last) then [last] else [])
  }

  /** The eligible entries of the whole table, group after group. */
  function Eligibles(table: InterfaceTable): seq<Iface> {
    if table == [] then []
    else Eligibles(table[..|table| - 1]) + GroupEligibles(table[|table| - 1])
  }

  function GroupEligibles(group: Option<seq<Iface>>): seq<Iface> {
    if group.Some? then EligibleOf(group.value) else []
  }

  lemma {:induction false} EligibleOfMembers(ifs: seq<Iface>)
    ensures forall x :: x in EligibleOf(ifs) <==> x in ifs && Eligible(x)
  {
    if ifs != [] {
      EligibleOfMembers(ifs[..|ifs| - 1]);
      assert ifs == ifs[..|ifs| - 1] + [ifs[|ifs| - 1]];
    }
  }

  /** The entries kept are exactly the eligible entries of the table's groups. */
  lemma {:induction false} EligiblesMembers(table: InterfaceTable)
    ensures forall x :: x in Eligibles(table) <==>
      Eligible(x) && exists g | 0 <= g < |table| :: table[g].Some? && x in table[g].value
  {
    if table != [] {
      var init := table[..|table| - 1];
      EligiblesMembers(init);
      if table[|table| - 1].Some? {
        EligibleOfMembers(table[|table| - 1].value);
      }
      assert forall g | 0 <= g < |init| :: init[g] == table[g];
    }
  }

  /** `parts[k]` in a template literal: past the end it renders as "undefined". */
  function PartOr(parts: seq<string>, k: nat): string {
    if k < |parts| then parts[k] else "undefined"
  }

  /** `${parts[0]}.${parts[1]}.${parts[2]}` of the address split on '.'. */
  function Prefix(address: string): string {
    var parts := Split(address, '.');
    PartOr(parts, 0) + "." + PartOr(parts, 1) + "." + PartOr(parts, 2)
  }

  /** For a dotted quad the prefix is its first three fields (a /24 is assumed). */
  lemma PrefixOfDottedQuad(a: string, b: string, c: string, d: string)
    requires '.' !in a && '.' !in b && '.' !in c && '.' !in d
    ensures Prefix(a + "." + b + "." + c + "." + d) == a + "." + b + "." + c
  {
    var parts := [a, b, c, d];
    assert Join(parts, '.') == a + "." + b + "." + c + "." + d by {
      assert parts[1..] == [b, c, d] && parts[1..][1..] == [c, d] && parts[1..][1..][1..] == [d];
      assert Join([d], '.') == d;
      assert Join([c, d], '.') == c + "." + d;
      assert Join([b, c, d], '.') == b + "." + c + "." + d;
    }
    SplitJoin(parts, '.');
  }

  /** The prefix of each entry, in order. */
  function PrefixesOf(ifs: seq<Iface>): seq<string> {
    seq(|ifs|, k requires 0 <= k < |ifs| => Prefix(ifs[k].address))
  }

  /** `set.add(x)` on an insertion-ordered set. */
  function SetAdd(s: seq<string>, x: string): seq<string> {
    if x in s then s else s + [x]
  }

  predicate Distinct(s: seq<string>) {
    forall i, j | 0 <= i < j < |s| :: s[i] != s[j]
  }

  /** Adding the elements of `xs` one by one to an empty `Set`, as the set
      iterates afterwards: first occurrences, in order. */
  function Dedup(xs: seq<string>): seq<string> {
    if xs == [] then [] else SetAdd(Dedup(xs[..|xs| - 1]), xs[|xs| - 1])
  }

  /** The set holds each element of `xs` once, and nothing else. */
  lemma {:induction false} DedupFacts(xs: seq<string>)
    ensures Distinct(Dedup(xs))
    ensures forall x :: x in Dedup(xs) <==> x in xs
    ensures |Dedup(xs)| <= |xs|
  {
    if xs != [] {
      var init := xs[..|xs| - 1];
      DedupFacts(init);
      assert xs == init + [xs[|xs| - 1]];
    }
  }

  /** The `subnets` set after the nested loop. */
  function Subnets(table: InterfaceTable): seq<string> {
    Dedup(PrefixesOf(Eligibles(table)))
  }

  /** Every prefix comes from an eligible address, every eligible address
      contributes its prefix, and no prefix is repeated. */
  lemma SubnetsFromEligibleAddresses(table: InterfaceTable)
    ensures Distinct(Subnets(table))
    ensures forall x | x in Eligibles(table) :: Prefix(x.address) in Subnets(table)
    ensures forall p | p in Subnets(table) ::
      exists x | x in Eligibles(table) :: Prefix(x.address) == p
  {
    var e := Eligibles(table);
    var ps := PrefixesOf(e);
    DedupFacts(ps);
    forall x | x in e
      ensures Prefix(x.address) in Subnets(table)
    {
      var k :| 0 <= k < |e| && e[k] == x;
      assert ps[k] == Prefix(x.address);
    }
    forall p | p in Subnets(table)
      ensures exists x | x in e :: Prefix(x.address) == p
    {
      var k :| 0 <= k < |ps| && ps[k] == p;
      assert e[k] in e;
    }
  }

  lemma EligiblesStep(table: InterfaceTable, g: nat)
    requires g < |table|
    ensures Eligibles(table[..g + 1]) == Eligibles(table[..g]) + GroupEligibles(table[g])
  {
    assert table[..g + 1][..g] == table[..g];
  }

  lemma EligibleOfStep(ifs: seq<Iface>, j: nat)
    requires j < |ifs|
    ensures EligibleOf(ifs[..j + 1]) == EligibleOf(ifs[..j]) + (if Eligible(ifs[j]) then [ifs[j]] else [])
  {
    assert ifs[..j + 1][..j] == ifs[..j];
  }

  /** Adding one more eligible entry adds its prefix to the set. */
  lemma DedupStep(before: seq<Iface>, i: Iface)
    ensures Dedup(PrefixesOf(before + [i])) == SetAdd(Dedup(PrefixesOf(before)), Prefix(i.address))
  {
    var ps := PrefixesOf(before + [i]);
    assert ps[..|before|] == PrefixesOf(before);
  }

  /** The handler's nested loop over the interface table. */
  method CollectSubnets(table: InterfaceTable) returns (subnets: seq<string>)
    ensures subnets == Subnets(table)
  {
    subnets := [];
    var g := 0;
    ghost var kept: seq<Iface> := [];
    while g < |table|
      invariant 0 <= g <= |table|
      invariant kept == Eligibles(table[..g])
      invariant subnets == Dedup(PrefixesOf(kept))
    {
      EligiblesStep(table, g);
      if table[g].Some? {
        subnets := AddGroup(subnets, kept, table[g].value);
        kept := kept + EligibleOf(table[g].value);
      } else {
        assert Eligibles(table[..g + 1]) == kept + [];
      }
      g := g + 1;
    }
    assert table[..|table|] == table;
  }

  /** One step of the inner loop keeps the set equal to that of the entries seen. */
  lemma AddGroupStep(before: seq<Iface>, ifs: seq<Iface>, j: nat, r: seq<string>)
    requires j < |ifs|
    requires r == Dedup(PrefixesOf(before + EligibleOf(ifs[..j])))
    ensures (if Eligible(ifs[j]) then SetAdd(r, Prefix(ifs[j].address)) else r)
            == Dedup(PrefixesOf(before + EligibleOf(ifs[..j + 1])))
  {
    var e := EligibleOf(ifs[..j]);
    var seen := before + e;
    if Eligible(ifs[j]) {
      assert before + EligibleOf(ifs[..j + 1]) == seen + [ifs[j]] by {
        EligibleOfStep(ifs, j);
        assert before + (e + [ifs[j]]) == seen + [ifs[j]];
      }
      DedupStep(seen, ifs[j]);
    } else {
      assert EligibleOf(ifs[..j + 1]) == e by {
        EligibleOfStep(ifs, j);
        assert e + [] == e;
      }
    }
  }

  /** The inner loop: add the prefix of each eligible entry of one group. */
  method AddGroup(subnets: seq<string>, ghost before: seq<Iface>, ifs: seq<Iface>) returns (r: seq<string>)
    requires subnets == Dedup(PrefixesOf(before))
    ensures r == Dedup(PrefixesOf(before + EligibleOf(ifs)))
  {
    r := subnets;
    var j := 0;
    assert before + EligibleOf(ifs[..0]) == before;
    while j < |ifs|
      invariant 0 <= j <= |ifs|
      invariant r == Dedup(PrefixesOf(before + EligibleOf(ifs[..j])))
    {
      AddGroupStep(before, ifs, j, r);
      var i := ifs[j];
      if i.family == "IPv4" && !i.internal {
        r := SetAdd(r, Prefix(i.address));
      }
      j := j + 1;
    }
    assert ifs[..|ifs|] == ifs;
  }

  // ---------------------------------------------------------------- hosts

  /** `${base}.${i}` for i = 1 … 254. */
  function Block(base: string): (r: seq<string>)
    ensures |r| == HostsPerSubnet
    ensures forall k | 0 <= k < HostsPerSubnet :: r[k] == base + "." + IntToString(k + 1)
  {
    seq(HostsPerSubnet, k requires 0 <= k < HostsPerSubnet => base + "." + IntToString(k + 1))
  }

  /** The `hosts` list: the blocks of all prefixes, in set order. */
  function Hosts(subnets: seq<string>): seq<string> {
    if subnets == [] then [] else Hosts(subnets[..|subnets| - 1]) + Block(subnets[|subnets| - 1])
  }

  /** 254 hosts per prefix, and host n is prefix n / 254, dot n % 254 + 1. */
  lemma {:induction false} HostsLayout(subnets: seq<string>)
    ensures |Hosts(subnets)| == HostsPerSubnet * |subnets|
    ensures forall n | 0 <= n < |Hosts(subnets)| ::
      Hosts(subnets)[n] == subnets[n / HostsPerSubnet] + "." + IntToString(n % HostsPerSubnet + 1)
  {
    if subnets != [] {
      var init := subnets[..|subnets| - 1];
      HostsLayout(init);
      var h := Hosts(subnets);
      forall n | 0 <= n < |h|
        ensures h[n] == subnets[n / HostsPerSubnet] + "." + IntToString(n % HostsPerSubnet + 1)
      {
        if n < |Hosts(init)| {
          assert h[n] == Hosts(init)[n];
          assert subnets[n / HostsPerSubnet] == init[n / HostsPerSubnet];
        } else {
          var k := n - HostsPerSubnet * |init|;
          assert h[n] == Block(subnets[|init|])[k];
          assert n / HostsPerSubnet == |init| && n % HostsPerSubnet == k;
        }
      }
    }
  }

  /** The handler's loop that pushes every host of every prefix. */
  method ExpandHosts(subnets: seq<string>) returns (hosts: seq<string>)
    ensures hosts == Hosts(subnets)
  {
    hosts := [];
    var b := 0;
    while b < |subnets|
      invariant 0 <= b <= |subnets|
      invariant hosts == Hosts(subnets[..b])
    {
      var base := subnets[b];
      var i := 1;
      while i <= 254
        invariant 1 <= i <= 255
        invariant hosts == Hosts(subnets[..b]) + Block(base)[..i - 1]
      {
        assert Block(base)[..i] == Block(base)[..i - 1] + [base + "." + IntToString(i)];
        hosts := hosts + [base + "." + IntToString(i)];
        i := i + 1;
      }
      assert Block(base)[..254] == Block(base);
      assert subnets[..b + 1][..b] == subnets[..b];
      b := b + 1;
    }
    assert subnets[..|subnets|] == subnets;
  }

  // ---------------------------------------------------------------- probing

  /** What the socket reports first: 'connect', 'timeout' or 'error'. */
  datatype SocketEvent = Connected | TimedOut | Errored

  /** One `tryConnect` call: the `resolved` flag, whether the socket was
      destroyed, and the value the promise settled with. */
  class ProbeAttempt {
    var resolved: bool
    var destroyed: bool
    var settled: Option<bool>

    ghost predicate Valid()
      reads this
    {
      resolved == settled.Some? && destroyed == resolved
    }

    constructor ()
      ensures Valid() && !resolved && settled == None
    {
      resolved, destroyed, settled := false, false, None;
    }

    /** `done(ok)`: only the first call settles the promise and destroys the socket. */
    method Done(ok: bool)
      requires Valid()
      modifies this
      ensures Valid()
      ensures old(resolved) ==> settled == old(settled)
      ensures !old(resolved) ==> settled == Some(ok)
    {
      if !resolved {
        resolved := true;
        destroyed := true;
        settled := Some(ok);
      }
    }

    /** The listener for one socket event: 'connect' means true, the others false. */
    method OnEvent(e: SocketEvent)
      requires Valid()
      modifies this
      ensures Valid()
      ensures settled == if old(resolved) then old(settled) else Some(e == Connected)
    {
      Done(e == Connected);
    }

    /** Delivering events in order: the outcome is fixed by the first one and
        later events have no effect. */
    method Deliver(events: seq<SocketEvent>)
      requires Valid()
      modifies this
      ensures Valid()
      ensures old(resolved) || events == [] ==> settled == old(settled)
      ensures !old(resolved) && events != [] ==> settled == Some(events[0] == Connected)
    {
      var k := 0;
      while k < |events|
        invariant 0 <= k <= |events|
        invariant Valid()
        invariant old(resolved) || k == 0 ==> settled == old(settled)
        invariant !old(resolved) && k > 0 ==> settled == Some(events[0] == Connected)
      {
        OnEvent(events[k]);
        k := k + 1;
      }
    }
  }

  /** The hits a sequential drain of the queue collects: in host order, the
      hosts whose probe answered true, each with port 502. */
  function Hits(hosts: seq<string>, probe: string -> bool): (r: seq<Hit>)
    ensures |r| <= |hosts|
    ensures forall h :: h in r <==> h.port == ScanPort && h.host in hosts && probe(h.host)
  {
    if hosts == [] then []
    else
      var init := hosts[..|hosts| - 1];
      var last := hosts[|hosts| - 1];
      assert hosts == init + [last];
      Hits(init, probe) + (if probe(last) then [Hit(last, ScanPort)] else [])
  }

  /** The workers' loop: take `hosts[index++]` until the index passes the end.
      `probed` records the hosts in the order they were taken. */
  method DrainQueue(hosts: seq<string>, probe: string -> bool) returns (results: seq<Hit>, ghost probed: seq<string>)
    ensures probed == hosts
    ensures results == Hits(hosts, probe)
  {
    results := [];
    probed := [];
    var index := 0;
    while index < |hosts|
      invariant 0 <= index <= |hosts|
      invariant probed == hosts[..index]
      invariant results == Hits(hosts[..index], probe)
    {
      var host := hosts[index];
      index := index + 1;
      probed := probed + [host];
      assert hosts[..index][..index - 1] == hosts[..index - 1];
      var ok := probe(host);
      if ok {
        results := results + [Hit(host, ScanPort)];
      }
    }
    assert hosts[..|hosts|] == hosts;
  }

  /** Hosts of distinct prefixes are distinct: a host splits at its last '.'
      into its prefix and its number. */
  lemma HostsDistinct(subnets: seq<string>)
    requires Distinct(subnets)
    ensures Distinct(Hosts(subnets))
  {
    var h := Hosts(subnets);
    HostsLayout(subnets);
    forall n, m | 0 <= n < m < |h|
      ensures h[n] != h[m]
    {
      var bn, kn := n / HostsPerSubnet, n % HostsPerSubnet + 1;
      var bm, km := m / HostsPerSubnet, m % HostsPerSubnet + 1;
      if h[n] == h[m] {
        IntToStringHasNoSeparator(kn);
        IntToStringHasNoSeparator(km);
        LastSeparatorSplits(subnets[bn], IntToString(kn), subnets[bm], IntToString(km), '.');
        IntToStringInjective(kn, km);
        assert false;
      }
    }
  }

  /** When every probe answers, the hits are the hosts themselves, in order. */
  lemma {:induction false} HitsWhenAllAnswer(hosts: seq<string>, probe: string -> bool)
    requires forall k | 0 <= k < |hosts| :: probe(hosts[k])
    ensures |Hits(hosts, probe)| == |hosts|
    ensures forall k | 0 <= k < |hosts| :: Hits(hosts, probe)[k] == Hit(hosts[k], ScanPort)
  {
    if hosts != [] {
      var init := hosts[..|hosts| - 1];
      HitsWhenAllAnswer(init, probe);
      var r := Hits(hosts, probe);
      assert r == Hits(init, probe) + [Hit(hosts[|hosts| - 1], ScanPort)];
      forall k | 0 <= k < |hosts|
        ensures r[k] == Hit(hosts[k], ScanPort)
      {
        if k < |init| {
          assert r[k] == Hits(init, probe)[k];
        }
      }
    }
  }

  /** When every candidate answers, the scan reports each of the 254 hosts of
      every prefix exactly once, on port 502. */
  lemma ScanCompleteWhenAllAnswer(table: InterfaceTable, probe: string -> bool)
    requires forall h | h in Hosts(Subnets(table)) :: probe(h)
    ensures var r := Hits(Hosts(Subnets(table)), probe);
      |r| == HostsPerSubnet * |Subnets(table)| &&
      (forall i, j | 0 <= i < j < |r| :: r[i] != r[j]) &&
      (forall k | 0 <= k < |r| :: r[k] == Hit(Hosts(Subnets(table))[k], ScanPort))
  {
    var s := Subnets(table);
    var hosts := Hosts(s);
    SubnetsFromEligibleAddresses(table);
    HostsLayout(s);
    HostsDistinct(s);
    HitsWhenAllAnswer(hosts, probe);
  }

  /** The whole handler: validate the payload, then collect, expand and probe.
      `probe(host, timeoutMs)` stands for `tryConnect(host)` with the timeout
      the socket was given. */
  method Scan(payload: Option<IpcSchemas.DiscoveryPayload>, table: InterfaceTable,
              probe: (string, int) -> bool)
    returns (r: Result<seq<Hit>, IpcSchemas.ValidationError>)
    ensures IpcSchemas.ParseDiscovery(payload).Failure? ==> r.Failure?
    ensures IpcSchemas.ParseDiscovery(payload).Success? ==>
      var timeoutMs := IpcSchemas.ParseDiscovery(payload).value;
      r == Success(Hits(Hosts(Subnets(table)), host => probe(host, timeoutMs)))
  {
    var timeoutMs :- IpcSchemas.ParseDiscovery(payload);
    var subnets := CollectSubnets(table);
    var hosts := ExpandHosts(subnets);
    var results, _ := DrainQueue(hosts, host => probe(host, timeoutMs));
    return Success(results);
  }

  /** A hit is exactly a probed address `prefix.k` (1 <= k <= 254) of a collected
      prefix that answered, on port 502. */
  lemma HitsAreProbedHosts(table: InterfaceTable, probe: string -> bool, h: Hit)
    ensures h in Hits(Hosts(Subnets(table)), probe) <==>
      h.port == ScanPort && probe(h.host) &&
      exists b, k | 0 <= b < |Subnets(table)| && 1 <= k <= HostsPerSubnet ::
        h.host == Subnets(table)[b] + "." + IntToString(k)
  {
    HostsMembership(Subnets(table), h.host);
  }

  /** The hosts are exactly the addresses `prefix.k` with 1 <= k <= 254. */
  lemma HostsMembership(s: seq<string>, x: string)
    ensures x in Hosts(s) <==>
      exists b, k | 0 <= b < |s| && 1 <= k <= HostsPerSubnet :: x == s[b] + "." + IntToString(k)
  {
    if x in Hosts(s) {
      assert exists b, k | 0 <= b < |s| && 1 <= k <= HostsPerSubnet :: x == s[b] + "." + IntToString(k) by {
        var n :| 0 <= n < |Hosts(s)| && Hosts(s)[n] == x;
        HostAt(s, n);
        var b, k := n / HostsPerSubnet, n % HostsPerSubnet + 1;
        assert 0 <= b < |s| && 1 <= k <= HostsPerSubnet && x == s[b] + "." + IntToString(k);
      }
    }
    if exists b, k | 0 <= b < |s| && 1 <= k <= HostsPerSubnet :: x == s[b] + "." + IntToString(k) {
      assert x in Hosts(s) by {
        var b, k :| 0 <= b < |s| && 1 <= k <= HostsPerSubnet && x == s[b] + "." + IntToString(k);
        HostIndex(s, b, k);
      }
    }
  }

  lemma HostAt(s: seq<string>, n: nat)
    requires n < |Hosts(s)|
    ensures 0 <= n / HostsPerSubnet < |s| && 1 <= n % HostsPerSubnet + 1 <= HostsPerSubnet
    ensures Hosts(s)[n] == s[n / HostsPerSubnet] + "." + IntToString(n % HostsPerSubnet + 1)
  {
    HostsLayout(s);
  }

  lemma HostIndex(s: seq<string>, b: nat, k: nat)
    requires b < |s| && 1 <= k <= HostsPerSubnet
    ensures HostsPerSubnet * b + k - 1 < |Hosts(s)|
    ensures Hosts(s)[HostsPerSubnet * b + k - 1] == s[b] + "." + IntToString(k)
  {
    HostsLayout(s);
    var n := HostsPerSubnet * b + k - 1;
    assert n / HostsPerSubnet == b && n % HostsPerSubnet == k - 1;
  }
}
