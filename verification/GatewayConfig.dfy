/** Which endpoints of a configuration the pool manages, and which of them are checked as pure gateways. */
module GatewayConfig {
  import opened Text
  import opened Collections

  type Endpoint = string

  datatype Device = Device(id: string, deviceType: int, protocol: string, serialNumber: string, gatewayIP: string,
                           gatewayPort: nat)

  datatype Target = Target(key: Endpoint, deviceIDs: seq<string>)

  const PURE_GATEWAY := 1

  predicate IsManaged(protocol: string) {
    Uppercase(Trim(protocol)) in {"MODBUS", "MODBUSRTU", "MODBUS_RTU", "MODBUSTCP", "MODBUS_TCP"}
  }

  /** The address, with an IPv6 literal in brackets. */
  function JoinHostPort(host: string, port: nat): string {
    (if ':' in host then "[" + host + "]" else host) + ":" + Decimal(port)
  }

  predicate Addressed(d: Device) {
    Trim(d.gatewayIP) != "" && d.gatewayPort > 0
  }

  function EndpointOf(d: Device): Endpoint {
    JoinHostPort(Trim(d.gatewayIP), d.gatewayPort)
  }

  /** A device whose endpoint is checked. */
  predicate Gateway(d: Device) {
    d.deviceType == PURE_GATEWAY && IsManaged(d.protocol) && Addressed(d)
  }

  /** A device whose endpoint has a pool entry. */
  predicate Pooled(d: Device) {
    IsManaged(d.protocol) && Trim(d.serialNumber) != "" && Addressed(d)
  }

  // ---------------------------------------------------------------- an endpoint is a host and a port

  lemma ColonAt(a: string, p: string, k: nat)
    requires ':' !in p && k < |a + ":" + p|
    ensures (a + ":" + p)[k] == ':' ==> k <= |a|
  {
  }

  lemma SplitLast(a: string, p: string, b: string, q: string)
    requires a + ":" + p == b + ":" + q && ':' !in p && ':' !in q
    ensures a == b && p == q
  {
    var s := a + ":" + p;
    assert s == b + ":" + q;
    assert s[|a|] == ':' && s[|b|] == ':';
    ColonAt(a, p, |b|);
    ColonAt(b, q, |a|);
    assert s[..|a|] == a && s[..|b|] == b;
    assert s[|a| + 1..] == p && s[|b| + 1..] == q;
  }

  /** Different hosts or ports have different endpoints. */
  lemma EndpointIdentifies(host: string, port: nat, otherHost: string, otherPort: nat)
    requires JoinHostPort(host, port) == JoinHostPort(otherHost, otherPort)
    ensures host == otherHost && port == otherPort
  {
    var a := if ':' in host then "[" + host + "]" else host;
    var b := if ':' in otherHost then "[" + otherHost + "]" else otherHost;
    SplitLast(a, Decimal(port), b, Decimal(otherPort));
    DecimalIdentifies(port, otherPort);
    assert ':' in host ==> ':' in a && a[1..|a| - 1] == host;
    assert ':' in otherHost ==> ':' in b && b[1..|b| - 1] == otherHost;
  }

  // ---------------------------------------------------------------- targets

  /** The endpoints of gateway devices, in order of first appearance. */
  function Keys(ds: seq<Device>): seq<Endpoint> {
    if ds == [] then []
    else
      var d, before := ds[|ds| - 1], Keys(ds[..|ds| - 1]);
      if Gateway(d) && EndpointOf(d) !in before then before + [EndpointOf(d)] else before
  }

  /** The IDs of one endpoint's gateway devices, in order of first appearance. */
  function IDs(ds: seq<Device>, key: Endpoint): seq<string> {
    if ds == [] then []
    else
      var d, before := ds[|ds| - 1], IDs(ds[..|ds| - 1], key);
      if Gateway(d) && EndpointOf(d) == key && Trim(d.id) != "" && Trim(d.id) !in before then before + [Trim(d.id)]
        else before
  }

  function TargetsFor(ds: seq<Device>, keys: seq<Endpoint>): seq<Target> {
    if keys == [] then []
    else
      var key := keys[|keys| - 1];
      TargetsFor(ds, keys[..|keys| - 1]) + if IDs(ds, key) == [] then [] else [Target(key, IDs(ds, key))]
  }

  function Targets(ds: seq<Device>): seq<Target> {
    TargetsFor(ds, Keys(ds))
  }

  function Gateways(ds: seq<Device>): set<Endpoint> {
    set d | d in ds && Pooled(d) :: EndpointOf(d)
  }

  /** One target per endpoint, none without IDs, no ID twice. */
  predicate WellFormed(targets: seq<Target>) {
    && (forall i, j | 0 <= i < j < |targets| :: targets[i].key != targets[j].key)
    && (forall i | 0 <= i < |targets| :: targets[i].deviceIDs != [] && Distinct(targets[i].deviceIDs))
  }

  lemma {:induction false} KeysExact(ds: seq<Device>)
    ensures Distinct(Keys(ds))
    ensures forall k :: k in Keys(ds) <==> exists i | 0 <= i < |ds| :: Gateway(ds[i]) && EndpointOf(ds[i]) == k
  {
    hide Gateway, EndpointOf;
    if ds != [] {
      var last := |ds| - 1;
      KeysExact(ds[..last]);
      forall k
        ensures k in Keys(ds) <==> exists i | 0 <= i < |ds| :: Gateway(ds[i]) && EndpointOf(ds[i]) == k
      {
        if i :| 0 <= i < |ds| && Gateway(ds[i]) && EndpointOf(ds[i]) == k {
          if i < last {
            assert ds[..last][i] == ds[i];
          }
        }
      }
    }
  }

  lemma {:induction false} IDsExact(ds: seq<Device>, key: Endpoint)
    ensures Distinct(IDs(ds, key))
    ensures forall id :: id in IDs(ds, key) <==>
      id != "" && exists i | 0 <= i < |ds| :: Gateway(ds[i]) && EndpointOf(ds[i]) == key && Trim(ds[i].id) == id
  {
    hide Gateway, EndpointOf, Trim;
    if ds != [] {
      var last := |ds| - 1;
      IDsExact(ds[..last], key);
      forall id
        ensures id in IDs(ds, key) <==>
          id != "" && exists i | 0 <= i < |ds| :: Gateway(ds[i]) && EndpointOf(ds[i]) == key && Trim(ds[i].id) == id
      {
        if i :| 0 <= i < |ds| && Gateway(ds[i]) && EndpointOf(ds[i]) == key && Trim(ds[i].id) == id {
          if i < last {
            assert ds[..last][i] == ds[i];
          }
        }
      }
    }
  }

  lemma {:induction false} TargetsExact(ds: seq<Device>, keys: seq<Endpoint>)
    requires Distinct(keys)
    ensures WellFormed(TargetsFor(ds, keys))
    ensures forall t :: t in TargetsFor(ds, keys) <==> t.key in keys && t.deviceIDs == IDs(ds, t.key) != []
  {
    hide IDs;
    if keys != [] {
      var last := |keys| - 1;
      TargetsExact(ds, keys[..last]);
      IDsExact(ds, keys[last]);
      assert keys == keys[..last] + [keys[last]];
      var before := TargetsFor(ds, keys[..last]);
      forall i | 0 <= i < |before|
        ensures before[i].key != keys[last]
      {
        assert before[i] in before;
      }
    }
  }

  /** The checked endpoints: a device ID belongs to an endpoint's target exactly when a pure gateway device of a
      managed protocol with that trimmed, non-empty ID has that endpoint; each ID and each endpoint once. */
  lemma TargetsMean(ds: seq<Device>, key: Endpoint, id: string)
    ensures WellFormed(Targets(ds))
    ensures (exists t | t in Targets(ds) :: t.key == key && id in t.deviceIDs) <==>
      id != "" && exists i | 0 <= i < |ds| :: Gateway(ds[i]) && EndpointOf(ds[i]) == key && Trim(ds[i].id) == id
  {
    hide Gateway, EndpointOf, Trim, Keys, IDs, TargetsFor;
    KeysExact(ds);
    TargetsExact(ds, Keys(ds));
    IDsExact(ds, key);
    if id in IDs(ds, key) {
      assert Target(key, IDs(ds, key)) in Targets(ds);
    }
  }

  /** Every checked endpoint can keep a connection in the pool exactly when some managed device on it has a
      serial number; a checked endpoint without one is never reported online by a dial. */
  lemma EveryTargetPooledIff(ds: seq<Device>)
    ensures (forall t | t in Targets(ds) :: t.key in Gateways(ds)) <==>
      forall i | 0 <= i < |ds| && Gateway(ds[i]) && Trim(ds[i].id) != "" ::
        exists j | 0 <= j < |ds| :: Pooled(ds[j]) && EndpointOf(ds[j]) == EndpointOf(ds[i])
  {
    hide Gateway, EndpointOf, Trim, Keys, IDs, TargetsFor, Pooled;
    KeysExact(ds);
    TargetsExact(ds, Keys(ds));
    forall k
      ensures IDs(ds, k) != [] <==>
        exists i | 0 <= i < |ds| :: Gateway(ds[i]) && Trim(ds[i].id) != "" && EndpointOf(ds[i]) == k
    {
      IDsExact(ds, k);
      if IDs(ds, k) != [] {
        assert IDs(ds, k)[0] in IDs(ds, k);
      }
      forall i | 0 <= i < |ds| && Gateway(ds[i]) && Trim(ds[i].id) != "" && EndpointOf(ds[i]) == k
        ensures Trim(ds[i].id) in IDs(ds, k)
      {
      }
    }
    if forall t | t in Targets(ds) :: t.key in Gateways(ds) {
      forall i | 0 <= i < |ds| && Gateway(ds[i]) && Trim(ds[i].id) != ""
        ensures exists j | 0 <= j < |ds| :: Pooled(ds[j]) && EndpointOf(ds[j]) == EndpointOf(ds[i])
      {
        var k := EndpointOf(ds[i]);
        assert Target(k, IDs(ds, k)) in Targets(ds);
        PooledAt(ds, k);
      }
    } else {
      var t :| t in Targets(ds) && t.key !in Gateways(ds);
      assert IDs(ds, t.key) != [];
      PooledAt(ds, t.key);
    }
  }

  /** A gateway device without a serial number: its endpoint is checked, but has no pool entry. */
  lemma UnserialledGateway(d: Device)
    requires d == Device("g", PURE_GATEWAY, "modbus", "", "h", 502)
    ensures Gateway(d) && Trim(d.id) != "" && !Pooled(d)
    ensures Target(EndpointOf(d), ["g"]) in Targets([d]) && EndpointOf(d) !in Gateways([d])
  {
    PlainName("g");
    PlainName("h");
    PlainName("modbus");
    assert Uppercase("modbus") == "MODBUS";
    assert [d][..0] == [] && Keys([d]) == [EndpointOf(d)] && IDs([d], EndpointOf(d)) == ["g"];
    assert [EndpointOf(d)][..0] == [];
    PooledAt([d], EndpointOf(d));
  }

  lemma PooledAt(ds: seq<Device>, k: Endpoint)
    ensures k in Gateways(ds) <==> exists j | 0 <= j < |ds| :: Pooled(ds[j]) && EndpointOf(ds[j]) == k
  {
    hide Pooled, EndpointOf;
  }

  // ---------------------------------------------------------------- the loops that collect them

  lemma Starts()
    ensures Keys([]) == [] && TargetsFor([], []) == []
    ensures forall k :: IDs([], k) == []
    ensures forall ds :: TargetsFor(ds, []) == []
  {
  }

  /** One more device: the endpoint it adds, and the IDs of the endpoint it belongs to. */
  lemma Grows(before: seq<Device>, d: Device)
    ensures Keys(before + [d]) ==
      if Gateway(d) && EndpointOf(d) !in Keys(before) then Keys(before) + [EndpointOf(d)] else Keys(before)
    ensures forall k | !Gateway(d) || EndpointOf(d) != k :: IDs(before + [d], k) == IDs(before, k)
    ensures Gateway(d) ==> IDs(before + [d], EndpointOf(d)) == Added(IDs(before, EndpointOf(d)), Trim(d.id))
  {
    hide Gateway, EndpointOf, Trim;
    assert (before + [d])[..|before|] == before;
  }

  function Added(ids: seq<string>, id: string): seq<string> {
    if id != "" && id !in ids then ids + [id] else ids
  }

  lemma OneMore(ds: seq<Device>, keys: seq<Endpoint>, i: nat)
    requires i < |keys|
    ensures TargetsFor(ds, keys[..i + 1]) ==
      TargetsFor(ds, keys[..i]) + if IDs(ds, keys[i]) == [] then [] else [Target(keys[i], IDs(ds, keys[i]))]
  {
    hide IDs;
    assert keys[..i + 1][..i] == keys[..i];
  }

  datatype Group = Group(ids: seq<string>, seen: set<string>)

  /** The groups hold exactly the IDs found so far. */
  ghost predicate Grouped(ds: seq<Device>, groups: map<Endpoint, Group>, order: seq<Endpoint>) {
    && order == Keys(ds)
    && (forall k :: k in groups <==> k in order)
    && (forall k | k in groups :: groups[k].ids == IDs(ds, k))
    && (forall k | k in groups :: forall id :: id in groups[k].seen <==> id in groups[k].ids)
    && (forall k | k !in groups :: IDs(ds, k) == [])
  }

  method AddID(group: Group, id: string) returns (larger: Group)
    requires forall x :: x in group.seen <==> x in group.ids
    ensures larger.ids == Added(group.ids, id)
    ensures forall x :: x in larger.seen <==> x in larger.ids
  {
    if id == "" || id in group.seen {
      return group;
    }
    larger := Group(group.ids + [id], group.seen + {id});
  }

  method AddDevice(groups: map<Endpoint, Group>, order: seq<Endpoint>, dev: Device, ghost before: seq<Device>)
    returns (newGroups: map<Endpoint, Group>, newOrder: seq<Endpoint>)
    requires Grouped(before, groups, order)
    ensures Grouped(before + [dev], newGroups, newOrder)
  {
    hide Gateway, EndpointOf, Trim, Keys, IDs, Added;
    Grows(before, dev);
    newGroups, newOrder := groups, order;
    if !Gateway(dev) {
      return;
    }
    var key := EndpointOf(dev);
    var group := Group([], {});
    if key in groups {
      group := groups[key];
    } else {
      newOrder := newOrder + [key];
    }
    group := AddID(group, Trim(dev.id));
    newGroups := newGroups[key := group];
  }

  method BuildGatewayTargets(ds: seq<Device>) returns (result: seq<Target>)
    ensures result == Targets(ds)
  {
    hide Keys, IDs, TargetsFor;
    Starts();
    var groups: map<Endpoint, Group>, order: seq<Endpoint> := map[], [];
    for i := 0 to |ds|
      invariant Grouped(ds[..i], groups, order)
    {
      assert ds[..i + 1] == ds[..i] + [ds[i]];
      groups, order := AddDevice(groups, order, ds[i], ds[..i]);
    }
    assert ds[..|ds|] == ds;
    result := [];
    for i := 0 to |order|
      invariant result == TargetsFor(ds, order[..i])
    {
      OneMore(ds, order, i);
      var ids := groups[order[i]].ids;
      if |ids| > 0 {
        result := result + [Target(order[i], ids)];
      }
    }
    assert order[..|order|] == order;
  }

  method CollectGateways(ds: seq<Device>) returns (gateways: set<Endpoint>)
    ensures gateways == Gateways(ds)
  {
    hide Trim, IsManaged, JoinHostPort;
    gateways := {};
    for i := 0 to |ds|
      invariant gateways == Gateways(ds[..i])
    {
      assert ds[..i + 1] == ds[..i] + [ds[i]];
      if Pooled(ds[i]) {
        gateways := gateways + {EndpointOf(ds[i])};
      }
    }
    assert ds[..|ds|] == ds;
  }
}
