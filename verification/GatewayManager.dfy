/** The manager object behind GatewaySystem: each method is one section under one of its locks. Pool entries
    are numbered, so that a transaction can keep one after a reload has removed it. */
module GatewayManager {
  import opened Collections
  import opened GatewayConfig
  import opened GatewayPool
  import Y = GatewaySystem

  class Manager {
    var configGeneration: nat
    var gatewayTargets: seq<Target>
    var gateways: set<Endpoint>
    var conns: map<Endpoint, nat>
    var entries: seq<Entry>
    var busy: set<Endpoint>
    var dialFailures: map<Endpoint, nat>

    ghost function Contents(): Pool
      reads this
    {
      Pool(configGeneration, gatewayTargets, gateways, conns, entries, busy, dialFailures)
    }

    ghost predicate Valid()
      reads this
    {
      Current(Contents())
    }

    constructor ()
      ensures Valid() && Contents() == Y.Start().pool
    {
      configGeneration, gatewayTargets, gateways, conns, entries, busy, dialFailures := 0, [], {}, map[], [], {}, map[];
    }

    /** The section under the configuration lock; the answer is what the second section keeps. */
    method ApplyConfig(devices: seq<Device>) returns (targetKeys: set<Endpoint>)
      requires Valid()
      modifies this
      ensures Valid()
      ensures Contents() == Reload(old(Contents()), Targets(devices), Gateways(devices))
      ensures targetKeys == KeysOf(Targets(devices))
    {
      hide Targets, Gateways, WellFormed;
      ghost var before := Contents();
      var newGateways := CollectGateways(devices);
      configGeneration := configGeneration + 1;
      CloseConns(newGateways);
      gateways := newGateways;
      gatewayTargets := BuildGatewayTargets(devices);
      TargetsMean(devices, "", "");
      ReloadCurrent(before, gatewayTargets, gateways);
      targetKeys := Keys(gatewayTargets);
    }

    method Keys(targets: seq<Target>) returns (targetKeys: set<Endpoint>)
      ensures targetKeys == KeysOf(targets)
    {
      targetKeys := {};
      for i := 0 to |targets|
        invariant targetKeys == KeysOf(targets[..i])
      {
        assert targets[..i + 1] == targets[..i] + [targets[i]];
        targetKeys := targetKeys + {targets[i].key};
      }
      assert targets[..|targets|] == targets;
    }

    /** Close every pooled connection and remove the endpoints that are gone. */
    method CloseConns(newGateways: set<Endpoint>)
      requires ConnsIn(conns, entries)
      modifies this`conns, this`entries
      ensures conns == map k | k in old(conns) && k in newGateways :: old(conns)[k]
      ensures entries == Reload(old(Contents()), [], newGateways).entries
    {
      CloseTwice();
      hide Close;
      ghost var was, had := conns, entries;
      var rest := conns.Keys;
      while rest != {}
        invariant rest <= was.Keys && |entries| == |had|
        invariant forall k :: k in conns <==> k in was && (k in rest || k in newGateways)
        invariant forall k | k in conns :: conns[k] == was[k]
        invariant forall i | 0 <= i < |had| :: entries[i] == had[i] || (entries[i] == Close(had[i]) && i in was.Values)
        invariant forall k | k in was && k !in rest :: entries[was[k]] == Close(had[was[k]])
      {
        var key := AnyOf(rest);
        var e := conns[key];
        assert e in was.Values;
        entries := entries[e := Close(entries[e])];
        if key !in newGateways {
          conns := conns - {key};
        }
        rest := rest - {key};
      }
    }

    /** The section that forgets counters of endpoints that are not targets any more. */
    method ForgetDialFailures(targetKeys: set<Endpoint>)
      modifies this`dialFailures
      ensures Contents() == Forget(old(Contents()), targetKeys)
    {
      ghost var was := dialFailures;
      var rest := dialFailures.Keys;
      while rest != {}
        invariant rest <= was.Keys
        invariant forall k :: k in dialFailures <==> k in was && (k in rest || k in targetKeys)
        invariant forall k | k in dialFailures :: dialFailures[k] == was[k]
      {
        var key := AnyOf(rest);
        if key !in targetKeys {
          dialFailures := dialFailures - {key};
        }
        rest := rest - {key};
      }
    }

    method GatewayTarget(key: Endpoint) returns (found: bool, target: Target, generation: nat)
      ensures found <==> FindFrom(gatewayTargets, key, 0) < |gatewayTargets|
      ensures found <==> IsTarget(Contents(), key)
      ensures found ==> target == gatewayTargets[FindFrom(gatewayTargets, key, 0)] && generation == configGeneration
    {
      found, target, generation := false, Target("", []), 0;
      for i := 0 to |gatewayTargets|
        invariant FindFrom(gatewayTargets, key, i) == FindFrom(gatewayTargets, key, 0)
        invariant forall j | 0 <= j < i :: gatewayTargets[j].key != key
      {
        if gatewayTargets[i].key == key {
          assert gatewayTargets[i] in gatewayTargets;
          return true, gatewayTargets[i], configGeneration;
        }
      }
    }

    /** The section that looks for the entry a transaction is to use. */
    method FindPoolEntry(key: Endpoint) returns (managed: bool, found: bool, entry: nat, pure: bool)
      requires Valid()
      ensures managed == (key in gateways) && found == (key in gateways && key in conns)
      ensures found ==> Known(Contents(), key) && entry == conns[key]
      ensures managed ==> pure == IsTarget(Contents(), key)
    {
      hide FindFrom;
      if key !in gateways {
        return false, false, 0, false;
      }
      var target, generation;
      pure, target, generation := GatewayTarget(key);
      managed, found := true, key in conns;
      entry := if found then conns[key] else 0;
    }

    /** The later section that makes the entry, unless the endpoint or another entry has come or gone since. */
    method MakePoolEntry(key: Endpoint) returns (managed: bool, entry: nat, pure: bool)
      requires Valid()
      modifies this`conns, this`entries
      ensures Valid() && Contents() == MakeEntry(old(Contents()), key)
      ensures managed == (key in gateways)
      ensures managed ==> Known(Contents(), key) && entry == conns[key] && pure == IsTarget(Contents(), key)
    {
      hide FindFrom;
      if key !in gateways {
        return false, 0, false;
      }
      var target, generation;
      pure, target, generation := GatewayTarget(key);
      managed := true;
      if key in conns {
        entry := conns[key];
      } else {
        MakeCurrent(Contents(), key, EMPTY);
        entry := |entries|;
        conns := conns[key := entry];
        entries := entries + [EMPTY];
      }
    }

    method StoreGatewayConn(key: Endpoint, id: nat, generation: nat, keepAliveOK: bool) returns (stored: bool)
      requires Valid()
      modifies this`conns, this`entries
      ensures Valid()
      ensures stored == Stores(old(Contents()), key, generation)
      ensures Contents() ==
        if stored then Store(old(Contents()), key, Conn(id, ForHealth(generation)), keepAliveOK) else old(Contents())
    {
      if configGeneration != generation || key !in gateways {
        return false;
      }
      StoreCurrent(Contents(), key, id, generation, keepAliveOK);
      if key !in conns {
        conns := conns[key := |entries|];
        entries := entries + [EMPTY];
      }
      entries := entries[conns[key] := Entry(Conn(id, ForHealth(generation)), keepAliveOK)];
      stored := true;
    }

    method DropGatewayConn(entry: nat, expected: Conn)
      requires Valid() && entry < |entries|
      modifies this`entries
      ensures Valid() && Contents() == Drop(old(Contents()), entry, expected)
    {
      if entries[entry].conn != expected {
        return;
      }
      EntryCurrent(Contents(), entry, Close(entries[entry]));
      if entries[entry].conn.Conn? {
        entries := entries[entry := EMPTY];
      }
    }

    method ResetConnection(key: Endpoint)
      requires Valid()
      modifies this`entries
      ensures Valid() && Contents() == Reset(old(Contents()), key)
    {
      if key in conns {
        EntryCurrent(Contents(), conns[key], EMPTY);
        entries := entries[conns[key] := EMPTY];
      }
    }

    method NoteGatewayDialFailure(key: Endpoint) returns (count: nat)
      modifies this`dialFailures
      ensures Contents() == NoteFailure(old(Contents()), key)
      ensures count == FailureCount(Contents(), key) == FailureCount(old(Contents()), key) + 1
    {
      if key !in dialFailures {
        dialFailures := dialFailures[key := 0];
      }
      dialFailures := dialFailures[key := dialFailures[key] + 1];
      count := dialFailures[key];
    }

    method ResetGatewayDialFailures(key: Endpoint)
      modifies this`dialFailures
      ensures Contents() == ResetFailures(old(Contents()), key)
    {
      dialFailures := dialFailures - {key};
    }

    /** Compare and swap: taken tells whether the guard was free. */
    method MarkBusy(key: Endpoint) returns (taken: bool)
      modifies this`busy
      ensures taken == (key !in old(busy))
      ensures Contents() == GatewayPool.MarkBusy(old(Contents()), key)
    {
      taken := key !in busy;
      busy := busy + {key};
    }

    method ClearBusy(key: Endpoint)
      modifies this`busy
      ensures Contents() == GatewayPool.ClearBusy(old(Contents()), key)
    {
      busy := busy - {key};
    }
  }

  lemma CloseTwice()
    ensures forall e :: Close(Close(e)) == Close(e)
  {
  }

  predicate ConnsIn(conns: map<Endpoint, nat>, entries: seq<Entry>) {
    forall k | k in conns :: conns[k] < |entries|
  }
}
