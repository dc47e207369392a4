/** The objects behind MqttSystem: a shared connection and the manager that hands them out. Each method is one
    section under the manager's lock. */
module MqttManager {
  import opened Collections
  import opened MqttEntry
  import opened Text

  class MqttClient {
    const cfg: Config
    var client: nat
    var cancelled: bool
    var filters: map<Topic, map<Owner, Qos>>
    var applied: map<Topic, Qos>
    var generation: nat
    var publishes: int
    var restarting: bool

    constructor (cfg: Config)
      ensures Contents() == NewEntry(cfg, 0)
    {
      this.cfg := cfg;
      client, cancelled, filters, applied, generation, publishes, restarting := 0, false, map[], map[], 0, 0, false;
    }

    ghost function Contents(): Entry
      reads this
    {
      Entry(cfg, client, cancelled, filters, applied, generation, publishes, restarting)
    }

    method AddOwner(topic: Topic, owner: Owner, qos: Qos)
      modifies this`filters
      ensures Contents() == MqttEntry.AddOwner(old(Contents()), topic, owner, qos)
    {
      if topic !in filters {
        filters := filters[topic := map[]];
      }
      var owners: map<Owner, Qos> := filters[topic];
      owners := owners[owner := qos];
      filters := filters[topic := owners];
    }

    method ReleaseUnused()
      modifies this`cancelled
      ensures Contents() == MqttEntry.ReleaseUnused(old(Contents()))
    {
      if publishes != 0 {
        return;
      }
      var rest := filters.Keys;
      while rest != {}
        invariant rest <= filters.Keys
        invariant forall t | t in filters && t !in rest :: filters[t] == map[]
        invariant cancelled == old(cancelled)
      {
        var topic := AnyOf(rest);
        if filters[topic] != map[] {
          return;
        }
        rest := rest - {topic};
      }
      cancelled := true;
    }

    method Release(topic: Topic, owner: Owner)
      modifies this`filters, this`cancelled
      ensures Contents() == MqttEntry.Release(old(Contents()), topic, owner)
    {
      if topic in filters {
        filters := filters[topic := filters[topic] - {owner}];
      }
      ReleaseUnused();
    }

    method OnConnect(announced: nat)
      modifies this
      ensures Contents() == MqttEntry.OnConnect(old(Contents()), announced)
    {
      if !cancelled && client == announced {
        restarting := false;
        generation := generation + 1;
        applied := map[];
      }
    }

    /** Install a fresh client unless a publish is under way. */
    method BeginRestart(newClient: nat) returns (canRestart: bool)
      modifies this
      ensures canRestart == (old(publishes) == 0)
      ensures Contents() == if canRestart then Replace(old(Contents()), newClient) else old(Contents())
    {
      canRestart := publishes == 0;
      if canRestart {
        restarting := true;
        client := newClient;
        applied := map[];
      }
    }

    method StartPublish(isConnected: bool) returns (admitted: bool)
      modifies this`publishes
      ensures admitted == CanPublish(old(Contents()), isConnected)
      ensures Contents() == if admitted then Admit(old(Contents())) else old(Contents())
    {
      admitted := !(cancelled || generation == 0 || restarting || !isConnected);
      if admitted {
        publishes := publishes + 1;
      }
    }

    method FinishPublish()
      modifies this`publishes, this`cancelled
      ensures Contents() == Finish(old(Contents()))
    {
      publishes := publishes - 1;
      ReleaseUnused();
    }

    /** The topics of a pass, in no particular order. */
    method Topics() returns (topics: seq<Topic>)
      ensures (set t | t in topics) == filters.Keys && |topics| == |filters|
    {
      topics := [];
      var rest := filters.Keys;
      while rest != {}
        invariant rest <= filters.Keys
        invariant forall t :: t in topics <==> t in filters && t !in rest
        invariant |topics| + |rest| == |filters.Keys|
      {
        var topic := AnyOf(rest);
        topics := topics + [topic];
        rest := rest - {topic};
      }
      assert |filters.Keys| == |filters|;
    }

    /** The highest quality any owner asked for. */
    method Requested(owners: map<Owner, Qos>) returns (qos: Qos)
      ensures forall o | o in owners :: owners[o] <= qos
      ensures owners != map[] ==> exists o | o in owners :: owners[o] == qos
      ensures qos == MaxQos(owners)
    {
      qos := 0;
      var rest := owners.Keys;
      while rest != {}
        invariant rest <= owners.Keys
        invariant forall o | o in owners && o !in rest :: owners[o] <= qos
        invariant qos != 0 ==> exists o | o in owners :: owners[o] == qos
      {
        var owner := AnyOf(rest);
        if owners[owner] > qos {
          qos := owners[owner];
        }
        rest := rest - {owner};
      }
      MaxQosIs(owners);
      assert forall o | o in owners :: 0 <= owners[o] <= qos;
    }

    method Look(topic: Topic) returns (decision: Decision)
      ensures decision == Decide(Contents(), topic)
    {
      if topic !in filters {
        return Skip;
      }
      var owners := filters[topic];
      var qos := Requested(owners);
      var remove := owners == map[];
      var upToDate := !remove && topic in applied && applied[topic] == qos;
      if upToDate {
        return Skip;
      }
      decision := Apply(if remove then Unsubscribe(topic) else Subscribe(topic, qos));
    }

    method Record(passGeneration: nat, op: Op) returns (changed: bool)
      modifies this`applied, this`filters
      ensures changed == (old(generation) != passGeneration)
      ensures Contents() == MqttEntry.Record(old(Contents()), passGeneration, op)
    {
      if generation == passGeneration {
        match op
        case Unsubscribe(topic) =>
          applied := applied - {topic};
          if topic !in filters || filters[topic] == map[] {
            filters := filters - {topic};
          }
        case Subscribe(topic, qos) =>
          applied := applied[topic := qos];
      }
      changed := generation != passGeneration;
    }
  }

  /** What a Watch is told. */
  datatype Answer = Invalid | Waiting | Conflict | Watching(client: MqttClient)

  class MqttManager {
    var clients: map<string, MqttClient>

    /** No two keys share an entry, and each entry is found under its own key. */
    ghost predicate Valid()
      reads this
    {
      forall k | k in clients :: Key(clients[k].cfg) == k
    }

    constructor ()
      ensures Valid() && clients == map[]
    {
      clients := map[];
    }

    /** One attempt of a Watch; the caller waits and tries again while the entry it finds is on its way out. */
    method Watch(owner: Owner, topic: Topic, qos: nat, hasHandler: bool) returns (answer: Answer)
      requires Valid()
      modifies this, clients.Values
      ensures Valid()
      ensures answer == Invalid <==> Blank(owner.cfg.broker) || topic == "" || qos > 2 || !hasHandler
      ensures !answer.Watching? ==>
        clients == old(clients) && forall c | c in clients.Values :: c.Contents() == old(c.Contents())
      ensures answer == Waiting ==> Key(owner.cfg) in clients && clients[Key(owner.cfg)].cancelled
      ensures answer == Conflict ==>
        && Key(owner.cfg) in clients
        && !clients[Key(owner.cfg)].cancelled && !SameOptions(clients[Key(owner.cfg)].cfg, owner.cfg)
      ensures answer.Watching? ==>
        && Key(owner.cfg) in clients && clients[Key(owner.cfg)] == answer.client && qos <= 2
        && !answer.client.cancelled && SameOptions(answer.client.cfg, owner.cfg)
        && (forall c | c in old(clients.Values) && c != answer.client :: c.Contents() == old(c.Contents()))
        && (Key(owner.cfg) in old(clients) ==>
              clients == old(clients)
                && answer.client.Contents() == AddOwner(old(clients[Key(owner.cfg)].Contents()), topic, owner, qos))
        && (Key(owner.cfg) !in old(clients) ==>
              fresh(answer.client) && clients == old(clients)[Key(owner.cfg) := answer.client]
              && answer.client.Contents() == AddOwner(NewEntry(owner.cfg, 0), topic, owner, qos))
    {
      hide Key, Blank;
      var cfg := owner.cfg;
      if Blank(cfg.broker) {
        return Invalid;
      }
      if topic == "" || qos > 2 || !hasHandler {
        return Invalid;
      }
      var key := Key(cfg);
      if key in clients && clients[key].cancelled {
        return Waiting;
      }
      var entry;
      if key !in clients {
        entry := new MqttClient(cfg);
        clients := clients[key := entry];
      } else {
        entry := clients[key];
        if !SameOptions(entry.cfg, cfg) {
          return Conflict;
        }
      }
      entry.AddOwner(topic, owner, qos);
      answer := Watching(entry);
    }

    /** Admission of a publish: the entry it is pinned to, if any. */
    method StartPublish(cfg: Config, isConnected: bool) returns (entry: MqttClient?)
      requires Valid()
      modifies clients.Values
      ensures entry != null <==> Key(cfg) in clients && CanPublish(old(clients[Key(cfg)].Contents()), isConnected)
      ensures entry != null ==>
        entry == clients[Key(cfg)] && entry.Contents() == Admit(old(clients[Key(cfg)].Contents()))
      ensures forall c | c in clients.Values && c != entry :: c.Contents() == old(c.Contents())
    {
      hide Key;
      var key := Key(cfg);
      if key !in clients {
        return null;
      }
      var admitted := clients[key].StartPublish(isConnected);
      entry := if admitted then clients[key] else null;
    }

    /** The loop of an entry has ended. */
    method Retire(entry: MqttClient)
      requires Valid()
      modifies this
      ensures Valid()
      ensures clients == if entry in old(clients).Values then old(clients) - {Key(entry.cfg)} else old(clients)
      ensures entry !in clients.Values
    {
      hide Key;
      var key := Key(entry.cfg);
      if key in clients && clients[key] == entry {
        clients := clients - {key};
      }
    }
  }
}
