/** One shared MQTT connection: its owners, the subscriptions it has applied, and the sections that change
    them under the manager's lock. */
module MqttEntry {
  type Topic = string

  type Qos = q: nat | q <= 2

  datatype Config = Config(broker: string, clientID: string, username: string, password: string, keepAlive: int,
                           cleanSession: bool)

  /** One Watch call: ids are never reused. */
  datatype Owner = Owner(id: nat, cfg: Config)

  datatype Op = Subscribe(topic: Topic, qos: Qos) | Unsubscribe(topic: Topic)

  datatype Decision = Skip | Apply(op: Op)

  /** client numbers the Paho client in use. */
  datatype Entry = Entry(cfg: Config, client: nat, cancelled: bool, filters: map<Topic, map<Owner, Qos>>,
                         applied: map<Topic, Qos>, generation: nat, publishes: int, restarting: bool)

  function Key(c: Config): string {
    c.broker + "|" + c.clientID
  }

  predicate SameOptions(a: Config, b: Config) {
    && a.username == b.username && a.password == b.password && a.keepAlive == b.keepAlive
    && a.cleanSession == b.cleanSession
  }

  // ---------------------------------------------------------------- the sections under the lock

  function OwnersOf(e: Entry, t: Topic): map<Owner, Qos> {
    if t in e.filters then e.filters[t] else map[]
  }

  predicate Unused(e: Entry) {
    e.publishes == 0 && forall t | t in e.filters :: e.filters[t] == map[]
  }

  function ReleaseUnused(e: Entry): Entry {
    if Unused(e) then e.(cancelled := true) else e
  }

  function AddOwner(e: Entry, t: Topic, o: Owner, q: Qos): Entry {
    e.(filters := e.filters[t := OwnersOf(e, t)[o := q]])
  }

  function Release(e: Entry, t: Topic, o: Owner): Entry {
    ReleaseUnused(if t in e.filters then e.(filters := e.filters[t := e.filters[t] - {o}]) else e)
  }

  /** A client announces that it has connected. */
  function OnConnect(e: Entry, client: nat): Entry {
    if !e.cancelled && e.client == client then
      e.(restarting := false, generation := e.generation + 1, applied := map[])
    else e
  }

  function Replace(e: Entry, client: nat): Entry {
    e.(restarting := true, client := client, applied := map[])
  }

  predicate CanPublish(e: Entry, connected: bool) {
    !e.cancelled && e.generation != 0 && !e.restarting && connected
  }

  function Admit(e: Entry): Entry {
    e.(publishes := e.publishes + 1)
  }

  function Finish(e: Entry): Entry {
    ReleaseUnused(e.(publishes := e.publishes - 1))
  }

  function MaxQos(owners: map<Owner, Qos>): Qos {
    if 2 in owners.Values then 2 else if 1 in owners.Values then 1 else 0
  }

  lemma MaxQosIs(owners: map<Owner, Qos>)
    ensures forall o | o in owners :: owners[o] <= MaxQos(owners)
    ensures owners != map[] ==> exists o | o in owners :: owners[o] == MaxQos(owners)
  {
    forall o | o in owners
      ensures owners[o] in owners.Values && owners[o] <= MaxQos(owners)
    {
    }
    if owners != map[] && MaxQos(owners) == 0 {
      assert |owners| > 0;
      var o :| o in owners;
      assert owners[o] == 0;
    }
  }

  /** What one topic needs. */
  function Decide(e: Entry, t: Topic): Decision {
    if t !in e.filters then Skip
    else if e.filters[t] == map[] then Apply(Unsubscribe(t))
    else if t in e.applied && e.applied[t] == MaxQos(e.filters[t]) then Skip
    else Apply(Subscribe(t, MaxQos(e.filters[t])))
  }

  /** Record an acknowledged operation, if no connection was announced since its pass began. */
  function Record(e: Entry, gen: nat, op: Op): Entry {
    if e.generation != gen then e
    else match op
      case Unsubscribe(t) =>
        e.(applied := e.applied - {t}, filters := if OwnersOf(e, t) == map[] then e.filters - {t} else e.filters)
      case Subscribe(t, q) => e.(applied := e.applied[t := q])
  }

  function NewEntry(cfg: Config, client: nat): Entry {
    Entry(cfg, client, false, map[], map[], 0, 0, false)
  }

  // ---------------------------------------------------------------- what each section keeps

  /** Alive exactly while it has an owner or a publish. */
  predicate Life(e: Entry) {
    e.publishes >= 0 && (e.cancelled <==> Unused(e))
  }

  /** Owners asked for the connection the entry has. */
  ghost predicate OwnersAgree(e: Entry) {
    forall t, o | t in e.filters && o in e.filters[t] :: SameOptions(o.cfg, e.cfg) && Key(o.cfg) == Key(e.cfg)
  }

  predicate Tidy(e: Entry) {
    && e.applied.Keys <= e.filters.Keys
    && (e.restarting ==> e.publishes == 0)
  }

  ghost predicate EntryInv(e: Entry) {
    Life(e) && OwnersAgree(e) && Tidy(e)
  }

  lemma AddOwnerKeeps(e: Entry, t: Topic, o: Owner, q: Qos)
    requires EntryInv(e) || e == NewEntry(e.cfg, e.client)
    requires !e.cancelled && SameOptions(o.cfg, e.cfg) && Key(o.cfg) == Key(e.cfg)
    ensures EntryInv(AddOwner(e, t, o, q))
  {
    hide Key;
    var f := AddOwner(e, t, o, q);
    assert o in f.filters[t];
  }

  lemma ReleaseKeeps(e: Entry, t: Topic, o: Owner)
    requires EntryInv(e) && t in e.filters && o in e.filters[t]
    ensures EntryInv(Release(e, t, o))
  {
    hide Key;
    assert e.filters[t] != map[];
    assert !e.cancelled;
  }

  lemma OtherSectionsKeep(e: Entry, client: nat)
    requires EntryInv(e)
    ensures EntryInv(OnConnect(e, client))
    ensures e.publishes == 0 ==> EntryInv(Replace(e, client))
    ensures forall connected | CanPublish(e, connected) :: EntryInv(Admit(e))
    ensures e.publishes > 0 ==> EntryInv(Finish(e))
  {
    hide Key;
  }

  lemma RecordKeeps(e: Entry, gen: nat, op: Op)
    requires EntryInv(e) && op.topic in e.filters
    ensures EntryInv(Record(e, gen, op))
    ensures Record(e, gen, op).cancelled == e.cancelled
  {
    hide Key;
    var f := Record(e, gen, op);
    assert forall t | t in f.filters :: t in e.filters && f.filters[t] == e.filters[t];
    assert forall t | t in e.filters && t !in f.filters :: e.filters[t] == map[];
  }

  /** A connection announced by a replaced client changes nothing; one by the current client starts a new
      generation with nothing applied and admits publishes again. */
  lemma LateConnectIgnored(e: Entry, client: nat)
    ensures OnConnect(e, client) == e <==> e.cancelled || e.client != client
  {
  }

  /** Two configurations can share an entry exactly if they differ in nothing but broker and client ID. */
  lemma SameOptionsIff(a: Config, b: Config)
    ensures SameOptions(a, b) <==> a.(broker := b.broker, clientID := b.clientID) == b
  {
  }

  // ---------------------------------------------------------------- keys

  lemma BarAt(a: string, b: string, k: nat)
    requires '|' !in a && '|' !in b && k < |a + "|" + b|
    ensures (a + "|" + b)[k] == '|' <==> k == |a|
  {
  }

  lemma SplitOnce(a: string, b: string, c: string, d: string)
    requires a + "|" + b == c + "|" + d && '|' !in a && '|' !in b
    ensures a == c && b == d
  {
    var s := a + "|" + b;
    assert s == c + "|" + d;
    assert s[|c|] == '|';
    BarAt(a, b, |c|);
    assert s[..|a|] == a && s[..|c|] == c;
    assert s[|a| + 1..] == b && s[|c| + 1..] == d;
  }

  /** The key identifies the broker and client ID exactly when neither contains the separator. */
  lemma KeyIdentifiesIff(c: Config)
    ensures (forall d: Config | Key(d) == Key(c) :: d.broker == c.broker && d.clientID == c.clientID)
      <==> '|' !in c.broker && '|' !in c.clientID
  {
    if '|' !in c.broker && '|' !in c.clientID {
      forall d: Config | Key(d) == Key(c)
        ensures d.broker == c.broker && d.clientID == c.clientID
      {
        SplitOnce(c.broker, c.clientID, d.broker, d.clientID);
      }
    } else if '|' in c.broker {
      var k :| 0 <= k < |c.broker| && c.broker[k] == '|';
      var d := c.(broker := c.broker[..k], clientID := c.broker[k + 1..] + "|" + c.clientID);
      assert c.broker == c.broker[..k] + "|" + c.broker[k + 1..];
      assert Key(d) == Key(c) && |d.broker| < |c.broker|;
    } else {
      var k :| 0 <= k < |c.clientID| && c.clientID[k] == '|';
      var d := c.(broker := c.broker + "|" + c.clientID[..k], clientID := c.clientID[k + 1..]);
      assert c.clientID == c.clientID[..k] + "|" + c.clientID[k + 1..];
      assert Key(d) == Key(c) && |d.broker| > |c.broker|;
    }
  }
}
