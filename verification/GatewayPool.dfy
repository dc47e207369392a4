/** The pool of gateway connections, the guards and the failure counters: each function is one section under a
    lock of the manager. */
module GatewayPool {
  import opened GatewayConfig

  /** Who dialled a connection: a business transaction, or a health check that began in a generation. */
  datatype Origin = ForBusiness | ForHealth(generation: nat)

  datatype Conn = NoConn | Conn(id: nat, origin: Origin)

  datatype Entry = Entry(conn: Conn, keepAliveOK: bool)

  /** Entries are numbered; one that a reload removed from conns stays, as a transaction may still have it. */
  datatype Pool = Pool(generation: nat, targets: seq<Target>, gateways: set<Endpoint>, conns: map<Endpoint, nat>,
                       entries: seq<Entry>, busy: set<Endpoint>, failures: map<Endpoint, nat>)

  const THRESHOLD := 2

  const EMPTY := Entry(NoConn, false)

  // ---------------------------------------------------------------- configuration

  function Close(e: Entry): Entry {
    if e.conn.NoConn? then e else EMPTY
  }

  /** A reload starts a generation, closes every pooled connection and forgets the endpoints that are gone. */
  function Reload(p: Pool, targets: seq<Target>, gateways: set<Endpoint>): Pool {
    p.(generation := p.generation + 1, targets := targets, gateways := gateways,
       conns := map k | k in p.conns && k in gateways :: p.conns[k],
       entries := seq(|p.entries|, i requires 0 <= i < |p.entries| =>
         if i in p.conns.Values then Close(p.entries[i]) else p.entries[i]))
  }

  /** A separate section: counters of endpoints that are not targets any more are forgotten. */
  function Forget(p: Pool, targetKeys: set<Endpoint>): Pool {
    p.(failures := map k | k in p.failures && k in targetKeys :: p.failures[k])
  }

  predicate IsTarget(p: Pool, key: Endpoint) {
    exists t | t in p.targets :: t.key == key
  }

  function KeysOf(targets: seq<Target>): set<Endpoint> {
    set t | t in targets :: t.key
  }

  /** The first target of an endpoint from position i on, or the number of targets. */
  function FindFrom(targets: seq<Target>, key: Endpoint, i: nat): (r: nat)
    requires i <= |targets|
    ensures i <= r <= |targets|
    ensures r < |targets| ==> targets[r].key == key
    ensures forall j | i <= j < r :: targets[j].key != key
    decreases |targets| - i
  {
    if i == |targets| || targets[i].key == key then i else FindFrom(targets, key, i + 1)
  }

  // ---------------------------------------------------------------- connections

  predicate Known(p: Pool, key: Endpoint) {
    key in p.conns && p.conns[key] < |p.entries|
  }

  /** The section that reads an entry for business, and the one that makes it when there is none. */
  function MakeEntry(p: Pool, key: Endpoint): Pool {
    if key !in p.gateways || key in p.conns then p
    else p.(conns := p.conns[key := |p.entries|], entries := p.entries + [EMPTY])
  }

  function SetEntry(p: Pool, e: nat, entry: Entry): Pool
    requires e < |p.entries|
  {
    p.(entries := p.entries[e := entry])
  }

  /** Keep a health-dialled connection, if its generation is the current one and the endpoint is managed. */
  predicate Stores(p: Pool, key: Endpoint, generation: nat) {
    p.generation == generation && key in p.gateways
  }

  function Store(p: Pool, key: Endpoint, conn: Conn, keepAliveOK: bool): Pool
    requires key in p.conns ==> p.conns[key] < |p.entries|
  {
    if key in p.conns then SetEntry(p, p.conns[key], Entry(conn, keepAliveOK))
    else p.(conns := p.conns[key := |p.entries|], entries := p.entries + [Entry(conn, keepAliveOK)])
  }

  /** Drop the connection an entry has, unless it is another than expected. */
  function Drop(p: Pool, e: nat, expected: Conn): Pool
    requires e < |p.entries|
  {
    if p.entries[e].conn != expected then p else SetEntry(p, e, Close(p.entries[e]))
  }

  /** A transaction resets the connection of an endpoint. */
  function Reset(p: Pool, key: Endpoint): Pool
    requires key in p.conns ==> p.conns[key] < |p.entries|
  {
    if key in p.conns then SetEntry(p, p.conns[key], EMPTY) else p
  }

  // ---------------------------------------------------------------- guards and counters

  function MarkBusy(p: Pool, key: Endpoint): Pool {
    p.(busy := p.busy + {key})
  }

  function ClearBusy(p: Pool, key: Endpoint): Pool {
    p.(busy := p.busy - {key})
  }

  function FailureCount(p: Pool, key: Endpoint): nat {
    if key in p.failures then p.failures[key] else 0
  }

  function NoteFailure(p: Pool, key: Endpoint): Pool {
    p.(failures := p.failures[key := FailureCount(p, key) + 1])
  }

  function ResetFailures(p: Pool, key: Endpoint): Pool {
    p.(failures := p.failures - {key})
  }

  // ---------------------------------------------------------------- what every section keeps

  /** Endpoints have entries of the pool, and a health-dialled connection is in an endpoint's entry and of the
      current generation. */
  ghost predicate Current(p: Pool) {
    && WellFormed(p.targets)
    && (forall k | k in p.conns :: p.conns[k] < |p.entries|)
    && (forall k, l | k in p.conns && l in p.conns && k != l :: p.conns[k] != p.conns[l])
    && (forall i | 0 <= i < |p.entries| && p.entries[i].conn.Conn? && p.entries[i].conn.origin.ForHealth? ::
          p.entries[i].conn.origin.generation == p.generation && i in p.conns.Values)
  }

  lemma ReloadCurrent(p: Pool, targets: seq<Target>, gateways: set<Endpoint>)
    requires Current(p) && WellFormed(targets)
    ensures Current(Reload(p, targets, gateways))
  {
  }

  lemma EntryCurrent(p: Pool, e: nat, entry: Entry)
    requires Current(p) && e < |p.entries|
    requires entry.conn.Conn? && entry.conn.origin.ForHealth? ==>
      entry.conn.origin.generation == p.generation && e in p.conns.Values
    ensures Current(SetEntry(p, e, entry))
  {
  }

  lemma MakeCurrent(p: Pool, key: Endpoint, entry: Entry)
    requires Current(p) && key !in p.conns
    requires entry.conn.Conn? && entry.conn.origin.ForHealth? ==> entry.conn.origin.generation == p.generation
    ensures Current(p.(conns := p.conns[key := |p.entries|], entries := p.entries + [entry]))
  {
    var q := p.(conns := p.conns[key := |p.entries|], entries := p.entries + [entry]);
    assert q.conns[key] == |p.entries|;
    forall i | i in p.conns.Values
      ensures i in q.conns.Values
    {
      var k :| k in p.conns && p.conns[k] == i;
      assert q.conns[k] == i;
    }
  }

  /** A connection that a health check dialled gets into the pool only in the generation of the check. */
  lemma StoreCurrent(p: Pool, key: Endpoint, id: nat, generation: nat, keepAliveOK: bool)
    requires Current(p) && Stores(p, key, generation)
    ensures Current(Store(p, key, Conn(id, ForHealth(generation)), keepAliveOK))
  {
    hide WellFormed;
    if key in p.conns {
      EntryCurrent(p, p.conns[key], Entry(Conn(id, ForHealth(generation)), keepAliveOK));
    } else {
      MakeCurrent(p, key, Entry(Conn(id, ForHealth(generation)), keepAliveOK));
    }
  }
}
