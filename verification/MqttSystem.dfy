/** The manager of shared connections: which entry serves a key, over every interleaving of its callers, its
    loops and the network. The manager is never closed. */
module MqttSystem {
  import opened Text
  import opened MqttEntry
  import S = MqttSession

  /** Every entry ever made, in order; clients says which one serves a key. next numbers owners and publishes. */
  datatype Manager = Manager(clients: map<string, nat>, sessions: seq<S.Session>, next: nat)

  datatype Outcome = Invalid | Waiting | Conflict | Watching(entry: nat) | NotConnected | Publishing(entry: nat)

  datatype Action =
    | Watch(cfg: Config, topic: Topic, qos: nat, hasHandler: bool)
    | Publish(cfg: Config, isConnected: bool)
    | Inside(entry: nat, action: S.Action)
    | Retire(entry: nat)

  /** What a Watch is told. An entry on its way out is waited for. */
  function WatchOutcome(m: Manager, cfg: Config, topic: Topic, qos: nat, hasHandler: bool): Outcome
    requires Indexed(m)
  {
    if Blank(cfg.broker) || topic == "" || qos > 2 || !hasHandler then Invalid
    else if Key(cfg) !in m.clients then Watching(|m.sessions|)
    else
      var e := m.sessions[m.clients[Key(cfg)]].entry;
      if e.cancelled then Waiting
      else if !SameOptions(e.cfg, cfg) then Conflict
      else Watching(m.clients[Key(cfg)])
  }

  function PublishOutcome(m: Manager, cfg: Config, isConnected: bool): Outcome
    requires Indexed(m)
  {
    var key := Key(cfg);
    if key in m.clients && CanPublish(m.sessions[m.clients[key]].entry, isConnected) then Publishing(m.clients[key])
    else NotConnected
  }

  predicate Indexed(m: Manager) {
    forall k | k in m.clients :: m.clients[k] < |m.sessions|
  }

  /** Owners arrive through Watch and publishes through Publish; everything else happens inside an entry. */
  predicate Enabled(m: Manager, a: Action) {
    match a
    case Watch(_, _, _, _) => true
    case Publish(_, _) => true
    case Inside(i, a) =>
      i < |m.sessions| && S.Enabled(m.sessions[i], a) && !(a.Owners? && (a.owners.Attach? || a.owners.StartPublish?))
    case Retire(i) => i < |m.sessions| && m.sessions[i].pc.Cleaning?
  }

  function WatchDo(m: Manager, cfg: Config, topic: Topic, qos: nat, hasHandler: bool): Manager
    requires Serves(m)
  {
    match WatchOutcome(m, cfg, topic, qos, hasHandler)
    case Watching(i) =>
      var o := Owner(m.next, cfg);
      if i == |m.sessions| then Manager(m.clients[Key(cfg) := i], m.sessions + [S.Opened(o, topic, qos)], m.next + 1)
      else m.(sessions := m.sessions[i := S.OwnersDo(m.sessions[i], S.Attach(topic, o, qos))], next := m.next + 1)
    case _ => m
  }

  function PublishDo(m: Manager, cfg: Config, isConnected: bool): Manager
    requires Serves(m) && Fresh(m)
  {
    match PublishOutcome(m, cfg, isConnected)
    case Publishing(i) =>
      m.(sessions := m.sessions[i := S.OwnersDo(m.sessions[i], S.StartPublish(m.next))], next := m.next + 1)
    case _ => m
  }

  function RetireDo(m: Manager, i: nat): Manager
    requires i < |m.sessions|
  {
    var key := Key(m.sessions[i].entry.cfg);
    m.(sessions := m.sessions[i := m.sessions[i].(pc := S.Ended)],
       clients := if key in m.clients && m.clients[key] == i then m.clients - {key} else m.clients)
  }

  function Do(m: Manager, a: Action): Manager
    requires Serves(m) && Fresh(m) && Enabled(m, a)
  {
    match a
    case Watch(cfg, topic, qos, hasHandler) => WatchDo(m, cfg, topic, qos, hasHandler)
    case Publish(cfg, isConnected) => PublishDo(m, cfg, isConnected)
    case Inside(i, b) => m.(sessions := m.sessions[i := S.Do(m.sessions[i], b)])
    case Retire(i) => RetireDo(m, i)
  }

  // ---------------------------------------------------------------- what every step keeps

  /** Every entry that has not ended serves its key, and nothing else does. */
  ghost predicate Serves(m: Manager) {
    && (forall k | k in m.clients ::
      && m.clients[k] < |m.sessions| && Key(m.sessions[m.clients[k]].entry.cfg) == k
      && !m.sessions[m.clients[k]].pc.Ended?)
    && (forall i | 0 <= i < |m.sessions| && !m.sessions[i].pc.Ended? ::
          Key(m.sessions[i].entry.cfg) in m.clients && m.clients[Key(m.sessions[i].entry.cfg)] == i)
  }

  ghost predicate Fresh(m: Manager) {
    forall i, id | 0 <= i < |m.sessions| && id in m.sessions[i].pubs :: id < m.next
  }

  ghost predicate Inv(m: Manager) {
    Serves(m) && Fresh(m) && forall i | 0 <= i < |m.sessions| :: S.Inv(m.sessions[i])
  }

  /** No step inside an entry changes what it is for, ends it, or revives it; only a publish adds one. */
  lemma Stays(s: S.Session, a: S.Action)
    requires S.Enabled(s, a)
    ensures S.Do(s, a).entry.cfg == s.entry.cfg
    ensures S.Do(s, a).pc.Ended? <==> s.pc.Ended?
    ensures s.entry.cancelled ==> S.Do(s, a).entry.cancelled
    ensures forall id | id in S.Do(s, a).pubs :: id in s.pubs || (a.Owners? && a.owners == S.StartPublish(id))
  {
    hide S.OwnersDo, S.NetDo, S.LoopDo, S.OwnersMay, S.NetMay, S.LoopMay;
    match a
    case Owners(o) => OwnersStay(s, o);
    case Net(n) => NetStays(s, n);
    case Run(l) => LoopStays(s, l);
  }

  lemma OwnersStay(s: S.Session, a: S.OwnerAction)
    requires S.OwnersMay(s, a)
    ensures var t := S.OwnersDo(s, a);
      && t.entry.cfg == s.entry.cfg && (t.pc.Ended? <==> s.pc.Ended?) && (s.entry.cancelled ==> t.entry.cancelled)
      && forall id | id in t.pubs :: id in s.pubs || a == S.StartPublish(id)
  {
    hide Key, Unused, OwnersOf;
  }

  lemma NetStays(s: S.Session, a: S.NetAction)
    requires S.NetMay(s, a)
    ensures var t := S.NetDo(s, a);
      && t.entry.cfg == s.entry.cfg && (t.pc.Ended? <==> s.pc.Ended?) && (s.entry.cancelled ==> t.entry.cancelled)
      && t.pubs == s.pubs
  {
    hide S.NetDo, S.NetMay;
    S.NetLeaves(s, a);
  }

  lemma LoopStays(s: S.Session, a: S.LoopAction)
    requires S.LoopMay(s, a)
    ensures var t := S.LoopDo(s, a);
      && t.entry.cfg == s.entry.cfg && (t.pc.Ended? <==> s.pc.Ended?) && (s.entry.cancelled ==> t.entry.cancelled)
      && t.pubs == s.pubs
  {
    if !a.Restart? {
      hide S.LoopDo, S.LoopMay;
      S.LoopLeaves(s, a);
    }
  }

  /** Replacing one session by one for the same key, ended or not as before, keeps the index. */
  lemma ServesUpdate(m: Manager, i: nat, s: S.Session, next: nat)
    requires Inv(m) && i < |m.sessions| && S.Inv(s) && next >= m.next
    requires s.entry.cfg == m.sessions[i].entry.cfg && (s.pc.Ended? <==> m.sessions[i].pc.Ended?)
    requires forall id | id in s.pubs :: id < next
    ensures Inv(m.(sessions := m.sessions[i := s], next := next))
  {
    hide S.Inv, Key;
  }

  lemma WatchKeeps(m: Manager, cfg: Config, topic: Topic, qos: nat, hasHandler: bool)
    requires Inv(m)
    ensures Inv(WatchDo(m, cfg, topic, qos, hasHandler))
  {
    hide S.Inv, Key, Blank, S.OwnersDo;
    var outcome := WatchOutcome(m, cfg, topic, qos, hasHandler);
    if outcome.Watching? {
      var o := Owner(m.next, cfg);
      if outcome.entry == |m.sessions| {
        S.OpenedInv(o, topic, qos);
        Adds(m, o, topic, qos);
      } else {
        var a := S.Owners(S.Attach(topic, o, qos));
        S.StepKeeps(m.sessions[outcome.entry], a);
        Stays(m.sessions[outcome.entry], a);
        ServesUpdate(m, outcome.entry, S.Do(m.sessions[outcome.entry], a), m.next + 1);
      }
    }
  }

  lemma Adds(m: Manager, o: Owner, topic: Topic, qos: Qos)
    requires Inv(m) && Key(o.cfg) !in m.clients && S.Inv(S.Opened(o, topic, qos))
    ensures Inv(Manager(m.clients[Key(o.cfg) := |m.sessions|], m.sessions + [S.Opened(o, topic, qos)], m.next + 1))
  {
    hide S.Inv, Key;
  }

  lemma PublishKeeps(m: Manager, cfg: Config, isConnected: bool)
    requires Inv(m)
    ensures Inv(PublishDo(m, cfg, isConnected))
  {
    hide S.Inv, Key, S.OwnersDo;
    var outcome := PublishOutcome(m, cfg, isConnected);
    if outcome.Publishing? {
      var s := m.sessions[outcome.entry];
      var a := S.Owners(S.StartPublish(m.next));
      S.StepKeeps(s, a);
      Stays(s, a);
      ServesUpdate(m, outcome.entry, S.Do(s, a), m.next + 1);
    }
  }

  lemma RetireKeeps(m: Manager, i: nat)
    requires Inv(m) && i < |m.sessions| && m.sessions[i].pc.Cleaning?
    ensures Inv(RetireDo(m, i))
  {
    hide S.Inv, Key;
    var n, s := RetireDo(m, i), m.sessions[i];
    assert S.Inv(s.(pc := S.Ended)) by {
      EndInv(s);
    }
    assert m.clients[Key(s.entry.cfg)] == i;
  }

  lemma EndInv(s: S.Session)
    requires S.Inv(s) && s.pc.Cleaning?
    ensures S.Inv(s.(pc := S.Ended))
  {
    hide EntryInv;
  }

  lemma StepKeeps(m: Manager, a: Action)
    requires Inv(m) && Enabled(m, a)
    ensures Inv(Do(m, a))
  {
    match a
    case Watch(cfg, topic, qos, hasHandler) => WatchKeeps(m, cfg, topic, qos, hasHandler);
    case Publish(cfg, isConnected) => PublishKeeps(m, cfg, isConnected);
    case Inside(i, b) =>
      hide S.Inv, Serves, S.Enabled, S.Do, Do;
      S.StepKeeps(m.sessions[i], b);
      Stays(m.sessions[i], b);
      ServesUpdate(m, i, S.Do(m.sessions[i], b), m.next);
      InsideIs(m, i, b);
    case Retire(i) => RetireKeeps(m, i);
  }

  lemma InsideIs(m: Manager, i: nat, b: S.Action)
    requires Inv(m) && Enabled(m, Inside(i, b))
    ensures Do(m, Inside(i, b)) == m.(sessions := m.sessions[i := S.Do(m.sessions[i], b)], next := m.next)
  {
  }

  // ---------------------------------------------------------------- every run

  function Begin(): Manager {
    Manager(map[], [], 0)
  }

  lemma BeginInv()
    ensures Inv(Begin())
  {
  }

  ghost predicate Possible(m: Manager, run: seq<Action>)
    decreases |run|, 0
  {
    run == [] ||
    (Possible(m, run[..|run| - 1])
     && Serves(After(m, run[..|run| - 1])) && Fresh(After(m, run[..|run| - 1]))
     && Enabled(After(m, run[..|run| - 1]), run[|run| - 1]))
  }

  ghost function After(m: Manager, run: seq<Action>): Manager
    requires Possible(m, run)
    decreases |run|, 1
  {
    if run == [] then m else Do(After(m, run[..|run| - 1]), run[|run| - 1])
  }

  lemma {:induction false} RunKeeps(m: Manager, run: seq<Action>)
    requires Inv(m) && Possible(m, run)
    ensures Inv(After(m, run))
    decreases |run|
  {
    hide Inv, Do, Serves, Fresh, Enabled;
    if run != [] {
      RunKeeps(m, run[..|run| - 1]);
      StepKeeps(After(m, run[..|run| - 1]), run[|run| - 1]);
    }
  }

  /** Any enabled action can come next. */
  lemma AnyActionNext(m: Manager, run: seq<Action>, a: Action)
    requires Inv(m) && Possible(m, run) && Enabled(After(m, run), a)
    ensures Possible(m, run + [a])
  {
    hide Do, Serves, Fresh, Enabled, S.Inv;
    RunKeeps(m, run);
    assert (run + [a])[..|run|] == run;
  }

  ghost predicate Reachable(m: Manager) {
    exists run | Possible(Begin(), run) :: After(Begin(), run) == m
  }

  lemma ReachableInv(m: Manager)
    requires Reachable(m)
    ensures Inv(m)
  {
    hide Inv, Possible, After;
    var run :| Possible(Begin(), run) && After(Begin(), run) == m;
    BeginInv();
    RunKeeps(Begin(), run);
  }

  /** What the manager believes applied, the broker acknowledged on the announced connection and still holds,
      at the quality it granted: for every entry in use whose connection is up and announced, and every topic
      without an operation of unknown, refused or pending outcome. That quality is at most the requested one, which
      is what the manager records, and is it exactly if the broker granted the request in full. What is applied is
      always a topic with a filter. */
  lemma AppliedIsHeld(m: Manager, i: nat, t: Topic)
    requires Reachable(m) && i < |m.sessions|
    ensures var s := m.sessions[i];
      && s.entry.applied.Keys <= s.entry.filters.Keys
      && (S.Settled(s) && t in s.entry.applied && !S.Uncertain(s, t) ==>
            && t in s.live && t in s.grants && s.grants[t].requested == s.entry.applied[t]
            && s.live[t] == s.grants[t].granted <= s.entry.applied[t]
            && (s.live[t] == s.entry.applied[t] <==> s.grants[t].granted == s.grants[t].requested))
  {
    hide Reachable, S.Settled, S.Uncertain, S.Pinned, S.Underway, S.Progress;
    ReachableInv(m);
    assert S.Inv(m.sessions[i]);
  }

  /** A pass at the end of its topics, during which no owner came or went and no connection was announced,
      leaves exactly the owned topics, each applied at the highest quality any owner asked for. */
  lemma QuietPassSettles(m: Manager, i: nat)
    requires Reachable(m) && i < |m.sessions|
    ensures var s := m.sessions[i];
      s.pc.Pass? && s.pc.todo == [] && s.pc.quiet ==>
        && s.entry.applied == (map t | t in s.entry.filters :: MaxQos(s.entry.filters[t]))
        && (forall t | t in s.entry.filters :: s.entry.filters[t] != map[])
        && s.pc.gen == s.entry.generation > 0
  {
    hide Reachable, S.Pinned, S.Underway, S.Agrees, MaxQos;
    ReachableInv(m);
    var s := m.sessions[i];
    assert S.Inv(s);
    if s.pc.Pass? && s.pc.todo == [] && s.pc.quiet {
      forall t | t in s.entry.filters
        ensures s.entry.filters[t] != map[] && t in s.entry.applied && s.entry.applied[t] == MaxQos(s.entry.filters[t])
      {
        assert Decide(s.entry, t) == Skip;
      }
    }
  }

  /** An entry is cancelled exactly when it has no owner and no publish; then nothing attaches to it again. */
  lemma CancelledIffUnused(m: Manager, i: nat)
    requires Reachable(m) && i < |m.sessions|
    ensures var s := m.sessions[i];
      && (s.entry.cancelled <==> s.pubs == map[] && forall t | t in s.entry.filters :: s.entry.filters[t] == map[])
      && (s.pc.Ended? ==> s.entry.cancelled)
  {
    hide Reachable, S.Progress, S.Underway, S.Agrees, OwnersAgree;
    ReachableInv(m);
    var s := m.sessions[i];
    assert S.Inv(s);
    assert |s.pubs| == 0 <==> s.pubs == map[];
  }

  lemma {:induction false} CancelledForever(m: Manager, run: seq<Action>, i: nat)
    requires Inv(m) && Possible(m, run) && i < |m.sessions| && m.sessions[i].entry.cancelled
    ensures var n := After(m, run);
      && i < |n.sessions| && n.sessions[i].entry.cancelled && n.sessions[i].pubs == map[]
      && forall t | t in n.sessions[i].entry.filters :: n.sessions[i].entry.filters[t] == map[]
    decreases |run|
  {
    hide Do, Enabled, S.Progress, S.Underway, S.Agrees, OwnersAgree, Tidy;
    if run != [] {
      var n := After(m, run[..|run| - 1]);
      RunKeeps(m, run[..|run| - 1]);
      CancelledForever(m, run[..|run| - 1], i);
      StaysCancelled(n, run[|run| - 1], i);
    }
    RunKeeps(m, run);
    var s := After(m, run).sessions[i];
    assert S.Inv(s);
    assert |s.pubs| == 0 <==> s.pubs == map[];
  }

  lemma StaysCancelled(m: Manager, a: Action, i: nat)
    requires Inv(m) && Enabled(m, a) && i < |m.sessions| && m.sessions[i].entry.cancelled
    ensures |Do(m, a).sessions| >= |m.sessions| && Do(m, a).sessions[i].entry.cancelled
  {
    hide S.Do, S.Enabled, S.Inv, Key, S.Opened;
    if a.Inside? {
      Stays(m.sessions[a.entry], a.action);
    }
  }

  /** At most one entry that has not ended serves a key, and it is the one the manager finds. */
  lemma OneEntryPerKey(m: Manager, i: nat, j: nat)
    requires Reachable(m) && i < |m.sessions| && j < |m.sessions|
    requires !m.sessions[i].pc.Ended? && !m.sessions[j].pc.Ended?
      && Key(m.sessions[i].entry.cfg) == Key(m.sessions[j].entry.cfg)
    ensures i == j
    ensures Key(m.sessions[i].entry.cfg) in m.clients && m.clients[Key(m.sessions[i].entry.cfg)] == i
  {
    hide Reachable, Key, S.Inv;
    ReachableInv(m);
  }

  /** Every owner asked for the options, and the key, of the connection it shares. */
  lemma OwnersShareOptions(m: Manager, i: nat, t: Topic, o: Owner)
    requires Reachable(m) && i < |m.sessions|
    requires var e := m.sessions[i].entry; t in e.filters && o in e.filters[t]
    ensures var e := m.sessions[i].entry;
      && SameOptions(o.cfg, e.cfg) && Key(o.cfg) == Key(e.cfg)
      && ('|' !in e.cfg.broker && '|' !in e.cfg.clientID ==>
        o.cfg.broker == e.cfg.broker && o.cfg.clientID == e.cfg.clientID)
  {
    hide Reachable, S.Pinned, S.Agrees, S.Underway, S.Progress, Key;
    ReachableInv(m);
    var e := m.sessions[i].entry;
    assert S.Inv(m.sessions[i]);
    KeyIdentifiesIff(e.cfg);
  }

  /** A client is replaced only while no publish is under way, so every publish completes on the client it
      was admitted on. */
  lemma PublishesPinned(m: Manager, i: nat, id: nat)
    requires Reachable(m) && i < |m.sessions|
    ensures var s := m.sessions[i];
      && (s.entry.restarting ==> s.entry.publishes == 0)
      && (id in s.pubs ==> s.pubs[id] == s.entry.client && !s.entry.restarting && !s.entry.cancelled)
      && s.entry.publishes == |s.pubs|
  {
    hide Reachable, S.Agrees, S.Underway, S.Progress, OwnersAgree;
    ReachableInv(m);
    var s := m.sessions[i];
    assert S.Inv(s);
    if id in s.pubs {
      assert |s.pubs| > 0;
    }
  }

  /** Somebody watches through the entry, or publishes. */
  ghost predicate InUse(s: S.Session) {
    s.pubs != map[] || exists t | t in s.entry.filters :: s.entry.filters[t] != map[]
  }

  /** A publish is admitted, on the client the entry then has, exactly if an entry in use serves the key, its client
      is connected, and that client has announced a connection since it was installed. */
  lemma PublishAdmittedIff(m: Manager, cfg: Config, isConnected: bool)
    requires Reachable(m)
    ensures Serves(m) && Fresh(m)
    ensures var n := PublishDo(m, cfg, isConnected);
      if Key(cfg) in m.clients then
        var i := m.clients[Key(cfg)];
        var s := m.sessions[i];
        && |n.sessions| == |m.sessions|
        && if InUse(s) && isConnected && s.entry.client in s.announced then
             n.sessions[i].pubs == s.pubs[m.next := s.entry.client]
           else n == m
      else n == m
  {
    ReachableInv(m);
    hide Reachable, Key, S.Agrees, S.Underway, S.Progress, OwnersAgree, Tidy, S.OwnersDo, S.OwnersMay;
    if Key(cfg) in m.clients {
      var i := m.clients[Key(cfg)];
      var s := m.sessions[i];
      assert S.Inv(s);
      assert |s.pubs| == 0 <==> s.pubs == map[];
      if PublishOutcome(m, cfg, isConnected).Publishing? {
        StartsPublish(s, m.next);
      }
    }
  }

  lemma StartsPublish(s: S.Session, id: nat)
    requires S.OwnersMay(s, S.StartPublish(id))
    ensures S.OwnersDo(s, S.StartPublish(id)).pubs == s.pubs[id := s.entry.client]
  {
  }

  /** After a time-out the client issues nothing more: the loop waits to replace it, does so as soon as no publish
      holds it, and replaces no other client. */
  lemma TimedOutIsReplaced(m: Manager, i: nat)
    requires Reachable(m) && i < |m.sessions| && !m.sessions[i].entry.cancelled
    ensures var s := m.sessions[i];
      && (s.stalled ==> !S.InPass(s.pc) && (s.pc == S.Sleeping(true) || s.pc == S.Loop(true)))
      && (S.LoopMay(s, S.Restart) ==>
            && s.stalled
            && S.LoopDo(s, S.Restart).entry.client == if s.pubs == map[] then s.made else s.entry.client)
      && s.made > s.entry.client && s.made !in s.announced
  {
    hide Reachable, S.Agrees, S.Underway, S.Progress, OwnersAgree, Tidy;
    ReachableInv(m);
    var s := m.sessions[i];
    assert S.Inv(s);
    assert |s.pubs| == 0 <==> s.pubs == map[];
  }

  /** A conflict is reported exactly for an entry in use with other options, and changes nothing; nor does
      any other answer but success. */
  lemma OnlySuccessChanges(m: Manager, cfg: Config, topic: Topic, qos: nat, hasHandler: bool)
    requires Inv(m)
    ensures var outcome := WatchOutcome(m, cfg, topic, qos, hasHandler);
      && (WatchDo(m, cfg, topic, qos, hasHandler) == m <==> !outcome.Watching?)
      && (outcome == Conflict <==>
          && !Blank(cfg.broker) && topic != "" && qos <= 2 && hasHandler
          && exists i | 0 <= i < |m.sessions| ::
               !m.sessions[i].pc.Ended? && !m.sessions[i].entry.cancelled
               && Key(m.sessions[i].entry.cfg) == Key(cfg) && !SameOptions(m.sessions[i].entry.cfg, cfg))
  {
    hide S.Inv, Key, Blank, SameOptions, S.OwnersDo, S.Opened, S.OwnersMay;
    if WatchOutcome(m, cfg, topic, qos, hasHandler).Watching? {
      assert WatchDo(m, cfg, topic, qos, hasHandler).next == m.next + 1;
    }
    if Key(cfg) in m.clients {
      assert !m.sessions[m.clients[Key(cfg)]].pc.Ended?;
    }
  }
}
