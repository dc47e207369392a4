/** The reconciliation loop of one shared connection, with its broker, against every interleaving of owners,
    publishes, reconnections and lost acknowledgements. */
module MqttSession {
  import opened MqttEntry

  /** Where the loop is. A pass remembers the generation it began in and the topics it has still to look at;
      quiet says that no owner came or went and no connection was announced since it began. */
  datatype Pc =
    | Starting
    | Connecting(first: bool)
    | Loop(restart: bool)
    | Pass(gen: nat, todo: seq<Topic>, quiet: bool)
    | InFlight(op: Op, conn: nat, gen: nat, todo: seq<Topic>, quiet: bool)
    | Acked(op: Op, gen: nat, todo: seq<Topic>, quiet: bool)
    | Sleeping(restart: bool)
    | Cleaning
    | Ended

  datatype Grant = Grant(requested: Qos, granted: Qos)

  /** live is what the broker holds for the session of the current connection, conn counts connections, made
      counts clients, notices are connections not yet announced to the manager, unknown are topics of
      operations given up on with the current client, refused are topics of refused subscriptions, and pubs
      maps each publish to the client it was admitted on. grants is the history of the last acknowledgements:
      the quality requested for each subscription and the one the broker granted. announced is the history of the
      clients that announced a connection while they were the entry's, and stalled says that an operation of the
      current client has timed out. */
  datatype Session = Session(entry: Entry, pc: Pc, live: map<Topic, Qos>, connected: bool, conn: nat, made: nat,
                             notices: multiset<nat>, unknown: set<Topic>, refused: set<Topic>, pubs: map<nat, nat>,
                             grants: map<Topic, Grant>, announced: set<nat>, stalled: bool)

  /** Calls made by collectors and by control commands. */
  datatype OwnerAction =
    | Attach(topic: Topic, owner: Owner, qos: Qos)
    | Detach(topic: Topic, owner: Owner)
    | StartPublish(id: nat)
    | EndPublish(id: nat)

  /** What the network, the broker and the Paho clients do. */
  datatype NetAction =
    | Connect(session: map<Topic, Qos>)
    | Disconnect
    | LateConnect(client: nat)
    | Announce(client: nat)
    | Land(topic: Topic, effect: map<Topic, Qos>)
    | Acknowledge(granted: Qos)
    | CleanUp(rest: map<Topic, Qos>)

  /** Steps of the loop itself. */
  datatype LoopAction =
    | Go
    | Connected
    | Restart
    | BeginPass(order: seq<Topic>)
    | SkipPass
    | Look
    | Refused(effect: map<Topic, Qos>)
    | TimedOut
    | ConnectionChanged
    | ConnectionLost
    | Commit
    | EndPass
    | Wake
    | Stop

  datatype Action = Owners(owners: OwnerAction) | Net(net: NetAction) | Run(loop: LoopAction)

  predicate InPass(pc: Pc) {
    pc.Pass? || pc.InFlight? || pc.Acked?
  }

  predicate Waits(pc: Pc) {
    pc.InFlight? || pc.Acked?
  }

  /** live changed at one topic only. */
  predicate OnlyAt(t: Topic, a: map<Topic, Qos>, b: map<Topic, Qos>) {
    a - {t} == b - {t}
  }

  /** An owner came or went, or a connection was announced. */
  function Stir(pc: Pc): Pc {
    if InPass(pc) then pc.(quiet := false) else pc
  }

  /** A subscription is recorded at the quality granted, which may be less than requested. */
  function Effect(live: map<Topic, Qos>, op: Op, granted: Qos): map<Topic, Qos> {
    match op
    case Subscribe(t, _) => live[t := granted]
    case Unsubscribe(t) => live - {t}
  }

  function Answered(grants: map<Topic, Grant>, op: Op, granted: Qos): map<Topic, Grant> {
    match op
    case Subscribe(t, q) => grants[t := Grant(q, granted)]
    case Unsubscribe(t) => grants - {t}
  }

  predicate OwnersMay(s: Session, a: OwnerAction) {
    var e := s.entry;
    match a
    case Attach(t, o, q) => !e.cancelled && SameOptions(o.cfg, e.cfg) && Key(o.cfg) == Key(e.cfg)
    case Detach(t, o) => t in e.filters && o in e.filters[t]
    case StartPublish(id) => id !in s.pubs && CanPublish(e, true)
    case EndPublish(id) => id in s.pubs
  }

  function OwnersDo(s: Session, a: OwnerAction): Session
    requires OwnersMay(s, a)
  {
    var e := s.entry;
    match a
    case Attach(t, o, q) => s.(entry := AddOwner(e, t, o, q), pc := Stir(s.pc))
    case Detach(t, o) => s.(entry := Release(e, t, o), pc := Stir(s.pc))
    case StartPublish(id) => s.(entry := Admit(e), pubs := s.pubs[id := e.client])
    case EndPublish(id) => s.(entry := Finish(e), pubs := s.pubs - {id})
  }

  predicate NetMay(s: Session, a: NetAction) {
    match a
    case Connect(_) => true
    case Disconnect => true
    case LateConnect(c) => c < s.made && c != s.entry.client
    case Announce(c) => c in s.notices
    case Land(t, effect) => t in s.unknown && OnlyAt(t, s.live, effect)
    case Acknowledge(granted) => s.pc.InFlight? && s.connected && (s.pc.op.Subscribe? ==> granted <= s.pc.op.qos)
    case CleanUp(_) => s.pc.Cleaning?
  }

  function NetDo(s: Session, a: NetAction): Session
    requires NetMay(s, a)
  {
    match a
    case Connect(session) =>
      s.(connected := true, conn := s.conn + 1, live := session, notices := s.notices + multiset{s.entry.client})
    case Disconnect => s.(connected := false)
    case LateConnect(c) => s.(notices := s.notices + multiset{c})
    case Announce(c) =>
      var heard := !s.entry.cancelled && s.entry.client == c;
      s.(entry := OnConnect(s.entry, c), notices := s.notices - multiset{c}, refused := if heard then {} else s.refused,
         pc := if heard then Stir(s.pc) else s.pc, announced := if heard then s.announced + {c} else s.announced)
    case Land(t, effect) => s.(live := effect)
    case Acknowledge(granted) =>
      s.(live := Effect(s.live, s.pc.op, granted), grants := Answered(s.grants, s.pc.op, granted),
        refused := s.refused - {s.pc.op.topic},
        pc := Acked(s.pc.op, s.pc.gen, s.pc.todo, s.pc.quiet))
    case CleanUp(rest) => s.(live := rest)
  }

  predicate LoopMay(s: Session, a: LoopAction) {
    match a
    case Go => s.pc.Starting?
    case Connected => s.pc.Connecting?
    case Restart => s.pc == Loop(true)
    case BeginPass(order) => s.pc == Loop(false) && s.entry.generation > 0
      && (set t | t in order) == s.entry.filters.Keys
    case SkipPass => s.pc == Loop(false)
    case Look => s.pc.Pass? && s.pc.todo != []
    case Refused(effect) => s.pc.InFlight? && s.connected && s.pc.op.Subscribe? && OnlyAt(s.pc.op.topic, s.live, effect)
    case TimedOut => Waits(s.pc)
    case ConnectionChanged => Waits(s.pc) && s.entry.generation != s.pc.gen
    case ConnectionLost => s.pc.InFlight? && (!s.connected || s.conn != s.pc.conn)
    case Commit => s.pc.Acked?
    case EndPass => s.pc.Pass? && s.pc.todo == []
    case Wake => s.pc.Sleeping?
    case Stop => s.entry.cancelled && !s.pc.Cleaning? && !s.pc.Ended?
  }

  /** The loop looks at the next topic of its pass. */
  function LookAt(s: Session): Session
    requires s.pc.Pass? && s.pc.todo != []
  {
    match Decide(s.entry, s.pc.todo[0])
    case Skip => s.(pc := Pass(s.pc.gen, s.pc.todo[1..], s.pc.quiet))
    case Apply(op) => s.(pc := InFlight(op, s.conn, s.pc.gen, s.pc.todo[1..], s.pc.quiet))
  }

  function GiveUp(s: Session, restart: bool): Session
    requires Waits(s.pc)
  {
    s.(pc := Sleeping(restart), unknown := s.unknown + {s.pc.op.topic})
  }

  function CommitOp(s: Session): Session
    requires s.pc.Acked?
  {
    s.(entry := Record(s.entry, s.pc.gen, s.pc.op),
       pc := if s.entry.generation == s.pc.gen then Pass(s.pc.gen, s.pc.todo, s.pc.quiet) else Sleeping(false))
  }

  /** Install a fresh client, unless a publish still uses the old one. */
  function RestartClient(s: Session): Session {
    if s.entry.publishes == 0 then
      s.(entry := Replace(s.entry, s.made), made := s.made + 1, connected := false, unknown := {}, refused := {},
        pc := Connecting(false))
    else s.(pc := Sleeping(true))
  }

  function LoopDo(s: Session, a: LoopAction): Session
    requires LoopMay(s, a)
  {
    match a
    case Go => s.(pc := Connecting(true))
    case Connected => s.(pc := if s.pc.first then Loop(false) else Sleeping(false))
    case Restart => RestartClient(s).(stalled := s.stalled && RestartClient(s).entry.client == s.entry.client)
    case BeginPass(order) => s.(pc := Pass(s.entry.generation, order, true))
    case SkipPass => s.(pc := Sleeping(false))
    case Look => LookAt(s)
    case Refused(effect) => s.(live := effect, refused := s.refused + {s.pc.op.topic}, pc := Sleeping(false))
    case TimedOut => GiveUp(s, true).(stalled := true)
    case ConnectionChanged => GiveUp(s, false)
    case ConnectionLost => s.(pc := Sleeping(false))
    case Commit => CommitOp(s)
    case EndPass => s.(pc := Sleeping(false))
    case Wake => s.(pc := Loop(s.pc.restart))
    case Stop => s.(pc := Cleaning)
  }

  predicate Enabled(s: Session, a: Action) {
    match a
    case Owners(o) => OwnersMay(s, o)
    case Net(n) => NetMay(s, n)
    case Run(l) => LoopMay(s, l)
  }

  function Do(s: Session, a: Action): Session
    requires Enabled(s, a)
  {
    match a
    case Owners(o) => OwnersDo(s, o)
    case Net(n) => NetDo(s, n)
    case Run(l) => LoopDo(s, l)
  }

  /** The session a first Watch creates. */
  function Opened(o: Owner, t: Topic, q: Qos): Session {
    Session(AddOwner(NewEntry(o.cfg, 0), t, o, q), Starting, map[], false, 0, 1, multiset{}, {}, {}, map[], map[],
            {}, false)
  }

  // ---------------------------------------------------------------- what every step keeps

  ghost predicate Pinned(s: Session) {
    && |s.pubs| == s.entry.publishes
    && (forall id | id in s.pubs :: s.pubs[id] == s.entry.client)
    && s.entry.client < s.made
    && (forall c | c in s.notices :: c < s.made)
    && (s.pc.Cleaning? || s.pc.Ended? ==> s.entry.cancelled)
  }

  /** The entry is in use, its connection is up and has been announced. */
  predicate Settled(s: Session) {
    s.connected && s.entry.client !in s.notices && !s.entry.cancelled
  }

  predicate Uncertain(s: Session, t: Topic) {
    t in s.unknown || t in s.refused || (Waits(s.pc) && s.pc.op.topic == t)
  }

  predicate Holds(live: map<Topic, Qos>, t: Topic, q: Qos) {
    t in live && live[t] == q
  }

  /** The broker last answered this request for the topic, and holds the topic at the quality it then granted. */
  predicate Granted(live: map<Topic, Qos>, grants: map<Topic, Grant>, t: Topic, requested: Qos) {
    && t in grants && grants[t].requested == requested
    && Holds(live, t, grants[t].granted) && grants[t].granted <= requested
  }

  /** Where the connection is settled and the topic certain, the broker holds what was applied, as granted. */
  ghost predicate Agrees(s: Session) {
    Settled(s) ==>
      forall t | t in s.entry.applied && !Uncertain(s, t) :: Granted(s.live, s.grants, t, s.entry.applied[t])
  }

  /** What a pass and its operation keep. */
  ghost predicate Underway(s: Session) {
    && (InPass(s.pc) ==> s.pc.gen <= s.entry.generation && (s.pc.gen < s.entry.generation ==> s.entry.applied == map[]))
    && (Waits(s.pc) ==> s.pc.op.topic in s.entry.filters)
    && (s.pc.InFlight? && Settled(s) && s.pc.gen == s.entry.generation ==> s.pc.conn == s.conn)
    && (s.pc.Acked? && Settled(s) && s.pc.gen == s.entry.generation && s.pc.op.Subscribe? && s.pc.op.topic !in s.unknown
        ==> Granted(s.live, s.grants, s.pc.op.topic, s.pc.op.qos))
  }

  /** What a quiet pass has done so far. */
  ghost predicate Progress(s: Session) {
    InPass(s.pc) && s.pc.quiet ==>
      && s.pc.gen == s.entry.generation > 0
      && (Waits(s.pc) ==> Decide(s.entry, s.pc.op.topic) == Apply(s.pc.op))
      && forall t | t in s.entry.filters && t !in s.pc.todo && !(Waits(s.pc) && s.pc.op.topic == t) ::
        Decide(s.entry, t) == Skip
  }

  /** The entry admits publishes exactly when its client has announced a connection. */
  ghost predicate Admits(s: Session) {
    && (!s.entry.cancelled ==> (s.entry.client in s.announced <==> !s.entry.restarting && s.entry.generation > 0))
    && (forall c | c in s.announced :: c < s.made)
  }

  /** The loop wants a fresh client exactly when an operation of the current one has timed out. */
  predicate WantsRestart(s: Session) {
    && (s.stalled && !s.pc.Cleaning? && !s.pc.Ended? ==> s.pc == Sleeping(true) || s.pc == Loop(true))
    && (s.pc == Sleeping(true) || s.pc == Loop(true) ==> s.stalled)
  }

  ghost predicate Inv(s: Session) {
    EntryInv(s.entry) && Pinned(s) && Agrees(s) && Underway(s) && Progress(s) && Admits(s) && WantsRestart(s)
  }

  lemma OpenedInv(o: Owner, t: Topic, q: Qos)
    ensures Inv(Opened(o, t, q))
  {
    hide Key;
    AddOwnerKeeps(NewEntry(o.cfg, 0), t, o, q);
  }

  lemma StepEntry(s: Session, a: Action)
    requires Inv(s) && Enabled(s, a)
    ensures EntryInv(Do(s, a).entry)
  {
    hide EntryInv, Pinned, Agrees, Progress, Admits, WantsRestart, OwnersDo, NetDo, LoopDo;
    match a
    case Owners(o) => OwnersEntry(s, o);
    case Net(n) => NetEntry(s, n);
    case Run(l) => LoopEntry(s, l);
  }

  lemma OwnersEntry(s: Session, a: OwnerAction)
    requires EntryInv(s.entry) && Pinned(s) && OwnersMay(s, a)
    ensures EntryInv(OwnersDo(s, a).entry)
  {
    hide EntryInv, Release, Finish, Key;
    match a
    case Attach(t, o, q) => AddOwnerKeeps(s.entry, t, o, q);
    case Detach(t, o) => ReleaseKeeps(s.entry, t, o);
    case StartPublish(_) => OtherSectionsKeep(s.entry, 0);
    case EndPublish(_) => OtherSectionsKeep(s.entry, 0);
  }

  lemma NetEntry(s: Session, a: NetAction)
    requires EntryInv(s.entry) && NetMay(s, a)
    ensures EntryInv(NetDo(s, a).entry)
  {
    hide EntryInv, OnConnect, Effect, Answered, OnlyAt;
    if a.Announce? {
      OtherSectionsKeep(s.entry, a.client);
    }
  }

  lemma LoopEntry(s: Session, a: LoopAction)
    requires EntryInv(s.entry) && Underway(s) && LoopMay(s, a)
    ensures EntryInv(LoopDo(s, a).entry)
  {
    hide EntryInv, Underway, Record, Decide, OnlyAt;
    match a
    case Restart => OtherSectionsKeep(s.entry, s.made);
    case Commit => CommitEntry(s);
    case _ =>
  }

  lemma CommitEntry(s: Session)
    requires EntryInv(s.entry) && Underway(s) && s.pc.Acked?
    ensures EntryInv(CommitOp(s).entry)
  {
    hide EntryInv, Record;
    RecordKeeps(s.entry, s.pc.gen, s.pc.op);
  }

  // ---------------------------------------------------------------- owners and publishes

  /** A step that leaves the publishes and the clients alone keeps the publishes pinned. */
  lemma StillPinned(s: Session, t: Session)
    requires Pinned(s) && t.pubs == s.pubs && t.entry.publishes == s.entry.publishes
    requires t.entry.client == s.entry.client && t.made == s.made
    requires forall c | c in t.notices :: c in s.notices || c < t.made
    requires t.pc.Cleaning? || t.pc.Ended? ==> t.entry.cancelled
    ensures Pinned(t)
  {
  }

  lemma CleaningCancelled(s: Session)
    requires Pinned(s)
    ensures s.pc.Cleaning? || s.pc.Ended? ==> s.entry.cancelled
    ensures s.entry.client < s.made
  {
  }

  lemma OwnersPinned(s: Session, a: OwnerAction)
    requires Inv(s) && OwnersMay(s, a)
    ensures Pinned(OwnersDo(s, a))
  {
    hide EntryInv, Pinned, Agrees, Underway, Progress, Key, AddOwner, Release, Finish;
    CleaningCancelled(s);
    match a
    case Attach(t, o, q) =>
      OwnersOnly(s.entry, t, o, q);
      StillPinned(s, OwnersDo(s, a));
    case Detach(t, o) =>
      OwnersOnly(s.entry, t, o, 0);
      StillPinned(s, OwnersDo(s, a));
    case StartPublish(id) => StartPinned(s, id);
    case EndPublish(id) => EndPinned(s, id);
  }

  lemma StartPinned(s: Session, id: nat)
    requires Pinned(s) && id !in s.pubs && !s.entry.cancelled
    ensures Pinned(s.(entry := Admit(s.entry), pubs := s.pubs[id := s.entry.client]))
  {
  }

  lemma EndPinned(s: Session, id: nat)
    requires Pinned(s) && id in s.pubs
    ensures Pinned(s.(entry := Finish(s.entry), pubs := s.pubs - {id}))
  {
    hide Finish;
    PublishesOnly(s.entry);
    OneFewer(s.pubs, id);
  }

  lemma OwnersOnly(e: Entry, t: Topic, o: Owner, q: Qos)
    ensures AddOwner(e, t, o, q) == e.(filters := AddOwner(e, t, o, q).filters)
    ensures Release(e, t, o) == e.(filters := Release(e, t, o).filters, cancelled := Release(e, t, o).cancelled)
    ensures e.cancelled ==> Release(e, t, o).cancelled
  {
    hide Unused, OwnersOf;
  }

  lemma PublishesOnly(e: Entry)
    ensures Finish(e) == e.(publishes := e.publishes - 1, cancelled := Finish(e).cancelled)
    ensures e.cancelled ==> Finish(e).cancelled
  {
    hide Unused;
  }

  lemma OneFewer(m: map<nat, nat>, id: nat)
    requires id in m
    ensures |m - {id}| == |m| - 1
  {
    assert (m - {id}).Keys == m.Keys - {id};
    assert |(m - {id}).Keys| == |m.Keys| - 1;
  }

  lemma OwnersAgrees(s: Session, a: OwnerAction)
    requires Inv(s) && OwnersMay(s, a)
    ensures Agrees(OwnersDo(s, a)) && Underway(OwnersDo(s, a))
  {
    hide EntryInv, Pinned, Progress, Key, Unused;
  }

  lemma OwnersProgress(s: Session, a: OwnerAction)
    requires Inv(s) && OwnersMay(s, a)
    ensures Progress(OwnersDo(s, a))
  {
    hide EntryInv, Pinned, Agrees, Underway, Key, Unused, MaxQos;
  }

  // ---------------------------------------------------------------- the network

  lemma NetPinned(s: Session, a: NetAction)
    requires Inv(s) && NetMay(s, a)
    ensures Pinned(NetDo(s, a))
  {
    hide EntryInv, Pinned, Agrees, Underway, Progress, Effect, OnlyAt, OnConnect;
    CleaningCancelled(s);
    NetLeaves(s, a);
    NoticesBound(s);
    StillPinned(s, NetDo(s, a));
  }

  lemma NoticesBound(s: Session)
    requires Pinned(s)
    ensures forall c | c in s.notices :: c < s.made
  {
  }

  /** What the network leaves alone. */
  lemma NetLeaves(s: Session, a: NetAction)
    requires NetMay(s, a)
    ensures var t := NetDo(s, a);
      && t.pubs == s.pubs && t.made == s.made && t.entry.cfg == s.entry.cfg && t.entry.publishes == s.entry.publishes
      && t.entry.client == s.entry.client && t.entry.cancelled == s.entry.cancelled
      && (t.pc.Cleaning? <==> s.pc.Cleaning?) && (t.pc.Ended? <==> s.pc.Ended?)
  {
    hide Effect, OnlyAt, OnConnect, Stir;
    match a
    case Announce(c) =>
      AnnounceLeaves(s.entry, c);
      StirLeaves(s.pc);
    case _ =>
  }

  lemma AnnounceLeaves(e: Entry, client: nat)
    ensures var f := OnConnect(e, client);
      f == e.(restarting := f.restarting, generation := f.generation, applied := f.applied)
  {
  }

  lemma StirLeaves(pc: Pc)
    ensures (Stir(pc).Cleaning? <==> pc.Cleaning?) && (Stir(pc).Ended? <==> pc.Ended?)
  {
  }

  lemma NetAgrees(s: Session, a: NetAction)
    requires Inv(s) && NetMay(s, a)
    ensures Agrees(NetDo(s, a))
  {
    CleaningCancelled(s);
    hide EntryInv, Pinned, Progress, OnlyAt, Underway;
    match a
    case Land(t, effect) => ElsewhereSame(t, s.live, effect);
    case Announce(c) => AnnounceAgrees(s, c);
    case Acknowledge(granted) => AcknowledgeAgrees(s, granted);
    case _ =>
  }

  lemma AnnounceAgrees(s: Session, c: nat)
    requires Agrees(s) && c in s.notices
    ensures Agrees(NetDo(s, Announce(c)))
  {
    hide Granted, Effect;
  }

  lemma AcknowledgeAgrees(s: Session, granted: Qos)
    requires Agrees(s) && NetMay(s, Acknowledge(granted))
    ensures Agrees(NetDo(s, Acknowledge(granted)))
  {
  }

  lemma NetUnderway(s: Session, a: NetAction)
    requires Inv(s) && NetMay(s, a)
    ensures Underway(NetDo(s, a))
  {
    CleaningCancelled(s);
    hide EntryInv, Pinned, Progress, OnlyAt, Agrees;
    match a
    case Land(t, effect) => ElsewhereSame(t, s.live, effect);
    case Announce(c) => AnnounceUnderway(s, c);
    case Acknowledge(granted) => AcknowledgeUnderway(s, granted);
    case _ =>
  }

  lemma AnnounceUnderway(s: Session, c: nat)
    requires Underway(s) && c in s.notices
    ensures Underway(NetDo(s, Announce(c)))
  {
    hide Holds, Effect;
  }

  lemma AcknowledgeUnderway(s: Session, granted: Qos)
    requires Underway(s) && NetMay(s, Acknowledge(granted))
    ensures Underway(NetDo(s, Acknowledge(granted)))
  {
  }

  lemma ElsewhereSame(t: Topic, a: map<Topic, Qos>, b: map<Topic, Qos>)
    requires OnlyAt(t, a, b)
    ensures forall u, q | u != t :: Holds(a, u, q) <==> Holds(b, u, q)
  {
    forall u, q | u != t
      ensures Holds(a, u, q) <==> Holds(b, u, q)
    {
      assert Holds(a, u, q) <==> Holds(a - {t}, u, q);
      assert Holds(b, u, q) <==> Holds(b - {t}, u, q);
    }
  }

  lemma NetProgress(s: Session, a: NetAction)
    requires Inv(s) && NetMay(s, a)
    ensures Progress(NetDo(s, a))
  {
    hide EntryInv, Pinned, Agrees, Underway, Decide, Effect, OnlyAt;
  }

  // ---------------------------------------------------------------- the loop

  lemma LoopPinned(s: Session, a: LoopAction)
    requires Inv(s) && LoopMay(s, a)
    ensures Pinned(LoopDo(s, a))
  {
    hide EntryInv, Pinned, Agrees, Underway, Progress, OnlyAt, RestartClient, CommitOp, LookAt, GiveUp;
    CleaningCancelled(s);
    match a
    case Restart => RestartPinned(s);
    case _ =>
      LoopLeaves(s, a);
      StillPinned(s, LoopDo(s, a));
  }

  lemma OwnersAdmits(s: Session, a: OwnerAction)
    requires Inv(s) && OwnersMay(s, a)
    ensures Admits(OwnersDo(s, a)) && WantsRestart(OwnersDo(s, a))
  {
    hide EntryInv, Pinned, Agrees, Underway, Progress, Key, AddOwner, Release, Finish;
    match a
    case Attach(t, o, q) => OwnersOnly(s.entry, t, o, q);
    case Detach(t, o) => OwnersOnly(s.entry, t, o, 0);
    case StartPublish(_) =>
    case EndPublish(_) => PublishesOnly(s.entry);
  }

  lemma NetAdmits(s: Session, a: NetAction)
    requires Inv(s) && NetMay(s, a)
    ensures Admits(NetDo(s, a)) && WantsRestart(NetDo(s, a))
  {
    NoticesBound(s);
    hide EntryInv, Pinned, Agrees, Underway, Progress, Effect, Answered, OnlyAt, OnConnect, Stir;
    match a
    case Announce(c) => AnnounceAdmits(s, c);
    case _ =>
  }

  lemma AnnounceAdmits(s: Session, c: nat)
    requires Admits(s) && WantsRestart(s) && c in s.notices && c < s.made
    ensures Admits(NetDo(s, Announce(c))) && WantsRestart(NetDo(s, Announce(c)))
  {
  }

  lemma LoopAdmits(s: Session, a: LoopAction)
    requires Inv(s) && LoopMay(s, a)
    ensures Admits(LoopDo(s, a)) && WantsRestart(LoopDo(s, a))
  {
    CleaningCancelled(s);
    hide EntryInv, Pinned, Agrees, Underway, Progress, OnlyAt, RestartClient, CommitOp, LookAt;
    match a
    case Restart => RestartAdmits(s);
    case Commit => CommitLeaves(s);
    case Look => LookLeaves(s);
    case _ =>
  }

  lemma RestartAdmits(s: Session)
    requires Admits(s) && WantsRestart(s) && s.pc == Loop(true) && s.entry.client < s.made
    ensures Admits(LoopDo(s, Restart)) && WantsRestart(LoopDo(s, Restart))
  {
  }

  lemma CommitLeaves(s: Session)
    requires s.pc.Acked?
    ensures var t := CommitOp(s);
      t == s.(entry := s.entry.(applied := t.entry.applied, filters := t.entry.filters), pc := t.pc)
      && (t.pc.Pass? || t.pc == Sleeping(false))
  {
    RecordLeaves(s.entry, s.pc.gen, s.pc.op);
    hide Record;
  }

  lemma LookLeaves(s: Session)
    requires s.pc.Pass? && s.pc.todo != []
    ensures LookAt(s) == s.(pc := LookAt(s).pc) && (LookAt(s).pc.Pass? || LookAt(s).pc.InFlight?)
  {
    hide Decide;
  }

  lemma RestartPinned(s: Session)
    requires Pinned(s) && s.pc == Loop(true)
    ensures Pinned(LoopDo(s, Restart))
  {
    if s.entry.publishes == 0 {
      assert forall id :: id !in s.pubs;
    }
  }

  /** What the loop leaves alone when it does not restart its client. */
  lemma LoopLeaves(s: Session, a: LoopAction)
    requires LoopMay(s, a) && !a.Restart?
    ensures var t := LoopDo(s, a);
      && t.pubs == s.pubs && t.made == s.made && t.notices == s.notices
      && t.entry.cfg == s.entry.cfg && t.entry.publishes == s.entry.publishes
      && t.entry.client == s.entry.client && t.entry.cancelled == s.entry.cancelled
      && (t.pc.Cleaning? ==> s.pc.Cleaning? || s.entry.cancelled) && (t.pc.Ended? <==> s.pc.Ended?)
  {
    hide Decide, OnlyAt;
    match a
    case Commit => RecordLeaves(s.entry, s.pc.gen, s.pc.op);
    case _ =>
  }

  lemma RecordLeaves(e: Entry, gen: nat, op: Op)
    ensures Record(e, gen, op) == e.(applied := Record(e, gen, op).applied, filters := Record(e, gen, op).filters)
  {
    hide OwnersOf;
  }

  lemma LoopAgrees(s: Session, a: LoopAction)
    requires Inv(s) && LoopMay(s, a)
    ensures Agrees(LoopDo(s, a))
  {
    hide EntryInv, Pinned, Progress, OnlyAt, OwnersOf, Decide;
    if a.Refused? {
      ElsewhereSame(s.pc.op.topic, s.live, a.effect);
    }
  }

  lemma LoopUnderway(s: Session, a: LoopAction)
    requires Inv(s) && LoopMay(s, a)
    ensures Underway(LoopDo(s, a))
  {
    hide EntryInv, Pinned, Agrees, Progress, OnlyAt, Granted, CommitOp, LookAt;
    match a
    case Look => LookUnderway(s);
    case Commit => CommitUnderway(s);
    case _ =>
  }

  lemma LookUnderway(s: Session)
    requires Underway(s) && s.pc.Pass? && s.pc.todo != []
    ensures Underway(LookAt(s))
  {
    hide Granted, MaxQos;
  }

  lemma CommitUnderway(s: Session)
    requires Underway(s) && s.pc.Acked?
    ensures Underway(CommitOp(s))
  {
    hide Granted, OwnersOf;
  }

  lemma LoopProgress(s: Session, a: LoopAction)
    requires Inv(s) && LoopMay(s, a)
    ensures Progress(LoopDo(s, a))
  {
    hide EntryInv, Pinned, Agrees, OnlyAt, Decide, Granted, CommitOp, LookAt;
    match a
    case Look => LookProgress(s);
    case Commit => CommitProgress(s);
    case _ =>
  }

  lemma LookProgress(s: Session)
    requires Progress(s) && s.pc.Pass? && s.pc.todo != []
    ensures Progress(LookAt(s))
  {
    DecidedTopic(s.entry, s.pc.todo[0]);
    hide Decide;
  }

  lemma DecidedTopic(e: Entry, t: Topic)
    ensures Decide(e, t).Apply? ==> Decide(e, t).op.topic == t
  {
    hide MaxQos;
  }

  lemma CommitProgress(s: Session)
    requires Underway(s) && Progress(s) && s.pc.Acked?
    ensures Progress(CommitOp(s))
  {
    hide MaxQos, Granted;
  }

  /** Every step of the loop, its owners, its publishes and the network keeps everything. */
  lemma StepKeeps(s: Session, a: Action)
    requires Inv(s) && Enabled(s, a)
    ensures Inv(Do(s, a))
  {
    StepEntry(s, a);
    hide EntryInv, Pinned, Agrees, Underway, Progress, Admits, WantsRestart, OwnersDo, NetDo, LoopDo;
    match a
    case Owners(o) =>
      OwnersAdmits(s, o);
      OwnersPinned(s, o);
      OwnersAgrees(s, o);
      OwnersProgress(s, o);
    case Net(n) =>
      NetAdmits(s, n);
      NetPinned(s, n);
      NetAgrees(s, n);
      NetUnderway(s, n);
      NetProgress(s, n);
    case Run(l) =>
      LoopAdmits(s, l);
      LoopPinned(s, l);
      LoopAgrees(s, l);
      LoopUnderway(s, l);
      LoopProgress(s, l);
  }

  // ---------------------------------------------------------------- what disturbs a pass

  predicate Stirs(s: Session, a: Action) {
    (a.Owners? && (a.owners.Attach? || a.owners.Detach?)) ||
    (a.Net? && a.net.Announce? && !s.entry.cancelled && a.net.client == s.entry.client)
  }

  /** A pass stays quiet exactly while no owner comes or goes and its client announces no connection. */
  lemma QuietUnlessStirred(s: Session, a: Action)
    requires Enabled(s, a) && InPass(s.pc) && InPass(Do(s, a).pc)
    ensures Do(s, a).pc.quiet <==> s.pc.quiet && !Stirs(s, a)
  {
    hide OwnersDo, NetDo, LoopDo, OwnersMay, NetMay, LoopMay;
    match a
    case Owners(o) => OwnersStir(s, o);
    case Net(n) => NetStirs(s, n);
    case Run(l) => LoopIsQuiet(s, l);
  }

  lemma OwnersStir(s: Session, a: OwnerAction)
    requires OwnersMay(s, a) && InPass(s.pc) && InPass(OwnersDo(s, a).pc)
    ensures OwnersDo(s, a).pc.quiet <==> s.pc.quiet && !a.Attach? && !a.Detach?
  {
    hide Key, AddOwner, Release, Finish;
  }

  lemma NetStirs(s: Session, a: NetAction)
    requires NetMay(s, a) && InPass(s.pc) && InPass(NetDo(s, a).pc)
    ensures NetDo(s, a).pc.quiet <==> s.pc.quiet && !(a.Announce? && !s.entry.cancelled && a.client == s.entry.client)
  {
    hide Effect, OnlyAt, OnConnect;
  }

  lemma LoopIsQuiet(s: Session, a: LoopAction)
    requires LoopMay(s, a) && InPass(s.pc) && InPass(LoopDo(s, a).pc)
    ensures LoopDo(s, a).pc.quiet <==> s.pc.quiet
  {
    hide Decide, OnlyAt, Record;
  }
}
