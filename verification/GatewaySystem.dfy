/** Health checks with their status writes, business transactions and configuration reloads, in every
    interleaving of their sections. The manager is never closed. */
module GatewaySystem {
  import opened Text
  import opened GatewayConfig
  import opened GatewayPool

  datatype ProbeState = Unknown | Healthy | Unhealthy | Busy | Stale

  /** What the environment answers: the state of a socket, the outcome of a dial. */
  datatype Verdict = InspectFailed | Up | Down | Unclear

  datatype Dial = Fails | NoKeepAlive | Connects(keepAliveOK: bool)

  datatype Env = Env(cancelled: bool, verdict: Verdict, dial: Dial)

  /** Where one target's check is; guarded says that it holds the endpoint's guard. */
  datatype CheckPc =
    | Begin
    | Found
    | Peek(entry: nat)
    | Peeked(conn: Conn, keepAliveOK: bool)
    | Guarded
    | GuardedPeek(entry: nat)
    | Inspecting(conn: Conn, keepAliveOK: bool, guarded: bool)
    | Dropping(conn: Conn)
    | DroppingAt(entry: nat, conn: Conn)
    | Dialling
    | Storing(conn: Conn, keepAliveOK: bool)
    | Resetting(guarded: bool)
    | Leaving(state: ProbeState)
    | Probed(state: ProbeState)
    | Publishing(state: ProbeState, next: nat)
    | Writing(state: ProbeState, next: nat)
    | Done

  datatype BusinessPc =
    | Wants
    | Holding
    | HoldingNoEntry
    | HasEntry(entry: nat, pure: bool)
    | BusinessDial(entry: nat, pure: bool)
    | Using
    | Failing
    | Over

  /** snapshot is the target a round queued; target and gen are what the probe found; late counts the statuses
      written after a reload. */
  datatype Process =
    | Check(key: Endpoint, snapshot: Target, target: Target, gen: nat, late: nat, pc: CheckPc)
    | Business(key: Endpoint, business: BusinessPc)

  /** What the failure counters are about, as it happened. A reload that installs targets and the cleanup
      that forgets the counters of other endpoints are events of their own. */
  datatype Outcome =
    | DialFailed(key: Endpoint)
    | CameHealthy(key: Endpoint)
    | Reloaded(keys: set<Endpoint>)
    | Forgotten(kept: set<Endpoint>)

  datatype Status = Status(check: nat, deviceID: string, online: bool)

  /** What a check was told on its way: the connection it read, the state of its socket and whether it looked with
      the guard, the outcome of its dial and whether another failure stood, whether the dialled connection was kept. */
  datatype Answer =
    | Read(conn: Conn, keepAliveOK: bool)
    | Looked(verdict: Verdict, guarded: bool)
    | Dialled(dial: Dial, second: bool)
    | Kept(kept: bool)

  /** config is the configuration loaded last; pending are the reloads that have still to forget counters; told is
      the history of each process. */
  datatype State = State(pool: Pool, config: seq<Device>, processes: seq<Process>, pending: seq<set<Endpoint>>,
                         nextConn: nat, outcomes: seq<Outcome>, written: seq<Status>, told: seq<seq<Answer>>)

  datatype Action =
    | StartCheck(snapshot: Target)
    | StartBusiness(key: Endpoint)
    | Step(process: nat, env: Env)
    | ReloadConfig(devices: seq<Device>)
    | ForgetOld(which: nat)
    | ResetConnection(key: Endpoint)

  // ---------------------------------------------------------------- one check

  predicate CheckHolds(pc: CheckPc) {
    match pc
    case Guarded => true
    case GuardedPeek(_) => true
    case Inspecting(_, _, guarded) => guarded
    case Dropping(_) => true
    case DroppingAt(_, _) => true
    case Dialling => true
    case Storing(_, _) => true
    case Resetting(guarded) => guarded
    case Leaving(_) => true
    case _ => false
  }

  function End(guarded: bool, state: ProbeState): CheckPc {
    if guarded then Leaving(state) else Probed(state)
  }

  function Inspected(conn: Conn, keepAliveOK: bool, guarded: bool, verdict: Verdict): CheckPc {
    match verdict
    case InspectFailed => End(guarded, Unknown)
    case Up =>
      if keepAliveOK then Resetting(guarded)
      else if guarded then Dropping(conn)
      else Probed(Unknown)
    case Down => if guarded then Dropping(conn) else Probed(Unhealthy)
    case Unclear => End(guarded, Unknown)
  }

  function CheckNext(p: Pool, c: Process, env: Env, conn: nat): (r: Process)
    requires c.Check? && EntryKnown(p, c) && ConnsKnown(p)
    ensures r.Check? && r.key == c.key
  {
    match c.pc
    case Begin =>
      var i := FindFrom(p.targets, c.key, 0);
      if i == |p.targets| then c.(pc := Done) else c.(target := p.targets[i], gen := p.generation, pc := Found)
    case Found =>
      c.(pc :=
        if env.cancelled then Probed(Unknown)
        else if c.key in p.conns then Peek(p.conns[c.key])
        else Peeked(NoConn, false))
    case Peek(e) => c.(pc := Peeked(p.entries[e].conn, p.entries[e].keepAliveOK))
    case Peeked(conn, keepAliveOK) =>
      c.(pc :=
        if c.key !in p.busy then Guarded
        else if conn.NoConn? then Probed(Busy)
        else Inspecting(conn, keepAliveOK, false))
    case Guarded => c.(pc := if c.key in p.conns then GuardedPeek(p.conns[c.key]) else Dialling)
    case GuardedPeek(e) =>
      c.(pc :=
        if p.entries[e].conn.NoConn? then Dialling
        else Inspecting(p.entries[e].conn, p.entries[e].keepAliveOK, true))
    case Inspecting(conn, keepAliveOK, guarded) => c.(pc := Inspected(conn, keepAliveOK, guarded, env.verdict))
    case Dropping(conn) => c.(pc := if c.key in p.conns then DroppingAt(p.conns[c.key], conn) else Dialling)
    case DroppingAt(_, _) => c.(pc := Dialling)
    case Dialling =>
      c.(pc := match env.dial
               case Fails => Leaving(if FailureCount(p, c.key) + 1 >= THRESHOLD then Unhealthy else Unknown)
               case NoKeepAlive => Leaving(Unknown)
               case Connects(ok) => Storing(Conn(conn, ForHealth(c.gen)), ok))
    case Storing(_, _) => c.(pc := if Stores(p, c.key, c.gen) then Resetting(true) else Leaving(Stale))
    case Resetting(guarded) => c.(pc := End(guarded, Healthy))
    case Leaving(state) => c.(pc := Probed(state))
    case Probed(state) =>
      var publish := (state.Healthy? || state.Unhealthy?) && p.generation == c.gen && c.target == c.snapshot;
      c.(pc := if publish then Publishing(state, 0) else Done)
    case Publishing(state, i) =>
      c.(pc := if i < |c.snapshot.deviceIDs| && p.generation == c.gen then Writing(state, i) else Done)
    case Writing(state, i) =>
      c.(pc := Publishing(state, i + 1), late := if p.generation == c.gen then c.late else c.late + 1)
    case Done => c
  }

  function CheckPool(p: Pool, c: Process, env: Env): Pool
    requires c.Check? && EntryKnown(p, c) && ConnsKnown(p)
  {
    match c.pc
    case Peeked(_, _) => if c.key in p.busy then p else MarkBusy(p, c.key)
    case DroppingAt(e, conn) => Drop(p, e, conn)
    case Dialling => if env.dial.Fails? then NoteFailure(p, c.key) else p
    case Storing(conn, ok) => if Stores(p, c.key, c.gen) then Store(p, c.key, conn, ok) else p
    case Resetting(_) => ResetFailures(p, c.key)
    case Leaving(_) => ClearBusy(p, c.key)
    case _ => p
  }

  function CheckOutcome(c: Process, env: Env): seq<Outcome>
    requires c.Check?
  {
    match c.pc
    case Dialling => if env.dial.Fails? then [DialFailed(c.key)] else []
    case Resetting(_) => [CameHealthy(c.key)]
    case _ => []
  }

  function CheckWrite(check: nat, c: Process): (r: seq<Status>)
    requires c.Check?
    ensures |r| <= 1 && forall w | w in r :: w.check == check
  {
    match c.pc
    case Writing(state, i) =>
      if i < |c.snapshot.deviceIDs| then [Status(check, c.snapshot.deviceIDs[i], state.Healthy?)] else []
    case _ => []
  }

  // ---------------------------------------------------------------- one business transaction

  predicate BusinessHolds(pc: BusinessPc) {
    !pc.Wants? && !pc.Over?
  }

  function BusinessNext(p: Pool, b: Process, env: Env): (r: Process)
    requires b.Business? && EntryKnown(p, b)
    ensures r.Business? && r.key == b.key
  {
    b.(business :=
      match b.business
      case Wants => if b.key in p.busy then Over else Holding
      case Holding =>
        if b.key !in p.gateways then Failing
        else if b.key in p.conns then HasEntry(p.conns[b.key], IsTarget(p, b.key))
        else HoldingNoEntry
      case HoldingNoEntry =>
        if b.key !in p.gateways then Failing
        else HasEntry(if b.key in p.conns then p.conns[b.key] else |p.entries|, IsTarget(p, b.key))
      case HasEntry(e, pure) => if p.entries[e].conn.NoConn? then BusinessDial(e, pure) else Using
      case BusinessDial(_, _) => if env.dial.Fails? then Failing else Using
      case Using => Over
      case Failing => Over
      case Over => Over)
  }

  function BusinessPool(p: Pool, b: Process, env: Env, conn: nat): Pool
    requires b.Business? && EntryKnown(p, b)
  {
    match b.business
    case Wants => if b.key in p.busy then p else MarkBusy(p, b.key)
    case HoldingNoEntry => MakeEntry(p, b.key)
    case BusinessDial(e, pure) =>
      if env.dial.Fails? then p else SetEntry(p, e, Entry(Conn(conn, ForBusiness), pure && env.dial == Connects(true)))
    case Using => ClearBusy(p, b.key)
    case Failing => ClearBusy(p, b.key)
    case _ => p
  }

  // ---------------------------------------------------------------- all of them

  predicate Holds(p: Process) {
    if p.Check? then CheckHolds(p.pc) else BusinessHolds(p.business)
  }

  /** A process is dialling. */
  predicate Dials(p: Process) {
    if p.Check? then p.pc.Dialling? else p.business.BusinessDial?
  }

  /** An entry a process remembers exists. */
  predicate EntryKnown(p: Pool, x: Process) {
    if x.Check? then
      && (x.pc.Peek? ==> x.pc.entry < |p.entries|)
      && (x.pc.GuardedPeek? ==> x.pc.entry < |p.entries|)
      && (x.pc.DroppingAt? ==> x.pc.entry < |p.entries|)
    else
      && (x.business.HasEntry? ==> x.business.entry < |p.entries|)
      && (x.business.BusinessDial? ==> x.business.entry < |p.entries|)
  }

  predicate ConnsKnown(p: Pool) {
    forall k | k in p.conns :: p.conns[k] < |p.entries|
  }

  function NextProcess(p: Pool, x: Process, env: Env, conn: nat): (r: Process)
    requires EntryKnown(p, x) && ConnsKnown(p)
    ensures r.Check? == x.Check? && r.key == x.key
  {
    if x.Check? then CheckNext(p, x, env, conn) else BusinessNext(p, x, env)
  }

  function NextPool(p: Pool, x: Process, env: Env, conn: nat): Pool
    requires EntryKnown(p, x) && ConnsKnown(p)
  {
    if x.Check? then CheckPool(p, x, env) else BusinessPool(p, x, env, conn)
  }

  /** What a step of a check tells it, as the environment, the pool and the histories have it. */
  function Told(s: State, x: Process, env: Env): seq<Answer>
    requires EntryKnown(s.pool, x)
  {
    if !x.Check? then []
    else
      match x.pc
      case Found => if env.cancelled || x.key in s.pool.conns then [] else [Read(NoConn, false)]
      case Peek(e) => [Read(s.pool.entries[e].conn, s.pool.entries[e].keepAliveOK)]
      case Guarded => if x.key in s.pool.conns then [] else [Read(NoConn, false)]
      case GuardedPeek(e) => [Read(s.pool.entries[e].conn, s.pool.entries[e].keepAliveOK)]
      case Inspecting(_, _, _) => [Looked(env.verdict, Holds(x))]
      case Dialling => [Dialled(env.dial, FailuresSince(s.outcomes, x.key) >= 1)]
      case Storing(_, _) => [Kept(s.pool.generation == x.gen && x.key in Gateways(s.config))]
      case _ => []
  }

  predicate Enabled(s: State, a: Action) {
    match a
    case Step(i, _) => i < |s.processes|
    case ForgetOld(j) => j < |s.pending|
    case _ => true
  }

  /** Every entry number in the state is one of the pool's. */
  predicate Sound(s: State) {
    && ConnsKnown(s.pool) && |s.told| == |s.processes|
    && forall i | 0 <= i < |s.processes| :: EntryKnown(s.pool, s.processes[i])
  }

  function Do(s: State, a: Action): State
    requires Sound(s) && Enabled(s, a)
  {
    match a
    case StartCheck(t) => s.(processes := s.processes + [Check(t.key, t, t, 0, 0, Begin)], told := s.told + [[]])
    case StartBusiness(key) => s.(processes := s.processes + [Business(key, Wants)], told := s.told + [[]])
    case Step(i, env) =>
      var x := s.processes[i];
      s.(pool := NextPool(s.pool, x, env, s.nextConn),
         processes := s.processes[i := NextProcess(s.pool, x, env, s.nextConn)],
         nextConn := s.nextConn + 1,
         outcomes := s.outcomes + OutcomeOf(x, env),
         written := s.written + if x.Check? then CheckWrite(i, x) else [],
         told := s.told[i := s.told[i] + Told(s, x, env)])
    case ReloadConfig(devices) =>
      var keys := KeysOf(Targets(devices));
      s.(pool := Reload(s.pool, Targets(devices), Gateways(devices)), config := devices, pending := s.pending + [keys],
         outcomes := s.outcomes + [Reloaded(keys)])
    case ForgetOld(j) =>
      s.(pool := Forget(s.pool, s.pending[j]), pending := s.pending[..j] + s.pending[j + 1..],
        outcomes := s.outcomes + [Forgotten(s.pending[j])])
    case ResetConnection(key) => s.(pool := Reset(s.pool, key))
  }

  // ---------------------------------------------------------------- guards

  /** The flag of an endpoint is up exactly while one process holds its guard. */
  ghost predicate Exclusive(busy: set<Endpoint>, xs: seq<Process>) {
    && (forall i, j | 0 <= i < j < |xs| && Holds(xs[i]) && Holds(xs[j]) :: xs[i].key != xs[j].key)
    && (forall i | 0 <= i < |xs| && Holds(xs[i]) :: xs[i].key in busy)
    && (forall k | k in busy :: exists i | 0 <= i < |xs| :: Holds(xs[i]) && xs[i].key == k)
  }

  /** What a step of a process does with the guard. */
  lemma GuardStep(p: Pool, x: Process, env: Env, conn: nat)
    requires EntryKnown(p, x) && ConnsKnown(p)
    ensures var y, q := NextProcess(p, x, env, conn), NextPool(p, x, env, conn);
      && y.key == x.key && (y.Check? <==> x.Check?)
      && q.busy == (
           if !Holds(x) && Holds(y) then p.busy + {x.key}
           else if Holds(x) && !Holds(y) then p.busy - {x.key}
           else p.busy)
      && (!Holds(x) && Holds(y) ==> x.key !in p.busy)
  {
    hide FindFrom, IsTarget;
  }

  lemma ExclusiveStep(busy: set<Endpoint>, xs: seq<Process>, i: nat, y: Process, after: set<Endpoint>)
    requires Exclusive(busy, xs) && i < |xs| && y.key == xs[i].key
    requires after ==
      if !Holds(xs[i]) && Holds(y) then busy + {y.key}
      else if Holds(xs[i]) && !Holds(y) then busy - {y.key}
      else busy
    requires !Holds(xs[i]) && Holds(y) ==> y.key !in busy
    ensures Exclusive(after, xs[i := y])
  {
    hide Holds;
    var ys := xs[i := y];
    forall k | k in after
      ensures exists j | 0 <= j < |ys| :: Holds(ys[j]) && ys[j].key == k
    {
      if k == y.key && Holds(y) {
        assert Holds(ys[i]);
      } else {
        assert k in busy;
        var j :| 0 <= j < |xs| && Holds(xs[j]) && xs[j].key == k;
        assert j != i;
        assert ys[j] == xs[j];
      }
    }
  }

  // ---------------------------------------------------------------- what every step keeps

  /** What a check knows about the configuration it found. */
  ghost predicate Fresh(p: Pool, x: Process) {
    x.Check? && !x.pc.Begin? && !x.pc.Done? ==>
      && x.gen <= p.generation
      && (x.gen == p.generation ==> x.target in p.targets && x.target.key == x.key)
      && (x.pc.Storing? ==> x.pc.conn.Conn? && x.pc.conn.origin == ForHealth(x.gen))
  }

  /** Statuses are only written for the IDs the probe was about, and at most one after a reload. */
  ghost predicate Timely(p: Pool, x: Process) {
    x.Check? ==>
      && x.key == x.snapshot.key
      && x.late <= 1
      && (x.pc.Publishing? || x.pc.Writing? ==>
        x.target == x.snapshot && x.pc.next <= |x.snapshot.deviceIDs| && (x.pc.state.Healthy? || x.pc.state.Unhealthy?))
      && (x.pc.Writing? ==> x.pc.next < |x.snapshot.deviceIDs|)
      && (x.late == 1 ==> (x.pc.Publishing? && x.gen < p.generation) || x.pc.Done?)
  }

  function Counted(before: nat, o: Outcome, key: Endpoint): nat {
    match o
    case DialFailed(k) => if k == key then before + 1 else before
    case CameHealthy(k) => if k == key then 0 else before
    case Reloaded(_) => before
    case Forgotten(kept) => if key in kept then before else 0
  }

  /** Failures of an endpoint's health dials since it was last healthy or forgotten. */
  function FailuresSince(outcomes: seq<Outcome>, key: Endpoint): nat {
    if outcomes == [] then 0 else Counted(FailuresSince(outcomes[..|outcomes| - 1], key), outcomes[|outcomes| - 1], key)
  }

  ghost predicate Counts(s: State) {
    forall k :: FailureCount(s.pool, k) == FailuresSince(s.outcomes, k)
  }

  /** The targets and the managed endpoints are those of the configuration loaded last. */
  ghost predicate Loaded(s: State) {
    s.pool.targets == Targets(s.config) && s.pool.gateways == Gateways(s.config)
  }

  ghost predicate Inv(s: State) {
    && Current(s.pool)
    && Exclusive(s.pool.busy, s.processes)
    && Counts(s)
    && Loaded(s)
    && |s.told| == |s.processes|
    && forall i | 0 <= i < |s.processes| ::
         EntryKnown(s.pool, s.processes[i]) && Fresh(s.pool, s.processes[i]) && Timely(s.pool, s.processes[i])
  }

  lemma StepPool(p: Pool, x: Process, env: Env, conn: nat)
    requires Current(p) && EntryKnown(p, x) && Fresh(p, x)
    ensures var q := NextPool(p, x, env, conn);
      && Current(q) && |q.entries| >= |p.entries|
      && q.generation == p.generation && q.targets == p.targets && q.gateways == p.gateways
  {
    hide CheckPool, BusinessPool;
    if x.Check? {
      CheckKeepsPool(p, x, env);
    } else {
      BusinessKeepsPool(p, x, env, conn);
    }
  }

  lemma CheckKeepsPool(p: Pool, x: Process, env: Env)
    requires Current(p) && x.Check? && EntryKnown(p, x) && Fresh(p, x)
    ensures var q := CheckPool(p, x, env);
      && Current(q) && |q.entries| >= |p.entries|
      && q.generation == p.generation && q.targets == p.targets && q.gateways == p.gateways
  {
    hide Current, FindFrom, NoteFailure, ResetFailures;
    SameCounters(p, x.key);
    EntriesKnown(p);
    match x.pc
    case DroppingAt(e, c) => EntryCurrent(p, e, Close(p.entries[e]));
    case Storing(c, ok) =>
      if Stores(p, x.key, x.gen) {
        StoreCurrent(p, x.key, c.id, x.gen, ok);
      }
    case _ => SameConnections(p, CheckPool(p, x, env));
  }

  lemma SameCounters(p: Pool, key: Endpoint)
    ensures NoteFailure(p, key) == p.(failures := NoteFailure(p, key).failures)
    ensures ResetFailures(p, key) == p.(failures := ResetFailures(p, key).failures)
  {
  }

  lemma SameConnections(p: Pool, q: Pool)
    requires Current(p) && q == p.(busy := q.busy, failures := q.failures)
    ensures Current(q)
  {
    hide WellFormed;
  }

  lemma BusinessKeepsPool(p: Pool, x: Process, env: Env, conn: nat)
    requires Current(p) && x.Business? && EntryKnown(p, x)
    ensures var q := BusinessPool(p, x, env, conn);
      && Current(q) && |q.entries| >= |p.entries|
      && q.generation == p.generation && q.targets == p.targets && q.gateways == p.gateways
  {
    hide Current, IsTarget;
    match x.business
    case HoldingNoEntry =>
      if x.key !in p.conns {
        MakeCurrent(p, x.key, EMPTY);
      }
    case BusinessDial(e, pure) =>
      EntryCurrent(p, e, Entry(Conn(conn, ForBusiness), pure && env.dial == Connects(true)));
    case _ => SameConnections(p, BusinessPool(p, x, env, conn));
  }

  lemma StepCheck(p: Pool, x: Process, env: Env, conn: nat)
    requires ConnsKnown(p) && x.Check? && EntryKnown(p, x) && Fresh(p, x) && Timely(p, x)
    ensures var y := NextProcess(p, x, env, conn); EntryKnown(p, y) && Fresh(p, y) && Timely(p, y)
  {
    hide EntryKnown, Fresh, Timely, NextProcess;
    StepKnown(p, x, env, conn);
    StepFresh(p, x, env, conn);
    StepTimely(p, x, env, conn);
  }

  lemma StepKnown(p: Pool, x: Process, env: Env, conn: nat)
    requires ConnsKnown(p) && x.Check? && EntryKnown(p, x)
    ensures EntryKnown(p, NextProcess(p, x, env, conn))
  {
    hide CheckHolds, FindFrom, Stores, FailureCount;
  }

  lemma StepFresh(p: Pool, x: Process, env: Env, conn: nat)
    requires ConnsKnown(p) && x.Check? && EntryKnown(p, x) && Fresh(p, x)
    ensures Fresh(p, NextProcess(p, x, env, conn))
  {
    hide CheckHolds, Stores, FailureCount;
  }

  lemma StepTimely(p: Pool, x: Process, env: Env, conn: nat)
    requires ConnsKnown(p) && x.Check? && EntryKnown(p, x) && Fresh(p, x) && Timely(p, x)
    ensures Timely(p, NextProcess(p, x, env, conn))
  {
    hide CheckHolds, FindFrom, Stores, FailureCount;
  }

  lemma StepBusiness(p: Pool, x: Process, env: Env, conn: nat)
    requires ConnsKnown(p) && x.Business? && EntryKnown(p, x)
    ensures EntryKnown(NextPool(p, x, env, conn), NextProcess(p, x, env, conn))
  {
    hide IsTarget;
  }

  /** Larger pools of the same generation and targets keep what processes know. */
  lemma StillKnown(p: Pool, q: Pool, x: Process)
    requires EntryKnown(p, x) && Fresh(p, x) && Timely(p, x)
    requires |q.entries| >= |p.entries| && q.generation >= p.generation
      && (q.generation == p.generation ==> q.targets == p.targets)
    ensures EntryKnown(q, x) && Fresh(q, x) && Timely(q, x)
  {
  }

  lemma PoolCounts(p: Pool, x: Process, env: Env, conn: nat, key: Endpoint)
    requires EntryKnown(p, x) && ConnsKnown(p)
    ensures var o := OutcomeOf(x, env);
      && |o| <= 1
      && FailureCount(NextPool(p, x, env, conn), key) == if o == [] then FailureCount(p, key)
        else Counted(FailureCount(p, key), o[0], key)
  {
    hide IsTarget, Stores;
  }

  function OutcomeOf(x: Process, env: Env): seq<Outcome> {
    if x.Check? then CheckOutcome(x, env) else []
  }

  lemma SinceAppend(outcomes: seq<Outcome>, o: seq<Outcome>, key: Endpoint)
    requires |o| <= 1
    ensures FailuresSince(outcomes + o, key) ==
      if o == [] then FailuresSince(outcomes, key) else Counted(FailuresSince(outcomes, key), o[0], key)
  {
    if o == [] {
      assert outcomes + o == outcomes;
    } else {
      assert (outcomes + o)[..|outcomes|] == outcomes;
    }
  }

  lemma StepCounts(s: State, i: nat, env: Env)
    requires Inv(s) && i < |s.processes|
    ensures Counts(Do(s, Step(i, env)))
  {
    EntriesKnown(s.pool);
    StepParts(s, i, env);
    hide Current, Exclusive, Fresh, Timely, Loaded, EntryKnown, NextProcess, NextPool, FailureCount, Counted,
      OutcomeOf, Do, FailuresSince;
    var x, t := s.processes[i], Do(s, Step(i, env));
    forall k
      ensures FailureCount(t.pool, k) == FailuresSince(t.outcomes, k)
    {
      assert FailureCount(s.pool, k) == FailuresSince(s.outcomes, k);
      PoolCounts(s.pool, x, env, s.nextConn, k);
      SinceAppend(s.outcomes, OutcomeOf(x, env), k);
    }
  }

  lemma StepParts(s: State, i: nat, env: Env)
    requires Inv(s) && i < |s.processes| && EntryKnown(s.pool, s.processes[i]) && ConnsKnown(s.pool)
    ensures var t := Do(s, Step(i, env));
      t.pool == NextPool(s.pool, s.processes[i], env, s.nextConn)
        && t.outcomes == s.outcomes + OutcomeOf(s.processes[i], env)
  {
    hide Current, Exclusive, Fresh, Timely, Loaded, EntryKnown, NextProcess, NextPool, Counts, CheckOutcome;
  }

  lemma StepKeeps(s: State, i: nat, env: Env)
    requires Inv(s) && i < |s.processes|
    ensures Inv(Do(s, Step(i, env)))
  {
    hide Current, Exclusive, Fresh, Timely, EntryKnown, Counts, NextPool, NextProcess, Holds, Targets, Gateways, Sound;
    InvSound(s);
    var x, t := s.processes[i], Do(s, Step(i, env));
    EntriesKnown(s.pool);
    StepPool(s.pool, x, env, s.nextConn);
    GuardStep(s.pool, x, env, s.nextConn);
    ExclusiveStep(s.pool.busy, s.processes, i, t.processes[i], t.pool.busy);
    StepCounts(s, i, env);
    forall j | 0 <= j < |t.processes|
      ensures EntryKnown(t.pool, t.processes[j]) && Fresh(t.pool, t.processes[j]) && Timely(t.pool, t.processes[j])
    {
      if j != i {
        StillKnown(s.pool, t.pool, s.processes[j]);
      } else if x.Check? {
        StepCheck(s.pool, x, env, s.nextConn);
        StillKnown(s.pool, t.pool, t.processes[i]);
      } else {
        StepBusiness(s.pool, x, env, s.nextConn);
        OnlyChecks(t.pool, t.processes[i]);
      }
    }
  }

  lemma EntriesKnown(p: Pool)
    requires Current(p)
    ensures ConnsKnown(p)
  {
  }

  lemma OnlyChecks(p: Pool, x: Process)
    requires x.Business?
    ensures Fresh(p, x) && Timely(p, x)
  {
  }

  lemma StartKeeps(s: State, x: Process)
    requires Inv(s)
    requires
      || x == Business(x.key, Wants)
      || (x.Check? && x == Check(x.key, x.snapshot, x.snapshot, 0, 0, Begin) && x.snapshot.key == x.key)
    ensures Inv(s.(processes := s.processes + [x], told := s.told + [[]]))
  {
    hide Current, FailuresSince, FailureCount, Targets, Gateways;
    var xs := s.processes + [x];
    forall k | k in s.pool.busy
      ensures exists i | 0 <= i < |xs| :: Holds(xs[i]) && xs[i].key == k
    {
      var i :| 0 <= i < |s.processes| && Holds(s.processes[i]) && s.processes[i].key == k;
      assert xs[i] == s.processes[i];
    }
  }

  lemma PoolKeeps(s: State, p: Pool, config: seq<Device>)
    requires Inv(s) && Loaded(s.(pool := p, config := config)) && Current(p) && p.busy == s.pool.busy
      && p.failures == s.pool.failures
    requires |p.entries| >= |s.pool.entries| && p.generation >= s.pool.generation
    requires p.generation == s.pool.generation ==> p.targets == s.pool.targets
    ensures Inv(s.(pool := p, config := config))
  {
    hide Current, Exclusive, EntryKnown, Fresh, Timely, Targets, Gateways;
    forall i | 0 <= i < |s.processes|
      ensures EntryKnown(p, s.processes[i]) && Fresh(p, s.processes[i]) && Timely(p, s.processes[i])
    {
      StillKnown(s.pool, p, s.processes[i]);
    }
    forall k
      ensures FailureCount(p, k) == FailuresSince(s.outcomes, k)
    {
      assert FailureCount(s.pool, k) == FailuresSince(s.outcomes, k);
    }
  }

  lemma ReloadKeeps(s: State, devices: seq<Device>)
    requires Inv(s)
    ensures Inv(Do(s, ReloadConfig(devices)))
  {
    InvSound(s);
    hide Exclusive, EntryKnown, Fresh, Timely, Targets, Gateways, WellFormed, Counts;
    var p := Reload(s.pool, Targets(devices), Gateways(devices));
    TargetsMean(devices, "", "");
    ReloadCurrent(s.pool, Targets(devices), Gateways(devices));
    PoolKeeps(s, p, devices);
    ReloadCounts(s.(pool := p, config := devices), KeysOf(Targets(devices)));
  }

  /** That a reload happened changes no counter. */
  lemma ReloadCounts(s: State, keys: set<Endpoint>)
    requires Counts(s)
    ensures Counts(s.(outcomes := s.outcomes + [Reloaded(keys)]))
  {
    hide FailureCount;
    assert (s.outcomes + [Reloaded(keys)])[..|s.outcomes|] == s.outcomes;
  }

  lemma ForgetKeeps(s: State, j: nat)
    requires Inv(s) && j < |s.pending|
    ensures Inv(Do(s, ForgetOld(j)))
  {
    hide Current, Exclusive, EntryKnown, Fresh, Timely, Targets, Gateways, Sound;
    InvSound(s);
    var t := Do(s, ForgetOld(j));
    forall i | 0 <= i < |s.processes|
      ensures EntryKnown(t.pool, s.processes[i]) && Fresh(t.pool, s.processes[i]) && Timely(t.pool, s.processes[i])
    {
      StillKnown(s.pool, t.pool, s.processes[i]);
    }
    assert t.outcomes[..|t.outcomes| - 1] == s.outcomes;
    forall k
      ensures FailureCount(t.pool, k) == FailuresSince(t.outcomes, k)
    {
      assert FailureCount(s.pool, k) == FailuresSince(s.outcomes, k);
    }
    assert Current(t.pool) by {
      ForgetCurrent(s.pool, s.pending[j]);
    }
  }

  lemma ForgetCurrent(p: Pool, kept: set<Endpoint>)
    requires Current(p)
    ensures Current(Forget(p, kept))
  {
    hide WellFormed;
  }

  /** Every section of every process, and every reload, keeps everything. */
  lemma Keeps(s: State, a: Action)
    requires Inv(s) && Enabled(s, a)
    ensures Inv(Do(s, a))
  {
    match a
    case StartCheck(t) => StartKeeps(s, Check(t.key, t, t, 0, 0, Begin));
    case StartBusiness(key) => StartKeeps(s, Business(key, Wants));
    case Step(i, env) => StepKeeps(s, i, env);
    case ReloadConfig(devices) => ReloadKeeps(s, devices);
    case ForgetOld(j) => ForgetKeeps(s, j);
    case ResetConnection(key) =>
      hide Exclusive, EntryKnown, Fresh, Timely, WellFormed, Counts, Targets, Gateways;
      if key in s.pool.conns {
        EntryCurrent(s.pool, s.pool.conns[key], EMPTY);
      }
      PoolKeeps(s, Reset(s.pool, key), s.config);
  }

  // ---------------------------------------------------------------- every run

  function Start(): State {
    State(Pool(0, [], {}, map[], [], {}, map[]), [], [], [], 0, [], [], [])
  }

  lemma StartInv()
    ensures Inv(Start())
  {
    Starts();
    assert Gateways([]) == {};
    assert forall k :: FailuresSince([], k) == 0;
  }

  ghost predicate Possible(s: State, run: seq<Action>)
    decreases |run|, 0
  {
    run == [] ||
    (Possible(s, run[..|run| - 1])
     && Sound(After(s, run[..|run| - 1])) && Enabled(After(s, run[..|run| - 1]), run[|run| - 1]))
  }

  ghost function After(s: State, run: seq<Action>): State
    requires Possible(s, run)
    decreases |run|, 1
  {
    if run == [] then s else Do(After(s, run[..|run| - 1]), run[|run| - 1])
  }

  lemma {:induction false} RunKeeps(s: State, run: seq<Action>)
    requires Inv(s) && Possible(s, run)
    ensures Inv(After(s, run))
    decreases |run|
  {
    hide Inv, Do, Sound, Enabled;
    if run != [] {
      RunKeeps(s, run[..|run| - 1]);
      Keeps(After(s, run[..|run| - 1]), run[|run| - 1]);
    }
  }

  /** Any enabled action can come next. */
  lemma AnyActionNext(s: State, run: seq<Action>, a: Action)
    requires Inv(s) && Possible(s, run) && Enabled(After(s, run), a)
    ensures Possible(s, run + [a])
  {
    hide Inv, Do, Sound, Enabled;
    RunKeeps(s, run);
    InvSound(After(s, run));
    assert (run + [a])[..|run|] == run;
  }

  lemma InvSound(s: State)
    requires Inv(s)
    ensures Sound(s)
  {
    EntriesKnown(s.pool);
  }

  ghost predicate Reachable(s: State) {
    exists run | Possible(Start(), run) :: After(Start(), run) == s
  }

  lemma ReachableInv(s: State)
    requires Reachable(s)
    ensures Inv(s)
  {
    hide Inv, Possible, After;
    var run :| Possible(Start(), run) && After(Start(), run) == s;
    StartInv();
    RunKeeps(Start(), run);
  }

  /** A pre-write check passes exactly when no reload happened since the probe; then the device ID it is about
      to write is that of a gateway device of the current configuration on the probed endpoint. */
  lemma PassedCheckIsCurrent(s: State, i: nat, env: Env)
    requires Inv(s) && i < |s.processes| && s.processes[i].Check? && s.processes[i].pc.Publishing?
    requires s.processes[i].pc.next < |s.processes[i].snapshot.deviceIDs|
    ensures var x := s.processes[i];
      var id := x.snapshot.deviceIDs[x.pc.next];
      && (Do(s, Step(i, env)).processes[i].pc.Writing? <==> s.pool.generation == x.gen)
      && (s.pool.generation == x.gen ==>
            && x.snapshot in s.pool.targets
            && exists j | 0 <= j < |s.config| ::
              Gateway(s.config[j]) && EndpointOf(s.config[j]) == x.key && Trim(s.config[j].id) == id)
  {
    hide Exclusive, Counts, Gateway, EndpointOf, Trim, Targets, WellFormed;
    var x := s.processes[i];
    assert Fresh(s.pool, x) && Timely(s.pool, x);
    var id := x.snapshot.deviceIDs[x.pc.next];
    TargetsMean(s.config, x.key, id);
    if s.pool.generation == x.gen {
      assert x.snapshot in Targets(s.config) && id in x.snapshot.deviceIDs;
    }
  }

  /** Of the statuses of one check, at most one is written after a reload: the one whose check had passed. */
  lemma AtMostOneLateWrite(s: State, i: nat)
    requires Reachable(s) && i < |s.processes|
    requires s.processes[i].Check?
    ensures s.processes[i].late <= 1
  {
    hide Reachable, Current, Exclusive, Counts, Loaded, Fresh;
    ReachableInv(s);
    assert Timely(s.pool, s.processes[i]);
  }

  /** Every pooled connection that a health check dialled belongs to an endpoint of the pool and was dialled by
      a check of the current generation. */
  lemma PooledHealthConnIsCurrent(s: State, e: nat)
    requires Reachable(s) && e < |s.pool.entries|
    ensures var p := s.pool;
      p.entries[e].conn.Conn? && p.entries[e].conn.origin.ForHealth? ==>
        p.entries[e].conn.origin.generation == p.generation && exists k | k in p.conns :: p.conns[k] == e
  {
    hide Reachable, Exclusive, Counts, Loaded, Fresh, Timely;
    ReachableInv(s);
  }

  /** An endpoint has at most one guard holder, and only a holder dials: never two dials at once. */
  lemma OneHolderPerEndpoint(s: State, i: nat, j: nat)
    requires Reachable(s) && i < j < |s.processes|
    requires s.processes[i].key == s.processes[j].key
    ensures var xs := s.processes;
      && !(Holds(xs[i]) && Holds(xs[j]))
      && !(Dials(xs[i]) && Dials(xs[j]))
  {
    hide Reachable, Current, Counts, Loaded, Fresh, Timely, EntryKnown;
    ReachableInv(s);
    assert Exclusive(s.pool.busy, s.processes);
  }

  /** The flag of a guard is up exactly while some process holds it. */
  lemma FlagMeansHeld(s: State, key: Endpoint)
    requires Reachable(s)
    ensures key in s.pool.busy <==>
      exists i | 0 <= i < |s.processes| :: Holds(s.processes[i]) && s.processes[i].key == key
  {
    hide Reachable, Current, Counts, Loaded, Fresh, Timely, EntryKnown, Holds;
    ReachableInv(s);
  }

  /** A check without the guard never dials, drops or replaces a connection. */
  lemma UnguardedIsPassive(p: Pool, x: Process, env: Env, conn: nat)
    requires ConnsKnown(p) && x.Check? && EntryKnown(p, x) && !Holds(x)
    ensures var q := NextPool(p, x, env, conn);
      && q.conns == p.conns && q.entries == p.entries && !Dials(x)
      && (x.pc.Resetting? || q.failures == p.failures)
  {
    hide FindFrom;
  }

  /** The counter of an endpoint is the number of failed health dials since it was last healthy or forgotten;
      a failed dial reports the endpoint unhealthy exactly when it is at least the second such failure. */
  lemma DialReportsIff(s: State, i: nat, env: Env)
    requires Inv(s) && i < |s.processes| && s.processes[i].Check? && s.processes[i].pc.Dialling? && env.dial.Fails?
    ensures var x := s.processes[i];
      var t := Do(s, Step(i, env));
      && FailureCount(t.pool, x.key) == FailuresSince(s.outcomes + [DialFailed(x.key)], x.key)
      && t.processes[i].pc == 
         Leaving(if FailedTwice(s.outcomes + [DialFailed(x.key)], x.key) then Unhealthy else Unknown)
  {
    hide Current, Exclusive, Loaded, Fresh, Timely, FailedTwice;
    var x := s.processes[i];
    var after := s.outcomes + [DialFailed(x.key)];
    assert after[..|s.outcomes|] == s.outcomes;
    assert FailureCount(s.pool, x.key) == FailuresSince(s.outcomes, x.key);
    FailuresMean(after, x.key);
  }

  predicate Resets(o: Outcome, key: Endpoint) {
    o == CameHealthy(key) || (o.Forgotten? && key !in o.kept)
  }

  /** A failure that nothing has reset. */
  ghost predicate Stands(outcomes: seq<Outcome>, key: Endpoint, i: nat) {
    i < |outcomes| && outcomes[i] == DialFailed(key) && forall k | i <= k < |outcomes| :: !Resets(outcomes[k], key)
  }

  ghost predicate FailedOnce(outcomes: seq<Outcome>, key: Endpoint) {
    exists i :: Stands(outcomes, key, i)
  }

  ghost predicate FailedTwice(outcomes: seq<Outcome>, key: Endpoint) {
    exists i, j | i < j :: Stands(outcomes, key, i) && Stands(outcomes, key, j)
  }

  /** The counter means what it should: it has reached one, or two, exactly when that many failures stand. */
  lemma {:induction false} FailuresMean(outcomes: seq<Outcome>, key: Endpoint)
    ensures FailuresSince(outcomes, key) >= 1 <==> FailedOnce(outcomes, key)
    ensures FailuresSince(outcomes, key) >= 2 <==> FailedTwice(outcomes, key)
  {
    hide Stands, Resets;
    if outcomes == [] {
      forall i
        ensures !Stands(outcomes, key, i)
      {
        StandsMeans(outcomes, key, i);
      }
    } else {
      var last := |outcomes| - 1;
      var before, o := outcomes[..last], outcomes[last];
      FailuresMean(before, key);
      assert before + [o] == outcomes;
      forall i: nat
        ensures Stands(outcomes, key, i) <==>
          (i == last && o == DialFailed(key)) || (Stands(before, key, i) && !Resets(o, key))
      {
        StandsLonger(before, o, key, i);
      }
      forall i: nat
        ensures Stands(before, key, i) ==> i < last
      {
        StandsMeans(before, key, i);
      }
      ResetsMeans(o, key);
      if !Resets(o, key) {
        forall i: nat | Stands(before, key, i)
          ensures Stands(outcomes, key, i)
        {
        }
      }
      assert o == DialFailed(key) ==> Stands(outcomes, key, last);
    }
  }

  lemma StandsMeans(outcomes: seq<Outcome>, key: Endpoint, i: nat)
    ensures Stands(outcomes, key, i) ==> i < |outcomes|
  {
  }

  lemma ResetsMeans(o: Outcome, key: Endpoint)
    ensures Resets(o, key) <==> o == CameHealthy(key) || (o.Forgotten? && key !in o.kept)
  {
  }

  lemma StandsLonger(before: seq<Outcome>, o: Outcome, key: Endpoint, i: nat)
    ensures Stands(before + [o], key, i) <==>
      (i == |before| && o == DialFailed(key)) || (Stands(before, key, i) && !Resets(o, key))
  {
    var all := before + [o];
    if Stands(all, key, i) && i < |before| {
      assert !Resets(all[|before|], key);
      assert forall k | i <= k < |before| :: all[k] == before[k];
    }
  }

  /** A dialled connection is kept, and its endpoint reported healthy, exactly when no reload happened since the
      probe and a managed device with a serial number is on the endpoint; otherwise the probe is stale. */
  lemma DialKeptIff(s: State, i: nat, env: Env)
    requires Inv(s) && i < |s.processes| && s.processes[i].Check? && s.processes[i].pc.Storing?
    ensures var x := s.processes[i];
      var t := Do(s, Step(i, env));
      var kept := s.pool.generation == x.gen
        && exists j | 0 <= j < |s.config| :: Pooled(s.config[j]) && EndpointOf(s.config[j]) == x.key;
      && t.processes[i].pc == (if kept then Resetting(true) else Leaving(Stale))
      && (kept ==> Known(t.pool, x.key) && t.pool.entries[t.pool.conns[x.key]] == Entry(x.pc.conn, x.pc.keepAliveOK))
      && (!kept ==> t.pool == s.pool)
  {
    hide Exclusive, Counts, Fresh, Timely, Pooled, EndpointOf, Targets;
    PooledAt(s.config, s.processes[i].key);
  }
}
