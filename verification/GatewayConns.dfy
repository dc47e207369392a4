/** What the guards are for: no dial ever meets a connection that the pool still has, and what a reload leaves. */
module GatewayConns {
  import opened GatewayConfig
  import opened GatewayPool
  import opened GatewaySystem
  import opened GatewayReload

  /** The connection pooled for an endpoint. */
  function PooledConn(p: Pool, key: Endpoint): Conn
    requires ConnsKnown(p)
  {
    if key in p.conns then p.entries[p.conns[key]].conn else NoConn
  }

  /** The process has the entry in its hands. */
  predicate Remembers(x: Process, e: nat) {
    if x.Check? then
      || x.pc == GuardedPeek(e)
      || (x.pc.DroppingAt? && x.pc.entry == e)
    else
      || (x.business.HasEntry? && x.business.entry == e)
      || (x.business.BusinessDial? && x.business.entry == e)
  }

  /** The endpoint has no other connection than one. */
  predicate AtMost(p: Pool, key: Endpoint, conn: Conn)
    requires ConnsKnown(p)
  {
    PooledConn(p, key).NoConn? || PooledConn(p, key) == conn
  }

  /** What a holder of the guard knows about the pool. */
  predicate Clear(p: Pool, x: Process)
    requires ConnsKnown(p) && EntryKnown(p, x)
  {
    if x.Check? then
      match x.pc
      case GuardedPeek(e) => x.key in p.conns ==> p.conns[x.key] == e
      case Inspecting(conn, _, guarded) => guarded ==> AtMost(p, x.key, conn)
      case Dropping(conn) => AtMost(p, x.key, conn)
      case DroppingAt(e, conn) => AtMost(p, x.key, conn) && (x.key in p.conns ==> p.conns[x.key] == e)
      case Dialling => PooledConn(p, x.key).NoConn?
      case Storing(_, _) => PooledConn(p, x.key).NoConn?
      case _ => true
    else
      match x.business
      case BusinessDial(e, _) => p.entries[e].conn.NoConn?
      case _ => true
  }

  /** An entry in the hands of processes is one endpoint's. */
  ghost predicate Owned(p: Pool, xs: seq<Process>) {
    && (forall i, k, e | 0 <= i < |xs| && Remembers(xs[i], e) && k in p.conns && p.conns[k] == e :: xs[i].key == k)
    && (forall i, j, e | 0 <= i < |xs| && 0 <= j < |xs| && Remembers(xs[i], e) && Remembers(xs[j], e) ::
          xs[i].key == xs[j].key)
  }

  /** Endpoints with entries are managed, and holders of guards meet nothing they do not know. */
  ghost predicate Conns(p: Pool, xs: seq<Process>)
    requires ConnsKnown(p) && forall i | 0 <= i < |xs| :: EntryKnown(p, xs[i])
  {
    && (forall k | k in p.conns :: k in p.gateways)
    && Owned(p, xs)
    && forall i | 0 <= i < |xs| :: Clear(p, xs[i])
  }

  ghost predicate ConnInv(s: State)
    requires Sound(s)
  {
    Conns(s.pool, s.processes)
  }

  // ---------------------------------------------------------------- one section

  /** Only the endpoint's own entries are touched. */
  ghost predicate Only(p: Pool, q: Pool, x: Process)
    requires ConnsKnown(p)
  {
    && |p.entries| <= |q.entries|
    && (forall k | k != x.key :: k in q.conns <==> k in p.conns)
    && (forall k | k in q.conns && k != x.key :: q.conns[k] == p.conns[k])
    && (x.key in p.conns ==> x.key in q.conns && q.conns[x.key] == p.conns[x.key])
    && (x.key in q.conns && x.key !in p.conns ==> q.conns[x.key] == |p.entries|)
    && (forall e | 0 <= e < |p.entries| && p.entries[e] != q.entries[e] ::
          Remembers(x, e) || (x.key in p.conns && p.conns[x.key] == e))
  }

  lemma SectionOnly(p: Pool, x: Process, env: Env, conn: nat)
    requires ConnsKnown(p) && EntryKnown(p, x)
    ensures var q := NextPool(p, x, env, conn);
      ConnsKnown(q) && Only(p, q, x)
  {
    hide FindFrom, IsTarget;
  }

  lemma SectionIdle(p: Pool, x: Process, env: Env, conn: nat)
    requires ConnsKnown(p) && EntryKnown(p, x) && !Holds(x) && !Holds(NextProcess(p, x, env, conn))
    ensures var q := NextPool(p, x, env, conn); q.entries == p.entries && q.conns == p.conns
  {
    hide FindFrom, IsTarget;
  }

  /** What the process will have in its hands. */
  lemma SectionRemembers(p: Pool, x: Process, env: Env, conn: nat, e: nat)
    requires ConnsKnown(p) && EntryKnown(p, x)
    requires Remembers(NextProcess(p, x, env, conn), e)
    ensures var q := NextPool(p, x, env, conn);
      Remembers(x, e) || (x.key in q.conns && q.conns[x.key] == e)
  {
    hide FindFrom, IsTarget;
  }

  /** The process itself. */
  lemma SectionClear(p: Pool, x: Process, env: Env, conn: nat)
    requires ConnsKnown(p) && EntryKnown(p, x) && Clear(p, x)
    requires ConnsKnown(NextPool(p, x, env, conn))
    requires EntryKnown(NextPool(p, x, env, conn), NextProcess(p, x, env, conn))
    ensures Clear(NextPool(p, x, env, conn), NextProcess(p, x, env, conn))
  {
    hide FindFrom, IsTarget;
  }

  /** Any other holder. */
  lemma OtherClear(p: Pool, q: Pool, x: Process, y: Process)
    requires ConnsKnown(p) && ConnsKnown(q) && EntryKnown(p, y) && EntryKnown(q, y)
    requires Only(p, q, x) && Clear(p, y) && y.key != x.key
    requires forall e | Remembers(y, e) :: !Remembers(x, e) && (x.key in p.conns ==> p.conns[x.key] != e)
    requires y.key in p.conns ==>
      !Remembers(x, p.conns[y.key]) && (x.key in p.conns ==> p.conns[x.key] != p.conns[y.key])
    ensures Clear(q, y)
  {
  }

  lemma SectionManaged(p: Pool, x: Process, env: Env, conn: nat)
    requires ConnsKnown(p) && EntryKnown(p, x)
    ensures var q := NextPool(p, x, env, conn);
      q.gateways == p.gateways && (x.key in q.conns && x.key !in p.conns ==> x.key in p.gateways)
  {
    hide FindFrom, IsTarget;
  }

  /** The same entries and endpoints are as clear. */
  lemma SameClear(p: Pool, q: Pool, y: Process)
    requires ConnsKnown(p) && ConnsKnown(q) && EntryKnown(p, y) && EntryKnown(q, y)
    requires q.entries == p.entries && q.conns == p.conns && Clear(p, y)
    ensures Clear(q, y)
  {
  }

  /** Without the guard there is nothing to know. */
  lemma UnguardedClear(p: Pool, y: Process)
    requires ConnsKnown(p) && EntryKnown(p, y) && !Holds(y)
    ensures Clear(p, y)
  {
  }

  // ---------------------------------------------------------------- every step keeps it

  lemma OwnedStep(p: Pool, q: Pool, xs: seq<Process>, i: nat, y: Process)
    requires ConnsKnown(p) && i < |xs| && y.key == xs[i].key && Owned(p, xs) && Only(p, q, xs[i])
    requires forall j | 0 <= j < |xs| :: EntryKnown(p, xs[j])
    requires forall k, l | k in q.conns && l in q.conns && k != l :: q.conns[k] != q.conns[l]
    requires forall e | Remembers(y, e) :: Remembers(xs[i], e) || (y.key in q.conns && q.conns[y.key] == e)
    ensures Owned(q, xs[i := y])
  {
    var ys, x := xs[i := y], xs[i];
    forall j: nat, e: nat | j < |xs| && Remembers(xs[j], e)
      ensures e < |p.entries|
    {
      assert EntryKnown(p, xs[j]);
    }
    hide EntryKnown, Remembers, ConnsKnown;
    forall j, k, e | 0 <= j < |ys| && Remembers(ys[j], e) && k in q.conns && q.conns[k] == e
      ensures ys[j].key == k
    {
      if Remembers(xs[j], e) {
        assert k in p.conns && p.conns[k] == e;
      }
    }
    forall j, l, e | 0 <= j < |ys| && 0 <= l < |ys| && Remembers(ys[j], e) && Remembers(ys[l], e)
      ensures ys[j].key == ys[l].key
    {
      if j != i && l == i && !Remembers(x, e) {
        assert Remembers(xs[j], e);
      } else if j == i && l != i && !Remembers(x, e) {
        assert Remembers(xs[l], e);
      }
    }
  }

  /** A holder at another place sees nothing of the step, or nothing happens. */
  lemma ClearStep(p: Pool, q: Pool, xs: seq<Process>, i: nat, j: nat, env: Env, conn: nat)
    requires i < |xs| && j < |xs| && i != j
    requires Current(p) && Exclusive(p.busy, xs) && Owned(p, xs)
    requires ConnsKnown(p) && EntryKnown(p, xs[i]) && EntryKnown(p, xs[j]) && Clear(p, xs[j])
    requires q == NextPool(p, xs[i], env, conn) && ConnsKnown(q) && EntryKnown(q, xs[j])
    ensures Clear(q, xs[j])
  {
    var x, y := xs[i], xs[j];
    hide Clear, EntryKnown, ConnsKnown, NextProcess, NextPool, Holds, Remembers, Only;
    SectionOnly(p, x, env, conn);
    GuardStep(p, x, env, conn);
    if !Holds(y) {
      UnguardedClear(q, y);
    } else if y.key == x.key {
      SectionIdle(p, x, env, conn);
      SameClear(p, q, y);
    } else {
      OtherClear(p, q, x, y);
    }
  }

  lemma AllClear(p: Pool, q: Pool, xs: seq<Process>, ys: seq<Process>, i: nat, env: Env, conn: nat)
    requires i < |xs| && ConnsKnown(p) && (forall j | 0 <= j < |xs| :: EntryKnown(p, xs[j]))
    requires Current(p) && Exclusive(p.busy, xs) && Conns(p, xs)
    requires q == NextPool(p, xs[i], env, conn) && ConnsKnown(q)
    requires ys == xs[i := NextProcess(p, xs[i], env, conn)] && forall j | 0 <= j < |ys| :: EntryKnown(q, ys[j])
    ensures forall j | 0 <= j < |ys| :: Clear(q, ys[j])
  {
    hide Clear, EntryKnown, ConnsKnown, NextProcess, NextPool, Owned, Exclusive, Current;
    forall j | 0 <= j < |xs|
      ensures Clear(q, ys[j])
    {
      assert EntryKnown(q, ys[j]) && Clear(p, xs[j]);
      if j == i {
        assert ys[j] == NextProcess(p, xs[i], env, conn);
        SectionClear(p, xs[i], env, conn);
      } else {
        assert ys[j] == xs[j];
        ClearStep(p, q, xs, i, j, env, conn);
      }
    }
  }

  lemma ConnsStep(p: Pool, q: Pool, xs: seq<Process>, ys: seq<Process>, i: nat, env: Env, conn: nat)
    requires i < |xs| && ConnsKnown(p) && (forall j | 0 <= j < |xs| :: EntryKnown(p, xs[j]))
    requires Current(p) && Exclusive(p.busy, xs) && Conns(p, xs)
    requires q == NextPool(p, xs[i], env, conn) && Current(q) && ConnsKnown(q)
    requires ys == xs[i := NextProcess(p, xs[i], env, conn)] && forall j | 0 <= j < |ys| :: EntryKnown(q, ys[j])
    ensures Conns(q, ys)
  {
    var x, y := xs[i], NextProcess(p, xs[i], env, conn);
    hide Clear, EntryKnown, ConnsKnown, NextProcess, NextPool, Remembers, Owned, Exclusive;
    AllClear(p, q, xs, ys, i, env, conn);
    SectionOnly(p, x, env, conn);
    SectionManaged(p, x, env, conn);
    forall e | Remembers(y, e)
      ensures Remembers(x, e) || (y.key in q.conns && q.conns[y.key] == e)
    {
      SectionRemembers(p, x, env, conn, e);
    }
    OwnedStep(p, q, xs, i, y);
  }

  lemma StartConns(p: Pool, xs: seq<Process>, x: Process)
    requires ConnsKnown(p) && (forall i | 0 <= i < |xs| :: EntryKnown(p, xs[i])) && Conns(p, xs)
    requires (x.Business? && x.business.Wants?) || (x.Check? && x.pc.Begin?)
    ensures forall i | 0 <= i < |xs + [x]| :: EntryKnown(p, (xs + [x])[i])
    ensures Conns(p, xs + [x])
  {
    hide Clear;
    var all := xs + [x];
    assert Clear(p, x) by { UnguardedClear(p, x); }
    forall e: nat
      ensures !Remembers(x, e)
    {
    }
    hide Remembers, EntryKnown;
    assert forall i | 0 <= i < |xs| :: all[i] == xs[i];
  }

  /** Entries may be closed and endpoints may lose theirs. */
  lemma ClosingClear(p: Pool, q: Pool, x: Process)
    requires ConnsKnown(p) && EntryKnown(p, x) && ConnsKnown(q) && EntryKnown(q, x) && Clear(p, x)
    requires |q.entries| == |p.entries| && forall k | k in q.conns :: k in p.conns && q.conns[k] == p.conns[k]
    requires forall e | 0 <= e < |p.entries| :: q.entries[e] == p.entries[e] || q.entries[e].conn.NoConn?
    ensures Clear(q, x)
  {
  }

  lemma ClosingConns(p: Pool, q: Pool, xs: seq<Process>)
    requires ConnsKnown(p) && (forall i | 0 <= i < |xs| :: EntryKnown(p, xs[i])) && Conns(p, xs)
    requires ConnsKnown(q) && (forall i | 0 <= i < |xs| :: EntryKnown(q, xs[i]))
    requires |q.entries| == |p.entries| && forall k | k in q.conns :: k in p.conns && q.conns[k] == p.conns[k]
    requires forall e | 0 <= e < |p.entries| :: q.entries[e] == p.entries[e] || q.entries[e].conn.NoConn?
    requires forall k | k in q.conns :: k in q.gateways
    ensures Conns(q, xs)
  {
    hide Clear, EntryKnown, Remembers;
    forall i | 0 <= i < |xs|
      ensures Clear(q, xs[i])
    {
      ClosingClear(p, q, xs[i]);
    }
  }

  lemma StepKeepsConns(s: State, a: Action)
    requires Inv(s) && Sound(s) && ConnInv(s) && Enabled(s, a)
    ensures Sound(Do(s, a)) && ConnInv(Do(s, a))
  {
    Keeps(s, a);
    var t := Do(s, a);
    InvSound(t);
    assert Current(s.pool) && Exclusive(s.pool.busy, s.processes) && Current(t.pool);
    hide Inv, Conns, Targets, Gateways, KeysOf, NextProcess, NextPool, OutcomeOf, CheckWrite, Told, EntryKnown, Current,
      Exclusive;
    match a
    case StartCheck(target) =>
      StartConns(s.pool, s.processes, Check(target.key, target, target, 0, 0, Begin));
    case StartBusiness(key) => StartConns(s.pool, s.processes, Business(key, Wants));
    case Step(i, env) => ConnsStep(s.pool, t.pool, s.processes, t.processes, i, env, s.nextConn);
    case _ =>
      assert Conns(s.pool, s.processes);
      QuietConns(s, a);
  }

  lemma QuietConns(s: State, a: Action)
    requires a.ReloadConfig? || a.ForgetOld? || a.ResetConnection?
    requires Enabled(s, a) && Sound(s) && Sound(Do(s, a)) && Conns(s.pool, s.processes)
    ensures Conns(Do(s, a).pool, s.processes)
  {
    var t := Do(s, a);
    hide Targets, Gateways, KeysOf, Clear, Owned, EntryKnown;
    assert forall k | k in s.pool.conns :: k in s.pool.gateways;
    ClosingConns(s.pool, t.pool, s.processes);
  }

  // ---------------------------------------------------------------- in every run

  lemma {:induction false} RunConns(s: State, run: seq<Action>)
    requires Inv(s) && Sound(s) && ConnInv(s) && Possible(s, run)
    ensures Inv(After(s, run)) && Sound(After(s, run)) && ConnInv(After(s, run))
    decreases |run|
  {
    hide Inv, ConnInv, Do, Sound, Enabled;
    if run != [] {
      RunConns(s, run[..|run| - 1]);
      Keeps(After(s, run[..|run| - 1]), run[|run| - 1]);
      StepKeepsConns(After(s, run[..|run| - 1]), run[|run| - 1]);
    }
  }

  lemma ReachableConns(s: State)
    requires GatewaySystem.Reachable(s)
    ensures Inv(s) && Sound(s) && ConnInv(s)
  {
    hide Inv, Possible, After;
    StartInv();
    InvSound(Start());
    var run :| Possible(Start(), run) && After(Start(), run) == s;
    RunConns(Start(), run);
  }

  /** While a check dials, or has dialled, its endpoint has no pooled connection, and while a transaction dials, the
      entry it dials for has none: no connection is ever overwritten. */
  lemma DialMeetsNoConnection(s: State, i: nat)
    requires GatewaySystem.Reachable(s) && i < |s.processes|
    ensures Sound(s)
    ensures var x := s.processes[i];
      && (x.Check? && (x.pc.Dialling? || x.pc.Storing?) ==> PooledConn(s.pool, x.key).NoConn?)
      && (x.Business? && x.business.BusinessDial? ==> s.pool.entries[x.business.entry].conn.NoConn?)
  {
    hide GatewaySystem.Reachable, Inv, Owned;
    ReachableConns(s);
    assert Clear(s.pool, s.processes[i]);
  }

  /** Only endpoints with a managed device in the configuration loaded last have an entry. */
  lemma OnlyManagedPooled(s: State, key: Endpoint)
    requires GatewaySystem.Reachable(s) && key in s.pool.conns
    ensures exists j | 0 <= j < |s.config| :: GatewayConfig.Pooled(s.config[j]) && EndpointOf(s.config[j]) == key
  {
    hide GatewaySystem.Reachable, Owned, Clear, GatewayConfig.Pooled, EndpointOf, Targets;
    ReachableConns(s);
    PooledAt(s.config, key);
  }

  /** A reload keeps the entries of the endpoints that are still managed and closes every pooled connection. */
  lemma ReloadCloses(s: State, devices: seq<Device>)
    requires Sound(s)
    ensures var p, q := s.pool, Do(s, ReloadConfig(devices)).pool;
      && (forall k :: k in q.conns <==> k in p.conns && k in Gateways(devices))
      && (forall k | k in q.conns :: q.conns[k] == p.conns[k])
      && |q.entries| == |p.entries|
      && (forall k | k in p.conns :: q.entries[p.conns[k]].conn.NoConn?)
      && (forall e | 0 <= e < |p.entries| && e !in p.conns.Values :: q.entries[e] == p.entries[e])
  {
    hide Targets, Gateways, KeysOf;
    assert forall k | k in s.pool.conns :: s.pool.conns[k] in s.pool.conns.Values;
  }

  // ---------------------------------------------------------------- connections left behind

  /** An entry that no endpoint has any more and no process has in its hands. */
  ghost predicate Abandoned(s: State, e: nat) {
    && e < |s.pool.entries| && e !in s.pool.conns.Values
    && forall i | 0 <= i < |s.processes| :: !Remembers(s.processes[i], e)
  }

  lemma StepAbandons(s: State, a: Action, e: nat)
    requires Sound(s) && Enabled(s, a) && Abandoned(s, e)
    ensures Abandoned(Do(s, a), e) && Do(s, a).pool.entries[e] == s.pool.entries[e]
  {
    hide Targets, Gateways, KeysOf;
    match a
    case Step(i, env) =>
      var x, y := s.processes[i], Do(s, a).processes[i];
      assert EntryKnown(s.pool, x);
      hide NextProcess, NextPool, Remembers, OutcomeOf, CheckWrite, Told;
      SectionOnly(s.pool, x, env, s.nextConn);
      if Remembers(y, e) {
        SectionRemembers(s.pool, x, env, s.nextConn, e);
      }
    case _ =>
  }

  /** What it has is never closed: no run changes it. */
  lemma {:induction false} AbandonedForever(s: State, run: seq<Action>, e: nat)
    requires Possible(s, run) && Abandoned(s, e)
    ensures Abandoned(After(s, run), e) && After(s, run).pool.entries[e] == s.pool.entries[e]
    decreases |run|
  {
    hide Do, Sound, Enabled, Abandoned;
    if run != [] {
      AbandonedForever(s, run[..|run| - 1], e);
      StepAbandons(After(s, run[..|run| - 1]), run[|run| - 1], e);
    }
  }

  const CONNECTS := Env(false, Up, Connects(false))

  lemma NextSection(s: State) returns (t: State)
    requires GatewaySystem.Reachable(s) && |s.processes| == 1 && s.processes[0].Business?
    ensures Sound(s) && EntryKnown(s.pool, s.processes[0]) && ConnsKnown(s.pool)
    ensures t == Do(s, Step(0, CONNECTS)) && GatewaySystem.Reachable(t)
    ensures |t.processes| == 1 && t.processes[0] == BusinessNext(s.pool, s.processes[0], CONNECTS)
    ensures t.pool == BusinessPool(s.pool, s.processes[0], CONNECTS, s.nextConn)
  {
    hide GatewaySystem.Reachable, Inv;
    ReachableNext(s, Step(0, CONNECTS));
    t := Do(s, Step(0, CONNECTS));
  }

  /** It happens: a reload takes the endpoint away between the sections in which a transaction finds its entry and
      dials for it. The connection is used once and left behind. */
  lemma DialLeftBehind(d: Device) returns (s: State)
    requires GatewayConfig.Pooled(d)
    ensures GatewaySystem.Reachable(s) && |s.pool.entries| == 1
    ensures Abandoned(s, 0) && s.pool.entries[0].conn.Conn?
  {
    hide GatewaySystem.Reachable, Inv, GatewayConfig.Pooled;
    var found := EntryFound(d);
    var reloaded := EntryGone(found);
    s := DialledFor(reloaded);
  }

  /** The endpoint is not managed any more. */
  lemma EntryGone(s: State) returns (t: State)
    requires GatewaySystem.Reachable(s) && |s.processes| == 1 && s.processes[0].Business?
    requires s.processes[0].business.HasEntry? && s.processes[0].business.entry == 0
    requires s.pool.entries == [EMPTY]
    ensures GatewaySystem.Reachable(t) && t.processes == s.processes
    ensures t.pool.entries == [EMPTY] && t.pool.conns == map[]
  {
    hide GatewaySystem.Reachable, Inv, Targets, Gateways;
    ReachableNext(s, ReloadConfig([]));
    t := Do(s, ReloadConfig([]));
    NoGateways();
  }

  /** The transaction dials, uses the connection and is over. */
  lemma DialledFor(s: State) returns (t: State)
    requires GatewaySystem.Reachable(s) && |s.processes| == 1 && s.processes[0].Business?
    requires s.processes[0].business.HasEntry? && s.processes[0].business.entry == 0
    requires s.pool.entries == [EMPTY] && s.pool.conns == map[]
    ensures GatewaySystem.Reachable(t) && |t.pool.entries| == 1
    ensures Abandoned(t, 0) && t.pool.entries[0].conn.Conn?
  {
    hide GatewaySystem.Reachable, Inv, Sound, IsTarget;
    var dials := NextSection(s);
    assert dials.processes[0].business.BusinessDial? && dials.processes[0].business.entry == 0;
    assert dials.pool == s.pool;
    var uses := NextSection(dials);
    assert uses.processes[0].business.Using? && uses.pool.entries[0].conn.Conn? && uses.pool.conns == map[];
    t := NextSection(uses);
  }

  lemma NoGateways()
    ensures Gateways([]) == {}
  {
  }

  /** The transaction has found the entry it made for its endpoint. */
  lemma EntryFound(d: Device) returns (s: State)
    requires GatewayConfig.Pooled(d)
    ensures GatewaySystem.Reachable(s) && |s.processes| == 1 && s.processes[0].Business?
    ensures s.processes[0].business.HasEntry? && s.processes[0].business.entry == 0
    ensures s.pool.entries == [EMPTY]
  {
    hide GatewaySystem.Reachable, Inv, Targets, Gateways, IsTarget, EndpointOf, GatewayConfig.Pooled;
    var key := EndpointOf(d);
    StartReachable();
    ReachableNext(Start(), ReloadConfig([d]));
    var s0 := Do(Start(), ReloadConfig([d]));
    assert key in Gateways([d]) by { PooledAt([d], key); assert [d][0] == d; }
    ReachableNext(s0, StartBusiness(key));
    var s1 := Do(s0, StartBusiness(key));
    var s2 := NextSection(s1);
    var s3 := NextSection(s2);
    s := NextSection(s3);
  }
}
