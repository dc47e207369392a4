/** What a check makes of what it is told: the socket's state, its keep-alive and the outcome of its own dial decide
    what it reports and what it writes. */
module GatewayProbe {
  import opened GatewayConfig
  import opened GatewayPool
  import opened GatewaySystem

  // ---------------------------------------------------------------- what the answers mean

  /** The connection looked at was read, just before, as one with keep-alive. */
  predicate OnKeepAlive(told: seq<Answer>) {
    |told| >= 2 && told[|told| - 2].Read? && told[|told| - 2].keepAliveOK
  }

  /** The socket is up on a keep-alive connection, or the dialled connection was kept. */
  predicate SawHealthy(told: seq<Answer>) {
    told != [] &&
    match told[|told| - 1]
    case Looked(verdict, _) => verdict.Up? && OnKeepAlive(told)
    case Kept(kept) => kept
    case _ => false
  }

  /** The socket is down while another process has the guard, or a dial failed with an earlier failure standing. */
  predicate SawUnhealthy(told: seq<Answer>) {
    told != [] &&
    match told[|told| - 1]
    case Looked(verdict, guarded) => verdict.Down? && !guarded
    case Dialled(dial, second) => dial.Fails? && second
    case _ => false
  }

  /** With the guard, the socket is down, or up without keep-alive. */
  predicate MustReplace(told: seq<Answer>) {
    told != [] &&
    match told[|told| - 1]
    case Looked(verdict, guarded) => guarded && (verdict.Down? || (verdict.Up? && !OnKeepAlive(told)))
    case _ => false
  }

  /** The last reading found no connection. */
  predicate NothingPooled(told: seq<Answer>) {
    told != [] && told[|told| - 1].Read? && told[|told| - 1].conn.NoConn?
  }

  /** The state of a probe that has one. */
  function Reported(pc: CheckPc): (state: ProbeState)
    requires HasReport(pc)
  {
    pc.state
  }

  predicate HasReport(pc: CheckPc) {
    pc.Leaving? || pc.Probed? || pc.Publishing? || pc.Writing?
  }

  predicate LastRead(told: seq<Answer>, conn: Conn, keepAliveOK: bool) {
    told != [] && told[|told| - 1] == Read(conn, keepAliveOK)
  }

  /** The socket looked at is this connection's. */
  predicate ReadBefore(told: seq<Answer>, conn: Conn) {
    |told| >= 2 && told[|told| - 2].Read? && told[|told| - 2].conn == conn
  }

  /** Where a check is agrees with what it was told. */
  predicate Judged(pc: CheckPc, told: seq<Answer>) {
    match pc
    case Begin => told == []
    case Found => told == []
    case Peek(_) => told == []
    case Peeked(conn, keepAliveOK) => LastRead(told, conn, keepAliveOK)
    case Inspecting(conn, keepAliveOK, _) => LastRead(told, conn, keepAliveOK)
    case Dropping(conn) => MustReplace(told) && ReadBefore(told, conn)
    case DroppingAt(_, conn) => MustReplace(told) && ReadBefore(told, conn)
    case Dialling => MustReplace(told) || NothingPooled(told)
    case Storing(_, _) => told != [] && told[|told| - 1].Dialled? && told[|told| - 1].dial.Connects?
    case Resetting(_) => SawHealthy(told)
    case _ =>
      HasReport(pc) ==>
        (Reported(pc).Healthy? <==> SawHealthy(told)) && (Reported(pc).Unhealthy? <==> SawUnhealthy(told))
  }

  /** A status was written by a check that had ended healthy, if it says online, and unhealthy otherwise. */
  predicate WrittenBy(w: Status, processes: seq<Process>, told: seq<seq<Answer>>) {
    && w.check < |processes| == |told| && processes[w.check].Check?
    && (processes[w.check].pc.Publishing? || processes[w.check].pc.Writing? || processes[w.check].pc.Done?)
    && w.deviceID in processes[w.check].snapshot.deviceIDs
    && (w.online <==> SawHealthy(told[w.check])) && (!w.online <==> SawUnhealthy(told[w.check]))
  }

  ghost predicate ProbeInv(s: State) {
    && |s.told| == |s.processes|
    && (forall i | 0 <= i < |s.processes| && s.processes[i].Check? :: Judged(s.processes[i].pc, s.told[i]))
    && (forall k | 0 <= k < |s.written| :: WrittenBy(s.written[k], s.processes, s.told))
  }

  // ---------------------------------------------------------------- every step keeps it

  lemma LookJudged(conn: Conn, keepAliveOK: bool, guarded: bool, told: seq<Answer>, verdict: Verdict)
    requires LastRead(told, conn, keepAliveOK)
    ensures Judged(Inspected(conn, keepAliveOK, guarded, verdict), told + [Looked(verdict, guarded)])
  {
    var more := told + [Looked(verdict, guarded)];
    assert more[|more| - 2] == Read(conn, keepAliveOK);
  }

  lemma ProcessJudged(s: State, x: Process, told: seq<Answer>, env: Env)
    requires EntryKnown(s.pool, x) && ConnsKnown(s.pool) && Loaded(s)
    requires FailureCount(s.pool, x.key) == FailuresSince(s.outcomes, x.key)
    requires x.Check? && Judged(x.pc, told)
    ensures Judged(NextProcess(s.pool, x, env, s.nextConn).pc, told + Told(s, x, env))
  {
    hide FailuresSince, FailureCount, FindFrom, Gateways, Targets;
    match x.pc
    case Inspecting(conn, keepAliveOK, guarded) => LookJudged(conn, keepAliveOK, guarded, told, env.verdict);
    case _ => assert told + [] == told;
  }

  /** A step of a check that has a report, or is done, tells it nothing more. */
  lemma NothingMore(s: State, x: Process, env: Env)
    requires EntryKnown(s.pool, x) && ConnsKnown(s.pool) && x.Check?
    requires x.pc.Publishing? || x.pc.Writing? || x.pc.Done?
    ensures var y := NextProcess(s.pool, x, env, s.nextConn);
      && Told(s, x, env) == [] && y.snapshot == x.snapshot && y.Check?
      && (y.pc.Publishing? || y.pc.Writing? || y.pc.Done?)
  {
  }

  /** What one step writes, the check's report says, for one of the IDs it is about. */
  lemma NewStatus(s: State, i: nat, env: Env)
    requires Inv(s) && i < |s.processes| && s.processes[i].Check? && Judged(s.processes[i].pc, s.told[i])
    ensures Sound(s)
    ensures var t := Do(s, Step(i, env));
      forall w | w in CheckWrite(i, s.processes[i]) :: WrittenBy(w, t.processes, t.told)
  {
    InvSound(s);
    var x := s.processes[i];
    assert Timely(s.pool, x);
    hide Inv, Judged, Told, NextPool, OutcomeOf, SawHealthy, SawUnhealthy, FindFrom;
    if x.pc.Writing? {
      NothingMore(s, x, env);
      WritingJudged(x, s.told[i]);
      assert s.told[i] + [] == s.told[i];
    }
  }

  lemma WritingJudged(x: Process, told: seq<Answer>)
    requires x.Check? && x.pc.Writing? && Judged(x.pc, told)
    ensures x.pc.state.Healthy? <==> SawHealthy(told)
    ensures x.pc.state.Unhealthy? <==> SawUnhealthy(told)
  {
    hide SawHealthy, SawUnhealthy;
  }

  lemma StepProbe(s: State, i: nat, env: Env)
    requires Inv(s) && ProbeInv(s) && i < |s.processes|
    ensures Sound(s)
    ensures ProbeInv(Do(s, Step(i, env)))
  {
    InvSound(s);
    var x, t := s.processes[i], Do(s, Step(i, env));
    assert EntryKnown(s.pool, x) && ConnsKnown(s.pool) && Loaded(s);
    assert FailureCount(s.pool, x.key) == FailuresSince(s.outcomes, x.key);
    GuardStep(s.pool, x, env, s.nextConn);
    hide Inv, Sound, Judged, NextProcess, NextPool, OutcomeOf, Told, SawHealthy, SawUnhealthy, FailuresSince,
      FailureCount, Loaded;
    if x.Check? {
      ProcessJudged(s, x, s.told[i], env);
      NewStatus(s, i, env);
    }
    forall k | 0 <= k < |t.written|
      ensures WrittenBy(t.written[k], t.processes, t.told)
    {
      if k < |s.written| {
        assert t.written[k] == s.written[k] && WrittenBy(s.written[k], s.processes, s.told);
        if s.written[k].check == i {
          NothingMore(s, x, env);
          assert s.told[i] + [] == s.told[i];
        }
      } else {
        assert t.written[k] in CheckWrite(i, x);
      }
    }
  }

  lemma StepKeepsProbe(s: State, a: Action)
    requires Inv(s) && ProbeInv(s) && Enabled(s, a)
    ensures Sound(s) && ProbeInv(Do(s, a))
  {
    InvSound(s);
    hide Inv, Sound;
    match a
    case Step(i, env) => StepProbe(s, i, env);
    case _ => OtherKeepsProbe(s, a);
  }

  lemma OtherKeepsProbe(s: State, a: Action)
    requires Sound(s) && ProbeInv(s) && Enabled(s, a) && !a.Step?
    ensures ProbeInv(Do(s, a))
  {
    hide SawHealthy, SawUnhealthy, MustReplace, Targets, Gateways, KeysOf;
  }

  lemma {:induction false} RunProbe(s: State, run: seq<Action>)
    requires Inv(s) && ProbeInv(s) && Possible(s, run)
    ensures Inv(After(s, run)) && ProbeInv(After(s, run))
    decreases |run|
  {
    hide Inv, ProbeInv, Do, Sound, Enabled;
    if run != [] {
      RunProbe(s, run[..|run| - 1]);
      Keeps(After(s, run[..|run| - 1]), run[|run| - 1]);
      StepKeepsProbe(After(s, run[..|run| - 1]), run[|run| - 1]);
    }
  }

  lemma ReachableProbe(s: State)
    requires GatewaySystem.Reachable(s)
    ensures Inv(s) && ProbeInv(s)
  {
    hide Inv, Possible, After;
    var run :| Possible(Start(), run) && After(Start(), run) == s;
    StartInv();
    RunProbe(Start(), run);
  }

  // ---------------------------------------------------------------- in every run

  /** A check ends healthy exactly if the socket it last looked at was up on a connection with keep-alive, or its
      dialled connection was kept; unhealthy exactly if the socket was down while another process had the guard, or
      its dial failed with an earlier failure standing. */
  lemma ProbeEndsIff(s: State, i: nat)
    requires GatewaySystem.Reachable(s) && i < |s.processes| && s.processes[i].Check? && HasReport(s.processes[i].pc)
    ensures |s.told| == |s.processes|
    ensures Reported(s.processes[i].pc).Healthy? <==> SawHealthy(s.told[i])
    ensures Reported(s.processes[i].pc).Unhealthy? <==> SawUnhealthy(s.told[i])
  {
    hide GatewaySystem.Reachable, Inv, SawHealthy, SawUnhealthy, MustReplace;
    ReachableProbe(s);
  }

  /** A check dials only when it last read no connection, or looked with the guard and must replace what it saw. */
  lemma DialsOnlyToReplace(s: State, i: nat)
    requires GatewaySystem.Reachable(s) && i < |s.processes| && s.processes[i].Check?
    ensures |s.told| == |s.processes|
    ensures s.processes[i].pc.Dialling? ==> MustReplace(s.told[i]) || NothingPooled(s.told[i])
  {
    hide GatewaySystem.Reachable, Inv, SawHealthy, SawUnhealthy, MustReplace;
    ReachableProbe(s);
  }

  /** A look with the guard leads to dropping that connection exactly if it must be replaced. */
  lemma LookDropsIff(s: State, i: nat, env: Env)
    requires GatewaySystem.Reachable(s) && i < |s.processes| && s.processes[i].Check? && s.processes[i].pc.Inspecting?
    ensures Sound(s)
    ensures var t := Do(s, Step(i, env));
      MustReplace(t.told[i]) <==> t.processes[i].pc == Dropping(s.processes[i].pc.conn)
  {
    hide GatewaySystem.Reachable;
    ReachableProbe(s);
    InvSound(s);
    var x, told := s.processes[i], s.told[i];
    assert Judged(x.pc, told);
    hide Inv, ProbeInv, Sound, NextPool, OutcomeOf, CheckWrite;
    LookDecides(x.pc.conn, x.pc.keepAliveOK, Holds(x), told, env.verdict);
  }

  lemma LookDecides(conn: Conn, keepAliveOK: bool, guarded: bool, told: seq<Answer>, verdict: Verdict)
    requires LastRead(told, conn, keepAliveOK)
    ensures MustReplace(told + [Looked(verdict, guarded)]) <==>
      Inspected(conn, keepAliveOK, guarded, verdict) == Dropping(conn)
  {
    var more := told + [Looked(verdict, guarded)];
    assert more[|more| - 2] == told[|told| - 1];
  }

  /** Dropping closes that connection, if the endpoint still has it, and dials. */
  lemma DropThenDial(s: State, i: nat, env: Env)
    requires GatewaySystem.Reachable(s) && i < |s.processes| && s.processes[i].Check?
    ensures Sound(s)
    ensures var x, t := s.processes[i], Do(s, Step(i, env));
      && (x.pc.Dropping? ==>
            t.processes[i].pc ==
            if x.key in s.pool.conns then DroppingAt(s.pool.conns[x.key], x.pc.conn) else GatewaySystem.Dialling)
      && (x.pc.DroppingAt? ==>
            && t.processes[i].pc == GatewaySystem.Dialling
            && x.pc.entry < |t.pool.entries| == |s.pool.entries|
            && (x.pc.conn.Conn? ==> t.pool.entries[x.pc.entry].conn != x.pc.conn)
            && forall e | 0 <= e < |s.pool.entries| && s.pool.entries[e].conn != x.pc.conn ::
                 t.pool.entries[e] == s.pool.entries[e])
  {
    hide GatewaySystem.Reachable;
    ReachableInv(s);
    InvSound(s);
    assert EntryKnown(s.pool, s.processes[i]);
    hide Inv, Told, OutcomeOf, CheckWrite;
  }

  /** Every status ever written says online exactly if its check had ended healthy, offline exactly if unhealthy, and
      is about one of the IDs the check was for. */
  lemma StatusesRight(s: State, k: nat)
    requires GatewaySystem.Reachable(s) && k < |s.written|
    ensures var w := s.written[k];
      && w.check < |s.told| == |s.processes| && s.processes[w.check].Check?
      && w.deviceID in s.processes[w.check].snapshot.deviceIDs
      && (w.online <==> SawHealthy(s.told[w.check])) && (!w.online <==> SawUnhealthy(s.told[w.check]))
  {
    hide GatewaySystem.Reachable, Inv, SawHealthy, SawUnhealthy, Judged;
    ReachableProbe(s);
    assert WrittenBy(s.written[k], s.processes, s.told);
  }
}
