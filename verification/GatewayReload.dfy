/** When the failure counters forget: a reload drops endpoints in one section and forgets their counters in a
    later one. Reloads whose cleanups do not overlap forget only what was dropped; overlapping ones may forget
    an endpoint that is a target again. */
module GatewayReload {
  import opened Text
  import opened GatewayConfig
  import opened GatewayPool
  import opened GatewaySystem

  // ---------------------------------------------------------------- histories of reloads and cleanups

  /** The targets the last reload installed. */
  function LastKeys(outcomes: seq<Outcome>): set<Endpoint> {
    if outcomes == [] then {}
    else
      match outcomes[|outcomes| - 1]
      case Reloaded(keys) => keys
      case _ => LastKeys(outcomes[..|outcomes| - 1])
  }

  /** Whether the last reload has still to forget counters. */
  predicate Due(outcomes: seq<Outcome>) {
    outcomes != [] &&
    match outcomes[|outcomes| - 1]
    case Reloaded(_) => true
    case Forgotten(_) => false
    case _ => Due(outcomes[..|outcomes| - 1])
  }

  /** No reload comes while another's cleanup is due, and each cleanup is the last reload's. */
  predicate InTurn(outcomes: seq<Outcome>) {
    outcomes == [] ||
    (InTurn(outcomes[..|outcomes| - 1]) &&
     match outcomes[|outcomes| - 1]
     case Reloaded(_) => !Due(outcomes[..|outcomes| - 1])
     case Forgotten(kept) => Due(outcomes[..|outcomes| - 1]) && kept == LastKeys(outcomes[..|outcomes| - 1])
     case _ => true)
  }

  predicate Drops(o: Outcome, key: Endpoint) {
    o == CameHealthy(key) || (o.Reloaded? && key !in o.keys)
  }

  /** A failure since which the endpoint was neither healthy nor dropped from the targets. */
  ghost predicate StandsSinceDrop(outcomes: seq<Outcome>, key: Endpoint, i: nat) {
    i < |outcomes| && outcomes[i] == DialFailed(key) && forall k | i <= k < |outcomes| :: !Drops(outcomes[k], key)
  }

  /** A failure of an endpoint that a reload had dropped, and not yet forgotten. */
  predicate BeforeCleanup(outcomes: seq<Outcome>, key: Endpoint, i: nat)
    requires i <= |outcomes|
  {
    key !in LastKeys(outcomes[..i]) && Due(outcomes[..i])
  }

  lemma DropStandsLonger(before: seq<Outcome>, o: Outcome, key: Endpoint, i: nat)
    requires i < |before|
    ensures StandsSinceDrop(before + [o], key, i) <==> StandsSinceDrop(before, key, i) && !Drops(o, key)
  {
    var all := before + [o];
    if StandsSinceDrop(all, key, i) {
      assert !Drops(all[|before|], key);
      assert forall k | i <= k < |before| :: all[k] == before[k];
    }
  }

  /** For an endpoint that is a target, or whose drop is cleaned up, a failure counts exactly if it stands since
      the last drop and did not come between a drop and its cleanup; otherwise only such a failure can stand. */
  ghost predicate Agreed(outcomes: seq<Outcome>, key: Endpoint, i: nat)
    requires i < |outcomes|
  {
    var late := BeforeCleanup(outcomes, key, i);
    if key !in LastKeys(outcomes) && Due(outcomes) then StandsSinceDrop(outcomes, key, i) ==> late
    else Stands(outcomes, key, i) <==> StandsSinceDrop(outcomes, key, i) && !late
  }

  lemma {:induction false} InTurnAgreed(outcomes: seq<Outcome>, key: Endpoint, i: nat)
    requires InTurn(outcomes) && i < |outcomes| && outcomes[i] == DialFailed(key)
    ensures Agreed(outcomes, key, i)
    decreases |outcomes|
  {
    var last := |outcomes| - 1;
    var before, o := outcomes[..last], outcomes[last];
    assert outcomes == before + [o];
    if i < last {
      InTurnAgreed(before, key, i);
      hide Stands, StandsSinceDrop;
      StandsLonger(before, o, key, i);
      DropStandsLonger(before, o, key, i);
      assert outcomes[..i] == before[..i];
    }
  }

  // ---------------------------------------------------------------- runs in which cleanups do not overlap

  /** No reload starts while the cleanup of an earlier one is pending. */
  ghost predicate Orderly(s: State, run: seq<Action>)
    requires Possible(s, run)
    decreases |run|
  {
    run == [] ||
    (Orderly(s, run[..|run| - 1]) && (run[|run| - 1].ReloadConfig? ==> After(s, run[..|run| - 1]).pending == []))
  }

  ghost predicate ReachableInTurn(s: State) {
    exists run | Possible(Start(), run) && Orderly(Start(), run) :: After(Start(), run) == s
  }

  /** The history agrees with the targets and with what is pending. */
  ghost predicate Recorded(s: State) {
    && InTurn(s.outcomes)
    && LastKeys(s.outcomes) == KeysOf(s.pool.targets)
    && s.pending == if Due(s.outcomes) then [KeysOf(s.pool.targets)] else []
  }

  lemma OneMore(outcomes: seq<Outcome>, o: Outcome)
    ensures LastKeys(outcomes + [o]) == match o case Reloaded(keys) => keys case _ => LastKeys(outcomes)
    ensures Due(outcomes + [o]) <==> match o case Reloaded(_) => true case Forgotten(_) => false case _ => Due(outcomes)
    ensures InTurn(outcomes + [o]) <==>
      InTurn(outcomes) &&
      match o
      case Reloaded(_) => !Due(outcomes)
      case Forgotten(kept) => Due(outcomes) && kept == LastKeys(outcomes)
      case _ => true
  {
    assert (outcomes + [o])[..|outcomes|] == outcomes;
  }

  lemma StepRecorded(s: State, a: Action)
    requires Inv(s) && Enabled(s, a) && Recorded(s) && (a.ReloadConfig? ==> s.pending == [])
    ensures Inv(Do(s, a)) && Recorded(Do(s, a))
  {
    hide Inv, Recorded, Do;
    InvSound(s);
    Keeps(s, a);
    match a
    case Step(i, env) => StepHistory(s, i, env);
    case ReloadConfig(devices) => ReloadRecorded(s, devices);
    case ForgetOld(j) => ForgetRecorded(s, j);
    case StartCheck(_) => OtherRecorded(s, a);
    case StartBusiness(_) => OtherRecorded(s, a);
    case ResetConnection(_) => OtherRecorded(s, a);
  }

  lemma ReloadRecorded(s: State, devices: seq<Device>)
    requires Sound(s) && Recorded(s) && s.pending == []
    ensures Recorded(Do(s, ReloadConfig(devices)))
  {
    hide Sound, LastKeys, Due, InTurn, Targets, Gateways;
    OneMore(s.outcomes, Reloaded(KeysOf(Targets(devices))));
  }

  lemma ForgetRecorded(s: State, j: nat)
    requires Sound(s) && Recorded(s) && j < |s.pending|
    ensures Recorded(Do(s, ForgetOld(j)))
  {
    hide Sound, LastKeys, Due, InTurn, KeysOf;
    OneMore(s.outcomes, Forgotten(s.pending[j]));
  }

  /** Starting a check or a transaction, or resetting a connection, is no part of the history. */
  lemma OtherRecorded(s: State, a: Action)
    requires Sound(s) && Recorded(s) && (a.StartCheck? || a.StartBusiness? || a.ResetConnection?)
    ensures Recorded(Do(s, a))
  {
    hide LastKeys, Due, InTurn, KeysOf;
  }

  /** A process adds at most a failure or a healthy result to the history, and no section of it changes targets. */
  lemma StepHistory(s: State, i: nat, env: Env)
    requires Inv(s) && i < |s.processes| && Recorded(s)
    ensures Recorded(Do(s, Step(i, env)))
  {
    InvSound(s);
    var x := s.processes[i];
    StepPool(s.pool, x, env, s.nextConn);
    StepParts(s, i, env);
    StepPending(s, i, env);
    OutcomeKinds(x, env);
    hide Inv, Do, LastKeys, Due, InTurn, OutcomeOf, NextPool;
    var o := OutcomeOf(x, env);
    if o == [] {
      assert s.outcomes + o == s.outcomes;
    } else {
      assert o == [o[0]];
      OneMore(s.outcomes, o[0]);
    }
  }

  lemma StepPending(s: State, i: nat, env: Env)
    requires Sound(s) && i < |s.processes|
    ensures Do(s, Step(i, env)).pending == s.pending
  {
    hide NextPool, NextProcess, OutcomeOf, CheckWrite;
  }

  lemma OutcomeKinds(x: Process, env: Env)
    ensures |OutcomeOf(x, env)| <= 1
    ensures forall o | o in OutcomeOf(x, env) :: o.DialFailed? || o.CameHealthy?
  {
  }

  lemma StartRecorded()
    ensures Recorded(Start())
  {
    assert KeysOf([]) == {};
  }

  lemma {:induction false} RunRecorded(s: State, run: seq<Action>)
    requires Inv(s) && Recorded(s) && Possible(s, run) && Orderly(s, run)
    ensures Inv(After(s, run)) && Recorded(After(s, run))
    decreases |run|
  {
    hide Inv, Recorded, Do, Sound, Enabled;
    if run != [] {
      RunRecorded(s, run[..|run| - 1]);
      StepRecorded(After(s, run[..|run| - 1]), run[|run| - 1]);
    }
  }

  lemma InTurnRecorded(s: State)
    requires ReachableInTurn(s)
    ensures Inv(s) && Recorded(s)
  {
    hide Inv, Recorded, Possible, After, Orderly;
    var run :| Possible(Start(), run) && Orderly(Start(), run) && After(Start(), run) == s;
    StartInv();
    StartRecorded();
    RunRecorded(Start(), run);
  }

  /** Where cleanups do not overlap, a cleanup leaves the counter of every current target. */
  lemma CleanupSparesTargets(s: State, j: nat, key: Endpoint)
    requires ReachableInTurn(s) && j < |s.pending| && IsTarget(s.pool, key)
    ensures Sound(s)
    ensures FailureCount(Do(s, ForgetOld(j)).pool, key) == FailureCount(s.pool, key)
  {
    hide ReachableInTurn, Inv;
    InTurnRecorded(s);
    InvSound(s);
    assert s.pending[j] == KeysOf(s.pool.targets);
  }

  /** Where cleanups do not overlap, a failed dial of a current target counts exactly if the endpoint was neither
      healthy nor dropped since, and had not been dropped and not yet forgotten when the dial failed. */
  lemma CountsSinceDropIff(s: State, key: Endpoint, i: nat)
    requires ReachableInTurn(s) && IsTarget(s.pool, key) && i < |s.outcomes| && s.outcomes[i] == DialFailed(key)
    ensures Stands(s.outcomes, key, i) <==>
      StandsSinceDrop(s.outcomes, key, i) && !BeforeCleanup(s.outcomes, key, i)
  {
    hide ReachableInTurn, Inv, Stands, StandsSinceDrop, BeforeCleanup, InTurn, Due;
    InTurnRecorded(s);
    InTurnAgreed(s.outcomes, key, i);
    assert key in KeysOf(s.pool.targets);
  }

  /** Where cleanups do not overlap, a failed dial of a current target reports it unhealthy exactly if an earlier
      failure stands since the endpoint was healthy or dropped, and came with no cleanup of a drop due. */
  lemma TargetReportsIff(s: State, i: nat, env: Env)
    requires ReachableInTurn(s) && i < |s.processes| && s.processes[i].Check? && s.processes[i].pc.Dialling?
      && env.dial.Fails?
    requires IsTarget(s.pool, s.processes[i].key)
    ensures Sound(s)
    ensures var key := s.processes[i].key;
      Do(s, Step(i, env)).processes[i].pc == Leaving(Unhealthy) <==>
        exists n | 0 <= n < |s.outcomes| :: StandsSinceDrop(s.outcomes, key, n) && !BeforeCleanup(s.outcomes, key, n)
  {
    InTurnRecorded(s);
    InvSound(s);
    DialReportsIff(s, i, env);
    hide ReachableInTurn, Inv, Stands, StandsSinceDrop, BeforeCleanup, Do, Sound;
    var key := s.processes[i].key;
    FailuresMean(s.outcomes + [DialFailed(key)], key);
    FailuresMean(s.outcomes, key);
    SinceAppend(s.outcomes, [DialFailed(key)], key);
    forall n: nat | n < |s.outcomes| && s.outcomes[n] == DialFailed(key)
      ensures Stands(s.outcomes, key, n) <==> StandsSinceDrop(s.outcomes, key, n) && !BeforeCleanup(s.outcomes, key, n)
    {
      CountsSinceDropIff(s, key, n);
    }
    forall n: nat
      ensures Stands(s.outcomes, key, n) ==> n < |s.outcomes| && s.outcomes[n] == DialFailed(key)
      ensures StandsSinceDrop(s.outcomes, key, n) ==> n < |s.outcomes| && s.outcomes[n] == DialFailed(key)
    {
      StandingFailed(s.outcomes, key, n);
    }
  }

  lemma StandingFailed(outcomes: seq<Outcome>, key: Endpoint, n: nat)
    ensures Stands(outcomes, key, n) ==> n < |outcomes| && outcomes[n] == DialFailed(key)
    ensures StandsSinceDrop(outcomes, key, n) ==> n < |outcomes| && outcomes[n] == DialFailed(key)
  {
  }

  // ---------------------------------------------------------------- overlapping reloads

  lemma ReachableNext(s: State, a: Action)
    requires Reachable(s) && Enabled(s, a)
    ensures Inv(s) && Sound(s) && Reachable(Do(s, a))
  {
    hide Inv, Enabled, Do, Sound;
    ReachableInv(s);
    InvSound(s);
    var run :| Possible(Start(), run) && After(Start(), run) == s;
    StartInv();
    AnyActionNext(Start(), run, a);
    assert (run + [a])[..|run|] == run;
    assert After(Start(), run + [a]) == Do(s, a);
  }

  /** A fresh check of an endpoint that nothing else uses takes the guard. */
  lemma GuardedCheck(s: State, key: Endpoint) returns (t: State)
    requires Reachable(s) && s.processes == [] && s.pool.conns == map[] && s.pool.busy == {} && IsTarget(s.pool, key)
    ensures Reachable(t) && t.pending == s.pending && t.pool.targets == s.pool.targets && t.outcomes == s.outcomes
    ensures t.pool.conns == map[] && |t.processes| == 1
    ensures t.processes[0].Check? && t.processes[0].key == key && t.processes[0].pc == Guarded
  {
    hide Reachable, Inv, Sound;
    var env := Env(false, Unclear, Fails);
    ReachableNext(s, StartCheck(Target(key, [])));
    var s0 := Do(s, StartCheck(Target(key, [])));
    ReachableNext(s0, Step(0, env));
    var s1 := Do(s0, Step(0, env));
    assert s1.processes[0].pc == Found && s1.processes[0].key == key;
    ReachableNext(s1, Step(0, env));
    var s2 := Do(s1, Step(0, env));
    assert s2.processes[0].pc == Peeked(NoConn, false) && s2.processes[0].key == key;
    ReachableNext(s2, Step(0, env));
    t := Do(s2, Step(0, env));
  }

  /** It finds no connection, dials, and the dial fails. */
  lemma FailingCheck(s: State, key: Endpoint) returns (t: State)
    requires Reachable(s) && s.processes == [] && s.pool.conns == map[] && s.pool.busy == {} && IsTarget(s.pool, key)
    ensures Reachable(t) && t.pending == s.pending && t.pool.targets == s.pool.targets
    ensures t.outcomes == s.outcomes + [DialFailed(key)]
  {
    hide Reachable, Inv, Sound, IsTarget, FindFrom;
    var env := Env(false, Unclear, Fails);
    var s3 := GuardedCheck(s, key);
    ReachableNext(s3, Step(0, env));
    var s4 := Do(s3, Step(0, env));
    assert s4.processes[0].pc == Dialling && s4.processes[0].key == key;
    ReachableNext(s4, Step(0, env));
    t := Do(s4, Step(0, env));
  }

  /** A reload without d, a reload with d, a failed check of d, and then the first reload's cleanup: d is a target,
      was healthy and dropped at no time since its failure, and yet the failure is forgotten. */
  lemma OverlapForgetsTarget(d: Device) returns (s: State)
    requires Gateway(d) && Trim(d.id) != ""
    ensures Reachable(s) && IsTarget(s.pool, EndpointOf(d))
    ensures |s.outcomes| > 2 && StandsSinceDrop(s.outcomes, EndpointOf(d), 2)
      && !BeforeCleanup(s.outcomes, EndpointOf(d), 2)
    ensures FailureCount(s.pool, EndpointOf(d)) == 0
  {
    hide Inv, Sound, Gateway, EndpointOf, Trim, Reachable, LastKeys, Due;
    var key := EndpointOf(d);
    var s2 := TwoReloads(d);
    var s3 := FailingCheck(s2, key);
    ReachableNext(s3, ForgetOld(0));
    s := Do(s3, ForgetOld(0));
    assert s.outcomes[..2] == s2.outcomes;
  }

  /** A current target whose failure was forgotten. */
  ghost predicate Forgets(s: State, key: Endpoint) {
    && Reachable(s) && IsTarget(s.pool, key) && FailureCount(s.pool, key) == 0
    && |s.outcomes| > 2 && StandsSinceDrop(s.outcomes, key, 2) && !BeforeCleanup(s.outcomes, key, 2)
  }

  /** It happens, to a gateway device at host h. */
  lemma OverlapHappens()
    ensures exists s, key :: Forgets(s, key)
  {
    hide Reachable, IsTarget, StandsSinceDrop, BeforeCleanup, Gateway;
    var d := Device("g", PURE_GATEWAY, "modbus", "", "h", 502);
    UnserialledGateway(d);
    var s := OverlapForgetsTarget(d);
    assert Forgets(s, EndpointOf(d));
  }

  /** Both reloads are in force, and neither has forgotten counters. */
  lemma TwoReloads(d: Device) returns (s: State)
    requires Gateway(d) && Trim(d.id) != ""
    ensures Reachable(s) && s.processes == [] && s.pool.conns == map[] && s.pool.busy == {}
      && IsTarget(s.pool, EndpointOf(d))
    ensures |s.pending| == 2 && s.pending[0] == {} && |s.outcomes| == 2
    ensures EndpointOf(d) in LastKeys(s.outcomes)
  {
    hide Inv, Sound, Targets, Gateways, Gateway, EndpointOf, Trim, Reachable, LastKeys, Due;
    StartReachable();
    ReachableNext(Start(), ReloadConfig([]));
    var s1 := Do(Start(), ReloadConfig([]));
    ReachableNext(s1, ReloadConfig([d]));
    s := Do(s1, ReloadConfig([d]));
    OneTarget(d);
    NoTargetKeys();
    OneMore(s1.outcomes, Reloaded(KeysOf(Targets([d]))));
  }

  lemma NoTargetKeys()
    ensures KeysOf(Targets([])) == {}
  {
    Starts();
    assert Targets([]) == [];
  }

  lemma StartReachable()
    ensures Reachable(Start())
  {
    assert Possible(Start(), []) && After(Start(), []) == Start();
  }

  lemma OneTarget(d: Device)
    requires Gateway(d) && Trim(d.id) != ""
    ensures EndpointOf(d) in KeysOf(Targets([d]))
    ensures exists t | t in Targets([d]) :: t.key == EndpointOf(d)
  {
    hide Gateway, EndpointOf, Trim, Targets;
    TargetsMean([d], EndpointOf(d), Trim(d.id));
    assert [d][0] == d;
  }
}
