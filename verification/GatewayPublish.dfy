/** What a check writes: the statuses of the IDs it is about, in order, once each. */
module GatewayPublish {
  import opened GatewayConfig
  import opened GatewayPool
  import opened GatewaySystem
  import opened GatewayProbe

  /** The statuses one check has written, in order. */
  function By(written: seq<Status>, check: nat): seq<Status> {
    if written == [] then []
    else
      var last := written[|written| - 1];
      By(written[..|written| - 1], check) + if last.check == check then [last] else []
  }

  /** The statuses of the first n IDs. */
  function Statuses(check: nat, ids: seq<string>, online: bool, n: nat): (r: seq<Status>)
    requires n <= |ids|
    ensures |r| == n
  {
    seq(n, k requires 0 <= k < n => Status(check, ids[k], online))
  }

  /** The check came to a result worth writing, about the target it was queued for. */
  predicate Conclusive(x: Process, told: seq<Answer>)
    requires x.Check?
  {
    (SawHealthy(told) || SawUnhealthy(told)) && x.target == x.snapshot
  }

  /** What a check has written agrees with where it is. */
  predicate Published(generation: nat, check: nat, x: Process, told: seq<Answer>, mine: seq<Status>)
    requires x.Check?
  {
    var ids := x.snapshot.deviceIDs;
    && x.gen <= generation
    && match x.pc
       case Publishing(state, n) => n <= |ids| && mine == Statuses(check, ids, state.Healthy?, n)
       case Writing(state, n) => n < |ids| && mine == Statuses(check, ids, state.Healthy?, n)
       case Done =>
         && |mine| <= |ids| && mine == Statuses(check, ids, SawHealthy(told), |mine|)
         && (mine != [] ==> Conclusive(x, told))
         && (Conclusive(x, told) && x.gen == generation ==> |mine| == |ids|)
       case _ => mine == []
  }

  ghost predicate PublishInv(s: State) {
    && |s.told| == |s.processes|
    && (forall k | 0 <= k < |s.written| :: s.written[k].check < |s.processes|)
    && forall i | 0 <= i < |s.processes| && s.processes[i].Check? ::
         Published(s.pool.generation, i, s.processes[i], s.told[i], By(s.written, i))
  }

  lemma ByAppend(written: seq<Status>, more: seq<Status>, check: nat)
    requires |more| <= 1
    ensures By(written + more, check) ==
      By(written, check) + if more != [] && more[0].check == check then more else []
  {
    if more == [] {
      assert written + more == written;
    } else {
      assert (written + more)[..|written|] == written;
    }
  }

  lemma {:induction false} NoneBy(written: seq<Status>, check: nat)
    requires forall k | 0 <= k < |written| :: written[k].check < check
    ensures By(written, check) == []
  {
    if written != [] {
      NoneBy(written[..|written| - 1], check);
    }
  }

  /** One section of a check. */
  lemma CheckPublishes(p: Pool, check: nat, x: Process, env: Env, conn: nat, told: seq<Answer>, more: seq<Answer>,
                       mine: seq<Status>)
    requires x.Check? && EntryKnown(p, x) && ConnsKnown(p) && Fresh(p, x) && Timely(p, x) && Judged(x.pc, told)
    requires x.pc.Begin? || x.pc.Probed? || x.pc.Publishing? || x.pc.Writing? || x.pc.Done? ==> more == []
    requires Published(p.generation, check, x, told, mine)
    ensures Published(p.generation, check, CheckNext(p, x, env, conn), told + more, mine + CheckWrite(check, x))
  {
    hide MustReplace, Stores, FailureCount;
    if more == [] {
      assert told + more == told;
    }
    if x.pc.Writing? {
      assert mine + CheckWrite(check, x) == Statuses(check, x.snapshot.deviceIDs, x.pc.state.Healthy?, x.pc.next + 1);
    } else {
      assert mine + CheckWrite(check, x) == mine;
    }
  }

  lemma OwnParts(s: State, i: nat, env: Env)
    requires Sound(s) && i < |s.processes| && s.processes[i].Check?
    ensures var x, t := s.processes[i], Do(s, Step(i, env));
      && t.pool == NextPool(s.pool, x, env, s.nextConn)
      && t.processes[i] == CheckNext(s.pool, x, env, s.nextConn)
      && t.told[i] == s.told[i] + Told(s, x, env)
      && t.written == s.written + CheckWrite(i, x)
      && (x.pc.Begin? || x.pc.Probed? || x.pc.Publishing? || x.pc.Writing? || x.pc.Done? ==> Told(s, x, env) == [])
      && forall w | w in CheckWrite(i, x) :: w.check == i
  {
    hide CheckNext, CheckPool, OutcomeOf, CheckWrite, FailuresSince, Gateways;
  }

  lemma StepPublishes(s: State, i: nat, env: Env)
    requires Inv(s) && ProbeInv(s) && PublishInv(s) && i < |s.processes|
    ensures Sound(s)
    ensures PublishInv(Do(s, Step(i, env)))
  {
    InvSound(s);
    var p, x := s.pool, s.processes[i];
    assert EntryKnown(p, x) && Fresh(p, x) && Timely(p, x) && ConnsKnown(p) && Current(p);
    if x.Check? {
      assert Judged(x.pc, s.told[i]) && Published(p.generation, i, x, s.told[i], By(s.written, i));
      OwnParts(s, i, env);
    }
    hide Inv, ProbeInv, Sound, Published, Judged, By, Fresh, Timely, OutcomeOf, CheckNext, CheckPool, BusinessNext,
      BusinessPool, Told, EntryKnown, Current, CheckWrite, ConnsKnown;
    StepPool(p, x, env, s.nextConn);
    if x.Check? {
      ByAppend(s.written, CheckWrite(i, x), i);
      CheckPublishes(p, i, x, env, s.nextConn, s.told[i], Told(s, x, env), By(s.written, i));
    }
    OthersPublished(i, s.written, if x.Check? then CheckWrite(i, x) else []);
  }

  lemma OthersPublished(i: nat, written: seq<Status>, more: seq<Status>)
    requires |more| <= 1 && forall w | w in more :: w.check == i
    ensures forall j: nat | j != i :: By(written + more, j) == By(written, j)
  {
    hide By;
    forall j: nat | j != i
      ensures By(written + more, j) == By(written, j)
    {
      ByAppend(written, more, j);
    }
  }

  lemma OtherPublishes(s: State, a: Action)
    requires PublishInv(s) && Sound(s) && Enabled(s, a) && !a.Step?
    ensures PublishInv(Do(s, a))
  {
    hide SawHealthy, SawUnhealthy, Targets, Gateways, KeysOf, By;
    if a.StartCheck? {
      NoneBy(s.written, |s.processes|);
    }
  }

  lemma {:induction false} RunPublishes(s: State, run: seq<Action>)
    requires Inv(s) && ProbeInv(s) && PublishInv(s) && Possible(s, run)
    ensures Inv(After(s, run)) && ProbeInv(After(s, run)) && PublishInv(After(s, run))
    decreases |run|
  {
    hide Inv, ProbeInv, PublishInv, Do, Sound;
    if run != [] {
      RunPublishes(s, run[..|run| - 1]);
      Keeps(After(s, run[..|run| - 1]), run[|run| - 1]);
      StepKeepsProbe(After(s, run[..|run| - 1]), run[|run| - 1]);
      var before, a := After(s, run[..|run| - 1]), run[|run| - 1];
      match a
      case Step(i, env) => StepPublishes(before, i, env);
      case _ => OtherPublishes(before, a);
    }
  }

  lemma ReachablePublished(s: State)
    requires GatewaySystem.Reachable(s)
    ensures Inv(s) && ProbeInv(s) && PublishInv(s)
  {
    hide Inv, Possible, After;
    var run :| Possible(Start(), run) && After(Start(), run) == s;
    StartInv();
    RunPublishes(Start(), run);
  }

  /** What a check has written so far is the statuses of its first IDs, in order and once each, all of them online
      if it ended healthy and offline otherwise. */
  lemma PublishesInOrder(s: State, i: nat)
    requires GatewaySystem.Reachable(s) && i < |s.processes| && s.processes[i].Check?
    ensures |s.told| == |s.processes|
    ensures var ids, mine := s.processes[i].snapshot.deviceIDs, By(s.written, i);
      |mine| <= |ids| && mine == Statuses(i, ids, SawHealthy(s.told[i]), |mine|)
  {
    hide GatewaySystem.Reachable, Inv, SawHealthy, SawUnhealthy, By;
    ReachablePublished(s);
    assert Judged(s.processes[i].pc, s.told[i]);
    assert Published(s.pool.generation, i, s.processes[i], s.told[i], By(s.written, i));
  }

  /** A check that is done, with no reload since it found its target, has written every status if it came to a
      result about the target it was queued for, and none otherwise. */
  lemma PublishesAllIff(s: State, i: nat)
    requires GatewaySystem.Reachable(s) && i < |s.processes| && s.processes[i].Check?
    requires s.processes[i].pc.Done? && s.processes[i].gen == s.pool.generation
    ensures |s.told| == |s.processes|
    ensures var x := s.processes[i];
      By(s.written, i) ==
        if Conclusive(x, s.told[i]) then
          Statuses(i, x.snapshot.deviceIDs, SawHealthy(s.told[i]), |x.snapshot.deviceIDs|)
        else []
  {
    hide GatewaySystem.Reachable, Inv, SawHealthy, SawUnhealthy, By;
    ReachablePublished(s);
    assert Published(s.pool.generation, i, s.processes[i], s.told[i], By(s.written, i));
  }
}
