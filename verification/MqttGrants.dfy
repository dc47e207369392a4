/** A broker that grants less than was requested: the manager takes the subscription for applied as requested, and
    never asks again. */
module MqttGrants {
  import opened Text
  import opened MqttEntry
  import S = MqttSession
  import opened MqttSystem

  /** Any action inside the one entry can come next. */
  lemma Next(m: Manager, a: S.Action) returns (n: Manager)
    requires Reachable(m) && |m.sessions| == 1 && S.Enabled(m.sessions[0], a) && !a.Owners?
    ensures Reachable(n) && |n.sessions| == 1 && n.sessions[0] == S.Do(m.sessions[0], a)
  {
    hide S.Enabled, S.Do, S.Inv;
    ReachableInv(m);
    ReachableNext(m, Inside(0, a));
    n := Do(m, Inside(0, a));
  }

  lemma ReachableNext(m: Manager, a: Action)
    requires Reachable(m) && Inv(m) && Enabled(m, a)
    ensures Reachable(Do(m, a))
  {
    hide S.Inv, Do, Enabled;
    var run :| Possible(Begin(), run) && After(Begin(), run) == m;
    BeginInv();
    AnyActionNext(Begin(), run, a);
    assert (run + [a])[..|run|] == run;
    assert After(Begin(), run + [a]) == Do(m, a);
  }

  /** A first Watch makes the entry. */
  lemma Watched(cfg: Config, t: Topic, q: Qos) returns (m: Manager)
    requires !Blank(cfg.broker) && t != ""
    ensures Reachable(m) && m.sessions == [S.Opened(Owner(0, cfg), t, q)]
  {
    hide Blank, S.Inv, S.Opened;
    assert Possible(Begin(), []) && After(Begin(), []) == Begin();
    ReachableNext(Begin(), Watch(cfg, t, q, true));
    m := Do(Begin(), Watch(cfg, t, q, true));
  }

  /** What the pass ends with: settled, certain, applied as requested, held as granted, and nothing left to do. */
  ghost predicate SettledAt(s: S.Session, t: Topic, requested: Qos, granted: Qos) {
    && s.pc.Pass? && s.pc.todo == [] && s.pc.quiet
    && S.Settled(s) && !S.Uncertain(s, t)
    && t in s.entry.filters && MaxQos(s.entry.filters[t]) == requested && Decide(s.entry, t) == Skip
    && t in s.entry.applied && s.entry.applied[t] == requested
    && t in s.live && s.live[t] == granted
  }

  /** One owner of one topic, on a connection that is up and announced, with nothing applied yet. */
  predicate JustConnected(s: S.Session, t: Topic, requested: Qos) {
    && s.entry.filters.Keys == {t} && s.entry.filters[t] != map[] && MaxQos(s.entry.filters[t]) == requested
    && s.entry.applied == map[] && s.entry.generation > 0 && !s.entry.cancelled
    && s.connected && s.notices == multiset{} && s.unknown == {} && s.refused == {}
  }

  lemma OneOwner(o: Owner, q: Qos)
    ensures MaxQos(map[o := q]) == q && map[o := q] != map[]
  {
    MaxQosIs(map[o := q]);
    assert o in map[o := q];
  }

  /** The entry connects and hears of it. */
  lemma Connects(cfg: Config, t: Topic, requested: Qos) returns (m: Manager)
    requires !Blank(cfg.broker) && t != ""
    ensures Reachable(m) && |m.sessions| == 1
    ensures JustConnected(m.sessions[0], t, requested) && m.sessions[0].pc == S.Loop(false)
  {
    hide Reachable, Blank, MaxQos;
    OneOwner(Owner(0, cfg), requested);
    m := Watched(cfg, t, requested);
    assert m.sessions[0].entry.filters == map[t := map[Owner(0, cfg) := requested]];
    m := Next(m, S.Run(S.Go));
    m := Next(m, S.Net(S.Connect(map[])));
    m := Next(m, S.Net(S.Announce(0)));
    m := Next(m, S.Run(S.Connected));
    assert multiset{} + multiset{0} - multiset{0} == multiset{};
  }

  /** Its pass asks for the topic, and the broker answers. */
  lemma Answers(cfg: Config, t: Topic, requested: Qos, granted: Qos) returns (m: Manager)
    requires !Blank(cfg.broker) && t != "" && granted <= requested
    ensures Reachable(m) && |m.sessions| == 1 && JustConnected(m.sessions[0], t, requested)
    ensures m.sessions[0].pc == S.Acked(Subscribe(t, requested), m.sessions[0].entry.generation, [], true)
    ensures t in m.sessions[0].live && m.sessions[0].live[t] == granted
  {
    hide Reachable, Blank, MaxQos;
    m := Connects(cfg, t, requested);
    m := Next(m, S.Run(S.BeginPass([t])));
    assert JustConnected(m.sessions[0], t, requested) && m.sessions[0].pc.Pass? && m.sessions[0].pc.quiet;
    m := Next(m, S.Run(S.Look));
    assert JustConnected(m.sessions[0], t, requested) && m.sessions[0].pc.op == Subscribe(t, requested);
    m := Next(m, S.Net(S.Acknowledge(granted)));
  }

  /** For every quality requested and every quality up to it granted, a quiet pass settles on the one while the
      broker holds the other. */
  lemma GrantSettles(cfg: Config, t: Topic, requested: Qos, granted: Qos) returns (m: Manager)
    requires !Blank(cfg.broker) && t != "" && granted <= requested
    ensures Reachable(m) && |m.sessions| == 1 && SettledAt(m.sessions[0], t, requested, granted)
  {
    hide Reachable, Blank, MaxQos;
    m := Answers(cfg, t, requested, granted);
    m := Next(m, S.Run(S.Commit));
  }

  /** It happens: a topic requested at quality 2 is settled while the broker holds it at 1. */
  lemma DowngradeSettles()
    ensures exists m, t :: Reachable(m) && |m.sessions| == 1 && SettledAt(m.sessions[0], t, 2, 1)
  {
    hide Reachable, SettledAt;
    assert "b"[0] in "b";
    PlainLetter('b');
    var m := GrantSettles(Config("b", "c", "", "", 0, true), "t", 2, 1);
    assert SettledAt(m.sessions[0], "t", 2, 1);
  }
}
