/** Every interleaving of producers and workers over the publication scheduler. */
module JudgeSystem {
  import opened Collections
  import Q = JudgeQueue
  import opened JudgeQueue

  datatype Action =
    | Offer(publication: Publication)
    | TakeToken(worker: nat)
    | NextPublication(worker: nat)
    | CompletePublication(worker: nat)
    | StopWorker(worker: nat)

  predicate Enabled(s: State, a: Action) {
    match a
    case Offer(_) => true
    case TakeToken(w) => w < |s.workers| && s.workers[w].Idle? && s.ready != []
    case NextPublication(w) => w < |s.workers| && s.workers[w].Holding?
    case CompletePublication(w) => w < |s.workers| && s.workers[w].Publishing?
    case StopWorker(w) => w < |s.workers| && s.workers[w].Idle?
  }

  function Do(c: Config, s: State, a: Action): State
    requires Enabled(s, a)
  {
    match a
    case Offer(p) => Q.Enqueue(c, s, p)
    case TakeToken(w) => Take(s, w)
    case NextPublication(w) => Next(s, w)
    case CompletePublication(w) => Complete(s, w)
    case StopWorker(w) => Stop(s, w)
  }

  /** Whether the actions can be performed one after the other, and the state they lead to. */
  ghost predicate Possible(c: Config, s: State, run: seq<Action>)
    decreases |run|, 0
  {
    run == [] ||
    (Possible(c, s, run[..|run| - 1]) && Enabled(After(c, s, run[..|run| - 1]), run[|run| - 1]))
  }

  ghost function After(c: Config, s: State, run: seq<Action>): State
    requires Possible(c, s, run)
    decreases |run|, 1
  {
    if run == [] then s else Do(c, After(c, s, run[..|run| - 1]), run[|run| - 1])
  }

  lemma StepKeeps(c: Config, s: State, a: Action)
    requires Inv(c, s) && Enabled(s, a)
    ensures Inv(c, Do(c, s, a))
    ensures |Do(c, s, a).ready| <= c.queueSize
  {
    hide Tokens, Books, Fifo, Q.Enqueue, Take, Next, Complete, Stop;
    match a {
      case Offer(p) => EnqueueKeeps(c, s, p);
      case TakeToken(w) => TakeKeeps(c, s, w);
      case NextPublication(w) => NextKeeps(c, s, w);
      case CompletePublication(w) => CompleteKeeps(c, s, w);
      case StopWorker(w) => StopKeeps(c, s, w);
    }
    TokensFit(c, Do(c, s, a));
  }

  lemma {:induction false} RunKeeps(c: Config, s: State, run: seq<Action>)
    requires Inv(c, s) && Possible(c, s, run)
    ensures Inv(c, After(c, s, run))
    decreases |run|
  {
    hide Inv, Do;
    if run != [] {
      var most := run[..|run| - 1];
      RunKeeps(c, s, most);
      StepKeeps(c, After(c, s, most), run[|run| - 1]);
    }
  }

  /** The scheduler is correct in every state any interleaving can reach from the start. */
  lemma AlwaysInv(c: Config, run: seq<Action>)
    requires c.Valid() && Possible(c, Init(c.workerCount), run)
    ensures Inv(c, After(c, Init(c.workerCount), run))
  {
    hide Inv;
    InitInv(c);
    RunKeeps(c, Init(c.workerCount), run);
  }

  // ---------------------------------------------------------------- one place per device

  ghost function ReadyAt(s: State, d: DeviceID): set<int> {
    set i | 0 <= i < |s.ready| && s.ready[i] == d
  }

  ghost function WorkersOn(s: State, d: DeviceID): set<int> {
    set i | 0 <= i < |s.workers| && Has(s.workers[i], d)
  }

  lemma AtMostOne(xs: set<int>)
    requires forall i, j | i in xs && j in xs :: i == j
    ensures |xs| == if xs == {} then 0 else 1
  {
    if xs != {} {
      assert |xs| > 0;
      var x := Chosen(xs);
      forall y | y in xs
        ensures y == x
      {
      }
      assert xs == {x};
    }
  }

  /** Each known device is in exactly one place: a ready token, a held token or a flight. Hence it never
      has two flights and never lacks a token or a worker. */
  lemma OnePlaceEach(c: Config, run: seq<Action>, d: DeviceID)
    requires c.Valid() && Possible(c, Init(c.workerCount), run)
    ensures var s := After(c, Init(c.workerCount), run);
      |ReadyAt(s, d)| + |WorkersOn(s, d)| == if d in s.queues then 1 else 0
  {
    AlwaysInv(c, run);
    hide Do, Books, Fifo, After, Possible;
    var s := After(c, Init(c.workerCount), run);
    forall i, j | i in ReadyAt(s, d) && j in ReadyAt(s, d)
      ensures i == j
    {
    }
    forall i, j | i in WorkersOn(s, d) && j in WorkersOn(s, d)
      ensures i == j
    {
      OthersElsewhere(s.workers, i, j, d);
    }
    AtMostOne(ReadyAt(s, d));
    AtMostOne(WorkersOn(s, d));
    NoneHere(s, d);
  }

  lemma NoneHere(s: State, d: DeviceID)
    ensures ReadyAt(s, d) == {} <==> d !in s.ready
    ensures WorkersOn(s, d) == {} <==> !Held(s.workers, d)
  {
    if d in s.ready {
      var i :| 0 <= i < |s.ready| && s.ready[i] == d;
      assert i in ReadyAt(s, d);
    }
    if Held(s.workers, d) {
      var i :| 0 <= i < |s.workers| && Has(s.workers[i], d);
      assert i in WorkersOn(s, d);
    }
  }

  // ---------------------------------------------------------------- order and conservation

  /** For one device: what was handed out, in order, is a prefix of what was accepted, each at most once;
      and when the device has no queue left, everything accepted has been attempted. */
  lemma HandedOutInOrder(c: Config, run: seq<Action>, d: DeviceID)
    requires c.Valid() && Possible(c, Init(c.workerCount), run)
    ensures var s := After(c, Init(c.workerCount), run);
      && Of(s.completed, d) + InFlight(s.workers, d) <= Of(s.accepted, d)
      && |InFlight(s.workers, d)| <= 1
      && Of(s.accepted, d)[|Of(s.completed, d)| + |InFlight(s.workers, d)|..] == QueueOf(s, d).pending
      && (d !in s.queues ==> Of(s.accepted, d) == Of(s.completed, d))
  {
    AlwaysInv(c, run);
    hide Do, After, Possible, Of, Books;
    var s := After(c, Init(c.workerCount), run);
    assert Of(s.accepted, d) == Of(s.completed, d) + InFlight(s.workers, d) + QueueOf(s, d).pending;
    if d !in s.queues {
      Unknown(s, d);
      NoFlight(s.workers, d);
    }
  }

  /** The counters are the sums they stand for, within all four budgets, in every reachable state; no
      decrement ever reaches its clamp and no token that is sent lacks room. */
  lemma BudgetsHold(c: Config, run: seq<Action>, d: DeviceID, w: nat)
    requires c.Valid() && Possible(c, Init(c.workerCount), run)
    ensures var s := After(c, Init(c.workerCount), run);
      && 0 <= s.queued == Total(s.queues, PENDING) <= c.queueSize
      && s.bytes == Total(s.queues, OUTSTANDING) <= c.queueMaxBytes
      && |s.ready| <= s.queued
      && QueueOf(s, d).outstandingCount == |QueueOf(s, d).pending| + |InFlight(s.workers, d)| <= c.deviceQueueSize
      && QueueOf(s, d).outstandingBytes ==
        PayloadBytes(QueueOf(s, d).pending) + PayloadBytes(InFlight(s.workers, d)) <= c.deviceQueueMaxBytes
      && (w < |s.workers| && s.workers[w].Holding? ==> s.queued >= 1 && HasNext(s, s.workers[w].device))
      && (w < |s.workers| && s.workers[w].Publishing? ==> s.bytes >= |s.workers[w].pub.payload|)
  {
    AlwaysInv(c, run);
    hide Do, After, Possible, Of, Fifo, Total, PayloadBytes, InFlight;
    var s := After(c, Init(c.workerCount), run);
    TokensFit(c, s);
    if d !in s.queues {
      Unknown(s, d);
      NoFlight(s.workers, d);
      NoBytes();
    }
    if w < |s.workers| && s.workers[w].Holding? {
      TokenFindsWork(c, s, w);
    }
    if w < |s.workers| && s.workers[w].Publishing? {
      CompleteFinds(c, s, w);
    }
  }

  lemma NoBytes()
    ensures PayloadBytes([]) == 0
  {
  }

  /** A refusal has a reason that holds, and changes nothing. */
  lemma RefusalChangesNothing(c: Config, s: State, p: Publication)
    ensures Q.Enqueue(c, s, p) == s <==>
      || p.payload == []
      || s.queued >= c.queueSize
      || s.bytes + |p.payload| > c.queueMaxBytes
      || QueueOf(s, p.deviceID).outstandingCount >= c.deviceQueueSize
      || QueueOf(s, p.deviceID).outstandingBytes + |p.payload| > c.deviceQueueMaxBytes
  {
    if Admission(c, s, p) == Accepted {
      assert |Q.Enqueue(c, s, p).accepted| == |s.accepted| + 1;
    }
  }

  /** In every reachable state the verdict names the first budget, in the source's order, that one publication more
      would exceed, with the budgets measured on what is pending and in flight and not on the counters. */
  lemma VerdictNamesBudget(c: Config, run: seq<Action>, p: Publication)
    requires c.Valid() && Possible(c, Init(c.workerCount), run)
    ensures var s := After(c, Init(c.workerCount), run);
      var pending := QueueOf(s, p.deviceID).pending;
      var flight := InFlight(s.workers, p.deviceID);
      var slots := Total(s.queues, PENDING) + 1 > c.queueSize;
      var room := Total(s.queues, OUTSTANDING) + |p.payload| > c.queueMaxBytes;
      var ownSlots := |pending| + |flight| + 1 > c.deviceQueueSize;
      var ownRoom := PayloadBytes(pending) + PayloadBytes(flight) + |p.payload| > c.deviceQueueMaxBytes;
      var v := Admission(c, s, p);
      && (v == EmptyEvent <==> p.payload == [])
      && (v == QueueFull <==> p.payload != [] && slots)
      && (v == QueueBytesFull <==> p.payload != [] && !slots && room)
      && (v == DeviceQueueFull <==> p.payload != [] && !slots && !room && ownSlots)
      && (v == DeviceQueueBytesFull <==> p.payload != [] && !slots && !room && !ownSlots && ownRoom)
      && (v == Accepted <==> p.payload != [] && !slots && !room && !ownSlots && !ownRoom)
  {
    BudgetsHold(c, run, p.deviceID, 0);
    hide After, Total, PayloadBytes, InFlight, Possible, Admission;
    AdmissionCases(c, After(c, Init(c.workerCount), run), p);
  }

  lemma AdmissionCases(c: Config, s: State, p: Publication)
    ensures var q := QueueOf(s, p.deviceID);
      Admission(c, s, p) ==
        if p.payload == [] then EmptyEvent
        else if s.queued + 1 > c.queueSize then QueueFull
        else if s.bytes + |p.payload| > c.queueMaxBytes then QueueBytesFull
        else if q.outstandingCount + 1 > c.deviceQueueSize then DeviceQueueFull
        else if q.outstandingBytes + |p.payload| > c.deviceQueueMaxBytes then DeviceQueueBytesFull
        else Accepted
  {
  }

  // ---------------------------------------------------------------- bounded bypass

  /** Tokens are taken in the order they became ready. */
  lemma {:induction false} TokensInOrder(c: Config, s: State, run: seq<Action>)
    requires Possible(c, s, run)
    ensures s.taken + s.ready <= After(c, s, run).taken + After(c, s, run).ready
    ensures s.taken <= After(c, s, run).taken
    decreases |run|
  {
    if run != [] {
      var most := run[..|run| - 1];
      TokensInOrder(c, s, most);
      OneInOrder(c, After(c, s, most), run[|run| - 1]);
    }
  }

  lemma OneInOrder(c: Config, s: State, a: Action)
    requires Enabled(s, a)
    ensures s.taken + s.ready <= Do(c, s, a).taken + Do(c, s, a).ready
    ensures s.taken <= Do(c, s, a).taken
  {
    if a.TakeToken? {
      assert s.ready == [s.ready[0]] + s.ready[1..];
    }
  }

  /** A token at position k is taken after exactly the k tokens in front of it. */
  lemma TakenInTurn(c: Config, s: State, run: seq<Action>, k: nat)
    requires Possible(c, s, run) && k < |s.ready|
    ensures var t := After(c, s, run);
      && |t.taken| >= |s.taken|
      && (|t.taken| > |s.taken| + k ==> t.taken[|s.taken|..|s.taken| + k + 1] == s.ready[..k + 1])
      && (|t.taken| <= |s.taken| + k ==> s.ready[|t.taken| - |s.taken|..] <= t.ready)
  {
    hide Do, After, Possible;
    TokensInOrder(c, s, run);
    var t := After(c, s, run);
    var before, later := s.taken + s.ready, t.taken + t.ready;
    if |t.taken| > |s.taken| + k {
      assert s.ready[..k + 1] == before[|s.taken|..|s.taken| + k + 1];
      assert t.taken[|s.taken|..|s.taken| + k + 1] == later[|s.taken|..|s.taken| + k + 1] ==
        before[|s.taken|..|s.taken| + k + 1];
    } else {
      assert s.ready[|t.taken| - |s.taken|..] == before[|t.taken|..];
      assert t.ready == later[|t.taken|..];
    }
  }

  /** After its attempt a device with more work is behind every device that was ready; one without leaves. */
  lemma RejoinsAtTail(c: Config, s: State, w: nat)
    requires Inv(c, s) && Enabled(s, CompletePublication(w))
    ensures var d := s.workers[w].pub.deviceID;
      var t := Do(c, s, CompletePublication(w));
      && d !in s.ready
      && (t.ready == s.ready + [d] || t.ready == s.ready)
      && (t.ready == s.ready + [d] <==> QueueOf(s, d).pending != [])
      && (d in t.queues <==> QueueOf(s, d).pending != [])
  {
    hide Inv;
    CompleteFinds(c, s, w);
    var d := s.workers[w].pub.deviceID;
    assert |s.ready + [d]| == |s.ready| + 1;
  }

  // ---------------------------------------------------------------- draining

  function Weight(w: Worker): int {
    if w.Holding? then -1 else if w.Publishing? then 1 else 0
  }

  function Tally(ws: seq<Worker>): int {
    if ws == [] then 0 else Tally(ws[..|ws| - 1]) + Weight(ws[|ws| - 1])
  }

  /** The worker steps the accepted work still needs: three for each waiting publication, less one for each
      token already taken, one for each flight. */
  function StepsLeft(s: State): int {
    3 * s.queued + Tally(s.workers)
  }

  lemma {:induction false} TallyUpdate(ws: seq<Worker>, i: nat, w: Worker)
    requires i < |ws|
    ensures Tally(ws[i := w]) == Tally(ws) - Weight(ws[i]) + Weight(w)
  {
    var last := |ws| - 1;
    if i < last {
      assert ws[i := w][..last] == ws[..last][i := w];
      TallyUpdate(ws[..last], i, w);
    } else {
      assert ws[i := w][..last] == ws[..last];
    }
  }

  function HeldTokens(ws: seq<Worker>): seq<DeviceID> {
    if ws == [] then []
    else HeldTokens(ws[..|ws| - 1]) + if ws[|ws| - 1].Holding? then [ws[|ws| - 1].device] else []
  }

  function Flights(ws: seq<Worker>): nat {
    if ws == [] then 0 else Flights(ws[..|ws| - 1]) + if ws[|ws| - 1].Publishing? then 1 else 0
  }

  lemma {:induction false} HeldDistinct(ws: seq<Worker>)
    requires OneWorker(ws)
    ensures Tally(ws) == Flights(ws) - |HeldTokens(ws)|
    ensures Distinct(HeldTokens(ws))
    ensures forall d | d in HeldTokens(ws) :: exists i | 0 <= i < |ws| :: ws[i] == Holding(d)
    ensures forall i | 0 <= i < |ws| && ws[i].Publishing? :: Flights(ws) > 0
  {
    hide Has;
    if ws != [] {
      var last := |ws| - 1;
      HeldDistinct(ws[..last]);
      if ws[last].Holding? {
        var d := ws[last].device;
        assert d !in HeldTokens(ws[..last]) by {
          if d in HeldTokens(ws[..last]) {
            var i :| 0 <= i < last && ws[..last][i] == Holding(d);
            HoldersHave(ws[i], ws[last], d);
          }
        }
      }
      forall d | d in HeldTokens(ws)
        ensures exists i | 0 <= i < |ws| :: ws[i] == Holding(d)
      {
        if d in HeldTokens(ws[..last]) {
          var i :| 0 <= i < last && ws[..last][i] == Holding(d);
          assert ws[i] == Holding(d);
        }
      }
    }
  }

  lemma HoldersHave(v: Worker, w: Worker, d: DeviceID)
    requires v == Holding(d) && w == Holding(d)
    ensures Has(v, d) && Has(w, d)
  {
  }

  lemma HeldFit(c: Config, s: State)
    requires Inv(c, s)
    ensures |HeldTokens(s.workers)| <= s.queued
    ensures StepsLeft(s) >= 2 * s.queued + Flights(s.workers) >= 0
  {
    hide Of, Fifo, Total, PayloadBytes, InFlight, OneWorker, Held, HeldTokens, Tally, Flights;
    HeldDistinct(s.workers);
    var held := HeldTokens(s.workers);
    forall k | 0 <= k < |held|
      ensures HasNext(s, held[k])
    {
      assert held[k] in held;
    }
    TotalCovers(s.queues, held, PENDING);
  }

  predicate WorkerStep(a: Action) {
    a.TakeToken? || a.NextPublication? || a.CompletePublication?
  }

  /** Every step of a worker is one of the steps left. */
  lemma OneStepLess(c: Config, s: State, a: Action)
    requires Inv(c, s) && Enabled(s, a) && WorkerStep(a)
    ensures StepsLeft(Do(c, s, a)) == StepsLeft(s) - 1
    ensures var t := Do(c, s, a);
      |t.completed| + t.queued + Flights(t.workers) == |s.completed| + s.queued + Flights(s.workers)
    ensures Do(c, s, a).accepted == s.accepted
  {
    hide Inv;
    if a.NextPublication? {
      TokenFindsWork(c, s, a.worker);
    }
    TallyUpdate(s.workers, a.worker, Do(c, s, a).workers[a.worker]);
    FlightsUpdate(s.workers, a.worker, Do(c, s, a).workers[a.worker]);
  }

  lemma {:induction false} FlightsUpdate(ws: seq<Worker>, i: nat, w: Worker)
    requires i < |ws|
    ensures Flights(ws[i := w]) == Flights(ws) - (if ws[i].Publishing? then 1 else 0) + if w.Publishing? then 1 else 0
  {
    var last := |ws| - 1;
    if i < last {
      assert ws[i := w][..last] == ws[..last][i := w];
      FlightsUpdate(ws[..last], i, w);
    } else {
      assert ws[i := w][..last] == ws[..last];
    }
  }

  ghost predicate Workers(run: seq<Action>) {
    forall i | 0 <= i < |run| :: WorkerStep(run[i])
  }

  lemma {:induction false} StepsCount(c: Config, s: State, run: seq<Action>)
    requires Inv(c, s) && Possible(c, s, run) && Workers(run)
    ensures var t := After(c, s, run);
      && StepsLeft(t) == StepsLeft(s) - |run|
      && |t.completed| + t.queued + Flights(t.workers) == |s.completed| + s.queued + Flights(s.workers)
      && t.accepted == s.accepted
    decreases |run|
  {
    hide Inv, Do, StepsLeft, Flights;
    if run != [] {
      var most := run[..|run| - 1];
      StepsCount(c, s, most);
      RunKeeps(c, s, most);
      OneStepLess(c, After(c, s, most), run[|run| - 1]);
    }
  }

  /** While one worker is left, a state with no worker step possible holds no work. */
  lemma StuckIsDrained(c: Config, s: State)
    requires Inv(c, s)
    requires exists i | 0 <= i < |s.workers| :: !s.workers[i].Stopped?
    ensures (exists a :: WorkerStep(a) && Enabled(s, a)) <==> StepsLeft(s) > 0
    ensures StepsLeft(s) == 0 ==>
      s.queues == map[] && s.ready == [] && s.queued == 0 && s.bytes == 0 && Flights(s.workers) == 0
  {
    hide Fifo, Of, PayloadBytes, InFlight, Inv;
    if a :| WorkerStep(a) && Enabled(s, a) {
      OneStepLess(c, s, a);
      StepKeeps(c, s, a);
      HeldFit(c, Do(c, s, a));
    } else {
      forall i | 0 <= i < |s.workers|
        ensures s.workers[i].Idle? || s.workers[i].Stopped?
      {
        assert !Enabled(s, NextPublication(i)) && !Enabled(s, CompletePublication(i));
      }
      var i :| 0 <= i < |s.workers| && !s.workers[i].Stopped?;
      assert !Enabled(s, TakeToken(i));
      QuietWorkers(s.workers);
      NothingLeft(c, s);
    }
  }

  lemma {:induction false} QuietWorkers(ws: seq<Worker>)
    requires forall i | 0 <= i < |ws| :: ws[i].Idle? || ws[i].Stopped?
    ensures Tally(ws) == 0 && Flights(ws) == 0 && forall d :: !Held(ws, d)
  {
    if ws != [] {
      assert ws[|ws| - 1].Idle? || ws[|ws| - 1].Stopped?;
      QuietWorkers(ws[..|ws| - 1]);
    }
  }

  lemma NothingLeft(c: Config, s: State)
    requires Inv(c, s) && s.ready == [] && forall d :: !Held(s.workers, d)
    ensures s.queues == map[] && s.queued == 0 && s.bytes == 0
  {
    hide Fifo, Of, InFlight;
    forall d
      ensures d !in s.queues
    {
    }
    assert s.queues == map[];
  }

  /** Without further events the workers drain the system in exactly StepsLeft steps, however they
      interleave, and complete exactly what was outstanding, in acceptance order for each device. */
  lemma Drains(c: Config, s: State, run: seq<Action>, d: DeviceID)
    requires Inv(c, s) && Possible(c, s, run) && Workers(run)
    requires exists i | 0 <= i < |After(c, s, run).workers| :: !After(c, s, run).workers[i].Stopped?
    ensures |run| <= StepsLeft(s)
    ensures var t := After(c, s, run);
      (forall a | WorkerStep(a) :: !Enabled(t, a)) <==> |run| == StepsLeft(s)
    ensures var t := After(c, s, run);
      |run| == StepsLeft(s) ==>
        && t.queues == map[] && t.ready == [] && t.bytes == 0
        && |t.completed| == |s.completed| + s.queued + Flights(s.workers)
        && Of(t.completed, d) == Of(s.accepted, d)
  {
    hide Inv, Do, StepsLeft, Flights, Of, After, Possible;
    var t := After(c, s, run);
    RunKeeps(c, s, run);
    StepsCount(c, s, run);
    HeldFit(c, t);
    StuckIsDrained(c, t);
    if StepsLeft(t) == 0 {
      AllAttempted(c, t, d);
    }
  }

  lemma AllAttempted(c: Config, s: State, d: DeviceID)
    requires Inv(c, s) && d !in s.queues
    ensures Of(s.completed, d) == Of(s.accepted, d)
  {
    hide Of, Books;
    Unknown(s, d);
    NoFlight(s.workers, d);
    assert Of(s.accepted, d) == Of(s.completed, d) + InFlight(s.workers, d) + QueueOf(s, d).pending;
  }
}
