/** The publication scheduler as a state and its transitions: bounded admission, one queue per device,
    one ready token per device, a pool of workers. Each transition is one mutex-protected section, or
    the receipt of a token from the ready channel. */
module JudgeQueue {
  import opened Bytes
  import opened Collections

  type DeviceID = string

  datatype Publication = Publication(deviceID: DeviceID, payload: seq<Byte>)

  datatype Config = Config(enabled: bool, channel: string, writeTimeout: int, workerCount: int, queueSize: int,
                           queueMaxBytes: int, deviceQueueSize: int, deviceQueueMaxBytes: int)
  {
    /** What the constructor accepts. */
    predicate Valid() {
      && enabled && workerCount > 0 && queueSize >= workerCount && queueMaxBytes > 0
      && deviceQueueSize > 0 && deviceQueueMaxBytes > 0 && channel != "" && writeTimeout > 0
    }
  }

  datatype Queue = Queue(pending: seq<Publication>, scheduled: bool, outstandingCount: int, outstandingBytes: int)

  /** A worker waits, has received a token it has not yet acted on, is publishing, or has left. */
  datatype Worker = Idle | Holding(device: DeviceID) | Publishing(pub: Publication) | Stopped

  /** accepted, completed and taken are histories. */
  datatype State = State(queues: map<DeviceID, Queue>, ready: seq<DeviceID>, queued: int, bytes: int,
                         workers: seq<Worker>,
                         accepted: seq<Publication>, completed: seq<Publication>, taken: seq<DeviceID>)

  datatype Verdict = Accepted | EmptyEvent | QueueFull | QueueBytesFull | DeviceQueueFull | DeviceQueueBytesFull

  const NO_QUEUE := Queue([], false, 0, 0)

  function QueueOf(s: State, d: DeviceID): Queue {
    if d in s.queues then s.queues[d] else NO_QUEUE
  }

  // ---------------------------------------------------------------- transitions

  function Admission(c: Config, s: State, p: Publication): Verdict {
    var q := QueueOf(s, p.deviceID);
    if |p.payload| == 0 then EmptyEvent
    else if s.queued >= c.queueSize then QueueFull
    else if |p.payload| > c.queueMaxBytes - s.bytes then QueueBytesFull
    else if q.outstandingCount >= c.deviceQueueSize then DeviceQueueFull
    else if |p.payload| > c.deviceQueueMaxBytes - q.outstandingBytes then DeviceQueueBytesFull
    else Accepted
  }

  function Enqueue(c: Config, s: State, p: Publication): State {
    if Admission(c, s, p) != Accepted then s
    else
      var q := QueueOf(s, p.deviceID);
      var charged := Queue(q.pending + [p], true, q.outstandingCount + 1, q.outstandingBytes + |p.payload|);
      s.(queues := s.queues[p.deviceID := charged],
         ready := if q.scheduled then s.ready else s.ready + [p.deviceID],
         queued := s.queued + 1,
         bytes := s.bytes + |p.payload|,
         accepted := s.accepted + [p])
  }

  /** A waiting worker receives the oldest token. */
  function Take(s: State, w: nat): State
    requires w < |s.workers| && s.workers[w].Idle? && s.ready != []
  {
    s.(ready := s.ready[1..], workers := s.workers[w := Holding(s.ready[0])], taken := s.taken + [s.ready[0]])
  }

  /** Whether the device of a token still has something to publish. */
  predicate HasNext(s: State, d: DeviceID) {
    d in s.queues && s.queues[d].pending != []
  }

  function Next(s: State, w: nat): State
    requires w < |s.workers| && s.workers[w].Holding?
  {
    var d := s.workers[w].device;
    if !HasNext(s, d) then s.(workers := s.workers[w := Idle])
    else
      var q := s.queues[d];
      s.(queues := s.queues[d := q.(pending := q.pending[1..])],
         queued := if s.queued - 1 < 0 then 0 else s.queued - 1,
         workers := s.workers[w := Publishing(q.pending[0])])
  }

  /** The attempt is over, whatever its outcome. */
  function Complete(s: State, w: nat): State
    requires w < |s.workers| && s.workers[w].Publishing?
  {
    var p := s.workers[w].pub;
    var n := |p.payload|;
    var q := QueueOf(s, p.deviceID);
    var more := p.deviceID in s.queues && q.pending != [];
    var released := q.(outstandingCount := q.outstandingCount - 1, outstandingBytes := q.outstandingBytes - n);
    s.(bytes := if s.bytes - n < 0 then 0 else s.bytes - n,
       queues := if more then s.queues[p.deviceID := released]
                 else s.queues - {p.deviceID},
       ready := if more then s.ready + [p.deviceID] else s.ready,
       workers := s.workers[w := Idle],
       completed := s.completed + [p])
  }

  /** A waiting worker sees the cancelled context. */
  function Stop(s: State, w: nat): State
    requires w < |s.workers| && s.workers[w].Idle?
  {
    s.(workers := s.workers[w := Stopped])
  }

  // ---------------------------------------------------------------- sums over the device map

  ghost function Total(m: map<DeviceID, Queue>, f: Queue -> int): int
    decreases |m|
  {
    if |m| == 0 then 0
    else
      var k := Chosen(m.Keys);
      f(m[k]) + Total(m - {k}, f)
  }

  ghost function Chosen<T>(s: set<T>): (x: T)
    requires |s| > 0
    ensures x in s
  {
    var x :| x in s;
    x
  }

  lemma {:induction false} TotalRemove(m: map<DeviceID, Queue>, k: DeviceID, f: Queue -> int)
    requires k in m
    ensures Total(m, f) == f(m[k]) + Total(m - {k}, f)
    decreases |m|
  {
    assert |m.Keys| > 0;
    var j := Chosen(m.Keys);
    if j != k {
      var rest := m - {j};
      assert |rest| < |m| by {
        assert rest.Keys == m.Keys - {j};
      }
      TotalRemove(rest, k, f);
      assert rest - {k} == (m - {k}) - {j};
      assert |m - {k}| < |m| by {
        assert (m - {k}).Keys == m.Keys - {k};
      }
      TotalRemove(m - {k}, j, f);
    }
  }

  lemma TotalUpdate(m: map<DeviceID, Queue>, k: DeviceID, q: Queue, f: Queue -> int)
    ensures Total(m[k := q], f) == f(q) + Total(m - {k}, f)
    ensures Total(m, f) == (if k in m then f(m[k]) else 0) + Total(m - {k}, f)
  {
    hide Total;
    TotalRemove(m[k := q], k, f);
    assert m[k := q] - {k} == m - {k};
    if k in m {
      TotalRemove(m, k, f);
    } else {
      assert m - {k} == m;
    }
  }

  /** Distinct keys that each contribute at least one are at most as many as the sum. */
  lemma {:induction false} TotalCovers(m: map<DeviceID, Queue>, keys: seq<DeviceID>, f: Queue -> int)
    requires Distinct(keys)
    requires forall i | 0 <= i < |keys| :: keys[i] in m && f(m[keys[i]]) >= 1
    requires forall k | k in m :: f(m[k]) >= 0
    ensures |keys| <= Total(m, f)
    decreases |keys| + |m|
  {
    if keys == [] {
      if |m| > 0 {
        var k := Chosen(m.Keys);
        assert (m - {k}).Keys == m.Keys - {k};
        TotalCovers(m - {k}, [], f);
      }
    } else {
      assert keys[0] in m;
      TotalRemove(m, keys[0], f);
      assert (m - {keys[0]}).Keys == m.Keys - {keys[0]};
      TotalCovers(m - {keys[0]}, keys[1..], f);
    }
  }

  const PENDING: Queue -> int := (q: Queue) => |q.pending|

  const OUTSTANDING: Queue -> int := (q: Queue) => q.outstandingBytes

  function PayloadBytes(ps: seq<Publication>): nat {
    if ps == [] then 0 else PayloadBytes(ps[..|ps| - 1]) + |ps[|ps| - 1].payload|
  }

  lemma {:induction false} BytesAppend(a: seq<Publication>, b: seq<Publication>)
    ensures PayloadBytes(a + b) == PayloadBytes(a) + PayloadBytes(b)
  {
    if b == [] {
      assert a + b == a;
    } else {
      assert (a + b)[..|a + b| - 1] == a + b[..|b| - 1];
      BytesAppend(a, b[..|b| - 1]);
    }
  }

  // ---------------------------------------------------------------- what holds in every reachable state

  /** The device whose token or publication a worker has. */
  predicate Has(w: Worker, d: DeviceID) {
    (w.Holding? && w.device == d) || (w.Publishing? && w.pub.deviceID == d)
  }

  predicate Publishes(w: Worker, d: DeviceID) {
    w.Publishing? && w.pub.deviceID == d
  }

  ghost predicate Held(ws: seq<Worker>, d: DeviceID) {
    exists i | 0 <= i < |ws| :: Has(ws[i], d)
  }

  ghost function InFlight(ws: seq<Worker>, d: DeviceID): seq<Publication> {
    if exists i | 0 <= i < |ws| :: Publishes(ws[i], d) then
      var i :| 0 <= i < |ws| && Publishes(ws[i], d);
      [ws[i].pub]
    else []
  }

  /** No device has two workers. */
  ghost predicate OneWorker(ws: seq<Worker>) {
    forall i, j, d | 0 <= i < j < |ws| && Has(ws[i], d) :: !Has(ws[j], d)
  }

  /** A token is ready or held, not both, and every token has work; every device with a queue has a
      token or a publication in flight. */
  ghost predicate Placed(s: State) {
    && (forall d | d in s.ready :: HasNext(s, d) && !Held(s.workers, d))
    && (forall i | 0 <= i < |s.workers| && s.workers[i].Holding? :: HasNext(s, s.workers[i].device))
    && (forall i | 0 <= i < |s.workers| && s.workers[i].Publishing? :: s.workers[i].pub.deviceID in s.queues)
    && (forall d | d in s.queues :: d in s.ready || Held(s.workers, d))
  }

  /** Every device with a queue has exactly one of: a ready token, a held token, a publication in flight. */
  ghost predicate Tokens(s: State) {
    Distinct(s.ready) && OneWorker(s.workers) && Placed(s)
  }

  /** One device's account. */
  ghost predicate Account(c: Config, q: Queue, flight: seq<Publication>, d: DeviceID) {
    && q.scheduled
    && (forall i | 0 <= i < |q.pending| :: q.pending[i].deviceID == d)
    && q.outstandingCount == |q.pending| + |flight| <= c.deviceQueueSize
    && q.outstandingBytes == PayloadBytes(q.pending) + PayloadBytes(flight) <= c.deviceQueueMaxBytes
  }

  ghost predicate Books(c: Config, s: State) {
    && (forall d | d in s.queues :: Account(c, s.queues[d], InFlight(s.workers, d), d))
    && s.queued == Total(s.queues, PENDING) <= c.queueSize
    && s.bytes == Total(s.queues, OUTSTANDING) <= c.queueMaxBytes
  }

  /** The part of a history that belongs to one device. */
  function Of(ps: seq<Publication>, d: DeviceID): seq<Publication> {
    if ps == [] then []
    else Of(ps[..|ps| - 1], d) + if ps[|ps| - 1].deviceID == d then [ps[|ps| - 1]] else []
  }

  /** Per device: accepted is completed, then in flight, then pending. */
  ghost predicate Fifo(s: State) {
    forall d :: Of(s.accepted, d) == Of(s.completed, d) + InFlight(s.workers, d) + QueueOf(s, d).pending
  }

  ghost predicate Inv(c: Config, s: State) {
    Tokens(s) && Books(c, s) && Fifo(s)
  }

  function Init(n: nat): State {
    State(map[], [], 0, 0, seq(n, i => Idle), [], [], [])
  }

  lemma InitInv(c: Config)
    requires c.Valid()
    ensures Inv(c, Init(c.workerCount))
  {
  }

  // ---------------------------------------------------------------- workers

  lemma FlightOf(ws: seq<Worker>, i: nat)
    requires OneWorker(ws) && i < |ws| && ws[i].Publishing?
    ensures InFlight(ws, ws[i].pub.deviceID) == [ws[i].pub]
  {
    var d := ws[i].pub.deviceID;
    assert Publishes(ws[i], d);
    forall j | 0 <= j < |ws| && Publishes(ws[j], d)
      ensures j == i
    {
      assert Has(ws[i], d) && Has(ws[j], d);
    }
  }

  lemma NoFlight(ws: seq<Worker>, d: DeviceID)
    requires !Held(ws, d)
    ensures InFlight(ws, d) == []
  {
    forall i | 0 <= i < |ws|
      ensures !Publishes(ws[i], d)
    {
      assert !Has(ws[i], d);
    }
  }

  lemma HoldingNoFlight(ws: seq<Worker>, i: nat)
    requires OneWorker(ws) && i < |ws| && ws[i].Holding?
    ensures InFlight(ws, ws[i].device) == []
  {
    var d := ws[i].device;
    forall j | 0 <= j < |ws|
      ensures !Publishes(ws[j], d)
    {
      assert Has(ws[i], d);
      if Publishes(ws[j], d) {
        assert Has(ws[j], d);
      }
    }
  }

  /** Changing one worker leaves the flights of devices it has nothing to do with. */
  lemma FlightFrame(ws: seq<Worker>, i: nat, w: Worker, d: DeviceID)
    requires OneWorker(ws) && i < |ws| && !Publishes(ws[i], d) && !Publishes(w, d)
    ensures InFlight(ws[i := w], d) == InFlight(ws, d)
  {
    var vs := ws[i := w];
    if j :| 0 <= j < |ws| && Publishes(ws[j], d) {
      assert vs[j] == ws[j];
      FlightOf(ws, j);
      forall k | 0 <= k < |vs| && Publishes(vs[k], d)
        ensures k == j
      {
        assert ws[k] == vs[k] && Has(ws[k], d) && Has(ws[j], d);
      }
    } else {
      assert forall k | 0 <= k < |vs| :: !Publishes(vs[k], d);
    }
  }

  lemma OneWorkerUpdate(ws: seq<Worker>, i: nat, w: Worker)
    requires OneWorker(ws) && i < |ws|
    requires forall d | Has(w, d) :: Has(ws[i], d) || !Held(ws, d)
    ensures OneWorker(ws[i := w])
  {
    var vs := ws[i := w];
    forall j, k, d | 0 <= j < k < |vs| && Has(vs[j], d)
      ensures !Has(vs[k], d)
    {
      assert k != i && Has(ws[k], d) ==> Held(ws, d);
      assert j != i && Has(ws[j], d) ==> Held(ws, d);
    }
  }

  lemma HeldUpdate(ws: seq<Worker>, i: nat, w: Worker, d: DeviceID)
    requires OneWorker(ws) && i < |ws|
    ensures Held(ws[i := w], d) <==> Has(w, d) || (Held(ws, d) && !Has(ws[i], d))
  {
    var vs := ws[i := w];
    if Has(w, d) {
      assert Has(vs[i], d);
    } else if j :| 0 <= j < |ws| && Has(ws[j], d) {
      if j != i {
        assert Has(vs[j], d);
      } else {
        forall k | 0 <= k < |vs|
          ensures !Has(vs[k], d)
        {
          assert k != i ==> !Has(ws[k], d);
        }
      }
    }
  }

  lemma OfAppend(ps: seq<Publication>, p: Publication, d: DeviceID)
    ensures Of(ps + [p], d) == Of(ps, d) + if p.deviceID == d then [p] else []
  {
    assert (ps + [p])[..|ps|] == ps;
  }

  // ---------------------------------------------------------------- accepting an event

  lemma EnqueueTokens(c: Config, s: State, p: Publication)
    requires Inv(c, s) && Admission(c, s, p) == Accepted
    ensures Tokens(Enqueue(c, s, p))
    ensures QueueOf(s, p.deviceID).scheduled <==> p.deviceID in s.queues
  {
    hide Of, Fifo, Total, PayloadBytes, InFlight, Admission, OneWorker, Held, Has;
    var t, d := Enqueue(c, s, p), p.deviceID;
    if d !in s.queues {
      Unknown(s, d);
    }
  }

  /** A device without a queue has no token anywhere. */
  lemma Unknown(s: State, d: DeviceID)
    requires Tokens(s) && d !in s.queues
    ensures d !in s.ready && !Held(s.workers, d)
  {
  }

  function Charged(q: Queue, p: Publication): Queue {
    Queue(q.pending + [p], true, q.outstandingCount + 1, q.outstandingBytes + |p.payload|)
  }

  lemma ChargedAccount(c: Config, q: Queue, flight: seq<Publication>, p: Publication)
    requires Account(c, q, flight, p.deviceID) || (q == NO_QUEUE && flight == [])
    requires q.outstandingCount < c.deviceQueueSize && |p.payload| <= c.deviceQueueMaxBytes - q.outstandingBytes
    ensures Account(c, Charged(q, p), flight, p.deviceID)
  {
    BytesAppend(q.pending, [p]);
    OnePayload(p);
  }

  lemma EnqueueBooks(c: Config, s: State, p: Publication)
    requires Inv(c, s) && Admission(c, s, p) == Accepted
    ensures Books(c, Enqueue(c, s, p))
  {
    hide Of, Fifo, InFlight, Tokens, Total, Account;
    var t, d := Enqueue(c, s, p), p.deviceID;
    var q := QueueOf(s, d);
    assert t.queues == s.queues[d := Charged(q, p)];
    TotalUpdate(s.queues, d, Charged(q, p), PENDING);
    TotalUpdate(s.queues, d, Charged(q, p), OUTSTANDING);
    if d !in s.queues {
      Unknown(s, d);
      NoFlight(s.workers, d);
    }
    ChargedAccount(c, q, InFlight(s.workers, d), p);
  }

  lemma OnePayload(p: Publication)
    ensures PayloadBytes([p]) == |p.payload| && PayloadBytes([]) == 0
  {
    assert [p][..0] == [];
  }

  lemma EnqueueFifo(c: Config, s: State, p: Publication)
    requires Inv(c, s) && Admission(c, s, p) == Accepted
    ensures Fifo(Enqueue(c, s, p))
  {
    hide Of, InFlight, Tokens, Books, Admission;
    var t, d := Enqueue(c, s, p), p.deviceID;
    forall e
      ensures Of(t.accepted, e) == Of(t.completed, e) + InFlight(t.workers, e) + QueueOf(t, e).pending
    {
      OfAppend(s.accepted, p, e);
      assert Of(s.accepted, e) == Of(s.completed, e) + InFlight(s.workers, e) + QueueOf(s, e).pending;
    }
  }

  /** There are never more ready tokens than queued publications. */
  lemma TokensFit(c: Config, s: State)
    requires Tokens(s) && Books(c, s)
    ensures |s.ready| <= s.queued <= c.queueSize
  {
    hide Total, InFlight, PayloadBytes;
    forall i | 0 <= i < |s.ready|
      ensures HasNext(s, s.ready[i])
    {
      assert s.ready[i] in s.ready;
    }
    TotalCovers(s.queues, s.ready, PENDING);
  }

  /** Accepting or refusing an event keeps everything, and a token that is sent finds room. */
  lemma EnqueueKeeps(c: Config, s: State, p: Publication)
    requires Inv(c, s)
    ensures Inv(c, Enqueue(c, s, p))
    ensures |Enqueue(c, s, p).ready| <= c.queueSize
  {
    hide Tokens, Books, Fifo, Admission;
    if Admission(c, s, p) == Accepted {
      EnqueueTokens(c, s, p);
      EnqueueBooks(c, s, p);
      EnqueueFifo(c, s, p);
    }
    TokensFit(c, Enqueue(c, s, p));
  }

  // ---------------------------------------------------------------- the workers' transitions

  lemma TakeKeeps(c: Config, s: State, w: nat)
    requires Inv(c, s) && w < |s.workers| && s.workers[w].Idle? && s.ready != []
    ensures Inv(c, Take(s, w))
  {
    hide Of, Total, PayloadBytes, InFlight, OneWorker, Held;
    var t, d := Take(s, w), s.ready[0];
    assert d in s.ready;
    OneWorkerUpdate(s.workers, w, Holding(d));
    forall e
      ensures InFlight(t.workers, e) == InFlight(s.workers, e)
      ensures Held(t.workers, e) <==> e == d || Held(s.workers, e)
    {
      FlightFrame(s.workers, w, Holding(d), e);
      HeldUpdate(s.workers, w, Holding(d), e);
    }
    forall e | e in t.ready
      ensures e in s.ready && e != d
    {
    }
    forall e | e in s.ready
      ensures e == d || e in t.ready
    {
    }
    forall e
      ensures QueueOf(t, e) == QueueOf(s, e)
    {
    }
  }

  lemma StopKeeps(c: Config, s: State, w: nat)
    requires Inv(c, s) && w < |s.workers| && s.workers[w].Idle?
    ensures Inv(c, Stop(s, w))
  {
    hide Of, Total, PayloadBytes, InFlight, OneWorker, Held;
    var t := Stop(s, w);
    OneWorkerUpdate(s.workers, w, Stopped);
    forall e
      ensures InFlight(t.workers, e) == InFlight(s.workers, e)
      ensures Held(t.workers, e) <==> Held(s.workers, e)
    {
      FlightFrame(s.workers, w, Stopped, e);
      HeldUpdate(s.workers, w, Stopped, e);
    }
    forall e
      ensures QueueOf(t, e) == QueueOf(s, e)
    {
    }
  }

  /** Under the invariant a token always finds a publication: the empty answer is unreachable, and the
      counter that is decremented is positive. */
  lemma TokenFindsWork(c: Config, s: State, w: nat)
    requires Inv(c, s) && w < |s.workers| && s.workers[w].Holding?
    ensures HasNext(s, s.workers[w].device)
    ensures s.queued >= 1
  {
    hide Of, Total, PayloadBytes, InFlight, OneWorker, Held;
    var d := s.workers[w].device;
    TotalCovers(s.queues, [d], PENDING);
  }

  lemma NextTokens(c: Config, s: State, w: nat)
    requires Inv(c, s) && w < |s.workers| && s.workers[w].Holding?
    ensures Tokens(Next(s, w))
  {
    hide Of, Fifo, Total, PayloadBytes, InFlight, OneWorker, Held;
    TokenFindsWork(c, s, w);
    var t, d := Next(s, w), s.workers[w].device;
    var p := s.queues[d].pending[0];
    assert Account(c, s.queues[d], InFlight(s.workers, d), d);
    assert p.deviceID == d;
    HolderHolds(s.workers, w, d);
    OneWorkerUpdate(s.workers, w, Publishing(p));
    forall e
      ensures Held(t.workers, e) <==> Held(s.workers, e)
    {
      HeldUpdate(s.workers, w, Publishing(p), e);
    }
    forall i | 0 <= i < |t.workers| && t.workers[i].Holding?
      ensures HasNext(t, t.workers[i].device)
    {
      OthersElsewhere(s.workers, w, i, d);
    }
  }

  lemma HolderHolds(ws: seq<Worker>, i: nat, d: DeviceID)
    requires i < |ws| && Has(ws[i], d)
    ensures Held(ws, d)
  {
  }

  lemma OthersElsewhere(ws: seq<Worker>, i: nat, j: nat, d: DeviceID)
    requires OneWorker(ws) && i < |ws| && j < |ws| && Has(ws[i], d)
    ensures j != i ==> !Has(ws[j], d)
  {
  }

  /** Handing out moves one publication of one device from pending to flight. */
  lemma NextFlights(c: Config, s: State, w: nat)
    requires Inv(c, s) && w < |s.workers| && s.workers[w].Holding?
    ensures HasNext(s, s.workers[w].device) && s.queued >= 1
    ensures var t, d := Next(s, w), s.workers[w].device;
      && InFlight(s.workers, d) == []
      && InFlight(t.workers, d) == [s.queues[d].pending[0]]
      && forall e | e != d :: InFlight(t.workers, e) == InFlight(s.workers, e) && QueueOf(t, e) == QueueOf(s, e)
  {
    hide Of, Total, InFlight, OneWorker, Held, Placed, Distinct;
    TokenFindsWork(c, s, w);
    var t, d := Next(s, w), s.workers[w].device;
    var p := s.queues[d].pending[0];
    assert Account(c, s.queues[d], InFlight(s.workers, d), d);
    HoldingNoFlight(s.workers, w);
    HolderHolds(s.workers, w, d);
    OneWorkerUpdate(s.workers, w, Publishing(p));
    FlightOf(t.workers, w);
    forall e | e != d
      ensures InFlight(t.workers, e) == InFlight(s.workers, e)
    {
      FlightFrame(s.workers, w, Publishing(p), e);
    }
  }

  lemma NextBooks(c: Config, s: State, w: nat)
    requires Inv(c, s) && w < |s.workers| && s.workers[w].Holding?
    ensures Books(c, Next(s, w))
  {
    hide Of, Total, InFlight, Tokens, Fifo;
    NextFlights(c, s, w);
    var t, d := Next(s, w), s.workers[w].device;
    var q := s.queues[d];
    var p, rest := q.pending[0], q.pending[1..];
    assert Account(c, q, InFlight(s.workers, d), d);
    assert q.pending == [p] + rest;
    BytesAppend([p], rest);
    OnePayload(p);
    TotalUpdate(s.queues, d, q.(pending := rest), PENDING);
    TotalUpdate(s.queues, d, q.(pending := rest), OUTSTANDING);
  }

  lemma NextFifo(c: Config, s: State, w: nat)
    requires Inv(c, s) && w < |s.workers| && s.workers[w].Holding?
    ensures Fifo(Next(s, w))
  {
    hide Of, Total, InFlight, Tokens, Books;
    NextFlights(c, s, w);
    var t, d := Next(s, w), s.workers[w].device;
    forall e
      ensures Of(t.accepted, e) == Of(t.completed, e) + InFlight(t.workers, e) + QueueOf(t, e).pending
    {
      assert Of(s.accepted, e) == Of(s.completed, e) + InFlight(s.workers, e) + QueueOf(s, e).pending;
    }
  }

  lemma NextKeeps(c: Config, s: State, w: nat)
    requires Inv(c, s) && w < |s.workers| && s.workers[w].Holding?
    ensures Inv(c, Next(s, w))
  {
    hide Tokens, Books, Fifo;
    NextTokens(c, s, w);
    NextBooks(c, s, w);
    NextFifo(c, s, w);
  }

  // ---------------------------------------------------------------- completing an attempt

  function Settled(q: Queue, p: Publication): Queue {
    q.(outstandingCount := q.outstandingCount - 1, outstandingBytes := q.outstandingBytes - |p.payload|)
  }

  /** What a completion finds: the device is known, it is the only flight, and the books cover it. */
  lemma CompleteFinds(c: Config, s: State, w: nat)
    requires Inv(c, s) && w < |s.workers| && s.workers[w].Publishing?
    ensures var p := s.workers[w].pub;
      && p.deviceID in s.queues && p.deviceID !in s.ready
      && InFlight(s.workers, p.deviceID) == [p]
      && s.bytes >= s.queues[p.deviceID].outstandingBytes >= |p.payload|
      && s.queues[p.deviceID].outstandingCount >= 1
  {
    hide Of, Fifo, Distinct, Total;
    var p := s.workers[w].pub;
    var d := p.deviceID;
    HolderHolds(s.workers, w, d);
    FlightOf(s.workers, w);
    OnePayload(p);
    TotalUpdate(s.queues, d, NO_QUEUE, OUTSTANDING);
    forall e | e in s.queues
      ensures OUTSTANDING(s.queues[e]) >= 0
    {
      assert Account(c, s.queues[e], InFlight(s.workers, e), e);
    }
    TotalCovers(s.queues - {d}, [], OUTSTANDING);
  }

  lemma CompleteTokens(c: Config, s: State, w: nat)
    requires Inv(c, s) && w < |s.workers| && s.workers[w].Publishing?
    ensures Tokens(Complete(s, w))
  {
    hide Of, Fifo, Total, PayloadBytes, InFlight, OneWorker, Held, Books;
    CompleteFinds(c, s, w);
    var t, d := Complete(s, w), s.workers[w].pub.deviceID;
    HolderHolds(s.workers, w, d);
    OneWorkerUpdate(s.workers, w, Idle);
    forall e
      ensures Held(t.workers, e) <==> Held(s.workers, e) && e != d
    {
      HeldUpdate(s.workers, w, Idle, e);
      OnlyDevice(s.workers[w], d, e);
    }
    forall i | 0 <= i < |t.workers| && i != w
      ensures !Has(t.workers[i], d) && t.workers[i] == s.workers[i]
    {
      OthersElsewhere(s.workers, w, i, d);
    }
  }

  lemma OnlyDevice(w: Worker, d: DeviceID, e: DeviceID)
    requires Has(w, d)
    ensures Has(w, e) <==> e == d
  {
  }

  /** Completing ends one device's flight and touches no other device. */
  lemma CompleteFlights(c: Config, s: State, w: nat)
    requires Inv(c, s) && w < |s.workers| && s.workers[w].Publishing?
    ensures var t, d := Complete(s, w), s.workers[w].pub.deviceID;
      && InFlight(t.workers, d) == []
      && forall e | e != d :: InFlight(t.workers, e) == InFlight(s.workers, e) && QueueOf(t, e) == QueueOf(s, e)
  {
    hide Of, Total, InFlight, OneWorker, Held, Placed, Distinct, Books;
    CompleteFinds(c, s, w);
    var t, d := Complete(s, w), s.workers[w].pub.deviceID;
    OneWorkerUpdate(s.workers, w, Idle);
    HeldUpdate(s.workers, w, Idle, d);
    NoFlight(t.workers, d);
    forall e | e != d
      ensures InFlight(t.workers, e) == InFlight(s.workers, e)
    {
      FlightFrame(s.workers, w, Idle, e);
    }
  }

  lemma CompleteBooks(c: Config, s: State, w: nat)
    requires Inv(c, s) && w < |s.workers| && s.workers[w].Publishing?
    ensures Books(c, Complete(s, w))
  {
    hide Of, Total, InFlight, Tokens, Fifo;
    CompleteFinds(c, s, w);
    CompleteFlights(c, s, w);
    var p := s.workers[w].pub;
    var d := p.deviceID;
    var q := s.queues[d];
    assert Account(c, q, InFlight(s.workers, d), d);
    OnePayload(p);
    TotalUpdate(s.queues, d, Settled(q, p), PENDING);
    TotalUpdate(s.queues, d, Settled(q, p), OUTSTANDING);
  }

  lemma CompleteFifo(c: Config, s: State, w: nat)
    requires Inv(c, s) && w < |s.workers| && s.workers[w].Publishing?
    ensures Fifo(Complete(s, w))
  {
    hide Of, Total, InFlight, Tokens, Books;
    CompleteFinds(c, s, w);
    CompleteFlights(c, s, w);
    var t, p := Complete(s, w), s.workers[w].pub;
    forall e
      ensures Of(t.accepted, e) == Of(t.completed, e) + InFlight(t.workers, e) + QueueOf(t, e).pending
    {
      assert Of(s.accepted, e) == Of(s.completed, e) + InFlight(s.workers, e) + QueueOf(s, e).pending;
      OfAppend(s.completed, p, e);
    }
  }

  /** Completing keeps everything, and a token that is sent back finds room. */
  lemma CompleteKeeps(c: Config, s: State, w: nat)
    requires Inv(c, s) && w < |s.workers| && s.workers[w].Publishing?
    ensures Inv(c, Complete(s, w))
    ensures |Complete(s, w).ready| <= c.queueSize
  {
    hide Tokens, Books, Fifo;
    CompleteTokens(c, s, w);
    CompleteBooks(c, s, w);
    CompleteFifo(c, s, w);
    TokensFit(c, Complete(s, w));
  }
}
