/** Failure counters and episodes, one cell per reason, with a lossy wake channel and one log writer. */
module FailureLog {
  const REASONS: seq<string> := [
    "SOURCE_QUEUE_FULL", "SOURCE_QUEUE_BYTES_FULL", "SOURCE_DEVICE_QUEUE_FULL", "SOURCE_DEVICE_QUEUE_BYTES_FULL",
    "SOURCE_EVENT_INVALID", "SOURCE_PUBLISHER_UNAVAILABLE", "SOURCE_NO_SUBSCRIBERS", "REDIS_TIMEOUT",
    "REDIS_MEMORY_EXHAUSTED", "REDIS_READONLY", "REDIS_PERSISTENCE_ERROR", "REDIS_POOL_EXHAUSTED",
    "REDIS_AUTH_FAILED", "REDIS_KEY_TYPE_INVALID", "REDIS_UNAVAILABLE", "REDIS_WRITE_FAILED",
    "SOURCE_FAILURE_UNKNOWN"]

  const N: nat := 17

  /** A second in nanoseconds, the resolution of the clock. */
  const SECOND := 1_000_000_000

  /** Between two reports of one episode. */
  const INTERVAL := 30_000_000_000

  datatype Kind = FirstFailure | FailureSummary | Recovered

  /** reason is a position in REASONS; at is the time of the flush that decided the line. */
  datatype Summary = Summary(reason: nat, kind: Kind, count: nat, total: nat, at: int)

  datatype Counter = Counter(total: nat, recoveredTotal: nat, reported: bool, lastReport: int)

  datatype Op = Failure | Success

  /** One reason. ops and log are histories: what happened to it, and what was decided to be written. */
  datatype Cell = Cell(count: nat, state: Counter, ops: seq<Op>, log: seq<Summary>)

  datatype Wake = NoChannel | Channel(full: bool)

  datatype Log = Log(cells: seq<Cell>, wake: Wake)

  const EMPTY := Cell(0, Counter(0, 0, false, 0), [], [])

  // ---------------------------------------------------------------- one reason

  function Failed(c: Cell): Cell {
    c.(count := c.count + 1, state := c.state.(total := c.state.total + 1), ops := c.ops + [Failure])
  }

  /** Whether a success has something to confirm. */
  predicate Confirms(c: Cell) {
    c.state.total > c.state.recoveredTotal
  }

  function Confirmed(c: Cell): Cell {
    c.(state := if Confirms(c) then c.state.(recoveredTotal := c.state.total) else c.state, ops := c.ops + [Success])
  }

  predicate Opens(c: Cell) {
    !c.state.reported && c.count > 0
  }

  function Opened(i: nat, c: Cell, now: int): Cell {
    if Opens(c) then
      Cell(0, c.state.(reported := true, lastReport := now), c.ops,
        c.log + [Summary(i, FirstFailure, c.count, c.state.total, now)])
    else c
  }

  predicate Recovers(c: Cell) {
    c.state.reported && c.state.recoveredTotal == c.state.total
  }

  predicate Summarises(c: Cell, now: int) {
    c.state.reported && c.state.recoveredTotal != c.state.total && now - c.state.lastReport >= INTERVAL && c.count > 0
  }

  function Closed(i: nat, c: Cell, now: int): Cell {
    if Recovers(c) then
      Cell(0, c.state.(reported := false), c.ops, c.log + [Summary(i, Recovered, c.count, c.state.total, now)])
    else if Summarises(c, now) then
      Cell(0, c.state.(lastReport := now), c.ops, c.log + [Summary(i, FailureSummary, c.count, c.state.total, now)])
    else c
  }

  function Flushed(i: nat, c: Cell, now: int): Cell {
    Closed(i, Opened(i, c, now), now)
  }

  /** What this flush writes about the reason. */
  function NewLines(i: nat, c: Cell, now: int): (lines: seq<Summary>)
    ensures |lines| <= 2
    ensures Flushed(i, c, now).log == c.log + lines
  {
    var o := Opened(i, c, now);
    (if Opens(c) then [Summary(i, FirstFailure, c.count, c.state.total, now)] else []) +
    (if Recovers(o) then [Summary(i, Recovered, o.count, o.state.total, now)]
     else if Summarises(o, now) then [Summary(i, FailureSummary, o.count, o.state.total, now)]
     else [])
  }

  // ---------------------------------------------------------------- what one reason keeps

  function Failures(ops: seq<Op>): nat {
    if ops == [] then 0 else Failures(ops[..|ops| - 1]) + if ops[|ops| - 1].Failure? then 1 else 0
  }

  /** The history up to and including the last success. */
  function UpToSuccess(ops: seq<Op>): seq<Op> {
    if ops == [] || ops[|ops| - 1].Success? then ops else UpToSuccess(ops[..|ops| - 1])
  }

  function Sum(log: seq<Summary>): nat {
    if log == [] then 0 else Sum(log[..|log| - 1]) + log[|log| - 1].count
  }

  /** A first failure begins each episode and only a recovery ends one. */
  ghost predicate Episodes(log: seq<Summary>) {
    forall k | 0 <= k < |log| :: log[k].kind.FirstFailure? <==> k == 0 || log[k - 1].kind.Recovered?
  }

  /** Within an episode a summary comes at least 30 seconds after the report before it. */
  ghost predicate Spaced(log: seq<Summary>) {
    forall k | 0 < k < |log| && log[k].kind.FailureSummary? :: log[k].at - log[k - 1].at >= 30 * SECOND
  }

  /** Each line carries the running total, and failure lines report at least one failure. */
  ghost predicate Counted(i: nat, log: seq<Summary>) {
    forall k | 0 <= k < |log| ::
      log[k].reason == i && log[k].total == Sum(log[..k + 1]) && (log[k].kind.Recovered? || log[k].count > 0)
  }

  ghost predicate Open(log: seq<Summary>) {
    log != [] && !log[|log| - 1].kind.Recovered?
  }

  ghost predicate CellInv(i: nat, c: Cell) {
    && c.state.total == Failures(c.ops)
    && c.state.recoveredTotal == Failures(UpToSuccess(c.ops)) <= c.state.total
    && Sum(c.log) + c.count == c.state.total
    && (c.state.reported <==> Open(c.log))
    && (c.state.reported ==> c.state.lastReport == c.log[|c.log| - 1].at && c.state.total > 0)
    && Episodes(c.log) && Spaced(c.log) && Counted(i, c.log)
  }

  lemma FailedKeeps(i: nat, c: Cell)
    requires CellInv(i, c)
    ensures CellInv(i, Failed(c))
  {
    var ops := c.ops + [Failure];
    assert ops[..|ops| - 1] == c.ops;
  }

  lemma ConfirmedKeeps(i: nat, c: Cell)
    requires CellInv(i, c)
    ensures CellInv(i, Confirmed(c))
  {
    var ops := c.ops + [Success];
    assert ops[..|ops| - 1] == c.ops;
  }

  lemma LogLine(i: nat, log: seq<Summary>, line: Summary)
    requires Episodes(log) && Spaced(log) && Counted(i, log)
    requires line.kind.FirstFailure? <==> !Open(log)
    requires line.kind.FailureSummary? ==> line.at - log[|log| - 1].at >= INTERVAL
    requires line.reason == i && line.total == Sum(log) + line.count && (line.kind.Recovered? || line.count > 0)
    ensures Episodes(log + [line]) && Spaced(log + [line]) && Counted(i, log + [line])
    ensures Sum(log + [line]) == Sum(log) + line.count
  {
    hide Sum, Counted;
    SumLine(log, line);
    CountedLine(i, log, line);
  }

  lemma CountedLine(i: nat, log: seq<Summary>, line: Summary)
    requires Counted(i, log)
    requires line.reason == i && line.total == Sum(log) + line.count && (line.kind.Recovered? || line.count > 0)
    ensures Counted(i, log + [line])
  {
    hide Sum;
    SumLine(log, line);
    var more := log + [line];
    forall k | 0 <= k < |more|
      ensures more[k].total == Sum(more[..k + 1])
    {
      if k < |log| {
        assert more[..k + 1] == log[..k + 1];
      } else {
        assert more[..k + 1] == more;
      }
    }
  }

  lemma SumLine(log: seq<Summary>, line: Summary)
    ensures Sum(log + [line]) == Sum(log) + line.count
  {
    assert (log + [line])[..|log|] == log;
  }

  lemma FlushedKeeps(i: nat, c: Cell, now: int)
    requires CellInv(i, c)
    ensures CellInv(i, Flushed(i, c, now))
  {
    hide Failures, UpToSuccess, Sum, Episodes, Spaced, Counted;
    if Opens(c) {
      LogLine(i, c.log, Summary(i, FirstFailure, c.count, c.state.total, now));
    }
    var o := Opened(i, c, now);
    if Recovers(o) {
      LogLine(i, o.log, Summary(i, Recovered, o.count, o.state.total, now));
    } else if Summarises(o, now) {
      LogLine(i, o.log, Summary(i, FailureSummary, o.count, o.state.total, now));
    }
  }

  /** The last failure, if any, is followed by a success. */
  ghost predicate QuietSinceSuccess(ops: seq<Op>) {
    exists k | 0 <= k < |ops| :: ops[k].Success? && forall j | k < j < |ops| :: ops[j].Success?
  }

  lemma {:induction false} QuietMeans(ops: seq<Op>)
    ensures Failures(UpToSuccess(ops)) <= Failures(ops)
    ensures Failures(ops) > 0 ==> (QuietSinceSuccess(ops) <==> Failures(UpToSuccess(ops)) == Failures(ops))
  {
    if ops != [] && ops[|ops| - 1].Success? {
      assert ops[|ops| - 1].Success?;
    } else if ops != [] {
      QuietMeans(ops[..|ops| - 1]);
    }
  }

  /** Exactly when a flush writes each kind of line, in terms of what happened to the reason and what was
      written about it before. */
  lemma WhatFlushWrites(i: nat, c: Cell, now: int)
    requires CellInv(i, c)
    ensures var lines := NewLines(i, c, now);
      var unreported := Failures(c.ops) > Sum(c.log);
      var active := Open(c.log) || unreported;
      && ((exists l | l in lines :: l.kind.FirstFailure?) <==> !Open(c.log) && unreported)
      && ((exists l | l in lines :: l.kind.Recovered?) <==> active && QuietSinceSuccess(c.ops))
      && ((exists l | l in lines :: l.kind.FailureSummary?) <==>
          Open(c.log) && unreported && !QuietSinceSuccess(c.ops) && now - c.log[|c.log| - 1].at >= 30 * SECOND)
  {
    hide Failures, UpToSuccess, Sum, Episodes, Spaced, Counted, QuietSinceSuccess;
    QuietMeans(c.ops);
    var lines := NewLines(i, c, now);
    assert forall l | l in lines :: l == lines[0] || l == lines[|lines| - 1];
    assert lines != [] ==> lines[0] in lines && lines[|lines| - 1] in lines;
  }

  // ---------------------------------------------------------------- the whole log

  /** The first reason with this name from position i on, or N. */
  function Find(code: string, i: nat): (r: nat)
    requires i <= N
    ensures i <= r <= N
    ensures r < N ==> REASONS[r] == code
    ensures forall k | i <= k < r :: REASONS[k] != code
    decreases N - i
  {
    if i == N || REASONS[i] == code then i else Find(code, i + 1)
  }

  /** An unknown code counts as the last reason. */
  function IndexOf(code: string): (r: nat)
    ensures r < N
  {
    var i := Find(code, 0);
    if i < N then i else N - 1
  }

  function Record(l: Log, code: string): Log
    requires |l.cells| == N
  {
    var i := IndexOf(code);
    Log(l.cells[i := Failed(l.cells[i])], if l.cells[i].state.reported then l.wake else Channel(true))
  }

  function SuccessOf(l: Log, code: string): Log
    requires |l.cells| == N
  {
    var i := Find(code, 0);
    if i == N then l
    else Log(l.cells[i := Confirmed(l.cells[i])], if Confirms(l.cells[i]) then Channel(true) else l.wake)
  }

  function Succeed(l: Log, codes: seq<string>): (r: Log)
    requires |l.cells| == N
    ensures |r.cells| == N
  {
    if codes == [] then l else SuccessOf(Succeed(l, codes[..|codes| - 1]), codes[|codes| - 1])
  }

  /** The cells after a flush of the first n reasons, and the lines it decided. */
  function FlushedCells(cells: seq<Cell>, n: nat, now: int): (r: seq<Cell>)
    requires n <= |cells| == N
    ensures |r| == N
  {
    seq(N, i requires 0 <= i < N => if i < n then Flushed(i, cells[i], now) else cells[i])
  }

  function Lines(cells: seq<Cell>, n: nat, now: int): (lines: seq<Summary>)
    requires n <= |cells| == N
    ensures |lines| <= 2 * n
  {
    if n == 0 then [] else Lines(cells, n - 1, now) + NewLines(n - 1, cells[n - 1], now)
  }

  function Flush(l: Log, now: int): Log
    requires |l.cells| == N
  {
    l.(cells := FlushedCells(l.cells, N, now))
  }

  // ---------------------------------------------------------------- the log writer and its environment

  datatype Runner = Starting | Waiting | FlushDue | Writing(rest: seq<Summary>) | Exited

  /** decided and written are histories of lines. */
  datatype System = System(log: Log, runner: Runner, hasLogger: bool, decided: seq<Summary>, written: seq<Summary>)

  datatype Action =
    | RecordFailure(code: string)
    | ReportSuccess(codes: seq<string>)
    | Start
    | ReceiveWake
    | Tick
    | FlushAt(now: int)
    | WriteLine
    | FinishWriting
    | Cancel

  predicate Enabled(s: System, a: Action) {
    match a
    case RecordFailure(_) => true
    case ReportSuccess(_) => true
    case Start => s.runner.Starting?
    case ReceiveWake => s.runner.Waiting? && s.log.wake == Channel(true)
    case Tick => s.runner.Waiting?
    case FlushAt(_) => s.runner.FlushDue?
    case WriteLine => s.runner.Writing? && s.runner.rest != []
    case FinishWriting => s.runner == Writing([])
    case Cancel => s.runner.Waiting? || s.runner.FlushDue?
  }

  function Do(s: System, a: Action): System
    requires Enabled(s, a) && |s.log.cells| == N
  {
    match a
    case RecordFailure(code) => s.(log := Record(s.log, code))
    case ReportSuccess(codes) => s.(log := Succeed(s.log, codes))
    case Start => s.(runner := Waiting, log := s.log.(wake := Channel(true)))
    case ReceiveWake => s.(runner := FlushDue, log := s.log.(wake := Channel(false)))
    case Tick => s.(runner := FlushDue)
    case FlushAt(now) =>
      if !s.hasLogger then s.(runner := Waiting)
      else
        var lines := Lines(s.log.cells, N, now);
        s.(log := Flush(s.log, now), runner := Writing(lines), decided := s.decided + lines)
    case WriteLine => s.(runner := Writing(s.runner.rest[1..]), written := s.written + [s.runner.rest[0]])
    case FinishWriting => s.(runner := Waiting)
    case Cancel => s.(runner := Exited)
  }

  function Begin(hasLogger: bool): System {
    System(Log(seq(N, i => EMPTY), NoChannel), Starting, hasLogger, [], [])
  }

  lemma BeginInv(hasLogger: bool)
    ensures Inv(Begin(hasLogger))
  {
    hide Inv;
    UntouchedInv(Begin(hasLogger));
  }

  lemma UntouchedInv(s: System)
    requires |s.log.cells| == N && s.decided == s.written == [] && s.runner.Starting?
    requires forall i | 0 <= i < N :: s.log.cells[i] == EMPTY
    ensures Inv(s)
  {
    hide CellInv, Only;
    forall i | 0 <= i < N
      ensures CellInv(i, s.log.cells[i]) && Only([], i) == []
    {
      NothingYet(i);
    }
  }

  lemma NothingYet(i: nat)
    ensures CellInv(i, EMPTY) && Only([], i) == []
  {
  }

  /** The lines about one reason. */
  function Only(lines: seq<Summary>, i: nat): seq<Summary> {
    if lines == [] then []
    else Only(lines[..|lines| - 1], i) + if lines[|lines| - 1].reason == i then [lines[|lines| - 1]] else []
  }

  /** A first failure or a recovery is waiting to be written. */
  ghost predicate Due(l: Log) {
    exists i | 0 <= i < |l.cells| :: Opens(l.cells[i]) || Recovers(l.cells[i])
  }

  ghost predicate NoLostWake(s: System) {
    Due(s.log) && !s.runner.Exited? ==> s.log.wake == Channel(true) || s.runner.FlushDue?
  }

  ghost predicate CellsInv(cells: seq<Cell>) {
    |cells| == N && forall i | 0 <= i < N :: CellInv(i, cells[i])
  }

  ghost predicate Inv(s: System) {
    && CellsInv(s.log.cells)
    && s.decided == s.written + (if s.runner.Writing? then s.runner.rest else [])
    && (forall i | 0 <= i < N :: Only(s.decided, i) == s.log.cells[i].log)
    && (s.hasLogger ==> NoLostWake(s))
  }

  lemma {:induction false} OnlyAppend(a: seq<Summary>, b: seq<Summary>, i: nat)
    ensures Only(a + b, i) == Only(a, i) + Only(b, i)
  {
    if b == [] {
      assert a + b == a;
    } else {
      assert (a + b)[..|a + b| - 1] == a + b[..|b| - 1];
      OnlyAppend(a, b[..|b| - 1], i);
    }
  }

  lemma {:induction false} OnlyOwn(lines: seq<Summary>, i: nat, j: nat)
    requires forall l | l in lines :: l.reason == j
    ensures Only(lines, i) == if i == j then lines else []
  {
    if lines != [] {
      OnlyOwn(lines[..|lines| - 1], i, j);
      assert lines == lines[..|lines| - 1] + [lines[|lines| - 1]];
    }
  }

  /** Every reason's lines are exactly those its own cell decided. */
  lemma {:induction false} LinesOf(cells: seq<Cell>, n: nat, now: int, i: nat)
    requires n <= |cells| == N && i < N
    ensures Only(Lines(cells, n, now), i) == if i < n then NewLines(i, cells[i], now) else []
  {
    hide Only, NewLines, Lines, Flushed;
    LinesStep(cells, n, now);
    if n > 0 {
      LinesOf(cells, n - 1, now, i);
      var own := NewLines(n - 1, cells[n - 1], now);
      OnlyAppend(Lines(cells, n - 1, now), own, i);
      LinesReason(n - 1, cells[n - 1], now);
      OnlyOwn(own, i, n - 1);
    } else {
      OnlyOwn([], i, 0);
    }
  }

  lemma LinesStep(cells: seq<Cell>, n: nat, now: int)
    requires n <= |cells| == N
    ensures Lines(cells, n, now) == if n == 0 then [] else Lines(cells, n - 1, now) + NewLines(n - 1, cells[n - 1], now)
  {
  }

  lemma LinesReason(i: nat, c: Cell, now: int)
    ensures forall l | l in NewLines(i, c, now) :: l.reason == i
  {
  }

  lemma RecordKeeps(l: Log, code: string)
    requires CellsInv(l.cells)
    ensures CellsInv(Record(l, code).cells)
    ensures forall i | 0 <= i < N :: Record(l, code).cells[i].log == l.cells[i].log
    ensures Due(Record(l, code)) ==> Due(l) || Record(l, code).wake == Channel(true)
    ensures l.wake == Channel(true) ==> Record(l, code).wake == Channel(true)
  {
    hide CellInv, Find, IndexOf;
    var i := IndexOf(code);
    FailedKeeps(i, l.cells[i]);
    NeverAhead(i, l.cells[i]);
    if l.cells[i].state.reported {
      StillOwed(l, i, Failed(l.cells[i]));
    }
  }

  lemma NeverAhead(i: nat, c: Cell)
    requires CellInv(i, c)
    ensures c.state.recoveredTotal <= c.state.total
  {
  }

  /** A change that makes one cell no more due than it was makes the log no more due. */
  lemma StillOwed(l: Log, i: nat, c: Cell)
    requires i < |l.cells| && (Opens(c) || Recovers(c) ==> Opens(l.cells[i]) || Recovers(l.cells[i]))
    ensures Due(l.(cells := l.cells[i := c])) ==> Due(l)
  {
    var m := l.(cells := l.cells[i := c]);
    if j :| 0 <= j < |m.cells| && (Opens(m.cells[j]) || Recovers(m.cells[j])) {
      assert Opens(l.cells[j]) || Recovers(l.cells[j]);
    }
  }

  lemma {:induction false} SucceedKeeps(l: Log, codes: seq<string>)
    requires CellsInv(l.cells)
    ensures CellsInv(Succeed(l, codes).cells)
    ensures forall i | 0 <= i < N :: Succeed(l, codes).cells[i].log == l.cells[i].log
    ensures Due(Succeed(l, codes)) ==> Due(l) || Succeed(l, codes).wake == Channel(true)
    ensures l.wake == Channel(true) ==> Succeed(l, codes).wake == Channel(true)
  {
    hide CellInv, Find;
    if codes != [] {
      var m := Succeed(l, codes[..|codes| - 1]);
      SucceedKeeps(l, codes[..|codes| - 1]);
      var i := Find(codes[|codes| - 1], 0);
      if i < N {
        ConfirmedKeeps(i, m.cells[i]);
        if !Confirms(m.cells[i]) {
          StillOwed(m, i, Confirmed(m.cells[i]));
        }
      }
    }
  }

  lemma FlushKeeps(l: Log, now: int)
    requires CellsInv(l.cells)
    ensures CellsInv(Flush(l, now).cells)
    ensures !Due(Flush(l, now))
    ensures forall i | 0 <= i < N :: Flush(l, now).cells[i].log == l.cells[i].log + Only(Lines(l.cells, N, now), i)
  {
    hide CellInv, Lines, Only, NewLines;
    forall i | 0 <= i < N
      ensures CellInv(i, Flush(l, now).cells[i])
      ensures !Opens(Flush(l, now).cells[i]) && !Recovers(Flush(l, now).cells[i])
      ensures Flush(l, now).cells[i].log == l.cells[i].log + Only(Lines(l.cells, N, now), i)
    {
      FlushedKeeps(i, l.cells[i], now);
      LinesOf(l.cells, N, now, i);
    }
  }

  lemma StepKeeps(s: System, a: Action)
    requires Inv(s) && Enabled(s, a)
    ensures Inv(Do(s, a))
  {
    hide CellInv, Record, Succeed, Flush, Lines, Only, Due;
    match a
    case RecordFailure(code) => RecordKeeps(s.log, code);
    case ReportSuccess(codes) => SucceedKeeps(s.log, codes);
    case FlushAt(now) =>
      FlushKeeps(s.log, now);
      forall i | 0 <= i < N
        ensures Only(s.decided + Lines(s.log.cells, N, now), i) ==
          Only(s.decided, i) + Only(Lines(s.log.cells, N, now), i)
      {
        OnlyAppend(s.decided, Lines(s.log.cells, N, now), i);
      }
    case Start => SameCellsSameDue(s.log, Channel(true));
    case ReceiveWake => SameCellsSameDue(s.log, Channel(false));
    case _ =>
  }

  lemma SameCellsSameDue(l: Log, wake: Wake)
    ensures Due(l.(wake := wake)) <==> Due(l)
  {
    assert l.(wake := wake).cells == l.cells;
  }

  ghost predicate Possible(s: System, run: seq<Action>)
    decreases |run|, 0
  {
    run == [] ||
    (Possible(s, run[..|run| - 1])
     && |After(s, run[..|run| - 1]).log.cells| == N && Enabled(After(s, run[..|run| - 1]), run[|run| - 1]))
  }

  ghost function After(s: System, run: seq<Action>): System
    requires Possible(s, run)
    decreases |run|, 1
  {
    if run == [] then s else Do(After(s, run[..|run| - 1]), run[|run| - 1])
  }

  lemma {:induction false} RunKeeps(s: System, run: seq<Action>)
    requires Inv(s) && Possible(s, run)
    ensures Inv(After(s, run))
    decreases |run|
  {
    hide Inv, Do, Enabled;
    if run != [] {
      RunKeeps(s, run[..|run| - 1]);
      StepKeeps(After(s, run[..|run| - 1]), run[|run| - 1]);
    }
  }

  ghost predicate Reachable(hasLogger: bool, s: System) {
    exists run | Possible(Begin(hasLogger), run) :: After(Begin(hasLogger), run) == s
  }

  lemma ReachableInv(hasLogger: bool, s: System)
    requires Reachable(hasLogger, s)
    ensures Inv(s) && s.hasLogger == hasLogger
  {
    hide Inv, Possible, After;
    var run :| Possible(Begin(hasLogger), run) && After(Begin(hasLogger), run) == s;
    BeginInv(hasLogger);
    RunKeeps(Begin(hasLogger), run);
    LoggerStays(Begin(hasLogger), run);
  }

  /** Nothing the log reports is lost or repeated: at any moment, for each reason, the failures written,
      about to be written and still counted add up to those that happened; and the lines written are a prefix
      of well-formed episodes, spaced by the interval. */
  lemma NothingLostOrRepeated(hasLogger: bool, s: System, i: nat)
    requires Reachable(hasLogger, s) && i < N
    ensures var c := s.log.cells[i];
      && s.written <= s.decided
      && Sum(Only(s.decided, i)) + c.count == Failures(c.ops)
      && Episodes(Only(s.decided, i)) && Spaced(Only(s.decided, i)) && Counted(i, Only(s.decided, i))
  {
    hide Failures, Sum, Only, Episodes, Spaced, Counted, Reachable;
    ReachableInv(hasLogger, s);
    assert CellInv(i, s.log.cells[i]);
  }

  /** Any enabled action can come next. */
  lemma Extend(s: System, run: seq<Action>, a: Action)
    requires Inv(s) && Possible(s, run) && Enabled(After(s, run), a)
    ensures Possible(s, run + [a]) && After(s, run + [a]) == Do(After(s, run), a)
  {
    hide CellInv, Do, Enabled;
    RunKeeps(s, run);
    assert (run + [a])[..|run|] == run;
  }

  /** A pending first failure or recovery has a wake token or a flush coming, in every reachable state until the
      writer exits, if and only if there is a logger: without one a flush returns early and the wake-up is spent. */
  lemma WakeSafeIff(hasLogger: bool)
    ensures hasLogger <==> forall s | Reachable(hasLogger, s) :: NoLostWake(s)
  {
    hide CellInv, Possible, After, Find, NoLostWake;
    if hasLogger {
      hide Reachable;
      forall s | Reachable(hasLogger, s)
        ensures NoLostWake(s)
      {
        ReachableInv(hasLogger, s);
      }
    } else {
      var s := Woken(hasLogger, REASONS[0]);
      hide Reachable;
      ReachableNext(hasLogger, s, FlushAt(0));
      Lost(Do(s, FlushAt(0)), IndexOf(REASONS[0]));
    }
  }

  lemma ReachableNext(hasLogger: bool, s: System, a: Action)
    requires Reachable(hasLogger, s) && Enabled(s, a)
    ensures Inv(s) && Reachable(hasLogger, Do(s, a))
  {
    hide Inv, Possible, After, Do, Enabled;
    ReachableInv(hasLogger, s);
    var run :| Possible(Begin(hasLogger), run) && After(Begin(hasLogger), run) == s;
    BeginInv(hasLogger);
    Extend(Begin(hasLogger), run, a);
  }

  /** A first failure has spent the only wake-up, and its flush is due. */
  lemma Woken(hasLogger: bool, code: string) returns (s: System)
    ensures Reachable(hasLogger, s) && Inv(s) && s.hasLogger == hasLogger
    ensures s.runner == FlushDue && s.log.wake == Channel(false) && Opens(s.log.cells[IndexOf(code)])
  {
    hide CellInv, Possible, After, Find, Inv;
    var b := Begin(hasLogger);
    BeginInv(hasLogger);
    EmptyRun(b);
    assert Reachable(hasLogger, b);
    hide Reachable;
    ReachableNext(hasLogger, b, Start);
    s := Do(b, Start);
    ReachableNext(hasLogger, s, RecordFailure(code));
    s := Do(s, RecordFailure(code));
    ReachableNext(hasLogger, s, ReceiveWake);
    s := Do(s, ReceiveWake);
    ReachableInv(hasLogger, s);
  }

  /** Once the writer has exited, a first failure can be left with neither, logger or not. */
  lemma ExitLosesWake(hasLogger: bool)
    ensures exists s :: Reachable(hasLogger, s) && s.runner.Exited? && Due(s.log) && s.log.wake == Channel(false)
  {
    hide Reachable, CellInv, Find;
    var s := Woken(hasLogger, REASONS[0]);
    ReachableNext(hasLogger, s, Cancel);
    var t := Do(s, Cancel);
    assert Opens(t.log.cells[IndexOf(REASONS[0])]);
    assert Reachable(hasLogger, t) && Due(t.log);
  }

  lemma EmptyRun(s: System)
    requires Inv(s)
    ensures Possible(s, []) && After(s, []) == s
  {
  }

  lemma Lost(s: System, i: nat)
    requires i < |s.log.cells| && Opens(s.log.cells[i]) && s.runner.Waiting? && s.log.wake == Channel(false)
    ensures !NoLostWake(s)
  {
  }

  lemma {:induction false} LoggerStays(s: System, run: seq<Action>)
    requires Inv(s) && Possible(s, run)
    ensures After(s, run).hasLogger == s.hasLogger
    decreases |run|
  {
    hide Inv;
    if run != [] {
      LoggerStays(s, run[..|run| - 1]);
    }
  }

  // ---------------------------------------------------------------- which reason an action is about

  /** A failure is about the reason of that name, and about the last one if no reason has it. */
  predicate About(code: string, i: nat)
    requires i < N
  {
    code == REASONS[i] || (i == N - 1 && code !in REASONS)
  }

  /** The successes that the codes of one report are for a reason. */
  function SuccessesFor(codes: seq<string>, i: nat): seq<Op>
    requires i < N
  {
    if codes == [] then []
    else SuccessesFor(codes[..|codes| - 1], i) + if codes[|codes| - 1] == REASONS[i] then [Success] else []
  }

  function DoneBy(a: Action, i: nat): seq<Op>
    requires i < N
  {
    match a
    case RecordFailure(code) => if About(code, i) then [Failure] else []
    case ReportSuccess(codes) => SuccessesFor(codes, i)
    case _ => []
  }

  /** What a run did to a reason, read off its actions. */
  function DoneTo(run: seq<Action>, i: nat): seq<Op>
    requires i < N
  {
    if run == [] then []
    else DoneTo(run[..|run| - 1], i) + DoneBy(run[|run| - 1], i)
  }

  lemma ReasonsDistinct()
    ensures |REASONS| == N
    ensures forall i, j | 0 <= i < j < N :: REASONS[i] != REASONS[j]
  {
  }

  lemma FindIs(code: string, i: nat)
    requires i < N
    ensures Find(code, 0) == i <==> code == REASONS[i]
    ensures Find(code, 0) == N <==> code !in REASONS
    ensures IndexOf(code) == i <==> About(code, i)
  {
    ReasonsDistinct();
    hide Find;
    var r := Find(code, 0);
    assert code in REASONS <==> exists k | 0 <= k < N :: REASONS[k] == code;
  }

  lemma RecordDoes(l: Log, code: string, i: nat)
    requires |l.cells| == N && i < N
    ensures Record(l, code).cells[i].ops == l.cells[i].ops + if About(code, i) then [Failure] else []
  {
    FindIs(code, i);
    hide About, IndexOf;
  }

  lemma {:induction false} SucceedDoes(l: Log, codes: seq<string>, i: nat)
    requires |l.cells| == N && i < N
    ensures Succeed(l, codes).cells[i].ops == l.cells[i].ops + SuccessesFor(codes, i)
  {
    if codes != [] {
      SucceedDoes(l, codes[..|codes| - 1], i);
      FindIs(codes[|codes| - 1], i);
      hide Find;
    }
  }

  lemma StepDoes(s: System, a: Action, i: nat)
    requires |s.log.cells| == N && i < N && Enabled(s, a)
    ensures |Do(s, a).log.cells| == N
    ensures Do(s, a).log.cells[i].ops == s.log.cells[i].ops + DoneBy(a, i)
  {
    hide Record, Succeed, About, SuccessesFor, Lines, Flushed;
    RecordSize(s, a);
    match a
    case RecordFailure(code) => RecordDoes(s.log, code, i);
    case ReportSuccess(codes) => SucceedDoes(s.log, codes, i);
    case FlushAt(now) => FlushedOps(i, s.log.cells[i], now);
    case _ =>
  }

  lemma RecordSize(s: System, a: Action)
    requires |s.log.cells| == N && Enabled(s, a)
    ensures |Do(s, a).log.cells| == N
  {
    hide Succeed, IndexOf, Lines;
  }

  lemma FlushedOps(i: nat, c: Cell, now: int)
    ensures Flushed(i, c, now).ops == c.ops
  {
  }

  /** In every run, each reason's history is what the run's actions did to it, in order: a failure for every record
      of its own name, a success for every time a report named it, and unknown names count for the last reason. */
  lemma {:induction false} HistoryIsDone(hasLogger: bool, run: seq<Action>, i: nat)
    requires Possible(Begin(hasLogger), run) && i < N
    ensures |After(Begin(hasLogger), run).log.cells| == N
    ensures After(Begin(hasLogger), run).log.cells[i].ops == DoneTo(run, i)
    decreases |run|
  {
    if run != [] {
      var last := |run| - 1;
      HistoryIsDone(hasLogger, run[..last], i);
      hide Do, About, SuccessesFor, Enabled;
      StepDoes(After(Begin(hasLogger), run[..last]), run[last], i);
    }
  }

  /** A failure wakes the writer if and only if no episode of its reason is open, and a success of one reason if and
      only if a failure of it has not been followed by a success; otherwise the wake-up is as it was. */
  lemma WakesForNewsIff(hasLogger: bool, s: System, code: string, i: nat)
    requires Reachable(hasLogger, s) && i < N && About(code, i)
    ensures |s.log.cells| == N
    ensures var ops := s.log.cells[i].ops;
      && Do(s, RecordFailure(code)).log.wake
        == (if Open(Only(s.decided, i)) then s.log.wake else Channel(true))
      && Do(s, ReportSuccess([REASONS[i]])).log.wake
        == (if Failures(ops) > 0 && !QuietSinceSuccess(ops) then Channel(true) else s.log.wake)
  {
    ReachableInv(hasLogger, s);
    assert CellInv(i, s.log.cells[i]) && Only(s.decided, i) == s.log.cells[i].log;
    hide Reachable, Inv, CellInv, About, Failures, Open, Only, QuietSinceSuccess, Confirms, Record, Succeed;
    Standing(i, s.log.cells[i]);
    WakeOfFailure(s.log, code, i);
    WakeOfSuccess(s.log, i);
  }

  lemma WakeOfFailure(l: Log, code: string, i: nat)
    requires |l.cells| == N && i < N && About(code, i)
    ensures Record(l, code).wake == if l.cells[i].state.reported then l.wake else Channel(true)
  {
    FindIs(code, i);
    hide About, IndexOf, Failed;
  }

  lemma WakeOfSuccess(l: Log, i: nat)
    requires |l.cells| == N && i < N
    ensures Succeed(l, [REASONS[i]]).wake == if Confirms(l.cells[i]) then Channel(true) else l.wake
  {
    FindIs(REASONS[i], i);
    OneReport(l, REASONS[i]);
    hide Find, Confirmed, Confirms, Succeed, IndexOf, About;
  }

  lemma Standing(i: nat, c: Cell)
    requires CellInv(i, c)
    ensures c.state.reported <==> Open(c.log)
    ensures Confirms(c) <==> Failures(c.ops) > 0 && !QuietSinceSuccess(c.ops)
  {
    QuietMeans(c.ops);
    hide Failures, UpToSuccess, Sum, Episodes, Spaced, Counted, QuietSinceSuccess;
  }

  lemma OneReport(l: Log, code: string)
    requires |l.cells| == N
    ensures Succeed(l, [code]) == SuccessOf(l, code)
  {
    hide SuccessOf;
    assert [code][..0] == [];
    assert Succeed(l, []) == l;
  }
}
