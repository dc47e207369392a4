/** The failure log object: fixed arrays of counters, mutated under one lock. */
module FailureLogger {
  import opened FailureLog

  class FailureLogger {
    const counts: array<nat>
    const states: array<Counter>
    var wake: Wake

    // The histories of each reason.
    ghost var ops: seq<seq<Op>>
    ghost var logs: seq<seq<Summary>>

    ghost predicate Valid()
      reads this
    {
      counts.Length == states.Length == |ops| == |logs| == N
    }

    ghost function Contents(): (l: Log)
      requires Valid()
      reads this, counts, states
      ensures |l.cells| == N
    {
      var happened, decided := ops, logs;
      Log(seq(N, i requires 0 <= i < N reads counts, states => Cell(counts[i], states[i], happened[i], decided[i])),
        wake)
    }

    lemma WakeOf()
      requires Valid()
      ensures Contents().wake == wake
    {
    }

    constructor ()
      ensures Valid() && fresh(counts) && fresh(states)
      ensures Contents() == Begin(true).log
    {
      counts := new nat[N](i => 0);
      states := new Counter[N](i => Counter(0, 0, false, 0));
      wake := NoChannel;
      ops, logs := seq(N, i => []), seq(N, i => []);
    }

    method SignalLocked()
      requires Valid()
      modifies this`wake
      ensures Valid() && wake == Channel(true)
    {
      if wake.NoChannel? {
        wake := Channel(false);
      }
      if !wake.full {
        wake := Channel(true);
      }
    }

    /** The first reason with this name, or N. */
    method Position(code: string) returns (index: nat)
      ensures index == Find(code, 0)
    {
      index := 0;
      while index < N && REASONS[index] != code
        invariant index <= N
        invariant Find(code, index) == Find(code, 0)
      {
        index := index + 1;
      }
    }

    method Record(reasonCode: string)
      requires Valid()
      modifies this, counts, states
      ensures Valid() && Contents() == FailureLog.Record(old(Contents()), reasonCode)
    {
      hide Find;
      var index := Position(reasonCode);
      if index == N {
        index := N - 1;
      }
      ghost var before := Contents();
      counts[index] := counts[index] + 1;
      states[index] := states[index].(total := states[index].total + 1);
      ops := ops[index := ops[index] + [Failure]];
      if !states[index].reported {
        SignalLocked();
      }
      assert Contents().cells == before.cells[index := Failed(before.cells[index])];
    }

    /** Confirm one reason, if it is known. */
    method SuccessOne(code: string)
      requires Valid()
      modifies this, states
      ensures Valid() && Contents() == SuccessOf(old(Contents()), code)
    {
      hide Find;
      var index := Position(code);
      if index < N {
        ghost var before := Contents();
        var state := states[index];
        if state.total > state.recoveredTotal {
          states[index] := state.(recoveredTotal := state.total);
          SignalLocked();
        }
        ops := ops[index := ops[index] + [Op.Success]];
        assert Contents().cells == before.cells[index := Confirmed(before.cells[index])];
      }
    }

    method Success(reasonCodes: seq<string>)
      requires Valid()
      modifies this, states
      ensures Valid() && Contents() == Succeed(old(Contents()), reasonCodes)
    {
      hide SuccessOf, Contents;
      for k := 0 to |reasonCodes|
        invariant Valid() && Contents() == Succeed(old(Contents()), reasonCodes[..k])
      {
        assert reasonCodes[..k + 1][..k] == reasonCodes[..k];
        SuccessOne(reasonCodes[k]);
      }
      assert reasonCodes[..|reasonCodes|] == reasonCodes;
    }

    /** One reason's part of a flush: a first failure and then a recovery or a summary. */
    method FlushReason(index: nat, now: int, summaries: array<Summary>, start: nat) returns (end: nat)
      requires Valid() && index < N && start + 2 <= summaries.Length
      requires summaries !in {counts as object, states as object}
      modifies this, counts, states, summaries
      ensures Valid() && wake == old(wake)
      ensures Contents().cells == old(Contents().cells)[index := Flushed(index, old(Contents().cells)[index], now)]
      ensures start <= end <= start + 2
      ensures summaries[..end] == old(summaries[..start]) + NewLines(index, old(Contents().cells)[index], now)
    {
      ghost var before := Contents().cells;
      ghost var lines := summaries[..start];
      end := start;
      if !states[index].reported && counts[index] > 0 {
        summaries[end] := Summary(index, FirstFailure, counts[index], states[index].total, now);
        logs := logs[index := logs[index] + [summaries[end]]];
        counts[index] := 0;
        end := end + 1;
        states[index] := states[index].(reported := true, lastReport := now);
      }
      if states[index].reported {
        if states[index].recoveredTotal == states[index].total {
          summaries[end] := Summary(index, Recovered, counts[index], states[index].total, now);
          logs := logs[index := logs[index] + [summaries[end]]];
          counts[index] := 0;
          end := end + 1;
          states[index] := states[index].(reported := false);
        } else if now - states[index].lastReport >= INTERVAL && counts[index] > 0 {
          summaries[end] := Summary(index, FailureSummary, counts[index], states[index].total, now);
          logs := logs[index := logs[index] + [summaries[end]]];
          counts[index] := 0;
          end := end + 1;
          states[index] := states[index].(lastReport := now);
        }
      }
      assert Contents().cells == before[index := Flushed(index, before[index], now)];
      assert summaries[..end] == lines + NewLines(index, before[index], now);
    }

    /** The lines to write, collected in an array that always has room for them. */
    method FlushAt(hasLogger: bool, now: int) returns (written: seq<Summary>)
      requires Valid()
      modifies this, counts, states
      ensures Valid()
      ensures hasLogger ==> Contents() == Flush(old(Contents()), now) && written == Lines(old(Contents().cells), N, now)
      ensures !hasLogger ==> Contents() == old(Contents()) && written == []
    {
      hide NewLines, Flushed, Contents;
      if !hasLogger {
        return [];
      }
      WakeOf();
      ghost var cells := Contents().cells;
      var summaries := new Summary[2 * N];
      var summaryCount: nat := 0;
      for index := 0 to N
        invariant Valid() && fresh(summaries) && wake == old(wake)
        invariant Contents().cells == FlushedCells(cells, index, now)
        invariant summaryCount <= 2 * index && summaries[..summaryCount] == Lines(cells, index, now)
      {
        summaryCount := FlushReason(index, now, summaries, summaryCount);
      }
      WakeOf();
      written := summaries[..summaryCount];
    }
  }
}
