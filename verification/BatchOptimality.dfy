/** The greedy plan is the best plan: it meets the limits, and no other split of the sorted list into
    contiguous runs meeting the same limits has fewer runs. */
module BatchOptimality {
  import opened Bytes
  import opened Collections
  import opened ModbusCodec
  import opened BatchPlanner

  /** Address after the last one a point is read from, without wrap-around: the coils it is configured with, at
      least one, or the registers its value takes. */
  function Limit(p: Point): nat {
    p.address +
    if p.functionCode == 1 || p.functionCode == 2 then (if p.quantity > 1 then p.quantity else 1)
    else RequiredBytes(p) / 2
  }

  /** One past the last address any point of the run occupies. */
  function Extent(run: seq<Point>): nat
    requires run != []
  {
    if |run| == 1 then Limit(run[0])
    else
      var front := Extent(run[..|run| - 1]);
      if Limit(run[|run| - 1]) > front then Limit(run[|run| - 1]) else front
  }

  /** What a batch may be, said without reference to the builder: a single point, whatever its size; or several
      coils in a common window of at most 32; or several register points in a common window of at most 24
      registers, with never more than two of them unused before the next point. */
  ghost predicate Feasible(fc: int, run: seq<Point>) {
    && run != []
    && (|run| > 1 ==>
      if fc == 1 || fc == 2 then Extent(run) - run[0].address <= 32
      else
        && Extent(run) - run[0].address <= 24
        && forall i | 1 <= i < |run| :: run[i].address <= Extent(run[..i]) + 2)
  }

  /** The points lie in the 16-bit address space and no two of them span all of it, so that the
      16-bit conversions of the planner are exact. */
  ghost predicate NoWrap(list: seq<Point>) {
    && (forall p | p in list :: Limit(p) <= 0x1_0000)
    && (forall p, q | p in list && q in list :: Limit(q) - p.address < 0x1_0000)
  }

  ghost predicate Plannable(fc: int, list: seq<Point>) {
    && Sorted(list) && NoWrap(list)
    && (forall p | p in list :: p.functionCode == fc)
  }

  /** A split of a list into feasible contiguous runs. */
  ghost predicate Splits(fc: int, runs: seq<seq<Point>>, list: seq<Point>)
    decreases |runs|
  {
    if runs == [] then list == []
    else
      && Feasible(fc, runs[0])
      && |runs[0]| <= |list| && list[..|runs[0]|] == runs[0]
      && Splits(fc, runs[1..], list[|runs[0]|..])
  }

  // ---------------------------------------------------------------- extents

  lemma {:induction false} ExtentBounds(run: seq<Point>)
    requires run != []
    ensures forall p | p in run :: Limit(p) <= Extent(run)
    ensures exists p | p in run :: Limit(p) == Extent(run)
  {
    if |run| == 1 {
      assert run[0] in run;
    } else {
      var front, last := run[..|run| - 1], run[|run| - 1];
      ExtentBounds(front);
      assert run == front + [last];
      var p :| p in front && Limit(p) == Extent(front);
      assert p in run && last in run;
    }
  }

  lemma {:induction false} ExtentSplits(run: seq<Point>, k: nat)
    requires 0 < k < |run|
    ensures Extent(run) == if Extent(run[k..]) > Extent(run[..k]) then Extent(run[k..]) else Extent(run[..k])
  {
    hide RequiredBytes;
    var n := |run| - 1;
    if k == n {
      assert run[k..] == [run[n]];
    } else {
      ExtentSplits(run[..n], k);
      assert run[..n][..k] == run[..k] && run[..n][k..] == run[k..][..n - k];
    }
  }

  /** Without wrap-around the builder's end is the true one. */
  lemma {:induction false} MaxEndIsExtent(run: seq<Point>)
    requires run != [] && NoWrap(run)
    ensures MaxEnd(run) == Extent(run) - 1 && run[0].address < Extent(run) <= 0x1_0000
  {
    var last := run[|run| - 1];
    assert last in run && Limit(last) <= 0x1_0000;
    EndIsLimit(last);
    Occupies(last);
    hide Limit, EndOf;
    if |run| > 1 {
      var front := run[..|run| - 1];
      assert forall p | p in front :: p in run;
      MaxEndIsExtent(front);
    }
  }

  lemma NoWrapPart(list: seq<Point>, i: nat, j: nat)
    requires NoWrap(list) && i <= j <= |list|
    ensures NoWrap(list[i..j])
  {
    assert forall p | p in list[i..j] :: p in list;
  }

  lemma PlannablePart(fc: int, list: seq<Point>, i: nat, j: nat)
    requires Plannable(fc, list) && i <= j <= |list|
    ensures Plannable(fc, list[i..j])
  {
    NoWrapPart(list, i, j);
    assert forall p | p in list[i..j] :: p in list;
  }

  // ---------------------------------------------------------------- the builder's test is feasibility

  /** Feasibility of the part of a list between two indices. */
  ghost predicate FeasibleRange(fc: int, list: seq<Point>, a: nat, b: nat)
    requires a < b <= |list|
  {
    b - a > 1 ==>
      && Extent(list[a..b]) - list[a].address <= MaxQuantity(fc)
      && (GapLimit(fc) > 0 ==> forall i | a < i < b :: list[i].address <= Extent(list[a..i]) + GapLimit(fc))
  }

  lemma RangeIff(fc: int, list: seq<Point>, a: nat, b: nat)
    requires a < b <= |list|
    ensures FeasibleRange(fc, list, a, b) <==> Feasible(fc, list[a..b])
  {
    hide Extent;
    var run := list[a..b];
    assert forall i | 1 <= i < |run| :: run[..i] == list[a..a + i] && run[i] == list[a + i];
    if Feasible(fc, run) && GapLimit(fc) > 0 {
      forall i | a < i < b
        ensures list[i].address <= Extent(list[a..i]) + GapLimit(fc)
      {
        assert run[i - a].address <= Extent(run[..i - a]) + GapLimit(fc);
      }
    }
  }

  lemma EndIsLimit(p: Point)
    requires Limit(p) <= 0x1_0000
    ensures EndOf(p) == Limit(p) - 1
  {
  }

  /** Under no wrap-around the builder's test is the true one. */
  lemma JoinsMeans(fc: int, list: seq<Point>, k: nat)
    requires Plannable(fc, list) && 1 <= k < |list|
    ensures Joins(fc, list[0].address, MaxEnd(list[..k]), list[k]) <==>
      && Extent(list[0..k + 1]) - list[0].address <= MaxQuantity(fc)
      && (GapLimit(fc) > 0 ==> list[k].address <= Extent(list[0..k]) + GapLimit(fc))
  {
    hide Count, EndOf, Extent, MaxEnd, Limit, Joins, Width16, Max, Gap;
    var p := list[k];
    NoWrapPart(list, 0, k);
    NoWrapPart(list, 0, k + 1);
    assert list[0..k] == list[..k];
    MaxEndIsExtent(list[0..k]);
    ExtentSplits(list[0..k + 1], k);
    assert list[0..k + 1][..k] == list[0..k] && list[0..k + 1][k..] == [p];
    OnePoint(p);
    assert p in list && list[0] in list;
    EndIsLimit(p);
    Occupies(p);
    ExtentBounds(list[0..k + 1]);
    var q :| q in list[0..k + 1] && Limit(q) == Extent(list[0..k + 1]);
    assert q in list;
    JoinsArithmetic(fc, list[0].address, MaxEnd(list[0..k]), p, Extent(list[0..k]), Extent(list[0..k + 1]));
  }

  lemma JoinsArithmetic(fc: int, start: Uint64, end: Uint64, p: Point, before: nat, after: nat)
    requires p.functionCode == fc && start <= p.address
    requires end == before - 1 && EndOf(p) == Limit(p) - 1 && p.address < Limit(p)
    requires after == (if Limit(p) > before then Limit(p) else before)
    requires start < before <= 0x1_0000 && Limit(p) <= 0x1_0000 && after - start < 0x1_0000
    ensures Joins(fc, start, end, p) <==>
      && after - start <= MaxQuantity(fc)
      && (GapLimit(fc) > 0 ==> p.address <= before + GapLimit(fc))
  {
    hide EndOf, Limit, Gap, Width16, Max;
    TrueGap(end, before, p.address);
    TrueWidth(start, end, before, EndOf(p), Limit(p));
  }

  lemma TrueGap(end: Uint64, before: nat, address: Uint64)
    requires end + 1 == before <= 0x1_0000
    ensures Gap(end, address) == if address > before then address - before else 0
  {
  }

  lemma TrueWidth(start: Uint64, end: Uint64, before: nat, last: Uint64, limit: nat)
    requires end + 1 == before && last + 1 == limit && start < before
    requires before - start < 0x1_0000 && limit - start < 0x1_0000
    ensures Width16(start, Max(end, last)) == (if limit > before then limit else before) - start
  {
  }

  lemma Occupies(p: Point)
    ensures p.address < Limit(p)
  {
  }

  lemma OnePoint(p: Point)
    ensures Extent([p]) == Limit(p)
  {
  }

  lemma FeasiblePrefix(fc: int, list: seq<Point>, a: nat, k: nat, b: nat)
    requires a < k <= b <= |list| && FeasibleRange(fc, list, a, b)
    ensures FeasibleRange(fc, list, a, k)
  {
    hide Extent;
    if k < b {
      ExtentSplits(list[a..b], k - a);
      assert list[a..b][..k - a] == list[a..k];
    }
  }

  /** The first run is feasible and is the longest feasible prefix. */
  lemma {:induction false} ReachLongest(fc: int, list: seq<Point>, k: nat)
    requires Plannable(fc, list) && 1 <= k <= |list| && FeasibleRange(fc, list, 0, k)
    ensures FeasibleRange(fc, list, 0, Reach(fc, list, k))
    ensures Reach(fc, list, k) < |list| ==> !FeasibleRange(fc, list, 0, Reach(fc, list, k) + 1)
    decreases |list| - k
  {
    hide Joins, MaxEnd, Extent, MaxQuantity, GapLimit, Plannable;
    if k < |list| {
      JoinsMeans(fc, list, k);
      if Joins(fc, list[0].address, MaxEnd(list[..k]), list[k]) {
        ReachLongest(fc, list, k + 1);
      }
    }
  }

  lemma FirstRun(fc: int, list: seq<Point>) returns (n: nat)
    requires Plannable(fc, list) && list != []
    ensures n == Reach(fc, list, 1) && 1 <= n <= |list|
    ensures FeasibleRange(fc, list, 0, n)
    ensures n < |list| ==> !FeasibleRange(fc, list, 0, n + 1)
    ensures Plan(fc, list) == [list[..n]] + Plan(fc, list[n..])
  {
    hide Reach, Extent;
    n := Reach(fc, list, 1);
    ReachLongest(fc, list, 1);
  }

  /** The plan is itself a split into feasible runs. */
  lemma {:induction false} PlanSplits(fc: int, list: seq<Point>)
    requires Plannable(fc, list)
    ensures Splits(fc, Plan(fc, list), list)
    decreases |list|
  {
    hide Plan, Plannable, Feasible, FeasibleRange;
    if list == [] {
      PlanNone(fc);
    } else {
      var n := FirstRun(fc, list);
      RangeIff(fc, list, 0, n);
      assert list[0..n] == list[..n];
      PlannablePart(fc, list, n, |list|);
      assert list[n..|list|] == list[n..];
      PlanSplits(fc, list[n..]);
      assert ([list[..n]] + Plan(fc, list[n..]))[1..] == Plan(fc, list[n..]);
    }
  }

  // ---------------------------------------------------------------- the exchange argument

  lemma ExtentOfParts(list: seq<Point>, a: nat, n: nat, b: nat)
    requires a < n < b <= |list|
    ensures Extent(list[a..b]) ==
      if Extent(list[n..b]) > Extent(list[a..n]) then Extent(list[n..b]) else Extent(list[a..n])
    ensures Extent(list[n..b]) >= Limit(list[n])
  {
    hide Extent, Limit;
    ExtentSplits(list[a..b], n - a);
    assert list[a..b][..n - a] == list[a..n] && list[a..b][n - a..] == list[n..b];
    ExtentBounds(list[n..b]);
    assert list[n] == list[n..b][0];
  }

  /** The point that ended the greedy run either left a gap or reaches beyond everything before it. */
  lemma WhyEnded(fc: int, list: seq<Point>, n: nat)
    requires 1 <= n < |list| && FeasibleRange(fc, list, 0, n) && !FeasibleRange(fc, list, 0, n + 1)
    requires n > 1
    ensures
      || (GapLimit(fc) > 0 && list[n].address > Extent(list[0..n]) + GapLimit(fc))
      || Limit(list[n]) > Extent(list[0..n])
  {
    hide Extent, Limit;
    ExtentOfParts(list, 0, n, n + 1);
    assert list[n..n + 1] == [list[n]];
    OnePoint(list[n]);
  }

  /** Cutting at the greedy boundary the run of another split that straddles it leaves a feasible run:
      a long point before the boundary may bridge a gap, but never one behind the point that ended
      the greedy run. */
  lemma Exchange(fc: int, list: seq<Point>, n: nat, a: nat, b: nat)
    requires Sorted(list) && 1 <= n && a < n < b <= |list|
    requires FeasibleRange(fc, list, 0, n) && !FeasibleRange(fc, list, 0, n + 1)
    requires FeasibleRange(fc, list, a, b)
    ensures FeasibleRange(fc, list, n, b)
  {
    hide Extent, Limit, MaxQuantity, GapLimit;
    if n == 1 {
      FeasiblePrefix(fc, list, 0, 2, b);
      assert false;
    }
    WhyEnded(fc, list, n);
    if a > 0 {
      ExtentOfParts(list, 0, a, n);
    }
    assert Extent(list[a..n]) <= Extent(list[0..n]);
    ExtentOfParts(list, a, n, b);
    forall i | n < i < b
      ensures GapLimit(fc) > 0 ==> list[i].address <= Extent(list[n..i]) + GapLimit(fc)
    {
      ExtentOfParts(list, a, n, i);
    }
  }

  /** A split of what follows position a is, from position n on, a split with no more runs. */
  lemma {:induction false} DropTo(fc: int, list: seq<Point>, n: nat, a: nat, runs: seq<seq<Point>>)
    returns (rest: seq<seq<Point>>)
    requires Plannable(fc, list) && 1 <= n <= |list| && a <= n
    requires FeasibleRange(fc, list, 0, n) && (n < |list| ==> !FeasibleRange(fc, list, 0, n + 1))
    requires Splits(fc, runs, list[a..])
    ensures Splits(fc, rest, list[n..]) && |rest| <= |runs|
    decreases |runs|
  {
    hide Feasible, FeasibleRange, NoWrap;
    if a == n {
      return runs;
    }
    var b := a + |runs[0]|;
    assert list[a..][|runs[0]|..] == list[b..] && list[a..][..|runs[0]|] == list[a..b];
    if b <= n {
      rest := DropTo(fc, list, n, b, runs[1..]);
    } else {
      RangeIff(fc, list, a, b);
      Exchange(fc, list, n, a, b);
      RangeIff(fc, list, n, b);
      rest := [list[n..b]] + runs[1..];
      assert rest[1..] == runs[1..];
      assert list[n..][..b - n] == list[n..b] && list[n..][b - n..] == list[b..];
    }
  }

  /** No split into feasible contiguous runs has fewer runs than the greedy plan. */
  lemma {:induction false} GreedyOptimal(fc: int, list: seq<Point>, runs: seq<seq<Point>>)
    requires Plannable(fc, list) && Splits(fc, runs, list)
    ensures |Plan(fc, list)| <= |runs|
    decreases |list|
  {
    hide Plan, Plannable, Feasible, FeasibleRange;
    if list == [] {
      PlanNone(fc);
    } else {
      var n := FirstRun(fc, list);
      var m := |runs[0]|;
      if m > n {
        RangeIff(fc, list, 0, m);
        assert list[0..m] == list[..m];
        FeasiblePrefix(fc, list, 0, n + 1, m);
        assert false;
      }
      var rest := DropTo(fc, list, n, m, runs[1..]);
      PlannablePart(fc, list, n, |list|);
      assert list[n..|list|] == list[n..];
      GreedyOptimal(fc, list[n..], rest);
    }
  }

  // ---------------------------------------------------------------- windows

  function Flatten(runs: seq<seq<Point>>): seq<Point> {
    if runs == [] then [] else runs[0] + Flatten(runs[1..])
  }

  /** The plan keeps every point, once, in order. */
  lemma {:induction false} PlanKeepsPoints(fc: int, list: seq<Point>)
    ensures Flatten(Plan(fc, list)) == list
    decreases |list|
  {
    hide Reach;
    if list != [] {
      var n := Reach(fc, list, 1);
      PlanKeepsPoints(fc, list[n..]);
      assert Plan(fc, list)[1..] == Plan(fc, list[n..]);
      assert list == list[..n] + list[n..];
    }
  }

  /** The request a run is read with names its first address and its full width. */
  ghost predicate TrueWindow(q: Query, run: seq<Point>)
    requires run != []
  {
    q.startAddr == run[0].address && q.quantity == Extent(run) - run[0].address
  }

  /** The 16-bit request is the true window exactly when start and width fit 16 bits. */
  lemma WindowTrueIff(fc: int, run: seq<Point>)
    requires run != [] && forall p | p in run :: Limit(p) <= 0x1_0000_0000_0000_0000
    ensures TrueWindow(QueryOf(fc, run), run) <==> run[0].address < 0x1_0000 && Extent(run) - run[0].address < 0x1_0000
  {
    WideMaxEnd(run);
  }

  lemma WideEnd(p: Point)
    requires Limit(p) <= 0x1_0000_0000_0000_0000
    ensures EndOf(p) == Limit(p) - 1
  {
  }

  lemma {:induction false} WideMaxEnd(run: seq<Point>)
    requires run != [] && forall p | p in run :: Limit(p) <= 0x1_0000_0000_0000_0000
    ensures MaxEnd(run) == Extent(run) - 1 && run[0].address < Extent(run)
  {
    var last := run[|run| - 1];
    assert last in run;
    WideEnd(last);
    Occupies(last);
    hide Limit, EndOf;
    if |run| > 1 {
      assert forall p | p in run[..|run| - 1] :: p in run;
      WideMaxEnd(run[..|run| - 1]);
    }
  }

  /** It does fail: two coils at the two ends of the address space are merged into a request for none. */
  lemma TwoEndsMerge(a: Point, b: Point)
    requires a == Point("a", "bool", true, 1, 0, 1, 0, false, "") && b == a.(address := 0xFFFF)
    ensures Plan(1, [a, b]) == [[a, b]] && QueryOf(1, [a, b]).quantity == 0
  {
    assert EndOf(a) == 0 && EndOf(b) == 0xFFFF;
    assert [a, b][..1] == [a] && [a, b][..2] == [a, b] && [a, b][2..] == [];
    assert MaxEnd([a]) == 0 && MaxEnd([a, b]) == 0xFFFF;
    assert Joins(1, 0, 0, b);
    assert Reach(1, [a, b], 2) == 2;
  }

  /** Every run of the plan is read through its true window, which covers each of its points; a run
      over the quantity limit is a single point; gaps between registers stay within the limit. */
  lemma {:induction false} PlanWindows(fc: int, list: seq<Point>)
    requires Plannable(fc, list)
    ensures forall run: seq<Point> | run in Plan(fc, list) ::
      && Plannable(fc, run) && Feasible(fc, run) && TrueWindow(QueryOf(fc, run), run)
      && forall p | p in run :: run[0].address <= p.address && Limit(p) <= Extent(run)
    decreases |list|
  {
    hide Plan, Plannable, Feasible, FeasibleRange, Extent, QueryOf, Limit;
    if list == [] {
      PlanNone(fc);
    } else {
      var n := FirstRun(fc, list);
      RangeIff(fc, list, 0, n);
      assert list[0..n] == list[..n] && list[n..|list|] == list[n..];
      PlannablePart(fc, list, 0, n);
      PlannablePart(fc, list, n, |list|);
      RunWindow(fc, list[..n]);
      PlanWindows(fc, list[n..]);
    }
  }

  lemma RunWindow(fc: int, run: seq<Point>)
    requires Plannable(fc, run) && run != []
    ensures TrueWindow(QueryOf(fc, run), run)
    ensures forall p | p in run :: run[0].address <= p.address && Limit(p) <= Extent(run)
  {
    hide Extent, Limit, QueryOf, MaxEnd;
    ExtentBounds(run);
    MaxEndIsExtent(run);
    var q :| q in run && Limit(q) == Extent(run);
    assert run[0] in run;
    WindowTrueIff(fc, run);
  }

  // ---------------------------------------------------------------- every point once

  /** The points of all queries. */
  function Params(queries: seq<Query>): seq<Point> {
    if queries == [] then [] else Params(queries[..|queries| - 1]) + queries[|queries| - 1].params
  }

  lemma {:induction false} ParamsAppend(a: seq<Query>, b: seq<Query>)
    ensures Params(a + b) == Params(a) + Params(b)
  {
    if b == [] {
      assert a + b == a;
    } else {
      assert (a + b)[..|a + b| - 1] == a + b[..|b| - 1];
      ParamsAppend(a, b[..|b| - 1]);
    }
  }

  lemma {:induction false} ParamsOfRuns(fc: int, runs: seq<seq<Point>>)
    requires Runs(runs)
    ensures Params(Queries(fc, runs)) == Flatten(runs)
  {
    hide QueryOf, Queries;
    if runs == [] {
      QueriesNone(fc);
    } else {
      var last := |runs| - 1;
      assert runs == runs[..last] + [runs[last]];
      QueriesAppend(fc, runs[..last], runs[last]);
      ParamsOfRuns(fc, runs[..last]);
      QueryKeeps(fc, runs[last]);
      ParamsAppend(Queries(fc, runs[..last]), [QueryOf(fc, runs[last])]);
      OneQuery(QueryOf(fc, runs[last]));
      FlattenLast(runs[..last], runs[last]);
    }
  }

  lemma OneQuery(q: Query)
    ensures Params([q]) == q.params
  {
    assert [q][..0] == [];
  }

  lemma {:induction false} FlattenLast(runs: seq<seq<Point>>, run: seq<Point>)
    ensures Flatten(runs + [run]) == Flatten(runs) + run
  {
    if runs == [] {
      assert [run][1..] == [];
    } else {
      FlattenLast(runs[1..], run);
      assert (runs + [run])[1..] == runs[1..] + [run];
    }
  }

  lemma QueryKeeps(fc: int, run: seq<Point>)
    requires run != []
    ensures QueryOf(fc, run).params == run
  {
  }

  lemma OneMorePoint(points: seq<Point>, q: Point, p: Point)
    ensures multiset(points + [q])[p] == multiset(points)[p] + if q == p then 1 else 0
  {
  }

  lemma OneMoreEnabled(front: seq<Point>, q: Point, fc: int)
    ensures Enabled(front + [q], fc) ==
      if !q.readDisabled && q.functionCode == fc then Enabled(front, fc) + [q] else Enabled(front, fc)
  {
    assert (front + [q])[..|front|] == front;
    assert Enabled(front, fc) + [] == Enabled(front, fc);
  }

  lemma {:induction false} EnabledCount(params: seq<Point>, fc: int, p: Point)
    ensures multiset(Enabled(params, fc))[p] ==
      if !p.readDisabled && p.functionCode == fc then multiset(params)[p] else 0
  {
    if params != [] {
      hide Enabled;
      var front, q := params[..|params| - 1], params[|params| - 1];
      assert params == front + [q];
      EnabledCount(front, fc, p);
      OneMorePoint(front, q, p);
      OneMoreEnabled(front, q, fc);
      OneMorePoint(Enabled(front, fc), q, p);
    }
  }

  lemma {:induction false} AssembledCount(params: seq<Point>, order: seq<int>, lists: map<int, seq<Point>>, p: Point)
    requires Distinct(order) && SortedGroups(params, order, lists)
    ensures multiset(Params(Assemble(order, lists)))[p] ==
      if p.functionCode in order && !p.readDisabled then multiset(params)[p] else 0
  {
    hide Plan, Queries, Enabled, Sorted;
    if order != [] {
      var last := |order| - 1;
      var fc := order[last];
      AssembledCount(params, order[..last], lists, p);
      LastQueries(order, lists);
      assert multiset(lists[fc]) == multiset(Enabled(params, fc));
      EnabledCount(params, fc, p);
      assert order == order[..last] + [fc];
    }
  }

  /** The queries of the last function code ask for the points of its list. */
  lemma LastQueries(order: seq<int>, lists: map<int, seq<Point>>)
    requires order != [] && forall fc | fc in order :: fc in lists
    ensures var last := |order| - 1;
      Params(Assemble(order, lists)) == Params(Assemble(order[..last], lists)) + lists[order[last]]
  {
    hide Plan, Queries, Params;
    var last := |order| - 1;
    var fc := order[last];
    ParamsAppend(Assemble(order[..last], lists), Queries(fc, Plan(fc, lists[fc])));
    ParamsOfRuns(fc, Plan(fc, lists[fc]));
    PlanKeepsPoints(fc, lists[fc]);
  }

  /** Whatever order the function codes are visited in, every enabled point of a readable function code is
      in the queries exactly as often as it is configured, and no other point is. */
  lemma EveryPointOnce(params: seq<Point>, order: seq<int>, lists: map<int, seq<Point>>, p: Point)
    requires Distinct(order) && SortedGroups(params, order, lists)
    requires forall fc :: fc in order <==> IsReadFunctionCode(fc) && Enabled(params, fc) != []
    ensures multiset(Params(Assemble(order, lists)))[p] == if Reads(p) then multiset(params)[p] else 0
  {
    hide Assemble, Params, Enabled, SortedGroups;
    AssembledCount(params, order, lists, p);
    EnabledCount(params, p.functionCode, p);
  }
}
