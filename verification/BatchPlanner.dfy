/** The read planner: points of one function code, sorted by address, are grouped greedily into windows. */
module BatchPlanner {
  import opened Collections
  import opened Bytes
  import opened ModbusCodec

  const MAX_REGISTERS: nat := 24
  const MAX_REGISTER_GAP: nat := 2
  const MAX_DISCRETE: nat := 32
  const MAX_DISCRETE_GAP: nat := 0

  datatype Query = Query(functionCode: int, startAddr: Uint16, quantity: Uint16, params: seq<Point>)

  predicate IsDiscrete(fc: int) { fc == 1 || fc == 2 }

  predicate IsReadFunctionCode(fc: int) { fc == 1 || fc == 2 || fc == 3 || fc == 4 }

  function MaxQuantity(fc: int): nat { if IsDiscrete(fc) then MAX_DISCRETE else MAX_REGISTERS }

  function GapLimit(fc: int): nat { if IsDiscrete(fc) then MAX_DISCRETE_GAP else MAX_REGISTER_GAP }

  /** Number of addresses a point occupies. */
  function Count(p: Point): (n: nat)
    ensures n > 0
  {
    if IsDiscrete(p.functionCode) then (if p.quantity <= 0 then 1 else p.quantity)
    else if QuantityFor(p) == 0 then 1 else QuantityFor(p)
  }

  /** Last address of a point, in 64-bit arithmetic. */
  function EndOf(p: Point): Uint64 {
    (p.address + Count(p) - 1) % 0x1_0000_0000_0000_0000
  }

  function Max(a: Uint64, b: Uint64): Uint64 { if a > b then a else b }

  /** Width of a window in 16-bit arithmetic. */
  function Width16(start: Uint64, end: Uint64): Uint16 {
    (end - start + 1) % 0x1_0000
  }

  // ---------------------------------------------------------------- the builder

  /** Addresses left free between a window and a point, in 64-bit arithmetic. */
  function Gap(end: Uint64, address: Uint64): Uint64 {
    if address > (end + 1) % 0x1_0000_0000_0000_0000 then (address - end - 1) % 0x1_0000_0000_0000_0000 else 0
  }

  /** Whether a point may join a nonempty window. */
  predicate Joins(fc: int, start: Uint64, end: Uint64, p: Point) {
    && p.functionCode == fc
    && p.address >= start
    && !(GapLimit(fc) > 0 && Gap(end, p.address) > GapLimit(fc))
    && Width16(start, Max(end, EndOf(p))) <= MaxQuantity(fc)
  }

  function MaxEnd(run: seq<Point>): Uint64
    requires run != []
  {
    var last := EndOf(run[|run| - 1]);
    if |run| == 1 then last else Max(MaxEnd(run[..|run| - 1]), last)
  }

  function QueryOf(fc: int, run: seq<Point>): Query
    requires run != []
  {
    Query(fc, run[0].address % 0x1_0000, Width16(run[0].address, MaxEnd(run)), run)
  }

  class BatchBuilder {
    const functionCode: int
    const maxQuantity: nat
    const gapLimit: nat
    var params: seq<Point>
    var start: Uint64
    var end: Uint64

    ghost predicate Valid()
      reads this
    {
      && maxQuantity == MaxQuantity(functionCode) && gapLimit == GapLimit(functionCode)
      && (params != [] ==> start == params[0].address && end == MaxEnd(params))
    }

    constructor (fc: int)
      ensures Valid() && params == [] && functionCode == fc
    {
      functionCode := fc;
      if fc == 1 || fc == 2 {
        maxQuantity := MAX_DISCRETE;
        gapLimit := MAX_DISCRETE_GAP;
      } else {
        maxQuantity := MAX_REGISTERS;
        gapLimit := MAX_REGISTER_GAP;
      }
      params := [];
      start, end := 0, 0;
    }

    method CanAdd(p: Point) returns (ok: bool)
      requires Valid()
      ensures ok <==> (params == [] || Joins(functionCode, params[0].address, MaxEnd(params), p))
    {
      if |params| == 0 {
        return true;
      }
      if p.functionCode != functionCode {
        return false;
      }
      if p.address < start {
        return false;
      }
      var gap: Uint64 := 0;
      if p.address > (end + 1) % 0x1_0000_0000_0000_0000 {
        gap := (p.address - end - 1) % 0x1_0000_0000_0000_0000;
      }
      if gapLimit > 0 && gap > gapLimit {
        return false;
      }
      if Width16(start, Max(end, EndOf(p))) > maxQuantity {
        return false;
      }
      ok := true;
    }

    method Add(p: Point)
      requires Valid()
      modifies this`params, this`start, this`end
      ensures Valid() && params == old(params) + [p]
    {
      if |params| == 0 {
        start, end := p.address, EndOf(p);
      } else if EndOf(p) > end {
        end := EndOf(p);
      }
      params := params + [p];
      assert params[..|params| - 1] == old(params);
    }

    method Build() returns (q: Query)
      requires Valid() && params != []
      ensures q == QueryOf(functionCode, params)
    {
      q := Query(functionCode, start % 0x1_0000, Width16(start, end), params);
    }
  }

  // ---------------------------------------------------------------- the plan of one sorted list

  /** How far the first run reaches, given that it already holds the first k points. */
  function Reach(fc: int, list: seq<Point>, k: nat): (n: nat)
    requires 1 <= k <= |list|
    ensures k <= n <= |list|
    decreases |list| - k
  {
    if k < |list| && Joins(fc, list[0].address, MaxEnd(list[..k]), list[k]) then Reach(fc, list, k + 1) else k
  }

  predicate Runs(runs: seq<seq<Point>>) {
    forall i | 0 <= i < |runs| :: runs[i] != []
  }

  /** The greedy plan: the longest first run, then the plan of the rest. */
  function Plan(fc: int, list: seq<Point>): (runs: seq<seq<Point>>)
    ensures Runs(runs)
  {
    if list == [] then []
    else
      var n := Reach(fc, list, 1);
      [list[..n]] + Plan(fc, list[n..])
  }

  function Queries(fc: int, runs: seq<seq<Point>>): (qs: seq<Query>)
    requires Runs(runs)
    ensures |qs| == |runs|
    ensures forall i | 0 <= i < |qs| :: qs[i] == QueryOf(fc, runs[i])
  {
    if runs == [] then [] else [QueryOf(fc, runs[0])] + Queries(fc, runs[1..])
  }

  lemma QueriesAppend(fc: int, a: seq<seq<Point>>, run: seq<Point>)
    requires Runs(a) && run != []
    ensures Runs(a + [run]) && Queries(fc, a + [run]) == Queries(fc, a) + [QueryOf(fc, run)]
  {
    hide QueryOf;
    var l, r := Queries(fc, a + [run]), Queries(fc, a) + [QueryOf(fc, run)];
    assert forall i | 0 <= i < |l| :: l[i] == r[i];
  }

  /** Closing the current run of a partly planned list. */
  lemma CloseRun(fc: int, tail: seq<Point>, n: nat)
    requires 0 < n <= |tail| && Reach(fc, tail, 1) == n
    ensures Plan(fc, tail) == [tail[..n]] + Plan(fc, tail[n..])
  {
    hide Reach;
  }

  /** Closing the run in hand moves it from what is still to be planned to what is done. */
  lemma CloseNext(fc: int, list: seq<Point>, done: seq<seq<Point>>, from: nat, k: nat)
    requires from < k <= |list| && Plan(fc, list) == done + Plan(fc, list[from..])
    requires Reach(fc, list[from..], 1) == k - from
    ensures Plan(fc, list) == (done + [list[from..k]]) + Plan(fc, list[k..])
  {
    hide Reach, Plan;
    CloseRun(fc, list[from..], k - from);
    assert list[from..][..k - from] == list[from..k] && list[from..][k - from..] == list[k..];
    assert done + ([list[from..k]] + Plan(fc, list[k..])) == (done + [list[from..k]]) + Plan(fc, list[k..]);
  }

  /** The planning loop over one sorted list yields exactly its greedy plan. */
  method PlanList(fc: int, list: seq<Point>) returns (queries: seq<Query>)
    requires list != []
    ensures queries == Queries(fc, Plan(fc, list))
  {
    hide Joins, MaxEnd, EndOf, Count, Plan, QueryOf, Queries;
    queries := [];
    var builder := new BatchBuilder(fc);
    ghost var from := 0;
    ghost var done: seq<seq<Point>> := [];
    assert list[0..] == list;
    QueriesNone(fc);
    for k := 0 to |list|
      invariant fresh(builder) && builder.Valid() && builder.functionCode == fc
      invariant 0 <= from <= k && (k > 0 ==> from < k)
      invariant builder.params == list[from..k]
      invariant Runs(done) && queries == Queries(fc, done)
      invariant Plan(fc, list) == done + Plan(fc, list[from..])
      invariant k > 0 ==> Reach(fc, list[from..], 1) == Reach(fc, list[from..], k - from)
    {
      var p := list[k];
      var ok := builder.CanAdd(p);
      assert list[from..][..k - from] == list[from..k];
      if !ok {
        var q := builder.Build();
        CloseNext(fc, list, done, from, k);
        QueriesAppend(fc, done, list[from..k]);
        queries := queries + [q];
        done := done + [list[from..k]];
        from := k;
        builder := new BatchBuilder(fc);
      }
      builder.Add(p);
      assert list[from..k + 1] == list[from..k] + [p];
    }
    var q := builder.Build();
    CloseNext(fc, list, done, from, |list|);
    PlanNone(fc);
    assert list[|list|..] == [];
    QueriesAppend(fc, done, list[from..|list|]);
    queries := queries + [q];
  }

  lemma QueriesNone(fc: int)
    ensures Queries(fc, []) == []
  {
  }

  lemma PlanNone(fc: int)
    ensures Plan(fc, []) == []
  {
  }

  // ---------------------------------------------------------------- the whole configuration

  function Enabled(params: seq<Point>, fc: int): seq<Point> {
    if params == [] then []
    else
      var last := params[|params| - 1];
      Enabled(params[..|params| - 1], fc) +
      if !last.readDisabled && last.functionCode == fc then [last] else []
  }

  predicate Sorted(list: seq<Point>) {
    forall i, j | 0 <= i < j < |list| :: list[i].address <= list[j].address
  }

  method SortByAddress(list: seq<Point>) returns (sorted: seq<Point>)
    ensures Sorted(sorted) && multiset(sorted) == multiset(list)
  {
    sorted := [];
    for k := 0 to |list|
      invariant Sorted(sorted) && multiset(sorted) == multiset(list[..k])
    {
      assert list[..k + 1] == list[..k] + [list[k]];
      sorted := Insert(sorted, list[k]);
    }
    assert list[..|list|] == list;
  }

  method Insert(list: seq<Point>, p: Point) returns (r: seq<Point>)
    requires Sorted(list)
    ensures Sorted(r) && multiset(r) == multiset(list) + multiset{p}
  {
    var at := 0;
    while at < |list| && list[at].address <= p.address
      invariant 0 <= at <= |list|
      invariant forall i | 0 <= i < at :: list[i].address <= p.address
    {
      at := at + 1;
    }
    r := Place(list, p, at);
    Inserted(list, p, at);
  }

  function Place(list: seq<Point>, p: Point, at: nat): (r: seq<Point>)
    requires at <= |list|
    ensures |r| == |list| + 1
    ensures forall i | 0 <= i < |r| :: r[i] == if i < at then list[i] else if i == at then p else list[i - 1]
  {
    list[..at] + [p] + list[at..]
  }

  lemma PlaceMultiset(list: seq<Point>, p: Point, at: nat)
    requires at <= |list|
    ensures multiset(Place(list, p, at)) == multiset(list) + multiset{p}
  {
    assert list == list[..at] + list[at..];
  }

  lemma Inserted(list: seq<Point>, p: Point, at: nat)
    requires Sorted(list) && at <= |list|
    requires forall i | 0 <= i < at :: list[i].address <= p.address
    requires at < |list| ==> p.address <= list[at].address
    ensures Sorted(Place(list, p, at))
    ensures multiset(Place(list, p, at)) == multiset(list) + multiset{p}
  {
    PlaceMultiset(list, p, at);
    hide Place;
    var r := Place(list, p, at);
    forall i, j | 0 <= i < j < |r|
      ensures r[i].address <= r[j].address
    {
      assert at < |list| && at < j ==> p.address <= list[j - 1].address;
    }
  }

  /** The queries of the function codes in the order they were visited. */
  function Assemble(order: seq<int>, lists: map<int, seq<Point>>): seq<Query>
    requires forall fc | fc in order :: fc in lists
  {
    if order == [] then []
    else
      var fc := order[|order| - 1];
      Assemble(order[..|order| - 1], lists) + Queries(fc, Plan(fc, lists[fc]))
  }

  lemma {:induction false} AssembleFrame(order: seq<int>, a: map<int, seq<Point>>, b: map<int, seq<Point>>)
    requires forall fc | fc in order :: fc in a && fc in b && a[fc] == b[fc]
    ensures Assemble(order, a) == Assemble(order, b)
  {
    if order != [] {
      AssembleFrame(order[..|order| - 1], a, b);
    }
  }

  predicate Reads(p: Point) { !p.readDisabled && IsReadFunctionCode(p.functionCode) }

  function Key(p: Point): (string, Uint64, int) { (p.identify, p.address, p.functionCode) }

  /** The enabled points by function code, in configuration order. */
  method GroupParams(params: seq<Point>) returns (grouped: map<int, seq<Point>>, covered: set<(string, Uint64, int)>)
    ensures forall fc :: fc in grouped <==> IsReadFunctionCode(fc) && Enabled(params, fc) != []
    ensures forall fc | fc in grouped :: grouped[fc] == Enabled(params, fc)
    ensures covered == set p | p in params && Reads(p) :: Key(p)
  {
    grouped, covered := map[], {};
    for i := 0 to |params|
      invariant forall fc :: fc in grouped <==> IsReadFunctionCode(fc) && Enabled(params[..i], fc) != []
      invariant forall fc | fc in grouped :: grouped[fc] == Enabled(params[..i], fc)
      invariant covered == set p | p in params[..i] && Reads(p) :: Key(p)
    {
      var p := params[i];
      assert params[..i + 1][..i] == params[..i];
      assert forall q :: q in params[..i + 1] <==> q in params[..i] || q == p;
      if p.readDisabled || !IsReadFunctionCode(p.functionCode) {
        continue;
      }
      var fc := p.functionCode;
      grouped := grouped[fc := (if fc in grouped then grouped[fc] else []) + [p]];
      covered := covered + {Key(p)};
    }
    assert params[..|params|] == params;
  }

  /** The lists are the enabled points of each visited function code, sorted by address. */
  ghost predicate SortedGroups(params: seq<Point>, order: seq<int>, lists: map<int, seq<Point>>) {
    forall fc | fc in order ::
      fc in lists && Sorted(lists[fc]) && multiset(lists[fc]) == multiset(Enabled(params, fc))
  }

  /** Function codes are visited in any order; the points of each are sorted and planned. */
  method BuildBatchQueries(params: seq<Point>)
    returns (queries: seq<Query>, covered: set<(string, Uint64, int)>,
             ghost order: seq<int>, ghost lists: map<int, seq<Point>>)
    ensures Distinct(order) && SortedGroups(params, order, lists)
    ensures forall fc :: fc in order <==> IsReadFunctionCode(fc) && Enabled(params, fc) != []
    ensures queries == Assemble(order, lists)
    ensures covered == set p | p in params && Reads(p) :: Key(p)
  {
    hide Plan, Queries, Enabled, Sorted;
    var grouped;
    grouped, covered := GroupParams(params);
    queries, order, lists := [], [], map[];
    var codes := grouped.Keys;
    while codes != {}
      invariant codes <= grouped.Keys
      invariant Distinct(order) && SortedGroups(params, order, lists)
      invariant forall fc :: fc in order <==> fc in grouped && fc !in codes
      invariant queries == Assemble(order, lists)
      decreases |codes|
    {
      var fc := AnyOf(codes);
      codes := codes - {fc};
      var list := SortByAddress(grouped[fc]);
      assert |multiset(list)| == |multiset(grouped[fc])|;
      var qs := PlanList(fc, list);
      ghost var more := lists[fc := list];
      AssembleFrame(order, lists, more);
      assert (order + [fc])[..|order|] == order;
      queries, order, lists := queries + qs, order + [fc], more;
    }
  }
}
