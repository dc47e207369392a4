/** Decoding a batch response yields for every point what a read of that point alone would have yielded. */
module BatchDecode {
  import opened Bytes
  import opened Text
  import opened ModbusCodec
  import opened ModbusFrame
  import opened BatchPlanner
  import opened BatchOptimality

  /** The registers and coils of one device at one moment. */
  type Registers = int -> Uint16
  type CoilMemory = int -> bool

  function RegisterBytes(mem: Registers, start: int, quantity: nat): (r: seq<Byte>)
    ensures |r| == 2 * quantity
  {
    if quantity == 0 then []
    else RegisterBytes(mem, start, quantity - 1) + [mem(start + quantity - 1) / 256, mem(start + quantity - 1) % 256]
  }

  /** A response frame: address, function code, byte count, data, two check bytes. */
  function Response(slave: Byte, fc: Byte, payload: seq<Byte>, check: (Byte, Byte)): seq<Byte> {
    [slave, fc, |payload| % 256] + payload + [check.0, check.1]
  }

  /** The data of a frame, when its length agrees with its byte count. */
  function PayloadOf(frame: seq<Byte>): Result<seq<Byte>, ()> {
    if |frame| < 5 || |frame| < 3 + (frame[2] as int) + 2 then Err(()) else Ok(frame[3..3 + (frame[2] as int)])
  }

  /** What a single-point read of a register point decodes. */
  function SingleRead(p: Point, frame: seq<Byte>): Result<Outcome, ()> {
    match PayloadOf(frame)
    case Err(e) => Err(e)
    case Ok(payload) => Ok(DecodeRegister(p, payload))
  }

  /** What the batch decoder does with one point: the slice it is given, or nothing when it does not fit. */
  datatype Slice = Outside | Inside(outcome: Outcome)

  /** Distance of a point from the start of its window, in 64-bit signed arithmetic. */
  function Offset(start: Uint16, p: Point): int {
    Wrap64(Wrap64(p.address) - start)
  }

  /** Offsets are 64-bit signed; one that wraps while it is compared slices out of range. */
  function BatchSlice(start: Uint16, payload: seq<Byte>, p: Point): Slice {
    var offset := Offset(start, p);
    var byteOffset := Wrap64(2 * offset);
    var need := 2 * QuantityFor(p);
    if offset < 0 || byteOffset < 0 || Wrap64(byteOffset + need) > |payload| then Outside
    else if byteOffset + need > |payload| then Inside(OutOfRange)
    else Inside(DecodeRegister(p, payload[byteOffset..byteOffset + need]))
  }

  lemma WrapSmall(x: Int64)
    ensures Wrap64(x) == x
  {
  }

  lemma SmallOffset(start: Uint16, p: Point)
    requires p.address < 0x2_0000
    ensures Offset(start, p) == p.address - start
  {
    hide Wrap64;
    WrapSmall(p.address);
    WrapSmall(p.address - start);
  }

  /** A point close to the start of its window is sliced without wrap-around. */
  lemma NearSlice(start: Uint16, payload: seq<Byte>, p: Point)
    requires start <= p.address < 0x2_0000
    requires 2 * (p.address - start) + 2 * QuantityFor(p) <= |payload| < 0x1_0000
    ensures BatchSlice(start, payload, p) ==
      Inside(DecodeRegister(p, payload[2 * (p.address - start)..2 * (p.address - start) + 2 * QuantityFor(p)]))
  {
    hide Wrap64, Offset, QuantityFor, DecodeRegister;
    SmallOffset(start, p);
    WrapSmall(2 * (p.address - start));
    WrapSmall(2 * (p.address - start) + 2 * QuantityFor(p));
  }

  /** Values recorded from a batch, in point order; None when the decoder left its slice. */
  function Recorded(start: Uint16, payload: seq<Byte>, params: seq<Point>): Result<seq<(Point, Reading)>, ()> {
    if params == [] then Ok([])
    else
      var last := params[|params| - 1];
      match Recorded(start, payload, params[..|params| - 1])
      case Err(e) => Err(e)
      case Ok(front) =>
        match BatchSlice(start, payload, last)
        case Inside(OutOfRange) => Err(())
        case Inside(Value(v)) => Ok(front + [(last, v)])
        case _ => Ok(front)
  }

  datatype BatchEnd = Decoded(values: seq<(Point, Reading)>) | BadFrame | Panicked

  method DecodeRegisterBatch(q: Query, frame: seq<Byte>) returns (r: BatchEnd)
    ensures PayloadOf(frame).Err? <==> r == BadFrame
    ensures PayloadOf(frame).Ok? ==>
      match Recorded(q.startAddr, PayloadOf(frame).value, q.params)
      case Ok(values) => r == Decoded(values)
      case Err(_) => r == Panicked
  {
    hide DecodeRegister, QuantityFor, Wrap64, Offset;
    if |frame| < 5 {
      return BadFrame;
    }
    var byteCount: int := frame[2];
    if |frame| < 3 + byteCount + 2 {
      return BadFrame;
    }
    var payload := frame[3..3 + byteCount];
    var values: seq<(Point, Reading)> := [];
    for i := 0 to |q.params|
      invariant Recorded(q.startAddr, payload, q.params[..i]) == Ok(values)
    {
      var p := q.params[i];
      assert q.params[..i + 1][..i] == q.params[..i];
      var offsetRegisters := Offset(q.startAddr, p);
      if offsetRegisters < 0 {
        continue;
      }
      var byteOffset: int := Wrap64(offsetRegisters * 2);
      var need := QuantityFor(p) * 2;
      if byteOffset < 0 || Wrap64(byteOffset + need) > |payload| {
        continue;
      }
      if byteOffset + need > |payload| {
        RecordedFails(q.startAddr, payload, q.params, i + 1);
        return Panicked;
      }
      var outcome := DecodeRegister(p, payload[byteOffset..byteOffset + need]);
      match outcome {
        case OutOfRange =>
          RecordedFails(q.startAddr, payload, q.params, i + 1);
          return Panicked;
        case Value(v) => values := values + [(p, v)];
        case _ =>
      }
    }
    assert q.params[..|q.params|] == q.params;
    r := Decoded(values);
  }

  lemma {:induction false} RecordedFails(start: Uint16, payload: seq<Byte>, params: seq<Point>, k: nat)
    requires k <= |params| && Recorded(start, payload, params[..k]).Err?
    ensures Recorded(start, payload, params).Err?
  {
    if k == |params| {
      assert params[..k] == params;
    } else {
      assert params[..|params| - 1][..k] == params[..k];
      RecordedFails(start, payload, params[..|params| - 1], k);
    }
  }

  // ---------------------------------------------------------------- registers

  lemma {:induction false} RegisterFront(mem: Registers, start: int, quantity: nat, count: nat)
    requires count <= quantity
    ensures RegisterBytes(mem, start, quantity)[..2 * count] == RegisterBytes(mem, start, count)
    decreases quantity
  {
    if count < quantity {
      RegisterFront(mem, start, quantity - 1, count);
      var whole := RegisterBytes(mem, start, quantity);
      assert whole[..2 * count] == whole[..2 * (quantity - 1)][..2 * count];
    }
  }

  lemma {:induction false} RegisterBack(mem: Registers, start: int, offset: nat, count: nat)
    ensures RegisterBytes(mem, start, offset + count)[2 * offset..] == RegisterBytes(mem, start + offset, count)
    decreases count
  {
    if count > 0 {
      RegisterBack(mem, start, offset, count - 1);
      var whole, front := RegisterBytes(mem, start, offset + count), RegisterBytes(mem, start, offset + count - 1);
      assert whole[2 * offset..] == front[2 * offset..] + whole[2 * (offset + count - 1)..];
    }
  }

  lemma RegisterSlice(mem: Registers, start: int, quantity: nat, offset: nat, count: nat)
    requires offset + count <= quantity
    ensures RegisterBytes(mem, start, quantity)[2 * offset..2 * offset + 2 * count] ==
      RegisterBytes(mem, start + offset, count)
  {
    hide RegisterBytes;
    RegisterFront(mem, start, quantity, offset + count);
    RegisterBack(mem, start, offset, count);
    var whole := RegisterBytes(mem, start, quantity);
    assert whole[2 * offset..2 * offset + 2 * count] == whole[..2 * (offset + count)][2 * offset..];
  }

  lemma ResponsePayload(slave: Byte, fc: Byte, payload: seq<Byte>, check: (Byte, Byte))
    requires |payload| <= 255
    ensures PayloadOf(Response(slave, fc, payload, check)) == Ok(payload)
  {
  }

  /** Points that ask for at most what Modbus allows in one request. */
  ghost predicate WithinModbus(list: seq<Point>) {
    forall p | p in list :: p.quantity <= 125
  }

  lemma CountIsQuantity(p: Point)
    requires p.quantity <= 125 && !IsDiscrete(p.functionCode)
    ensures Count(p) == QuantityFor(p) && 1 <= QuantityFor(p) <= 125
  {
  }

  /** For every batch of the plan of a register function code, and every point in it, decoding the batch
      response gives exactly the outcome of reading the point alone from the same memory. */
  lemma BatchAgreesWithSingle(fc: int, list: seq<Point>, run: seq<Point>, p: Point, mem: Registers,
                              slave: Byte, check: (Byte, Byte), check': (Byte, Byte))
    requires (fc == 3 || fc == 4) && Plannable(fc, list) && WithinModbus(list)
    requires run in Plan(fc, list) && p in run
    ensures var q := QueryOf(fc, run);
      var batch := Response(slave, fc, RegisterBytes(mem, q.startAddr, q.quantity), check);
      var single := Response(slave, fc, RegisterBytes(mem, p.address, QuantityFor(p)), check');
      && PayloadOf(batch).Ok? && SingleRead(p, single).Ok?
      && BatchSlice(q.startAddr, PayloadOf(batch).value, p) == Inside(SingleRead(p, single).value)
  {
    hide Plan, Plannable, Feasible, Extent, QueryOf, DecodeRegister, QuantityFor, Response, PayloadOf, Count,
      BatchSlice;
    PlanWindows(fc, list);
    PlanSubset(fc, list, run);
    assert p in list;
    IsRegister(fc, list, p);
    CountIsQuantity(p);
    var q := QueryOf(fc, run);
    SmallWindow(fc, list, run);
    var n, offset := QuantityFor(p), p.address - q.startAddr;
    RegisterSlice(mem, q.startAddr, q.quantity, offset, n);
    NearSlice(q.startAddr, RegisterBytes(mem, q.startAddr, q.quantity), p);
    ResponsePayload(slave, fc, RegisterBytes(mem, q.startAddr, q.quantity), check);
    ResponsePayload(slave, fc, RegisterBytes(mem, p.address, n), check');
  }

  /** What reading a point alone from the memory decodes. */
  function Alone(fc: Byte, p: Point, mem: Registers, slave: Byte, check: (Byte, Byte)): Result<Outcome, ()> {
    SingleRead(p, Response(slave, fc, RegisterBytes(mem, p.address, QuantityFor(p)), check))
  }

  /** A point with enough registers for its type reads as a value. */
  lemma AloneValue(fc: Byte, p: Point, mem: Registers, slave: Byte, check: (Byte, Byte))
    requires 1 <= QuantityFor(p) <= 125 && (NeedsFour(p) ==> QuantityFor(p) >= 2)
    ensures Alone(fc, p, mem, slave, check).Ok? && Alone(fc, p, mem, slave, check).value.Value?
  {
    hide QuantityFor, DecodeRegister, Response, PayloadOf, NeedsFour;
    var bytes := RegisterBytes(mem, p.address, QuantityFor(p));
    ResponsePayload(slave, fc, bytes, check);
    DecodeSafeIff(p);
    ShortIff(p, bytes);
    RegisterOutcomes(p, bytes);
  }

  lemma RegisterOutcomes(p: Point, payload: seq<Byte>)
    ensures DecodeRegister(p, payload).Value? || DecodeRegister(p, payload) in {Short, OutOfRange}
  {
    hide Lowercase, Reorder;
  }

  /** The batch response of a whole run, whose points have enough registers for their types, records every point
      of the run, in order, with the value that reading it alone decodes. */
  lemma BatchRecordsSingles(fc: int, list: seq<Point>, run: seq<Point>, mem: Registers,
                            slave: Byte, check: (Byte, Byte), check': (Byte, Byte))
    requires (fc == 3 || fc == 4) && Plannable(fc, list) && WithinModbus(list) && run in Plan(fc, list)
    requires forall p | p in run :: NeedsFour(p) ==> QuantityFor(p) >= 2
    ensures run != []
    ensures var q := QueryOf(fc, run);
      var batch := PayloadOf(Response(slave, fc, RegisterBytes(mem, q.startAddr, q.quantity), check));
      && batch.Ok?
      && var recorded := Recorded(q.startAddr, batch.value, q.params);
        && recorded.Ok? && |recorded.value| == |run|
        && forall i | 0 <= i < |run| ::
          && recorded.value[i].0 == run[i]
          && Alone(fc, run[i], mem, slave, check') == Ok(Value(recorded.value[i].1))
  {
    hide Plan, Plannable, QueryOf, BatchSlice, Alone, NeedsFour, QuantityFor, Response, PayloadOf;
    SmallWindow(fc, list, run);
    QueryKeeps(fc, run);
    var q := QueryOf(fc, run);
    ResponsePayload(slave, fc, RegisterBytes(mem, q.startAddr, q.quantity), check);
    var payload := RegisterBytes(mem, q.startAddr, q.quantity);
    forall p | p in run
      ensures Alone(fc, p, mem, slave, check').Ok? && Alone(fc, p, mem, slave, check').value.Value?
      ensures BatchSlice(q.startAddr, payload, p) == Inside(Alone(fc, p, mem, slave, check').value)
    {
      PlanSubset(fc, list, run);
      IsRegister(fc, list, p);
      CountIsQuantity(p);
      AloneValue(fc, p, mem, slave, check');
      BatchAgreesWithSingle(fc, list, run, p, mem, slave, check, check');
      AloneIs(fc, p, mem, slave, check');
    }
    RecordsAll(q.startAddr, payload, run, p => Alone(fc, p, mem, slave, check'));
  }

  lemma AloneIs(fc: Byte, p: Point, mem: Registers, slave: Byte, check: (Byte, Byte))
    ensures Alone(fc, p, mem, slave, check) ==
      SingleRead(p, Response(slave, fc, RegisterBytes(mem, p.address, QuantityFor(p)), check))
  {
  }

  lemma {:induction false} RecordsAll(start: Uint16, payload: seq<Byte>, params: seq<Point>,
                                      alone: Point -> Result<Outcome, ()>)
    requires forall p | p in params ::
      alone(p).Ok? && alone(p).value.Value? && BatchSlice(start, payload, p) == Inside(alone(p).value)
    ensures var r := Recorded(start, payload, params);
      && r.Ok? && |r.value| == |params|
      && forall i | 0 <= i < |params| :: r.value[i].0 == params[i] && alone(params[i]) == Ok(Value(r.value[i].1))
  {
    hide BatchSlice;
    if params != [] {
      RecordsAll(start, payload, params[..|params| - 1], alone);
      assert params[|params| - 1] in params;
    }
  }

  lemma IsRegister(fc: int, list: seq<Point>, p: Point)
    requires Plannable(fc, list) && p in list && (fc == 3 || fc == 4)
    ensures !IsDiscrete(p.functionCode)
  {
  }

  lemma PlanSubset(fc: int, list: seq<Point>, run: seq<Point>)
    requires run in Plan(fc, list)
    ensures forall p | p in run :: p in list
  {
    hide Plan;
    PlanKeepsPoints(fc, list);
    FlattenHas(Plan(fc, list), run);
  }

  lemma {:induction false} FlattenHas(runs: seq<seq<Point>>, run: seq<Point>)
    requires run in runs
    ensures forall p | p in run :: p in Flatten(runs)
  {
    if run != runs[0] {
      assert runs == [runs[0]] + runs[1..];
      FlattenHas(runs[1..], run);
    }
  }

  /** A register batch never asks for more than 125 registers. */
  lemma SmallWindow(fc: int, list: seq<Point>, run: seq<Point>)
    requires (fc == 3 || fc == 4) && Plannable(fc, list) && WithinModbus(list) && run in Plan(fc, list)
    ensures run != [] && 1 <= QueryOf(fc, run).quantity <= 125
  {
    hide Plan, Plannable, Count, Extent, QueryOf, QuantityFor;
    PlanWindows(fc, list);
    PlanSubset(fc, list, run);
    assert run[0] in run;
    IsRegister(fc, list, run[0]);
    CountIsQuantity(run[0]);
    if |run| == 1 {
      assert run == [run[0]];
      OnePoint(run[0]);
    }
  }

  // ---------------------------------------------------------------- coils

  function CoilsFrom(mem: CoilMemory, start: int, quantity: nat): (r: seq<bool>)
    ensures |r| == quantity && forall i | 0 <= i < quantity :: r[i] == mem(start + i)
  {
    seq(quantity, i => mem(start + i))
  }

  /** Payload of a coil response: bit i is the coil at start + i, unused bits are zero. */
  ghost predicate CoilPayload(mem: CoilMemory, start: int, quantity: nat, payload: seq<bv8>) {
    Packs(payload, CoilsFrom(mem, start, quantity))
  }

  /** What the batch decoder records for a discrete point. Division truncates towards zero, and a negative
      shift distance shifts every bit out. */
  function BatchCoil(start: Uint16, payload: seq<bv8>, p: Point): Result<bool, ()> {
    var offset := Offset(start, p);
    var bytePos := if offset < 0 then -((-offset) / 8) else offset / 8;
    if bytePos < 0 || bytePos >= |payload| then Err(())
    else if offset < 0 then Ok(false)
    else Ok(BitOf(payload[bytePos], offset % 8))
  }

  /** Coils recorded from a batch, in point order. */
  function RecordedCoils(start: Uint16, payload: seq<bv8>, params: seq<Point>): seq<(Point, bool)> {
    if params == [] then []
    else
      var last := params[|params| - 1];
      RecordedCoils(start, payload, params[..|params| - 1]) +
      match BatchCoil(start, payload, last)
      case Ok(on) => [(last, on)]
      case Err(_) => []
  }

  method DecodeDiscreteBatch(q: Query, frame: seq<Byte>) returns (r: Result<seq<(Point, bool)>, ()>)
    ensures r.Err? <==> PayloadOf(frame).Err?
    ensures r.Ok? ==> r.value == RecordedCoils(q.startAddr, Vectors(PayloadOf(frame).value), q.params)
  {
    hide BitOf, Vectors, Offset;
    if |frame| < 5 {
      return Err(());
    }
    var byteCount: int := frame[2];
    if |frame| < 3 + byteCount + 2 {
      return Err(());
    }
    var payload := Vectors(frame[3..3 + byteCount]);
    var values := [];
    for k := 0 to |q.params|
      invariant values == RecordedCoils(q.startAddr, payload, q.params[..k])
    {
      var p := q.params[k];
      assert q.params[..k + 1][..k] == q.params[..k];
      var offset := Offset(q.startAddr, p);
      var bytePos := if offset < 0 then -((-offset) / 8) else offset / 8;
      if bytePos < 0 || bytePos >= |payload| {
        continue;
      }
      values := values + [(p, if offset < 0 then false else BitOf(payload[bytePos], offset % 8))];
    }
    assert q.params[..|q.params|] == q.params;
    r := Ok(values);
  }

  /** The batch decoder records the coil at the point's address. */
  lemma BatchReadsCoil(start: Uint16, quantity: Uint16, mem: CoilMemory, payload: seq<bv8>, p: Point)
    requires CoilPayload(mem, start, quantity, payload)
    requires start <= p.address < start + quantity
    ensures BatchCoil(start, payload, p) == Ok(mem(p.address))
  {
    hide BitOf, Offset;
    SmallOffset(start, p);
    assert CoilAt(payload, p.address - start) == mem(start + (p.address - start));
  }

  /** For every batch of the plan of a coil function code, every point in it gets the coil at its address. */
  lemma PlannedCoilRead(fc: int, list: seq<Point>, run: seq<Point>, p: Point, mem: CoilMemory, payload: seq<bv8>)
    requires (fc == 1 || fc == 2) && Plannable(fc, list) && run in Plan(fc, list) && p in run
    requires run != [] && CoilPayload(mem, QueryOf(fc, run).startAddr, QueryOf(fc, run).quantity, payload)
    ensures BatchCoil(QueryOf(fc, run).startAddr, payload, p) == Ok(mem(p.address))
  {
    hide Plan, Plannable, Feasible, Extent, QueryOf, CoilPayload, Count, BatchCoil;
    PlanWindows(fc, list);
    assert p.address < Limit(p);
    BatchReadsCoil(QueryOf(fc, run).startAddr, QueryOf(fc, run).quantity, mem, payload, p);
  }

  /** It agrees with a single-point read on every memory exactly when the point has no bit offset; a
      single-point read of no coils is refused before it is sent. */
  lemma CoilAgreesIff(start: Uint16, quantity: Uint16, p: Point)
    requires start <= p.address < start + quantity && IsDiscrete(p.functionCode) && QuantityFor(p) > 0
    ensures p.bit <= 0 <==>
      forall mem: CoilMemory, batch: seq<bv8>, single: seq<bv8> |
        CoilPayload(mem, start, quantity, batch) && CoilPayload(mem, p.address, QuantityFor(p), single) ::
        DecodeDiscrete(p, single) == Value(Flag(BatchCoil(start, batch, p).value))
  {
    if p.bit <= 0 {
      forall mem: CoilMemory, batch: seq<bv8>, single: seq<bv8> |
        CoilPayload(mem, start, quantity, batch) && CoilPayload(mem, p.address, QuantityFor(p), single)
        ensures DecodeDiscrete(p, single) == Value(Flag(BatchCoil(start, batch, p).value))
      {
        BatchReadsCoil(start, quantity, mem, batch, p);
        assert CoilAt(single, 0) == mem(p.address + 0);
      }
    } else {
      var mem: CoilMemory := a => a == p.address;
      var batch := AnyPacking(CoilsFrom(mem, start, quantity));
      var single := AnyPacking(CoilsFrom(mem, p.address, QuantityFor(p)));
      BatchReadsCoil(start, quantity, mem, batch, p);
      if p.bit / 8 < |single| {
        assert CoilAt(single, p.bit) == (p.bit < QuantityFor(p) && mem(p.address + p.bit));
      }
      assert CoilPayload(mem, start, quantity, batch) && CoilPayload(mem, p.address, QuantityFor(p), single);
      assert DecodeDiscrete(p, single) != Value(Flag(BatchCoil(start, batch, p).value));
    }
  }

  /** Every list of coils has a packed form. */
  ghost function AnyPacking(coils: seq<bool>): (packed: seq<bv8>)
    ensures Packs(packed, coils)
  {
    PackingExists(coils);
    var packed :| Packs(packed, coils);
    packed
  }

  lemma {:induction false} PackingExists(coils: seq<bool>)
    ensures exists packed :: Packs(packed, coils)
  {
    if coils == [] {
      assert Packs([], coils);
    } else {
      var n := |coils| - 1;
      PackingExists(coils[..n]);
      var front :| Packs(front, coils[..n]);
      var packed := WithCoil(front, coils);
      assert Packs(packed, coils);
    }
  }

  lemma WithCoil(front: seq<bv8>, coils: seq<bool>) returns (packed: seq<bv8>)
    requires coils != [] && Packs(front, coils[..|coils| - 1])
    ensures Packs(packed, coils)
  {
    var n := |coils| - 1;
    var room := if n % 8 == 0 then front + [0] else front;
    forall j | 0 <= j < 8
      ensures !BitOf(0, j)
    {
      NoBits(j);
    }
    assert forall i | 0 <= i < 8 * |room| :: CoilAt(room, i) == (i < n && coils[i]);
    packed := if coils[n] then room[n / 8 := room[n / 8] | (1 << (n % 8))] else room;
    forall i | 0 <= i < 8 * |packed|
      ensures CoilAt(packed, i) == (i < |coils| && coils[i])
    {
      assert CoilAt(room, i) == (i < n && coils[i]);
      if coils[n] && i / 8 == n / 8 {
        SetBit(room[n / 8], n % 8, i % 8);
      }
    }
  }
}
