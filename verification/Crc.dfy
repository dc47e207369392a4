/** CRC-16/MODBUS as the collector and the command encoder compute it (MODBUS over Serial Line V1.02,
    section 6.2.2), and the errors it detects. The register is a 16-bit vector, least significant bit
    first, with polynomial 0xA001 (reflected 0x8005) and initial value 0xFFFF. */
module Crc {

  type Byte = bv8
  type Frame = seq<Byte>

  const INITIAL: bv16 := 0xFFFF

  function Xor(a: bv16, b: bv16): bv16 { a ^ b }

  /** One shift of the register. */
  function BitStep(crc: bv16): bv16 {
    if crc & 1 != 0 then (crc >> 1) ^ 0xA001 else crc >> 1
  }

  function Steps(crc: bv16, n: nat): bv16
    decreases n
  {
    if n == 0 then crc else Steps(BitStep(crc), n - 1)
  }

  function Widen(b: Byte): bv16 { b as bv16 }

  /** The register after one byte. */
  function ByteStep(crc: bv16, b: Byte): bv16 {
    Steps(Xor(crc, Widen(b)), 8)
  }

  /** The register after a whole byte string, last byte last. */
  function Run(crc: bv16, data: Frame): bv16 {
    if data == [] then crc else ByteStep(Run(crc, data[..|data| - 1]), data[|data| - 1])
  }

  function Value(data: Frame): bv16 {
    Run(INITIAL, data)
  }

  // ---------------------------------------------------------------- the code

  method ComputeCRC(data: Frame) returns (crc: bv16)
    ensures crc == Value(data)
  {
    crc := 0xFFFF;
    for k := 0 to |data|
      invariant crc == Run(INITIAL, data[..k])
    {
      assert data[..k + 1][..k] == data[..k];
      ghost var target := ByteStep(crc, data[k]);
      crc := crc ^ (data[k] as bv16);
      for i := 0 to 8
        invariant Steps(crc, 8 - i) == target
      {
        if crc & 0x0001 != 0 {
          crc := (crc >> 1) ^ 0xA001;
        } else {
          crc := crc >> 1;
        }
      }
    }
    assert data[..|data|] == data;
  }

  function Low(crc: bv16): Byte { (crc & 0xFF) as bv8 }

  function High(crc: bv16): Byte { (crc >> 8) as bv8 }

  function Word(lo: Byte, hi: Byte): bv16 { (lo as bv16) | ((hi as bv16) << 8) }

  method AppendCRC(frame: Frame) returns (r: Frame)
    ensures |r| == |frame| + 2 && r[..|frame|] == frame
    ensures Value(r) == 0
  {
    var crc := ComputeCRC(frame);
    r := frame + [Low(crc), High(crc)];
    SplitWord(crc);
    Residue(frame, Low(crc), High(crc));
  }

  /** Acceptance is stated without the two-byte comparison the body makes: the whole frame,
      check bytes included, has residue zero. */
  method VerifyCRC(frame: Frame) returns (ok: bool)
    ensures ok <==> |frame| >= 2 && Value(frame) == 0
  {
    if |frame| < 2 {
      return false;
    }
    var payload := frame[..|frame| - 2];
    var expected := ComputeCRC(payload);
    var got := Word(frame[|frame| - 2], frame[|frame| - 1]);
    ok := expected == got;
    Residue(payload, frame[|frame| - 2], frame[|frame| - 1]);
    assert payload + [frame[|frame| - 2], frame[|frame| - 1]] == frame;
  }

  // ---------------------------------------------------------------- one shift, as pure bit algebra

  /** The shift written without a branch: bit 0 is fed back to bits 0, 13 and 15. */
  function Feed(x: bv16): bv16 {
    (x >> 1) ^ ((x & 1) ^ ((x & 1) << 13) ^ ((x & 1) << 15))
  }

  lemma StepIsFeed(x: bv16)
    ensures BitStep(x) == Feed(x)
  {
    if x & 1 != 0 {
      FeedOdd(x);
    } else {
      FeedEven(x);
    }
  }

  lemma FeedOdd(x: bv16)
    requires x & 1 != 0
    ensures (x >> 1) ^ 0xA001 == (x >> 1) ^ ((x & 1) ^ ((x & 1) << 13) ^ ((x & 1) << 15))
  {
  }

  lemma FeedEven(x: bv16)
    requires x & 1 == 0
    ensures x >> 1 == (x >> 1) ^ ((x & 1) ^ ((x & 1) << 13) ^ ((x & 1) << 15))
  {
  }

  /** The shift is linear over exclusive or. */
  lemma StepLinear(a: bv16, b: bv16)
    ensures BitStep(Xor(a, b)) == Xor(BitStep(a), BitStep(b))
  {
    hide BitStep;
    StepIsFeed(Xor(a, b));
    StepIsFeed(a);
    StepIsFeed(b);
  }

  /** The shift loses no information. */
  lemma StepInjective(a: bv16, b: bv16)
    requires BitStep(a) == BitStep(b)
    ensures a == b
  {
    hide BitStep;
    StepIsFeed(a);
    StepIsFeed(b);
  }

  lemma XorLaws(a: bv16, b: bv16, c: bv16)
    ensures Xor(a, Xor(b, c)) == Xor(Xor(a, b), c)
    ensures Xor(a, 0) == a
    ensures Xor(a, b) == 0 <==> a == b
    ensures Xor(a, c) == Xor(b, c) ==> a == b
    ensures Xor(c, a) == Xor(c, b) ==> a == b
  {
    hide Xor;
    XorAssociative(a, b, c);
    XorUnit(a);
    XorSelf(a, b);
    XorCancelsRight(a, b, c);
    XorCancelsLeft(a, b, c);
  }

  lemma XorAssociative(a: bv16, b: bv16, c: bv16)
    ensures Xor(a, Xor(b, c)) == Xor(Xor(a, b), c)
  {
  }

  lemma XorUnit(a: bv16)
    ensures Xor(a, 0) == a
  {
  }

  lemma XorSelf(a: bv16, b: bv16)
    ensures Xor(a, b) == 0 <==> a == b
  {
    hide *;
    XorBack(a, b);
    XorSame(b);
  }

  lemma XorBack(a: bv16, b: bv16)
    ensures Xor(Xor(a, b), b) == a
    ensures Xor(0, b) == b
  {
  }

  lemma XorSame(a: bv16)
    ensures Xor(a, a) == 0
  {
  }

  lemma XorCancelsRight(a: bv16, b: bv16, c: bv16)
    ensures Xor(a, c) == Xor(b, c) ==> a == b
  {
  }

  lemma XorCancelsLeft(a: bv16, b: bv16, c: bv16)
    ensures Xor(c, a) == Xor(c, b) ==> a == b
  {
  }

  lemma SplitWord(crc: bv16)
    ensures Word(Low(crc), High(crc)) == crc
  {
  }

  // ---------------------------------------------------------------- many shifts

  lemma {:induction false} StepsLinear(a: bv16, b: bv16, n: nat)
    ensures Steps(Xor(a, b), n) == Xor(Steps(a, n), Steps(b, n))
    decreases n
  {
    hide Xor, BitStep;
    if n > 0 {
      StepLinear(a, b);
      StepsLinear(BitStep(a), BitStep(b), n - 1);
    }
  }

  lemma {:induction false} StepsInjective(a: bv16, b: bv16, n: nat)
    requires Steps(a, n) == Steps(b, n)
    ensures a == b
    decreases n
  {
    hide BitStep;
    if n > 0 {
      StepsInjective(BitStep(a), BitStep(b), n - 1);
      StepInjective(a, b);
    }
  }

  lemma {:induction false} StepsZero(n: nat)
    ensures Steps(0, n) == 0
  {
    if n > 0 {
      StepsZero(n - 1);
    }
  }

  lemma {:induction false} StepsAdd(a: bv16, m: nat, n: nat)
    ensures Steps(Steps(a, m), n) == Steps(a, m + n)
    decreases m
  {
    hide BitStep;
    if m > 0 {
      StepsAdd(BitStep(a), m - 1, n);
    }
  }

  // ---------------------------------------------------------------- residue

  function Raise(hi: Byte): bv16 { (hi as bv16) << 8 }

  lemma EightSteps(x: bv16)
    ensures Steps(x, 8) == BitStep(BitStep(BitStep(BitStep(BitStep(BitStep(BitStep(BitStep(x))))))))
  {
    hide BitStep;
    assert Steps(BitStep(BitStep(BitStep(BitStep(x)))), 4)
        == BitStep(BitStep(BitStep(BitStep(BitStep(BitStep(BitStep(BitStep(x))))))));
  }

  /** The high byte is untouched by the first eight shifts, it only moves down. */
  lemma HighByteMovesDown(hi: Byte)
    ensures Steps(Raise(hi), 8) == Widen(hi)
  {
    var x := Raise(hi);
    EightSteps(x);
    assert BitStep(x) == x >> 1;
    assert BitStep(x >> 1) == x >> 2;
    assert BitStep(x >> 2) == x >> 3;
    assert BitStep(x >> 3) == x >> 4;
    assert BitStep(x >> 4) == x >> 5;
    assert BitStep(x >> 5) == x >> 6;
    assert BitStep(x >> 6) == x >> 7;
    assert BitStep(x >> 7) == x >> 8;
    assert x >> 8 == Widen(hi);
  }

  lemma WordIsXor(lo: Byte, hi: Byte)
    ensures Word(lo, hi) == Xor(Widen(lo), Raise(hi))
  {
  }

  /** Appending the check bytes in transmission order clears the register, and nothing else does. */
  lemma Residue(payload: Frame, lo: Byte, hi: Byte)
    ensures Value(payload + [lo, hi]) == 0 <==> Word(lo, hi) == Value(payload)
  {
    hide Xor, BitStep, Steps, Word, Widen, Raise, Run;
    var s := Value(payload);
    RunTwo(payload, lo, hi);
    HighByteMovesDown(hi);
    StepsLinear(Xor(s, Widen(lo)), Raise(hi), 8);
    XorLaws(s, Widen(lo), Raise(hi));
    WordIsXor(lo, hi);
    StepsAdd(Xor(s, Word(lo, hi)), 8, 8);
    StepsZero(16);
    XorLaws(s, Word(lo, hi), 0);
    if Value(payload + [lo, hi]) == 0 {
      StepsInjective(Xor(s, Word(lo, hi)), 0, 16);
    }
  }

  lemma RunTwo(payload: Frame, lo: Byte, hi: Byte)
    ensures Value(payload + [lo, hi]) == ByteStep(ByteStep(Value(payload), lo), hi)
  {
    hide Xor, Steps, Widen;
    var whole := payload + [lo, hi];
    assert whole[..|whole| - 1] == payload + [lo];
    assert (payload + [lo])[..|payload|] == payload;
    assert Run(INITIAL, payload + [lo]) == ByteStep(Run(INITIAL, payload), lo);
  }

  // ---------------------------------------------------------------- the bit-serial view

  function Bit(b: bool): bv16 { if b then 1 else 0 }

  function FirstBit(x: bv16): bool { x & 1 == 1 }

  function Half(x: bv16): bv16 { x >> 1 }

  /** The register clocked once per transmitted bit. */
  function BitRun(crc: bv16, bits: seq<bool>): bv16
    decreases |bits|
  {
    if bits == [] then crc else BitRun(BitStep(Xor(crc, Bit(bits[0]))), bits[1..])
  }

  /** The low n bits of a register value, least significant first. */
  function Bits(x: bv16, n: nat): (r: seq<bool>)
    ensures |r| == n
    decreases n
  {
    if n == 0 then [] else [FirstBit(x)] + Bits(Half(x), n - 1)
  }

  function Halves(x: bv16, n: nat): bv16
    decreases n
  {
    if n == 0 then x else Halves(Half(x), n - 1)
  }

  /** A frame in the order its bits travel: byte by byte, least significant bit first. */
  function FrameBits(data: Frame): (r: seq<bool>)
    ensures |r| == 8 * |data|
  {
    if data == [] then [] else FrameBits(data[..|data| - 1]) + Bits(Widen(data[|data| - 1]), 8)
  }

  lemma {:induction false} BitRunAppend(crc: bv16, a: seq<bool>, b: seq<bool>)
    ensures BitRun(crc, a + b) == BitRun(BitRun(crc, a), b)
    decreases |a|
  {
    hide Xor, BitStep, Bit;
    if a == [] {
      assert a + b == b;
    } else {
      assert (a + b)[1..] == a[1..] + b;
      BitRunAppend(BitStep(Xor(crc, Bit(a[0]))), a[1..], b);
    }
  }

  /** Everything but the lowest bit. */
  function Rest(x: bv16): bv16 { x ^ (x & 1) }

  lemma Parts(x: bv16)
    ensures Xor(Bit(FirstBit(x)), Rest(x)) == x
  {
    BitOfFirst(x);
    hide Bit, FirstBit;
    Rejoined(x);
  }

  lemma Rejoined(x: bv16)
    ensures (x & 1) ^ (x ^ (x & 1)) == x
  {
  }

  lemma RestMovesDown(x: bv16)
    ensures Feed(Rest(x)) == Half(x)
  {
    EvenFeed(x);
  }

  lemma EvenFeed(x: bv16)
    ensures Feed(x ^ (x & 1)) == x >> 1
  {
  }

  lemma BitOfFirst(x: bv16)
    ensures Bit(FirstBit(x)) == x & 1
  {
  }

  /** Only the lowest bit of what is fed in takes part in a shift; the rest moves down. */
  lemma StepSplits(crc: bv16, x: bv16)
    ensures BitStep(Xor(crc, x)) == Xor(BitStep(Xor(crc, Bit(FirstBit(x)))), Half(x))
  {
    hide *;
    var low := Bit(FirstBit(x));
    Parts(x);
    XorLaws(crc, low, Rest(x));
    StepLinear(Xor(crc, low), Rest(x));
    StepIsFeed(Rest(x));
    RestMovesDown(x);
  }

  lemma XorIs(a: bv16, b: bv16)
    ensures Xor(a, b) == a ^ b
  {
  }

  lemma {:induction false} SerialSteps(crc: bv16, x: bv16, n: nat)
    ensures Steps(Xor(crc, x), n) == Xor(BitRun(crc, Bits(x, n)), Halves(x, n))
    decreases n
  {
    hide BitStep, Xor, Bit, FirstBit, Half;
    if n > 0 {
      var next := BitStep(Xor(crc, Bit(FirstBit(x))));
      StepSplits(crc, x);
      SerialSteps(next, Half(x), n - 1);
      assert Bits(x, n)[1..] == Bits(Half(x), n - 1);
    }
  }

  lemma EightHalves(x: bv16)
    ensures Halves(x, 8) == Half(Half(Half(Half(Half(Half(Half(Half(x))))))))
  {
    hide Half;
    assert Halves(Half(Half(Half(Half(x)))), 4) == Half(Half(Half(Half(Half(Half(Half(Half(x))))))));
  }

  lemma ByteRunsOut(b: Byte)
    ensures Halves(Widen(b), 8) == 0
  {
    EightHalves(Widen(b));
  }

  lemma ByteIsEightBits(crc: bv16, b: Byte)
    ensures ByteStep(crc, b) == BitRun(crc, Bits(Widen(b), 8))
  {
    hide BitStep, Xor, Widen, Bits, BitRun, Halves, Steps;
    SerialSteps(crc, Widen(b), 8);
    ByteRunsOut(b);
    XorLaws(BitRun(crc, Bits(Widen(b), 8)), 0, 0);
  }

  /** The byte-wise computation is the bit-serial one. */
  lemma {:induction false} SerialForm(data: Frame)
    ensures Value(data) == BitRun(INITIAL, FrameBits(data))
  {
    hide ByteStep, Bits, Widen, BitStep, Xor, Bit;
    if data != [] {
      var front, last := data[..|data| - 1], data[|data| - 1];
      SerialForm(front);
      ByteIsEightBits(Value(front), last);
      BitRunAppend(INITIAL, FrameBits(front), Bits(Widen(last), 8));
    }
  }

  // ---------------------------------------------------------------- burst errors

  function Join(b: bool, p: bv16): bv16 { Xor(Bit(b), Double(p)) }

  function Double(p: bv16): bv16 { p << 1 }

  function Pack(bits: seq<bool>): bv16 {
    if bits == [] then 0 else Join(bits[0], Pack(bits[1..]))
  }

  lemma DoubleIs(p: bv16)
    ensures Double(p) == p << 1 && Half(p << 1) == (p << 1) >> 1 && (FirstBit(p << 1) <==> (p << 1) & 1 == 1)
  {
  }

  /** A value of at most 15 bits survives being doubled. */
  lemma RoomAbove(p: bv16)
    requires p >> 15 == 0
    ensures Half(Double(p)) == p && !FirstBit(Double(p))
  {
    hide Half, Double, FirstBit;
    DoubleIs(p);
    RoomRaw(p);
  }

  lemma RoomRaw(p: bv16)
    ensures p >> 15 == 0 ==> (p << 1) >> 1 == p
    ensures (p << 1) & 1 == 0
  {
  }

  lemma HalfLinear(a: bv16, b: bv16)
    ensures Half(Xor(a, b)) == Xor(Half(a), Half(b))
  {
  }

  lemma FirstBitLinear(a: bv16, b: bv16)
    ensures Bit(FirstBit(Xor(a, b))) == Xor(Bit(FirstBit(a)), Bit(FirstBit(b)))
  {
    hide Bit, FirstBit, Xor;
    BitOfFirst(a);
    BitOfFirst(b);
    BitOfFirst(Xor(a, b));
    XorIs(a, b);
    XorIs(a & 1, b & 1);
    LowLinear(a, b);
  }

  lemma LowLinear(a: bv16, b: bv16)
    ensures (a ^ b) & 1 == (a & 1) ^ (b & 1)
  {
  }

  lemma BitFacts(b: bool)
    ensures Half(Bit(b)) == 0 && FirstBit(Bit(b)) == b
  {
  }

  lemma Unjoin(b: bool, p: bv16)
    requires p >> 15 == 0
    ensures Half(Join(b, p)) == p && FirstBit(Join(b, p)) == b
  {
    hide Half, FirstBit, Xor, Bit, Double;
    var d := Double(p);
    RoomAbove(p);
    HalfLinear(Bit(b), d);
    FirstBitLinear(Bit(b), d);
    BitFacts(b);
    XorZeroLeft(p);
    BitFalse();
    XorUnit(Bit(b));
    BitInjective(FirstBit(Join(b, p)), b);
  }

  lemma XorZeroLeft(p: bv16)
    ensures Xor(0, p) == p
  {
  }

  lemma BitFalse()
    ensures Bit(false) == 0
  {
  }

  lemma BitInjective(b: bool, c: bool)
    ensures Bit(b) == Bit(c) ==> b == c
  {
  }

  lemma {:induction false} HalvesOfZero(n: nat)
    ensures Halves(0, n) == 0
  {
    if n > 0 {
      HalvesOfZero(n - 1);
    }
  }

  lemma {:induction false} HalvesAdd(x: bv16, m: nat, n: nat)
    ensures Halves(x, m + n) == Halves(Halves(x, m), n)
    decreases m
  {
    hide Half;
    if m > 0 {
      HalvesAdd(Half(x), m - 1, n);
    }
  }

  lemma FifteenHalves(x: bv16)
    ensures Halves(x, 15) == x >> 15
  {
    hide Half;
    EightHalves(x);
    HalvesAdd(x, 8, 7);
    SevenHalves(Halves(x, 8));
    HalfTower(x);
  }

  lemma SevenHalves(x: bv16)
    ensures Halves(x, 7) == Half(Half(Half(Half(Half(Half(Half(x)))))))
  {
    hide Half;
    assert Halves(Half(Half(Half(Half(x)))), 3) == Half(Half(Half(Half(Half(Half(Half(x)))))));
  }

  lemma HalfTower(x: bv16)
    ensures Half(Half(Half(Half(Half(Half(Half(Half(Half(Half(Half(Half(Half(Half(Half(x))))))))))))))) == x >> 15
  {
  }

  lemma ShortLeavesRoom(p: bv16, n: nat)
    requires n <= 15 && Halves(p, n) == 0
    ensures p >> 15 == 0
  {
    hide Halves;
    HalvesAdd(p, n, 15 - n);
    HalvesOfZero(15 - n);
    FifteenHalves(p);
  }

  lemma {:induction false} PackFits(bits: seq<bool>)
    requires |bits| <= 16
    ensures Halves(Pack(bits), |bits|) == 0
  {
    hide Join, Half;
    if bits != [] {
      PackFits(bits[1..]);
      ShortLeavesRoom(Pack(bits[1..]), |bits| - 1);
      Unjoin(bits[0], Pack(bits[1..]));
    }
  }

  lemma PackStep(bits: seq<bool>)
    requires 0 < |bits| <= 16
    ensures Half(Pack(bits)) == Pack(bits[1..]) && FirstBit(Pack(bits)) == bits[0]
  {
    hide Join, Half, FirstBit, Halves;
    PackFits(bits[1..]);
    ShortLeavesRoom(Pack(bits[1..]), |bits| - 1);
    Unjoin(bits[0], Pack(bits[1..]));
  }

  /** Up to 16 bits can be folded into the register at once. */
  lemma {:induction false} WindowAsWord(crc: bv16, bits: seq<bool>)
    requires |bits| <= 16
    ensures BitRun(crc, bits) == Steps(Xor(crc, Pack(bits)), |bits|)
    decreases |bits|
  {
    hide Xor, BitStep, Half, FirstBit, Bit, Join;
    if bits == [] {
      XorLaws(crc, 0, 0);
    } else {
      PackStep(bits);
      StepSplits(crc, Pack(bits));
      WindowAsWord(BitStep(Xor(crc, Bit(bits[0]))), bits[1..]);
    }
  }

  lemma {:induction false} PackInjective(a: seq<bool>, b: seq<bool>)
    requires |a| == |b| <= 16 && Pack(a) == Pack(b)
    ensures a == b
  {
    hide Join, Half, FirstBit, Pack;
    if a != [] {
      PackStep(a);
      PackStep(b);
      PackInjective(a[1..], b[1..]);
      assert a == [a[0]] + a[1..] && b == [b[0]] + b[1..];
    }
  }

  lemma {:induction false} BitRunInjective(s: bv16, t: bv16, bits: seq<bool>)
    requires BitRun(s, bits) == BitRun(t, bits)
    ensures s == t
    decreases |bits|
  {
    hide Xor, BitStep, Bit;
    if bits != [] {
      var b := Bit(bits[0]);
      BitRunInjective(BitStep(Xor(s, b)), BitStep(Xor(t, b)), bits[1..]);
      StepInjective(Xor(s, b), Xor(t, b));
      XorLaws(s, t, b);
    }
  }

  /** Two bit strings with the same register value that agree outside one 16-bit window are equal. */
  lemma BurstBits(crc: bv16, a: seq<bool>, b: seq<bool>, from: nat, to: nat)
    requires |a| == |b| && from <= to <= |a| && to - from <= 16
    requires a[..from] == b[..from] && a[to..] == b[to..]
    requires BitRun(crc, a) == BitRun(crc, b)
    ensures a == b
  {
    hide Xor, BitRun, Steps, Pack;
    var wa, wb := a[from..to], b[from..to];
    assert a == (a[..from] + wa) + a[to..];
    assert b == (b[..from] + wb) + b[to..];
    var s := BitRun(crc, a[..from]);
    BitRunAppend(crc, a[..from] + wa, a[to..]);
    BitRunAppend(crc, b[..from] + wb, b[to..]);
    BitRunAppend(crc, a[..from], wa);
    BitRunAppend(crc, b[..from], wb);
    BitRunInjective(BitRun(s, wa), BitRun(s, wb), a[to..]);
    WindowAsWord(s, wa);
    WindowAsWord(s, wb);
    StepsInjective(Xor(s, Pack(wa)), Xor(s, Pack(wb)), |wa|);
    XorLaws(Pack(wa), Pack(wb), s);
    PackInjective(wa, wb);
  }

  /** A register value is determined by its bits and what remains above them. */
  lemma {:induction false} BitsDetermine(x: bv16, y: bv16, n: nat)
    requires Bits(x, n) == Bits(y, n) && Halves(x, n) == Halves(y, n)
    ensures x == y
    decreases n
  {
    hide FirstBit, Half;
    if n > 0 {
      assert Bits(x, n)[1..] == Bits(Half(x), n - 1) && Bits(y, n)[1..] == Bits(Half(y), n - 1);
      assert Bits(x, n)[0] == FirstBit(x) && Bits(y, n)[0] == FirstBit(y);
      BitsDetermine(Half(x), Half(y), n - 1);
      HalvesDetermine(x, y);
    }
  }

  lemma HalvesDetermine(x: bv16, y: bv16)
    requires Half(x) == Half(y) && FirstBit(x) == FirstBit(y)
    ensures x == y
  {
    BitOfFirst(x);
    BitOfFirst(y);
    Rejoin(x);
    Rejoin(y);
  }

  lemma Rejoin(x: bv16)
    ensures x == ((x >> 1) << 1) | (x & 1)
  {
  }

  lemma WidenInjective(a: Byte, b: Byte)
    requires Widen(a) == Widen(b)
    ensures a == b
  {
  }

  lemma {:induction false} FrameBitsInjective(f: Frame, g: Frame)
    requires |f| == |g| && FrameBits(f) == FrameBits(g)
    ensures f == g
  {
    hide Bits, Widen;
    if f != [] {
      var n := |f| - 1;
      FrameBitsLast(f);
      FrameBitsLast(g);
      FrameBitsInjective(f[..n], g[..n]);
      ByteRunsOut(f[n]);
      ByteRunsOut(g[n]);
      BitsDetermine(Widen(f[n]), Widen(g[n]), 8);
      WidenInjective(f[n], g[n]);
      assert f == f[..n] + [f[n]] && g == g[..n] + [g[n]];
    }
  }

  lemma FrameBitsLast(f: Frame)
    requires f != []
    ensures var n := |f| - 1;
      FrameBits(f)[..8 * n] == FrameBits(f[..n]) && FrameBits(f)[8 * n..] == Bits(Widen(f[n]), 8)
  {
    hide Bits, Widen;
  }

  /** Every error burst of at most 16 consecutive transmitted bits is detected, wherever it falls. */
  lemma BurstDetected(f: Frame, g: Frame, from: nat, to: nat)
    requires |f| == |g| && from <= to <= 8 * |f| && to - from <= 16
    requires FrameBits(f)[..from] == FrameBits(g)[..from] && FrameBits(f)[to..] == FrameBits(g)[to..]
    requires Value(f) == 0 && f != g
    ensures Value(g) != 0
  {
    hide FrameBits, BitRun, Run;
    if Value(g) == 0 {
      SerialForm(f);
      SerialForm(g);
      BurstBits(INITIAL, FrameBits(f), FrameBits(g), from, to);
      FrameBitsInjective(f, g);
    }
  }

  lemma {:induction false} FrameBitsSlice(f: Frame, n: nat)
    requires n <= |f|
    ensures FrameBits(f) == FrameBits(f[..n]) + FrameBits(f[n..])
  {
    hide Bits, Widen;
    if n == |f| {
      assert f[..n] == f;
    } else {
      var m := |f| - 1;
      FrameBitsSlice(f[..m], n);
      assert f[..m][..n] == f[..n] && f[..m][n..] == f[n..][..m - n];
      assert f[n..][m - n] == f[m];
    }
  }

  /** In particular a change confined to two adjacent bytes of a valid frame is rejected. */
  lemma AdjacentBytesDetected(f: Frame, g: Frame, k: nat)
    requires |f| == |g| && k + 2 <= |f|
    requires f[..k] == g[..k] && f[k + 2..] == g[k + 2..]
    requires Value(f) == 0 && f != g
    ensures Value(g) != 0
  {
    hide FrameBits, Run;
    FrameBitsSlice(f, k);
    FrameBitsSlice(g, k);
    FrameBitsSlice(f, k + 2);
    FrameBitsSlice(g, k + 2);
    assert FrameBits(f)[..8 * k] == FrameBits(f[..k]) && FrameBits(f)[8 * (k + 2)..] == FrameBits(f[k + 2..]);
    assert FrameBits(g)[..8 * k] == FrameBits(g[..k]) && FrameBits(g)[8 * (k + 2)..] == FrameBits(g[k + 2..]);
    BurstDetected(f, g, 8 * k, 8 * (k + 2));
  }

  // ---------------------------------------------------------------- errors of odd weight

  /** Whether an odd number of the low n bits of a register value are one. */
  function OddBits(x: bv16, n: nat): bool
    decreases n
  {
    if n == 0 then false else FirstBit(x) != OddBits(Half(x), n - 1)
  }

  function Odd(x: bv16): bool { OddBits(x, 16) }

  function Ones(bits: seq<bool>): nat {
    if bits == [] then 0 else (if bits[0] then 1 else 0) + Ones(bits[1..])
  }

  /** Number of positions in which two bit strings differ. */
  function Distance(a: seq<bool>, b: seq<bool>): nat
    requires |a| == |b|
  {
    if a == [] then 0 else (if a[0] != b[0] then 1 else 0) + Distance(a[1..], b[1..])
  }

  lemma FirstBitXor(a: bv16, b: bv16)
    ensures FirstBit(Xor(a, b)) == (FirstBit(a) != FirstBit(b))
  {
    hide FirstBit, Xor, Bit;
    FirstBitLinear(a, b);
    BitXor(FirstBit(a), FirstBit(b));
    BitInjective(FirstBit(Xor(a, b)), FirstBit(a) != FirstBit(b));
  }

  lemma BitXor(b: bool, c: bool)
    ensures Xor(Bit(b), Bit(c)) == Bit(b != c)
  {
  }

  lemma {:induction false} OddBitsLinear(a: bv16, b: bv16, n: nat)
    ensures OddBits(Xor(a, b), n) == (OddBits(a, n) != OddBits(b, n))
    decreases n
  {
    hide Xor, Half, FirstBit;
    if n > 0 {
      FirstBitXor(a, b);
      HalfLinear(a, b);
      OddBitsLinear(Half(a), Half(b), n - 1);
    }
  }

  lemma {:induction false} OddBitsAbove(x: bv16, m: nat, n: nat)
    requires Halves(x, m) == 0
    ensures OddBits(x, m + n) == OddBits(x, m)
    decreases m, n
  {
    hide Half, FirstBit;
    if m > 0 {
      OddBitsAbove(Half(x), m - 1, n);
    } else if n > 0 {
      ZeroHalves();
      OddBitsAbove(0, 0, n - 1);
    }
  }

  lemma ZeroHalves()
    ensures Half(0) == 0 && !FirstBit(0)
  {
  }

  lemma HalfFits(x: bv16)
    ensures Half(x) >> 15 == 0
  {
  }

  lemma HalvesOfTap()
    ensures Odd(0xA001)
  {
    assert OddBits(5, 3) == false;
    assert Half(0xA0) == 0x50 && Half(0x50) == 0x28 && Half(0x28) == 0x14 && Half(0x14) == 0xA && Half(0xA) == 5;
    assert OddBits(0x28, 6) == OddBits(0x14, 5) == OddBits(0xA, 4) == false;
    assert OddBits(0xA0, 8) == OddBits(0x50, 7) == false;
    assert Half(0x1400) == 0xA00 && Half(0xA00) == 0x500 && Half(0x500) == 0x280 && Half(0x280) == 0x140;
    assert Half(0x140) == 0xA0 && Half(0xA001) == 0x5000 && Half(0x5000) == 0x2800 && Half(0x2800) == 0x1400;
    assert OddBits(0x280, 10) == OddBits(0x140, 9) == false;
    assert OddBits(0xA00, 12) == OddBits(0x500, 11) == false;
    assert OddBits(0x2800, 14) == OddBits(0x1400, 13) == false;
    assert OddBits(0x5000, 15) == false;
  }

  lemma StepTaps(x: bv16)
    ensures BitStep(x) == if FirstBit(x) then Xor(Half(x), 0xA001) else Half(x)
  {
    LowBitIsBit(x);
  }

  lemma LowBitIsBit(x: bv16)
    ensures x & 1 == 0 || x & 1 == 1
  {
  }

  /** The generator has x + 1 as a factor: a shift keeps the parity of the register. */
  lemma StepParity(x: bv16)
    ensures Odd(BitStep(x)) == Odd(x)
  {
    hide BitStep, FirstBit, Half, Xor, OddBits, Halves;
    StepTaps(x);
    HalvesOfTap();
    OddBitsLinear(Half(x), 0xA001, 16);
    FifteenHalves(Half(x));
    HalfFits(x);
    OddBitsAbove(Half(x), 15, 1);
    OddBitsFirst(x);
  }

  lemma OddBitsFirst(x: bv16)
    ensures OddBits(x, 16) == (FirstBit(x) != OddBits(Half(x), 15))
  {
    hide FirstBit, Half;
  }

  lemma {:induction false} RunParity(crc: bv16, bits: seq<bool>)
    ensures Odd(BitRun(crc, bits)) == (Odd(crc) != (Ones(bits) % 2 == 1))
    decreases |bits|
  {
    hide Xor, BitStep, Bit, Odd;
    if bits != [] {
      var fed := Xor(crc, Bit(bits[0]));
      StepParity(fed);
      OddOfBit(crc, bits[0]);
      RunParity(BitStep(fed), bits[1..]);
    }
  }

  lemma OddOfBit(crc: bv16, b: bool)
    ensures Odd(Xor(crc, Bit(b))) == (Odd(crc) != b)
  {
    hide Xor, Bit, OddBits, FirstBit, Half, Halves;
    OddBitsLinear(crc, Bit(b), 16);
    BitFacts(b);
    OddBitsFirst(Bit(b));
    HalvesOfZero(0);
    OddOfZero();
  }

  lemma OddOfZero()
    ensures !OddBits(0, 15) && !Odd(0)
  {
    hide FirstBit, Half;
    assert Halves(0, 0) == 0;
    OddBitsAbove(0, 0, 15);
    OddBitsAbove(0, 0, 16);
  }

  lemma OddOfInitial()
    ensures !Odd(INITIAL)
  {
    assert Half(0xFFFF) == 0x7FFF && Half(0x7FFF) == 0x3FFF && Half(0x3FFF) == 0x1FFF && Half(0x1FFF) == 0xFFF;
    assert Half(0xFFF) == 0x7FF && Half(0x7FF) == 0x3FF && Half(0x3FF) == 0x1FF && Half(0x1FF) == 0xFF;
    assert Half(0xFF) == 0x7F && Half(0x7F) == 0x3F && Half(0x3F) == 0x1F && Half(0x1F) == 0xF;
    assert OddBits(0xF, 4) == false;
    assert OddBits(0x3F, 6) == !OddBits(0x1F, 5) == false;
    assert OddBits(0xFF, 8) == !OddBits(0x7F, 7) == false;
    assert OddBits(0x3FF, 10) == !OddBits(0x1FF, 9) == false;
    assert OddBits(0xFFF, 12) == !OddBits(0x7FF, 11) == false;
    assert OddBits(0x3FFF, 14) == !OddBits(0x1FFF, 13) == false;
    assert OddBits(0x7FFF, 15);
  }

  lemma {:induction false} DistanceParity(a: seq<bool>, b: seq<bool>)
    requires |a| == |b|
    ensures (Ones(a) + Ones(b) + Distance(a, b)) % 2 == 0
  {
    if a != [] {
      DistanceParity(a[1..], b[1..]);
    }
  }

  /** An accepted frame carries an even number of one bits. */
  lemma ValidFrameIsEven(f: Frame)
    requires Value(f) == 0
    ensures Ones(FrameBits(f)) % 2 == 0
  {
    hide Odd, FrameBits, BitRun, Run, Ones;
    SerialForm(f);
    RunParity(INITIAL, FrameBits(f));
    OddOfInitial();
    OddOfZero();
  }

  /** So any odd number of flipped bits, anywhere in the frame, is detected. */
  lemma OddErrorsDetected(f: Frame, g: Frame)
    requires |f| == |g| && Value(f) == 0
    requires Distance(FrameBits(f), FrameBits(g)) % 2 == 1
    ensures Value(g) != 0
  {
    hide FrameBits, Run, Ones, Distance;
    if Value(g) == 0 {
      ValidFrameIsEven(f);
      ValidFrameIsEven(g);
      DistanceParity(FrameBits(f), FrameBits(g));
    }
  }
}
