/** The CRC as the standard defines it: the remainder of a division of polynomials over GF(2), given by their
    coefficients, highest power first. The register loop of the code is one way to compute it. */
module CrcRemainder {
  import opened Crc

  function Zeros(n: nat): (r: seq<bool>)
    ensures |r| == n && forall i | 0 <= i < n :: !r[i]
  {
    seq(n, i => false)
  }

  /** x^16 + x^15 + x^2 + 1. */
  function Generator(): (r: seq<bool>)
    ensures |r| == 17
  {
    [true, true] + Zeros(12) + [true, false, true]
  }

  /** The sum of p and q, aligned at their highest powers. */
  function Plus(p: seq<bool>, q: seq<bool>): (r: seq<bool>)
    requires |q| <= |p|
    ensures |r| == |p|
  {
    seq(|p|, i requires 0 <= i < |p| => p[i] != (i < |q| && q[i]))
  }

  /** Long division by the generator: whatever has more than 16 coefficients is reduced from the front. */
  function Remainder(p: seq<bool>): seq<bool>
    decreases |p|
  {
    if |p| <= 16 then p
    else if p[0] then Remainder(Plus(p, Generator())[1..])
    else Remainder(p[1..])
  }

  function Complemented(p: seq<bool>, n: nat): (r: seq<bool>)
    requires n <= |p|
  {
    seq(|p|, i requires 0 <= i < |p| => p[i] != (i < n))
  }

  // ---------------------------------------------------------------- the register as coefficients

  lemma {:induction false} BitsXor(a: bv16, b: bv16, n: nat)
    ensures Bits(Xor(a, b), n) == Plus(Bits(a, n), Bits(b, n))
    decreases n
  {
    hide Xor, Half, FirstBit;
    if n > 0 {
      FirstBitXor(a, b);
      HalfLinear(a, b);
      BitsXor(Half(a), Half(b), n - 1);
    }
  }

  lemma {:induction false} BitsAbove(x: bv16, n: nat)
    ensures Bits(x, n + 1) == Bits(x, n) + [FirstBit(Halves(x, n))]
    decreases n
  {
    hide Half, FirstBit;
    if n > 0 {
      BitsAbove(Half(x), n - 1);
      assert Bits(x, n + 1) == [FirstBit(x)] + Bits(Half(x), n);
    } else {
      assert Bits(x, 1) == [FirstBit(x)] + Bits(Half(x), 0);
    }
  }

  /** Moving the register down multiplies by x. */
  lemma BitsOfHalf(x: bv16)
    ensures Bits(Half(x), 16) == Bits(x, 16)[1..] + [false]
  {
    BitsFirst(x, 15);
    hide Half, FirstBit, Bits, Halves;
    BitsAbove(Half(x), 15);
    FifteenHalves(Half(x));
    HalfFits(x);
    ZeroHalves();
  }

  lemma BitsFirst(x: bv16, n: nat)
    ensures Bits(x, n + 1) == [FirstBit(x)] + Bits(Half(x), n)
  {
    hide Half, FirstBit;
  }

  lemma EvenBit(x: bv16, y: bv16, n: nat)
    requires y == x >> 1 && x & 1 == 0
    ensures Bits(x, n + 1) == [false] + Bits(y, n)
  {
    BitsFirst(x, n);
    hide Bits;
  }

  lemma OddBit(x: bv16, y: bv16, n: nat)
    requires y == x >> 1 && x & 1 == 1
    ensures Bits(x, n + 1) == [true] + Bits(y, n)
  {
    BitsFirst(x, n);
    hide Bits;
  }

  /** The feedback constant of the code is the generator without its highest power. */
  lemma TapsAreGenerator()
    ensures Bits(0xA001, 16) == Generator()[1..]
  {
    hide Bits;
    OddBit(0xA001, 0x5000, 15);
    EvenBit(0x5000, 0x2800, 14);
    EvenBit(0x2800, 0x1400, 13);
    EvenBit(0x1400, 0xA00, 12);
    EvenBit(0xA00, 0x500, 11);
    EvenBit(0x500, 0x280, 10);
    EvenBit(0x280, 0x140, 9);
    EvenBit(0x140, 0xA0, 8);
    EvenBit(0xA0, 0x50, 7);
    EvenBit(0x50, 0x28, 6);
    EvenBit(0x28, 0x14, 5);
    EvenBit(0x14, 0xA, 4);
    EvenBit(0xA, 5, 3);
    OddBit(5, 2, 2);
    EvenBit(2, 1, 1);
    OddBit(1, 0, 0);
    assert Bits(0xA0, 8) == [false, false, false, false, false, true, false, true] + Bits(0, 0);
    assert Bits(0xA001, 16) == [true, false, false, false, false, false, false, false] + Bits(0xA0, 8);
  }

  lemma PresetIsOnes()
    ensures forall i | 0 <= i < 16 :: Bits(INITIAL, 16)[i]
  {
    hide Bits;
    OddBit(0xFFFF, 0x7FFF, 15);
    OddBit(0x7FFF, 0x3FFF, 14);
    OddBit(0x3FFF, 0x1FFF, 13);
    OddBit(0x1FFF, 0xFFF, 12);
    OddBit(0xFFF, 0x7FF, 11);
    OddBit(0x7FF, 0x3FF, 10);
    OddBit(0x3FF, 0x1FF, 9);
    OddBit(0x1FF, 0xFF, 8);
    OddBit(0xFF, 0x7F, 7);
    OddBit(0x7F, 0x3F, 6);
    OddBit(0x3F, 0x1F, 5);
    OddBit(0x1F, 0xF, 4);
    OddBit(0xF, 7, 3);
    OddBit(7, 3, 2);
    OddBit(3, 1, 1);
    OddBit(1, 0, 0);
    assert Bits(0xFF, 8) == [true, true, true, true, true, true, true, true] + Bits(0, 0);
    assert Bits(INITIAL, 16) == [true, true, true, true, true, true, true, true] + Bits(0xFF, 8);
  }

  // ---------------------------------------------------------------- one bit

  /** One clock of the register, in coefficients. */
  lemma ClockIs(crc: bv16, b: bool)
    ensures var r := Bits(crc, 16);
      var moved := r[1..] + [false];
      Bits(BitStep(Xor(crc, Bit(b))), 16) == if b != r[0] then Plus(moved, Generator()[1..]) else moved
  {
    var fed := Xor(crc, Bit(b));
    FirstBitXor(crc, Bit(b));
    HalfLinear(crc, Bit(b));
    BitFacts(b);
    XorUnit(Half(crc));
    StepTaps(fed);
    BitsOfHalf(crc);
    BitsXor(Half(crc), 0xA001, 16);
    TapsAreGenerator();
    BitsFirst(crc, 15);
    hide *;
  }

  /** One step of the division of a dividend to whose front r has been added. */
  lemma DivisionStep(b: bool, rest: seq<bool>, r: seq<bool>)
    requires |r| == 16 && |rest| >= 16
    ensures var moved := r[1..] + [false];
      Remainder(Plus([b] + rest, r))
      == Remainder(Plus(rest, if b != r[0] then Plus(moved, Generator()[1..]) else moved))
  {
    var p := Plus([b] + rest, r);
    var moved := r[1..] + [false];
    assert p[0] == (b != r[0]);
    if b != r[0] {
      assert Plus(p, Generator())[1..] == Plus(rest, Plus(moved, Generator()[1..]));
    } else {
      assert p[1..] == Plus(rest, moved);
    }
  }

  lemma {:induction false} RegisterIsRemainder(crc: bv16, bits: seq<bool>)
    ensures Bits(BitRun(crc, bits), 16) == Remainder(Plus(bits + Zeros(16), Bits(crc, 16)))
    decreases |bits|
  {
    hide BitStep, Bit, Xor, Bits;
    var r := Bits(crc, 16);
    if bits == [] {
      assert Plus(bits + Zeros(16), r) == r;
    } else {
      var rest := bits[1..] + Zeros(16);
      assert bits + Zeros(16) == [bits[0]] + rest;
      ClockIs(crc, bits[0]);
      DivisionStep(bits[0], rest, r);
      RegisterIsRemainder(BitStep(Xor(crc, Bit(bits[0]))), bits[1..]);
    }
  }

  /** For every frame, the check value is the remainder of the frame's bits followed by 16 zeros, the first 16
      complemented. */
  lemma ValueIsRemainder(data: Frame)
    ensures Bits(Value(data), 16) == Remainder(Complemented(FrameBits(data) + Zeros(16), 16))
  {
    var dividend := FrameBits(data) + Zeros(16);
    SerialForm(data);
    RegisterIsRemainder(INITIAL, FrameBits(data));
    PresetIsOnes();
    hide Bits, FrameBits, Value, Remainder;
    assert Plus(dividend, Bits(INITIAL, 16)) == Complemented(dividend, 16);
  }
}
