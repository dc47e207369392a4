/** How far apart two flipped bits can be before the check misses them: shifts of the register return to where they
    began after 32767 of them and not before, which is the order of the generator's primitive factor. */
module CrcOrder {
  import opened Crc

  /** The register that stands for the constant polynomial one; a shift multiplies by x. */
  const ONE: bv16 := 0x8000

  const ORDER: nat := 32767

  // ---------------------------------------------------------------- products modulo the generator

  function Term(a: bv16, b: bv16): bv16 { if b & 0x8000 != 0 then a else 0 }

  function StepFour(a: bv16): bv16 { BitStep(BitStep(BitStep(BitStep(a)))) }

  /** a times the first four coefficients of b. */
  function Four(a: bv16, b: bv16): bv16 {
    Xor(Xor(Term(a, b), Term(BitStep(a), b << 1)),
        Xor(Term(BitStep(BitStep(a)), b << 2), Term(BitStep(BitStep(BitStep(a))), b << 3)))
  }

  function Product(a: bv16, b: bv16): bv16 {
    Xor(Xor(Four(a, b), Four(StepFour(a), b << 4)),
        Xor(Four(StepFour(StepFour(a)), b << 8), Four(StepFour(StepFour(StepFour(a))), b << 12)))
  }

  lemma Commutes(a: bv16, n: nat)
    ensures Steps(BitStep(a), n) == BitStep(Steps(a, n))
  {
    hide BitStep;
    StepsAdd(a, n, 1);
    assert Steps(Steps(a, n), 1) == Steps(BitStep(Steps(a, n)), 0);
    assert Steps(a, n + 1) == Steps(BitStep(a), n);
  }

  lemma FourCommutes(a: bv16, n: nat)
    ensures Steps(StepFour(a), n) == StepFour(Steps(a, n))
  {
    hide BitStep, Steps;
    Commutes(a, n);
    Commutes(BitStep(a), n);
    Commutes(BitStep(BitStep(a)), n);
    Commutes(BitStep(BitStep(BitStep(a))), n);
  }

  lemma TermSteps(a: bv16, b: bv16, n: nat)
    ensures Steps(Term(a, b), n) == Term(Steps(a, n), b)
  {
    hide Steps;
    StepsZero(n);
  }

  lemma FourSteps(a: bv16, b: bv16, n: nat)
    ensures Steps(Four(a, b), n) == Four(Steps(a, n), b)
  {
    hide BitStep, Steps, Term, Xor;
    var a1, a2, a3 := BitStep(a), BitStep(BitStep(a)), BitStep(BitStep(BitStep(a)));
    Commutes(a, n);
    Commutes(a1, n);
    Commutes(a2, n);
    TermSteps(a, b, n);
    TermSteps(a1, b << 1, n);
    TermSteps(a2, b << 2, n);
    TermSteps(a3, b << 3, n);
    StepsLinear(Term(a, b), Term(a1, b << 1), n);
    StepsLinear(Term(a2, b << 2), Term(a3, b << 3), n);
    StepsLinear(Xor(Term(a, b), Term(a1, b << 1)), Xor(Term(a2, b << 2), Term(a3, b << 3)), n);
  }

  /** Shifting a product shifts its first factor. */
  lemma ProductSteps(a: bv16, b: bv16, n: nat)
    ensures Steps(Product(a, b), n) == Product(Steps(a, n), b)
  {
    hide StepFour, Steps, Four, Xor;
    var a1, a2, a3 := StepFour(a), StepFour(StepFour(a)), StepFour(StepFour(StepFour(a)));
    FourCommutes(a, n);
    FourCommutes(a1, n);
    FourCommutes(a2, n);
    FourSteps(a, b, n);
    FourSteps(a1, b << 4, n);
    FourSteps(a2, b << 8, n);
    FourSteps(a3, b << 12, n);
    StepsLinear(Four(a, b), Four(a1, b << 4), n);
    StepsLinear(Four(a2, b << 8), Four(a3, b << 12), n);
    StepsLinear(Xor(Four(a, b), Four(a1, b << 4)), Xor(Four(a2, b << 8), Four(a3, b << 12)), n);
  }

  // ---------------------------------------------------------------- powers of x

  /** d is the square of c. */
  predicate Squared(c: bv16, d: bv16) {
    Product(ONE, c) == c && Product(c, c) == d
  }

  lemma Double(n: nat, c: bv16, d: bv16)
    requires Steps(ONE, n) == c && Squared(c, d)
    ensures Steps(ONE, 2 * n) == d
  {
    hide Steps, Product;
    StepsAdd(ONE, n, n);
    ProductSteps(ONE, c, n);
  }

  lemma DoubleAndOne(n: nat, c: bv16, d: bv16)
    requires Steps(ONE, n) == c && Squared(c, d)
    ensures Steps(ONE, 2 * n + 1) == BitStep(d)
  {
    hide Steps, Squared, BitStep;
    Double(n, c, d);
    OneMore(2 * n, d);
  }

  lemma OneMore(n: nat, c: bv16)
    requires Steps(ONE, n) == c
    ensures Steps(ONE, n + 1) == BitStep(c)
  {
    hide BitStep;
    Commutes(ONE, n);
  }

  lemma EarlyPowers()
    ensures Steps(ONE, 8) == 0x80 && Steps(ONE, 9) == 0x40 && Steps(ONE, 13) == 0x4 && Steps(ONE, 15) == 1
  {
    EightSteps(ONE);
    ShiftedPowers();
    hide Steps, BitStep;
    OneMore(8, 0x80);
    OneMore(9, 0x40);
    OneMore(10, 0x20);
    OneMore(11, 0x10);
    OneMore(12, 0x8);
    OneMore(13, 0x4);
    OneMore(14, 0x2);
  }

  lemma ShiftedPowers()
    ensures BitStep(BitStep(BitStep(BitStep(BitStep(BitStep(BitStep(BitStep(ONE)))))))) == 0x80
    ensures BitStep(0x80) == 0x40 && BitStep(0x40) == 0x20 && BitStep(0x20) == 0x10 && BitStep(0x10) == 0x8
    ensures BitStep(0x8) == 0x4 && BitStep(0x4) == 0x2 && BitStep(0x2) == 1
  {
  }

  lemma Squares217()
    ensures Squared(0x4, 0xc019) && Squared(0xc00d, 0xc079) && Squared(0xc079, 0xdfe1)
    ensures Squared(0xdfe1, 0x7caa)
    ensures BitStep(0xc019) == 0xc00d && BitStep(0x7caa) == 0x3e55
  {
  }

  lemma Power217()
    ensures Steps(ONE, 217) == 0x3e55
  {
    hide Steps, Squared, BitStep;
    EarlyPowers();
    Squares217();
    DoubleAndOne(13, 0x4, 0xc019);
    Double(27, 0xc00d, 0xc079);
    Double(54, 0xc079, 0xdfe1);
    DoubleAndOne(108, 0xdfe1, 0x7caa);
  }

  lemma Squares1057()
    ensures Squared(0x80, 0xa001) && Squared(0xa001, 0xe801) && Squared(0xd401, 0xc221)
    ensures Squared(0xc221, 0x608) && Squared(0x608, 0xc049) && Squared(0xc049, 0xd861)
    ensures Squared(0xd861, 0xdc81)
    ensures BitStep(0xe801) == 0xd401 && BitStep(0xdc81) == 0xce41
  {
  }

  lemma Power1057()
    ensures Steps(ONE, 1057) == 0xce41
  {
    hide Steps, Squared, BitStep;
    EarlyPowers();
    Squares1057();
    Double(8, 0x80, 0xa001);
    DoubleAndOne(16, 0xa001, 0xe801);
    Double(33, 0xd401, 0xc221);
    Double(66, 0xc221, 0x608);
    Double(132, 0x608, 0xc049);
    Double(264, 0xc049, 0xd861);
    DoubleAndOne(528, 0xd861, 0xdc81);
  }

  lemma Squares73()
    ensures Squared(0x40, 0xd801) && Squared(0xd801, 0xc281) && Squared(0xc281, 0x6008)
    ensures BitStep(0x6008) == 0x3004
  {
  }

  lemma Squares585()
    ensures Squared(0x3004, 0xca19) && Squared(0xca19, 0xc169) && Squared(0xc169, 0x1e62)
    ensures BitStep(0x1e62) == 0xf31
  {
  }

  lemma Squares4681()
    ensures Squared(0xf31, 0x672b) && Squared(0x672b, 0x8e4c) && Squared(0x8e4c, 0x58d1)
    ensures BitStep(0x58d1) == 0x8c69
  {
  }

  lemma Power4681()
    ensures Steps(ONE, 4681) == 0x8c69
  {
    hide Steps, Squared, BitStep;
    EarlyPowers();
    Squares73();
    Squares585();
    Squares4681();
    Double(9, 0x40, 0xd801);
    Double(18, 0xd801, 0xc281);
    DoubleAndOne(36, 0xc281, 0x6008);
    Double(73, 0x3004, 0xca19);
    Double(146, 0xca19, 0xc169);
    DoubleAndOne(292, 0xc169, 0x1e62);
    Double(585, 0xf31, 0x672b);
    Double(1170, 0x672b, 0x8e4c);
    DoubleAndOne(2340, 0x8e4c, 0x58d1);
  }

  lemma Squares32768()
    ensures Squared(0x80, 0xa001) && Squared(0xa001, 0xe801) && Squared(0xe801, 0xc881)
    ensures Squared(0xc881, 0x6080) && Squared(0x6080, 0x8801) && Squared(0x8801, 0xe081)
    ensures Squared(0xe081, 0x6800) && Squared(0x6800, 0x2880) && Squared(0x2880, 0xa881)
    ensures Squared(0xa881, 0x4880) && Squared(0x4880, 0x8081) && Squared(0x8081, 0x4000)
  {
  }

  lemma Power32768()
    ensures Steps(ONE, 32768) == 0x4000
  {
    hide Steps, Squared, BitStep;
    EarlyPowers();
    Squares32768();
    Double(8, 0x80, 0xa001);
    Double(16, 0xa001, 0xe801);
    Double(32, 0xe801, 0xc881);
    Double(64, 0xc881, 0x6080);
    Double(128, 0x6080, 0x8801);
    Double(256, 0x8801, 0xe081);
    Double(512, 0xe081, 0x6800);
    Double(1024, 0x6800, 0x2880);
    Double(2048, 0x2880, 0xa881);
    Double(4096, 0xa881, 0x4880);
    Double(8192, 0x4880, 0x8081);
    Double(16384, 0x8081, 0x4000);
  }

  // ---------------------------------------------------------------- the order

  lemma {:induction false} Period(d: nat, k: nat)
    requires Steps(ONE, d) == ONE
    ensures Steps(ONE, d * k) == ONE
    decreases k
  {
    hide BitStep, Steps;
    if k == 0 {
      NoSteps(ONE);
    } else {
      Period(d, k - 1);
      StepsAdd(ONE, d * (k - 1), d);
      assert d * (k - 1) + d == d * k;
    }
  }

  lemma NoSteps(a: bv16)
    ensures Steps(a, 0) == a
  {
  }

  /** What is left of a period after whole shorter ones is a period. */
  lemma Remainder(d: nat, n: nat)
    requires d > 0 && Steps(ONE, d) == ONE && Steps(ONE, n) == ONE
    ensures Steps(ONE, n % d) == ONE
  {
    hide Steps;
    Period(d, n / d);
    StepsAdd(ONE, d * (n / d), n % d);
  }

  /** A factor of the order below its square root is one or one of the three primes. */
  lemma SmallFactor(d: nat, k: nat)
    requires d * k == 32767 && 1 <= d <= 181
    ensures d == 1 || d == 7 || d == 31 || d == 151
  {
  }

  /** A proper divisor of 32767 = 7 * 31 * 151 divides what is left when one of the primes is taken out. */
  lemma ProperDivisor(d: nat)
    requires 0 < d < ORDER && ORDER % d == 0
    ensures 217 % d == 0 || 1057 % d == 0 || 4681 % d == 0
  {
    var k := ORDER / d;
    Whole(ORDER, d);
    if d <= 181 {
      SmallFactor(d, k);
    } else {
      Cofactor(d, k);
      SmallFactor(k, d);
    }
  }

  lemma Whole(n: nat, d: nat)
    requires d > 0 && n % d == 0
    ensures n == d * (n / d)
  {
  }

  lemma Cofactor(d: nat, k: nat)
    requires d >= 182 && d * k == 32767
    ensures k <= 181 && k * d == 32767
  {
    AtLeast(d, k);
  }

  lemma AtLeast(d: nat, k: nat)
    requires d >= 182
    ensures d * k >= 182 * k
  {
    assert d * k == 182 * k + (d - 182) * k;
  }

  /** No fewer than 32767 shifts return the register. */
  lemma {:induction false} NoShorterPeriod(d: nat)
    requires 0 < d < ORDER
    ensures Steps(ONE, d) != ONE
    decreases d
  {
    hide Steps;
    if Steps(ONE, d) == ONE {
      WholePeriod();
      Remainder(d, ORDER);
      if ORDER % d != 0 {
        NoShorterPeriod(ORDER % d);
      } else {
        ProperDivisor(d);
        Power217();
        Power1057();
        Power4681();
        Multiple(d, 217);
        Multiple(d, 1057);
        Multiple(d, 4681);
      }
    }
  }

  lemma Multiple(d: nat, n: nat)
    requires d > 0 && Steps(ONE, d) == ONE
    ensures n % d == 0 ==> Steps(ONE, n) == ONE
  {
    hide Steps;
    Period(d, n / d);
  }

  lemma WholePeriod()
    ensures Steps(ONE, ORDER) == ONE
  {
    hide Steps, BitStep;
    Power32768();
    OneMore(ORDER, Steps(ONE, ORDER));
    FirstPower();
    StepInjective(Steps(ONE, ORDER), ONE);
  }

  lemma FirstPower()
    ensures BitStep(ONE) == 0x4000
  {
  }

  /** Shifts return the register exactly at the multiples of 32767. */
  lemma PeriodIff(n: nat)
    ensures Steps(ONE, n) == ONE <==> n % ORDER == 0
  {
    hide Steps;
    WholePeriod();
    Multiple(ORDER, n);
    if Steps(ONE, n) == ONE && n % ORDER != 0 {
      Remainder(ORDER, n);
      NoShorterPeriod(n % ORDER);
    }
  }

  // ---------------------------------------------------------------- two flipped bits

  /** The same bits keep two registers apart by shifting what separates them. */
  lemma {:induction false} Apart(s: bv16, t: bv16, bits: seq<bool>)
    ensures Xor(BitRun(s, bits), BitRun(t, bits)) == Steps(Xor(s, t), |bits|)
    decreases |bits|
  {
    hide BitStep, Xor, Bit;
    if bits != [] {
      OneBitApart(s, t, Bit(bits[0]), Bit(bits[0]));
      XorLaws(Bit(bits[0]), Bit(bits[0]), 0);
      XorLaws(Xor(s, t), 0, 0);
      Apart(BitStep(Xor(s, Bit(bits[0]))), BitStep(Xor(t, Bit(bits[0]))), bits[1..]);
    }
  }

  /** After one bit each, what separates two registers is shifted, with what separates the bits. */
  lemma OneBitApart(s: bv16, t: bv16, b: bv16, c: bv16)
    ensures Xor(BitStep(Xor(s, b)), BitStep(Xor(t, c))) == BitStep(Xor(Xor(s, t), Xor(b, c)))
  {
    hide BitStep, Xor;
    StepLinear(Xor(s, b), Xor(t, c));
    Exchange(s, t, b, c);
  }

  lemma Exchange(s: bv16, t: bv16, b: bv16, c: bv16)
    ensures Xor(Xor(s, b), Xor(t, c)) == Xor(Xor(s, t), Xor(b, c))
  {
    hide Xor;
    XorAssociative(s, b, Xor(t, c));
    XorAssociative(b, t, c);
    XorCommutes(b, t);
    XorAssociative(t, b, c);
    XorAssociative(s, t, Xor(b, c));
  }

  lemma XorCommutes(a: bv16, b: bv16)
    ensures Xor(a, b) == Xor(b, a)
  {
  }

  lemma Flipped(b: bool)
    ensures Xor(Bit(b), Bit(!b)) == 1
  {
  }

  /** Two bit sequences that differ exactly at two places lead to the same register exactly if the places are a
      multiple of 32767 apart. */
  lemma TwoFlips(crc: bv16, front: seq<bool>, x: bool, between: seq<bool>, y: bool, back: seq<bool>)
    ensures BitRun(crc, front + [x] + between + [y] + back) == BitRun(crc, front + [!x] + between + [!y] + back)
      <==> (|between| + 1) % ORDER == 0
  {
    hide BitRun, BitStep, Xor, Bit, Steps;
    var s := BitRun(crc, front);
    var s1, t1 := BitStep(Xor(s, Bit(x))), BitStep(Xor(s, Bit(!x)));
    var s2, t2 := BitRun(s1, between), BitRun(t1, between);
    var s3, t3 := BitStep(Xor(s2, Bit(y))), BitStep(Xor(t2, Bit(!y)));
    FiveParts(crc, front, x, between, y, back);
    FiveParts(crc, front, !x, between, !y, back);
    var d := |between| + 1;
    OneBitApart(s, s, Bit(x), Bit(!x));
    Flipped(x);
    XorLaws(s, s, 0);
    XorZeroLeft(1);
    Apart(s1, t1, between);
    AfterFlip(|between|);
    OneBitApart(s2, t2, Bit(y), Bit(!y));
    Flipped(y);
    Apart(s3, t3, back);
    SameIff(s3, t3, back);
    StepZeroIff(Xor(Steps(1, d), 1));
    XorLaws(s3, t3, 0);
    XorLaws(Steps(1, d), 1, 0);
    FromOne(d);
    PeriodIff(d);
  }

  lemma FiveParts(crc: bv16, front: seq<bool>, x: bool, between: seq<bool>, y: bool, back: seq<bool>)
    ensures BitRun(crc, front + [x] + between + [y] + back) ==
      BitRun(BitStep(Xor(BitRun(BitStep(Xor(BitRun(crc, front), Bit(x))), between), Bit(y))), back)
  {
    hide BitRun, BitStep, Xor, Bit;
    BitRunAppend(crc, front + [x] + between + [y], back);
    BitRunAppend(crc, front + [x] + between, [y]);
    BitRunAppend(crc, front + [x], between);
    BitRunAppend(crc, front, [x]);
    OneBit(BitRun(crc, front), x);
    OneBit(BitRun(BitStep(Xor(BitRun(crc, front), Bit(x))), between), y);
  }

  lemma OneBit(crc: bv16, b: bool)
    ensures BitRun(crc, [b]) == BitStep(Xor(crc, Bit(b)))
  {
    hide BitStep, Xor, Bit;
    assert [b][1..] == [];
  }

  lemma AfterFlip(n: nat)
    ensures Steps(BitStep(1), n) == Steps(1, n + 1)
  {
    hide BitStep;
  }

  lemma SameIff(s: bv16, t: bv16, bits: seq<bool>)
    ensures BitRun(s, bits) == BitRun(t, bits) <==> s == t
  {
    hide BitStep, Xor, Bit;
    if BitRun(s, bits) == BitRun(t, bits) {
      BitRunInjective(s, t, bits);
    }
  }

  lemma StepZeroIff(a: bv16)
    ensures BitStep(a) == 0 <==> a == 0
  {
    ZeroStep();
    hide BitStep;
    if BitStep(a) == 0 {
      StepInjective(a, 0);
    }
  }

  lemma ZeroStep()
    ensures BitStep(0) == 0
  {
  }

  /** The last coefficient is the fifteenth power of x. */
  lemma FromOne(d: nat)
    ensures Steps(1, d) == 1 <==> Steps(ONE, d) == ONE
  {
    hide Steps;
    EarlyPowers();
    StepsAdd(ONE, 15, d);
    StepsAdd(ONE, d, 15);
    if Steps(1, d) == 1 {
      StepsInjective(Steps(ONE, d), ONE, 15);
    }
  }

  /** Two frames differ exactly in two bits. */
  ghost predicate DifferAt(a: seq<bool>, b: seq<bool>, i: nat, j: nat)
    requires |a| == |b| && i < j < |a|
  {
    forall k | 0 <= k < |a| :: a[k] != b[k] <==> k == i || k == j
  }

  /** Two flipped bits of a valid frame are detected, however long the frame, if and only if their distance is not a
      multiple of 32767 bits. */
  lemma TwoBitsDetectedIff(f: Frame, g: Frame, i: nat, j: nat)
    requires |f| == |g| && i < j < 8 * |f| && DifferAt(FrameBits(f), FrameBits(g), i, j)
    requires Value(f) == 0
    ensures Value(g) != 0 <==> (j - i) % ORDER != 0
  {
    hide FrameBits, BitRun, Value, DifferAt;
    SerialForm(f);
    SerialForm(g);
    var a, b := FrameBits(f), FrameBits(g);
    SplitAt(a, i, j);
    SplitAt(b, i, j);
    SameElsewhere(a, b, i, j);
    TwoFlips(INITIAL, a[..i], a[i], a[i + 1..j], a[j], a[j + 1..]);
  }

  lemma SplitAt(a: seq<bool>, i: nat, j: nat)
    requires i < j < |a|
    ensures a == a[..i] + [a[i]] + a[i + 1..j] + [a[j]] + a[j + 1..]
  {
    assert a[..j] == a[..i] + [a[i]] + a[i + 1..j];
    assert a == a[..j] + [a[j]] + a[j + 1..];
  }

  lemma SameElsewhere(a: seq<bool>, b: seq<bool>, i: nat, j: nat)
    requires |a| == |b| && i < j < |a| && DifferAt(a, b, i, j)
    ensures a[..i] == b[..i] && a[i + 1..j] == b[i + 1..j] && a[j + 1..] == b[j + 1..]
    ensures b[i] == !a[i] && b[j] == !a[j]
  {
  }
}
