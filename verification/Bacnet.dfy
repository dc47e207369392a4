/** The BACnet application-value codec and the ReadProperty / WriteProperty framing
    (ANSI/ASHRAE 135, clauses 20.2.1 and 20.2.3 to 20.2.7). Bit operations on tag octets are written
    arithmetically: t >> 4 is t / 16, t & 0x08 is (t / 8) % 2, t & 0x07 is t % 8. */
module Bacnet {
  import opened Bytes
  import T = Text

  /** Floating-point values are their bit patterns. */
  datatype Value =
    | Boolean(b: bool)
    | Real(bits32: Uint32)
    | Double(bits64: Uint64)
    | Unsigned(u: Uint64)
    | Signed(i: Int64)
    | Text(chars: seq<Byte>)

  datatype Error =
    | EmptyValue | ContextTag | BadBoolean | BadLengthMarker | NoExtendedLength | LongExtendedLength
    | BadUnsigned | BadSigned | BadReal | BadDouble | BadString | UnsupportedTag
    | MissingField(field: nat) | TruncatedFieldLength | BadFieldLength(field: nat) | TruncatedField(field: nat)
    | NoOpeningTag | NoClosingTag | TrailingData
    | UnsupportedValue | UnsupportedObjectType
    | ShortFrame | BadBvlc | BadBvlcLength | BadNpdu | BadService | ErrorPdu | UnsupportedPdu

  datatype Parsed = Parsed(value: Value, consumed: nat)

  // ---------------------------------------------------------------- integers

  /** The shortest unsigned big-endian form. */
  function EncodeUint(v: nat): (r: seq<Byte>)
    ensures |r| > 0
  {
    if v < 256 then [v] else EncodeUint(v / 256) + [v % 256]
  }

  /** The shortest two's complement big-endian form. */
  function EncodeInt(v: int): (r: seq<Byte>)
    ensures |r| > 0
    decreases if v < 0 then -v else v
  {
    if -128 <= v < 128 then [v % 256] else EncodeInt(v / 256) + [v % 256]
  }

  /** Two's complement reading of a nonempty byte string. */
  function SignedOf(bs: seq<Byte>): int
    requires bs != []
  {
    if bs[0] >= 128 then FromBig(bs) - Pow256(|bs|) else FromBig(bs)
  }

  method EncodeUint64(v: Uint64) returns (r: seq<Byte>)
    ensures r == EncodeUint(v)
  {
    if v == 0 {
      return [0];
    }
    hide BigEndian, FromBig, EncodeUint;
    var buf := BigEndian(v, 8);
    EightBytes(v);
    assert buf[0..] == buf;
    var i := 0;
    while i < |buf| - 1 && buf[i] == 0
      invariant 0 <= i <= 7
      invariant FromBig(buf[i..]) == v
    {
      DropZero(buf, i);
      i := i + 1;
    }
    r := buf[i..];
    UnsignedCanonical(r);
  }

  lemma EightBytes(v: Uint64)
    ensures |BigEndian(v, 8)| == 8 && FromBig(BigEndian(v, 8)) == v
  {
    hide BigEndian, FromBig;
    Powers();
    ReadsBack(v, 8);
  }

  lemma DropZero(buf: seq<Byte>, i: nat)
    requires i < |buf| && buf[i] == 0
    ensures FromBig(buf[i + 1..]) == FromBig(buf[i..])
  {
    hide FromBig;
    assert buf[i..] == [0] + buf[i + 1..];
    LeadingZero(buf[i + 1..]);
  }

  method EncodeInt64(v: Int64) returns (r: seq<Byte>)
    ensures r == EncodeInt(v)
  {
    var buf := BigEndian(if v < 0 then v + 0x1_0000_0000_0000_0000 else v, 8);
    Powers();
    ReadsBack(if v < 0 then v + 0x1_0000_0000_0000_0000 else v, 8);
    SignedWord(buf);
    if v >= 0 {
      var i := 0;
      while i < |buf| - 1 && buf[i] == 0 && buf[i + 1] / 128 == 0
        invariant 0 <= i <= 7
        invariant SignedOf(buf[i..]) == v
      {
        SignPadding(buf[i..]);
        assert buf[i..][1..] == buf[i + 1..];
        i := i + 1;
      }
      r := buf[i..];
      if |r| >= 2 && r[0] == 255 && r[1] >= 128 {
        NegativeTop(r);
      }
      SignedCanonical(r);
      return;
    }
    var i := 0;
    while i < |buf| - 1 && buf[i] == 255 && buf[i + 1] / 128 == 1
      invariant 0 <= i <= 7
      invariant SignedOf(buf[i..]) == v
    {
      SignPadding(buf[i..]);
      assert buf[i..][1..] == buf[i + 1..];
      i := i + 1;
    }
    r := buf[i..];
    if |r| >= 2 && r[0] == 0 {
      PositiveTop(r);
    }
    SignedCanonical(r);
  }

  lemma {:induction false} TopByte(bs: seq<Byte>)
    requires bs != []
    ensures FromBig(bs) == bs[0] * Pow256(|bs| - 1) + FromBig(bs[1..])
    ensures FromBig(bs[1..]) < Pow256(|bs| - 1)
  {
    var n := |bs| - 1;
    FromBigBound(bs[1..]);
    if n == 0 {
      assert FromBig(bs) == FromBig(bs[..0]) * 256 + bs[0];
    } else {
      TopByte(bs[..n]);
      assert bs[..n][1..] == bs[1..][..n - 1];
      Regroup(bs[0], Pow256(n - 1), FromBig(bs[1..][..n - 1]));
    }
  }

  lemma Regroup(t: int, p: int, q: int)
    ensures (t * p + q) * 256 == t * (256 * p) + q * 256
  {
  }

  /** The top bit decides the sign. */
  lemma SignedWord(bs: seq<Byte>)
    requires bs != []
    ensures FromBig(bs) < Pow256(|bs|)
    ensures bs[0] >= 128 <==> 2 * FromBig(bs) >= Pow256(|bs|)
  {
    TopByte(bs);
    FromBigBound(bs);
    HalfPlane(bs[0], Pow256(|bs| - 1), FromBig(bs[1..]));
  }

  lemma HalfPlane(t: int, p: int, q: int)
    requires 0 <= q < p
    ensures t >= 128 <==> 2 * (t * p + q) >= 256 * p
  {
    if t >= 128 {
      Multiples(128, t, p);
    } else {
      Multiples(t, 127, p);
    }
  }

  lemma Multiples(a: int, b: int, p: int)
    requires a <= b && 0 <= p
    ensures a * p <= b * p
  {
  }

  lemma NegativeTop(bs: seq<Byte>)
    requires bs != [] && bs[0] >= 128
    ensures SignedOf(bs) < 0
  {
    FromBigBound(bs);
  }

  lemma PositiveTop(bs: seq<Byte>)
    requires bs != [] && bs[0] < 128
    ensures SignedOf(bs) >= 0
  {
  }

  /** A byte that only repeats the sign adds nothing. */
  lemma SignPadding(bs: seq<Byte>)
    requires |bs| >= 2
    requires (bs[0] == 0 && bs[1] < 128) || (bs[0] == 255 && bs[1] >= 128)
    ensures SignedOf(bs[1..]) == SignedOf(bs)
  {
    TopByte(bs);
  }

  predicate UnsignedMinimal(bs: seq<Byte>) {
    |bs| >= 1 && (|bs| > 1 ==> bs[0] != 0)
  }

  predicate SignedMinimal(bs: seq<Byte>) {
    && |bs| >= 1
    && (|bs| > 1 ==> !(bs[0] == 0 && bs[1] < 128) && !(bs[0] == 255 && bs[1] >= 128))
  }

  /** A byte string with no redundant leading byte is the canonical form of what it denotes. */
  lemma {:induction false} UnsignedCanonical(bs: seq<Byte>)
    requires UnsignedMinimal(bs)
    ensures EncodeUint(FromBig(bs)) == bs
  {
    hide FromBig;
    var n := |bs| - 1;
    assert bs == bs[..n] + [bs[n]];
    UnsignedFront(bs);
    if n == 0 {
      assert bs[..0] == [];
      NoBytes();
    } else {
      UnsignedCanonical(bs[..n]);
      LastByte(FromBig(bs[..n]), bs[n]);
      LeadingByte(bs[..n]);
    }
  }

  lemma UnsignedFront(bs: seq<Byte>)
    requires bs != []
    ensures FromBig(bs) == FromBig(bs[..|bs| - 1]) * 256 + bs[|bs| - 1]
  {
  }

  lemma NoBytes()
    ensures FromBig([]) == 0
  {
  }

  lemma LeadingByte(bs: seq<Byte>)
    requires bs != [] && bs[0] != 0
    ensures FromBig(bs) >= 1
  {
    TopByte(bs);
    hide FromBig, Pow256;
    Multiples(1, bs[0], Pow256(|bs| - 1));
  }

  lemma LastByte(s: int, last: Byte)
    ensures (s * 256 + last) / 256 == s && (s * 256 + last) % 256 == last
  {
  }

  lemma SignedFront(bs: seq<Byte>)
    requires |bs| > 1
    ensures SignedOf(bs) == SignedOf(bs[..|bs| - 1]) * 256 + bs[|bs| - 1]
  {
    var n := |bs| - 1;
    assert Pow256(n + 1) == 256 * Pow256(n);
  }

  lemma {:induction false} SignedCanonical(bs: seq<Byte>)
    requires SignedMinimal(bs)
    ensures EncodeInt(SignedOf(bs)) == bs
  {
    hide SignedOf;
    var n := |bs| - 1;
    assert bs == bs[..n] + [bs[n]];
    if n == 0 {
      OneSignedByte(bs[0]);
    } else {
      SignedFront(bs);
      SignedCanonical(bs[..n]);
      LastByte(SignedOf(bs[..n]), bs[n]);
      NotOneByte(bs);
    }
  }

  /** A number whose shortest form has more bytes is outside the range of one. */
  lemma NotOneByte(bs: seq<Byte>)
    requires |bs| >= 2 && SignedMinimal(bs)
    ensures !(-128 <= SignedOf(bs) < 128)
  {
    hide SignedOf;
    var n := |bs| - 1;
    SignedFront(bs);
    if n == 1 {
      assert bs[..n] == [bs[0]];
      OneSignedByte(bs[0]);
    } else {
      LongSigned(bs[..n]);
    }
  }

  lemma LongSigned(bs: seq<Byte>)
    requires |bs| >= 2 && SignedMinimal(bs)
    ensures SignedOf(bs) < -1 || SignedOf(bs) > 0
  {
    TopByte(bs);
    TopByte(bs[1..]);
    var n := |bs| - 1;
    var t, u, q := bs[0], bs[1], Pow256(n - 1);
    var low := FromBig(bs[1..][1..]);
    assert Pow256(n + 1) == 256 * Pow256(n) && Pow256(n) == 256 * q;
    assert FromBig(bs) == t * (256 * q) + (u * q + low);
    if t >= 128 {
      if t == 255 {
        Multiples(u, 127, q);
      } else {
        Multiples(t, 254, 256 * q);
        Multiples(u, 255, q);
      }
    } else if t == 0 {
      Multiples(128, u, q);
    } else {
      Multiples(1, t, 256 * q);
    }
  }

  lemma {:induction false} UintReads(v: nat)
    ensures FromBig(EncodeUint(v)) == v && UnsignedMinimal(EncodeUint(v))
  {
    if v < 256 {
      assert FromBig([v]) == FromBig([][..0]) * 256 + v;
    } else {
      UintReads(v / 256);
      var e := EncodeUint(v / 256);
      assert (e + [v % 256])[..|e|] == e;
      if |e| == 1 {
        assert FromBig(e) == FromBig(e[..0]) * 256 + e[0];
      }
    }
  }

  lemma OneSignedByte(b: Byte)
    ensures SignedOf([b]) == if b >= 128 then b - 256 else b
  {
    assert FromBig([b]) == FromBig([][..0]) * 256 + b;
    Powers();
  }

  lemma OneMoreByte(e: seq<Byte>, v: int)
    requires SignedMinimal(e) && SignedOf(e) == v / 256 && !(-128 <= v < 128)
    ensures SignedOf(e + [v % 256]) == v && SignedMinimal(e + [v % 256])
  {
    hide SignedOf;
    var more := e + [v % 256];
    assert more[..|e|] == e;
    SignedFront(more);
    if |e| == 1 {
      assert e == [e[0]];
      OneSignedByte(e[0]);
    }
  }

  lemma {:induction false} IntReads(v: int)
    ensures SignedOf(EncodeInt(v)) == v && SignedMinimal(EncodeInt(v))
    decreases if v < 0 then -v else v
  {
    hide SignedOf;
    if -128 <= v < 128 {
      OneSignedByte(v % 256);
    } else {
      IntReads(v / 256);
      OneMoreByte(EncodeInt(v / 256), v);
    }
  }

  /** No byte string denoting v is shorter than its encoding, and one as short is the encoding itself. */
  lemma {:induction false} UintShortest(v: nat, bs: seq<Byte>)
    requires bs != [] && FromBig(bs) == v
    ensures |EncodeUint(v)| <= |bs| && (|EncodeUint(v)| == |bs| ==> EncodeUint(v) == bs)
  {
    if UnsignedMinimal(bs) {
      UnsignedCanonical(bs);
    } else {
      assert bs == [0] + bs[1..];
      LeadingZero(bs[1..]);
      UintShortest(v, bs[1..]);
    }
  }

  lemma {:induction false} IntShortest(v: int, bs: seq<Byte>)
    requires bs != [] && SignedOf(bs) == v
    ensures |EncodeInt(v)| <= |bs| && (|EncodeInt(v)| == |bs| ==> EncodeInt(v) == bs)
    decreases |bs|
  {
    if SignedMinimal(bs) {
      SignedCanonical(bs);
    } else {
      SignPadding(bs);
      IntShortest(v, bs[1..]);
    }
  }

  lemma UintWidth(v: Uint64)
    ensures |EncodeUint(v)| <= 8
  {
    Powers();
    ReadsBack(v, 8);
    UintShortest(v, BigEndian(v, 8));
  }

  lemma IntWidth(v: Int64)
    ensures |EncodeInt(v)| <= 8
  {
    var w := if v < 0 then v + 0x1_0000_0000_0000_0000 else v;
    Powers();
    ReadsBack(w, 8);
    SignedWord(BigEndian(w, 8));
    IntShortest(v, BigEndian(w, 8));
  }

  // ---------------------------------------------------------------- application values

  lemma WordBounds(bs: seq<Byte>)
    requires 0 < |bs| <= 8
    ensures FromBig(bs) < 0x1_0000_0000_0000_0000
    ensures -0x8000_0000_0000_0000 <= SignedOf(bs) < 0x8000_0000_0000_0000
  {
    FromBigBound(bs);
    PowMonotone(|bs|, 8);
    Powers();
    SignedWord(bs);
  }

  function ParsedUnsigned(data: seq<Byte>, offset: nat, length: nat): Result<Parsed, Error> {
    if length == 0 || length > 8 || |data| < offset + length then Err(BadUnsigned)
    else
      WordBounds(data[offset..offset + length]);
      Ok(Parsed(Unsigned(FromBig(data[offset..offset + length])), offset + length))
  }

  function ParsedSigned(data: seq<Byte>, offset: nat, length: nat): Result<Parsed, Error> {
    if length == 0 || length > 8 || |data| < offset + length then Err(BadSigned)
    else
      WordBounds(data[offset..offset + length]);
      Ok(Parsed(Signed(SignedOf(data[offset..offset + length])), offset + length))
  }

  method ParseUnsigned(data: seq<Byte>, offset: nat, length: nat) returns (r: Result<Parsed, Error>)
    ensures r == ParsedUnsigned(data, offset, length)
  {
    if length == 0 || length > 8 || |data| < offset + length {
      return Err(BadUnsigned);
    }
    var window := data[offset..offset + length];
    var value: Uint64 := 0;
    for k := 0 to |window|
      invariant value == FromBig(window[..k])
    {
      assert window[..k + 1][..k] == window[..k];
      WordBounds(window[..k + 1]);
      value := value * 256 + window[k];
    }
    assert window[..|window|] == window;
    r := Ok(Parsed(Unsigned(value), offset + length));
  }

  lemma WrapDiffers(x: int) returns (k: int)
    ensures Wrap64(x) == x + k * 0x1_0000_0000_0000_0000
  {
    k := -((x + 0x8000_0000_0000_0000) / 0x1_0000_0000_0000_0000);
  }

  lemma WrapShifted(x: int, k: int)
    ensures Wrap64(x + k * 0x1_0000_0000_0000_0000) == Wrap64(x)
  {
  }

  lemma WrapScales(x: int, m: int, b: int)
    ensures Wrap64(Wrap64(x) * m + b) == Wrap64(x * m + b)
  {
    var k := WrapDiffers(x);
    assert (x + k * 0x1_0000_0000_0000_0000) * m + b == (x * m + b) + (k * m) * 0x1_0000_0000_0000_0000;
    WrapShifted(x * m + b, k * m);
  }

  /** Shifting a value of length bytes up to the sign position and arithmetically back extends its sign. */
  lemma SignExtends(bs: seq<Byte>)
    requires 0 < |bs| <= 8
    ensures Wrap64(FromBig(bs) * Pow256(8 - |bs|)) / Pow256(8 - |bs|) == SignedOf(bs)
  {
    var u, n := FromBig(bs), |bs|;
    SignedWord(bs);
    Powers();
    assert Pow256(0) == 1;
    if n == 1 {
      Scaled(u, Pow256(7), Pow256(1));
    } else if n == 2 {
      Scaled(u, Pow256(6), Pow256(2));
    } else if n == 3 {
      Scaled(u, Pow256(5), Pow256(3));
    } else if n == 4 {
      Scaled(u, Pow256(4), Pow256(4));
    } else if n == 5 {
      Scaled(u, Pow256(3), Pow256(5));
    } else if n == 6 {
      Scaled(u, Pow256(2), Pow256(6));
    } else if n == 7 {
      Scaled(u, Pow256(1), Pow256(7));
    } else {
      Scaled(u, Pow256(0), Pow256(8));
    }
  }

  lemma Scaled(u: nat, m: nat, p: nat)
    requires m > 0 && u < p && p * m == 0x1_0000_0000_0000_0000
    ensures Wrap64(u * m) / m == if 2 * u >= p then u - p else u
  {
    var w := u * m;
    Multiples(u, p - 1, m);
    Distributes(p, 1, m);
    Distributes(u, p, m);
    Doubles(u, m);
    if 2 * u >= p {
      Multiples(p, 2 * u, m);
      WrapRange(w);
      Quotient(u - p, m);
    } else {
      Multiples(2 * u, p - 1, m);
      WrapRange(w);
      Quotient(u, m);
    }
  }

  lemma WrapRange(w: int)
    requires 0 <= w < 0x1_0000_0000_0000_0000
    ensures Wrap64(w) == if w < 0x8000_0000_0000_0000 then w else w - 0x1_0000_0000_0000_0000
  {
  }

  lemma Distributes(a: int, b: int, m: int)
    ensures (a - b) * m == a * m - b * m
  {
  }

  lemma Doubles(u: int, m: int)
    ensures (2 * u) * m == 2 * (u * m)
  {
  }

  lemma Quotient(q: int, m: nat)
    requires m > 0
    ensures (q * m) / m == q
  {
    var k := (q * m) / m;
    Distributes(q, k, m);
    Distributes(k, q, m);
    if q > k {
      Multiples(1, q - k, m);
    } else if q < k {
      Multiples(1, k - q, m);
    }
  }

  method ParseSigned(data: seq<Byte>, offset: nat, length: nat) returns (r: Result<Parsed, Error>)
    ensures r == ParsedSigned(data, offset, length)
  {
    if length == 0 || length > 8 || |data| < offset + length {
      return Err(BadSigned);
    }
    var window := data[offset..offset + length];
    var value: Int64 := 0;
    for k := 0 to |window|
      invariant value == Wrap64(FromBig(window[..k]))
    {
      assert window[..k + 1][..k] == window[..k];
      WrapScales(FromBig(window[..k]), 256, window[k]);
      value := Wrap64(value * 256 + window[k]);
    }
    assert window[..|window|] == window;
    var shift := Pow256(8 - length);
    WrapScales(FromBig(window), shift, 0);
    value := Wrap64(value * shift);
    SignExtends(window);
    WordBounds(window);
    value := value / shift;
    r := Ok(Parsed(Signed(value), offset + length));
  }

  function Parse(data: seq<Byte>): Result<Parsed, Error> {
    if |data| == 0 then Err(EmptyValue)
    else
      var tagNumber, marker := data[0] / 16, data[0] % 8;
      if (data[0] / 8) % 2 != 0 then Err(ContextTag)
      else if tagNumber == 1 then
        if marker > 1 then Err(BadBoolean) else Ok(Parsed(Boolean(marker == 1), 1))
      else if marker > 5 then Err(BadLengthMarker)
      else if marker == 5 then
        if |data| < 2 then Err(NoExtendedLength)
        else if data[1] >= 254 then Err(LongExtendedLength)
        else ParseTagged(data, tagNumber, 2, data[1])
      else ParseTagged(data, tagNumber, 1, marker)
  }

  function ParseTagged(data: seq<Byte>, tagNumber: nat, offset: nat, length: nat): Result<Parsed, Error> {
    match tagNumber
    case 2 => ParsedUnsigned(data, offset, length)
    case 3 => ParsedSigned(data, offset, length)
    case 4 =>
      if length != 4 || |data| < offset + 4 then Err(BadReal)
      else
        FromBigBound(data[offset..offset + 4]);
        Powers();
        Ok(Parsed(Real(FromBig(data[offset..offset + 4])), offset + 4))
    case 5 =>
      if length != 8 || |data| < offset + 8 then Err(BadDouble)
      else
        FromBigBound(data[offset..offset + 8]);
        Powers();
        Ok(Parsed(Double(FromBig(data[offset..offset + 8])), offset + 8))
    case 7 =>
      if |data| < offset + length || length == 0 then Err(BadString)
      else Ok(Parsed(Text(data[offset + 1..offset + length]), offset + length))
    case 9 => ParsedUnsigned(data, offset, length)
    case _ => Err(UnsupportedTag)
  }

  /** Tag octet, extended-length octet when more than four content octets follow, contents. */
  function Numeric(tag: Byte, raw: seq<Byte>): seq<Byte>
    requires tag <= 0xF0 && |raw| < 256
  {
    if |raw| <= 4 then [tag + |raw|] + raw else [tag + 5, |raw|] + raw
  }

  function Build(v: Value): Result<seq<Byte>, Error> {
    match v
    case Boolean(b) => Ok(if b then [0x11] else [0x10])
    case Real(bits) => Ok([0x44] + BigEndian(bits, 4))
    case Double(bits) => Ok(Numeric(0x50, BigEndian(bits, 8)))
    case Signed(i) => IntWidth(i); Ok(Numeric(0x30, EncodeInt(i)))
    case Unsigned(u) => UintWidth(u); Ok(Numeric(0x20, EncodeUint(u)))
    case Text(_) => Err(UnsupportedValue)
  }

  lemma ParseNumeric(tag: Byte, raw: seq<Byte>, rest: seq<Byte>)
    requires 0x20 <= tag <= 0xF0 && tag % 16 == 0
    requires 0 < |raw| < 254
    ensures var n := Numeric(tag, raw);
      Parse(n + rest) == ParseTagged(n + rest, tag / 16, |n| - |raw|, |raw|)
      && (n + rest)[|n| - |raw|..|n|] == raw
  {
    NumericLayout(tag, raw, rest);
    TagParts(tag, if |raw| <= 4 then |raw| else 5);
    hide ParseTagged, Numeric;
  }

  lemma NumericLayout(tag: Byte, raw: seq<Byte>, rest: seq<Byte>)
    requires tag <= 0xF0 && |raw| < 254
    ensures var n, data := Numeric(tag, raw), Numeric(tag, raw) + rest;
      && data[|n| - |raw|..|n|] == raw
      && if |raw| <= 4 then |n| == 1 + |raw| && data[0] == tag + |raw|
         else |n| == 2 + |raw| && data[0] == tag + 5 && data[1] == |raw|
  {
  }

  lemma TagParts(tag: Byte, marker: nat)
    requires tag % 16 == 0 && marker <= 5
    ensures (tag + marker) / 16 == tag / 16 && (tag + marker) % 8 == marker && ((tag + marker) / 8) % 2 == 0
  {
  }

  lemma RealReads(bits: Uint32, rest: seq<Byte>)
    ensures Parse([0x44] + BigEndian(bits, 4) + rest) == Ok(Parsed(Real(bits), 5))
  {
    hide BigEndian, FromBig, ParsedSigned, ParsedUnsigned;
    Powers();
    ReadsBack(bits, 4);
    var data := [0x44] + BigEndian(bits, 4) + rest;
    assert data[1..5] == BigEndian(bits, 4);
  }

  lemma DoubleReads(bits: Uint64, rest: seq<Byte>)
    ensures Parse(Numeric(0x50, BigEndian(bits, 8)) + rest) == Ok(Parsed(Double(bits), 10))
  {
    hide BigEndian, FromBig, Parse, ParsedSigned, ParsedUnsigned;
    Powers();
    ReadsBack(bits, 8);
    ParseNumeric(0x50, BigEndian(bits, 8), rest);
  }

  lemma SignedReads(i: Int64, rest: seq<Byte>)
    requires |EncodeInt(i)| < 256
    ensures Parse(Numeric(0x30, EncodeInt(i)) + rest) == Ok(Parsed(Signed(i), |Numeric(0x30, EncodeInt(i))|))
  {
    hide EncodeInt, FromBig, Parse, ParsedUnsigned;
    IntWidth(i);
    IntReads(i);
    ParseNumeric(0x30, EncodeInt(i), rest);
  }

  lemma UnsignedReads(u: Uint64, rest: seq<Byte>)
    requires |EncodeUint(u)| < 256
    ensures Parse(Numeric(0x20, EncodeUint(u)) + rest) == Ok(Parsed(Unsigned(u), |Numeric(0x20, EncodeUint(u))|))
  {
    hide EncodeUint, FromBig, Parse, ParsedSigned;
    UintWidth(u);
    UintReads(u);
    ParseNumeric(0x20, EncodeUint(u), rest);
  }

  /** Whatever is written is read back, whatever follows it, and exactly its octets are consumed. */
  lemma RoundTrip(v: Value, rest: seq<Byte>)
    ensures Build(v).Ok? <==> !v.Text?
    ensures Build(v).Ok? ==> Parse(Build(v).value + rest) == Ok(Parsed(v, |Build(v).value|))
  {
    match v
    case Boolean(b) =>
    case Real(bits) =>
      hide Parse, BigEndian;
      RealReads(bits, rest);
    case Double(bits) =>
      hide Parse, BigEndian;
      DoubleReads(bits, rest);
    case Signed(i) =>
      hide Parse, EncodeInt, Numeric;
      IntWidth(i);
      SignedReads(i, rest);
    case Unsigned(u) =>
      hide Parse, EncodeUint, Numeric;
      UintWidth(u);
      UnsignedReads(u, rest);
    case Text(_) =>
  }

  /** What Parse accepts is decided by the octets it consumes: nothing after them matters, and
      nothing less is enough. */
  lemma SelfDelimiting(data: seq<Byte>, rest: seq<Byte>)
    requires Parse(data).Ok?
    ensures 0 < Parse(data).value.consumed <= |data|
    ensures Parse(data[..Parse(data).value.consumed] + rest) == Parse(data)
  {
    var c := Parse(data).value.consumed;
    var other := data[..c] + rest;
    assert forall i, j | 0 <= i <= j <= c :: other[i..j] == data[i..j];
  }

  lemma PrefixAgrees(data: seq<Byte>, n: nat)
    requires n <= |data| && Parse(data[..n]).Ok?
    ensures Parse(data) == Parse(data[..n]) && Parse(data).value.consumed <= n
  {
    var m := Parse(data[..n]).value.consumed;
    SelfDelimiting(data[..n], data[m..]);
    assert data[..n][..m] + data[m..] == data;
  }

  lemma PrefixFree(data: seq<Byte>, n: nat)
    requires Parse(data).Ok? && n < Parse(data).value.consumed <= |data|
    ensures Parse(data[..n]).Err?
  {
    if Parse(data[..n]).Ok? {
      PrefixAgrees(data, n);
    }
  }

  // ---------------------------------------------------------------- framing

  /** The type of an object, from its name in any case, with or without '-' and '_'. */
  function ObjectTypeID(objectType: string): Result<nat, Error> {
    TypeNumber(T.Lowercase(T.Without(T.Without(T.Trim(objectType), '_'), '-')))
  }

  function TypeNumber(name: string): Result<nat, Error> {
    if name == "analoginput" then Ok(0)
    else if name == "analogoutput" then Ok(1)
    else if name == "analogvalue" then Ok(2)
    else if name == "binaryinput" then Ok(3)
    else if name == "binaryoutput" then Ok(4)
    else if name == "binaryvalue" then Ok(5)
    else if name == "multistateinput" then Ok(13)
    else if name == "multistateoutput" then Ok(14)
    else if name == "multistatevalue" then Ok(19)
    else Err(UnsupportedObjectType)
  }

  function ObjectID(objectType: nat, instance: Uint32): nat {
    objectType * 0x40_0000 + instance % 0x40_0000
  }

  /** The service data of a write request: object, property, and the value between tags 3e and 3f. */
  function Body(id: seq<Byte>, payload: seq<Byte>): seq<Byte> {
    [0x0c] + id + [0x19, 0x55, 0x3e] + payload + [0x3f]
  }

  /** The ten octets in front of the service data of a frame of n octets: BVLC, NPDU and the fixed part of the APDU. */
  function FrameHead(invokeID: Byte, n: Uint16): (h: seq<Byte>)
    ensures |h| == 10 && h[2..4] == [n / 256, n % 256]
  {
    [0x81, 0x0a, n / 256, n % 256, 0x01, 0x04, 0x00, 0x05, invokeID, 0x0f]
  }

  /** The WriteProperty request for presentValue. */
  function WriteRequest(invokeID: Byte, objectType: string, instance: Uint32, value: Value): Result<seq<Byte>, Error> {
    match ObjectTypeID(objectType)
    case Err(e) => Err(e)
    case Ok(t) =>
      match Build(value)
      case Err(e) => Err(e)
      case Ok(payload) =>
        var service := Body(BigEndian(ObjectID(t, instance), 4), payload);
        Ok(FrameHead(invokeID, (10 + |service|) % 0x1_0000) + service)
  }

  /** One context-tagged field of the service data: where the next field starts. */
  function SkipField(body: seq<Byte>, offset: nat, field: nat): Result<nat, Error>
    requires field < 2
  {
    if offset >= |body| || body[offset] / 16 != field || (body[offset] / 8) % 2 == 0 then Err(MissingField(field))
    else
      var marker := body[offset] % 8;
      if marker == 5 && offset + 1 >= |body| then Err(TruncatedFieldLength)
      else
        var length := if marker == 5 then body[offset + 1] as nat else marker;
        var start := if marker == 5 then offset + 2 else offset + 1;
        if (field == 0 && length != 4) || (field == 1 && (length < 1 || length > 4)) then Err(BadFieldLength(field))
        else if length > |body| - start then Err(TruncatedField(field))
        else Ok(start + length)
  }

  function ExtractAt(body: seq<Byte>, offset: nat): Result<seq<Byte>, Error> {
    if offset >= |body| || body[offset] != 0x3e then Err(NoOpeningTag)
    else
      var start := offset + 1;
      match Parse(body[start..])
      case Err(e) => Err(e)
      case Ok(p) =>
        SelfDelimiting(body[start..], []);
        var end := start + p.consumed;
        if end >= |body| || body[end] != 0x3f then Err(NoClosingTag)
        else if end + 1 != |body| then Err(TrailingData)
        else Ok(body[start..end])
  }

  function Extract(body: seq<Byte>): Result<seq<Byte>, Error> {
    match SkipField(body, 0, 0)
    case Err(e) => Err(e)
    case Ok(first) =>
      match SkipField(body, first, 1)
      case Err(e) => Err(e)
      case Ok(second) => ExtractAt(body, second)
  }

  method ExtractReadPropertyValue(body: seq<Byte>) returns (r: Result<seq<Byte>, Error>)
    ensures r == Extract(body)
  {
    hide Parse;
    var offset := 0;
    var field := 0;
    while field < 2
      invariant 0 <= field <= 2 && 0 <= offset
      invariant field == 0 ==> offset == 0
      invariant field == 1 ==> SkipField(body, 0, 0) == Ok(offset)
      invariant field == 2 ==> Extract(body) == ExtractAt(body, offset)
    {
      if offset >= |body| || body[offset] / 16 != field || (body[offset] / 8) % 2 == 0 {
        return Err(MissingField(field));
      }
      var length: int := body[offset] % 8;
      offset := offset + 1;
      if length == 5 {
        if offset >= |body| {
          return Err(TruncatedFieldLength);
        }
        length := body[offset];
        offset := offset + 1;
      }
      if (field == 0 && length != 4) || (field == 1 && (length < 1 || length > 4)) {
        return Err(BadFieldLength(field));
      }
      if length > |body| - offset {
        return Err(TruncatedField(field));
      }
      offset := offset + length;
      field := field + 1;
    }
    if offset >= |body| || body[offset] != 0x3e {
      return Err(NoOpeningTag);
    }
    var valueStart := offset + 1;
    var p := Parse(body[valueStart..]);
    if p.Err? {
      return Err(p.error);
    }
    SelfDelimiting(body[valueStart..], []);
    var valueEnd := valueStart + p.value.consumed;
    if valueEnd >= |body| || body[valueEnd] != 0x3f {
      return Err(NoClosingTag);
    }
    if valueEnd + 1 != |body| {
      return Err(TrailingData);
    }
    r := Ok(body[valueStart..valueEnd]);
  }

  lemma BuiltLength(v: Value)
    requires Build(v).Ok?
    ensures 1 <= |Build(v).value| <= 10
  {
    if v.Signed? {
      IntWidth(v.i);
    } else if v.Unsigned? {
      UintWidth(v.u);
    }
  }

  lemma BodySlices(head: seq<Byte>, id: seq<Byte>, payload: seq<Byte>)
    requires |head| == 10 && |id| == 4
    ensures var r := head + Body(id, payload);
      |r| == 10 + |Body(id, payload)| && r[10..] == Body(id, payload) && r[11..15] == id && r[2..4] == head[2..4]
  {
  }

  /** Where a write request puts its parts. */
  lemma RequestLayout(invokeID: Byte, objectType: string, instance: Uint32, value: Value)
    requires ObjectTypeID(objectType).Ok? && Build(value).Ok?
    ensures var r := WriteRequest(invokeID, objectType, instance, value);
      var id := BigEndian(ObjectID(ObjectTypeID(objectType).value, instance), 4);
      && r.Ok? && |r.value| == 10 + |Body(id, Build(value).value)|
      && r.value[10..] == Body(id, Build(value).value)
      && r.value[11..15] == id
      && r.value[2..4] == FrameHead(invokeID, |r.value| % 0x1_0000)[2..4]
  {
    hide Build, BigEndian, ObjectID, ObjectTypeID, Body, FrameHead;
    var id, payload := BigEndian(ObjectID(ObjectTypeID(objectType).value, instance), 4), Build(value).value;
    BodySlices(FrameHead(invokeID, (10 + |Body(id, payload)|) % 0x1_0000), id, payload);
  }

  lemma HeadLength(invokeID: Byte, n: Uint16)
    ensures FromBig(FrameHead(invokeID, n)[2..4]) == n
  {
    hide FromBig, FrameHead;
    FromTwo([n / 256, n % 256]);
  }

  lemma BodyExtracts(id: seq<Byte>, value: Value)
    requires |id| == 4 && Build(value).Ok?
    ensures Extract(Body(id, Build(value).value)) == Build(value)
  {
    hide Parse, Build, SkipField;
    var payload := Build(value).value;
    var body := Body(id, payload);
    ServiceFields(id, payload);
    assert body[8..] == payload + [0x3f];
    RoundTrip(value, [0x3f]);
    assert body[8..8 + |payload|] == payload;
  }

  /** The service data of any write request is a readable property value, and reading it returns
      exactly the value octets, whichever octets those are; the length field is the frame length. */
  lemma WriteIsReadable(invokeID: Byte, objectType: string, instance: Uint32, value: Value)
    requires ObjectTypeID(objectType).Ok? && Build(value).Ok?
    ensures var f := WriteRequest(invokeID, objectType, instance, value);
      && f.Ok? && |f.value| > 15
      && FromBig(f.value[2..4]) == |f.value|
      && FromBig(f.value[11..15]) == ObjectID(ObjectTypeID(objectType).value, instance)
      && Extract(f.value[10..]) == Build(value)
  {
    hide Parse, Build, BigEndian, SkipField, WriteRequest, Extract, FromBig, FrameHead;
    BuiltLength(value);
    var id := ObjectID(ObjectTypeID(objectType).value, instance);
    RequestLayout(invokeID, objectType, instance, value);
    Powers();
    ReadsBack(id, 4);
    HeadLength(invokeID, |WriteRequest(invokeID, objectType, instance, value).value|);
    BodyExtracts(BigEndian(id, 4), value);
  }

  lemma ServiceFields(id: seq<Byte>, payload: seq<Byte>)
    requires |id| == 4
    ensures var body := Body(id, payload);
      SkipField(body, 0, 0) == Ok(5) && SkipField(body, 5, 1) == Ok(7)
  {
  }

  lemma FromTwo(bs: seq<Byte>)
    requires |bs| == 2
    ensures FromBig(bs) == (bs[0] as int) * 256 + bs[1]
  {
    assert bs[..1] == [bs[0]];
    assert FromBig(bs[..1]) == FromBig(bs[..1][..0]) * 256 + bs[0];
  }

  /** Every request addresses one object: type and instance are recovered from its identifier. */
  lemma ObjectIDSplits(objectType: nat, instance: Uint32)
    ensures ObjectID(objectType, instance) / 0x40_0000 == objectType
    ensures ObjectID(objectType, instance) % 0x40_0000 == instance % 0x40_0000
  {
  }

  lemma SkipFieldPrefix(body: seq<Byte>, n: nat, offset: nat, field: nat)
    requires n <= |body| && field < 2 && SkipField(body[..n], offset, field).Ok?
    ensures SkipField(body, offset, field) == SkipField(body[..n], offset, field)
  {
  }

  /** Reading further input never changes an accepted body into another accepted one. */
  lemma ExtractStable(body: seq<Byte>, n: nat)
    requires n <= |body| && Extract(body[..n]).Ok? && Extract(body).Ok?
    ensures n == |body|
  {
    hide Parse, SkipField;
    var cut := body[..n];
    SkipFieldPrefix(body, n, 0, 0);
    var first := SkipField(cut, 0, 0).value;
    SkipFieldPrefix(body, n, first, 1);
    var start := SkipField(cut, first, 1).value + 1;
    assert cut[start..] == body[start..][..n - start];
    PrefixAgrees(body[start..], n - start);
  }

  /** No proper prefix of an accepted body is accepted. */
  lemma NoPrefixAccepted(body: seq<Byte>, n: nat)
    requires Extract(body).Ok? && n < |body|
    ensures Extract(body[..n]).Err?
  {
    if Extract(body[..n]).Ok? {
      ExtractStable(body, n);
    }
  }

  /** Outcome of a received frame: an answer to another request is skipped. */
  datatype Answer = Skip | Done(value: Value)

  function ParseReadResponse(frame: seq<Byte>, invokeID: Byte): Result<Answer, Error> {
    if |frame| < 10 then Err(ShortFrame)
    else if frame[0] != 0x81 then Err(BadBvlc)
    else if FromBig(frame[2..4]) > |frame| % 0x1_0000 then Err(BadBvlcLength)
    else if frame[4] != 0x01 then Err(BadNpdu)
    else if frame[6] / 16 == 3 then
      if frame[7] != invokeID then Ok(Skip)
      else if frame[8] != 0x0c then Err(BadService)
      else
        match Extract(frame[9..])
        case Err(e) => Err(e)
        case Ok(payload) =>
          match Parse(payload)
          case Err(e) => Err(e)
          case Ok(p) => Ok(Done(p.value))
    else if frame[6] / 16 == 5 then Err(ErrorPdu)
    else Err(UnsupportedPdu)
  }

  /** An acknowledgement that echoes the service data of a write request yields the written value to
      the request with the same invoke number, and is skipped by every other. */
  lemma EchoReadsBack(invokeID: Byte, other: Byte, objectType: string, instance: Uint32, value: Value,
                      hi: Byte, lo: Byte)
    requires ObjectTypeID(objectType).Ok? && Build(value).Ok?
    requires (hi as int) * 256 + lo <= 9 + |WriteRequest(invokeID, objectType, instance, value).value[10..]|
    ensures
      var body := WriteRequest(invokeID, objectType, instance, value).value[10..];
      var ack := [0x81, 0x0a, hi, lo, 0x01, 0x00, 0x30, invokeID, 0x0c] + body;
      ParseReadResponse(ack, other) == Ok(if other == invokeID then Done(value) else Skip)
  {
    hide Parse, Build, Extract, WriteRequest, ObjectID;
    WriteIsReadable(invokeID, objectType, instance, value);
    var body := WriteRequest(invokeID, objectType, instance, value).value[10..];
    var ack := [0x81, 0x0a, hi, lo, 0x01, 0x00, 0x30, invokeID, 0x0c] + body;
    FromTwo(ack[2..4]);
    assert ack[9..] == body;
    RoundTrip(value, []);
    assert Build(value).value + [] == Build(value).value;
  }
}
