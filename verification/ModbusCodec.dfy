/** Modbus data on the wire: byte order, register values, coils, command frames and the validator
    that makes decoding safe (MODBUS Application Protocol V1.1b3, sections 6.1 to 6.12). */
module ModbusCodec {
  import opened Bytes
  import opened Text
  import Crc

  /** A point as collected; type and byte-order names as configured. */
  datatype Point = Point(identify: string, dataType: string, explicit: bool, functionCode: int, address: Uint64,
                         quantity: int, bit: int, readDisabled: bool, endian: string)

  /** A decoded value; floating-point values are bit patterns. */
  datatype Reading =
    | I16(i16: int) | U16(u16: int) | I32(i32: int) | U32(u32: int) | I64(i64: int) | U64(u64: int)
    | F32(bits32: Uint32) | F64(bits64: Uint64) | Flag(on: bool)

  /** OutOfRange is the slice-bounds panic of the runtime. */
  datatype Outcome = Value(reading: Reading) | Short | NoData | BitRange | OutOfRange

  // ---------------------------------------------------------------- byte order

  function NormalizeEndian(e: string): string {
    var upper := Uppercase(Trim(e));
    if upper in {"ABCD", "DCBA", "BADC", "CDAB", "AB", "BA"} then upper else "ABCD"
  }

  /** Where byte i of the reordered data comes from. */
  function Source(n: nat, e: string, i: nat): (j: nat)
    requires i < n
    ensures j < n
  {
    if n == 2 then (if e == "BA" || e == "DCBA" then 1 - i else i)
    else if n == 4 || n == 8 then
      if e == "DCBA" then n - 1 - i
      else if e == "BADC" then (if i % 2 == 0 then i + 1 else i - 1)
      else if e == "CDAB" then (if i < n / 2 then i + n / 2 else i - n / 2)
      else i
    else i
  }

  /** The permutation of a normalized name. */
  function Permuted(data: seq<Byte>, e: string): (r: seq<Byte>)
    ensures |r| == |data|
  {
    seq(|data|, i requires 0 <= i < |data| => data[Source(|data|, e, i)])
  }

  function Reorder(data: seq<Byte>, endian: string): (r: seq<Byte>)
    ensures |r| == |data|
  {
    Permuted(data, NormalizeEndian(endian))
  }

  method Swap(a: array<Byte>, i: nat, j: nat)
    requires i < a.Length && j < a.Length
    modifies a
    ensures a[..] == old(a[..])[i := old(a[j])][j := old(a[i])]
  {
    a[i], a[j] := a[j], a[i];
  }

  method ApplyEndian(data: array<Byte>, endian: string) returns (out: array<Byte>)
    ensures fresh(out) && out[..] == Reorder(data[..], endian)
  {
    hide Permuted, NormalizeEndian;
    var e := NormalizeEndian(endian);
    var n := data.Length;
    out := new Byte[n](i requires 0 <= i < n reads data => data[i]);
    assert out[..] == data[..];
    if n == 2 {
      ReorderTwo(out, e);
    } else if n == 4 {
      ReorderFour(out, e);
    } else if n == 8 {
      ReorderEight(out, e);
    } else {
      PermutedOther(data[..], e);
    }
  }

  lemma PermutedOther(data: seq<Byte>, e: string)
    requires |data| != 2 && |data| != 4 && |data| != 8
    ensures Permuted(data, e) == data
  {
  }

  method ReorderTwo(out: array<Byte>, e: string)
    requires out.Length == 2
    modifies out
    ensures out[..] == Permuted(old(out[..]), e)
  {
    if e == "BA" || e == "DCBA" {
      Swap(out, 0, 1);
    }
  }

  method ReorderFour(out: array<Byte>, e: string)
    requires out.Length == 4
    modifies out
    ensures out[..] == Permuted(old(out[..]), e)
  {
    if e == "DCBA" {
      Swap(out, 0, 3);
      Swap(out, 1, 2);
    } else if e == "BADC" {
      Swap(out, 0, 1);
      Swap(out, 2, 3);
    } else if e == "CDAB" {
      Swap(out, 0, 2);
      Swap(out, 1, 3);
    }
  }

  method ReorderEight(out: array<Byte>, e: string)
    requires out.Length == 8
    modifies out
    ensures out[..] == Permuted(old(out[..]), e)
  {
    SourceEight(e);
    hide Source;
    if e == "DCBA" {
      ReverseEight(out);
    } else if e == "BADC" {
      SwapPairs(out);
    } else if e == "CDAB" {
      SwapHalves(out);
    }
  }

  lemma SourceEight(e: string)
    ensures forall k | 0 <= k < 8 ::
      Source(8, e, k) == (
        if e == "DCBA" then 7 - k
        else if e == "BADC" then (if k % 2 == 0 then k + 1 else k - 1)
        else if e == "CDAB" then (if k < 4 then k + 4 else k - 4)
        else k)
  {
  }

  method ReverseEight(out: array<Byte>)
    requires out.Length == 8
    modifies out
    ensures forall k | 0 <= k < 8 :: out[k] == old(out[7 - k])
  {
    for i := 0 to 4
      invariant forall k | 0 <= k < 8 :: out[k] == old(out[if k < i || 7 - k < i then 7 - k else k])
    {
      Swap(out, i, 7 - i);
    }
  }

  method SwapPairs(out: array<Byte>)
    requires out.Length == 8
    modifies out
    ensures forall k | 0 <= k < 8 :: out[k] == old(out[if k % 2 == 0 then k + 1 else k - 1])
  {
    var i := 0;
    while i < 8
      invariant 0 <= i <= 8 && i % 2 == 0
      invariant forall k | 0 <= k < i :: out[k] == old(out[if k % 2 == 0 then k + 1 else k - 1])
      invariant forall k | i <= k < 8 :: out[k] == old(out[k])
    {
      Swap(out, i, i + 1);
      i := i + 2;
    }
  }

  method SwapHalves(out: array<Byte>)
    requires out.Length == 8
    modifies out
    ensures forall k | 0 <= k < 8 :: out[k] == old(out[if k < 4 then k + 4 else k - 4])
  {
    for i := 0 to 4
      invariant forall k | 0 <= k < 8 ::
        out[k] == old(out[if k < i then k + 4 else if 4 <= k < i + 4 then k - 4 else k])
    {
      Swap(out, i, i + 4);
    }
  }

  /** Reordering twice under the same name gives the data back, for every length and every name. */
  lemma ReorderTwice(data: seq<Byte>, endian: string)
    ensures Reorder(Reorder(data, endian), endian) == data
  {
    hide Source, NormalizeEndian;
    var e := NormalizeEndian(endian);
    var n := |data|;
    forall i | 0 <= i < n
      ensures Source(n, e, Source(n, e, i)) == i
    {
      SourceTwice(n, e, i);
    }
  }

  lemma SourceTwice(n: nat, e: string, i: nat)
    requires i < n
    ensures Source(n, e, Source(n, e, i)) == i
  {
    if n == 4 || n == 8 {
      if e == "DCBA" {
      } else if e == "BADC" {
      }
    }
  }

  // ---------------------------------------------------------------- register values

  /** A 16-bit quantity; the conversion from a configured count drops high bits. */
  function QuantityFor(p: Point): Uint16 {
    var dt := Lowercase(p.dataType);
    if p.quantity > 0 then p.quantity % 0x1_0000
    else if !p.explicit && (dt == "float32" || dt == "float64") then 1
    else if dt in {"int32", "uint32", "float", "float32"} then 2
    else if dt in {"double", "float64", "uint64", "int64"} then 4
    else 1
  }

  function RequiredBytes(p: Point): nat {
    if QuantityFor(p) == 0 then 2 else QuantityFor(p) * 2
  }

  function Signed16(u: int): int { if u >= 0x8000 then u - 0x1_0000 else u }

  function Signed32(u: int): int { if u >= 0x8000_0000 then u - 0x1_0000_0000 else u }

  function Signed64(u: int): int { if u >= 0x8000_0000_0000_0000 then u - 0x1_0000_0000_0000_0000 else u }

  function Zeros(n: nat): seq<Byte> { seq(n, i => 0) }

  /** The first size bytes, or the data padded with zeros in front. */
  function PadBytes(data: seq<Byte>, size: nat): (r: seq<Byte>)
    ensures |r| == size
  {
    if |data| >= size then data[..size] else Zeros(size - |data|) + data
  }

  function Word64(data: seq<Byte>): Uint64 {
    FromBigBound(PadBytes(data, 8));
    Powers();
    FromBig(PadBytes(data, 8))
  }

  function DecodeRegister(p: Point, payload: seq<Byte>): Outcome {
    if |payload| < RequiredBytes(p) then Short
    else
      var data := Reorder(payload[..RequiredBytes(p)], p.endian);
      DecodeOrdered(p, data)
  }

  function DecodeOrdered(p: Point, data: seq<Byte>): Outcome
    requires |data| >= 2
  {
    var word := FromBig(data[..2]);
    var dt := Lowercase(p.dataType);
    if !p.explicit && (dt == "float32" || dt == "float64") then Value(U16(word))
    else if dt == "short" || dt == "int16" then Value(I16(Signed16(word)))
    else if dt == "ushort" || dt == "uint16" then Value(U16(word))
    else if dt == "int32" then
      if |data| < 4 then OutOfRange else Value(I32(Signed32(FromBig(data[..4]))))
    else if dt == "uint32" then
      if |data| < 4 then OutOfRange else Value(U32(FromBig(data[..4])))
    else if dt == "float" || dt == "float32" then
      if |data| < 4 then OutOfRange
      else
        FromBigBound(data[..4]);
        Powers();
        Value(F32(FromBig(data[..4])))
    else if dt == "double" || dt == "float64" then Value(F64(Word64(data)))
    else if dt == "int64" then Value(I64(Signed64(Word64(data))))
    else if dt == "uint64" then Value(U64(Word64(data)))
    else if dt == "bool" then Value(Flag(word != 0))
    else Value(U16(word))
  }

  /** What the coercion helper of the requested type produced from the command value. */
  datatype Number = Integer(n: int) | Single(bits32: Uint32) | Wide(bits64: Uint64)

  datatype CommandError =
    | Coercion | RangeError | UnsupportedType | AddressOverflow | NotOneRegister | EmptyCoils | UnsupportedFunction

  /** Range and width in bytes of the integer types. */
  function IntegerWidth(dt: string): nat {
    if dt in {"short", "int16", "ushort", "uint16"} then 2
    else if dt in {"int32", "uint32"} then 4
    else if dt in {"int64", "uint64"} then 8
    else 0
  }

  predicate IsSigned(dt: string) { dt in {"short", "int16", "int32", "int64"} }

  predicate InRange(dt: string, n: int) {
    match IntegerWidth(dt)
    case 2 => if IsSigned(dt) then -0x8000 <= n < 0x8000 else 0 <= n < 0x1_0000
    case 4 => if IsSigned(dt) then -0x8000_0000 <= n < 0x8000_0000 else 0 <= n < 0x1_0000_0000
    case 8 =>
      if IsSigned(dt) then -0x8000_0000_0000_0000 <= n < 0x8000_0000_0000_0000
      else 0 <= n < 0x1_0000_0000_0000_0000
    case _ => false
  }

  function Modulus(width: nat): nat {
    match width case 2 => 0x1_0000 case 4 => 0x1_0000_0000 case _ => 0x1_0000_0000_0000_0000
  }

  function EncodedType(dataType: string): string {
    var name := Lowercase(Trim(dataType));
    if name == "" then "ushort" else name
  }

  /** Encoding of an explicitly typed value; an empty type name means unsigned 16 bits. */
  function EncodeRegister(dataType: string, v: Number, endian: string): Result<seq<Byte>, CommandError> {
    var dt := EncodedType(dataType);
    var width := IntegerWidth(dt);
    if width > 0 then
      if !v.Integer? then Err(Coercion)
      else if !InRange(dt, v.n) then Err(if width == 8 then Coercion else RangeError)
      else Ok(Reorder(BigEndian(v.n % Modulus(width), width), endian))
    else if dt == "float" || dt == "float32" then
      if v.Single? then Ok(Reorder(BigEndian(v.bits32, 4), endian)) else Err(Coercion)
    else if dt == "double" || dt == "float64" then
      if v.Wide? then Ok(Reorder(BigEndian(v.bits64, 8), endian)) else Err(Coercion)
    else Err(UnsupportedType)
  }

  /** The reading that a command value stands for. */
  function ReadingOf(dataType: string, v: Number): Reading {
    var dt := Lowercase(dataType);
    match v
    case Single(bits) => F32(bits)
    case Wide(bits) => F64(bits)
    case Integer(n) =>
      if dt in {"short", "int16"} then I16(n)
      else if dt == "int32" then I32(n)
      else if dt == "uint32" then U32(n)
      else if dt == "int64" then I64(n)
      else if dt == "uint64" then U64(n)
      else U16(n)
  }

  /** A value written under an explicit type reads back under the same type and byte order. The encoder trims
      the type name and the decoder does not. */
  lemma RegisterRoundTrip(p: Point, v: Number, rest: seq<Byte>)
    requires p.explicit && Trim(p.dataType) == p.dataType
    requires EncodeRegister(p.dataType, v, p.endian).Ok?
    requires RequiredBytes(p) == |EncodeRegister(p.dataType, v, p.endian).value|
    ensures DecodeRegister(p, EncodeRegister(p.dataType, v, p.endian).value + rest) == Value(ReadingOf(p.dataType, v))
  {
    hide BigEndian, FromBig, Reorder, Pow256, Trim, Lowercase, DecodeOrdered, InRange, ReadingOf;
    var wire := EncodeRegister(p.dataType, v, p.endian).value;
    assert |wire| >= 2;
    var data := BigEndian(PlainBits(v, |wire|), |wire|);
    OrderedReads(p, v);
    ReorderTwice(data, p.endian);
    assert (wire + rest)[..|wire|] == wire;
  }

  /** The number as it stands in so many bytes. */
  function PlainBits(v: Number, width: nat): nat {
    match v
    case Integer(n) => n % Modulus(width)
    case Single(bits) => bits
    case Wide(bits) => bits
  }

  /** Decoding what was encoded, before either is put in the byte order. */
  lemma OrderedReads(p: Point, v: Number)
    requires p.explicit && Trim(p.dataType) == p.dataType && EncodeRegister(p.dataType, v, p.endian).Ok?
    ensures var width := |EncodeRegister(p.dataType, v, p.endian).value|;
      && width >= 2 && EncodeRegister(p.dataType, v, p.endian).value ==
        Reorder(BigEndian(PlainBits(v, width), width), p.endian)
      && DecodeOrdered(p, BigEndian(PlainBits(v, width), width)) == Value(ReadingOf(p.dataType, v))
  {
    hide BigEndian, FromBig, Reorder, Pow256, Trim, Lowercase;
    LowercaseLength(p.dataType);
    TypeNames(EncodedType(p.dataType));
    var width := |EncodeRegister(p.dataType, v, p.endian).value|;
    Powers();
    ReadsBack(PlainBits(v, width), width);
    var data := BigEndian(PlainBits(v, width), width);
    assert data[..width] == data;
  }

  lemma LowercaseLength(s: string)
    ensures Lowercase(s) == "" <==> s == ""
  {
  }

  lemma TypeNames(dt: string)
    ensures IntegerWidth(dt) > 0 ==>
      dt != "float" && dt != "float32" && dt != "double" && dt != "float64" && dt != "bool"
  {
  }

  // ---------------------------------------------------------------- decoding safety

  /** Types whose decoder slices four bytes without looking. */
  predicate NeedsFour(p: Point) {
    var dt := Lowercase(p.dataType);
    dt in {"int32", "uint32", "float"} || (p.explicit && dt == "float32")
  }

  /** Decoding a register point can run out of its slice exactly when a 32-bit type was given one register. */
  lemma DecodeSafeIff(p: Point)
    ensures (forall payload :: DecodeRegister(p, payload) != OutOfRange) <==> (NeedsFour(p) ==> RequiredBytes(p) >= 4)
  {
    hide Lowercase, Reorder, Word64;
    if NeedsFour(p) && RequiredBytes(p) < 4 {
      assert DecodeRegister(p, Zeros(RequiredBytes(p))) == OutOfRange;
    }
  }

  /** It does happen: a legacy 32-bit property configured with one register. */
  lemma LegacyOneRegisterPanics(address: Uint64)
    ensures DecodeRegister(Point("t", "int32", false, 3, address, 1, 0, false, "ABCD"), [0, 1]) == OutOfRange
  {
    PlainName("int32");
    OneRegisterPanics(Point("t", "int32", false, 3, address, 1, 0, false, "ABCD"), [0, 1]);
  }

  lemma OneRegisterPanics(p: Point, payload: seq<Byte>)
    requires Lowercase(p.dataType) == "int32" && p.quantity == 1 && |payload| == 2
    ensures DecodeRegister(p, payload) == OutOfRange
  {
    hide Lowercase, Reorder;
    assert RequiredBytes(p) == 2;
  }

  /** The coil and discrete-input decoder. */
  function DecodeDiscrete(p: Point, payload: seq<bv8>): Outcome {
    if payload == [] then NoData
    else
      var index := if p.bit < 0 then 0 else p.bit;
      if index / 8 >= |payload| then BitRange
      else Value(Flag(BitOf(payload[index / 8], index % 8)))
  }

  // ---------------------------------------------------------------- the validator

  /** The canonical spelling of an explicit type name. */
  function Canonical(raw: string): Result<string, ValidationError> {
    Alias(Lowercase(Trim(raw)))
  }

  function Alias(name: string): Result<string, ValidationError> {
    if name in {"bool", "boolean"} then Ok("bool")
    else if name == "int8" then Ok("int8")
    else if name in {"uint8", "byte"} then Ok("uint8")
    else if name in {"int16", "short"} then Ok("int16")
    else if name in {"uint16", "ushort", "word"} then Ok("uint16")
    else if name in {"int32", "int"} then Ok("int32")
    else if name in {"uint32", "uint", "dword"} then Ok("uint32")
    else if name in {"int64", "long"} then Ok("int64")
    else if name in {"uint64", "ulong"} then Ok("uint64")
    else if name in {"float32", "float"} then Ok("float32")
    else if name in {"float64", "double"} then Ok("float64")
    else if name == "string" then Ok("string")
    else if name in {"enum", "enumeration"} then Ok("enum")
    else Err(UnknownType)
  }

  datatype ValidationError = UnknownType | BadFunctionCode | UnsupportedPair | TooFewRegisters

  predicate SupportsRead(dt: string, fc: int) {
    if fc == 1 || fc == 2 then dt == "bool"
    else
      && (fc == 3 || fc == 4)
      && dt in {"bool", "int16", "uint16", "int32", "uint32", "int64", "uint64", "float32", "float64"}
  }

  predicate SupportsWrite(dt: string, fc: int) {
    if fc == 5 || fc == 15 then dt == "bool"
    else if fc == 6 then dt == "int16" || dt == "uint16"
    else fc == 16 && dt in {"int16", "uint16", "int32", "uint32", "int64", "uint64", "float32", "float64"}
  }

  function RequiredRegisters(dt: string): nat {
    if dt in {"int32", "uint32", "float32"} then 2
    else if dt in {"int64", "uint64", "float64"} then 4
    else 1
  }

  /** A point as configured; the function code is text, None when it is not a number. */
  datatype FunctionCode = Number(fc: int) | NotANumber

  datatype ConfiguredPoint = ConfiguredPoint(dataType: string, code: FunctionCode, quantity: int)

  function Normalize(p: ConfiguredPoint, read: bool): Result<ConfiguredPoint, ValidationError> {
    if Trim(p.dataType) == "" then Ok(p.(dataType := ""))
    else if Canonical(p.dataType).Err? then Err(UnknownType)
    else
      var canonical := Canonical(p.dataType).value;
      if p.code.NotANumber? then Err(BadFunctionCode)
      else if !(if read then SupportsRead(canonical, p.code.fc) else SupportsWrite(canonical, p.code.fc)) then
        Err(UnsupportedPair)
      else if 0 < p.quantity < RequiredRegisters(canonical) then Err(TooFewRegisters)
      else Ok(p.(dataType := canonical))
  }

  /** Validation stops at the first bad point, leaving it and its successors as they were. */
  method ValidatePoints(points: array<ConfiguredPoint>, read: bool) returns (failed: nat)
    modifies points
    ensures failed <= points.Length
    ensures forall i :: 0 <= i < failed ==> Normalize(old(points[i]), read) == Ok(points[i])
    ensures forall i :: failed <= i < points.Length ==> points[i] == old(points[i])
    ensures failed < points.Length ==> Normalize(old(points[failed]), read).Err?
  {
    hide Normalize;
    failed := 0;
    while failed < points.Length
      invariant failed <= points.Length
      invariant forall i :: 0 <= i < failed ==> Normalize(old(points[i]), read) == Ok(points[i])
      invariant forall i :: failed <= i < points.Length ==> points[i] == old(points[i])
    {
      var r := Normalize(points[failed], read);
      if r.Err? {
        return;
      }
      points[failed] := r.value;
      failed := failed + 1;
    }
  }

  /** Normalising an accepted point again changes nothing. */
  lemma NormalizeTwice(p: ConfiguredPoint, read: bool)
    requires Normalize(p, read).Ok?
    ensures Normalize(Normalize(p, read).value, read) == Normalize(p, read)
  {
    hide Trim, Canonical;
    CanonicalTwice(p.dataType);
    PlainName("");
  }

  lemma CanonicalTwice(name: string)
    ensures Canonical(name).Ok? ==>
      var c := Canonical(name).value;
      Canonical(c) == Canonical(name) && Trim(c) == c != "" && Lowercase(c) == c
  {
    hide Lowercase, Trim, Alias;
    if Canonical(name).Ok? {
      AliasPlain(Lowercase(Trim(name)));
      PlainName(Canonical(name).value);
    }
  }

  lemma AliasPlain(name: string)
    requires Alias(name).Ok?
    ensures Alias(Alias(name).value) == Alias(name) && Alias(name).value != ""
    ensures forall c | c in Alias(name).value :: 'a' <= c <= 'z' || '0' <= c <= '9'
  {
  }

  lemma ShortIff(p: Point, payload: seq<Byte>)
    ensures DecodeRegister(p, payload) == Short <==> |payload| < RequiredBytes(p)
  {
    hide Lowercase, Reorder;
  }

  /** Every register point accepted with an explicit type, within the Modbus limit of 125 registers,
      decodes every payload without leaving its slice. */
  lemma AcceptedDecodes(c: ConfiguredPoint, p: Point, payload: seq<Byte>)
    requires Trim(c.dataType) != "" && Normalize(c, true).Ok? && c.quantity <= 125
    requires c.code.fc == 3 || c.code.fc == 4
    requires p.explicit && p.dataType == Normalize(c, true).value.dataType && p.quantity == c.quantity
    ensures DecodeRegister(p, payload) != OutOfRange
    ensures DecodeRegister(p, payload) == Short <==> |payload| < 2 * QuantityFor(p)
  {
    hide Lowercase, Trim, Canonical, DecodeRegister, Normalize;
    ShortIff(p, payload);
    EnoughRegisters(c, p);
    DecodeSafeIff(p);
  }

  lemma EnoughRegisters(c: ConfiguredPoint, p: Point)
    requires Trim(c.dataType) != "" && Normalize(c, true).Ok? && c.quantity <= 125
    requires c.code.fc == 3 || c.code.fc == 4
    requires p.explicit && p.dataType == Normalize(c, true).value.dataType && p.quantity == c.quantity
    ensures QuantityFor(p) >= 1 && (NeedsFour(p) ==> QuantityFor(p) >= 2)
  {
    hide Lowercase, Trim, Canonical;
    CanonicalTwice(c.dataType);
    assert SupportsRead(p.dataType, c.code.fc);
  }

  // ---------------------------------------------------------------- coils

  function BitOf(b: bv8, k: nat): bool
    requires k < 8
  {
    (b >> k) & 1 == 1
  }

  function CoilAt(packed: seq<bv8>, i: nat): bool
    requires i / 8 < |packed|
  {
    BitOf(packed[i / 8], i % 8)
  }

  ghost predicate Packs(packed: seq<bv8>, coils: seq<bool>) {
    && |packed| == (|coils| + 7) / 8
    && forall i :: 0 <= i < 8 * |packed| ==> CoilAt(packed, i) == (i < |coils| && coils[i])
  }

  lemma SetBit(b: bv8, k: nat, j: nat)
    requires k < 8 && j < 8
    ensures BitOf(b | (1 << k), j) == (j == k || BitOf(b, j))
  {
  }

  lemma NoBits(j: nat)
    requires j < 8
    ensures !BitOf(0, j)
  {
  }

  /** Coil i is bit i % 8 of byte i / 8, and the unused bits of the last byte are zero. */
  method PackCoils(coils: seq<bool>) returns (packed: array<bv8>)
    ensures fresh(packed) && Packs(packed[..], coils)
  {
    packed := new bv8[(|coils| + 7) / 8](_ => 0);
    forall j | 0 <= j < 8
      ensures !BitOf(0, j)
    {
      NoBits(j);
    }
    for i := 0 to |coils|
      invariant forall n :: 0 <= n < 8 * packed.Length ==> BitOf(packed[n / 8], n % 8) == (n < i && coils[n])
    {
      if coils[i] {
        ghost var was := packed[i / 8];
        packed[i / 8] := packed[i / 8] | (1 << (i % 8));
        forall n | 0 <= n < 8 * packed.Length
          ensures BitOf(packed[n / 8], n % 8) == (n < i + 1 && coils[n])
        {
          if n / 8 == i / 8 {
            SetBit(was, i % 8, n % 8);
          }
        }
      }
    }
  }

  /** Packing is faithful: a packed form has one reading, and one set of coils has one packed form. */
  lemma PackedOnce(a: seq<bv8>, b: seq<bv8>, coils: seq<bool>)
    requires Packs(a, coils) && Packs(b, coils)
    ensures a == b
  {
    forall k | 0 <= k < |a|
      ensures a[k] == b[k]
    {
      forall j | 0 <= j < 8
        ensures BitOf(a[k], j) == BitOf(b[k], j)
      {
        assert (8 * k + j) / 8 == k && (8 * k + j) % 8 == j;
        assert CoilAt(a, 8 * k + j) == CoilAt(b, 8 * k + j);
      }
      SameBits(a[k], b[k]);
    }
  }

  lemma SameBits(x: bv8, y: bv8)
    requires forall j :: 0 <= j < 8 ==> BitOf(x, j) == BitOf(y, j)
    ensures x == y
  {
    assert BitOf(x, 0) == BitOf(y, 0) && BitOf(x, 1) == BitOf(y, 1) && BitOf(x, 2) == BitOf(y, 2)
      && BitOf(x, 3) == BitOf(y, 3);
    assert BitOf(x, 4) == BitOf(y, 4) && BitOf(x, 5) == BitOf(y, 5) && BitOf(x, 6) == BitOf(y, 6)
      && BitOf(x, 7) == BitOf(y, 7);
  }
}
