/** Which values registers stand for: what a command may carry is what some register content is read as. */
module ModbusValues {
  import opened Bytes
  import opened Text
  import opened ModbusCodec
  import opened ModbusOrder
  import opened ModbusFrame

  /** The type names a register command may have. */
  predicate IsWritable(dt: string) {
    dt in {"short", "int16", "ushort", "uint16", "int32", "uint32", "int64", "uint64",
           "float", "float32", "double", "float64"}
  }

  /** An explicitly typed point without a configured quantity. */
  function PointOf(dt: string, endian: string): Point {
    Point("", dt, true, 3, 0, 0, 0, false, endian)
  }

  /** Some content of the registers of the type is read back as v. */
  ghost predicate Readable(dt: string, v: Number, endian: string) {
    exists content: seq<Byte> | |content| == RequiredBytes(PointOf(dt, endian)) ::
      DecodeRegister(PointOf(dt, endian), content) == Value(ReadingOf(dt, v))
  }

  // ---------------------------------------------------------------- type names

  lemma OnlyWritable(dataType: string, v: Number, endian: string)
    requires EncodeRegister(dataType, v, endian).Ok?
    ensures IsWritable(EncodedType(dataType))
  {
    hide EncodedType, Reorder, BigEndian;
  }

  /** Without a configured quantity a point reads exactly the registers its type is written with. */
  lemma DefaultQuantityFits(p: Point, v: Number)
    requires p.explicit && p.quantity <= 0 && Trim(p.dataType) == p.dataType
    requires EncodeRegister(p.dataType, v, p.endian).Ok?
    ensures RequiredBytes(p) == |EncodeRegister(p.dataType, v, p.endian).value|
  {
    hide Lowercase, Trim, BigEndian, Reorder;
    LowercaseLength(p.dataType);
    TypeNames(EncodedType(p.dataType));
  }

  // ---------------------------------------------------------------- what is accepted

  /** A value is encoded if and only if its type can be written and some content of the registers of that type is
      read back as the value; it then takes exactly those registers. */
  lemma EncodesIff(dataType: string, v: Number, endian: string)
    ensures var dt := EncodedType(dataType);
      && (EncodeRegister(dataType, v, endian).Ok? <==> IsWritable(dt) && Readable(dt, v, endian))
      && (EncodeRegister(dataType, v, endian).Ok? ==>
        |EncodeRegister(dataType, v, endian).value| == RequiredBytes(PointOf(dt, endian)))
  {
    var dt := EncodedType(dataType);
    hide EncodedType, RequiredBytes, DecodeRegister, ReadingOf, IsWritable;
    if EncodeRegister(dataType, v, endian).Ok? {
      OnlyWritable(dataType, v, endian);
      TypeNamesPlain(dt);
      DefaultQuantityFits(PointOf(dt, endian), v);
      var content := EncodeRegister(dt, v, endian).value;
      RegisterRoundTrip(PointOf(dt, endian), v, []);
      assert content + [] == content;
    }
    if IsWritable(dt) && Readable(dt, v, endian) {
      var content: seq<Byte> :| |content| == RequiredBytes(PointOf(dt, endian))
        && DecodeRegister(PointOf(dt, endian), content) == Value(ReadingOf(dt, v));
      TypeNamesPlain(dt);
      ReadIsEncoded(dt, v, endian, content);
    }
  }

  lemma ReadIsEncoded(dt: string, v: Number, endian: string, content: seq<Byte>)
    requires IsWritable(dt) && EncodedType(dt) == dt == Lowercase(dt)
    requires |content| == RequiredBytes(PointOf(dt, endian))
    requires DecodeRegister(PointOf(dt, endian), content) == Value(ReadingOf(dt, v))
    ensures EncodeRegister(dt, v, endian).Ok?
  {
    var p, data := PointOf(dt, endian), Reorder(content, endian);
    assert content[..|content|] == content;
    assert DecodeOrdered(p, data) == Value(ReadingOf(dt, v)) && IsWritable(dt);
    hide EncodedType, Lowercase, Reorder, BigEndian, DecodeOrdered, ReadingOf, InRange, DecodeRegister, RequiredBytes;
    if IntegerWidth(dt) > 0 {
      IntegerInRange(p, v, data);
    } else {
      FloatOfKind(p, v, data);
    }
  }

  /** What an integer type reads is within its range. */
  lemma IntegerInRange(p: Point, v: Number, data: seq<Byte>)
    requires p.explicit && Lowercase(p.dataType) == p.dataType && IntegerWidth(p.dataType) > 0 && |data| >= 2
    requires DecodeOrdered(p, data) == Value(ReadingOf(p.dataType, v))
    ensures v.Integer? && InRange(p.dataType, v.n)
  {
    FromBigBound(data[..2]);
    if |data| >= 4 {
      FromBigBound(data[..4]);
    }
    Powers();
    hide FromBig, Pow256, Lowercase, Word64;
  }

  lemma FloatOfKind(p: Point, v: Number, data: seq<Byte>)
    requires p.explicit && Lowercase(p.dataType) == p.dataType && IsWritable(p.dataType)
    requires IntegerWidth(p.dataType) == 0 && |data| >= 2
    requires DecodeOrdered(p, data) == Value(ReadingOf(p.dataType, v))
    ensures if p.dataType == "float" || p.dataType == "float32" then v.Single? else v.Wide?
    ensures p.dataType in {"float", "float32", "double", "float64"}
  {
    hide FromBig, Pow256, Lowercase, Word64;
  }

  /** A command is built if and only if its address fits and its value is one the function code can carry: one coil,
      some coils, or a number that the registers of its type are read back as, one register for code 6. */
  lemma BuildsIff(m: Message)
    ensures var dt := EncodedType(m.dataType);
      Refusal(m).Ok? <==>
        && m.address < 0x1_0000
        && (
          || (m.functionCode == 5 && m.value.Coil?)
          || (m.functionCode == 15 && m.value.Coils? && m.value.list != [])
          || (m.functionCode == 16 && m.value.Num? && IsWritable(dt) && Readable(dt, m.value.number, m.endian))
          || (m.functionCode == 6 && m.value.Num? && IsWritable(dt) && Readable(dt, m.value.number, m.endian)
            && RequiredBytes(PointOf(dt, m.endian)) == 2))
  {
    if m.value.Num? {
      EncodesIff(m.dataType, m.value.number, m.endian);
    }
    hide EncodeRegister, EncodedType, IsWritable, Readable, RequiredBytes;
  }

  // ---------------------------------------------------------------- single registers

  /** A floating-point type that was not declared explicitly is read as one unsigned register; the
      configured byte order may only exchange its two bytes. */
  lemma LegacyFloatIsWord(p: Point, payload: seq<Byte>)
    requires !p.explicit && (Lowercase(p.dataType) == "float32" || Lowercase(p.dataType) == "float64")
    requires p.quantity <= 1 && |payload| >= 2
    ensures var little := Name(p.endian) == "BA" || Name(p.endian) == "DCBA";
      var first: int, second: int := payload[0], payload[1];
      DecodeRegister(p, payload) == Value(U16(if little then first + 256 * second else 256 * first + second))
  {
    hide Lowercase, Reorder, Name, FromBig;
    var data := Reorder(payload[..2], p.endian);
    assert RequiredBytes(p) == 2 && data[..2] == data;
    WordRead(payload[..2], p.endian);
  }

  lemma WordRead(w: seq<Byte>, endian: string)
    requires |w| == 2
    ensures var little := Name(endian) == "BA" || Name(endian) == "DCBA";
      var first: int, second: int := w[0], w[1];
      FromBig(Reorder(w, endian)) == if little then first + 256 * second else 256 * first + second
  {
    hide Reorder, Name, FromBig, FromLittle;
    if Name(endian) == "BA" || Name(endian) == "DCBA" {
      ReversedIsLittle(w, endian);
      TwoLittle(w);
    } else {
      OthersArePlain(w, endian);
      TwoBig(w);
    }
  }

  lemma TwoBig(w: seq<Byte>)
    requires |w| == 2
    ensures var first: int, second: int := w[0], w[1]; FromBig(w) == 256 * first + second
  {
    Snoc([], w[0]);
    Snoc([w[0]], w[1]);
    BigOfNone();
    assert [] + [w[0]] == [w[0]] && [w[0]] + [w[1]] == w;
  }

  /** A truth value is read from one register: false when both its bytes are zero, in any byte order. */
  lemma OneRegisterFlag(p: Point, payload: seq<Byte>)
    requires Lowercase(p.dataType) == "bool" && p.quantity <= 1 && |payload| >= 2
    ensures DecodeRegister(p, payload) == Value(Flag(payload[0] != 0 || payload[1] != 0))
  {
    hide Lowercase, Reorder, Name, FromBig;
    var data := Reorder(payload[..2], p.endian);
    assert RequiredBytes(p) == 2 && data[..2] == data;
    WordRead(payload[..2], p.endian);
  }

  // ---------------------------------------------------------------- which types are supported

  /** The canonical names, with every spelling that stands for each. */
  const SPELLINGS: map<string, set<string>> := map[
    "bool" := {"bool", "boolean"}, "int8" := {"int8"}, "uint8" := {"uint8", "byte"},
    "int16" := {"int16", "short"}, "uint16" := {"uint16", "ushort", "word"},
    "int32" := {"int32", "int"}, "uint32" := {"uint32", "uint", "dword"},
    "int64" := {"int64", "long"}, "uint64" := {"uint64", "ulong"},
    "float32" := {"float32", "float"}, "float64" := {"float64", "double"},
    "string" := {"string"}, "enum" := {"enum", "enumeration"}]

  predicate IsCanonical(dt: string) {
    dt in {"bool", "int8", "uint8", "int16", "uint16", "int32", "uint32", "int64", "uint64", "float32", "float64",
           "string", "enum"}
  }

  lemma AliasIff(name: string, dt: string)
    ensures Alias(name) == Ok(dt) <==> dt in SPELLINGS && name in SPELLINGS[dt]
  {
  }

  lemma AliasIsCanonical(name: string)
    ensures Alias(name).Ok? ==> IsCanonical(Alias(name).value)
  {
  }

  /** The reading is a value of the type. */
  predicate IsOf(dt: string, r: Reading) {
    || (dt == "bool" && r.Flag?)
    || (dt == "int16" && r.I16?) || (dt == "uint16" && r.U16?)
    || (dt == "int32" && r.I32?) || (dt == "uint32" && r.U32?)
    || (dt == "int64" && r.I64?) || (dt == "uint64" && r.U64?)
    || (dt == "float32" && r.F32?) || (dt == "float64" && r.F64?)
  }

  predicate ReadsAs(dt: string, o: Outcome) {
    o.Value? && IsOf(dt, o.reading)
  }

  lemma TypeNamesPlain(dt: string)
    requires IsCanonical(dt) || IsWritable(dt)
    ensures Lowercase(dt) == dt == Trim(dt) && EncodedType(dt) == dt
  {
    PlainLetters(dt);
    PlainName(dt);
    hide Lowercase, Trim;
  }

  lemma PlainLetters(dt: string)
    requires IsCanonical(dt) || IsWritable(dt)
    ensures dt != "" && forall c | c in dt :: 'a' <= c <= 'z' || '0' <= c <= '9'
  {
  }

  /** A type is supported for reading exactly where what is read is always a value of the type. */
  lemma ReadSupportedIff(dt: string, fc: int)
    requires IsCanonical(dt)
    ensures SupportsRead(dt, fc) <==>
      || ((fc == 1 || fc == 2) && forall on :: IsOf(dt, Flag(on)))
      || ((fc == 3 || fc == 4) && forall payload: seq<Byte> | |payload| == RequiredBytes(PointOf(dt, "")) ::
            ReadsAs(dt, DecodeRegister(PointOf(dt, ""), payload)))
  {
    TypeNamesPlain(dt);
    var p := PointOf(dt, "");
    forall payload: seq<Byte> | |payload| == RequiredBytes(p)
      ensures ReadsAs(dt, DecodeRegister(p, payload)) <==> SupportsRead(dt, 3)
    {
      KindRead(dt, payload);
    }
    assert |Zeros(RequiredBytes(p))| == RequiredBytes(p);
    hide Lowercase, Trim, DecodeRegister, RequiredBytes, EncodedType, ReadsAs;
    if fc == 3 || fc == 4 {
      assert SupportsRead(dt, fc) <==> ReadsAs(dt, DecodeRegister(p, Zeros(RequiredBytes(p))));
    } else {
      assert IsOf(dt, Flag(true)) <==> dt == "bool";
    }
  }

  lemma KindRead(dt: string, payload: seq<Byte>)
    requires IsCanonical(dt) && Lowercase(dt) == dt && |payload| == RequiredBytes(PointOf(dt, ""))
    ensures ReadsAs(dt, DecodeRegister(PointOf(dt, ""), payload)) <==> SupportsRead(dt, 3)
  {
    hide Lowercase, Reorder, FromBig, Word64;
  }

  /** A type is supported for writing exactly where a command with some value of it is built. */
  lemma WriteSupportedIff(dt: string, fc: int)
    requires IsCanonical(dt)
    ensures SupportsWrite(dt, fc) <==>
      || ((fc == 5 || fc == 15) && dt == "bool")
      || ((fc == 6 || fc == 16) && exists v :: Refusal(Message(1, fc, 0, dt, "", Num(v))).Ok?)
  {
    TypeNamesPlain(dt);
    SampleWrites(dt);
    forall v | EncodeRegister(dt, v, "").Ok?
      ensures IsWritable(dt) && |EncodeRegister(dt, v, "").value| == 2 * RequiredRegisters(dt)
    {
      OnlyWritable(dt, v, "");
      RegistersTaken(dt, v, "");
    }
    WritableSupported(dt);
    hide Lowercase, Trim, EncodedType, EncodeRegister, IsWritable, RequiredRegisters, SupportsWrite, IsCanonical,
      Sample;
    if IsWritable(dt) && fc == 16 {
      assert Refusal(Message(1, 16, 0, dt, "", Num(Sample(dt)))).Ok?;
    }
    if IsWritable(dt) && fc == 6 && RequiredRegisters(dt) == 1 {
      assert Refusal(Message(1, 6, 0, dt, "", Num(Sample(dt)))).Ok?;
    }
  }

  lemma WritableSupported(dt: string)
    requires IsCanonical(dt)
    ensures SupportsWrite(dt, 16) <==> IsWritable(dt)
    ensures SupportsWrite(dt, 6) <==> IsWritable(dt) && RequiredRegisters(dt) == 1
    ensures SupportsWrite(dt, 5) <==> dt == "bool"
    ensures SupportsWrite(dt, 15) <==> dt == "bool"
    ensures forall fc | fc != 5 && fc != 6 && fc != 15 && fc != 16 :: !SupportsWrite(dt, fc)
  {
  }

  lemma SampleWrites(dt: string)
    requires IsCanonical(dt) && EncodedType(dt) == dt
    ensures IsWritable(dt) ==> EncodeRegister(dt, Sample(dt), "").Ok?
  {
    hide EncodedType, Reorder, BigEndian;
  }

  function Sample(dt: string): Number {
    if dt == "float32" then Single(0) else if dt == "float64" then Wide(0) else Integer(0)
  }

  /** A type asks for as many registers as its values are written to. */
  lemma RegistersTaken(dt: string, v: Number, endian: string)
    requires IsCanonical(dt) && EncodeRegister(dt, v, endian).Ok?
    ensures |EncodeRegister(dt, v, endian).value| == 2 * RequiredRegisters(dt)
  {
    TypeNamesPlain(dt);
    hide Lowercase, Trim, EncodedType, Reorder, BigEndian;
  }
}
