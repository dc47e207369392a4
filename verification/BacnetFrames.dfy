/** What BACnet frames and tags mean to the other side: object types, the request header, acknowledgements of a write,
    and values that are read but never written (ANSI/ASHRAE 135, clauses 20.1, 20.2 and 21). */
module BacnetFrames {
  import opened Bytes
  import opened Bacnet
  import T = Text

  // ---------------------------------------------------------------- object types

  /** Object types as the standard enumerates them. */
  const OBJECT_TYPES: map<string, nat> := map[
    "analoginput" := 0, "analogoutput" := 1, "analogvalue" := 2,
    "binaryinput" := 3, "binaryoutput" := 4, "binaryvalue" := 5,
    "multistateinput" := 13, "multistateoutput" := 14, "multistatevalue" := 19]

  /** Exactly the nine supported types are accepted, each under the standard's number. */
  lemma TypeNumberIff(name: string, n: nat)
    ensures TypeNumber(name) == Ok(n) <==> name in OBJECT_TYPES && OBJECT_TYPES[name] == n
  {
  }

  /** The name without its case and separators. */
  function TypeName(objectType: string): string {
    T.Lowercase(T.Without(T.Without(T.Trim(objectType), '_'), '-'))
  }

  lemma TypeOfName(objectType: string, n: nat)
    ensures ObjectTypeID(objectType) == Ok(n) <==>
      TypeName(objectType) in OBJECT_TYPES && OBJECT_TYPES[TypeName(objectType)] == n
  {
    TypeNumberIff(TypeName(objectType), n);
    hide TypeNumber, T.Lowercase, T.Without, T.Trim;
  }

  /** The object a write request names: the standard's type number and the instance. */
  lemma RequestNamesObject(invokeID: Byte, objectType: string, instance: Uint32, value: Value)
    requires TypeName(objectType) in OBJECT_TYPES && instance < 0x40_0000 && Build(value).Ok?
    ensures var f := WriteRequest(invokeID, objectType, instance, value);
      && f.Ok? && |f.value| > 15
      && FromBig(f.value[11..15]) / 0x40_0000 == OBJECT_TYPES[TypeName(objectType)]
      && FromBig(f.value[11..15]) % 0x40_0000 == instance
  {
    TypeOfName(objectType, OBJECT_TYPES[TypeName(objectType)]);
    RequestIdentifier(invokeID, objectType, instance, value);
    hide *;
  }

  lemma Small(instance: Uint32)
    requires instance < 0x40_0000
    ensures instance % 0x40_0000 == instance
  {
  }

  lemma RequestIdentifier(invokeID: Byte, objectType: string, instance: Uint32, value: Value)
    requires ObjectTypeID(objectType).Ok? && instance < 0x40_0000 && Build(value).Ok?
    ensures var f := WriteRequest(invokeID, objectType, instance, value);
      && f.Ok? && |f.value| > 15
      && FromBig(f.value[11..15]) / 0x40_0000 == ObjectTypeID(objectType).value
      && FromBig(f.value[11..15]) % 0x40_0000 == instance
  {
    hide *;
    WriteIsReadable(invokeID, objectType, instance, value);
    ObjectIDSplits(ObjectTypeID(objectType).value, instance);
    Small(instance);
  }

  // ---------------------------------------------------------------- request header

  /** A write request is an original unicast (0x0a) of an NPDU of version 1 that expects a reply (0x04), with a
      confirmed request (PDU type 0) for WriteProperty (service choice 15) of presentValue (property 85, 0x55), the
      value between the tags 3e and 3f. */
  lemma RequestHeader(invokeID: Byte, objectType: string, instance: Uint32, value: Value)
    requires ObjectTypeID(objectType).Ok? && Build(value).Ok?
    ensures var f := WriteRequest(invokeID, objectType, instance, value);
      && f.Ok? && |f.value| > 18
      && f.value[..2] == [0x81, 0x0a] && f.value[4..6] == [0x01, 0x04]
      && f.value[6] / 16 == 0 && f.value[8] == invokeID && f.value[9] == 15
      && f.value[15..18] == [0x19, 0x55, 0x3e] && f.value[|f.value| - 1] == 0x3f
  {
    hide Build, BigEndian, ObjectID, ObjectTypeID;
    var f := WriteRequest(invokeID, objectType, instance, value);
    var id := BigEndian(ObjectID(ObjectTypeID(objectType).value, instance), 4);
    RequestLayout(invokeID, objectType, instance, value);
    assert f.value[15..18] == f.value[10..][5..8];
    assert f.value[|f.value| - 1] == f.value[10..][|f.value| - 11];
  }

  // ---------------------------------------------------------------- acknowledgements of a write

  /** Whether a received frame settles the write with this invoke number; false means that it is for another. */
  function ParseWriteResponse(frame: seq<Byte>, invokeID: Byte): Result<bool, Error> {
    if |frame| < 10 then Err(ShortFrame)
    else if frame[0] != 0x81 then Err(BadBvlc)
    else if frame[4] != 0x01 then Err(BadNpdu)
    else if frame[6] / 16 == 2 then
      if frame[7] != invokeID then Ok(false)
      else if frame[8] != 0x0f then Err(BadService)
      else Ok(true)
    else if frame[6] / 16 == 5 then Err(ErrorPdu)
    else Err(UnsupportedPdu)
  }

  /** A simple acknowledgement: BVLC, NPDU without routing, PDU type 2, invoke number, service choice, anything else. */
  function SimpleAck(length: seq<Byte>, invokeID: Byte, service: Byte, rest: seq<Byte>): seq<Byte>
    requires |length| == 2
  {
    [0x81, 0x0a] + length + [0x01, 0x00, 0x20, invokeID, service] + rest
  }

  /** A simple acknowledgement settles a write request if and only if it repeats the request's invoke number and
      service choice and is longer than the nine octets the standard gives it. */
  lemma AckSettlesIff(invokeID: Byte, objectType: string, instance: Uint32, value: Value,
                      length: seq<Byte>, echoed: Byte, service: Byte, rest: seq<Byte>)
    requires ObjectTypeID(objectType).Ok? && Build(value).Ok? && |length| == 2
    ensures var f := WriteRequest(invokeID, objectType, instance, value);
      && f.Ok? && |f.value| > 10
      && (ParseWriteResponse(SimpleAck(length, echoed, service, rest), invokeID) == Ok(true)
        <==> echoed == f.value[8] && service == f.value[9] && rest != [])
  {
    RequestHeader(invokeID, objectType, instance, value);
    hide WriteRequest, Build, ObjectTypeID;
  }

  /** So the acknowledgement as the standard defines it is always refused. */
  lemma StandardAckRefused(invokeID: Byte)
    ensures ParseWriteResponse(SimpleAck([0, 9], invokeID, 15, []), invokeID) == Err(ShortFrame)
  {
  }

  // ---------------------------------------------------------------- application tags

  /** The standard's tag number of a value. */
  function TagNumber(v: Value): nat {
    match v
    case Boolean(_) => 1
    case Unsigned(_) => 2
    case Signed(_) => 3
    case Real(_) => 4
    case Double(_) => 5
    case Text(_) => 7
  }

  /** A value is built under its tag number and application class, with its contents announced by length: of a
      Boolean the value itself, of up to four octets in the tag, of more in the next octet. */
  lemma TagsAreStandard(v: Value)
    requires Build(v).Ok?
    ensures var b := Build(v).value;
      && b != [] && b[0] / 16 == TagNumber(v) && (b[0] / 8) % 2 == 0
      && if v.Boolean? then |b| == 1 && b[0] % 8 == (if v.b then 1 else 0)
         else if b[0] % 8 == 5 then |b| > 6 && b[1] == |b| - 2
         else b[0] % 8 == |b| - 1 <= 4
  {
    hide BigEndian, EncodeInt, EncodeUint, FromBig;
    match v
    case Signed(i) => IntWidth(i);
    case Unsigned(u) => UintWidth(u);
    case _ =>
  }

  // ---------------------------------------------------------------- values that are only read

  /** An enumerated value (tag 9) is read as the unsigned number of its octets. */
  lemma EnumeratedReads(u: Uint64, rest: seq<Byte>)
    requires |EncodeUint(u)| < 256
    ensures Parse(Numeric(0x90, EncodeUint(u)) + rest) == Ok(Parsed(Unsigned(u), |Numeric(0x90, EncodeUint(u))|))
  {
    hide EncodeUint, FromBig, Parse, ParsedSigned;
    UintWidth(u);
    UintReads(u);
    ParseNumeric(0x90, EncodeUint(u), rest);
  }

  /** A character string (tag 7) is read without its first octet, which names the character set. */
  lemma StringReads(charset: Byte, chars: seq<Byte>, rest: seq<Byte>)
    requires |chars| < 253
    ensures var n := Numeric(0x70, [charset] + chars);
      Parse(n + rest) == Ok(Parsed(Text(chars), |n|))
  {
    hide Parse, ParsedSigned, ParsedUnsigned, FromBig;
    var raw := [charset] + chars;
    var n := Numeric(0x70, raw);
    ParseNumeric(0x70, raw, rest);
    var offset := |n| - |raw|;
    assert (n + rest)[offset + 1..|n|] == (n + rest)[offset..|n|][1..];
  }
}
