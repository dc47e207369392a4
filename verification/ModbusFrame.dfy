/** Command frames: header, data and check bytes. */
module ModbusFrame {
  import opened Bytes
  import opened Text
  import opened ModbusCodec
  import Crc

  datatype CommandValue = Num(number: Number) | Coil(on: bool) | Coils(list: seq<bool>) | Unusable

  datatype Message = Message(device: nat, functionCode: int, address: Uint64, dataType: string, endian: string,
                             value: CommandValue)

  /** Bytes as the check-byte computation and the coil packing see them. */
  function Vectors(bs: seq<Byte>): (r: seq<bv8>)
    ensures |r| == |bs|
  {
    seq(|bs|, i requires 0 <= i < |bs| => bs[i] as bv8)
  }

  function Numbers(ws: seq<bv8>): (r: seq<Byte>)
    ensures |r| == |ws|
  {
    seq(|ws|, i requires 0 <= i < |ws| => ws[i] as int)
  }

  lemma VectorBack(w: bv8)
    ensures (w as int) as bv8 == w
  {
  }

  lemma VectorsBack(ws: seq<bv8>)
    ensures Vectors(Numbers(ws)) == ws
  {
    forall i | 0 <= i < |ws|
      ensures (ws[i] as int) as bv8 == ws[i]
    {
      VectorBack(ws[i]);
    }
  }

  /** A frame is what precedes its check bytes, followed by check bytes that make it valid. */
  ghost predicate Seals(body: seq<Byte>, f: seq<Byte>) {
    |f| == |body| + 2 && f[..|body|] == body && Crc.Value(Vectors(f)) == 0
  }

  method Seal(body: seq<Byte>) returns (f: seq<Byte>)
    ensures Seals(body, f)
  {
    hide Crc.Run, Crc.Low, Crc.High;
    var crc := Crc.ComputeCRC(Vectors(body));
    var lo, hi := Crc.Low(crc), Crc.High(crc);
    f := body + [lo as int, hi as int];
    VectorBack(lo);
    VectorBack(hi);
    assert Vectors(f) == Vectors(body) + [lo, hi];
    Crc.SplitWord(crc);
    Crc.Residue(Vectors(body), lo, hi);
  }

  /** Register data of a message, when it has any. */
  function RegisterData(m: Message): Result<seq<Byte>, CommandError> {
    if m.value.Num? then EncodeRegister(m.dataType, m.value.number, m.endian) else Err(Coercion)
  }

  /** The error a message is refused with. */
  function Refusal(m: Message): Result<(), CommandError> {
    if m.address > 0xFFFF then Err(AddressOverflow)
    else if m.functionCode == 6 then
      match RegisterData(m)
      case Err(e) => Err(e)
      case Ok(data) => if |data| != 2 then Err(NotOneRegister) else Ok(())
    else if m.functionCode == 5 then if m.value.Coil? then Ok(()) else Err(Coercion)
    else if m.functionCode == 16 then
      match RegisterData(m)
      case Err(e) => Err(e)
      case Ok(_) => Ok(())
    else if m.functionCode == 15 then
      if !m.value.Coils? then Err(Coercion)
      else if m.value.list == [] then Err(EmptyCoils) else Ok(())
    else Err(UnsupportedFunction)
  }

  /** The frame a message stands for, field by field. */
  ghost predicate Carries(m: Message, f: seq<Byte>)
    requires Refusal(m).Ok?
  {
    && |f| >= 8
    && Crc.Value(Vectors(f)) == 0
    && f[..2] == [m.device % 256, m.functionCode]
    && FromBig(f[2..4]) == m.address
    && match m.functionCode
       case 6 => |f| == 8 && Ok(f[4..6]) == RegisterData(m)
       case 5 => |f| == 8 && f[4..6] == [if m.value.on then 255 else 0, 0]
       case 16 =>
         && |f| >= 9
         && Ok(f[7..|f| - 2]) == RegisterData(m)
         && f[6] == |f| - 9
         && 2 * FromBig(f[4..6]) == |f| - 9
       case _ =>
         && |f| >= 9
         && Packs(Vectors(f[7..|f| - 2]), m.value.list)
         && f[6] == (|f| - 9) % 256
         && FromBig(f[4..6]) == |m.value.list| % 0x1_0000
  }

  lemma EncodedLength(m: Message)
    requires RegisterData(m).Ok?
    ensures |RegisterData(m).value| in {2, 4, 8}
  {
  }

  function Header(m: Message): (h: seq<Byte>)
    requires 0 <= m.functionCode < 256 && m.address <= 0xFFFF
    ensures |h| == 4
  {
    [m.device % 256, m.functionCode] + BigEndian(m.address, 2)
  }

  lemma HeaderReads(m: Message, rest: seq<Byte>, f: seq<Byte>)
    requires 0 <= m.functionCode < 256 && m.address <= 0xFFFF
    requires Seals(Header(m) + rest, f)
    ensures f[..2] == [m.device % 256, m.functionCode] && FromBig(f[2..4]) == m.address
    ensures f[4..|f| - 2] == rest
  {
    hide BigEndian, FromBig, Vectors, Crc.Run;
    var body := Header(m) + rest;
    assert f[..2] == f[..|body|][..2] && f[2..4] == f[..|body|][2..4];
    assert f[4..|f| - 2] == f[..|body|][4..];
    assert body[2..4] == BigEndian(m.address, 2);
    Powers();
    ReadsBack(m.address, 2);
  }

  /** Data preceded by a count and its own length. */
  lemma CountedData(f: seq<Byte>, count: Uint16, n: Byte, data: seq<Byte>)
    requires |f| >= 6 && f[4..|f| - 2] == BigEndian(count, 2) + [n] + data
    ensures |f| == 9 + |data| && FromBig(f[4..6]) == count && f[6] == n && f[7..|f| - 2] == data
  {
    hide BigEndian, FromBig;
    Powers();
    ReadsBack(count, 2);
    var inner := f[4..|f| - 2];
    assert f[4..6] == inner[..2] && f[6] == inner[2] && f[7..|f| - 2] == inner[3..];
    var head := BigEndian(count, 2);
    assert inner[..2] == head && inner[2] == n && inner[3..] == data;
  }

  method BuildModbusFrame(m: Message) returns (r: Result<seq<Byte>, CommandError>)
    ensures Refusal(m).Err? ==> r == Err(Refusal(m).error)
    ensures Refusal(m).Ok? ==> r.Ok? && Carries(m, r.value)
  {
    hide EncodeRegister, BigEndian, FromBig, Vectors, Crc.Run, Packs;
    if m.address > 0xFFFF {
      return Err(AddressOverflow);
    }
    if m.functionCode == 6 {
      var data := RegisterData(m);
      if data.Err? {
        return Err(data.error);
      }
      if |data.value| != 2 {
        return Err(NotOneRegister);
      }
      var f := Seal(Header(m) + data.value);
      HeaderReads(m, data.value, f);
      return Ok(f);
    } else if m.functionCode == 5 {
      if !m.value.Coil? {
        return Err(Coercion);
      }
      var data: seq<Byte> := [if m.value.on then 255 else 0, 0];
      var f := Seal(Header(m) + data);
      HeaderReads(m, data, f);
      return Ok(f);
    } else if m.functionCode == 16 {
      var data := RegisterData(m);
      if data.Err? {
        return Err(data.error);
      }
      EncodedLength(m);
      var registers := |data.value| / 2;
      var rest: seq<Byte> := BigEndian(registers, 2) + [|data.value|] + data.value;
      var f := Seal(Header(m) + rest);
      HeaderReads(m, rest, f);
      CountedData(f, registers, |data.value|, data.value);
      return Ok(f);
    } else if m.functionCode == 15 {
      if !m.value.Coils? {
        return Err(Coercion);
      }
      if m.value.list == [] {
        return Err(EmptyCoils);
      }
      r := BuildCoilFrame(m);
      return;
    }
    r := Err(UnsupportedFunction);
  }

  method BuildCoilFrame(m: Message) returns (r: Result<seq<Byte>, CommandError>)
    requires Refusal(m).Ok? && m.functionCode == 15
    ensures r.Ok? && Carries(m, r.value)
  {
    hide BigEndian, FromBig, Vectors, Numbers, Crc.Run, CoilAt;
    var coils := m.value.list;
    var packed := PackCoils(coils);
    var count := |coils| % 0x1_0000;
    var rest: seq<Byte> := BigEndian(count, 2) + [packed.Length % 256] + Numbers(packed[..]);
    var f := Seal(Header(m) + rest);
    HeaderReads(m, rest, f);
    CountedData(f, count, packed.Length % 256, Numbers(packed[..]));
    VectorsBack(packed[..]);
    r := Ok(f);
  }

  /** A register frame delivers its value: the receiver's check passes, and reading the data back
      under the same type and byte order yields the value that was sent. */
  lemma RegisterFrameDelivers(m: Message, f: seq<Byte>, p: Point)
    requires (m.functionCode == 6 || m.functionCode == 16) && Refusal(m).Ok? && Carries(m, f)
    requires p.explicit && p.dataType == m.dataType == Trim(m.dataType) && p.endian == m.endian
    requires RequiredBytes(p) == |RegisterData(m).value|
    ensures Crc.Value(Vectors(f)) == 0
    ensures var data := if m.functionCode == 6 then f[4..6] else f[7..|f| - 2];
      DecodeRegister(p, data) == Value(ReadingOf(m.dataType, m.value.number))
  {
    hide DecodeRegister, EncodeRegister, Crc.Run, FromBig;
    RegisterRoundTrip(p, m.value.number, []);
    assert RegisterData(m).value + [] == RegisterData(m).value;
  }

  /** The byte-count field of a coil frame is true exactly up to 2040 coils; the builder does not check. */
  lemma CoilFrameHonestIff(m: Message, f: seq<Byte>)
    requires m.functionCode == 15 && Refusal(m).Ok? && Carries(m, f)
    ensures f[6] == |f| - 9 <==> |m.value.list| <= 2040
  {
    hide Crc.Run, FromBig;
    assert |Vectors(f[7..|f| - 2])| == |f| - 9;
  }

  /** One coil too many: 256 data bytes, announced as none. */
  lemma CoilCountOverflows(m: Message, f: seq<Byte>)
    requires m == Message(1, 15, 0, "bool", "ABCD", Coils(seq(2041, _ => true)))
    ensures Refusal(m).Ok?
    ensures Carries(m, f) ==> |f| - 9 == 256 && f[6] == 0
  {
    hide Crc.Run, FromBig;
    if Carries(m, f) {
      assert |Vectors(f[7..|f| - 2])| == |f| - 9;
    }
  }
}
