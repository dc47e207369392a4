/** What the byte-order names mean, as laws about the numbers read: which byte of the data is the most significant. */
module ModbusOrder {
  import opened Bytes
  import opened Text
  import opened ModbusCodec

  /** The name as it is compared. */
  function Name(endian: string): string {
    Uppercase(Trim(endian))
  }

  /** Least significant byte first. */
  function FromLittle(bs: seq<Byte>): nat {
    if bs == [] then 0 else bs[0] + 256 * FromLittle(bs[1..])
  }

  /** Most significant word first, each word least significant byte first. */
  function FromLittleWords(bs: seq<Byte>): nat {
    if |bs| < 2 then 0
    else FromLittleWords(bs[..|bs| - 2]) * 0x1_0000 + FromLittle(bs[|bs| - 2..])
  }

  // ---------------------------------------------------------------- rearranged numbers

  lemma Snoc(bs: seq<Byte>, b: Byte)
    ensures FromBig(bs + [b]) == FromBig(bs) * 256 + b
  {
    assert (bs + [b])[..|bs|] == bs;
  }

  function Reversed(bs: seq<Byte>): (r: seq<Byte>)
    ensures |r| == |bs| && forall i | 0 <= i < |bs| :: r[i] == bs[|bs| - 1 - i]
  {
    if bs == [] then [] else Reversed(bs[1..]) + [bs[0]]
  }

  lemma LittleStep(bs: seq<Byte>)
    ensures FromLittle(bs) == if bs == [] then 0 else bs[0] + 256 * FromLittle(bs[1..])
  {
  }

  lemma BigOfNone()
    ensures FromBig([]) == 0
  {
  }

  lemma {:induction false} ReversedReads(bs: seq<Byte>)
    ensures FromBig(Reversed(bs)) == FromLittle(bs)
  {
    hide FromBig, FromLittle;
    LittleStep(bs);
    if bs != [] {
      ReversedReads(bs[1..]);
      Snoc(Reversed(bs[1..]), bs[0]);
    } else {
      BigOfNone();
    }
  }

  function Exchanged(bs: seq<Byte>): (r: seq<Byte>)
    requires |bs| % 2 == 0
    ensures |r| == |bs| && forall i | 0 <= i < |bs| :: r[i] == bs[if i % 2 == 0 then i + 1 else i - 1]
  {
    if bs == [] then [] else Exchanged(bs[..|bs| - 2]) + [bs[|bs| - 1], bs[|bs| - 2]]
  }

  lemma {:induction false} ExchangedReads(bs: seq<Byte>)
    requires |bs| % 2 == 0
    ensures FromBig(Exchanged(bs)) == FromLittleWords(bs)
  {
    if bs != [] {
      var front, a, b := bs[..|bs| - 2], bs[|bs| - 2], bs[|bs| - 1];
      ExchangedReads(front);
      Snoc(Exchanged(front), b);
      Snoc(Exchanged(front) + [b], a);
      assert Exchanged(front) + [b, a] == Exchanged(front) + [b] + [a];
      TwoLittle(bs[|bs| - 2..]);
    }
  }

  lemma TwoLittle(bs: seq<Byte>)
    requires |bs| == 2
    ensures var low: int, high: int := bs[0], bs[1]; FromLittle(bs) == low + 256 * high
  {
    assert FromLittle(bs[1..]) == bs[1] + 256 * FromLittle(bs[1..][1..]);
    assert bs[1..][1..] == [];
  }

  lemma {:induction false} JoinReads(a: seq<Byte>, b: seq<Byte>)
    ensures FromBig(a + b) == FromBig(a) * Pow256(|b|) + FromBig(b)
  {
    if b == [] {
      assert a + b == a;
    } else {
      var n := |b| - 1;
      JoinReads(a, b[..n]);
      assert (a + b)[..|a| + n] == a + b[..n];
      Shifted(FromBig(a), Pow256(n), FromBig(b[..n]), b[n]);
    }
  }

  lemma Shifted(x: nat, p: nat, y: nat, b: nat)
    ensures (x * p + y) * 256 + b == x * (256 * p) + (y * 256 + b)
  {
  }

  // ---------------------------------------------------------------- the names

  lemma ReversedOrder(data: seq<Byte>, e: string)
    requires |data| == 2 || |data| == 4 || |data| == 8
    requires e == "DCBA" || (e == "BA" && |data| == 2)
    ensures Permuted(data, e) == Reversed(data)
  {
    var n := |data|;
    assert forall i | 0 <= i < n :: Source(n, e, i) == n - 1 - i;
    hide Source;
  }

  lemma ExchangedOrder(data: seq<Byte>, e: string)
    requires |data| == 4 || |data| == 8
    requires e == "BADC"
    ensures Permuted(data, e) == Exchanged(data)
  {
    var n := |data|;
    assert forall i | 0 <= i < n :: Source(n, e, i) == if i % 2 == 0 then i + 1 else i - 1;
    hide Source;
  }

  lemma HalvesOrder(data: seq<Byte>, e: string)
    requires |data| == 4 || |data| == 8
    requires e == "CDAB"
    ensures Permuted(data, e) == data[|data| / 2..] + data[..|data| / 2]
  {
    var n := |data|;
    assert forall i | 0 <= i < n :: Source(n, e, i) == if i < n / 2 then i + n / 2 else i - n / 2;
    hide Source;
  }

  lemma PlainOrder(data: seq<Byte>, e: string)
    requires |data| == 2 ==> e != "DCBA" && e != "BA"
    requires |data| == 4 || |data| == 8 ==> e != "DCBA" && e != "BADC" && e != "CDAB"
    ensures Permuted(data, e) == data
  {
    var n := |data|;
    assert forall i | 0 <= i < n :: Source(n, e, i) == i;
    hide Source;
  }

  lemma Normalized(endian: string)
    ensures NormalizeEndian(endian) ==
      if Name(endian) in {"ABCD", "DCBA", "BADC", "CDAB", "AB", "BA"} then Name(endian) else "ABCD"
  {
    hide Trim, Uppercase;
  }

  /** "DCBA", and for two bytes "BA", read the number with its least significant byte first. */
  lemma ReversedIsLittle(data: seq<Byte>, endian: string)
    requires |data| == 2 || |data| == 4 || |data| == 8
    requires Name(endian) == "DCBA" || (Name(endian) == "BA" && |data| == 2)
    ensures FromBig(Reorder(data, endian)) == FromLittle(data)
  {
    hide Name, NormalizeEndian, Permuted, FromBig, FromLittle, Reversed;
    Normalized(endian);
    ReversedOrder(data, Name(endian));
    ReversedReads(data);
  }

  /** "BADC" reads the words in order, each with its bytes exchanged. */
  lemma BytesExchanged(data: seq<Byte>, endian: string)
    requires |data| == 4 || |data| == 8
    requires Name(endian) == "BADC"
    ensures FromBig(Reorder(data, endian)) == FromLittleWords(data)
  {
    hide Name, NormalizeEndian, Permuted, FromBig, FromLittleWords, Exchanged;
    Normalized(endian);
    ExchangedOrder(data, Name(endian));
    ExchangedReads(data);
  }

  /** "CDAB" reads the second half before the first. */
  lemma HalvesExchanged(data: seq<Byte>, endian: string)
    requires |data| == 4 || |data| == 8
    requires Name(endian) == "CDAB"
    ensures var h := |data| / 2;
      FromBig(Reorder(data, endian)) == FromBig(data[h..]) * Pow256(h) + FromBig(data[..h])
  {
    hide Name, NormalizeEndian, Permuted, FromBig, Pow256;
    Normalized(endian);
    HalvesOrder(data, Name(endian));
    JoinReads(data[|data| / 2..], data[..|data| / 2]);
  }

  /** Every other name, and every other length, reads the plain big-endian number. */
  lemma OthersArePlain(data: seq<Byte>, endian: string)
    requires |data| == 2 ==> Name(endian) != "DCBA" && Name(endian) != "BA"
    requires |data| == 4 || |data| == 8 ==> Name(endian) != "DCBA" && Name(endian) != "BADC" && Name(endian) != "CDAB"
    ensures Reorder(data, endian) == data
  {
    hide Name, NormalizeEndian, Permuted;
    Normalized(endian);
    PlainOrder(data, NormalizeEndian(endian));
  }

  /** A 32-bit float with its words exchanged is read from its second word, then its first. */
  lemma SwappedFloat(p: Point, w: seq<Byte>)
    requires p.explicit && p.dataType == "float32" && p.quantity == 2 && Name(p.endian) == "CDAB"
    requires |w| == 4
    ensures var r := DecodeRegister(p, w);
      && r.Value? && r.reading.F32?
      && r.reading.bits32 == FromBig(w[2..]) * 0x1_0000 + FromBig(w[..2])
  {
    HalvesExchanged(w, p.endian);
    Powers();
    FloatReads(p, w);
    hide *;
  }

  lemma FloatReads(p: Point, w: seq<Byte>)
    requires p.explicit && p.dataType == "float32" && p.quantity == 2 && |w| == 4
    ensures var r := DecodeRegister(p, w);
      r.Value? && r.reading.F32? && r.reading.bits32 == FromBig(Reorder(w, p.endian))
  {
    hide Lowercase, Reorder, FromBig, Pow256;
    PlainName("float32");
    var data := Reorder(w, p.endian);
    assert w[..4] == w && data[..4] == data;
  }
}
