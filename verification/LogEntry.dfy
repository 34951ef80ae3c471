/** The 128-byte log entry, its bytes in memory, and the binary formatter. */
module LogEntry {
  import opened Bytes

  const ENTRY_SIZE: nat := 128
  const PAYLOAD_SIZE: nat := 112

  datatype Entry = Entry(timestamp: nat, threadId: nat, level: nat, category: nat, payloadLen: nat,
                         payload: seq<Byte>) {
    predicate Valid() {
      && timestamp < Pow256(8) && threadId < Pow256(4) && level < 256 && category < 256
      && payloadLen < Pow256(2) && |payload| == PAYLOAD_SIZE
    }
  }

  function Pow256(k: nat): nat {
    if k == 0 then 1 else 256 * Pow256(k - 1)
  }

  /** The k low bytes of n, least significant first. */
  function LittleEndian(n: nat, k: nat): (bs: seq<Byte>)
    ensures |bs| == k
  {
    if k == 0 then [] else [n % 256] + LittleEndian(n / 256, k - 1)
  }

  function FromLittleEndian(bs: seq<Byte>): nat {
    if bs == [] then 0 else bs[0] + 256 * FromLittleEndian(bs[1..])
  }

  lemma {:induction false} NumberFromBytes(n: nat, k: nat)
    requires n < Pow256(k)
    ensures FromLittleEndian(LittleEndian(n, k)) == n
    decreases k
  {
    if k > 0 {
      NumberFromBytes(n / 256, k - 1);
      assert LittleEndian(n, k)[1..] == LittleEndian(n / 256, k - 1);
    }
  }

  lemma LowByte(b: Byte, m: nat)
    ensures (b + 256 * m) % 256 == b && (b + 256 * m) / 256 == m
  {
  }

  lemma {:induction false} BytesFromNumber(bs: seq<Byte>)
    ensures FromLittleEndian(bs) < Pow256(|bs|) && LittleEndian(FromLittleEndian(bs), |bs|) == bs
  {
    if bs != [] {
      BytesFromNumber(bs[1..]);
      LowByte(bs[0], FromLittleEndian(bs[1..]));
    }
  }

  /** The entry's bytes: timestamp at 0, thread id at 8, level at 12, category at 13, length at 14, payload at 16. */
  function Encode(e: Entry): (bs: seq<Byte>)
    requires e.Valid()
    ensures |bs| == ENTRY_SIZE
  {
    LittleEndian(e.timestamp, 8) + LittleEndian(e.threadId, 4) + [e.level] + [e.category]
    + LittleEndian(e.payloadLen, 2) + e.payload
  }

  function Decode(bs: seq<Byte>): (e: Entry)
    requires |bs| == ENTRY_SIZE
  {
    Entry(FromLittleEndian(bs[0..8]), FromLittleEndian(bs[8..12]), bs[12], bs[13],
          FromLittleEndian(bs[14..16]), bs[16..128])
  }

  /** An entry read back from its bytes is the entry. */
  lemma DecodeEncode(e: Entry)
    requires e.Valid()
    ensures Decode(Encode(e)) == e
  {
    var bs := Encode(e);
    assert bs[0..8] == LittleEndian(e.timestamp, 8);
    assert bs[8..12] == LittleEndian(e.threadId, 4);
    assert bs[14..16] == LittleEndian(e.payloadLen, 2);
    assert bs[16..128] == e.payload;
    NumberFromBytes(e.timestamp, 8);
    NumberFromBytes(e.threadId, 4);
    NumberFromBytes(e.payloadLen, 2);
  }

  /** The number in four bytes, least significant first. */
  function Word32(b0: nat, b1: nat, b2: nat, b3: nat): nat {
    b0 + 0x100 * b1 + 0x1_0000 * b2 + 0x100_0000 * b3
  }

  lemma FourBytes(bs: seq<Byte>)
    requires |bs| >= 4
    ensures FromLittleEndian(bs) == Word32(bs[0], bs[1], bs[2], bs[3]) + 0x1_0000_0000 * FromLittleEndian(bs[4..])
    ensures |bs| == 4 ==> FromLittleEndian(bs[4..]) == 0
  {
    var r1, r2, r3 := FromLittleEndian(bs[1..]), FromLittleEndian(bs[2..]), FromLittleEndian(bs[3..]);
    assert bs[1..][1..] == bs[2..] && bs[2..][1..] == bs[3..] && bs[3..][1..] == bs[4..];
    assert r3 == bs[3] + 256 * FromLittleEndian(bs[4..]) && r2 == bs[2] + 256 * r3 && r1 == bs[1] + 256 * r2;
  }

  lemma EightBytes(bs: seq<Byte>)
    requires |bs| == 8
    ensures FromLittleEndian(bs)
         == Word32(bs[0], bs[1], bs[2], bs[3]) + 0x1_0000_0000 * Word32(bs[4], bs[5], bs[6], bs[7])
  {
    FourBytes(bs);
    FourBytes(bs[4..]);
  }

  lemma TwoBytes(bs: seq<Byte>)
    requires |bs| == 2
    ensures FromLittleEndian(bs) == Word32(bs[0], bs[1], 0, 0)
  {
    assert bs[1..][1..] == [] && FromLittleEndian(bs[1..][1..]) == 0;
  }

  /** Where each field is: little-endian numbers, the level at byte 12, the category at 13, the payload from 16 on. */
  lemma Layout(e: Entry)
    requires e.Valid()
    ensures var bs := Encode(e);
            && |bs| == 128
            && e.timestamp == Word32(bs[0], bs[1], bs[2], bs[3]) + 0x1_0000_0000 * Word32(bs[4], bs[5], bs[6], bs[7])
            && e.threadId == Word32(bs[8], bs[9], bs[10], bs[11])
            && e.level == bs[12] && e.category == bs[13]
            && e.payloadLen == Word32(bs[14], bs[15], 0, 0)
            && e.payload == bs[16..128]
  {
    hide FromLittleEndian, Word32, LittleEndian, Encode;
    var bs := Encode(e);
    DecodeEncode(e);
    EightBytes(bs[0..8]);
    FourBytes(bs[8..12]);
    TwoBytes(bs[14..16]);
  }

  lemma FieldsOf(bs: seq<Byte>)
    requires |bs| == ENTRY_SIZE
    ensures bs == bs[0..8] + bs[8..12] + [bs[12]] + [bs[13]] + bs[14..16] + bs[16..128]
  {
  }

  lemma FieldFits(bs: seq<Byte>, k: nat)
    requires |bs| == k
    ensures FromLittleEndian(bs) < Pow256(k) && LittleEndian(FromLittleEndian(bs), k) == bs
  {
    BytesFromNumber(bs);
  }

  /** Any 128 bytes are the bytes of a valid entry, and of one only. */
  lemma EncodeDecode(bs: seq<Byte>)
    requires |bs| == ENTRY_SIZE
    ensures Decode(bs).Valid() && Encode(Decode(bs)) == bs
    ensures forall e: Entry :: e.Valid() && Encode(e) == bs ==> e == Decode(bs)
  {
    forall e: Entry | e.Valid() && Encode(e) == bs ensures e == Decode(bs) {
      DecodeEncode(e);
    }
    FieldFits(bs[0..8], 8);
    FieldFits(bs[8..12], 4);
    FieldFits(bs[14..16], 2);
    FieldsOf(bs);
  }

  /** Copies 128 bytes as four 32-byte lanes; all loads come before the stores. */
  method FastCopy128(dst: array<Byte>, src: seq<Byte>)
    requires dst.Length >= ENTRY_SIZE && |src| == ENTRY_SIZE
    modifies dst
    ensures dst[..ENTRY_SIZE] == src
    ensures forall i :: ENTRY_SIZE <= i < dst.Length ==> dst[i] == old(dst[i])
  {
    var y0, y1, y2, y3 := src[0..32], src[32..64], src[64..96], src[96..128];
    forall i | 0 <= i < 32 { dst[i] := y0[i]; }
    forall i | 0 <= i < 32 { dst[32 + i] := y1[i]; }
    forall i | 0 <= i < 32 { dst[64 + i] := y2[i]; }
    forall i | 0 <= i < 32 { dst[96 + i] := y3[i]; }
    assert dst[0..32] == y0 && dst[32..64] == y1 && dst[64..96] == y2 && dst[96..128] == y3;
    assert dst[..128] == dst[0..32] + dst[32..64] + dst[64..96] + dst[96..128];
  }

  /** The binary formatter: the entry's bytes, or nothing if the buffer is too small. */
  method FormatBinary(e: Entry, buf: array<Byte>, size: nat) returns (n: nat)
    requires e.Valid() && size <= buf.Length
    modifies buf
    ensures n == if size < ENTRY_SIZE then 0 else ENTRY_SIZE
    ensures n > 0 ==> buf[..n] == Encode(e)
    ensures n == 0 ==> buf[..] == old(buf[..])
  {
    if size < ENTRY_SIZE { return 0; }
    FastCopy128(buf, Encode(e));
    n := ENTRY_SIZE;
  }
}
