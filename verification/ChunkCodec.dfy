/** The binary chunk frame of crates/common/src/lib.rs: a 36-byte header
    followed by the chunk's bytes. */
module ChunkCodec {
  import opened Basics

  const MAGIC: seq<byte> := [0x59, 0x32, 0x4D, 0x42]
  const FILE_CHUNK: byte := 1
  const ENCODED_LEN := 36
  const UUID_LEN: nat := 16
  const U32_LEN: nat := 4

  datatype ChunkHeader = ChunkHeader(
    version: byte, frameType: byte, fileId: Uuid, chunkIndex: u32, totalChunks: u32, payloadSize: u32)

  function NewHeader(fileId: Uuid, chunkIndex: u32, totalChunks: u32, payloadSize: u32): ChunkHeader {
    ChunkHeader(3, FILE_CHUNK, fileId, chunkIndex, totalChunks, payloadSize)
  }

  // ---------- little-endian integers ----------

  function Pow256(k: nat): nat {
    if k == 0 then 1 else 256 * Pow256(k - 1)
  }

  /** Byte i of n, counting from the least significant. */
  function Digit(n: nat, i: nat): byte {
    if i == 0 then n % 256 else Digit(n / 256, i - 1)
  }

  function LittleEndian(n: nat, k: nat): (s: seq<byte>)
    ensures |s| == k
  {
    seq(k, i requires 0 <= i < k => Digit(n, i))
  }

  function FromLittleEndian(s: seq<byte>): nat {
    if s == [] then 0 else s[0] + 256 * FromLittleEndian(s[1..])
  }

  lemma {:induction false} NumberBytesNumber(n: nat, k: nat)
    requires n < Pow256(k)
    ensures FromLittleEndian(LittleEndian(n, k)) == n
  {
    if k > 0 {
      NumberBytesNumber(n / 256, k - 1);
      assert LittleEndian(n, k)[1..] == LittleEndian(n / 256, k - 1);
      assert LittleEndian(n, k)[0] == n % 256;
    }
  }

  lemma {:induction false} BytesNumberBytes(s: seq<byte>)
    ensures FromLittleEndian(s) < Pow256(|s|)
    ensures LittleEndian(FromLittleEndian(s), |s|) == s
  {
    if s != [] {
      BytesNumberBytes(s[1..]);
      var n := FromLittleEndian(s);
      assert n / 256 == FromLittleEndian(s[1..]) && n % 256 == s[0];
      forall i | 0 < i < |s|
        ensures LittleEndian(n, |s|)[i] == s[i]
      {
        assert LittleEndian(n / 256, |s| - 1)[i - 1] == s[1..][i - 1];
      }
    }
  }

  lemma Widths()
    ensures Pow256(2) == 0x1_0000 && Pow256(4) == 0x1_0000_0000
    ensures Pow256(16) == 0x1_0000_0000_0000_0000_0000_0000_0000_0000
  {
    assert Pow256(4) == 0x1_0000_0000;
    assert Pow256(8) == 0x1_0000_0000_0000_0000;
    assert Pow256(12) == 0x1_0000_0000_0000_0000_0000_0000;
  }

  // ---------- frames ----------

  /** The fixed part of the header before the file id; bytes 6 and 7 are reserved. */
  function Preamble(h: ChunkHeader): (s: seq<byte>)
    ensures |s| == 8
  {
    MAGIC + [h.version, h.frameType] + [0, 0]
  }

  function EncodeHeader(h: ChunkHeader): (s: seq<byte>)
    ensures |s| == ENCODED_LEN
  {
    Preamble(h) + LittleEndian(h.fileId, UUID_LEN) + LittleEndian(h.chunkIndex, U32_LEN)
    + LittleEndian(h.totalChunks, U32_LEN) + LittleEndian(h.payloadSize, U32_LEN)
  }

  function Encode(h: ChunkHeader, payload: seq<byte>): seq<byte> {
    EncodeHeader(h) + payload
  }

  function ReadUuid(s: seq<byte>): Uuid
    requires |s| == 16
  {
    BytesNumberBytes(s); Widths();
    FromLittleEndian(s)
  }

  function ReadU32(s: seq<byte>): u32
    requires |s| == 4
  {
    BytesNumberBytes(s); Widths();
    FromLittleEndian(s)
  }

  function Decode(frame: seq<byte>): Option<(ChunkHeader, seq<byte>)> {
    if |frame| < ENCODED_LEN then None
    else if frame[0..4] != MAGIC then None
    else
      var payloadSize := ReadU32(frame[32..36]);
      var payload := frame[36..];
      if |payload| != payloadSize then None
      else
        Some((ChunkHeader(frame[4], frame[5], ReadUuid(frame[8..24]), ReadU32(frame[24..28]),
                          ReadU32(frame[28..32]), payloadSize), payload))
  }

  /** The encoder as the source runs it: one field appended after another. */
  method EncodeWithPayload(h: ChunkHeader, payload: seq<byte>) returns (bytes: seq<byte>)
    ensures bytes == Encode(h, payload)
    ensures |payload| == h.payloadSize ==> Decode(bytes) == Some((h, payload))
  {
    bytes := [];
    bytes := bytes + MAGIC;
    bytes := bytes + [h.version];
    bytes := bytes + [h.frameType];
    bytes := bytes + [0, 0];
    assert bytes == Preamble(h);
    bytes := bytes + LittleEndian(h.fileId, UUID_LEN);
    bytes := bytes + LittleEndian(h.chunkIndex, U32_LEN);
    bytes := bytes + LittleEndian(h.totalChunks, U32_LEN);
    bytes := bytes + LittleEndian(h.payloadSize, U32_LEN);
    bytes := bytes + payload;
    DecodeEncode(h, payload);
  }

  lemma EncodedFields(h: ChunkHeader, payload: seq<byte>)
    ensures var f := Encode(h, payload);
            && f[0..4] == MAGIC && f[4] == h.version && f[5] == h.frameType && f[6..8] == [0, 0]
            && f[8..24] == LittleEndian(h.fileId, UUID_LEN) && f[24..28] == LittleEndian(h.chunkIndex, U32_LEN)
            && f[28..32] == LittleEndian(h.totalChunks, U32_LEN) && f[32..36] == LittleEndian(h.payloadSize, U32_LEN)
            && f[36..] == payload
  {
  }

  /** A number's four bytes from position p on, least significant first. */
  predicate NumberAt(f: seq<byte>, p: nat, n: nat) {
    && p + 4 <= |f|
    && f[p] == n % 0x100 && f[p + 1] == n / 0x100 % 0x100
    && f[p + 2] == n / 0x1_0000 % 0x100 && f[p + 3] == n / 0x100_0000 % 0x100
  }

  /** The frame byte by byte: "Y2MB", version, type, two zeros, the file id, index, total and size, and the payload. A
      new header has version 3 and type 1. */
  lemma FrameLayout(h: ChunkHeader, payload: seq<byte>)
    ensures var f := Encode(h, payload);
            && |f| == 36 + |payload| && f[..4] == [0x59, 0x32, 0x4D, 0x42]
            && f[4] == h.version && f[5] == h.frameType && f[6] == 0 && f[7] == 0
            && NumberAt(f, 8, h.fileId) && NumberAt(f, 12, h.fileId / 0x1_0000_0000)
            && NumberAt(f, 16, h.fileId / 0x1_0000_0000_0000_0000)
            && NumberAt(f, 20, h.fileId / 0x1_0000_0000_0000_0000_0000_0000)
            && NumberAt(f, 24, h.chunkIndex) && NumberAt(f, 28, h.totalChunks) && NumberAt(f, 32, h.payloadSize)
            && f[36..] == payload
    ensures NewHeader(h.fileId, h.chunkIndex, h.totalChunks, h.payloadSize).version == 3
    ensures NewHeader(h.fileId, h.chunkIndex, h.totalChunks, h.payloadSize).frameType == 1
  {
    hide NumberAt;
    var f := Encode(h, payload);
    EncodedFields(h, payload);
    FourBytes(h.chunkIndex, U32_LEN, 0);
    FourBytes(h.totalChunks, U32_LEN, 0);
    FourBytes(h.payloadSize, U32_LEN, 0);
    NumberInside(f, 24, 4, 0, h.chunkIndex);
    NumberInside(f, 28, 4, 0, h.totalChunks);
    NumberInside(f, 32, 4, 0, h.payloadSize);
    FileIdLayout(f, h.fileId);
  }

  lemma NumberInside(f: seq<byte>, start: nat, len: nat, p: nat, n: nat)
    requires start + len <= |f| && NumberAt(f[start..start + len], p, n)
    ensures NumberAt(f, start + p, n)
  {
  }

  lemma FileIdLayout(f: seq<byte>, n: Uuid)
    requires |f| >= 24 && f[8..24] == LittleEndian(n, UUID_LEN)
    ensures NumberAt(f, 8, n) && NumberAt(f, 12, n / 0x1_0000_0000) && NumberAt(f, 16, n / 0x1_0000_0000_0000_0000)
    ensures NumberAt(f, 20, n / 0x1_0000_0000_0000_0000_0000_0000)
  {
    hide NumberAt;
    Quarters(n);
    FourBytes(n, UUID_LEN, 0);
    FourBytes(n, UUID_LEN, 4);
    FourBytes(n, UUID_LEN, 8);
    FourBytes(n, UUID_LEN, 12);
    NumberInside(f, 8, 16, 0, n);
    NumberInside(f, 8, 16, 4, Shifted(n, 4));
    NumberInside(f, 8, 16, 8, Shifted(n, 8));
    NumberInside(f, 8, 16, 12, Shifted(n, 12));
  }

  function Shifted(n: nat, k: nat): nat {
    if k == 0 then n else Shifted(n / 256, k - 1)
  }

  lemma {:induction false} DigitShifted(n: nat, i: nat)
    ensures Digit(n, i) == Shifted(n, i) % 256
  {
    if i > 0 { DigitShifted(n / 256, i - 1); }
  }

  lemma {:induction false} ShiftedOnce(n: nat, k: nat)
    ensures Shifted(n, k + 1) == Shifted(n, k) / 256
  {
    if k > 0 { ShiftedOnce(n / 256, k - 1); }
  }

  lemma Divisions(m: nat)
    ensures m / 256 / 256 == m / 0x1_0000 && m / 256 / 256 / 256 == m / 0x100_0000
  {
  }

  /** Four bytes of a number, from byte p on. */
  lemma FourBytes(n: nat, k: nat, p: nat)
    requires p + 4 <= k
    ensures NumberAt(LittleEndian(n, k), p, Shifted(n, p))
  {
    hide Shifted, Digit;
    DigitShifted(n, p);
    DigitShifted(n, p + 1);
    DigitShifted(n, p + 2);
    DigitShifted(n, p + 3);
    ShiftedOnce(n, p);
    ShiftedOnce(n, p + 1);
    ShiftedOnce(n, p + 2);
    Divisions(Shifted(n, p));
  }

  lemma Quarters(n: nat)
    ensures Shifted(n, 4) == n / 0x1_0000_0000 && Shifted(n, 8) == n / 0x1_0000_0000_0000_0000
    ensures Shifted(n, 12) == n / 0x1_0000_0000_0000_0000_0000_0000
  {
    FourShifts(n);
    ShiftsAdd(n, 4, 4);
    ShiftsAdd(n, 8, 4);
    FourShifts(Shifted(n, 4));
    FourShifts(Shifted(n, 8));
  }

  lemma FourShifts(n: nat)
    ensures Shifted(n, 4) == n / 0x1_0000_0000
  {
    ShiftedOnce(n, 0);
    ShiftedOnce(n, 1);
    ShiftedOnce(n, 2);
    ShiftedOnce(n, 3);
    assert Shifted(n, 0) == n;
  }

  lemma {:induction false} ShiftsAdd(n: nat, j: nat, k: nat)
    ensures Shifted(Shifted(n, j), k) == Shifted(n, j + k)
  {
    if j > 0 { ShiftsAdd(n / 256, j - 1, k); }
  }

  /** Decoding an encoding gives back exactly the header and payload, and does
      so exactly when the header's size field is the payload's length. */
  lemma DecodeEncode(h: ChunkHeader, payload: seq<byte>)
    ensures Decode(Encode(h, payload)) == if |payload| == h.payloadSize then Some((h, payload)) else None
  {
    EncodedFields(h, payload);
    Widths();
    NumberBytesNumber(h.fileId, UUID_LEN);
    NumberBytesNumber(h.chunkIndex, U32_LEN);
    NumberBytesNumber(h.totalChunks, U32_LEN);
    NumberBytesNumber(h.payloadSize, U32_LEN);
  }

  /** Re-encoding any frame that decodes reproduces it, except that the two reserved bytes become zero. */
  lemma EncodeDecode(frame: seq<byte>)
    requires Decode(frame).Some?
    ensures var (h, payload) := Decode(frame).value;
            Encode(h, payload) == frame[..6] + [0, 0] + frame[8..]
  {
    var (h, payload) := Decode(frame).value;
    EncodedFields(h, payload);
    BytesNumberBytes(frame[8..24]);
    BytesNumberBytes(frame[24..28]);
    BytesNumberBytes(frame[28..32]);
    BytesNumberBytes(frame[32..36]);
    var f := Encode(h, payload);
    assert f == f[0..4] + [f[4], f[5]] + f[6..8] + f[8..24] + f[24..28] + f[28..32] + f[32..36] + f[36..];
    assert frame
        == frame[0..4] + [frame[4], frame[5]] + frame[6..8] + frame[8..24] + frame[24..28] + frame[28..32]
        + frame[32..36] + frame[36..];
  }

  /** Two frames that decode to the same header and payload differ at most in the reserved bytes. */
  lemma DecodeDeterminesFrame(f: seq<byte>, g: seq<byte>)
    requires Decode(f).Some? && Decode(f) == Decode(g)
    ensures |f| == |g| && f[..6] == g[..6] && f[8..] == g[8..]
  {
    EncodeDecode(f);
    EncodeDecode(g);
    var e := Encode(Decode(f).value.0, Decode(f).value.1);
    assert e[..6] == f[..6] && e[..6] == g[..6] && e[8..] == f[8..] && e[8..] == g[8..];
  }
}
