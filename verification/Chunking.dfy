/** How a file is cut into chunks before it is offered (src/state/outgoing.rs and
    src/file_flow.rs), and how the pieces determine the file again. */
module Chunking {
  import opened Basics

  /** Both sending paths use 256 KiB chunks. */
  const CHUNK_SIZE: nat := 262144

  function DivCeil(n: nat, d: nat): nat
    requires d > 0
  {
    n / d + if n % d > 0 then 1 else 0
  }

  function ChunkCount(len: nat): nat {
    DivCeil(len, CHUNK_SIZE)
  }

  /** The count an offer announces: truncated to 32 bits, and at least one even for an empty file. */
  function TotalChunks(len: nat): u32 {
    Max(1, AsU32(ChunkCount(len)))
  }

  predicate FitsU32(len: nat) {
    ChunkCount(len) < 0x1_0000_0000
  }

  /** `slice::chunks`. */
  function Chunks(bytes: seq<byte>, size: nat): seq<seq<byte>>
    requires size > 0
    decreases |bytes|
  {
    if bytes == [] then []
    else if |bytes| <= size then [bytes]
    else [bytes[..size]] + Chunks(bytes[size..], size)
  }

  function Join(chunks: seq<seq<byte>>): seq<byte> {
    if chunks == [] then [] else chunks[0] + Join(chunks[1..])
  }

  function ChunkAt(bytes: seq<byte>, size: nat, i: nat): seq<byte>
    requires i * size < |bytes|
  {
    bytes[i * size..Min(i * size + size, |bytes|)]
  }

  /** The bytes of the first k chunks. */
  function Prefix(bytes: seq<byte>, size: nat, k: nat): seq<byte>
    requires 0 <= k * size
  {
    bytes[..Min(k * size, |bytes|)]
  }

  lemma CountBounds(n: nat, d: nat)
    requires d > 0
    ensures DivCeil(n, d) * d >= n
    ensures n > 0 ==> DivCeil(n, d) > 0 && (DivCeil(n, d) - 1) * d < n
  {
    assert n == d * (n / d) + n % d;
    if n % d > 0 {
      assert DivCeil(n, d) * d == d * (n / d) + d;
    } else if n > 0 {
      assert n / d > 0;
      assert (DivCeil(n, d) - 1) * d == d * (n / d) - d;
    }
  }

  lemma ProductOrder(a: nat, b: nat, d: nat)
    requires a <= b
    ensures a * d <= b * d
  {
    assert b * d == a * d + (b - a) * d;
  }

  /** A position lies inside the file exactly when its chunk index is below the count. */
  lemma IndexInFile(n: nat, d: nat, i: nat)
    requires d > 0
    ensures i < DivCeil(n, d) <==> i * d < n
  {
    var count := DivCeil(n, d);
    CountBounds(n, d);
    if i < count {
      ProductOrder(i, count - 1, d);
    } else {
      ProductOrder(count, i, d);
    }
  }

  lemma QuotientUnique(n: nat, d: nat, q: int, r: int)
    requires d > 0 && n == d * q + r && 0 <= r < d
    ensures n / d == q && n % d == r
  {
    var gap := n / d - q;
    assert gap >= 1 ==> d * gap >= d;
    assert gap <= -1 ==> d * gap + d <= 0;
    assert d * gap == r - n % d;
  }

  lemma CountStep(n: nat, d: nat)
    requires d > 0 && n > d
    ensures DivCeil(n, d) == 1 + DivCeil(n - d, d)
  {
    assert n - d == d * (n / d - 1) + n % d by {
      assert d * (n / d - 1) == d * (n / d) - d;
    }
    QuotientUnique(n - d, d, n / d - 1, n % d);
  }

  lemma CountOfOne(n: nat, d: nat)
    requires 0 < n <= d
    ensures DivCeil(n, d) == 1
  {
    if n == d {
      QuotientUnique(n, d, 1, 0);
    } else {
      QuotientUnique(n, d, 0, n);
    }
  }

  lemma LaterChunk(bytes: seq<byte>, size: nat, i: nat)
    requires size > 0 && |bytes| > size && i * size < |bytes| - size
    ensures (i + 1) * size == i * size + size < |bytes|
    ensures ChunkAt(bytes[size..], size, i) == ChunkAt(bytes, size, i + 1)
  {
  }

  /** Splitting yields `ceil(len / size)` chunks, and the i-th is the slice at i * size. */
  lemma {:induction false} ChunksShape(bytes: seq<byte>, size: nat)
    requires size > 0
    ensures |Chunks(bytes, size)| == DivCeil(|bytes|, size)
    ensures forall i :: 0 <= i < |Chunks(bytes, size)| ==> IsChunk(bytes, size, i, Chunks(bytes, size)[i])
    decreases |bytes|
  {
    if |bytes| > size {
      var rest := bytes[size..];
      ChunksShape(rest, size);
      CountStep(|bytes|, size);
      forall i | 0 <= i < |Chunks(bytes, size)|
        ensures IsChunk(bytes, size, i, Chunks(bytes, size)[i])
      {
        if i > 0 {
          assert IsChunk(rest, size, i - 1, Chunks(rest, size)[i - 1]);
          LaterChunk(bytes, size, i - 1);
        }
      }
    } else if bytes != [] {
      CountOfOne(|bytes|, size);
    }
  }

  predicate IsChunk(bytes: seq<byte>, size: nat, i: nat, chunk: seq<byte>) {
    i * size < |bytes| && chunk == ChunkAt(bytes, size, i)
  }

  lemma PrefixOfRest(bytes: seq<byte>, size: nat, k: nat)
    requires 0 < size < |bytes| && k > 0 && 0 <= k * size && 0 <= (k - 1) * size
    ensures Prefix(bytes, size, k) == bytes[..size] + Prefix(bytes[size..], size, k - 1)
  {
    assert (k - 1) * size == k * size - size;
  }

  lemma TakeOfRest(bytes: seq<byte>, size: nat, k: nat)
    requires 0 < size < |bytes| && 0 < k <= |Chunks(bytes, size)|
    ensures Chunks(bytes, size)[..k] == [bytes[..size]] + Chunks(bytes[size..], size)[..k - 1]
  {
  }

  /** Joining the first k chunks gives the first k * size bytes. */
  lemma {:induction false} JoinTake(bytes: seq<byte>, size: nat, k: nat)
    requires size > 0 && k <= |Chunks(bytes, size)| && 0 <= k * size
    ensures Join(Chunks(bytes, size)[..k]) == Prefix(bytes, size, k)
    decreases |bytes|
  {
    if k > 0 && |bytes| > size {
      assert 0 <= (k - 1) * size;
      JoinTake(bytes[size..], size, k - 1);
      PrefixOfRest(bytes, size, k);
      TakeOfRest(bytes, size, k);
    } else if k > 0 {
      JoinOne(bytes, size);
    }
  }

  lemma JoinOne(bytes: seq<byte>, size: nat)
    requires 0 < |bytes| <= size
    ensures Chunks(bytes, size)[..1] == [bytes] && Join([bytes]) == bytes && Prefix(bytes, size, 1) == bytes
  {
    var one := [bytes];
    assert one[1..] == [] && Join(one) == bytes + Join(one[1..]);
  }

  /** Reassembling the chunks of a file gives the file. */
  lemma SplitJoin(bytes: seq<byte>, size: nat)
    requires size > 0
    ensures Join(Chunks(bytes, size)) == bytes
  {
    var n := |Chunks(bytes, size)|;
    ChunksShape(bytes, size);
    CountBounds(|bytes|, size);
    JoinTake(bytes, size, n);
    assert Chunks(bytes, size)[..n] == Chunks(bytes, size);
  }

  /** A list of pieces that splitting could have produced: every piece full but the last, none empty. */
  predicate Pieces(chunks: seq<seq<byte>>, size: nat) {
    && (forall i :: 0 <= i < |chunks| - 1 ==> |chunks[i]| == size)
    && (chunks != [] ==> 0 < |chunks[|chunks| - 1]| <= size)
  }

  /** Splitting a joined list of pieces gives the pieces back. */
  lemma {:induction false} JoinSplit(chunks: seq<seq<byte>>, size: nat)
    requires size > 0 && Pieces(chunks, size)
    ensures Chunks(Join(chunks), size) == chunks
  {
    if chunks != [] {
      var rest := chunks[1..];
      if rest != [] {
        assert rest[|rest| - 1] == chunks[|chunks| - 1];
        assert forall i :: 0 <= i < |rest| - 1 ==> rest[i] == chunks[i + 1];
        JoinSplit(rest, size);
        assert |Join(rest)| > 0;
        assert Join(chunks)[size..] == Join(rest);
      } else {
        assert Join(chunks) == chunks[0];
      }
    }
  }

  // ---------- the fixed chunk size ----------

  lemma PrefixStep(bytes: seq<byte>, k: nat)
    requires k < ChunkCount(|bytes|)
    ensures k * CHUNK_SIZE < |bytes|
    ensures 0 < |ChunkAt(bytes, CHUNK_SIZE, k)| <= CHUNK_SIZE
    ensures Prefix(bytes, CHUNK_SIZE, k + 1) == Prefix(bytes, CHUNK_SIZE, k) + ChunkAt(bytes, CHUNK_SIZE, k)
  {
    IndexInFile(|bytes|, CHUNK_SIZE, k);
  }

  /** All chunks make the whole file, fewer make less than it. */
  lemma PrefixLength(bytes: seq<byte>, k: nat)
    requires k <= ChunkCount(|bytes|)
    ensures k == ChunkCount(|bytes|) ==> Prefix(bytes, CHUNK_SIZE, k) == bytes
    ensures k < ChunkCount(|bytes|) ==> |Prefix(bytes, CHUNK_SIZE, k)| < |bytes|
  {
    IndexInFile(|bytes|, CHUNK_SIZE, k);
    if k == ChunkCount(|bytes|) {
      assert Min(k * CHUNK_SIZE, |bytes|) == |bytes|;
    }
  }

  /** The announced total is the real number of chunks exactly for non-empty files whose count fits 32 bits. */
  lemma TotalIsCount(len: nat)
    ensures TotalChunks(len) == ChunkCount(len) <==> len > 0 && FitsU32(len)
    ensures len == 0 ==> TotalChunks(len) == 1 && ChunkCount(len) == 0
  {
    CountBounds(len, CHUNK_SIZE);
  }

  /** What is announced otherwise: the count's last 32 bits, and one if they are zero. The count itself is the least
      number of 256 KiB pieces that hold the file. */
  lemma TotalWraps(len: nat)
    ensures var n := ChunkCount(len);
            262144 * (n - 1) < len <= 262144 * n && n >= 0
    ensures var n := ChunkCount(len);
            TotalChunks(len) == if n % 0x1_0000_0000 == 0 then 1 else n % 0x1_0000_0000
  {
    CountBounds(len, CHUNK_SIZE);
  }

  /** Every chunk travels under its own index exactly when the count is at most 2^32. */
  lemma IndicesFaithful(len: nat)
    ensures (forall i: nat :: i < ChunkCount(len) ==> AsU32(i) == i) <==> ChunkCount(len) <= 0x1_0000_0000
  {
    if ChunkCount(len) > 0x1_0000_0000 {
      assert AsU32(0x1_0000_0000) == 0;
    }
  }
}
