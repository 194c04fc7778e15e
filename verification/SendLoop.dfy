/** The chunk loops of src/file_flow.rs and src/state/outgoing.rs and the progress
    lines both ends print while a file travels. */
module SendLoop {
  import opened Basics
  import opened ChunkCodec
  import opened Chunking
  import opened FileStore

  /** The frame that carries chunk i of a file. */
  function FrameFor(fileId: Uuid, bytes: seq<byte>, i: nat): seq<byte>
    requires i < ChunkCount(|bytes|)
  {
    PrefixStep(bytes, i);
    var chunk := ChunkAt(bytes, CHUNK_SIZE, i);
    Encode(NewHeader(fileId, AsU32(i), TotalChunks(|bytes|), |chunk|), chunk)
  }

  /** The frames of the first n chunks, in order. */
  function FramesTo(fileId: Uuid, bytes: seq<byte>, n: nat): (frames: seq<seq<byte>>)
    requires n <= ChunkCount(|bytes|)
    ensures |frames| == n
  {
    if n == 0 then [] else FramesTo(fileId, bytes, n - 1) + [FrameFor(fileId, bytes, n - 1)]
  }

  method EncodeChunk(fileId: Uuid, bytes: seq<byte>, i: nat, chunk: seq<byte>) returns (frame: seq<byte>)
    requires i < ChunkCount(|bytes|) && i * CHUNK_SIZE < |bytes| && chunk == ChunkAt(bytes, CHUNK_SIZE, i)
    ensures frame == FrameFor(fileId, bytes, i)
  {
    PrefixStep(bytes, i);
    frame := EncodeWithPayload(NewHeader(fileId, AsU32(i), TotalChunks(|bytes|), |chunk|), chunk);
  }

  lemma FrameDecodes(fileId: Uuid, bytes: seq<byte>, i: nat)
    requires i < ChunkCount(|bytes|)
    ensures i * CHUNK_SIZE < |bytes|
    ensures var chunk := ChunkAt(bytes, CHUNK_SIZE, i);
            && |chunk| <= CHUNK_SIZE
            && Decode(FrameFor(fileId, bytes, i))
               == Some((NewHeader(fileId, AsU32(i), TotalChunks(|bytes|), |chunk|), chunk))
  {
    PrefixStep(bytes, i);
    var chunk := ChunkAt(bytes, CHUNK_SIZE, i);
    DecodeEncode(NewHeader(fileId, AsU32(i), TotalChunks(|bytes|), |chunk|), chunk);
  }

  /** The frames are the file's pieces of 256 KiB in order, each under its own index. */
  lemma {:induction false} FramesInOrder(fileId: Uuid, bytes: seq<byte>, n: nat, i: nat)
    requires i < n <= ChunkCount(|bytes|)
    ensures 262144 * i < |bytes|
    ensures var piece := bytes[262144 * i..Min(262144 * (i + 1), |bytes|)];
            |piece| <= 262144 && Decode(FramesTo(fileId, bytes, n)[i])
                                 == Some((NewHeader(fileId, AsU32(i), TotalChunks(|bytes|), |piece|), piece))
  {
    FrameDecodes(fileId, bytes, i);
    if i < n - 1 { FramesInOrder(fileId, bytes, n - 1, i); }
  }

  // ---------- which percentages are printed ----------

  function SentBytes(len: nat, k: nat): nat {
    Min(k * CHUNK_SIZE, len)
  }

  function PercentAfter(len: nat, k: nat): nat {
    Percent(SentBytes(len, k), len)
  }

  /** The percentages a sender prints from chunk i on, given the last one printed. */
  function SenderTrace(len: nat, i: nat, last: nat): seq<nat>
    requires i <= ChunkCount(len)
    decreases ChunkCount(len) - i
  {
    if i == ChunkCount(len) then []
    else
      var p := PercentAfter(len, i + 1);
      if SenderReports(TotalChunks(len), p, last) then [p] + SenderTrace(len, i + 1, p)
      else SenderTrace(len, i + 1, last)
  }

  predicate NonDecreasing(s: seq<nat>, floor: nat) {
    s != [] ==> floor <= s[0] && NonDecreasing(s[1..], s[0])
  }

  /** The byte count shown is the total length of the chunks sent so far. */
  lemma SentBytesIsSum(bytes: seq<byte>, k: nat)
    requires k <= ChunkCount(|bytes|)
    ensures |Chunks(bytes, CHUNK_SIZE)| == ChunkCount(|bytes|)
    ensures SentBytes(|bytes|, k) == |Join(Chunks(bytes, CHUNK_SIZE)[..k])|
  {
    ChunksShape(bytes, CHUNK_SIZE);
    JoinTake(bytes, CHUNK_SIZE, k);
  }

  /** For files whose chunk count fits 32 bits the multiplication never saturates. */
  lemma NeverSaturates(len: nat, k: nat)
    requires FitsU32(len) && 0 < len
    ensures PercentAfter(len, k) == SentBytes(len, k) * 100 / len
  {
    CountBounds(len, CHUNK_SIZE);
    assert len <= 0xFFFF_FFFF * CHUNK_SIZE;
  }

  lemma QuotientOrder(a: nat, b: nat, n: nat)
    requires a <= b && n > 0
    ensures a / n <= b / n
  {
    var gap := a / n - b / n;
    assert n * (a / n) == n * (b / n) + n * gap;
    assert gap >= 1 ==> n * gap >= n;
  }

  lemma PercentGrows(len: nat, j: nat, k: nat)
    requires FitsU32(len) && 0 < len && j <= k
    ensures PercentAfter(len, j) <= PercentAfter(len, k) <= 100
  {
    NeverSaturates(len, j);
    NeverSaturates(len, k);
    QuotientOrder(SentBytes(len, j) * 100, SentBytes(len, k) * 100, len);
    QuotientOrder(SentBytes(len, k) * 100, len * 100, len);
    QuotientUnique(len * 100, len, 100, 0);
  }

  /** 100% is reached exactly with the last chunk. */
  lemma HundredOnlyLast(len: nat, k: nat)
    requires FitsU32(len) && 0 < k <= ChunkCount(len)
    ensures PercentAfter(len, k) == 100 <==> k == ChunkCount(len)
  {
    CountBounds(len, CHUNK_SIZE);
    NeverSaturates(len, k);
    var s := SentBytes(len, k);
    if k == ChunkCount(len) {
      assert s == len;
      QuotientUnique(len * 100, len, 100, 0);
    } else {
      assert s < len;
      assert s * 100 == len * (s * 100 / len) + s * 100 % len;
    }
  }

  lemma {:induction false} TraceShape(len: nat, i: nat, last: nat)
    requires FitsU32(len) && i <= ChunkCount(len) && last <= PercentAfter(len, i)
    ensures NonDecreasing(SenderTrace(len, i, last), last)
    ensures i < ChunkCount(len)
            ==> SenderTrace(len, i, last) != [] && SenderTrace(len, i, last)[|SenderTrace(len, i, last)| - 1] == 100
    ensures |SenderTrace(len, i, last)| <= ChunkCount(len) - i
    ensures ChunkCount(len) > 10 && last < 100 ==> |SenderTrace(len, i, last)| <= (109 - last) / 10
    decreases ChunkCount(len) - i
  {
    if i < ChunkCount(len) {
      CountBounds(len, CHUNK_SIZE);
      TotalIsCount(len);
      var p := PercentAfter(len, i + 1);
      PercentGrows(len, i, i + 1);
      HundredOnlyLast(len, i + 1);
      var reports := SenderReports(TotalChunks(len), p, last);
      TraceShape(len, i + 1, if reports then p else last);
      assert reports ==> SenderTrace(len, i, last)[1..] == SenderTrace(len, i + 1, p);
    }
  }

  /** A non-empty file whose chunk count fits 32 bits is reported at most ten times, in
      non-decreasing percentages, ending at 100. */
  lemma ProgressBound(len: nat)
    requires FitsU32(len) && 0 < len
    ensures var t := SenderTrace(len, 0, 0);
            && 0 < |t| <= 10 && NonDecreasing(t, 0) && t[|t| - 1] == 100
  {
    CountBounds(len, CHUNK_SIZE);
    TraceShape(len, 0, 0);
  }

  /** Up to ten chunks are all reported. */
  lemma {:induction false} FewAllReported(len: nat, i: nat, last: nat)
    requires FitsU32(len) && 0 < len <= 10 * 262144 && i <= ChunkCount(len)
    ensures |SenderTrace(len, i, last)| == ChunkCount(len) - i
    ensures var t := SenderTrace(len, i, last);
            forall k :: 0 <= k < |t| ==> t[k] == PercentAfter(len, i + k + 1)
    decreases ChunkCount(len) - i
  {
    CountBounds(len, CHUNK_SIZE);
    TotalIsCount(len);
    if i < ChunkCount(len) {
      FewAllReported(len, i + 1, PercentAfter(len, i + 1));
    }
  }

  /** Of more than ten chunks each report but the one at 100 is at least ten percent above the one before. */
  lemma {:induction false} ReportsSpaced(len: nat, i: nat, last: nat, k: nat)
    requires FitsU32(len) && len > 10 * 262144 && i <= ChunkCount(len) && k < |SenderTrace(len, i, last)|
    ensures var t := SenderTrace(len, i, last);
            t[k] == 100 || t[k] >= (if k == 0 then last else t[k - 1]) + 10
    decreases ChunkCount(len) - i
  {
    CountBounds(len, CHUNK_SIZE);
    TotalIsCount(len);
    var p := PercentAfter(len, i + 1);
    if SenderReports(TotalChunks(len), p, last) {
      assert SenderTrace(len, i, last)[1..] == SenderTrace(len, i + 1, p);
      if k > 0 { ReportsSpaced(len, i + 1, p, k - 1); }
    } else {
      ReportsSpaced(len, i + 1, last, k);
    }
  }

  /** Whatever has been sent, the last report is less than ten percent behind, and at 100 it has been made. */
  lemma {:induction false} ReportsKeepUp(len: nat, i: nat, last: nat, j: nat)
    requires FitsU32(len) && 0 < len && i <= j <= ChunkCount(len) && last <= PercentAfter(len, i) < last + 10
    requires PercentAfter(len, i) == 100 ==> last == 100
    ensures exists r :: (r == last || r in SenderTrace(len, i, last)) && UpToDate(len, j, r)
    decreases ChunkCount(len) - i
  {
    if i == j {
      assert UpToDate(len, j, last);
    } else {
      var p := PercentAfter(len, i + 1);
      PercentGrows(len, i, i + 1);
      SenderTraceStep(len, i, last);
      var next := if SenderReports(TotalChunks(len), p, last) then p else last;
      ReportsKeepUp(len, i + 1, next, j);
      var r :| (r == next || r in SenderTrace(len, i + 1, next)) && UpToDate(len, j, r);
      assert r == last || r in SenderTrace(len, i, last);
    }
  }

  predicate UpToDate(len: nat, j: nat, r: nat) {
    r <= PercentAfter(len, j) < r + 10 && (PercentAfter(len, j) == 100 ==> r == 100)
  }

  // ---------- the receiver on an honest in-order run ----------

  function ReceiveChunk(t: Transfer, fileId: Uuid, bytes: seq<byte>, i: nat): (Transfer,
                        Result<Option<Report>, FailureReason>)
    requires i < ChunkCount(|bytes|)
  {
    PrefixStep(bytes, i);
    var chunk := ChunkAt(bytes, CHUNK_SIZE, i);
    ApplyChunk(t, NewHeader(fileId, AsU32(i), TotalChunks(|bytes|), |chunk|), chunk)
  }

  /** The chunks of a file, from chunk i on, applied one after another; the percentages printed on the way. */
  function ReceiveFrom(t: Transfer, fileId: Uuid, bytes: seq<byte>, i: nat): (Transfer, Result<seq<nat>, FailureReason>)
    requires i <= ChunkCount(|bytes|)
    decreases ChunkCount(|bytes|) - i
  {
    if i == ChunkCount(|bytes|) then (t, Ok([]))
    else
      var (u, r) := ReceiveChunk(t, fileId, bytes, i);
      if r.Err? then (u, Err(r.error))
      else
        var (v, rest) := ReceiveFrom(u, fileId, bytes, i + 1);
        match rest
        case Err(e) => (v, Err(e))
        case Ok(ps) => (v, Ok((if r.value.Some? then [r.value.value.percent] else []) + ps))
  }

  lemma ReceiveFromStep(t: Transfer, fileId: Uuid, bytes: seq<byte>, i: nat, u: Transfer,
                        r: Result<Option<Report>, FailureReason>)
    requires i < ChunkCount(|bytes|) && ReceiveChunk(t, fileId, bytes, i) == (u, r) && r.Ok?
    requires ReceiveFrom(u, fileId, bytes, i + 1).1.Ok?
    ensures ReceiveFrom(t, fileId, bytes, i).0 == ReceiveFrom(u, fileId, bytes, i + 1).0
    ensures ReceiveFrom(t, fileId, bytes, i).1
         == Ok((if r.value.Some? then [r.value.value.percent] else []) + ReceiveFrom(u, fileId, bytes, i + 1).1.value)
  {
  }

  /** The receiving entry of an honest offer after its first k chunks. */
  predicate HonestReceiving(t: Transfer, bytes: seq<byte>, k: nat) {
    && t.state == Receiving && t.bytesTotal == |bytes| && t.totalChunks == TotalChunks(|bytes|)
    && k <= ChunkCount(|bytes|)
    && t.nextChunkIndex == k && t.incomingBytes == Prefix(bytes, CHUNK_SIZE, k) && t.bytesDone == |t.incomingBytes|
  }

  /** One honest chunk in sequence is taken and leaves the entry one chunk further. */
  lemma HonestChunk(t: Transfer, fileId: Uuid, bytes: seq<byte>, k: nat)
    requires FitsU32(|bytes|) && HonestReceiving(t, bytes, k) && k < ChunkCount(|bytes|)
    ensures var (u, r) := ReceiveChunk(t, fileId, bytes, k);
            && r.Ok? && HonestReceiving(u, bytes, k + 1) && u.bytesDone == SentBytes(|bytes|, k + 1)
            && var p := PercentAfter(|bytes|, k + 1);
               (if SenderReports(t.totalChunks, p, t.lastReportedPercent)
                then r.value.Some? && r.value.value.percent == p && u.lastReportedPercent == p
                else r.value.None? && u.lastReportedPercent == t.lastReportedPercent)
  {
    PrefixStep(bytes, k);
    TotalIsCount(|bytes|);
    HundredOnlyLast(|bytes|, k + 1);
  }

  lemma SenderTraceStep(len: nat, i: nat, last: nat)
    requires i < ChunkCount(len)
    ensures var p := PercentAfter(len, i + 1);
            SenderTrace(len, i, last) ==
              if SenderReports(TotalChunks(len), p, last) then [p] + SenderTrace(len, i + 1, p)
                 else [] + SenderTrace(len, i + 1, last)
  {
  }

  /** The receiver prints exactly the percentages the sender prints, and ends with the whole file. */
  lemma {:induction false} ReceiverTrace(t: Transfer, fileId: Uuid, bytes: seq<byte>, i: nat)
    requires FitsU32(|bytes|) && HonestReceiving(t, bytes, i)
    ensures ReceiveFrom(t, fileId, bytes, i).1 == Ok(SenderTrace(|bytes|, i, t.lastReportedPercent))
    ensures HonestReceiving(ReceiveFrom(t, fileId, bytes, i).0, bytes, ChunkCount(|bytes|))
    ensures ReceiveFrom(t, fileId, bytes, i).0.incomingBytes == bytes
    decreases ChunkCount(|bytes|) - i
  {
    hide ApplyChunk;
    PrefixLength(bytes, ChunkCount(|bytes|));
    if i < ChunkCount(|bytes|) {
      HonestChunk(t, fileId, bytes, i);
      var (u, r) := ReceiveChunk(t, fileId, bytes, i);
      ReceiverTrace(u, fileId, bytes, i + 1);
      ReceiveFromStep(t, fileId, bytes, i, u, r);
      SenderTraceStep(|bytes|, i, t.lastReportedPercent);
    }
  }

  // ---------- the loops ----------

  function Percents(reports: seq<Report>): (ps: seq<nat>)
    ensures |ps| == |reports|
  {
    seq(|reports|, i requires 0 <= i < |reports| => reports[i].percent)
  }

  lemma PrintedStep(reports: seq<Report>, report: Report, len: nat, i: nat, last: nat)
    requires i < ChunkCount(len) && report.percent == PercentAfter(len, i + 1)
    ensures var p := report.percent;
            && (SenderReports(TotalChunks(len), p, last) ==>
                  Percents(reports + [report]) + SenderTrace(len, i + 1, p)
                      == Percents(reports) + SenderTrace(len, i, last))
            && (!SenderReports(TotalChunks(len), p, last) ==>
                  Percents(reports) + SenderTrace(len, i + 1, last) == Percents(reports) + SenderTrace(len, i, last))
  {
    assert Percents(reports + [report]) == Percents(reports) + [report.percent];
    SenderTraceStep(len, i, last);
  }

  /** The line's numbers after the first k chunks. */
  predicate IsReportOf(report: Report, len: nat, k: nat) {
    report == Report(Min(k * 262144, len), len, PercentAfter(len, k))
  }

  /** `send_chunks_with_progress`: the frames it queues are the file's chunks in order, and the
      lines it prints are those of the trace; an empty file queues nothing and prints one line. */
  method SendChunksWithProgress(bytes: seq<byte>, fileId: Uuid) returns (frames: seq<seq<byte>>, reports: seq<Report>)
    ensures frames == FramesTo(fileId, bytes, ChunkCount(|bytes|))
    ensures bytes == [] ==> frames == [] && reports == [Report(0, 0, 100)]
    ensures bytes != [] ==> Percents(reports) == SenderTrace(|bytes|, 0, 0)
    ensures bytes != [] ==> forall report :: report in reports ==>
              exists k :: 1 <= k <= ChunkCount(|bytes|) && IsReportOf(report, |bytes|, k)
    ensures FitsU32(|bytes|) ==> |reports| <= 10
  {
    var chunks := Chunks(bytes, CHUNK_SIZE);
    ChunksShape(bytes, CHUNK_SIZE);
    var totalBytes := |bytes|;
    var lastReportedPercent := 0;
    frames, reports := [], [];
    for chunkIndex := 0 to |chunks|
      invariant frames == FramesTo(fileId, bytes, chunkIndex)
      invariant Percents(reports) + SenderTrace(totalBytes, chunkIndex, lastReportedPercent)
                == SenderTrace(totalBytes, 0, 0)
      invariant chunkIndex == 0 ==> reports == []
      invariant forall report :: report in reports ==>
                  exists k :: 1 <= k <= chunkIndex && IsReportOf(report, totalBytes, k)
    {
      assert IsChunk(bytes, CHUNK_SIZE, chunkIndex, chunks[chunkIndex]);
      var frame := EncodeChunk(fileId, bytes, chunkIndex, chunks[chunkIndex]);
      frames := frames + [frame];
      var sentBytes := Min((chunkIndex + 1) * CHUNK_SIZE, totalBytes);
      var percent := Percent(sentBytes, totalBytes);
      PrintedStep(reports, Report(sentBytes, totalBytes, percent), totalBytes, chunkIndex, lastReportedPercent);
      if SenderReports(TotalChunks(totalBytes), percent, lastReportedPercent) {
        assert IsReportOf(Report(sentBytes, totalBytes, percent), totalBytes, chunkIndex + 1);
        reports := reports + [Report(sentBytes, totalBytes, percent)];
        lastReportedPercent := percent;
      }
    }
    if totalBytes == 0 {
      reports := [Report(0, 0, 100)];
    } else if FitsU32(totalBytes) {
      ProgressBound(totalBytes);
    }
  }

  /** How many leading checks find the entry still in the table. */
  function Present(answers: seq<bool>): (n: nat)
    ensures n <= |answers|
  {
    if answers == [] || !answers[0] then 0 else 1 + Present(answers[1..])
  }

  lemma {:induction false} PresentCounts(answers: seq<bool>, k: nat)
    requires k <= |answers| && forall j :: 0 <= j < k ==> answers[j]
    ensures k <= Present(answers)
    ensures k < |answers| && !answers[k] ==> Present(answers) == k
    ensures k == |answers| ==> Present(answers) == k
  {
    if k > 0 {
      assert forall j :: 0 <= j < k - 1 ==> answers[1..][j] == answers[j + 1];
      PresentCounts(answers[1..], k - 1);
    }
  }

  /** `send_chunks_loop`: before every chunk and once more at the end it asks whether the entry is
      still in the table. The answers other tasks make it see are a parameter; it stops at the
      first `false` and has sent exactly the chunks before it. */
  method SendChunksLoop(bytes: seq<byte>, fileId: Uuid, present: seq<bool>) returns (finished: bool,
                        frames: seq<seq<byte>>)
    requires |present| == ChunkCount(|bytes|) + 1
    ensures finished <==> Present(present) == |present|
    ensures frames == FramesTo(fileId, bytes, Min(Present(present), ChunkCount(|bytes|)))
  {
    var chunks := Chunks(bytes, CHUNK_SIZE);
    ChunksShape(bytes, CHUNK_SIZE);
    frames := [];
    for chunkIndex := 0 to |chunks|
      invariant forall i :: 0 <= i < chunkIndex ==> present[i]
      invariant frames == FramesTo(fileId, bytes, chunkIndex)
    {
      if !present[chunkIndex] {
        PresentCounts(present, chunkIndex);
        return false, frames;
      }
      var frame := EncodeChunk(fileId, bytes, chunkIndex, chunks[chunkIndex]);
      frames := frames + [frame];
    }
    PresentCounts(present, |chunks|);
    if !present[|chunks|] {
      return false, frames;
    }
    PresentCounts(present, |chunks| + 1);
    finished := true;
  }
}
