/** One entry of the client's transfer table (src/file_store.rs): its states, typed
    transitions and chunk application, first as functions on values and then as
    the object the source mutates. */
module FileStore {
  import opened Basics
  import opened ChunkCodec

  datatype View = PendingOfferView | IncomingView | OutgoingView

  datatype State = PendingOffer | Receiving | WaitingAccept | Sending | WaitingAck

  datatype TransitionError =
    | UnexpectedState(actual: State)
    | InvalidTransition(expectedFrom: State, actual: State, to: State)

  datatype FailureReason =
    | Disconnected
    | ChunkTotalMismatch(expectedTotal: u32, gotTotal: u32)
    | ChunkIndexOutOfRange(total: u32, gotIndex: u32)
    | ChunkSequenceMismatch(expectedIndex: u32, gotIndex: u32)
    | TooManyBytes(expectedBytes: nat, gotBytes: nat)

  /** What one progress line prints. */
  datatype Report = Report(done: nat, total: nat, percent: nat)

  datatype Transfer = Transfer(
    view: View,
    state: State,
    peerGroup: string,
    peerClient: string,
    fileName: string,
    bytesTotal: u64,
    totalChunks: u32,
    sha256: string,
    savePath: Option<string>,
    sourcePath: Option<string>,
    chunkSize: Option<nat>,
    outgoingBytes: Option<seq<byte>>,
    incomingBytes: seq<byte>,
    nextChunkIndex: u32,
    bytesDone: nat,
    lastReportedPercent: nat,
    completionRequestId: Option<RequestId>)
  {
    predicate IsOutgoing() {
      state == WaitingAccept || state == Sending || state == WaitingAck
    }

    /** What every reachable entry satisfies: the view follows the state, the completion id is set
        exactly while waiting for the ack, the optional fields each state relies on are present,
        and a receiving entry's counters describe its buffer. */
    predicate Ok() {
      && view == ViewOf(state)
      && (completionRequestId.Some? <==> state == WaitingAck)
      && (IsOutgoing() ==> sourcePath.Some? && outgoingBytes.Some? && chunkSize.Some? && chunkSize.value > 0)
      && (!IsOutgoing() ==> savePath.Some?)
      && (state == Receiving ==> bytesDone == |incomingBytes| <= bytesTotal && nextChunkIndex <= totalChunks)
    }
  }

  function ViewOf(s: State): View {
    match s
    case PendingOffer => PendingOfferView
    case Receiving => IncomingView
    case _ => OutgoingView
  }

  function NewPendingOffer(peerGroup: string, peerClient: string, fileName: string, savePath: string,
                           bytesTotal: u64, sha256: string, totalChunks: u32): Transfer {
    Transfer(PendingOfferView, PendingOffer, peerGroup, peerClient, fileName, bytesTotal, totalChunks, sha256,
             Some(savePath), None, None, None, [], 0, 0, 0, None)
  }

  function NewOutgoing(peerGroup: string, peerClient: string, fileName: string, sourcePath: string,
                       bytesTotal: u64, totalChunks: u32, chunkSize: nat, sha256: string, bytes: seq<byte>): Transfer {
    Transfer(OutgoingView, WaitingAccept, peerGroup, peerClient, fileName, bytesTotal, totalChunks, sha256,
             None, Some(sourcePath), Some(chunkSize), Some(bytes), [], 0, 0, 0, None)
  }

  function Incoming(t: Transfer): Transfer {
    t.(view := IncomingView, state := Receiving, incomingBytes := [], nextChunkIndex := 0, bytesDone := 0,
        lastReportedPercent := 0)
  }

  function MoveToIncoming(t: Transfer): (Transfer, Result<(), TransitionError>) {
    if t.state == PendingOffer then (Incoming(t), Ok(())) else (t, Err(UnexpectedState(t.state)))
  }

  function TransitionTo(t: Transfer, expectedFrom: State, next: State, completion: Option<RequestId>)
    : (Transfer, Result<(), TransitionError>)
  {
    if !t.IsOutgoing() then (t, Err(UnexpectedState(t.state)))
    else if t.state != expectedFrom then (t, Err(InvalidTransition(expectedFrom, t.state, next)))
    else (t.(state := next, completionRequestId := completion), Ok(()))
  }

  // ---------- progress percentages ----------

  /** `saturating_mul(100)` on u64. */
  function SaturatingTimes100(n: nat): u64 {
    if n * 100 < 0x1_0000_0000_0000_0000 then n * 100 else 0xFFFF_FFFF_FFFF_FFFF
  }

  function Percent(done: nat, total: nat): nat {
    if total == 0 then 100 else SaturatingTimes100(done) / total
  }

  /** The rule both senders use for printing a progress line. */
  predicate SenderReports(totalChunks: u32, percent: nat, lastReported: nat) {
    totalChunks <= 10 || percent >= lastReported + 10 || percent == 100
  }

  /** The receiver also prints on the last chunk of the announced total. */
  predicate ReceiverReports(totalChunks: u32, percent: nat, lastReported: nat, h: ChunkHeader) {
    SenderReports(totalChunks, percent, lastReported) || h.chunkIndex + 1 == h.totalChunks
  }

  function OutgoingProgress(t: Transfer, totalBytes: nat, chunkIndex: nat, chunkSize: nat): (Transfer, Option<Report>)
    requires t.outgoingBytes.Some?
  {
    var sent := Min(chunkIndex * chunkSize, |t.outgoingBytes.value|);
    var percent := Percent(sent, totalBytes);
    if SenderReports(t.totalChunks, percent, t.lastReportedPercent) then
      (t.(bytesDone := sent, lastReportedPercent := percent), Some(Report(sent, totalBytes, percent)))
    else
      (t.(bytesDone := sent), None)
  }

  // ---------- receiving ----------

  function ValidateChunk(h: ChunkHeader, t: Transfer): Result<(), FailureReason> {
    if h.totalChunks != t.totalChunks then Err(ChunkTotalMismatch(t.totalChunks, h.totalChunks))
    else if h.chunkIndex >= t.totalChunks then Err(ChunkIndexOutOfRange(t.totalChunks, h.chunkIndex))
    else if h.chunkIndex != t.nextChunkIndex then Err(ChunkSequenceMismatch(t.nextChunkIndex, h.chunkIndex))
    else Ok(())
  }

  /** The buffer and counters after a chunk that passed validation. */
  function Appended(t: Transfer, payload: seq<byte>): Transfer
    requires t.nextChunkIndex < t.totalChunks
  {
    var buffer := t.incomingBytes + payload;
    t.(incomingBytes := buffer, nextChunkIndex := t.nextChunkIndex + 1, bytesDone := |buffer|)
  }

  /** The over-size check comes after the buffer has grown: the entry is left broken for the handler to drop. */
  function ApplyChunk(t: Transfer, h: ChunkHeader, payload: seq<byte>)
    : (Transfer, Result<Option<Report>, FailureReason>)
  {
    var v := ValidateChunk(h, t);
    if v.Err? then (t, Err(v.error))
    else
      var u := Appended(t, payload);
      var percent := Percent(u.bytesDone, u.bytesTotal);
      if u.bytesDone > u.bytesTotal then (u, Err(TooManyBytes(u.bytesTotal, u.bytesDone)))
      else if ReceiverReports(u.totalChunks, percent, u.lastReportedPercent, h) then
        (u.(lastReportedPercent := percent), Ok(Some(Report(u.bytesDone, u.bytesTotal, percent))))
      else (u, Ok(None))
  }

  /** A chunk is taken exactly when its total and index are the expected ones and the buffer still fits,
      and then the buffer has grown by its payload and the entry is sound. */
  lemma ApplyChunkVerdict(t: Transfer, h: ChunkHeader, payload: seq<byte>)
    requires t.Ok() && t.state == Receiving
    ensures var (u, r) := ApplyChunk(t, h, payload);
            && (r.Ok? <==> h.totalChunks == t.totalChunks && h.chunkIndex == t.nextChunkIndex < t.totalChunks
                           && |t.incomingBytes| + |payload| <= t.bytesTotal)
            && (r.Ok?
               ==> u.Ok() && u.incomingBytes == t.incomingBytes + payload && u.nextChunkIndex == t.nextChunkIndex + 1)
            && (r.Err? && !r.error.TooManyBytes? ==> u == t)
            && (r.Err? && r.error.TooManyBytes? ==> !u.Ok())
  {
  }

  /** When a sender reports the chunks it has sent, and what the line says, by the same rule but for the last chunk; and
      nothing else of the entry changes. */
  lemma SenderReport(t: Transfer, chunks: nat, chunkSize: nat)
    requires t.outgoingBytes.Some? && t.bytesTotal == |t.outgoingBytes.value|
    requires t.bytesTotal * 100 < 0x1_0000_0000_0000_0000
    ensures var done := if chunks * chunkSize < t.bytesTotal then chunks * chunkSize else t.bytesTotal;
            var percent := if t.bytesTotal == 0 then 100 else done * 100 / t.bytesTotal;
            var reports := t.totalChunks <= 10 || percent - t.lastReportedPercent >= 10 || percent == 100;
            OutgoingProgress(t, t.bytesTotal, chunks, chunkSize)
            == (t.(bytesDone := done, lastReportedPercent := if reports then percent else t.lastReportedPercent),
                if reports then Some(Report(done, t.bytesTotal, percent)) else None)
  {
  }

  /** Why a chunk is refused, and which of several reasons is told. */
  lemma ChunkRefusals(t: Transfer, h: ChunkHeader, payload: seq<byte>)
    requires ApplyChunk(t, h, payload).1.Err?
    ensures ApplyChunk(t, h, payload).1.error ==
              if h.totalChunks != t.totalChunks then ChunkTotalMismatch(t.totalChunks, h.totalChunks)
              else if h.chunkIndex >= t.totalChunks then ChunkIndexOutOfRange(t.totalChunks, h.chunkIndex)
              else if h.chunkIndex != t.nextChunkIndex then ChunkSequenceMismatch(t.nextChunkIndex, h.chunkIndex)
              else TooManyBytes(t.bytesTotal, |t.incomingBytes| + |payload|)
  {
  }

  /** When a receiver reports a chunk it has taken, and what the line says: few chunks are all reported, many every ten
      percent, at 100 and with the last one announced. Sizes below 2^64 / 100 do not saturate. */
  lemma ReceiverReport(t: Transfer, h: ChunkHeader, payload: seq<byte>)
    requires ApplyChunk(t, h, payload).1.Ok? && t.bytesTotal * 100 < 0x1_0000_0000_0000_0000
    ensures var done := |t.incomingBytes| + |payload|;
            var percent := if t.bytesTotal == 0 then 100 else done * 100 / t.bytesTotal;
            ApplyChunk(t, h, payload).1.value ==
              if t.totalChunks <= 10 || percent - t.lastReportedPercent >= 10 || percent == 100
                 || h.chunkIndex == t.totalChunks - 1
              then Some(Report(done, t.bytesTotal, percent)) else None
  {
  }

  // ---------- the mutable entry ----------

  class LocalFileTransfer {
    var view: View
    var state: State
    var peerGroup: string
    var peerClient: string
    var fileName: string
    var bytesTotal: u64
    var totalChunks: u32
    var sha256: string
    var savePath: Option<string>
    var sourcePath: Option<string>
    var chunkSize: Option<nat>
    var outgoingBytes: Option<seq<byte>>
    var incomingBytes: seq<byte>
    var nextChunkIndex: u32
    var bytesDone: nat
    var lastReportedPercent: nat
    var completionRequestId: Option<RequestId>

    function Value(): Transfer
      reads this
    {
      Transfer(view, state, peerGroup, peerClient, fileName, bytesTotal, totalChunks, sha256, savePath, sourcePath,
               chunkSize, outgoingBytes, incomingBytes, nextChunkIndex, bytesDone, lastReportedPercent,
                   completionRequestId)
    }

    constructor FromOffer(peerGroup: string, peerClient: string, fileName: string, savePath: string,
                          bytesTotal: u64, sha256: string, totalChunks: u32)
      ensures Value() == NewPendingOffer(peerGroup, peerClient, fileName, savePath, bytesTotal, sha256, totalChunks)
      ensures Value().Ok()
    {
      view, state := PendingOfferView, PendingOffer;
      this.peerGroup, this.peerClient, this.fileName := peerGroup, peerClient, fileName;
      this.bytesTotal, this.totalChunks, this.sha256 := bytesTotal, totalChunks, sha256;
      this.savePath, sourcePath, chunkSize, outgoingBytes := Some(savePath), None, None, None;
      incomingBytes, nextChunkIndex, bytesDone, lastReportedPercent := [], 0, 0, 0;
      completionRequestId := None;
    }

    constructor ToSend(peerGroup: string, peerClient: string, fileName: string, sourcePath: string,
                       bytesTotal: u64, totalChunks: u32, chunkSize: nat, sha256: string, bytes: seq<byte>)
      ensures Value() == NewOutgoing(peerGroup, peerClient, fileName, sourcePath, bytesTotal, totalChunks, chunkSize,
                                     sha256, bytes)
      ensures chunkSize > 0 ==> Value().Ok()
    {
      view, state := OutgoingView, WaitingAccept;
      this.peerGroup, this.peerClient, this.fileName := peerGroup, peerClient, fileName;
      this.bytesTotal, this.totalChunks, this.sha256 := bytesTotal, totalChunks, sha256;
      savePath, this.sourcePath, this.chunkSize, outgoingBytes := None, Some(sourcePath), Some(chunkSize), Some(bytes);
      incomingBytes, nextChunkIndex, bytesDone, lastReportedPercent := [], 0, 0, 0;
      completionRequestId := None;
    }

    method Receive() returns (r: Result<(), TransitionError>)
      modifies this
      ensures (Value(), r) == MoveToIncoming(old(Value()))
    {
      if state != PendingOffer {
        return Err(UnexpectedState(state));
      }
      view := IncomingView;
      state := Receiving;
      incomingBytes := [];
      nextChunkIndex := 0;
      bytesDone := 0;
      lastReportedPercent := 0;
      return Ok(());
    }

    method Transition(expectedFrom: State, next: State, completion: Option<RequestId>)
      returns (r: Result<(), TransitionError>)
      modifies this
      ensures (Value(), r) == TransitionTo(old(Value()), expectedFrom, next, completion)
    {
      if !Value().IsOutgoing() {
        return Err(UnexpectedState(state));
      }
      if state != expectedFrom {
        return Err(InvalidTransition(expectedFrom, state, next));
      }
      state := next;
      completionRequestId := completion;
      return Ok(());
    }

    method Apply(h: ChunkHeader, payload: seq<byte>) returns (r: Result<Option<Report>, FailureReason>)
      modifies this
      ensures (Value(), r) == ApplyChunk(old(Value()), h, payload)
    {
      var valid := ValidateChunk(h, Value());
      if valid.Err? {
        return Err(valid.error);
      }
      incomingBytes := incomingBytes + payload;
      nextChunkIndex := nextChunkIndex + 1;
      bytesDone := |incomingBytes|;
      if bytesDone > bytesTotal {
        return Err(TooManyBytes(bytesTotal, bytesDone));
      }
      var percent := Percent(bytesDone, bytesTotal);
      if ReceiverReports(totalChunks, percent, lastReportedPercent, h) {
        lastReportedPercent := percent;
        return Ok(Some(Report(bytesDone, bytesTotal, percent)));
      }
      return Ok(None);
    }

    method Progress(totalBytes: nat, chunkIndex: nat, chunkSize: nat) returns (report: Option<Report>)
      requires outgoingBytes.Some?
      modifies this
      ensures (Value(), report) == OutgoingProgress(old(Value()), totalBytes, chunkIndex, chunkSize)
    {
      var sent := Min(chunkIndex * chunkSize, |outgoingBytes.value|);
      bytesDone := sent;
      var percent := Percent(sent, totalBytes);
      if SenderReports(totalChunks, percent, lastReportedPercent) {
        lastReportedPercent := percent;
        return Some(Report(sent, totalBytes, percent));
      }
      return None;
    }
  }
}
