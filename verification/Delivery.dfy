/** Delivery safety: in every run, with any number of receivers and any interleaving, what a receiver has
    buffered of a file is exactly its first chunks, and what it writes is the file that was offered. */
module Delivery {
  import opened Basics
  import opened Packets
  import opened ChunkCodec
  import opened Chunking
  import opened FileStore
  import opened SendLoop
  import opened Client
  import opened Protocol
  import opened DrawnIds
  import C = ClientRuns
  import R = Relay
  import RR = RelayRuns
  import Routing
  import Sessions
  import T = Transfers

  type Digest = seq<byte> -> string

  // ---------- what is said about every entry, task, packet and frame; z is the last state of the run ----------

  /** The buffer is the file's first chunks, as many as have been counted. */
  predicate HoldsPrefix(t: Transfer, bytes: seq<byte>) {
    t.nextChunkIndex <= ChunkCount(|bytes|) && t.incomingBytes == Prefix(bytes, CHUNK_SIZE, t.nextChunkIndex)
  }

  /** Chunk indices travel as 32 bits. */
  predicate Indexable(len: nat) {
    ChunkCount(len) <= 0x1_0000_0000
  }

  predicate EntryHonest(z: World, digest: Digest, f: Uuid, t: Transfer) {
    && f in z.started
    && var bytes := z.started[f].bytes;
    && t.bytesTotal == |bytes| && t.totalChunks == TotalChunks(|bytes|) && t.sha256 == digest(bytes)
    && (t.IsOutgoing() ==> t.outgoingBytes == Some(bytes) && t.chunkSize == Some(CHUNK_SIZE))
    && (t.state == Receiving ==> |t.incomingBytes| <= t.nextChunkIndex * CHUNK_SIZE)
    && (t.state == Receiving && Indexable(|bytes|) ==> HoldsPrefix(t, bytes))
    && (t.state == WaitingAck ==> f in z.completions && t.completionRequestId == Some(z.completions[f]))
  }

  predicate TaskHonest(z: World, digest: Digest, f: Uuid, k: SendTask) {
    && f in z.started
    && var bytes := z.started[f].bytes;
    && k.bytes == bytes && k.size == |bytes| && k.totalChunks == TotalChunks(|bytes|) && k.chunkSize == CHUNK_SIZE
    && k.sha256 == digest(bytes)
    && (k.phase.AtMark? ==> f in z.completions && k.phase.completion == z.completions[f])
  }

  /** An offer announces the file it was made for; a `file_complete` carries the one id drawn for its file. */
  predicate EventHonest(z: World, digest: Digest, e: EventPacket) {
    && (e.eventType == FileOffer ==>
          && e.meta.fileId.Some? && e.meta.fileId.value in z.started
          && var bytes := z.started[e.meta.fileId.value].bytes;
          && e.meta.fileSize == Some(|bytes|) && e.meta.sha256 == Some(digest(bytes))
                && e.meta.totalChunks == Some(TotalChunks(|bytes|))
             && e.requestId in z.drawn && z.drawn[e.requestId] == e.meta.fileId.value)
    && (e.eventType == FileComplete ==>
          e.meta.fileId.Some? && e.meta.fileId.value in z.completions
              && e.requestId == z.completions[e.meta.fileId.value])
    && (!IsChat(e) && e.meta.fileId.Some? ==> e.meta.fileId.value in z.started)
  }

  predicate AckHonest(z: World, a: AckPacket) {
    a.refType == Some(FileComplete) ==> a.requestId in z.drawn
  }

  predicate PacketHonest(z: World, digest: Digest, p: Packet) {
    match p
    case Event(e) => EventHonest(z, digest, e)
    case Ack(a) => AckHonest(z, a)
    case Error(e) => e.fileId.Some? ==> e.fileId.value in z.started
    case InitAck | HeartbeatAck => true
  }

  ghost predicate FrameHonest(z: World, frame: seq<byte>) {
    exists f: Uuid, i: nat :: IsFrameOf(z, f, i, frame)
  }

  predicate IsFrameOf(z: World, f: Uuid, i: nat, frame: seq<byte>) {
    f in z.started && i < ChunkCount(|z.started[f].bytes|) && frame == FrameFor(f, z.started[f].bytes, i)
  }

  ghost predicate MessageHonest(z: World, digest: Digest, m: WireMessage) {
    match m
    case TextFrame(p) => PacketHonest(z, digest, p)
    case BinaryFrame(bytes) => FrameHonest(z, bytes)
    case CloseFrame => true
  }

  /** What is written is a whole offered file, and no empty or over-long one. */
  predicate SavedHonest(z: World, s: SavedFile) {
    s.fileId in z.started && s.bytes == z.started[s.fileId].bytes && s.bytes != [] && FitsU32(|s.bytes|)
  }

  ghost predicate ClientHonest(z: World, digest: Digest, c: ClientState) {
    && (forall f :: f in c.store ==> EntryHonest(z, digest, f, c.store[f]))
    && (forall f :: f in c.tasks ==> TaskHonest(z, digest, f, c.tasks[f]))
    && (forall m :: m in c.outbox ==> MessageHonest(z, digest, m))
    && (forall s :: s in c.disk ==> SavedHonest(z, s))
  }

  ghost predicate NodeHonest(z: World, digest: Digest, n: Node) {
    && ClientHonest(z, digest, n.client)
    && (forall p :: p in n.inbound ==> PacketHonest(z, digest, p))
    && (forall frame :: frame in n.frames ==> FrameHonest(z, frame))
  }

  /** Legs carry ids drawn for their own file, and the index maps a completion id to the file it was drawn for. */
  predicate RegistryHonest(z: World, r: T.Registry) {
    && (forall k :: k in r.legs ==> r.legs[k].requestId in z.drawn && z.drawn[r.legs[k].requestId] == k.fileId)
    && (forall q :: q in r.index ==> r.index[q] in z.completions && q == z.completions[r.index[q]])
  }

  ghost predicate RelayHonest(z: World, digest: Digest, r: R.RelayState) {
    RegistryHonest(z, r.registry) && ChannelsHonest(z, digest, r.outbound)
  }

  ghost predicate ChannelsHonest(z: World, digest: Digest, out: map<Uuid, seq<WireMessage>>) {
    forall c, m :: c in out && m in out[c] ==> MessageHonest(z, digest, m)
  }

  ghost predicate WorldHonest(z: World, digest: Digest, w: World) {
    && RelayHonest(z, digest, w.relay)
    && (forall c :: c in w.nodes ==> NodeHonest(z, digest, w.nodes[c]))
    && (forall f :: f in w.offered ==> f in z.started)
  }

  // ---------- the pieces of client steps ----------

  lemma PutHonest(z: World, digest: Digest, c: ClientState, f: Uuid, t: Transfer, event: StoreEvent)
    requires ClientHonest(z, digest, c) && EntryHonest(z, digest, f, t)
    ensures ClientHonest(z, digest, Put(c, f, t, event))
  {
  }

  lemma TakeHonest(z: World, digest: Digest, c: ClientState, f: Uuid)
    requires ClientHonest(z, digest, c) && f in c.store
    ensures ClientHonest(z, digest, Take(c, f))
  {
  }

  lemma MutateHonest(z: World, digest: Digest, c: ClientState, f: Uuid, t: Transfer)
    requires ClientHonest(z, digest, c) && f in c.store && EntryHonest(z, digest, f, t)
    ensures ClientHonest(z, digest, Mutate(c, f, t))
  {
  }

  lemma SendHonest(z: World, digest: Digest, c: ClientState, p: Packet)
    requires ClientHonest(z, digest, c) && PacketHonest(z, digest, p)
    ensures ClientHonest(z, digest, Send(c, p))
  {
  }

  lemma TaskSetHonest(z: World, digest: Digest, c: ClientState, d: ClientState, f: Uuid, k: SendTask)
    requires ClientHonest(z, digest, c) && TaskHonest(z, digest, f, k)
    requires d.store == c.store && d.outbox == c.outbox && d.disk == c.disk && d.tasks == c.tasks[f := k]
    ensures ClientHonest(z, digest, d)
  {
  }

  lemma TaskDropHonest(z: World, digest: Digest, c: ClientState, d: ClientState, f: Uuid)
    requires ClientHonest(z, digest, c)
    requires d.store == c.store && d.outbox == c.outbox && d.disk == c.disk && d.tasks == c.tasks - {f}
    ensures ClientHonest(z, digest, d)
  {
  }

  // ---------- client steps ----------

  lemma StartHonest(z: World, setup: Setup, w: World, c: Uuid, s: ClientStep)
    requires ClientEnabled(setup, w, c, s) && s.Start? && Extends(Recorded(w, c, s), z)
    requires ClientHonest(z, setup.digest, w.nodes[c].client)
    ensures ClientHonest(z, setup.digest,
            StartOutgoing(w.nodes[c].cfg, w.nodes[c].client, s.fileId, s.rid, s.fileName, s.path, s.bytes,
                                                        s.sha256, s.targetGroup, s.targetClient))
  {
    var n := w.nodes[c];
    var d := StartOutgoing(n.cfg, n.client, s.fileId, s.rid, s.fileName, s.path, s.bytes, s.sha256, s.targetGroup,
        s.targetClient);
    var v := Recorded(w, c, s);
    assert s.fileId in v.started && v.started[s.fileId].bytes == s.bytes && s.rid in v.drawn
        && v.drawn[s.rid] == s.fileId;
    var t := d.store[s.fileId];
    PutHonest(z, setup.digest, n.client, s.fileId, t, InsertedOutgoing(s.fileId));
    var offer := d.outbox[|d.outbox| - 1];
    SendHonest(z, setup.digest, Put(n.client, s.fileId, t, InsertedOutgoing(s.fileId)), offer.packet);
  }

  lemma OfferHonest(z: World, digest: Digest, cfg: Config, c: ClientState, p: EventPacket, savePath: string,
                    rid: RequestId)
    requires ClientHonest(z, digest, c) && EventHonest(z, digest, p) && p.eventType == FileOffer
    ensures OnOffer(cfg, c, p, savePath, rid).Ok? && ClientHonest(z, digest, OnOffer(cfg, c, p, savePath, rid).value)
  {
    var f := p.meta.fileId.value;
    PutHonest(z, digest, c, f, OfferedTransfer(cfg, p, savePath), InsertedOffer(f));
    AcceptHonest(z, digest, cfg, Put(c, f, OfferedTransfer(cfg, p, savePath), InsertedOffer(f)), f, rid);
  }

  lemma AcceptHonest(z: World, digest: Digest, cfg: Config, c: ClientState, f: Uuid, rid: RequestId)
    requires ClientHonest(z, digest, c) && AcceptExpects(c, f)
    ensures ClientHonest(z, digest, AcceptPending(cfg, c, f, rid))
  {
    if InState(c, f, PendingOffer) {
      MutateHonest(z, digest, c, f, Incoming(c.store[f]));
      SendHonest(z, digest, Mutate(c, f, Incoming(c.store[f])),
                 AcceptPending(cfg, c, f, rid).outbox[|c.outbox|].packet);
    }
  }

  lemma DropHonest(z: World, digest: Digest, cfg: Config, c: ClientState, f: Uuid, rid: RequestId)
    requires ClientHonest(z, digest, c)
    ensures ClientHonest(z, digest, Abort(cfg, c, f, rid)) && ClientHonest(z, digest, RejectPending(cfg, c, f, rid))
  {
    if f in c.store {
      TakeHonest(z, digest, c, f);
      SendHonest(z, digest, Take(c, f), Abort(cfg, c, f, rid).outbox[|c.outbox|].packet);
      if InState(c, f, PendingOffer) {
        SendHonest(z, digest, Take(c, f), RejectPending(cfg, c, f, rid).outbox[|c.outbox|].packet);
      }
    }
  }

  /** A frame that is applied is the next chunk of its file. */
  lemma ApplyHonest(z: World, digest: Digest, f: Uuid, i: nat, t: Transfer)
    requires EntryHonest(z, digest, f, t) && t.Ok() && t.state == Receiving && i < ChunkCount(|z.started[f].bytes|)
    ensures var (u, r) := ReceiveChunk(t, f, z.started[f].bytes, i); r.Ok? ==> EntryHonest(z, digest, f, u)
  {
    var bytes := z.started[f].bytes;
    var (u, r) := ReceiveChunk(t, f, bytes, i);
    ReceivedNext(t, f, bytes, i);
    if r.Ok? {
      NextEntryHonest(z, digest, f, i, t, u);
    }
  }

  lemma NextEntryHonest(z: World, digest: Digest, f: Uuid, i: nat, t: Transfer, u: Transfer)
    requires EntryHonest(z, digest, f, t) && t.state == Receiving == u.state
    requires i < ChunkCount(|z.started[f].bytes|) && i * CHUNK_SIZE < |z.started[f].bytes|
    requires AsU32(i) == t.nextChunkIndex
    requires u.bytesTotal == t.bytesTotal && u.totalChunks == t.totalChunks && u.sha256 == t.sha256
    requires u.nextChunkIndex == t.nextChunkIndex + 1
    requires u.incomingBytes == t.incomingBytes + ChunkAt(z.started[f].bytes, CHUNK_SIZE, i)
    ensures EntryHonest(z, digest, f, u)
  {
    var bytes := z.started[f].bytes;
    PrefixStep(bytes, i);
    assert Indexable(|bytes|) ==> u.nextChunkIndex == i + 1;
  }

  /** What a received chunk leaves of the entry, and where in the file it must have been. */
  lemma ReceivedNext(t: Transfer, f: Uuid, bytes: seq<byte>, i: nat)
    requires t.Ok() && t.state == Receiving && i < ChunkCount(|bytes|)
    ensures i * CHUNK_SIZE < |bytes| && |ChunkAt(bytes, CHUNK_SIZE, i)| <= CHUNK_SIZE
    ensures var (u, r) := ReceiveChunk(t, f, bytes, i);
            && u.state == t.state && u.bytesTotal == t.bytesTotal && u.totalChunks == t.totalChunks
            && u.sha256 == t.sha256
            && (r.Ok? ==> AsU32(i) == t.nextChunkIndex && u.nextChunkIndex == t.nextChunkIndex + 1
                          && u.incomingBytes == t.incomingBytes + ChunkAt(bytes, CHUNK_SIZE, i))
  {
    PrefixStep(bytes, i);
    var chunk := ChunkAt(bytes, CHUNK_SIZE, i);
    var h := NewHeader(f, AsU32(i), TotalChunks(|bytes|), |chunk|);
    ApplyChunkVerdict(t, h, chunk);
    AppliedKeepsOffer(t, h, chunk);
  }

  lemma AppliedKeepsOffer(t: Transfer, h: ChunkHeader, payload: seq<byte>)
    ensures var u := ApplyChunk(t, h, payload).0;
            && u.state == t.state && u.bytesTotal == t.bytesTotal && u.totalChunks == t.totalChunks
            && u.sha256 == t.sha256
  {
  }

  lemma FrameStepHonest(z: World, digest: Digest, cfg: Config, c: ClientState, frame: seq<byte>, rid: RequestId)
    requires ClientHonest(z, digest, c) && StoreOk(c.store) && FrameHonest(z, frame)
    ensures OnFrame(cfg, c, frame, rid).Ok? && ClientHonest(z, digest, OnFrame(cfg, c, frame, rid).value)
  {
    var f: Uuid, i: nat :| IsFrameOf(z, f, i, frame);
    FrameDecodes(f, z.started[f].bytes, i);
    if InState(c, f, Receiving) {
      var t := c.store[f];
      ApplyHonest(z, digest, f, i, t);
      PrefixStep(z.started[f].bytes, i);
      var (h, payload) := Decode(frame).value;
      var (u, r) := ApplyChunk(t, h, payload);
      if r.Ok? {
        MutateHonest(z, digest, c, f, u);
      } else {
        BadFrameHonest(z, digest, cfg, c, f, u, rid);
      }
    }
  }

  lemma BadFrameHonest(z: World, digest: Digest, cfg: Config, c: ClientState, f: Uuid, u: Transfer, rid: RequestId)
    requires ClientHonest(z, digest, c) && f in c.store
    ensures ClientHonest(z, digest, Abort(cfg, Mutate(c, f, u), f, rid))
  {
    var d := Abort(cfg, Mutate(c, f, u), f, rid);
    TakeHonest(z, digest, c, f);
    assert d.store == Take(c, f).store;
    SendHonest(z, digest, Take(c, f), d.outbox[|c.outbox|].packet);
  }

  /** Whatever the digest function: a complete buffer of counted chunks is the file. */
  lemma CompleteHonest(z: World, digest: Digest, cfg: Config, c: ClientState, p: EventPacket)
    requires ClientHonest(z, digest, c) && SaveExpects(c, p, digest) && OnComplete(cfg, c, p, digest).Ok? && IdsOk(z)
    requires EventHonest(z, digest, p) && p.eventType == FileComplete
    ensures ClientHonest(z, digest, OnComplete(cfg, c, p, digest).value)
  {
    var f := p.meta.fileId.value;
    if InState(c, f, Receiving) {
      var t := c.store[f];
      var d := Take(c, f);
      TakeHonest(z, digest, c, f);
      var status := CompleteStatus(t, digest);
      if status == Accepted {
        var saved := SavedFile(f, t.savePath.value, t.incomingBytes);
        VerdictExact(z, digest, f, t);
        d := d.(disk := d.disk + [saved]);
      }
      SendHonest(z, digest, d, Ack(AckFrom(cfg.Identity(), Peer(t), p.requestId, status)));
    }
  }

  /** A completion is accepted exactly when the file is not empty, its count fits 32 bits and all chunks were applied:
      a larger file announces fewer chunks than it has, which can never add up to its size. */
  lemma VerdictExact(z: World, digest: Digest, f: Uuid, t: Transfer)
    requires EntryHonest(z, digest, f, t) && t.state == Receiving
    ensures var bytes := z.started[f].bytes;
            && (CompleteStatus(t, digest) == Accepted
               <==> |bytes| > 0 && FitsU32(|bytes|) && t.nextChunkIndex == ChunkCount(|bytes|))
            && (CompleteStatus(t, digest) == Accepted ==> t.incomingBytes == bytes)
  {
    var bytes := z.started[f].bytes;
    CountBounds(|bytes|, CHUNK_SIZE);
    TotalIsCount(|bytes|);
    if FitsU32(|bytes|) {
      PrefixLength(bytes, t.nextChunkIndex);
    } else {
      GiantNeverFits(|bytes|, t.nextChunkIndex);
    }
  }

  lemma GiantNeverFits(len: nat, n: u32)
    requires !FitsU32(len)
    ensures n * CHUNK_SIZE < len
  {
    CountBounds(len, CHUNK_SIZE);
  }

  lemma AcceptedTaskHonest(z: World, digest: Digest, c: ClientState, p: EventPacket)
    requires ClientHonest(z, digest, c) && SpawnExpects(c, p) && OnAccept(c, p).Ok?
    ensures ClientHonest(z, digest, OnAccept(c, p).value)
  {
    var f := p.meta.fileId.value;
    if InState(c, f, WaitingAccept) {
      var d := UpdatePhase(c, f, WaitingAccept, Sending, None);
      MutateHonest(z, digest, c, f, d.store[f]);
      TaskSetHonest(z, digest, d, OnAccept(c, p).value, f, TaskFor(d.store[f]));
    }
  }

  lemma DispatchHonest(z: World, digest: Digest, cfg: Config, c: ClientState, p: Packet, savePath: string,
                       rid: RequestId, choice: Uuid)
    requires ClientHonest(z, digest, c) && PacketExpects(c, p, digest, choice) && PacketHonest(z, digest, p) && IdsOk(z)
    requires Dispatch(cfg, c, p, digest, savePath, rid, choice).Ok?
    ensures ClientHonest(z, digest, Dispatch(cfg, c, p, digest, savePath, rid, choice).value)
  {
    match p
    case Ack(a) => if WaitsForAck(c.store, choice, a.requestId) { TakeHonest(z, digest, c, choice); }
    case Error(e) => if e.fileId.Some? && e.fileId.value in c.store { TakeHonest(z, digest, c, e.fileId.value); }
    case InitAck =>
    case HeartbeatAck =>
    case Event(e) =>
      match e.eventType {
        case FileOffer => OfferHonest(z, digest, cfg, c, e, savePath, rid);
        case FileAccept => AcceptedTaskHonest(z, digest, c, e);
        case FileReject => if e.meta.fileId.value in c.store { TakeHonest(z, digest, c, e.meta.fileId.value); }
        case FileAbort => if e.meta.fileId.value in c.store { TakeHonest(z, digest, c, e.meta.fileId.value); }
        case FileComplete => CompleteHonest(z, digest, cfg, c, e);
        case _ =>
      }
  }

  /** The send task's frames are the frames of its file. */
  lemma TaskFrameHonest(z: World, digest: Digest, f: Uuid, k: SendTask, i: nat)
    requires TaskHonest(z, digest, f, k) && i * k.chunkSize < |k.bytes|
    ensures FrameHonest(z, TaskFrame(f, k, i))
  {
    IndexInFile(|k.bytes|, CHUNK_SIZE, i);
    PrefixStep(k.bytes, i);
    assert IsFrameOf(z, f, i, TaskFrame(f, k, i));
  }

  lemma SendStepHonest(z: World, digest: Digest, c: ClientState, f: Uuid)
    requires ClientHonest(z, digest, c) && ProgressExpects(c, f)
    requires f in c.tasks && c.tasks[f].phase.AtSend?
    requires c.tasks[f].phase.index * c.tasks[f].chunkSize < |c.tasks[f].bytes|
    ensures ClientHonest(z, digest, TaskSend(c, f))
  {
    var k := c.tasks[f];
    var i := k.phase.index;
    TaskFrameHonest(z, digest, f, k, i);
    var e := c.(outbox := c.outbox + [BinaryFrame(TaskFrame(f, k, i))]);
    assert ClientHonest(z, digest, e);
    var sent := FrameQueued(c, f);
    TaskSetHonest(z, digest, e, sent, f, k.(phase := AtCheck(i + 1)));
    if HasOutgoing(c, f) {
      MutateHonest(z, digest, sent, f, TaskSend(c, f).store[f]);
    }
  }

  lemma CheckHonest(z: World, digest: Digest, c: ClientState, f: Uuid)
    requires ClientHonest(z, digest, c) && f in c.tasks && c.tasks[f].phase.AtCheck? && c.tasks[f].chunkSize > 0
    ensures ClientHonest(z, digest, TaskCheck(c, f))
  {
    var d := TaskCheck(c, f);
    if f in d.tasks {
      TaskSetHonest(z, digest, c, d, f, d.tasks[f]);
    } else {
      TaskDropHonest(z, digest, c, d, f);
    }
  }

  lemma CompletingHonest(z: World, setup: Setup, w: World, c: Uuid, s: ClientStep)
    requires ClientEnabled(setup, w, c, s) && s.Complete? && Extends(Recorded(w, c, s), z)
    requires ClientHonest(z, setup.digest, w.nodes[c].client)
    ensures ClientHonest(z, setup.digest, TaskComplete(w.nodes[c].cfg, w.nodes[c].client, s.fileId, s.rid))
  {
    var n := w.nodes[c];
    var f := s.fileId;
    var d := TaskComplete(n.cfg, n.client, f, s.rid);
    var v := Recorded(w, c, s);
    assert f in v.completions && v.completions[f] == s.rid;
    var p := d.outbox[|n.client.outbox|].packet;
    SendHonest(z, setup.digest, n.client, p);
    TaskSetHonest(z, setup.digest, Send(n.client, p), d, f, d.tasks[f]);
  }

  lemma MarkHonest(z: World, digest: Digest, c: ClientState, f: Uuid)
    requires ClientHonest(z, digest, c) && f in c.tasks && c.tasks[f].phase.AtMark?
    ensures ClientHonest(z, digest, TaskMark(c, f))
  {
    var d := TaskMark(c, f);
    var e := UpdatePhase(c, f, Sending, WaitingAck, Some(c.tasks[f].phase.completion));
    if f in c.store {
      MutateHonest(z, digest, c, f, d.store[f]);
    }
    TaskDropHonest(z, digest, e, d, f);
  }

  lemma ClientNextHonest(z: World, setup: Setup, w: World, c: Uuid, s: ClientStep)
    requires ClientEnabled(setup, w, c, s) && Sound(w.nodes[c].client) && Extends(Recorded(w, c, s), z)
    requires NodeHonest(z, setup.digest, w.nodes[c]) && IdsOk(z)
    requires Client.Next(w.nodes[c].cfg, setup.digest, w.nodes[c].client, s).Ok?
    ensures ClientHonest(z, setup.digest, Client.Next(w.nodes[c].cfg, setup.digest, w.nodes[c].client, s).value)
  {
    var n := w.nodes[c];
    match s
    case Start(_, _, _, _, _, _, _, _) => StartHonest(z, setup, w, c, s);
    case UserAccept(f, rid) => AcceptHonest(z, setup.digest, n.cfg, n.client, f, rid);
    case UserReject(f, rid) => DropHonest(z, setup.digest, n.cfg, n.client, f, rid);
    case UserAbort(f, rid) => DropHonest(z, setup.digest, n.cfg, n.client, f, rid);
    case Receive(p, savePath, rid, choice) =>
      DispatchHonest(z, setup.digest, n.cfg, n.client, p, savePath, rid, choice);
    case ReceiveFrame(frame, rid) => FrameStepHonest(z, setup.digest, n.cfg, n.client, frame, rid);
    case Check(f) => CheckHonest(z, setup.digest, n.client, f);
    case SendFrame(f) => SendStepHonest(z, setup.digest, n.client, f);
    case Complete(_, _) => CompletingHonest(z, setup, w, c, s);
    case Mark(f) => MarkHonest(z, setup.digest, n.client, f);
  }

  // ---------- the relay ----------

  ghost predicate InputHonest(z: World, digest: Digest, i: R.Input) {
    match i
    case EventIn(_, e) => EventHonest(z, digest, e)
    case AckIn(_, a) => AckHonest(z, a)
    case BinaryIn(_, bytes) => FrameHonest(z, bytes)
    case _ => true
  }

  lemma SideEffectsHonest(z: World, digest: Digest, cfg: R.ServerConfig, r: T.Registry, active: Sessions.SessionRecord,
                          routed: Routing.RouteResult)
    requires RegistryHonest(z, r) && EventHonest(z, digest, routed.packet) && IdsOk(z)
    requires R.SideEffects(cfg, r, active, routed).Ok?
    ensures RegistryHonest(z, R.SideEffects(cfg, r, active, routed).value)
  {
  }

  lemma EventInHonest(z: World, digest: Digest, cfg: R.ServerConfig, r: R.RelayState, active: Sessions.SessionRecord,
                      e: EventPacket)
    requires RelayHonest(z, digest, r) && EventHonest(z, digest, e) && IdsOk(z)
    ensures RelayHonest(z, digest, R.HandleEvent(cfg, r, active, e))
  {
    var routing := Routing.RouteEvent(r.sessions, active, e);
    if routing.Ok? {
      var packet := routing.value.packet;
      RR.RoutedKeepsContent(r.sessions, active, e);
      assert EventHonest(z, digest, packet);
      if R.SideEffects(cfg, r.registry, active, routing.value).Ok? {
        SideEffectsHonest(z, digest, cfg, r.registry, active, routing.value);
        assert MessageHonest(z, digest, TextFrame(Event(packet)));
      }
    }
  }

  lemma {:induction false} NoticesHonest(z: World, digest: Digest, s: Sessions.Sessions,
                                         out: map<Uuid, seq<WireMessage>>, gone: Sessions.SessionRecord,
                                         legs: seq<T.TransferRecord>)
    requires ChannelsHonest(z, digest, out) && forall i :: 0 <= i < |legs| ==> legs[i].fileId in z.started
    ensures ChannelsHonest(z, digest, R.Notify(s, out, gone, legs))
  {
    if legs != [] {
      var n := |legs| - 1;
      NoticesHonest(z, digest, s, out, gone, legs[..n]);
      if R.OtherEnd(legs[n], gone.connectionId) in s.connections {
        assert MessageHonest(z, digest, R.DisconnectNotice(s, gone, legs[n]));
      }
    }
  }

  lemma GoneHonest(z: World, digest: Digest, r: R.RelayState, gone: Sessions.SessionRecord, order: seq<T.LegKey>)
    requires RelayHonest(z, digest, r) && T.Lists(order, T.LegsNaming(r.registry, gone.connectionId)) && IdsOk(z)
    requires T.KeysOk(r.registry)
    ensures RelayHonest(z, digest, R.Cleanup(r, gone, order))
  {
    NoticesHonest(z, digest, r.sessions, r.outbound, gone, R.RecordsOf(r.registry, order));
  }

  lemma AckInHonest(z: World, digest: Digest, r: R.RelayState, active: Sessions.SessionRecord, a: AckPacket)
    requires RelayHonest(z, digest, r) && AckHonest(z, a)
    ensures RelayHonest(z, digest, R.HandleAck(r, active, a))
  {
    if Routing.RouteAck(r.sessions, active, a).Ok? {
      assert MessageHonest(z, digest, TextFrame(Ack(Routing.RouteAck(r.sessions, active, a).value.packet)));
    }
  }

  lemma BinaryInHonest(z: World, digest: Digest, r: R.RelayState, active: Sessions.SessionRecord, bytes: seq<byte>)
    requires RelayHonest(z, digest, r) && FrameHonest(z, bytes)
    ensures RelayHonest(z, digest, R.HandleBinary(r, active, bytes))
  {
    assert MessageHonest(z, digest, BinaryFrame(bytes));
  }

  lemma RelayNextHonest(z: World, digest: Digest, cfg: R.ServerConfig, r: R.RelayState, i: R.Input)
    requires RelayHonest(z, digest, r) && R.Possible(r, i) && InputHonest(z, digest, i) && IdsOk(z)
    requires T.KeysOk(r.registry)
    ensures RelayHonest(z, digest, R.Next(cfg, r, i))
  {
    match i
    case EventIn(c, e) => EventInHonest(z, digest, cfg, r, r.sockets[c], e);
    case Expired(c, order) =>
      var told := R.Push(R.Reply(r.(sessions := Sessions.RemoveSession(r.sessions, c)), c, Sessions.TimedOut), c,
          CloseFrame);
      GoneHonest(z, digest, told, r.sessions.connections[c], order);
    case Closed(c, order) =>
      GoneHonest(z, digest, r.(sessions := Sessions.RemoveSession(r.sessions, c), sockets := r.sockets - {c}),
                 r.sockets[c], order);
    case AckIn(c, a) => AckInHonest(z, digest, r, r.sockets[c], a);
    case BinaryIn(c, bytes) => BinaryInHonest(z, digest, r, r.sockets[c], bytes);
    case _ =>
  }

  // ---------- runs ----------

  lemma NodeChangeHonest(z: World, digest: Digest, w: World, c: Uuid, v: World)
    ensures WorldHonest(z, digest, w) && OthersSame(w, c, v) && NodeHonest(z, digest, v.nodes[c])
            && RelayHonest(z, digest, v.relay) && (forall f :: f in v.offered ==> f in z.started)
            ==> WorldHonest(z, digest, v)
  {
  }

  lemma SoundNode(w: World, c: Uuid)
    requires WorldSound(w) && c in w.nodes
    ensures Sound(w.nodes[c].client)
  {
    assert NodeSound(w, c, w.nodes[c]);
  }

  lemma SoundKeys(w: World)
    requires WorldSound(w)
    ensures T.KeysOk(w.relay.registry)
  {
  }

  lemma SteppedHonest(z: World, setup: Setup, w: World, c: Uuid, s: ClientStep)
    requires ClientEnabled(setup, w, c, s) && Sound(w.nodes[c].client) && Extends(Recorded(w, c, s), z)
    requires NodeHonest(z, setup.digest, w.nodes[c]) && IdsOk(z)
    ensures var n := w.nodes[c];
            NodeHonest(z, setup.digest, Stepped(n, s, Client.Next(n.cfg, setup.digest, n.client, s)))
  {
    hide Client.Next, ClientHonest;
    var n := w.nodes[c];
    if Client.Next(n.cfg, setup.digest, n.client, s).Ok? {
      ClientNextHonest(z, setup, w, c, s);
    }
  }

  lemma ClientStepHonest(z: World, setup: Setup, w: World, c: Uuid, s: ClientStep, v: World)
    requires WorldHonest(z, setup.digest, w) && WorldSound(w)
    requires ClientStepTo(setup, w, c, s, v) && Extends(v, z) && IdsOk(z)
    ensures WorldHonest(z, setup.digest, v)
  {
    hide Client.Next, NodeHonest, RelayHonest, IdsOk, WorldSound, OthersSame;
    ClientStepShape(setup, w, c, s, v);
    SoundNode(w, c);
    SteppedHonest(z, setup, w, c, s);
    NodeChangeHonest(z, setup.digest, w, c, v);
  }

  lemma DeliverHonest(z: World, digest: Digest, w: World, c: Uuid, v: World)
    requires WorldHonest(z, digest, w) && DeliverTo(w, c, v)
    ensures WorldHonest(z, digest, v)
  {
    var queue := w.relay.outbound[c];
    assert MessageHonest(z, digest, queue[0]);
    assert NodeHonest(z, digest, w.nodes[c]);
    NodeChangeHonest(z, digest, w, c, v);
  }

  lemma ForwardShape(setup: Setup, w: World, c: Uuid, v: World)
    requires ForwardTo(setup, w, c, v)
    ensures c in w.nodes && w.nodes[c].client.outbox != []
    ensures OthersSame(w, c, v) && v.nodes[c] == Sent(w.nodes[c])
    ensures InputFrom(c, w.nodes[c].client.outbox[0]).Some?
    ensures R.Possible(w.relay, InputFrom(c, w.nodes[c].client.outbox[0]).value)
    ensures v.relay == R.Next(setup.server, w.relay, InputFrom(c, w.nodes[c].client.outbox[0]).value)
    ensures v.offered == w.offered + OffersIn(w.nodes[c].client.outbox[0])
  {
    hide R.Next;
  }

  lemma SentHonest(z: World, digest: Digest, n: Node)
    requires NodeHonest(z, digest, n) && n.client.outbox != []
    ensures NodeHonest(z, digest, Sent(n)) && MessageHonest(z, digest, n.client.outbox[0])
    ensures forall f :: f in OffersIn(n.client.outbox[0]) ==> f in z.started
  {
    assert MessageHonest(z, digest, n.client.outbox[0]);
  }

  lemma ForwardHonest(z: World, setup: Setup, w: World, c: Uuid, v: World)
    requires WorldHonest(z, setup.digest, w) && ForwardTo(setup, w, c, v) && IdsOk(z) && WorldSound(w)
    ensures WorldHonest(z, setup.digest, v)
  {
    hide R.Next, R.Possible, NodeHonest, RelayHonest, IdsOk, WorldSound, ForwardTo, OthersSame;
    SoundKeys(w);
    ForwardShape(setup, w, c, v);
    var m := w.nodes[c].client.outbox[0];
    SentHonest(z, setup.digest, w.nodes[c]);
    RelayNextHonest(z, setup.digest, setup.server, w.relay, InputFrom(c, m).value);
    NodeChangeHonest(z, setup.digest, w, c, v);
  }

  lemma ConnectHonest(z: World, setup: Setup, w: World, s: Step, v: World)
    requires WorldHonest(z, setup.digest, w) && s.Connect? && StepTo(setup, w, s, v)
    ensures WorldHonest(z, setup.digest, v)
  {
    hide NodeHonest, RelayHonest;
    InitHonest(z, setup.digest, w.relay, s.rec);
    if Sessions.AddSession(w.relay.sessions, s.rec).Ok? {
      var n := v.nodes[s.rec.connectionId];
      FreshHonest(z, setup.digest, n);
      NodeChangeHonest(z, setup.digest, w, s.rec.connectionId, v);
    }
  }

  lemma FreshHonest(z: World, digest: Digest, n: Node)
    requires n.client == FRESH_CLIENT && n.inbound == [] && n.frames == []
    ensures NodeHonest(z, digest, n)
  {
  }

  lemma InitHonest(z: World, digest: Digest, r: R.RelayState, rec: Sessions.SessionRecord)
    requires RelayHonest(z, digest, r)
    ensures RelayHonest(z, digest, R.HandleInit(r, rec))
  {
  }

  lemma InitialHonest(z: World, digest: Digest)
    ensures WorldHonest(z, digest, INITIAL)
  {
  }

  lemma SayHonest(z: World, setup: Setup, w: World, s: Step, v: World)
    requires WorldHonest(z, setup.digest, w) && s.Say? && StepTo(setup, w, s, v)
    ensures WorldHonest(z, setup.digest, v)
  {
    assert NodeHonest(z, setup.digest, w.nodes[s.c]);
    SendHonest(z, setup.digest, w.nodes[s.c].client, Event(s.event));
    NodeChangeHonest(z, setup.digest, w, s.c, v);
  }

  lemma DieHonest(z: World, setup: Setup, w: World, s: Step, v: World)
    requires WorldHonest(z, setup.digest, w) && s.Die? && StepTo(setup, w, s, v)
    ensures WorldHonest(z, setup.digest, v)
  {
    assert NodeHonest(z, setup.digest, w.nodes[s.c]);
    NodeChangeHonest(z, setup.digest, w, s.c, v);
  }

  lemma AtRelayHonest(z: World, setup: Setup, w: World, s: Step, v: World)
    requires WorldHonest(z, setup.digest, w) && WorldSound(w) && IdsOk(z) && s.AtRelay? && StepTo(setup, w, s, v)
    ensures WorldHonest(z, setup.digest, v)
  {
    hide R.Next;
    RelayNextHonest(z, setup.digest, setup.server, w.relay, s.input);
  }

  lemma StepHonest(z: World, setup: Setup, w: World, s: Step, v: World)
    requires WorldHonest(z, setup.digest, w) && WorldSound(w)
    requires StepTo(setup, w, s, v) && Extends(v, z) && IdsOk(z)
    ensures WorldHonest(z, setup.digest, v)
  {
    hide WorldHonest, WorldSound, Extends, IdsOk, Client.Next, R.Next;
    match s
    case Connect(_, _) => ConnectHonest(z, setup, w, s, v);
    case At(c, step) => ClientStepHonest(z, setup, w, c, step, v);
    case Say(_, _) => SayHonest(z, setup, w, s, v);
    case Deliver(c) => DeliverHonest(z, setup.digest, w, c, v);
    case Forward(c) => ForwardHonest(z, setup, w, c, v);
    case AtRelay(_) => AtRelayHonest(z, setup, w, s, v);
    case Die(_) => DieHonest(z, setup, w, s, v);
  }

  lemma RunFacts(setup: Setup, steps: seq<Step>, states: seq<World>, m: nat, n: nat)
    requires IsRun(setup, steps, states) && m < n <= |steps|
    ensures StepTo(setup, states[m], steps[m], states[m + 1])
    ensures IdsOk(states[n]) && Extends(states[m + 1], states[n]) && WorldSound(states[m])
  {
    RunsSound(setup, steps, states, m + 1, n);
    RunsSound(setup, steps, states, m, m);
  }

  lemma RunStarts(setup: Setup, steps: seq<Step>, states: seq<World>, z: World)
    requires IsRun(setup, steps, states)
    ensures WorldHonest(z, setup.digest, states[0])
  {
    InitialHonest(z, setup.digest);
  }

  lemma StepHonestAt(setup: Setup, steps: seq<Step>, states: seq<World>, m: nat, n: nat)
    requires IsRun(setup, steps, states) && m < n <= |steps|
    ensures WorldHonest(states[n], setup.digest, states[m]) ==> WorldHonest(states[n], setup.digest, states[m + 1])
  {
    hide WorldHonest, WorldSound, Extends, IdsOk, StepTo;
    RunFacts(setup, steps, states, m, n);
    if WorldHonest(states[n], setup.digest, states[m]) {
      StepHonest(states[n], setup, states[m], steps[m], states[m + 1]);
    }
  }

  lemma RunsHonest(setup: Setup, steps: seq<Step>, states: seq<World>, m: nat, n: nat)
    requires IsRun(setup, steps, states) && m <= n <= |steps|
    ensures WorldHonest(states[n], setup.digest, states[m])
  {
    var honest := w => WorldHonest(states[n], setup.digest, w);
    RunStarts(setup, steps, states, states[n]);
    forall i | 0 <= i < m && honest(states[i])
      ensures honest(states[i + 1])
    {
      StepHonestAt(setup, steps, states, i, n);
    }
    Along(honest, states, m);
  }

  /** In every state of every run: every file any client has written equals the bytes its sender read when it offered
      that id, and a receiving entry's buffer is the concatenation of the file's first `next_chunk_index` chunks, for
      every file whose chunk indices fit 32 bits. Nothing is assumed of the digest. */
  lemma DeliveredFilesAreTheOffered(setup: Setup, steps: seq<Step>, states: seq<World>, n: nat, c: Uuid, f: Uuid)
    requires IsRun(setup, steps, states) && n <= |steps| && c in states[n].nodes
    ensures var w := states[n];
            var client := w.nodes[c].client;
            && (forall s :: s in client.disk ==> s.fileId in w.started && s.bytes == w.started[s.fileId].bytes)
            && (InState(client, f, Receiving) ==>
                  && f in w.started
                  && var bytes := w.started[f].bytes;
                     var next := client.store[f].nextChunkIndex;
                     Indexable(|bytes|) ==>
                       next <= |Chunks(bytes, CHUNK_SIZE)|
                           && client.store[f].incomingBytes == Join(Chunks(bytes, CHUNK_SIZE)[..next]))
  {
    var w := states[n];
    RunsHonest(setup, steps, states, n, n);
    assert NodeHonest(w, setup.digest, w.nodes[c]);
    assert forall s :: s in w.nodes[c].client.disk ==> SavedHonest(w, s);
    if InState(w.nodes[c].client, f, Receiving) && Indexable(|w.started[f].bytes|) {
      var t := w.nodes[c].client.store[f];
      assert EntryHonest(w, setup.digest, f, t);
      ChunksShape(w.started[f].bytes, CHUNK_SIZE);
      JoinTake(w.started[f].bytes, CHUNK_SIZE, t.nextChunkIndex);
    }
  }

  /** The bound is exact: an entry that has received nothing takes only the file's first chunk as its first, for all
      file contents of that length, exactly when the chunk indices fit 32 bits. */
  lemma FirstChunkExactly(t: Transfer, f: Uuid, bytes: seq<byte>)
    requires t.Ok() && t.state == Receiving && t.nextChunkIndex == 0 && t.incomingBytes == []
    requires t.bytesTotal == |bytes| && t.totalChunks == TotalChunks(|bytes|)
    ensures (forall i: nat :: i < ChunkCount(|bytes|) && ReceiveChunk(t, f, bytes, i).1.Ok? ==> i == 0)
            <==> Indexable(|bytes|)
  {
    if Indexable(|bytes|) {
      forall i: nat | i < ChunkCount(|bytes|) && ReceiveChunk(t, f, bytes, i).1.Ok?
        ensures i == 0
      {
        ReceivedNext(t, f, bytes, i);
      }
    } else {
      var wrapped: nat := 0x1_0000_0000;
      PrefixStep(bytes, wrapped);
      var chunk := ChunkAt(bytes, CHUNK_SIZE, wrapped);
      ApplyChunkVerdict(t, NewHeader(f, AsU32(wrapped), TotalChunks(|bytes|), |chunk|), chunk);
      assert ReceiveChunk(t, f, bytes, wrapped).1.Ok?;
    }
  }

  /** And when `file_complete` is dispatched to a receiving client, whatever the file, the answer is Ok, and the file
      written, exactly when the file is not empty, its chunk count fits 32 bits and all its chunks were applied
      before. */
  lemma CompletionIsExact(setup: Setup, steps: seq<Step>, states: seq<World>, n: nat, c: Uuid, p: EventPacket)
    requires IsRun(setup, steps, states) && n <= |steps| && c in states[n].nodes
    requires p.meta.fileId.Some? && InState(states[n].nodes[c].client, p.meta.fileId.value, Receiving)
    ensures var w := states[n];
            var f := p.meta.fileId.value;
            var client := w.nodes[c].client;
            var t := client.store[f];
            && StoreOk(client.store) && f in w.started
            && var bytes := w.started[f].bytes;
               var r := OnComplete(w.nodes[c].cfg, client, p, setup.digest);
               var whole := |bytes| > 0 && FitsU32(|bytes|) && t.nextChunkIndex == ChunkCount(|bytes|);
               var status := if whole then Accepted else Rejected;
               && r.Ok? && f !in r.value.store
               && r.value.outbox
                  == client.outbox + [TextFrame(Ack(AckFrom(w.nodes[c].cfg.Identity(), Peer(t), p.requestId, status)))]
               && r.value.disk == client.disk + if status == Accepted then [SavedFile(f, t.savePath.value, bytes)]
                  else []
  {
    var w := states[n];
    var f := p.meta.fileId.value;
    RunsSound(setup, steps, states, n, n);
    RunsHonest(setup, steps, states, n, n);
    assert NodeHonest(w, setup.digest, w.nodes[c]);
    VerdictInState(w, setup.digest, w.nodes[c], p);
  }

  lemma VerdictInState(w: World, digest: Digest, n: Node, p: EventPacket)
    requires StoreOk(n.client.store) && ClientHonest(w, digest, n.client)
    requires p.meta.fileId.Some? && InState(n.client, p.meta.fileId.value, Receiving)
    ensures var f := p.meta.fileId.value;
            var t := n.client.store[f];
            && f in w.started
            && var bytes := w.started[f].bytes;
               var r := OnComplete(n.cfg, n.client, p, digest);
               var whole := |bytes| > 0 && FitsU32(|bytes|) && t.nextChunkIndex == ChunkCount(|bytes|);
               var status := if whole then Accepted else Rejected;
               && r.Ok? && f !in r.value.store
               && r.value.outbox
                  == n.client.outbox + [TextFrame(Ack(AckFrom(n.cfg.Identity(), Peer(t), p.requestId, status)))]
               && r.value.disk == n.client.disk + if status == Accepted then [SavedFile(f, t.savePath.value, bytes)]
                  else []
  {
    var f := p.meta.fileId.value;
    VerdictExact(w, digest, f, n.client.store[f]);
  }
}
