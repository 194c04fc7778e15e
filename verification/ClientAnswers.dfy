/** What a client answers (src/state/file_handling.rs, src/state/outgoing.rs), told by the packets it has received: what
    it writes and acknowledges, whom it replies to, and what an offer tells the other end. */
module ClientAnswers {
  import opened Basics
  import opened Packets
  import opened ChunkCodec
  import opened Chunking
  import opened FileStore
  import opened Client
  import opened ClientRuns

  type Digest = seq<byte> -> string

  // ---------- one completion ----------

  /** Every announced chunk was counted, the size is the announced one, and so is the digest if one was announced. */
  predicate Whole(t: Transfer, digest: Digest) {
    && t.nextChunkIndex == t.totalChunks
    && |t.incomingBytes| == t.bytesTotal
    && (t.sha256 == "" || digest(t.incomingBytes) == t.sha256)
  }

  /** Whoever sent what: a `file_complete` for a receiving entry writes the buffer and acknowledges it when it is whole,
      and otherwise writes nothing and refuses; the entry is gone, and the answer carries the request id back to the
      entry's peer. */
  lemma CompletionAnswered(cfg: Config, digest: Digest, c: ClientState, p: EventPacket, f: Uuid)
    requires Sound(c) && p.meta.fileId == Some(f) && InState(c, f, Receiving)
    ensures SaveExpects(c, p, digest) && OnComplete(cfg, c, p, digest).Ok?
    ensures var t := c.store[f];
            var d := OnComplete(cfg, c, p, digest).value;
            var status := if Whole(t, digest) then Accepted else Rejected;
            && t.savePath.Some?
            && d.store == c.store - {f} && d.tasks == c.tasks
            && d.disk == c.disk + (if Whole(t, digest) then [SavedFile(f, t.savePath.value, t.incomingBytes)] else [])
            && d.outbox == c.outbox + [TextFrame(Ack(AckPacket("v3", AckKind, p.requestId,
                 Some(Endpoint(Some(cfg.group), Some(cfg.name))), Some(Endpoint(Some(t.peerGroup), Some(t.peerClient))),
                 Some(FileComplete), status)))]
  {
    assert c.store[f].Ok();
  }

  // ---------- an offer and its arrival ----------

  /** The transfer as the sender enters it and as a receiver enters it from the offer that was sent, whatever the two
      are called: both hold the same name, size, digest and number of chunks, and each has the other as its peer. */
  lemma OfferArrives(sender: Config, s: ClientState, f: Uuid, rid: RequestId, fileName: string, path: string,
                     bytes: seq<byte>, sha256: string, toGroup: Option<string>, to: Option<string>, receiver: Config,
                     r: ClientState, savePath: string, acceptId: RequestId)
    requires |bytes| < 0x1_0000_0000_0000_0000
    ensures var d := StartOutgoing(sender, s, f, rid, fileName, path, bytes, sha256, toGroup, to);
            |d.outbox| == |s.outbox| + 1 && s.outbox <= d.outbox
    ensures var d := StartOutgoing(sender, s, f, rid, fileName, path, bytes, sha256, toGroup, to);
            var offer := d.outbox[|d.outbox| - 1];
            && offer.TextFrame? && offer.packet.Event? && offer.packet.event.eventType == FileOffer
            && offer.packet.event.target == Some(Endpoint(Some(GroupOr(toGroup, sender)), to))
            && offer.packet.event.meta.chunkSize == Some(262144) && d.store[f].chunkSize == Some(262144)
            && OnOffer(receiver, r, offer.packet.event, savePath, acceptId).Ok?
            && var e := OnOffer(receiver, r, offer.packet.event, savePath, acceptId).value;
               && d.store.Keys == s.store.Keys + {f} && e.store.Keys == r.store.Keys + {f}
               && d.store[f].state == WaitingAccept && d.store[f].outgoingBytes == Some(bytes)
               && d.store[f].sourcePath == Some(path) && e.store[f].savePath == Some(savePath)
               && d.store[f].peerGroup == GroupOr(toGroup, sender)
               && d.store[f].peerClient == (if to.Some? then to.value else "*")
               && e.store[f].peerGroup == sender.group && e.store[f].peerClient == sender.name
               && e.store[f].state == (if receiver.autoAccept then Receiving else PendingOffer)
               && SameFile(d.store[f], e.store[f])
               && d.store[f].bytesTotal == |bytes| && d.store[f].fileName == fileName
               && d.store[f].sha256 == sha256 && d.store[f].totalChunks == TotalChunks(|bytes|)
  {
    hide OnOffer, NewOutgoing;
    var d := StartOutgoing(sender, s, f, rid, fileName, path, bytes, sha256, toGroup, to);
    OfferMade(sender, s, f, rid, fileName, path, bytes, sha256, toGroup, to);
    OfferTaken(receiver, r, d.outbox[|s.outbox|].packet.event, f, savePath, acceptId);
  }

  lemma OfferMade(cfg: Config, c: ClientState, f: Uuid, rid: RequestId, fileName: string, path: string,
                  bytes: seq<byte>, sha256: string, toGroup: Option<string>, to: Option<string>)
    requires |bytes| < 0x1_0000_0000_0000_0000
    ensures var d := StartOutgoing(cfg, c, f, rid, fileName, path, bytes, sha256, toGroup, to);
            && d.store.Keys == c.store.Keys + {f}
            && d.store[f].state == WaitingAccept && d.store[f].outgoingBytes == Some(bytes)
            && d.store[f].sourcePath == Some(path) && d.store[f].chunkSize == Some(262144)
            && d.store[f].peerGroup == GroupOr(toGroup, cfg)
            && d.store[f].peerClient == (if to.Some? then to.value else "*")
            && d.store[f].fileName == fileName && d.store[f].bytesTotal == |bytes| && d.store[f].sha256 == sha256
            && d.store[f].totalChunks == TotalChunks(|bytes|)
  {
  }

  lemma OfferTaken(cfg: Config, c: ClientState, p: EventPacket, f: Uuid, savePath: string, rid: RequestId)
    requires p.meta.fileId == Some(f)
    ensures OnOffer(cfg, c, p, savePath, rid).Ok?
    ensures var d := OnOffer(cfg, c, p, savePath, rid).value;
            && d.store.Keys == c.store.Keys + {f} && TakenFrom(cfg, d.store[f], p, savePath)
            && d.store[f].state == (if cfg.autoAccept then Receiving else PendingOffer)
  {
  }

  /** The group an offer names, by default the sender's own. */
  function GroupOr(toGroup: Option<string>, sender: Config): string {
    match toGroup case Some(group) => group case None => sender.group
  }

  predicate SameFile(t: Transfer, u: Transfer) {
    t.fileName == u.fileName && t.bytesTotal == u.bytesTotal && t.sha256 == u.sha256 && t.totalChunks == u.totalChunks
  }

  /** What an entry takes from an offer, and what stands for the fields the offer does not have. */
  predicate TakenFrom(cfg: Config, t: Transfer, p: EventPacket, savePath: string) {
    && t.savePath == Some(savePath)
    && t.bytesTotal == SizeIn(p) && t.sha256 == DigestIn(p)
    && t.fileName == (match p.meta.fileName case Some(name) => name case None => "unknown.bin")
    && t.totalChunks == (match p.meta.totalChunks case Some(n) => n % 0x1_0000_0000 case None => 1)
    && t.peerGroup == (match p.source case Some(Endpoint(Some(g), _)) => g case _ => cfg.group)
    && t.peerClient == (match p.source case Some(Endpoint(_, Some(name))) => name case _ => "unknown")
  }

  function SizeIn(p: EventPacket): nat {
    match p.meta.fileSize case Some(size) => size case None => 0
  }

  /** No digest counts as the empty one. */
  function DigestIn(p: EventPacket): string {
    match p.meta.sha256 case Some(digest) => digest case None => ""
  }

  // ---------- runs ----------

  predicate IsOffer(s: ClientStep, f: Uuid) {
    s.Receive? && s.packet.Event? && s.packet.event.eventType == FileOffer && s.packet.event.meta.fileId == Some(f)
  }

  predicate IsCompletion(s: ClientStep, f: Uuid) {
    s.Receive? && s.packet.Event? && s.packet.event.eventType == FileComplete && s.packet.event.meta.fileId == Some(f)
  }

  /** The file's latest offer is step i. */
  predicate LatestOffer(steps: seq<ClientStep>, i: nat, f: Uuid) {
    && i < |steps| && IsOffer(steps[i], f)
    && forall k :: i < k < |steps| ==> !IsOffer(steps[k], f)
  }

  predicate IsIncoming(t: Transfer) {
    t.state == PendingOffer || t.state == Receiving
  }

  /** The incoming entry is its latest offer's. */
  ghost predicate Offered(cfg: Config, steps: seq<ClientStep>, f: Uuid, t: Transfer) {
    exists i: nat :: LatestOffer(steps, i, f) && TakenFrom(cfg, t, steps[i].packet.event, steps[i].savePath)
  }

  /** An offer up to step j said where the file goes, how large it is and what its digest is; and step j completed
      it. */
  ghost predicate WrittenBy(digest: Digest, steps: seq<ClientStep>, i: nat, j: nat, saved: SavedFile) {
    && i < j < |steps| && IsCompletion(steps[j], saved.fileId) && LatestOffer(steps[..j], i, saved.fileId)
    && saved.path == steps[i].savePath
    && |saved.bytes| == SizeIn(steps[i].packet.event)
    && (DigestIn(steps[i].packet.event) != "" ==> digest(saved.bytes) == DigestIn(steps[i].packet.event))
  }

  ghost predicate Written(digest: Digest, steps: seq<ClientStep>, saved: SavedFile) {
    exists i: nat, j: nat :: WrittenBy(digest, steps, i, j, saved)
  }

  /** What the next step finds: the client of a run, its incoming entries offered and its files written. */
  ghost predicate Kept(cfg: Config, digest: Digest, steps: seq<ClientStep>, c: ClientState) {
    && (forall f :: f in c.store && IsIncoming(c.store[f]) ==> Offered(cfg, steps, f, c.store[f]))
    && (forall saved :: saved in c.disk ==> Written(digest, steps, saved))
  }

  /** Peer, names and numbers of an incoming entry never change after its offer. */
  predicate SameOffer(t: Transfer, u: Transfer) {
    && SameFile(t, u) && u.savePath == t.savePath && u.peerGroup == t.peerGroup && u.peerClient == t.peerClient
  }

  /** Where an incoming entry comes from in one step. */
  predicate Traced(cfg: Config, c: ClientState, s: ClientStep, d: ClientState, f: Uuid) {
    f in d.store && IsIncoming(d.store[f]) ==>
      if IsOffer(s, f) then TakenFrom(cfg, d.store[f], s.packet.event, s.savePath)
      else f in c.store && IsIncoming(c.store[f]) && SameOffer(c.store[f], d.store[f])
  }

  lemma FrameTraced(cfg: Config, c: ClientState, frame: seq<byte>, rid: RequestId, f: Uuid)
    requires OnFrame(cfg, c, frame, rid).Ok?
    ensures Traced(cfg, c, ReceiveFrame(frame, rid), OnFrame(cfg, c, frame, rid).value, f)
    ensures OnFrame(cfg, c, frame, rid).value.disk == c.disk
  {
    hide Decode, Percent, ReceiverReports;
  }

  /** Everything but offers and completions takes entries away or leaves them. */
  lemma OthersTraced(cfg: Config, digest: Digest, c: ClientState, s: ClientStep, f: Uuid)
    requires s.Receive? && PacketExpects(c, s.packet, digest, s.choice)
    requires Dispatch(cfg, c, s.packet, digest, s.savePath, s.rid, s.choice).Ok?
    requires s.packet.Event? ==> s.packet.event.eventType != FileOffer && s.packet.event.eventType != FileComplete
    ensures Traced(cfg, c, s, Dispatch(cfg, c, s.packet, digest, s.savePath, s.rid, s.choice).value, f)
  {
    hide OnOffer, OnComplete, TakenFrom;
  }

  lemma OfferTraced(cfg: Config, c: ClientState, s: ClientStep, f: Uuid)
    requires s.Receive? && s.packet.Event? && s.packet.event.eventType == FileOffer
    requires OnOffer(cfg, c, s.packet.event, s.savePath, s.rid).Ok?
    ensures Traced(cfg, c, s, OnOffer(cfg, c, s.packet.event, s.savePath, s.rid).value, f)
  {
  }

  lemma CompletionTraced(cfg: Config, digest: Digest, c: ClientState, s: ClientStep, f: Uuid)
    requires s.Receive? && s.packet.Event? && s.packet.event.eventType == FileComplete
    requires SaveExpects(c, s.packet.event, digest) && OnComplete(cfg, c, s.packet.event, digest).Ok?
    ensures Traced(cfg, c, s, OnComplete(cfg, c, s.packet.event, digest).value, f)
  {
    hide CompleteStatus, TakenFrom;
  }

  lemma ReceiveTraced(cfg: Config, digest: Digest, c: ClientState, s: ClientStep, f: Uuid)
    requires s.Receive? && PacketExpects(c, s.packet, digest, s.choice)
    requires Dispatch(cfg, c, s.packet, digest, s.savePath, s.rid, s.choice).Ok?
    ensures Traced(cfg, c, s, Dispatch(cfg, c, s.packet, digest, s.savePath, s.rid, s.choice).value, f)
  {
    hide OnOffer, OnComplete, OnAccept, OnDropped, OnAck, OnServerError, Traced, SaveExpects, SpawnExpects, DoneExpects;
    if s.packet.Event? && s.packet.event.eventType == FileOffer {
      OfferTraced(cfg, c, s, f);
    } else if s.packet.Event? && s.packet.event.eventType == FileComplete {
      CompletionTraced(cfg, digest, c, s, f);
    } else {
      OthersTraced(cfg, digest, c, s, f);
    }
  }

  /** Sending touches outgoing entries only. */
  lemma SentTraced(c: ClientState, g: Uuid)
    requires ProgressExpects(c, g) && g in c.tasks && c.tasks[g].phase.AtSend?
    requires c.tasks[g].phase.index * c.tasks[g].chunkSize < |c.tasks[g].bytes|
    ensures var d := TaskSend(c, g);
            forall f :: f in d.store && IsIncoming(d.store[f]) ==> f in c.store && d.store[f] == c.store[f]
  {
  }

  lemma SameOfferAlways(t: Transfer)
    ensures SameOffer(t, t) && SameOffer(t, Incoming(t))
  {
  }

  lemma StepTraced(cfg: Config, digest: Digest, c: ClientState, s: ClientStep, f: Uuid)
    requires Enabled(c, s) && Next(cfg, digest, c, s).Ok?
    ensures Traced(cfg, c, s, Next(cfg, digest, c, s).value, f)
  {
    hide OnFrame, Dispatch, PacketExpects, TakenFrom, TaskSend, SameOffer, EmptyFileLines;
    if s.ReceiveFrame? {
      FrameTraced(cfg, c, s.frame, s.rid, f);
    } else if s.Receive? {
      ReceiveTraced(cfg, digest, c, s, f);
    } else {
      if s.SendFrame? { SentTraced(c, s.fileId); }
      if f in c.store { SameOfferAlways(c.store[f]); }
    }
  }

  /** A step writes at most one file, and only a completion does: the whole buffer of a receiving entry. */
  predicate WritesWhole(digest: Digest, c: ClientState, s: ClientStep, d: ClientState) {
    d.disk == c.disk
    || (&& s.Receive? && s.packet.Event? && s.packet.event.eventType == FileComplete
        && s.packet.event.meta.fileId.Some?
        && var f := s.packet.event.meta.fileId.value;
           && InState(c, f, Receiving) && Whole(c.store[f], digest) && c.store[f].savePath.Some?
           && d.disk == c.disk + [SavedFile(f, c.store[f].savePath.value, c.store[f].incomingBytes)])
  }

  lemma DispatchWrites(cfg: Config, digest: Digest, c: ClientState, s: ClientStep)
    requires s.Receive? && PacketExpects(c, s.packet, digest, s.choice)
    requires Dispatch(cfg, c, s.packet, digest, s.savePath, s.rid, s.choice).Ok?
    ensures WritesWhole(digest, c, s, Dispatch(cfg, c, s.packet, digest, s.savePath, s.rid, s.choice).value)
  {
  }

  lemma StepWrites(cfg: Config, digest: Digest, c: ClientState, s: ClientStep)
    requires Enabled(c, s) && Next(cfg, digest, c, s).Ok?
    ensures WritesWhole(digest, c, s, Next(cfg, digest, c, s).value)
  {
    hide OnFrame, Dispatch, PacketExpects;
    if s.ReceiveFrame? {
      FrameTraced(cfg, c, s.frame, s.rid, 0);
    } else if s.Receive? {
      DispatchWrites(cfg, digest, c, s);
    }
  }

  lemma OfferedStays(cfg: Config, before: seq<ClientStep>, s: ClientStep, f: Uuid, t: Transfer, u: Transfer)
    requires Offered(cfg, before, f, t) && SameOffer(t, u) && !IsOffer(s, f)
    ensures Offered(cfg, before + [s], f, u)
  {
    var i: nat :| LatestOffer(before, i, f) && TakenFrom(cfg, t, before[i].packet.event, before[i].savePath);
    var steps := before + [s];
    assert steps[i] == before[i];
    assert LatestOffer(steps, i, f) && TakenFrom(cfg, u, steps[i].packet.event, steps[i].savePath);
  }

  lemma WrittenStays(digest: Digest, before: seq<ClientStep>, s: ClientStep, saved: SavedFile)
    requires Written(digest, before, saved)
    ensures Written(digest, before + [s], saved)
  {
    var i: nat, j: nat :| WrittenBy(digest, before, i, j, saved);
    var steps := before + [s];
    assert steps[..j] == before[..j];
    assert WrittenBy(digest, steps, i, j, saved);
  }

  /** The file this completion writes. */
  lemma WrittenNow(cfg: Config, digest: Digest, before: seq<ClientStep>, s: ClientStep, c: ClientState, f: Uuid)
    requires Kept(cfg, digest, before, c) && IsCompletion(s, f)
    requires InState(c, f, Receiving) && Whole(c.store[f], digest) && c.store[f].savePath.Some?
    ensures Written(digest, before + [s], SavedFile(f, c.store[f].savePath.value, c.store[f].incomingBytes))
  {
    var t := c.store[f];
    assert Offered(cfg, before, f, t);
    var i: nat :| LatestOffer(before, i, f) && TakenFrom(cfg, t, before[i].packet.event, before[i].savePath);
    var steps := before + [s];
    assert steps[..|before|] == before && steps[i] == before[i];
    assert WrittenBy(digest, steps, i, |before|, SavedFile(f, t.savePath.value, t.incomingBytes));
  }

  lemma StepKept(cfg: Config, digest: Digest, before: seq<ClientStep>, s: ClientStep, c: ClientState)
    requires Kept(cfg, digest, before, c) && Enabled(c, s) && Next(cfg, digest, c, s).Ok?
    ensures Kept(cfg, digest, before + [s], Next(cfg, digest, c, s).value)
  {
    hide Next, Offered, Written, Whole, TakenFrom;
    var d := Next(cfg, digest, c, s).value;
    forall f | f in d.store && IsIncoming(d.store[f])
      ensures Offered(cfg, before + [s], f, d.store[f])
    {
      StepTraced(cfg, digest, c, s, f);
      if IsOffer(s, f) {
        OfferedNow(cfg, before, s, f, d.store[f]);
      } else {
        OfferedStays(cfg, before, s, f, c.store[f], d.store[f]);
      }
    }
    StepWrites(cfg, digest, c, s);
    forall saved | saved in d.disk
      ensures Written(digest, before + [s], saved)
    {
      if saved in c.disk {
        WrittenStays(digest, before, s, saved);
      } else {
        WrittenNow(cfg, digest, before, s, c, s.packet.event.meta.fileId.value);
      }
    }
  }

  lemma OfferedNow(cfg: Config, before: seq<ClientStep>, s: ClientStep, f: Uuid, t: Transfer)
    requires IsOffer(s, f) && TakenFrom(cfg, t, s.packet.event, s.savePath)
    ensures Offered(cfg, before + [s], f, t)
  {
    assert LatestOffer(before + [s], |before|, f);
  }

  lemma {:induction false} RunsKept(cfg: Config, digest: Digest, steps: seq<ClientStep>)
    requires Run(cfg, digest, steps).Running?
    ensures Kept(cfg, digest, steps, Run(cfg, digest, steps).client)
  {
    hide Next, Kept;
    if steps == [] {
      NothingKept(cfg, digest);
    } else {
      var n := |steps| - 1;
      RunsKept(cfg, digest, steps[..n]);
      StepKept(cfg, digest, steps[..n], steps[n], Run(cfg, digest, steps[..n]).client);
      assert steps[..n] + [steps[n]] == steps;
    }
  }

  lemma NothingKept(cfg: Config, digest: Digest)
    ensures Kept(cfg, digest, [], FRESH_CLIENT)
  {
  }

  /** In every run of a client, whatever packets and frames arrive and whoever sends them: each file on disk was written
      by a completion of it, under the path, with the size and with the digest that its latest offer before that
      completion named. */
  lemma WrittenAsAnnounced(cfg: Config, digest: Digest, steps: seq<ClientStep>, saved: SavedFile)
    requires Run(cfg, digest, steps).Running? && saved in Run(cfg, digest, steps).client.disk
    ensures exists i: nat, j: nat :: WrittenBy(digest, steps, i, j, saved)
  {
    RunsKept(cfg, digest, steps);
    assert Written(digest, steps, saved);
  }

  // ---------- replies ----------

  /** The packet answers an offer: it accepts or rejects it, or acknowledges its completion. */
  predicate IsReply(m: WireMessage) {
    m.TextFrame? && (m.packet.Ack? || (m.packet.Event? && m.packet.event.eventType in {FileAccept, FileReject}))
  }

  function ReplyTarget(m: WireMessage): Option<Endpoint>
    requires IsReply(m)
  {
    if m.packet.Ack? then m.packet.ack.target else m.packet.event.target
  }

  /** The reply is about file f and goes to the peer of its entry: the one just offered, or the one that was there. */
  predicate RepliesFor(c: ClientState, s: ClientStep, d: ClientState, m: WireMessage, f: Uuid)
    requires IsReply(m)
  {
    && (m.packet.Ack? ==> IsCompletion(s, f) && m.packet.ack.requestId == s.packet.event.requestId)
    && (m.packet.Event? ==> m.packet.event.meta.fileId == Some(f))
    && (if IsOffer(s, f)
        then f in d.store && IsIncoming(d.store[f]) && ReplyTarget(m) == Some(Peer(d.store[f]))
        else f in c.store && IsIncoming(c.store[f]) && ReplyTarget(m) == Some(Peer(c.store[f])))
  }

  ghost predicate Replies(c: ClientState, s: ClientStep, d: ClientState) {
    && c.outbox <= d.outbox
    && forall m :: m in d.outbox[|c.outbox|..] && IsReply(m) ==> exists f :: RepliesFor(c, s, d, m, f)
  }

  lemma OfferReplies(cfg: Config, c: ClientState, s: ClientStep, d: ClientState)
    requires s.Receive? && s.packet.Event? && s.packet.event.eventType == FileOffer
    requires OnOffer(cfg, c, s.packet.event, s.savePath, s.rid) == Ok(d)
    ensures Replies(c, s, d)
  {
    hide OfferedTransfer;
    var f := s.packet.event.meta.fileId.value;
    assert forall m :: m in d.outbox[|c.outbox|..] && IsReply(m) ==> RepliesFor(c, s, d, m, f);
  }

  lemma CompletionReplies(cfg: Config, digest: Digest, c: ClientState, s: ClientStep, d: ClientState)
    requires s.Receive? && s.packet.Event? && s.packet.event.eventType == FileComplete
    requires SaveExpects(c, s.packet.event, digest) && OnComplete(cfg, c, s.packet.event, digest) == Ok(d)
    ensures Replies(c, s, d)
  {
    hide CompleteStatus;
    var f := s.packet.event.meta.fileId.value;
    assert forall m :: m in d.outbox[|c.outbox|..] && IsReply(m) ==> RepliesFor(c, s, d, m, f);
  }

  lemma DispatchReplies(cfg: Config, digest: Digest, c: ClientState, s: ClientStep)
    requires s.Receive? && PacketExpects(c, s.packet, digest, s.choice)
    requires Dispatch(cfg, c, s.packet, digest, s.savePath, s.rid, s.choice).Ok?
    ensures Replies(c, s, Dispatch(cfg, c, s.packet, digest, s.savePath, s.rid, s.choice).value)
  {
    hide OnOffer, OnComplete, SaveExpects, RepliesFor;
    var d := Dispatch(cfg, c, s.packet, digest, s.savePath, s.rid, s.choice).value;
    if s.packet.Event? && s.packet.event.eventType == FileOffer {
      OfferReplies(cfg, c, s, d);
    } else if s.packet.Event? && s.packet.event.eventType == FileComplete {
      CompletionReplies(cfg, digest, c, s, d);
    }
  }

  lemma UserReplies(cfg: Config, digest: Digest, c: ClientState, s: ClientStep)
    requires Enabled(c, s) && Next(cfg, digest, c, s).Ok? && (s.UserAccept? || s.UserReject?)
    ensures Replies(c, s, Next(cfg, digest, c, s).value)
  {
    var d := Next(cfg, digest, c, s).value;
    assert forall m :: m in d.outbox[|c.outbox|..] && IsReply(m) ==> RepliesFor(c, s, d, m, s.fileId);
  }

  /** Sending, checking and aborting reply to nobody. */
  lemma OtherReplies(cfg: Config, digest: Digest, c: ClientState, s: ClientStep)
    requires Enabled(c, s) && Next(cfg, digest, c, s).Ok? && !s.Receive? && !s.UserAccept? && !s.UserReject?
    ensures Replies(c, s, Next(cfg, digest, c, s).value)
  {
    hide ApplyChunk, Decode, RepliesFor, OutgoingProgress, TaskFrame, NewOutgoing;
  }

  lemma StepReplies(cfg: Config, digest: Digest, c: ClientState, s: ClientStep)
    requires Enabled(c, s) && Next(cfg, digest, c, s).Ok?
    ensures Replies(c, s, Next(cfg, digest, c, s).value)
  {
    hide Dispatch, PacketExpects, Replies;
    if s.Receive? {
      DispatchReplies(cfg, digest, c, s);
    } else if s.UserAccept? || s.UserReject? {
      UserReplies(cfg, digest, c, s);
    } else {
      OtherReplies(cfg, digest, c, s);
    }
  }

  /** The peer an entry takes from an offer: its source. */
  function SourceOf(cfg: Config, p: EventPacket): Endpoint {
    Endpoint(Some(match p.source case Some(Endpoint(Some(g), _)) => g case _ => cfg.group),
             Some(match p.source case Some(Endpoint(_, Some(name))) => name case _ => "unknown"))
  }

  /** The step queued this message. */
  predicate Queues(c: ClientState, d: ClientState, m: WireMessage) {
    |c.outbox| <= |d.outbox| && m in d.outbox[|c.outbox|..]
  }

  /** The reply goes to the source of the latest offer of the file it is about. */
  ghost predicate GoesBack(cfg: Config, steps: seq<ClientStep>, m: WireMessage, i: nat, f: Uuid)
    requires steps != [] && IsReply(m)
  {
    var s := steps[|steps| - 1];
    && LatestOffer(steps, i, f) && ReplyTarget(m) == Some(SourceOf(cfg, steps[i].packet.event))
    && (m.packet.Ack? ==> IsCompletion(s, f) && m.packet.ack.requestId == s.packet.event.requestId)
    && (m.packet.Event? ==> m.packet.event.meta.fileId == Some(f))
  }

  /** In every run: each accept, reject and acknowledgement that a step queues goes back to where the latest offer of
      its file came from. */
  lemma RepliesGoBack(cfg: Config, digest: Digest, before: seq<ClientStep>, s: ClientStep, m: WireMessage)
    requires Run(cfg, digest, before).Running? && Run(cfg, digest, before + [s]).Running?
    requires Queues(Run(cfg, digest, before).client, Run(cfg, digest, before + [s]).client, m) && IsReply(m)
    ensures exists i: nat, f: Uuid :: GoesBack(cfg, before + [s], m, i, f)
  {
    hide Next, RepliesFor;
    assert (before + [s])[..|before|] == before;
    var c := Run(cfg, digest, before).client;
    StepReplies(cfg, digest, c, s);
    var f :| RepliesFor(c, s, Run(cfg, digest, before + [s]).client, m, f);
    ReplyOffered(cfg, digest, before, s, m, f);
  }

  lemma ReplyOffered(cfg: Config, digest: Digest, before: seq<ClientStep>, s: ClientStep, m: WireMessage, f: Uuid)
    requires Run(cfg, digest, before).Running? && Run(cfg, digest, before + [s]).Running? && IsReply(m)
    requires RepliesFor(Run(cfg, digest, before).client, s, Run(cfg, digest, before + [s]).client, m, f)
    ensures exists i: nat :: GoesBack(cfg, before + [s], m, i, f)
  {
    hide Next, Run, Written;
    var steps := before + [s];
    var c, d := Run(cfg, digest, before).client, Run(cfg, digest, steps).client;
    RunsKept(cfg, digest, before);
    RunsKept(cfg, digest, steps);
    var t := if IsOffer(s, f) then d.store[f] else c.store[f];
    if !IsOffer(s, f) {
      OfferedStays(cfg, before, s, f, t, t);
    }
    assert Offered(cfg, steps, f, t);
    var i: nat :| LatestOffer(steps, i, f) && TakenFrom(cfg, t, steps[i].packet.event, steps[i].savePath);
    assert Peer(t) == SourceOf(cfg, steps[i].packet.event);
    assert GoesBack(cfg, steps, m, i, f);
  }

  // ---------- the life of an entry ----------

  predicate IsEventOf(s: ClientStep, kinds: set<EventType>, f: Uuid) {
    s.Receive? && s.packet.Event? && s.packet.event.eventType in kinds && s.packet.event.meta.fileId == Some(f)
  }

  predicate Enters(s: ClientStep, f: Uuid) {
    (s.Start? && s.fileId == f) || IsOffer(s, f)
  }

  /** The frame is not the next one of the entry's announced chunks, or holds too much. */
  predicate BadChunk(t: Transfer, f: Uuid, frame: seq<byte>) {
    Decode(frame).Some? && Decode(frame).value.0.fileId == f
    && var (h, payload) := Decode(frame).value;
       !(h.totalChunks == t.totalChunks && h.chunkIndex == t.nextChunkIndex < t.totalChunks
         && |t.incomingBytes| + |payload| <= t.bytesTotal)
  }

  /** What ends an entry. */
  predicate Ends(t: Transfer, s: ClientStep, f: Uuid) {
    match t.state
    case PendingOffer => (s.UserReject? && s.fileId == f) || EndsAny(s, f)
    case Receiving => IsCompletion(s, f) || (s.ReceiveFrame? && BadChunk(t, f, s.frame)) || EndsAny(s, f)
    case WaitingAccept | Sending => IsErrorOf(s, f) || EndsAny(s, f)
    case WaitingAck =>
      || (s.Receive? && s.packet.Ack? && s.packet.ack.refType == Some(FileComplete) && s.choice == f
          && t.completionRequestId == Some(s.packet.ack.requestId))
      || IsErrorOf(s, f) || EndsAny(s, f)
  }

  predicate EndsAny(s: ClientStep, f: Uuid) {
    s.Reconnect? || (s.UserAbort? && s.fileId == f) || IsEventOf(s, {FileReject, FileAbort}, f)
  }

  predicate IsErrorOf(s: ClientStep, f: Uuid) {
    s.Receive? && s.packet.Error? && s.packet.error.fileId == Some(f)
  }

  function StateAfter(state: State, s: ClientStep, f: Uuid): State {
    if state == PendingOffer && s.UserAccept? && s.fileId == f then Receiving
    else if state == WaitingAccept && IsEventOf(s, {FileAccept}, f) then Sending
    else if state == Sending && s.Mark? && s.fileId == f then WaitingAck
    else state
  }

  /** What an entry is about never changes, and what it relies on for sending. */
  predicate SameTransfer(t: Transfer, u: Transfer) {
    SameOffer(t, u) && u.sourcePath == t.sourcePath && u.chunkSize == t.chunkSize && u.outgoingBytes == t.outgoingBytes
  }

  predicate Follows(c: ClientState, s: ClientStep, d: ClientState, f: Uuid) {
    if Enters(s, f) then f in d.store
    else if f !in c.store then f !in d.store
    else
      && (f !in d.store <==> Ends(c.store[f], s, f))
      && (f in d.store ==>
            SameTransfer(c.store[f], d.store[f]) && d.store[f].state == StateAfter(c.store[f].state, s, f))
  }

  lemma FrameFollows(cfg: Config, c: ClientState, s: ClientStep, f: Uuid)
    requires Sound(c) && s.ReceiveFrame? && OnFrame(cfg, c, s.frame, s.rid).Ok?
    ensures Follows(c, s, OnFrame(cfg, c, s.frame, s.rid).value, f)
  {
    hide Decode, ApplyChunk;
    if Decode(s.frame).Some? {
      var (h, payload) := Decode(s.frame).value;
      if InState(c, h.fileId, Receiving) {
        assert c.store[h.fileId].Ok();
        ApplyChunkVerdict(c.store[h.fileId], h, payload);
        ChunkSame(c.store[h.fileId], h, payload);
      }
    }
  }

  lemma ChunkSame(t: Transfer, h: ChunkHeader, payload: seq<byte>)
    ensures SameTransfer(t, ApplyChunk(t, h, payload).0) && ApplyChunk(t, h, payload).0.state == t.state
  {
  }

  lemma OfferFollows(cfg: Config, c: ClientState, s: ClientStep, f: Uuid)
    requires s.Receive? && s.packet.Event? && s.packet.event.eventType == FileOffer
    requires OnOffer(cfg, c, s.packet.event, s.savePath, s.rid).Ok?
    ensures Follows(c, s, OnOffer(cfg, c, s.packet.event, s.savePath, s.rid).value, f)
  {
    hide OfferedTransfer;
  }

  lemma CompletionFollows(cfg: Config, digest: Digest, c: ClientState, s: ClientStep, f: Uuid)
    requires s.Receive? && s.packet.Event? && s.packet.event.eventType == FileComplete
    requires SaveExpects(c, s.packet.event, digest) && OnComplete(cfg, c, s.packet.event, digest).Ok?
    ensures Follows(c, s, OnComplete(cfg, c, s.packet.event, digest).value, f)
  {
    hide CompleteStatus;
  }

  lemma AcceptFollows(c: ClientState, s: ClientStep, f: Uuid)
    requires s.Receive? && s.packet.Event? && s.packet.event.eventType == FileAccept
    requires SpawnExpects(c, s.packet.event) && OnAccept(c, s.packet.event).Ok?
    ensures Follows(c, s, OnAccept(c, s.packet.event).value, f)
  {
  }

  lemma AckFollows(c: ClientState, s: ClientStep, f: Uuid)
    requires s.Receive? && s.packet.Ack? && Enabled(c, s) && DoneExpects(c, s.packet.ack, s.choice)
    ensures Follows(c, s, OnAck(c, s.packet.ack, s.choice), f)
  {
  }

  predicate IsFileEvent(t: EventType) {
    t in {FileOffer, FileAccept, FileReject, FileAbort, FileComplete}
  }

  /** Everything that is neither an ack nor a file event: at most an error takes an entry away. */
  lemma PlainFollows(c: ClientState, s: ClientStep, f: Uuid)
    requires s.Receive? && !s.packet.Ack? && (s.packet.Event? ==> !IsFileEvent(s.packet.event.eventType))
    ensures Follows(c, s, if s.packet.Error? then OnServerError(c, s.packet.error) else c, f)
  {
  }

  lemma DropFollows(c: ClientState, s: ClientStep, f: Uuid)
    requires s.Receive? && s.packet.Event? && s.packet.event.eventType in {FileReject, FileAbort}
    requires OnDropped(c, s.packet.event).Ok?
    ensures Follows(c, s, OnDropped(c, s.packet.event).value, f)
  {
  }

  lemma DispatchFollows(cfg: Config, digest: Digest, c: ClientState, s: ClientStep, f: Uuid)
    requires s.Receive? && Enabled(c, s) && PacketExpects(c, s.packet, digest, s.choice)
    requires Dispatch(cfg, c, s.packet, digest, s.savePath, s.rid, s.choice).Ok?
    ensures Follows(c, s, Dispatch(cfg, c, s.packet, digest, s.savePath, s.rid, s.choice).value, f)
  {
    hide OnOffer, OnComplete, OnAccept, OnAck, SaveExpects, SpawnExpects, DoneExpects, Follows;
    if s.packet.Ack? {
      AckFollows(c, s, f);
    } else if !s.packet.Event? || !IsFileEvent(s.packet.event.eventType) {
      PlainFollows(c, s, f);
    } else if s.packet.event.eventType == FileReject || s.packet.event.eventType == FileAbort {
      DropFollows(c, s, f);
    } else if s.packet.Event? && s.packet.event.eventType == FileOffer {
      OfferFollows(cfg, c, s, f);
    } else if s.packet.Event? && s.packet.event.eventType == FileComplete {
      CompletionFollows(cfg, digest, c, s, f);
    } else if s.packet.Event? && s.packet.event.eventType == FileAccept {
      AcceptFollows(c, s, f);
    }
  }

  lemma TaskFollows(cfg: Config, digest: Digest, c: ClientState, s: ClientStep, f: Uuid)
    requires Enabled(c, s) && Next(cfg, digest, c, s).Ok? && (s.Check? || s.SendFrame? || s.Complete? || s.Mark?)
    ensures Follows(c, s, Next(cfg, digest, c, s).value, f)
  {
    hide TaskFrame, EmptyFileLines;
  }

  lemma UserFollows(cfg: Config, digest: Digest, c: ClientState, s: ClientStep, f: Uuid)
    requires Enabled(c, s) && Next(cfg, digest, c, s).Ok?
    requires s.UserAccept? || s.UserReject? || s.UserAbort?
    ensures Follows(c, s, Next(cfg, digest, c, s).value, f)
  {
    hide AcceptMeta, Decode;
  }

  lemma TableFollows(cfg: Config, digest: Digest, c: ClientState, s: ClientStep, f: Uuid)
    requires Enabled(c, s) && Next(cfg, digest, c, s).Ok? && (s.Start? || s.Reconnect?)
    ensures Follows(c, s, Next(cfg, digest, c, s).value, f)
  {
    hide NewOutgoing, OfferMeta, Lines, DrainLog, Enumerates, Decode;
  }

  /** The life of every entry of a sound client, in every step: only an offer made or received enters one; it moves from
      pending to receiving with the user's accept, from waiting to sending with the peer's, and from sending to waiting
      for the ack when its completion is recorded; it ends for the reasons listed and no other; and what it is about
      stays. */
  lemma EntryLifecycle(cfg: Config, digest: Digest, c: ClientState, s: ClientStep, f: Uuid)
    requires Sound(c) && Enabled(c, s) && Next(cfg, digest, c, s).Ok?
    ensures Follows(c, s, Next(cfg, digest, c, s).value, f)
  {
    hide OnFrame, Dispatch, PacketExpects, Follows;
    if s.ReceiveFrame? {
      FrameFollows(cfg, c, s, f);
    } else if s.Receive? {
      DispatchFollows(cfg, digest, c, s, f);
    } else if s.Check? || s.SendFrame? || s.Complete? || s.Mark? {
      TaskFollows(cfg, digest, c, s, f);
    } else if s.Start? || s.Reconnect? {
      TableFollows(cfg, digest, c, s, f);
    } else {
      UserFollows(cfg, digest, c, s, f);
    }
  }

  // ---------- errors and confirmations ----------

  /** A step of a sound client fails exactly for a frame that does not decode and for a file event without a file id. */
  lemma ErrorsExactly(cfg: Config, digest: Digest, c: ClientState, s: ClientStep)
    requires Sound(c) && Enabled(c, s)
    ensures var r := Next(cfg, digest, c, s);
            if s.ReceiveFrame? && Decode(s.frame).None? then r == Err(InvalidBinaryChunk)
            else if s.Receive? && s.packet.Event? && IsFileEvent(s.packet.event.eventType)
                    && s.packet.event.meta.fileId.None?
                then r == Err(MissingFileId)
            else r.Ok?
  {
    hide Decode, ApplyChunk, StoreOk, TransitionTo, CompleteStatus, OutgoingProgress, TaskFrame;
    SoundExpects(c, s, digest);
  }

  /** An ack of a completion ends one entry that waits for it, if any does, and prints its path and name exactly when it
      accepts; any other ack does nothing. */
  lemma AckHeard(c: ClientState, a: AckPacket, choice: Uuid)
    requires Sound(c) && AckChoice(c.store, a.requestId, choice)
    ensures DoneExpects(c, a, choice)
    ensures var d := OnAck(c, a, choice);
            if a.refType == Some(FileComplete)
               && exists f :: f in c.store && c.store[f].state == WaitingAck
                              && c.store[f].completionRequestId == Some(a.requestId)
            then
              && choice in c.store && c.store[choice].completionRequestId == Some(a.requestId)
              && c.store[choice].sourcePath.Some?
              && d.store == c.store - {choice} && d.tasks == c.tasks && d.outbox == c.outbox && d.disk == c.disk
              && d.console == c.console + (if a.status == Accepted
                                           then [SendDone(c.store[choice].sourcePath.value, c.store[choice].fileName)]
                                           else [])
            else d == c
  {
    if choice in c.store { assert c.store[choice].Ok(); }
    if f :| f in c.store && c.store[f].state == WaitingAck && c.store[f].completionRequestId == Some(a.requestId) {
      assert WaitsForAck(c.store, f, a.requestId);
    }
  }
}
