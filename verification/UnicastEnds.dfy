/** The two ends of a unicast file: what each client step is in the file's own protocol. */
module UnicastEnds {
  import opened Basics
  import opened Packets
  import opened ChunkCodec
  import opened Chunking
  import opened FileStore
  import opened Client
  import opened FileMessages
  import opened UnicastProtocol

  /** The message is well formed and addressed to this name. */
  predicate GoesTo(m: WireMessage, to: Endpoint) {
    match m
    case TextFrame(Event(e)) => e.version == PROTOCOL_VERSION && e.kind == EventKind && e.target == Some(to)
    case TextFrame(Ack(a)) => a.version == PROTOCOL_VERSION && a.kind == AckKind && a.target == Some(to)
    case _ => false
  }

  predicate AllGoTo(done: Done, f: Uuid, ms: seq<WireMessage>, to: Endpoint) {
    forall m :: m in ms && WireMsg(done, f, m) != [] ==> GoesTo(m, to)
  }

  /** A unicast target as the console makes it: the names "" and "*" stand for the whole group. */
  predicate Proper(to: Endpoint) {
    to.group.Some? && to.client.Some? && to.client.value != "" && to.client.value != "*"
  }

  function SenderOf(c: ClientState, f: Uuid): Sender {
    if f !in c.store then NoEntry
    else
      match c.store[f].state
      case WaitingAccept => Waiting
      case Sending => Sender.Sending
      case WaitingAck => AwaitingAck
      case PendingOffer | Receiving => NoEntry
  }

  function TaskOf(c: ClientState, f: Uuid): Task {
    if f !in c.tasks then Idle else if c.tasks[f].phase.AtMark? then Gap else Working
  }

  function ReceiverOf(c: ClientState, f: Uuid): Receiver {
    if f !in c.store then Empty
    else
      match c.store[f].state
      case PendingOffer => Asked
      case Receiving => Taking
      case _ => Empty
  }

  predicate SenderTidy(done: Done, f: Uuid, to: Endpoint, c: ClientState) {
    && (f in c.store ==> c.store[f].IsOutgoing() && Peer(c.store[f]) == to)
    && (f in c.tasks ==> Endpoint(Some(c.tasks[f].group), Some(c.tasks[f].client)) == to)
    && AllGoTo(done, f, c.outbox, to)
  }

  predicate ReceiverTidy(done: Done, f: Uuid, from: Endpoint, c: ClientState) {
    && (f in c.store ==> !c.store[f].IsOutgoing() && Peer(c.store[f]) == from)
    && f !in c.tasks
    && AllGoTo(done, f, c.outbox, from)
  }

  predicate SeesSender(done: Done, f: Uuid, c: ClientState, v: FileView) {
    v.sender == SenderOf(c, f) && v.task == TaskOf(c, f) && v.upS == OfWire(done, f, c.outbox)
  }

  predicate SeesReceiver(done: Done, f: Uuid, c: ClientState, v: FileView) {
    v.receiver == ReceiverOf(c, f) && v.upR == OfWire(done, f, c.outbox)
  }

  // ---------- sending one more message ----------

  lemma SentOne(done: Done, f: Uuid, ms: seq<WireMessage>, m: WireMessage, to: Endpoint)
    requires AllGoTo(done, f, ms, to) && (WireMsg(done, f, m) != [] ==> GoesTo(m, to))
    ensures AllGoTo(done, f, ms + [m], to) && OfWire(done, f, ms + [m]) == OfWire(done, f, ms) + WireMsg(done, f, m)
  {
    Append(done, f, ms, m);
  }

  /** One more message about the file in an outbox. */
  lemma Adds(done: Done, f: Uuid, to: Endpoint, c: ClientState, d: ClientState, m: WireMessage, msg: Msg)
    requires AllGoTo(done, f, c.outbox, to) && d.outbox == c.outbox + [m] && WireMsg(done, f, m) == [msg]
    requires GoesTo(m, to)
    ensures AllGoTo(done, f, d.outbox, to) && OfWire(done, f, d.outbox) == OfWire(done, f, c.outbox) + [msg]
  {
    SentOne(done, f, c.outbox, m, to);
  }

  lemma InEither(ms: seq<WireMessage>, ns: seq<WireMessage>, m: WireMessage)
    requires ms <= ns && m in ns
    ensures m in ms || m in ns[|ms|..]
  {
    assert ns == ms + ns[|ms|..];
  }

  // ---------- the sender ----------

  lemma SenderAbortsActs(done: Done, f: Uuid, to: Endpoint, cfg: Config, c: ClientState, rid: RequestId, v: FileView)
    requires SenderTidy(done, f, to, c) && SeesSender(done, f, c, v) && f in c.store
    ensures var d := Abort(cfg, c, f, rid);
            Possible(v, SenderAborts) && SenderTidy(done, f, to, d) && SeesSender(done, f, d, Do(v, SenderAborts))
  {
    var d := Abort(cfg, c, f, rid);
    Adds(done, f, to, c, d, d.outbox[|c.outbox|], MAbort);
  }

  /** What the sender does on a message about the file. */
  lemma SenderHearsActs(done: Done, f: Uuid, to: Endpoint, cfg: Config, digest: seq<byte> -> string, c: ClientState,
                        p: Packet,
                        savePath: string, rid: RequestId, choice: Uuid, v: FileView)
    requires StoreOk(c.store) && AcksKnown(done, c) && (p.Ack? ==> AckChoice(c.store, p.ack.requestId, choice))
    requires SenderTidy(done, f, to, c) && SeesSender(done, f, c, v)
    requires v.downS != [] && MsgOf(done, f, p) == [v.downS[0]] && v.downS[0] != MOffer && v.downS[0] != MComplete
    ensures var r := Dispatch(cfg, c, p, digest, savePath, rid, choice);
            r.Ok? && SenderTidy(done, f, to, r.value) && SeesSender(done, f, r.value, SenderHeard(v))
  {
    match p
    case Event(e) =>
      if e.eventType == FileAccept {
        SenderHearsAccept(done, f, to, c, e, v);
      } else {
        SenderHearsDropped(done, f, to, c, e, v);
      }
    case Ack(a) => SenderHearsAck(done, f, to, c, a, choice, v);
    case Error(e) =>
  }

  /** The accept starts a task for the entry's own peer when it finds it waiting, and does nothing else. */
  lemma AcceptedShape(f: Uuid, c: ClientState, p: EventPacket)
    requires SpawnExpects(c, p) && p.meta.fileId == Some(f) && (f in c.store ==> c.store[f].IsOutgoing())
    ensures OnAccept(c, p).Ok?
    ensures !InState(c, f, WaitingAccept) ==> OnAccept(c, p).value == c
    ensures InState(c, f, WaitingAccept) ==>
              var d := OnAccept(c, p).value;
              && d.outbox == c.outbox && f in d.store && d.store[f].state == State.Sending
              && Peer(d.store[f]) == Peer(c.store[f])
              && f in d.tasks && d.tasks[f].phase == AtCheck(0)
              && Endpoint(Some(d.tasks[f].group), Some(d.tasks[f].client)) == Peer(c.store[f])
  {
  }

  lemma SenderStarts(done: Done, f: Uuid, to: Endpoint, c: ClientState, d: ClientState, v: FileView)
    requires SenderTidy(done, f, to, c) && SeesSender(done, f, c, v) && InState(c, f, WaitingAccept)
    requires v.downS != [] && v.downS[0] == MAccept
    requires d.outbox == c.outbox && f in d.store && d.store[f].state == State.Sending
    requires Peer(d.store[f]) == Peer(c.store[f])
    requires f in d.tasks && d.tasks[f].phase == AtCheck(0)
    requires Endpoint(Some(d.tasks[f].group), Some(d.tasks[f].client)) == Peer(c.store[f])
    ensures SenderTidy(done, f, to, d) && SeesSender(done, f, d, SenderHeard(v))
  {
    hide OfWire, AllGoTo;
  }

  lemma SenderIgnores(done: Done, f: Uuid, to: Endpoint, c: ClientState, v: FileView)
    requires SenderTidy(done, f, to, c) && SeesSender(done, f, c, v) && !InState(c, f, WaitingAccept)
    requires v.downS != [] && v.downS[0] == MAccept
    ensures SeesSender(done, f, c, SenderHeard(v))
  {
    hide OfWire, AllGoTo;
  }

  lemma SenderHearsAccept(done: Done, f: Uuid, to: Endpoint, c: ClientState, p: EventPacket, v: FileView)
    requires StoreOk(c.store) && SenderTidy(done, f, to, c) && SeesSender(done, f, c, v)
    requires p.meta.fileId == Some(f) && v.downS != [] && v.downS[0] == MAccept
    ensures var d := OnAccept(c, p);
            d.Ok? && SenderTidy(done, f, to, d.value)
            && SeesSender(done, f, d.value, SenderHeard(v))
  {
    hide OnAccept, OfWire, AllGoTo, SeesSender, SenderHeard;
    AcceptedShape(f, c, p);
    if InState(c, f, WaitingAccept) {
      SenderStarts(done, f, to, c, OnAccept(c, p).value, v);
    } else {
      SenderIgnores(done, f, to, c, v);
    }
  }

  lemma SenderHearsDropped(done: Done, f: Uuid, to: Endpoint, c: ClientState, p: EventPacket, v: FileView)
    requires SenderTidy(done, f, to, c) && SeesSender(done, f, c, v)
    requires p.meta.fileId == Some(f) && v.downS != [] && (v.downS[0] == MReject || v.downS[0] == MAbort)
    ensures var d := OnDropped(c, p);
            d.Ok? && SenderTidy(done, f, to, d.value)
            && SeesSender(done, f, d.value, SenderHeard(v))
  {
  }

  lemma SenderHearsAck(done: Done, f: Uuid, to: Endpoint, c: ClientState, a: AckPacket, choice: Uuid, v: FileView)
    requires AcksKnown(done, c) && AckChoice(c.store, a.requestId, choice) && DoneExpects(c, a, choice)
    requires SenderTidy(done, f, to, c) && SeesSender(done, f, c, v)
    requires MsgOf(done, f, Ack(a)) == [MAck] && v.downS != [] && v.downS[0] == MAck
    ensures SenderTidy(done, f, to, OnAck(c, a, choice)) && SeesSender(done, f, OnAck(c, a, choice), SenderHeard(v))
  {
    if InState(c, f, WaitingAck) {
      assert WaitsForAck(c.store, f, a.requestId);
    } else if WaitsForAck(c.store, choice, a.requestId) {
      assert InState(c, choice, WaitingAck);
    }
  }

  lemma TaskChecks(done: Done, f: Uuid, to: Endpoint, c: ClientState, v: FileView)
    requires f in c.tasks && c.tasks[f].phase.AtCheck? && c.tasks[f].chunkSize > 0
    requires SenderTidy(done, f, to, c) && SeesSender(done, f, c, v)
    ensures var d := TaskCheck(c, f);
            && SenderTidy(done, f, to, d)
            && (HasOutgoing(c, f) ==> SeesSender(done, f, d, v))
            && (!HasOutgoing(c, f) ==> Possible(v, TaskStops) && SeesSender(done, f, d, Do(v, TaskStops)))
  {
  }

  lemma ProgressOnly(t: Transfer, totalBytes: nat, chunkIndex: nat, chunkSize: nat)
    requires t.outgoingBytes.Some?
    ensures var u := OutgoingProgress(t, totalBytes, chunkIndex, chunkSize).0; u.state == t.state && Peer(u) == Peer(t)
  {
  }

  lemma SentShape(c: ClientState, f: Uuid)
    requires StoreOk(c.store) && f in c.tasks && c.tasks[f].phase.AtSend?
    requires c.tasks[f].phase.index * c.tasks[f].chunkSize < |c.tasks[f].bytes|
    ensures var d := TaskSend(c, f);
            && (f in d.store <==> f in c.store)
            && (f in c.store ==> d.store[f].state == c.store[f].state && Peer(d.store[f]) == Peer(c.store[f]))
            && f in d.tasks && d.tasks[f].group == c.tasks[f].group && d.tasks[f].client == c.tasks[f].client
            && d.tasks[f].phase.AtCheck?
            && exists frame :: d.outbox == c.outbox + [BinaryFrame(frame)]
  {
    var k := c.tasks[f];
    assert TaskSend(c, f).outbox == c.outbox + [BinaryFrame(TaskFrame(f, k, k.phase.index))];
    if HasOutgoing(c, f) {
      ProgressOnly(c.store[f], k.size, k.phase.index + 1, k.chunkSize);
    }
  }

  lemma TaskSends(done: Done, f: Uuid, to: Endpoint, c: ClientState, v: FileView)
    requires StoreOk(c.store) && f in c.tasks && c.tasks[f].phase.AtSend?
    requires c.tasks[f].phase.index * c.tasks[f].chunkSize < |c.tasks[f].bytes|
    requires SenderTidy(done, f, to, c) && SeesSender(done, f, c, v)
    ensures SenderTidy(done, f, to, TaskSend(c, f)) && SeesSender(done, f, TaskSend(c, f), v)
  {
    SentShape(c, f);
    var d := TaskSend(c, f);
    var frame :| d.outbox == c.outbox + [BinaryFrame(frame)];
    FrameSent(done, f, to, c, d, frame, v);
  }

  lemma FrameSent(done: Done, f: Uuid, to: Endpoint, c: ClientState, d: ClientState, frame: seq<byte>, v: FileView)
    requires d.outbox == c.outbox + [BinaryFrame(frame)]
    requires (f in d.store <==> f in c.store)
    requires (f in c.store ==> d.store[f].state == c.store[f].state && Peer(d.store[f]) == Peer(c.store[f]))
    requires f in c.tasks && !c.tasks[f].phase.AtMark?
    requires f in d.tasks && d.tasks[f].group == c.tasks[f].group && d.tasks[f].client == c.tasks[f].client
    requires d.tasks[f].phase.AtCheck?
    requires SenderTidy(done, f, to, c) && SeesSender(done, f, c, v)
    ensures SenderTidy(done, f, to, d) && SeesSender(done, f, d, v)
  {
    SentOne(done, f, c.outbox, BinaryFrame(frame), to);
  }

  lemma TaskCompletesActs(done: Done, f: Uuid, to: Endpoint, cfg: Config, c: ClientState, rid: RequestId, v: FileView)
    requires f in c.tasks && c.tasks[f].phase == AtComplete && Proper(to)
    requires SenderTidy(done, f, to, c) && SeesSender(done, f, c, v)
    ensures var d := TaskComplete(cfg, c, f, rid);
            Possible(v, TaskCompletes) && SenderTidy(done, f, to, d) && SeesSender(done, f, d, Do(v, TaskCompletes))
  {
    var d := TaskComplete(cfg, c, f, rid);
    Adds(done, f, to, c, d, d.outbox[|c.outbox|], MComplete);
  }

  lemma TaskMarksActs(done: Done, f: Uuid, to: Endpoint, c: ClientState, v: FileView)
    requires f in c.tasks && c.tasks[f].phase.AtMark?
    requires SenderTidy(done, f, to, c) && SeesSender(done, f, c, v)
    ensures Possible(v, TaskMarks) && SenderTidy(done, f, to, TaskMark(c, f))
    ensures SeesSender(done, f, TaskMark(c, f), Do(v, TaskMarks))
  {
  }

  // ---------- the receiver ----------

  lemma ReceiverAcceptsActs(done: Done, f: Uuid, from: Endpoint, cfg: Config, c: ClientState, rid: RequestId,
                            v: FileView)
    requires InState(c, f, PendingOffer) && ReceiverTidy(done, f, from, c) && SeesReceiver(done, f, c, v)
    requires AcceptExpects(c, f)
    ensures var d := AcceptPending(cfg, c, f, rid);
            Possible(v, ReceiverAccepts) && ReceiverTidy(done, f, from, d)
                && SeesReceiver(done, f, d, Do(v, ReceiverAccepts))
  {
    var d := AcceptPending(cfg, c, f, rid);
    Adds(done, f, from, c, d, d.outbox[|c.outbox|], MAccept);
  }

  lemma ReceiverRejectsActs(done: Done, f: Uuid, from: Endpoint, cfg: Config, c: ClientState, rid: RequestId,
                            v: FileView)
    requires InState(c, f, PendingOffer) && ReceiverTidy(done, f, from, c) && SeesReceiver(done, f, c, v)
    ensures var d := RejectPending(cfg, c, f, rid);
            Possible(v, ReceiverRejects) && ReceiverTidy(done, f, from, d)
                && SeesReceiver(done, f, d, Do(v, ReceiverRejects))
  {
    var d := RejectPending(cfg, c, f, rid);
    Adds(done, f, from, c, d, d.outbox[|c.outbox|], MReject);
  }

  lemma ReceiverAbortsActs(done: Done, f: Uuid, from: Endpoint, cfg: Config, c: ClientState, rid: RequestId,
                           v: FileView)
    requires f in c.store && ReceiverTidy(done, f, from, c) && SeesReceiver(done, f, c, v)
    ensures var d := Abort(cfg, c, f, rid);
            Possible(v, ReceiverAborts) && ReceiverTidy(done, f, from, d)
                && SeesReceiver(done, f, d, Do(v, ReceiverAborts))
  {
    var d := Abort(cfg, c, f, rid);
    Adds(done, f, from, c, d, d.outbox[|c.outbox|], MAbort);
  }

  /** A chunk is taken, or fails and the receiver aborts. */
  lemma ReceiverFrameActs(done: Done, f: Uuid, from: Endpoint, cfg: Config, c: ClientState, frame: seq<byte>,
                          rid: RequestId, v: FileView)
    requires Decode(frame).Some? && Decode(frame).value.0.fileId == f && InState(c, f, Receiving)
    requires ReceiverTidy(done, f, from, c) && SeesReceiver(done, f, c, v)
    ensures var d := OnFrame(cfg, c, frame, rid);
            && d.Ok? && ReceiverTidy(done, f, from, d.value)
            && (SeesReceiver(done, f, d.value, v)
               || (Possible(v, ReceiverAborts) && SeesReceiver(done, f, d.value, Do(v, ReceiverAborts))))
  {
    var (h, payload) := Decode(frame).value;
    var (u, r) := ApplyChunk(c.store[f], h, payload);
    if r.Err? {
      ReceiverAbortsActs(done, f, from, cfg, Mutate(c, f, u), rid, v);
    }
  }

  predicate OffersFrom(f: Uuid, p: Packet, from: Endpoint) {
    p.Event? && p.event.eventType == FileOffer && p.event.meta.fileId == Some(f) ==> p.event.source == Some(from)
  }

  lemma ReceiverHearsOffer(done: Done, f: Uuid, from: Endpoint, cfg: Config, c: ClientState, p: EventPacket,
                           savePath: string, rid: RequestId, v: FileView)
    requires ReceiverTidy(done, f, from, c) && SeesReceiver(done, f, c, v) && from.group.Some? && from.client.Some?
    requires p.eventType == FileOffer && p.meta.fileId == Some(f) && p.source == Some(from)
    requires v.downR != [] && v.downR[0] == MOffer
    ensures var d := OnOffer(cfg, c, p, savePath, rid);
            d.Ok? && ReceiverTidy(done, f, from, d.value)
                && SeesReceiver(done, f, d.value, ReceiverHeard(v, cfg.autoAccept))
  {
    var e := Put(c, f, OfferedTransfer(cfg, p, savePath), InsertedOffer(f));
    var asked := v.(downR := v.downR[1..], receiver := Asked);
    assert ReceiverTidy(done, f, from, e) && SeesReceiver(done, f, e, asked);
    if cfg.autoAccept {
      ReceiverAcceptsActs(done, f, from, cfg, e, rid, asked);
    }
  }

  lemma ReceiverHearsComplete(done: Done, f: Uuid, from: Endpoint, cfg: Config, digest: seq<byte> -> string,
                              c: ClientState, p: EventPacket, v: FileView)
    requires StoreOk(c.store) && ReceiverTidy(done, f, from, c) && SeesReceiver(done, f, c, v)
    requires p.eventType == FileComplete && p.meta.fileId == Some(f) && CompleteKnown(done, Event(p))
    requires v.downR != [] && v.downR[0] == MComplete
    ensures var d := OnComplete(cfg, c, p, digest);
            d.Ok? && ReceiverTidy(done, f, from, d.value)
                && SeesReceiver(done, f, d.value, ReceiverHeard(v, cfg.autoAccept))
  {
    if InState(c, f, Receiving) {
      var d := OnComplete(cfg, c, p, digest).value;
      Adds(done, f, from, c, d, d.outbox[|c.outbox|], MAck);
    }
  }

  lemma ReceiverHearsDropped(done: Done, f: Uuid, from: Endpoint, c: ClientState, p: EventPacket, auto: bool,
                             v: FileView)
    requires ReceiverTidy(done, f, from, c) && SeesReceiver(done, f, c, v)
    requires p.meta.fileId == Some(f) && v.downR != [] && v.downR[0] == MAbort
    ensures var d := OnDropped(c, p);
            d.Ok? && ReceiverTidy(done, f, from, d.value)
            && SeesReceiver(done, f, d.value, ReceiverHeard(v, auto))
  {
  }

  lemma ReceiverHearsActs(done: Done, f: Uuid, from: Endpoint, cfg: Config, digest: seq<byte> -> string,
                          c: ClientState, p: Packet,
                          savePath: string, rid: RequestId, choice: Uuid, v: FileView)
    requires StoreOk(c.store) && CompleteKnown(done, p) && OffersFrom(f, p, from) && from.group.Some?
    requires from.client.Some?
    requires ReceiverTidy(done, f, from, c) && SeesReceiver(done, f, c, v)
    requires v.downR != [] && MsgOf(done, f, p) == [v.downR[0]]
    requires v.downR[0] == MOffer || v.downR[0] == MAbort || v.downR[0] == MComplete
    ensures var r := Dispatch(cfg, c, p, digest, savePath, rid, choice);
            r.Ok? && ReceiverTidy(done, f, from, r.value)
                && SeesReceiver(done, f, r.value, ReceiverHeard(v, cfg.autoAccept))
  {
    match p.event.eventType
    case FileOffer => ReceiverHearsOffer(done, f, from, cfg, c, p.event, savePath, rid, v);
    case FileComplete => ReceiverHearsComplete(done, f, from, cfg, digest, c, p.event, v);
    case FileAbort => ReceiverHearsDropped(done, f, from, c, p.event, cfg.autoAccept, v);
    case _ =>
  }
}
