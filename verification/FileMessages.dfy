/** The messages about one file among everything that travels, and what a client's step does to that file. */
module FileMessages {
  import opened Basics
  import opened Packets
  import opened ChunkCodec
  import opened Chunking
  import opened FileStore
  import opened Client
  import opened UnicastProtocol

  type Done = map<Uuid, RequestId>

  function EventMsg(t: EventType): seq<Msg> {
    match t
    case FileOffer => [MOffer]
    case FileAccept => [MAccept]
    case FileReject => [MReject]
    case FileAbort => [MAbort]
    case FileComplete => [MComplete]
    case Text | Command | CommandResult | Json => []
  }

  /** An ack is about the file whose completion it answers; `done` gives each file's completion id. */
  function MsgOf(done: Done, f: Uuid, p: Packet): seq<Msg> {
    match p
    case Event(e) => if e.meta.fileId == Some(f) then EventMsg(e.eventType) else []
    case Ack(a) => if a.refType == Some(FileComplete) && f in done && a.requestId == done[f] then [MAck] else []
    case Error(e) => if e.fileId == Some(f) then [MRefused] else []
    case InitAck | HeartbeatAck => []
  }

  lemma OneMsg(done: Done, f: Uuid, p: Packet, rest: seq<Msg>, all: seq<Msg>)
    requires MsgOf(done, f, p) != [] && all == MsgOf(done, f, p) + rest
    ensures all != [] && MsgOf(done, f, p) == [all[0]] && all[1..] == rest
  {
    assert |MsgOf(done, f, p)| == 1;
  }

  function WireMsg(done: Done, f: Uuid, m: WireMessage): seq<Msg> {
    if m.TextFrame? then MsgOf(done, f, m.packet) else []
  }

  /** The file's messages in a queue, in order. */
  function OfWire(done: Done, f: Uuid, ms: seq<WireMessage>): seq<Msg> {
    if ms == [] then [] else OfWire(done, f, ms[..|ms| - 1]) + WireMsg(done, f, ms[|ms| - 1])
  }

  function Wires(ps: seq<Packet>): (ms: seq<WireMessage>)
    ensures |ms| == |ps|
  {
    seq(|ps|, i requires 0 <= i < |ps| => TextFrame(ps[i]))
  }

  lemma Append(done: Done, f: Uuid, ms: seq<WireMessage>, m: WireMessage)
    ensures OfWire(done, f, ms + [m]) == OfWire(done, f, ms) + WireMsg(done, f, m)
  {
    assert (ms + [m])[..|ms|] == ms;
  }

  lemma Regroup<T>(a: seq<T>, b: seq<T>, c: seq<T>)
    ensures a + (b + c) == (a + b) + c
  {
  }

  lemma {:induction false} Concat(done: Done, f: Uuid, ms: seq<WireMessage>, ns: seq<WireMessage>)
    ensures OfWire(done, f, ms + ns) == OfWire(done, f, ms) + OfWire(done, f, ns)
  {
    if ns == [] {
      assert ms + ns == ms;
    } else {
      var front, last := ns[..|ns| - 1], ns[|ns| - 1];
      Concat(done, f, ms, front);
      Append(done, f, ms + front, last);
      Regroup(ms, front, [last]);
      assert ns == front + [last];
      Regroup(OfWire(done, f, ms), OfWire(done, f, front), WireMsg(done, f, last));
    }
  }

  lemma One(done: Done, f: Uuid, m: WireMessage)
    ensures OfWire(done, f, [m]) == WireMsg(done, f, m)
  {
    var none: seq<WireMessage> := [];
    assert none + [m] == [m];
    Append(done, f, none, m);
  }

  lemma Head(done: Done, f: Uuid, ms: seq<WireMessage>)
    requires ms != []
    ensures OfWire(done, f, ms) == WireMsg(done, f, ms[0]) + OfWire(done, f, ms[1..])
  {
    assert ms == [ms[0]] + ms[1..];
    Concat(done, f, [ms[0]], ms[1..]);
    One(done, f, ms[0]);
  }

  predicate QuietAll(done: Done, f: Uuid, ms: seq<WireMessage>) {
    forall m :: m in ms ==> WireMsg(done, f, m) == []
  }

  lemma {:induction false} QuietNone(done: Done, f: Uuid, ms: seq<WireMessage>)
    ensures OfWire(done, f, ms) == [] <==> QuietAll(done, f, ms)
  {
    if ms != [] {
      var n := |ms| - 1;
      QuietNone(done, f, ms[..n]);
      assert ms == ms[..n] + [ms[n]];
      assert QuietAll(done, f, ms) <==> QuietAll(done, f, ms[..n]) && WireMsg(done, f, ms[n]) == [];
    }
  }

  // ---------- what a client's step does to one file ----------

  /** The file's entry and task are as before, and nothing about it was sent. */
  predicate Quietly(done: Done, f: Uuid, c: ClientState, d: ClientState) {
    && (f in d.store <==> f in c.store) && (f in c.store ==> d.store[f] == c.store[f])
    && (f in d.tasks <==> f in c.tasks) && (f in c.tasks ==> d.tasks[f] == c.tasks[f])
    && c.outbox <= d.outbox && QuietAll(done, f, d.outbox[|c.outbox|..])
  }

  /** Entries that wait for an ack wait for the id drawn for their own file, and no two files share one. */
  predicate AcksKnown(done: Done, c: ClientState) {
    && (forall g :: InState(c, g, WaitingAck) ==> g in done && c.store[g].completionRequestId == Some(done[g]))
    && (forall g, h :: g in done && h in done && done[g] == done[h] ==> g == h)
  }

  predicate CompleteKnown(done: Done, p: Packet) {
    p.Event? && p.event.eventType == FileComplete ==>
      p.event.meta.fileId.Some? && p.event.meta.fileId.value in done
          && p.event.requestId == done[p.event.meta.fileId.value]
  }

  /** This step can touch the file. */
  predicate AboutFile(done: Done, f: Uuid, c: ClientState, s: ClientStep) {
    match s
    case UserAccept(g, _) => g == f && InState(c, f, PendingOffer)
    case UserReject(g, _) => g == f && InState(c, f, PendingOffer)
    case UserAbort(g, _) => g == f && f in c.store
    case Receive(p, _, _, _) => MsgOf(done, f, p) != []
    case ReceiveFrame(frame, _) => Decode(frame).Some? && Decode(frame).value.0.fileId == f && InState(c, f, Receiving)
    case Start(g, _, _, _, _, _, _, _) => g == f
    case Check(g) => g == f
    case SendFrame(g) => g == f
    case Complete(g, _) => g == f
    case Mark(g) => g == f
    case Reconnect(_) => true
  }

  lemma AddedOne(done: Done, f: Uuid, c: ClientState, d: ClientState, m: WireMessage)
    requires d.outbox == c.outbox + [m] && WireMsg(done, f, m) == []
    ensures c.outbox <= d.outbox && QuietAll(done, f, d.outbox[|c.outbox|..])
  {
    assert d.outbox[|c.outbox|..] == [m];
  }

  lemma AbortOther(done: Done, f: Uuid, cfg: Config, c: ClientState, g: Uuid, rid: RequestId)
    requires g != f
    ensures Quietly(done, f, c, Abort(cfg, c, g, rid))
  {
    if g in c.store {
      AddedOne(done, f, c, Abort(cfg, c, g, rid), Abort(cfg, c, g, rid).outbox[|c.outbox|]);
    }
  }

  lemma AcceptOther(done: Done, f: Uuid, cfg: Config, c: ClientState, g: Uuid, rid: RequestId)
    requires g != f && AcceptExpects(c, g)
    ensures Quietly(done, f, c, AcceptPending(cfg, c, g, rid))
  {
    if InState(c, g, PendingOffer) {
      AddedOne(done, f, c, AcceptPending(cfg, c, g, rid), AcceptPending(cfg, c, g, rid).outbox[|c.outbox|]);
    }
  }

  lemma RejectOther(done: Done, f: Uuid, cfg: Config, c: ClientState, g: Uuid, rid: RequestId)
    requires g != f
    ensures Quietly(done, f, c, RejectPending(cfg, c, g, rid))
  {
    if InState(c, g, PendingOffer) {
      AddedOne(done, f, c, RejectPending(cfg, c, g, rid), RejectPending(cfg, c, g, rid).outbox[|c.outbox|]);
    }
  }

  lemma UserOther(done: Done, f: Uuid, cfg: Config, c: ClientState, s: ClientStep)
    requires s.UserAccept? || s.UserReject? || s.UserAbort?
    requires (s.UserAccept? ==> AcceptExpects(c, s.fileId)) && !AboutFile(done, f, c, s)
    ensures Quietly(done, f, c, match s
                                case UserAccept(g, rid) => AcceptPending(cfg, c, g, rid)
                                case UserReject(g, rid) => RejectPending(cfg, c, g, rid)
                                case UserAbort(g, rid) => Abort(cfg, c, g, rid)
                                case _ => c)
  {
    if s.fileId != f {
      if s.UserAccept? {
        AcceptOther(done, f, cfg, c, s.fileId, s.rid);
      } else if s.UserReject? {
        RejectOther(done, f, cfg, c, s.fileId, s.rid);
      } else {
        AbortOther(done, f, cfg, c, s.fileId, s.rid);
      }
    }
  }

  lemma OfferOther(done: Done, f: Uuid, cfg: Config, c: ClientState, p: EventPacket, savePath: string, rid: RequestId)
    requires p.meta.fileId.Some? && p.meta.fileId.value != f
    ensures Quietly(done, f, c, OnOffer(cfg, c, p, savePath, rid).value)
  {
    var g := p.meta.fileId.value;
    var d := Put(c, g, OfferedTransfer(cfg, p, savePath), InsertedOffer(g));
    AcceptOther(done, f, cfg, d, g, rid);
  }

  lemma AcceptedOther(done: Done, f: Uuid, c: ClientState, p: EventPacket)
    requires SpawnExpects(c, p) && p.meta.fileId.Some? && p.meta.fileId.value != f
    ensures Quietly(done, f, c, OnAccept(c, p).value)
  {
  }

  lemma CompleteOther(done: Done, f: Uuid, cfg: Config, c: ClientState, p: EventPacket, digest: seq<byte> -> string)
    requires SaveExpects(c, p, digest) && AcksKnown(done, c)
    requires p.eventType == FileComplete && CompleteKnown(done, Event(p)) && p.meta.fileId != Some(f)
    ensures Quietly(done, f, c, OnComplete(cfg, c, p, digest).value)
  {
    var g := p.meta.fileId.value;
    if InState(c, g, Receiving) {
      var d := OnComplete(cfg, c, p, digest).value;
      AddedOne(done, f, c, d, d.outbox[|c.outbox|]);
    }
  }

  lemma AckOther(done: Done, f: Uuid, c: ClientState, a: AckPacket, choice: Uuid)
    requires DoneExpects(c, a, choice) && AcksKnown(done, c) && MsgOf(done, f, Ack(a)) == []
    ensures Quietly(done, f, c, OnAck(c, a, choice))
  {
  }

  lemma DroppedOther(done: Done, f: Uuid, c: ClientState, p: EventPacket)
    requires p.meta.fileId.Some? && p.meta.fileId.value != f
    ensures Quietly(done, f, c, OnDropped(c, p).value)
  {
  }

  lemma ReceiveOther(done: Done, f: Uuid, cfg: Config, digest: seq<byte> -> string, c: ClientState, p: Packet,
                     savePath: string, rid: RequestId, choice: Uuid)
    requires PacketExpects(c, p, digest, choice) && AcksKnown(done, c) && CompleteKnown(done, p)
    requires MsgOf(done, f, p) == []
    requires Dispatch(cfg, c, p, digest, savePath, rid, choice).Ok?
    ensures Quietly(done, f, c, Dispatch(cfg, c, p, digest, savePath, rid, choice).value)
  {
    match p
    case Ack(a) => AckOther(done, f, c, a, choice);
    case Error(e) =>
    case InitAck =>
    case HeartbeatAck =>
    case Event(e) =>
      match e.eventType {
        case FileOffer => OfferOther(done, f, cfg, c, e, savePath, rid);
        case FileAccept => AcceptedOther(done, f, c, e);
        case FileReject => DroppedOther(done, f, c, e);
        case FileAbort => DroppedOther(done, f, c, e);
        case FileComplete => CompleteOther(done, f, cfg, c, e, digest);
        case _ =>
      }
  }

  lemma FrameOther(done: Done, f: Uuid, cfg: Config, c: ClientState, frame: seq<byte>, rid: RequestId)
    requires Decode(frame).Some? && !(Decode(frame).value.0.fileId == f && InState(c, f, Receiving))
    ensures OnFrame(cfg, c, frame, rid).Ok? && Quietly(done, f, c, OnFrame(cfg, c, frame, rid).value)
  {
    var (h, payload) := Decode(frame).value;
    var g := h.fileId;
    if InState(c, g, Receiving) {
      var (u, r) := ApplyChunk(c.store[g], h, payload);
      AbortOther(done, f, cfg, Mutate(c, g, u), g, rid);
    }
  }

  lemma TaskOther(done: Done, f: Uuid, cfg: Config, c: ClientState, s: ClientStep)
    requires Enabled(c, s) && (s.Check? || s.Mark? || s.Complete?) && s.fileId != f
    requires s.Check? ==> c.tasks[s.fileId].chunkSize > 0
    ensures Quietly(done, f, c, match s
                                case Check(g) => TaskCheck(c, g)
                                case Mark(g) => TaskMark(c, g)
                                case Complete(g, rid) => TaskComplete(cfg, c, g, rid)
                                case _ => c)
  {
    if s.Complete? {
      AddedOne(done, f, c, TaskComplete(cfg, c, s.fileId, s.rid),
               TaskComplete(cfg, c, s.fileId, s.rid).outbox[|c.outbox|]);
    }
  }

  lemma SendOther(done: Done, f: Uuid, c: ClientState, g: Uuid)
    requires ProgressExpects(c, g) && g in c.tasks && c.tasks[g].phase.AtSend?
    requires c.tasks[g].phase.index * c.tasks[g].chunkSize < |c.tasks[g].bytes|
    requires g != f
    ensures Quietly(done, f, c, TaskSend(c, g))
  {
    AddedOne(done, f, c, TaskSend(c, g), TaskSend(c, g).outbox[|c.outbox|]);
  }

  lemma StartOther(done: Done, f: Uuid, cfg: Config, c: ClientState, s: ClientStep)
    requires s.Start? && s.fileId != f && |s.bytes| < 0x1_0000_0000_0000_0000
    ensures Quietly(done, f, c,
            StartOutgoing(cfg, c, s.fileId, s.rid, s.fileName, s.path, s.bytes, s.sha256, s.targetGroup,
            s.targetClient))
  {
    var d := StartOutgoing(cfg, c, s.fileId, s.rid, s.fileName, s.path, s.bytes, s.sha256, s.targetGroup,
        s.targetClient);
    AddedOne(done, f, c, d, d.outbox[|c.outbox|]);
  }

  /** A step that is not about the file leaves it alone. */
  lemma OthersQuiet(done: Done, f: Uuid, cfg: Config, digest: seq<byte> -> string, c: ClientState, s: ClientStep)
    requires Enabled(c, s) && AcksKnown(done, c) && !AboutFile(done, f, c, s)
    requires s.Receive? ==> CompleteKnown(done, s.packet)
    requires Client.Next(cfg, digest, c, s).Ok?
    ensures Quietly(done, f, c, Client.Next(cfg, digest, c, s).value)
  {
    match s
    case Start(_, _, _, _, _, _, _, _) => StartOther(done, f, cfg, c, s);
    case Receive(p, savePath, rid, choice) => ReceiveOther(done, f, cfg, digest, c, p, savePath, rid, choice);
    case ReceiveFrame(frame, rid) => FrameOther(done, f, cfg, c, frame, rid);
    case SendFrame(g) => SendOther(done, f, c, g);
    case Check(_) => TaskOther(done, f, cfg, c, s);
    case Mark(_) => TaskOther(done, f, cfg, c, s);
    case Complete(_, _) => TaskOther(done, f, cfg, c, s);
    case _ => UserOther(done, f, cfg, c, s);
  }
}
