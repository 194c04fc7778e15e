/** The client's side of a file transfer (src/state/outgoing.rs, src/state/file_handling.rs,
    src/state/mod.rs): every handler as a function from client state to client state. */
module Client {
  import opened Basics
  import opened Packets
  import opened ChunkCodec
  import opened Chunking
  import opened FileStore

  datatype Config = Config(group: string, name: string, autoAccept: bool)
  {
    function Identity(): Endpoint {
      Endpoint(Some(group), Some(name))
    }
  }

  /** Where a running send task stands: before a look at the table, before a frame, before
      `file_complete`, and between queueing `file_complete` and recording its id. */
  datatype SendPhase = AtCheck(next: nat) | AtSend(index: nat) | AtComplete | AtMark(completion: RequestId)

  datatype SendTask = SendTask(group: string, client: string, size: u64, totalChunks: u32, chunkSize: nat,
                               sha256: string, bytes: seq<byte>, phase: SendPhase)

  datatype SavedFile = SavedFile(fileId: Uuid, path: string, bytes: seq<byte>)

  datatype Replay = Replay(view: View, fileId: Uuid, fileName: string, reason: FailureReason)

  /** What has happened to table entries, for counting them. */
  datatype StoreEvent =
    | InsertedOutgoing(fileId: Uuid)
    | InsertedOffer(fileId: Uuid)
    | Overwrote(fileId: Uuid)
    | TakenOut(fileId: Uuid)
    | Drained(fileId: Uuid)

  /** A line the sending side prints: a progress report of a file, or its path and name once it has been confirmed. */
  datatype Line = SendProgress(fileId: Uuid, report: Report) | SendDone(path: string, fileName: string)

  /** What ends a handler early; the last is an `expect` that found nothing. */
  datatype HandlerError = MissingFileId | InvalidBinaryChunk | ExpectFailed

  type Store = map<Uuid, Transfer>

  datatype ClientState = ClientState(
    store: Store,
    tasks: map<Uuid, SendTask>,
    outbox: seq<WireMessage>,
    disk: seq<SavedFile>,
    replays: seq<Replay>,
    console: seq<Line>,
    log: multiset<StoreEvent>,
    spawns: multiset<Uuid>)

  const FRESH_CLIENT := ClientState(map[], map[], [], [], [], [], multiset{}, multiset{})

  // ---------- table operations ----------

  function Put(c: ClientState, f: Uuid, t: Transfer, event: StoreEvent): ClientState {
    c.(store := c.store[f := t],
       log := c.log + multiset{event} + if f in c.store then multiset{Overwrote(f)} else multiset{})
  }

  function Take(c: ClientState, f: Uuid): ClientState
    requires f in c.store
  {
    c.(store := c.store - {f}, log := c.log + multiset{TakenOut(f)})
  }

  function Mutate(c: ClientState, f: Uuid, t: Transfer): ClientState
    requires f in c.store
  {
    c.(store := c.store[f := t])
  }

  function Send(c: ClientState, p: Packet): ClientState {
    c.(outbox := c.outbox + [TextFrame(p)])
  }

  function Show(c: ClientState, lines: seq<Line>): ClientState {
    c.(console := c.console + lines)
  }

  predicate HasOutgoing(c: ClientState, f: Uuid) {
    f in c.store && c.store[f].IsOutgoing()
  }

  predicate InState(c: ClientState, f: Uuid, s: State) {
    f in c.store && c.store[f].state == s
  }

  function Peer(t: Transfer): Endpoint {
    Endpoint(Some(t.peerGroup), Some(t.peerClient))
  }

  function UpdatePhase(c: ClientState, f: Uuid, expectedFrom: State, next: State, completion: Option<RequestId>)
    : ClientState
  {
    if f in c.store then Mutate(c, f, TransitionTo(c.store[f], expectedFrom, next, completion).0) else c
  }

  // ---------- sending ----------

  function OfferMeta(f: Uuid, fileName: string, bytes: seq<byte>, sha256: string): Metadata
    requires |bytes| < 0x1_0000_0000_0000_0000
  {
    Metadata(Some(f), Some(fileName), Some(|bytes|), Some(sha256), Some(CHUNK_SIZE), Some(TotalChunks(|bytes|)), None)
  }

  /** `start_outgoing_file`; a missing target client is a broadcast, kept locally as the peer "*". */
  function StartOutgoing(cfg: Config, c: ClientState, f: Uuid, rid: RequestId, fileName: string, path: string,
                         bytes: seq<byte>,
                         sha256: string, targetGroup: Option<string>, targetClient: Option<string>): ClientState
    requires |bytes| < 0x1_0000_0000_0000_0000
  {
    var group := if targetGroup.Some? then targetGroup.value else cfg.group;
    var peer := if targetClient.Some? then targetClient.value else "*";
    var t := NewOutgoing(group, peer, fileName, path, |bytes|, TotalChunks(|bytes|), CHUNK_SIZE, sha256, bytes);
    Send(Put(c, f, t, InsertedOutgoing(f)),
         Event(EventFrom(cfg.Identity(), Endpoint(Some(group), targetClient), rid, FileOffer,
             OfferMeta(f, fileName, bytes, sha256))))
  }

  function TaskFor(t: Transfer): SendTask
    requires t.chunkSize.Some? && t.outgoingBytes.Some?
  {
    SendTask(t.peerGroup, t.peerClient, t.bytesTotal, t.totalChunks, t.chunkSize.value, t.sha256, t.outgoingBytes.value,
        AtCheck(0))
  }

  /** The `expect`s on chunk size and bytes of an entry about to be sent. */
  predicate SpawnExpects(c: ClientState, p: EventPacket) {
    p.meta.fileId.Some? && InState(c, p.meta.fileId.value, WaitingAccept) ==>
      c.store[p.meta.fileId.value].chunkSize.Some? && c.store[p.meta.fileId.value].outgoingBytes.Some?
  }

  /** `handle_outgoing_file_accept`: only the accept that finds the entry waiting starts a send task. */
  function OnAccept(c: ClientState, p: EventPacket): Result<ClientState, HandlerError>
    requires SpawnExpects(c, p)
  {
    if p.meta.fileId.None? then Err(MissingFileId)
    else
      var f := p.meta.fileId.value;
      if !InState(c, f, WaitingAccept) then Ok(c)
      else
        var d := UpdatePhase(c, f, WaitingAccept, Sending, None);
        Ok(d.(tasks := d.tasks[f := TaskFor(d.store[f])], spawns := d.spawns + multiset{f}))
  }

  /** The look at the table before each chunk and at the end. */
  function TaskCheck(c: ClientState, f: Uuid): ClientState
    requires f in c.tasks && c.tasks[f].phase.AtCheck? && c.tasks[f].chunkSize > 0
  {
    var k := c.tasks[f];
    if !HasOutgoing(c, f) then c.(tasks := c.tasks - {f})
    else if k.phase.next < DivCeil(|k.bytes|, k.chunkSize)
        then c.(tasks := c.tasks[f := k.(phase := AtSend(k.phase.next))])
    else c.(tasks := c.tasks[f := k.(phase := AtComplete)])
  }

  function TaskFrame(f: Uuid, k: SendTask, i: nat): seq<byte>
    requires i * k.chunkSize < |k.bytes|
  {
    var chunk := ChunkAt(k.bytes, k.chunkSize, i);
    Encode(NewHeader(f, AsU32(i), k.totalChunks, AsU32(|chunk|)), chunk)
  }

  function FrameQueued(c: ClientState, f: Uuid): ClientState
    requires f in c.tasks && c.tasks[f].phase.AtSend?
    requires c.tasks[f].phase.index * c.tasks[f].chunkSize < |c.tasks[f].bytes|
  {
    var k := c.tasks[f];
    c.(outbox := c.outbox + [BinaryFrame(TaskFrame(f, k, k.phase.index))],
       tasks := c.tasks[f := k.(phase := AtCheck(k.phase.index + 1))])
  }

  /** The `expect` on the bytes of an entry whose progress is updated. */
  predicate ProgressExpects(c: ClientState, f: Uuid) {
    HasOutgoing(c, f) ==> c.store[f].outgoingBytes.Some?
  }

  function ProgressLines(f: Uuid, report: Option<Report>): seq<Line> {
    if report.Some? then [SendProgress(f, report.value)] else []
  }

  /** One frame, its progress update and the line that may print. */
  function TaskSend(c: ClientState, f: Uuid): ClientState
    requires ProgressExpects(c, f)
    requires f in c.tasks && c.tasks[f].phase.AtSend?
    requires c.tasks[f].phase.index * c.tasks[f].chunkSize < |c.tasks[f].bytes|
  {
    var k := c.tasks[f];
    var sent := FrameQueued(c, f);
    if HasOutgoing(c, f) then
      var (t, report) := OutgoingProgress(c.store[f], k.size, k.phase.index + 1, k.chunkSize);
      Show(Mutate(sent, f, t), ProgressLines(f, report))
    else sent
  }

  /** `file_complete` goes to the group when the peer is empty or "*". */
  function CompleteTarget(group: string, client: string): Endpoint {
    Endpoint(Some(group), if client != "" && client != "*" then Some(client) else None)
  }

  /** The one report of an empty file, which has no chunk to report. */
  function EmptyFileLines(f: Uuid, size: nat): seq<Line> {
    if size == 0 then [SendProgress(f, Report(0, 0, 100))] else []
  }

  function TaskComplete(cfg: Config, c: ClientState, f: Uuid, rid: RequestId): ClientState
    requires f in c.tasks && c.tasks[f].phase == AtComplete
  {
    var k := c.tasks[f];
    Send(Show(c, EmptyFileLines(f, k.size)),
         Event(EventFrom(cfg.Identity(), CompleteTarget(k.group, k.client), rid, FileComplete,
                         FileMeta(f).(fileSize := Some(k.size), sha256 := Some(k.sha256)))))
      .(tasks := c.tasks[f := k.(phase := AtMark(rid))])
  }

  function TaskMark(c: ClientState, f: Uuid): ClientState
    requires f in c.tasks && c.tasks[f].phase.AtMark?
  {
    UpdatePhase(c, f, Sending, WaitingAck, Some(c.tasks[f].phase.completion)).(tasks := c.tasks - {f})
  }

  predicate WaitsForAck(store: Store, f: Uuid, rid: RequestId) {
    f in store && store[f].state == WaitingAck && store[f].completionRequestId == Some(rid)
  }

  /** The hash map may yield any entry that waits for this id. */
  ghost predicate AckChoice(store: Store, rid: RequestId, choice: Uuid) {
    WaitsForAck(store, choice, rid) || forall f :: f in store ==> !WaitsForAck(store, f, rid)
  }

  /** The `expect` on the path of a file whose completion is confirmed. */
  predicate DoneExpects(c: ClientState, a: AckPacket, choice: Uuid) {
    a.refType == Some(FileComplete) && WaitsForAck(c.store, choice, a.requestId) && a.status == Accepted ==>
      c.store[choice].sourcePath.Some?
  }

  function OnAck(c: ClientState, a: AckPacket, choice: Uuid): ClientState
    requires DoneExpects(c, a, choice)
  {
    if a.refType == Some(FileComplete) && WaitsForAck(c.store, choice, a.requestId) then
      var t := c.store[choice];
      Show(Take(c, choice), if a.status == Accepted then [SendDone(t.sourcePath.value, t.fileName)] else [])
    else c
  }

  function OnServerError(c: ClientState, e: ErrorPacket): ClientState {
    if e.fileId.Some? && HasOutgoing(c, e.fileId.value) then Take(c, e.fileId.value) else c
  }

  // ---------- receiving ----------

  function OfferedTransfer(cfg: Config, p: EventPacket, savePath: string): Transfer {
    var source := if p.source.Some? then p.source.value else Endpoint(None, None);
    NewPendingOffer(
      if source.group.Some? then source.group.value else cfg.group,
      if source.client.Some? then source.client.value else "unknown",
      if p.meta.fileName.Some? then p.meta.fileName.value else "unknown.bin",
      savePath,
      if p.meta.fileSize.Some? then p.meta.fileSize.value else 0,
      if p.meta.sha256.Some? then p.meta.sha256.value else "",
      if p.meta.totalChunks.Some? then AsU32(p.meta.totalChunks.value) else 1)
  }

  function OnOffer(cfg: Config, c: ClientState, p: EventPacket, savePath: string, rid: RequestId): Result<ClientState,
                   HandlerError>
  {
    if p.meta.fileId.None? then Err(MissingFileId)
    else
      var f := p.meta.fileId.value;
      var d := Put(c, f, OfferedTransfer(cfg, p, savePath), InsertedOffer(f));
      Ok(if cfg.autoAccept then AcceptPending(cfg, d, f, rid) else d)
  }

  /** The `expect` on the save path of an offer being accepted. */
  predicate AcceptExpects(c: ClientState, f: Uuid) {
    InState(c, f, PendingOffer) ==> c.store[f].savePath.Some?
  }

  function AcceptMeta(f: Uuid, t: Transfer): Metadata
    requires t.savePath.Some?
  {
    FileMeta(f).(savePath := Some(t.savePath.value))
  }

  function AcceptPending(cfg: Config, c: ClientState, f: Uuid, rid: RequestId): ClientState
    requires AcceptExpects(c, f)
  {
    if !InState(c, f, PendingOffer) then c
    else
      var t := c.store[f];
      Send(Mutate(c, f, Incoming(t)), Event(EventFrom(cfg.Identity(), Peer(t), rid, FileAccept, AcceptMeta(f, t))))
  }

  function RejectPending(cfg: Config, c: ClientState, f: Uuid, rid: RequestId): ClientState {
    if !InState(c, f, PendingOffer) then c
    else
      Send(Take(c, f), Event(EventFrom(cfg.Identity(), Peer(c.store[f]), rid, FileReject, FileMeta(f))))
  }

  /** Dropping an entry and telling its peer: the user's abort and the reaction to a bad chunk. */
  function Abort(cfg: Config, c: ClientState, f: Uuid, rid: RequestId): ClientState {
    if f !in c.store then c
    else Send(Take(c, f), Event(EventFrom(cfg.Identity(), Peer(c.store[f]), rid, FileAbort, FileMeta(f))))
  }

  function OnFrame(cfg: Config, c: ClientState, frame: seq<byte>, rid: RequestId): Result<ClientState, HandlerError> {
    var decoded := Decode(frame);
    if decoded.None? then Err(InvalidBinaryChunk)
    else
      var (h, payload) := decoded.value;
      if !InState(c, h.fileId, Receiving) then Ok(c)
      else
        var (u, r) := ApplyChunk(c.store[h.fileId], h, payload);
        var d := Mutate(c, h.fileId, u);
        Ok(if r.Ok? then d else Abort(cfg, d, h.fileId, rid))
  }

  function CompleteStatus(t: Transfer, digest: seq<byte> -> string): AckStatus {
    if t.nextChunkIndex != t.totalChunks then Rejected
    else if |t.incomingBytes| == t.bytesTotal && (t.sha256 == "" || digest(t.incomingBytes) == t.sha256) then Accepted
    else Rejected
  }

  /** The `expect` on the path of a file about to be written. */
  predicate SaveExpects(c: ClientState, p: EventPacket, digest: seq<byte> -> string) {
    p.meta.fileId.Some? && InState(c, p.meta.fileId.value, Receiving)
    && CompleteStatus(c.store[p.meta.fileId.value], digest) == Accepted ==>
      c.store[p.meta.fileId.value].savePath.Some?
  }

  function OnComplete(cfg: Config, c: ClientState, p: EventPacket, digest: seq<byte> -> string)
    : Result<ClientState, HandlerError>
    requires SaveExpects(c, p, digest)
  {
    if p.meta.fileId.None? then Err(MissingFileId)
    else
      var f := p.meta.fileId.value;
      if !InState(c, f, Receiving) then Ok(c)
      else
        var t := c.store[f];
        var status := CompleteStatus(t, digest);
        var d := Take(c, f);
        var e := if status == Accepted then d.(disk := d.disk + [SavedFile(f, t.savePath.value, t.incomingBytes)])
            else d;
        Ok(Send(e, Ack(AckFrom(cfg.Identity(), Peer(t), p.requestId, status))))
  }

  /** A peer's abort or reject drops the entry whatever its state. */
  function OnDropped(c: ClientState, p: EventPacket): Result<ClientState, HandlerError> {
    if p.meta.fileId.None? then Err(MissingFileId)
    else if p.meta.fileId.value in c.store then Ok(Take(c, p.meta.fileId.value))
    else Ok(c)
  }

  predicate PacketExpects(c: ClientState, p: Packet, digest: seq<byte> -> string, choice: Uuid) {
    match p
    case Ack(a) => DoneExpects(c, a, choice)
    case Event(e) =>
      && (e.eventType == FileAccept ==> SpawnExpects(c, e))
      && (e.eventType == FileComplete ==> SaveExpects(c, e, digest))
    case _ => true
  }

  /** One packet from the JSON queue; Text, Json and command events leave the transfer table alone. */
  function Dispatch(cfg: Config, c: ClientState, p: Packet, digest: seq<byte> -> string, savePath: string,
                    rid: RequestId, choice: Uuid)
    : Result<ClientState, HandlerError>
    requires PacketExpects(c, p, digest, choice)
  {
    match p
    case Ack(a) => Ok(OnAck(c, a, choice))
    case Error(e) => Ok(OnServerError(c, e))
    case InitAck | HeartbeatAck => Ok(c)
    case Event(e) =>
      match e.eventType
      case FileOffer => OnOffer(cfg, c, e, savePath, rid)
      case FileAccept => OnAccept(c, e)
      case FileReject | FileAbort => OnDropped(c, e)
      case FileComplete => OnComplete(cfg, c, e, digest)
      case Text | Command | CommandResult | Json => Ok(c)
  }

  // ---------- reconnecting ----------

  function ReplayLine(store: Store, f: Uuid): Replay
    requires f in store
  {
    Replay(store[f].view, f, store[f].fileName, Disconnected)
  }

  ghost predicate Enumerates(order: seq<Uuid>, keys: set<Uuid>) {
    && (forall i :: 0 <= i < |order| ==> order[i] in keys)
    && (forall f :: f in keys ==> f in order)
    && (forall i, j :: 0 <= i < j < |order| ==> order[i] != order[j])
  }

  function DrainLog(order: seq<Uuid>): multiset<StoreEvent> {
    if order == [] then multiset{} else DrainLog(order[..|order| - 1]) + multiset{Drained(order[|order| - 1])}
  }

  ghost function Lines(store: Store, order: seq<Uuid>): seq<Replay>
    requires forall f :: f in order ==> f in store
  {
    seq(|order|, i requires 0 <= i < |order| => ReplayLine(store, order[i]))
  }

  /** `clear_file_transfer_state`, the table yielding its entries in some order. */
  ghost function ClearForReconnect(c: ClientState, order: seq<Uuid>): ClientState
    requires Enumerates(order, c.store.Keys)
  {
    c.(store := map[],
       replays := c.replays + Lines(c.store, order),
       log := c.log + DrainLog(order))
  }

  // ---------- what every handler keeps ----------

  predicate StoreOk(store: Store) {
    forall f :: f in store ==> store[f].Ok()
  }

  predicate TaskOk(k: SendTask) {
    && k.chunkSize > 0
    && (k.phase.AtSend? ==> k.phase.index < DivCeil(|k.bytes|, k.chunkSize))
  }

  /** Inserted entries are present, overwritten, taken out once or drained. */
  ghost predicate Balanced(c: ClientState, f: Uuid) {
    c.log[InsertedOutgoing(f)] + c.log[InsertedOffer(f)]
    == c.log[Overwrote(f)] + c.log[TakenOut(f)] + c.log[Drained(f)] + if f in c.store then 1 else 0
  }

  /** Each outgoing entry has started at most one send task, and none while it still waits for an accept. */
  ghost predicate OneTask(c: ClientState, f: Uuid) {
    c.spawns[f] + (if InState(c, f, WaitingAccept) then 1 else 0) <= c.log[InsertedOutgoing(f)]
  }

  /** Entries and tasks as every run leaves them. */
  predicate Sound(c: ClientState) {
    && StoreOk(c.store)
    && (forall f :: f in c.tasks ==> TaskOk(c.tasks[f]))
  }

  ghost predicate ClientOk(c: ClientState) {
    && Sound(c)
    && (forall f: Uuid :: Balanced(c, f))
    && (forall f: Uuid :: OneTask(c, f))
    && (forall f: Uuid :: c.spawns[f] == 0 ==> f !in c.tasks)
  }

  /** Everything that can happen to a client. */
  datatype ClientStep =
    | Start(fileId: Uuid, rid: RequestId, fileName: string, path: string, bytes: seq<byte>, sha256: string,
            targetGroup: Option<string>, targetClient: Option<string>)
    | UserAccept(fileId: Uuid, rid: RequestId)
    | UserReject(fileId: Uuid, rid: RequestId)
    | UserAbort(fileId: Uuid, rid: RequestId)
    | Receive(packet: Packet, savePath: string, rid: RequestId, choice: Uuid)
    | ReceiveFrame(frame: seq<byte>, rid: RequestId)
    | Check(fileId: Uuid)
    | SendFrame(fileId: Uuid)
    | Complete(fileId: Uuid, rid: RequestId)
    | Mark(fileId: Uuid)
    | Reconnect(order: seq<Uuid>)

  ghost predicate Enabled(c: ClientState, s: ClientStep) {
    match s
    case Start(_, _, _, _, bytes, _, _, _) => |bytes| < 0x1_0000_0000_0000_0000
    case Receive(p, _, _, choice) => p.Ack? ==> AckChoice(c.store, p.ack.requestId, choice)
    case Check(f) => f in c.tasks && c.tasks[f].phase.AtCheck?
    case SendFrame(f) => f in c.tasks && c.tasks[f].phase.AtSend?
    case Complete(f, _) => f in c.tasks && c.tasks[f].phase == AtComplete
    case Mark(f) => f in c.tasks && c.tasks[f].phase.AtMark?
    case Reconnect(order) => Enumerates(order, c.store.Keys)
    case _ => true
  }

  /** What the step's own `expect`s, its chunk size and its slice of the file rely on. */
  predicate Expects(c: ClientState, s: ClientStep, digest: seq<byte> -> string) {
    match s
    case UserAccept(f, _) => AcceptExpects(c, f)
    case Receive(p, _, _, choice) => PacketExpects(c, p, digest, choice)
    case Check(f) => f in c.tasks ==> c.tasks[f].chunkSize > 0
    case SendFrame(f) =>
      && ProgressExpects(c, f)
      && (f in c.tasks && c.tasks[f].phase.AtSend? ==>
            c.tasks[f].phase.index * c.tasks[f].chunkSize < |c.tasks[f].bytes|)
    case _ => true
  }

  /** A sound client finds what its handlers expect. */
  lemma SoundExpects(c: ClientState, s: ClientStep, digest: seq<byte> -> string)
    requires Sound(c)
    ensures Expects(c, s, digest)
  {
    if s.SendFrame? && s.fileId in c.tasks && c.tasks[s.fileId].phase.AtSend? {
      IndexInFile(|c.tasks[s.fileId].bytes|, c.tasks[s.fileId].chunkSize, c.tasks[s.fileId].phase.index);
    }
  }

  /** The step's result; a handler error ends the session. */
  ghost function Next(cfg: Config, digest: seq<byte> -> string, c: ClientState, s: ClientStep)
    : Result<ClientState, HandlerError>
    requires Enabled(c, s)
  {
    if !Expects(c, s, digest) then Err(ExpectFailed)
    else
      match s
      case Start(f, rid, fileName, path, bytes, sha256, tg,
          tc) => Ok(StartOutgoing(cfg, c, f, rid, fileName, path, bytes, sha256, tg, tc))
      case UserAccept(f, rid) => Ok(AcceptPending(cfg, c, f, rid))
      case UserReject(f, rid) => Ok(RejectPending(cfg, c, f, rid))
      case UserAbort(f, rid) => Ok(Abort(cfg, c, f, rid))
      case Receive(p, savePath, rid, choice) => Dispatch(cfg, c, p, digest, savePath, rid, choice)
      case ReceiveFrame(frame, rid) => OnFrame(cfg, c, frame, rid)
      case Check(f) => Ok(TaskCheck(c, f))
      case SendFrame(f) => Ok(TaskSend(c, f))
      case Complete(f, rid) => Ok(TaskComplete(cfg, c, f, rid))
      case Mark(f) => Ok(TaskMark(c, f))
      case Reconnect(order) => Ok(ClearForReconnect(c, order))
  }
}
