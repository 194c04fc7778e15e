/** The relay (crates/server/src/ws.rs): each handler as a function on its whole state, one handler a step. */
module Relay {
  import opened Basics
  import opened Packets
  import opened ChunkCodec
  import opened Sessions
  import opened Routing
  import opened Transfers

  datatype ServerConfig = ServerConfig(heartbeatTimeoutSec: u64, maxFileSize: u64, maxChunkSize: u32)

  /** `outbound` holds the open outbound channels; `sockets` the session variable of every socket whose init succeeded
      and whose receive loop still runs. */
  datatype RelayState = RelayState(
    sessions: Sessions, registry: Registry, outbound: map<Uuid, seq<WireMessage>>, sockets: map<Uuid, SessionRecord>)

  const FRESH_RELAY := RelayState(NO_SESSIONS, Transfers.EMPTY, map[], map[])

  // ---------- sending ----------

  function PushTo(out: map<Uuid, seq<WireMessage>>, c: Uuid, m: WireMessage): map<Uuid, seq<WireMessage>> {
    if c in out then out[c := out[c] + [m]] else out
  }

  function PushToAll(out: map<Uuid, seq<WireMessage>>, cs: set<Uuid>, m: WireMessage): map<Uuid, seq<WireMessage>> {
    map c | c in out :: if c in cs then out[c] + [m] else out[c]
  }

  function Push(r: RelayState, c: Uuid, m: WireMessage): RelayState {
    r.(outbound := PushTo(r.outbound, c, m))
  }

  function ErrorPacketFor(e: ServerError): ErrorPacket {
    match e
    case UnsupportedVersionError(_) => ErrorPacket(UnsupportedVersion, None)
    case InvalidPacketKindError => ErrorPacket(InvalidMessage, None)
    case DuplicateName(_, _) => ErrorPacket(DuplicateClientName, None)
    case NoClient(_, _) => ErrorPacket(ClientNotFound, None)
    case NoGroup(_) => ErrorPacket(GroupNotFound, None)
    case TooLarge(f, _, _) => ErrorPacket(FileTooLarge, Some(f))
    case TimedOut => ErrorPacket(HeartbeatTimeout, None)
    case NotAccepted => ErrorPacket(FileTransferNotAccepted, None)
    case BadChunk => ErrorPacket(InvalidMessage, None)
  }

  function Reply(r: RelayState, c: Uuid, e: ServerError): RelayState {
    Push(r, c, TextFrame(Error(ErrorPacketFor(e))))
  }

  // ---------- events ----------

  function OfferLimits(cfg: ServerConfig, meta: Metadata, f: Uuid): Result<(), ServerError> {
    if meta.fileSize.Some?
       && meta.fileSize.value > cfg.maxFileSize then Err(TooLarge(f, meta.fileSize.value, cfg.maxFileSize))
    else if meta.chunkSize.Some?
        && meta.chunkSize.value > cfg.maxChunkSize then Err(TooLarge(f, meta.chunkSize.value, cfg.maxChunkSize))
    else Ok(())
  }

  function OfferToAll(r: Registry, f: Uuid, rid: RequestId, sender: Uuid, receivers: set<Uuid>): Registry {
    r.(legs := map k | k in r.legs.Keys + (set c | c in receivers :: LegKey(f, c)) ::
                 if k.fileId == f
                    && k.receiver in receivers then TransferRecord(f, rid, sender, k.receiver, false) else r.legs[k])
  }

  /** `apply_transfer_event_side_effects`. */
  function SideEffects(cfg: ServerConfig, r: Registry, active: SessionRecord, routed: RouteResult): Result<Registry,
                       ServerError>
  {
    var meta := routed.packet.meta;
    if meta.fileId.None? then Ok(r)
    else
      var f := meta.fileId.value;
      match routed.packet.eventType
      case FileOffer =>
        var limits := OfferLimits(cfg, meta, f);
        if limits.Err? then Err(limits.error)
        else Ok(OfferToAll(r, f, routed.packet.requestId, active.connectionId, routed.recipients))
      case FileAccept =>
        var marked := MarkAccepted(r, f, active.connectionId);
        if marked.None? then Err(NotAccepted) else Ok(marked.value)
      case FileReject | FileAbort => Ok(RemoveByFile(r, f))
      case FileComplete =>
        var completed := SetComplete(r, f, routed.packet.requestId);
        if completed.None? then Err(NotAccepted) else Ok(completed.value)
      case Text | Command | CommandResult | Json => Ok(r)
  }

  function HandleEvent(cfg: ServerConfig, r: RelayState, active: SessionRecord, p: EventPacket): RelayState {
    match RouteEvent(r.sessions, active, p)
    case Err(e) => Reply(r, active.connectionId, e)
    case Ok(routed) =>
      match SideEffects(cfg, r.registry, active, routed)
      case Err(e) => Reply(r, active.connectionId, e)
      case Ok(registry) =>
        r.(registry := registry, outbound := PushToAll(r.outbound, routed.recipients, TextFrame(Event(routed.packet))))
  }

  function HandleAck(r: RelayState, active: SessionRecord, a: AckPacket): RelayState {
    match RouteAck(r.sessions, active, a)
    case Err(e) => Reply(r, active.connectionId, e)
    case Ok(routed) =>
      var registry := if a.refType == Some(FileComplete) then RemoveByRequest(r.registry, a.requestId) else r.registry;
      Push(r.(registry := registry), routed.recipient, TextFrame(Ack(routed.packet)))
  }

  // ---------- frames ----------

  /** The receivers of a frame: registered receivers of accepted legs of its sender. */
  function FrameReceivers(r: RelayState, f: Uuid, sender: Uuid): set<Uuid> {
    set k | k in AcceptedLegs(r.registry, f, sender) && r.registry.legs[k].receiver in r.sessions.connections
      :: r.registry.legs[k].receiver
  }

  function HandleBinary(r: RelayState, active: SessionRecord, bytes: seq<byte>): RelayState {
    var decoded := Decode(bytes);
    if decoded.None? then Reply(r, active.connectionId, BadChunk)
    else
      var receivers := FrameReceivers(r, decoded.value.0.fileId, active.connectionId);
      if receivers * r.outbound.Keys == {} then Reply(r, active.connectionId, NotAccepted)
      else r.(outbound := PushToAll(r.outbound, receivers, BinaryFrame(bytes)))
  }

  // ---------- connections coming and going ----------

  function HandleInit(r: RelayState, rec: SessionRecord): RelayState {
    match AddSession(r.sessions, rec)
    case Err(_) => r
    case Ok(s) =>
      RelayState(s, r.registry, r.outbound[rec.connectionId := [TextFrame(InitAck)]],
          r.sockets[rec.connectionId := rec])
  }

  function HandleHeartbeat(r: RelayState, c: Uuid, now: int): RelayState {
    Push(r.(sessions := TouchSession(r.sessions, c, now)), c, TextFrame(HeartbeatAck))
  }

  function OtherEnd(rec: TransferRecord, c: Uuid): Uuid {
    if rec.sender == c then rec.receiver else rec.sender
  }

  function DisconnectNotice(s: Sessions, gone: SessionRecord, rec: TransferRecord): WireMessage
    requires OtherEnd(rec, gone.connectionId) in s.connections
  {
    TextFrame(Event(EventFrom(gone.Endpoint(), s.connections[OtherEnd(rec, gone.connectionId)].Endpoint(),
                              UNREFERENCED, FileAbort, FileMeta(rec.fileId))))
  }

  /** One notice to the other end of each removed leg that is still registered, in the order the legs come. */
  function Notify(s: Sessions, out: map<Uuid, seq<WireMessage>>, gone: SessionRecord, legs: seq<TransferRecord>)
    : map<Uuid, seq<WireMessage>>
  {
    if legs == [] then out
    else
      var n := |legs| - 1;
      var before := Notify(s, out, gone, legs[..n]);
      var peer := OtherEnd(legs[n], gone.connectionId);
      if peer in s.connections then PushTo(before, peer, DisconnectNotice(s, gone, legs[n])) else before
  }

  function RecordsOf(r: Registry, order: seq<LegKey>): seq<TransferRecord>
    requires forall k :: k in order ==> k in r.legs
  {
    seq(|order|, i requires 0 <= i < |order| => r.legs[order[i]])
  }

  /** `cleanup_related_transfers`, the legs coming out of the hash map in some order. */
  ghost function Cleanup(r: RelayState, gone: SessionRecord, order: seq<LegKey>): RelayState
    requires Lists(order, LegsNaming(r.registry, gone.connectionId))
  {
    r.(registry := RemoveByConnection(r.registry, gone.connectionId),
       outbound := Notify(r.sessions, r.outbound, gone, RecordsOf(r.registry, order)))
  }

  /** The sweeper removing one expired connection: its socket task lives on. */
  ghost function Expire(r: RelayState, c: Uuid, order: seq<LegKey>): RelayState
    requires c in r.sessions.connections && Lists(order, LegsNaming(r.registry, c))
    requires r.sessions.connections[c].connectionId == c
  {
    var gone := r.sessions.connections[c];
    var told := Push(Reply(r.(sessions := RemoveSession(r.sessions, c)), c, TimedOut), c, CloseFrame);
    Cleanup(told, gone, order)
  }

  /** The receive loop ending. */
  ghost function CloseSocket(r: RelayState, c: Uuid, order: seq<LegKey>): RelayState
    requires c in r.sockets && r.sockets[c].connectionId == c && Lists(order, LegsNaming(r.registry, c))
  {
    Cleanup(r.(sessions := RemoveSession(r.sessions, c), sockets := r.sockets - {c}), r.sockets[c], order)
  }

  // ---------- steps and runs ----------

  datatype Input =
    | Init(rec: SessionRecord)
    | Heartbeat(c: Uuid, now: int)
    | EventIn(c: Uuid, event: EventPacket)
    | AckIn(c: Uuid, ack: AckPacket)
    | BinaryIn(c: Uuid, bytes: seq<byte>)
    | Expired(c: Uuid, order: seq<LegKey>)
    | Closed(c: Uuid, order: seq<LegKey>)
    | WriterEnded(c: Uuid)

  /** Messages come from sockets whose init succeeded; a new connection id is a fresh UUID. */
  ghost predicate Possible(r: RelayState, i: Input) {
    match i
    case Init(rec) => rec.connectionId !in r.sockets && rec.connectionId !in r.sessions.connections
                      && rec.connectionId !in r.outbound
    case Heartbeat(c, _) => c in r.sockets
    case EventIn(c, _) => c in r.sockets
    case AckIn(c, _) => c in r.sockets
    case BinaryIn(c, _) => c in r.sockets
    case Expired(c, order) => c in r.sessions.connections && r.sessions.connections[c].connectionId == c
                              && Lists(order, LegsNaming(r.registry, c))
    case Closed(c, order) => c in r.sockets && r.sockets[c].connectionId == c && Lists(order, LegsNaming(r.registry, c))
    case WriterEnded(c) => true
  }

  ghost function Next(cfg: ServerConfig, r: RelayState, i: Input): RelayState
    requires Possible(r, i)
  {
    match i
    case Init(rec) => HandleInit(r, rec)
    case Heartbeat(c, now) => HandleHeartbeat(r, c, now)
    case EventIn(c, p) => HandleEvent(cfg, r, r.sockets[c], p)
    case AckIn(c, a) => HandleAck(r, r.sockets[c], a)
    case BinaryIn(c, bytes) => HandleBinary(r, r.sockets[c], bytes)
    case Expired(c, order) => Expire(r, c, order)
    case Closed(c, order) => CloseSocket(r, c, order)
    case WriterEnded(c) => r.(outbound := r.outbound - {c})
  }

  /** A run from the fresh relay, whatever its clients send: one more state than inputs. */
  ghost predicate IsRun(cfg: ServerConfig, inputs: seq<Input>, states: seq<RelayState>) {
    && |states| == |inputs| + 1
    && states[0] == FRESH_RELAY
    && forall i :: 0 <= i < |inputs| ==>
         Possible(states[i], inputs[i]) && states[i + 1] == Next(cfg, states[i], inputs[i])
  }
}
