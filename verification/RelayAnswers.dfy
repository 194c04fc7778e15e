/** What the relay answers to each message (crates/server/src/ws.rs), told by the live connections and the legs alone:
    who is refused and with which code, who receives what, and how the legs change. */
module RelayAnswers {
  import opened Basics
  import opened Packets
  import opened ChunkCodec
  import opened Heartbeats
  import opened Sessions
  import opened Routing
  import opened Transfers
  import opened Relay
  import opened RelayRuns

  // ---------- what reaches the channels ----------

  /** Each open channel of these connections gains exactly these messages, and no other channel changes. */
  predicate Told(r: RelayState, t: RelayState, cs: set<Uuid>, ms: seq<WireMessage>) {
    && t.outbound.Keys == r.outbound.Keys
    && forall d :: d in r.outbound ==> t.outbound[d] == r.outbound[d] + if d in cs then ms else []
  }

  predicate Gains(r: RelayState, t: RelayState, d: Uuid, m: WireMessage) {
    d in r.outbound && d in t.outbound && t.outbound[d] == r.outbound[d] + [m]
  }

  predicate SameConnections(r: RelayState, t: RelayState) {
    t.sessions == r.sessions && t.sockets == r.sockets
  }

  /** The sender is told why, and nothing else happens. */
  predicate Refused(r: RelayState, t: RelayState, c: Uuid, e: ErrorPacket) {
    SameConnections(r, t) && t.registry == r.registry && Told(r, t, {c}, [TextFrame(Error(e))])
  }

  // ---------- addresses ----------

  /** The live members of a group, and the one with the name if one is given. */
  function Members(r: RelayState, group: string, name: Option<string>): set<Uuid> {
    set d | d in r.sessions.connections && r.sessions.connections[d].groupName == group
            && (name.Some? ==> r.sessions.connections[d].clientName == name.value)
  }

  /** The addressed group, by default the sender's own. */
  predicate GroupFor(me: SessionRecord, target: Option<Endpoint>, group: string) {
    match target
    case Some(Endpoint(Some(g), _)) => group == g
    case _ => group == me.groupName
  }

  function NameIn(target: Option<Endpoint>): Option<string> {
    match target
    case Some(Endpoint(_, name)) => name
    case None => None
  }

  /** A named client, or everybody else in the group. */
  function Addressees(r: RelayState, c: Uuid, group: string, name: Option<string>): set<Uuid> {
    if name.Some? then Members(r, group, name) else Members(r, group, None) - {c}
  }

  /** Why a message of this version, kind and address goes nowhere. */
  function AddressError(r: RelayState, version: string, rightKind: bool, group: string, name: Option<string>)
    : Option<ErrorPacket>
  {
    if version != "v3" then Some(ErrorPacket(UnsupportedVersion, None))
    else if !rightKind then Some(ErrorPacket(InvalidMessage, None))
    else if Members(r, group, None) == {} then Some(ErrorPacket(GroupNotFound, None))
    else if name.Some? && Members(r, group, name) == {} then Some(ErrorPacket(ClientNotFound, None))
    else None
  }

  /** Why an event that could be delivered is refused all the same: an offer over a limit, or an accept or a complete
      without a leg. */
  predicate OverLimit(cfg: ServerConfig, m: Metadata) {
    || (m.fileSize.Some? && m.fileSize.value > cfg.maxFileSize)
    || (m.chunkSize.Some? && m.chunkSize.value > cfg.maxChunkSize)
  }

  function EffectError(cfg: ServerConfig, r: RelayState, c: Uuid, p: EventPacket): Option<ErrorPacket> {
    if p.meta.fileId.None? then None
    else
      var f := p.meta.fileId.value;
      if p.eventType == FileOffer && OverLimit(cfg, p.meta) then Some(ErrorPacket(FileTooLarge, Some(f)))
      else if p.eventType == FileAccept && LegKey(f, c) !in r.registry.legs
          then Some(ErrorPacket(FileTransferNotAccepted, None))
      else if p.eventType == FileComplete && forall k :: k in r.registry.legs ==> k.fileId != f
          then Some(ErrorPacket(FileTransferNotAccepted, None))
      else None
  }

  // ---------- how the legs change ----------

  /** No leg of another file has changed. */
  ghost predicate OtherFiles(r: Registry, t: Registry, f: Uuid) {
    forall k: LegKey :: k.fileId != f ==> (k in t.legs <==> k in r.legs) && (k in r.legs ==> t.legs[k] == r.legs[k])
  }

  ghost predicate OfferEntered(r: Registry, t: Registry, f: Uuid, rid: RequestId, c: Uuid, to: set<Uuid>) {
    && t.index == r.index && OtherFiles(r, t, f)
    && (forall d :: LegKey(f, d) in t.legs <==> LegKey(f, d) in r.legs || d in to)
    && (forall d :: d in to ==> t.legs[LegKey(f, d)] == TransferRecord(f, rid, c, d, false))
    && (forall d :: LegKey(f, d) in r.legs && d !in to ==> t.legs[LegKey(f, d)] == r.legs[LegKey(f, d)])
  }

  /** Exactly the accepting receiver's leg is accepted. */
  predicate AcceptEntered(r: Registry, t: Registry, f: Uuid, c: Uuid) {
    && t.index == r.index && t.legs.Keys == r.legs.Keys && LegKey(f, c) in r.legs
    && forall k :: k in r.legs ==> t.legs[k] == if k == LegKey(f, c) then r.legs[k].(accepted := true) else r.legs[k]
  }

  /** The file's legs carry this id. */
  predicate Carried(r: Registry, f: Uuid, q: RequestId) {
    exists k :: k in r.legs && k.fileId == f && r.legs[k].requestId == q
  }

  ghost predicate FileGone(r: Registry, t: Registry, f: Uuid) {
    && OtherFiles(r, t, f) && (forall k :: k in t.legs ==> k.fileId != f)
    && (forall q :: q in t.index <==> q in r.index && !Carried(r, f, q))
    && (forall q :: q in t.index ==> t.index[q] == r.index[q])
  }

  /** Every leg of the file carries the new id, which leads to the file in place of the ids they carried. */
  ghost predicate CompletionEntered(r: Registry, t: Registry, f: Uuid, rid: RequestId) {
    && OtherFiles(r, t, f) && t.legs.Keys == r.legs.Keys
    && (forall k :: k in r.legs && k.fileId == f ==> t.legs[k] == r.legs[k].(requestId := rid))
    && rid in t.index && t.index[rid] == f
    && (forall q :: q != rid ==> (q in t.index <==> q in r.index && !Carried(r, f, q)))
    && (forall q :: q != rid && q in t.index ==> t.index[q] == r.index[q])
  }

  ghost predicate LegsFollow(r: Registry, t: Registry, c: Uuid, p: EventPacket, to: set<Uuid>) {
    if p.meta.fileId.None? then t == r
    else
      var f := p.meta.fileId.value;
      match p.eventType
      case FileOffer => OfferEntered(r, t, f, p.requestId, c, to)
      case FileAccept => AcceptEntered(r, t, f, c)
      case FileReject | FileAbort => FileGone(r, t, f)
      case FileComplete => CompletionEntered(r, t, f, p.requestId)
      case Text | Command | CommandResult | Json => t == r
  }

  // ---------- events ----------

  lemma UnicastTo(r: RelayState, group: string, name: string)
    requires Coherent(r.sessions)
    ensures match ResolveUnicast(r.sessions, group, name)
            case Ok(d) => Members(r, group, Some(name)) == {d} && Members(r, group, None) != {}
            case Err(NoGroup(_)) => Members(r, group, None) == {}
            case Err(NoClient(_, _)) => Members(r, group, None) != {} && Members(r, group, Some(name)) == {}
            case Err(_) => false
  {
    hide Coherent, ResolveUnicast;
    var s := r.sessions;
    UnicastRefinesFlat(s, group, name);
    assert forall d :: d in Members(r, group, None) <==> d in Flat(s) && Flat(s)[d].group == group;
    assert forall d :: d in Members(r, group, Some(name)) <==> d in Flat(s) && Flat(s)[d] == Name(group, name);
  }

  lemma BroadcastTo(r: RelayState, group: string, c: Uuid)
    requires Coherent(r.sessions)
    ensures ResolveBroadcast(r.sessions, group, c) ==
              if Members(r, group, None) == {} then Err(NoGroup(group)) else Ok(Members(r, group, None) - {c})
  {
    hide Coherent, ResolveBroadcast;
    var s := r.sessions;
    BroadcastRefinesFlat(s, group, c);
    assert forall d :: d in Members(r, group, None) <==> d in Flat(s) && Flat(s)[d].group == group;
    assert GroupOthers(s, group, c) == Members(r, group, None) - {c};
  }

  lemma RouteOfEvent(r: RelayState, c: Uuid, p: EventPacket, group: string)
    requires RelayOk(r) && c in r.sockets && GroupFor(r.sockets[c], p.target, group)
    ensures var name := NameIn(p.target);
            match RouteEvent(r.sessions, r.sockets[c], p)
            case Err(e) => Some(ErrorPacketFor(e)) == AddressError(r, p.version, p.kind == EventKind, group, name)
            case Ok(routed) =>
              && AddressError(r, p.version, p.kind == EventKind, group, name) == None
              && routed.recipients == Addressees(r, c, group, name)
              && routed.packet == p.(source := Some(Endpoint(Some(r.sockets[c].groupName),
                                                             Some(r.sockets[c].clientName))),
                                     target := Some(Endpoint(Some(group), name)))
  {
    hide Coherent, ResolveUnicast, ResolveBroadcast, Members, LegsLive;
    var name := NameIn(p.target);
    assert group == TargetGroup(r.sockets[c], p.target) && name == TargetClient(p.target);
    if name.Some? {
      UnicastTo(r, group, name.value);
    } else {
      BroadcastTo(r, group, c);
    }
  }

  lemma EffectOfEvent(cfg: ServerConfig, r: RelayState, c: Uuid, routed: RouteResult)
    requires KeysOk(r.registry) && c in r.sockets && r.sockets[c].connectionId == c
    ensures match SideEffects(cfg, r.registry, r.sockets[c], routed)
            case Err(e) => Some(ErrorPacketFor(e)) == EffectError(cfg, r, c, routed.packet)
            case Ok(t) => EffectError(cfg, r, c, routed.packet) == None
                          && LegsFollow(r.registry, t, c, routed.packet, routed.recipients)
  {
    var p := routed.packet;
    if p.meta.fileId.Some? {
      var f := p.meta.fileId.value;
      match p.eventType
      case FileOffer =>
      case FileAccept =>
      case FileReject | FileAbort => FileGoes(r.registry, f);
      case FileComplete => CompletionEnters(r.registry, f, p.requestId);
      case Text | Command | CommandResult | Json =>
    }
  }

  lemma FileGoes(r: Registry, f: Uuid)
    requires KeysOk(r)
    ensures FileGone(r, RemoveByFile(r, f), f)
  {
    forall q
      ensures q in RequestIds(r, LegsOf(r, f)) <==> Carried(r, f, q)
    {
    }
  }

  lemma CompletionEnters(r: Registry, f: Uuid, rid: RequestId)
    requires KeysOk(r)
    ensures SetComplete(r, f, rid).None? <==> forall k :: k in r.legs ==> k.fileId != f
    ensures SetComplete(r, f, rid).Some? ==> CompletionEntered(r, SetComplete(r, f, rid).value, f, rid)
  {
    forall q
      ensures q in RequestIds(r, LegsOf(r, f)) <==> Carried(r, f, q)
    {
    }
    if SetComplete(r, f, rid).None? {
      forall k | k in r.legs
        ensures k.fileId != f
      {
        assert k !in LegsOf(r, f);
      }
    } else {
      var k :| k in LegsOf(r, f);
      assert k in r.legs && k.fileId == f;
    }
  }

  /** Every event, whoever sends it and whatever it says: it is refused exactly for a wrong version or kind, an address
      nobody live answers to, an offer over a limit, or an accept or complete without a leg, and then only the sender
      hears of it. Otherwise each addressee with an open channel gains exactly this packet, with source and target
      filled in, nobody else gains anything, and the legs follow. */
  lemma EventAnswered(cfg: ServerConfig, r: RelayState, c: Uuid, p: EventPacket, group: string)
    requires RelayOk(r) && c in r.sockets && GroupFor(r.sockets[c], p.target, group)
    ensures var t := Next(cfg, r, EventIn(c, p));
            var name := NameIn(p.target);
            var lost := AddressError(r, p.version, p.kind == EventKind, group, name);
            var refused := EffectError(cfg, r, c, p);
            if lost.Some? then Refused(r, t, c, lost.value)
            else if refused.Some? then Refused(r, t, c, refused.value)
            else
              var to := Addressees(r, c, group, name);
              var from := Endpoint(Some(r.sockets[c].groupName), Some(r.sockets[c].clientName));
              && SameConnections(r, t) && LegsFollow(r.registry, t.registry, c, p, to)
              && Told(r, t, to,
                      [TextFrame(Event(p.(source := Some(from), target := Some(Endpoint(Some(group), name)))))])
  {
    hide RouteEvent, SideEffects, RelayOk, LegsFollow, AddressError, EffectError;
    RouteOfEvent(r, c, p, group);
    RelayFacts(r, c);
    var routed := RouteEvent(r.sessions, r.sockets[c], p);
    if routed.Ok? {
      EffectOfEvent(cfg, r, c, routed.value);
      SameEffect(cfg, r, c, p, routed.value.packet, routed.value.recipients);
    }
  }

  lemma RelayFacts(r: RelayState, c: Uuid)
    requires RelayOk(r) && c in r.sockets
    ensures KeysOk(r.registry) && r.sockets[c].connectionId == c
  {
  }

  /** Source and target decide nothing about the legs. */
  lemma SameEffect(cfg: ServerConfig, r: RelayState, c: Uuid, p: EventPacket, q: EventPacket, to: set<Uuid>)
    requires q.meta == p.meta && q.eventType == p.eventType && q.requestId == p.requestId
    ensures EffectError(cfg, r, c, q) == EffectError(cfg, r, c, p)
    ensures forall t :: LegsFollow(r.registry, t, c, q, to) == LegsFollow(r.registry, t, c, p, to)
  {
  }

  // ---------- limits ----------

  /** This input offered the file within both limits. */
  predicate OfferedWithin(cfg: ServerConfig, i: Input, f: Uuid) {
    && i.EventIn? && i.event.eventType == FileOffer && i.event.meta.fileId == Some(f)
    && (i.event.meta.fileSize.Some? ==> i.event.meta.fileSize.value <= cfg.maxFileSize)
    && (i.event.meta.chunkSize.Some? ==> i.event.meta.chunkSize.value <= cfg.maxChunkSize)
  }

  /** In every run: each leg goes back to its sender's offer, which kept both limits. */
  lemma LegsWithinLimits(cfg: ServerConfig, inputs: seq<Input>, states: seq<RelayState>, n: nat, k: LegKey)
    requires IsRun(cfg, inputs, states) && n <= |inputs| && k in states[n].registry.legs
    ensures exists i :: 0 <= i < n && OfferedWithin(cfg, inputs[i], k.fileId)
                        && inputs[i].c == states[n].registry.legs[k].sender
  {
    hide Offers, Disturbs, Accepts;
    LegHistory(cfg, inputs, states, n, k);
    var i: nat :| OfferedSince(cfg, inputs, states, i, n, k, states[n].registry.legs[k]);
    OfferWithin(cfg, states[i], inputs[i], k.fileId, states[n].registry.legs[k].sender, k.receiver);
  }

  lemma OfferWithin(cfg: ServerConfig, r: RelayState, i: Input, f: Uuid, sender: Uuid, receiver: Uuid)
    requires Offers(cfg, r, i, f, sender, receiver)
    ensures OfferedWithin(cfg, i, f) && i.c == sender
  {
    hide RouteEvent;
  }

  // ---------- acks ----------

  /** Only a named live client can be acked. The ack of a completion ends the file its id leads to; any other ack is
      only passed on. */
  lemma AckAnswered(cfg: ServerConfig, r: RelayState, c: Uuid, a: AckPacket, group: string)
    requires RelayOk(r) && c in r.sockets && GroupFor(r.sockets[c], a.target, group)
    ensures var t := Next(cfg, r, AckIn(c, a));
            var name := NameIn(a.target);
            var from := Endpoint(Some(r.sockets[c].groupName), Some(r.sockets[c].clientName));
            var lost := AddressError(r, a.version, a.kind == AckKind, group, name);
            if a.version == "v3" && a.kind == AckKind && name.None?
            then Refused(r, t, c, ErrorPacket(ClientNotFound, None))
            else if lost.Some? then Refused(r, t, c, lost.value)
            else
              && SameConnections(r, t)
              && Told(r, t, Members(r, group, name),
                      [TextFrame(Ack(a.(source := Some(from), target := Some(Endpoint(Some(group), name)))))])
              && (if a.refType == Some(FileComplete) && a.requestId in r.registry.index
                  then AckEntered(r.registry, t.registry, a.requestId) else t.registry == r.registry)
  {
    hide RouteAck, RelayOk, AddressError, RemoveByRequest;
    RelayFacts(r, c);
    RouteOfAck(r, c, a, group);
    AckedGoes(r.registry, a.requestId);
  }

  lemma RouteOfAck(r: RelayState, c: Uuid, a: AckPacket, group: string)
    requires RelayOk(r) && c in r.sockets && GroupFor(r.sockets[c], a.target, group)
    ensures var name := NameIn(a.target);
            var lost := AddressError(r, a.version, a.kind == AckKind, group, name);
            match RouteAck(r.sessions, r.sockets[c], a)
            case Err(e) =>
              Some(ErrorPacketFor(e)) == if a.version == "v3" && a.kind == AckKind && name.None?
                                         then Some(ErrorPacket(ClientNotFound, None)) else lost
            case Ok(routed) =>
              && name.Some? && lost == None && Members(r, group, name) == {routed.recipient}
              && routed.packet == a.(source := Some(Endpoint(Some(r.sockets[c].groupName),
                                                             Some(r.sockets[c].clientName))),
                                     target := Some(Endpoint(Some(group), name)))
  {
    hide Coherent, ResolveUnicast, Members, LegsLive;
    var name := NameIn(a.target);
    assert group == TargetGroup(r.sockets[c], a.target) && name == TargetClient(a.target);
    if name.Some? {
      UnicastTo(r, group, name.value);
    }
  }

  lemma AckedGoes(r: Registry, q: RequestId)
    requires KeysOk(r)
    ensures if q in r.index then AckEntered(r, RemoveByRequest(r, q), q) else RemoveByRequest(r, q) == r
  {
  }

  ghost predicate AckEntered(r: Registry, t: Registry, q: RequestId)
    requires q in r.index
  {
    && OtherFiles(r, t, r.index[q]) && (forall k :: k in t.legs ==> k.fileId != r.index[q])
    && t.index == r.index - {q}
  }

  // ---------- frames ----------

  /** The connections that get a frame of this file from this sender: registered, with the leg accepted and the channel
      open. */
  function Takers(r: RelayState, f: Uuid, c: Uuid): set<Uuid> {
    set d | d in r.outbound && d in r.sessions.connections && LegKey(f, d) in r.registry.legs
            && r.registry.legs[LegKey(f, d)].sender == c && r.registry.legs[LegKey(f, d)].accepted
  }

  /** Every frame that decodes reaches each of its takers, byte for byte and once, and nobody else; without a taker, or
      when it does not decode, the sender alone hears an error. */
  lemma FrameAnswered(cfg: ServerConfig, r: RelayState, c: Uuid, bytes: seq<byte>)
    requires RelayOk(r) && c in r.sockets
    ensures var t := Next(cfg, r, BinaryIn(c, bytes));
            match Decode(bytes)
            case None => Refused(r, t, c, ErrorPacket(InvalidMessage, None))
            case Some((h, _)) =>
              if Takers(r, h.fileId, c) == {} then Refused(r, t, c, ErrorPacket(FileTransferNotAccepted, None))
              else
                SameConnections(r, t) && t.registry == r.registry
                && Told(r, t, Takers(r, h.fileId, c), [BinaryFrame(bytes)])
  {
    hide Decode, FrameReceivers, Coherent, LegsLive, KeysOk, Takers;
    RelayFacts(r, c);
    if Decode(bytes).Some? {
      var f := Decode(bytes).value.0.fileId;
      ReceiversAre(r, c, f);
    }
  }

  lemma ReceiversAre(r: RelayState, c: Uuid, f: Uuid)
    requires RelayOk(r)
    ensures FrameReceivers(r, f, c) * r.outbound.Keys == Takers(r, f, c)
  {
    forall d | d in Takers(r, f, c)
      ensures d in FrameReceivers(r, f, c)
    {
      assert LegKey(f, d) in AcceptedLegs(r.registry, f, c);
    }
    forall d | d in FrameReceivers(r, f, c)
      ensures LegKey(f, d) in AcceptedLegs(r.registry, f, c) && d in r.sessions.connections
    {
      var k :| k in AcceptedLegs(r.registry, f, c) && r.registry.legs[k].receiver == d;
      assert k == LegKey(f, d);
    }
  }

  /** A leg whose receiver is registered with an open channel carries every frame of its sender's, as soon as it is
      accepted and as long as it is. */
  lemma AcceptedMeansForwarded(cfg: ServerConfig, r: RelayState, k: LegKey, bytes: seq<byte>)
    requires RelayOk(r) && k in r.registry.legs && r.registry.legs[k].accepted && k.receiver in r.outbound
    requires Decode(bytes).Some? && Decode(bytes).value.0.fileId == k.fileId
    ensures var c := r.registry.legs[k].sender;
            c in r.sockets && Gains(r, Next(cfg, r, BinaryIn(c, bytes)), k.receiver, BinaryFrame(bytes))
  {
    hide Decode, Coherent, HandleBinary;
    var c := r.registry.legs[k].sender;
    assert k == LegKey(k.fileId, k.receiver);
    assert k.receiver in Takers(r, k.fileId, c);
    FrameAnswered(cfg, r, c, bytes);
  }

  // ---------- connections ----------

  /** A registration succeeds exactly when no live connection has the name, and then adds exactly that connection and
      greets it. */
  lemma InitAnswered(cfg: ServerConfig, r: RelayState, rec: SessionRecord)
    requires RelayOk(r) && Possible(r, Init(rec))
    ensures var t := Next(cfg, r, Init(rec));
            && t.registry == r.registry
            && (if Members(r, rec.groupName, Some(rec.clientName)) != {} then t == r
                else
                  && t.sessions.connections == r.sessions.connections[rec.connectionId := rec]
                  && t.sockets == r.sockets[rec.connectionId := rec]
                  && t.outbound == r.outbound[rec.connectionId := [TextFrame(InitAck)]])
  {
    RegisterRefinesFlat(r.sessions, rec);
    assert forall d :: d in Members(r, rec.groupName, Some(rec.clientName))
                       <==> d in Flat(r.sessions) && Flat(r.sessions)[d] == Name(rec.groupName, rec.clientName);
  }

  /** A heartbeat stamps the connection and no other, and is acked. */
  lemma HeartbeatAnswered(cfg: ServerConfig, r: RelayState, c: Uuid, now: int)
    requires RelayOk(r) && c in r.sockets
    ensures var t := Next(cfg, r, Heartbeat(c, now));
            && t.registry == r.registry && t.sockets == r.sockets && Told(r, t, {c}, [TextFrame(HeartbeatAck)])
            && t.sessions.connections.Keys == r.sessions.connections.Keys
            && (forall d :: d in r.sessions.connections ==>
                  t.sessions.connections[d] == if d == c then r.sessions.connections[d].(lastHeartbeatAt := now)
                                               else r.sessions.connections[d])
            && (c in r.sessions.connections ==>
                  var me := r.sessions.connections[c];
                  && Holds(t.sessions.groups, me.groupName, me.clientName)
                  && t.sessions.groups[me.groupName][me.clientName].lastHeartbeatAt == now)
  {
  }

  /** An expired connection is told so and closed, leaves the store, and no other connection does. */
  lemma ExpiryAnswered(cfg: ServerConfig, r: RelayState, c: Uuid, order: seq<LegKey>)
    requires RelayOk(r) && Possible(r, Expired(c, order))
    ensures var t := Next(cfg, r, Expired(c, order));
            && t.sessions.connections == r.sessions.connections - {c} && t.sockets == r.sockets
            && (c in r.outbound ==>
                  && c in t.outbound
                  && t.outbound[c]
                     == r.outbound[c] + [TextFrame(Error(ErrorPacket(ErrorCode.HeartbeatTimeout, None))), CloseFrame])
  {
    hide Coherent, RemoveSession, SocketsOk, LegsLive, KeysOk, Notify, RemoveByConnection, NoticesTo;
    var told := Push(Reply(r.(sessions := RemoveSession(r.sessions, c)), c, TimedOut), c, CloseFrame);
    var gone := r.sessions.connections[c];
    RemoveKeeps(r.sessions, c);
    NotifyAppends(told.sessions, told.outbound, gone, RecordsOf(r.registry, order));
    NoticesAreAborts(told.sessions, gone, RecordsOf(r.registry, order), c);
    if c in r.outbound {
      assert told.outbound[c]
          == r.outbound[c] + [TextFrame(Error(ErrorPacket(ErrorCode.HeartbeatTimeout, None)))] + [CloseFrame];
    }
  }
}
