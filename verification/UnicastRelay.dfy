/** The relay's part in a unicast file: messages about other files leave it alone, and messages about it go
    to its other end. */
module UnicastRelay {
  import opened Basics
  import opened Packets
  import opened Sessions
  import opened Routing
  import opened Transfers
  import ChunkCodec
  import opened FileMessages
  import opened UnicastProtocol
  import opened UnicastEnds
  import R = Relay
  import RR = RelayRuns

  /** Legs carry ids drawn for their own file; the index maps a file's completion id to the file. */
  predicate IdsKnown(drawn: map<RequestId, Uuid>, done: Done, r: Registry) {
    && KeysOk(r)
    && (forall k :: k in r.legs ==> r.legs[k].requestId in drawn && drawn[r.legs[k].requestId] == k.fileId)
    && (forall q :: q in r.index ==> r.index[q] in done && q == done[r.index[q]])
    && (forall g :: g in done ==> done[g] in drawn && drawn[done[g]] == g)
  }

  predicate Indexed(done: Done, f: Uuid, r: Registry) {
    f in done && done[f] in r.index
  }

  /** The file has at most the one leg between its two ends, and is indexed only while that leg carries its completion
      id. */
  predicate RegistryTidy(done: Done, f: Uuid, r: Registry, sender: Uuid, receiver: Option<Uuid>) {
    && (forall k :: k in r.legs && k.fileId == f ==> receiver == Some(k.receiver) && r.legs[k].sender == sender)
    && (Indexed(done, f, r) ==>
          && receiver.Some? && LegKey(f, receiver.value) in r.legs
          && r.legs[LegKey(f, receiver.value)].requestId == done[f])
  }

  /** Nothing about the file changed. */
  predicate SameForFile(done: Done, f: Uuid, r: Registry, t: Registry) {
    && (forall k :: k in r.legs && k.fileId == f ==> k in t.legs && t.legs[k] == r.legs[k])
    && (forall k :: k in t.legs && k.fileId == f ==> k in r.legs)
    && (Indexed(done, f, t) <==> Indexed(done, f, r))
  }

  lemma SameStaysTidy(done: Done, f: Uuid, r: Registry, t: Registry, sender: Uuid, receiver: Option<Uuid>)
    requires SameForFile(done, f, r, t) && RegistryTidy(done, f, r, sender, receiver)
    ensures RegistryTidy(done, f, t, sender, receiver)
  {
  }

  /** Channels only gain messages that are not about the file. */
  predicate QuietOut(done: Done, f: Uuid, out: map<Uuid, seq<WireMessage>>, next: map<Uuid, seq<WireMessage>>) {
    forall c :: c in next ==> c in out && out[c] <= next[c] && QuietAll(done, f, next[c][|out[c]|..])
  }

  lemma PushQuiet(done: Done, f: Uuid, out: map<Uuid, seq<WireMessage>>, c: Uuid, m: WireMessage)
    requires WireMsg(done, f, m) == []
    ensures QuietOut(done, f, out, R.PushTo(out, c, m))
  {
    assert c in out ==> R.PushTo(out, c, m)[c][|out[c]|..] == [m];
  }

  lemma PushAllQuiet(done: Done, f: Uuid, out: map<Uuid, seq<WireMessage>>, cs: set<Uuid>, m: WireMessage)
    requires WireMsg(done, f, m) == []
    ensures QuietOut(done, f, out, R.PushToAll(out, cs, m))
  {
    var next := R.PushToAll(out, cs, m);
    assert forall c :: c in next && c in cs ==> next[c][|out[c]|..] == [m];
    assert forall c :: c in next && c !in cs ==> next[c][|out[c]|..] == [];
  }

  lemma QuietTwice(done: Done, f: Uuid, a: map<Uuid, seq<WireMessage>>, b: map<Uuid, seq<WireMessage>>,
                   c: map<Uuid, seq<WireMessage>>)
    requires QuietOut(done, f, a, b) && QuietOut(done, f, b, c)
    ensures QuietOut(done, f, a, c)
  {
    forall d | d in c
      ensures a[d] <= c[d] && QuietAll(done, f, c[d][|a[d]|..])
    {
      assert c[d][|a[d]|..] == b[d][|a[d]|..] + c[d][|b[d]|..];
    }
  }

  lemma {:induction false} NoticesQuiet(done: Done, f: Uuid, s: Sessions, out: map<Uuid, seq<WireMessage>>,
                                        gone: SessionRecord, legs: seq<TransferRecord>)
    requires forall i :: 0 <= i < |legs| ==> legs[i].fileId != f
    ensures QuietOut(done, f, out, R.Notify(s, out, gone, legs))
  {
    if legs != [] {
      var n := |legs| - 1;
      NoticesQuiet(done, f, s, out, gone, legs[..n]);
      var before := R.Notify(s, out, gone, legs[..n]);
      var peer := R.OtherEnd(legs[n], gone.connectionId);
      if peer in s.connections {
        PushQuiet(done, f, before, peer, R.DisconnectNotice(s, gone, legs[n]));
        QuietTwice(done, f, out, before, R.PushTo(before, peer, R.DisconnectNotice(s, gone, legs[n])));
      }
    }
  }

  // ---------- the registry and other files ----------

  lemma DropOther(drawn: map<RequestId, Uuid>, done: Done, f: Uuid, r: Registry, keys: set<LegKey>)
    requires IdsKnown(drawn, done, r) && forall k :: k in keys && k in r.legs ==> k.fileId != f
    ensures SameForFile(done, f, r, Drop(r, keys))
  {
    forall k | k in keys && k in r.legs && f in done
      ensures r.legs[k].requestId != done[f]
    {
      assert drawn[r.legs[k].requestId] == k.fileId;
    }
  }

  lemma CompleteOtherFile(drawn: map<RequestId, Uuid>, done: Done, f: Uuid, r: Registry, g: Uuid, rid: RequestId)
    requires IdsKnown(drawn, done, r) && g != f && g in done && done[g] == rid && SetComplete(r, g, rid).Some?
    ensures SameForFile(done, f, r, SetComplete(r, g, rid).value)
  {
    forall k | k in LegsOf(r, g) && f in done
      ensures r.legs[k].requestId != done[f]
    {
      assert drawn[r.legs[k].requestId] == k.fileId;
    }
  }

  lemma AckOtherFile(drawn: map<RequestId, Uuid>, done: Done, f: Uuid, r: Registry, rid: RequestId)
    requires IdsKnown(drawn, done, r) && !(f in done && rid == done[f])
    ensures SameForFile(done, f, r, RemoveByRequest(r, rid))
  {
  }

  lemma SideEffectsOther(drawn: map<RequestId, Uuid>, done: Done, f: Uuid, cfg: R.ServerConfig, r: Registry,
                         active: SessionRecord, routed: RouteResult)
    requires IdsKnown(drawn, done, r) && MsgOf(done, f, Event(routed.packet)) == []
    requires CompleteKnown(done, Event(routed.packet))
    requires R.SideEffects(cfg, r, active, routed).Ok?
    ensures SameForFile(done, f, r, R.SideEffects(cfg, r, active, routed).value)
  {
    if routed.packet.meta.fileId.Some? {
      var g := routed.packet.meta.fileId.value;
      match routed.packet.eventType {
        case FileReject => DropOther(drawn, done, f, r, LegsOf(r, g));
        case FileAbort => DropOther(drawn, done, f, r, LegsOf(r, g));
        case FileComplete => CompleteOtherFile(drawn, done, f, r, g, routed.packet.requestId);
        case _ =>
      }
    }
  }

  // ---------- handlers and other files ----------

  lemma EventOther(drawn: map<RequestId, Uuid>, done: Done, f: Uuid, cfg: R.ServerConfig, r: R.RelayState,
                   active: SessionRecord, e: EventPacket)
    requires IdsKnown(drawn, done, r.registry) && MsgOf(done, f, Event(e)) == [] && CompleteKnown(done, Event(e))
    requires e.eventType == FileOffer ==> e.meta.fileId.Some?
    ensures var t := R.HandleEvent(cfg, r, active, e);
            SameForFile(done, f, r.registry, t.registry) && QuietOut(done, f, r.outbound, t.outbound)
                && t.sessions == r.sessions
  {
    var routing := RouteEvent(r.sessions, active, e);
    if routing.Ok? {
      RR.RoutedKeepsContent(r.sessions, active, e);
      var effects := R.SideEffects(cfg, r.registry, active, routing.value);
      if effects.Ok? {
        SideEffectsOther(drawn, done, f, cfg, r.registry, active, routing.value);
        PushAllQuiet(done, f, r.outbound, routing.value.recipients, TextFrame(Event(routing.value.packet)));
      } else {
        ReplyQuiet(done, f, cfg, r, active, routing.value);
      }
    } else {
      PushQuiet(done, f, r.outbound, active.connectionId, TextFrame(Error(R.ErrorPacketFor(routing.error))));
    }
  }

  lemma ReplyQuiet(done: Done, f: Uuid, cfg: R.ServerConfig, r: R.RelayState, active: SessionRecord,
                   routed: RouteResult)
    requires R.SideEffects(cfg, r.registry, active, routed).Err? && MsgOf(done, f, Event(routed.packet)) == []
    ensures QuietOut(done, f, r.outbound,
            R.Reply(r, active.connectionId, R.SideEffects(cfg, r.registry, active, routed).error).outbound)
  {
    var e := R.SideEffects(cfg, r.registry, active, routed).error;
    PushQuiet(done, f, r.outbound, active.connectionId, TextFrame(Error(R.ErrorPacketFor(e))));
  }

  lemma AckOther(drawn: map<RequestId, Uuid>, done: Done, f: Uuid, r: R.RelayState, active: SessionRecord, a: AckPacket)
    requires IdsKnown(drawn, done, r.registry) && MsgOf(done, f, Ack(a)) == []
    ensures var t := R.HandleAck(r, active, a);
            SameForFile(done, f, r.registry, t.registry) && QuietOut(done, f, r.outbound, t.outbound)
                && t.sessions == r.sessions
  {
    var routing := RouteAck(r.sessions, active, a);
    if routing.Ok? {
      if a.refType == Some(FileComplete) {
        AckOtherFile(drawn, done, f, r.registry, a.requestId);
      }
      PushQuiet(done, f, r.outbound, routing.value.recipient, TextFrame(Ack(routing.value.packet)));
    } else {
      PushQuiet(done, f, r.outbound, active.connectionId, TextFrame(Error(R.ErrorPacketFor(routing.error))));
    }
  }

  lemma BinaryOther(done: Done, f: Uuid, r: R.RelayState, active: SessionRecord, bytes: seq<byte>)
    ensures var t := R.HandleBinary(r, active, bytes);
            t.registry == r.registry && QuietOut(done, f, r.outbound, t.outbound) && t.sessions == r.sessions
  {
    PushQuiet(done, f, r.outbound, active.connectionId, TextFrame(Error(R.ErrorPacketFor(BadChunk))));
    PushQuiet(done, f, r.outbound, active.connectionId, TextFrame(Error(R.ErrorPacketFor(NotAccepted))));
    var decoded := ChunkCodec.Decode(bytes);
    if decoded.Some? {
      PushAllQuiet(done, f, r.outbound, R.FrameReceivers(r, decoded.value.0.fileId, active.connectionId),
                   BinaryFrame(bytes));
    }
  }

  lemma CleanupOther(drawn: map<RequestId, Uuid>, done: Done, f: Uuid, r: R.RelayState, gone: SessionRecord,
                     order: seq<LegKey>)
    requires IdsKnown(drawn, done, r.registry) && Lists(order, LegsNaming(r.registry, gone.connectionId))
    requires forall k :: k in LegsNaming(r.registry, gone.connectionId) ==> k.fileId != f
    ensures var t := R.Cleanup(r, gone, order);
            SameForFile(done, f, r.registry, t.registry) && QuietOut(done, f, r.outbound, t.outbound)
                && t.sessions == r.sessions
  {
    DropOther(drawn, done, f, r.registry, LegsNaming(r.registry, gone.connectionId));
    NoticesQuiet(done, f, r.sessions, r.outbound, gone, R.RecordsOf(r.registry, order));
  }

  /** Registered connections keep their names, and nobody new registers. */
  predicate SameNames(s: Sessions, t: Sessions) {
    forall c :: c in t.connections ==> c in s.connections && t.connections[c].Endpoint() == s.connections[c].Endpoint()
  }

  lemma RemovedNames(s: Sessions, c: Uuid)
    ensures SameNames(s, RemoveSession(s, c))
    ensures forall d :: d != c && d in s.connections ==> d in RemoveSession(s, c).connections
  {
  }

  lemma ExpireOther(drawn: map<RequestId, Uuid>, done: Done, f: Uuid, r: R.RelayState, c: Uuid, order: seq<LegKey>)
    requires R.Possible(r, R.Expired(c, order)) && IdsKnown(drawn, done, r.registry)
    requires forall k :: k in LegsNaming(r.registry, c) ==> k.fileId != f
    ensures var t := R.Expire(r, c, order);
            && SameForFile(done, f, r.registry, t.registry) && QuietOut(done, f, r.outbound, t.outbound)
            && SameNames(r.sessions, t.sessions) && c !in t.sessions.connections
  {
    var first := R.Reply(r.(sessions := RemoveSession(r.sessions, c)), c, TimedOut);
    var told := R.Push(first, c, CloseFrame);
    PushQuiet(done, f, r.outbound, c, TextFrame(Error(R.ErrorPacketFor(TimedOut))));
    PushQuiet(done, f, first.outbound, c, CloseFrame);
    QuietTwice(done, f, r.outbound, first.outbound, told.outbound);
    CleanupOther(drawn, done, f, told, r.sessions.connections[c], order);
    QuietTwice(done, f, r.outbound, told.outbound, R.Expire(r, c, order).outbound);
    RemovedNames(r.sessions, c);
  }

  lemma CloseOther(drawn: map<RequestId, Uuid>, done: Done, f: Uuid, r: R.RelayState, c: Uuid, order: seq<LegKey>)
    requires R.Possible(r, R.Closed(c, order)) && IdsKnown(drawn, done, r.registry)
    requires forall k :: k in LegsNaming(r.registry, c) ==> k.fileId != f
    ensures var t := R.CloseSocket(r, c, order);
            && SameForFile(done, f, r.registry, t.registry) && QuietOut(done, f, r.outbound, t.outbound)
            && SameNames(r.sessions, t.sessions) && c !in t.sessions.connections
  {
    CleanupOther(drawn, done, f, r.(sessions := RemoveSession(r.sessions, c), sockets := r.sockets - {c}), r.sockets[c],
                 order);
    RemovedNames(r.sessions, c);
  }

  lemma BeatOther(done: Done, f: Uuid, r: R.RelayState, c: Uuid, now: int)
    ensures var t := R.HandleHeartbeat(r, c, now);
            t.registry == r.registry && QuietOut(done, f, r.outbound, t.outbound) && SameNames(r.sessions, t.sessions)
  {
    PushQuiet(done, f, r.outbound, c, TextFrame(HeartbeatAck));
    RR.TouchedEndpoints(r.sessions, c, now);
  }

  // ---------- messages about the file ----------

  predicate Named(s: Sessions, c: Uuid, name: Endpoint) {
    c in s.connections && s.connections[c].Endpoint() == name
  }

  /** A message addressed to the name of a registered connection goes to it and to nobody else. */
  lemma ReachesEvent(s: Sessions, active: SessionRecord, e: EventPacket, to: Endpoint, c: Uuid)
    requires Coherent(s) && Named(s, c, to) && GoesTo(TextFrame(Event(e)), to)
    ensures RouteEvent(s, active, e) == Ok(RouteResult(Unicast, e.(source := Some(active.Endpoint())), {c}))
  {
    UnicastRefinesFlat(s, to.group.value, to.client.value);
    assert c in Flat(s) && Flat(s)[c] == Name(to.group.value, to.client.value);
  }

  lemma ReachesAck(s: Sessions, active: SessionRecord, a: AckPacket, to: Endpoint, c: Uuid)
    requires Coherent(s) && Named(s, c, to) && GoesTo(TextFrame(Ack(a)), to)
    ensures RouteAck(s, active, a) == Ok(AckRoute(a.(source := Some(active.Endpoint())), c))
  {
    UnicastRefinesFlat(s, to.group.value, to.client.value);
    assert c in Flat(s) && Flat(s)[c] == Name(to.group.value, to.client.value);
  }

  /** Where a routed unicast offer went. */
  lemma OfferedTo(s: Sessions, active: SessionRecord, e: EventPacket, to: Endpoint)
    requires Coherent(s) && GoesTo(TextFrame(Event(e)), to) && to.group.Some? && to.client.Some?
    ensures match ResolveUnicast(s, to.group.value, to.client.value)
            case Ok(c) => Named(s, c, to)
                && RouteEvent(s, active, e) == Ok(RouteResult(Unicast, e.(source := Some(active.Endpoint())), {c}))
            case Err(_) => RouteEvent(s, active, e).Err?
  {
    UnicastRefinesFlat(s, to.group.value, to.client.value);
  }

  lemma OfferTaken(done: Done, f: Uuid, r: Registry, rid: RequestId, sender: Uuid, receiver: Uuid)
    requires RegistryTidy(done, f, r, sender, None)
    ensures var t := R.OfferToAll(r, f, rid, sender, {receiver});
            RegistryTidy(done, f, t, sender, Some(receiver)) && LegKey(f, receiver) in t.legs && !Indexed(done, f, t)
  {
  }

  lemma FileRemoved(done: Done, f: Uuid, r: Registry, sender: Uuid, receiver: Uuid)
    requires RegistryTidy(done, f, r, sender, Some(receiver))
    ensures var t := RemoveByFile(r, f);
            RegistryTidy(done, f, t, sender, Some(receiver)) && LegKey(f, receiver) !in t.legs && !Indexed(done, f, t)
  {
    CarriedId(r, LegsOf(r, f), LegKey(f, receiver));
  }

  lemma FileCompleted(done: Done, f: Uuid, r: Registry, sender: Uuid, receiver: Uuid)
    requires RegistryTidy(done, f, r, sender, Some(receiver)) && f in done
    ensures LegKey(f, receiver) !in r.legs ==> SetComplete(r, f, done[f]).None?
    ensures LegKey(f, receiver) in r.legs ==>
              && SetComplete(r, f, done[f]).Some?
              && var t := SetComplete(r, f, done[f]).value;
                 RegistryTidy(done, f, t, sender, Some(receiver)) && LegKey(f, receiver) in t.legs
                     && Indexed(done, f, t)
  {
    if LegKey(f, receiver) in r.legs {
      assert LegKey(f, receiver) in LegsOf(r, f);
    } else {
      assert forall k :: k in LegsOf(r, f) ==> k == LegKey(f, receiver);
    }
  }

  lemma FileAcked(drawn: map<RequestId, Uuid>, done: Done, f: Uuid, r: Registry, sender: Uuid, receiver: Uuid)
    requires RegistryTidy(done, f, r, sender, Some(receiver)) && IdsKnown(drawn, done, r) && f in done
    ensures var t := RemoveByRequest(r, done[f]);
            && RegistryTidy(done, f, t, sender, Some(receiver)) && !Indexed(done, f, t)
            && (LegKey(f, receiver) in t.legs <==> LegKey(f, receiver) in r.legs && !Indexed(done, f, r))
  {
    if done[f] in r.index {
      assert r.index[done[f]] == f;
    }
  }

  lemma FileAccepted(done: Done, f: Uuid, r: Registry, sender: Uuid, receiver: Uuid)
    requires RegistryTidy(done, f, r, sender, Some(receiver))
    ensures MarkAccepted(r, f, receiver).Some? <==> LegKey(f, receiver) in r.legs
    ensures MarkAccepted(r, f, receiver).Some? ==>
              && var t := MarkAccepted(r, f, receiver).value;
                 RegistryTidy(done, f, t, sender, Some(receiver)) && LegKey(f, receiver) in t.legs
                     && (Indexed(done, f, t) <==> Indexed(done, f, r))
  {
  }

  // ---------- side effects of the messages about a file ----------

  lemma DropEffect(cfg: R.ServerConfig, r: Registry, active: SessionRecord, e: EventPacket, d: Uuid, f: Uuid)
    requires e.meta.fileId == Some(f) && (e.eventType == FileAbort || e.eventType == FileReject)
    ensures R.SideEffects(cfg, r, active, RouteResult(Unicast, e, {d})) == Ok(RemoveByFile(r, f))
  {
  }

  lemma OfferEffect(cfg: R.ServerConfig, r: Registry, active: SessionRecord, e: EventPacket, d: Uuid, f: Uuid)
    requires e.meta.fileId == Some(f) && e.eventType == FileOffer && R.OfferLimits(cfg, e.meta, f).Ok?
    ensures R.SideEffects(cfg, r, active, RouteResult(Unicast, e, {d}))
            == Ok(R.OfferToAll(r, f, e.requestId, active.connectionId, {d}))
  {
  }

  lemma CompleteEffect(cfg: R.ServerConfig, r: Registry, active: SessionRecord, e: EventPacket, d: Uuid, f: Uuid)
    requires e.meta.fileId == Some(f) && e.eventType == FileComplete
    ensures R.SideEffects(cfg, r, active, RouteResult(Unicast, e, {d})) ==
              if SetComplete(r, f, e.requestId).Some? then Ok(SetComplete(r, f, e.requestId).value)
                 else Err(NotAccepted)
  {
  }

  lemma AcceptedEffect(cfg: R.ServerConfig, r: Registry, active: SessionRecord, e: EventPacket, d: Uuid, f: Uuid,
                       c: Uuid)
    requires e.meta.fileId == Some(f) && e.eventType == FileAccept && active.connectionId == c
    requires MarkAccepted(r, f, c).Some?
    ensures R.SideEffects(cfg, r, active, RouteResult(Unicast, e, {d})) == Ok(MarkAccepted(r, f, c).value)
  {
  }

  lemma RefusedEffect(cfg: R.ServerConfig, r: Registry, active: SessionRecord, e: EventPacket, d: Uuid, f: Uuid,
                      c: Uuid)
    requires e.meta.fileId == Some(f) && e.eventType == FileAccept && active.connectionId == c
    requires MarkAccepted(r, f, c).None?
    ensures R.SideEffects(cfg, r, active, RouteResult(Unicast, e, {d})) == Err(NotAccepted)
  {
  }

  /** Naming the source changes nothing of what a message is about. */
  lemma SourcedMsg(done: Done, f: Uuid, e: EventPacket, source: Endpoint, msg: Msg)
    requires e.meta.fileId == Some(f) && EventMsg(e.eventType) == [msg]
    ensures WireMsg(done, f, TextFrame(Event(e.(source := Some(source))))) == [msg]
  {
  }

  lemma RefusalMsg(done: Done, f: Uuid)
    ensures WireMsg(done, f, TextFrame(Error(R.ErrorPacketFor(NotAccepted)))) == []
  {
  }
}
