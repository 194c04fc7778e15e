/** The relay as the source runs it: handlers over a shared session store and transfer registry,
    each proved to be the handler function of module Relay. */
module RelayServer {
  import opened Basics
  import opened Packets
  import opened ChunkCodec
  import opened Heartbeats
  import opened Sessions
  import opened Routing
  import opened Transfers
  import opened Relay
  import opened RelayRuns

  class AppState {
    const store: SessionStore
    const transfers: TransferRegistry
    const config: ServerConfig
    var outbound: map<Uuid, seq<WireMessage>>
    var sockets: map<Uuid, SessionRecord>

    function State(): RelayState
      reads this, store, transfers
    {
      RelayState(store.State(), transfers.State(), outbound, sockets)
    }

    constructor (config: ServerConfig)
      ensures fresh(store) && fresh(transfers) && this.config == config && State() == FRESH_RELAY
    {
      store := new SessionStore();
      transfers := new TransferRegistry();
      this.config := config;
      outbound, sockets := map[], map[];
    }

    method SendTo(c: Uuid, m: WireMessage) returns (ok: bool)
      modifies this`outbound
      ensures outbound == PushTo(old(outbound), c, m) && ok == (c in old(outbound))
    {
      ok := c in outbound;
      if ok {
        outbound := outbound[c := outbound[c] + [m]];
      }
    }

    method ReplyError(c: Uuid, e: ServerError)
      modifies this`outbound
      ensures outbound == PushTo(old(outbound), c, TextFrame(Error(ErrorPacketFor(e))))
    {
      var _ := SendTo(c, TextFrame(Error(ErrorPacketFor(e))));
    }

    /** One message to each listed recipient, one after the other; tells whether any channel was open. */
    method SendToEach(recipients: seq<Uuid>, m: WireMessage) returns (delivered: bool)
      requires forall i, j :: 0 <= i < j < |recipients| ==> recipients[i] != recipients[j]
      modifies this`outbound
      ensures outbound == PushToAll(old(outbound), SetOf(recipients), m)
      ensures delivered <==> SetOf(recipients) * old(outbound).Keys != {}
    {
      delivered := false;
      for i := 0 to |recipients|
        invariant outbound == PushToAll(old(outbound), SetOf(recipients[..i]), m)
        invariant delivered <==> SetOf(recipients[..i]) * old(outbound).Keys != {}
      {
        PushOneMore(old(outbound), recipients, i, m);
        var ok := SendTo(recipients[i], m);
        delivered := delivered || ok;
      }
      assert recipients[..|recipients|] == recipients;
    }

    /** `route_event`: the recipients in the order the store yields them. */
    method Route(active: SessionRecord, p: EventPacket)
      returns (r: Result<(RouteMode, EventPacket, seq<Uuid>), ServerError>)
      requires Coherent(store.State())
      ensures match RouteEvent(store.State(), active, p)
              case Err(e) => r == Err(e)
              case Ok(routed) => && r.Ok? && r.value.0 == routed.mode && r.value.1 == routed.packet
                                 && SetOf(r.value.2) == routed.recipients
                                 && (forall i, j :: 0 <= i < j < |r.value.2| ==> r.value.2[i] != r.value.2[j])
    {
      if p.version != PROTOCOL_VERSION {
        return Err(UnsupportedVersionError(p.version));
      }
      if p.kind != EventKind {
        return Err(InvalidPacketKindError);
      }
      var group := TargetGroup(active, p.target);
      var packet := Addressed(active, p);
      match TargetClient(p.target) {
        case Some(name) =>
          var found := store.Unicast(group, name);
          if found.Err? {
            return Err(found.error);
          }
          return Ok((Unicast, packet, [found.value.connectionId]));
        case None =>
          var found := store.Broadcast(group, active.connectionId);
          if found.Err? {
            return Err(found.error);
          }
          var ids := Ids(found.value);
          SameIds(found.value, ResolveBroadcast(store.State(), group, active.connectionId).value);
          return Ok((Broadcast, packet, ids));
      }
    }

    method ApplySideEffects(active: SessionRecord, packet: EventPacket, recipients: seq<Uuid>)
      returns (r: Result<(), ServerError>)
      modifies transfers
      ensures forall mode ::
                match SideEffects(config, old(transfers.State()), active, RouteResult(mode, packet, SetOf(recipients)))
                case Ok(registry) => r.Ok? && transfers.State() == registry
                case Err(e) => r == Err(e) && transfers.State() == old(transfers.State())
    {
      if packet.meta.fileId.None? {
        return Ok(());
      }
      var f := packet.meta.fileId.value;
      match packet.eventType {
        case FileOffer =>
          var limits := OfferLimits(config, packet.meta, f);
          if limits.Err? {
            return Err(limits.error);
          }
          OfferEach(f, packet.requestId, active.connectionId, recipients);
        case FileAccept =>
          var marked := transfers.Accept(f, active.connectionId);
          if marked.None? {
            return Err(NotAccepted);
          }
        case FileReject | FileAbort =>
          transfers.RemoveFile(f);
        case FileComplete =>
          var found := transfers.SetCompleteRequestId(f, packet.requestId);
          if !found {
            return Err(NotAccepted);
          }
        case Text | Command | CommandResult | Json =>
      }
      return Ok(());
    }

    method OfferEach(f: Uuid, rid: RequestId, sender: Uuid, recipients: seq<Uuid>)
      modifies transfers
      ensures transfers.State() == OfferToAll(old(transfers.State()), f, rid, sender, SetOf(recipients))
    {
      for i := 0 to |recipients|
        invariant transfers.State() == OfferToAll(old(transfers.State()), f, rid, sender, SetOf(recipients[..i]))
      {
        transfers.Offer(f, rid, sender, recipients[i]);
        OfferOneMore(old(transfers.State()), f, rid, sender, recipients, i);
      }
      assert recipients[..|recipients|] == recipients;
    }

    /** A socket that has not completed its init gets an error for anything it sends. */
    method HandleEventPacket(active: Option<SessionRecord>, own: Uuid, packet: EventPacket)
      requires active.Some? ==> active.value.connectionId == own
      requires Coherent(store.State())
      modifies this`outbound, transfers
      ensures State() == match active
                         case None => Reply(old(State()), own, InvalidPacketKindError)
                         case Some(session) => HandleEvent(config, old(State()), session, packet)
    {
      if active.None? {
        ReplyError(own, InvalidPacketKindError);
        return;
      }
      var session := active.value;
      var routed := Route(session, packet);
      if routed.Err? {
        ReplyError(own, routed.error);
        return;
      }
      var (mode, addressed, recipients) := routed.value;
      assert RouteEvent(store.State(), session, packet) == Ok(RouteResult(mode, addressed, SetOf(recipients)));
      var applied := ApplySideEffects(session, addressed, recipients);
      if applied.Err? {
        ReplyError(own, applied.error);
        return;
      }
      var _ := SendToEach(recipients, TextFrame(Event(addressed)));
    }

    method HandleAckPacket(active: Option<SessionRecord>, own: Uuid, a: AckPacket)
      requires active.Some? ==> active.value.connectionId == own
      modifies this`outbound, transfers
      ensures State() == match active
                         case None => Reply(old(State()), own, InvalidPacketKindError)
                         case Some(session) => HandleAck(old(State()), session, a)
    {
      if active.None? {
        ReplyError(own, InvalidPacketKindError);
        return;
      }
      var session := active.value;
      if a.version != PROTOCOL_VERSION {
        ReplyError(own, UnsupportedVersionError(a.version));
        return;
      }
      if a.kind != AckKind {
        ReplyError(own, InvalidPacketKindError);
        return;
      }
      var group := TargetGroup(session, a.target);
      var client := TargetClient(a.target);
      if client.None? {
        ReplyError(own, NoClient(group, ""));
        return;
      }
      var recipient := store.Unicast(group, client.value);
      if recipient.Err? {
        ReplyError(own, recipient.error);
        return;
      }
      if a.refType == Some(FileComplete) {
        transfers.RemoveRequest(a.requestId);
      }
      var addressed := a.(source := Some(session.Endpoint()), target := Some(Packets.Endpoint(Some(group), client)));
      var _ := SendTo(recipient.value.connectionId, TextFrame(Ack(addressed)));
    }

    /** The frame goes on unchanged to every registered receiver of an accepted leg of its sender. */
    method HandleBinaryMessage(active: Option<SessionRecord>, own: Uuid, bytes: seq<byte>)
      requires active.Some? ==> active.value.connectionId == own
      requires KeysOk(transfers.State())
      modifies this`outbound
      ensures State() == match active
                         case None => Reply(old(State()), own, InvalidPacketKindError)
                         case Some(session) => HandleBinary(old(State()), session, bytes)
    {
      if active.None? {
        ReplyError(own, InvalidPacketKindError);
        return;
      }
      var decoded := Decode(bytes);
      if decoded.None? {
        ReplyError(own, BadChunk);
        return;
      }
      var f := decoded.value.0.fileId;
      var legs := transfers.AcceptedSenderLegs(f, own);
      var receivers := RegisteredReceivers(legs, f);
      assert SetOf(receivers) == FrameReceivers(State(), f, own);
      if legs == {} {
        assert FrameReceivers(State(), f, own) == {};
        ReplyError(own, NotAccepted);
        return;
      }
      ghost var before := State();
      var delivered := SendToEach(receivers, BinaryFrame(bytes));
      if !delivered {
        NothingPushed(before.outbound, FrameReceivers(before, f, own), BinaryFrame(bytes));
        ReplyError(own, NotAccepted);
      }
    }

    method RegisteredReceivers(legs: set<LegKey>, f: Uuid) returns (receivers: seq<Uuid>)
      requires legs <= transfers.legs.Keys && KeysOk(transfers.State())
      requires forall k :: k in legs ==> transfers.legs[k].fileId == f
      ensures forall i, j :: 0 <= i < j < |receivers| ==> receivers[i] != receivers[j]
      ensures SetOf(receivers) == set k | k in legs
              && transfers.legs[k].receiver in store.connections :: transfers.legs[k].receiver
    {
      receivers := [];
      var todo := legs;
      while todo != {}
        invariant todo <= legs
        invariant forall i, j :: 0 <= i < j < |receivers| ==> receivers[i] != receivers[j]
        invariant forall c :: c in receivers <==> LegKey(f, c) in legs - todo && c in store.connections
        decreases |todo|
      {
        var k :| k in todo;
        var receiver := transfers.legs[k].receiver;
        assert k == LegKey(f, receiver);
        todo := todo - {k};
        var session := store.Resolve(receiver);
        if session.Some? {
          receivers := receivers + [receiver];
        }
      }
      forall c
        ensures c in receivers
                <==> exists k :: k in legs && transfers.legs[k].receiver in store.connections
                                 && transfers.legs[k].receiver == c
      {
        if c in receivers {
          assert LegKey(f, c) in legs;
        }
      }
    }

    method HandleInitPacket(requestedGroup: Option<string>, requestedName: Option<string>, connectionId: Uuid,
                            generatedName: string, now: int)
      modifies this, store
      ensures State()
              == HandleInit(old(State()), SessionRecord(connectionId, NameOr(requestedGroup, DEFAULT_GROUP_NAME),
                                                                NameOr(requestedName, generatedName), now, now))
    {
      var r := store.Register(requestedGroup, requestedName, connectionId, generatedName, now);
      if r.Ok? {
        sockets := sockets[connectionId := r.value];
        outbound := outbound[connectionId := [TextFrame(InitAck)]];
      }
    }

    method HandleHeartbeatPacket(own: Uuid, now: int)
      modifies this`outbound, store
      ensures State() == HandleHeartbeat(old(State()), own, now)
    {
      store.TouchHeartbeat(own, now);
      var _ := SendTo(own, TextFrame(HeartbeatAck));
    }

    method CleanupRelatedTransfers(gone: SessionRecord) returns (ghost order: seq<LegKey>)
      modifies this`outbound, transfers
      ensures Lists(order, LegsNaming(old(transfers.State()), gone.connectionId))
      ensures State() == Cleanup(old(State()), gone, order)
    {
      var removed: seq<TransferRecord>;
      removed, order := transfers.RemoveConnection(gone.connectionId);
      assert removed == RecordsOf(old(transfers.State()), order);
      for i := 0 to |removed|
        modifies this`outbound
        invariant outbound == Notify(store.State(), old(outbound), gone, removed[..i])
      {
        assert removed[..i + 1][..i] == removed[..i];
        var peerId := if removed[i].sender == gone.connectionId then removed[i].receiver else removed[i].sender;
        var peer := store.Resolve(peerId);
        if peer.Some? {
          var notice := EventFrom(gone.Endpoint(), peer.value.Endpoint(), UNREFERENCED, FileAbort,
              FileMeta(removed[i].fileId));
          var _ := SendTo(peerId, TextFrame(Event(notice)));
        }
      }
      assert removed[..|removed|] == removed;
      assert outbound == Notify(old(store.State()), old(outbound), gone, RecordsOf(old(transfers.State()), order));
    }

    /** The end of a socket's receive loop. */
    method CleanupDisconnectedSession(c: Uuid) returns (ghost order: seq<LegKey>)
      requires c in sockets && sockets[c].connectionId == c
      modifies this, store, transfers
      ensures Lists(order, LegsNaming(old(transfers.State()), c))
      ensures State() == CloseSocket(old(State()), c, order)
    {
      var session := sockets[c];
      sockets := sockets - {c};
      var _ := store.RemoveConnection(c);
      order := CleanupRelatedTransfers(session);
    }

    /** What the sweeper does for one expired id; an id somebody else removed first is skipped. */
    method ExpireConnection(c: Uuid) returns (ghost order: seq<LegKey>)
      requires RelayOk(State())
      modifies this`outbound, store, transfers
      ensures c !in old(store.connections) ==> State() == old(State())
      ensures c in old(store.connections)
              ==> Lists(order, LegsNaming(old(transfers.State()), c)) && State() == Expire(old(State()), c, order)
    {
      order := [];
      ghost var before := State();
      var session := store.RemoveConnection(c);
      if session.None? {
        return;
      }
      ReplyError(c, TimedOut);
      var _ := SendTo(c, CloseFrame);
      assert State() == Push(Reply(before.(sessions := RemoveSession(before.sessions, c)), c, TimedOut), c, CloseFrame);
      order := CleanupRelatedTransfers(session.value);
    }

    method ExpireSoundly(c: Uuid)
      requires RelayOk(State())
      modifies this`outbound, store, transfers
      ensures RelayOk(State()) && store.connections == old(store.connections) - {c}
    {
      ghost var before := State();
      ghost var order := ExpireConnection(c);
      if c in before.sessions.connections {
        ExpireKeeps(before, c, order);
        RemoveKeeps(before.sessions, c);
      }
    }

    /** One tick of the sweeper: exactly the expired connections are gone, and with them every leg that named them. */
    method Sweep(now: int)
      requires RelayOk(State())
      modifies this`outbound, store, transfers
      ensures RelayOk(State())
      ensures store.connections == map c | c in old(store.connections)
                && !HasExpired(config.heartbeatTimeoutSec, now, old(store.connections)[c].lastHeartbeatAt) ::
                   old(store.connections)[c]
    {
      var expired := store.ExpiredConnectionIds(config.heartbeatTimeoutSec, now);
      ExpireAll(expired);
    }

    method ExpireAll(ids: set<Uuid>)
      requires RelayOk(State())
      modifies this`outbound, store, transfers
      ensures RelayOk(State()) && store.connections == old(store.connections) - ids
    {
      var todo := ids;
      while todo != {}
        invariant todo <= ids && RelayOk(State())
        invariant store.connections == old(store.connections) - (ids - todo)
        decreases |todo|
      {
        var c :| c in todo;
        ghost var done := ids - todo;
        ExpireSoundly(c);
        todo := todo - {c};
        assert ids - todo == done + {c};
        WithoutOneMore(old(store.connections), done, c);
      }
      assert ids - todo == ids;
    }
  }

  function SetOf(ids: seq<Uuid>): set<Uuid> {
    set c | c in ids
  }

  function Ids(records: seq<SessionRecord>): (ids: seq<Uuid>)
    ensures |ids| == |records|
  {
    seq(|records|, i requires 0 <= i < |records| => records[i].connectionId)
  }

  lemma SameIds(records: seq<SessionRecord>, ids: set<Uuid>)
    requires ListsIds(records, ids)
    ensures SetOf(Ids(records)) == ids
    ensures forall i, j :: 0 <= i < j < |Ids(records)| ==> Ids(records)[i] != Ids(records)[j]
  {
    forall c | c in ids
      ensures c in Ids(records)
    {
      var i :| 0 <= i < |records| && records[i].connectionId == c;
      assert Ids(records)[i] == c;
    }
  }

  lemma OfferOneMore(r: Registry, f: Uuid, rid: RequestId, sender: Uuid, recipients: seq<Uuid>, i: nat)
    requires i < |recipients|
    ensures CreateOffer(OfferToAll(r, f, rid, sender, SetOf(recipients[..i])), f, rid, sender, recipients[i])
         == OfferToAll(r, f, rid, sender, SetOf(recipients[..i + 1]))
  {
    assert recipients[..i + 1] == recipients[..i] + [recipients[i]];
    assert SetOf(recipients[..i + 1]) == SetOf(recipients[..i]) + {recipients[i]};
    var a := CreateOffer(OfferToAll(r, f, rid, sender, SetOf(recipients[..i])), f, rid, sender, recipients[i]);
    var b := OfferToAll(r, f, rid, sender, SetOf(recipients[..i + 1]));
    assert a.legs.Keys == b.legs.Keys;
  }

  lemma PushOneMore(out: map<Uuid, seq<WireMessage>>, recipients: seq<Uuid>, i: nat, m: WireMessage)
    requires i < |recipients| && forall j, k :: 0 <= j < k < |recipients| ==> recipients[j] != recipients[k]
    ensures PushTo(PushToAll(out, SetOf(recipients[..i]), m), recipients[i], m)
            == PushToAll(out, SetOf(recipients[..i + 1]), m)
    ensures SetOf(recipients[..i + 1]) * out.Keys
         == SetOf(recipients[..i]) * out.Keys + if recipients[i] in out then {recipients[i]} else {}
  {
    assert recipients[..i + 1] == recipients[..i] + [recipients[i]];
    assert SetOf(recipients[..i + 1]) == SetOf(recipients[..i]) + {recipients[i]};
    assert recipients[i] !in SetOf(recipients[..i]);
  }

  lemma WithoutOneMore(m: Connections, gone: set<Uuid>, c: Uuid)
    ensures m - gone - {c} == m - (gone + {c})
  {
  }

  lemma NothingPushed(out: map<Uuid, seq<WireMessage>>, cs: set<Uuid>, m: WireMessage)
    requires cs * out.Keys == {}
    ensures PushToAll(out, cs, m) == out
  {
    assert forall c :: c in out && c in cs ==> c in cs * out.Keys;
  }
}
