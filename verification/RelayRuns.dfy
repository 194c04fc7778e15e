/** What holds of the relay over every run of its handlers, whatever its clients send. */
module RelayRuns {
  import opened Basics
  import opened Packets
  import opened ChunkCodec
  import opened Sessions
  import opened Routing
  import opened Transfers
  import opened Relay

  // ---------- legs live as long as their ends ----------

  predicate SocketsOk(r: RelayState) {
    && (forall c :: c in r.sockets ==> r.sockets[c].connectionId == c)
    && (forall c :: c in r.sessions.connections ==>
          c in r.sockets && r.sockets[c].Endpoint() == r.sessions.connections[c].Endpoint())
  }

  /** A leg's receiver is registered and its sender's socket task still runs. */
  predicate LegsLive(r: RelayState) {
    forall k :: k in r.registry.legs ==> k.receiver in r.sessions.connections && r.registry.legs[k].sender in r.sockets
  }

  ghost predicate RelayOk(r: RelayState) {
    Coherent(r.sessions) && SocketsOk(r) && KeysOk(r.registry) && LegsLive(r)
  }

  lemma SideEffectsKeep(cfg: ServerConfig, r: RelayState, active: SessionRecord, routed: RouteResult)
    requires KeysOk(r.registry) && LegsLive(r) && active.connectionId in r.sockets
    requires routed.recipients <= r.sessions.connections.Keys
    requires SideEffects(cfg, r.registry, active, routed).Ok?
    ensures var t := r.(registry := SideEffects(cfg, r.registry, active, routed).value);
            KeysOk(t.registry) && LegsLive(t)
  {
  }

  lemma EventKeeps(cfg: ServerConfig, r: RelayState, active: SessionRecord, p: EventPacket)
    requires RelayOk(r) && active.connectionId in r.sockets
    ensures RelayOk(HandleEvent(cfg, r, active, p))
  {
    var routed := RouteEvent(r.sessions, active, p);
    if routed.Ok? {
      RecipientsLive(r.sessions, active, p);
      if SideEffects(cfg, r.registry, active, routed.value).Ok? {
        SideEffectsKeep(cfg, r, active, routed.value);
      }
    }
  }

  lemma InitKeeps(r: RelayState, rec: SessionRecord)
    requires RelayOk(r) && Possible(r, Init(rec))
    ensures RelayOk(HandleInit(r, rec))
  {
    if AddSession(r.sessions, rec).Ok? {
      RegisterKeeps(r.sessions, rec);
    }
  }

  /** Once a connection is unregistered, cleaning up after it leaves every remaining leg with two live ends. */
  lemma CleanupKeeps(r: RelayState, gone: SessionRecord, order: seq<LegKey>)
    requires Coherent(r.sessions) && SocketsOk(r) && KeysOk(r.registry)
    requires Lists(order, LegsNaming(r.registry, gone.connectionId))
    requires forall k :: k in r.registry.legs && k !in LegsNaming(r.registry, gone.connectionId) ==>
               k.receiver in r.sessions.connections && r.registry.legs[k].sender in r.sockets
    ensures RelayOk(Cleanup(r, gone, order))
  {
  }

  lemma AckKeeps(r: RelayState, active: SessionRecord, a: AckPacket)
    requires RelayOk(r)
    ensures RelayOk(HandleAck(r, active, a))
  {
  }

  lemma BinaryKeeps(r: RelayState, active: SessionRecord, bytes: seq<byte>)
    requires RelayOk(r)
    ensures RelayOk(HandleBinary(r, active, bytes))
  {
  }

  lemma HeartbeatKeeps(r: RelayState, c: Uuid, now: int)
    requires RelayOk(r)
    ensures RelayOk(HandleHeartbeat(r, c, now))
  {
    TouchKeeps(r.sessions, c, now);
    TouchedEndpoints(r.sessions, c, now);
  }

  lemma TouchedEndpoints(s: Sessions, c: Uuid, now: int)
    ensures var t := TouchSession(s, c, now);
            && t.connections.Keys == s.connections.Keys
            && forall d :: d in s.connections ==> t.connections[d].Endpoint() == s.connections[d].Endpoint()
  {
  }

  lemma ExpireKeeps(r: RelayState, c: Uuid, order: seq<LegKey>)
    requires RelayOk(r) && Possible(r, Expired(c, order))
    ensures RelayOk(Expire(r, c, order))
  {
    RemoveKeeps(r.sessions, c);
    var told := Push(Reply(r.(sessions := RemoveSession(r.sessions, c)), c, TimedOut), c, CloseFrame);
    CleanupKeeps(told, r.sessions.connections[c], order);
  }

  lemma CloseKeeps(r: RelayState, c: Uuid, order: seq<LegKey>)
    requires RelayOk(r) && Possible(r, Closed(c, order))
    ensures RelayOk(CloseSocket(r, c, order))
  {
    RemoveKeeps(r.sessions, c);
    CleanupKeeps(r.(sessions := RemoveSession(r.sessions, c), sockets := r.sockets - {c}), r.sockets[c], order);
  }

  /** Every handler keeps each leg's receiver registered and its sender's socket task open. */
  lemma StepKeeps(cfg: ServerConfig, r: RelayState, i: Input)
    requires RelayOk(r) && Possible(r, i)
    ensures RelayOk(Next(cfg, r, i))
  {
    match i
    case Init(rec) => InitKeeps(r, rec);
    case Heartbeat(c, now) => HeartbeatKeeps(r, c, now);
    case EventIn(c, p) => EventKeeps(cfg, r, r.sockets[c], p);
    case AckIn(c, a) => AckKeeps(r, r.sockets[c], a);
    case BinaryIn(c, bytes) => BinaryKeeps(r, r.sockets[c], bytes);
    case Expired(c, order) => ExpireKeeps(r, c, order);
    case Closed(c, order) => CloseKeeps(r, c, order);
    case WriterEnded(c) =>
  }

  /** In every run each leg's receiver is registered and its sender's socket task is still open. */
  lemma {:induction false} RunsKeep(cfg: ServerConfig, inputs: seq<Input>, states: seq<RelayState>, n: nat)
    requires IsRun(cfg, inputs, states) && n <= |inputs|
    ensures RelayOk(states[n])
  {
    if n > 0 {
      RunsKeep(cfg, inputs, states, n - 1);
      StepKeeps(cfg, states[n - 1], inputs[n - 1]);
    }
  }

  // ---------- disconnect notices ----------

  /** The notices meant for one peer, in order. */
  function NoticesTo(s: Sessions, gone: SessionRecord, legs: seq<TransferRecord>, peer: Uuid): seq<WireMessage> {
    if legs == [] then []
    else
      var n := |legs| - 1;
      NoticesTo(s, gone, legs[..n], peer)
      + if OtherEnd(legs[n], gone.connectionId) == peer
          && peer in s.connections then [DisconnectNotice(s, gone, legs[n])] else []
  }

  lemma {:induction false} NotifyAppends(s: Sessions, out: map<Uuid, seq<WireMessage>>, gone: SessionRecord,
                                         legs: seq<TransferRecord>)
    ensures var told := Notify(s, out, gone, legs);
            && told.Keys == out.Keys
            && forall peer :: peer in out ==> told[peer] == out[peer] + NoticesTo(s, gone, legs, peer)
  {
    if legs != [] {
      NotifyAppends(s, out, gone, legs[..|legs| - 1]);
    }
  }

  function AbortNotice(s: Sessions, gone: SessionRecord, peer: Uuid, f: Uuid): WireMessage
    requires peer in s.connections
  {
    TextFrame(Event(EventFrom(gone.Endpoint(), s.connections[peer].Endpoint(), UNREFERENCED, FileAbort, FileMeta(f))))
  }

  /** The removed legs of one file that lead to one peer. */
  ghost function LegsTo(r: Registry, keys: set<LegKey>, c: Uuid, peer: Uuid, f: Uuid): set<LegKey> {
    set k | k in keys && k in r.legs && r.legs[k].fileId == f
            && (if r.legs[k].sender == c then r.legs[k].receiver == peer else r.legs[k].sender == peer)
  }

  lemma {:induction false} NoticeCount(s: Sessions, r: Registry, gone: SessionRecord, order: seq<LegKey>,
                                       keys: set<LegKey>, peer: Uuid, f: Uuid)
    requires Lists(order, keys) && keys <= r.legs.Keys && peer in s.connections
    ensures multiset(NoticesTo(s, gone, RecordsOf(r, order), peer))[AbortNotice(s, gone, peer, f)]
         == |LegsTo(r, keys, gone.connectionId, peer, f)|
  {
    var c := gone.connectionId;
    if order == [] {
      assert LegsTo(r, keys, c, peer, f) == {};
    } else {
      var n := |order| - 1;
      var last := order[n];
      var rest := keys - {last};
      ListsInit(order, keys);
      NoticeCount(s, r, gone, order[..n], rest, peer, f);
      LegsToGrows(r, keys, last, c, peer, f);
      NoticesGrow(s, r, gone, order, peer);
    }
  }

  lemma NoticesGrow(s: Sessions, r: Registry, gone: SessionRecord, order: seq<LegKey>, peer: Uuid)
    requires order != [] && peer in s.connections && forall k :: k in order ==> k in r.legs
    ensures var n := |order| - 1;
            var rec := r.legs[order[n]];
            NoticesTo(s, gone, RecordsOf(r, order), peer)
            == NoticesTo(s, gone, RecordsOf(r, order[..n]), peer)
               + if OtherEnd(rec, gone.connectionId) == peer then [AbortNotice(s, gone, peer, rec.fileId)] else []
  {
    assert RecordsOf(r, order)[..|order| - 1] == RecordsOf(r, order[..|order| - 1]);
  }

  lemma LegsToGrows(r: Registry, keys: set<LegKey>, last: LegKey, c: Uuid, peer: Uuid, f: Uuid)
    requires last in keys
    ensures |LegsTo(r, keys, c, peer, f)|
            == |LegsTo(r, keys - {last}, c, peer, f)| + if last in LegsTo(r, keys, c, peer, f) then 1 else 0
  {
    if last in LegsTo(r, keys, c, peer, f) {
      assert LegsTo(r, keys, c, peer, f) == LegsTo(r, keys - {last}, c, peer, f) + {last};
    } else {
      assert LegsTo(r, keys, c, peer, f) == LegsTo(r, keys - {last}, c, peer, f);
    }
  }

  lemma ListsInit(order: seq<LegKey>, keys: set<LegKey>)
    requires Lists(order, keys) && order != []
    ensures Lists(order[..|order| - 1], keys - {order[|order| - 1]})
  {
    var n := |order| - 1;
    forall k | k in keys - {order[n]}
      ensures k in order[..n]
    {
      var i :| 0 <= i < |order| && order[i] == k;
      assert order[..n][i] == k;
    }
    forall k | k in order[..n]
      ensures k in keys - {order[n]}
    {
      var i :| 0 <= i < n && order[..n][i] == k;
      assert order[i] == k;
    }
  }

  /** What one channel gains from a cleanup: nothing if its connection is not registered, else exactly one abort per
      removed leg that leads to it. */
  ghost predicate NoticesExact(r: RelayState, gone: SessionRecord, peer: Uuid, added: seq<WireMessage>) {
    && (peer !in r.sessions.connections ==> added == [])
    && (peer in r.sessions.connections ==>
          && (forall m :: m in added ==> exists f :: m == AbortNotice(r.sessions, gone, peer, f))
          && (forall f: Uuid :: multiset(added)[AbortNotice(r.sessions, gone, peer, f)]
                == |LegsTo(r.registry, LegsNaming(r.registry, gone.connectionId), gone.connectionId, peer, f)|))
  }

  lemma NoticesAreExact(r: RelayState, gone: SessionRecord, order: seq<LegKey>, peer: Uuid)
    requires Lists(order, LegsNaming(r.registry, gone.connectionId))
    ensures NoticesExact(r, gone, peer, NoticesTo(r.sessions, gone, RecordsOf(r.registry, order), peer))
  {
    NoticesAreAborts(r.sessions, gone, RecordsOf(r.registry, order), peer);
    if peer in r.sessions.connections {
      forall f: Uuid
        ensures multiset(NoticesTo(r.sessions, gone, RecordsOf(r.registry, order), peer))[AbortNotice(r.sessions, gone,
                peer, f)]
             == |LegsTo(r.registry, LegsNaming(r.registry, gone.connectionId), gone.connectionId, peer, f)|
      {
        NoticeCount(r.sessions, r.registry, gone, order, LegsNaming(r.registry, gone.connectionId), peer, f);
      }
    }
  }

  /** Cleaning up after a connection removes exactly the legs that name it, tells the other ends exactly once each,
      and doing it again changes nothing. */
  lemma CleanupExact(r: RelayState, gone: SessionRecord, order: seq<LegKey>)
    requires Lists(order, LegsNaming(r.registry, gone.connectionId))
    ensures var c := gone.connectionId;
            var t := Cleanup(r, gone, order);
            && (forall k :: k in t.registry.legs <==>
                  k in r.registry.legs && r.registry.legs[k].sender != c && r.registry.legs[k].receiver != c)
            && (forall k :: k in t.registry.legs ==> t.registry.legs[k] == r.registry.legs[k])
            && t.outbound.Keys == r.outbound.Keys
            && (forall peer :: peer in r.outbound ==>
                  && r.outbound[peer] <= t.outbound[peer]
                  && NoticesExact(r, gone, peer, t.outbound[peer][|r.outbound[peer]|..]))
            && Lists([], LegsNaming(t.registry, c)) && Cleanup(t, gone, []) == t
  {
    var c := gone.connectionId;
    var t := Cleanup(r, gone, order);
    var legs := RecordsOf(r.registry, order);
    NotifyAppends(r.sessions, r.outbound, gone, legs);
    forall peer | peer in r.outbound
      ensures NoticesExact(r, gone, peer, t.outbound[peer][|r.outbound[peer]|..])
    {
      assert t.outbound[peer][|r.outbound[peer]|..] == NoticesTo(r.sessions, gone, legs, peer);
      NoticesAreExact(r, gone, order, peer);
    }
    CleanedAlready(t, gone);
  }

  lemma CleanedAlready(t: RelayState, gone: SessionRecord)
    requires LegsNaming(t.registry, gone.connectionId) == {}
    ensures Lists([], LegsNaming(t.registry, gone.connectionId)) && Cleanup(t, gone, []) == t
  {
    var nothing: set<LegKey> := {};
    assert RequestIds(t.registry, nothing) == {};
    assert Drop(t.registry, nothing) == t.registry;
    var none: seq<LegKey> := [];
    assert RecordsOf(t.registry, none) == [];
  }

  lemma {:induction false} NoticesAreAborts(s: Sessions, gone: SessionRecord, legs: seq<TransferRecord>, peer: Uuid)
    ensures peer !in s.connections ==> NoticesTo(s, gone, legs, peer) == []
    ensures peer in s.connections ==>
              forall m :: m in NoticesTo(s, gone, legs, peer) ==> exists f :: m == AbortNotice(s, gone, peer, f)
  {
    if legs != [] {
      var n := |legs| - 1;
      NoticesAreAborts(s, gone, legs[..n], peer);
      if OtherEnd(legs[n], gone.connectionId) == peer && peer in s.connections {
        assert DisconnectNotice(s, gone, legs[n]) == AbortNotice(s, gone, peer, legs[n].fileId);
      }
    }
  }

  // ---------- forwarding follows consent ----------

  /** This input, handled in this state, creates or resets the leg of file f from sender to receiver. */
  predicate Offers(cfg: ServerConfig, r: RelayState, i: Input, f: Uuid, sender: Uuid, receiver: Uuid) {
    && i.EventIn? && i.c == sender && i.c in r.sockets
    && i.event.eventType == FileOffer && i.event.meta.fileId == Some(f)
    && OfferLimits(cfg, i.event.meta, f).Ok?
    && var routed := RouteEvent(r.sessions, r.sockets[i.c], i.event);
       routed.Ok? && receiver in routed.value.recipients
  }

  /** This input is the receiver's own accept of the file, and it could be routed. */
  predicate Accepts(r: RelayState, i: Input, f: Uuid, receiver: Uuid) {
    && i.EventIn? && i.c == receiver && i.c in r.sockets
    && i.event.eventType == FileAccept && i.event.meta.fileId == Some(f)
    && RouteEvent(r.sessions, r.sockets[i.c], i.event).Ok?
  }

  /** This input removes or resets the leg: a new offer of the file that reaches the receiver, a reject or abort of
      the file, the ack of its completion, or either end going away. */
  predicate Disturbs(cfg: ServerConfig, r: RelayState, i: Input, f: Uuid, sender: Uuid, receiver: Uuid) {
    match i
    case EventIn(c, p) =>
      && c in r.sockets && p.meta.fileId == Some(f) && RouteEvent(r.sessions, r.sockets[c], p).Ok?
      && (|| p.eventType == FileReject || p.eventType == FileAbort
          || Offers(cfg, r, i, f, c, receiver))
    case AckIn(c, a) =>
      && c in r.sockets && RouteAck(r.sessions, r.sockets[c], a).Ok?
      && a.refType == Some(FileComplete) && a.requestId in r.registry.index && r.registry.index[a.requestId] == f
    case Expired(c, _) => c == sender || c == receiver
    case Closed(c, _) => c == sender || c == receiver
    case _ => false
  }

  /** Where a leg of the next state comes from: it was just offered, or it was there, kept its sender, was not
      disturbed, and is accepted only if it was already or its receiver just accepted. */
  ghost predicate Accounted(cfg: ServerConfig, r: RelayState, i: Input, k: LegKey, rec: TransferRecord) {
    || (!rec.accepted && Offers(cfg, r, i, k.fileId, rec.sender, k.receiver))
    || (&& k in r.registry.legs && r.registry.legs[k].sender == rec.sender
        && !Disturbs(cfg, r, i, k.fileId, rec.sender, k.receiver)
        && (rec.accepted ==> r.registry.legs[k].accepted || Accepts(r, i, k.fileId, k.receiver)))
  }

  lemma OfferOrigin(cfg: ServerConfig, r: RelayState, c: Uuid, p: EventPacket, routed: RouteResult, k: LegKey)
    requires RelayOk(r) && c in r.sockets && RouteEvent(r.sessions, r.sockets[c], p) == Ok(routed)
    requires p.eventType == FileOffer && p.meta.fileId.Some? && OfferLimits(cfg, p.meta, p.meta.fileId.value).Ok?
    requires k in OfferToAll(r.registry, p.meta.fileId.value, p.requestId, c, routed.recipients).legs
    ensures Accounted(cfg, r, EventIn(c, p), k,
            OfferToAll(r.registry, p.meta.fileId.value, p.requestId, c, routed.recipients).legs[k])
  {
  }

  /** The other events: what survives was not disturbed, and only the receiver's own accept accepts. */
  lemma OtherOrigin(cfg: ServerConfig, reg: Registry, active: SessionRecord, routed: RouteResult, after: Registry,
                    k: LegKey)
    requires KeysOk(reg) && SideEffects(cfg, reg, active, routed) == Ok(after) && k in after.legs
    requires routed.packet.eventType != FileOffer || routed.packet.meta.fileId.None?
    ensures k in reg.legs && reg.legs[k].sender == after.legs[k].sender
    ensures routed.packet.meta.fileId == Some(k.fileId)
            ==> routed.packet.eventType != FileReject && routed.packet.eventType != FileAbort
    ensures after.legs[k].accepted && !reg.legs[k].accepted ==>
              routed.packet.eventType == FileAccept && routed.packet.meta.fileId == Some(k.fileId)
                  && k.receiver == active.connectionId
  {
  }

  lemma RoutedKeepsContent(s: Sessions, active: SessionRecord, p: EventPacket)
    requires RouteEvent(s, active, p).Ok?
    ensures var q := RouteEvent(s, active, p).value.packet;
            q.meta == p.meta && q.eventType == p.eventType && q.requestId == p.requestId
  {
  }

  lemma EffectOrigin(cfg: ServerConfig, r: RelayState, c: Uuid, p: EventPacket, routed: RouteResult, after: Registry,
                     k: LegKey)
    requires RelayOk(r) && c in r.sockets && RouteEvent(r.sessions, r.sockets[c], p) == Ok(routed)
    requires SideEffects(cfg, r.registry, r.sockets[c], routed) == Ok(after) && k in after.legs
    ensures Accounted(cfg, r, EventIn(c, p), k, after.legs[k])
  {
    RoutedKeepsContent(r.sessions, r.sockets[c], p);
    if p.eventType == FileOffer && p.meta.fileId.Some? {
      OfferOrigin(cfg, r, c, p, routed, k);
    } else {
      OtherOrigin(cfg, r.registry, r.sockets[c], routed, after, k);
      assert !Disturbs(cfg, r, EventIn(c, p), k.fileId, after.legs[k].sender, k.receiver);
    }
  }

  lemma EventOrigin(cfg: ServerConfig, r: RelayState, c: Uuid, p: EventPacket, k: LegKey)
    requires RelayOk(r) && c in r.sockets && k in HandleEvent(cfg, r, r.sockets[c], p).registry.legs
    ensures Accounted(cfg, r, EventIn(c, p), k, HandleEvent(cfg, r, r.sockets[c], p).registry.legs[k])
  {
    var routed := RouteEvent(r.sessions, r.sockets[c], p);
    if routed.Ok? {
      var after := SideEffects(cfg, r.registry, r.sockets[c], routed.value);
      if after.Ok? {
        EffectOrigin(cfg, r, c, p, routed.value, after.value, k);
      } else {
        RefusedOrigin(cfg, r, c, p, routed.value, k);
      }
    }
  }

  /** Rejects and aborts are never refused, and an offer only for its limits. */
  lemma RefusedKind(cfg: ServerConfig, reg: Registry, active: SessionRecord, routed: RouteResult)
    requires SideEffects(cfg, reg, active, routed).Err?
    ensures var e := routed.packet;
            && e.meta.fileId.Some? && e.eventType != FileReject && e.eventType != FileAbort
            && (e.eventType == FileOffer ==> OfferLimits(cfg, e.meta, e.meta.fileId.value).Err?)
  {
  }

  /** An event whose side effect is refused leaves every leg as it was and counts as no disturbance. */
  lemma RefusedOrigin(cfg: ServerConfig, r: RelayState, c: Uuid, p: EventPacket, routed: RouteResult, k: LegKey)
    requires RelayOk(r) && c in r.sockets && RouteEvent(r.sessions, r.sockets[c], p) == Ok(routed)
    requires SideEffects(cfg, r.registry, r.sockets[c], routed).Err? && k in r.registry.legs
    ensures Accounted(cfg, r, EventIn(c, p), k, r.registry.legs[k])
  {
    hide RouteEvent, SideEffects, RelayOk, OfferLimits;
    RoutedKeepsContent(r.sessions, r.sockets[c], p);
    RefusedKind(cfg, r.registry, r.sockets[c], routed);
  }

  lemma AckOrigin(cfg: ServerConfig, r: RelayState, c: Uuid, a: AckPacket, k: LegKey)
    requires RelayOk(r) && c in r.sockets && k in HandleAck(r, r.sockets[c], a).registry.legs
    ensures Accounted(cfg, r, AckIn(c, a), k, HandleAck(r, r.sockets[c], a).registry.legs[k])
  {
  }

  lemma GoneOrigin(cfg: ServerConfig, r: RelayState, i: Input, k: LegKey)
    requires RelayOk(r) && Possible(r, i) && (i.Expired? || i.Closed?)
    requires k in RemoveByConnection(r.registry, i.c).legs
    ensures Accounted(cfg, r, i, k, RemoveByConnection(r.registry, i.c).legs[k])
  {
  }

  lemma LegOrigin(cfg: ServerConfig, r: RelayState, i: Input, k: LegKey)
    requires RelayOk(r) && Possible(r, i) && k in Next(cfg, r, i).registry.legs
    ensures Accounted(cfg, r, i, k, Next(cfg, r, i).registry.legs[k])
  {
    match i
    case EventIn(c, p) => EventOrigin(cfg, r, c, p, k);
    case AckIn(c, a) => AckOrigin(cfg, r, c, a, k);
    case Expired(c, order) => GoneOrigin(cfg, r, i, k);
    case Closed(c, order) => GoneOrigin(cfg, r, i, k);
    case _ =>
      assert Next(cfg, r, i).registry == r.registry;
  }

  /** The leg was offered at i, nothing disturbed it between i and n, and if accepted its receiver accepted it in
      between. */
  ghost predicate OfferedSince(cfg: ServerConfig, inputs: seq<Input>, states: seq<RelayState>, i: nat, n: nat,
                               k: LegKey, rec: TransferRecord)
    requires n <= |inputs| <= |states|
  {
    && i < n && Offers(cfg, states[i], inputs[i], k.fileId, rec.sender, k.receiver)
    && (forall m :: i < m < n ==> !Disturbs(cfg, states[m], inputs[m], k.fileId, rec.sender, k.receiver))
    && (rec.accepted ==> exists j :: i < j < n && Accepts(states[j], inputs[j], k.fileId, k.receiver))
  }

  lemma {:induction false} LegHistory(cfg: ServerConfig, inputs: seq<Input>, states: seq<RelayState>, n: nat, k: LegKey)
    requires IsRun(cfg, inputs, states) && n <= |inputs| && k in states[n].registry.legs
    ensures exists i: nat :: OfferedSince(cfg, inputs, states, i, n, k, states[n].registry.legs[k])
  {
    if n > 0 {
      var m := n - 1;
      var rec := states[n].registry.legs[k];
      RunsKeep(cfg, inputs, states, m);
      LegOrigin(cfg, states[m], inputs[m], k);
      if !rec.accepted && Offers(cfg, states[m], inputs[m], k.fileId, rec.sender, k.receiver) {
        assert OfferedSince(cfg, inputs, states, m, n, k, rec);
      } else {
        LegHistory(cfg, inputs, states, m, k);
        var i: nat :| OfferedSince(cfg, inputs, states, i, m, k, states[m].registry.legs[k]);
        HistoryExtends(cfg, inputs, states, i, m, k, states[m].registry.legs[k], rec);
      }
    }
  }

  lemma HistoryExtends(cfg: ServerConfig, inputs: seq<Input>, states: seq<RelayState>, i: nat, m: nat, k: LegKey,
                       before: TransferRecord, rec: TransferRecord)
    requires m < |inputs| <= |states| && OfferedSince(cfg, inputs, states, i, m, k, before)
    requires before.sender == rec.sender
    requires !Disturbs(cfg, states[m], inputs[m], k.fileId, rec.sender, k.receiver)
    requires rec.accepted ==> before.accepted || Accepts(states[m], inputs[m], k.fileId, k.receiver)
    ensures OfferedSince(cfg, inputs, states, i, m + 1, k, rec)
  {
  }

  /** The sender offered at i, the receiver accepted at j, and nothing between i and n removed or reset the leg. */
  predicate Consented(cfg: ServerConfig, inputs: seq<Input>, states: seq<RelayState>, i: nat, j: nat, n: nat, f: Uuid,
                      sender: Uuid, receiver: Uuid)
    requires n <= |inputs| <= |states|
  {
    && i < j < n
    && Offers(cfg, states[i], inputs[i], f, sender, receiver)
    && Accepts(states[j], inputs[j], f, receiver)
    && forall m :: i < m < n ==> !Disturbs(cfg, states[m], inputs[m], f, sender, receiver)
  }

  lemma AcceptedLegConsented(cfg: ServerConfig, inputs: seq<Input>, states: seq<RelayState>, n: nat, k: LegKey)
    requires IsRun(cfg, inputs, states) && n <= |inputs| && k in states[n].registry.legs
    requires states[n].registry.legs[k].accepted
    ensures exists i: nat, j: nat ::
            Consented(cfg, inputs, states, i, j, n, k.fileId, states[n].registry.legs[k].sender, k.receiver)
  {
    var rec := states[n].registry.legs[k];
    LegHistory(cfg, inputs, states, n, k);
    var i: nat :| OfferedSince(cfg, inputs, states, i, n, k, rec);
    var j: nat :| i < j < n && Accepts(states[j], inputs[j], k.fileId, k.receiver);
    assert Consented(cfg, inputs, states, i, j, n, k.fileId, rec.sender, k.receiver);
  }

  /** Every binary frame the relay queues for a receiver is, byte for byte, the frame a sender just sent; and the run
      holds
      that sender's offer of the file routed to the receiver, then the receiver's accept, with nothing between the offer
      and the frame that removed or reset the leg. */
  lemma ForwardingFollowsConsent(cfg: ServerConfig, inputs: seq<Input>, states: seq<RelayState>, n: nat,
                                 receiver: Uuid, frame: seq<byte>)
    requires IsRun(cfg, inputs, states) && n < |inputs|
    requires receiver in states[n].outbound && receiver in states[n + 1].outbound
    requires |states[n].outbound[receiver]| < |states[n + 1].outbound[receiver]|
    requires BinaryFrame(frame) in states[n + 1].outbound[receiver][|states[n].outbound[receiver]|..]
    ensures inputs[n].BinaryIn? && inputs[n].bytes == frame && Decode(frame).Some?
    ensures exists i: nat, j: nat ::
              Consented(cfg, inputs, states, i, j, n, Decode(frame).value.0.fileId, inputs[n].c, receiver)
  {
    RunsKeep(cfg, inputs, states, n);
    OnlyFramesAreForwarded(cfg, states[n], inputs[n], receiver, frame);
    AcceptedLegConsented(cfg, inputs, states, n, LegKey(Decode(frame).value.0.fileId, receiver));
  }

  /** Only a binary input makes the relay queue a binary frame, and only to receivers of accepted legs of its sender. */
  lemma OnlyFramesAreForwarded(cfg: ServerConfig, r: RelayState, i: Input, receiver: Uuid, frame: seq<byte>)
    requires RelayOk(r) && Possible(r, i)
    requires receiver in r.outbound && receiver in Next(cfg, r, i).outbound
    requires |r.outbound[receiver]| < |Next(cfg, r, i).outbound[receiver]|
    requires BinaryFrame(frame) in Next(cfg, r, i).outbound[receiver][|r.outbound[receiver]|..]
    ensures i.BinaryIn? && i.bytes == frame && Decode(frame).Some?
    ensures var k := LegKey(Decode(frame).value.0.fileId, receiver);
            k in r.registry.legs && r.registry.legs[k].sender == i.c && r.registry.legs[k].accepted
  {
    match i
    case Expired(c, order) => GoneSendsText(cfg, r, i, receiver);
    case Closed(c, order) => GoneSendsText(cfg, r, i, receiver);
    case BinaryIn(c, bytes) =>
      var f := Decode(bytes).value.0.fileId;
      assert receiver in FrameReceivers(r, f, c);
      var k :| k in AcceptedLegs(r.registry, f, c) && r.registry.legs[k].receiver == receiver;
      assert k == LegKey(f, receiver);
    case _ => assert false;
  }

  lemma GoneSendsText(cfg: ServerConfig, r: RelayState, i: Input, receiver: Uuid)
    requires Possible(r, i) && (i.Expired? || i.Closed?) && receiver in r.outbound
    ensures receiver in Next(cfg, r, i).outbound && r.outbound[receiver] <= Next(cfg, r, i).outbound[receiver]
    ensures forall m :: m in Next(cfg, r, i).outbound[receiver][|r.outbound[receiver]|..] ==> !m.BinaryFrame?
  {
    var c := i.c;
    var base := if i.Expired? then Push(Reply(r.(sessions := RemoveSession(r.sessions, c)), c, TimedOut), c, CloseFrame)
                else r.(sessions := RemoveSession(r.sessions, c), sockets := r.sockets - {c});
    var gone := if i.Expired? then r.sessions.connections[c] else r.sockets[c];
    NotifyAppends(base.sessions, base.outbound, gone, RecordsOf(r.registry, i.order));
    NoticesAreAborts(base.sessions, gone, RecordsOf(r.registry, i.order), receiver);
  }
}
