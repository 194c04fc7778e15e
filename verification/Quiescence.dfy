/** Unicast quiescence over all runs of the whole system: the world's steps are, for one unicast file, the acts of
    its own protocol, so when its messages have died down nothing is held for it anywhere. */
module Quiescence {
  import opened Basics
  import opened Packets
  import opened FileStore
  import opened Client
  import opened Sessions
  import opened Routing
  import opened Transfers
  import opened Protocol
  import opened DrawnIds
  import opened Delivery
  import opened FileMessages
  import opened UnicastProtocol
  import opened UnicastEnds
  import opened UnicastRelay
  import Chunking
  import ChunkCodec
  import R = Relay
  import RR = RelayRuns

  /** Running, registered, and with both queues of its socket open. */
  predicate Linked(w: World, c: Uuid) {
    c in w.nodes && w.nodes[c].alive && c in w.relay.sessions.connections && c in w.relay.outbound
  }

  /** A file offered to one named client, whose two ends are linked: not yet taken by the relay, or passed on to another
      connection. */
  predicate Watched(w: World, f: Uuid) {
    && f in w.started && Proper(w.started[f].to)
    && Linked(w, w.started[f].owner)
    && (f !in w.offered || (f in w.routed && w.routed[f] != w.started[f].owner && Linked(w, w.routed[f])))
  }

  /** What is on its way to a client: its JSON queue, then what the relay still holds for it. */
  function Pipe(w: World, c: Uuid): seq<WireMessage>
    requires c in w.nodes && c in w.relay.outbound
  {
    Wires(w.nodes[c].inbound) + w.relay.outbound[c]
  }

  function ReceiverId(w: World, f: Uuid): Option<Uuid> {
    if f in w.routed then Some(w.routed[f]) else None
  }

  /** Nothing of the file at this client. */
  predicate CleanNode(done: Done, w: World, f: Uuid, c: Uuid)
    requires c in w.nodes
  {
    && f !in w.nodes[c].client.store && f !in w.nodes[c].client.tasks
    && QuietAll(done, f, w.nodes[c].client.outbox)
    && QuietAll(done, f, Wires(w.nodes[c].inbound))
    && (c in w.relay.outbound ==> QuietAll(done, f, w.relay.outbound[c]))
  }

  function SenderName(w: World, f: Uuid): Endpoint
    requires f in w.started && w.started[f].owner in w.relay.sessions.connections
  {
    w.relay.sessions.connections[w.started[f].owner].Endpoint()
  }

  predicate SendEndTidy(done: Done, w: World, f: Uuid)
    requires Watched(w, f)
  {
    SenderTidy(done, f, w.started[f].to, w.nodes[w.started[f].owner].client)
  }

  /** The receiving end answers to the sender's name, and the sender's target is the receiver's name. */
  predicate ReceiveEndTidy(done: Done, w: World, f: Uuid)
    requires Watched(w, f) && f in w.routed && Linked(w, w.routed[f])
  {
    && ReceiverTidy(done, f, SenderName(w, f), w.nodes[w.routed[f]].client)
    && Named(w.relay.sessions, w.routed[f], w.started[f].to)
    && forall m :: m in Pipe(w, w.routed[f]) && m.TextFrame? ==> OffersFrom(f, m.packet, SenderName(w, f))
  }

  ghost predicate Tidy(done: Done, w: World, f: Uuid)
    requires Watched(w, f)
  {
    && SendEndTidy(done, w, f)
    && (f !in w.offered ==> f !in w.routed)
    && (f in w.routed ==> Linked(w, w.routed[f]) && ReceiveEndTidy(done, w, f))
    && (forall c :: c in w.nodes && c != w.started[f].owner && ReceiverId(w, f) != Some(c) ==> CleanNode(done, w, f, c))
    && RegistryTidy(done, f, w.relay.registry, w.started[f].owner, ReceiverId(w, f))
  }

  predicate SeesSendEnd(done: Done, w: World, f: Uuid, v: FileView)
    requires Watched(w, f)
  {
    SeesSender(done, f, w.nodes[w.started[f].owner].client, v)
        && v.downS == OfWire(done, f, Pipe(w, w.started[f].owner))
  }

  predicate SeesReceiveEnd(done: Done, w: World, f: Uuid, v: FileView)
    requires f in w.routed ==> Linked(w, w.routed[f])
  {
    if f in w.routed then
      && SeesReceiver(done, f, w.nodes[w.routed[f]].client, v)
      && v.downR == OfWire(done, f, Pipe(w, w.routed[f]))
      && v.leg == (LegKey(f, w.routed[f]) in w.relay.registry.legs)
    else v.receiver == Empty && v.upR == [] && v.downR == [] && !v.leg
  }

  predicate SeesRest(done: Done, w: World, f: Uuid, v: FileView) {
    && v.indexed == Indexed(done, f, w.relay.registry)
    && v.completed == (f in w.completions)
    && v.early == (f in w.early)
    && v.dropped == (f in w.dropped)
    && (f !in w.offered <==> MOffer in v.upS)
  }

  /** The file's own view of the world. */
  ghost predicate Sees(done: Done, w: World, f: Uuid, v: FileView)
    requires Watched(w, f) && Tidy(done, w, f)
  {
    SeesSendEnd(done, w, f, v) && SeesReceiveEnd(done, w, f, v) && SeesRest(done, w, f, v)
  }

  ghost predicate InOrder(done: Done, w: World, f: Uuid, v: FileView)
    requires Watched(w, f)
  {
    Tidy(done, w, f) && Sees(done, w, f, v) && Inv(v)
  }

  ghost predicate Settled(done: Done, w: World, f: Uuid) {
    Watched(w, f) ==> exists v :: InOrder(done, w, f, v)
  }

  /** The act was possible, and the file is in order as the act leaves it. */
  ghost predicate ByAct(done: Done, w: World, f: Uuid, u: FileView, a: Act)
    requires Watched(w, f)
  {
    Possible(u, a) && InOrder(done, w, f, Do(u, a))
  }

  /** The file is in order as it was, or as one act of its own protocol leaves it. */
  ghost predicate Acted(done: Done, w: World, f: Uuid, u: FileView)
    requires Watched(w, f)
  {
    InOrder(done, w, f, u) || exists a :: ByAct(done, w, f, u, a)
  }

  lemma ActedSettles(done: Done, w: World, f: Uuid, u: FileView)
    ensures Watched(w, f) && Acted(done, w, f, u) ==> Settled(done, w, f)
  {
    hide InOrder, Do, Possible;
    if Watched(w, f) && Acted(done, w, f, u) && !InOrder(done, w, f, u) {
      var a :| ByAct(done, w, f, u, a);
      assert InOrder(done, w, f, Do(u, a));
    }
  }

  // ---------- steps that are not about the file ----------

  predicate SameFileAt(done: Done, f: Uuid, c: ClientState, d: ClientState) {
    && (f in d.store <==> f in c.store) && (f in c.store ==> d.store[f] == c.store[f])
    && (f in d.tasks <==> f in c.tasks) && (f in c.tasks ==> d.tasks[f] == c.tasks[f])
    && OfWire(done, f, d.outbox) == OfWire(done, f, c.outbox)
    && (forall m :: m in d.outbox && WireMsg(done, f, m) != [] ==> m in c.outbox)
  }

  /** Of the file's messages the client has received, or will, none is new. */
  predicate NothingNewIn(done: Done, f: Uuid, w: World, v: World, c: Uuid)
    requires c in w.nodes && c in v.nodes
  {
    && (forall p :: p in v.nodes[c].inbound && MsgOf(done, f, p) != [] ==>
          p in w.nodes[c].inbound || (c in w.relay.outbound && TextFrame(p) in w.relay.outbound[c]))
    && (c in v.relay.outbound ==>
          && c in w.relay.outbound
          && (forall m :: m in v.relay.outbound[c] && WireMsg(done, f, m) != [] ==> m in w.relay.outbound[c])
          && OfWire(done, f, Pipe(v, c)) == OfWire(done, f, Pipe(w, c)))
  }

  predicate QuietAt(done: Done, f: Uuid, w: World, v: World, c: Uuid)
    requires c in w.nodes
  {
    c in v.nodes && SameFileAt(done, f, w.nodes[c].client, v.nodes[c].client) && NothingNewIn(done, f, w, v, c)
  }

  predicate SameHistory(f: Uuid, w: World, v: World) {
    && f in w.started && f in v.started && v.started[f] == w.started[f]
    && (f in v.offered <==> f in w.offered)
    && (f in v.completions <==> f in w.completions)
    && (f in v.early <==> f in w.early)
    && (f in v.dropped <==> f in w.dropped)
    && ReceiverId(v, f) == ReceiverId(w, f)
  }

  predicate SameRelay(done: Done, f: Uuid, w: World, v: World) {
    && SameForFile(done, f, w.relay.registry, v.relay.registry)
    && (forall c :: c in w.nodes && c in v.relay.sessions.connections ==>
          c in w.relay.sessions.connections
          && v.relay.sessions.connections[c].Endpoint() == w.relay.sessions.connections[c].Endpoint())
  }

  ghost predicate QuietWorld(done: Done, f: Uuid, w: World, v: World) {
    && SameHistory(f, w, v) && SameRelay(done, f, w, v)
    && (forall c :: c in w.nodes ==> QuietAt(done, f, w, v, c))
    && (forall c :: c in v.nodes && c !in w.nodes ==> CleanNode(done, v, f, c))
  }

  lemma PipeMember(w: World, c: Uuid, m: WireMessage)
    requires c in w.nodes && c in w.relay.outbound
    ensures m in Pipe(w, c) <==> (m.TextFrame? && m.packet in w.nodes[c].inbound) || m in w.relay.outbound[c]
  {
    var ps := w.nodes[c].inbound;
    if m.TextFrame? && m.packet in ps {
      var i :| 0 <= i < |ps| && ps[i] == m.packet;
      assert Wires(ps)[i] == m;
    }
  }

  lemma WireMember(ps: seq<Packet>, m: WireMessage)
    ensures m in Wires(ps) <==> m.TextFrame? && m.packet in ps
  {
    if m.TextFrame? && m.packet in ps {
      var i :| 0 <= i < |ps| && ps[i] == m.packet;
      assert Wires(ps)[i] == m;
    }
  }

  lemma QuietSendEnd(done: Done, f: Uuid, w: World, v: World, u: FileView)
    requires Watched(w, f) && Watched(v, f) && QuietWorld(done, f, w, v)
    requires SendEndTidy(done, w, f) && SeesSendEnd(done, w, f, u)
    ensures SendEndTidy(done, v, f) && SeesSendEnd(done, v, f, u)
  {
    hide OfWire, MsgOf, GoesTo, SameRelay;
    assert QuietAt(done, f, w, v, w.started[f].owner);
  }

  lemma QuietReceiveEnd(done: Done, f: Uuid, w: World, v: World, u: FileView)
    requires Watched(w, f) && Watched(v, f) && QuietWorld(done, f, w, v) && f in w.routed && Linked(w, w.routed[f])
    requires Linked(v, w.routed[f])
    requires ReceiveEndTidy(done, w, f) && SeesReceiveEnd(done, w, f, u)
    ensures ReceiveEndTidy(done, v, f) && SeesReceiveEnd(done, v, f, u)
  {
    var c := w.routed[f];
    assert QuietAt(done, f, w, v, c);
    assert v.routed[f] == c;
    assert SameFileAt(done, f, w.nodes[c].client, v.nodes[c].client);
    var from := w.relay.sessions.connections[w.started[f].owner].Endpoint();
    forall m | m in Pipe(v, c) && m.TextFrame?
      ensures OffersFrom(f, m.packet, from)
    {
      PipeMember(v, c, m);
      PipeMember(w, c, m);
      OfferIsMessage(done, f, m.packet);
      assert WireMsg(done, f, m) == MsgOf(done, f, m.packet);
    }
  }

  lemma OfferIsMessage(done: Done, f: Uuid, p: Packet)
    ensures p.Event? && p.event.eventType == FileOffer && p.event.meta.fileId == Some(f) ==> MsgOf(done, f, p) != []
  {
  }

  lemma QuietClean(done: Done, f: Uuid, w: World, v: World, c: Uuid)
    requires c in w.nodes && QuietAt(done, f, w, v, c) && CleanNode(done, w, f, c)
    ensures CleanNode(done, v, f, c)
  {
    forall m | m in Wires(v.nodes[c].inbound)
      ensures WireMsg(done, f, m) == []
    {
      WireMember(v.nodes[c].inbound, m);
      WireMember(w.nodes[c].inbound, m);
    }
    QuietNone(done, f, w.nodes[c].client.outbox);
    QuietNone(done, f, v.nodes[c].client.outbox);
  }

  lemma QuietTidy(done: Done, f: Uuid, w: World, v: World, u: FileView)
    requires Watched(w, f) && Watched(v, f) && QuietWorld(done, f, w, v) && Tidy(done, w, f) && Sees(done, w, f, u)
    ensures Tidy(done, v, f)
  {
    QuietSendEnd(done, f, w, v, u);
    if f in w.routed {
      assert v.routed[f] == w.routed[f];
      QuietReceiveEnd(done, f, w, v, u);
    }
    forall c | c in v.nodes && c != w.started[f].owner && ReceiverId(v, f) != Some(c)
      ensures CleanNode(done, v, f, c)
    {
      if c in w.nodes { QuietClean(done, f, w, v, c); }
    }
    SameStaysTidy(done, f, w.relay.registry, v.relay.registry, w.started[f].owner, ReceiverId(w, f));
  }

  /** The file's view is unchanged. */
  lemma QuietKeeps(done: Done, f: Uuid, w: World, v: World, u: FileView)
    requires Watched(w, f) && Watched(v, f) && QuietWorld(done, f, w, v) && InOrder(done, w, f, u)
    ensures InOrder(done, v, f, u)
  {
    QuietTidy(done, f, w, v, u);
    QuietSendEnd(done, f, w, v, u);
    if f in w.routed {
      assert v.routed[f] == w.routed[f];
      QuietReceiveEnd(done, f, w, v, u);
    }
  }

  // ---------- which steps these are ----------

  /** What earlier modules establish of every state of a run; z is its last state. */
  ghost predicate Ready(z: World, setup: Setup, w: World) {
    WorldSound(w) && WorldHonest(z, setup.digest, w) && Extends(w, z) && IdsOk(z)
  }

  lemma HonestAcks(z: World, setup: Setup, c: ClientState)
    requires ClientHonest(z, setup.digest, c) && IdsOk(z)
    ensures AcksKnown(z.completions, c)
  {
  }

  lemma HonestIds(z: World, setup: Setup, w: World)
    requires Ready(z, setup, w)
    ensures IdsKnown(z.drawn, z.completions, w.relay.registry)
  {
  }

  lemma PopInbound(done: Done, f: Uuid, ps: seq<Packet>, out: seq<WireMessage>)
    requires ps != []
    ensures OfWire(done, f, Wires(ps) + out) == MsgOf(done, f, ps[0]) + OfWire(done, f, Wires(ps[1..]) + out)
  {
    hide OfWire, MsgOf;
    var queue := Wires(ps) + out;
    Head(done, f, queue);
    assert queue[1..] == Wires(ps[1..]) + out;
  }

  lemma QuietSame(done: Done, f: Uuid, w: World, v: World, c: Uuid)
    requires c in w.nodes && c in v.nodes && v.nodes[c].client == w.nodes[c].client
    requires v.nodes[c].inbound == w.nodes[c].inbound
    requires c in v.relay.outbound ==> c in w.relay.outbound && v.relay.outbound[c] == w.relay.outbound[c]
    ensures QuietAt(done, f, w, v, c)
  {
  }

  lemma QuietlySame(done: Done, f: Uuid, c: ClientState, d: ClientState)
    requires Quietly(done, f, c, d)
    ensures SameFileAt(done, f, c, d)
  {
    assert d.outbox == c.outbox + d.outbox[|c.outbox|..];
    Concat(done, f, c.outbox, d.outbox[|c.outbox|..]);
    QuietNone(done, f, d.outbox[|c.outbox|..]);
    forall m | m in d.outbox && WireMsg(done, f, m) != []
      ensures m in c.outbox
    {
      InEither(c.outbox, d.outbox, m);
    }
  }

  /** A step pops at most the head of the JSON queue. */
  lemma PoppedQuiet(done: Done, f: Uuid, w: World, v: World, c: Uuid, s: ClientStep)
    requires c in w.nodes && c in v.nodes && v.relay == w.relay && v.nodes[c].inbound == Popped(w.nodes[c], s).inbound
    requires s.Receive? ==> w.nodes[c].inbound != [] && MsgOf(done, f, w.nodes[c].inbound[0]) == []
    ensures NothingNewIn(done, f, w, v, c)
  {
    if s.Receive? && c in w.relay.outbound {
      PopInbound(done, f, w.nodes[c].inbound, w.relay.outbound[c]);
    }
  }

  /** A step that is not about the file neither loses its ack nor drops it. */
  lemma NotRecorded(z: World, setup: Setup, c: ClientState, f: Uuid, s: ClientStep)
    requires ClientHonest(z, setup.digest, c) && !AboutFile(z.completions, f, c, s)
    ensures f !in GapFiles(c, s) && f !in DropFiles(c, s)
  {
    if f in c.tasks {
      assert TaskHonest(z, setup.digest, f, c.tasks[f]);
    }
  }

  lemma SameFileSame(done: Done, f: Uuid, c: ClientState)
    ensures SameFileAt(done, f, c, c)
  {
  }

  lemma ClientQuiet(z: World, setup: Setup, w: World, c: Uuid, s: ClientStep, v: World, f: Uuid)
    requires Ready(z, setup, w) && ClientStepTo(setup, w, c, s, v) && !AboutFile(z.completions, f, w.nodes[c].client, s)
    ensures SameFileAt(z.completions, f, w.nodes[c].client, v.nodes[c].client)
  {
    hide Client.Next, WorldSound, OfWire, WireMsg, Quietly, SameFileAt, AboutFile;
    var done := z.completions;
    var n := w.nodes[c];
    assert NodeHonest(z, setup.digest, n);
    HonestAcks(z, setup, n.client);
    if s.Receive? { assert PacketHonest(z, setup.digest, s.packet); }
    if Client.Next(n.cfg, setup.digest, n.client, s).Ok? {
      OthersQuiet(done, f, n.cfg, setup.digest, n.client, s);
      QuietlySame(done, f, n.client, v.nodes[c].client);
    } else {
      SameFileSame(done, f, n.client);
    }
  }

  lemma EarlyIs(setup: Setup, w: World, c: Uuid, s: ClientStep, v: World, f: Uuid)
    requires ClientStepTo(setup, w, c, s, v)
    ensures f in v.early <==> f in w.early || f in GapFiles(w.nodes[c].client, s)
    ensures f in v.dropped <==> f in w.dropped || f in DropFiles(w.nodes[c].client, s)
  {
    hide Client.Next, ClientEnabled, GapFiles, DropFiles;
  }

  lemma CompletedIs(setup: Setup, w: World, c: Uuid, s: ClientStep, v: World, f: Uuid)
    requires ClientStepTo(setup, w, c, s, v) && f in w.started
    ensures f in v.completions <==> f in w.completions || (s.Complete? && s.fileId == f)
    ensures f in v.started && v.started[f] == w.started[f] && v.offered == w.offered && v.routed == w.routed
  {
  }

  lemma AtHistory(z: World, setup: Setup, w: World, c: Uuid, s: ClientStep, v: World, f: Uuid)
    requires ClientStepTo(setup, w, c, s, v) && f in w.started && ClientHonest(z, setup.digest, w.nodes[c].client)
    requires !AboutFile(z.completions, f, w.nodes[c].client, s)
    ensures SameHistory(f, w, v)
  {
    NotRecorded(z, setup, w.nodes[c].client, f, s);
    EarlyIs(setup, w, c, s, v, f);
    CompletedIs(setup, w, c, s, v, f);
  }

  /** A client step changes one node and nothing else. */
  lemma AtShape(setup: Setup, w: World, c: Uuid, s: ClientStep, v: World)
    requires ClientStepTo(setup, w, c, s, v)
    ensures v.relay == w.relay && c in w.nodes && v.nodes.Keys == w.nodes.Keys
    ensures forall d :: d in w.nodes && d != c ==> v.nodes[d] == w.nodes[d]
    ensures v.nodes[c].inbound == Popped(w.nodes[c], s).inbound && v.nodes[c].cfg == w.nodes[c].cfg
    ensures s.Receive? ==> w.nodes[c].inbound != [] && s.packet == w.nodes[c].inbound[0]
    ensures v.offered == w.offered && v.routed == w.routed
  {
  }

  lemma AtPieces(z: World, setup: Setup, w: World, c: Uuid, s: ClientStep, v: World, f: Uuid)
    requires Ready(z, setup, w) && ClientStepTo(setup, w, c, s, v) && f in w.started
    requires !AboutFile(z.completions, f, w.nodes[c].client, s)
    ensures SameHistory(f, w, v) && SameFileAt(z.completions, f, w.nodes[c].client, v.nodes[c].client)
  {
    assert NodeHonest(z, setup.digest, w.nodes[c]);
    ClientQuiet(z, setup, w, c, s, v, f);
    AtHistory(z, setup, w, c, s, v, f);
  }

  lemma AtQuiet(z: World, setup: Setup, w: World, c: Uuid, s: ClientStep, v: World, f: Uuid)
    requires Ready(z, setup, w) && ClientStepTo(setup, w, c, s, v) && f in w.started
    requires !AboutFile(z.completions, f, w.nodes[c].client, s)
    ensures QuietWorld(z.completions, f, w, v)
  {
    AtPieces(z, setup, w, c, s, v, f);
    AtShape(setup, w, c, s, v);
    OneNodeQuiet(z.completions, f, w, v, c, s);
  }

  lemma OneNodeQuiet(done: Done, f: Uuid, w: World, v: World, c: Uuid, s: ClientStep)
    requires SameHistory(f, w, v) && v.relay == w.relay && c in w.nodes && v.nodes.Keys == w.nodes.Keys
    requires forall d :: d in w.nodes && d != c ==> v.nodes[d] == w.nodes[d]
    requires SameFileAt(done, f, w.nodes[c].client, v.nodes[c].client)
    requires v.nodes[c].inbound == Popped(w.nodes[c], s).inbound
    requires s.Receive? ==> w.nodes[c].inbound != [] && MsgOf(done, f, w.nodes[c].inbound[0]) == []
    ensures QuietWorld(done, f, w, v)
  {
    PoppedQuiet(done, f, w, v, c, s);
    forall d | d in w.nodes
      ensures QuietAt(done, f, w, v, d)
    {
      if d != c { QuietSame(done, f, w, v, d); }
    }
  }

  lemma ChatQuiet(done: Done, f: Uuid, e: EventPacket)
    requires IsChat(e)
    ensures WireMsg(done, f, TextFrame(Event(e))) == []
  {
  }

  lemma SayQuiet(done: Done, setup: Setup, w: World, c: Uuid, e: EventPacket, v: World, f: Uuid)
    requires StepTo(setup, w, Say(c, e), v) && f in w.started
    ensures QuietWorld(done, f, w, v)
  {
    hide OfWire, WireMsg, IsChat, Quietly;
    ChatQuiet(done, f, e);
    AddedOne(done, f, w.nodes[c].client, v.nodes[c].client, TextFrame(Event(e)));
    SaidQuietly(done, f, w.nodes[c].client, v.nodes[c].client);
    QuietlySame(done, f, w.nodes[c].client, v.nodes[c].client);
    NodeQuiet(done, f, w, v, c);
  }

  lemma SaidQuietly(done: Done, f: Uuid, c: ClientState, d: ClientState)
    requires d.store == c.store && d.tasks == c.tasks
    requires c.outbox <= d.outbox && QuietAll(done, f, d.outbox[|c.outbox|..])
    ensures Quietly(done, f, c, d)
  {
  }

  /** Relay and other nodes as before, and one node that keeps its queues and, of the file, its client. */
  lemma NodeQuiet(done: Done, f: Uuid, w: World, v: World, c: Uuid)
    requires SameHistory(f, w, v) && v.relay == w.relay && c in w.nodes && v.nodes.Keys == w.nodes.Keys
    requires forall d :: d in w.nodes && d != c ==> v.nodes[d] == w.nodes[d]
    requires SameFileAt(done, f, w.nodes[c].client, v.nodes[c].client) && v.nodes[c].inbound == w.nodes[c].inbound
    ensures QuietWorld(done, f, w, v)
  {
    hide OfWire, WireMsg;
    forall d | d in w.nodes
      ensures QuietAt(done, f, w, v, d)
    {
      if d != c { QuietSame(done, f, w, v, d); }
    }
  }

  lemma DieQuiet(done: Done, setup: Setup, w: World, c: Uuid, v: World, f: Uuid)
    requires StepTo(setup, w, Die(c), v) && f in w.started
    ensures QuietWorld(done, f, w, v)
  {
    hide OfWire, WireMsg, SameFileAt;
    SameFileSame(done, f, w.nodes[c].client);
    NodeQuiet(done, f, w, v, c);
  }

  /** Reading the socket moves a message from one queue to the next. */
  lemma MovedPacket(ps: seq<Packet>, p: Packet, rest: seq<WireMessage>)
    ensures Wires(ps + [p]) + rest == Wires(ps) + ([TextFrame(p)] + rest)
  {
    assert Wires(ps + [p]) == Wires(ps) + [TextFrame(p)];
  }

  lemma QuietHead(done: Done, f: Uuid, ms: seq<WireMessage>)
    requires ms != [] && WireMsg(done, f, ms[0]) == []
    ensures OfWire(done, f, ms) == OfWire(done, f, ms[1..])
  {
    Head(done, f, ms);
  }

  lemma MovedOther(done: Done, f: Uuid, ps: seq<Packet>, out: seq<WireMessage>)
    requires out != [] && !out[0].TextFrame?
    ensures OfWire(done, f, Wires(ps) + out[1..]) == OfWire(done, f, Wires(ps) + out)
  {
    var front := Wires(ps);
    QuietHead(done, f, out);
    Concat(done, f, front, out);
    Concat(done, f, front, out[1..]);
  }

  lemma DeliveredIn(done: Done, w: World, c: Uuid, v: World, f: Uuid)
    requires DeliverTo(w, c, v)
    ensures NothingNewIn(done, f, w, v, c)
  {
    var out := w.relay.outbound[c];
    if out[0].TextFrame? {
      MovedPacket(w.nodes[c].inbound, out[0].packet, out[1..]);
      assert [out[0]] + out[1..] == out;
    } else {
      MovedOther(done, f, w.nodes[c].inbound, out);
    }
  }

  lemma DeliverQuiet(done: Done, w: World, c: Uuid, v: World, f: Uuid)
    requires DeliverTo(w, c, v) && f in w.started
    ensures QuietWorld(done, f, w, v)
  {
    DeliveredIn(done, w, c, v, f);
    forall d | d in w.nodes
      ensures QuietAt(done, f, w, v, d)
    {
      if d != c { QuietSame(done, f, w, v, d); }
    }
  }

  lemma QuietChannel(done: Done, f: Uuid, ps: seq<Packet>, out: seq<WireMessage>, next: seq<WireMessage>)
    requires out <= next && QuietAll(done, f, next[|out|..])
    ensures OfWire(done, f, Wires(ps) + next) == OfWire(done, f, Wires(ps) + out)
    ensures forall m :: m in next && WireMsg(done, f, m) != [] ==> m in out
  {
    var rest := next[|out|..];
    assert Wires(ps) + next == (Wires(ps) + out) + rest;
    Concat(done, f, Wires(ps) + out, rest);
    QuietNone(done, f, rest);
    forall m | m in next && WireMsg(done, f, m) != []
      ensures m in out
    {
      InEither(out, next, m);
    }
  }

  /** A change of the relay that is not about the file. */
  ghost predicate QuietRelay(done: Done, f: Uuid, r: R.RelayState, t: R.RelayState) {
    SameForFile(done, f, r.registry, t.registry) && QuietOut(done, f, r.outbound, t.outbound)
        && SameNames(r.sessions, t.sessions)
  }

  lemma RelayQuietAt(done: Done, f: Uuid, w: World, v: World, c: Uuid)
    requires c in w.nodes && c in v.nodes && QuietRelay(done, f, w.relay, v.relay)
    requires SameFileAt(done, f, w.nodes[c].client, v.nodes[c].client) && v.nodes[c].inbound == w.nodes[c].inbound
    ensures QuietAt(done, f, w, v, c)
  {
    if c in v.relay.outbound {
      QuietChannel(done, f, w.nodes[c].inbound, w.relay.outbound[c], v.relay.outbound[c]);
    }
  }

  predicate InputQuiet(done: Done, f: Uuid, i: R.Input) {
    match i
    case EventIn(_, e) => MsgOf(done, f, Event(e)) == []
    case AckIn(_, a) => MsgOf(done, f, Ack(a)) == []
    case _ => true
  }

  /** What the relay does on a message that is not about the file, or when a connection that is no end of it goes. */
  lemma NextQuiet(z: World, setup: Setup, w: World, i: R.Input, f: Uuid)
    requires Ready(z, setup, w) && R.Possible(w.relay, i) && !i.Init? && InputQuiet(z.completions, f, i)
    requires InputHonest(z, setup.digest, i)
    requires i.Expired? || i.Closed? ==> forall k :: k in LegsNaming(w.relay.registry, i.c) ==> k.fileId != f
    ensures QuietRelay(z.completions, f, w.relay, R.Next(setup.server, w.relay, i))
  {
    var done := z.completions;
    HonestIds(z, setup, w);
    match i
    case EventIn(c, e) => EventOther(z.drawn, done, f, setup.server, w.relay, w.relay.sockets[c], e);
    case AckIn(c, a) => UnicastRelay.AckOther(z.drawn, done, f, w.relay, w.relay.sockets[c], a);
    case BinaryIn(c, bytes) => BinaryOther(done, f, w.relay, w.relay.sockets[c], bytes);
    case Heartbeat(c, now) => BeatOther(done, f, w.relay, c, now);
    case Expired(c, order) => ExpireOther(z.drawn, done, f, w.relay, c, order);
    case Closed(c, order) => CloseOther(z.drawn, done, f, w.relay, c, order);
    case WriterEnded(c) =>
  }

  lemma PoppedOutbox(done: Done, f: Uuid, c: ClientState)
    requires c.outbox != [] && WireMsg(done, f, c.outbox[0]) == []
    ensures SameFileAt(done, f, c, c.(outbox := c.outbox[1..]))
  {
    Head(done, f, c.outbox);
  }

  lemma ForwardRelayQuiet(z: World, setup: Setup, w: World, c: Uuid, v: World, f: Uuid)
    requires Ready(z, setup, w) && ForwardTo(setup, w, c, v)
    requires WireMsg(z.completions, f, w.nodes[c].client.outbox[0]) == []
    ensures QuietRelay(z.completions, f, w.relay, v.relay)
  {
    var m := w.nodes[c].client.outbox[0];
    assert NodeHonest(z, setup.digest, w.nodes[c]);
    assert MessageHonest(z, setup.digest, m);
    NextQuiet(z, setup, w, InputFrom(c, m).value, f);
  }

  /** Taking a message that is not about the file records nothing of it. */
  lemma ForwardHistory(done: Done, setup: Setup, w: World, c: Uuid, v: World, f: Uuid)
    requires ForwardTo(setup, w, c, v) && f in w.started && WireMsg(done, f, w.nodes[c].client.outbox[0]) == []
    ensures SameHistory(f, w, v)
  {
  }

  /** The relay changed nothing of the file, and one client sent a message that is not about it. */
  lemma SentQuiet(done: Done, f: Uuid, w: World, v: World, c: Uuid)
    requires SameHistory(f, w, v) && QuietRelay(done, f, w.relay, v.relay)
    requires c in w.nodes && w.nodes[c].client.outbox != [] && WireMsg(done, f, w.nodes[c].client.outbox[0]) == []
    requires v.nodes == w.nodes[c := Sent(w.nodes[c])]
    ensures QuietWorld(done, f, w, v)
  {
    hide OfWire, WireMsg, SameFileAt;
    PoppedOutbox(done, f, w.nodes[c].client);
    forall d | d in w.nodes
      ensures QuietAt(done, f, w, v, d)
    {
      if d != c { SameFileSame(done, f, w.nodes[d].client); }
      RelayQuietAt(done, f, w, v, d);
    }
  }

  lemma ForwardQuiet(z: World, setup: Setup, w: World, c: Uuid, v: World, f: Uuid)
    requires Ready(z, setup, w) && ForwardTo(setup, w, c, v) && f in w.started
    requires WireMsg(z.completions, f, w.nodes[c].client.outbox[0]) == []
    ensures QuietWorld(z.completions, f, w, v)
  {
    hide R.Next, Ready, WireMsg, SameHistory, QuietRelay, QuietWorld;
    ForwardRelayQuiet(z, setup, w, c, v, f);
    ForwardHistory(z.completions, setup, w, c, v, f);
    SentQuiet(z.completions, f, w, v, c);
  }

  lemma SameNodesQuiet(done: Done, f: Uuid, w: World, v: World)
    requires SameHistory(f, w, v) && QuietRelay(done, f, w.relay, v.relay) && v.nodes == w.nodes
    ensures QuietWorld(done, f, w, v)
  {
    hide OfWire, WireMsg, SameFileAt;
    forall d | d in w.nodes
      ensures QuietAt(done, f, w, v, d)
    {
      SameFileSame(done, f, w.nodes[d].client);
      RelayQuietAt(done, f, w, v, d);
    }
  }

  lemma AtRelayQuiet(z: World, setup: Setup, w: World, i: R.Input, v: World, f: Uuid)
    requires Ready(z, setup, w) && StepTo(setup, w, AtRelay(i), v) && f in w.started
    requires i.Expired? || i.Closed? ==> forall k :: k in LegsNaming(w.relay.registry, i.c) ==> k.fileId != f
    ensures QuietWorld(z.completions, f, w, v)
  {
    hide R.Next, Ready, QuietRelay, QuietWorld;
    NextQuiet(z, setup, w, i, f);
    SameNodesQuiet(z.completions, f, w, v);
  }

  lemma Newcomer(done: Done, setup: Setup, w: World, s: Step, v: World, f: Uuid, c: Uuid)
    requires s.Connect? && StepTo(setup, w, s, v) && c in v.nodes && c !in w.nodes
    ensures CleanNode(done, v, f, c)
  {
    assert v.relay.outbound[c] == [TextFrame(InitAck)];
  }

  lemma InitSame(done: Done, f: Uuid, w: World, rec: SessionRecord, v: World)
    requires v.relay == R.HandleInit(w.relay, rec) && rec.connectionId !in w.nodes
    ensures SameRelay(done, f, w, v)
    ensures forall d :: d in w.nodes && d in v.relay.outbound ==>
              d in w.relay.outbound && v.relay.outbound[d] == w.relay.outbound[d]
  {
  }

  lemma ConnectQuiet(done: Done, setup: Setup, w: World, s: Step, v: World, f: Uuid)
    requires s.Connect? && StepTo(setup, w, s, v) && f in w.started
    ensures QuietWorld(done, f, w, v)
  {
    InitSame(done, f, w, s.rec, v);
    forall d | d in w.nodes
      ensures QuietAt(done, f, w, v, d)
    {
      QuietSame(done, f, w, v, d);
    }
    forall d | d in v.nodes && d !in w.nodes
      ensures CleanNode(done, v, f, d)
    {
      Newcomer(done, setup, w, s, v, f, d);
    }
  }

  // ---------- steps of the sender ----------

  predicate OnlyNode(w: World, v: World, c: Uuid) {
    && v.relay == w.relay && c in w.nodes && v.nodes.Keys == w.nodes.Keys
    && (forall d :: d in w.nodes && d != c ==> v.nodes[d] == w.nodes[d])
    && v.offered == w.offered && v.routed == w.routed
  }

  predicate SameReceiverPart(u: FileView, t: FileView) {
    t.receiver == u.receiver && t.upR == u.upR && t.downR == u.downR && t.leg == u.leg && t.indexed == u.indexed
  }

  lemma SenderChanged(done: Done, f: Uuid, w: World, v: World, u: FileView, t: FileView)
    requires Watched(w, f) && Watched(v, f) && InOrder(done, w, f, u) && OnlyNode(w, v, w.started[f].owner)
    requires v.started[f] == w.started[f]
    requires SendEndTidy(done, v, f) && SeesSendEnd(done, v, f, t) && SameReceiverPart(u, t) && Inv(t)
    requires t.completed == (f in v.completions) && t.early == (f in v.early) && t.dropped == (f in v.dropped)
    requires MOffer in u.upS <==> MOffer in t.upS
    ensures InOrder(done, v, f, t)
  {
    assert SeesRest(done, v, f, t);
    forall c | c in v.nodes && c != w.started[f].owner && ReceiverId(v, f) != Some(c)
      ensures CleanNode(done, v, f, c)
    {
      assert CleanNode(done, w, f, c);
    }
  }

  lemma SenderFacts(setup: Setup, w: World, c: Uuid, s: ClientStep, v: World, f: Uuid)
    requires ClientStepTo(setup, w, c, s, v) && f in w.started
    ensures OnlyNode(w, v, c) && v.started[f] == w.started[f] && f in v.started
    ensures var r := Client.Next(w.nodes[c].cfg, setup.digest, w.nodes[c].client, s);
            r.Ok? ==> v.nodes[c].client == r.value
  {
    AtShape(setup, w, c, s, v);
    CompletedIs(setup, w, c, s, v, f);
  }

  /** The owner's step and the state it starts from. */
  ghost predicate OwnerStep(z: World, setup: Setup, w: World, c: Uuid, s: ClientStep, v: World, f: Uuid, u: FileView) {
    && Ready(z, setup, w) && ClientStepTo(setup, w, c, s, v)
    && Watched(w, f) && Watched(v, f) && w.started[f].owner == c && v.started[f] == w.started[f]
    && InOrder(z.completions, w, f, u)
  }

  /** What the owner's step starts from, fact by fact. */
  lemma OwnerFacts(z: World, setup: Setup, w: World, c: Uuid, s: ClientStep, v: World, f: Uuid, u: FileView)
    requires OwnerStep(z, setup, w, c, s, v, f, u)
    ensures c in w.nodes && c in v.nodes && f in w.started && f in v.started && w.started[f].owner == c
    ensures SenderTidy(z.completions, f, w.started[f].to, w.nodes[c].client)
    ensures SeesSender(z.completions, f, w.nodes[c].client, u)
    ensures c in w.relay.outbound && u.downS == OfWire(z.completions, f, Pipe(w, c))
    ensures u.completed == (f in w.completions) && u.early == (f in w.early) && u.dropped == (f in w.dropped)
    ensures Inv(u) && Proper(w.started[f].to) && ClientEnabled(setup, w, c, s)
  {
    hide Client.Next, Ready, SenderTidy, SeesSender, ReceiveEndTidy, RegistryTidy, CleanNode, Inv, OfWire;
  }

  lemma OwnerHonest(z: World, setup: Setup, w: World, c: Uuid, s: ClientStep, v: World, f: Uuid, u: FileView)
    requires OwnerStep(z, setup, w, c, s, v, f, u)
    ensures Sound(w.nodes[c].client) && AcksKnown(z.completions, w.nodes[c].client)
    ensures f in w.nodes[c].client.tasks ==> TaskHonest(z, setup.digest, f, w.nodes[c].client.tasks[f])
  {
    hide Client.Next, InOrder, Watched;
    assert NodeHonest(z, setup.digest, w.nodes[c]);
    HonestAcks(z, setup, w.nodes[c].client);
    SoundNode(w, c);
  }

  /** The owner is still running after its step, so the step succeeded. */
  lemma OwnerNext(z: World, setup: Setup, w: World, c: Uuid, s: ClientStep, v: World, f: Uuid, u: FileView)
    requires OwnerStep(z, setup, w, c, s, v, f, u)
    ensures Enabled(w.nodes[c].client, s)
    ensures var r := Client.Next(w.nodes[c].cfg, setup.digest, w.nodes[c].client, s);
            r.Ok? && v.nodes[c].client == r.value
  {
    hide Client.Next, Ready, InOrder, Enabled;
  }

  /** What the owner's steps share: given what the client's own step did, the file is in order after it. */
  lemma OwnerDone(z: World, setup: Setup, w: World, c: Uuid, s: ClientStep, v: World, f: Uuid, u: FileView, t: FileView)
    requires OwnerStep(z, setup, w, c, s, v, f, u)
    requires SenderTidy(z.completions, f, w.started[f].to, v.nodes[c].client)
    requires SeesSender(z.completions, f, v.nodes[c].client, t)
    requires t.downS == if s.Receive? then OfWire(z.completions, f, Pipe(v, c)) else u.downS
    requires SameReceiverPart(u, t) && Inv(t) && (MOffer in u.upS <==> MOffer in t.upS)
    requires t.completed == (u.completed || (s.Complete? && s.fileId == f))
    requires t.early == (u.early || f in GapFiles(w.nodes[c].client, s))
    requires t.dropped == (u.dropped || f in DropFiles(w.nodes[c].client, s))
    ensures InOrder(z.completions, v, f, t)
  {
    hide Client.Next, ClientStepTo, Ready, InOrder, Inv, SenderTidy, SeesSender, GapFiles, DropFiles, OfWire, Watched;
    OwnerFacts(z, setup, w, c, s, v, f, u);
    SenderFacts(setup, w, c, s, v, f);
    AtShape(setup, w, c, s, v);
    EarlyIs(setup, w, c, s, v, f);
    CompletedIs(setup, w, c, s, v, f);
    SenderChanged(z.completions, f, w, v, u, t);
  }

  lemma OwnerAborts(z: World, setup: Setup, w: World, c: Uuid, rid: RequestId, v: World, f: Uuid, u: FileView)
    requires OwnerStep(z, setup, w, c, UserAbort(f, rid), v, f, u) && f in w.nodes[c].client.store
    ensures ByAct(z.completions, v, f, u, SenderAborts)
  {
    hide OwnerStep, ClientStepTo, InOrder, Inv, OfWire;
    var s := UserAbort(f, rid);
    OwnerFacts(z, setup, w, c, s, v, f, u);
    OwnerNext(z, setup, w, c, s, v, f, u);
    SenderAbortsActs(z.completions, f, w.started[f].to, w.nodes[c].cfg, w.nodes[c].client, rid, u);
    ActKeeps(u, SenderAborts);
    OwnerDone(z, setup, w, c, s, v, f, u, Do(u, SenderAborts));
  }

  lemma OwnerChecks(z: World, setup: Setup, w: World, c: Uuid, v: World, f: Uuid, u: FileView)
    requires OwnerStep(z, setup, w, c, Check(f), v, f, u)
    ensures InOrder(z.completions, v, f, u) || ByAct(z.completions, v, f, u, TaskStops)
  {
    hide OwnerStep, ClientStepTo, InOrder, Inv, OfWire;
    var s := Check(f);
    OwnerFacts(z, setup, w, c, s, v, f, u);
    OwnerNext(z, setup, w, c, s, v, f, u);
    TaskChecks(z.completions, f, w.started[f].to, w.nodes[c].client, u);
    if HasOutgoing(w.nodes[c].client, f) {
      OwnerDone(z, setup, w, c, s, v, f, u, u);
    } else {
      ActKeeps(u, TaskStops);
      OwnerDone(z, setup, w, c, s, v, f, u, Do(u, TaskStops));
    }
  }

  lemma OwnerSends(z: World, setup: Setup, w: World, c: Uuid, v: World, f: Uuid, u: FileView)
    requires OwnerStep(z, setup, w, c, SendFrame(f), v, f, u)
    ensures InOrder(z.completions, v, f, u)
  {
    hide OwnerStep, ClientStepTo, InOrder, Inv, OfWire, SenderTidy, SeesSender;
    var s := SendFrame(f);
    OwnerFacts(z, setup, w, c, s, v, f, u);
    OwnerHonest(z, setup, w, c, s, v, f, u);
    OwnerNext(z, setup, w, c, s, v, f, u);
    TaskSends(z.completions, f, w.started[f].to, w.nodes[c].client, u);
    OwnerDone(z, setup, w, c, s, v, f, u, u);
  }

  lemma OwnerCompletes(z: World, setup: Setup, w: World, c: Uuid, rid: RequestId, v: World, f: Uuid, u: FileView)
    requires OwnerStep(z, setup, w, c, ClientStep.Complete(f, rid), v, f, u)
    ensures ByAct(z.completions, v, f, u, TaskCompletes)
  {
    hide OwnerStep, ClientStepTo, InOrder, Inv, OfWire, SenderTidy, SeesSender;
    var s := ClientStep.Complete(f, rid);
    OwnerFacts(z, setup, w, c, s, v, f, u);
    OwnerNext(z, setup, w, c, s, v, f, u);
    TaskCompletesActs(z.completions, f, w.started[f].to, w.nodes[c].cfg, w.nodes[c].client, rid, u);
    ActKeeps(u, TaskCompletes);
    OwnerDone(z, setup, w, c, s, v, f, u, Do(u, TaskCompletes));
  }

  lemma OwnerMarks(z: World, setup: Setup, w: World, c: Uuid, v: World, f: Uuid, u: FileView)
    requires OwnerStep(z, setup, w, c, Mark(f), v, f, u)
    ensures ByAct(z.completions, v, f, u, TaskMarks)
  {
    hide OwnerStep, ClientStepTo, InOrder, Inv, OfWire, SenderTidy, SeesSender;
    var s := Mark(f);
    OwnerFacts(z, setup, w, c, s, v, f, u);
    OwnerNext(z, setup, w, c, s, v, f, u);
    TaskMarksActs(z.completions, f, w.started[f].to, w.nodes[c].client, u);
    ActKeeps(u, TaskMarks);
    OwnerDone(z, setup, w, c, s, v, f, u, Do(u, TaskMarks));
  }

  /** An ack heard in the gap is what `early` records. */
  lemma EarlyRecorded(z: World, digest: Digest, f: Uuid, to: Endpoint, c: ClientState, s: ClientStep, u: FileView)
    requires s.Receive? && u.downS != [] && MsgOf(z.completions, f, s.packet) == [u.downS[0]]
    requires f in c.tasks ==> TaskHonest(z, digest, f, c.tasks[f])
    requires SenderTidy(z.completions, f, to, c) && SeesSender(z.completions, f, c, u)
    ensures SenderHeard(u).early <==> u.early || f in GapFiles(c, s)
  {
    hide OfWire, AllGoTo, DropFiles;
    if s.packet.Ack? {
      assert f in GapFiles(c, s) <==> u.task == Gap && u.sender == Sender.Sending;
    } else {
      assert f !in GapFiles(c, s);
    }
  }

  /** An entry ended by a message is what `dropped` records. */
  lemma DropRecorded(done: Done, f: Uuid, to: Endpoint, c: ClientState, s: ClientStep, u: FileView)
    requires s.Receive? && u.downS != [] && MsgOf(done, f, s.packet) == [u.downS[0]]
    requires SenderTidy(done, f, to, c) && SeesSender(done, f, c, u)
    ensures SenderHeard(u).dropped <==> u.dropped || f in DropFiles(c, s)
  {
    hide OfWire, AllGoTo, GapFiles;
    assert HasOutgoing(c, f) <==> u.sender != NoEntry;
    if s.packet.Ack? {
      assert u.downS[0] == MAck;
    } else if s.packet.Event? {
      assert s.packet.event.meta.fileId == Some(f);
    } else {
      assert s.packet.error.fileId == Some(f);
    }
  }

  /** The head of the queue is what the view shows first. */
  lemma FirstHeard(done: Done, f: Uuid, ps: seq<Packet>, out: seq<WireMessage>, u: FileView)
    requires ps != [] && MsgOf(done, f, ps[0]) != [] && u.downS == OfWire(done, f, Wires(ps) + out) && Kinds(u)
    ensures u.downS != [] && MsgOf(done, f, ps[0]) == [u.downS[0]] && u.downS[0] != MOffer && u.downS[0] != MComplete
    ensures OfWire(done, f, Wires(ps[1..]) + out) == u.downS[1..]
  {
    hide OfWire, MsgOf;
    PopInbound(done, f, ps, out);
    OneMsg(done, f, ps[0], OfWire(done, f, Wires(ps[1..]) + out), u.downS);
    assert u.downS[0] in u.downS;
  }

  lemma OwnerHeard(z: World, setup: Setup, w: World, c: Uuid, s: ClientStep, v: World, f: Uuid, u: FileView)
    requires OwnerStep(z, setup, w, c, s, v, f, u) && s.Receive? && MsgOf(z.completions, f, s.packet) != []
    ensures u.downS != [] && MsgOf(z.completions, f, s.packet) == [u.downS[0]]
    ensures u.downS[0] != MOffer && u.downS[0] != MComplete
    ensures OfWire(z.completions, f, Pipe(v, c)) == u.downS[1..]
  {
    hide Client.Next, ClientStepTo, InOrder, SenderTidy, SeesSender, OfWire, MsgOf, Ready, Watched;
    OwnerFacts(z, setup, w, c, s, v, f, u);
    AtShape(setup, w, c, s, v);
    FirstHeard(z.completions, f, w.nodes[c].inbound, w.relay.outbound[c], u);
  }

  lemma OwnerHears(z: World, setup: Setup, w: World, c: Uuid, s: ClientStep, v: World, f: Uuid, u: FileView)
    requires OwnerStep(z, setup, w, c, s, v, f, u) && s.Receive? && MsgOf(z.completions, f, s.packet) != []
    ensures ByAct(z.completions, v, f, u, SenderHears)
  {
    hide OwnerStep, ClientStepTo, InOrder, Inv, OfWire, MsgOf, SenderTidy, SeesSender, Dispatch, GapFiles, DropFiles;
    OwnerFacts(z, setup, w, c, s, v, f, u);
    var n := w.nodes[c];
    OwnerHonest(z, setup, w, c, s, v, f, u);
    OwnerNext(z, setup, w, c, s, v, f, u);
    OwnerHeard(z, setup, w, c, s, v, f, u);
    SenderHearsActs(z.completions, f, w.started[f].to, n.cfg, setup.digest, n.client, s.packet, s.savePath, s.rid,
                    s.choice, u);
    EarlyRecorded(z, setup.digest, f, w.started[f].to, n.client, s, u);
    DropRecorded(z.completions, f, w.started[f].to, n.client, s, u);
    SenderHearsKeeps(u);
    OwnerDone(z, setup, w, c, s, v, f, u, SenderHeard(u));
  }

  lemma SenderCases(done: Done, f: Uuid, to: Endpoint, setup: Setup, w: World, c: Uuid, s: ClientStep)
    requires ClientEnabled(setup, w, c, s) && f in w.started && SenderTidy(done, f, to, w.nodes[c].client)
    requires AboutFile(done, f, w.nodes[c].client, s)
    ensures !s.UserAccept? && !s.UserReject? && !s.ReceiveFrame? && !s.Start? && !s.Reconnect?
    ensures s.UserAbort? ==> s.fileId == f && f in w.nodes[c].client.store
    ensures s.Receive? ==> MsgOf(done, f, s.packet) != []
    ensures s.Check? || s.SendFrame? || s.Complete? || s.Mark? ==> s.fileId == f
  {
    hide MsgOf, AllGoTo;
  }

  lemma OwnerTask(z: World, setup: Setup, w: World, c: Uuid, s: ClientStep, v: World, f: Uuid, u: FileView)
    requires OwnerStep(z, setup, w, c, s, v, f, u)
    requires (s.Check? || s.SendFrame? || s.Complete? || s.Mark?) && s.fileId == f
    ensures Acted(z.completions, v, f, u)
  {
    hide OwnerStep, InOrder, ByAct;
    if s.Check? {
      OwnerChecks(z, setup, w, c, v, f, u);
    } else if s.SendFrame? {
      OwnerSends(z, setup, w, c, v, f, u);
    } else if s.Complete? {
      OwnerCompletes(z, setup, w, c, s.rid, v, f, u);
    } else {
      OwnerMarks(z, setup, w, c, v, f, u);
    }
  }

  /** Every step of the sender that concerns the file is one act of the file's protocol, or none. */
  lemma OwnerSteps(z: World, setup: Setup, w: World, c: Uuid, s: ClientStep, v: World, f: Uuid, u: FileView)
    requires OwnerStep(z, setup, w, c, s, v, f, u) && AboutFile(z.completions, f, w.nodes[c].client, s)
    ensures Acted(z.completions, v, f, u)
  {
    hide Ready, ClientStepTo, Watched, InOrder, ByAct, AboutFile, MsgOf, ClientEnabled, SenderTidy;
    OwnerFacts(z, setup, w, c, s, v, f, u);
    SenderCases(z.completions, f, w.started[f].to, setup, w, c, s);
    if s.UserAbort? {
      OwnerAborts(z, setup, w, c, s.rid, v, f, u);
    } else if s.Receive? {
      OwnerHears(z, setup, w, c, s, v, f, u);
    } else {
      OwnerTask(z, setup, w, c, s, v, f, u);
    }
  }

  // ---------- steps of the receiver ----------

  predicate SameSenderPart(u: FileView, t: FileView) {
    && t.sender == u.sender && t.task == u.task && t.upS == u.upS && t.downS == u.downS
    && t.leg == u.leg && t.indexed == u.indexed && t.completed == u.completed
    && t.early == u.early && t.dropped == u.dropped
  }

  lemma ReceiverChanged(done: Done, f: Uuid, w: World, v: World, u: FileView, t: FileView)
    requires Watched(w, f) && Watched(v, f) && InOrder(done, w, f, u) && f in w.routed && OnlyNode(w, v, w.routed[f])
    requires SameHistory(f, w, v) && SameSenderPart(u, t) && Inv(t)
    requires ReceiveEndTidy(done, v, f)
    requires SeesReceiver(done, f, v.nodes[w.routed[f]].client, t) && t.downR == OfWire(done, f, Pipe(v, w.routed[f]))
    ensures InOrder(done, v, f, t)
  {
    assert SendEndTidy(done, v, f) && SeesSendEnd(done, v, f, t);
    assert SeesRest(done, v, f, t);
    forall c | c in v.nodes && c != w.started[f].owner && ReceiverId(v, f) != Some(c)
      ensures CleanNode(done, v, f, c)
    {
      assert CleanNode(done, w, f, c);
    }
  }

  ghost predicate ReceiverStep(z: World, setup: Setup, w: World, c: Uuid, s: ClientStep, v: World, f: Uuid,
                               u: FileView)
  {
    && Ready(z, setup, w) && ClientStepTo(setup, w, c, s, v)
    && Watched(w, f) && Watched(v, f) && f in w.routed && w.routed[f] == c
    && InOrder(z.completions, w, f, u)
  }

  /** A step of a client that is not the owner records nothing of the file. */
  lemma ReceiverHistory(setup: Setup, w: World, c: Uuid, s: ClientStep, v: World, f: Uuid)
    requires ClientStepTo(setup, w, c, s, v) && f in w.started && f !in w.nodes[c].client.tasks
    requires !HasOutgoing(w.nodes[c].client, f)
    ensures SameHistory(f, w, v)
  {
    EarlyIs(setup, w, c, s, v, f);
    CompletedIs(setup, w, c, s, v, f);
  }

  lemma ReceiverPipe(done: Done, setup: Setup, w: World, c: Uuid, s: ClientStep, v: World, f: Uuid, from: Endpoint)
    requires ClientStepTo(setup, w, c, s, v) && c in w.relay.outbound
    requires forall m :: m in Pipe(w, c) && m.TextFrame? ==> OffersFrom(f, m.packet, from)
    ensures forall m :: m in Pipe(v, c) && m.TextFrame? ==> OffersFrom(f, m.packet, from)
    ensures !s.Receive? ==> Pipe(v, c) == Pipe(w, c)
    ensures s.Receive? ==>
              && OfWire(done, f, Pipe(w, c)) == MsgOf(done, f, s.packet) + OfWire(done, f, Pipe(v, c))
              && OffersFrom(f, s.packet, from)
  {
    AtShape(setup, w, c, s, v);
    if s.Receive? {
      PopInbound(done, f, w.nodes[c].inbound, w.relay.outbound[c]);
      PipeMember(w, c, TextFrame(s.packet));
      forall m | m in Pipe(v, c) && m.TextFrame?
        ensures OffersFrom(f, m.packet, from)
      {
        PipeMember(v, c, m);
        PipeMember(w, c, m);
      }
    }
  }

  /** What the receiver's step starts from, fact by fact. */
  lemma ReceiverFacts(z: World, setup: Setup, w: World, c: Uuid, s: ClientStep, v: World, f: Uuid, u: FileView)
    requires ReceiverStep(z, setup, w, c, s, v, f, u)
    ensures c in w.nodes && c in v.nodes && f in w.started && w.started[f].owner in w.relay.sessions.connections
    ensures Watched(w, f) && Watched(v, f) && f in w.offered && Named(w.relay.sessions, c, w.started[f].to)
    ensures ReceiverTidy(z.completions, f, SenderName(w, f), w.nodes[c].client)
    ensures SeesReceiver(z.completions, f, w.nodes[c].client, u)
    ensures c in w.relay.outbound && u.downR == OfWire(z.completions, f, Pipe(w, c))
    ensures forall m :: m in Pipe(w, c) && m.TextFrame? ==> OffersFrom(f, m.packet, SenderName(w, f))
    ensures Inv(u) && ClientEnabled(setup, w, c, s)
  {
    hide Client.Next, Ready, SendEndTidy, RegistryTidy, CleanNode, Inv, OfWire, ReceiverTidy, SeesReceiver, SeesSendEnd;
  }

  lemma ReceiverHonest(z: World, setup: Setup, w: World, c: Uuid, s: ClientStep, v: World, f: Uuid, u: FileView)
    requires ReceiverStep(z, setup, w, c, s, v, f, u)
    ensures Sound(w.nodes[c].client) && (s.Receive? ==> CompleteKnown(z.completions, s.packet))
  {
    hide Client.Next, InOrder, Watched;
    assert NodeHonest(z, setup.digest, w.nodes[c]);
    assert s.Receive? ==> PacketHonest(z, setup.digest, s.packet);
    SoundNode(w, c);
  }

  /** The receiver is still running after its step, so the step succeeded. */
  lemma ReceiverNext(z: World, setup: Setup, w: World, c: Uuid, s: ClientStep, v: World, f: Uuid, u: FileView)
    requires ReceiverStep(z, setup, w, c, s, v, f, u)
    ensures Enabled(w.nodes[c].client, s)
    ensures var r := Client.Next(w.nodes[c].cfg, setup.digest, w.nodes[c].client, s);
            r.Ok? && v.nodes[c].client == r.value
  {
    hide Client.Next, Ready, InOrder, Enabled;
    ReceiverFacts(z, setup, w, c, s, v, f, u);
  }

  /** What the steps below share: given what the client's own step did, the file is in order after it. */
  lemma ReceiverDone(z: World, setup: Setup, w: World, c: Uuid, s: ClientStep, v: World, f: Uuid, u: FileView,
                     t: FileView)
    requires ReceiverStep(z, setup, w, c, s, v, f, u)
    requires ReceiverTidy(z.completions, f, SenderName(w, f), v.nodes[c].client)
    requires SeesReceiver(z.completions, f, v.nodes[c].client, t)
    requires SameSenderPart(u, t) && Inv(t)
    requires t.downR == if s.Receive? then OfWire(z.completions, f, Pipe(v, c)) else u.downR
    ensures InOrder(z.completions, v, f, t)
  {
    hide Client.Next, ClientStepTo, Ready, InOrder, Inv, OfWire, SeesReceiver;
    ReceiverFacts(z, setup, w, c, s, v, f, u);
    SenderFacts(setup, w, c, s, v, f);
    AtShape(setup, w, c, s, v);
    ReceiverHistory(setup, w, c, s, v, f);
    ReceiverPipe(z.completions, setup, w, c, s, v, f, SenderName(w, f));
    ReceiverChanged(z.completions, f, w, v, u, t);
  }

  lemma ReceiverSaysYes(z: World, setup: Setup, w: World, c: Uuid, rid: RequestId, v: World, f: Uuid, u: FileView)
    requires ReceiverStep(z, setup, w, c, UserAccept(f, rid), v, f, u) && InState(w.nodes[c].client, f, PendingOffer)
    ensures ByAct(z.completions, v, f, u, ReceiverAccepts)
  {
    hide ReceiverStep, ClientStepTo, InOrder, Inv, OfWire, ReceiverTidy, SeesReceiver;
    var s := UserAccept(f, rid);
    ReceiverFacts(z, setup, w, c, s, v, f, u);
    ReceiverNext(z, setup, w, c, s, v, f, u);
    AskedSeen(z.completions, f, w.nodes[c].client, u);
    ReceiverAcceptsActs(z.completions, f, SenderName(w, f), w.nodes[c].cfg, w.nodes[c].client, rid, u);
    ActKeeps(u, ReceiverAccepts);
    ReceiverDone(z, setup, w, c, s, v, f, u, Do(u, ReceiverAccepts));
  }

  lemma AskedSeen(done: Done, f: Uuid, c: ClientState, u: FileView)
    requires SeesReceiver(done, f, c, u) && InState(c, f, PendingOffer)
    ensures u.receiver == Asked
  {
  }

  lemma ReceiverSaysNo(z: World, setup: Setup, w: World, c: Uuid, rid: RequestId, v: World, f: Uuid, u: FileView)
    requires ReceiverStep(z, setup, w, c, UserReject(f, rid), v, f, u) && InState(w.nodes[c].client, f, PendingOffer)
    ensures ByAct(z.completions, v, f, u, ReceiverRejects)
  {
    hide ReceiverStep, ClientStepTo, InOrder, Inv, OfWire, ReceiverTidy, SeesReceiver;
    var s := UserReject(f, rid);
    ReceiverFacts(z, setup, w, c, s, v, f, u);
    ReceiverNext(z, setup, w, c, s, v, f, u);
    AskedSeen(z.completions, f, w.nodes[c].client, u);
    ReceiverRejectsActs(z.completions, f, SenderName(w, f), w.nodes[c].cfg, w.nodes[c].client, rid, u);
    ActKeeps(u, ReceiverRejects);
    ReceiverDone(z, setup, w, c, s, v, f, u, Do(u, ReceiverRejects));
  }

  lemma ReceiverGivesUp(z: World, setup: Setup, w: World, c: Uuid, rid: RequestId, v: World, f: Uuid, u: FileView)
    requires ReceiverStep(z, setup, w, c, UserAbort(f, rid), v, f, u) && f in w.nodes[c].client.store
    ensures ByAct(z.completions, v, f, u, ReceiverAborts)
  {
    hide ReceiverStep, ClientStepTo, InOrder, Inv, OfWire, ReceiverTidy, SeesReceiver;
    var s := UserAbort(f, rid);
    ReceiverFacts(z, setup, w, c, s, v, f, u);
    ReceiverNext(z, setup, w, c, s, v, f, u);
    ReceiverAbortsActs(z.completions, f, SenderName(w, f), w.nodes[c].cfg, w.nodes[c].client, rid, u);
    ActKeeps(u, ReceiverAborts);
    ReceiverDone(z, setup, w, c, s, v, f, u, Do(u, ReceiverAborts));
  }

  lemma ReceiverTakesFrame(z: World, setup: Setup, w: World, c: Uuid, s: ClientStep, v: World, f: Uuid, u: FileView)
    requires ReceiverStep(z, setup, w, c, s, v, f, u) && AboutFile(z.completions, f, w.nodes[c].client, s)
    requires s.ReceiveFrame?
    ensures Acted(z.completions, v, f, u)
  {
    hide ReceiverStep, ClientStepTo, InOrder, Inv, OfWire, ReceiverTidy, SeesReceiver, OnFrame;
    ReceiverFacts(z, setup, w, c, s, v, f, u);
    ReceiverNext(z, setup, w, c, s, v, f, u);
    var n := w.nodes[c];
    ReceiverFrameActs(z.completions, f, SenderName(w, f), n.cfg, n.client, s.frame, s.rid, u);
    if SeesReceiver(z.completions, f, v.nodes[c].client, u) {
      ReceiverDone(z, setup, w, c, s, v, f, u, u);
    } else {
      ActKeeps(u, ReceiverAborts);
      ReceiverDone(z, setup, w, c, s, v, f, u, Do(u, ReceiverAborts));
      assert ByAct(z.completions, v, f, u, ReceiverAborts);
    }
  }

  /** The head of the receiver's queue is what the view shows first. */
  lemma FirstTold(done: Done, f: Uuid, ps: seq<Packet>, out: seq<WireMessage>, u: FileView)
    requires ps != [] && MsgOf(done, f, ps[0]) != [] && u.downR == OfWire(done, f, Wires(ps) + out) && Kinds(u)
    ensures u.downR != [] && MsgOf(done, f, ps[0]) == [u.downR[0]]
    ensures u.downR[0] == MOffer || u.downR[0] == MAbort || u.downR[0] == MComplete
    ensures OfWire(done, f, Wires(ps[1..]) + out) == u.downR[1..]
  {
    hide OfWire, MsgOf;
    PopInbound(done, f, ps, out);
    OneMsg(done, f, ps[0], OfWire(done, f, Wires(ps[1..]) + out), u.downR);
    assert u.downR[0] in u.downR;
  }

  lemma ReceiverTold(z: World, setup: Setup, w: World, c: Uuid, s: ClientStep, v: World, f: Uuid, u: FileView)
    requires ReceiverStep(z, setup, w, c, s, v, f, u) && s.Receive? && MsgOf(z.completions, f, s.packet) != []
    ensures u.downR != [] && MsgOf(z.completions, f, s.packet) == [u.downR[0]]
    ensures u.downR[0] == MOffer || u.downR[0] == MAbort || u.downR[0] == MComplete
    ensures OfWire(z.completions, f, Pipe(v, c)) == u.downR[1..] && OffersFrom(f, s.packet, SenderName(w, f))
  {
    hide Client.Next, ClientStepTo, InOrder, ReceiverTidy, SeesReceiver, OfWire, MsgOf, Ready, Watched, OffersFrom;
    ReceiverFacts(z, setup, w, c, s, v, f, u);
    AtShape(setup, w, c, s, v);
    FirstTold(z.completions, f, w.nodes[c].inbound, w.relay.outbound[c], u);
    PipeMember(w, c, TextFrame(s.packet));
  }

  lemma ReceiverHears(z: World, setup: Setup, w: World, c: Uuid, s: ClientStep, v: World, f: Uuid, u: FileView)
    requires ReceiverStep(z, setup, w, c, s, v, f, u) && s.Receive? && MsgOf(z.completions, f, s.packet) != []
    ensures ByAct(z.completions, v, f, u, Act.ReceiverHears(w.nodes[c].cfg.autoAccept))
  {
    hide ReceiverStep, ClientStepTo, InOrder, Inv, OfWire, MsgOf, ReceiverTidy, SeesReceiver, Dispatch, OffersFrom,
        ReceiverHeard;
    ReceiverFacts(z, setup, w, c, s, v, f, u);
    ReceiverHonest(z, setup, w, c, s, v, f, u);
    ReceiverNext(z, setup, w, c, s, v, f, u);
    ReceiverTold(z, setup, w, c, s, v, f, u);
    var n := w.nodes[c];
    ReceiverHearsActs(z.completions, f, SenderName(w, f), n.cfg, setup.digest, n.client, s.packet, s.savePath, s.rid,
                      s.choice, u);
    ReceiverHeardLocal(u, n.cfg.autoAccept);
    ActKeeps(u, Act.ReceiverHears(n.cfg.autoAccept));
    ReceiverDone(z, setup, w, c, s, v, f, u, ReceiverHeard(u, n.cfg.autoAccept));
  }

  lemma ReceiverCases(done: Done, f: Uuid, from: Endpoint, setup: Setup, w: World, c: Uuid, s: ClientStep)
    requires ClientEnabled(setup, w, c, s) && f in w.started && ReceiverTidy(done, f, from, w.nodes[c].client)
    requires AboutFile(done, f, w.nodes[c].client, s)
    ensures s.UserAccept? || s.UserReject? || s.UserAbort? || s.Receive? || s.ReceiveFrame?
    ensures s.UserAccept? || s.UserReject? ==> s.fileId == f && InState(w.nodes[c].client, f, PendingOffer)
    ensures s.UserAbort? ==> s.fileId == f && f in w.nodes[c].client.store
    ensures s.Receive? ==> MsgOf(done, f, s.packet) != []
  {
    hide MsgOf, AllGoTo;
  }

  /** Every step of the receiver that concerns the file is one act of the file's protocol, or none. */
  lemma ReceiverSteps(z: World, setup: Setup, w: World, c: Uuid, s: ClientStep, v: World, f: Uuid, u: FileView)
    requires ReceiverStep(z, setup, w, c, s, v, f, u) && AboutFile(z.completions, f, w.nodes[c].client, s)
    ensures Acted(z.completions, v, f, u)
  {
    hide Ready, ClientStepTo, Watched, InOrder, ByAct, AboutFile, MsgOf, ClientEnabled, ReceiverTidy;
    ReceiverFacts(z, setup, w, c, s, v, f, u);
    ReceiverCases(z.completions, f, SenderName(w, f), setup, w, c, s);
    if s.UserAccept? {
      ReceiverSaysYes(z, setup, w, c, s.rid, v, f, u);
    } else if s.UserReject? {
      ReceiverSaysNo(z, setup, w, c, s.rid, v, f, u);
    } else if s.UserAbort? {
      ReceiverGivesUp(z, setup, w, c, s.rid, v, f, u);
    } else if s.Receive? {
      ReceiverHears(z, setup, w, c, s, v, f, u);
    } else {
      ReceiverTakesFrame(z, setup, w, c, s, v, f, u);
    }
  }

  // ---------- the relay takes a message about the file ----------

  /** The relay took the head of c's outbox, and d's channel gained one message. */
  predicate Passed(w: World, v: World, c: Uuid, d: Uuid, m: WireMessage) {
    && c in w.nodes && w.nodes[c].client.outbox != [] && v.nodes == w.nodes[c := Sent(w.nodes[c])]
    && d in w.relay.outbound && v.relay.outbound == w.relay.outbound[d := w.relay.outbound[d] + [m]]
    && v.relay.sessions == w.relay.sessions
    && v.started == w.started && v.completions == w.completions && v.early == w.early && v.dropped == w.dropped
  }

  lemma PoppedOut(done: Done, f: Uuid, w: World, v: World, c: Uuid, d: Uuid, m: WireMessage)
    requires Passed(w, v, c, d, m)
    ensures OfWire(done, f, w.nodes[c].client.outbox)
         == WireMsg(done, f, w.nodes[c].client.outbox[0]) + OfWire(done, f, v.nodes[c].client.outbox)
    ensures forall x :: x in v.nodes[c].client.outbox ==> x in w.nodes[c].client.outbox
  {
    Head(done, f, w.nodes[c].client.outbox);
  }

  lemma PushedIn(done: Done, f: Uuid, w: World, v: World, c: Uuid, d: Uuid, m: WireMessage)
    requires Passed(w, v, c, d, m) && d in w.nodes
    ensures Pipe(v, d) == Pipe(w, d) + [m]
    ensures OfWire(done, f, Pipe(v, d)) == OfWire(done, f, Pipe(w, d)) + WireMsg(done, f, m)
    ensures forall e :: e in w.nodes && e in w.relay.outbound && e != d ==> Pipe(v, e) == Pipe(w, e)
  {
    assert Pipe(v, d) == Pipe(w, d) + [m];
    Append(done, f, Pipe(w, d), m);
  }

  predicate SeesPassed(done: Done, f: Uuid, w: World, v: World, u: FileView, t: FileView)
    requires Watched(v, f) && f in v.routed && Linked(v, v.routed[f])
  {
    && t.sender == u.sender && t.task == u.task && t.receiver == u.receiver && t.completed == u.completed
    && t.early == u.early && t.dropped == u.dropped
    && t.upS == OfWire(done, f, v.nodes[v.started[f].owner].client.outbox)
    && t.downS == OfWire(done, f, Pipe(v, v.started[f].owner))
    && t.upR == OfWire(done, f, v.nodes[v.routed[f]].client.outbox) && t.downR == OfWire(done, f, Pipe(v, v.routed[f]))
    && t.leg == (LegKey(f, v.routed[f]) in v.relay.registry.legs) && t.indexed == Indexed(done, f, v.relay.registry)
  }

  lemma CleanPassed(done: Done, f: Uuid, w: World, v: World, c: Uuid, d: Uuid, m: WireMessage, e: Uuid)
    requires Passed(w, v, c, d, m) && e in w.nodes && e != c && e != d && CleanNode(done, w, f, e)
    ensures CleanNode(done, v, f, e)
  {
  }

  lemma PassedSendEnd(done: Done, f: Uuid, w: World, v: World, c: Uuid, d: Uuid, m: WireMessage)
    requires Watched(w, f) && Watched(v, f) && Passed(w, v, c, d, m) && SendEndTidy(done, w, f)
    ensures SendEndTidy(done, v, f)
  {
    PoppedOut(done, f, w, v, c, d, m);
  }

  lemma PassedSees(done: Done, f: Uuid, w: World, v: World, c: Uuid, d: Uuid, m: WireMessage, u: FileView, t: FileView)
    requires Watched(w, f) && Watched(v, f) && f in w.routed && v.routed == w.routed && f in v.offered
    requires Passed(w, v, c, d, m) && Linked(w, w.routed[f]) && Linked(v, w.routed[f])
    requires SeesSendEnd(done, w, f, u) && SeesReceiveEnd(done, w, f, u) && SeesRest(done, w, f, u)
    requires SeesPassed(done, f, w, v, u, t)
    requires MOffer !in t.upS
    ensures SeesSendEnd(done, v, f, t) && SeesReceiveEnd(done, v, f, t) && SeesRest(done, v, f, t)
  {
  }

  lemma PassedClean(done: Done, f: Uuid, w: World, v: World, c: Uuid, d: Uuid, m: WireMessage)
    requires Watched(w, f) && Tidy(done, w, f) && f in w.routed && Passed(w, v, c, d, m)
    requires {c, d} <= {w.started[f].owner, w.routed[f]}
    ensures forall e :: e in v.nodes && e != w.started[f].owner && e != w.routed[f] ==> CleanNode(done, v, f, e)
  {
    forall e | e in v.nodes && e != w.started[f].owner && e != w.routed[f]
      ensures CleanNode(done, v, f, e)
    {
      CleanPassed(done, f, w, v, c, d, m, e);
    }
  }

  /** One end's message, passed to the other end or answered with an error. */
  lemma PassedKeeps(done: Done, f: Uuid, w: World, v: World, c: Uuid, d: Uuid, m: WireMessage, u: FileView, t: FileView)
    requires Watched(w, f) && Watched(v, f) && InOrder(done, w, f, u) && f in w.routed && v.routed == w.routed
    requires f in v.offered
    requires Passed(w, v, c, d, m) && {c, d} <= {w.started[f].owner, w.routed[f]}
    requires WireMsg(done, f, m) != [MOffer]
    requires RegistryTidy(done, f, v.relay.registry, w.started[f].owner, Some(w.routed[f]))
    requires SeesPassed(done, f, w, v, u, t) && Inv(t) && MOffer !in t.upS
    ensures InOrder(done, v, f, t)
  {
    PassedSendEnd(done, f, w, v, c, d, m);
    PassedReceiveEnd(done, f, w, v, c, d, m);
    PassedSees(done, f, w, v, c, d, m, u, t);
    PassedClean(done, f, w, v, c, d, m);
  }

  lemma PassedReceiveEnd(done: Done, f: Uuid, w: World, v: World, c: Uuid, d: Uuid, m: WireMessage)
    requires Watched(w, f) && Watched(v, f) && f in w.routed && v.routed == w.routed && Linked(w, w.routed[f])
    requires Linked(v, w.routed[f])
    requires ReceiveEndTidy(done, w, f) && Passed(w, v, c, d, m) && {c, d} <= {w.started[f].owner, w.routed[f]}
    requires WireMsg(done, f, m) != [MOffer]
    ensures ReceiveEndTidy(done, v, f)
  {
    hide OfWire;
    var r := w.routed[f];
    PoppedOut(done, f, w, v, c, d, m);
    forall x | x in Pipe(v, r) && x.TextFrame?
      ensures OffersFrom(f, x.packet, SenderName(w, f))
    {
      PushedIn(done, f, w, v, c, d, m);
      assert x in Pipe(w, r) || x == m;
    }
  }

  lemma ForwardEvent(setup: Setup, w: World, c: Uuid, v: World, e: EventPacket, to: Endpoint, d: Uuid)
    requires ForwardTo(setup, w, c, v) && w.nodes[c].client.outbox[0] == TextFrame(Event(e))
    requires RR.RelayOk(w.relay) && Named(w.relay.sessions, d, to) && GoesTo(TextFrame(Event(e)), to)
    requires c in w.relay.outbound && d in w.relay.outbound
    ensures var active := w.relay.sockets[c];
            var passed := e.(source := Some(active.Endpoint()));
            match R.SideEffects(setup.server, w.relay.registry, active, RouteResult(Unicast, passed, {d}))
            case Ok(registry) => v.relay.registry == registry && Passed(w, v, c, d, TextFrame(Event(passed)))
            case Err(error) =>
              v.relay.registry == w.relay.registry && Passed(w, v, c, c, TextFrame(Error(R.ErrorPacketFor(error))))
  {
    ReachesEvent(w.relay.sessions, w.relay.sockets[c], e, to, d);
    ForwardedEvent(setup, w, c, v, e, RouteResult(Unicast, e.(source := Some(w.relay.sockets[c].Endpoint())), {d}), d);
  }

  lemma ForwardedEvent(setup: Setup, w: World, c: Uuid, v: World, e: EventPacket, routing: RouteResult, d: Uuid)
    requires ForwardTo(setup, w, c, v) && w.nodes[c].client.outbox[0] == TextFrame(Event(e)) && RR.RelayOk(w.relay)
    requires RouteEvent(w.relay.sessions, w.relay.sockets[c], e) == Ok(routing) && routing.recipients == {d}
    requires c in w.relay.outbound && d in w.relay.outbound
    ensures match R.SideEffects(setup.server, w.relay.registry, w.relay.sockets[c], routing)
            case Ok(registry) => v.relay.registry == registry && Passed(w, v, c, d, TextFrame(Event(routing.packet)))
            case Err(error) =>
              v.relay.registry == w.relay.registry && Passed(w, v, c, c, TextFrame(Error(R.ErrorPacketFor(error))))
  {
    PushedToOne(w.relay.outbound, d, TextFrame(Event(routing.packet)));
  }

  lemma PushedToOne(out: map<Uuid, seq<WireMessage>>, d: Uuid, m: WireMessage)
    requires d in out
    ensures R.PushToAll(out, {d}, m) == out[d := out[d] + [m]]
  {
  }

  ghost predicate EndSends(z: World, setup: Setup, w: World, c: Uuid, v: World, f: Uuid, u: FileView) {
    && Ready(z, setup, w) && ForwardTo(setup, w, c, v) && Watched(w, f) && Watched(v, f)
    && InOrder(z.completions, w, f, u)
    && WireMsg(z.completions, f, w.nodes[c].client.outbox[0]) != []
  }

  /** What taking a message records. */
  lemma ForwardIds(setup: Setup, w: World, c: Uuid, v: World)
    requires ForwardTo(setup, w, c, v)
    ensures c in w.nodes && c in w.relay.sockets && w.nodes[c].client.outbox != []
    ensures v.started == w.started && v.offered == w.offered + OffersIn(w.nodes[c].client.outbox[0])
    ensures OffersIn(w.nodes[c].client.outbox[0]) == {} ==> v.routed == w.routed
    ensures v.early == w.early && v.dropped == w.dropped && v.nodes.Keys == w.nodes.Keys
  {
    hide R.Next;
  }

  lemma EndFacts(z: World, setup: Setup, w: World, c: Uuid, v: World, f: Uuid, u: FileView)
    requires EndSends(z, setup, w, c, v, f, u)
    ensures c in w.nodes && c in w.relay.sockets && NodeHonest(z, setup.digest, w.nodes[c])
    ensures RR.RelayOk(w.relay) && w.relay.sockets[c].connectionId == c
  {
    hide R.Next, InOrder, Watched, NodeHonest;
  }

  /** What the order of a file says of its ends. */
  lemma ViewFacts(done: Done, w: World, f: Uuid, u: FileView)
    requires Watched(w, f) && InOrder(done, w, f, u)
    ensures Inv(u) && (f !in w.offered <==> MOffer in u.upS) && (f !in w.offered ==> f !in w.routed)
    ensures var c := w.started[f].owner;
            SenderTidy(done, f, w.started[f].to, w.nodes[c].client)
                && u.upS == OfWire(done, f, w.nodes[c].client.outbox)
    ensures f in w.routed ==>
              && f in w.offered && w.routed[f] != w.started[f].owner && Linked(w, w.routed[f])
              && ReceiverTidy(done, f, SenderName(w, f), w.nodes[w.routed[f]].client)
              && u.upR == OfWire(done, f, w.nodes[w.routed[f]].client.outbox)
              && Named(w.relay.sessions, w.routed[f], w.started[f].to)
  {
    hide Inv, SenderTidy, ReceiverTidy, OfWire, RegistryTidy, CleanNode;
  }

  /** The oldest message about the file in an outbox is the first in view, and goes where all of them go. */
  lemma FirstSent(done: Done, f: Uuid, ms: seq<WireMessage>, to: Endpoint, shown: seq<Msg>)
    requires ms != [] && WireMsg(done, f, ms[0]) != [] && shown == OfWire(done, f, ms) && AllGoTo(done, f, ms, to)
    ensures shown != [] && WireMsg(done, f, ms[0]) == [shown[0]] && shown[0] in shown && GoesTo(ms[0], to)
    ensures OfWire(done, f, ms[1..]) == shown[1..] && ms[0].TextFrame?
  {
    hide OfWire, MsgOf, GoesTo;
    Head(done, f, ms);
    OneMsg(done, f, ms[0].packet, OfWire(done, f, ms[1..]), shown);
  }

  /** Which packet a sender's message is. */
  lemma SenderMessage(done: Done, f: Uuid, m: WireMessage, msg: Msg)
    requires WireMsg(done, f, m) == [msg] && (msg == MOffer || msg == MAbort || msg == MComplete)
    ensures m.TextFrame? && m.packet.Event? && m.packet.event.meta.fileId == Some(f)
    ensures EventMsg(m.packet.event.eventType) == [msg]
    ensures OffersIn(m) == if msg == MOffer then {f} else {}
  {
  }

  /** The sender's oldest message about the file. */
  lemma OwnerHead(z: World, setup: Setup, w: World, c: Uuid, v: World, f: Uuid, u: FileView)
    requires EndSends(z, setup, w, c, v, f, u) && c == w.started[f].owner
    ensures var m := w.nodes[c].client.outbox[0];
            && u.upS != [] && WireMsg(z.completions, f, m) == [u.upS[0]] && GoesTo(m, w.started[f].to)
            && OfWire(z.completions, f, w.nodes[c].client.outbox[1..]) == u.upS[1..]
            && (u.upS[0] == MOffer || u.upS[0] == MAbort || u.upS[0] == MComplete)
            && m.TextFrame? && m.packet.Event? && m.packet.event.meta.fileId == Some(f)
            && EventMsg(m.packet.event.eventType) == [u.upS[0]]
            && OffersIn(m) == (if u.upS[0] == MOffer then {f} else {})
            && EventHonest(z, setup.digest, m.packet.event)
  {
    hide R.Next, Ready, InOrder, ForwardTo, OfWire, WireMsg, GoesTo, EventHonest, OffersIn, EventMsg;
    ForwardIds(setup, w, c, v);
    EndFacts(z, setup, w, c, v, f, u);
    ViewFacts(z.completions, w, f, u);
    var m := w.nodes[c].client.outbox[0];
    FirstSent(z.completions, f, w.nodes[c].client.outbox, w.started[f].to, u.upS);
    SenderMessage(z.completions, f, m, u.upS[0]);
    assert MessageHonest(z, setup.digest, m);
  }

  /** After the offer the file is routed. */
  lemma OwnerLater(z: World, setup: Setup, w: World, c: Uuid, v: World, f: Uuid, u: FileView)
    requires EndSends(z, setup, w, c, v, f, u) && c == w.started[f].owner && u.upS != [] && u.upS[0] != MOffer
    requires OffersIn(w.nodes[c].client.outbox[0]) == {}
    ensures f in w.offered && f in w.routed && v.routed == w.routed && f in v.offered && w.routed[f] != c
    ensures MOffer !in u.upS
  {
    hide R.Next, Ready, InOrder, ForwardTo, OffersIn;
    ForwardIds(setup, w, c, v);
    ViewFacts(z.completions, w, f, u);
  }

  /** The relay takes c's oldest message m, which is well addressed to d. */
  ghost predicate Takes(setup: Setup, w: World, c: Uuid, v: World, m: WireMessage, to: Endpoint, d: Uuid) {
    && ForwardTo(setup, w, c, v) && w.nodes[c].client.outbox[0] == m
    && RR.RelayOk(w.relay) && Named(w.relay.sessions, d, to) && GoesTo(m, to) && c in w.relay.outbound
    && d in w.relay.outbound
    && w.relay.sockets[c].connectionId == c
  }

  function Sourced(w: World, c: Uuid, e: EventPacket): WireMessage
    requires c in w.relay.sockets
  {
    TextFrame(Event(e.(source := Some(w.relay.sockets[c].Endpoint()))))
  }

  lemma ForwardDrop(setup: Setup, w: World, c: Uuid, v: World, e: EventPacket, to: Endpoint, d: Uuid, f: Uuid)
    ensures Takes(setup, w, c, v, TextFrame(Event(e)), to, d) && e.meta.fileId == Some(f)
            && (e.eventType == FileAbort || e.eventType == FileReject)
            ==> v.relay.registry == RemoveByFile(w.relay.registry, f) && Passed(w, v, c, d, Sourced(w, c, e))
  {
    if Takes(setup, w, c, v, TextFrame(Event(e)), to, d) && e.meta.fileId == Some(f)
       && (e.eventType == FileAbort || e.eventType == FileReject) {
      ForwardEvent(setup, w, c, v, e, to, d);
      DropEffect(setup.server, w.relay.registry, w.relay.sockets[c], Sourced(w, c, e).packet.event, d, f);
    }
  }

  lemma ForwardAccept(setup: Setup, w: World, c: Uuid, v: World, e: EventPacket, to: Endpoint, d: Uuid, f: Uuid)
    requires MarkAccepted(w.relay.registry, f, c).Some?
    ensures Takes(setup, w, c, v, TextFrame(Event(e)), to, d) && e.meta.fileId == Some(f) && e.eventType == FileAccept
            ==> v.relay.registry == MarkAccepted(w.relay.registry, f, c).value && Passed(w, v, c, d, Sourced(w, c, e))
  {
    if Takes(setup, w, c, v, TextFrame(Event(e)), to, d) && e.meta.fileId == Some(f) && e.eventType == FileAccept {
      ForwardEvent(setup, w, c, v, e, to, d);
      AcceptedEffect(setup.server, w.relay.registry, w.relay.sockets[c], Sourced(w, c, e).packet.event, d, f, c);
    }
  }

  lemma ForwardRefused(setup: Setup, w: World, c: Uuid, v: World, e: EventPacket, to: Endpoint, d: Uuid, f: Uuid)
    requires MarkAccepted(w.relay.registry, f, c).None?
    ensures Takes(setup, w, c, v, TextFrame(Event(e)), to, d) && e.meta.fileId == Some(f) && e.eventType == FileAccept
            ==> v.relay.registry == w.relay.registry
                && Passed(w, v, c, c, TextFrame(Error(R.ErrorPacketFor(NotAccepted))))
  {
    if Takes(setup, w, c, v, TextFrame(Event(e)), to, d) && e.meta.fileId == Some(f) && e.eventType == FileAccept {
      ForwardEvent(setup, w, c, v, e, to, d);
      RefusedEffect(setup.server, w.relay.registry, w.relay.sockets[c], Sourced(w, c, e).packet.event, d, f, c);
    }
  }

  lemma ForwardComplete(setup: Setup, w: World, c: Uuid, v: World, e: EventPacket, to: Endpoint, d: Uuid, f: Uuid)
    requires SetComplete(w.relay.registry, f, e.requestId).Some?
    ensures Takes(setup, w, c, v, TextFrame(Event(e)), to, d) && e.meta.fileId == Some(f) && e.eventType == FileComplete
            ==> v.relay.registry == SetComplete(w.relay.registry, f, e.requestId).value
                && Passed(w, v, c, d, Sourced(w, c, e))
  {
    if Takes(setup, w, c, v, TextFrame(Event(e)), to, d) && e.meta.fileId == Some(f) && e.eventType == FileComplete {
      ForwardEvent(setup, w, c, v, e, to, d);
      CompleteEffect(setup.server, w.relay.registry, w.relay.sockets[c], Sourced(w, c, e).packet.event, d, f);
    }
  }

  lemma ForwardLate(setup: Setup, w: World, c: Uuid, v: World, e: EventPacket, to: Endpoint, d: Uuid, f: Uuid)
    requires SetComplete(w.relay.registry, f, e.requestId).None?
    ensures Takes(setup, w, c, v, TextFrame(Event(e)), to, d) && e.meta.fileId == Some(f) && e.eventType == FileComplete
            ==> v.relay.registry == w.relay.registry
                && Passed(w, v, c, c, TextFrame(Error(R.ErrorPacketFor(NotAccepted))))
  {
    if Takes(setup, w, c, v, TextFrame(Event(e)), to, d) && e.meta.fileId == Some(f) && e.eventType == FileComplete {
      ForwardEvent(setup, w, c, v, e, to, d);
      CompleteEffect(setup.server, w.relay.registry, w.relay.sockets[c], Sourced(w, c, e).packet.event, d, f);
    }
  }

  /** Where the sender's message goes, and what stays. */
  ghost predicate SayWay(done: Done, w: World, c: Uuid, v: World, f: Uuid, u: FileView)
    requires c in w.nodes && f in w.started
  {
    && f in w.routed && v.routed == w.routed && f in v.offered && w.routed[f] != c && MOffer !in u.upS
    && Linked(w, c) && Linked(w, w.routed[f]) && Named(w.relay.sessions, w.routed[f], w.started[f].to)
    && w.nodes[c].client.outbox != [] && u.upS != [] && OfWire(done, f, w.nodes[c].client.outbox[1..]) == u.upS[1..]
    && RR.RelayOk(w.relay) && w.relay.sockets[c].connectionId == c
  }

  /** The sender's message has been handled, and t is the view it leaves. */
  ghost predicate Said(done: Done, w: World, c: Uuid, v: World, f: Uuid, u: FileView, t: FileView,
                       d: Uuid, m: WireMessage) {
    && Watched(w, f) && Watched(v, f) && InOrder(done, w, f, u) && c == w.started[f].owner
    && f in w.routed && SayWay(done, w, c, v, f, u) && u.upS != []
    && Passed(w, v, c, d, m) && (d == c || d == w.routed[f])
    && t == u.(upS := u.upS[1..], downR := t.downR, leg := t.leg, indexed := t.indexed)
    && (if d == c then WireMsg(done, f, m) == [] && t.downR == u.downR else t.downR == u.downR + WireMsg(done, f, m))
    && WireMsg(done, f, m) != [MOffer] && Inv(t)
    && RegistryTidy(done, f, v.relay.registry, c, Some(w.routed[f]))
    && t.leg == (LegKey(f, w.routed[f]) in v.relay.registry.legs) && t.indexed == Indexed(done, f, v.relay.registry)
  }

  lemma SaidSeen(done: Done, w: World, c: Uuid, v: World, f: Uuid, u: FileView, t: FileView, d: Uuid, m: WireMessage)
    requires Said(done, w, c, v, f, u, t, d, m)
    ensures SeesPassed(done, f, w, v, u, t)
  {
    PushedIn(done, f, w, v, c, d, m);
  }

  lemma SaidSettles(done: Done, w: World, c: Uuid, v: World, f: Uuid, u: FileView, t: FileView, d: Uuid, m: WireMessage)
    ensures Said(done, w, c, v, f, u, t, d, m) ==> InOrder(done, v, f, t)
  {
    if Said(done, w, c, v, f, u, t, d, m) {
      SaidSeen(done, w, c, v, f, u, t, d, m);
      PassedKeeps(done, f, w, v, c, d, m, u, t);
    }
  }

  /** The relay has handled the sender's oldest message and left this registry, passing or answering with m. */
  ghost predicate SayHandled(done: Done, w: World, c: Uuid, v: World, f: Uuid, u: FileView, msg: Msg,
                             r: Registry, d: Uuid, m: WireMessage) {
    && Watched(w, f) && Watched(v, f) && InOrder(done, w, f, u) && c == w.started[f].owner
    && f in w.routed && w.routed[f] != c && SayWay(done, w, c, v, f, u) && u.upS != [] && u.upS[0] == msg
    && v.relay.registry == r && Passed(w, v, c, d, m)
  }

  /** What the order of a routed file says of the relay's registry. */
  lemma OrderFacts(done: Done, w: World, f: Uuid, u: FileView)
    ensures Watched(w, f) && InOrder(done, w, f, u) && f in w.routed ==>
              && Inv(u) && RegistryTidy(done, f, w.relay.registry, w.started[f].owner, Some(w.routed[f]))
              && u.leg == (LegKey(f, w.routed[f]) in w.relay.registry.legs)
              && u.indexed == Indexed(done, f, w.relay.registry)
  {
    hide Inv, RegistryTidy, Indexed, OfWire, CleanNode, ReceiverTidy, SenderTidy;
  }

  lemma OwnerAbortView(done: Done, w: World, c: Uuid, v: World, f: Uuid, u: FileView, d: Uuid, m: WireMessage)
    ensures SayHandled(done, w, c, v, f, u, MAbort, RemoveByFile(w.relay.registry, f), d, m) && d == w.routed[f]
            && WireMsg(done, f, m) == [MAbort]
            ==> ByAct(done, v, f, u, RelayHearsSender)
  {
    hide InOrder, Linked, Passed, Inv, OfWire, WireMsg, RegistryTidy, Indexed, SayWay, RelayHeardSender, RemoveByFile;
    if SayHandled(done, w, c, v, f, u, MAbort, RemoveByFile(w.relay.registry, f), d, m) && d == w.routed[f]
       && WireMsg(done, f, m) == [MAbort] {
      OrderFacts(done, w, f, u);
      FileRemoved(done, f, w.relay.registry, c, d);
      RelayHearsLaterKeeps(u);
      RelayHeardCases(u);
      SaidSettles(done, w, c, v, f, u, RelayHeardSender(u), d, m);
    }
  }

  lemma OwnerCompleteView(done: Done, w: World, c: Uuid, v: World, f: Uuid, u: FileView, d: Uuid, m: WireMessage)
    requires f in done && SetComplete(w.relay.registry, f, done[f]).Some?
    ensures u.leg && SayHandled(done, w, c, v, f, u, MComplete, SetComplete(w.relay.registry, f, done[f]).value, d, m)
            && d == w.routed[f] && WireMsg(done, f, m) == [MComplete]
            ==> ByAct(done, v, f, u, RelayHearsSender)
  {
    hide InOrder, Linked, Passed, Inv, OfWire, WireMsg, RegistryTidy, Indexed, SayWay, RelayHeardSender, SetComplete;
    if u.leg && SayHandled(done, w, c, v, f, u, MComplete, SetComplete(w.relay.registry, f, done[f]).value, d, m)
       && d == w.routed[f] && WireMsg(done, f, m) == [MComplete] {
      OrderFacts(done, w, f, u);
      FileCompleted(done, f, w.relay.registry, c, d);
      RelayHearsLaterKeeps(u);
      RelayHeardCases(u);
      SaidSettles(done, w, c, v, f, u, RelayHeardSender(u), d, m);
    }
  }

  lemma OwnerRefusedView(done: Done, w: World, c: Uuid, v: World, f: Uuid, u: FileView, m: WireMessage)
    ensures !u.leg && SayHandled(done, w, c, v, f, u, MComplete, w.relay.registry, c, m) && WireMsg(done, f, m) == []
            ==> ByAct(done, v, f, u, RelayHearsSender)
  {
    hide InOrder, Linked, Passed, Inv, OfWire, WireMsg, RegistryTidy, Indexed, SayWay, RelayHeardSender;
    if !u.leg && SayHandled(done, w, c, v, f, u, MComplete, w.relay.registry, c, m) && WireMsg(done, f, m) == [] {
      OrderFacts(done, w, f, u);
      RelayHearsLaterKeeps(u);
      RelayHeardCases(u);
      SaidSettles(done, w, c, v, f, u, RelayHeardSender(u), c, m);
    }
  }

  /** The relay takes the sender's event e, which it would pass on to d as m. */
  ghost predicate EventSaid(setup: Setup, done: Done, w: World, c: Uuid, v: World, f: Uuid, u: FileView,
                            e: EventPacket, d: Uuid, m: WireMessage) {
    && Watched(w, f) && Watched(v, f) && InOrder(done, w, f, u) && c == w.started[f].owner
    && f in w.routed && w.routed[f] != c && SayWay(done, w, c, v, f, u) && u.upS != [] && d == w.routed[f]
    && Takes(setup, w, c, v, TextFrame(Event(e)), w.started[f].to, d)
    && m == Sourced(w, c, e) && e.meta.fileId == Some(f)
    && EventMsg(e.eventType) == [u.upS[0]] && WireMsg(done, f, m) == [u.upS[0]]
    && (e.eventType == FileComplete ==> f in done && e.requestId == done[f])
  }

  lemma OwnerWay(z: World, setup: Setup, w: World, c: Uuid, v: World, f: Uuid, u: FileView)
    requires EndSends(z, setup, w, c, v, f, u) && c == w.started[f].owner && u.upS != [] && u.upS[0] != MOffer
    ensures SayWay(z.completions, w, c, v, f, u)
  {
    hide R.Next, Ready, InOrder, ForwardTo, OfWire, WireMsg, GoesTo, EventHonest, OffersIn;
    OwnerHead(z, setup, w, c, v, f, u);
    OwnerLater(z, setup, w, c, v, f, u);
    ForwardIds(setup, w, c, v);
    EndFacts(z, setup, w, c, v, f, u);
    ViewFacts(z.completions, w, f, u);
  }

  lemma OwnerSpeaks(z: World, setup: Setup, w: World, c: Uuid, v: World, f: Uuid, u: FileView)
    requires EndSends(z, setup, w, c, v, f, u) && c == w.started[f].owner && u.upS != [] && u.upS[0] != MOffer
    ensures exists e, d, m :: EventSaid(setup, z.completions, w, c, v, f, u, e, d, m)
  {
    OwnerHead(z, setup, w, c, v, f, u);
    OwnerWay(z, setup, w, c, v, f, u);
    var e := w.nodes[c].client.outbox[0].packet.event;
    SourcedMsg(z.completions, f, e, w.relay.sockets[c].Endpoint(), u.upS[0]);
    assert EventSaid(setup, z.completions, w, c, v, f, u, e, w.routed[f], Sourced(w, c, e));
  }

  lemma AbortSettles(setup: Setup, done: Done, w: World, c: Uuid, v: World, f: Uuid, u: FileView, e: EventPacket,
                     d: Uuid, m: WireMessage)
    requires EventSaid(setup, done, w, c, v, f, u, e, d, m) && u.upS[0] == MAbort
    ensures ByAct(done, v, f, u, RelayHearsSender)
  {
    hide InOrder, Passed, OfWire, WireMsg, ByAct, SayWay, Takes, RemoveByFile;
    ForwardDrop(setup, w, c, v, e, w.started[f].to, d, f);
    OwnerAbortView(done, w, c, v, f, u, d, m);
  }

  lemma CompleteSettles(setup: Setup, done: Done, w: World, c: Uuid, v: World, f: Uuid, u: FileView, e: EventPacket,
                        d: Uuid, m: WireMessage)
    requires EventSaid(setup, done, w, c, v, f, u, e, d, m) && u.upS[0] == MComplete && u.leg
    ensures ByAct(done, v, f, u, RelayHearsSender)
  {
    hide InOrder, Passed, OfWire, WireMsg, ByAct, SayWay, Takes, SetComplete;
    LegTakesComplete(done, w, c, f, u);
    ForwardComplete(setup, w, c, v, e, w.started[f].to, d, f);
    OwnerCompleteView(done, w, c, v, f, u, d, m);
  }

  lemma RefusedSettles(setup: Setup, done: Done, w: World, c: Uuid, v: World, f: Uuid, u: FileView, e: EventPacket,
                       d: Uuid, m: WireMessage)
    requires EventSaid(setup, done, w, c, v, f, u, e, d, m) && u.upS[0] == MComplete && !u.leg
    ensures ByAct(done, v, f, u, RelayHearsSender)
  {
    hide InOrder, Passed, OfWire, WireMsg, ByAct, SayWay, Takes, SetComplete;
    LegTakesComplete(done, w, c, f, u);
    ForwardLate(setup, w, c, v, e, w.started[f].to, d, f);
    RefusalMsg(done, f);
    OwnerRefusedView(done, w, c, v, f, u, TextFrame(Error(R.ErrorPacketFor(NotAccepted))));
  }

  /** A complete is taken exactly while the leg is in view. */
  lemma LegTakesComplete(done: Done, w: World, c: Uuid, f: Uuid, u: FileView)
    ensures Watched(w, f) && InOrder(done, w, f, u) && f in w.routed && c == w.started[f].owner && f in done
            ==> (u.leg <==> SetComplete(w.relay.registry, f, done[f]).Some?)
  {
    if Watched(w, f) && InOrder(done, w, f, u) && f in w.routed && c == w.started[f].owner && f in done {
      FileCompleted(done, f, w.relay.registry, c, w.routed[f]);
    }
  }

  lemma OwnerEventSettles(setup: Setup, done: Done, w: World, c: Uuid, v: World, f: Uuid, u: FileView, e: EventPacket,
                          d: Uuid, m: WireMessage)
    requires u.upS != [] && (u.upS[0] == MAbort || u.upS[0] == MComplete)
    ensures EventSaid(setup, done, w, c, v, f, u, e, d, m) ==> ByAct(done, v, f, u, RelayHearsSender)
  {
    hide InOrder, Passed, OfWire, WireMsg, ByAct, SayWay, Takes, EventSaid;
    if EventSaid(setup, done, w, c, v, f, u, e, d, m) {
      if u.upS[0] == MAbort {
        AbortSettles(setup, done, w, c, v, f, u, e, d, m);
      } else if u.leg {
        CompleteSettles(setup, done, w, c, v, f, u, e, d, m);
      } else {
        RefusedSettles(setup, done, w, c, v, f, u, e, d, m);
      }
    }
  }

  // ---------- the offer ----------

  lemma OfferRouted(setup: Setup, w: World, c: Uuid, v: World, f: Uuid, e: EventPacket)
    requires ForwardTo(setup, w, c, v) && w.nodes[c].client.outbox[0] == TextFrame(Event(e)) && e.meta.fileId == Some(f)
    requires f !in w.routed && f in v.routed
    ensures R.OfferLimits(setup.server, e.meta, f).Ok? && TargetClient(e.target).Some? && e.eventType == FileOffer
    ensures ResolveUnicast(w.relay.sessions, TargetGroup(w.relay.sockets[c], e.target), TargetClient(e.target).value)
            == Ok(v.routed[f])
  {
  }

  lemma OfferWatched(z: World, setup: Setup, w: World, c: Uuid, v: World, f: Uuid, u: FileView)
    requires EndSends(z, setup, w, c, v, f, u) && c == w.started[f].owner && u.upS != [] && u.upS[0] == MOffer
    ensures f !in w.offered && f !in w.routed && f in v.offered && f in v.routed && v.routed[f] != c
    ensures Linked(v, v.routed[f])
  {
    hide R.Next, Ready, InOrder, ForwardTo, OfWire, WireMsg, GoesTo, EventHonest, OffersIn;
    OwnerHead(z, setup, w, c, v, f, u);
    ForwardIds(setup, w, c, v);
    ViewFacts(z.completions, w, f, u);
    assert u.upS[0] in u.upS;
  }

  lemma OfferChannel(setup: Setup, w: World, c: Uuid, v: World, e: EventPacket, d: Uuid)
    requires ForwardTo(setup, w, c, v) && w.nodes[c].client.outbox[0] == TextFrame(Event(e)) && Linked(v, d)
    ensures d in w.nodes && d in w.relay.outbound
  {
  }

  /** Where the offer goes: to the one client it names. */
  lemma OfferRoutes(z: World, setup: Setup, w: World, c: Uuid, v: World, f: Uuid, u: FileView)
    requires EndSends(z, setup, w, c, v, f, u) && c == w.started[f].owner && u.upS != [] && u.upS[0] == MOffer
    ensures c in w.nodes && w.nodes[c].client.outbox != [] && c in w.relay.sockets && f in v.routed
    ensures var m := w.nodes[c].client.outbox[0];
            var d := v.routed[f];
            && m.TextFrame? && m.packet.Event? && d in w.nodes && d in w.relay.outbound
            && Named(w.relay.sessions, d, w.started[f].to)
            && m.packet.event.eventType == FileOffer && m.packet.event.meta.fileId == Some(f)
            && R.OfferLimits(setup.server, m.packet.event.meta, f).Ok?
            && RouteEvent(w.relay.sessions, w.relay.sockets[c], m.packet.event)
               == Ok(RouteResult(Unicast, Sourced(w, c, m.packet.event).packet.event, {d}))
  {
    hide R.Next, Ready, InOrder, OfWire, WireMsg, EventHonest, OffersIn, Inv, SenderTidy, ReceiverTidy, Linked;
    OwnerHead(z, setup, w, c, v, f, u);
    OfferWatched(z, setup, w, c, v, f, u);
    EndFacts(z, setup, w, c, v, f, u);
    var e := w.nodes[c].client.outbox[0].packet.event;
    OfferRouted(setup, w, c, v, f, e);
    OfferedTo(w.relay.sessions, w.relay.sockets[c], e, w.started[f].to);
    OfferChannel(setup, w, c, v, e, v.routed[f]);
  }

  /** The relay takes the offer on and passes it to the client it names. */
  lemma OfferHandled(z: World, setup: Setup, w: World, c: Uuid, v: World, f: Uuid, u: FileView)
    requires EndSends(z, setup, w, c, v, f, u) && c == w.started[f].owner && u.upS != [] && u.upS[0] == MOffer
    ensures c in w.nodes && w.nodes[c].client.outbox != [] && c in w.relay.sockets && f in v.routed
    ensures var m := w.nodes[c].client.outbox[0];
            var d := v.routed[f];
            && m.TextFrame? && m.packet.Event? && d in w.nodes && Named(w.relay.sessions, d, w.started[f].to)
            && v.relay.registry == R.OfferToAll(w.relay.registry, f, m.packet.event.requestId, c, {d})
            && Passed(w, v, c, d, Sourced(w, c, m.packet.event))
            && WireMsg(z.completions, f, Sourced(w, c, m.packet.event)) == [MOffer]
  {
    hide R.Next, Ready, InOrder, ForwardTo, OfWire, GoesTo, EventHonest, OffersIn, Passed, RouteEvent, R.OfferToAll,
         R.OfferLimits;
    OfferRoutes(z, setup, w, c, v, f, u);
    EndFacts(z, setup, w, c, v, f, u);
    var e := w.nodes[c].client.outbox[0].packet.event;
    var d := v.routed[f];
    var passed := Sourced(w, c, e).packet.event;
    ForwardedEvent(setup, w, c, v, e, RouteResult(Unicast, passed, {d}), d);
    OfferEffect(setup.server, w.relay.registry, w.relay.sockets[c], passed, d, f);
    SourcedMsg(z.completions, f, e, w.relay.sockets[c].Endpoint(), MOffer);
  }

  lemma OfferPassed(z: World, setup: Setup, w: World, c: Uuid, v: World, f: Uuid, u: FileView)
    requires EndSends(z, setup, w, c, v, f, u) && c == w.started[f].owner && u.upS != [] && u.upS[0] == MOffer
    ensures ByAct(z.completions, v, f, u, RelayHearsSender)
  {
    hide R.Next, Ready, InOrder, ForwardTo, OfWire, WireMsg, GoesTo, EventHonest, OffersIn, Inv, RegistryTidy, Passed,
         RelayHeardSender, SenderTidy, ReceiverTidy, Indexed, ByAct, R.OfferToAll;
    OwnerHead(z, setup, w, c, v, f, u);
    OfferWatched(z, setup, w, c, v, f, u);
    OfferHandled(z, setup, w, c, v, f, u);
    EndFacts(z, setup, w, c, v, f, u);
    ViewFacts(z.completions, w, f, u);
    OfferKnown(z.completions, w, f, u);
    var e := w.nodes[c].client.outbox[0].packet.event;
    OfferTaken(z.completions, f, w.relay.registry, e.requestId, c, v.routed[f]);
    RelayHearsOfferKeeps(u);
    assert SenderName(w, f) == w.relay.sockets[c].Endpoint() by { SocketName(w, c); }
    OfferSettles(z.completions, w, c, v, f, u, v.routed[f], Sourced(w, c, e));
  }

  /** A registered connection's socket answers to its registered name. */
  lemma SocketName(w: World, c: Uuid)
    requires RR.RelayOk(w.relay) && c in w.relay.sockets && c in w.relay.sessions.connections
    ensures w.relay.sockets[c].Endpoint() == w.relay.sessions.connections[c].Endpoint()
  {
  }

  lemma HeardSenderActs(done: Done, v: World, f: Uuid, u: FileView)
    requires Watched(v, f) && u.upS != []
    ensures InOrder(done, v, f, RelayHeardSender(u)) ==> ByAct(done, v, f, u, RelayHearsSender)
  {
    hide InOrder, RelayHeardSender;
  }

  /** Before its offer is taken the relay knows nothing of a file. */
  lemma OfferKnown(done: Done, w: World, f: Uuid, u: FileView)
    requires Watched(w, f) && InOrder(done, w, f, u) && f !in w.offered
    ensures RegistryTidy(done, f, w.relay.registry, w.started[f].owner, None)
  {
    hide Inv, SenderTidy, OfWire, RegistryTidy, CleanNode;
  }

  /** Its receiver knew nothing of the file. */
  lemma OfferArrives(done: Done, f: Uuid, w: World, v: World, c: Uuid, d: Uuid, m: WireMessage)
    requires Passed(w, v, c, d, m) && d in w.nodes && d != c && c in w.relay.outbound && WireMsg(done, f, m) == [MOffer]
    requires CleanNode(done, w, f, d)
    ensures v.nodes[d].client == w.nodes[d].client && f !in v.nodes[d].client.store && f !in v.nodes[d].client.tasks
    ensures QuietAll(done, f, v.nodes[d].client.outbox)
    ensures OfWire(done, f, v.nodes[d].client.outbox) == [] && OfWire(done, f, Pipe(v, d)) == [MOffer]
    ensures OfWire(done, f, Pipe(v, c)) == OfWire(done, f, Pipe(w, c))
    ensures forall x :: x in Pipe(v, d) && WireMsg(done, f, x) != [] ==> x == m
  {
    QuietNone(done, f, w.nodes[d].client.outbox);
    QuietNone(done, f, Wires(w.nodes[d].inbound));
    QuietNone(done, f, w.relay.outbound[d]);
    Concat(done, f, Wires(w.nodes[d].inbound), w.relay.outbound[d]);
    PushedIn(done, f, w, v, c, d, m);
  }

  lemma OfferReceiveEnd(done: Done, f: Uuid, w: World, v: World, c: Uuid, d: Uuid, m: WireMessage)
    requires Watched(w, f) && Watched(v, f) && c == w.started[f].owner && f in v.routed && v.routed[f] == d != c
    requires Linked(v, d)
    requires Passed(w, v, c, d, m) && d in w.nodes && WireMsg(done, f, m) == [MOffer] && CleanNode(done, w, f, d)
    requires m.packet.Event? && m.packet.event.source == Some(SenderName(w, f))
    requires Named(w.relay.sessions, d, w.started[f].to)
    ensures ReceiveEndTidy(done, v, f)
  {
    OfferArrives(done, f, w, v, c, d, m);
    forall x | x in Pipe(v, d) && x.TextFrame?
      ensures OffersFrom(f, x.packet, SenderName(w, f))
    {
      OfferIsMessage(done, f, x.packet);
    }
  }

  lemma OfferClean(done: Done, f: Uuid, w: World, v: World, c: Uuid, d: Uuid, m: WireMessage)
    requires Watched(w, f) && Tidy(done, w, f) && f !in w.routed && c == w.started[f].owner && Passed(w, v, c, d, m)
    ensures forall e :: e in v.nodes && e != c && e != d ==> CleanNode(done, v, f, e)
  {
    forall e | e in v.nodes && e != c && e != d
      ensures CleanNode(done, v, f, e)
    {
      CleanPassed(done, f, w, v, c, d, m, e);
    }
  }

  /** The relay has taken the offer and passed it on to d as m. */
  ghost predicate OfferOn(done: Done, w: World, c: Uuid, v: World, f: Uuid, u: FileView, d: Uuid, m: WireMessage) {
    && Watched(w, f) && Watched(v, f) && InOrder(done, w, f, u) && c == w.started[f].owner
    && u.upS != [] && u.upS[0] == MOffer && Inv(RelayHeardSender(u))
    && w.nodes[c].client.outbox != [] && OfWire(done, f, w.nodes[c].client.outbox[1..]) == u.upS[1..]
    && f in v.offered && f !in w.routed && f in v.routed && v.routed[f] == d != c && Linked(v, d)
    && Passed(w, v, c, d, m) && d in w.nodes && WireMsg(done, f, m) == [MOffer]
    && m.TextFrame? && m.packet.Event? && m.packet.event.source == Some(SenderName(w, f))
    && Named(w.relay.sessions, d, w.started[f].to)
    && RegistryTidy(done, f, v.relay.registry, c, Some(d)) && LegKey(f, d) in v.relay.registry.legs
    && !Indexed(done, f, v.relay.registry)
  }

  lemma OfferSettles(done: Done, w: World, c: Uuid, v: World, f: Uuid, u: FileView, d: Uuid, m: WireMessage)
    ensures OfferOn(done, w, c, v, f, u, d, m) ==> ByAct(done, v, f, u, RelayHearsSender)
  {
    if OfferOn(done, w, c, v, f, u, d, m) {
      OfferEndsTidy(done, w, c, v, f, u, d, m);
      HeardSenderActs(done, v, f, u);
    }
  }

  lemma OfferEndsTidy(done: Done, w: World, c: Uuid, v: World, f: Uuid, u: FileView, d: Uuid, m: WireMessage)
    requires OfferOn(done, w, c, v, f, u, d, m)
    ensures InOrder(done, v, f, RelayHeardSender(u))
  {
    hide Inv, RelayHeardSender, OfWire, WireMsg, RegistryTidy, SenderTidy, ReceiverTidy, CleanNode, Indexed, OffersFrom;
    OutsiderClean(done, w, f, u, d);
    OfferArrives(done, f, w, v, c, d, m);
    OfferReceiveEnd(done, f, w, v, c, d, m);
    PassedSendEnd(done, f, w, v, c, d, m);
    OfferClean(done, f, w, v, c, d, m);
    OfferSeen(done, f, w, v, c, d, m, u);
  }

  /** The view after the relay has passed the offer on. */
  lemma OfferSeen(done: Done, f: Uuid, w: World, v: World, c: Uuid, d: Uuid, m: WireMessage, u: FileView)
    requires Watched(w, f) && Watched(v, f) && Passed(w, v, c, d, m) && c == w.started[f].owner
    requires f !in w.routed && f in v.offered && f in v.routed && v.routed[f] == d != c && Linked(v, d)
    requires SeesSendEnd(done, w, f, u) && SeesReceiveEnd(done, w, f, u) && SeesRest(done, w, f, u) && Inv(u)
    requires u.upS != [] && u.upS[0] == MOffer && OfWire(done, f, v.nodes[c].client.outbox) == u.upS[1..]
    requires OfWire(done, f, v.nodes[d].client.outbox) == [] && OfWire(done, f, Pipe(v, d)) == [MOffer]
    requires f !in v.nodes[d].client.store
    requires OfWire(done, f, Pipe(v, c)) == OfWire(done, f, Pipe(w, c))
    requires LegKey(f, d) in v.relay.registry.legs && !Indexed(done, f, v.relay.registry)
    ensures SeesSendEnd(done, v, f, RelayHeardSender(u)) && SeesReceiveEnd(done, v, f, RelayHeardSender(u))
    ensures SeesRest(done, v, f, RelayHeardSender(u))
  {
    hide OfWire, Indexed, AllGoTo, MsgOf;
  }

  // ---------- the receiver's messages ----------

  /** The receiver's oldest message about the file. */
  lemma ReceiverHead(z: World, setup: Setup, w: World, c: Uuid, v: World, f: Uuid, u: FileView)
    requires EndSends(z, setup, w, c, v, f, u) && f in w.routed && c == w.routed[f]
    ensures var m := w.nodes[c].client.outbox[0];
            && u.upR != [] && WireMsg(z.completions, f, m) == [u.upR[0]] && GoesTo(m, SenderName(w, f))
            && OfWire(z.completions, f, w.nodes[c].client.outbox[1..]) == u.upR[1..]
            && (u.upR[0] == MAccept || u.upR[0] == MReject || u.upR[0] == MAbort || u.upR[0] == MAck)
            && m.TextFrame?
  {
    hide R.Next, Ready, InOrder, ForwardTo, OfWire, WireMsg, GoesTo;
    ForwardIds(setup, w, c, v);
    ViewFacts(z.completions, w, f, u);
    FirstSent(z.completions, f, w.nodes[c].client.outbox, SenderName(w, f), u.upR);
  }

  ghost predicate ReceiverSends(z: World, setup: Setup, w: World, c: Uuid, v: World, f: Uuid, u: FileView) {
    EndSends(z, setup, w, c, v, f, u) && f in w.routed && c == w.routed[f]
  }

  lemma EventMessage(done: Done, f: Uuid, m: WireMessage, msg: Msg)
    requires WireMsg(done, f, m) == [msg] && (msg == MAccept || msg == MReject || msg == MAbort)
    ensures m.TextFrame? && m.packet.Event? && m.packet.event.meta.fileId == Some(f)
    ensures EventMsg(m.packet.event.eventType) == [msg]
    ensures OffersIn(m) == {}
  {
  }

  /** Where a receiver's message goes, and what stays. */
  ghost predicate ReplyWay(done: Done, w: World, c: Uuid, v: World, f: Uuid, u: FileView)
    requires c in w.nodes && f in w.started
  {
    var d := w.started[f].owner;
    && v.routed == w.routed && f in v.offered && d != c && MOffer !in u.upS
    && Linked(w, d) && Linked(w, c) && Named(w.relay.sessions, d, SenderName(w, f))
    && w.nodes[c].client.outbox != [] && u.upR != [] && OfWire(done, f, w.nodes[c].client.outbox[1..]) == u.upR[1..]
    && RR.RelayOk(w.relay) && w.relay.sockets[c].connectionId == c
  }

  lemma ReceiverLater(z: World, setup: Setup, w: World, c: Uuid, v: World, f: Uuid, u: FileView)
    requires ReceiverSends(z, setup, w, c, v, f, u) && OffersIn(w.nodes[c].client.outbox[0]) == {}
    ensures ReplyWay(z.completions, w, c, v, f, u)
  {
    hide R.Next, Ready, InOrder, ForwardTo, OfWire, WireMsg, GoesTo, OffersIn;
    ReceiverHead(z, setup, w, c, v, f, u);
    ForwardIds(setup, w, c, v);
    EndFacts(z, setup, w, c, v, f, u);
    ViewFacts(z.completions, w, f, u);
  }

  /** The receiver's message has been handled, and t is the view it leaves. */
  ghost predicate Replied(done: Done, w: World, c: Uuid, v: World, f: Uuid, u: FileView, t: FileView, d: Uuid,
                          m: WireMessage)
  {
    && Watched(w, f) && Watched(v, f) && InOrder(done, w, f, u) && f in w.routed && c == w.routed[f]
    && ReplyWay(done, w, c, v, f, u) && u.upR != []
    && Passed(w, v, c, d, m) && (d == c || d == w.started[f].owner)
    && t == u.(upR := u.upR[1..], downS := t.downS, leg := t.leg, indexed := t.indexed)
    && (if d == c then WireMsg(done, f, m) == [] && t.downS == u.downS else t.downS == u.downS + WireMsg(done, f, m))
    && WireMsg(done, f, m) != [MOffer] && Inv(t)
    && RegistryTidy(done, f, v.relay.registry, w.started[f].owner, Some(c))
    && t.leg == (LegKey(f, c) in v.relay.registry.legs) && t.indexed == Indexed(done, f, v.relay.registry)
  }

  lemma ReplySeen(done: Done, w: World, c: Uuid, v: World, f: Uuid, u: FileView, t: FileView, d: Uuid, m: WireMessage)
    requires Replied(done, w, c, v, f, u, t, d, m)
    ensures SeesPassed(done, f, w, v, u, t)
  {
    PushedIn(done, f, w, v, c, d, m);
  }

  lemma ReceiverPassed(done: Done, w: World, c: Uuid, v: World, f: Uuid, u: FileView, t: FileView, d: Uuid,
                       m: WireMessage)
    ensures Replied(done, w, c, v, f, u, t, d, m) ==> InOrder(done, v, f, t)
  {
    if Replied(done, w, c, v, f, u, t, d, m) {
      ReplySeen(done, w, c, v, f, u, t, d, m);
      PassedKeeps(done, f, w, v, c, d, m, u, t);
    }
  }

  /** The relay has handled the receiver's oldest message and left this registry, passing or answering with m. */
  ghost predicate ReplyHandled(done: Done, w: World, c: Uuid, v: World, f: Uuid, u: FileView, msg: Msg, r: Registry,
                               d: Uuid, m: WireMessage)
  {
    && Watched(w, f) && Watched(v, f) && InOrder(done, w, f, u) && f in w.routed && c == w.routed[f]
    && w.started[f].owner != c && ReplyWay(done, w, c, v, f, u) && u.upR != [] && u.upR[0] == msg
    && v.relay.registry == r && Passed(w, v, c, d, m)
  }

  lemma ReceiverEndView(done: Done, w: World, c: Uuid, v: World, f: Uuid, u: FileView, msg: Msg, d: Uuid,
                        m: WireMessage)
    ensures ReplyHandled(done, w, c, v, f, u, msg, RemoveByFile(w.relay.registry, f), d, m) && d == w.started[f].owner
            && (msg == MReject || msg == MAbort) && WireMsg(done, f, m) == [msg]
            ==> ByAct(done, v, f, u, RelayHearsReceiver)
  {
    hide InOrder, Linked, Passed, Inv, OfWire, WireMsg, RegistryTidy, Indexed, ReplyWay, RelayHeardReceiver,
        RemoveByFile;
    if ReplyHandled(done, w, c, v, f, u, msg, RemoveByFile(w.relay.registry, f), d, m) && d == w.started[f].owner
       && (msg == MReject || msg == MAbort) && WireMsg(done, f, m) == [msg] {
      OrderFacts(done, w, f, u);
      FileRemoved(done, f, w.relay.registry, d, c);
      RelayHearsEndKeeps(u);
      RelayHeardBack(u);
      ReceiverPassed(done, w, c, v, f, u, RelayHeardReceiver(u), d, m);
    }
  }

  lemma ReceiverAcceptView(done: Done, w: World, c: Uuid, v: World, f: Uuid, u: FileView, d: Uuid, m: WireMessage)
    requires u.leg ==> MarkAccepted(w.relay.registry, f, c).Some?
    ensures u.leg && ReplyHandled(done, w, c, v, f, u, MAccept, MarkAccepted(w.relay.registry, f, c).value, d, m)
            && d == w.started[f].owner && WireMsg(done, f, m) == [MAccept]
            ==> ByAct(done, v, f, u, RelayHearsReceiver)
  {
    hide InOrder, Linked, Passed, Inv, OfWire, WireMsg, RegistryTidy, Indexed, ReplyWay, RelayHeardReceiver,
        MarkAccepted;
    if u.leg && ReplyHandled(done, w, c, v, f, u, MAccept, MarkAccepted(w.relay.registry, f, c).value, d, m)
       && d == w.started[f].owner && WireMsg(done, f, m) == [MAccept] {
      OrderFacts(done, w, f, u);
      FileAccepted(done, f, w.relay.registry, d, c);
      RelayHearsAcceptKeeps(u);
      RelayHeardBack(u);
      ReceiverPassed(done, w, c, v, f, u, RelayHeardReceiver(u), d, m);
    }
  }

  lemma ReceiverRefusedView(done: Done, w: World, c: Uuid, v: World, f: Uuid, u: FileView, m: WireMessage)
    ensures !u.leg && ReplyHandled(done, w, c, v, f, u, MAccept, w.relay.registry, c, m) && WireMsg(done, f, m) == []
            ==> ByAct(done, v, f, u, RelayHearsReceiver)
  {
    hide InOrder, Linked, Passed, Inv, OfWire, WireMsg, RegistryTidy, Indexed, ReplyWay, RelayHeardReceiver;
    if !u.leg && ReplyHandled(done, w, c, v, f, u, MAccept, w.relay.registry, c, m) && WireMsg(done, f, m) == [] {
      OrderFacts(done, w, f, u);
      RelayHearsAcceptKeeps(u);
      RelayHeardBack(u);
      ReceiverPassed(done, w, c, v, f, u, RelayHeardReceiver(u), c, m);
    }
  }

  lemma ReceiverAckView(z: World, w: World, c: Uuid, v: World, f: Uuid, u: FileView, d: Uuid, m: WireMessage)
    requires f in z.completions && IdsKnown(z.drawn, z.completions, w.relay.registry)
    ensures ReplyHandled(z.completions, w, c, v, f, u, MAck, RemoveByRequest(w.relay.registry, z.completions[f]), d, m)
            && d == w.started[f].owner && WireMsg(z.completions, f, m) == [MAck]
            ==> ByAct(z.completions, v, f, u, RelayHearsReceiver)
  {
    hide InOrder, Linked, Passed, Inv, OfWire, WireMsg, RegistryTidy, Indexed, ReplyWay, RelayHeardReceiver,
        RemoveByRequest, IdsKnown;
    if ReplyHandled(z.completions, w, c, v, f, u, MAck, RemoveByRequest(w.relay.registry, z.completions[f]), d, m)
       && d == w.started[f].owner && WireMsg(z.completions, f, m) == [MAck] {
      OrderFacts(z.completions, w, f, u);
      FileAcked(z.drawn, z.completions, f, w.relay.registry, d, c);
      RelayHearsEndKeeps(u);
      RelayHeardBack(u);
      ReceiverPassed(z.completions, w, c, v, f, u, RelayHeardReceiver(u), d, m);
    }
  }

  /** A leg in view is a leg of the receiver. */
  lemma LegSeen(done: Done, w: World, c: Uuid, f: Uuid, u: FileView)
    ensures Watched(w, f) && InOrder(done, w, f, u) && f in w.routed && c == w.routed[f]
            ==> (u.leg <==> MarkAccepted(w.relay.registry, f, c).Some?)
  {
  }

  /** The relay takes the receiver's event e, which it would pass on to d as m. */
  ghost predicate EventReply(setup: Setup, done: Done, w: World, c: Uuid, v: World, f: Uuid, u: FileView,
                             e: EventPacket, d: Uuid, m: WireMessage)
  {
    && Watched(w, f) && Watched(v, f) && InOrder(done, w, f, u) && f in w.routed && c == w.routed[f]
    && ReplyWay(done, w, c, v, f, u) && u.upR != [] && w.started[f].owner != c && d == w.started[f].owner
    && Takes(setup, w, c, v, TextFrame(Event(e)), SenderName(w, f), d)
    && m == Sourced(w, c, e) && e.meta.fileId == Some(f) && EventMsg(e.eventType) == [u.upR[0]]
    && WireMsg(done, f, m) == [u.upR[0]]
  }

  lemma ReceiverReplies(z: World, setup: Setup, w: World, c: Uuid, v: World, f: Uuid, u: FileView)
    requires ReceiverSends(z, setup, w, c, v, f, u) && u.upR != [] && u.upR[0] != MAck
    ensures exists e, d, m :: EventReply(setup, z.completions, w, c, v, f, u, e, d, m)
  {
    ReceiverHead(z, setup, w, c, v, f, u);
    EventMessage(z.completions, f, w.nodes[c].client.outbox[0], u.upR[0]);
    ReceiverLater(z, setup, w, c, v, f, u);
    var e := w.nodes[c].client.outbox[0].packet.event;
    SourcedMsg(z.completions, f, e, w.relay.sockets[c].Endpoint(), u.upR[0]);
    ReplyIs(z, setup, w, c, v, f, u, e);
  }

  lemma ReplyIs(z: World, setup: Setup, w: World, c: Uuid, v: World, f: Uuid, u: FileView, e: EventPacket)
    requires c in w.relay.sockets
    ensures ReceiverSends(z, setup, w, c, v, f, u) && ReplyWay(z.completions, w, c, v, f, u)
            && w.nodes[c].client.outbox[0] == TextFrame(Event(e))
            && GoesTo(TextFrame(Event(e)), SenderName(w, f)) && e.meta.fileId == Some(f)
            && EventMsg(e.eventType) == [u.upR[0]]
            && WireMsg(z.completions, f, Sourced(w, c, e)) == [u.upR[0]]
            ==> EventReply(setup, z.completions, w, c, v, f, u, e, w.started[f].owner, Sourced(w, c, e))
  {
  }

  lemma EndReplySettles(setup: Setup, done: Done, w: World, c: Uuid, v: World, f: Uuid, u: FileView, e: EventPacket,
                        d: Uuid, m: WireMessage)
    requires EventReply(setup, done, w, c, v, f, u, e, d, m) && (u.upR[0] == MReject || u.upR[0] == MAbort)
    ensures ByAct(done, v, f, u, RelayHearsReceiver)
  {
    hide InOrder, Passed, OfWire, WireMsg, ByAct, ReplyWay, Takes, RemoveByFile;
    ForwardDrop(setup, w, c, v, e, SenderName(w, f), d, f);
    ReceiverEndView(done, w, c, v, f, u, u.upR[0], d, m);
  }

  lemma AcceptReplySettles(setup: Setup, done: Done, w: World, c: Uuid, v: World, f: Uuid, u: FileView, e: EventPacket,
                           d: Uuid, m: WireMessage)
    requires EventReply(setup, done, w, c, v, f, u, e, d, m) && u.upR[0] == MAccept && u.leg
    ensures ByAct(done, v, f, u, RelayHearsReceiver)
  {
    hide InOrder, Passed, OfWire, WireMsg, ByAct, ReplyWay, Takes, MarkAccepted;
    LegSeen(done, w, c, f, u);
    ForwardAccept(setup, w, c, v, e, SenderName(w, f), d, f);
    ReceiverAcceptView(done, w, c, v, f, u, d, m);
  }

  lemma RefusedReplySettles(setup: Setup, done: Done, w: World, c: Uuid, v: World, f: Uuid, u: FileView,
                            e: EventPacket, d: Uuid, m: WireMessage)
    requires EventReply(setup, done, w, c, v, f, u, e, d, m) && u.upR[0] == MAccept && !u.leg
    ensures ByAct(done, v, f, u, RelayHearsReceiver)
  {
    hide InOrder, Passed, OfWire, WireMsg, ByAct, ReplyWay, Takes, MarkAccepted;
    LegSeen(done, w, c, f, u);
    ForwardRefused(setup, w, c, v, e, SenderName(w, f), d, f);
    RefusalMsg(done, f);
    ReceiverRefusedView(done, w, c, v, f, u, TextFrame(Error(R.ErrorPacketFor(NotAccepted))));
  }

  lemma ForwardAck(setup: Setup, w: World, c: Uuid, v: World, a: AckPacket, to: Endpoint, d: Uuid)
    requires ForwardTo(setup, w, c, v) && w.nodes[c].client.outbox[0] == TextFrame(Ack(a))
    requires a.refType == Some(FileComplete)
    requires RR.RelayOk(w.relay) && Named(w.relay.sessions, d, to) && GoesTo(TextFrame(Ack(a)), to)
    requires d in w.relay.outbound
    ensures v.relay.registry == RemoveByRequest(w.relay.registry, a.requestId)
    ensures Passed(w, v, c, d, TextFrame(Ack(a.(source := Some(w.relay.sockets[c].Endpoint())))))
  {
    hide GoesTo;
    ReachesAck(w.relay.sessions, w.relay.sockets[c], a, to, d);
  }

  lemma AckMessage(done: Done, f: Uuid, m: WireMessage)
    requires WireMsg(done, f, m) == [MAck]
    ensures m.TextFrame? && m.packet.Ack? && m.packet.ack.refType == Some(FileComplete) && f in done
    ensures m.packet.ack.requestId == done[f]
  {
  }

  lemma ReceiverAckPassed(z: World, setup: Setup, w: World, c: Uuid, v: World, f: Uuid, u: FileView)
    requires ReceiverSends(z, setup, w, c, v, f, u) && u.upR != [] && u.upR[0] == MAck
    ensures ByAct(z.completions, v, f, u, RelayHearsReceiver)
  {
    ReceiverHead(z, setup, w, c, v, f, u);
    AckMessage(z.completions, f, w.nodes[c].client.outbox[0]);
    HonestIds(z, setup, w);
    ReceiverLater(z, setup, w, c, v, f, u);
    var a := w.nodes[c].client.outbox[0].packet.ack;
    var d := w.started[f].owner;
    var passed := a.(source := Some(w.relay.sockets[c].Endpoint()));
    ForwardAck(setup, w, c, v, a, SenderName(w, f), d);
    assert WireMsg(z.completions, f, TextFrame(Ack(passed))) == [MAck];
    ReceiverAckView(z, w, c, v, f, u, d, TextFrame(Ack(passed)));
  }

  /** What the relay does with the sender's oldest message about the file is the protocol's act: the message is with the
      other end and with no one else, or refused, and leg and index are as the act says. */
  lemma OwnerForwards(z: World, setup: Setup, w: World, c: Uuid, v: World, f: Uuid, u: FileView)
    requires EndSends(z, setup, w, c, v, f, u) && c == w.started[f].owner
    ensures ByAct(z.completions, v, f, u, RelayHearsSender)
  {
    hide Ready, ForwardTo, EndSends, Watched, InOrder, ByAct, EventSaid, OfWire, WireMsg, GoesTo;
    OwnerHead(z, setup, w, c, v, f, u);
    if u.upS[0] == MOffer {
      OfferPassed(z, setup, w, c, v, f, u);
    } else {
      OwnerSpeaks(z, setup, w, c, v, f, u);
      var e, d, m :| EventSaid(setup, z.completions, w, c, v, f, u, e, d, m);
      OwnerEventSettles(setup, z.completions, w, c, v, f, u, e, d, m);
    }
  }

  /** The same for the receiver's accept, reject, abort and ack. */
  lemma ReceiverForwards(z: World, setup: Setup, w: World, c: Uuid, v: World, f: Uuid, u: FileView)
    requires ReceiverSends(z, setup, w, c, v, f, u)
    ensures ByAct(z.completions, v, f, u, RelayHearsReceiver)
  {
    ReceiverHead(z, setup, w, c, v, f, u);
    if u.upR[0] == MAck {
      ReceiverAckPassed(z, setup, w, c, v, f, u);
    } else {
      ReceiverReplies(z, setup, w, c, v, f, u);
      var e, d, m :| EventReply(setup, z.completions, w, c, v, f, u, e, d, m);
      ReplySettles(setup, z.completions, w, c, v, f, u, e, d, m);
    }
  }

  lemma ReplySettles(setup: Setup, done: Done, w: World, c: Uuid, v: World, f: Uuid, u: FileView, e: EventPacket,
                     d: Uuid, m: WireMessage)
    requires u.upR != [] && (u.upR[0] == MAccept || u.upR[0] == MReject || u.upR[0] == MAbort)
    ensures EventReply(setup, done, w, c, v, f, u, e, d, m) ==> ByAct(done, v, f, u, RelayHearsReceiver)
  {
    hide InOrder, Passed, OfWire, WireMsg, ByAct, ReplyWay, Takes, EventReply;
    if EventReply(setup, done, w, c, v, f, u, e, d, m) {
      if u.upR[0] != MAccept {
        EndReplySettles(setup, done, w, c, v, f, u, e, d, m);
      } else if u.leg {
        AcceptReplySettles(setup, done, w, c, v, f, u, e, d, m);
      } else {
        RefusedReplySettles(setup, done, w, c, v, f, u, e, d, m);
      }
    }
  }

  // ---------- where things are ----------

  /** Owners, receivers and registered connections are nodes of the world, and history only speaks of started files. */
  predicate Placed(w: World) {
    && w.routed.Keys <= w.offered
    && (forall f :: f in w.routed ==> w.routed[f] in w.nodes)
    && (forall f :: f in w.started ==> w.started[f].owner in w.nodes)
    && w.relay.sessions.connections.Keys <= w.nodes.Keys
    && w.early <= w.started.Keys && w.dropped <= w.started.Keys
  }

  /** Only an init opens a channel or registers a connection. */
  lemma NextShrinks(setup: Setup, r: R.RelayState, i: R.Input)
    requires R.Possible(r, i) && !i.Init?
    ensures var t := R.Next(setup.server, r, i);
            t.sessions.connections.Keys <= r.sessions.connections.Keys && t.outbound.Keys <= r.outbound.Keys
  {
    if i.Expired? {
      var told := R.Push(R.Reply(r.(sessions := RemoveSession(r.sessions, i.c)), i.c, TimedOut), i.c, CloseFrame);
      RR.NotifyAppends(told.sessions, told.outbound, r.sessions.connections[i.c], R.RecordsOf(r.registry, i.order));
    } else if i.Closed? {
      var left := RemoveSession(r.sessions, i.c);
      RR.NotifyAppends(left, r.outbound, r.sockets[i.c], R.RecordsOf(r.registry, i.order));
    }
  }

  lemma UnicastToNode(setup: Setup, r: R.RelayState, i: R.Input)
    requires Coherent(r.sessions)
    ensures var first := UnicastReceiver(setup.server, r, i); first.Some? ==> first.value.1 in r.sessions.connections
  {
    if UnicastReceiver(setup.server, r, i).Some? {
      UnicastRefinesFlat(r.sessions, TargetGroup(r.sockets[i.c], i.event.target), TargetClient(i.event.target).value);
    }
  }

  lemma RoutedPlaced(setup: Setup, w: World, c: Uuid, v: World, f: Uuid)
    requires ForwardTo(setup, w, c, v) && f in v.routed
    ensures f in w.routed || f in v.offered
    ensures (f in w.routed && v.routed[f] == w.routed[f])
            || UnicastReceiver(setup.server, w.relay, InputFrom(c, w.nodes[c].client.outbox[0]).value)
               == Some((f, v.routed[f]))
  {
  }

  lemma ForwardPlaced(setup: Setup, w: World, c: Uuid, v: World)
    requires Placed(w) && RR.RelayOk(w.relay) && ForwardTo(setup, w, c, v)
    ensures Placed(v)
  {
    hide R.Next, R.Possible, ForwardTo, UnicastReceiver, Coherent;
    ForwardIds(setup, w, c, v);
    ForwardShape(setup, w, c, v);
    var i := InputFrom(c, w.nodes[c].client.outbox[0]).value;
    NextShrinks(setup, w.relay, i);
    UnicastToNode(setup, w.relay, i);
    forall f | f in v.routed
      ensures f in v.offered && v.routed[f] in v.nodes
    {
      RoutedPlaced(setup, w, c, v, f);
    }
  }

  /** A client only loses acks and drops entries of its own files. */
  lemma RecordedStarted(w: World, c: Uuid, s: ClientStep)
    requires c in w.nodes && NodeSound(w, c, w.nodes[c])
    ensures GapFiles(w.nodes[c].client, s) <= w.started.Keys && DropFiles(w.nodes[c].client, s) <= w.started.Keys
  {
    hide ClientOk;
  }

  lemma AtPlaced(setup: Setup, w: World, c: Uuid, s: ClientStep, v: World)
    requires Placed(w) && WorldSound(w) && ClientStepTo(setup, w, c, s, v)
    ensures Placed(v)
  {
    hide Client.Next, NodeSound, GapFiles, DropFiles;
    assert NodeSound(w, c, w.nodes[c]);
    RecordedStarted(w, c, s);
  }

  lemma ConnectPlaced(setup: Setup, w: World, s: Step, v: World)
    requires Placed(w) && s.Connect? && StepTo(setup, w, s, v)
    ensures Placed(v)
  {
  }

  lemma StepPlaced(setup: Setup, w: World, s: Step, v: World)
    requires Placed(w) && WorldSound(w) && StepTo(setup, w, s, v)
    ensures Placed(v)
  {
    match s
    case Connect(_, _) => ConnectPlaced(setup, w, s, v);
    case At(c, step) => AtPlaced(setup, w, c, step, v);
    case Forward(c) => ForwardPlaced(setup, w, c, v);
    case AtRelay(i) => NextShrinks(setup, w.relay, i);
    case _ =>
  }

  /** A link that is up now was up before. */
  lemma LinkedBack(setup: Setup, w: World, s: Step, v: World, c: Uuid)
    requires StepTo(setup, w, s, v) && c in w.nodes && Linked(v, c)
    ensures Linked(w, c)
  {
    match s
    case Forward(d) => NextShrinks(setup, w.relay, InputFrom(d, w.nodes[d].client.outbox[0]).value);
    case AtRelay(i) => NextShrinks(setup, w.relay, i);
    case _ =>
  }

  lemma HistoryBack(setup: Setup, w: World, s: Step, v: World, f: Uuid)
    requires StepTo(setup, w, s, v) && f in w.started
    ensures f in v.started && v.started[f] == w.started[f] && w.offered <= v.offered
    ensures f in w.offered ==> (f in v.routed <==> f in w.routed) && (f in w.routed ==> v.routed[f] == w.routed[f])
  {
  }

  lemma WatchedBack(setup: Setup, w: World, s: Step, v: World, f: Uuid)
    requires StepTo(setup, w, s, v) && Placed(w) && f in w.started && Watched(v, f)
    ensures Watched(w, f)
  {
    HistoryBack(setup, w, s, v, f);
    LinkedBack(setup, w, s, v, w.started[f].owner);
    if f in w.offered {
      LinkedBack(setup, w, s, v, w.routed[f]);
    }
  }

  // ---------- the offer is made ----------

  /** Nobody has heard of a file that has not been started. */
  lemma UnstartedMessage(z: World, setup: Setup, w: World, f: Uuid, m: WireMessage)
    requires WorldHonest(w, setup.digest, w) && IdsOk(w) && Extends(w, z) && IdsOk(z) && f !in w.started
    requires MessageHonest(w, setup.digest, m)
    ensures WireMsg(z.completions, f, m) == []
  {
    assert f in z.completions ==> z.completions[f] !in w.drawn;
  }

  lemma UnstartedQueue(z: World, setup: Setup, w: World, f: Uuid, ms: seq<WireMessage>)
    requires WorldHonest(w, setup.digest, w) && IdsOk(w) && Extends(w, z) && IdsOk(z) && f !in w.started
    requires forall m :: m in ms ==> MessageHonest(w, setup.digest, m)
    ensures QuietAll(z.completions, f, ms)
  {
    forall m | m in ms
      ensures WireMsg(z.completions, f, m) == []
    {
      UnstartedMessage(z, setup, w, f, m);
    }
  }

  lemma UnstartedNode(z: World, setup: Setup, w: World, f: Uuid, c: Uuid)
    requires WorldHonest(w, setup.digest, w) && IdsOk(w) && Extends(w, z) && IdsOk(z) && f !in w.started && c in w.nodes
    ensures CleanNode(z.completions, w, f, c)
  {
    assert NodeHonest(w, setup.digest, w.nodes[c]);
    UnstartedQueue(z, setup, w, f, w.nodes[c].client.outbox);
    forall m | m in Wires(w.nodes[c].inbound)
      ensures MessageHonest(w, setup.digest, m)
    {
      WireMember(w.nodes[c].inbound, m);
    }
    UnstartedQueue(z, setup, w, f, Wires(w.nodes[c].inbound));
    if c in w.relay.outbound {
      UnstartedQueue(z, setup, w, f, w.relay.outbound[c]);
    }
    assert f in w.nodes[c].client.store ==> EntryHonest(w, setup.digest, f, w.nodes[c].client.store[f]);
    assert f in w.nodes[c].client.tasks ==> TaskHonest(w, setup.digest, f, w.nodes[c].client.tasks[f]);
  }

  lemma UnstartedRegistry(z: World, setup: Setup, w: World, f: Uuid, sender: Uuid)
    requires WorldHonest(w, setup.digest, w) && IdsOk(w) && Extends(w, z) && IdsOk(z) && f !in w.started
    ensures RegistryTidy(z.completions, f, w.relay.registry, sender, None)
    ensures !Indexed(z.completions, f, w.relay.registry)
  {
    assert f in z.completions ==> z.completions[f] !in w.drawn;
    assert forall q :: q in w.relay.registry.index ==> q in w.drawn;
  }

  /** The start of f and the state it starts from. */
  ghost predicate Starting(z: World, setup: Setup, w: World, c: Uuid, s: ClientStep, v: World, f: Uuid) {
    && Ready(z, setup, w) && WorldHonest(w, setup.digest, w) && Placed(w) && ClientStepTo(setup, w, c, s, v)
    && s.Start? && s.fileId == f && Watched(v, f)
  }

  lemma StartedClient(z: World, setup: Setup, w: World, c: Uuid, s: ClientStep, v: World, f: Uuid)
    requires Starting(z, setup, w, c, s, v, f)
    ensures v.started[f].owner == c && c in w.nodes && c in v.nodes && CleanNode(z.completions, w, f, c)
    ensures |s.bytes| < 0x1_0000_0000_0000_0000
    ensures v.nodes[c].client
            == StartOutgoing(w.nodes[c].cfg, w.nodes[c].client, f, s.rid, s.fileName, s.path, s.bytes, s.sha256,
                                               s.targetGroup, s.targetClient)
    ensures v.started[f] == OriginOf(w.nodes[c].cfg, c, s) && Proper(v.started[f].to)
  {
    UnstartedNode(z, setup, w, f, c);
  }

  lemma StartedEnd(done: Done, cfg: Config, c: Uuid, n: ClientState, s: ClientStep, f: Uuid)
    requires s.Start? && s.fileId == f && |s.bytes| < 0x1_0000_0000_0000_0000 && Proper(OriginOf(cfg, c, s).to)
    requires QuietAll(done, f, n.outbox) && f !in n.tasks
    ensures var d := StartOutgoing(cfg, n, f, s.rid, s.fileName, s.path, s.bytes, s.sha256, s.targetGroup,
            s.targetClient);
            && SenderTidy(done, f, OriginOf(cfg, c, s).to, d) && SenderOf(d, f) == Waiting && TaskOf(d, f) == Idle
            && OfWire(done, f, d.outbox) == [MOffer]
  {
    var to := OriginOf(cfg, c, s).to;
    var d := StartOutgoing(cfg, n, f, s.rid, s.fileName, s.path, s.bytes, s.sha256, s.targetGroup, s.targetClient);
    QuietNone(done, f, n.outbox);
    var m := d.outbox[|n.outbox|];
    assert d.outbox == n.outbox + [m] && WireMsg(done, f, m) == [MOffer] && GoesTo(m, to);
    SentOne(done, f, n.outbox, m, to);
  }

  lemma StartSendEnd(z: World, setup: Setup, w: World, c: Uuid, s: ClientStep, v: World, f: Uuid)
    requires Starting(z, setup, w, c, s, v, f)
    ensures v.started[f].owner == c && SenderTidy(z.completions, f, v.started[f].to, v.nodes[c].client)
    ensures SenderOf(v.nodes[c].client, f) == Waiting && TaskOf(v.nodes[c].client, f) == Idle
    ensures OfWire(z.completions, f, v.nodes[c].client.outbox) == [MOffer]
  {
    StartedClient(z, setup, w, c, s, v, f);
    StartedEnd(z.completions, w.nodes[c].cfg, c, w.nodes[c].client, s, f);
  }

  lemma StartHistory(z: World, setup: Setup, w: World, c: Uuid, s: ClientStep, v: World, f: Uuid)
    requires Starting(z, setup, w, c, s, v, f)
    ensures OnlyNode(w, v, c) && v.nodes[c].inbound == w.nodes[c].inbound
    ensures f !in w.started && f !in v.offered && f !in v.routed && f !in v.completions && f !in v.early
    ensures f !in v.dropped
  {
    AtShape(setup, w, c, s, v);
  }

  lemma StartingFacts(z: World, setup: Setup, w: World, c: Uuid, s: ClientStep, v: World, f: Uuid)
    requires Starting(z, setup, w, c, s, v, f)
    ensures WorldHonest(w, setup.digest, w) && IdsOk(w) && Extends(w, z) && IdsOk(z) && f !in w.started
    ensures c in w.relay.outbound
  {
    hide Client.Next, WorldHonest;
  }

  lemma StartClean(z: World, setup: Setup, w: World, c: Uuid, s: ClientStep, v: World, f: Uuid)
    requires Starting(z, setup, w, c, s, v, f)
    ensures forall d :: d in v.nodes && d != c ==> CleanNode(z.completions, v, f, d)
    ensures OfWire(z.completions, f, Pipe(v, c)) == []
  {
    hide Starting, WorldHonest, Extends, IdsOk, OfWire, WireMsg;
    var done := z.completions;
    StartHistory(z, setup, w, c, s, v, f);
    StartingFacts(z, setup, w, c, s, v, f);
    forall d | d in w.nodes
      ensures CleanNode(done, w, f, d)
    {
      UnstartedNode(z, setup, w, f, d);
    }
    QuietNone(done, f, Wires(w.nodes[c].inbound));
    QuietNone(done, f, w.relay.outbound[c]);
    Concat(done, f, Wires(w.nodes[c].inbound), w.relay.outbound[c]);
  }

  /** What a fresh offer leaves. */
  ghost predicate JustStarted(done: Done, v: World, c: Uuid, f: Uuid) {
    && Watched(v, f) && v.started[f].owner == c
    && f !in v.offered && f !in v.routed && f !in v.completions && f !in v.early && f !in v.dropped
    && SenderTidy(done, f, v.started[f].to, v.nodes[c].client)
    && SenderOf(v.nodes[c].client, f) == Waiting && TaskOf(v.nodes[c].client, f) == Idle
    && OfWire(done, f, v.nodes[c].client.outbox) == [MOffer] && OfWire(done, f, Pipe(v, c)) == []
    && (forall d :: d in v.nodes && d != c ==> CleanNode(done, v, f, d))
    && RegistryTidy(done, f, v.relay.registry, c, None) && !Indexed(done, f, v.relay.registry)
  }

  lemma FreshView(done: Done, v: World, c: Uuid, f: Uuid)
    ensures JustStarted(done, v, c, f) ==> Settled(done, v, f)
  {
    if JustStarted(done, v, c, f) {
      var u := FileView(Waiting, Idle, Empty, [MOffer], [], [], [], false, false, false, false, false);
      FreshHolds(u);
      assert InOrder(done, v, f, u);
    }
  }

  lemma StartSettled(z: World, setup: Setup, w: World, c: Uuid, s: ClientStep, v: World, f: Uuid)
    requires Starting(z, setup, w, c, s, v, f)
    ensures Settled(z.completions, v, f)
  {
    StartHistory(z, setup, w, c, s, v, f);
    StartSendEnd(z, setup, w, c, s, v, f);
    StartClean(z, setup, w, c, s, v, f);
    UnstartedRegistry(z, setup, w, f, c);
    FreshView(z.completions, v, c, f);
  }

  // ---------- every step ----------

  lemma CleanNotAbout(done: Done, w: World, c: Uuid, s: ClientStep, f: Uuid)
    requires c in w.nodes && CleanNode(done, w, f, c) && f in w.started && Enabled(w.nodes[c].client, s)
    requires !s.Reconnect?
    requires s.Start? ==> s.fileId !in w.started
    requires s.Receive? ==> w.nodes[c].inbound != [] && s.packet == w.nodes[c].inbound[0]
    ensures !AboutFile(done, f, w.nodes[c].client, s)
  {
    if s.Receive? {
      WireMember(w.nodes[c].inbound, TextFrame(s.packet));
      assert WireMsg(done, f, TextFrame(s.packet)) == [];
    }
  }

  lemma AtSettled(z: World, setup: Setup, w: World, c: Uuid, s: ClientStep, v: World, f: Uuid, u: FileView)
    requires Ready(z, setup, w) && ClientStepTo(setup, w, c, s, v) && Watched(w, f) && Watched(v, f)
    requires v.started[f] == w.started[f]
    requires InOrder(z.completions, w, f, u)
    ensures Settled(z.completions, v, f)
  {
    if !AboutFile(z.completions, f, w.nodes[c].client, s) {
      AtQuiet(z, setup, w, c, s, v, f);
      QuietKeeps(z.completions, f, w, v, u);
    } else if c == w.started[f].owner {
      OwnerSteps(z, setup, w, c, s, v, f, u);
      ActedSettles(z.completions, v, f, u);
    } else {
      AtReceiver(z, setup, w, c, s, v, f, u);
    }
  }

  lemma OutsiderClean(done: Done, w: World, f: Uuid, u: FileView, c: Uuid)
    requires Watched(w, f) && InOrder(done, w, f, u) && c in w.nodes && c != w.started[f].owner
    requires ReceiverId(w, f) != Some(c)
    ensures CleanNode(done, w, f, c)
  {
    hide Inv, SenderTidy, OfWire, RegistryTidy, CleanNode;
  }

  lemma AtReceiver(z: World, setup: Setup, w: World, c: Uuid, s: ClientStep, v: World, f: Uuid, u: FileView)
    requires Ready(z, setup, w) && ClientStepTo(setup, w, c, s, v) && Watched(w, f) && Watched(v, f)
    requires InOrder(z.completions, w, f, u) && AboutFile(z.completions, f, w.nodes[c].client, s)
    requires c != w.started[f].owner
    ensures Settled(z.completions, v, f)
  {
    hide Ready, InOrder, Linked, AboutFile, Acted, Client.Next, CleanNode;
    if f in w.routed && w.routed[f] == c {
      ReceiverSteps(z, setup, w, c, s, v, f, u);
      ActedSettles(z.completions, v, f, u);
    } else {
      OutsiderClean(z.completions, w, f, u, c);
      CleanNotAbout(z.completions, w, c, s, f);
    }
  }

  lemma ForwardSettled(z: World, setup: Setup, w: World, c: Uuid, v: World, f: Uuid, u: FileView)
    requires Ready(z, setup, w) && ForwardTo(setup, w, c, v) && Watched(w, f) && Watched(v, f)
    requires InOrder(z.completions, w, f, u)
    ensures Settled(z.completions, v, f)
  {
    if WireMsg(z.completions, f, w.nodes[c].client.outbox[0]) == [] {
      ForwardQuiet(z, setup, w, c, v, f);
      QuietKeeps(z.completions, f, w, v, u);
    } else if c == w.started[f].owner {
      OwnerForwards(z, setup, w, c, v, f, u);
    } else {
      ForwardReceiver(z, setup, w, c, v, f, u);
    }
  }

  lemma ForwardReceiver(z: World, setup: Setup, w: World, c: Uuid, v: World, f: Uuid, u: FileView)
    requires EndSends(z, setup, w, c, v, f, u) && c != w.started[f].owner
    ensures Settled(z.completions, v, f)
  {
    OnlyEndsSend(z, setup, w, c, v, f, u);
    ReceiverForwards(z, setup, w, c, v, f, u);
  }

  lemma OnlyEndsSend(z: World, setup: Setup, w: World, c: Uuid, v: World, f: Uuid, u: FileView)
    requires EndSends(z, setup, w, c, v, f, u) && c != w.started[f].owner
    ensures f in w.routed && w.routed[f] == c
  {
  }

  lemma GoneUnlinked(setup: Setup, r: R.RelayState, i: R.Input)
    requires R.Possible(r, i) && (i.Expired? || i.Closed?)
    ensures i.c !in R.Next(setup.server, r, i).sessions.connections
  {
  }

  lemma OthersNamed(done: Done, w: World, f: Uuid, u: FileView, c: Uuid)
    requires Watched(w, f) && InOrder(done, w, f, u) && KeysOk(w.relay.registry)
    requires c != w.started[f].owner && (f in w.routed ==> c != w.routed[f])
    ensures forall k :: k in LegsNaming(w.relay.registry, c) ==> k.fileId != f
  {
    hide Inv, SenderTidy, ReceiverTidy, OfWire, CleanNode;
  }

  /** Only connections that are no end of the file can go while both ends stay linked. */
  lemma AtRelaySettled(z: World, setup: Setup, w: World, i: R.Input, v: World, f: Uuid, u: FileView)
    requires Ready(z, setup, w) && StepTo(setup, w, AtRelay(i), v) && Watched(w, f) && Watched(v, f)
    requires InOrder(z.completions, w, f, u)
    ensures Settled(z.completions, v, f)
  {
    hide InOrder, R.Next, WorldSound, WorldHonest, QuietWorld, LegsNaming;
    if i.Expired? || i.Closed? {
      GoneUnlinked(setup, w.relay, i);
      SoundKeys(w);
      ViewFacts(z.completions, w, f, u);
      OthersNamed(z.completions, w, f, u, i.c);
    }
    AtRelayQuiet(z, setup, w, i, v, f);
    QuietKeeps(z.completions, f, w, v, u);
  }

  lemma QuietStepSettled(z: World, setup: Setup, w: World, s: Step, v: World, f: Uuid, u: FileView)
    requires StepTo(setup, w, s, v) && (s.Connect? || s.Say? || s.Deliver? || s.Die?) && Watched(w, f) && Watched(v, f)
    requires InOrder(z.completions, w, f, u)
    ensures Settled(z.completions, v, f)
  {
    match s {
      case Connect(_, _) => ConnectQuiet(z.completions, setup, w, s, v, f);
      case Say(c, e) => SayQuiet(z.completions, setup, w, c, e, v, f);
      case Deliver(c) => DeliverQuiet(z.completions, w, c, v, f);
      case Die(c) => DieQuiet(z.completions, setup, w, c, v, f);
    }
    QuietKeeps(z.completions, f, w, v, u);
  }

  /** Every step of the world keeps a watched file in order. */
  lemma StepSettled(z: World, setup: Setup, w: World, s: Step, v: World, f: Uuid)
    requires Ready(z, setup, w) && Placed(w) && StepTo(setup, w, s, v) && f in w.started && Settled(z.completions, w, f)
    ensures Settled(z.completions, v, f)
  {
    hide Ready, Placed, InOrder, ClientStepTo, ForwardTo, ConnectTo, DeliverTo, R.Next, Linked;
    if Watched(v, f) {
      WatchedBack(setup, w, s, v, f);
      HistoryBack(setup, w, s, v, f);
      var u :| InOrder(z.completions, w, f, u);
      match s {
        case At(c, step) => AtSettled(z, setup, w, c, step, v, f, u);
        case Forward(c) => ForwardSettled(z, setup, w, c, v, f, u);
        case AtRelay(i) => AtRelaySettled(z, setup, w, i, v, f, u);
        case _ => QuietStepSettled(z, setup, w, s, v, f, u);
      }
    }
  }

  lemma FirstSettled(z: World, setup: Setup, w: World, s: Step, v: World, f: Uuid)
    requires Ready(z, setup, w) && WorldHonest(w, setup.digest, w) && Placed(w) && StepTo(setup, w, s, v)
    requires f !in w.started && f in v.started
    ensures Settled(z.completions, v, f)
  {
    hide Ready, Placed, WorldHonest, Watched, Client.Next, R.Next;
    if Watched(v, f) {
      StartSettled(z, setup, w, s.c, s.step, v, f);
    }
  }

  // ---------- runs ----------

  lemma RunReady(setup: Setup, steps: seq<Step>, states: seq<World>, m: nat, n: nat)
    requires IsRun(setup, steps, states) && m <= n <= |steps|
    ensures Ready(states[n], setup, states[m]) && WorldHonest(states[m], setup.digest, states[m])
  {
    hide StepTo, WorldHonest, Extends;
    RunsSound(setup, steps, states, m, n);
    RunsSound(setup, steps, states, n, n);
    RunsSound(setup, steps, states, m, m);
    RunsHonest(setup, steps, states, m, n);
    RunsHonest(setup, steps, states, m, m);
  }

  lemma StepPlacedAt(setup: Setup, steps: seq<Step>, states: seq<World>, m: nat)
    requires IsRun(setup, steps, states) && m < |steps|
    ensures Placed(states[m]) ==> Placed(states[m + 1])
  {
    hide StepTo, Placed, Ready, WorldHonest, Extends, IdsOk;
    RunFacts(setup, steps, states, m, m + 1);
    RunReady(setup, steps, states, m, m);
    if Placed(states[m]) {
      StepPlaced(setup, states[m], steps[m], states[m + 1]);
    }
  }

  lemma FirstPlaced()
    ensures Placed(INITIAL)
  {
  }

  lemma RunsPlaced(setup: Setup, steps: seq<Step>, states: seq<World>, n: nat)
    requires IsRun(setup, steps, states) && n <= |steps|
    ensures Placed(states[n])
  {
    hide StepTo, Placed;
    var placed := w => Placed(w);
    forall i | 0 <= i < n && placed(states[i])
      ensures placed(states[i + 1])
    {
      StepPlacedAt(setup, steps, states, i);
    }
    FirstPlaced();
    Along(placed, states, n);
  }

  /** A started file is in order whenever it is watched. */
  ghost predicate Kept(done: Done, w: World, f: Uuid) {
    f in w.started ==> Settled(done, w, f)
  }

  lemma StepKept(setup: Setup, steps: seq<Step>, states: seq<World>, m: nat, n: nat, f: Uuid)
    requires IsRun(setup, steps, states) && m < n <= |steps|
    ensures Kept(states[n].completions, states[m], f) ==> Kept(states[n].completions, states[m + 1], f)
  {
    hide StepTo, Ready, Placed, WorldHonest, WorldSound, Extends, IdsOk, Settled;
    if Kept(states[n].completions, states[m], f) && f in states[m + 1].started {
      RunReady(setup, steps, states, m, n);
      RunsPlaced(setup, steps, states, m);
      RunFacts(setup, steps, states, m, n);
      if f in states[m].started {
        StepSettled(states[n], setup, states[m], steps[m], states[m + 1], f);
      } else {
        FirstSettled(states[n], setup, states[m], steps[m], states[m + 1], f);
      }
    }
  }

  lemma FirstKept(done: Done, f: Uuid)
    ensures Kept(done, INITIAL, f)
  {
  }

  lemma RunsKept(setup: Setup, steps: seq<Step>, states: seq<World>, n: nat, f: Uuid)
    requires IsRun(setup, steps, states) && n <= |steps|
    ensures Kept(states[n].completions, states[n], f)
  {
    hide StepTo, Kept;
    var kept := w => Kept(states[n].completions, w, f);
    forall i | 0 <= i < n && kept(states[i])
      ensures kept(states[i + 1])
    {
      StepKept(setup, steps, states, i, n, f);
    }
    FirstKept(states[n].completions, f);
    Along(kept, states, n);
  }

  /** No message about the file is under way to or from this client. */
  predicate QuietEnd(w: World, f: Uuid, c: Uuid)
    requires c in w.nodes && c in w.relay.outbound
  {
    && QuietAll(w.completions, f, w.nodes[c].client.outbox)
    && QuietAll(w.completions, f, w.relay.outbound[c])
    && QuietAll(w.completions, f, Wires(w.nodes[c].inbound))
  }

  lemma QuietView(w: World, f: Uuid, u: FileView)
    requires Watched(w, f) && InOrder(w.completions, w, f, u) && f in w.routed
    requires QuietEnd(w, f, w.started[f].owner) && QuietEnd(w, f, w.routed[f])
    ensures Silent(u)
  {
    QuietQueues(w, f, w.started[f].owner);
    QuietQueues(w, f, w.routed[f]);
  }

  lemma QuietQueues(w: World, f: Uuid, c: Uuid)
    requires c in w.nodes && c in w.relay.outbound && QuietEnd(w, f, c)
    ensures OfWire(w.completions, f, w.nodes[c].client.outbox) == [] && OfWire(w.completions, f, Pipe(w, c)) == []
  {
    QuietNone(w.completions, f, w.nodes[c].client.outbox);
    QuietNone(w.completions, f, w.relay.outbound[c]);
    QuietNone(w.completions, f, Wires(w.nodes[c].inbound));
    Concat(w.completions, f, Wires(w.nodes[c].inbound), w.relay.outbound[c]);
  }

  /** Neither leg nor index entry. */
  predicate NothingAtRelay(r: Registry, f: Uuid) {
    (forall k :: k in r.legs ==> k.fileId != f) && (forall q :: q in r.index ==> r.index[q] != f)
  }

  lemma GoneEverywhere(z: World, digest: Digest, f: Uuid, u: FileView)
    requires Watched(z, f) && InOrder(z.completions, z, f, u) && f in z.routed && Silent(u)
    requires RegistryHonest(z, z.relay.registry)
    requires f !in z.nodes[z.started[f].owner].client.store || f !in z.nodes[z.routed[f]].client.store
    ensures NothingAtRelay(z.relay.registry, f) && f !in z.nodes[z.routed[f]].client.store
    ensures f in z.nodes[z.started[f].owner].client.store <==> f in z.early && f !in z.dropped
  {
    SilenceMeansGone(u);
    assert SeesReceiveEnd(z.completions, z, f, u);
  }

  /** Unicast quiescence. In every run, for a file that its owner offered to one named client and the relay passed on
      to another connection: with both ends still linked, once one end has dropped the file and no message about it is
      under way, the relay holds no leg and no index entry for it, the receiver holds no entry, and the sender holds
      one exactly when the ack was dispatched before its id had been recorded and neither the sender's user nor a
      reject, an abort or an error has ended the entry since. */
  lemma UnicastQuiescence(setup: Setup, steps: seq<Step>, states: seq<World>, n: nat, f: Uuid)
    requires IsRun(setup, steps, states) && n <= |steps| && Watched(states[n], f) && f in states[n].routed
    requires QuietEnd(states[n], f, states[n].started[f].owner)
    requires Linked(states[n], states[n].routed[f]) && QuietEnd(states[n], f, states[n].routed[f])
    requires f !in states[n].nodes[states[n].started[f].owner].client.store
             || f !in states[n].nodes[states[n].routed[f]].client.store
    ensures var w := states[n];
            && NothingAtRelay(w.relay.registry, f)
            && f !in w.nodes[w.routed[f]].client.store
            && (f in w.nodes[w.started[f].owner].client.store <==> f in w.early && f !in w.dropped)
  {
    hide StepTo, Ready, Tidy, Sees, Inv;
    var w := states[n];
    RunsKept(setup, steps, states, n, f);
    RunReady(setup, steps, states, n, n);
    var u :| InOrder(w.completions, w, f, u);
    QuietView(w, f, u);
    GoneEverywhere(w, setup.digest, f, u);
  }

  // ---------- with the two lines as one step ----------

  predicate IsMark(s: Step, c: Uuid, f: Uuid) {
    s.At? && s.c == c && s.step.Mark? && s.step.fileId == f
  }

  predicate IsComplete(s: Step, c: Uuid, f: Uuid) {
    s.At? && s.c == c && s.step.Complete? && s.step.fileId == f
  }

  /** Queueing `file_complete` and recording its id happen as one. */
  ghost predicate GapFree(steps: seq<Step>) {
    forall i, c, f :: 0 <= i < |steps| && IsComplete(steps[i], c, f) ==> i + 1 < |steps| && IsMark(steps[i + 1], c, f)
  }

  predicate InGapAt(w: World, c: Uuid, f: Uuid) {
    c in w.nodes && f in w.nodes[c].client.tasks && w.nodes[c].client.tasks[f].phase.AtMark?
  }

  lemma GapOpens(cfg: Config, digest: Digest, c: ClientState, s: ClientStep, f: Uuid)
    requires Enabled(c, s) && !s.Reconnect? && Client.Next(cfg, digest, c, s).Ok?
    requires var d := Client.Next(cfg, digest, c, s).value; f in d.tasks && d.tasks[f].phase.AtMark?
    ensures (s.Complete? && s.fileId == f) || (f in c.tasks && c.tasks[f].phase.AtMark? && !(s.Mark? && s.fileId == f))
  {
  }

  /** Only queueing `file_complete` opens a gap, and recording the id closes it. */
  lemma GapBack(setup: Setup, w: World, s: Step, v: World, c: Uuid, f: Uuid)
    requires StepTo(setup, w, s, v) && InGapAt(v, c, f)
    ensures IsComplete(s, c, f) || (InGapAt(w, c, f) && !IsMark(s, c, f))
  {
    if s.At? && s.c == c {
      var n := w.nodes[c];
      if Client.Next(n.cfg, setup.digest, n.client, s.step).Ok? {
        GapOpens(n.cfg, setup.digest, n.client, s.step, f);
      }
    }
  }

  lemma EarlyStep(setup: Setup, w: World, s: Step, v: World, f: Uuid)
    requires StepTo(setup, w, s, v) && f in v.early
    ensures f in w.early || (s.At? && s.step.Receive? && InGapAt(w, s.c, f))
  {
  }

  lemma GapOrigin(setup: Setup, steps: seq<Step>, states: seq<World>, n: nat, c: Uuid, f: Uuid)
    requires IsRun(setup, steps, states) && n < |steps| && InGapAt(states[n + 1], c, f)
    ensures IsComplete(steps[n], c, f) || (InGapAt(states[n], c, f) && !IsMark(steps[n], c, f))
  {
    hide StepTo;
    RunFacts(setup, steps, states, n, n + 1);
    GapBack(setup, states[n], steps[n], states[n + 1], c, f);
  }

  lemma NoGapAtFirst(setup: Setup, steps: seq<Step>, states: seq<World>, c: Uuid, f: Uuid)
    requires IsRun(setup, steps, states)
    ensures !InGapAt(states[0], c, f)
  {
  }

  lemma {:induction false} GapsClose(setup: Setup, steps: seq<Step>, states: seq<World>, n: nat, c: Uuid, f: Uuid)
    requires IsRun(setup, steps, states) && GapFree(steps) && n <= |steps| && InGapAt(states[n], c, f)
    ensures n < |steps| && IsMark(steps[n], c, f)
  {
    hide StepTo, InGapAt, IsMark, IsComplete;
    if n == 0 {
      NoGapAtFirst(setup, steps, states, c, f);
    } else {
      GapOrigin(setup, steps, states, n - 1, c, f);
      if !IsComplete(steps[n - 1], c, f) {
        GapsClose(setup, steps, states, n - 1, c, f);
      }
    }
  }

  /** When recording the id always follows at once, no ack is ever early. */
  lemma {:induction false} GapFreeNeverEarly(setup: Setup, steps: seq<Step>, states: seq<World>, n: nat, f: Uuid)
    requires IsRun(setup, steps, states) && GapFree(steps) && n <= |steps|
    ensures f !in states[n].early
  {
    hide StepTo, InGapAt, GapFree;
    if n > 0 && f in states[n].early {
      RunFacts(setup, steps, states, n - 1, n);
      GapFreeNeverEarly(setup, steps, states, n - 1, f);
      EarlyStep(setup, states[n - 1], steps[n - 1], states[n], f);
      GapsClose(setup, steps, states, n - 1, steps[n - 1].c, f);
    }
  }

  /** Then quiescence is complete: sender, relay and receiver all hold nothing for the file. */
  lemma QuiescenceWithoutGap(setup: Setup, steps: seq<Step>, states: seq<World>, n: nat, f: Uuid)
    requires IsRun(setup, steps, states) && GapFree(steps) && n <= |steps| && Watched(states[n], f)
    requires f in states[n].routed
    requires QuietEnd(states[n], f, states[n].started[f].owner)
    requires Linked(states[n], states[n].routed[f]) && QuietEnd(states[n], f, states[n].routed[f])
    requires f !in states[n].nodes[states[n].started[f].owner].client.store
             || f !in states[n].nodes[states[n].routed[f]].client.store
    ensures var w := states[n];
            && NothingAtRelay(w.relay.registry, f)
            && f !in w.nodes[w.routed[f]].client.store && f !in w.nodes[w.started[f].owner].client.store
  {
    hide StepTo, GapFree;
    UnicastQuiescence(setup, steps, states, n, f);
    GapFreeNeverEarly(setup, steps, states, n, f);
  }
}
