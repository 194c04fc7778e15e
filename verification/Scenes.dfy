/** Runs of the whole system with two clients, built step by step: Alice and Bob connect, and Alice offers Bob a file,
    by name or to the whole group. */
module Scenes {
  import opened Basics
  import opened Packets
  import opened Chunking
  import opened FileStore
  import opened SendLoop
  import opened Client
  import opened Sessions
  import opened Routing
  import opened Transfers
  import opened Protocol
  import R = Relay

  const ALICE: Uuid := 1
  const BOB: Uuid := 2
  const FILE: Uuid := 7
  const OFFER_ID: RequestId := 3
  const ACCEPT_ID: RequestId := 4
  const COMPLETE_ID: RequestId := 5

  const ALICE_RECORD := SessionRecord(ALICE, "g", "alice", 0, 0)
  const BOB_RECORD := SessionRecord(BOB, "g", "bob", 0, 0)
  const ALICE_CONFIG := Config("g", "alice", false)
  const BOB_CONFIG := Config("g", "bob", true)
  const TO_ALICE := Endpoint(Some("g"), Some("alice"))
  const TO_BOB := Endpoint(Some("g"), Some("bob"))

  const REGISTERED := Sessions(
    map["g" := map["alice" := ALICE_RECORD, "bob" := BOB_RECORD]], map[ALICE := ALICE_RECORD, BOB := BOB_RECORD])

  /** A file offered to Bob by name, or to everybody in the group, which is Bob. */
  datatype Upload = Upload(bytes: seq<byte>, to: Option<string>)
  {
    predicate Ok() {
      (to == Some("bob") || to == None) && FitsU32(|bytes|)
    }

    function Target(): Endpoint {
      Endpoint(Some("g"), to)
    }

    function Peer(): string {
      if to.Some? then to.value else "*"
    }

    function Mode(): RouteMode {
      if to.Some? then Unicast else Broadcast
    }
  }

  /** What of the world changes along the run: both clients, what is on its way to them, the relay's legs, the
      history. */
  datatype Scene = Scene(
    alice: ClientState, aliceIn: seq<Packet>, toAlice: seq<WireMessage>,
    bob: ClientState, bobIn: seq<Packet>, bobFrames: seq<seq<byte>>, toBob: seq<WireMessage>,
    registry: Registry, past: Past)

  datatype Past = Past(started: map<Uuid, Origin>, completions: map<Uuid, RequestId>, drawn: map<RequestId, Uuid>,
                       offered: set<Uuid>, routed: map<Uuid, Uuid>, early: set<Uuid>)

  const NO_PAST := Past(map[], map[], map[], {}, map[], {})

  function WorldOf(s: Scene): World {
    World(R.RelayState(REGISTERED, s.registry, map[ALICE := s.toAlice, BOB := s.toBob],
                       map[ALICE := ALICE_RECORD, BOB := BOB_RECORD]),
          map[ALICE := Node(ALICE_CONFIG, s.alice, s.aliceIn, [], true, true),
              BOB := Node(BOB_CONFIG, s.bob, s.bobIn, s.bobFrames, true, true)],
          s.past.started, s.past.completions, s.past.drawn, s.past.offered, s.past.routed, s.past.early, {})
  }

  // ---------- runs one step at a time ----------

  ghost predicate Reached(setup: Setup, w: World) {
    exists steps, states :: EndsIn(setup, steps, states, w)
  }

  ghost predicate EndsIn(setup: Setup, steps: seq<Step>, states: seq<World>, w: World) {
    IsRun(setup, steps, states) && states[|steps|] == w
  }

  lemma FirstReached(setup: Setup)
    ensures Reached(setup, INITIAL)
  {
    assert EndsIn(setup, [], [INITIAL], INITIAL);
  }

  lemma NextReached(setup: Setup, w: World, s: Step, v: World)
    requires Reached(setup, w) && StepTo(setup, w, s, v)
    ensures Reached(setup, v)
  {
    hide StepTo;
    var steps, states :| EndsIn(setup, steps, states, w);
    var more, later := steps + [s], states + [v];
    forall i | 0 <= i < |more|
      ensures StepTo(setup, later[i], more[i], later[i + 1])
    {
      if i < |steps| {
        assert StepTo(setup, states[i], steps[i], states[i + 1]);
      }
    }
    assert EndsIn(setup, more, later, v);
  }

  // ---------- steps between scenes ----------

  lemma DeliveredToAlice(setup: Setup, s: Scene, p: Packet) returns (t: Scene)
    requires s.toAlice == [TextFrame(p)] && Reached(setup, WorldOf(s))
    ensures Reached(setup, WorldOf(t)) && t == s.(toAlice := [], aliceIn := s.aliceIn + [p])
  {
    t := s.(toAlice := [], aliceIn := s.aliceIn + [p]);
    assert s.toAlice[1..] == [];
    assert WorldOf(t).relay.outbound == WorldOf(s).relay.outbound[ALICE := s.toAlice[1..]];
    assert WorldOf(t).nodes == WorldOf(s).nodes[ALICE := Queued(WorldOf(s).nodes[ALICE], s.toAlice[0])];
    assert DeliverTo(WorldOf(s), ALICE, WorldOf(t));
    NextReached(setup, WorldOf(s), Deliver(ALICE), WorldOf(t));
  }

  lemma DeliveredToBob(setup: Setup, s: Scene, p: Packet) returns (t: Scene)
    requires s.toBob == [TextFrame(p)] && Reached(setup, WorldOf(s))
    ensures Reached(setup, WorldOf(t)) && t == s.(toBob := [], bobIn := s.bobIn + [p])
  {
    t := s.(toBob := [], bobIn := s.bobIn + [p]);
    assert s.toBob[1..] == [];
    assert WorldOf(t).relay.outbound == WorldOf(s).relay.outbound[BOB := s.toBob[1..]];
    assert WorldOf(t).nodes == WorldOf(s).nodes[BOB := Queued(WorldOf(s).nodes[BOB], s.toBob[0])];
    assert DeliverTo(WorldOf(s), BOB, WorldOf(t));
    NextReached(setup, WorldOf(s), Deliver(BOB), WorldOf(t));
  }

  lemma FrameToBob(setup: Setup, s: Scene, frame: seq<byte>) returns (t: Scene)
    requires s.toBob == [BinaryFrame(frame)] && Reached(setup, WorldOf(s))
    ensures Reached(setup, WorldOf(t)) && t == s.(toBob := [], bobFrames := s.bobFrames + [frame])
  {
    t := s.(toBob := [], bobFrames := s.bobFrames + [frame]);
    assert s.toBob[1..] == [];
    assert WorldOf(t).relay.outbound == WorldOf(s).relay.outbound[BOB := s.toBob[1..]];
    assert WorldOf(t).nodes == WorldOf(s).nodes[BOB := Queued(WorldOf(s).nodes[BOB], s.toBob[0])];
    assert DeliverTo(WorldOf(s), BOB, WorldOf(t));
    NextReached(setup, WorldOf(s), Deliver(BOB), WorldOf(t));
  }

  /** The history after a step of Alice's. */
  function PastAfter(s: Scene, step: ClientStep): Past {
    var r := Recorded(WorldOf(s), ALICE, step);
    Past(r.started, r.completions, r.drawn, s.past.offered, s.past.routed, s.past.early + GapFiles(s.alice, step))
  }

  lemma AliceSteps(setup: Setup, s: Scene, step: ClientStep, alice: ClientState) returns (t: Scene)
    requires Reached(setup, WorldOf(s)) && ClientEnabled(setup, WorldOf(s), ALICE, step)
    requires DropFiles(s.alice, step) == {}
    requires Client.Next(ALICE_CONFIG, setup.digest, s.alice, step) == Ok(alice) && !step.ReceiveFrame?
    ensures Reached(setup, WorldOf(t))
    ensures t == s.(alice := alice, aliceIn := if step.Receive? then s.aliceIn[1..] else s.aliceIn,
                    past := PastAfter(s, step))
  {
    hide Client.Next, GapFiles, DropFiles;
    t := s.(alice := alice, aliceIn := if step.Receive? then s.aliceIn[1..] else s.aliceIn, past := PastAfter(s, step));
    var n := WorldOf(s).nodes[ALICE];
    assert WorldOf(t).nodes == WorldOf(s).nodes[ALICE := Stepped(n, step, Ok(alice))];
    assert ClientStepTo(setup, WorldOf(s), ALICE, step, WorldOf(t));
    NextReached(setup, WorldOf(s), At(ALICE, step), WorldOf(t));
  }

  lemma BobSteps(setup: Setup, s: Scene, step: ClientStep, bob: ClientState) returns (t: Scene)
    requires Reached(setup, WorldOf(s)) && ClientEnabled(setup, WorldOf(s), BOB, step)
    requires step.Receive? || step.ReceiveFrame?
    requires DropFiles(s.bob, step) == {} && GapFiles(s.bob, step) == {}
    requires Client.Next(BOB_CONFIG, setup.digest, s.bob, step) == Ok(bob)
    ensures Reached(setup, WorldOf(t))
    ensures t == if step.Receive? then s.(bob := bob, bobIn := s.bobIn[1..])
                 else s.(bob := bob, bobFrames := s.bobFrames[1..])
  {
    hide Client.Next, GapFiles, DropFiles;
    t := if step.Receive? then s.(bob := bob, bobIn := s.bobIn[1..]) else s.(bob := bob, bobFrames := s.bobFrames[1..]);
    var n := WorldOf(s).nodes[BOB];
    assert WorldOf(t).nodes == WorldOf(s).nodes[BOB := Stepped(n, step, Ok(bob))];
    assert ClientStepTo(setup, WorldOf(s), BOB, step, WorldOf(t));
    NextReached(setup, WorldOf(s), At(BOB, step), WorldOf(t));
  }

  function Unsent(c: ClientState): ClientState
    requires c.outbox != []
  {
    c.(outbox := c.outbox[1..])
  }

  /** The file's offer has been passed on to Bob. */
  function PassedOn(p: Past, x: Upload): Past {
    p.(offered := p.offered + {FILE}, routed := if x.to.Some? then p.routed[FILE := BOB] else p.routed)
  }

  /** The relay's part of passing on an event of Alice's. */
  lemma AliceRelayed(setup: Setup, s: Scene, x: Upload, e: EventPacket, registry: Registry)
    requires e.version == PROTOCOL_VERSION && e.kind == EventKind && e.source == Some(TO_ALICE)
    requires x.Ok() && e.target == Some(x.Target())
    requires R.SideEffects(setup.server, s.registry, ALICE_RECORD, RouteResult(x.Mode(), e, {BOB})) == Ok(registry)
    ensures RouteEvent(REGISTERED, ALICE_RECORD, e) == Ok(RouteResult(x.Mode(), e, {BOB}))
    ensures R.Next(setup.server, WorldOf(s).relay, R.EventIn(ALICE, e))
            == WorldOf(s.(registry := registry, toBob := s.toBob + [TextFrame(Event(e))])).relay
  {
    hide R.SideEffects;
    var g := REGISTERED.groups["g"];
    assert (set n | n in g && g[n].connectionId != ALICE :: g[n].connectionId) == {BOB} by {
      assert "bob" in g && g["bob"].connectionId == BOB;
    }
    assert RouteEvent(REGISTERED, ALICE_RECORD, e) == Ok(RouteResult(x.Mode(), e, {BOB}));
    var w, v := WorldOf(s), WorldOf(s.(registry := registry, toBob := s.toBob + [TextFrame(Event(e))]));
    assert v.relay.outbound == R.PushToAll(w.relay.outbound, {BOB}, TextFrame(Event(e)));
  }

  /** The relay takes Alice's oldest message, an event about the file that it takes on, and leaves this registry. */
  lemma AliceHeard(setup: Setup, s: Scene, x: Upload, e: EventPacket, registry: Registry) returns (t: Scene)
    requires Reached(setup, WorldOf(s)) && s.alice.outbox != [] && s.alice.outbox[0] == TextFrame(Event(e))
    requires e.version == PROTOCOL_VERSION && e.kind == EventKind && e.source == Some(TO_ALICE)
    requires x.Ok() && e.target == Some(x.Target())
    requires R.SideEffects(setup.server, s.registry, ALICE_RECORD, RouteResult(x.Mode(), e, {BOB})) == Ok(registry)
    requires e.eventType == FileOffer ==> e.meta.fileId == Some(FILE) && FILE !in s.past.offered
                                          && R.OfferLimits(setup.server, e.meta, FILE).Ok?
    ensures Reached(setup, WorldOf(t))
    ensures t == s.(alice := Unsent(s.alice), toBob := s.toBob + [TextFrame(Event(e))], registry := registry,
                    past := if e.eventType == FileOffer then PassedOn(s.past, x) else s.past)
  {
    hide R.SideEffects, Reached, R.OfferLimits, R.Next, RouteEvent;
    t := s.(alice := Unsent(s.alice), toBob := s.toBob + [TextFrame(Event(e))], registry := registry,
            past := if e.eventType == FileOffer then PassedOn(s.past, x) else s.past);
    var w, v := WorldOf(s), WorldOf(t);
    AliceRelayed(setup, s, x, e, registry);
    assert v.relay == R.Next(setup.server, w.relay, R.EventIn(ALICE, e));
    assert v.nodes == w.nodes[ALICE := Sent(w.nodes[ALICE])];
    assert ForwardTo(setup, w, ALICE, v);
    NextReached(setup, w, Forward(ALICE), v);
  }

  lemma BobHeard(setup: Setup, s: Scene, e: EventPacket, registry: Registry) returns (t: Scene)
    requires Reached(setup, WorldOf(s)) && s.bob.outbox != [] && s.bob.outbox[0] == TextFrame(Event(e))
    requires e.version == PROTOCOL_VERSION && e.kind == EventKind && e.source == Some(TO_BOB)
    requires e.target == Some(TO_ALICE)
    requires R.SideEffects(setup.server, s.registry, BOB_RECORD, RouteResult(Unicast, e, {ALICE})) == Ok(registry)
    requires e.eventType != FileOffer
    ensures Reached(setup, WorldOf(t))
    ensures t == s.(bob := Unsent(s.bob), toAlice := s.toAlice + [TextFrame(Event(e))], registry := registry)
  {
    hide R.SideEffects, Reached;
    t := s.(bob := Unsent(s.bob), toAlice := s.toAlice + [TextFrame(Event(e))], registry := registry);
    var w, v := WorldOf(s), WorldOf(t);
    assert RouteEvent(REGISTERED, BOB_RECORD, e) == Ok(RouteResult(Unicast, e, {ALICE}));
    assert v.relay.outbound == R.PushToAll(w.relay.outbound, {ALICE}, TextFrame(Event(e)));
    assert v.relay == R.Next(setup.server, w.relay, R.EventIn(BOB, e));
    assert v.nodes == w.nodes[BOB := Sent(w.nodes[BOB])];
    assert ForwardTo(setup, w, BOB, v);
    NextReached(setup, w, Forward(BOB), v);
  }

  lemma BobAcked(setup: Setup, s: Scene, a: AckPacket) returns (t: Scene)
    requires Reached(setup, WorldOf(s)) && s.bob.outbox != [] && s.bob.outbox[0] == TextFrame(Ack(a))
    requires a == AckFrom(TO_BOB, TO_ALICE, COMPLETE_ID, a.status)
    ensures Reached(setup, WorldOf(t))
    ensures t == s.(bob := Unsent(s.bob), toAlice := s.toAlice + [TextFrame(Ack(a))],
                    registry := RemoveByRequest(s.registry, COMPLETE_ID))
  {
    hide RemoveByRequest, Reached;
    t := s.(bob := Unsent(s.bob), toAlice := s.toAlice + [TextFrame(Ack(a))],
            registry := RemoveByRequest(s.registry, COMPLETE_ID));
    var w, v := WorldOf(s), WorldOf(t);
    assert RouteAck(REGISTERED, BOB_RECORD, a) == Ok(AckRoute(a, ALICE));
    assert v.relay.outbound == R.PushTo(w.relay.outbound, ALICE, TextFrame(Ack(a)));
    assert v.relay == R.Next(setup.server, w.relay, R.AckIn(BOB, a));
    assert v.nodes == w.nodes[BOB := Sent(w.nodes[BOB])];
    assert ForwardTo(setup, w, BOB, v);
    NextReached(setup, w, Forward(BOB), v);
  }

  // ---------- the packets of the run ----------

  function Offer(setup: Setup, x: Upload): EventPacket
    requires x.Ok()
  {
    FitsInU64(|x.bytes|);
    EventFrom(TO_ALICE, x.Target(), OFFER_ID, FileOffer, OfferMeta(FILE, "n", x.bytes, setup.digest(x.bytes)))
  }

  const ACCEPT := EventFrom(TO_BOB, TO_ALICE, ACCEPT_ID, FileAccept, FileMeta(FILE).(savePath := Some("s")))

  function Completion(setup: Setup, x: Upload): EventPacket
    requires x.Ok()
  {
    FitsInU64(|x.bytes|);
    EventFrom(TO_ALICE, x.Target(), COMPLETE_ID, FileComplete,
              FileMeta(FILE).(fileSize := Some(|x.bytes|), sha256 := Some(setup.digest(x.bytes))))
  }

  lemma FitsInU64(len: nat)
    requires FitsU32(len)
    ensures len < 0x1_0000_0000_0000_0000
  {
    CountBounds(len, CHUNK_SIZE);
  }

  predicate SendingEntry(setup: Setup, x: Upload, t: Transfer) {
    && t.chunkSize == Some(CHUNK_SIZE) && t.outgoingBytes == Some(x.bytes)
    && t.bytesTotal == |x.bytes| && t.totalChunks == TotalChunks(|x.bytes|) && t.sha256 == setup.digest(x.bytes)
    && t.peerGroup == "g" && t.peerClient == x.Peer() && t.fileName == "n" && t.sourcePath == Some("p")
  }

  predicate SendingTask(setup: Setup, x: Upload, k: SendTask, phase: SendPhase) {
    && k.phase == phase && k.group == "g" && k.client == x.Peer() && k.size == |x.bytes|
    && k.totalChunks == TotalChunks(|x.bytes|) && k.chunkSize == CHUNK_SIZE && k.bytes == x.bytes
    && k.sha256 == setup.digest(x.bytes)
  }

  /** Alice's entry and task for the file, and what she has yet to send. */
  predicate IsSending(setup: Setup, x: Upload, c: ClientState, state: State, id: Option<RequestId>,
                      phase: Option<SendPhase>, outbox: seq<WireMessage>) {
    && c.store.Keys == {FILE} && c.store[FILE].state == state && c.store[FILE].completionRequestId == id
    && SendingEntry(setup, x, c.store[FILE])
    && (if phase.None? then c.tasks == map[]
        else c.tasks.Keys == {FILE} && SendingTask(setup, x, c.tasks[FILE], phase.value))
    && c.outbox == outbox
  }

  function StartStep(setup: Setup, x: Upload): ClientStep {
    Start(FILE, OFFER_ID, "n", "p", x.bytes, setup.digest(x.bytes), Some("g"), x.to)
  }

  lemma AliceOffers(setup: Setup, x: Upload) returns (alice: ClientState)
    requires x.Ok()
    ensures Enabled(FRESH_CLIENT, StartStep(setup, x))
    ensures Client.Next(ALICE_CONFIG, setup.digest, FRESH_CLIENT, StartStep(setup, x)) == Ok(alice)
    ensures IsSending(setup, x, alice, WaitingAccept, None, None, [TextFrame(Event(Offer(setup, x)))])
  {
    FitsInU64(|x.bytes|);
    alice := StartOutgoing(ALICE_CONFIG, FRESH_CLIENT, FILE, OFFER_ID, "n", "p", x.bytes, setup.digest(x.bytes),
                           Some("g"), x.to);
  }

  lemma AliceStarts(setup: Setup, x: Upload, c: ClientState) returns (alice: ClientState)
    requires IsSending(setup, x, c, WaitingAccept, None, None, [])
    ensures Client.Next(ALICE_CONFIG, setup.digest, c, Receive(Event(ACCEPT), "", 0, 0)) == Ok(alice)
    ensures IsSending(setup, x, alice, State.Sending, None, Some(AtCheck(0)), [])
  {
    alice := OnAccept(c, ACCEPT).value;
  }

  /** The look at the table after the last chunk. */
  lemma AliceFinishes(setup: Setup, x: Upload, c: ClientState) returns (alice: ClientState)
    requires IsSending(setup, x, c, State.Sending, None, Some(AtCheck(ChunkCount(|x.bytes|))), [])
    ensures Client.Next(ALICE_CONFIG, setup.digest, c, Check(FILE)) == Ok(alice)
    ensures IsSending(setup, x, alice, State.Sending, None, Some(AtComplete), [])
  {
    alice := TaskCheck(c, FILE);
  }

  lemma AliceCompletes(setup: Setup, x: Upload, c: ClientState) returns (alice: ClientState)
    requires x.Ok() && IsSending(setup, x, c, State.Sending, None, Some(AtComplete), [])
    ensures Enabled(c, ClientStep.Complete(FILE, COMPLETE_ID))
    ensures Client.Next(ALICE_CONFIG, setup.digest, c, ClientStep.Complete(FILE, COMPLETE_ID)) == Ok(alice)
    ensures IsSending(setup, x, alice, State.Sending, None, Some(AtMark(COMPLETE_ID)),
                      [TextFrame(Event(Completion(setup, x)))])
  {
    alice := TaskComplete(ALICE_CONFIG, c, FILE, COMPLETE_ID);
  }

  lemma AliceMarks(setup: Setup, x: Upload, c: ClientState, outbox: seq<WireMessage>) returns (alice: ClientState)
    requires IsSending(setup, x, c, State.Sending, None, Some(AtMark(COMPLETE_ID)), outbox)
    ensures Client.Next(ALICE_CONFIG, setup.digest, c, Mark(FILE)) == Ok(alice)
    ensures IsSending(setup, x, alice, WaitingAck, Some(COMPLETE_ID), None, outbox)
  {
    alice := TaskMark(c, FILE);
  }

  /** Popping the outbox leaves entry and task. */
  lemma SentKeeps(setup: Setup, x: Upload, c: ClientState, state: State, id: Option<RequestId>,
                  phase: Option<SendPhase>, m: WireMessage)
    requires IsSending(setup, x, c, state, id, phase, [m])
    ensures IsSending(setup, x, Unsent(c), state, id, phase, [])
  {
  }

  /** Bob's receiving entry after k chunks, nothing written yet, and what he has yet to send. */
  predicate Taking(setup: Setup, x: Upload, c: ClientState, k: nat, outbox: seq<WireMessage>) {
    && c.store.Keys == {FILE} && HonestReceiving(c.store[FILE], x.bytes, k)
    && c.store[FILE].sha256 == setup.digest(x.bytes) && c.store[FILE].savePath == Some("s")
    && Client.Peer(c.store[FILE]) == TO_ALICE && c.tasks == map[] && c.outbox == outbox && c.disk == []
  }

  lemma BobAccepts(setup: Setup, x: Upload) returns (bob: ClientState)
    requires x.Ok()
    ensures Client.Next(BOB_CONFIG, setup.digest, FRESH_CLIENT, Receive(Event(Offer(setup, x)), "s", ACCEPT_ID, 0))
            == Ok(bob)
    ensures Taking(setup, x, bob, 0, [TextFrame(Event(ACCEPT))])
  {
    bob := OnOffer(BOB_CONFIG, FRESH_CLIENT, Offer(setup, x), "s", ACCEPT_ID).value;
    assert Prefix(x.bytes, CHUNK_SIZE, 0) == [];
  }

  // ---------- connecting ----------

  const IDLE := Scene(FRESH_CLIENT, [], [], FRESH_CLIENT, [], [], [], Transfers.EMPTY, NO_PAST)

  lemma AliceConnects(setup: Setup)
    ensures Reached(setup, WorldWithAlice())
  {
    FirstReached(setup);
    assert AddSession(NO_SESSIONS, ALICE_RECORD) == Ok(ALICE_ALONE);
    NextReached(setup, INITIAL, Connect(ALICE_RECORD, false), WorldWithAlice());
  }

  const ALICE_ALONE := Sessions(map["g" := map["alice" := ALICE_RECORD]], map[ALICE := ALICE_RECORD])

  function WorldWithAlice(): World {
    World(R.RelayState(ALICE_ALONE, Transfers.EMPTY, map[ALICE := [TextFrame(InitAck)]], map[ALICE := ALICE_RECORD]),
          map[ALICE := Node(ALICE_CONFIG, FRESH_CLIENT, [], [], true, true)], map[], map[], map[], {}, map[], {}, {})
  }

  lemma BothConnect(setup: Setup)
    ensures Reached(setup, WorldOf(IDLE.(toAlice := [TextFrame(InitAck)], toBob := [TextFrame(InitAck)])))
  {
    AliceConnects(setup);
    var w := WorldWithAlice();
    var v := WorldOf(IDLE.(toAlice := [TextFrame(InitAck)], toBob := [TextFrame(InitAck)]));
    assert "alice" != "bob";
    assert ALICE_ALONE.groups["g"]["bob" := BOB_RECORD] == REGISTERED.groups["g"];
    assert AddSession(ALICE_ALONE, BOB_RECORD).value.connections == REGISTERED.connections;
    assert AddSession(ALICE_ALONE, BOB_RECORD).value.groups == REGISTERED.groups;
    assert v.relay == R.HandleInit(w.relay, BOB_RECORD);
    assert v.nodes == w.nodes[BOB := Node(BOB_CONFIG, FRESH_CLIENT, [], [], true, true)];
    NextReached(setup, w, Connect(BOB_RECORD, true), v);
  }

  lemma BothGreeted(setup: Setup)
    ensures Reached(setup, WorldOf(IDLE))
  {
    hide Reached;
    BothConnect(setup);
    var s := IDLE.(toAlice := [TextFrame(InitAck)], toBob := [TextFrame(InitAck)]);
    s := DeliveredToAlice(setup, s, InitAck);
    SamePast(s, Receive(InitAck, "", 0, 0));
    s := AliceSteps(setup, s, Receive(InitAck, "", 0, 0), FRESH_CLIENT);
    s := DeliveredToBob(setup, s, InitAck);
    s := BobSteps(setup, s, Receive(InitAck, "", 0, 0), FRESH_CLIENT);
  }

  /** A step that draws no id and loses no ack leaves the history as it is. */
  lemma SamePast(s: Scene, step: ClientStep)
    requires !step.Start? && !step.Complete? && GapFiles(s.alice, step) == {}
    ensures PastAfter(s, step) == s.past
  {
  }

  // ---------- from the offer to the start of the task ----------

  predicate Still(s: Scene) {
    s.aliceIn == [] && s.toAlice == [] && s.bobIn == [] && s.bobFrames == [] && s.toBob == []
  }

  function Leg(rid: RequestId, accepted: bool): Registry {
    Registry(map[LegKey(FILE, BOB) := TransferRecord(FILE, rid, ALICE, BOB, accepted)], map[])
  }

  function OfferedPast(x: Upload): Past {
    Past(map[FILE := Origin(ALICE, TO_ALICE, x.Target(), x.bytes)], map[], map[OFFER_ID := FILE], {FILE},
         if x.to.Some? then map[FILE := BOB] else map[], {})
  }

  function CompletedPast(x: Upload): Past {
    OfferedPast(x).(completions := map[FILE := COMPLETE_ID], drawn := map[OFFER_ID := FILE, COMPLETE_ID := FILE])
  }

  /** The server takes files of this size in 256 KiB chunks. */
  predicate Takes(setup: Setup, x: Upload) {
    x.Ok() && |x.bytes| <= setup.server.maxFileSize && CHUNK_SIZE <= setup.server.maxChunkSize
  }

  lemma OfferEffects(setup: Setup, x: Upload)
    requires Takes(setup, x)
    ensures R.OfferLimits(setup.server, Offer(setup, x).meta, FILE).Ok?
    ensures R.SideEffects(setup.server, Transfers.EMPTY, ALICE_RECORD, RouteResult(x.Mode(), Offer(setup, x), {BOB}))
            == Ok(Leg(OFFER_ID, false))
  {
    assert R.OfferToAll(Transfers.EMPTY, FILE, OFFER_ID, ALICE, {BOB}).legs == Leg(OFFER_ID, false).legs;
  }

  lemma OfferReaches(setup: Setup, x: Upload) returns (s: Scene)
    requires Takes(setup, x)
    ensures Reached(setup, WorldOf(s)) && s.aliceIn == [] && s.toAlice == [] && s.bobIn == [] && s.bobFrames == []
    ensures IsSending(setup, x, s.alice, WaitingAccept, None, None, []) && s.bob == FRESH_CLIENT
    ensures s.toBob == [TextFrame(Event(Offer(setup, x)))] && s.registry == Leg(OFFER_ID, false)
    ensures s.past == OfferedPast(x)
  {
    hide Reached, Leg;
    BothGreeted(setup);
    var alice := AliceOffers(setup, x);
    s := AliceSteps(setup, IDLE, StartStep(setup, x), alice);
    OfferEffects(setup, x);
    s := AliceHeard(setup, s, x, Offer(setup, x), Leg(OFFER_ID, false));
    SentKeeps(setup, x, alice, WaitingAccept, None, None, TextFrame(Event(Offer(setup, x))));
    assert s.past == OfferedPast(x);
  }

  lemma BobAccepted(setup: Setup, x: Upload) returns (s: Scene)
    requires Takes(setup, x)
    ensures Reached(setup, WorldOf(s)) && Still(s)
    ensures IsSending(setup, x, s.alice, WaitingAccept, None, None, [])
    ensures Taking(setup, x, s.bob, 0, [TextFrame(Event(ACCEPT))])
    ensures s.registry == Leg(OFFER_ID, false) && s.past == OfferedPast(x)
  {
    hide Reached, IsSending, Leg, Taking;
    s := OfferReaches(setup, x);
    s := DeliveredToBob(setup, s, Event(Offer(setup, x)));
    var bob := BobAccepts(setup, x);
    s := BobSteps(setup, s, Receive(Event(Offer(setup, x)), "s", ACCEPT_ID, 0), bob);
  }

  lemma AcceptReaches(setup: Setup, x: Upload) returns (s: Scene)
    requires Takes(setup, x)
    ensures Reached(setup, WorldOf(s)) && s.aliceIn == [] && s.bobIn == [] && s.bobFrames == [] && s.toBob == []
    ensures IsSending(setup, x, s.alice, WaitingAccept, None, None, []) && Taking(setup, x, s.bob, 0, [])
    ensures s.toAlice == [TextFrame(Event(ACCEPT))] && s.registry == Leg(OFFER_ID, true) && s.past == OfferedPast(x)
  {
    hide Reached, IsSending;
    s := BobAccepted(setup, x);
    assert MarkAccepted(Leg(OFFER_ID, false), FILE, BOB).value.legs == Leg(OFFER_ID, true).legs;
    s := BobHeard(setup, s, ACCEPT, Leg(OFFER_ID, true));
  }

  lemma TaskStarted(setup: Setup, x: Upload) returns (s: Scene)
    requires Takes(setup, x)
    ensures Reached(setup, WorldOf(s)) && Still(s) && Taking(setup, x, s.bob, 0, [])
    ensures IsSending(setup, x, s.alice, State.Sending, None, Some(AtCheck(0)), [])
    ensures s.registry == Leg(OFFER_ID, true) && s.past == OfferedPast(x)
  {
    hide Reached, IsSending, Taking, Leg;
    s := AcceptReaches(setup, x);
    s := DeliveredToAlice(setup, s, Event(ACCEPT));
    var started := AliceStarts(setup, x, s.alice);
    SamePast(s, Receive(Event(ACCEPT), "", 0, 0));
    s := AliceSteps(setup, s, Receive(Event(ACCEPT), "", 0, 0), started);
  }

  // ---------- the completion ----------

  /** From the last chunk, with all of them applied, to the queued completion. */
  lemma CompletionQueued(setup: Setup, x: Upload, s: Scene) returns (t: Scene)
    requires Reached(setup, WorldOf(s)) && x.Ok() && Still(s) && s.past == OfferedPast(x)
    requires IsSending(setup, x, s.alice, State.Sending, None, Some(AtCheck(ChunkCount(|x.bytes|))), [])
    ensures Reached(setup, WorldOf(t)) && Still(t) && t.past == CompletedPast(x)
    ensures t == s.(alice := t.alice, past := CompletedPast(x))
    ensures IsSending(setup, x, t.alice, State.Sending, None, Some(AtMark(COMPLETE_ID)),
                      [TextFrame(Event(Completion(setup, x)))])
  {
    hide Reached, PastAfter, OfferedPast, CompletedPast, IsSending, Enabled, Client.Next;
    t := TaskChecked(setup, x, s);
    var completed := AliceCompletes(setup, x, t.alice);
    CompletionRecorded(t, x);
    t := AliceSteps(setup, t, ClientStep.Complete(FILE, COMPLETE_ID), completed);
  }

  lemma TaskChecked(setup: Setup, x: Upload, s: Scene) returns (t: Scene)
    requires Reached(setup, WorldOf(s)) && Still(s)
    requires IsSending(setup, x, s.alice, State.Sending, None, Some(AtCheck(ChunkCount(|x.bytes|))), [])
    ensures Reached(setup, WorldOf(t)) && t == s.(alice := t.alice)
    ensures IsSending(setup, x, t.alice, State.Sending, None, Some(AtComplete), [])
  {
    hide Reached;
    var checked := AliceFinishes(setup, x, s.alice);
    SamePast(s, Check(FILE));
    t := AliceSteps(setup, s, Check(FILE), checked);
  }

  lemma CompletionRecorded(s: Scene, x: Upload)
    requires s.past == OfferedPast(x)
    ensures PastAfter(s, ClientStep.Complete(FILE, COMPLETE_ID)) == CompletedPast(x)
    ensures COMPLETE_ID !in s.past.drawn
  {
  }

  function CompletedLeg(): Registry {
    Registry(map[LegKey(FILE, BOB) := TransferRecord(FILE, COMPLETE_ID, ALICE, BOB, true)], map[COMPLETE_ID := FILE])
  }

  lemma CompletionEffects(setup: Setup, x: Upload)
    requires x.Ok()
    ensures R.SideEffects(setup.server, Leg(OFFER_ID, true), ALICE_RECORD,
                          RouteResult(x.Mode(), Completion(setup, x), {BOB})) == Ok(CompletedLeg())
    ensures RemoveByRequest(CompletedLeg(), COMPLETE_ID) == Transfers.EMPTY
  {
    var r := Leg(OFFER_ID, true);
    assert LegKey(FILE, BOB) in LegsOf(r, FILE);
    var t := SetComplete(r, FILE, COMPLETE_ID).value;
    assert t.legs == CompletedLeg().legs && t.index == CompletedLeg().index;
    assert CompletedLeg().legs - LegsOf(CompletedLeg(), FILE) == map[];
    assert CompletedLeg().index - {COMPLETE_ID} == map[];
  }

  /** The completion passes the relay and waits in Bob's queue. */
  lemma CompletionReaches(setup: Setup, x: Upload, s: Scene) returns (t: Scene)
    requires Reached(setup, WorldOf(s)) && x.Ok() && Still(s) && s.registry == Leg(OFFER_ID, true)
    requires s.alice.outbox == [TextFrame(Event(Completion(setup, x)))]
    ensures Reached(setup, WorldOf(t))
    ensures t == s.(alice := Unsent(s.alice), bobIn := [Event(Completion(setup, x))], registry := CompletedLeg())
  {
    hide Reached, Leg, CompletedLeg;
    CompletionEffects(setup, x);
    t := AliceHeard(setup, s, x, Completion(setup, x), CompletedLeg());
    t := DeliveredToBob(setup, t, Event(Completion(setup, x)));
  }

  /** Bob's answer passes the relay and waits in Alice's queue. */
  lemma AckReaches(setup: Setup, x: Upload, s: Scene, ack: AckPacket) returns (t: Scene)
    requires Reached(setup, WorldOf(s)) && x.Ok() && Still(s) && s.registry == CompletedLeg()
    requires s.bob.outbox == [TextFrame(Ack(ack))] && ack == AckFrom(TO_BOB, TO_ALICE, COMPLETE_ID, ack.status)
    ensures Reached(setup, WorldOf(t))
    ensures t == s.(bob := Unsent(s.bob), aliceIn := [Ack(ack)], registry := Transfers.EMPTY)
  {
    hide Reached, CompletedLeg;
    CompletionEffects(setup, x);
    t := BobAcked(setup, s, ack);
    t := DeliveredToAlice(setup, t, Ack(ack));
  }
}
