/** Files do arrive: for every non-empty file whose chunk count fits 32 bits and that the server's limits allow, offered
    to one client by name or to the whole group, a run of the whole system that ends with the file written, its sender
    told so, and nothing left of it anywhere. */
module FileArrives {
  import opened Basics
  import opened Packets
  import opened ChunkCodec
  import opened Chunking
  import opened FileStore
  import opened SendLoop
  import opened Client
  import opened Sessions
  import opened Transfers
  import opened Protocol
  import opened Delivery
  import opened Scenes
  import R = Relay

  // ---------- one chunk ----------

  lemma AliceLooks(setup: Setup, x: Upload, c: ClientState, k: nat) returns (alice: ClientState)
    requires IsSending(setup, x, c, State.Sending, None, Some(AtCheck(k)), []) && k < ChunkCount(|x.bytes|)
    ensures Enabled(c, Check(FILE)) && Client.Next(ALICE_CONFIG, setup.digest, c, Check(FILE)) == Ok(alice)
    ensures IsSending(setup, x, alice, State.Sending, None, Some(AtSend(k)), [])
  {
    alice := TaskCheck(c, FILE);
  }

  /** The task's frame is the file's. */
  lemma FrameIs(setup: Setup, x: Upload, task: SendTask, k: nat)
    requires SendingTask(setup, x, task, AtSend(k)) && k < ChunkCount(|x.bytes|)
    ensures k * task.chunkSize < |task.bytes| && TaskFrame(FILE, task, k) == FrameFor(FILE, x.bytes, k)
  {
    PrefixStep(x.bytes, k);
  }

  lemma AliceSends(setup: Setup, x: Upload, c: ClientState, k: nat) returns (alice: ClientState)
    requires IsSending(setup, x, c, State.Sending, None, Some(AtSend(k)), []) && k < ChunkCount(|x.bytes|)
    ensures Enabled(c, SendFrame(FILE)) && Client.Next(ALICE_CONFIG, setup.digest, c, SendFrame(FILE)) == Ok(alice)
    ensures IsSending(setup, x, alice, State.Sending, None, Some(AtCheck(k + 1)),
                      [BinaryFrame(FrameFor(FILE, x.bytes, k))])
  {
    hide TaskFrame;
    FrameIs(setup, x, c.tasks[FILE], k);
    alice := TaskSend(c, FILE);
  }

  /** Bob takes the chunk that is next. */
  lemma BobTakes(setup: Setup, x: Upload, c: ClientState, k: nat) returns (bob: ClientState)
    requires x.Ok() && Taking(setup, x, c, k, []) && k < ChunkCount(|x.bytes|)
    ensures Client.Next(BOB_CONFIG, setup.digest, c, ReceiveFrame(FrameFor(FILE, x.bytes, k), 0)) == Ok(bob)
    ensures Taking(setup, x, bob, k + 1, [])
  {
    hide Decode, ApplyChunk;
    FrameDecodes(FILE, x.bytes, k);
    HonestChunk(c.store[FILE], FILE, x.bytes, k);
    ChunkKeeps(c.store[FILE], x.bytes, k);
    var u := ReceiveChunk(c.store[FILE], FILE, x.bytes, k).0;
    bob := Mutate(c, FILE, u);
  }

  lemma ChunkKeeps(t: Transfer, bytes: seq<byte>, k: nat)
    requires k < ChunkCount(|bytes|)
    ensures var u := ReceiveChunk(t, FILE, bytes, k).0;
            u.sha256 == t.sha256 && u.savePath == t.savePath && Client.Peer(u) == Client.Peer(t)
  {
  }

  /** The relay passes a frame of Alice's on to Bob, whose leg is accepted. */
  lemma FrameHeard(setup: Setup, s: Scene, x: Upload, k: nat) returns (t: Scene)
    requires Reached(setup, WorldOf(s)) && k < ChunkCount(|x.bytes|)
    requires s.alice.outbox == [BinaryFrame(FrameFor(FILE, x.bytes, k))] && s.registry == Leg(OFFER_ID, true)
    ensures Reached(setup, WorldOf(t))
    ensures t == s.(alice := Unsent(s.alice), toBob := s.toBob + [BinaryFrame(FrameFor(FILE, x.bytes, k))])
  {
    hide Reached, Decode, R.Next, FrameFor;
    var frame := FrameFor(FILE, x.bytes, k);
    t := s.(alice := Unsent(s.alice), toBob := s.toBob + [BinaryFrame(frame)]);
    var w, v := WorldOf(s), WorldOf(t);
    FrameRelayed(setup, s, x, k);
    assert v.nodes == w.nodes[ALICE := Sent(w.nodes[ALICE])];
    assert ForwardTo(setup, w, ALICE, v);
    NextReached(setup, w, Forward(ALICE), v);
  }

  lemma FrameRelayed(setup: Setup, s: Scene, x: Upload, k: nat)
    requires k < ChunkCount(|x.bytes|) && s.registry == Leg(OFFER_ID, true)
    ensures R.Next(setup.server, WorldOf(s).relay, R.BinaryIn(ALICE, FrameFor(FILE, x.bytes, k)))
            == WorldOf(s.(toBob := s.toBob + [BinaryFrame(FrameFor(FILE, x.bytes, k))])).relay
  {
    hide Decode, FrameFor;
    var frame := FrameFor(FILE, x.bytes, k);
    FrameDecodes(FILE, x.bytes, k);
    var w := WorldOf(s).relay;
    assert R.FrameReceivers(w, FILE, ALICE) == {BOB} by {
      assert LegKey(FILE, BOB) in AcceptedLegs(w.registry, FILE, ALICE);
    }
    assert BOB in R.FrameReceivers(w, FILE, ALICE) * w.outbound.Keys;
    assert WorldOf(s.(toBob := s.toBob + [BinaryFrame(frame)])).relay
        == w.(outbound := map[ALICE := s.toAlice, BOB := s.toBob + [BinaryFrame(frame)]]);
    assert R.PushToAll(w.outbound, {BOB}, BinaryFrame(frame))
        == map[ALICE := s.toAlice, BOB := s.toBob + [BinaryFrame(frame)]];
  }

  /** Alice and Bob after k chunks, with nothing under way. */
  predicate AfterChunks(setup: Setup, x: Upload, s: Scene, k: nat) {
    && IsSending(setup, x, s.alice, State.Sending, None, Some(AtCheck(k)), []) && Taking(setup, x, s.bob, k, [])
    && Still(s) && s.registry == Leg(OFFER_ID, true) && s.past == OfferedPast(x)
  }

  lemma ChunkSent(setup: Setup, x: Upload, s: Scene, k: nat) returns (t: Scene)
    requires Reached(setup, WorldOf(s)) && AfterChunks(setup, x, s, k) && k < ChunkCount(|x.bytes|)
    ensures Reached(setup, WorldOf(t)) && t == s.(alice := t.alice)
    ensures IsSending(setup, x, t.alice, State.Sending, None, Some(AtCheck(k + 1)),
                      [BinaryFrame(FrameFor(FILE, x.bytes, k))])
  {
    hide Reached, IsSending, Taking, Leg, OfferedPast, Enabled, FrameFor, PastAfter;
    var looked := AliceLooks(setup, x, s.alice, k);
    SamePast(s, Check(FILE));
    t := AliceSteps(setup, s, Check(FILE), looked);
    var sent := AliceSends(setup, x, t.alice, k);
    SamePast(t, SendFrame(FILE));
    t := AliceSteps(setup, t, SendFrame(FILE), sent);
  }

  lemma ChunkTravels(setup: Setup, x: Upload, s: Scene, k: nat) returns (t: Scene)
    requires Reached(setup, WorldOf(s)) && x.Ok() && AfterChunks(setup, x, s, k) && k < ChunkCount(|x.bytes|)
    ensures Reached(setup, WorldOf(t)) && AfterChunks(setup, x, t, k + 1)
  {
    hide Reached, IsSending, Taking, Leg, OfferedPast, FrameFor;
    t := ChunkSent(setup, x, s, k);
    var frame := FrameFor(FILE, x.bytes, k);
    SentKeeps(setup, x, t.alice, State.Sending, None, Some(AtCheck(k + 1)), BinaryFrame(frame));
    OutboxIs(setup, x, t.alice, State.Sending, None, Some(AtCheck(k + 1)), [BinaryFrame(frame)]);
    t := FrameHeard(setup, t, x, k);
    t := FrameToBob(setup, t, frame);
    var bob := BobTakes(setup, x, t.bob, k);
    t := BobSteps(setup, t, ReceiveFrame(frame, 0), bob);
  }

  lemma OutboxIs(setup: Setup, x: Upload, c: ClientState, state: State, id: Option<RequestId>, phase: Option<SendPhase>,
                 outbox: seq<WireMessage>)
    requires IsSending(setup, x, c, state, id, phase, outbox)
    ensures c.outbox == outbox
  {
  }

  lemma {:induction false} AllTravel(setup: Setup, x: Upload, k: nat) returns (s: Scene)
    requires Takes(setup, x) && k <= ChunkCount(|x.bytes|)
    ensures Reached(setup, WorldOf(s)) && AfterChunks(setup, x, s, k)
  {
    hide Reached, IsSending, Taking, Leg, OfferedPast;
    if k == 0 {
      s := TaskStarted(setup, x);
    } else {
      s := AllTravel(setup, x, k - 1);
      s := ChunkTravels(setup, x, s, k - 1);
    }
  }

  // ---------- the end ----------

  const ACCEPTED := AckFrom(TO_BOB, TO_ALICE, COMPLETE_ID, Accepted)

  /** Bob has every chunk: he writes the file and accepts. */
  lemma BobWrites(setup: Setup, x: Upload, c: ClientState) returns (bob: ClientState)
    requires x.Ok() && x.bytes != [] && Taking(setup, x, c, ChunkCount(|x.bytes|), [])
    ensures Client.Next(BOB_CONFIG, setup.digest, c, Receive(Event(Completion(setup, x)), "", 0, 0)) == Ok(bob)
    ensures bob.store == map[] && bob.tasks == map[] && bob.disk == [SavedFile(FILE, "s", x.bytes)]
    ensures bob.outbox == [TextFrame(Ack(ACCEPTED))]
  {
    PrefixLength(x.bytes, ChunkCount(|x.bytes|));
    TotalIsCount(|x.bytes|);
    bob := OnComplete(BOB_CONFIG, c, Completion(setup, x), setup.digest).value;
  }

  lemma AliceDone(setup: Setup, x: Upload, c: ClientState) returns (alice: ClientState)
    requires IsSending(setup, x, c, WaitingAck, Some(COMPLETE_ID), None, [])
    ensures Enabled(c, Receive(Ack(ACCEPTED), "", 0, FILE)) && GapFiles(c, Receive(Ack(ACCEPTED), "", 0, FILE)) == {}
    ensures Client.Next(ALICE_CONFIG, setup.digest, c, Receive(Ack(ACCEPTED), "", 0, FILE)) == Ok(alice)
    ensures alice.store == map[] && alice.tasks == map[] && alice.outbox == []
    ensures alice.console == c.console + [SendDone("p", "n")]
  {
    alice := OnAck(c, ACCEPTED, FILE);
  }

  lemma MarkedAndSent(setup: Setup, x: Upload) returns (s: Scene)
    requires Takes(setup, x)
    ensures Reached(setup, WorldOf(s)) && s.registry == CompletedLeg() && s.past == CompletedPast(x)
    ensures IsSending(setup, x, s.alice, WaitingAck, Some(COMPLETE_ID), None, [])
    ensures Taking(setup, x, s.bob, ChunkCount(|x.bytes|), [])
    ensures s == Scene(s.alice, [], [], s.bob, [Event(Completion(setup, x))], [], [], CompletedLeg(), CompletedPast(x))
  {
    hide Reached, IsSending, Taking, Leg, CompletedLeg, OfferedPast, CompletedPast, Enabled, PastAfter;
    s := AllTravel(setup, x, ChunkCount(|x.bytes|));
    s := CompletionQueued(setup, x, s);
    var complete := TextFrame(Event(Completion(setup, x)));
    var marked := AliceMarks(setup, x, s.alice, [complete]);
    SamePast(s, Mark(FILE));
    MarkEnabled(setup, x, s.alice, [complete]);
    s := AliceSteps(setup, s, Mark(FILE), marked);
    SentKeeps(setup, x, s.alice, WaitingAck, Some(COMPLETE_ID), None, complete);
    OutboxIs(setup, x, s.alice, WaitingAck, Some(COMPLETE_ID), None, [complete]);
    s := CompletionReaches(setup, x, s);
  }

  lemma MarkEnabled(setup: Setup, x: Upload, c: ClientState, outbox: seq<WireMessage>)
    requires IsSending(setup, x, c, State.Sending, None, Some(AtMark(COMPLETE_ID)), outbox)
    ensures Enabled(c, Mark(FILE))
  {
  }

  lemma FileWritten(setup: Setup, x: Upload) returns (s: Scene)
    requires Takes(setup, x) && x.bytes != []
    ensures Reached(setup, WorldOf(s)) && s.registry == CompletedLeg() && s.past == CompletedPast(x) && Still(s)
    ensures IsSending(setup, x, s.alice, WaitingAck, Some(COMPLETE_ID), None, [])
    ensures s.bob.store == map[] && s.bob.tasks == map[] && s.bob.disk == [SavedFile(FILE, "s", x.bytes)]
    ensures s.bob.outbox == [TextFrame(Ack(ACCEPTED))]
  {
    hide Reached, IsSending, Taking, CompletedLeg, CompletedPast;
    s := MarkedAndSent(setup, x);
    var bob := BobWrites(setup, x, s.bob);
    s := BobSteps(setup, s, Receive(Event(Completion(setup, x)), "", 0, 0), bob);
  }

  lemma SenderTold(setup: Setup, x: Upload) returns (s: Scene)
    requires Takes(setup, x) && x.bytes != []
    ensures Reached(setup, WorldOf(s)) && s.registry == Transfers.EMPTY && s.past == CompletedPast(x) && Still(s)
    ensures s.bob.store == map[] && s.bob.tasks == map[] && s.bob.disk == [SavedFile(FILE, "s", x.bytes)]
    ensures s.alice.store == map[] && s.alice.tasks == map[] && s.alice.outbox == [] == s.bob.outbox
    ensures s.alice.console != [] && s.alice.console[|s.alice.console| - 1] == SendDone("p", "n")
  {
    hide Reached, IsSending, CompletedLeg, CompletedPast, Enabled, PastAfter, GapFiles;
    s := FileWritten(setup, x);
    s := AckReaches(setup, x, s, ACCEPTED);
    var alice := AliceDone(setup, x, s.alice);
    SamePast(s, Receive(Ack(ACCEPTED), "", 0, FILE));
    s := AliceSteps(setup, s, Receive(Ack(ACCEPTED), "", 0, FILE), alice);
  }

  /** The file was offered with these bytes to this target; its receiver has written them, its sender has been told, and
      no table, queue or channel holds anything any more. */
  predicate Arrived(w: World, f: Uuid, bytes: seq<byte>, to: Endpoint) {
    && f in w.started && w.started[f].bytes == bytes && w.started[f].to == to
    && w.relay.registry == Transfers.EMPTY
    && (forall c :: c in w.relay.outbound ==> w.relay.outbound[c] == [])
    && (forall c :: c in w.nodes ==> Idle(w.nodes[c]))
    && w.started[f].owner in w.nodes && Told(w.nodes[w.started[f].owner].client)
    && exists c :: c in w.nodes && c != w.started[f].owner && w.nodes[c].client.disk == [SavedFile(f, "s", bytes)]
  }

  predicate Idle(n: Node) {
    n.client.store == map[] && n.client.tasks == map[] && n.client.outbox == [] && n.inbound == [] && n.frames == []
  }

  predicate Told(c: ClientState) {
    c.console != [] && c.console[|c.console| - 1] == SendDone("p", "n")
  }

  /** By name or to the whole group: every non-empty file whose count fits 32 bits and that is within the limits can
      arrive. */
  lemma EveryFileCanArrive(setup: Setup, bytes: seq<byte>, to: Option<string>)
    requires bytes != [] && FitsU32(|bytes|) && (to == Some("bob") || to == None)
    requires |bytes| <= setup.server.maxFileSize && CHUNK_SIZE <= setup.server.maxChunkSize
    ensures exists w :: Reached(setup, w) && Arrived(w, FILE, bytes, Endpoint(Some("g"), to))
  {
    var x := Upload(bytes, to);
    var s := SenderTold(setup, x);
    EndsArrived(x, s);
    assert Reached(setup, WorldOf(s)) && Arrived(WorldOf(s), FILE, bytes, Endpoint(Some("g"), to));
  }

  /** Some run ends with a client having written these bytes. */
  ghost predicate CanBeWritten(setup: Setup, bytes: seq<byte>) {
    exists w, c, saved :: Reached(setup, w) && HasWritten(w, c, saved, bytes)
  }

  predicate HasWritten(w: World, c: Uuid, saved: SavedFile, bytes: seq<byte>) {
    c in w.nodes && saved in w.nodes[c].client.disk && saved.bytes == bytes
  }

  /** Within the limits a file can be delivered exactly when it is not empty and its chunk count fits 32 bits. */
  lemma DeliverableExactly(setup: Setup, bytes: seq<byte>)
    requires |bytes| <= setup.server.maxFileSize && CHUNK_SIZE <= setup.server.maxChunkSize
    ensures CanBeWritten(setup, bytes) <==> bytes != [] && FitsU32(|bytes|)
  {
    hide Reached, FitsU32;
    if bytes != [] && FitsU32(|bytes|) {
      var to := Some("bob");
      EveryFileCanArrive(setup, bytes, to);
      var w :| Reached(setup, w) && Arrived(w, FILE, bytes, Endpoint(Some("g"), to));
      var c :| c in w.nodes && w.nodes[c].client.disk == [SavedFile(FILE, "s", bytes)];
      assert HasWritten(w, c, SavedFile(FILE, "s", bytes), bytes);
    }
    if CanBeWritten(setup, bytes) {
      var w, c, saved :| Reached(setup, w) && HasWritten(w, c, saved, bytes);
      WrittenIsHonest(setup, w, c, saved);
    }
  }

  lemma WrittenIsHonest(setup: Setup, w: World, c: Uuid, saved: SavedFile)
    requires Reached(setup, w) && HasWritten(w, c, saved, saved.bytes)
    ensures saved.bytes != [] && FitsU32(|saved.bytes|)
  {
    hide StepTo, RelayHonest, EntryHonest, TaskHonest, MessageHonest, PacketHonest, FrameHonest, FitsU32;
    var steps, states :| EndsIn(setup, steps, states, w);
    RunsHonest(setup, steps, states, |steps|, |steps|);
    assert NodeHonest(w, setup.digest, w.nodes[c]);
    assert SavedHonest(w, saved);
  }

  lemma EndsArrived(x: Upload, s: Scene)
    requires s.registry == Transfers.EMPTY && s.past == CompletedPast(x) && Still(s)
    requires s.bob.store == map[] && s.bob.tasks == map[] && s.bob.disk == [SavedFile(FILE, "s", x.bytes)]
    requires s.alice.store == map[] && s.alice.tasks == map[] && s.alice.outbox == [] == s.bob.outbox
    requires Told(s.alice)
    ensures Arrived(WorldOf(s), FILE, x.bytes, x.Target())
  {
    assert BOB in WorldOf(s).nodes;
  }
}
