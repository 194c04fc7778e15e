/** The gap is real: a run of the whole system, step by step, in which the ack for an empty file is dispatched between
    queueing `file_complete` and recording its id, and its sender is left waiting. */
module EarlyAck {
  import opened Basics
  import opened Packets
  import opened Chunking
  import opened FileStore
  import opened Client
  import opened Protocol
  import opened UnicastEnds
  import opened Quiescence
  import opened Scenes
  import Transfers

  const EMPTY_FILE := Upload([], Some("bob"))

  const ACK := AckFrom(TO_BOB, TO_ALICE, COMPLETE_ID, Rejected)

  /** The ack finds the entry still sending, and changes nothing. */
  lemma AliceMisses(setup: Setup, c: ClientState)
    requires IsSending(setup, EMPTY_FILE, c, State.Sending, None, Some(AtMark(COMPLETE_ID)), [])
    ensures Client.Next(ALICE_CONFIG, setup.digest, c, Receive(Ack(ACK), "", 0, 0)) == Ok(c)
    ensures Enabled(c, Receive(Ack(ACK), "", 0, 0)) && GapFiles(c, Receive(Ack(ACK), "", 0, 0)) == {FILE}
  {
  }

  lemma BobAnswers(setup: Setup, c: ClientState) returns (bob: ClientState)
    requires Taking(setup, EMPTY_FILE, c, 0, [])
    ensures Client.Next(BOB_CONFIG, setup.digest, c, Receive(Event(Completion(setup, EMPTY_FILE)), "", 0, 0)) == Ok(bob)
    ensures bob.store == map[] && bob.tasks == map[] && bob.outbox == [TextFrame(Ack(ACK))]
  {
    bob := OnComplete(BOB_CONFIG, c, Completion(setup, EMPTY_FILE), setup.digest).value;
  }

  /** An empty file has no chunk. */
  lemma NoChunk()
    ensures EMPTY_FILE.Ok() && ChunkCount(|EMPTY_FILE.bytes|) == 0
  {
  }

  lemma BobAnswered(setup: Setup) returns (s: Scene)
    requires setup.server.maxChunkSize >= CHUNK_SIZE
    ensures Reached(setup, WorldOf(s)) && Still(s)
    ensures IsSending(setup, EMPTY_FILE, s.alice, State.Sending, None, Some(AtMark(COMPLETE_ID)), [])
    ensures s.bob.store == map[] && s.bob.tasks == map[] && s.bob.outbox == [TextFrame(Ack(ACK))]
    ensures s.registry == CompletedLeg() && s.past == CompletedPast(EMPTY_FILE)
  {
    hide Reached, Leg, CompletedLeg, OfferedPast, CompletedPast, Taking;
    NoChunk();
    s := TaskStarted(setup, EMPTY_FILE);
    s := CompletionQueued(setup, EMPTY_FILE, s);
    SentKeeps(setup, EMPTY_FILE, s.alice, State.Sending, None, Some(AtMark(COMPLETE_ID)),
              TextFrame(Event(Completion(setup, EMPTY_FILE))));
    s := CompletionReaches(setup, EMPTY_FILE, s);
    var bob := BobAnswers(setup, s.bob);
    s := BobSteps(setup, s, Receive(Event(Completion(setup, EMPTY_FILE)), "", 0, 0), bob);
  }

  lemma AckMissed(setup: Setup) returns (s: Scene)
    requires setup.server.maxChunkSize >= CHUNK_SIZE
    ensures Reached(setup, WorldOf(s)) && Still(s)
    ensures IsSending(setup, EMPTY_FILE, s.alice, State.Sending, None, Some(AtMark(COMPLETE_ID)), [])
    ensures s.bob.store == map[] && s.bob.tasks == map[] && s.bob.outbox == []
    ensures s.registry == Transfers.EMPTY && s.past == CompletedPast(EMPTY_FILE).(early := {FILE})
  {
    hide Reached, CompletedLeg;
    NoChunk();
    s := BobAnswered(setup);
    s := AckReaches(setup, EMPTY_FILE, s, ACK);
    AliceMisses(setup, s.alice);
    s := AliceSteps(setup, s, Receive(Ack(ACK), "", 0, 0), s.alice);
  }

  lemma LastScene(setup: Setup) returns (s: Scene)
    requires setup.server.maxChunkSize >= CHUNK_SIZE
    ensures Reached(setup, WorldOf(s)) && Still(s)
    ensures IsSending(setup, EMPTY_FILE, s.alice, WaitingAck, Some(COMPLETE_ID), None, [])
    ensures s.bob.store == map[] && s.bob.tasks == map[] && s.bob.outbox == []
    ensures s.registry == Transfers.EMPTY && s.past == CompletedPast(EMPTY_FILE).(early := {FILE})
  {
    hide Reached;
    s := AckMissed(setup);
    var marked := AliceMarks(setup, EMPTY_FILE, s.alice, []);
    SamePast(s, Mark(FILE));
    s := AliceSteps(setup, s, Mark(FILE), marked);
  }

  /** Whatever the digest and the limits, as long as a 256 KiB chunk is allowed: a run that ends with every queue quiet,
      both ends linked, leg and receiver's entry gone, and the sender's entry waiting for an ack that was dispatched
      before, although nothing has ended it. */
  lemma AckedTooEarly(setup: Setup)
    requires setup.server.maxChunkSize >= CHUNK_SIZE
    ensures exists steps, states ::
              && IsRun(setup, steps, states)
              && LeftWaiting(states[|steps|], FILE)
  {
    var s := LastScene(setup);
    var w := WorldOf(s);
    EndsQuietly(setup, s);
    var steps, states :| EndsIn(setup, steps, states, w);
    assert IsRun(setup, steps, states) && LeftWaiting(states[|steps|], FILE);
  }

  ghost predicate LeftWaiting(w: World, f: Uuid) {
    && Watched(w, f) && f in w.routed && Linked(w, w.routed[f])
    && QuietEnd(w, f, w.started[f].owner) && QuietEnd(w, f, w.routed[f])
    && NothingAtRelay(w.relay.registry, f)
    && f !in w.nodes[w.routed[f]].client.store
    && InState(w.nodes[w.started[f].owner].client, f, WaitingAck)
    && f !in w.nodes[w.started[f].owner].client.tasks
    && f in w.early && f !in w.dropped
  }

  lemma EndsQuietly(setup: Setup, s: Scene)
    requires Still(s) && IsSending(setup, EMPTY_FILE, s.alice, WaitingAck, Some(COMPLETE_ID), None, [])
    requires s.bob.store == map[] && s.bob.outbox == [] && s.registry == Transfers.EMPTY
    requires s.past == CompletedPast(EMPTY_FILE).(early := {FILE})
    ensures LeftWaiting(WorldOf(s), FILE)
  {
  }
}
