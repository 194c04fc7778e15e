/** Where a sender's messages about a file go (src/state/outgoing.rs, lines 154 to 161), over every run of the system:
    the completion follows the offer. */
module Addresses {
  import opened Basics
  import opened Packets
  import opened FileStore
  import opened Client
  import opened Protocol
  import opened DrawnIds
  import opened Delivery
  import R = Relay

  /** The peer an entry or a task names for an offer to this endpoint: a broadcast is the peer "*". */
  predicate Meant(group: string, client: string, to: Endpoint) {
    to.group == Some(group) && client == match to.client case Some(name) => name case None => "*"
  }

  /** The client's entry and task of the file, if it has them, name what the file was offered to. */
  predicate Aimed(w: World, client: ClientState, f: Uuid) {
    && (HasOutgoing(client, f) ==>
          f in w.started && Meant(client.store[f].peerGroup, client.store[f].peerClient, w.started[f].to))
    && (f in client.tasks ==> f in w.started && Meant(client.tasks[f].group, client.tasks[f].client, w.started[f].to))
  }

  predicate AllAimed(w: World, f: Uuid) {
    forall c :: c in w.nodes ==> Aimed(w, w.nodes[c].client, f)
  }

  // ---------- client steps ----------

  /** No step but the offer itself gives the file another peer. */
  predicate SamePeers(c: ClientState, d: ClientState, f: Uuid) {
    && (HasOutgoing(d, f) ==>
          HasOutgoing(c, f) && d.store[f].peerGroup == c.store[f].peerGroup
          && d.store[f].peerClient == c.store[f].peerClient)
    && (f in d.tasks ==>
          || (f in c.tasks && d.tasks[f].group == c.tasks[f].group && d.tasks[f].client == c.tasks[f].client)
          || (HasOutgoing(c, f) && d.tasks[f].group == c.store[f].peerGroup
              && d.tasks[f].client == c.store[f].peerClient))
  }

  lemma SamePeersAim(w: World, c: ClientState, d: ClientState, f: Uuid)
    requires Aimed(w, c, f) && SamePeers(c, d, f)
    ensures Aimed(w, d, f)
  {
  }

  lemma DispatchPeers(cfg: Config, digest: Digest, c: ClientState, s: ClientStep, f: Uuid)
    requires s.Receive? && PacketExpects(c, s.packet, digest, s.choice)
    requires Dispatch(cfg, c, s.packet, digest, s.savePath, s.rid, s.choice).Ok?
    ensures SamePeers(c, Dispatch(cfg, c, s.packet, digest, s.savePath, s.rid, s.choice).value, f)
  {
    hide OnOffer, OnAccept, OnComplete, SaveExpects, SpawnExpects, SamePeers;
    var d := Dispatch(cfg, c, s.packet, digest, s.savePath, s.rid, s.choice).value;
    if s.packet.Event? && s.packet.event.eventType == FileOffer {
      OfferPeers(cfg, c, s.packet.event, s.savePath, s.rid, f);
    } else if s.packet.Event? && s.packet.event.eventType == FileAccept {
      AcceptPeers(c, s.packet.event, f);
    } else if s.packet.Event? && s.packet.event.eventType == FileComplete {
      CompletePeers(cfg, digest, c, s.packet.event, f);
    } else {
      FewerPeers(c, d, f);
    }
  }

  lemma FewerPeers(c: ClientState, d: ClientState, f: Uuid)
    requires d.tasks == c.tasks && d.store.Keys <= c.store.Keys
    requires forall g :: g in d.store ==> d.store[g] == c.store[g]
    ensures SamePeers(c, d, f)
  {
  }

  lemma OfferPeers(cfg: Config, c: ClientState, p: EventPacket, savePath: string, rid: RequestId, f: Uuid)
    requires OnOffer(cfg, c, p, savePath, rid).Ok?
    ensures SamePeers(c, OnOffer(cfg, c, p, savePath, rid).value, f)
  {
  }

  lemma AcceptPeers(c: ClientState, p: EventPacket, f: Uuid)
    requires SpawnExpects(c, p) && OnAccept(c, p).Ok?
    ensures SamePeers(c, OnAccept(c, p).value, f)
  {
  }

  lemma CompletePeers(cfg: Config, digest: Digest, c: ClientState, p: EventPacket, f: Uuid)
    requires SaveExpects(c, p, digest) && OnComplete(cfg, c, p, digest).Ok?
    ensures SamePeers(c, OnComplete(cfg, c, p, digest).value, f)
  {
    hide CompleteStatus;
  }

  lemma FramePeers(cfg: Config, c: ClientState, frame: seq<byte>, rid: RequestId, f: Uuid)
    requires OnFrame(cfg, c, frame, rid).Ok?
    ensures SamePeers(c, OnFrame(cfg, c, frame, rid).value, f)
  {
  }

  lemma TaskPeers(cfg: Config, digest: Digest, c: ClientState, s: ClientStep, f: Uuid)
    requires Enabled(c, s) && Client.Next(cfg, digest, c, s).Ok?
    requires s.Check? || s.SendFrame? || s.Complete? || s.Mark?
    ensures SamePeers(c, Client.Next(cfg, digest, c, s).value, f)
  {
    hide TaskFrame, EmptyFileLines, Percent, SenderReports;
  }

  lemma UserPeers(cfg: Config, digest: Digest, c: ClientState, s: ClientStep, f: Uuid)
    requires Enabled(c, s) && Client.Next(cfg, digest, c, s).Ok? && !(s.Start? && s.fileId == f)
    requires s.Start? || s.UserAccept? || s.UserReject? || s.UserAbort? || s.Reconnect?
    ensures SamePeers(c, Client.Next(cfg, digest, c, s).value, f)
  {
    hide NewOutgoing, OfferMeta, AcceptMeta, Lines, DrainLog, Enumerates;
  }

  lemma StepPeers(cfg: Config, digest: Digest, c: ClientState, s: ClientStep, f: Uuid)
    requires Enabled(c, s) && Client.Next(cfg, digest, c, s).Ok? && !(s.Start? && s.fileId == f)
    ensures SamePeers(c, Client.Next(cfg, digest, c, s).value, f)
  {
    hide OnFrame, Dispatch, PacketExpects, TaskSend, TaskCheck, TaskComplete, TaskMark, SamePeers, StartOutgoing,
         AcceptPending, RejectPending, Abort;
    if s.ReceiveFrame? {
      FramePeers(cfg, c, s.frame, s.rid, f);
    } else if s.Receive? {
      DispatchPeers(cfg, digest, c, s, f);
    } else if s.Check? || s.SendFrame? || s.Complete? || s.Mark? {
      TaskPeers(cfg, digest, c, s, f);
    } else {
      UserPeers(cfg, digest, c, s, f);
    }
  }

  /** The offer names the file's peer, and no other client has anything of a fresh id. */
  lemma OfferAims(setup: Setup, w: World, c: Uuid, s: ClientStep)
    requires ClientEnabled(setup, w, c, s) && s.Start?
    requires Client.Next(w.nodes[c].cfg, setup.digest, w.nodes[c].client, s).Ok?
    requires Aimed(w, w.nodes[c].client, s.fileId)
    ensures Aimed(Recorded(w, c, s), Client.Next(w.nodes[c].cfg, setup.digest, w.nodes[c].client, s).value, s.fileId)
  {
  }

  lemma StepperAimed(setup: Setup, w: World, c: Uuid, s: ClientStep, f: Uuid)
    requires ClientEnabled(setup, w, c, s) && Client.Next(w.nodes[c].cfg, setup.digest, w.nodes[c].client, s).Ok?
    requires Aimed(w, w.nodes[c].client, f)
    ensures Aimed(Recorded(w, c, s), Client.Next(w.nodes[c].cfg, setup.digest, w.nodes[c].client, s).value, f)
  {
    hide Client.Next, Aimed;
    if s.Start? && s.fileId == f {
      OfferAims(setup, w, c, s);
    } else {
      StepPeers(w.nodes[c].cfg, setup.digest, w.nodes[c].client, s, f);
      SamePeersAim(w, w.nodes[c].client, Client.Next(w.nodes[c].cfg, setup.digest, w.nodes[c].client, s).value, f);
      if f in w.started { StartsLast(setup, w, c, s, f); }
      AimLasts(w, Recorded(w, c, s), Client.Next(w.nodes[c].cfg, setup.digest, w.nodes[c].client, s).value, f);
    }
  }

  lemma StartsLast(setup: Setup, w: World, c: Uuid, s: ClientStep, f: Uuid)
    requires ClientEnabled(setup, w, c, s) && f in w.started
    ensures f in Recorded(w, c, s).started && Recorded(w, c, s).started[f] == w.started[f]
  {
  }

  lemma AimLasts(w: World, v: World, client: ClientState, f: Uuid)
    requires f in w.started ==> f in v.started && v.started[f] == w.started[f]
    ensures Aimed(w, client, f) ==> Aimed(v, client, f)
  {
  }

  lemma ClientStepAimed(setup: Setup, w: World, c: Uuid, s: ClientStep, v: World, f: Uuid)
    requires ClientStepTo(setup, w, c, s, v) && AllAimed(w, f)
    ensures AllAimed(v, f)
  {
    hide Client.Next, Enabled, Recorded, Aimed;
    ClientStepShape(setup, w, c, s, v);
    if f in w.started { StartsLast(setup, w, c, s, f); }
    var r := Client.Next(w.nodes[c].cfg, setup.digest, w.nodes[c].client, s);
    if r.Ok? {
      StepperAimed(setup, w, c, s, f);
    }
    forall d | d in v.nodes
      ensures Aimed(v, v.nodes[d].client, f)
    {
      AimLasts(w, Recorded(w, c, s), w.nodes[d].client, f);
      AimLasts(Recorded(w, c, s), v, v.nodes[d].client, f);
    }
  }

  lemma OtherStepAimed(setup: Setup, w: World, s: Step, v: World, f: Uuid)
    requires StepTo(setup, w, s, v) && !s.At? && AllAimed(w, f)
    ensures AllAimed(v, f)
  {
    hide R.Next;
  }

  lemma StepAimed(setup: Setup, w: World, s: Step, v: World, f: Uuid)
    requires StepTo(setup, w, s, v) && AllAimed(w, f)
    ensures AllAimed(v, f)
  {
    hide ClientStepTo, AllAimed;
    if s.At? {
      ClientStepAimed(setup, w, s.c, s.step, v, f);
    } else {
      OtherStepAimed(setup, w, s, v, f);
    }
  }

  lemma {:induction false} RunsAimed(setup: Setup, steps: seq<Step>, states: seq<World>, n: nat, f: Uuid)
    requires IsRun(setup, steps, states) && n <= |steps|
    ensures AllAimed(states[n], f)
  {
    hide StepTo;
    if n > 0 {
      RunsAimed(setup, steps, states, n - 1, f);
      StepAimed(setup, states[n - 1], steps[n - 1], states[n], f);
    }
  }

  // ---------- the completion ----------

  /** The one packet this adds for a file: its size and digest are those of the bytes offered, it comes from the owner,
      and it goes where the offer went, without the client name if that is "" or "*". */
  predicate IsCompletionOf(setup: Setup, w: World, c: Uuid, f: Uuid, rid: RequestId, m: WireMessage)
    requires f in w.started && c in w.nodes
  {
    var origin := w.started[f];
    && m.TextFrame? && m.packet.Event? && m.packet.event.eventType == FileComplete
    && m.packet.event.version == "v3" && m.packet.event.kind == EventKind && m.packet.event.requestId == rid
    && m.packet.event.source == Some(Endpoint(Some(w.nodes[c].cfg.group), Some(w.nodes[c].cfg.name)))
    && m.packet.event.meta.fileId == Some(f) && m.packet.event.meta.fileSize == Some(|origin.bytes|)
    && m.packet.event.meta.sha256 == Some(setup.digest(origin.bytes))
    && (if origin.to.client in {Some(""), Some("*")} then m.packet.event.target == Some(Endpoint(origin.to.group, None))
        else m.packet.event.target == Some(origin.to))
  }

  /** In every run: when a task completes a file, exactly one message is queued, and it is the completion of that file,
      addressed as the offer was, to the whole group after a broadcast. */
  lemma CompletionFollowsOffer(setup: Setup, steps: seq<Step>, states: seq<World>, n: nat, c: Uuid, f: Uuid,
                               rid: RequestId)
    requires IsRun(setup, steps, states) && n < |steps| && steps[n] == At(c, ClientStep.Complete(f, rid))
    ensures var w, v := states[n], states[n + 1];
            && f in w.started && c in w.nodes && c in v.nodes
            && |v.nodes[c].client.outbox| == |w.nodes[c].client.outbox| + 1
            && v.nodes[c].client.outbox[..|w.nodes[c].client.outbox|] == w.nodes[c].client.outbox
            && IsCompletionOf(setup, w, c, f, rid, v.nodes[c].client.outbox[|w.nodes[c].client.outbox|])
  {
    hide StepTo;
    RunsAimed(setup, steps, states, n, f);
    RunsHonest(setup, steps, states, n, n);
    assert StepTo(setup, states[n], steps[n], states[n + 1]);
    CompletesAsOffered(setup, states[n], states[n + 1], c, f, rid);
  }

  lemma CompletionSaid(setup: Setup, w: World, c: Uuid, f: Uuid, rid: RequestId)
    requires c in w.nodes && f in w.nodes[c].client.tasks && w.nodes[c].client.tasks[f].phase == AtComplete
    requires Aimed(w, w.nodes[c].client, f) && TaskHonest(w, setup.digest, f, w.nodes[c].client.tasks[f])
    ensures var n := w.nodes[c];
            var d := TaskComplete(n.cfg, n.client, f, rid);
            && |d.outbox| == |n.client.outbox| + 1 && d.outbox[..|n.client.outbox|] == n.client.outbox
            && IsCompletionOf(setup, w, c, f, rid, d.outbox[|n.client.outbox|])
  {
    hide EmptyFileLines;
  }

  lemma CompletesAsOffered(setup: Setup, w: World, v: World, c: Uuid, f: Uuid, rid: RequestId)
    requires StepTo(setup, w, At(c, ClientStep.Complete(f, rid)), v)
    requires AllAimed(w, f) && WorldHonest(w, setup.digest, w)
    ensures f in w.started && c in w.nodes && c in v.nodes
    ensures |v.nodes[c].client.outbox| == |w.nodes[c].client.outbox| + 1
    ensures v.nodes[c].client.outbox[..|w.nodes[c].client.outbox|] == w.nodes[c].client.outbox
    ensures IsCompletionOf(setup, w, c, f, rid, v.nodes[c].client.outbox[|w.nodes[c].client.outbox|])
  {
    hide RelayHonest, FrameHonest, MessageHonest, PacketHonest, EntryHonest, TaskComplete, TaskHonest, Aimed,
         IsCompletionOf;
    var n := w.nodes[c];
    assert NodeHonest(w, setup.digest, n) && Aimed(w, n.client, f);
    assert TaskHonest(w, setup.digest, f, n.client.tasks[f]);
    HonestStarted(w, setup.digest, f, n.client.tasks[f]);
    CompletionSaid(setup, w, c, f, rid);
    assert v.nodes[c].client == TaskComplete(n.cfg, n.client, f, rid);
  }

  lemma HonestStarted(w: World, digest: Digest, f: Uuid, k: SendTask)
    requires TaskHonest(w, digest, f, k)
    ensures f in w.started
  {
  }
}
