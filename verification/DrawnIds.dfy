/** Every run keeps clients and relay sound, gives each file one owner, and completes each file at most once:
    what the ids of a run stand for never changes. */
module DrawnIds {
  import opened Basics
  import opened Packets
  import opened FileStore
  import opened Client
  import opened Protocol
  import C = ClientRuns
  import Chunking
  import R = Relay
  import RR = RelayRuns

  /** Only the owner of a file holds an outgoing entry or runs a task for it, and until the task has queued
      `file_complete` no completion id was drawn. */
  ghost predicate OwnsItsFiles(started: map<Uuid, Origin>, completions: map<Uuid, RequestId>, c: Uuid,
                               client: ClientState)
  {
    && (forall f :: HasOutgoing(client, f) ==> f in started && started[f].owner == c)
    && (forall f :: f in client.tasks ==> f in started && started[f].owner == c)
    && (forall f :: InState(client, f, WaitingAccept) ==> f !in client.tasks && f !in completions)
    && (forall f :: f in client.tasks && !client.tasks[f].phase.AtMark? ==> f !in completions)
  }

  ghost predicate NodeSound(w: World, c: Uuid, n: Node) {
    ClientOk(n.client) && OwnsItsFiles(w.started, w.completions, c, n.client)
  }

  ghost predicate IdsOk(w: World) {
    && (forall f :: f in w.completions ==>
          f in w.started && w.completions[f] in w.drawn && w.drawn[w.completions[f]] == f)
    && (forall q :: q in w.drawn ==> w.drawn[q] in w.started)
  }

  ghost predicate WorldSound(w: World) {
    && RR.RelayOk(w.relay)
    && IdsOk(w)
    && forall c :: c in w.nodes ==> NodeSound(w, c, w.nodes[c])
  }

  // ---------- client steps ----------

  /** No outgoing entry, waiting entry or task appears, and no task goes back. */
  ghost predicate NothingNew(c: ClientState, d: ClientState) {
    && (forall f :: HasOutgoing(d, f) ==> HasOutgoing(c, f))
    && (forall f :: InState(d, f, WaitingAccept) ==> InState(c, f, WaitingAccept))
    && (forall f :: f in d.tasks ==> f in c.tasks && (c.tasks[f].phase.AtMark? ==> d.tasks[f].phase.AtMark?))
  }

  lemma NothingNewKeeps(started: map<Uuid, Origin>, completions: map<Uuid, RequestId>, c: Uuid, client: ClientState,
                        next: ClientState)
    requires OwnsItsFiles(started, completions, c, client) && NothingNew(client, next)
    ensures OwnsItsFiles(started, completions, c, next)
  {
  }

  lemma FrameNothingNew(cfg: Config, c: ClientState, frame: seq<byte>, rid: RequestId)
    requires OnFrame(cfg, c, frame, rid).Ok?
    ensures NothingNew(c, OnFrame(cfg, c, frame, rid).value)
  {
  }

  lemma OfferNothingNew(cfg: Config, c: ClientState, p: EventPacket, savePath: string, rid: RequestId)
    requires OnOffer(cfg, c, p, savePath, rid).Ok?
    ensures NothingNew(c, OnOffer(cfg, c, p, savePath, rid).value)
  {
    AcceptNothingNew(cfg,
                     Put(c, p.meta.fileId.value, OfferedTransfer(cfg, p, savePath), InsertedOffer(p.meta.fileId.value)),
                     p.meta.fileId.value, rid);
  }

  lemma AcceptNothingNew(cfg: Config, c: ClientState, f: Uuid, rid: RequestId)
    requires AcceptExpects(c, f)
    ensures NothingNew(c, AcceptPending(cfg, c, f, rid))
  {
  }

  lemma CompleteNothingNew(cfg: Config, c: ClientState, p: EventPacket, digest: seq<byte> -> string)
    requires SaveExpects(c, p, digest) && OnComplete(cfg, c, p, digest).Ok?
    ensures NothingNew(c, OnComplete(cfg, c, p, digest).value)
  {
  }

  lemma DispatchNothingNew(cfg: Config, digest: seq<byte> -> string, c: ClientState, p: Packet, savePath: string,
                           rid: RequestId, choice: Uuid)
    requires PacketExpects(c, p, digest, choice) && Dispatch(cfg, c, p, digest, savePath, rid, choice).Ok?
    requires !(p.Event? && p.event.eventType == FileAccept)
    ensures NothingNew(c, Dispatch(cfg, c, p, digest, savePath, rid, choice).value)
  {
    if p.Event? && p.event.eventType == FileOffer {
      OfferNothingNew(cfg, c, p.event, savePath, rid);
    } else if p.Event? && p.event.eventType == FileComplete {
      CompleteNothingNew(cfg, c, p.event, digest);
    } else if p.Ack? {
      AckNothingNew(c, p.ack, choice);
    }
  }

  lemma AckNothingNew(c: ClientState, a: AckPacket, choice: Uuid)
    requires DoneExpects(c, a, choice)
    ensures NothingNew(c, OnAck(c, a, choice))
  {
  }

  lemma AcceptOwns(started: map<Uuid, Origin>, completions: map<Uuid, RequestId>, c: Uuid, client: ClientState,
                   p: EventPacket)
    requires OwnsItsFiles(started, completions, c, client) && SpawnExpects(client, p) && OnAccept(client, p).Ok?
    ensures OwnsItsFiles(started, completions, c, OnAccept(client, p).value)
  {
    var f := p.meta.fileId.value;
    assert InState(client, f, WaitingAccept) ==> HasOutgoing(client, f);
  }

  lemma TaskNothingNew(c: ClientState, s: ClientStep)
    requires Enabled(c, s) && (s.Check? || s.Mark?) && (s.Check? ==> c.tasks[s.fileId].chunkSize > 0)
    ensures NothingNew(c, if s.Check? then TaskCheck(c, s.fileId) else TaskMark(c, s.fileId))
  {
  }

  lemma SendNothingNew(c: ClientState, f: Uuid)
    requires ProgressExpects(c, f) && f in c.tasks && c.tasks[f].phase.AtSend?
    requires c.tasks[f].phase.index * c.tasks[f].chunkSize < |c.tasks[f].bytes|
    ensures NothingNew(c, TaskSend(c, f))
  {
  }

  lemma UserNothingNew(cfg: Config, c: ClientState, s: ClientStep)
    requires s.UserAccept? || s.UserReject? || s.UserAbort?
    requires s.UserAccept? ==> AcceptExpects(c, s.fileId)
    ensures NothingNew(c, match s
                          case UserAccept(f, rid) => AcceptPending(cfg, c, f, rid)
                          case UserReject(f, rid) => RejectPending(cfg, c, f, rid)
                          case UserAbort(f, rid) => Abort(cfg, c, f, rid)
                          case _ => c)
  {
  }

  lemma StartOwns(setup: Setup, w: World, c: Uuid, s: ClientStep)
    requires s.Start? && ClientEnabled(setup, w, c, s) && NodeSound(w, c, w.nodes[c]) && IdsOk(w)
    ensures OwnsItsFiles(Recorded(w, c, s).started, w.completions, c,
                         StartOutgoing(w.nodes[c].cfg, w.nodes[c].client, s.fileId, s.rid, s.fileName, s.path, s.bytes,
                             s.sha256,
                                       s.targetGroup, s.targetClient))
  {
  }

  lemma CompleteOwns(setup: Setup, w: World, c: Uuid, s: ClientStep)
    requires s.Complete? && ClientEnabled(setup, w, c, s) && NodeSound(w, c, w.nodes[c])
    ensures OwnsItsFiles(w.started, w.completions[s.fileId := s.rid], c,
            TaskComplete(w.nodes[c].cfg, w.nodes[c].client, s.fileId, s.rid))
  {
  }

  lemma ReceiveOwns(setup: Setup, w: World, c: Uuid, s: ClientStep)
    requires s.Receive? && ClientEnabled(setup, w, c, s) && NodeSound(w, c, w.nodes[c])
    requires PacketExpects(w.nodes[c].client, s.packet, setup.digest, s.choice)
    requires Dispatch(w.nodes[c].cfg, w.nodes[c].client, s.packet, setup.digest, s.savePath, s.rid, s.choice).Ok?
    ensures OwnsItsFiles(w.started, w.completions, c,
                         Dispatch(w.nodes[c].cfg, w.nodes[c].client, s.packet, setup.digest, s.savePath, s.rid,
                             s.choice).value)
  {
    var n := w.nodes[c];
    if s.packet.Event? && s.packet.event.eventType == FileAccept {
      AcceptOwns(w.started, w.completions, c, n.client, s.packet.event);
    } else {
      DispatchNothingNew(n.cfg, setup.digest, n.client, s.packet, s.savePath, s.rid, s.choice);
      NothingNewKeeps(w.started, w.completions, c, n.client,
                      Dispatch(n.cfg, n.client, s.packet, setup.digest, s.savePath, s.rid, s.choice).value);
    }
  }

  lemma OtherNothingNew(cfg: Config, digest: seq<byte> -> string, c: ClientState, s: ClientStep)
    requires Enabled(c, s) && !s.Start? && !s.Complete? && !s.Receive? && !s.Reconnect?
    requires Client.Next(cfg, digest, c, s).Ok?
    ensures NothingNew(c, Client.Next(cfg, digest, c, s).value)
  {
    match s
    case ReceiveFrame(frame, rid) => FrameNothingNew(cfg, c, frame, rid);
    case SendFrame(f) => SendNothingNew(c, f);
    case Check(_) => TaskNothingNew(c, s);
    case Mark(_) => TaskNothingNew(c, s);
    case _ => UserNothingNew(cfg, c, s);
  }

  lemma ClientStepOwns(setup: Setup, w: World, c: Uuid, s: ClientStep)
    requires ClientEnabled(setup, w, c, s) && NodeSound(w, c, w.nodes[c]) && IdsOk(w)
    requires Client.Next(w.nodes[c].cfg, setup.digest, w.nodes[c].client, s).Ok?
    ensures var v := Recorded(w, c, s);
            OwnsItsFiles(v.started, v.completions, c,
                Client.Next(w.nodes[c].cfg, setup.digest, w.nodes[c].client, s).value)
  {
    var n := w.nodes[c];
    if s.Start? {
      StartOwns(setup, w, c, s);
    } else if s.Complete? {
      CompleteOwns(setup, w, c, s);
    } else if s.Receive? {
      ReceiveOwns(setup, w, c, s);
    } else {
      OtherNothingNew(n.cfg, setup.digest, n.client, s);
      NothingNewKeeps(w.started, w.completions, c, n.client, Client.Next(n.cfg, setup.digest, n.client, s).value);
    }
  }

  /** The ids recorded so far keep their meaning. */
  predicate Extends(w: World, v: World) {
    && w.started.Keys <= v.started.Keys && (forall f :: f in w.started ==> v.started[f] == w.started[f])
    && w.completions.Keys <= v.completions.Keys
    && (forall f :: f in w.completions ==> v.completions[f] == w.completions[f])
    && w.drawn.Keys <= v.drawn.Keys && (forall q :: q in w.drawn ==> v.drawn[q] == w.drawn[q])
  }

  lemma ExtendsTwice(u: World, w: World, v: World)
    requires Extends(u, w) && Extends(w, v)
    ensures Extends(u, v)
  {
  }

  lemma RecordedExtends(setup: Setup, w: World, c: Uuid, s: ClientStep)
    requires ClientEnabled(setup, w, c, s) && NodeSound(w, c, w.nodes[c]) && IdsOk(w)
    ensures Extends(w, Recorded(w, c, s)) && IdsOk(Recorded(w, c, s))
  {
  }

  /** What one client draws does not disturb the others. */
  lemma OthersOwn(setup: Setup, w: World, c: Uuid, s: ClientStep, d: Uuid)
    requires WorldSound(w) && ClientEnabled(setup, w, c, s) && d in w.nodes && d != c
    ensures var v := Recorded(w, c, s); OwnsItsFiles(v.started, v.completions, d, w.nodes[d].client)
  {
    assert NodeSound(w, c, w.nodes[c]) && NodeSound(w, d, w.nodes[d]);
  }

  lemma SteppedOwns(w: World, c: Uuid, s: ClientStep, r: Result<ClientState, HandlerError>)
    requires c in w.nodes && NodeSound(w, c, w.nodes[c]) && (r.Err? ==> s.Receive? || s.ReceiveFrame?)
    requires r.Ok? ==> ClientOk(r.value)
    requires r.Ok? ==> OwnsItsFiles(Recorded(w, c, s).started, Recorded(w, c, s).completions, c, r.value)
    ensures NodeSound(Recorded(w, c, s), c, Stepped(w.nodes[c], s, r))
  {
  }

  /** Only packets and frames can be refused, whatever else a sound client does. */
  lemma RefusedIsHeard(cfg: Config, digest: seq<byte> -> string, c: ClientState, s: ClientStep)
    requires Sound(c) && Enabled(c, s) && Client.Next(cfg, digest, c, s).Err?
    ensures s.Receive? || s.ReceiveFrame?
  {
    SoundExpects(c, s, digest);
  }

  lemma SteppedSound(setup: Setup, w: World, c: Uuid, s: ClientStep)
    requires ClientEnabled(setup, w, c, s) && NodeSound(w, c, w.nodes[c]) && IdsOk(w)
    ensures var n := w.nodes[c];
            NodeSound(Recorded(w, c, s), c, Stepped(n, s, Client.Next(n.cfg, setup.digest, n.client, s)))
  {
    hide Client.Next;
    var n := w.nodes[c];
    var r := Client.Next(n.cfg, setup.digest, n.client, s);
    if r.Ok? {
      C.StepKeeps(n.cfg, setup.digest, n.client, s);
      ClientStepOwns(setup, w, c, s);
    } else {
      RefusedIsHeard(n.cfg, setup.digest, n.client, s);
    }
    SteppedOwns(w, c, s, r);
  }

  /** A client's step changes its node, and of the ids only what it draws. */
  lemma ClientStepShape(setup: Setup, w: World, c: Uuid, s: ClientStep, v: World)
    requires ClientStepTo(setup, w, c, s, v)
    ensures c in w.nodes && v.relay == w.relay && v.offered == w.offered && OthersSame(w, c, v)
    ensures var n := w.nodes[c];
            v.nodes[c] == Stepped(n, s, Client.Next(n.cfg, setup.digest, n.client, s))
    ensures var r := Recorded(w, c, s);
            v.started == r.started && v.completions == r.completions && v.drawn == r.drawn
  {
    hide Client.Next;
  }

  lemma OneNodeSound(w: World, r: World, c: Uuid, v: World)
    requires WorldSound(w) && IdsOk(r) && Extends(w, r)
    requires v.started == r.started && v.completions == r.completions && v.drawn == r.drawn
    requires v.relay == w.relay && c in w.nodes && OthersSame(w, c, v)
    requires NodeSound(r, c, v.nodes[c])
    requires forall d :: d in w.nodes && d != c ==> OwnsItsFiles(r.started, r.completions, d, w.nodes[d].client)
    ensures WorldSound(v) && Extends(w, v)
  {
    forall d | d in v.nodes
      ensures NodeSound(v, d, v.nodes[d])
    {
      assert d != c ==> NodeSound(w, d, w.nodes[d]);
    }
  }

  lemma ClientStepSound(setup: Setup, w: World, c: Uuid, s: ClientStep, v: World)
    requires WorldSound(w) && ClientStepTo(setup, w, c, s, v)
    ensures WorldSound(v) && Extends(w, v)
  {
    hide Client.Next, OwnsItsFiles;
    ClientStepShape(setup, w, c, s, v);
    assert NodeSound(w, c, w.nodes[c]);
    RecordedExtends(setup, w, c, s);
    SteppedSound(setup, w, c, s);
    forall d | d in w.nodes && d != c
      ensures OwnsItsFiles(Recorded(w, c, s).started, Recorded(w, c, s).completions, d, w.nodes[d].client)
    {
      OthersOwn(setup, w, c, s, d);
    }
    OneNodeSound(w, Recorded(w, c, s), c, v);
  }

  // ---------- the other steps ----------

  lemma SameClientSound(w: World, c: Uuid, n: Node, m: Node)
    requires NodeSound(w, c, n) && m.client.store == n.client.store && m.client.tasks == n.client.tasks
    requires m.client.log == n.client.log && m.client.spawns == n.client.spawns
    ensures NodeSound(w, c, m)
  {
    C.OthersKeep(n.client, m.client);
  }

  lemma NodeChangeSound(w: World, c: Uuid, m: Node, v: World)
    requires WorldSound(w) && c in w.nodes && v.nodes == w.nodes[c := m]
    requires v.started == w.started && v.completions == w.completions && v.drawn == w.drawn
    requires m.client.store == w.nodes[c].client.store && m.client.tasks == w.nodes[c].client.tasks
    requires m.client.log == w.nodes[c].client.log && m.client.spawns == w.nodes[c].client.spawns
    requires RR.RelayOk(v.relay)
    ensures WorldSound(v)
  {
    forall d | d in v.nodes
      ensures NodeSound(v, d, v.nodes[d])
    {
      assert NodeSound(w, d, w.nodes[d]);
      if d == c { SameClientSound(w, c, w.nodes[c], m); }
    }
  }

  lemma FreshSound(started: map<Uuid, Origin>, completions: map<Uuid, RequestId>, c: Uuid)
    ensures ClientOk(FRESH_CLIENT) && OwnsItsFiles(started, completions, c, FRESH_CLIENT)
  {
    forall f: Uuid
      ensures Balanced(FRESH_CLIENT, f) && OneTask(FRESH_CLIENT, f)
    {
    }
  }

  lemma ConnectSound(setup: Setup, w: World, s: Step, v: World)
    requires WorldSound(w) && s.Connect? && StepTo(setup, w, s, v)
    ensures WorldSound(v)
  {
    RR.InitKeeps(w.relay, s.rec);
    forall d | d in v.nodes
      ensures NodeSound(v, d, v.nodes[d])
    {
      if d in w.nodes {
        assert NodeSound(w, d, w.nodes[d]);
      } else {
        FreshSound(w.started, w.completions, d);
      }
    }
  }

  lemma StepSound(setup: Setup, w: World, s: Step, v: World)
    ensures WorldSound(w) && StepTo(setup, w, s, v) ==> WorldSound(v) && Extends(w, v)
  {
    if WorldSound(w) && StepTo(setup, w, s, v) {
      match s
      case Connect(_, _) => ConnectSound(setup, w, s, v);
      case At(c, step) => ClientStepSound(setup, w, c, step, v);
      case Say(c, e) => NodeChangeSound(w, c, v.nodes[c], v);
      case Deliver(c) => DeliverSound(w, c, v);
      case Forward(c) => ForwardSound(setup, w, c, v);
      case AtRelay(i) => RelaySound(setup, w, i, v);
      case Die(c) => NodeChangeSound(w, c, v.nodes[c], v);
    }
  }

  lemma DeliverSound(w: World, c: Uuid, v: World)
    requires WorldSound(w) && DeliverTo(w, c, v)
    ensures WorldSound(v)
  {
    NodeChangeSound(w, c, v.nodes[c], v);
  }

  lemma ForwardSound(setup: Setup, w: World, c: Uuid, v: World)
    requires WorldSound(w) && ForwardTo(setup, w, c, v)
    ensures WorldSound(v)
  {
    RR.StepKeeps(setup.server, w.relay, InputFrom(c, w.nodes[c].client.outbox[0]).value);
    NodeChangeSound(w, c, v.nodes[c], v);
  }

  lemma RelaySound(setup: Setup, w: World, i: R.Input, v: World)
    requires WorldSound(w) && R.Possible(w.relay, i) && v == w.(relay := R.Next(setup.server, w.relay, i))
    ensures WorldSound(v)
  {
    RR.StepKeeps(setup.server, w.relay, i);
    forall d | d in v.nodes
      ensures NodeSound(v, d, v.nodes[d])
    {
      assert NodeSound(w, d, w.nodes[d]);
    }
  }

  lemma InitialSound()
    ensures WorldSound(INITIAL)
  {
  }

  /** In every run all clients and the relay are sound, each file has one owner and at most one completion id, and no
      id ever changes its meaning. */
  lemma {:induction false} RunsSound(setup: Setup, steps: seq<Step>, states: seq<World>, m: nat, n: nat)
    requires IsRun(setup, steps, states) && m <= n <= |steps|
    ensures WorldSound(states[n]) && Extends(states[m], states[n])
    ensures forall c :: c in states[n].nodes ==> Sound(states[n].nodes[c].client)
  {
    hide StepTo;
    if n == 0 {
      InitialSound();
    } else {
      RunsSound(setup, steps, states, if m < n then m else n - 1, n - 1);
      StepSound(setup, states[n - 1], steps[n - 1], states[n]);
      if m < n {
        ExtendsTwice(states[m], states[n - 1], states[n]);
      }
    }
    assert forall c :: c in states[n].nodes ==> NodeSound(states[n], c, states[n].nodes[c]);
  }

  /** In no state of any run can a client take a step in which an `expect` finds nothing. */
  lemma ExpectsHold(setup: Setup, steps: seq<Step>, states: seq<World>, n: nat, c: Uuid, s: ClientStep)
    requires IsRun(setup, steps, states) && n <= |steps| && ClientEnabled(setup, states[n], c, s)
    ensures var node := states[n].nodes[c];
            && Expects(node.client, s, setup.digest)
            && Client.Next(node.cfg, setup.digest, node.client, s) != Err(ExpectFailed)
  {
    hide R.Next;
    RunsSound(setup, steps, states, n, n);
    SoundExpects(states[n].nodes[c].client, s, setup.digest);
    C.NeverPanics(states[n].nodes[c].cfg, setup.digest, states[n].nodes[c].client, s);
  }
}
