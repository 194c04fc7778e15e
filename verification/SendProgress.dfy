/** The progress lines of the interactive send task (src/state/outgoing.rs) over every run of the whole system: what a
    sender prints about a file is a beginning of the file's trace, and all of it once the task's loop has finished. */
module SendProgress {
  import opened Basics
  import opened Packets
  import opened Chunking
  import opened FileStore
  import opened SendLoop
  import opened Client
  import opened Protocol
  import opened DrawnIds
  import opened Delivery
  import R = Relay

  function LinePercents(f: Uuid, line: Line): seq<nat> {
    if line.SendProgress? && line.fileId == f then [line.report.percent] else []
  }

  /** The percentages printed about a file, in order. */
  function PercentsOf(f: Uuid, lines: seq<Line>): seq<nat> {
    if lines == [] then [] else PercentsOf(f, lines[..|lines| - 1]) + LinePercents(f, lines[|lines| - 1])
  }

  /** A step prints one line or none. */
  lemma MoreLines(f: Uuid, lines: seq<Line>, more: seq<Line>)
    requires |more| <= 1
    ensures PercentsOf(f, lines + more) == PercentsOf(f, lines) + if more == [] then [] else LinePercents(f, more[0])
  {
    if more == [] {
      assert lines + more == lines;
    } else {
      assert (lines + more)[..|lines|] == lines;
    }
  }

  function Trace(len: nat): seq<nat> {
    SenderTrace(len, 0, 0)
  }

  /** What a send task that runs to its end prints: an empty file has no chunk, and one line of its own. */
  function Whole(len: nat): seq<nat> {
    if len == 0 then [100] else Trace(len)
  }

  /** What has been shown and what chunk i and later ones will add make the file's trace. */
  predicate OnTrace(shown: seq<nat>, len: nat, i: nat, last: nat) {
    i <= ChunkCount(len) && shown + SenderTrace(len, i, last) == Trace(len)
  }

  predicate TaskOnTrace(c: ClientState, f: Uuid, len: nat, phase: SendPhase) {
    var shown := PercentsOf(f, c.console);
    match phase
    case AtCheck(i) => i <= ChunkCount(len)
        && (HasOutgoing(c, f) ==> OnTrace(shown, len, i, c.store[f].lastReportedPercent))
    case AtSend(i) => i < ChunkCount(len)
        && (HasOutgoing(c, f) ==> OnTrace(shown, len, i, c.store[f].lastReportedPercent))
    case AtComplete => shown == Trace(len)
    case AtMark(_) => true
  }

  /** The owner's client and one of its files; `completed` says that `file_complete` has been queued. */
  predicate InStep(c: ClientState, f: Uuid, len: nat, completed: bool) {
    var shown := PercentsOf(f, c.console);
    && (if completed then shown == Whole(len) else shown <= Trace(len))
    && (f in c.tasks && !completed ==> TaskOnTrace(c, f, len, c.tasks[f].phase))
    && (InState(c, f, WaitingAccept) ==> shown == [] && c.store[f].lastReportedPercent == 0)
  }

  predicate Shown(w: World, c: Uuid, f: Uuid)
    requires c in w.nodes
  {
    if f in w.started && w.started[f].owner == c
    then InStep(w.nodes[c].client, f, |w.started[f].bytes|, f in w.completions)
    else PercentsOf(f, w.nodes[c].client.console) == []
  }

  ghost predicate AllShown(w: World, f: Uuid) {
    && (f in w.started ==> w.started[f].owner in w.nodes)
    && forall c :: c in w.nodes ==> Shown(w, c, f)
  }

  // ---------- one client's steps ----------

  /** Nothing was printed about the file, and its task and sending entry are as before, or gone. */
  predicate Calm(a: ClientState, b: ClientState, f: Uuid) {
    && PercentsOf(f, b.console) == PercentsOf(f, a.console)
    && (f in b.tasks ==> f in a.tasks && b.tasks[f] == a.tasks[f])
    && (HasOutgoing(b, f) ==> HasOutgoing(a, f) && b.store[f].lastReportedPercent == a.store[f].lastReportedPercent)
    && (InState(b, f, WaitingAccept) ==> InState(a, f, WaitingAccept))
  }

  lemma CalmKeeps(a: ClientState, b: ClientState, f: Uuid, len: nat, completed: bool)
    requires Calm(a, b, f) && InStep(a, f, len, completed)
    ensures InStep(b, f, len, completed)
  {
  }

  lemma UserCalm(cfg: Config, c: ClientState, s: ClientStep, f: Uuid)
    requires s.UserAccept? || s.UserReject? || s.UserAbort?
    requires s.UserAccept? ==> AcceptExpects(c, s.fileId)
    ensures Calm(c, match s
                    case UserAccept(g, rid) => AcceptPending(cfg, c, g, rid)
                    case UserReject(g, rid) => RejectPending(cfg, c, g, rid)
                    case UserAbort(g, rid) => Abort(cfg, c, g, rid)
                    case _ => c, f)
  {
  }

  lemma FrameCalm(cfg: Config, c: ClientState, frame: seq<byte>, rid: RequestId, f: Uuid)
    requires OnFrame(cfg, c, frame, rid).Ok?
    ensures Calm(c, OnFrame(cfg, c, frame, rid).value, f)
  {
  }

  lemma AckCalm(c: ClientState, a: AckPacket, choice: Uuid, f: Uuid)
    requires DoneExpects(c, a, choice)
    ensures Calm(c, OnAck(c, a, choice), f)
  {
    if a.refType == Some(FileComplete) && WaitsForAck(c.store, choice, a.requestId) {
      var t := c.store[choice];
      MoreLines(f, c.console, if a.status == Accepted then [SendDone(t.sourcePath.value, t.fileName)] else []);
    }
  }

  lemma OfferCalm(cfg: Config, c: ClientState, p: EventPacket, savePath: string, rid: RequestId, f: Uuid)
    requires OnOffer(cfg, c, p, savePath, rid).Ok?
    ensures Calm(c, OnOffer(cfg, c, p, savePath, rid).value, f)
  {
  }

  lemma CompleteCalm(cfg: Config, c: ClientState, p: EventPacket, digest: Digest, f: Uuid)
    requires SaveExpects(c, p, digest) && OnComplete(cfg, c, p, digest).Ok?
    ensures Calm(c, OnComplete(cfg, c, p, digest).value, f)
  {
  }

  lemma ReceiveCalm(cfg: Config, digest: Digest, c: ClientState, s: ClientStep, f: Uuid)
    requires s.Receive? && PacketExpects(c, s.packet, digest, s.choice)
    requires Dispatch(cfg, c, s.packet, digest, s.savePath, s.rid, s.choice).Ok?
    requires !(s.packet.Event? && s.packet.event.eventType == FileAccept)
    ensures Calm(c, Dispatch(cfg, c, s.packet, digest, s.savePath, s.rid, s.choice).value, f)
  {
    if s.packet.Ack? {
      AckCalm(c, s.packet.ack, s.choice, f);
    } else if s.packet.Event? && s.packet.event.eventType == FileOffer {
      OfferCalm(cfg, c, s.packet.event, s.savePath, s.rid, f);
    } else if s.packet.Event? && s.packet.event.eventType == FileComplete {
      CompleteCalm(cfg, c, s.packet.event, digest, f);
    }
  }

  /** The accept that finds the entry waiting starts the trace. */
  lemma AcceptInStep(c: ClientState, p: EventPacket, f: Uuid, len: nat, completed: bool)
    requires InStep(c, f, len, completed) && SpawnExpects(c, p) && OnAccept(c, p).Ok?
    requires InState(c, f, WaitingAccept) ==> !completed
    ensures InStep(OnAccept(c, p).value, f, len, completed)
  {
    var g := p.meta.fileId.value;
    if g == f && InState(c, f, WaitingAccept) {
      assert [] + SenderTrace(len, 0, 0) == Trace(len);
    } else {
      CalmKeeps(c, OnAccept(c, p).value, f, len, completed);
    }
  }

  lemma OtherTaskCalm(cfg: Config, c: ClientState, s: ClientStep, f: Uuid)
    requires Enabled(c, s) && (s.Check? || s.Mark? || s.Complete?) && s.fileId != f
    requires s.Check? ==> c.tasks[s.fileId].chunkSize > 0
    ensures Calm(c, match s
                    case Check(g) => TaskCheck(c, g)
                    case Mark(g) => TaskMark(c, g)
                    case Complete(g, rid) => TaskComplete(cfg, c, g, rid)
                    case _ => c, f)
  {
    if s.Complete? {
      MoreLines(f, c.console, EmptyFileLines(s.fileId, c.tasks[s.fileId].size));
    }
  }

  lemma OtherSendCalm(c: ClientState, g: Uuid, f: Uuid)
    requires ProgressExpects(c, g) && g in c.tasks && c.tasks[g].phase.AtSend? && g != f
    requires c.tasks[g].phase.index * c.tasks[g].chunkSize < |c.tasks[g].bytes|
    ensures Calm(c, TaskSend(c, g), f)
  {
    if HasOutgoing(c, g) {
      var k := c.tasks[g];
      var report := OutgoingProgress(c.store[g], k.size, k.phase.index + 1, k.chunkSize).1;
      MoreLines(f, c.console, ProgressLines(g, report));
    }
  }

  lemma CheckInStep(c: ClientState, f: Uuid, bytes: seq<byte>)
    requires InStep(c, f, |bytes|, false)
    requires f in c.tasks && c.tasks[f].phase.AtCheck? && c.tasks[f].chunkSize == CHUNK_SIZE
    requires c.tasks[f].bytes == bytes
    ensures InStep(TaskCheck(c, f), f, |bytes|, false)
  {
    var shown := PercentsOf(f, c.console);
    if HasOutgoing(c, f) {
      assert SenderTrace(|bytes|, ChunkCount(|bytes|), c.store[f].lastReportedPercent) == [];
      assert shown + [] == shown;
    }
  }

  /** A report moves one percentage from what is to come to what has been shown. */
  lemma ReportOnTrace(shown: seq<nat>, len: nat, i: nat, last: nat)
    requires i < ChunkCount(len) && OnTrace(shown, len, i, last)
    ensures var p := PercentAfter(len, i + 1);
            if SenderReports(TotalChunks(len), p, last) then OnTrace(shown + [p], len, i + 1, p)
            else OnTrace(shown, len, i + 1, last)
  {
    var p := PercentAfter(len, i + 1);
    SenderTraceStep(len, i, last);
    if SenderReports(TotalChunks(len), p, last) {
      assert shown + ([p] + SenderTrace(len, i + 1, p)) == (shown + [p]) + SenderTrace(len, i + 1, p);
    }
  }

  lemma OnTraceBegins(shown: seq<nat>, len: nat, i: nat, last: nat)
    requires OnTrace(shown, len, i, last)
    ensures shown <= Trace(len)
  {
    assert Trace(len)[..|shown|] == shown;
  }

  /** What one progress update leaves of the entry, and prints. */
  lemma ProgressOfChunk(t: Transfer, bytes: seq<byte>, i: nat)
    requires t.outgoingBytes == Some(bytes) && t.totalChunks == TotalChunks(|bytes|)
    ensures var (u, report) := OutgoingProgress(t, |bytes|, i + 1, CHUNK_SIZE);
            var p := PercentAfter(|bytes|, i + 1);
            && u.state == t.state
            && (if SenderReports(t.totalChunks, p, t.lastReportedPercent)
                then report.Some? && report.value.percent == p && u.lastReportedPercent == p
                else report.None? && u.lastReportedPercent == t.lastReportedPercent)
  {
  }

  lemma SendInStep(c: ClientState, f: Uuid, bytes: seq<byte>)
    requires InStep(c, f, |bytes|, false)
    requires f in c.tasks && c.tasks[f].phase.AtSend?
    requires c.tasks[f].phase.index * c.tasks[f].chunkSize < |c.tasks[f].bytes|
    requires c.tasks[f].chunkSize == CHUNK_SIZE && c.tasks[f].bytes == bytes && c.tasks[f].size == |bytes|
    requires HasOutgoing(c, f)
             ==> c.store[f].outgoingBytes == Some(bytes) && c.store[f].totalChunks == TotalChunks(|bytes|)
    requires InState(c, f, WaitingAccept) ==> f !in c.tasks
    ensures InStep(TaskSend(c, f), f, |bytes|, false)
  {
    var i := c.tasks[f].phase.index;
    var shown := PercentsOf(f, c.console);
    if HasOutgoing(c, f) {
      var t := c.store[f];
      var p := PercentAfter(|bytes|, i + 1);
      ProgressOfChunk(t, bytes, i);
      ReportOnTrace(shown, |bytes|, i, t.lastReportedPercent);
      var (u, report) := OutgoingProgress(t, |bytes|, i + 1, CHUNK_SIZE);
      SentShown(c, f, u, report);
      OnTraceBegins(PercentsOf(f, TaskSend(c, f).console), |bytes|, i + 1, u.lastReportedPercent);
    }
  }

  /** What is shown after a frame. */
  lemma SentShown(c: ClientState, f: Uuid, u: Transfer, report: Option<Report>)
    requires f in c.tasks && c.tasks[f].phase.AtSend?
    requires c.tasks[f].phase.index * c.tasks[f].chunkSize < |c.tasks[f].bytes|
    requires HasOutgoing(c, f) && c.store[f].outgoingBytes.Some?
    requires (u, report)
             == OutgoingProgress(c.store[f], c.tasks[f].size, c.tasks[f].phase.index + 1, c.tasks[f].chunkSize)
    ensures var d := TaskSend(c, f);
            && f in d.store && d.store[f] == u && f in d.tasks
            && d.tasks[f].phase == AtCheck(c.tasks[f].phase.index + 1)
            && PercentsOf(f, d.console)
               == PercentsOf(f, c.console) + if report.Some? then [report.value.percent] else []
  {
    hide OutgoingProgress, TaskFrame, PercentsOf;
    MoreLines(f, c.console, ProgressLines(f, report));
  }

  lemma CompleteInStep(cfg: Config, c: ClientState, f: Uuid, rid: RequestId, len: nat)
    requires InStep(c, f, len, false) && f in c.tasks && c.tasks[f].phase == AtComplete && c.tasks[f].size == len
    requires InState(c, f, WaitingAccept) ==> f !in c.tasks
    ensures InStep(TaskComplete(cfg, c, f, rid), f, len, true)
  {
    MoreLines(f, c.console, EmptyFileLines(f, len));
  }

  // ---------- the owner's steps ----------

  /** The state a step starts from: its client is honest and sound. */
  ghost predicate Before(setup: Setup, w: World, c: Uuid, s: ClientStep, f: Uuid) {
    && ClientEnabled(setup, w, c, s) && WorldSound(w) && WorldHonest(w, setup.digest, w)
    && f in w.started && w.started[f].owner == c
    && InStep(w.nodes[c].client, f, |w.started[f].bytes|, f in w.completions)
  }

  /** What the step's own file relies on: its task and entry hold the file, and run it in order. */
  lemma OwnFile(setup: Setup, w: World, c: Uuid, s: ClientStep, f: Uuid)
    requires Before(setup, w, c, s, f)
    ensures var client := w.nodes[c].client;
            && TaskHonestHere(w, client, f)
            && (InState(client, f, WaitingAccept) ==> f !in client.tasks && f !in w.completions)
            && (f in client.tasks && !client.tasks[f].phase.AtMark? ==> f !in w.completions)
            && (f in client.tasks && client.tasks[f].phase.AtMark? ==> f in w.completions)
  {
    var n := w.nodes[c];
    assert NodeSound(w, c, n);
    assert NodeHonest(w, setup.digest, n);
    if f in n.client.tasks {
      assert TaskHonest(w, setup.digest, f, n.client.tasks[f]);
    }
    if f in n.client.store {
      assert EntryHonest(w, setup.digest, f, n.client.store[f]);
    }
  }

  predicate TaskHonestHere(w: World, c: ClientState, f: Uuid)
    requires f in w.started
  {
    var bytes := w.started[f].bytes;
    && (f in c.tasks ==> c.tasks[f].bytes == bytes && c.tasks[f].size == |bytes| && c.tasks[f].chunkSize == CHUNK_SIZE)
    && (HasOutgoing(c, f) ==> c.store[f].outgoingBytes == Some(bytes) && c.store[f].totalChunks == TotalChunks(|bytes|))
  }

  /** The file is in step after this step of its owner. */
  ghost predicate StaysInStep(setup: Setup, w: World, c: Uuid, s: ClientStep, f: Uuid)
    requires c in w.nodes && Enabled(w.nodes[c].client, s) && f in w.started
  {
    var r := Client.Next(w.nodes[c].cfg, setup.digest, w.nodes[c].client, s);
    r.Ok? ==> InStep(r.value, f, |w.started[f].bytes|, f in w.completions || (s.Complete? && s.fileId == f))
  }

  /** The steps of the file's own task. */
  lemma OwnTaskStep(setup: Setup, w: World, c: Uuid, s: ClientStep, f: Uuid)
    requires Before(setup, w, c, s, f) && (s.Check? || s.SendFrame? || s.Complete?) && s.fileId == f
    ensures StaysInStep(setup, w, c, s, f)
  {
    hide WorldSound, WorldHonest, InStep, TaskCheck, TaskSend, TaskComplete;
    var n := w.nodes[c];
    OwnFile(setup, w, c, s, f);
    if Client.Next(n.cfg, setup.digest, n.client, s).Ok? {
      if s.Check? {
        CheckInStep(n.client, f, w.started[f].bytes);
      } else if s.SendFrame? {
        SendInStep(n.client, f, w.started[f].bytes);
      } else {
        CompleteInStep(n.cfg, n.client, f, s.rid, |w.started[f].bytes|);
      }
    }
  }

  lemma OwnMarkStep(setup: Setup, w: World, c: Uuid, s: ClientStep, f: Uuid)
    requires Before(setup, w, c, s, f) && s.Mark? && s.fileId == f
    ensures StaysInStep(setup, w, c, s, f)
  {
    hide WorldSound, WorldHonest, PercentsOf, SenderTrace;
    OwnFile(setup, w, c, s, f);
  }

  lemma OwnAcceptStep(setup: Setup, w: World, c: Uuid, s: ClientStep, f: Uuid)
    requires Before(setup, w, c, s, f) && s.Receive? && s.packet.Event? && s.packet.event.eventType == FileAccept
    ensures StaysInStep(setup, w, c, s, f)
  {
    hide WorldSound, WorldHonest, InStep, OnAccept;
    var n := w.nodes[c];
    OwnFile(setup, w, c, s, f);
    if Client.Next(n.cfg, setup.digest, n.client, s).Ok? {
      AcceptInStep(n.client, s.packet.event, f, |w.started[f].bytes|, f in w.completions);
    }
  }

  lemma OwnCalmStep(setup: Setup, w: World, c: Uuid, s: ClientStep, f: Uuid)
    requires Before(setup, w, c, s, f) && !(s.Receive? && s.packet.Event? && s.packet.event.eventType == FileAccept)
    requires s.Check? || s.SendFrame? || s.Complete? || s.Mark? || s.Start? ==> s.fileId != f
    ensures StaysInStep(setup, w, c, s, f)
  {
    hide WorldSound, WorldHonest, InStep, Client.Next, Calm;
    var n := w.nodes[c];
    var r := Client.Next(n.cfg, setup.digest, n.client, s);
    if r.Ok? {
      StepCalm(setup, w, c, s, f);
      CalmKeeps(n.client, r.value, f, |w.started[f].bytes|, f in w.completions);
    }
  }

  lemma OwnStepInStep(setup: Setup, w: World, c: Uuid, s: ClientStep, f: Uuid)
    requires Before(setup, w, c, s, f)
    ensures StaysInStep(setup, w, c, s, f)
  {
    hide WorldSound, WorldHonest, InStep, Client.Next, StaysInStep;
    if (s.Check? || s.SendFrame? || s.Complete?) && s.fileId == f {
      OwnTaskStep(setup, w, c, s, f);
    } else if s.Mark? && s.fileId == f {
      OwnMarkStep(setup, w, c, s, f);
    } else if s.Receive? && s.packet.Event? && s.packet.event.eventType == FileAccept {
      OwnAcceptStep(setup, w, c, s, f);
    } else {
      OwnCalmStep(setup, w, c, s, f);
    }
  }

  /** Steps that are not the file's own task's, nor its accept, are calm. */
  lemma StepCalm(setup: Setup, w: World, c: Uuid, s: ClientStep, f: Uuid)
    requires ClientEnabled(setup, w, c, s) && Client.Next(w.nodes[c].cfg, setup.digest, w.nodes[c].client, s).Ok?
    requires s.Check? || s.SendFrame? || s.Complete? || s.Mark? || s.Start? ==> s.fileId != f
    requires !(s.Receive? && s.packet.Event? && s.packet.event.eventType == FileAccept)
    ensures Calm(w.nodes[c].client, Client.Next(w.nodes[c].cfg, setup.digest, w.nodes[c].client, s).value, f)
  {
    var n := w.nodes[c];
    match s
    case Start(_, _, _, _, _, _, _, _) =>
    case Receive(_, _, _, _) => ReceiveCalm(n.cfg, setup.digest, n.client, s, f);
    case ReceiveFrame(frame, rid) => FrameCalm(n.cfg, n.client, frame, rid, f);
    case SendFrame(g) => OtherSendCalm(n.client, g, f);
    case Check(_) => OtherTaskCalm(n.cfg, n.client, s, f);
    case Mark(_) => OtherTaskCalm(n.cfg, n.client, s, f);
    case Complete(_, _) => OtherTaskCalm(n.cfg, n.client, s, f);
    case _ => UserCalm(n.cfg, n.client, s, f);
  }

  /** A file just offered has shown nothing. */
  lemma StartInStep(setup: Setup, w: World, c: Uuid, s: ClientStep)
    requires ClientEnabled(setup, w, c, s) && s.Start? && WorldSound(w)
    requires PercentsOf(s.fileId, w.nodes[c].client.console) == []
    ensures s.fileId !in w.started && s.fileId !in w.completions
    ensures InStep(Client.Next(w.nodes[c].cfg, setup.digest, w.nodes[c].client, s).value, s.fileId, |s.bytes|, false)
  {
    assert NodeSound(w, c, w.nodes[c]);
  }

  /** A client prints nothing about files it does not send. */
  lemma ForeignShown(setup: Setup, w: World, c: Uuid, s: ClientStep, f: Uuid)
    requires ClientEnabled(setup, w, c, s) && WorldSound(w) && !(s.Start? && s.fileId == f)
    requires !(f in w.started && w.started[f].owner == c)
    requires Client.Next(w.nodes[c].cfg, setup.digest, w.nodes[c].client, s).Ok?
    ensures PercentsOf(f, Client.Next(w.nodes[c].cfg, setup.digest, w.nodes[c].client, s).value.console)
         == PercentsOf(f, w.nodes[c].client.console)
  {
    hide PercentsOf, ClientOk;
    var n := w.nodes[c];
    assert NodeSound(w, c, n);
    assert f !in n.client.tasks;
    if !(s.Receive? && s.packet.Event? && s.packet.event.eventType == FileAccept) {
      StepCalm(setup, w, c, s, f);
    }
  }

  // ---------- every step of the system ----------

  lemma CompletedStarted(w: World)
    requires WorldSound(w)
    ensures w.completions.Keys <= w.started.Keys
  {
  }

  /** The node that steps. */
  lemma StepperShown(setup: Setup, w: World, c: Uuid, s: ClientStep, v: World, f: Uuid)
    requires ClientStepTo(setup, w, c, s, v) && WorldSound(w) && WorldHonest(w, setup.digest, w) && AllShown(w, f)
    ensures c in v.nodes && Shown(v, c, f)
  {
    hide WorldHonest, WorldSound, InStep, PercentsOf, Client.Next, Enabled, OthersSame, IdsOk;
    ClientStepShape(setup, w, c, s, v);
    var n := w.nodes[c];
    assert Shown(w, c, f);
    SoundNode(w, c);
    CompletedStarted(w);
    if Client.Next(n.cfg, setup.digest, n.client, s).Err? {
      RefusedIsHeard(n.cfg, setup.digest, n.client, s);
    } else if f in w.started && w.started[f].owner == c {
      OwnStepInStep(setup, w, c, s, f);
    } else if s.Start? && s.fileId == f {
      StartInStep(setup, w, c, s);
    } else {
      ForeignShown(setup, w, c, s, f);
    }
  }

  /** The others: nobody else starts or completes their files. */
  lemma OthersShown(setup: Setup, w: World, c: Uuid, s: ClientStep, v: World, f: Uuid, d: Uuid)
    requires ClientStepTo(setup, w, c, s, v) && WorldSound(w) && d != c && d in w.nodes && Shown(w, d, f)
    ensures d in v.nodes && Shown(v, d, f)
  {
    hide Client.Next, InStep, PercentsOf, ClientOk;
    ClientStepShape(setup, w, c, s, v);
    assert NodeSound(w, c, w.nodes[c]);
    assert w.nodes[d] == v.nodes[d];
  }

  lemma ClientStepShown(setup: Setup, w: World, c: Uuid, s: ClientStep, v: World, f: Uuid)
    requires ClientStepTo(setup, w, c, s, v) && WorldSound(w) && WorldHonest(w, setup.digest, w) && AllShown(w, f)
    ensures AllShown(v, f)
  {
    hide Client.Next, WorldSound, WorldHonest, ClientEnabled, Shown;
    StepperShown(setup, w, c, s, v, f);
    ClientStepShape(setup, w, c, s, v);
    forall d | d in v.nodes
      ensures Shown(v, d, f)
    {
      if d != c { OthersShown(setup, w, c, s, v, f, d); }
    }
  }

  /** Every client holds and has printed what it had before; new ones start afresh. */
  predicate SameClients(w: World, v: World) {
    && v.started == w.started && v.completions == w.completions
    && w.nodes.Keys <= v.nodes.Keys
    && (forall c :: c in w.nodes ==> SameClient(w.nodes[c].client, v.nodes[c].client))
    && (forall c :: c in v.nodes && c !in w.nodes ==> v.nodes[c].client == FRESH_CLIENT)
  }

  predicate SameClient(a: ClientState, b: ClientState) {
    b.store == a.store && b.tasks == a.tasks && b.console == a.console
  }

  lemma SameClientsShown(w: World, v: World, f: Uuid)
    requires SameClients(w, v) && AllShown(w, f)
    ensures AllShown(v, f)
  {
    forall c | c in v.nodes
      ensures Shown(v, c, f)
    {
      if c in w.nodes {
        assert Shown(w, c, f) && SameClient(w.nodes[c].client, v.nodes[c].client);
      }
    }
  }

  lemma OtherStepSame(setup: Setup, w: World, s: Step, v: World)
    requires StepTo(setup, w, s, v) && !s.At?
    ensures SameClients(w, v)
  {
    hide R.Next;
  }

  lemma StepShown(setup: Setup, w: World, s: Step, v: World, f: Uuid)
    ensures StepTo(setup, w, s, v) && WorldSound(w) && WorldHonest(w, setup.digest, w) && AllShown(w, f)
            ==> AllShown(v, f)
  {
    hide WorldSound, WorldHonest, AllShown, ClientStepTo, SameClients;
    if StepTo(setup, w, s, v) && WorldSound(w) && WorldHonest(w, setup.digest, w) && AllShown(w, f) {
      if s.At? {
        ClientStepShown(setup, w, s.c, s.step, v, f);
      } else {
        OtherStepSame(setup, w, s, v);
        SameClientsShown(w, v, f);
      }
    }
  }

  // ---------- runs ----------

  lemma StepShownAt(setup: Setup, steps: seq<Step>, states: seq<World>, m: nat, f: Uuid)
    requires IsRun(setup, steps, states) && m < |steps|
    ensures AllShown(states[m], f) ==> AllShown(states[m + 1], f)
  {
    hide WorldSound, WorldHonest, AllShown, StepTo, Extends, IdsOk;
    RunFacts(setup, steps, states, m, m + 1);
    RunsHonest(setup, steps, states, m, m);
    StepShown(setup, states[m], steps[m], states[m + 1], f);
  }

  lemma RunsShown(setup: Setup, steps: seq<Step>, states: seq<World>, n: nat, f: Uuid)
    requires IsRun(setup, steps, states) && n <= |steps|
    ensures AllShown(states[n], f)
  {
    hide StepTo;
    var shown := w => AllShown(w, f);
    forall i | 0 <= i < n && shown(states[i])
      ensures shown(states[i + 1])
    {
      StepShownAt(setup, steps, states, i, f);
    }
    Along(shown, states, n);
  }

  lemma {:induction false} BeginningGrows(s: seq<nat>, t: seq<nat>, floor: nat)
    requires s <= t && NonDecreasing(t, floor)
    ensures NonDecreasing(s, floor)
  {
    if s != [] {
      BeginningGrows(s[1..], t[1..], s[0]);
    }
  }

  lemma WholeShape(len: nat)
    requires FitsU32(len)
    ensures 0 < |Whole(len)| <= 10 && NonDecreasing(Whole(len), 0) && Whole(len)[|Whole(len)| - 1] == 100
  {
    if len > 0 { ProgressBound(len); }
  }

  /** What the file's owner has printed about it is a beginning of the file's trace, and all of it once the task's loop
      has finished; for files whose chunk count fits 32 bits that is at most ten reports, in non-decreasing percentages,
      the last of them 100. Other clients have printed nothing about it. */
  predicate ReportsInOrder(w: World, c: Uuid, f: Uuid)
    requires f in w.started && c in w.nodes
  {
    var len := |w.started[f].bytes|;
    var client := w.nodes[c].client;
    var shown := PercentsOf(f, client.console);
    var finished := f in w.completions || (f in client.tasks && client.tasks[f].phase.AtComplete? && len > 0);
    if c != w.started[f].owner then shown == []
    else
      && shown <= Whole(len)
      && (finished ==> shown == Whole(len))
      && (FitsU32(len) ==> |shown| <= 10 && NonDecreasing(shown, 0))
      && (FitsU32(len) && finished ==> shown != [] && shown[|shown| - 1] == 100)
  }

  lemma ShownInOrder(w: World, c: Uuid, f: Uuid)
    requires f in w.started && c in w.nodes && Shown(w, c, f) && NodeSound(w, c, w.nodes[c])
    ensures ReportsInOrder(w, c, f)
  {
    assert Trace(0) == [];
    hide SenderTrace, NonDecreasing, PercentsOf;
    var len := |w.started[f].bytes|;
    if c == w.started[f].owner && FitsU32(len) {
      WholeShape(len);
      BeginningGrows(PercentsOf(f, w.nodes[c].client.console), Whole(len), 0);
    }
  }

  /** In every state of every run, for every file and every client. */
  lemma SenderReportsInOrder(setup: Setup, steps: seq<Step>, states: seq<World>, n: nat, c: Uuid, f: Uuid)
    requires IsRun(setup, steps, states) && n <= |steps| && f in states[n].started && c in states[n].nodes
    ensures ReportsInOrder(states[n], c, f)
  {
    hide StepTo, ReportsInOrder, Shown, NodeSound;
    RunsShown(setup, steps, states, n, f);
    RunsSound(setup, steps, states, n, n);
    ShownInOrder(states[n], c, f);
  }
}
