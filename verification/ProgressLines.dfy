/** The numbers in the progress lines of senders (src/state/outgoing.rs), over every run of the system: each line says
    how much of its file has been sent after some number of chunks. */
module ProgressLines {
  import opened Basics
  import opened Packets
  import opened Chunking
  import opened FileStore
  import opened SendLoop
  import opened Client
  import opened Protocol
  import opened DrawnIds
  import opened Delivery
  import opened SendProgress
  import R = Relay

  /** The bytes of the first chunks, the size and the percentage; for an empty file 0 of 0 and 100. */
  ghost predicate TrueReport(report: Report, len: nat) {
    || (len == 0 && report == Report(0, 0, 100))
    || exists k :: 1 <= k <= ChunkCount(len) && IsReportOf(report, len, k)
  }

  ghost predicate TrueLine(started: map<Uuid, Origin>, line: Line) {
    line.SendProgress? ==> line.fileId in started && TrueReport(line.report, |started[line.fileId].bytes|)
  }

  ghost predicate AllTrue(w: World) {
    forall c, line :: c in w.nodes && line in w.nodes[c].client.console ==> TrueLine(w.started, line)
  }

  /** The step printed nothing, or this one line. */
  predicate Prints(c: ClientState, d: ClientState, line: Line) {
    d.console == c.console || d.console == c.console + [line]
  }

  lemma FrameLine(c: ClientState, f: Uuid, len: nat)
    requires ProgressExpects(c, f) && f in c.tasks && c.tasks[f].phase.AtSend?
    requires c.tasks[f].phase.index * c.tasks[f].chunkSize < |c.tasks[f].bytes|
    requires c.tasks[f].chunkSize == CHUNK_SIZE && c.tasks[f].size == len == |c.tasks[f].bytes|
    requires HasOutgoing(c, f) ==> |c.store[f].outgoingBytes.value| == len
    ensures exists report :: TrueReport(report, len) && Prints(c, TaskSend(c, f), SendProgress(f, report))
  {
    var k := c.tasks[f].phase.index + 1;
    var report := Report(Min(k * CHUNK_SIZE, len), len, PercentAfter(len, k));
    IndexInFile(len, CHUNK_SIZE, k - 1);
    assert IsReportOf(report, len, k) && TrueReport(report, len);
    assert Prints(c, TaskSend(c, f), SendProgress(f, report));
  }

  lemma CompleteLine(cfg: Config, c: ClientState, f: Uuid, rid: RequestId)
    requires f in c.tasks && c.tasks[f].phase == AtComplete
    ensures c.tasks[f].size == 0 ==> Prints(c, TaskComplete(cfg, c, f, rid), SendProgress(f, Report(0, 0, 100)))
    ensures c.tasks[f].size != 0 ==> TaskComplete(cfg, c, f, rid).console == c.console
  {
  }

  /** No other step prints about progress. */
  lemma QuietSteps(cfg: Config, digest: Digest, c: ClientState, s: ClientStep)
    requires Enabled(c, s) && Client.Next(cfg, digest, c, s).Ok? && !s.SendFrame? && !s.Complete? && !s.Receive?
    ensures Client.Next(cfg, digest, c, s).value.console == c.console
  {
    hide ApplyChunk;
  }

  lemma ReceiveLine(cfg: Config, digest: Digest, c: ClientState, s: ClientStep)
    requires s.Receive? && PacketExpects(c, s.packet, digest, s.choice)
    requires Dispatch(cfg, c, s.packet, digest, s.savePath, s.rid, s.choice).Ok?
    ensures exists path, name :: Prints(c, Dispatch(cfg, c, s.packet, digest, s.savePath, s.rid, s.choice).value,
                                        SendDone(path, name))
  {
    hide CompleteStatus;
    var d := Dispatch(cfg, c, s.packet, digest, s.savePath, s.rid, s.choice).value;
    if s.packet.Ack? && d.console != c.console {
      var t := c.store[s.choice];
      assert Prints(c, d, SendDone(t.sourcePath.value, t.fileName));
    } else {
      assert Prints(c, d, SendDone("", ""));
    }
  }

  /** What a step of a client prints. */
  ghost predicate PrintsTruth(started: map<Uuid, Origin>, c: ClientState, d: ClientState) {
    exists line :: Prints(c, d, line) && TrueLine(started, line)
  }

  lemma SilentTruth(started: map<Uuid, Origin>, c: ClientState, d: ClientState)
    requires d.console == c.console
    ensures PrintsTruth(started, c, d)
  {
    assert Prints(c, d, SendDone("", "")) && TrueLine(started, SendDone("", ""));
  }

  /** What the file's task and entry say of its size. */
  lemma SizesHere(setup: Setup, w: World, c: Uuid, f: Uuid)
    requires c in w.nodes && WorldHonest(w, setup.digest, w) && WorldSound(w) && f in w.nodes[c].client.tasks
    ensures f in w.started
    ensures var client := w.nodes[c].client;
            var len := |w.started[f].bytes|;
            && client.tasks[f].size == len == |client.tasks[f].bytes| && client.tasks[f].chunkSize == CHUNK_SIZE
            && (HasOutgoing(client, f) ==>
                  client.store[f].outgoingBytes.Some? && |client.store[f].outgoingBytes.value| == len)
            && Sound(client)
  {
    var n := w.nodes[c];
    assert NodeHonest(w, setup.digest, n) && NodeSound(w, c, n);
    assert TaskHonest(w, setup.digest, f, n.client.tasks[f]);
    if f in n.client.store { assert EntryHonest(w, setup.digest, f, n.client.store[f]); }
  }

  lemma TaskPrints(setup: Setup, w: World, c: Uuid, s: ClientStep)
    requires ClientEnabled(setup, w, c, s) && (s.SendFrame? || s.Complete?)
    requires WorldHonest(w, setup.digest, w) && WorldSound(w)
    requires Client.Next(w.nodes[c].cfg, setup.digest, w.nodes[c].client, s).Ok?
    ensures PrintsTruth(w.started, w.nodes[c].client,
                        Client.Next(w.nodes[c].cfg, setup.digest, w.nodes[c].client, s).value)
  {
    hide WorldHonest, WorldSound, TaskSend, TaskComplete, IsReportOf, StoreOk;
    var n := w.nodes[c];
    var f := s.fileId;
    SizesHere(setup, w, c, f);
    var len := |w.started[f].bytes|;
    var d := Client.Next(n.cfg, setup.digest, n.client, s).value;
    if s.SendFrame? {
      FrameLine(n.client, f, len);
      var report :| TrueReport(report, len) && Prints(n.client, d, SendProgress(f, report));
      assert TrueLine(w.started, SendProgress(f, report));
    } else {
      CompleteLine(n.cfg, n.client, f, s.rid);
      if len == 0 {
        assert TrueLine(w.started, SendProgress(f, Report(0, 0, 100)));
      } else {
        SilentTruth(w.started, n.client, d);
      }
    }
  }

  lemma StepPrints(setup: Setup, w: World, c: Uuid, s: ClientStep)
    requires ClientEnabled(setup, w, c, s) && WorldHonest(w, setup.digest, w) && WorldSound(w)
    requires Client.Next(w.nodes[c].cfg, setup.digest, w.nodes[c].client, s).Ok?
    ensures PrintsTruth(w.started, w.nodes[c].client,
                        Client.Next(w.nodes[c].cfg, setup.digest, w.nodes[c].client, s).value)
  {
    hide WorldHonest, WorldSound, Dispatch, PacketExpects;
    var n := w.nodes[c];
    var d := Client.Next(n.cfg, setup.digest, n.client, s).value;
    if s.SendFrame? || s.Complete? {
      TaskPrints(setup, w, c, s);
    } else if s.Receive? {
      ReceiveLine(n.cfg, setup.digest, n.client, s);
      var path, name :| Prints(n.client, d, SendDone(path, name));
      assert TrueLine(w.started, SendDone(path, name));
    } else {
      QuietSteps(n.cfg, setup.digest, n.client, s);
      SilentTruth(w.started, n.client, d);
    }
  }

  lemma TruthLasts(w: World, v: World, line: Line)
    requires forall f :: f in w.started ==> f in v.started && v.started[f] == w.started[f]
    ensures TrueLine(w.started, line) ==> TrueLine(v.started, line)
  {
  }

  lemma ClientStepTrue(setup: Setup, w: World, c: Uuid, s: ClientStep, v: World)
    requires ClientStepTo(setup, w, c, s, v) && WorldSound(w) && WorldHonest(w, setup.digest, w) && AllTrue(w)
    ensures AllTrue(v)
  {
    hide Client.Next, WorldSound, WorldHonest, TrueLine, Enabled;
    ClientStepShape(setup, w, c, s, v);
    StartsStay(setup, w, c, s, v);
    var r := Client.Next(w.nodes[c].cfg, setup.digest, w.nodes[c].client, s);
    if r.Ok? { StepPrints(setup, w, c, s); }
    forall d, line | d in v.nodes && line in v.nodes[d].client.console
      ensures TrueLine(v.started, line)
    {
      TruthLasts(w, v, line);
      if line !in w.nodes[d].client.console {
        var shown :| Prints(w.nodes[c].client, r.value, shown) && TrueLine(w.started, shown);
        assert line == shown;
      }
    }
  }

  lemma StartsStay(setup: Setup, w: World, c: Uuid, s: ClientStep, v: World)
    requires ClientStepTo(setup, w, c, s, v)
    ensures forall f :: f in w.started ==> f in v.started && v.started[f] == w.started[f]
  {
    hide Client.Next;
    ClientStepShape(setup, w, c, s, v);
  }

  lemma SameClientsTrue(w: World, v: World)
    requires SameClients(w, v) && AllTrue(w)
    ensures AllTrue(v)
  {
    forall c, line | c in v.nodes && line in v.nodes[c].client.console
      ensures TrueLine(v.started, line)
    {
      if c in w.nodes { assert SameClient(w.nodes[c].client, v.nodes[c].client); }
    }
  }

  lemma {:induction false} RunsTrue(setup: Setup, steps: seq<Step>, states: seq<World>, n: nat)
    requires IsRun(setup, steps, states) && n <= |steps|
    ensures AllTrue(states[n])
  {
    hide StepTo, WorldSound, WorldHonest, SameClients, AllTrue, Extends, IdsOk;
    if n == 0 {
      NothingPrinted();
    } else {
      var w, v := states[n - 1], states[n];
      RunsTrue(setup, steps, states, n - 1);
      RunFacts(setup, steps, states, n - 1, n);
      RunsHonest(setup, steps, states, n - 1, n - 1);
      StepTrue(setup, w, steps[n - 1], v);
    }
  }

  lemma NothingPrinted()
    ensures AllTrue(INITIAL)
  {
  }

  lemma StepTrue(setup: Setup, w: World, s: Step, v: World)
    requires StepTo(setup, w, s, v) && WorldSound(w) && WorldHonest(w, setup.digest, w) && AllTrue(w)
    ensures AllTrue(v)
  {
    hide WorldSound, WorldHonest, AllTrue, ClientStepTo, SameClients;
    if s.At? {
      ClientStepTrue(setup, w, s.c, s.step, v);
    } else {
      OtherStepSame(setup, w, s, v);
      SameClientsTrue(w, v);
    }
  }

  /** In every state of every run: each progress line any client has printed is about an offered file, and shows its
      size and the bytes and percentage of its first k chunks for some k, or 0 of 0 and 100 if it is empty. */
  lemma LinesAreTrue(setup: Setup, steps: seq<Step>, states: seq<World>, n: nat, c: Uuid, f: Uuid, report: Report)
    requires IsRun(setup, steps, states) && n <= |steps| && c in states[n].nodes
    requires SendProgress(f, report) in states[n].nodes[c].client.console
    ensures f in states[n].started && TrueReport(report, |states[n].started[f].bytes|)
  {
    hide StepTo;
    RunsTrue(setup, steps, states, n);
    assert TrueLine(states[n].started, SendProgress(f, report));
  }
}
