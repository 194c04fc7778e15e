/** What holds of a client after any run: the table stays sound, entries are conserved,
    and an outgoing entry never starts a second send task. */
module ClientRuns {
  import opened Basics
  import opened Packets
  import opened ChunkCodec
  import opened Chunking
  import opened FileStore
  import opened Client

  lemma {:induction false} DrainLogCounts(order: seq<Uuid>, keys: set<Uuid>)
    requires Enumerates(order, keys)
    ensures forall e: StoreEvent :: DrainLog(order)[e] == if e.Drained? && e.fileId in keys then 1 else 0
  {
    if order != [] {
      var n := |order| - 1;
      var last := order[n];
      var rest := keys - {last};
      forall f | f in rest
        ensures f in order[..n]
      {
        var i :| 0 <= i < |order| && order[i] == f;
        assert order[..n][i] == f;
      }
      DrainLogCounts(order[..n], rest);
    } else {
      assert forall f :: f in keys ==> f in order;
    }
  }

  lemma PutKeeps(c: ClientState, f: Uuid, t: Transfer, event: StoreEvent)
    requires ClientOk(c) && t.Ok()
    requires (event == InsertedOffer(f) && t.state == PendingOffer)
             || (event == InsertedOutgoing(f) && t.state == WaitingAccept)
    ensures ClientOk(Put(c, f, t, event))
  {
    var d := Put(c, f, t, event);
    forall g: Uuid
      ensures Balanced(d, g) && OneTask(d, g)
    {
      assert Balanced(c, g) && OneTask(c, g);
    }
  }

  lemma TakeKeeps(c: ClientState, f: Uuid)
    requires ClientOk(c) && f in c.store
    ensures ClientOk(Take(c, f))
  {
    var d := Take(c, f);
    forall g: Uuid
      ensures Balanced(d, g) && OneTask(d, g)
    {
      assert Balanced(c, g) && OneTask(c, g);
    }
  }

  lemma MutateKeeps(c: ClientState, f: Uuid, t: Transfer)
    requires ClientOk(c) && f in c.store && t.Ok()
    requires t.state == WaitingAccept ==> c.store[f].state == WaitingAccept
    ensures ClientOk(Mutate(c, f, t))
  {
    var d := Mutate(c, f, t);
    forall g: Uuid
      ensures Balanced(d, g) && OneTask(d, g)
    {
      assert Balanced(c, g) && OneTask(c, g);
    }
  }

  /** Fields the invariant does not read may change. */
  lemma OthersKeep(c: ClientState, d: ClientState)
    requires ClientOk(c)
    requires d.store == c.store && d.tasks == c.tasks && d.log == c.log && d.spawns == c.spawns
    ensures ClientOk(d)
  {
    forall g: Uuid
      ensures Balanced(d, g) && OneTask(d, g)
    {
      assert Balanced(c, g) && OneTask(c, g);
    }
  }

  lemma TasksKeep(c: ClientState, d: ClientState)
    requires ClientOk(c)
    requires d.store == c.store && d.log == c.log && d.spawns == c.spawns
    requires d.tasks.Keys <= c.tasks.Keys && forall f :: f in d.tasks ==> TaskOk(d.tasks[f])
    ensures ClientOk(d)
  {
    forall g: Uuid
      ensures Balanced(d, g) && OneTask(d, g)
    {
      assert Balanced(c, g) && OneTask(c, g);
    }
  }

  /** The accept that starts a task moves the entry out of the only state that can start one. */
  lemma SpawnKeeps(c: ClientState, p: EventPacket)
    requires ClientOk(c) && OnAccept(c, p).Ok?
    ensures ClientOk(OnAccept(c, p).value)
  {
    var f := p.meta.fileId.value;
    var d := OnAccept(c, p).value;
    forall g: Uuid
      ensures Balanced(d, g) && OneTask(d, g)
    {
      assert Balanced(c, g) && OneTask(c, g);
    }
  }

  lemma AbortKeeps(cfg: Config, c: ClientState, f: Uuid, rid: RequestId)
    requires ClientOk(c)
    ensures ClientOk(Abort(cfg, c, f, rid))
  {
    if f in c.store {
      TakeKeeps(c, f);
      OthersKeep(Take(c, f), Abort(cfg, c, f, rid));
    }
  }

  lemma AcceptKeeps(cfg: Config, c: ClientState, f: Uuid, rid: RequestId)
    requires ClientOk(c)
    ensures ClientOk(AcceptPending(cfg, c, f, rid))
  {
    if InState(c, f, PendingOffer) {
      MutateKeeps(c, f, Incoming(c.store[f]));
      OthersKeep(Mutate(c, f, Incoming(c.store[f])), AcceptPending(cfg, c, f, rid));
    }
  }

  /** The over-size path leaves a broken entry inside the handler and drops it before returning. */
  lemma FrameKeeps(cfg: Config, c: ClientState, frame: seq<byte>, rid: RequestId)
    requires ClientOk(c) && OnFrame(cfg, c, frame, rid).Ok?
    ensures ClientOk(OnFrame(cfg, c, frame, rid).value)
  {
    var (h, payload) := Decode(frame).value;
    var f := h.fileId;
    if InState(c, f, Receiving) {
      var (u, r) := ApplyChunk(c.store[f], h, payload);
      ApplyChunkVerdict(c.store[f], h, payload);
      if r.Ok? {
        MutateKeeps(c, f, u);
      } else {
        var d := OnFrame(cfg, c, frame, rid).value;
        assert d.store == Take(c, f).store;
        TakeKeeps(c, f);
        OthersKeep(Take(c, f), d);
      }
    }
  }

  lemma OfferKeeps(cfg: Config, c: ClientState, p: EventPacket, savePath: string, rid: RequestId)
    requires ClientOk(c) && p.meta.fileId.Some?
    ensures ClientOk(OnOffer(cfg, c, p, savePath, rid).value)
  {
    var f := p.meta.fileId.value;
    PutKeeps(c, f, OfferedTransfer(cfg, p, savePath), InsertedOffer(f));
    AcceptKeeps(cfg, Put(c, f, OfferedTransfer(cfg, p, savePath), InsertedOffer(f)), f, rid);
  }

  lemma AckKeeps(c: ClientState, a: AckPacket, choice: Uuid)
    requires ClientOk(c) && DoneExpects(c, a, choice)
    ensures ClientOk(OnAck(c, a, choice))
  {
    if a.refType == Some(FileComplete) && WaitsForAck(c.store, choice, a.requestId) {
      TakeKeeps(c, choice);
      OthersKeep(Take(c, choice), OnAck(c, a, choice));
    }
  }

  lemma CompleteKeeps(cfg: Config, c: ClientState, p: EventPacket, digest: seq<byte> -> string)
    requires ClientOk(c) && p.meta.fileId.Some?
    ensures ClientOk(OnComplete(cfg, c, p, digest).value)
  {
    var f := p.meta.fileId.value;
    if InState(c, f, Receiving) {
      TakeKeeps(c, f);
      OthersKeep(Take(c, f), OnComplete(cfg, c, p, digest).value);
    }
  }

  lemma DroppedKeeps(c: ClientState, p: EventPacket)
    requires ClientOk(c) && p.meta.fileId.Some?
    ensures ClientOk(OnDropped(c, p).value)
  {
    if p.meta.fileId.value in c.store {
      TakeKeeps(c, p.meta.fileId.value);
    }
  }

  lemma DispatchKeeps(cfg: Config, digest: seq<byte> -> string, c: ClientState, p: Packet, savePath: string,
                      rid: RequestId, choice: Uuid)
    requires ClientOk(c) && PacketExpects(c, p, digest, choice)
    requires Dispatch(cfg, c, p, digest, savePath, rid, choice).Ok?
    ensures ClientOk(Dispatch(cfg, c, p, digest, savePath, rid, choice).value)
  {
    match p
    case Ack(a) => AckKeeps(c, a, choice);
    case Error(e) =>
      if e.fileId.Some? && HasOutgoing(c, e.fileId.value) { TakeKeeps(c, e.fileId.value); }
    case InitAck =>
    case HeartbeatAck =>
    case Event(e) =>
      match e.eventType {
        case FileOffer => OfferKeeps(cfg, c, e, savePath, rid);
        case FileAccept => SpawnKeeps(c, e);
        case FileReject => DroppedKeeps(c, e);
        case FileAbort => DroppedKeeps(c, e);
        case FileComplete => CompleteKeeps(cfg, c, e, digest);
        case _ =>
      }
  }

  lemma ReconnectKeeps(c: ClientState, order: seq<Uuid>)
    requires ClientOk(c) && Enumerates(order, c.store.Keys)
    ensures ClientOk(ClearForReconnect(c, order))
  {
    var d := ClearForReconnect(c, order);
    DrainLogCounts(order, c.store.Keys);
    forall g: Uuid
      ensures Balanced(d, g) && OneTask(d, g)
    {
      assert Balanced(c, g) && OneTask(c, g);
      assert d.log[Drained(g)] == c.log[Drained(g)] + if g in c.store then 1 else 0;
    }
  }

  lemma SendFrameKeeps(c: ClientState, f: Uuid)
    requires ClientOk(c) && f in c.tasks && c.tasks[f].phase.AtSend?
    requires c.tasks[f].phase.index * c.tasks[f].chunkSize < |c.tasks[f].bytes|
    ensures ProgressExpects(c, f) && ClientOk(TaskSend(c, f))
  {
    var d := TaskSend(c, f);
    var e := FrameQueued(c, f);
    TasksKeep(c, e);
    if HasOutgoing(c, f) {
      MutateKeeps(e, f, d.store[f]);
      OthersKeep(Mutate(e, f, d.store[f]), d);
    }
  }

  lemma MarkKeeps(c: ClientState, f: Uuid)
    requires ClientOk(c) && f in c.tasks && c.tasks[f].phase.AtMark?
    ensures ClientOk(TaskMark(c, f))
  {
    var d := TaskMark(c, f);
    var e := d.(store := c.store);
    TasksKeep(c, e);
    if f in c.store {
      MutateKeeps(e, f, d.store[f]);
      OthersKeep(Mutate(e, f, d.store[f]), d);
    }
  }

  /** Every step, whatever packet or frame arrives, keeps the client sound. */
  lemma StepKeeps(cfg: Config, digest: seq<byte> -> string, c: ClientState, s: ClientStep)
    requires ClientOk(c) && Enabled(c, s) && Next(cfg, digest, c, s).Ok?
    ensures ClientOk(Next(cfg, digest, c, s).value)
  {
    var d := Next(cfg, digest, c, s).value;
    match s
    case Start(f, rid, fileName, path, bytes, sha256, tg, tc) =>
      var t := d.store[f];
      PutKeeps(c, f, t, InsertedOutgoing(f));
      OthersKeep(Put(c, f, t, InsertedOutgoing(f)), d);
    case UserAccept(f, rid) => AcceptKeeps(cfg, c, f, rid);
    case UserReject(f, rid) =>
      if d != c {
        TakeKeeps(c, f);
        OthersKeep(Take(c, f), d);
      }
    case UserAbort(f, rid) => AbortKeeps(cfg, c, f, rid);
    case Receive(p, savePath, rid, choice) => DispatchKeeps(cfg, digest, c, p, savePath, rid, choice);
    case ReceiveFrame(frame, rid) => FrameKeeps(cfg, c, frame, rid);
    case Check(f) => TasksKeep(c, d);
    case SendFrame(f) =>
      IndexInFile(|c.tasks[f].bytes|, c.tasks[f].chunkSize, c.tasks[f].phase.index);
      SendFrameKeeps(c, f);
    case Complete(f, rid) => TasksKeep(c, d);
    case Mark(f) => MarkKeeps(c, f);
    case Reconnect(order) => ReconnectKeeps(c, order);
  }

  /** No handler's `expect` fails, and none reports that it did. */
  lemma NeverPanics(cfg: Config, digest: seq<byte> -> string, c: ClientState, s: ClientStep)
    requires Sound(c) && Enabled(c, s)
    ensures Next(cfg, digest, c, s) != Err(ExpectFailed)
  {
    SoundExpects(c, s, digest);
  }

  /** How a run can stand: going on, over (a handler error ended the session, or the step was not
      possible), or stopped by an `expect` that found nothing. */
  datatype Status = Running(client: ClientState) | Over | Panicked

  ghost function Run(cfg: Config, digest: seq<byte> -> string, steps: seq<ClientStep>): Status {
    if steps == [] then Running(FRESH_CLIENT)
    else
      var n := |steps| - 1;
      var before := Run(cfg, digest, steps[..n]);
      if !before.Running? then before
      else if !Enabled(before.client, steps[n]) then Over
      else
        match Next(cfg, digest, before.client, steps[n])
        case Ok(c) => Running(c)
        case Err(e) => if e == ExpectFailed then Panicked else Over
  }

  /** However steps, packets and frames interleave: no `expect` ever fails, the table is sound, insertions of a
      file id equal what is present plus what was overwritten, taken out or drained, and at most one send task
      was started per outgoing insertion. */
  lemma {:induction false} RunsKeep(cfg: Config, digest: seq<byte> -> string, steps: seq<ClientStep>)
    ensures !Run(cfg, digest, steps).Panicked?
    ensures Run(cfg, digest, steps).Running? ==>
              var c := Run(cfg, digest, steps).client;
              && ClientOk(c)
              && forall f: Uuid :: Balanced(c, f) && c.spawns[f] <= c.log[InsertedOutgoing(f)]
  {
    if steps != [] {
      var n := |steps| - 1;
      RunsKeep(cfg, digest, steps[..n]);
      var before := Run(cfg, digest, steps[..n]);
      if before.Running? && Enabled(before.client, steps[n]) {
        NeverPanics(cfg, digest, before.client, steps[n]);
        if Next(cfg, digest, before.client, steps[n]).Ok? {
          StepKeeps(cfg, digest, before.client, steps[n]);
        }
      }
    }
    if Run(cfg, digest, steps).Running? {
      var c := Run(cfg, digest, steps).client;
      forall f: Uuid
        ensures Balanced(c, f) && c.spawns[f] <= c.log[InsertedOutgoing(f)]
      {
        assert steps == [] ==> c == FRESH_CLIENT;
        assert Balanced(c, f) && OneTask(c, f);
      }
    }
  }

  /** A reconnect empties the table and queues exactly one line for each entry that was in it. */
  lemma ReconnectReplaysOnce(c: ClientState, order: seq<Uuid>, f: Uuid)
    requires Enumerates(order, c.store.Keys)
    ensures var d := ClearForReconnect(c, order);
            && d.store == map[]
            && |d.replays| == |c.replays| + |c.store|
            && (f in c.store ==>
                  var line := Replay(c.store[f].view, f, c.store[f].fileName, Disconnected);
                  multiset(d.replays[|c.replays|..])[line] == 1)
  {
    var lines := Lines(c.store, order);
    assert ClearForReconnect(c, order).replays[|c.replays|..] == lines;
    EnumerationSize(order, c.store.Keys);
    if f in c.store {
      var k :| 0 <= k < |order| && order[k] == f;
      assert forall i :: 0 <= i < |lines| && i != k ==> lines[i].fileId != f;
      CountsOnce(lines, k);
    }
  }

  lemma CountsOnce(lines: seq<Replay>, k: nat)
    requires k < |lines| && forall i :: 0 <= i < |lines| && i != k ==> lines[i] != lines[k]
    ensures multiset(lines)[lines[k]] == 1
  {
    assert lines == lines[..k] + [lines[k]] + lines[k + 1..];
    assert lines[k] !in lines[..k] && lines[k] !in lines[k + 1..];
  }

  lemma {:induction false} EnumerationSize(order: seq<Uuid>, keys: set<Uuid>)
    requires Enumerates(order, keys)
    ensures |order| == |keys|
  {
    if order == [] {
      assert forall f :: f in keys ==> f in order;
      assert keys == {};
    } else {
      var n := |order| - 1;
      var last := order[n];
      forall f | f in keys - {last}
        ensures f in order[..n]
      {
        var i :| 0 <= i < |order| && order[i] == f;
        assert order[..n][i] == f;
      }
      EnumerationSize(order[..n], keys - {last});
    }
  }
}
