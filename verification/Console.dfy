/** The console's shared state as the source keeps it (src/state/mod.rs, src/state/file_handling.rs,
    src/state/outgoing.rs): a table of mutable transfer objects, taken out, put back and changed in place.
    Each method is proved to be the handler function of module Client on the table's values. */
module Console {
  import opened Basics
  import opened Packets
  import opened ChunkCodec
  import opened Chunking
  import opened FileStore
  import opened Client

  class ConsoleState {
    const config: Config
    var transfers: map<Uuid, LocalFileTransfer>
    var tasks: map<Uuid, SendTask>
    var outbox: seq<WireMessage>
    var reconnectReplays: seq<Replay>
    ghost var disk: seq<SavedFile>
    ghost var console: seq<Line>
    ghost var log: multiset<StoreEvent>
    ghost var spawns: multiset<Uuid>

    function Entries(): set<LocalFileTransfer>
      reads this
    {
      set f | f in transfers :: transfers[f]
    }

    /** Two file ids never share an entry. */
    ghost predicate Valid()
      reads this
    {
      forall f, g :: f in transfers && g in transfers && f != g ==> transfers[f] != transfers[g]
    }

    ghost function Table(): Store
      reads this, Entries()
    {
      map f | f in transfers :: transfers[f].Value()
    }

    ghost function State(): ClientState
      reads this, Entries()
    {
      ClientState(Table(), tasks, outbox, disk, reconnectReplays, console, log, spawns)
    }

    constructor (config: Config)
      ensures Valid() && this.config == config && State() == FRESH_CLIENT
    {
      this.config := config;
      transfers, tasks, outbox, reconnectReplays := map[], map[], [], [];
      disk, console, log, spawns := [], [], multiset{}, multiset{};
    }

    // ---------- table operations ----------

    method Insert(f: Uuid, t: LocalFileTransfer, ghost event: StoreEvent)
      requires Valid() && t !in Entries()
      modifies this`transfers, this`log
      ensures Valid() && transfers == old(transfers)[f := t]
      ensures State() == Put(old(State()), f, t.Value(), event)
    {
      ghost var before := State();
      log := log + multiset{event} + if f in transfers then multiset{Overwrote(f)} else multiset{};
      transfers := transfers[f := t];
      assert Table() == before.store[f := t.Value()];
    }

    /** The three typed takes: out of the table, looked at, and put back when in another state. */
    method TakePendingOffer(f: Uuid) returns (r: Option<Transfer>)
      requires Valid()
      modifies this`transfers, this`log
      ensures Valid()
      ensures r == if InState(old(State()), f, PendingOffer) then Some(old(State()).store[f]) else None
      ensures State() == if r.Some? then Take(old(State()), f) else old(State())
    {
      if f !in transfers {
        return None;
      }
      var transfer := transfers[f];
      ghost var before := State();
      assert before.store[f] == transfer.Value() && transfer.Value().state == transfer.state;
      hide LocalFileTransfer.Value;
      transfers := transfers - {f};
      if transfer.state == PendingOffer {
        log := log + multiset{TakenOut(f)};
        assert Table() == before.store - {f};
        return Some(transfer.Value());
      }
      transfers := transfers[f := transfer];
      assert transfers == old(transfers);
      return None;
    }

    method TakeIncoming(f: Uuid) returns (r: Option<Transfer>)
      requires Valid()
      modifies this`transfers, this`log
      ensures Valid()
      ensures r == if InState(old(State()), f, Receiving) then Some(old(State()).store[f]) else None
      ensures State() == if r.Some? then Take(old(State()), f) else old(State())
    {
      if f !in transfers {
        return None;
      }
      var transfer := transfers[f];
      ghost var before := State();
      assert before.store[f] == transfer.Value() && transfer.Value().state == transfer.state;
      hide LocalFileTransfer.Value;
      transfers := transfers - {f};
      if transfer.state == Receiving {
        log := log + multiset{TakenOut(f)};
        assert Table() == before.store - {f};
        return Some(transfer.Value());
      }
      transfers := transfers[f := transfer];
      assert transfers == old(transfers);
      return None;
    }

    method TakeOutgoing(f: Uuid) returns (r: Option<Transfer>)
      requires Valid()
      modifies this`transfers, this`log
      ensures Valid()
      ensures r == if HasOutgoing(old(State()), f) then Some(old(State()).store[f]) else None
      ensures State() == if r.Some? then Take(old(State()), f) else old(State())
    {
      if f !in transfers {
        return None;
      }
      var transfer := transfers[f];
      ghost var before := State();
      assert before.store[f] == transfer.Value();
      hide LocalFileTransfer.Value;
      transfers := transfers - {f};
      if transfer.Value().IsOutgoing() {
        log := log + multiset{TakenOut(f)};
        assert Table() == before.store - {f};
        return Some(transfer.Value());
      }
      transfers := transfers[f := transfer];
      assert transfers == old(transfers);
      return None;
    }

    /** `find_waiting_ack_by_request_id`: the hash map's entries are tried one by one until one waits for this id. */
    method FindWaitingAck(rid: RequestId) returns (r: Option<Uuid>)
      ensures match r
              case Some(f) => f in transfers && WaitsForAck(Table(), f, rid)
              case None => forall f :: f in transfers ==> !WaitsForAck(Table(), f, rid)
    {
      var todo := transfers.Keys;
      while todo != {}
        invariant todo <= transfers.Keys
        invariant forall f :: f in transfers && f !in todo ==> !WaitsForAck(Table(), f, rid)
        decreases |todo|
      {
        var f :| f in todo;
        assert Table()[f] == transfers[f].Value();
        if transfers[f].completionRequestId == Some(rid) && transfers[f].state == WaitingAck {
          return Some(f);
        }
        todo := todo - {f};
      }
      return None;
    }

    method Remove(f: Uuid) returns (t: Transfer)
      requires Valid() && f in transfers
      modifies this`transfers, this`log
      ensures Valid() && f in old(State()).store && t == old(State()).store[f] && State() == Take(old(State()), f)
    {
      hide LocalFileTransfer.Value;
      ghost var before := State();
      t := transfers[f].Value();
      assert before.store[f] == t;
      transfers := transfers - {f};
      log := log + multiset{TakenOut(f)};
      assert Table() == before.store - {f};
    }

    method TakeByCompletionRequestId(rid: RequestId) returns (r: Option<(Uuid, Transfer)>)
      requires Valid()
      modifies this`transfers, this`log
      ensures Valid()
      ensures r.None? ==> State() == old(State())
      ensures r.None? ==> forall f :: f in old(State()).store ==> !WaitsForAck(old(State()).store, f, rid)
      ensures r.Some? ==> WaitsForAck(old(State()).store, r.value.0, rid) && r.value.1 == old(State()).store[r.value.0]
      ensures r.Some? ==> State() == Take(old(State()), r.value.0)
    {
      hide LocalFileTransfer.Value;
      var found := FindWaitingAck(rid);
      if found.None? {
        return None;
      }
      var f := found.value;
      var transfer := Remove(f);
      return Some((f, transfer));
    }

    method UpdateOutgoingPhase(f: Uuid, expectedFrom: State, next: State, completion: Option<RequestId>)
      returns (r: Option<Transfer>)
      requires Valid()
      modifies Entries()
      ensures Valid() && State() == UpdatePhase(old(State()), f, expectedFrom, next, completion)
      ensures r.Some? <==> HasOutgoing(old(State()), f) && old(State()).store[f].state == expectedFrom
      ensures r.Some? ==> r.value == State().store[f]
    {
      if f !in transfers {
        return None;
      }
      ghost var before := State();
      assert before.store[f] == transfers[f].Value();
      var result := transfers[f].Transition(expectedFrom, next, completion);
      assert Table() == before.store[f := TransitionTo(before.store[f], expectedFrom, next, completion).0];
      assert State() == UpdatePhase(before, f, expectedFrom, next, completion);
      if result.Err? {
        return None;
      }
      return Some(transfers[f].Value());
    }

    method Queue(p: Packet)
      modifies this`outbox
      ensures State() == Send(old(State()), p)
    {
      outbox := outbox + [TextFrame(p)];
    }

    // ---------- sending ----------

    method StartOutgoingFile(f: Uuid, rid: RequestId, fileName: string, path: string, bytes: seq<byte>, sha256: string,
                             targetGroup: Option<string>, targetClient: Option<string>)
      requires Valid() && |bytes| < 0x1_0000_0000_0000_0000
      modifies this
      ensures Valid()
      ensures State()
              == StartOutgoing(config, old(State()), f, rid, fileName, path, bytes, sha256, targetGroup, targetClient)
    {
      var group := if targetGroup.Some? then targetGroup.value else config.group;
      var peer := if targetClient.Some? then targetClient.value else "*";
      var transfer := new LocalFileTransfer.ToSend(group, peer, fileName, path, |bytes|, TotalChunks(|bytes|),
          CHUNK_SIZE, sha256, bytes);
      ghost var before := State();
      Insert(f, transfer, InsertedOutgoing(f));
      assert State() == Put(before, f, transfer.Value(), InsertedOutgoing(f));
      Queue(Event(EventFrom(config.Identity(), Endpoint(Some(group), targetClient), rid, FileOffer,
            OfferMeta(f, fileName, bytes, sha256))));
    }

    method HandleOutgoingFileAccept(p: EventPacket) returns (r: Result<(), HandlerError>)
      requires Valid() && StoreOk(Table())
      modifies this, Entries()
      ensures Valid() && Outcome(r, State(), OnAccept(old(State()), p), old(State()))
    {
      if p.meta.fileId.None? {
        return Err(MissingFileId);
      }
      var f := p.meta.fileId.value;
      ghost var before := State();
      var transfer := UpdateOutgoingPhase(f, WaitingAccept, Sending, None);
      AcceptOutcome(before, p);
      if transfer.Some? {
        Spawn(f, TaskFor(transfer.value));
      }
      return Ok(());
    }

    method Spawn(f: Uuid, task: SendTask)
      modifies this`tasks, this`spawns
      ensures State() == old(State()).(tasks := old(tasks)[f := task], spawns := old(spawns) + multiset{f})
    {
      tasks := tasks[f := task];
      spawns := spawns + multiset{f};
    }

    method UpdateOutgoingProgress(f: Uuid, totalBytes: nat, chunkIndex: nat, chunkSize: nat)
      requires Valid() && StoreOk(Table())
      modifies this`console, Entries()
      ensures Valid()
      ensures var before := old(State());
              State() ==
                if HasOutgoing(before, f) then
                  var (t, report) := OutgoingProgress(before.store[f], totalBytes, chunkIndex, chunkSize);
                  Show(Mutate(before, f, t), ProgressLines(f, report))
                else before
    {
      if f !in transfers || !transfers[f].Value().IsOutgoing() {
        return;
      }
      ghost var before := State();
      assert Table()[f] == transfers[f].Value();
      var report := transfers[f].Progress(totalBytes, chunkIndex, chunkSize);
      assert State() == Mutate(before, f, OutgoingProgress(before.store[f], totalBytes, chunkIndex, chunkSize).0);
      PrintLines(ProgressLines(f, report));
    }

    /** `cprintln!`. */
    ghost method PrintLines(lines: seq<Line>)
      modifies this`console
      ensures State() == Show(old(State()), lines)
    {
      console := console + lines;
    }

    /** Between two suspension points of the send task: the look at the table. */
    method SendTaskCheck(f: Uuid)
      requires Valid() && f in tasks && tasks[f].phase.AtCheck? && tasks[f].chunkSize > 0
      modifies this`tasks
      ensures State() == TaskCheck(old(State()), f)
    {
      var task := tasks[f];
      if f !in transfers || !transfers[f].Value().IsOutgoing() {
        tasks := tasks - {f};
      } else if task.phase.next < DivCeil(|task.bytes|, task.chunkSize) {
        tasks := tasks[f := task.(phase := AtSend(task.phase.next))];
      } else {
        tasks := tasks[f := task.(phase := AtComplete)];
      }
    }

    method SendTaskFrame(f: Uuid)
      requires Valid() && StoreOk(Table())
      requires f in tasks && tasks[f].phase.AtSend? && tasks[f].phase.index * tasks[f].chunkSize < |tasks[f].bytes|
      modifies this`outbox, this`tasks, this`console, Entries()
      ensures Valid() && State() == TaskSend(old(State()), f)
    {
      var task := tasks[f];
      var i := task.phase.index;
      QueueFrame(f);
      UpdateOutgoingProgress(f, task.size, i + 1, task.chunkSize);
    }

    method QueueFrame(f: Uuid)
      requires f in tasks && tasks[f].phase.AtSend? && tasks[f].phase.index * tasks[f].chunkSize < |tasks[f].bytes|
      modifies this`outbox, this`tasks
      ensures State() == FrameQueued(old(State()), f)
    {
      var task := tasks[f];
      var i := task.phase.index;
      var chunk := ChunkAt(task.bytes, task.chunkSize, i);
      var frame := EncodeWithPayload(NewHeader(f, AsU32(i), task.totalChunks, AsU32(|chunk|)), chunk);
      outbox := outbox + [BinaryFrame(frame)];
      tasks := tasks[f := task.(phase := AtCheck(i + 1))];
    }

    method SendTaskComplete(f: Uuid, rid: RequestId)
      requires f in tasks && tasks[f].phase == AtComplete
      modifies this`outbox, this`tasks, this`console
      ensures State() == TaskComplete(config, old(State()), f, rid)
    {
      var task := tasks[f];
      PrintLines(EmptyFileLines(f, task.size));
      Queue(Event(EventFrom(config.Identity(), CompleteTarget(task.group, task.client), rid, FileComplete,
                            FileMeta(f).(fileSize := Some(task.size), sha256 := Some(task.sha256)))));
      tasks := tasks[f := task.(phase := AtMark(rid))];
    }

    method SendTaskMark(f: Uuid)
      requires Valid() && f in tasks && tasks[f].phase.AtMark?
      modifies this`tasks, Entries()
      ensures Valid() && State() == TaskMark(old(State()), f)
    {
      var _ := UpdateOutgoingPhase(f, Sending, WaitingAck, Some(tasks[f].phase.completion));
      tasks := tasks - {f};
    }

    method HandleAck(a: AckPacket) returns (ghost choice: Uuid)
      requires Valid() && StoreOk(Table())
      modifies this`transfers, this`log, this`console
      ensures Valid() && State() == OnAck(old(State()), a, choice)
      ensures a.refType == Some(FileComplete) ==> AckChoice(old(State()).store, a.requestId, choice)
    {
      choice := 0;
      if a.refType != Some(FileComplete) {
        return;
      }
      var taken := TakeByCompletionRequestId(a.requestId);
      if taken.Some? {
        choice := taken.value.0;
        var transfer := taken.value.1;
        if a.status == Accepted {
          PrintLines([SendDone(transfer.sourcePath.value, transfer.fileName)]);
        }
      }
    }

    method HandleServerError(e: ErrorPacket)
      requires Valid()
      modifies this`transfers, this`log
      ensures Valid() && State() == OnServerError(old(State()), e)
    {
      if e.fileId.Some? {
        var _ := TakeOutgoing(e.fileId.value);
      }
    }

    // ---------- receiving ----------

    method HandleFileOffer(p: EventPacket, savePath: string, rid: RequestId) returns (r: Result<(), HandlerError>)
      requires Valid()
      modifies this
      ensures Valid() && Outcome(r, State(), OnOffer(config, old(State()), p, savePath, rid), old(State()))
    {
      if p.meta.fileId.None? {
        return Err(MissingFileId);
      }
      var f := p.meta.fileId.value;
      var info := OfferedTransfer(config, p, savePath);
      var transfer := new LocalFileTransfer.FromOffer(info.peerGroup, info.peerClient, info.fileName, savePath,
                                                      info.bytesTotal, info.sha256, info.totalChunks);
      Insert(f, transfer, InsertedOffer(f));
      if config.autoAccept {
        var _ := AcceptFresh(f, transfer, rid);
      }
      return Ok(());
    }

    /** `send_accept_for_pending` on the entry just put in. */
    method AcceptFresh(f: Uuid, transfer: LocalFileTransfer, rid: RequestId) returns (accepted: bool)
      requires Valid() && f in transfers && transfers[f] == transfer
      requires transfer.state == PendingOffer ==> transfer.savePath.Some?
      modifies this`outbox, transfer
      ensures Valid() && State() == AcceptPending(config, old(State()), f, rid)
    {
      accepted := false;
      var result := transfer.Receive();
      if result.Ok? {
        Queue(Event(EventFrom(config.Identity(), Peer(transfer.Value()), rid, FileAccept,
              AcceptMeta(f, transfer.Value()))));
        accepted := true;
      }
    }

    method AcceptPendingOffer(f: Uuid, rid: RequestId) returns (accepted: bool)
      requires Valid() && StoreOk(Table())
      modifies this`outbox, Entries()
      ensures Valid() && State() == AcceptPending(config, old(State()), f, rid)
      ensures accepted <==> InState(old(State()), f, PendingOffer)
    {
      if f !in transfers {
        return false;
      }
      assert Table()[f] == transfers[f].Value();
      accepted := transfers[f].state == PendingOffer;
      var _ := AcceptFresh(f, transfers[f], rid);
    }

    method RejectPendingOffer(f: Uuid, rid: RequestId) returns (rejected: bool)
      requires Valid()
      modifies this`transfers, this`log, this`outbox
      ensures Valid() && State() == RejectPending(config, old(State()), f, rid)
      ensures rejected <==> InState(old(State()), f, PendingOffer)
    {
      var offer := TakePendingOffer(f);
      if offer.None? {
        return false;
      }
      Queue(Event(EventFrom(config.Identity(), Peer(offer.value), rid, FileReject, FileMeta(f))));
      return true;
    }

    /** `mutate_incoming_file` with `apply_chunk`. */
    method MutateIncoming(f: Uuid, h: ChunkHeader, payload: seq<byte>)
      returns (r: Result<Option<Report>, FailureReason>)
      requires Valid() && f in transfers && transfers[f].state == Receiving
      modifies Entries()
      ensures Valid() && f in old(State()).store
      ensures r == ApplyChunk(old(State()).store[f], h, payload).1
      ensures State() == Mutate(old(State()), f, ApplyChunk(old(State()).store[f], h, payload).0)
      ensures transfers[f].state == Receiving
    {
      ghost var before := State();
      assert before.store[f] == transfers[f].Value();
      r := transfers[f].Apply(h, payload);
      assert transfers[f].Value() == ApplyChunk(before.store[f], h, payload).0;
    }

    method HandleBinaryFrame(frame: seq<byte>, rid: RequestId) returns (r: Result<(), HandlerError>)
      requires Valid()
      modifies this`transfers, this`log, this`outbox, Entries()
      ensures Valid() && Outcome(r, State(), OnFrame(config, old(State()), frame, rid), old(State()))
    {
      var decoded := Decode(frame);
      if decoded.None? {
        return Err(InvalidBinaryChunk);
      }
      var (h, payload) := decoded.value;
      var f := h.fileId;
      if f !in transfers || transfers[f].state != Receiving {
        return Ok(());
      }
      var applied := MutateIncoming(f, h, payload);
      if applied.Err? {
        FailIncomingTransfer(f, rid);
      }
      return Ok(());
    }

    method FailIncomingTransfer(f: Uuid, rid: RequestId)
      requires Valid() && f in transfers && transfers[f].state == Receiving
      modifies this`transfers, this`log, this`outbox
      ensures Valid() && State() == Abort(config, old(State()), f, rid)
    {
      var pending := TakeIncoming(f);
      Queue(Event(EventFrom(config.Identity(), Peer(pending.value), rid, FileAbort, FileMeta(f))));
    }

    method HandleFileComplete(p: EventPacket, digest: seq<byte> -> string) returns (r: Result<(), HandlerError>)
      requires Valid() && StoreOk(Table())
      modifies this
      ensures Valid() && Outcome(r, State(), OnComplete(config, old(State()), p, digest), old(State()))
    {
      if p.meta.fileId.None? {
        return Err(MissingFileId);
      }
      var f := p.meta.fileId.value;
      ghost var before := State();
      var pending := TakeIncoming(f);
      if pending.None? {
        return Ok(());
      }
      var t := pending.value;
      assert before.store[f] == t && t.Ok();
      var status := CompleteStatus(t, digest);
      if status == Accepted {
        Write(SavedFile(f, t.savePath.value, t.incomingBytes));
      }
      Queue(Ack(AckFrom(config.Identity(), Peer(t), p.requestId, status)));
      return Ok(());
    }

    /** `fs::write`, which here always succeeds. */
    ghost method Write(file: SavedFile)
      modifies this`disk
      ensures State() == old(State()).(disk := old(disk) + [file])
    {
      disk := disk + [file];
    }

    /** `handle_file_abort` and `handle_file_reject`: one take for every state the entry can be in. */
    method HandleDropped(p: EventPacket) returns (r: Result<(), HandlerError>)
      requires Valid()
      modifies this`transfers, this`log
      ensures Valid() && Outcome(r, State(), OnDropped(old(State()), p), old(State()))
    {
      if p.meta.fileId.None? {
        return Err(MissingFileId);
      }
      var f := p.meta.fileId.value;
      var outgoing := TakeOutgoing(f);
      var offer := TakePendingOffer(f);
      var incoming := TakeIncoming(f);
      return Ok(());
    }

    /** The three takes in the order the user's abort tries them: one of them finds any entry. */
    method TakeInAnyState(f: Uuid) returns (r: Option<Transfer>)
      requires Valid()
      modifies this`transfers, this`log
      ensures Valid()
      ensures r == if f in old(State()).store then Some(old(State()).store[f]) else None
      ensures State() == if r.Some? then Take(old(State()), f) else old(State())
    {
      r := TakeOutgoing(f);
      if r.None? {
        r := TakeIncoming(f);
      }
      if r.None? {
        r := TakePendingOffer(f);
      }
    }

    method AbortTransfer(f: Uuid, rid: RequestId) returns (aborted: bool)
      requires Valid()
      modifies this`transfers, this`log, this`outbox
      ensures Valid() && State() == Abort(config, old(State()), f, rid)
      ensures aborted <==> f in old(State()).store
    {
      var t := TakeInAnyState(f);
      if t.None? {
        return false;
      }
      Queue(Event(EventFrom(config.Identity(), Peer(t.value), rid, FileAbort, FileMeta(f))));
      return true;
    }

    // ---------- reconnecting ----------

    /** `clear_file_transfer_state`: the table is emptied first, then one line is queued per entry that was in it. */
    method ClearFileTransferState() returns (ghost order: seq<Uuid>)
      requires Valid()
      modifies this`transfers, this`log, this`reconnectReplays
      ensures Valid() && Enumerates(order, old(transfers).Keys)
      ensures State() == ClearForReconnect(old(State()), order)
    {
      ghost var before := State();
      var drained := Drain();
      order := QueueFailures(drained);
      assert Values(drained) == before.store;
      log := log + DrainLog(order);
    }

    /** `drain_local_file_entries_for_reconnect`. */
    method Drain() returns (drained: map<Uuid, LocalFileTransfer>)
      modifies this`transfers
      ensures drained == old(transfers) && transfers == map[]
    {
      drained := transfers;
      transfers := map[];
    }

    method QueueFailures(drained: map<Uuid, LocalFileTransfer>) returns (ghost order: seq<Uuid>)
      modifies this`reconnectReplays
      ensures Enumerates(order, drained.Keys)
      ensures reconnectReplays == old(reconnectReplays) + Lines(Values(drained), order)
    {
      order := [];
      var todo := drained.Keys;
      ghost var store := Values(drained);
      while todo != {}
        modifies this`reconnectReplays
        invariant todo <= drained.Keys && Enumerates(order, drained.Keys - todo)
        invariant reconnectReplays == old(reconnectReplays) + Lines(store, order)
        decreases |todo|
      {
        var f :| f in todo;
        var transfer := drained[f];
        assert ReplayLine(store, f) == Replay(transfer.view, f, transfer.fileName, Disconnected);
        reconnectReplays := reconnectReplays + [Replay(transfer.view, f, transfer.fileName, Disconnected)];
        EnumerateOneMore(order, drained.Keys - todo, f);
        LinesOneMore(store, order, f);
        WithoutOneMore(drained.Keys, todo, f);
        order := order + [f];
        todo := todo - {f};
      }
      assert drained.Keys - todo == drained.Keys;
    }

    method ReplayAfterReconnect() returns (lines: seq<Replay>)
      modifies this`reconnectReplays
      ensures lines == old(reconnectReplays) && reconnectReplays == []
    {
      lines := reconnectReplays;
      reconnectReplays := [];
    }
  }

  /** A handler's return value and new state against its function: an error leaves the state alone. */
  ghost predicate Outcome(r: Result<(), HandlerError>, now: ClientState, spec: Result<ClientState, HandlerError>,
                          before: ClientState)
  {
    match spec
    case Ok(c) => r.Ok? && now == c
    case Err(e) => r == Err(e) && now == before
  }

  ghost function Values(entries: map<Uuid, LocalFileTransfer>): Store
    reads set f | f in entries :: entries[f]
  {
    map f | f in entries :: entries[f].Value()
  }

  /** An accept changes a client exactly when it finds the entry waiting, and then the task sends what the entry
      holds. */
  lemma AcceptOutcome(c: ClientState, p: EventPacket)
    requires StoreOk(c.store) && p.meta.fileId.Some?
    ensures var f := p.meta.fileId.value;
            var d := UpdatePhase(c, f, WaitingAccept, Sending, None);
            var waiting := HasOutgoing(c, f) && c.store[f].state == WaitingAccept;
            && (!waiting ==> d == c && OnAccept(c, p) == Ok(c))
            && (waiting ==> d.store[f].chunkSize.Some? && d.store[f].outgoingBytes.Some?
                            && OnAccept(c, p)
                               == Ok(d.(tasks := d.tasks[f := TaskFor(d.store[f])], spawns := d.spawns + multiset{f})))
  {
    var f := p.meta.fileId.value;
    if f in c.store && c.store[f].state != WaitingAccept {
      assert c.store[f := c.store[f]] == c.store;
    }
  }

  lemma WithoutOneMore<T>(all: set<T>, todo: set<T>, x: T)
    requires todo <= all && x in todo
    ensures all - (todo - {x}) == (all - todo) + {x}
  {
  }

  lemma LinesOneMore(store: Store, order: seq<Uuid>, f: Uuid)
    requires f in store && forall g :: g in order ==> g in store
    ensures Lines(store, order + [f]) == Lines(store, order) + [ReplayLine(store, f)]
  {
  }

  lemma EnumerateOneMore(order: seq<Uuid>, keys: set<Uuid>, f: Uuid)
    requires Enumerates(order, keys) && f !in keys
    ensures Enumerates(order + [f], keys + {f})
  {
  }
}
