/** The whole system: clients, their sockets and the relay as one state machine. A client's two queues are
    filled from one socket and dispatched independently; messages travel in order on every socket. */
module Protocol {
  import opened Basics
  import opened Packets
  import opened FileStore
  import opened Client
  import opened Sessions
  import opened Routing
  import opened Transfers
  import R = Relay

  /** What a file id stands for: who offers it to whom, and the bytes read when it was offered. */
  datatype Origin = Origin(owner: Uuid, from: Endpoint, to: Endpoint, bytes: seq<byte>)

  /** A client on one connection: its state and its JSON and binary queues. `reading` ends when the socket is closed
      from the other side, `alive` with a handler error or with the process; a reconnect is a new node with an empty
      table. */
  datatype Node = Node(cfg: Config, client: ClientState, inbound: seq<Packet>, frames: seq<seq<byte>>, reading: bool,
      alive: bool)

  /** History, read by no step: `started`, `completions` and `drawn` say which ids were drawn for what; `offered` which
      files the relay has had an offer of, and `routed` to whom it passed the first one on if that was a unicast;
      `early` which files had their ack dispatched before its id was recorded, and `dropped` whose sending entry was
      ended by the user's abort or by a reject, an abort or an error that names the file. */
  datatype World = World(
    relay: R.RelayState,
    nodes: map<Uuid, Node>,
    started: map<Uuid, Origin>,
    completions: map<Uuid, RequestId>,
    drawn: map<RequestId, Uuid>,
    offered: set<Uuid>,
    routed: map<Uuid, Uuid>,
    early: set<Uuid>,
    dropped: set<Uuid>)

  const INITIAL := World(R.FRESH_RELAY, map[], map[], map[], map[], {}, map[], {}, {})

  datatype Setup = Setup(server: R.ServerConfig, digest: seq<byte> -> string)

  datatype Step =
    | Connect(rec: SessionRecord, autoAccept: bool)
    | At(c: Uuid, step: ClientStep)
    | Say(c: Uuid, event: EventPacket)
    | Deliver(c: Uuid)
    | Forward(c: Uuid)
    | AtRelay(input: R.Input)
    | Die(c: Uuid)

  // ---------- a client's own steps ----------

  /** Packets and frames come from the heads of the queues; file ids and the request ids of offers and completes are
      fresh UUIDs; the offer's digest is the digest of the bytes read. */
  ghost predicate ClientEnabled(setup: Setup, w: World, c: Uuid, s: ClientStep) {
    && c in w.nodes && w.nodes[c].alive
    && Enabled(w.nodes[c].client, s)
    && match s
       case Start(f, rid, _, _, bytes, sha256, _, _) => f !in w.started && rid !in w.drawn
           && sha256 == setup.digest(bytes)
       case Complete(_, rid) => rid !in w.drawn
       case Receive(p, _, _, _) => w.nodes[c].inbound != [] && p == w.nodes[c].inbound[0]
       case ReceiveFrame(frame, _) => w.nodes[c].frames != [] && frame == w.nodes[c].frames[0]
       case Reconnect(_) => false
       case _ => true
  }

  function Popped(n: Node, s: ClientStep): Node {
    match s
    case Receive(_, _, _, _) => if n.inbound == [] then n else n.(inbound := n.inbound[1..])
    case ReceiveFrame(_, _) => if n.frames == [] then n else n.(frames := n.frames[1..])
    case _ => n
  }

  /** The node after a step; a handler error ends its session. */
  function Stepped(n: Node, s: ClientStep, r: Result<ClientState, HandlerError>): Node {
    match r
    case Ok(client) => Popped(n, s).(client := client)
    case Err(_) => Popped(n, s).(alive := false)
  }

  function OriginOf(cfg: Config, c: Uuid, s: ClientStep): Origin
    requires s.Start?
  {
    Origin(c, cfg.Identity(),
           Endpoint(Some(if s.targetGroup.Some? then s.targetGroup.value else cfg.group), s.targetClient), s.bytes)
  }

  /** A file whose `file_complete` is queued under this id but not yet recorded in the entry. */
  predicate InGap(client: ClientState, f: Uuid, rid: RequestId) {
    f in client.tasks && client.tasks[f].phase == AtMark(rid) && InState(client, f, Sending)
  }

  function GapFiles(client: ClientState, s: ClientStep): set<Uuid> {
    if s.Receive? && s.packet.Ack? && s.packet.ack.refType == Some(FileComplete)
    then set f | f in client.tasks && InGap(client, f, s.packet.ack.requestId) else {}
  }

  function Held(client: ClientState, f: Uuid): set<Uuid> {
    if HasOutgoing(client, f) then {f} else {}
  }

  function DropFiles(client: ClientState, s: ClientStep): set<Uuid> {
    match s
    case UserAbort(f, _) => Held(client, f)
    case Receive(Event(e), _, _, _) =>
      if (e.eventType == FileReject || e.eventType == FileAbort) && e.meta.fileId.Some?
      then Held(client, e.meta.fileId.value) else {}
    case Receive(Error(e), _, _, _) => if e.fileId.Some? then Held(client, e.fileId.value) else {}
    case _ => {}
  }

  function Recorded(w: World, c: Uuid, s: ClientStep): World
    requires c in w.nodes
  {
    match s
    case Start(f, rid, _, _, _, _, _, _) =>
      w.(started := w.started[f := OriginOf(w.nodes[c].cfg, c, s)], drawn := w.drawn[rid := f])
    case Complete(f, rid) => w.(completions := w.completions[f := rid], drawn := w.drawn[rid := f])
    case _ => w
  }

  ghost predicate ClientStepTo(setup: Setup, w: World, c: Uuid, s: ClientStep, v: World) {
    && ClientEnabled(setup, w, c, s)
    && var n := w.nodes[c];
       var m := Stepped(n, s, Client.Next(n.cfg, setup.digest, n.client, s));
       v == Recorded(w, c, s).(nodes := w.nodes[c := m],
                               early := w.early + GapFiles(n.client, s),
                               dropped := w.dropped + DropFiles(n.client, s))
  }

  /** At most the node of c is another. */
  predicate OthersSame(w: World, c: Uuid, v: World) {
    && c in v.nodes && v.nodes.Keys == w.nodes.Keys + {c}
    && forall d :: d in w.nodes && d != c ==> v.nodes[d] == w.nodes[d]
  }

  // ---------- sockets ----------

  function Queued(n: Node, m: WireMessage): Node {
    match m
    case TextFrame(p) => n.(inbound := n.inbound + [p])
    case BinaryFrame(bytes) => n.(frames := n.frames + [bytes])
    case CloseFrame => n.(reading := false)
  }

  ghost predicate DeliverTo(w: World, c: Uuid, v: World) {
    && c in w.nodes && w.nodes[c].reading && c in w.relay.outbound && w.relay.outbound[c] != []
    && var queue := w.relay.outbound[c];
       v == w.(relay := w.relay.(outbound := w.relay.outbound[c := queue[1..]]),
               nodes := w.nodes[c := Queued(w.nodes[c], queue[0])])
  }

  function InputFrom(c: Uuid, m: WireMessage): Option<R.Input> {
    match m
    case TextFrame(Event(e)) => Some(R.EventIn(c, e))
    case TextFrame(Ack(a)) => Some(R.AckIn(c, a))
    case BinaryFrame(bytes) => Some(R.BinaryIn(c, bytes))
    case _ => None
  }

  /** The one receiver of a unicast offer that the relay takes on. */
  function UnicastReceiver(cfg: R.ServerConfig, r: R.RelayState, i: R.Input): Option<(Uuid, Uuid)> {
    if i.EventIn? && i.c in r.sockets && i.event.eventType == FileOffer && i.event.meta.fileId.Some?
       && R.OfferLimits(cfg, i.event.meta, i.event.meta.fileId.value).Ok? && TargetClient(i.event.target).Some?
    then
      match ResolveUnicast(r.sessions, TargetGroup(r.sockets[i.c], i.event.target), TargetClient(i.event.target).value)
      case Ok(receiver) => Some((i.event.meta.fileId.value, receiver))
      case Err(_) => None
    else None
  }

  function OffersIn(m: WireMessage): set<Uuid> {
    if m.TextFrame? && m.packet.Event? && m.packet.event.eventType == FileOffer && m.packet.event.meta.fileId.Some?
    then {m.packet.event.meta.fileId.value} else {}
  }

  function Sent(n: Node): Node
    requires n.client.outbox != []
  {
    n.(client := n.client.(outbox := n.client.outbox[1..]))
  }

  /** The relay handles the oldest message a client has sent. */
  ghost predicate ForwardTo(setup: Setup, w: World, c: Uuid, v: World) {
    && c in w.nodes && c in w.relay.sockets && w.nodes[c].client.outbox != []
    && var i := InputFrom(c, w.nodes[c].client.outbox[0]);
       && i.Some?
       && var first := UnicastReceiver(setup.server, w.relay, i.value);
          v == w.(relay := R.Next(setup.server, w.relay, i.value),
                  nodes := w.nodes[c := Sent(w.nodes[c])],
                  offered := w.offered + OffersIn(w.nodes[c].client.outbox[0]),
                  routed := if first.Some? && first.value.0 !in w.offered
                            then w.routed[first.value.0 := first.value.1] else w.routed)
  }

  /** A new connection id is a fresh UUID; a refused init leaves no node. */
  ghost predicate ConnectTo(setup: Setup, w: World, rec: SessionRecord, autoAccept: bool, v: World) {
    && rec.connectionId !in w.nodes && R.Possible(w.relay, R.Init(rec))
    && v == w.(relay := R.HandleInit(w.relay, rec),
               nodes := if AddSession(w.relay.sessions, rec).Ok?
                        then w.nodes[rec.connectionId := Node(Config(rec.groupName, rec.clientName, autoAccept),
                                                              FRESH_CLIENT, [], [], true, true)]
                        else w.nodes)
  }

  /** Messages that are not about file transfer: chat, commands and their results. */
  predicate IsChat(e: EventPacket) {
    e.eventType == Text || e.eventType == Command || e.eventType == CommandResult || e.eventType == Json
  }

  ghost predicate StepTo(setup: Setup, w: World, s: Step, v: World) {
    match s
    case Connect(rec, autoAccept) => ConnectTo(setup, w, rec, autoAccept, v)
    case At(c, step) => ClientStepTo(setup, w, c, step, v)
    case Say(c, e) =>
      && c in w.nodes && w.nodes[c].alive && IsChat(e)
      && v == w.(nodes := w.nodes[c := w.nodes[c].(client := Send(w.nodes[c].client, Event(e)))])
    case Deliver(c) => DeliverTo(w, c, v)
    case Forward(c) => ForwardTo(setup, w, c, v)
    case AtRelay(i) =>
      && (i.Heartbeat? || i.Expired? || i.Closed? || i.WriterEnded?) && R.Possible(w.relay, i)
      && v == w.(relay := R.Next(setup.server, w.relay, i))
    case Die(c) => c in w.nodes && v == w.(nodes := w.nodes[c := w.nodes[c].(alive := false)])
  }

  /** A run: any number of clients, any interleaving of their sockets, queues and tasks. */
  ghost predicate IsRun(setup: Setup, steps: seq<Step>, states: seq<World>) {
    && |states| == |steps| + 1
    && states[0] == INITIAL
    && forall i :: 0 <= i < |steps| ==> StepTo(setup, states[i], steps[i], states[i + 1])
  }

  /** What the first state satisfies and every step keeps holds all along. */
  lemma {:induction false} Along(p: World -> bool, states: seq<World>, n: nat)
    requires n < |states| && p(states[0])
    requires forall i {:trigger p(states[i])} :: 0 <= i < n && p(states[i]) ==> p(states[i + 1])
    ensures p(states[n])
  {
    if n > 0 {
      Along(p, states, n - 1);
    }
  }
}
