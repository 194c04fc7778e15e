/** One file offered to one receiver, seen alone: the two ends, the relay's leg, and the file's messages in the
    four queues between them. */
module UnicastProtocol {
  import opened Basics

  datatype Msg = MOffer | MAccept | MReject | MAbort | MComplete | MAck | MRefused

  datatype Sender = NoEntry | Waiting | Sending | AwaitingAck

  /** The send task: not running, before `file_complete`, or between queueing it and recording its id. */
  datatype Task = Idle | Working | Gap

  datatype Receiver = Empty | Asked | Taking

  /** `completed`: a completion id was drawn; `early`: an ack was dispatched while the task was in its gap; `dropped`:
      the sender's entry was ended by its user, or by a reject, an abort or an error. */
  datatype FileView = FileView(
    sender: Sender, task: Task, receiver: Receiver,
    upS: seq<Msg>, downS: seq<Msg>, upR: seq<Msg>, downR: seq<Msg>,
    leg: bool, indexed: bool, completed: bool, early: bool, dropped: bool)

  datatype Act =
    | SenderAborts | SenderHears | TaskStops | TaskCompletes | TaskMarks
    | ReceiverHears(auto: bool) | ReceiverAccepts | ReceiverRejects | ReceiverAborts
    | RelayHearsSender | RelayHearsReceiver

  predicate Possible(v: FileView, a: Act) {
    match a
    case SenderAborts => v.sender != NoEntry
    case SenderHears => v.downS != []
    case TaskStops => v.task == Working && v.sender == NoEntry
    case TaskCompletes => v.task == Working
    case TaskMarks => v.task == Gap
    case ReceiverHears(_) => v.downR != []
    case ReceiverAccepts => v.receiver == Asked
    case ReceiverRejects => v.receiver == Asked
    case ReceiverAborts => v.receiver != Empty
    case RelayHearsSender => v.upS != []
    case RelayHearsReceiver => v.upR != []
  }

  predicate Drops(m: Msg) {
    m == MReject || m == MAbort || m == MRefused
  }

  /** An accept starts the task of a waiting entry; a reject, an abort or an error ends the entry; an ack ends it when
      its id has been recorded and is lost in the gap before. */
  function SenderHeard(v: FileView): FileView
    requires v.downS != []
  {
    var m := v.downS[0];
    var starts := m == MAccept && v.sender == Waiting;
    v.(downS := v.downS[1..],
       sender := if Drops(m) || (m == MAck && v.sender == AwaitingAck) then NoEntry
                 else if starts then Sending else v.sender,
       task := if starts then Working else v.task,
       early := v.early || (m == MAck && v.sender == Sending && v.task == Gap),
       dropped := v.dropped || (Drops(m) && v.sender != NoEntry))
  }

  function ReceiverHeard(v: FileView, auto: bool): FileView
    requires v.downR != []
  {
    var u := v.(downR := v.downR[1..]);
    match v.downR[0]
    case MOffer => if auto then u.(receiver := Taking, upR := u.upR + [MAccept]) else u.(receiver := Asked)
    case MReject | MAbort => u.(receiver := Empty)
    case MComplete => if v.receiver == Taking then u.(receiver := Empty, upR := u.upR + [MAck]) else u
    case MAccept | MAck | MRefused => u
  }

  lemma ReceiverHeardLocal(v: FileView, auto: bool)
    requires v.downR != []
    ensures var u := ReceiverHeard(v, auto);
            u == v.(downR := v.downR[1..], receiver := u.receiver, upR := u.upR)
  {
  }

  function RelayHeardSender(v: FileView): FileView
    requires v.upS != []
  {
    var u := v.(upS := v.upS[1..]);
    match v.upS[0]
    case MOffer => u.(leg := true, downR := u.downR + [MOffer])
    case MAbort => u.(leg := false, indexed := false, downR := u.downR + [MAbort])
    case MComplete => if v.leg then u.(indexed := true, downR := u.downR + [MComplete]) else u
    case _ => u
  }

  function RelayHeardReceiver(v: FileView): FileView
    requires v.upR != []
  {
    var u := v.(upR := v.upR[1..]);
    match v.upR[0]
    case MAccept => if v.leg then u.(downS := u.downS + [MAccept]) else u
    case MReject => u.(leg := false, indexed := false, downS := u.downS + [MReject])
    case MAbort => u.(leg := false, indexed := false, downS := u.downS + [MAbort])
    case MAck => u.(leg := v.leg && !v.indexed, indexed := false, downS := u.downS + [MAck])
    case _ => u
  }

  lemma RelayHeardCases(v: FileView)
    requires v.upS != []
    ensures v.upS[0] == MAbort ==>
              RelayHeardSender(v) == v.(upS := v.upS[1..], leg := false, indexed := false, downR := v.downR + [MAbort])
    ensures v.upS[0] == MComplete && v.leg ==>
              RelayHeardSender(v) == v.(upS := v.upS[1..], indexed := true, downR := v.downR + [MComplete])
    ensures v.upS[0] == MComplete && !v.leg ==> RelayHeardSender(v) == v.(upS := v.upS[1..])
  {
  }

  lemma RelayHeardBack(v: FileView)
    requires v.upR != []
    ensures v.upR[0] == MAccept && v.leg
            ==> RelayHeardReceiver(v) == v.(upR := v.upR[1..], downS := v.downS + [MAccept])
    ensures v.upR[0] == MAccept && !v.leg ==> RelayHeardReceiver(v) == v.(upR := v.upR[1..])
    ensures v.upR[0] == MReject || v.upR[0] == MAbort ==>
              RelayHeardReceiver(v)
                  == v.(upR := v.upR[1..], leg := false, indexed := false, downS := v.downS + [v.upR[0]])
    ensures v.upR[0] == MAck ==>
              RelayHeardReceiver(v)
                  == v.(upR := v.upR[1..], leg := v.leg && !v.indexed, indexed := false, downS := v.downS + [MAck])
  {
  }

  function Do(v: FileView, a: Act): FileView
    requires Possible(v, a)
  {
    match a
    case SenderAborts => v.(sender := NoEntry, upS := v.upS + [MAbort], dropped := true)
    case SenderHears => SenderHeard(v)
    case TaskStops => v.(task := Idle)
    case TaskCompletes => v.(task := Gap, upS := v.upS + [MComplete], completed := true)
    case TaskMarks => v.(task := Idle, sender := if v.sender == Sending then AwaitingAck else v.sender)
    case ReceiverHears(auto) => ReceiverHeard(v, auto)
    case ReceiverAccepts => v.(receiver := Taking, upR := v.upR + [MAccept])
    case ReceiverRejects => v.(receiver := Empty, upR := v.upR + [MReject])
    case ReceiverAborts => v.(receiver := Empty, upR := v.upR + [MAbort])
    case RelayHearsSender => RelayHeardSender(v)
    case RelayHearsReceiver => RelayHeardReceiver(v)
  }

  // ---------- the invariant ----------

  predicate HasEnd(s: seq<Msg>) {
    MReject in s || MAbort in s || MAck in s
  }

  /** Until the relay has taken the offer, nobody but the sender knows of the file. */
  predicate OfferFirst(v: FileView) {
    MOffer in v.upS ==>
      && v.upS[0] == MOffer && MOffer !in v.upS[1..]
      && !v.leg && v.downS == [] && v.upR == [] && v.downR == [] && v.receiver == Empty
      && v.task == Idle && !v.completed && (v.sender == NoEntry || v.sender == Waiting)
      && (v.sender == NoEntry ==> MAbort in v.upS)
  }

  /** The receiver hears the offer before anything else about the file, and once. */
  predicate OfferOnce(v: FileView) {
    MOffer in v.downR ==>
      v.downR[0] == MOffer && MOffer !in v.downR[1..] && v.receiver == Empty && v.upR == []
  }

  predicate Kinds(v: FileView) {
    && (forall m :: m in v.upS || m in v.downR ==> m == MOffer || m == MAbort || m == MComplete)
    && (forall m :: m in v.upR || m in v.downS ==> m == MAccept || m == MReject || m == MAbort || m == MAck)
  }

  predicate ReceiverDropped(v: FileView) {
    v.receiver == Empty && MOffer !in v.downR
  }

  /** While the leg stands, an end that has dropped the file has said so, and nobody has been told to drop it. */
  predicate LegStands(v: FileView) {
    v.leg ==>
      && (v.sender == NoEntry ==> MAbort in v.upS)
      && (ReceiverDropped(v) ==> HasEnd(v.upR))
      && !HasEnd(v.downS) && MAbort !in v.downR
      && (MComplete in v.downR || MAck in v.upR ==> v.indexed)
  }

  predicate AbortsAreLast(v: FileView) {
    && (MAbort in v.upS ==> v.sender == NoEntry)
    && (HasEnd(v.upR) ==> ReceiverDropped(v))
    && (v.indexed ==> v.leg)
    && (v.dropped ==> v.sender == NoEntry)
  }

  /** Once the leg is gone, each end has dropped the file or is about to hear that it must; or the ack came early. */
  predicate LegGone(v: FileView) {
    !v.leg && MOffer !in v.upS ==>
      && (ReceiverDropped(v) || MAbort in v.downR)
      && (v.sender == NoEntry || HasEnd(v.downS) || v.early)
  }

  predicate TaskInOrder(v: FileView) {
    && (v.sender == Waiting ==> v.task == Idle && !v.completed)
    && (v.task == Working ==> !v.completed)
    && (v.sender == AwaitingAck || v.task == Gap ==> v.completed)
    && (v.sender == Sending && v.completed ==> v.task == Gap)
    && (MComplete in v.upS || MComplete in v.downR || MAck in v.upR || MAck in v.downS ==> v.completed)
  }

  /** Completions and acks of the file that are under way or were dispatched early. */
  function Answers(v: FileView): nat {
    multiset(v.upS)[MComplete] + multiset(v.downR)[MComplete] + multiset(v.upR)[MAck] + multiset(v.downS)[MAck]
    + if v.early then 1 else 0
  }

  /** There is at most one of them, so an entry whose ack came early is never taken by an ack. */
  predicate OneAnswer(v: FileView) {
    && Answers(v) <= (if v.completed then 1 else 0)
    && (v.early && !v.dropped ==> v.sender == AwaitingAck || (v.sender == Sending && v.task == Gap))
  }

  predicate Inv(v: FileView) {
    && Kinds(v) && OfferFirst(v) && OfferOnce(v) && LegStands(v) && AbortsAreLast(v) && LegGone(v) && TaskInOrder(v)
    && OneAnswer(v)
  }

  /** Just offered. */
  predicate Fresh(v: FileView) {
    v == FileView(Waiting, Idle, Empty, [MOffer], [], [], [], false, false, false, false, false)
  }

  lemma FreshHolds(v: FileView)
    requires Fresh(v)
    ensures Inv(v)
  {
  }

  lemma Pop(s: seq<Msg>)
    requires s != []
    ensures s[0] in s && forall m :: m in s <==> m == s[0] || m in s[1..]
    ensures multiset(s) == multiset{s[0]} + multiset(s[1..])
  {
    assert s == [s[0]] + s[1..];
  }

  lemma Pushed(s: seq<Msg>, m: Msg)
    ensures multiset(s + [m]) == multiset(s) + multiset{m}
  {
  }

  lemma SenderKeeps(v: FileView, a: Act)
    requires Inv(v) && Possible(v, a) && (a.SenderAborts? || a.TaskStops? || a.TaskCompletes? || a.TaskMarks?)
    ensures Inv(Do(v, a))
  {
  }

  lemma SenderAnswered(v: FileView)
    requires Inv(v) && v.downS != []
    ensures OneAnswer(SenderHeard(v))
  {
    hide Kinds, OfferFirst, OfferOnce, LegStands, LegGone;
    Pop(v.downS);
  }

  lemma SenderHearsKeeps(v: FileView)
    requires Inv(v) && v.downS != []
    ensures Inv(SenderHeard(v))
  {
    hide OneAnswer;
    SenderAnswered(v);
    Pop(v.downS);
  }

  lemma ReceiverKeeps(v: FileView, a: Act)
    requires Inv(v) && Possible(v, a) && (a.ReceiverAccepts? || a.ReceiverRejects? || a.ReceiverAborts?)
    ensures Inv(Do(v, a))
  {
  }

  lemma ReceiverHearsOfferKeeps(v: FileView, auto: bool)
    requires Inv(v) && v.downR != [] && v.downR[0] == MOffer
    ensures Inv(ReceiverHeard(v, auto))
  {
    Pop(v.downR);
  }

  /** A completion becomes an ack, or nothing. */
  lemma ReceiverAnswers(v: FileView, auto: bool)
    requires Inv(v) && v.downR != [] && v.downR[0] == MComplete
    ensures OneAnswer(ReceiverHeard(v, auto))
  {
    hide Kinds, OfferFirst, OfferOnce, LegStands, AbortsAreLast, LegGone, TaskInOrder;
    Pop(v.downR);
    Pushed(v.upR, MAck);
    if v.receiver == Taking {
      assert Answers(ReceiverHeard(v, auto)) == Answers(v);
    }
  }

  lemma ReceiverHearsCompleteKeeps(v: FileView, auto: bool)
    requires Inv(v) && v.downR != [] && v.downR[0] == MComplete
    ensures Inv(ReceiverHeard(v, auto))
  {
    hide OneAnswer;
    ReceiverAnswers(v, auto);
    Pop(v.downR);
    assert MOffer !in v.downR;
  }

  lemma ReceiverHearsAbortKeeps(v: FileView, auto: bool)
    requires Inv(v) && v.downR != [] && v.downR[0] == MAbort
    ensures Inv(ReceiverHeard(v, auto))
  {
    Pop(v.downR);
    assert MOffer !in v.downR;
  }

  lemma ReceiverHearsKeeps(v: FileView, auto: bool)
    requires Inv(v) && v.downR != []
    ensures Inv(ReceiverHeard(v, auto))
  {
    hide Inv, ReceiverHeard;
    FirstKind(v);
    if v.downR[0] == MOffer {
      ReceiverHearsOfferKeeps(v, auto);
    } else if v.downR[0] == MComplete {
      ReceiverHearsCompleteKeeps(v, auto);
    } else {
      ReceiverHearsAbortKeeps(v, auto);
    }
  }

  lemma FirstKind(v: FileView)
    requires Inv(v) && v.downR != []
    ensures v.downR[0] == MOffer || v.downR[0] == MAbort || v.downR[0] == MComplete
  {
    assert v.downR[0] in v.downR;
  }

  lemma RelayHearsOfferKeeps(v: FileView)
    requires Inv(v) && v.upS != [] && v.upS[0] == MOffer
    ensures Inv(RelayHeardSender(v))
  {
    Pop(v.upS);
  }

  lemma RelayHearsLaterKeeps(v: FileView)
    requires Inv(v) && v.upS != [] && v.upS[0] != MOffer
    ensures Inv(RelayHeardSender(v))
  {
    Pop(v.upS);
    assert MOffer !in v.upS;
  }

  lemma RelayHearsAcceptKeeps(v: FileView)
    requires Inv(v) && v.upR != [] && v.upR[0] == MAccept
    ensures Inv(RelayHeardReceiver(v))
  {
    Pop(v.upR);
  }

  lemma RelayHearsEndKeeps(v: FileView)
    requires Inv(v) && v.upR != [] && v.upR[0] != MAccept
    ensures Inv(RelayHeardReceiver(v))
  {
    Pop(v.upR);
    var u := RelayHeardReceiver(v);
    assert HasEnd(v.upR) && !u.leg && HasEnd(u.downS);
  }

  /** Every act keeps the invariant: crossing aborts, rejects, accepts, completes and acks in any order. */
  lemma ActKeeps(v: FileView, a: Act)
    requires Inv(v) && Possible(v, a)
    ensures Inv(Do(v, a))
  {
    match a
    case SenderHears => SenderHearsKeeps(v);
    case ReceiverHears(auto) => ReceiverHearsKeeps(v, auto);
    case ReceiverAccepts => ReceiverKeeps(v, a);
    case ReceiverRejects => ReceiverKeeps(v, a);
    case ReceiverAborts => ReceiverKeeps(v, a);
    case RelayHearsSender => if v.upS[0] == MOffer { RelayHearsOfferKeeps(v); } else { RelayHearsLaterKeeps(v); }
    case RelayHearsReceiver => if v.upR[0] == MAccept { RelayHearsAcceptKeeps(v); } else { RelayHearsEndKeeps(v); }
    case _ => SenderKeeps(v, a);
  }

  predicate Silent(v: FileView) {
    v.upS == [] && v.downS == [] && v.upR == [] && v.downR == []
  }

  /** When no message about the file is under way and one end has dropped it, relay and receiver hold nothing for it,
      and the sender holds its entry exactly when the ack was dispatched before its id had been recorded and neither
      its user nor a reject, an abort or an error has ended it. */
  lemma SilenceMeansGone(v: FileView)
    requires Inv(v) && Silent(v)
    requires v.sender == NoEntry || v.receiver == Empty
    ensures !v.leg && !v.indexed && v.receiver == Empty
    ensures v.sender != NoEntry <==> v.early && !v.dropped
  {
  }
}
