/** Where an event or an ack goes (crates/server/src/router.rs). */
module Routing {
  import opened Basics
  import opened Packets
  import opened Sessions

  datatype RouteMode = Unicast | Broadcast

  /** The packet with source and target filled in, and the connections it goes to. */
  datatype RouteResult = RouteResult(mode: RouteMode, packet: EventPacket, recipients: set<Uuid>)

  datatype AckRoute = AckRoute(packet: AckPacket, recipient: Uuid)

  function TargetGroup(sender: SessionRecord, target: Option<Endpoint>): string {
    if target.Some? && target.value.group.Some? then target.value.group.value else sender.groupName
  }

  function TargetClient(target: Option<Endpoint>): Option<string> {
    if target.Some? then target.value.client else None
  }

  function Addressed(sender: SessionRecord, p: EventPacket): EventPacket {
    p.(source := Some(sender.Endpoint()),
       target := Some(Endpoint(Some(TargetGroup(sender, p.target)), TargetClient(p.target))))
  }

  function RouteEvent(s: Sessions, sender: SessionRecord, p: EventPacket): Result<RouteResult, ServerError> {
    if p.version != PROTOCOL_VERSION then Err(UnsupportedVersionError(p.version))
    else if p.kind != EventKind then Err(InvalidPacketKindError)
    else
      var group := TargetGroup(sender, p.target);
      match TargetClient(p.target)
      case Some(name) =>
        (match ResolveUnicast(s, group, name)
         case Ok(c) => Ok(RouteResult(Unicast, Addressed(sender, p), {c}))
         case Err(e) => Err(e))
      case None =>
        (match ResolveBroadcast(s, group, sender.connectionId)
         case Ok(cs) => Ok(RouteResult(Broadcast, Addressed(sender, p), cs))
         case Err(e) => Err(e))
  }

  function RouteAck(s: Sessions, sender: SessionRecord, a: AckPacket): Result<AckRoute, ServerError> {
    if a.version != PROTOCOL_VERSION then Err(UnsupportedVersionError(a.version))
    else if a.kind != AckKind then Err(InvalidPacketKindError)
    else
      var group := TargetGroup(sender, a.target);
      match TargetClient(a.target)
      case None => Err(NoClient(group, ""))
      case Some(name) =>
        match ResolveUnicast(s, group, name)
        case Err(e) => Err(e)
        case Ok(c) => Ok(AckRoute(a.(source := Some(sender.Endpoint()),
            target := Some(Endpoint(Some(group), Some(name)))), c))
  }

  /** Who gets an event, told by the flat set of live connections alone: the holder of the target name, or every
      member of the target group but the sender; and the errors say exactly when there is no such member or group. */
  lemma EventRefinesFlat(s: Sessions, sender: SessionRecord, p: EventPacket)
    requires Coherent(s) && p.version == PROTOCOL_VERSION && p.kind == EventKind
    ensures var group := TargetGroup(sender, p.target);
            var known := exists c :: c in Flat(s) && Flat(s)[c].group == group;
            match TargetClient(p.target)
            case None =>
              RouteEvent(s, sender, p) ==
                if known
                   then Ok(RouteResult(Broadcast, Addressed(sender, p), GroupOthers(s, group, sender.connectionId)))
                else Err(NoGroup(group))
            case Some(name) =>
              match RouteEvent(s, sender, p)
              case Ok(r) => r.packet == Addressed(sender, p)
                            && exists c :: c in Flat(s) && Flat(s)[c] == Name(group, name) && r.recipients == {c}
              case Err(e) => (e == NoGroup(group) && !known)
                             || (e == NoClient(group, name) && known
                                 && forall c :: c in Flat(s) ==> Flat(s)[c] != Name(group, name))
  {
    var group := TargetGroup(sender, p.target);
    match TargetClient(p.target)
    case None => BroadcastRefinesFlat(s, group, sender.connectionId);
    case Some(name) => UnicastRefinesFlat(s, group, name);
  }

  /** Recipients are always live connections. */
  lemma RecipientsLive(s: Sessions, sender: SessionRecord, p: EventPacket)
    requires Coherent(s) && RouteEvent(s, sender, p).Ok?
    ensures RouteEvent(s, sender, p).value.recipients <= s.connections.Keys
  {
    EventRefinesFlat(s, sender, p);
  }
}
