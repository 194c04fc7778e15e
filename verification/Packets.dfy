/** Packets after JSON decoding, reduced to the fields that routing and file transfer read. */
module Packets {
  import opened Basics

  const PROTOCOL_VERSION := "v3"

  datatype PacketKind = InitKind | HeartbeatKind | EventKind | AckKind | ErrorKind

  datatype EventType =
    | Text | Command | CommandResult | Json
    | FileOffer | FileAccept | FileReject | FileComplete | FileAbort

  datatype AckStatus = Accepted | Rejected

  datatype Endpoint = Endpoint(group: Option<string>, client: Option<string>)

  /** The metadata object; an absent field, a field of the wrong type and metadata that is no object all read as
      None. */
  datatype Metadata = Metadata(
    fileId: Option<Uuid>, fileName: Option<string>, fileSize: Option<u64>,
    sha256: Option<string>, chunkSize: Option<u64>, totalChunks: Option<u64>, savePath: Option<string>)

  datatype EventPacket = EventPacket(
    version: string, kind: PacketKind, requestId: RequestId,
    source: Option<Endpoint>, target: Option<Endpoint>, eventType: EventType, meta: Metadata)

  datatype AckPacket = AckPacket(
    version: string, kind: PacketKind, requestId: RequestId,
    source: Option<Endpoint>, target: Option<Endpoint>, refType: Option<EventType>, status: AckStatus)

  datatype ErrorCode =
    | InvalidMessage | UnsupportedVersion | DuplicateClientName | ClientNotFound | GroupNotFound
    | FileTooLarge | FileTransferNotAccepted | HeartbeatTimeout

  /** The error packet; only the over-limit error names a file. */
  datatype ErrorPacket = ErrorPacket(code: ErrorCode, fileId: Option<Uuid>)

  datatype Packet =
    | Event(event: EventPacket)
    | Ack(ack: AckPacket)
    | Error(error: ErrorPacket)
    | InitAck
    | HeartbeatAck

  /** One WebSocket message in either direction. */
  datatype WireMessage = TextFrame(packet: Packet) | BinaryFrame(bytes: seq<byte>) | CloseFrame

  /** The request id of packets the server makes up itself: fresh, and nothing ever refers to it. */
  const UNREFERENCED: RequestId := 0

  const NO_META := Metadata(None, None, None, None, None, None, None)

  function FileMeta(fileId: Uuid): Metadata {
    NO_META.(fileId := Some(fileId))
  }

  function EventFrom(source: Endpoint, target: Endpoint, requestId: RequestId, eventType: EventType, meta: Metadata)
    : EventPacket
  {
    EventPacket(PROTOCOL_VERSION, EventKind, requestId, Some(source), Some(target), eventType, meta)
  }

  function AckFrom(source: Endpoint, target: Endpoint, requestId: RequestId, status: AckStatus): AckPacket {
    AckPacket(PROTOCOL_VERSION, AckKind, requestId, Some(source), Some(target), Some(FileComplete), status)
  }
}
