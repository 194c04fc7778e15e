# File transfer of y2m-rs, modelled and proved

`y2m-rs` is a chat and remote-command tool with a relay server and console clients. This project models its file
transfer: a sender, a relay and any number of receivers, each with mutable tables, exchanging packets and binary chunk
frames over ordered sockets, and proves what the three of them keep together over every run. Around that core it covers
the chunk format, the session store at the grain of its locks, the progress lines, the debounce of command results, the
search for a free file name and the escape-sequence scanner.

## How the model is built

- **Clients.** `FileStore` has one transfer entry, as a value and as the mutable object; `Client` gives every handler
  as a function on the client's state; `Console` is the console state as the source keeps it, a map of mutable entries
  taken out, put back and changed in place, each method proved to be the function. `ClientRuns` proves what every run
  of a client keeps, `ClientAnswers` what it writes and answers, told by the packets it has received. A send task is
  cut where it can be interrupted: before each look at the table, before each frame, before `file_complete`, and
  between queueing `file_complete` and recording its id. What a client prints about progress and completed sends is
  part of its state; an `expect` that finds nothing is an outcome of its own, proved never to come about.
- **Relay.** `Sessions`, `Transfers` and `Routing` hold the two tables and the routing, with the classes `SessionStore`
  and `TransferRegistry`; `Relay` gives every handler of the server as a function on the whole relay state and
  `RelayServer` the handlers as they run, proved to be those functions. `RelayRuns` proves what every run of the relay
  keeps, whatever its clients send, and `RelayAnswers` what it answers to each message, told by the live connections
  and the legs alone. `SessionLocks` is the session store cut at its locks, `SweepRuns` the store under a clock, with
  heartbeats and sweeps.
- **The whole system.** `Protocol` puts any number of clients and the relay together. A client's socket is read into a
  JSON queue and a binary queue which are dispatched independently, so `file_complete` can overtake chunks. `DrawnIds`
  and `Delivery` prove delivery safety over every run. `UnicastProtocol` is the protocol of one file between two ends,
  alone; `FileMessages`, `UnicastEnds`, `UnicastRelay` and `Quiescence` prove that every step of the whole system is,
  for one unicast file, an act of that protocol or none, and so carry its invariant to the system. `Scenes` builds runs
  step by step: `FileArrives` those in which files arrive, for every file that can, and `EarlyAck` the one that leaves
  a sender waiting. `SendProgress` and `ProgressLines` prove what senders print about their progress, `Addresses` where
  their completions go.
- **Assumptions.** File ids, connection ids and the request ids of offers and completes are UUIDs and drawn fresh. The
  digest is a parameter, any function; no theorem uses more of it than that equal bytes have equal digests. One handler
  is one step; in `SessionLocks` one lock section is. Hash maps yield their entries in any order.

Where code and documentation differ the model follows the code. Two behaviours worth knowing: an empty file is offered
with a total of one chunk, sends none and is always rejected; and an ack that is dispatched before its id has been
recorded (`y2m-rs/src/state/outgoing.rs`, lines 163 and 164) leaves the sender waiting. Both are stated exactly below.

## Model

| member | source | states |
|---|---|---|
| `Delivery.DeliveredFilesAreTheOffered` | y2m-rs/src/state/file_handling.rs:151-167 | over every run of any number of clients and the relay, with each client's JSON and binary queues dispatched in any order: every file written under an id equals the bytes its sender read at offer time, and a receiving buffer is the join of the file's first `next_chunk_index` chunks whenever chunk indices fit 32 bits; nothing is assumed of the digest |
| `Delivery.CompletionIsExact` | y2m-rs/src/state/file_handling.rs:242-263 | in every state of every run, dispatching `file_complete` to a receiving client answers Ok and writes the file exactly when the file is not empty, its chunk count fits u32 and all its chunks were applied; otherwise Rejected and nothing is written; the entry is gone either way |
| `Delivery.VerdictExact` | y2m-rs/src/state/file_handling.rs:242-263 | the verdict on an entry of an honest offer, for files of every size: a file whose count exceeds u32 announces fewer chunks than it has and is never accepted |
| `Delivery.FirstChunkExactly` | y2m-rs/src/state/outgoing.rs:254-258 | the bound on the buffer claim is exact: only the real first chunk can be taken first, for all files of a length, if and only if the chunk count is at most 2^32; beyond it the index wraps and a later chunk passes for the first |
| `Delivery.FrameStepHonest` | y2m-rs/src/state/file_handling.rs:134-149 | a frame cut from an offered file is taken only as the next chunk of that file, and a frame that is refused drops the entry and sends an abort; whatever the client held before |
| `Delivery.RunsHonest` | y2m-rs/crates/client-core/src/core.rs:95-104 | every entry, task, packet and frame anywhere in the system speaks of the file that was offered under its id, in every state of every run |
| `FileArrives.EveryFileCanArrive` | y2m-rs/src/state/outgoing.rs:66-169 | for every file that is not empty, whose chunk count fits 32 bits and that is within the server's limits, offered by name or to the whole group: a run of the whole system that ends with the receiver having written exactly its bytes, the sender told so, and no entry, task, leg, index entry, queued or sent message left |
| `FileArrives.DeliverableExactly` | y2m-rs/src/state/outgoing.rs:47-56 | within the limits, some run ends with some client having written a file of these bytes if and only if they are not empty and their chunk count fits 32 bits |
| `ClientAnswers.WrittenAsAnnounced` | y2m-rs/src/state/file_handling.rs:151-167 | in every run of a client, whatever packets and frames arrive from whomever: each written file was written by a completion of it, under the save path, with the size and with the digest named by its latest offer before that completion |
| `Addresses.CompletionFollowsOffer` | y2m-rs/src/state/outgoing.rs:154-161 | in every run a task that completes a file queues exactly one message: that file's completion with the offered bytes' size and digest, addressed as the offer was, to the whole group after a broadcast or when the name is empty or `*` |
| `Quiescence.UnicastQuiescence` | y2m-rs/crates/server/src/ws.rs:262-332 | over every run, for a file offered to one named client and passed on to another connection: with both ends linked, once one end has dropped it and none of its messages is under way, the relay holds no leg and no index entry, the receiver no entry, and the sender one exactly when the ack was dispatched before its id was recorded and neither its user nor a reject, an abort or an error has ended the entry |
| `Quiescence.QuiescenceWithoutGap` | y2m-rs/src/state/outgoing.rs:163-168 | the same with queueing `file_complete` and recording its id as one step: then sender, relay and receiver all hold nothing |
| `Quiescence.GapFreeNeverEarly` | y2m-rs/src/state/outgoing.rs:163-164 | in a run where recording the id always follows queueing at once, no ack is ever dispatched early |
| `EarlyAck.AckedTooEarly` | y2m-rs/src/state/outgoing.rs:163-164 | whatever the digest and the limits that allow a 256 KiB chunk, there is a run of the whole system, given step by step, that ends with every queue of both ends quiet, both linked, leg, index entry and receiver's entry gone, and the sender's entry waiting for an ack that was already dispatched |
| `Quiescence.OwnerSteps` | y2m-rs/src/state/outgoing.rs:119-169 | each step of the offering client leaves the file as it was or as one possible act of the file's own protocol leaves it, whatever else the client does |
| `Quiescence.ReceiverSteps` | y2m-rs/src/state/file_handling.rs:65-167 | each step of the receiving client leaves the file as it was or as one possible act of the protocol leaves it: accept, reject, abort, a failing chunk, a completion |
| `Quiescence.OwnerForwards` | y2m-rs/crates/server/src/ws.rs:232-260 | when the relay takes a message of the sender's about the file, that is the protocol's act of hearing the sender and no other: where the message goes, and how leg and index change, is what that act says |
| `Quiescence.ReceiverForwards` | y2m-rs/crates/server/src/ws.rs:262-289 | the same for the receiver's accept, reject, abort and ack, and the act of hearing the receiver |
| `Quiescence.StepSettled` | y2m-rs/crates/server/src/ws.rs:232-332 | every step of the whole system, of any client or the relay, keeps a watched unicast file in order |
| `UnicastProtocol.ActKeeps` | y2m-rs/crates/server/src/ws.rs:291-332 | the invariant of one unicast file holds through every act: crossing aborts, rejects, accepts, completes and acks in any order |
| `UnicastProtocol.SilenceMeansGone` | y2m-rs/src/state/mod.rs:145-155 | when none of the file's messages is under way and one end dropped it, leg, index entry and receiver entry are gone, and the sender's entry stands exactly when an ack came early and nothing has ended the entry otherwise |
| `UnicastRelay.FileRemoved` | y2m-rs/crates/server/src/transfer.rs:117-138 | removing a file's legs removes its completion id from the index too |
| `UnicastRelay.FileCompleted` | y2m-rs/crates/server/src/transfer.rs:82-115 | a complete is taken exactly while the leg stands, and then the index leads to the file |
| `UnicastRelay.FileAcked` | y2m-rs/crates/server/src/transfer.rs:140-153 | an ack under the indexed id removes leg and entry; under any other id it removes neither |
| `UnicastRelay.SideEffectsOther` | y2m-rs/crates/server/src/ws.rs:291-332 | an event about another file never touches this file's leg or completion id |
| `FileMessages.OthersQuiet` | y2m-rs/src/state/file_handling.rs:65-239 | no client step about another file touches this file's entry or task or sends a message about it, completion ids included |
| `UnicastEnds.SenderHearsAck` | y2m-rs/src/state/file_handling.rs:212-223 | the ack that answers a file's completion takes that file's entry and no other out of the table, or, in the gap, nothing |
| `DrawnIds.RunsSound` | y2m-rs/src/state/mod.rs:99-203 | in every run every client's tables are sound, each file has one owner, each file gets at most one completion id, and no id changes its meaning |
| `DrawnIds.ExpectsHold` | y2m-rs/src/state/file_handling.rs:89-108 | in every state of every run, each value a handler's `expect` reads is there for whatever step comes next, and the step does not end in a failed `expect` |
| `SendProgress.SenderReportsInOrder` | y2m-rs/src/state/outgoing.rs:171-187 | in every state of every run, what a sender's interactive task has printed about a file is a beginning of the file's progress trace, and the whole trace once its loop has finished; for files whose chunk count fits u32 the percentages never decrease, are at most ten and then end at 100; nobody else prints about the file |
| `ProgressLines.LinesAreTrue` | y2m-rs/src/state/outgoing.rs:171-187 | in every state of every run each progress line any client has printed names an offered file and shows its size and the bytes and percentage of its first k chunks for some k, or 0 of 0 and 100 if it is empty |
| `DrawnIds.ClientStepOwns` | y2m-rs/src/state/outgoing.rs:119-134 | only its owner ever holds an outgoing entry or task of a file, and a file whose task has not finished has no completion id |
| `RelayRuns.ForwardingFollowsConsent` | y2m-rs/crates/server/src/ws.rs:356-392 | every binary frame the relay queues for a receiver is byte for byte the frame just sent, and the run contains its sender's offer routed to the receiver, then the receiver's accept, with nothing between the offer and the frame that removed or reset the leg |
| `RelayRuns.LegHistory` | y2m-rs/crates/server/src/transfer.rs:31-61 | every leg of every reachable registry was offered at some point of the run, undisturbed since, and if accepted then by its own receiver after the offer |
| `RelayRuns.RunsKeep` | y2m-rs/crates/server/src/ws.rs:111-159 | in every run each leg's receiver is registered and its sender's socket task still runs |
| `RelayRuns.CleanupExact` | y2m-rs/crates/server/src/ws.rs:142-159 | cleanup removes exactly the legs naming the connection, sends each registered other end exactly one abort per removed leg and nothing else, and repeating it changes nothing |
| `RelayRuns.OnlyFramesAreForwarded` | y2m-rs/crates/server/src/ws.rs:356-392 | only a binary input makes the relay queue a binary frame, and only for receivers of accepted legs of that sender |
| `RelayRuns.NoticeCount` | y2m-rs/crates/server/src/ws.rs:144-158 | the number of abort notices for a file to a peer is the number of removed legs between them, in whatever order the hash map yields the legs |
| `RelayAnswers.EventAnswered` | y2m-rs/crates/server/src/ws.rs:232-332 | every event: refused exactly for a wrong version or kind, an address nobody live answers to, an offer over a limit, an accept or complete without a leg, with the code for each, and then only the sender hears of it; otherwise each addressee with an open channel gains exactly this packet with source and target filled in, nobody else gains anything, and the legs change as the event says |
| `RelayAnswers.AckAnswered` | y2m-rs/crates/server/src/ws.rs:262-289 | every ack: refused for the wrong version, kind or address, else passed to the one named client; the ack of a completion ends the file its id leads to, any other leaves the registry alone |
| `RelayAnswers.FrameAnswered` | y2m-rs/crates/server/src/ws.rs:356-392 | every frame that decodes reaches each registered receiver with an accepted leg and an open channel, byte for byte and once, and nobody else; without such a receiver, or undecodable, the sender alone hears an error |
| `RelayAnswers.AcceptedMeansForwarded` | y2m-rs/crates/server/src/ws.rs:372-391 | whatever chunk it carries, a frame sent over an accepted leg is queued for its receiver if the channel is open |
| `RelayAnswers.LegsWithinLimits` | y2m-rs/crates/server/src/ws.rs:334-354 | in every run each leg goes back to an offer of its sender's that kept both limits |
| `RelayAnswers.InitAnswered` | y2m-rs/crates/server/src/session.rs:48-94 | a registration succeeds exactly when no live connection has the name, adds exactly that connection and greets it |
| `RelayAnswers.HeartbeatAnswered` | y2m-rs/crates/server/src/session.rs:140-159 | a heartbeat stamps that connection, in both maps, and no other, and is acked |
| `RelayAnswers.ExpiryAnswered` | y2m-rs/crates/server/src/ws.rs:122-133 | an expired connection hears of it, is closed and leaves the store, and no other does |
| `Transfers.RunsAgree` | y2m-rs/crates/server/src/transfer.rs:82-183 | in every run of registry methods that never re-offers a completed file, an index entry's file has a leg and all its legs carry that id |
| `Transfers.OfferKeepsIndexExactly` | y2m-rs/crates/server/src/transfer.rs:31-47 | an offer keeps that agreement if and only if it does not re-offer a completed file under another id |
| `Transfers.IndexInjective` | y2m-rs/crates/server/src/transfer.rs:106-114 | two completion ids never lead to the same file |
| `Transfers.DropKeepsIndex` | y2m-rs/crates/server/src/transfer.rs:155-183 | removing any set of legs with the ids they carry leaves no dangling index entry |
| `Transfers.AckKeepsIndex` | y2m-rs/crates/server/src/transfer.rs:140-153 | after an ack's removal the file has neither leg nor index entry |
| `Transfers.RemovedFileLeavesNothing` | y2m-rs/crates/server/src/transfer.rs:117-138 | after a removal by file id nothing in legs or index names the file |
| `Transfers.TransferRegistry.Offer` | y2m-rs/crates/server/src/transfer.rs:31-47 | the new table: the leg inserted, or overwritten and no longer accepted |
| `Transfers.TransferRegistry.Accept` | y2m-rs/crates/server/src/transfer.rs:49-61 | the leg marked accepted and returned, or None and no change when there is none |
| `Transfers.TransferRegistry.SetCompleteRequestId` | y2m-rs/crates/server/src/transfer.rs:82-115 | the three loops together re-key every leg of the file, drop their old ids from the index and enter the new one; false and no change without legs |
| `Transfers.TransferRegistry.RemoveKeys` | y2m-rs/crates/server/src/transfer.rs:155-183 | the removal loops take out exactly these legs and the ids they carried and return each removed record once |
| `Transfers.TransferRegistry.RemoveRequest` | y2m-rs/crates/server/src/transfer.rs:140-153 | the indexed file's legs and the entry removed; no change for an unknown id |
| `Transfers.TransferRegistry.RemoveFile` | y2m-rs/crates/server/src/transfer.rs:117-138 | all legs of the file removed with the ids they carried |
| `Transfers.TransferRegistry.RemoveConnection` | y2m-rs/crates/server/src/transfer.rs:155-183 | all legs naming the connection removed and returned, each once |
| `SessionLocks.NamesExclusive` | y2m-rs/crates/server/src/session.rs:77-93 | over every interleaving of lock sections: no group is empty, two live connections never share a name, and with no register or remove halfway the two maps describe the same connections |
| `SessionLocks.FinishRemoveEvicts` | y2m-rs/crates/server/src/session.rs:161-175 | the second half of a removal deletes the record of the connection being removed and no other holder, however late it runs |
| `SessionLocks.RunsKeep` | y2m-rs/crates/server/src/session.rs:77-175 | the lock-level invariant holds over every interleaving of register, remove and heartbeat sections |
| `SessionLocks.FinishTouchStamps` | y2m-rs/crates/server/src/session.rs:153-158 | a late heartbeat's second half changes no holder and no connection; at most the group copy's time |
| `SessionLocks.SectionsMakeOperations` | y2m-rs/crates/server/src/session.rs:140-175 | run back to back, the two sections of each operation are the whole operation on the store |
| `Sessions.RegisterKeeps` | y2m-rs/crates/server/src/session.rs:48-94 | a successful register keeps the two maps describing the same connections |
| `Sessions.RemoveKeeps` | y2m-rs/crates/server/src/session.rs:161-175 | a removal keeps them so and removes exactly that connection |
| `Sessions.TouchKeeps` | y2m-rs/crates/server/src/session.rs:140-159 | a heartbeat keeps them so and the connections stay the same |
| `Sessions.FlatInjective` | y2m-rs/crates/server/src/session.rs:80-85 | no two live connections have the same group and name |
| `Sessions.RegisterRefinesFlat` | y2m-rs/crates/server/src/session.rs:75-93 | registering fails exactly when a live connection has the name, and else adds this one name to the flat set |
| `Sessions.NamedAsRequested` | y2m-rs/crates/server/src/session.rs:56-64 | a requested name with a character outside Unicode's White_Space is used as it is; any other request falls back |
| `Sessions.BroadcastRefinesFlat` | y2m-rs/crates/server/src/session.rs:117-134 | a broadcast reaches exactly the live members of the group but the sender, and fails exactly when the group has no live member |
| `Sessions.UnicastRefinesFlat` | y2m-rs/crates/server/src/session.rs:96-115 | a unicast reaches the one live holder of the name; GroupNotFound and ClientNotFound say exactly what is missing |
| `Sessions.SessionStore.Register` | y2m-rs/crates/server/src/session.rs:48-94 | blank names are defaulted; the record enters both maps, or DuplicateClientName and no change |
| `Sessions.SessionStore.Unicast` | y2m-rs/crates/server/src/session.rs:96-115 | the holder's record, or the error that says whether group or name is missing |
| `Sessions.SessionStore.Broadcast` | y2m-rs/crates/server/src/session.rs:117-134 | each recipient exactly once, in whatever order the map yields them |
| `Sessions.SessionStore.TouchHeartbeat` | y2m-rs/crates/server/src/session.rs:140-159 | both copies' heartbeat times, and nothing else |
| `Sessions.SessionStore.RemoveConnection` | y2m-rs/crates/server/src/session.rs:161-175 | the record out of both maps, an emptied group with it; None and no change for an unknown id |
| `Routing.EventRefinesFlat` | y2m-rs/crates/server/src/router.rs:27-77 | routing told by the flat set of live connections alone: recipients for unicast and broadcast, source and target filled in, and each error exactly when there is no such group or member |
| `Routing.RecipientsLive` | y2m-rs/crates/server/src/router.rs:42-76 | recipients are always live connections |
| `Heartbeats.SteadyNeverExpires` | y2m-rs/crates/server/src/session.rs:177-188 | a connection whose heartbeats are at most max(timeout, 1) seconds apart is never found expired, whole-second truncation included |
| `SweepRuns.SilentIsRemoved` | y2m-rs/crates/server/src/ws.rs:118-135 | over every run of registrations, heartbeats, departures and sweeps on time: a connection still in the store beat or registered less than T + 1 + clamp(timeout, 1, 30) seconds ago, T being max(timeout, 1) |
| `SweepRuns.SteadyStays` | y2m-rs/crates/server/src/session.rs:177-188 | in such a run a connection that does not leave and is never silent for more than T seconds stays in the store under its name, through every sweep |
| `SweepRuns.SweepExactly` | y2m-rs/crates/server/src/ws.rs:118-135 | a sweep of such a run removes exactly the connections whose latest heartbeat is more than T whole seconds ago |
| `Heartbeats.TimeoutGuaranteeExactly` | y2m-rs/crates/server/src/session.rs:179-184 | the first guarantee holds if and only if the timeout survives the cast to i64; from 2^63 on everything expires at once |
| `RelayServer.AppState.HandleEventPacket` | y2m-rs/crates/server/src/ws.rs:232-260 | routing, side effects and sends, one recipient after another, end in the state of the event handler's function, error replies included |
| `RelayServer.AppState.HandleAckPacket` | y2m-rs/crates/server/src/ws.rs:262-289 | the state of the ack handler's function: registry cleaned on a `file_complete` ack, packet passed to the one recipient, or an error reply |
| `RelayServer.AppState.HandleBinaryMessage` | y2m-rs/crates/server/src/ws.rs:356-392 | the frame on the channels of exactly the registered receivers of accepted legs, or an error reply when nobody could be reached |
| `RelayServer.AppState.ApplySideEffects` | y2m-rs/crates/server/src/ws.rs:291-332 | the registry after the event's side effect, or the error and no change |
| `RelayServer.AppState.SendToEach` | y2m-rs/crates/server/src/ws.rs:250-252 | one message to each recipient with an open channel, and whether there was one |
| `RelayServer.AppState.HandleInitPacket` | y2m-rs/crates/server/src/ws.rs:185-209 | the record registered with the defaulted names, its channel opened and the init ack queued, or no change for a duplicate name |
| `RelayServer.AppState.HandleHeartbeatPacket` | y2m-rs/crates/server/src/ws.rs:211-230 | both copies of the record stamped and a heartbeat ack queued |
| `RelayServer.AppState.CleanupDisconnectedSession` | y2m-rs/crates/server/src/ws.rs:137-140 | the record out of the store, then its legs cleaned up with one notice per registered other end |
| `RelayServer.AppState.CleanupRelatedTransfers` | y2m-rs/crates/server/src/ws.rs:142-159 | the legs removed in some order and one notice per registered other end, as the cleanup function says |
| `RelayServer.AppState.ExpireConnection` | y2m-rs/crates/server/src/ws.rs:125-132 | unregistered, told, closed and cleaned up after; no change for a connection already gone |
| `RelayServer.AppState.Sweep` | y2m-rs/crates/server/src/ws.rs:122-133 | after a tick exactly the unexpired connections remain and every leg has two live ends |
| `ClientRuns.RunsKeep` | y2m-rs/src/state/mod.rs:99-203 | over every run of client steps, in which a handler whose `expect` finds nothing stops the run: no run is stopped so, view matches state, the completion id is set exactly while waiting for the ack, counters describe the buffer; insertions equal present + overwritten + taken once + drained; at most one send task per outgoing insertion |
| `ClientRuns.NeverPanics` | y2m-rs/src/state/file_handling.rs:212-223 | on sound tables no handler fails at an `expect`: save path, source path, offered bytes and peer are there where they are read |
| `ClientRuns.StepKeeps` | y2m-rs/src/state/file_handling.rs:65-239 | each single step, whatever packet or frame arrives, keeps that invariant |
| `ClientRuns.FrameKeeps` | y2m-rs/src/state/file_handling.rs:134-149 | the over-size path leaves a broken entry inside the handler and drops it before the handler returns |
| `ClientRuns.SpawnKeeps` | y2m-rs/src/state/outgoing.rs:127-132 | the accept that starts a task moves the entry out of the only state that can start one |
| `ClientRuns.ReconnectReplaysOnce` | y2m-rs/src/state/mod.rs:205-213 | a reconnect empties the table and queues exactly one line per entry that was in it |
| `ClientAnswers.EntryLifecycle` | y2m-rs/src/state/mod.rs:99-203 | every step of a sound client, for every entry: what enters one, what moves it from pending to receiving, waiting to sending, sending to waiting for the ack, and exactly what ends it; what it is about never changes |
| `ClientAnswers.CompletionAnswered` | y2m-rs/src/state/file_handling.rs:242-263 | for any receiving entry, whoever made it: one file is written and the ack accepts if and only if all announced chunks were counted, the size is the announced one and the digest is the announced one or none was; else nothing is written and the ack rejects; the entry is gone and the ack goes to its peer under the completion's id |
| `ClientAnswers.RepliesGoBack` | y2m-rs/src/state/file_handling.rs:89-119 | in every run each accept, reject and acknowledgement goes to the source of the latest offer of the file it is about |
| `ClientAnswers.OfferArrives` | y2m-rs/src/state/file_handling.rs:65-87 | whatever the two ends are called, the entry the sender makes and the one a receiver makes from the offer agree on name, size, digest and chunk count, and the receiver's peer is the sender |
| `ClientAnswers.ErrorsExactly` | y2m-rs/src/state/file_handling.rs:134-149 | a step fails exactly for a frame that does not decode and a file event without a file id, and with which error |
| `ClientAnswers.AckHeard` | y2m-rs/src/state/file_handling.rs:212-223 | the ack of a completion ends one entry that waits for it, if any, and prints path and name exactly when it accepts; any other ack does nothing |
| `FileStore.ApplyChunkVerdict` | y2m-rs/src/file_store.rs:197-240 | a chunk is taken exactly when total and index are the expected ones and the buffer still fits; only the over-size failure leaves the entry changed, and then broken |
| `FileStore.ChunkRefusals` | y2m-rs/src/file_store.rs:220-240 | which of several reasons a refused chunk is given, with the two numbers it names |
| `FileStore.ReceiverReport` | y2m-rs/src/file_store.rs:242-254 | when a taken chunk is reported and with which numbers: few chunks always, many every ten percent, at 100 and with the last announced one |
| `FileStore.SenderReport` | y2m-rs/src/state/outgoing.rs:171-187 | the same for the sender, and that nothing but the counters of the entry changes |
| `FileStore.LocalFileTransfer.FromOffer` | y2m-rs/src/file_store.rs:37-66 | a sound pending entry with these values |
| `FileStore.LocalFileTransfer.ToSend` | y2m-rs/src/file_store.rs:68-98 | a sound outgoing entry with these values |
| `FileStore.LocalFileTransfer.Receive` | y2m-rs/src/file_store.rs:100-109 | from a pending offer to receiving with everything cleared; an error and no change from any other state |
| `FileStore.LocalFileTransfer.Transition` | y2m-rs/src/file_store.rs:178-195 | the new phase and completion id, or the error that names the state found and no change |
| `FileStore.LocalFileTransfer.Apply` | y2m-rs/src/file_store.rs:197-254 | the entry after a chunk, the failure reason or the progress line printed |
| `FileStore.LocalFileTransfer.Progress` | y2m-rs/src/state/outgoing.rs:171-187 | bytes sent, percentage and whether a line is printed |
| `Console.ConsoleState.StartOutgoingFile` | y2m-rs/src/state/outgoing.rs:66-117 | the entry inserted, the offer queued to group or client |
| `Console.ConsoleState.HandleOutgoingFileAccept` | y2m-rs/src/state/outgoing.rs:119-134 | a task started exactly when the entry was waiting, with what the entry holds |
| `Console.ConsoleState.SendTaskCheck` | y2m-rs/src/state/outgoing.rs:254-263 | the look at the table before each chunk and at the end decides between stopping and going on |
| `Console.ConsoleState.SendTaskFrame` | y2m-rs/src/state/outgoing.rs:256-259 | one frame queued, progress recorded in the entry if it is still there |
| `Console.ConsoleState.SendTaskComplete` | y2m-rs/src/state/outgoing.rs:154-163 | `file_complete` queued to the client, or to the group for a broadcast |
| `Console.ConsoleState.SendTaskMark` | y2m-rs/src/state/outgoing.rs:164-166 | the completion id recorded if the entry is still sending |
| `Console.ConsoleState.TakePendingOffer` | y2m-rs/src/state/mod.rs:103-112 | taken exactly from the pending state, otherwise put back unchanged |
| `Console.ConsoleState.TakeIncoming` | y2m-rs/src/state/mod.rs:114-123 | taken exactly while receiving, otherwise put back unchanged |
| `Console.ConsoleState.TakeOutgoing` | y2m-rs/src/state/mod.rs:129-138 | taken exactly in the three outgoing states, otherwise put back unchanged |
| `Console.ConsoleState.TakeByCompletionRequestId` | y2m-rs/src/state/mod.rs:145-155 | an entry that waits for this id taken, or none exactly when none waits |
| `Console.ConsoleState.FindWaitingAck` | y2m-rs/src/state/mod.rs:235-241 | an entry that waits for this id, or None exactly when there is none |
| `Console.ConsoleState.UpdateOutgoingPhase` | y2m-rs/src/state/mod.rs:190-203 | the transition applied to the entry in place; Some exactly when it was possible |
| `Console.ConsoleState.HandleFileOffer` | y2m-rs/src/state/file_handling.rs:65-87 | the offer entered with the source's defaults for absent fields, accepted at once when a download directory is configured; an error without a file id |
| `Console.ConsoleState.AcceptPendingOffer` | y2m-rs/src/state/file_handling.rs:89-108 | a pending offer becomes receiving and its accept is queued; true exactly then |
| `Console.ConsoleState.RejectPendingOffer` | y2m-rs/src/state/file_handling.rs:110-119 | a pending offer leaves the table and its reject is queued; true exactly then |
| `Console.ConsoleState.HandleBinaryFrame` | y2m-rs/src/state/file_handling.rs:134-149 | the chunk applied to a receiving entry, or the entry dropped and an abort queued |
| `Console.ConsoleState.HandleFileComplete` | y2m-rs/src/state/file_handling.rs:151-167 | a receiving entry taken out, written exactly on Ok, and answered under the same request id |
| `Console.ConsoleState.HandleDropped` | y2m-rs/src/state/file_handling.rs:169-191 | an abort or reject takes the entry out whatever its state |
| `Console.ConsoleState.AbortTransfer` | y2m-rs/src/state/file_handling.rs:193-210 | the entry taken out whatever its state and its peer told; true exactly when there was one |
| `Console.ConsoleState.HandleAck` | y2m-rs/src/state/file_handling.rs:212-223 | the entry that waits for the acked id taken out; nothing for other acks |
| `Console.ConsoleState.HandleServerError` | y2m-rs/src/state/file_handling.rs:225-239 | the outgoing entry the error names taken out |
| `Console.ConsoleState.ClearFileTransferState` | y2m-rs/src/state/mod.rs:205-213 | the table emptied and one failure line queued per entry |
| `Console.ConsoleState.ReplayAfterReconnect` | y2m-rs/src/state/mod.rs:215-223 | all queued lines handed out once |
| `ChunkCodec.DecodeEncode` | y2m-rs/crates/common/src/lib.rs:218-264 | decoding an encoding gives header and payload back exactly when the size field is the payload's length, and nothing otherwise |
| `ChunkCodec.EncodeDecode` | y2m-rs/crates/common/src/lib.rs:232-264 | re-encoding any frame that decodes reproduces it except that the two reserved bytes become zero |
| `ChunkCodec.DecodeDeterminesFrame` | y2m-rs/crates/common/src/lib.rs:232-264 | frames that decode alike differ at most in the reserved bytes |
| `ChunkCodec.FrameLayout` | y2m-rs/crates/common/src/lib.rs:205-230 | the frame byte by byte: magic, version 3, type 1, two zeros, the file id, index, total and size with the least significant byte first, the payload |
| `ChunkCodec.NumberBytesNumber` | y2m-rs/crates/common/src/lib.rs:222-228 | reading the little-endian bytes of a number in range gives the number |
| `ChunkCodec.BytesNumberBytes` | y2m-rs/crates/common/src/lib.rs:240-262 | writing the number that bytes spell gives the bytes |
| `ChunkCodec.EncodeWithPayload` | y2m-rs/crates/common/src/lib.rs:218-230 | the field-by-field encoder builds the frame, and the frame decodes again |
| `Chunking.SplitJoin` | y2m-rs/src/state/outgoing.rs:254 | joining the chunks of a file gives the file |
| `Chunking.JoinSplit` | y2m-rs/src/state/outgoing.rs:254 | splitting joined pieces, all full but the last, gives the pieces |
| `Chunking.JoinTake` | y2m-rs/src/file_store.rs:208-214 | the first k chunks join to the first k * size bytes |
| `Chunking.ChunksShape` | y2m-rs/src/state/outgoing.rs:47 | the number of chunks is the rounded-up quotient the offer computes, and chunk i is the slice at i * size |
| `Chunking.TotalIsCount` | y2m-rs/src/state/outgoing.rs:47-56 | the announced total is the number of chunks if and only if the file is not empty and the count fits u32; for an empty file it is 1 with no chunk |
| `Chunking.TotalWraps` | y2m-rs/src/state/outgoing.rs:46-56 | the count is the least number of 256 KiB pieces that hold the file, and its last 32 bits are announced, or one if they are zero |
| `Chunking.IndicesFaithful` | y2m-rs/src/state/outgoing.rs:256 | every chunk travels under its own index if and only if there are at most 2^32 |
| `SendLoop.SendChunksWithProgress` | y2m-rs/src/file_flow.rs:77-100 | the frames queued are the file's chunks in order, the percentages printed are the trace's, at most ten, each line with the bytes sent and the size; one line and no frame for an empty file |
| `SendLoop.FramesInOrder` | y2m-rs/src/state/outgoing.rs:254-258 | the frames a sender queues are the file's pieces of 256 KiB in order, each under its own index modulo 2^32 |
| `SendLoop.SendChunksLoop` | y2m-rs/src/state/outgoing.rs:245-264 | the frames of exactly the chunks before the first look that finds the entry gone; true exactly when every look found it |
| `SendLoop.ProgressBound` | y2m-rs/src/file_flow.rs:90-96 | for a non-empty file whose count fits u32: between one and ten reports, percentages never decrease, the last is 100 |
| `SendLoop.FewAllReported` | y2m-rs/src/state/outgoing.rs:178 | up to ten chunks are all reported |
| `SendLoop.ReportsSpaced` | y2m-rs/src/state/outgoing.rs:178-179 | of more than ten chunks each report but the one at 100 is at least ten percent above the one before |
| `SendLoop.ReportsKeepUp` | y2m-rs/src/state/outgoing.rs:178-179 | whatever has been sent, the last report is less than ten percent behind, and at 100 it has been made |
| `SendLoop.SentBytesIsSum` | y2m-rs/src/state/outgoing.rs:173-176 | the byte count shown is the total length of the chunks sent |
| `SendLoop.NeverSaturates` | y2m-rs/src/state/outgoing.rs:177 | the saturating multiplication never saturates for such a file |
| `SendLoop.HundredOnlyLast` | y2m-rs/src/state/outgoing.rs:178-179 | 100% is reached exactly with the last chunk |
| `SendLoop.ReceiverTrace` | y2m-rs/src/file_store.rs:242-254 | on an honest in-order run every chunk is taken, the receiver prints exactly the sender's percentages and ends with the whole file |
| `CommandResults.NothingStranded` | y2m-rs/src/state/command_results.rs:36-88 | over every run of merges, timers, flushes and resets: batches and generations have the same keys, every batch has a pending timer with its current generation, and that timer prints the whole batch |
| `CommandResults.ExactlyOneFate` | y2m-rs/src/state/command_results.rs:91-140 | each merged result is in exactly one place: waiting in one batch, shown in one printed batch, replaced or discarded |
| `CommandResults.FatesAreFinal` | y2m-rs/src/state/command_results.rs:57-66 | a result is replaced only by the same client's next result in the same batch, discarded only by a reset, and what was shown stays shown |
| `CommandResults.FlushShowsAll` | y2m-rs/src/state/command_results.rs:78-88 | flushing everything prints every batch once and leaves neither batch nor generation |
| `CommandResults.FiredKeeps` | y2m-rs/src/state/command_results.rs:70-76 | a stale timer, even one whose generation number has been used again, strands no batch |
| `CommandResults.OnlyLastTimerPrints` | y2m-rs/src/state/command_results.rs:111-140 | while results keep arriving under a request id each earlier timer prints and changes nothing, and the last one prints all of them as one batch that is then gone |
| `CommandResults.BatchHolds` | y2m-rs/src/state/command_results.rs:36-68 | a batch after any number of arrivals holds each client's latest result and nothing else, under the first group name that says something; only the last arrival's generation is current; nothing else has changed |
| `CommandResults.CommandResultAggregator.MergeAndBumpGeneration` | y2m-rs/src/state/command_results.rs:36-68 | the result entered under its client, the group name fixed by the first that says something, the generation one higher and returned |
| `CommandResults.CommandResultAggregator.TakeIfCurrent` | y2m-rs/src/state/command_results.rs:70-76 | batch and generation out exactly when the generation is current |
| `CommandResults.CommandResultAggregator.TakeAllBatches` | y2m-rs/src/state/command_results.rs:78-88 | every batch once, in the map's order, and their generations gone |
| `UniquePath.EnsureUniquePath` | y2m-rs/src/util.rs:34-48 | the path itself when free, else the candidate with the smallest free suffix, found after at most as many candidates as paths exist; None exactly when every index of the range is taken |
| `UniquePath.FewPathsAlwaysFree` | y2m-rs/src/util.rs:39-46 | with at most 2^31 - 2 existing paths a free name is always found |
| `UniquePath.TakenCount` | y2m-rs/src/util.rs:39-46 | pigeonhole: a path and k taken candidates are k + 1 different existing paths |
| `UniquePath.CandidateInjective` | y2m-rs/src/util.rs:40-43 | different suffixes give different names |
| `UniquePath.CandidateNamed` | y2m-rs/src/util.rs:36-43 | `stem.ext` becomes `stem-7.ext`, a name without a dot or with only a leading one `name-7`, a path without a name `file-7`, and the number has no leading zero |
| `UniquePath.SplitWhole` | y2m-rs/src/util.rs:36-37 | stem and extension make up the name again |
| `UniquePath.DecimalReads` | y2m-rs/src/util.rs:41-42 | the decimal suffix spells its index |
| `TerminalScanner.SanitizeTerminalControls` | y2m-rs/src/util.rs:93-131 | the nested peeking loops compute the automaton's output with control characters filtered |
| `TerminalScanner.SkipOsc` | y2m-rs/src/util.rs:107-118 | the inner loop leaves the scanner where the automaton is back in the ground state: after BEL, after ESC and a backslash, or at the end |
| `TerminalScanner.SkipCsi` | y2m-rs/src/util.rs:99-106 | likewise after the final byte of a control sequence |
| `TerminalScanner.SanitizedIsClean` | y2m-rs/src/util.rs:128-130 | the result is a subsequence of the input without control characters other than newline and tab |
| `TerminalScanner.ControlSequenceGoes` | y2m-rs/src/util.rs:99-106 | ESC and `[`, whatever follows up to the first character from U+0040 to U+007E, and that one are dropped, and the rest is sanitized as if they had not been there |
| `TerminalScanner.SystemCommandGoes` | y2m-rs/src/util.rs:107-118 | so are ESC and `]` up to BEL or up to ESC and a backslash, whichever is first |
| `TerminalScanner.ShortEscapeGoes` | y2m-rs/src/util.rs:119-121 | so are ESC and any other single character |
| `TerminalScanner.UnendedGoes` | y2m-rs/src/util.rs:93-131 | a sequence without its end takes the rest of the text with it |
| `TerminalScanner.PlainStays` | y2m-rs/src/util.rs:126-130 | outside a sequence newline, tab and every character that is no control stay in place, and the controls go |
| `TerminalScanner.Idempotent` | y2m-rs/src/util.rs:93-131 | sanitizing twice is sanitizing once |
| `TerminalScanner.DistributesExactly` | y2m-rs/src/util.rs:93-131 | sanitizing piece by piece equals sanitizing the whole, for every continuation, if and only if the first piece ends outside every escape sequence |

## Left out

- Broadcast aborts: an abort of a broadcast is addressed to the client named `*`, which the relay cannot resolve, and one receiver's leaving ends the transfer for all; no guarantee is stated that everyone hears of it, and quiescence is stated for unicast.
- Quiescence towards a client whose name is `*`: its `file_complete` is sent to the whole group, so the theorem asks for an ordinary name.
- Quiescence.UnicastQuiescence: speaks of both ends still linked; when an end has gone, RelayRuns.CleanupExact says what the other end is told. A file sent to its sender's own connection is excluded: there the offer that comes back overwrites the outgoing entry under the same id, and one table holds both ends.
- Quiescence.QuiescenceWithoutGap: excludes a file sent to its sender's own connection, for the same reason.
- Console.ConsoleState.HandleFileComplete: creating the directory and writing the file always succeed; their errors end the session in the source.
- SendLoop.SendChunksLoop: the progress update after each frame is Console.ConsoleState.SendTaskFrame's, and the answers of the table are a parameter, since other tasks change it between two looks.
- FileArrives.EveryFileCanArrive: the runs it builds have two clients with fixed names, ids and paths; any bytes, any digest and any limits that allow the file.
- Client.StartOutgoing: file ids are fresh by assumption; an offer that repeats an id overwrites the entry, which ClientRuns.RunsKeep counts.
- Failing sends and disk errors: a closed outbound channel on the client side and a failing `fs::write` are not modelled; channels to the relay accept every message and writing succeeds.
- RelayServer.AppState.HandleInitPacket: the error reply to a refused init goes to a socket that never becomes a connection and is left out, as are messages before an init and a second init, which only draw an error reply.
- Lock-level interleaving inside registry methods and handlers: one registry method and one handler are one step; the window between the two locks of `set_complete_request_id_for_file` is outside the model.
- SweepRuns.SilentIsRemoved: assumes the sweeper's ticks come on time and the clock does not step back, takes a sweep as one step, and bounds timeouts by 2^63 - 1; beyond that Heartbeats.TimeoutGuaranteeExactly applies.
- Generations of the debounce are unbounded; the source's u64 would need 2^64 merges under one request id to overflow.
- UniquePath.EnsureUniquePath: the set of existing paths is fixed during the search, and a path is its directory and last component.
- Reconnecting in `Protocol` is a new connection with an empty table; what the old table's clearing does is ClientRuns.ReconnectReplaysOnce.
- The blocking `send file` command: its waits with timeouts; only its chunk loop is modelled.
- Timestamps of packets, content types, reasons in aborts and other fields that no file-transfer decision reads.
- JSON parsing, WebSocket and async plumbing, logging, printing other than the progress and completion lines, the line editor, command execution, sender metadata, configuration files.
- The snapshot of the table for display, which only copies and sorts.
- `auth-service` and `frontend-monorepo`: stubs and user interface.
