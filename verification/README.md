# A verified model of the multi-client Room server

The repository is a single-room game server in C++: coroutine sessions on one I/O thread decode a length-prefixed
byte stream into commands, one worker thread owns the Room and applies them, and the resulting events go back through
a registry into a bounded outbound queue per session. A load client and a metrics component go with it.

This project models the logic of that system in Dafny and proves what it promises, for every input and every
interleaving:

* **Bytes to packets.** `Bytes`, `PacketCodec`, `GameplayPayload`, `RoomEventEncoder`, `WireFormat`, `Framing`,
  `ReceiveBuffer`: the three big-endian integer forms agree, encoding and decoding are inverse in both directions, every
  verdict of the decoder has its exact condition on the bytes, and what a stream means does not depend on how it was
  split into reads.
* **One session.** `SessionSteps` gives every stretch of session code between two suspension points as a function on
  the session's fields; `Session` is the imperative code, proved equal to it; `SessionWriter` is what every operation
  keeps on the outbound side and `SessionInput` what received bytes ask for; `SessionLaw` is the session's answer to
  everything that can happen to it, field by field; `OutboundQueue` is the queue and its greedy batching.
* **The Room and its worker.** `Room`, `CloseableQueue`, `RoomWorker`: commands, events, the worker loop and the
  drain-then-join shutdown as a step system with the code each step runs.
* **The whole server.** `SessionRegistry` and `ServerSteps` put all sessions, the worker, the registry's locked
  sections and the stopping thread into one step system. `ServerMembership`, `ServerBroadcast` and `ServerInput` prove
  its invariants step by step; `ServerTheorems`, `ServerReactions`, `ServerInput`, `ServerLeaves`,
  `ServerDeliveries` and `ServerAttendance` state what follows for every run.
* **Around it.** `LoadClient`, `LoadClientMoves`, `LoadClientEntry`, `LoadClientProof` and `LoadClientProgress` are the
  load test's gates and ordered leaving; `Peak`, `BatchTokens`, `DeliveryTokens` and `ServerMetrics` are the metrics,
  `WriterMetrics` and `PostedMetrics` their use by the running server; `Latency` is the percentile summary.

A run is a sequence of steps from the initial state, each possible where it is taken (`Possible`, `State`). A theorem
about all runs is a lemma over an arbitrary such sequence.

## What the step system assumes

* One I/O thread: everything between two suspension points of a session is one step, except that a pass over several
  buffered packets is one step per packet, so that the worker and the stopping thread can come in between.
* Each section under a mutex is one step, and each atomic operation of a peak update is one step.
* Handlers posted to one session's executor run in the order they were posted.
* A read returns at most as many bytes as were asked for, and a write that fails has transferred at most what it was
  given; otherwise reads, writes and errors come in any order. A write or read error may come at any time.
* No exception and no allocation failure, except that the worker's event handler may throw in `RoomWorkerSteps`.
* Fewer than 2^64 connections, so that the acceptor's counter gives each session its own id.
* The session object may disappear whenever no posted handler, writer, pass or delivery needs it; this includes every
  moment the code allows.

## Findings

* `run()` does not look at `stopped_` again after a read has completed. A read that is resumed after the session was
  stopped, for example by a failed write, and that holds a Join is submitted to the Room, and the terminated session
  stays a player: `TerminatedSessionCanStayInRoom` is such a run. `StaysExactlyAfterLateJoin` shows, over all runs, that
  a stopped session's joined flag is set if and only if this happened and no Leave followed. `LeaveBalance` and
  `TerminatedSessionsHaveLeft` prove the design's promise of one attempted Leave per Join
  (docs/decisions/0004-coroutine-session-ownership.md) for all other runs. The alternation of commands survives it.
* The Room follows the flag only while the command queue is open. After the close a session's Leave is refused, so a
  session that hangs up then stays a player: `RefusedLeaveKeepsPlayer` is such a run. `StoppedInRoomExactly` gives the
  exact condition for both cases: lingering after a late Join while the queue is open, having been joined at the close
  once it is closed. It takes a thread that stops the worker while sessions are still served; src/main.cpp:125-126
  itself stops the worker only after its I/O context has ended.
* The in-flight gauge of a session is overwritten, so it would be wrong as soon as a session had two write batches:
  `FirstCompletionHidesSecond`. `GaugeRightExactly` gives the exact condition. In the step system every writer that was
  spawned may start fetching; that there is never a second one, which `write_in_progress_` gives, is what makes
  `GaugeShowsInFlight` hold in every run.
* `validate_config` subtracts the measured moves from the largest coordinate in unsigned arithmetic, so more than
  2^31 - 1 measured moves wrap the limit and pass. `ValidationIsExact` says exactly what passes. The load test completes
  for those configurations too, although their coordinates repeat: `LoadTestCompletes` covers everything that passes.

## Model

| member | source | states |
|---|---|---|
| Bytes.LoadSwapped | src/protocol/packet_codec.cpp:16-30 | loading a native little-endian word and swapping its bytes gives the number the bytes stand for big-endian, for every width |
| Bytes.StoreSwapped | src/protocol/packet_codec.cpp:32-41 | storing the swapped word lays out the big-endian image, so the codec's writer is inverse to its reader |
| Bytes.WriteShifted | src/network/room_event_encoder.cpp:25-33 | the shift loop writes, in place and touching nothing else, the same big-endian image as the codec's byteswap |
| Bytes.ReadAccumulated | src/protocol/gameplay_payload.cpp:27-36 | the shift-and-accumulate loop reads the number that image stands for |
| Bytes.UnrolledReads | src/protocol/gameplay_payload.cpp:10-25 | the unrolled 16- and 32-bit readers agree with the general big-endian value |
| Bytes.ValueOfEncode | src/protocol/packet_codec.cpp:16-41 | every number that fits survives encoding and reading back |
| Bytes.EncodeOfValue | src/protocol/packet_codec.cpp:16-41 | every byte sequence is the encoding of its value |
| PacketCodec.Code | src/protocol/packet_codec.cpp:43-59 | every packet type's code is a known code that maps back to that type |
| PacketCodec.ReadWord | src/protocol/packet_codec.cpp:16-30 | the header reader returns the big-endian value of the bytes at its offset |
| PacketCodec.WriteWord | src/protocol/packet_codec.cpp:32-41 | the header writer leaves the big-endian image at its offset and every other byte alone |
| PacketCodec.EncodePacket | src/protocol/packet_codec.cpp:95-120 | each error occurs exactly on its condition (size before type), and success is the header and payload image |
| PacketCodec.DecodeOfPacket | src/protocol/packet_codec.cpp:62-120 | decoding an encoded packet followed by any bytes returns its type and payload and consumes exactly it |
| PacketCodec.PacketOfDecode | src/protocol/packet_codec.cpp:62-93 | whatever a successful decode consumed is exactly the encoding of what it returned, within the payload limit |
| PacketCodec.DecodeStable | src/protocol/packet_codec.cpp:62-93 | a success or a fatal error never changes when more bytes arrive |
| PacketCodec.IncompleteIsShort | src/protocol/packet_codec.cpp:62-93 | a buffer that is only incomplete is shorter than one maximal packet |
| WireFormat.VerdictByHeader | src/protocol/packet_codec.cpp:62-93 | each decode error has its exact condition on the bytes: fewer than 6, a size above 65536, a size within it and a code that is no type's, and a known header with too little after it, an unknown type being reported before the payload has arrived |
| WireFormat.IncompleteExactly | src/protocol/packet_codec.cpp:62-93 | six or more bytes are incomplete if and only if they are a proper first part of some packet |
| WireFormat.SuccessExactly | src/protocol/packet_codec.cpp:62-93 | decoding succeeds with a type and payload if and only if the bytes begin with that packet |
| WireFormat.TypeCodes | include/mcrs/protocol/packet_codec.hpp:12-22 | the numbers of the eight packet types, and that no other number is a type |
| WireFormat.Layout | src/protocol/packet_codec.cpp:95-120 | the six header bytes of every packet, one by one, then the payload |
| Framing.DecodeAppend | src/network/session.cpp:117-136 | decoding a longer stream is decoding its beginning and going on from the leftover |
| Framing.ChunkingIndependence | src/protocol/packet_codec.cpp:62-93 | for any bytes, valid or not, and any split into reads: the same packets, the same first protocol error, the same leftover |
| Framing.DecodeOfPart | src/protocol/packet_codec.cpp:62-93 | a reader that has any first part of a sequence of sent packets has decoded a prefix of them and no error |
| GameplayPayload.ReadUint16 | src/protocol/gameplay_payload.cpp:10-16 | the two-byte reader returns the big-endian value |
| GameplayPayload.ReadUint32 | src/protocol/gameplay_payload.cpp:18-25 | the four-byte reader returns the big-endian value, below 2^32 |
| GameplayPayload.WriteUint32 | src/protocol/gameplay_payload.cpp:38-45 | the four-byte writer leaves the big-endian image and nothing else changed |
| GameplayPayload.PositionRoundTrip | src/protocol/gameplay_payload.cpp:59-99 | every signed position, negative ones included, is read back from its two's complement image |
| GameplayPayload.EncodeMove | src/protocol/gameplay_payload.cpp:59-81 | the client's move payload decodes to the move that was encoded |
| WireFormat.MoveExactly | src/protocol/gameplay_payload.cpp:59-81 | a payload decodes to a position if and only if it is that position's eight bytes, and fails exactly when it has another size |
| RoomEventEncoder.EncodeRoomEvent | src/network/room_event_encoder.cpp:47-102 | every event encodes, and the in-place shift loops produce exactly the event's packet |
| RoomEventEncoder.EventRoundTrip | src/network/room_event_encoder.cpp:65-102 | for every id, position and reason the event's packet, followed by anything, decodes to the same event and is consumed whole |
| WireFormat.EventExactly | src/network/room_event_encoder.cpp:65-102 | a packet carries an event if and only if its type and payload are those the event is encoded to |
| WireFormat.ReasonCodes | include/mcrs/room/room_command.hpp:32-40 | the numbers of the six disconnect reasons |
| WireFormat.JoinedBytes | src/network/room_event_encoder.cpp:47-102 | the bytes of a PlayerJoined packet, written out |
| WireFormat.MovedBytes | src/network/room_event_encoder.cpp:47-102 | the bytes of a PlayerMoved packet with a negative coordinate, written out |
| WireFormat.LeftBytes | src/network/room_event_encoder.cpp:47-102 | the bytes of a PlayerLeft packet, written out |
| ReceiveBuffer.ReceiveBuffer.constructor | src/network/receive_buffer.cpp:9-13 | starts empty, with a capacity of the smaller of the wished one and the limit |
| ReceiveBuffer.ReceiveBuffer.Append | src/network/receive_buffer.cpp:15-35 | accepts exactly what fits the limit and appends it to the readable bytes; a refused append changes nothing; capacity stays within twice the limit under any growth of at most doubling |
| ReceiveBuffer.ReceiveBuffer.Compact | src/network/receive_buffer.cpp:69-75 | the forward move brings the readable bytes to the front unchanged |
| ReceiveBuffer.ReceiveBuffer.Consume | src/network/receive_buffer.cpp:37-47 | drops exactly the consumed bytes from the front, clearing the block when nothing is left |
| OutboundQueue.OutboundQueue.Push | src/network/outbound_queue.cpp:17-42 | each refusal on its own condition, in order; acceptance appends; the byte counter stays the sum of the queued sizes |
| OutboundQueue.OutboundQueue.PopBatch | src/network/outbound_queue.cpp:44-71 | moves the greedy batch, in order, to the front of the caller's span, leaves the rest of queue and span, and keeps the byte counter exact without underflow |
| OutboundQueue.OutboundQueue.Close | src/network/outbound_queue.cpp:73-78 | empties and closes the queue |
| OutboundQueue.PushExactly | src/network/outbound_queue.cpp:17-42 | each refusal if and only if its reason holds, and success if and only if an open queue stays within its limit with the packet, which is not empty |
| OutboundQueue.BatchIsLongest | src/network/outbound_queue.cpp:44-71 | the batch is the longest first part of the queue within both limits, or one oversized packet; it is empty exactly if the queue is or a limit is zero |
| CloseableQueue.CloseableQueue.Push | include/mcrs/concurrency/closeable_queue.hpp:23-37 | appends unless closed; a refused push changes nothing |
| CloseableQueue.CloseableQueue.WaitPop | include/mcrs/concurrency/closeable_queue.hpp:39-53 | once the wait is over, the oldest value is returned, and nothing exactly when there is none |
| CloseableQueue.CloseableQueue.Close | include/mcrs/concurrency/closeable_queue.hpp:55-63 | closing keeps the values that wait |
| Room.Apply | src/room/room.cpp:9-31 | who is in decides acceptance; the event decides who is in afterwards; a rejection changes nothing |
| Room.RefusalsAreExact | src/room/room.cpp:64-106 | a Join is refused as a duplicate exactly for a player, the others as not found exactly for somebody who is none |
| Room.Room.ApplyCommand | src/room/room.cpp:9-31 | the dispatching method changes the table and answers as the Room's transition says |
| Room.Room.ApplyJoin | src/room/room.cpp:64-78 | a Join of somebody already in is refused and keeps the position; otherwise the player starts at the origin |
| Room.Room.ApplyMove | src/room/room.cpp:80-93 | a Move of a player sets its position; of anybody else it is refused |
| Room.Room.ApplyLeave | src/room/room.cpp:95-106 | a Leave removes the player with its reason; of anybody else it is refused |
| Room.Room.Snapshot | src/room/room.cpp:49-62 | every player exactly once with its position, by ascending id |
| Room.UnrejectedLogMirrors | src/room/room.cpp:9-31 | commands none of which is rejected appear in the event log one for one |
| Room.TableIsLastPositions | src/room/room.cpp:64-106 | after any commands, the player table is the log read back: last Joined or Moved of each id, none after its Left |
| Room.VisibleBetweenJoinAndLeave | src/network/session_registry.cpp:68-81 | an event is visible to a session exactly from its own Joined, inclusive, to its own Left, exclusive |
| Room.FirstVisibleIsOwnJoin | src/network/session_registry.cpp:68-81 | the first event a session is meant to see is its own Joined |
| RoomWorkerSteps.StepKeepsInv | src/room/room_worker.cpp:22-87 | every step of submitters, worker and stopping thread keeps: nothing accepted is lost, repeated or overtaken, and the worker's state is the fold of the applied commands |
| RoomWorkerSteps.ShutdownDrains | src/room/room_worker.cpp:27-87 | in every interleaving the worker exits only on a closed, empty queue, having applied exactly the commands submitted before the close, once each, in order; the summary is that fold with exactly the number of handlers that threw, and processed = rejected + events |
| RoomWorkerSteps.ClosedQueueTerminates | include/mcrs/concurrency/closeable_queue.hpp:39-63 | after a close the worker always has a step, each brings it nearer to its exit, and no other thread sets it back |
| RoomWorker.RoomWorker.SubmitCommand | src/room/room_worker.cpp:22-25 | accepted exactly while the queue is open, and only then recorded |
| RoomWorker.RoomWorker.ApplyOne | src/room/room_worker.cpp:54-66 | one loop body up to the handler is the apply step of the protocol, counters included |
| RoomWorker.RoomWorker.RunOnce | src/room/room_worker.cpp:54-87 | a whole turn of the loop keeps the worker's invariant, takes one command, and ends the loop exactly when none waits |
| RoomWorker.RoomWorker.WorkerTurn | src/room/room_worker.cpp:54-87 | after a close, whatever step the worker thread is at brings it nearer to its exit and loses nothing |
| RoomWorker.RoomWorker.Stop | src/room/room_worker.cpp:27-52 | called with the worker anywhere in its loop, returns only when everything accepted was applied; the summary is the fold over it, with the ordered snapshot and the number of handlers that threw, and a second call returns the first summary |
| SessionRegistry.SessionRegistry.RegisterSession | src/network/session_registry.cpp:34-43 | a new id is entered and counted, a known one changes nothing |
| SessionRegistry.SessionRegistry.UnregisterSession | src/network/session_registry.cpp:45-53 | the id is gone from both tables and the gauge goes down only if it was there |
| SessionRegistry.SessionRegistry.CollectRecipients | src/network/session_registry.cpp:64-107 | publish's locked section: the recipients are, each once, the members after the event that are registered and alive; the others leave the index and expired ones the registry |
| SessionRegistry.Collect | src/network/session_registry.cpp:64-107 | the section's result in closed form, and the gauge stays the number of registered sessions |
| SessionRegistry.SweepAll | src/network/session_registry.cpp:85-106 | erasing members one by one while iterating, in any order, amounts to that closed form |
| SessionSteps.ProcessTracks | src/network/session.cpp:151-210 | while the queue is open the joined flag changes exactly as the submitted command changes membership; once it is closed the flag can only be cleared |
| SessionSteps.RunReturnsStopped | src/network/session.cpp:64-106 | every path on which run() returns has stopped the session |
| SessionSteps.PassAppend | src/network/session.cpp:117-221 | processing bytes as they come has the effect of processing them together |
| SessionSteps.PassLeavesLittle | src/network/session.cpp:117-221 | a pass that goes on leaves less than one maximal packet, and running it again does nothing |
| SessionSteps.ServeIsOnePass | src/network/session.cpp:64-106 | for a session served alone, commands, replies and final state do not depend on how its input was split into reads, and reads of one chunk never overflow the receive buffer |
| SessionSteps.PassUntilIsPass | src/network/session.cpp:117-221 | a pass that nobody closes the queue on is the pass on an open queue, and one on a queue closed before it is the pass on a closed one |
| SessionSteps.CourseTurn | src/network/session.cpp:117-221 | a pass during which another thread may close the queue is determined by how many turns found it open |
| SessionInput.ReceivedDecodes | src/network/session.cpp:117-136 | decoding everything received at once finds the packets taken out so far, then what the buffered bytes hold |
| SessionInput.HandleMeans | src/network/session.cpp:132-216 | on an open queue the packets taken out ask for exactly the commands submitted, apart from the Leave of a stop; on a closed one for no fewer |
| SessionInput.HandleKeepsFaithful | src/network/session.cpp:132-216 | every packet is taken out whole, and the replies queued are those the pings taken out ask for, until a stop |
| SessionLaw.FrontExactly | src/network/session.cpp:117-136 | the buffered bytes begin with a packet, or with a first part of one, or with neither, exactly as the wire format says |
| SessionLaw.TurnFollows | src/network/session.cpp:117-216 | one turn of the packet loop: an incomplete packet waits, a Ping is taken out and echoed if the outbound queue then holds at most 262144 bytes, a command is taken out and submitted if the Room would accept it and the queue is open (a Leave even on a closed one), and everything else stops the session with its reason; every field afterwards is stated |
| SessionLaw.EnqueueFollows | src/network/session.cpp:223-275 | a packet to send is queued within 262144 bytes, stops a running session with outbound_overflow beyond, and is dropped by a stopped one |
| SessionLaw.ReadFollows | src/network/session.cpp:92-98 | bytes read are buffered up to 69638 of them; beyond, the session stops with protocol_error |
| SessionLaw.ErrorFollows | src/network/session.cpp:74-90 | a failed read stops a running session, as client_closed at the end of the stream and as io_error otherwise |
| SessionLaw.FetchFollows | src/network/session.cpp:277-299 | the writer takes the longest first part of the queue within 64 packets and 65536 bytes, or one larger packet, and ends exactly when it takes none |
| SessionLaw.WriteFollows | src/network/session.cpp:300-324 | a completed write puts its batch on the wire and the writer fetches again; a failed one puts a first part there and stops the session with io_error |
| SessionWriter.EnqueueKeepsInv | src/network/session.cpp:223-275 | enqueueing, overflow included, keeps one writer, FIFO conservation, the bounds and the Join/Leave balance |
| SessionWriter.WriterTurnKeepsInv | src/network/session.cpp:277-299 | the writer's turn keeps them: it ends only with an empty queue or a stopped session |
| SessionWriter.WriteCompletedKeepsInv | src/network/session.cpp:300-324 | so does the completion of a write, in full, in part with an error, or after a stop |
| SessionWriter.ProcessKeepsInv | src/network/session.cpp:117-221 | so does every turn of the packet loop |
| SessionWriter.StopKeepsInv | src/network/session.cpp:358-377 | so does stopping, from any state and however often |
| SessionWriter.OutboundBound | src/network/session.cpp:33-35 | queued and in-flight bytes together never exceed 262144 + 65542 |
| SessionWriter.WriterDrains | src/network/session.cpp:277-324 | with no new pushes a writer, just spawned or in the middle of a write, gets everything accepted to the socket, in order, in at most one turn per queued packet and one more, and ends |
| Session.Session.constructor | src/network/session.cpp:39-46 | a new session with empty buffers and the configured limits |
| Session.Session.LeaveRoomIfJoined | src/network/session.cpp:338-349 | clears the flag and submits one Leave exactly if it was set |
| Session.Session.StopSession | src/network/session.cpp:358-377 | the first call leaves, closes and empties the outbound queue; later calls do nothing |
| Session.Session.EnqueueOutbound | src/network/session.cpp:223-275 | refuses when stopped, stops with the right reason when the queue refuses, and starts a writer exactly when none runs |
| Session.Session.WriterTurn | src/network/session.cpp:277-299 | takes the next batch out of the queue or ends and clears the flag |
| Session.Session.WriteCompleted | src/network/session.cpp:300-324 | goes on after a full write; after a failed one clears the flag and stops |
| Session.Session.ProcessPacket | src/network/session.cpp:117-216 | one turn of the loop does to buffers, flags and command queue what the value-level step says |
| Session.Session.ProcessPackets | src/network/session.cpp:117-221 | with other threads pushing, popping and closing between any two packets, the loop is the pass for the number of turns that found the queue open, submits exactly its commands, and terminates |
| Session.Session.OnRead | src/network/session.cpp:92-104 | a completed read: append, then such a pass, which is the plain pass of the session when nobody closes the queue, or a stop when the buffer refuses |
| Session.Session.OnReadError | src/network/session.cpp:71-90 | end of stream, an abort after stop and other errors are told apart as the code does |
| ServerMembership.StepKeepsInv | src/network/session.cpp:117-377 | every step of the server keeps: replaying the outstanding commands on the table meets no rejection and ends with the joined sessions, and the registry's index is the table restricted to connected sessions |
| ServerMembership.IndexCollect | src/network/session_registry.cpp:64-107 | publishing the pending event brings the index up to date and finds exactly the connected, living players |
| ServerBroadcast.StepKeepsInv | src/network/session.cpp:54-62 | every step keeps: what a session has queued, what is posted to it and what is being delivered to it are together exactly the published events it is meant to see |
| ServerTheorems.AcceptedMeansAlternating | src/room/room.cpp:64-106 | the Room accepts a sequence of commands if and only if each session's own commands are a first part of (Join Move* Leave)* |
| ServerTheorems.NothingIsRejected | src/network/session.cpp:151-210 | in every run no command is rejected, each session's accepted commands alternate, and the table after the outstanding commands is exactly the joined sessions or, once the queue is closed, exactly those joined at the close |
| ServerTheorems.LogMirrorsCommands | src/room/room_worker.cpp:54-87 | in every run the event log is the applied commands one for one in order of acceptance, and the table is the log read back |
| ServerTheorems.RegistryAgrees | src/network/session_registry.cpp:34-107 | in every run, outside the window between apply and publish, the index is the players that are registered; the gauge is the number of registered sessions in every state |
| ServerTheorems.TotalOrderBroadcast | src/network/session_registry.cpp:55-117 | in every run each session's queued room events are a prefix of the one log filtered to it, starting with its own Joined; with nothing on its way, all of it |
| ServerTheorems.ClientSeesRoomLog | src/network/session.cpp:54-62 | end to end: any received part of the bytes written, those of the write in flight included, and however split, decodes without error to room events that are a prefix of that filtered log |
| ServerTheorems.ReceiveLimitUnreachable | src/network/session.cpp:92-98 | in every reachable state at most 65541 bytes are buffered when a read completes, so the overflow branch never runs |
| ServerTheorems.WriterProtocol | src/network/session.cpp:247-324 | in every reachable state: at most one writer, one whenever a packet waits, accepted = written ++ in flight ++ queued until stop, and the byte bound |
| ServerTheorems.PushesFailByBytesOnly | src/network/session.cpp:223-245 | in every run the only error the next posted event or the reply to the next ping can meet in a running session is the byte limit |
| ServerReactions.SessionReacts | src/network/session.cpp:54-377 | in every run a session's own I/O step changes each of its fields exactly as its answer says, by its buffered bytes, the joined sessions and the limits, and no other step changes the session |
| ServerReactions.CommandsReact | src/network/session.cpp:338-356 | in every run the command queue takes, while it is open, exactly what the step's session submits: the command asked for, or the Leave of a joined session that stops |
| ServerReactions.StopsExactly | src/network/session.cpp:71-245 | in every run a running session is stopped by a step if and only if it is a failed read or write, a delivery or a ping reply beyond 262144 bytes, or a packet that is invalid, not allowed or refused; a joined one's Leave, with the reason for that step, is then the last command accepted by an open queue |
| ServerReactions.DeliveryExactly | src/network/session.cpp:54-62 | in every run a posted event goes to the end of a running session's queue if that then holds at most 262144 bytes; otherwise the session is stopped with outbound_overflow |
| ServerReactions.PacketExactly | src/network/session.cpp:132-216 | in every run, for every packet type and every payload up to 65536 bytes at the front of a running session's bytes: a Ping is echoed unless the queue is full, a command is accepted if and only if the Room with the joined sessions as members accepts it, and everything else stops the session |
| ServerReactions.ReadsAreTaken | src/network/session.cpp:64-104 | in every run a session that waits for a read takes every read of up to 4096 bytes and no larger one, whole, and goes on to its packets |
| ServerReactions.RegisteredExactly | src/network/session_registry.cpp:34-53 | in every run a registered session has not been unregistered, and one that exists and has not been unregistered is registered |
| ServerInput.SubmittedIsReceived | src/network/session.cpp:64-221 | in every run, whatever comes between the reads, a session's accepted requests and its replies are prefixes of what all its received bytes ask for, decoded at once; with the queue open they are those of the packets taken out, and a running session that waits for a read has served all of them |
| ServerDeliveries.DeliverCalls | src/network/session_registry.cpp:109-116 | in every run the deliver calls made and due are at most one per player after each published event, and exactly that many if and only if every player was registered and alive whenever publish looked |
| ServerDeliveries.DeliverCallsOfLog | src/network/session_registry.cpp:109-116 | between two publishes, the same for the calls made and the whole log |
| ServerAttendance.PatientReachesEveryone | src/network/session.cpp:398-413 | in every run in which no session is unregistered, nor its object gone, while it is in a table still to be published, publish reaches every player each time, and the deliver calls are one per player after each event |
| ServerAttendance.AbsentIsOut | src/network/session_registry.cpp:45-53 | a session that is no player and has no Join on its way is in no such table |
| ServerTheorems.ServerShutdownDrains | src/room/room_worker.cpp:27-52 | when the worker of the whole server has exited, every accepted command was applied once, in order, none rejected, no delivery failed, and the final table is whoever was joined at the close |
| ServerLeaves.LateJoinIsTheOnlyWay | src/network/session.cpp:151-177 | a session becomes stopped and joined by a step if and only if the step processes a valid Join in a stopped session while the queue is open |
| ServerLeaves.OnlyLateLeaveEndsIt | src/network/session.cpp:196-210 | a session that is stopped and joined stays so, whatever happens, until it processes a valid Leave |
| ServerLeaves.StaysExactlyAfterLateJoin | src/network/session.cpp:92-100 | in every run a session is stopped with its joined flag set if and only if it joined after its stop and has not processed a Leave since |
| ServerLeaves.StoppedInRoomExactly | src/network/session.cpp:338-349 | in every run a stopped session is in the Room, once everything outstanding is applied, if and only if that holds or, once the queue is closed, if and only if it was joined at the close |
| ServerLeaves.RefusedLeaveKeepsPlayer | src/network/session.cpp:338-349 | a concrete run in which a session hangs up after the close: stopped, its flag cleared, no late Join, and still in the Room |
| ServerLeaves.LeaveBalance | src/network/session.cpp:338-377 | in every run without such a step, run() returns only stopped, and a stopped session is out with one attempted Leave per accepted Join |
| ServerLeaves.TerminatedSessionsHaveLeft | src/network/session.cpp:64-106 | in particular in every run in which no completed read is resumed after a stop |
| ServerLeaves.TerminatedSessionCanStayInRoom | src/network/session.cpp:92-100 | a concrete run ends with a terminated session that is still in the Room |
| LoadClient.ValidationIsExact | src/benchmark/load_client.cpp:406-436 | what validation lets through: the configurations whose coordinates are in range, and those whose measured moves wrap the unsigned subtraction |
| LoadClient.RefusalsAreExact | src/benchmark/load_client.cpp:406-436 | each refusal exactly when its condition, in sums and products, is the first to fail |
| LoadClient.CoordinateRangeCanBeExceeded | src/benchmark/load_client.cpp:424-429 | one client with 2^31 measured moves passes |
| LoadClientMoves.ReadMoves | src/benchmark/load_client.cpp:279-294 | a move that a bot recognises by its coordinates is the one it waits for and is no longer on its way, even when the 32-bit coordinate repeats |
| LoadClientProof.StepKeepsInv | src/benchmark/load_client.cpp:331-404 | every step of bots and Room keeps the gates in lockstep, one command per bot on its way, the order of leaving and the delivery count |
| LoadClientEntry.EntersByOwnJoin | src/benchmark/load_client.cpp:266-277 | in every interleaving the PlayerJoined by which a bot takes itself to have entered, which it does not check the id of, is its own |
| LoadClientEntry.LeavesAreRequested | src/benchmark/load_client.cpp:386-404 | in every interleaving every PlayerLeft of the test carries left_room |
| LoadClientProof.BotsLeaveInOrder | src/benchmark/load_client.cpp:386-400 | in every interleaving the i-th to leave is bot i, no bot reads a PlayerLeft before its counting loop, and the loop counts all it reads |
| LoadClientProof.LeaveTravelsAlone | src/benchmark/load_client.cpp:386-400 | while a Leave is on its way no other command is |
| LoadClientProof.GoneIsOut | src/benchmark/load_client.cpp:400-404 | a bot that has sent its Leave and hung up is in no table that the commands on their way lead to, so its session may be unregistered at once |
| LoadClientProof.TotalDeliveries | src/benchmark/load_client.cpp:331-404 | when all n bots are gone, the deliver calls that ServerDeliveries.DeliverCalls counts per log number n(nm + 1) + n(n + 1)/2 + n(n - 1)/2 for m moves each |
| LoadClientProgress.StuckMeansFinished | src/benchmark/load_client.cpp:313-329 | no interleaving deadlocks at a gate, at the barrier or in the counting loop: a state without a next step is the end of the test |
| LoadClientProgress.LoadTestCompletes | src/benchmark/load_client.cpp:331-404 | for every configuration that passes validation, every run is finite, within a bound given by the configuration, and one that cannot go on has every bot gone, the Room empty and that number of deliver calls |
| Peak.PeakNeverDecreases | src/observability/server_metrics.cpp:13-19 | with any number of threads and weak compare-exchange failures, the peak never goes down along a run |
| Peak.GaugeIsBalance | src/observability/server_metrics.cpp:190-203 | in every run the gauge is the sum of what was added less what was subtracted, and its recorded history is the values that sum has had |
| Peak.PeakIsMaximum | src/observability/server_metrics.cpp:190-194 | once no update is in progress the peak is the largest value the gauge has ever had: the largest balance over all moments of the run |
| DeliveryTokens.GaugesAreExact | src/observability/server_metrics.cpp:190-203 | in any order of construction, move, begin and destruction the posted gauges are the count and byte sum of the live reservations, and each is released once |
| DeliveryTokens.CountersAreTallies | src/observability/server_metrics.cpp:231-256 | in every run the constructed, begun and abandoned counts are the numbers of the steps that construct, begin or destroy a reservation still held, and each object holds what the steps gave it |
| PostedMetrics.PostedGauges | src/network/session.cpp:54-62 | in every run of the server a session's posted gauges are the number and the bytes of its posted handlers, and no reservation is abandoned |
| ServerMetrics.DeliveryLedger.Construct | src/observability/server_metrics.cpp:231-238 | the constructor is the construction step of that ledger and keeps it exact |
| ServerMetrics.DeliveryLedger.MoveConstruct | src/observability/server_metrics.cpp:239-242 | a move hands the reservation over and changes no gauge |
| ServerMetrics.DeliveryLedger.Begin | src/observability/server_metrics.cpp:250-256 | a reservation is released once; beginning a moved-from or begun object does nothing |
| ServerMetrics.DeliveryLedger.Destroy | src/observability/server_metrics.cpp:243-249 | destruction releases and counts as abandoned exactly what is still held |
| BatchTokens.EachReleasesOnce | src/observability/server_metrics.cpp:204-229 | in any order of construction, completion and destruction: started = completed + abandoned + still held |
| BatchTokens.EmptyIsInert | src/observability/server_metrics.cpp:266-279 | a completed object moves no counter and no gauge again, however often it is completed and when it is destroyed |
| BatchTokens.CountersAreTallies | src/observability/server_metrics.cpp:204-229 | in every run the started, completed, failed, abandoned, requested and transferred figures are the counts and byte sums of the steps that cause them, a completion or destruction counting exactly if it releases the batch |
| BatchTokens.TransferredWithinRequested | src/observability/server_metrics.cpp:204-229 | if no completion reports more than was asked for, bytes transferred and still held are within those requested |
| BatchTokens.GaugeRightExactly | src/observability/server_metrics.cpp:204-218 | in every run the overwritten gauge has been right all along if and only if every construction and release found no other batch of that session held, empty ones aside |
| BatchTokens.SingleExactly | src/observability/server_metrics.cpp:204-218 | for batches that are not empty, that condition is that no session ever had two |
| BatchTokens.FirstCompletionHidesSecond | src/observability/server_metrics.cpp:214-218 | with two batches of one session, completing the first zeroes the gauge while the second is in flight |
| WriterMetrics.GaugeShowsInFlight | src/network/session.cpp:247-304 | in every run of the server the single writer keeps every session to one batch, so the gauge is right all along and shows the batch in flight, and no more bytes are transferred than requested |
| ServerMetrics.BatchLedger.Construct | src/observability/server_metrics.cpp:258-265 | the constructor is the construction step of that ledger |
| ServerMetrics.BatchLedger.Complete | src/observability/server_metrics.cpp:273-279 | completion, of any object, is the completion step: it releases what the object holds, and does nothing when it holds nothing |
| ServerMetrics.BatchLedger.Destroy | src/observability/server_metrics.cpp:266-272 | destruction, of any object, completed or not, is the destruction step: abandoned exactly when something is still held |
| ServerMetrics.ClosedHistory.CreateSession | src/observability/server_metrics.cpp:32-42 | an id in use is refused, and the refused object's destruction neither removes nor retires the session that has the id |
| ServerMetrics.ClosedHistory.DestroySession | src/observability/server_metrics.cpp:157-163 | only a tracked object retires, and it retires its own entry |
| ServerMetrics.ClosedHistory.RetireSession | src/observability/server_metrics.cpp:44-58 | the ring holds the last 128 retirements and the overwritten count is the rest, after any number of them |
| ServerMetrics.ClosedHistory.Recent | src/observability/server_metrics.cpp:100-106 | the snapshot lists exactly the last min(n, 128) retirements, oldest first, and the overwritten count is the rest |
| Latency.RankIsCeiling | src/benchmark/metrics.cpp:11-19 | the split formula is n p / 100 rounded up, lies in 1..n, and no intermediate result exceeds n or 9999 |
| Latency.RankedIsPercentile | src/benchmark/metrics.cpp:11-19 | the sample at that rank is the least one with at least that many samples at or below it |
| Latency.SummarizeLatencies | src/benchmark/metrics.cpp:22-47 | each error exactly on its condition; otherwise count, extremes and percentiles of the samples as given, with min <= p50 <= p95 <= p99 <= max |

## Left out

- Sockets, executors, coroutine frames and timers appear only as completions that may come in any order; waiting, time-outs and fairness are not modelled.
- Shared and weak pointers appear as a flag that says whether the session object still exists; packets are immutable byte sequences, so the lifetime of a packet view is not modelled.
- Exceptions and allocation failure, including the writer's exception handler and the unregistration on an exception, are absent; the worker's handler is the exception.
- Weak memory ordering: every atomic operation is one step of one interleaving.
- A big-endian host: the codec's conditional byteswap is modelled on a little-endian one.
- More than one I/O thread and a coordinated shutdown of the whole server, which the repository lists as future work.
- JSON output, logging, argument parsing, the scripts, clock readings and `calculate_throughput`.
- Counters of the metrics that are only added to (commands processed, deliveries attempted, overflow closes), the live-session part of `snapshot`, and the global queue and batch peaks, which use the peak update proved here.
- The registry's map of endpoints is the set of its ids, and which endpoints still exist is a parameter of publish.
- Library code: `std::ranges::sort` is an insertion sort in `Latency` and a repeated selection in `Room.Snapshot`; the vector's growth is any growth of at most doubling.
- The wait inside `wait_pop` is a precondition that it is over; wake-ups are not modelled.
- Load client: bots are steps over values, not coroutines with buffers; a bot reads its filtered view of the log in order, which is what ServerTheorems.ClientSeesRoomLog gives for a connection that does not fail; failures, samples and elapsed time are not modelled.
- LoadClientProof.TotalDeliveries: counts one deliver call per player after each event of the load test's log. That the server makes them is ServerAttendance.PatientReachesEveryone, whose condition LoadClientProof.GoneIsOut gives for the commands on their way; the load test's steps apply and publish an event at once, so that a bot has read only what was published is part of its model.
- SessionSteps.ServeIsOnePass: for one session alone, on a queue that stays as it is; the statement over whole runs is ServerInput.SubmittedIsReceived.
- ServerLeaves.LeaveBalance: a Leave is attempted once per Join; after the command queue has closed the attempt is refused, as in the code.
- CloseableQueue.CloseableQueue.WaitPop: a stop request on an open queue would end the worker early; the worker's `stop` closes first, and that order is part of the step system.
