# netsu: a verified model

netsu speaks iperf3's control protocol from a client and a server, over TCP,
WebSocket, QUIC and WebRTC, and ships a signaling service that introduces WebRTC
peers to each other. This project models the parts of it where several
activities interleave, and proves what holds in every run.

The modules, from the wire up:

- `Wire`, `Sequences`: state bytes, limits and the stream-id rule; regrouping of histories.
- `BytePipes`, `WebRtcBytes`, `QuicBytes`: the byte-stream adapters. The buffered ones
  (TCP, WebSocket, WebRTC) refine one plain byte sequence, whatever the fragmentation and
  whichever reads are dropped. The QUIC pipe does so for completed reads; a dropped read
  keeps the bytes only if it found none, which a one-byte state read always meets.
- `Framing`, `WebRtcFraming`: states and JSON bodies over byte pipes and over the WebRTC
  control channel.
- `WebRtcLink`: a WebRTC payload stream at message level, proved to be what the byte
  counts of `DataPlane` say.
- `DataPlane`, `TestSession`, `TestSessionInv`, `TestSessionSteps`,
  `TestSessionProgress`, `TestSessionTheorems`: client, server, two FIFO control
  queues and all stream tasks as one step relation; its invariant, step by step; its
  measures; and the theorems over every run.
- `AcceptRule`: connection tasks, the single-test slot, the stream window and the slot
  guard, with failures and panics anywhere.
- `Teardown`: closing and joining streams whose tasks may hold the channel lock.
- `RustClient`, `TsClient`: how each client ends a test, against any peer.
- `Pacing`, `UdpSetup`: the UDP token bucket and the bind-before-reply set-up.
- `SignalRoom`, `SignalRoomProofs`, `SignalRoomObject`: the signaling room as a state
  machine with a handler that suspends in the middle of a check.
- `Allocation`, `Entries`: room allocation over calls that fail after committing, and
  claim-limited entries.
- `Mux`, `Input`: probe accounting and the coalescing input queue.

Conventions. Concurrent code is a function `Next(state, event)` that is undefined
where the event is not enabled; a run is any list of events; every main theorem
quantifies over all runs. Objects that the program updates in place are classes whose
methods are proved equal to those functions. Clocks, randomness, I/O results and
scheduling are parameters or events. Time in `Pacing` is exact. Where an object has an
invariant, its `Valid()` says it and every method keeps it.

Some promises turned out to hold only under a condition. Each of these has a lemma with
a concrete failing run and a lemma with the exact condition: which stream gets which id
(`PairingCanCross`, `SameIdSameStreamExactlyWhen`), whether a bound room socket keeps its
role (`RoleCanChange`, `RoleKeptExactlyWhen`), whether a dropped JSON read is harmless
(`DroppedJsonLosesFrame`, `DroppedJsonHarmlessExactlyWhen`), whether a claim is answered
(`ReusedIdReadsDeadRow`, `AnsweredExactlyWhen`), whether a dropped QUIC read is harmless
(`DroppedLengthLosesBytes`, `DroppedReadHarmlessExactlyWhen`), whether the mux tally is within
the bytes counted as sent (`TallyCanLead`, `TallyWithinSentExactlyWhen`) and whether the TypeScript
client ends its test once (`EagerBreaks`, `EndsOnceExactlyWhen`). In `packages/netsu/src/client.ts` a comment calls the end
of a test idempotent; the code is so only for peers that send TEST_RUNNING once.

## Model

| member | source | states |
|---|---|---|
| `DataPlane.TxStepOk` | netsu-rs/src/streams/runner.rs:85-135 | Every move of a sender task keeps sent and counted bytes within one block of each other, equal on WebRTC, and adds no byte after the stream is sealed. |
| `DataPlane.RxStepOk` | netsu-rs/src/streams/runner.rs:157-186 | Every move of a receiver task keeps received equal to the bytes taken less the chunk in hand, and ends only on the stop flag or at a fully read end of stream. |
| `DataPlane.LinkRankFalls` | netsu-rs/src/streams/runner.rs:96-186 | Once the sender is stopped, every move of either task lowers the stream's remaining work. |
| `DataPlane.StoppedSenderMoves` | netsu-rs/src/streams/runner.rs:96-135 | A stopped sender can always move on, or the receiver it waits for can. |
| `DataPlane.FinishedReceiverMoves` | netsu-rs/src/streams/runner.rs:163-186 | A receiver whose stream has ended can move until it has ended too. |
| `TestSessionInv.InitInv` | netsu-rs/src/server.rs:977-1000 | The invariant of the two-party system holds at the start. |
| `TestSessionInv.ClientMeets` | netsu-rs/src/client.rs:628-660 | Whatever the client reads is the message its position expects. |
| `TestSessionInv.ServerMeets` | netsu-rs/src/server.rs:977-1132 | Whatever the server reads is the message its position expects. |
| `TestSessionSteps.NextKeepsInv` | netsu-rs/src/server.rs:977-1154 | Every step of client, server, accept loop, timer or stream task keeps the whole invariant. |
| `TestSessionSteps.RunKeepsInv` | netsu-rs/src/client.rs:559-664 | Every interleaving keeps it. |
| `TestSessionSteps.SlotIsFree` | netsu-rs/src/server.rs:702-712 | A data connection of the running test always finds a free slot in the open window. |
| `TestSessionProgress.ControlFalls` | netsu-rs/src/client.rs:559-664 | Every control step lowers a measure that stream tasks do not touch. |
| `TestSessionProgress.StoppedFalls` | netsu-rs/src/server.rs:1078-1132 | After the senders are stopped, every step of anything lowers one total measure. |
| `TestSessionTheorems.EveryReadMeetsItsMessage` | netsu-rs/src/client.rs:559-664 | In every run no read meets an unexpected message on either side and no data connection is refused. |
| `TestSessionTheorems.NeverStuck` | netsu-rs/src/server.rs:977-1154 | Every state satisfying the invariant, before both sides finish, has an enabled step. |
| `TestSessionTheorems.NoDeadlock` | netsu-rs/src/server.rs:977-1154 | No reachable state is stuck before both sides finish; the step found is a control step unless the senders are stopped. |
| `TestSessionTheorems.ControlStepsBounded` | netsu-rs/src/client.rs:559-664 | The control steps of any run are paid for by the measure. |
| `TestSessionTheorems.RunHasFewControlSteps` | netsu-rs/src/client.rs:559-664 | A run from the start holds a bounded number of control steps, whatever the streams do. |
| `TestSessionTheorems.StoppedRunsFinish` | netsu-rs/src/server.rs:1078-1154 | After the stop every run is finite, and one that cannot go on has finished on both sides. |
| `TestSessionTheorems.StopLeadsToFinish` | netsu-rs/src/client.rs:578-627 | From any reachable stopped state every schedule ends with both sides finished. |
| `TestSessionTheorems.IdsAgree` | netsu-rs/src/streams/runner.rs:48-54 | Both result lists carry the ids 1, 3, 4, ... in the same order. |
| `TestSessionTheorems.BytesAgree` | netsu-rs/src/client.rs:861-877 | Per stream the two reported byte counts agree: equal on WebRTC in both directions, the receiver ahead by 0 to one block on QUIC, never by more than one block anywhere. |
| `TestSessionTheorems.TotalOfPermutation` | netsu-rs/src/client.rs:940-992 | Summing results in the other side's order gives the same total. |
| `TestSessionTheorems.TotalsAgree` | netsu-rs/src/client.rs:940-992 | The reported sent and received totals agree the same way: equal on WebRTC, within one block per stream otherwise. |
| `TestSessionTheorems.OnlyCookieBeforeHandover` | netsu-rs/src/server.rs:760-816 | A data connection that is not yet a data channel has carried its 37 cookie bytes and nothing else. |
| `TestSessionTheorems.HandoverNeverFails` | netsu-rs/src/server.rs:806-816 | In every run a connection whose cookie has been read converts to a data channel, however its bytes were cut, and no payload is dropped. |
| `TestSessionTheorems.PairingCanCross` | netsu-rs/src/server.rs:1230-1248 | With two or more streams outside WebRTC some run gives the two sides' first ids to different connections. |
| `TestSessionTheorems.SameIdSameStreamExactlyWhen` | netsu-rs/src/server.rs:1256-1277 | Equal ids name the same connection in every run exactly for one stream or over WebRTC. |
| `AcceptRule.GuardClearsOwnHandle` | netsu-rs/src/server.rs:669-677 | When a slot guard clears the slot, the handle in it is its own session's. |
| `AcceptRule.NextKeepsInv` | netsu-rs/src/server.rs:754-848 | Every step of connections, sessions, failures and guards keeps the slot, lock, slot-count and ownership invariants. |
| `AcceptRule.RunKeepsInv` | netsu-rs/src/server.rs:754-848 | Every interleaving keeps them. |
| `AcceptRule.OneSessionHoldsTheSlot` | netsu-rs/src/server.rs:776-805 | In every run at most one session's guard is alive, and the slot holds exactly its handle. |
| `AcceptRule.SlotsAreConserved` | netsu-rs/src/server.rs:702-712 | Slots left plus slots claimed is the stream count; at TEST_START there are exactly that many distinct streams, all with the session's cookie, and none pending. |
| `AcceptRule.NoClaimAfterStart` | netsu-rs/src/server.rs:1013-1026 | After TEST_START no claim of that session succeeds and its streams stay as they are, whatever follows. |
| `AcceptRule.SlotCanAlwaysBeFreed` | netsu-rs/src/server.rs:663-677 | From every reachable state at most three steps free the slot: no failure makes the server refuse for ever. |
| `AcceptRule.DecidedExactlyWhen` | netsu-rs/src/server.rs:776-805 | A connection starts a test, becomes a stream or is refused, each exactly when the slot, cookie, window and slot count say so. |
| `Teardown.NextKeepsInv` | netsu-rs/src/client.rs:1006-1020 | Every step of the control loop or a task, during the error check or after it, keeps lock ownership, close order and snapshot counts. |
| `Teardown.MeasureFalls` | netsu-rs/src/streams/runner.rs:96-186 | Once the stop flags are set every step, the peer's I/O included, lowers the teardown measure. |
| `Teardown.LocalMoveEnabled` | netsu-rs/src/client.rs:1006-1020 | Before the end some step is enabled that needs neither the peer's I/O nor the join's time limit. |
| `Teardown.EveryRunTearsDown` | netsu-rs/src/client.rs:1006-1020 | Every run is bounded by the measure and can go on until every channel is closed, every task ended and every snapshot taken once. |
| `Teardown.TeardownCompletes` | netsu-rs/src/client.rs:1006-1020 | From whatever the tasks are doing, a run that cannot go on has torn everything down, within eight steps a stream plus two. |
| `Teardown.LocalMovesFinish` | netsu-rs/src/client.rs:1006-1020 | There is a complete teardown by local steps alone, in which no task is aborted. |
| `Teardown.SnapshotOnceBeforeClose` | netsu-rs/src/client.rs:446-461 | A stream's error snapshot is taken at most once, before its channel is closed, with the lock held, and is the error latched by then. |
| `Teardown.CheckNeverWaits` | netsu-rs/src/client.rs:845-859 | A step of the error check is enabled whoever holds whatever lock, changes no stream, and goes where the flags alone send it. |
| `Teardown.CheckEnds` | netsu-rs/src/client.rs:845-859 | However the tasks run, the check takes at most one step a stream and one more, and ends with the first stream closed with an error, or none. |
| `Teardown.ClosedWithError` | netsu-rs/src/client.rs:845-859 | The check's loop finds the first stream closed with an error, or that there is none. |
| `RustClient.EndsOnce` | netsu-rs/src/client.rs:578-660 | Against any bytes and timing: one end time, at most one TEST_END, none after the result exchange began, success only with decoded results. |
| `RustClient.SuccessNeedsExchange` | netsu-rs/src/client.rs:832-883 | Every successful run contains a result exchange that succeeded. |
| `RustClient.ClientSession.RunLoop` | netsu-rs/src/client.rs:559-664 | The select loop computes the run of its events and keeps the end-of-test promises. |
| `RustClient.ClientSession.TimerFired` | netsu-rs/src/client.rs:578-612 | The timer arm ends the test only if it is running and not ended. |
| `RustClient.ClientSession.Dispatch` | netsu-rs/src/client.rs:627-660 | One state byte's effect on the session. |
| `TsClient.DisciplinedPeerIsSafe` | packages/netsu/src/client.ts:144-169 | With a disciplined peer, every schedule of timers, data and exchange resumptions sets the end time once and sends TEST_END at most once and not after EXCHANGE_RESULTS. |
| `TsClient.EagerBreaks` | packages/netsu/src/client.ts:432-483 | For any other peer the schedule that fires every timer before the next byte breaks a promise. |
| `TsClient.EndsOnceExactlyWhen` | packages/netsu/src/client.ts:111-208 | The promises hold on every schedule exactly when the peer sends TEST_RUNNING at most once and never after EXCHANGE_RESULTS. |
| `TsClient.ClientSession.ValidIsGood` | packages/netsu/src/client.ts:144-169 | A valid session has set its end time and sent TEST_END at most once, none of it late. |
| `TsClient.ClientSession.StartRunning` | packages/netsu/src/client.ts:432-483 | Starts the test and sets a new timer without clearing an older one; keeps the session valid when it is the first and precedes the exchange. |
| `TsClient.ClientSession.EndNow` | packages/netsu/src/client.ts:444-473 | The end action: once per running period, clearing the named timer, keeping a valid session valid. |
| `TsClient.ClientSession.OnTimer` | packages/netsu/src/client.ts:482-482 | A pending timer fires once and ends a running test; a valid session stays valid with at most one TEST_END. |
| `TsClient.ClientSession.OnReverseBytes` | packages/netsu/src/client.ts:507-510 | Data past the deadline ends a running test; a valid session stays valid with at most one TEST_END. |
| `TsClient.ClientSession.EndByExchange` | packages/netsu/src/client.ts:162-169 | An early EXCHANGE_RESULTS ends the test and disarms the named timer; a later one changes nothing. |
| `TsClient.ClientSession.Suspend` | packages/netsu/src/client.ts:170-193 | The exchange waits for results or fails at once. |
| `TsClient.ClientSession.BeginExchange` | packages/netsu/src/client.ts:144-190 | The synchronous half of EXCHANGE_RESULTS: a valid session stays valid and has exactly one end time. |
| `TsClient.ClientSession.Cleanup` | packages/netsu/src/client.ts:570-576 | Clean-up stops the test and clears only the named timer. |
| `BytePipes.FillTakesPlain` | netsu-rs/src/transport/tcp.rs:111-129 | A read takes the next n bytes of the plain sequence or nothing, however it was cut or dropped. |
| `BytePipes.ReadsExactlyWhen` | netsu-rs/src/transport/ws.rs:130-140 | Given time, a read completes exactly when n bytes arrive before the stream stops, and returns those. |
| `BytePipes.NothingLostOrReordered` | netsu-rs/src/transport/tcp.rs:111-129 | Over any mix of completed, timed-out and dropped reads, bytes read, buffered and to come are exactly the bytes sent. |
| `BytePipes.FragmentationInvisible` | netsu-rs/src/transport/ws.rs:130-140 | Two cuts of the same bytes are read alike. |
| `BytePipes.ConvertsExactlyWhen` | netsu-rs/src/transport/tcp.rs:80-88 | A connection that has read its cookie converts exactly when nothing beyond the cookie was pulled; then no byte is dropped, and with only the cookie sent it always converts. |
| `BytePipes.ChunkTakesPlain` | netsu-rs/src/transport/ws.rs:235-267 | A chunk is a prefix of the plain sequence, and empty only when the stream has ended. |
| `BytePipes.TcpPipe.ReadExact` | netsu-rs/src/transport/tcp.rs:111-129 | The fill loop computes the pipe specification for any socket reads and any deadline. |
| `BytePipes.TcpPipe.IntoDataChannel` | netsu-rs/src/transport/tcp.rs:80-88 | Hands the socket over exactly when nothing is buffered. |
| `BytePipes.WsPipe.FillAndDrain` | netsu-rs/src/transport/ws.rs:130-140 | The frame loop computes the same specification, skipping frames that are not payload. |
| `BytePipes.WsPipe.IntoDataChannel` | netsu-rs/src/transport/ws.rs:102-110 | Hands the connection over exactly when nothing is buffered. |
| `BytePipes.WsDataChannel.ReadChunk` | netsu-rs/src/transport/ws.rs:235-267 | Takes one chunk; the first receive error is latched and every later read reports it. |
| `Framing.BigEndianRoundTrip` | netsu-rs/src/protocol/framing.rs:30-38 | Every 32-bit length survives its four bytes. |
| `Framing.ReadStateRecovers` | netsu-rs/src/protocol/framing.rs:18-27 | Every signed state byte is read back with its sign. |
| `Framing.JsonRecoveredExactlyWhen` | netsu-rs/src/protocol/framing.rs:30-54 | A written body is read back exactly when its size is in 1..max; otherwise it is refused and stays in the pipe, unframed. |
| `Framing.ConversationRecovered` | netsu-rs/src/protocol/framing.rs:18-54 | Matching reads recover every message of any conversation over any fragmentation. |
| `Framing.DroppedJsonHarmlessExactlyWhen` | netsu-rs/src/protocol/framing.rs:40-54 | A JSON read that got nothing leaves the bytes as they were exactly when its four length bytes had not arrived. |
| `Framing.DroppedJsonLosesFrame` | netsu-rs/src/protocol/framing.rs:40-54 | A concrete drop after the length that loses the frame. |
| `Framing.WriteJson` | netsu-rs/src/protocol/framing.rs:30-38 | Builds the specified frame, refusing bodies of 4 GiB and more. |
| `Framing.ReadStateFrom` | netsu-rs/src/protocol/framing.rs:24-27 | Reads one state byte from a pipe object, as specified. |
| `Framing.ReadJsonFrom` | netsu-rs/src/protocol/framing.rs:40-54 | Reads one length-prefixed body from a pipe object, as specified. |
| `WebRtcBytes.QueueConserves` | netsu-rs/src/transport/webrtc/pipe.rs:64-160 | Over any messages and reads, bytes read then queued are the bytes accepted, in order, and the queue never exceeds 1 MiB. |
| `WebRtcBytes.EndReportedExactlyWhen` | netsu-rs/src/transport/webrtc/pipe.rs:136-160 | End of stream and failure are reported exactly when nothing is queued; bytes that arrived first are never hidden. |
| `WebRtcBytes.QueueRefinesReference` | netsu-rs/src/protocol/pipe.rs:53-79 | Without an error the queue behaves like the plain in-memory pipe. |
| `WebRtcBytes.WriteEmitsNoMarker` | netsu-rs/src/transport/webrtc/pipe.rs:211-220 | A write's messages join to its bytes, are at most 16 KiB, and are never the empty end marker. |
| `WebRtcBytes.StreamSoFar` | netsu-rs/src/transport/webrtc/pipe.rs:64-91 | For any writes and any interleaving of feeds and reads without an error, bytes read and queued are a prefix of the bytes written, and all of them once the marker is fed. |
| `WebRtcBytes.StreamEndsExactlyAtItsEnd` | netsu-rs/src/transport/webrtc/pipe.rs:211-227 | Then the queue is closed exactly when the marker has been fed, and the end is reported exactly when the marker has been fed and everything written has been read. |
| `WebRtcBytes.ErrorExactlyWhen` | netsu-rs/src/transport/webrtc/pipe.rs:64-110 | An open queue gets an error exactly from a text message, a transport failure or a message that outgrows the limit. |
| `WebRtcLink.StepTracks` | netsu-rs/src/streams/runner.rs:85-186 | Every message-level step of a WebRTC stream (block, message, marker, delivery, read) is a move of the byte counts, which never refuse it. |
| `WebRtcLink.EndReachesReader` | netsu-rs/src/transport/webrtc/pipe.rs:136-160 | Where the byte counts say the stream has ended, only the empty message can be left, and the reader is told the end. |
| `WebRtcLink.MessagesAreTheCounts` | netsu-rs/src/transport/webrtc/pipe.rs:211-227 | In every message-level run, once the receiver has met the end, bytes received, sent and counted are equal. |
| `WebRtcBytes.InboundQueue.OnBinary` | netsu-rs/src/transport/webrtc/pipe.rs:64-91 | A binary message is accepted, ends the stream, or overflows; the queue stays within its limit and the accepted input grows by exactly an accepted message. |
| `WebRtcBytes.InboundQueue.OnText` | netsu-rs/src/transport/webrtc/pipe.rs:93-102 | A text message latches an error and touches no byte. |
| `WebRtcBytes.InboundQueue.OnFailure` | netsu-rs/src/transport/webrtc/pipe.rs:104-110 | A transport failure latches an error and touches no byte. |
| `WebRtcBytes.InboundQueue.OnClose` | netsu-rs/src/transport/webrtc/pipe.rs:112-115 | Close ends the stream without an error. |
| `WebRtcBytes.InboundQueue.TryReadExact` | netsu-rs/src/transport/webrtc/pipe.rs:117-134 | One turn of the exact read loop; delivered then queued bytes stay the accepted input. |
| `WebRtcBytes.InboundQueue.TryReadUpTo` | netsu-rs/src/transport/webrtc/pipe.rs:136-160 | One turn of the bounded read loop, filling the front of the caller's buffer and nothing else; delivered then queued bytes stay the accepted input. |
| `WebRtcBytes.WebRtcAdapter.Write` | netsu-rs/src/transport/webrtc/pipe.rs:211-220 | The chunk loop sends exactly the specified messages unless closed. |
| `WebRtcBytes.WebRtcAdapter.FinishSend` | netsu-rs/src/transport/webrtc/pipe.rs:222-227 | Only this sends the empty marker. |
| `WebRtcFraming.WaitingReadIsFill` | netsu-rs/src/transport/webrtc/pipe.rs:117-134 | A read that polls, waits for the next message and polls again is the byte pipe's read over queue and messages to come, and cannot overflow the queue. |
| `WebRtcFraming.BurstMovesBytes` | netsu-rs/src/transport/webrtc/pipe.rs:64-91 | Messages that arrive while nobody reads only move bytes into the queue, unless they overflow it. |
| `WebRtcFraming.ReadOneIsPipes` | netsu-rs/src/protocol/framing.rs:24-54 | A state or JSON read over the control channel is the same read over its byte pipe. |
| `WebRtcFraming.ConversationRecovered` | netsu-rs/src/protocol/framing.rs:18-54 | Matching reads recover every message of any conversation over the WebRTC control channel, for any cut, waiting for some messages and finding others. |
| `QuicBytes.CompletedReadIsPlain` | netsu-rs/src/transport/quic/channel.rs:55-71 | A completed read takes the next n bytes of the stream. |
| `QuicBytes.DroppedReadLosesPrefix` | netsu-rs/src/transport/quic/channel.rs:55-71 | A dropped read loses a prefix shorter than it asked for. |
| `QuicBytes.DroppedReadHarmlessExactlyWhen` | netsu-rs/src/transport/quic/channel.rs:55-71 | A dropped read leaves the stream as it was exactly when it had found no byte. |
| `QuicBytes.DroppedStateReadHarmless` | netsu-rs/src/client.rs:625-626 | So a dropped one-byte state read never loses anything. |
| `QuicBytes.DroppedLengthLosesBytes` | netsu-rs/src/transport/quic/channel.rs:55-71 | A concrete longer read that does. |
| `QuicBytes.QuicPipe.ReadExact` | netsu-rs/src/transport/quic/channel.rs:55-71 | The read loop with its own buffer computes the specified stream and outcome. |
| `Pacing.RebaseMovesForward` | netsu-rs/src/transport/udp.rs:130-139 | The rebase's checked subtractions cannot fail and the virtual start only moves forward. |
| `Pacing.LongRunBound` | netsu-rs/src/transport/udp.rs:122-150 | For any clock and calls, bits admitted by a return are at most rate times elapsed plus 1 ms. |
| `Pacing.WindowBound` | netsu-rs/src/transport/udp.rs:128-139 | After any call, later bits are at most rate times the time since its check plus 101 ms. |
| `Pacing.SlackIsNeeded` | netsu-rs/src/transport/udp.rs:140-149 | Without the millisecond the bound fails. |
| `Pacing.NeverHeldTooLong` | netsu-rs/src/transport/udp.rs:140-149 | A call is held exactly until its bits are due, or not at all when they are due within 1 ms. |
| `Pacing.Pacer.GateAt` | netsu-rs/src/transport/udp.rs:122-150 | The gate method computes the specified state and due time. |
| `UdpSetup.NextKeepsInv` | netsu-rs/src/server.rs:1285-1312 | Every step of server, client or network keeps the socket layout and the single outstanding exchange. |
| `UdpSetup.HelloMeetsOneListener` | netsu-rs/src/transport/udp.rs:219-299 | Whenever a hello is in flight exactly one unconnected listener is bound; nothing is ever lost and the loop never lacks its listener. |
| `UdpSetup.StreamsPairUp` | netsu-rs/src/server.rs:1285-1338 | Equal ids name the same connection on both sides, for every stream count. |
| `UdpSetup.NoDeadlock` | netsu-rs/src/server.rs:1001-1008 | No reachable state is stuck before both sides have all streams. |
| `UdpSetup.SetUpCompletes` | netsu-rs/src/client.rs:671-690 | Set-up takes at most sixteen steps a stream plus seven. |
| `SignalRoomProofs.NextKeeps` | apps/rendez-key/src/signal/room.ts:110-334 | Every event, including the resumption of a suspended bind, keeps the room invariant. |
| `SignalRoomProofs.ReachableInv` | apps/rendez-key/src/signal/room.ts:110-334 | It holds in every reachable room. |
| `SignalRoomProofs.OneSocketPerRole` | apps/rendez-key/src/signal/room.ts:356-438 | At most one open socket holds each role, in whatever order suspended checks resume. |
| `SignalRoomProofs.BudgetsHold` | apps/rendez-key/src/signal/room.ts:440-529 | Descriptions are a prefix of joiner's offer, listener's answer; byte and candidate counters equal the forwarded history and stay within 1 MiB and 16. |
| `SignalRoomProofs.AlarmIsInTime` | apps/rendez-key/src/signal/room.ts:608-622 | A live room has at most four sockets and an alarm no later than its expiry and every bind deadline. |
| `SignalRoomProofs.EarliestCovers` | apps/rendez-key/src/signal/room.ts:608-622 | The alarm time chosen is the earliest of expiry and all bind deadlines. |
| `SignalRoomProofs.ForwardedExactlyWhen` | apps/rendez-key/src/signal/room.ts:213-256 | A frame is forwarded exactly when the peer is present and order and budgets allow; otherwise the sender is closed and nothing is counted. |
| `SignalRoomProofs.OnlyFramesAreForwarded` | apps/rendez-key/src/signal/room.ts:213-274 | No other event adds to the forwarded history. |
| `SignalRoomProofs.ClosedStepStays` | apps/rendez-key/src/signal/room.ts:573-606 | One event leaves a closed room's row, history and missing alarm alone. |
| `SignalRoomProofs.ClosedIsFinal` | apps/rendez-key/src/signal/room.ts:573-606 | So does every continuation, suspended binds included. |
| `SignalRoomProofs.AlarmEvictsLateSockets` | apps/rendez-key/src/signal/room.ts:306-334 | The alarm closes exactly the unbound sockets past their deadline. |
| `SignalRoomProofs.RoleKeptExactlyWhen` | apps/rendez-key/src/signal/room.ts:403-420 | A bound socket keeps its role except exactly when its own suspended listener bind resumes after it became the joiner. |
| `SignalRoomProofs.RoleCanChange` | apps/rendez-key/src/signal/room.ts:403-420 | A run in which that happens. |
| `SignalRoomObject.SignalRoom.Promises` | apps/rendez-key/src/signal/room.ts:356-622 | A valid room object has one open socket per role, counters equal to its forwarded frames within order and budgets, and its alarm in time. |
| `SignalRoomObject.SignalRoom.EventHandled` | apps/rendez-key/src/signal/room.ts:110-334 | Every event leaves a valid room whose promises hold, whose history only grew, and whose closed row did not change. |
| `SignalRoomObject.SignalRoom.BoundSocket` | apps/rendez-key/src/signal/room.ts:356-367 | Finds a socket holding the role exactly when there is one. |
| `SignalRoomObject.SignalRoom.ScheduleNextAlarm` | apps/rendez-key/src/signal/room.ts:608-622 | The scheduling loop sets the specified alarm, in time for expiry and every bind deadline. |
| `SignalRoomObject.SignalRoom.SafeClose` | apps/rendez-key/src/signal/room.ts:544-571 | Closes one socket and changes nothing else; a valid room stays valid. |
| `SignalRoomObject.SignalRoom.CloseRoom` | apps/rendez-key/src/signal/room.ts:573-606 | Closes the room once, keeping an earlier reason; a valid room stays valid. |
| `SignalRoomObject.SignalRoom.Initialize` | apps/rendez-key/src/signal/room.ts:110-151 | Stores the first hash, reports creation and ownership, and leaves the room's promises. |
| `SignalRoomObject.SignalRoom.Fetch` | apps/rendez-key/src/signal/room.ts:179-211 | Accepts a socket exactly in a live, unexpired room with a place left, adding it unbound, and leaves the room's promises. |
| `SignalRoomObject.SignalRoom.WebSocketMessage` | apps/rendez-key/src/signal/room.ts:213-274 | Handles one frame as the room's transition does and leaves the room's promises. |
| `SignalRoomObject.SignalRoom.BindSocket` | apps/rendez-key/src/signal/room.ts:369-386 | Binds a joiner or suspends a listener's check; a valid room stays valid. |
| `SignalRoomObject.SignalRoom.ResumeBind` | apps/rendez-key/src/signal/room.ts:388-398 | Resumes a suspended check with the attachment it had read, and leaves the room's promises whatever happened meanwhile. |
| `SignalRoomObject.SignalRoom.FinishBind` | apps/rendez-key/src/signal/room.ts:399-438 | Re-checks the role and writes the bind; a valid room stays valid. |
| `SignalRoomObject.SignalRoom.Forward` | apps/rendez-key/src/signal/room.ts:440-529 | Forwards or rejects one frame; a valid live room stays valid. |
| `SignalRoomObject.SignalRoom.WebSocketClose` | apps/rendez-key/src/signal/room.ts:276-288 | Handles a closing socket and leaves the room's promises. |
| `SignalRoomObject.SignalRoom.WebSocketError` | apps/rendez-key/src/signal/room.ts:290-304 | Handles a failing socket and leaves the room's promises. |
| `SignalRoomObject.SignalRoom.AlarmFired` | apps/rendez-key/src/signal/room.ts:306-334 | Handles the alarm: expiry, evictions, the next alarm; leaves the room's promises. |
| `SignalRoomObject.SignalRoom.EvictLateSockets` | apps/rendez-key/src/signal/room.ts:319-332 | Closes exactly the unbound sockets past their deadline. |
| `Allocation.NextKeepsInv` | apps/rendez-key/src/routes/create-signal-room.ts:35-76 | Every step of every allocation, with calls lost before, after or long before their commit, keeps ownership and call counts. |
| `Allocation.ReturnedRoomIsOwned` | apps/rendez-key/src/routes/create-signal-room.ts:35-76 | A returned code's room stores that allocation's hash then and ever after; at most ten calls are made. |
| `Allocation.CodesNeverShared` | apps/rendez-key/src/routes/create-signal-room.ts:70-73 | Allocations with different hashes never return the same code. |
| `Allocation.RetryRecognisesOwnCommit` | apps/rendez-key/src/routes/create-signal-room.ts:59-68 | A call that committed and then failed is recognised by the retry, whatever happens in between. |
| `Allocation.SignalRooms.InitializeRoom` | apps/rendez-key/src/signal/room.ts:110-151 | A room keeps its first hash; an answered call says truly whether it is the caller's. |
| `Allocation.SignalRooms.Allocate` | apps/rendez-key/src/routes/create-signal-room.ts:49-75 | The retry loop returns an owned code, or nothing after five attempts each taken by another or lost twice. |
| `Entries.AnsweredExactlyWhen` | apps/rendez-key/src/repositories/entries.ts:54-102 | A claim gets the value exactly when the row is live or its last claim had the same id. |
| `Entries.ReusedIdReadsDeadRow` | apps/rendez-key/src/repositories/entries.ts:76-86 | After a create and a claim, the same claim id reads the spent row past its expiry. |
| `Entries.ClaimsMatchBudget` | apps/rendez-key/src/repositories/entries.ts:54-102 | With fresh ids, in every history, each entry's successful claims equal its budget less its remaining reads, and never exceed its own budget, also once its row is gone. |
| `Entries.NeverClaimedAfterExpiry` | apps/rendez-key/src/repositories/entries.ts:68-74 | No claim succeeds at or after expiry. |
| `Entries.CleanupIsInvisible` | apps/rendez-key/src/repositories/entries.ts:104-120 | Whatever clean-ups run, a store that never deletes and only lets creates replace dead rows gives the same answers. |
| `Entries.EntryStore.CreateEntry` | apps/rendez-key/src/repositories/entries.ts:31-52 | Inserts a row or fails on a taken code or a bad budget, keeping claims within budgets. |
| `Entries.EntryStore.ClaimEntry` | apps/rendez-key/src/repositories/entries.ts:54-102 | The update-then-select transaction; with a fresh id it succeeds only before expiry and within the entry's budget. |
| `Entries.EntryStore.CleanupEntries` | apps/rendez-key/src/repositories/entries.ts:104-120 | Deletes exactly the rows that are not live and counts them, keeping claims within budgets. |
| `Mux.EchoAlwaysMatches` | netsu-rs/src/mux/runner.rs:361-377 | Every echo read matches a recorded probe and becomes exactly one sample. |
| `Mux.NextKeepsProbes` | netsu-rs/src/mux/runner.rs:296-377 | Every step keeps each recorded probe, once and in order, among samples, echoes, receiver, wire and writer. |
| `Mux.EveryProbeAccounted` | netsu-rs/src/mux/runner.rs:254-279 | At any end, samples and leftover send times are disjoint, cover the recorded probes and add up. |
| `Mux.CleanRunHasNoTimeouts` | netsu-rs/src/mux/runner.rs:254-279 | When nothing failed and everything was read, there is no timeout. |
| `Mux.TallyWithinSentExactlyWhen` | netsu-rs/src/mux/receiver.rs:68-89 | The tally is 13 plus length over in-window messages drained; it is within the bytes counted as sent exactly unless the message being counted is already drained and outweighs all out-of-window bytes. |
| `Mux.TallyCanLead` | netsu-rs/src/mux/runner.rs:346-348 | A run in which the tally is ahead of the count. |
| `Mux.FinalAccounting` | netsu-rs/src/mux/runner.rs:237-279 | After the writer has ended or broken, bytes sent are all bytes written, the tally is at most that, and samples plus timeouts are the probes. |
| `Mux.DrainStream` | netsu-rs/src/mux/receiver.rs:68-89 | The drain loop's tally and echoes, up to a payload over the cap. |
| `Mux.ReadEchoes` | netsu-rs/src/mux/runner.rs:361-377 | The reader loop turns each matched echo into one sample and leaves the rest. |
| `Input.RefusedExactlyWhen` | netsu-rs/src/demo/input.rs:147-158 | A push fails exactly when a transition meets a queue full of transitions, and then changes nothing. |
| `Input.NoTransitionLost` | netsu-rs/src/demo/input.rs:118-178 | For any pushes and pops, transitions popped then queued are those accepted, in order; capacity holds and no two moves are adjacent. |
| `Input.OrderKept` | netsu-rs/src/demo/input.rs:136-169 | Everything popped then queued comes from the accepted pushes in their order. |
| `Input.LatestMoveKept` | netsu-rs/src/demo/input.rs:136-146 | An accepted move with room is the last event queued. |
| `Input.NewQueue` | netsu-rs/src/demo/input.rs:124-130 | A queue of no capacity is refused. |
| `Input.InputQueue.PushEvent` | netsu-rs/src/demo/input.rs:136-161 | The push method and its search loop compute the specified queue and answer. |
| `Input.InputQueue.PopEvent` | netsu-rs/src/demo/input.rs:167-169 | Pops the front event. |

## Left out

- The control loops of client and server in `TestSession` are modelled on values, because
  their interleaving has to be explicit; update in place is not captured there.
- Timeouts, aborts and transport failures in the `TestSession` product; `AcceptRule`,
  `Teardown`, `RustClient` and `Mux` have them.
- WebRTC in `Teardown`: its capacity wait has no time limit, so teardown there can wait for the peer.
- iroh, TLS, Quinn and webrtc-rs: channels are reliable and ordered at the pipe boundary.
- JSON, zod and postcard encodings: bodies are bytes or values with a size.
- Input validation of `initialize`, the upgrade's HTTP checks, tokens, rate limits and
  hashing: the secret check is an arbitrary answer with a suspension point.
- Server notices sent to room sockets (ready, peer, error texts): only forwarded frames are kept.
- Floating-point rounding and nanosecond truncation in the pacer: time is real-valued.
- Lost and reordered datagrams in UDP set-up; payload datagrams, jitter and loss accounting.
- Stray datagrams that are not hellos: both loops skip them.
- Interval meters, resource sampling, histograms, report shaping, command line and terminal UI.
- `InputGate` and `PressedState`, the interval between clean-ups, and cookie and code encodings: only easy members.
- The TypeScript server: it has no slot counter to conserve.
