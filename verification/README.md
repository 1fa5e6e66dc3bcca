# A verified model of rsocket-js

RSocket is a binary protocol for request/response, request/stream and channel interactions over a byte
stream. This project models the protocol machinery of rsocket-js in Dafny and proves what that machinery is
for. Each object that changes its fields is a class whose methods are proved against a function on values;
the theorems are about those functions, over every run.

- **Resumption** (`FrameStore`, `ResumableMultiplexer`, `ResumeProtocol`, `ResumeSafety`, `ResumeTheorems`,
  `ResumeTalk`, `ResumeCompletion`). Two peers, from the client's SETUP on, and the two queues of their
  connection, which a disconnection empties. In every run the stream frames each peer records are a prefix of
  what the other has sent, exactly once and in order; the frames about the connection arrive in order and
  complete while it is up; nothing but an ERROR closes a session; and a run can be continued until everything
  has arrived exactly as long as the session is alive.
- **Channels** (`ChannelStreams`, `ChannelSystem`, `ChannelQueues`, `ChannelInvariant`, `ChannelMoves`,
  `ChannelDeliveries`, `ChannelRuns`, `ChannelPayloads`, `ChannelTheorems`, `ChannelErrors`,
  `ChannelLateError`, `ChannelTellings`, `ChannelExtensions`; the objects in `RequestChannelStream`). A
  requester and a responder, each with two halves, joined by FIFO queues, with the calls of both applications, whatever their payloads, interleaved in
  any way with deliveries and with the loss of either connection. The ends agree whenever nothing is in
  flight, demand is conserved, payloads that the fragmenter can deliver arrive in order and all of them
  before the completion, extensions arrive in order, the responder's signals are well formed, and the
  requester's are under an exact condition; and each application is told of the end of each half exactly when
  it has not ended that half itself, with two exact exceptions.
- **Requests** (`RequestStreams`, `RequesterRule`, `RequestPair`, `RequestPairMoves`, `RequestPairRuns`,
  `RequestPairTheorems`, `RequestPairTellings`, `RequestPairExtensions`; the objects in
  `RequestStreamStream`). A requester obeys the single-terminal rule against any peer whatever; with a
  responder of this library its demand and the extensions arrive, both ends finish together, both
  applications are told so exactly when they have not finished the stream themselves, and the frames that
  either end refuses are known exactly.
- **Frames of streams** (`Extensions`, `AnyPeer`). What every end sends, and what it gives the stream up over
  against any peer, with the numbers of the protocol.
- **Fragmentation** (`Fragmenter`, `FragmentGenerators`, `Reassembler`, `FragmentationLaws`, `FragmentShapes`,
  `FragmentSizes`, `Sending`). The exact condition under which reassembling undoes fragmenting, the shape of the
  fragments, and that all but the last one are full.
- **Wire** (`Frames`, `Codec`, `WireFormat`, `Serializer`, `TcpDuplexConnection`, `WirePipeline`). The layout
  of every frame in literal numbers, serializers that fill their buffers exactly, round trips, parsing that
  does not depend on how the bytes are cut, and the whole way from payloads to payloads.
- **Flow control and admission** (`BufferingSubscriber`, `LeaseHandler`). The re-entrant drain loop of the
  RxJS adapter loses no wake-up; leases admit exactly what they grant, in order, and never a request that has
  been cancelled while it waited.

## What the code does not keep

Where a promise is false of the code, the code is modelled as it is, and the condition is exact.

- A channel's requester can be told of the end twice. A responder that holds fragments answers REQUEST_N and
  EXT with ERROR, even after its last word, and a requester takes ERROR whatever it has heard before. Its
  signals are well formed if and only if no ERROR arrives at a registered requester whose inbound half is
  done (`SignalsAreWellFormed`); it takes a late refusal (`LateErrorIsRefusal`, `StrikesNeedARefusal`), as in
  `ToldTwice`. A requester that holds fragments gives the stream up over REQUEST_N (`RefusalsAreExact`).
- A channel's requester whose last frame says COMPLETE and makes the reassembler throw is never told of the
  end (`ExceptionLeavesUntold`). A responder's application that raises an error within its handler is told of
  it afterwards only if the constructor called the handler: for a fragmented request the code has an empty
  branch there (`ErrorWithinHandler`).
- The two ends of a channel read COMPLETE together with FOLLOWS differently (`CompleteWithFollows`).
- A resumable session whose first connection is lost before the server has read its SETUP can never be
  resumed: the client reconnects with RESUME only, and the server does not know the session
  (`OnlyErrorsClose`, `CompletesOnlyIfAlive`).
- A failing `dropTo` throws after it has dropped frames (`FailingDropStillDrops`).
- `fragmentWithRequestN` subtracts the length of requestN twice. When that leaves room for -1 or -2 bytes, a
  fragmented request is garbled if there is more data than the fragment size (at least as much, over the
  wire), and its first frame exceeds its limit if there are more than three bytes of data
  (`FragmentsReassemble`, `FirstFrameSize`, `DoubleChargeGarbles`).
- A fragmented payload of metadata alone that is not complete never ends: its last frame still announces
  another one (`FragmentsWellShaped`, `MetadataAloneNeverEnds`). Every request-response and request-stream
  with large metadata and no data is of this kind, and a responder refuses the demand that follows it
  (`OneFlagRefusals`).
- A requester whose last fragment comes without data, after fragments with data, finishes without a word to
  its receiver (`LeftUntold`, `ReceiverNeverTold`).
- `sizeOfFrame` of SETUP goes by the presence of a resume token, its serializer by the flag; they agree if
  and only if those do (`FillsItsBuffer`, `TokenWithoutFlag`).
- In the RxJS adapter an error reaches the subscriber only when nothing is buffered; otherwise the stream
  looks completed (`BufferedErrorIsSwallowed`, `ErrorBehindAnItem`).
- Leases use the wall clock; when it goes back, a new request can overtake those that wait
  (`OvertakingNeedsTheClock`, `ClockGoesBack`).

## Assumptions

- `fragmentSize` is 0, which switches fragmentation off, or at least 7; the generators can stall on smaller
  ones. Application payloads have data, possibly empty: without any, `isFragmentable` throws.
- An absent buffer is `None`, whether the code has null or undefined; an empty one is `Some([])`. On the wire
  both are the same.
- Text is bytes; mime types are ASCII and read back with seven bits. Positions are below 2^53 and resume
  tokens at most 32767 bytes, as the codec writes them; numbers that Node refuses to write are outside
  `Serializable`.
- An old connection delivers nothing once the new one is up, and no frame is routed after the multiplexer has
  closed, which leaves its entries in the registry. METADATA_PUSH is on stream 0 and is never stored.
- One client and one server share one session: the RESUME frame of the reconnecting client carries no token
  here, the server's session store either has the session or not, and the server accepts the SETUP. The
  version numbers of RESUME are swapped, as in `packages/rsocket-core/src/RSocketConnector.ts:99-108`.
- Frames are handled, stored and sent after an ERROR as before it, because the multiplexer does; its
  application would disconnect, which is a step.
- In the two-party models each end has its own connection, which may be lost at any moment, and which an
  exception of the reassembler closes; what an end sends afterwards goes nowhere. Handlers do not throw, and
  the requester's application sends elements and errors only when the stream is ready.
- In the drain loop null and undefined are not among the values of the observable.

## Model

| member | source | states |
|---|---|---|
| `ResumeTheorems.ExactlyOnceInOrder` | packages/rsocket-core/src/ClientServerMultiplexerDemultiplexer.ts:208-325 | after any run of stream frames, connection frames, deliveries, disconnections and resumptions, from SETUP on, the stream frames each peer has recorded are a prefix of all stream frames the other has sent since the start |
| `ResumeTheorems.QuiescentSessionIsComplete` | packages/rsocket-core/src/ClientServerMultiplexerDemultiplexer.ts:256-325 | with both ends resumed and nothing in flight, each peer has recorded everything the other sent |
| `ResumeTalk.ResumeNeverFails` | packages/rsocket-core/src/ClientServerMultiplexerDemultiplexer.ts:226-317 | as long as no end was asked to send an ERROR and the SETUP was not lost with its connection, no session is closed and no connection refused; in any run the first available position of each sender never passes what its receiver has recorded, which never passes what was sent, and what is acknowledged in flight can be dropped |
| `ResumeTalk.ConnectionFramesArriveInOrder` | packages/rsocket-core/src/ClientServerMultiplexerDemultiplexer.ts:208-254 | while the connection is up, the connection frames a peer has handled on it and those in flight to it are, in order, exactly those that the other was asked to send on it: SETUP, KEEPALIVE, LEASE, ERROR and METADATA_PUSH |
| `ResumeTalk.ErrorClosesBoth` | packages/rsocket-core/src/ClientServerMultiplexerDemultiplexer.ts:213-219 | an ERROR closes the end that sends it at once and, when nothing is in flight any more, both ends, and the server no longer has the session |
| `ResumeTalk.OnlyErrorsClose` | packages/rsocket-core/src/ClientServerMultiplexerDemultiplexer.ts:226-248 | the server's end is closed exactly when it was asked to send an ERROR or has handled one, and can be resumed exactly from its SETUP until then; the client's, when it was asked or has handled one, and otherwise only when it has been refused, which takes a server without the session; every ERROR handled was asked for |
| `ResumeTalk.StepTalks` | packages/rsocket-core/src/ClientServerMultiplexerDemultiplexer.ts:208-254 | every step keeps the account of the connection frames |
| `ResumeTalk.StepIsSound` | packages/rsocket-core/src/ClientServerMultiplexerDemultiplexer.ts:208-407 | every step keeps the account of what closes the two ends |
| `ResumeCompletion.ResumptionCompletes` | packages/rsocket-core/src/ClientServerMultiplexerDemultiplexer.ts:256-338 | liveness: every run whose connection is up, or whose session the server still has, can be continued, by at most one reconnection and deliveries alone, until each peer has recorded everything sent before |
| `ResumeCompletion.CompletesOnlyIfAlive` | packages/rsocket-core/src/RSocketServer.ts:200-241 | in any other run nothing that is tried later reaches either end any more |
| `ResumeCompletion.ReconnectAsks` | packages/rsocket-core/src/RSocketConnector.ts:99-108 | what a reconnecting client says: the bytes it has recorded of the server's log, and where its own stored frames begin, with the version numbers swapped |
| `ResumeCompletion.RefusalIsSent` | packages/rsocket-core/src/RSocketServer.ts:176-241 | a first frame other than SETUP, and a RESUME of a session that the server does not have, is answered with an ERROR, code 2 or 4, and changes nothing else |
| `ResumeTheorems.StepKeepsInv` | packages/rsocket-core/src/ClientServerMultiplexerDemultiplexer.ts:208-407 | every step of the two peers keeps the invariant: windows of the two logs, acknowledgements in flight that are ordered frame boundaries, and the state of the handshake |
| `ResumeTheorems.ServerAccepts` | packages/rsocket-core/src/ClientServerMultiplexerDemultiplexer.ts:263-302 | the server accepts every RESUME of its client, drops exactly what the client has recorded, and answers RESUME_OK followed by all other stored frames |
| `ResumeTheorems.ClientResumesKeepsInv` | packages/rsocket-core/src/ClientServerMultiplexerDemultiplexer.ts:304-321 | on RESUME_OK the client drops what the server has recorded and sends the rest, which restores the invariant of an open session |
| `ResumeSafety.ReceivingAck` | packages/rsocket-core/src/Resume.ts:93-110 | an acknowledged position in flight always lets `dropTo` succeed, and leaves exactly the frames from that position on |
| `ResumeSafety.ReceivingStream` | packages/rsocket-core/src/ClientServerMultiplexerDemultiplexer.ts:249-253 | an arriving stream frame is the next one of the sender's log, and the receiver's position advances by its size |
| `ResumableMultiplexers.KeepAliveFromAnyPeer` | packages/rsocket-core/src/ClientServerMultiplexerDemultiplexer.ts:226-241 | from any peer: KEEPALIVE is handed on; if its position is a frame boundary of what is stored exactly the frames before it are dropped, otherwise ERROR 0x101 is sent and the session is closed |
| `ResumableMultiplexers.ResumeFromAnyPeer` | packages/rsocket-core/src/ClientServerMultiplexerDemultiplexer.ts:263-302 | from any peer: RESUME is rejected with 0x4 if it begins behind what was received, answered with 0x101 if its position is no frame boundary of what is stored, and otherwise with RESUME_OK and all frames stored from there |
| `ResumableMultiplexers.ResumeOkFromAnyPeer` | packages/rsocket-core/src/ClientServerMultiplexerDemultiplexer.ts:304-321 | from any peer: RESUME_OK sends all frames stored from its position on or, if that is no frame boundary, ERROR 0x101 and then what is left |
| `ResumableMultiplexers.ResumableMultiplexer.SendFrame` | packages/rsocket-core/src/ClientServerMultiplexerDemultiplexer.ts:208-224 | stream frames are stored before they are sent, KEEPALIVE carries the received position, a connection ERROR closes the session and takes it out of the session store, any other frame is sent as it is |
| `ResumableMultiplexers.ResumableMultiplexer.HandleFrame` | packages/rsocket-core/src/ClientServerMultiplexerDemultiplexer.ts:226-254 | stream frames are recorded and KEEPALIVE drops to its position before the frame is handed on; a failing drop answers ERROR and closes; a connection ERROR closes the session and takes it out of the session store |
| `ResumableMultiplexers.ResumableMultiplexer.ResumeOn` | packages/rsocket-core/src/ClientServerMultiplexerDemultiplexer.ts:256-325 | the whole of `resume`: rejection, both failures of `dropTo`, RESUME_OK, and the stored frames on the new outbound, also after a failing RESUME_OK |
| `ResumableMultiplexers.ResumableMultiplexer.Drain` | packages/rsocket-core/src/Resume.ts:112-130 | all stored frames, oldest first |
| `FrameStores.DropToMovesTheWindow` | packages/rsocket-core/src/Resume.ts:93-110 | for a store that holds the part of a log from some frame on, `dropTo` succeeds if and only if the position is a frame boundary within that part, and then removes exactly the frames before it |
| `FrameStores.FailingDropStillDrops` | packages/rsocket-core/src/Resume.ts:93-110 | a failing `dropTo` moves no position, but the frames that end before the position, and the one it falls into, are gone |
| `FrameStores.StoringExtendsTheLog` | packages/rsocket-core/src/Resume.ts:60-75 | the stored frames stay a suffix of everything stored, and last sent minus first available is the sum of their sizes |
| `FrameStores.FrameStore.StoreSent` | packages/rsocket-core/src/Resume.ts:60-75 | appends the frame and advances the sent position by its size |
| `FrameStores.FrameStore.Record` | packages/rsocket-core/src/Resume.ts:77-91 | advances the received position by the size of the frame |
| `FrameStores.FrameStore.DropToPosition` | packages/rsocket-core/src/Resume.ts:93-110 | the loop that shifts frames off the store: the frames left, the new first position, and whether it throws, in which case the frames shifted are gone but the position stays |
| `ChannelTheorems.EndsAgreeAtQuiescence` | packages/rsocket-core/src/RequestChannelStream.ts:157-411 | over every interleaving of calls, deliveries and losses of connections, and for any payloads: while both connections are open and nothing is in flight, what is done at one end is done at the other, half by half, and both registries agree |
| `ChannelTheorems.RegistryIsExact` | packages/rsocket-core/src/RequestChannelStream.ts:88-463 | while its connection is open an end is registered if and only if it is ready and not both of its halves are done; an end that has lost its connection has both halves done |
| `ChannelTheorems.DemandIsConserved` | packages/rsocket-core/src/RequestChannelStream.ts:272-288 | while both connections are open the demand told to the peer's application, kept for it and in flight is exactly the demand accepted, in both directions |
| `ChannelTheorems.PayloadsArriveInOrder` | packages/rsocket-core/src/RequestChannelStream.ts:88-198 | if the fragmenter can deliver all payloads of a direction, the application gets, unchanged and in order, a prefix of them; all of them when the end is open and nothing is in flight, and all of them before it hears of the completion |
| `ChannelTheorems.ResponderSignalsAreWellFormed` | packages/rsocket-core/src/RequestChannelStream.ts:548-865 | in every run the responder's application gets at most one terminal signal, no element after it and at most one cancellation |
| `ChannelTellings.RequesterIsToldOfEveryEnd` | packages/rsocket-core/src/RequestChannelStream.ts:157-463 | over every run: a requester's application whose inbound half is done has been told of its end exactly unless it has cancelled it itself or an exception was thrown, and has been told to stop sending exactly when its outbound half was ended by anything but its own last word |
| `ChannelTellings.ResponderIsToldOfEveryEnd` | packages/rsocket-core/src/RequestChannelStream.ts:532-865 | over every run: the same of the responder's application, once its handler has returned, but for a half that ended within the handler and was not made up for |
| `ChannelTellings.ClosingTells` | packages/rsocket-core/src/RequestChannelStream.ts:439-463 | an end that closes tells its receiver of each half that was open: `cancel` for the outbound one, the error, or the completion without one, for the inbound one; the two ends do the same |
| `ChannelTellings.ExceptionLeavesUntold` | packages/rsocket-core/src/RequestChannelStream.ts:163-194 | an exception of the reassembler ends the requester's stream, and its application is told so if and only if the frame does not say COMPLETE |
| `ChannelTellings.ErrorWithinHandler` | packages/rsocket-core/src/RequestChannelStream.ts:570-611 | an error that the application raises within its handler reaches the receiver if and only if the constructor called the handler, at 532-536 |
| `ChannelTellings.StepTells` | packages/rsocket-core/src/RequestChannelStream.ts:88-865 | every step keeps the account of what the applications have been told and what they have ended themselves |
| `ChannelExtensions.ExtensionsArriveInOrder` | packages/rsocket-core/src/RequestChannelStream.ts:413-437 | over every run: the extensions an application is told of are, unchanged and in order, a prefix of those the other end has accepted, of those before it is ready the last one; the missing ones are in flight as long as the end takes frames |
| `Extensions.ExtensionReadBack` | packages/rsocket-core/src/RequestChannelStream.ts:248-258 | an extension is read from its frame as it was: type, content and whether it can be ignored |
| `AnyPeer.RequesterSays` | packages/rsocket-core/src/RequestChannelStream.ts:290-437 | the requester sends CANCEL exactly when its application cancels an open inbound half, ERROR exactly when it raises an error (0x201) or cancels with only the outbound half open (0x203), and every frame under the id of the stream |
| `AnyPeer.RequesterGivesUp` | packages/rsocket-core/src/RequestChannelStream.ts:157-270 | against any peer: the requester gives the stream up, with CANCEL and a word for each open half, exactly over an unexpected frame and over REQUEST_N between fragments |
| `AnyPeer.ResponderSays` | packages/rsocket-core/src/RequestChannelStream.ts:686-829 | the responder sends CANCEL exactly when its application cancels an open inbound half, and ERROR (0x201) exactly when it raises an error with its outbound half open |
| `AnyPeer.ResponderGivesUp` | packages/rsocket-core/src/RequestChannelStream.ts:548-684 | against any peer: the responder gives the stream up, with ERROR 0x203 and, once there is a receiver, a word for each open half, exactly over an unexpected frame and over REQUEST_N and EXT while it holds fragments or puts the request together |
| `AnyPeer.BornUnderItsId` | packages/rsocket-core/src/RequestChannelStream.ts:516-525 | a request makes a responder under its own stream id, which is registered |
| `AnyPeer.CompleteWithFollows` | packages/rsocket-core/src/RequestChannelStream.ts:554-568 | COMPLETE together with FOLLOWS ends the stream at a requester and is a mere fragment at a responder |
| `AnyPeer.CompleteIsKept` | packages/rsocket-core/src/RequestChannelStream.ts:507-517 | a request whose first fragment says COMPLETE is the last element of its direction, and the handler is told so, and of the demand of that fragment |
| `ChannelErrors.SignalsAreWellFormed` | packages/rsocket-core/src/RequestChannelStream.ts:230-246 | the requester's application gets at most one terminal signal, no element after it and at most one cancellation if and only if no ERROR arrives while it is registered with its inbound half done |
| `ChannelErrors.StrikesNeedARefusal` | packages/rsocket-core/src/RequestChannelStream.ts:655-683 | such an ERROR arrives only in a run in which the responder has refused a frame with its outbound half done |
| `ChannelErrors.LateErrorIsRefusal` | packages/rsocket-core/src/RequestChannelStream.ts:655-683 | a responder whose outbound half is done sends an ERROR exactly when REQUEST_N or EXT arrives while it holds fragments |
| `ChannelErrors.RefusalsAreExact` | packages/rsocket-core/src/RequestChannelStream.ts:548-684 | between two ends of this library, the only frames that make one of them give the stream up are REQUEST_N and, at the responder, EXT, exactly while it holds fragments |
| `ChannelErrors.DeliverableIsNeverRefused` | packages/rsocket-core/src/RequestChannelStream.ts:157-270 | as long as the fragmenter can deliver all payloads of a direction, no frame of it is refused and none makes the reassembler throw |
| `ChannelLateError.ToldTwice` | packages/rsocket-core/src/RequestChannelStream.ts:230-246 | a run in which the requester's application is told of the completion and then of an error: large metadata without data, then an extension |
| `ChannelRuns.StepKeepsInv` | packages/rsocket-core/src/RequestChannelStream.ts:88-865 | every call of either application, every delivery and every loss of a connection keeps the invariant of the pair |
| `ChannelRuns.ReadyKeepsInv` | packages/rsocket-core/src/RequestChannelStream.ts:88-144 | becoming ready puts the request, with the whole demand collected before, and a pending extension on the way |
| `ChannelDeliveries.RequesterTakesFrame` | packages/rsocket-core/src/RequestChannelStream.ts:157-270 | any frame that a responder sends, in any state of the requester: halves are done only as the frame says or together with a CANCEL, and an exception ends the connection |
| `ChannelDeliveries.ResponderTakesFrame` | packages/rsocket-core/src/RequestChannelStream.ts:548-684 | any frame that a requester sends, in any state of the responder |
| `ChannelDeliveries.LostLinked` | packages/rsocket-core/src/ClientServerMultiplexerDemultiplexer.ts:153-166 | the loss of a connection, at any moment, leaves what the other end relies on |
| `ChannelPayloads.StepFlows` | packages/rsocket-core/src/RequestChannelStream.ts:88-684 | every step keeps the account of the payloads: delivered and in flight is what the sender has accepted, as long as the fragmenter can deliver it |
| `ChannelPayloads.FlowTakes` | packages/rsocket-core/src/RequestChannelStream.ts:166-190 | an arriving frame moves its payload from what is in flight to what is delivered, and a completion comes after all of them |
| `ChannelQueues.OutcomeAppend` | packages/rsocket-core/src/Reassembler.ts:25-80 | what is in flight delivers first what was sent first: appending frames continues where the earlier ones lead |
| `ChannelQueues.ElementOutcome` | packages/rsocket-core/src/Fragmenter.ts:53-190 | the frames of an element in flight deliver it, and leave no fragment behind |
| `ChannelQueues.RequestOutcome` | packages/rsocket-core/src/Fragmenter.ts:192-330 | the frames of a request in flight deliver it, and leave no fragment behind |
| `StreamSignals.WellFormedMeans` | packages/rsocket-core/src/RequestChannelStream.ts:439-463 | the summary of a signal log says exactly what the log contains: terminal signals, elements after them, cancellations |
| `RequestChannelStreams.RequestChannelRequesterStream.constructor` | packages/rsocket-core/src/RequestChannelStream.ts:73-86 | a requester that is not ready |
| `RequestChannelStreams.RequestChannelRequesterStream.HandleReady` | packages/rsocket-core/src/RequestChannelStream.ts:88-144 | state and frames sent, fragmented or not; a cancelled requester refuses |
| `RequestChannelStreams.RequestChannelRequesterStream.HandleReject` | packages/rsocket-core/src/RequestChannelStream.ts:146-155 | both halves done and one error, once |
| `RequestChannelStreams.RequestChannelRequesterStream.Handle` | packages/rsocket-core/src/RequestChannelStream.ts:157-270 | every frame type in every state |
| `RequestChannelStreams.RequestChannelRequesterStream.HandleCancel` | packages/rsocket-core/src/RequestChannelStream.ts:201-214 | CANCEL ends the outbound half, once |
| `RequestChannelStreams.RequestChannelRequesterStream.HandleRequestN` | packages/rsocket-core/src/RequestChannelStream.ts:216-228 | REQUEST_N is passed on, dropped once outbound is done, and refused while fragments are held |
| `RequestChannelStreams.RequestChannelRequesterStream.HandlePayload` | packages/rsocket-core/src/RequestChannelStream.ts:163-194 | elements, fragments and completion, with an exception of the reassembler |
| `RequestChannelStreams.RequestChannelRequesterStream.HandleError` | packages/rsocket-core/src/RequestChannelStream.ts:230-246 | ERROR ends both halves, whatever their state |
| `RequestChannelStreams.RequestChannelRequesterStream.Reject` | packages/rsocket-core/src/RequestChannelStream.ts:261-269 | close with an error, CANCEL, unregistered |
| `RequestChannelStreams.RequestChannelRequesterStream.RequestMore` | packages/rsocket-core/src/RequestChannelStream.ts:272-288 | kept for the request before the stream is ready, REQUEST_N afterwards, nothing once inbound is done |
| `RequestChannelStreams.RequestChannelRequesterStream.CancelStream` | packages/rsocket-core/src/RequestChannelStream.ts:290-321 | CANCEL, or ERROR when inbound was done before |
| `RequestChannelStreams.RequestChannelRequesterStream.OnNext` | packages/rsocket-core/src/RequestChannelStream.ts:323-358 | an element and, with the last one, the end of the outbound half |
| `RequestChannelStreams.RequestChannelRequesterStream.OnComplete` | packages/rsocket-core/src/RequestChannelStream.ts:360-383 | completion, also before the stream is ready |
| `RequestChannelStreams.RequestChannelRequesterStream.OnError` | packages/rsocket-core/src/RequestChannelStream.ts:385-411 | ERROR, both halves done, the receiver told unless it was done |
| `RequestChannelStreams.RequestChannelRequesterStream.OnExtension` | packages/rsocket-core/src/RequestChannelStream.ts:413-437 | an extension, kept for later before the stream is ready |
| `RequestChannelStreams.RequestChannelRequesterStream.Close` | packages/rsocket-core/src/RequestChannelStream.ts:439-463 | the connection closes: the receiver is cancelled if the outbound half was open, and told of the error, or of the completion without one, if the inbound half was |
| `RequestChannelStreams.RequestChannelResponderStream.constructor` | packages/rsocket-core/src/RequestChannelStream.ts:495-546 | from a REQUEST_CHANNEL frame, whole or the first fragment |
| `RequestChannelStreams.RequestChannelResponderStream.HandlerHasReturned` | packages/rsocket-core/src/RequestChannelStream.ts:532-536 | an error raised within the handler is passed on only if the constructor called it |
| `RequestChannelStreams.RequestChannelResponderStream.Handle` | packages/rsocket-core/src/RequestChannelStream.ts:548-684 | every frame type in every state |
| `RequestChannelStreams.RequestChannelResponderStream.HandlePayload` | packages/rsocket-core/src/RequestChannelStream.ts:554-614 | fragments, the request they make up, elements and completion |
| `RequestChannelStreams.RequestChannelResponderStream.TakePayload` | packages/rsocket-core/src/RequestChannelStream.ts:570-611 | a complete payload calls the handler once and is an element afterwards |
| `RequestChannelStreams.RequestChannelResponderStream.Abort` | packages/rsocket-core/src/RequestChannelStream.ts:625-653 | ERROR and CANCEL end both halves; the receiver is told of each half that was not done |
| `RequestChannelStreams.RequestChannelResponderStream.Reject` | packages/rsocket-core/src/RequestChannelStream.ts:675-683 | ERROR, unregistered, closed |
| `RequestChannelStreams.RequestChannelResponderStream.OnError` | packages/rsocket-core/src/RequestChannelStream.ts:686-721 | ERROR, both halves done, the error deferred while the handler runs |
| `RequestChannelStreams.RequestChannelResponderStream.OnNext` | packages/rsocket-core/src/RequestChannelStream.ts:723-760 | an element and, with the last one, the end of the outbound half |
| `RequestChannelStreams.RequestChannelResponderStream.OnComplete` | packages/rsocket-core/src/RequestChannelStream.ts:762-780 | completion |
| `RequestChannelStreams.RequestChannelResponderStream.OnExtension` | packages/rsocket-core/src/RequestChannelStream.ts:782-798 | an extension, as long as one half is open |
| `RequestChannelStreams.RequestChannelResponderStream.RequestMore` | packages/rsocket-core/src/RequestChannelStream.ts:800-811 | REQUEST_N while inbound is open |
| `RequestChannelStreams.RequestChannelResponderStream.CancelStream` | packages/rsocket-core/src/RequestChannelStream.ts:813-829 | CANCEL ends the inbound half only |
| `RequestChannelStreams.RequestChannelResponderStream.Close` | packages/rsocket-core/src/RequestChannelStream.ts:831-865 | the connection closes: as the requester, once there is a receiver |
| `RequesterRule.SingleTerminal` | packages/rsocket-core/src/RequestStreamStream.ts:82-296 | against any peer: whatever frames arrive between the calls, the receiver gets at most one terminal signal and no element after it, CANCEL is the last frame sent, the registry is exact, and a stream that is done has told its receiver or was cancelled, not both, unless an exception occurred |
| `RequesterRule.DoneIsFinal` | packages/rsocket-core/src/RequestResponseStream.ts:76-272 | once done, nothing that happens brings a signal or a frame |
| `RequesterRule.DemandIsSent` | packages/rsocket-core/src/RequestStreamStream.ts:216-232 | the demand of the request and of all REQUEST_N frames is the initial demand plus everything requested while not done |
| `RequesterRule.LeftUntold` | packages/rsocket-core/src/RequestStreamStream.ts:142-168 | exactly the frames that finish a stream without a word to its receiver: a last fragment without data after fragments with data |
| `RequesterRule.ReceiverNeverTold` | packages/rsocket-core/src/RequestStreamStream.ts:142-168 | such a run: the stream is done, the connection closed, and the receiver has heard nothing |
| `RequesterRule.HandlesKeeps` | packages/rsocket-core/src/RequestStreamStream.ts:138-214 | any frame in any state keeps the rule; only an unexpected one is answered, with CANCEL |
| `RequesterRule.RequestAsks` | packages/rsocket-core/src/Fragmenter.ts:192-330 | however a request is fragmented, its frames together carry its demand once |
| `RequestPairTheorems.OneFlagAgrees` | packages/rsocket-core/src/RequestStreamStream.ts:138-411 | for both interactions, any payloads and every interleaving with losses of connections: while both connections are open and nothing is in flight, both ends are done or neither, and both registries agree |
| `RequestPairTheorems.DemandReachesTheResponder` | packages/rsocket-core/src/RequestStreamStream.ts:332-381 | while both connections are open, the demand told to the responder, kept for it and in flight is the demand the requester has accepted |
| `RequestPairTheorems.AnswersArriveInOrder` | packages/rsocket-core/src/RequestResponseStream.ts:134-208 | if the fragmenter can deliver them, the requester gets the responder's payloads in order, all of them before the completion, and the responder gets the request, once |
| `RequestPairTheorems.OneFlagSignals` | packages/rsocket-core/src/RequestStreamStream.ts:138-396 | in every run both applications get at most one terminal signal, no element after it, and at most one cancellation |
| `RequestPairTheorems.OneFlagRefusals` | packages/rsocket-core/src/RequestStreamStream.ts:350-411 | the only frames that make an end give the stream up are EXT while the requester holds fragments, and REQUEST_N and EXT while the responder puts the request together; payloads that the fragmenter can deliver cause neither that nor an exception |
| `RequestPairTellings.OneFlagEndsAreTold` | packages/rsocket-core/src/RequestStreamStream.ts:142-411 | over every run: a requester that is done has told its application of the end exactly unless that one has cancelled the stream or an exception was thrown; a responder that serves and is finished, or has lost its connection, has cancelled its application exactly unless that one has said the last word while it could be heard |
| `RequestPairExtensions.OneFlagExtensionsArrive` | packages/rsocket-core/src/RequestStreamStream.ts:256-280 | over every run: the extensions an application is told of are, unchanged and in order, a prefix of those the other end has accepted; the missing ones are in flight as long as the end takes frames |
| `AnyPeer.OneRequesterSays` | packages/rsocket-core/src/RequestStreamStream.ts:216-280 | the requester sends CANCEL exactly when its application cancels a stream that is not done, and never ERROR |
| `AnyPeer.OneRequesterGivesUp` | packages/rsocket-core/src/RequestStreamStream.ts:142-213 | against any peer: the requester gives the stream up, with CANCEL and an error, exactly over frames other than PAYLOAD, ERROR and EXT, and over EXT between fragments |
| `AnyPeer.OneRequesterReads` | packages/rsocket-core/src/RequestStreamStream.ts:142-175 | the payloads that finish a requester are those that say COMPLETE and, for request-response, any that is not followed by another; and what the application is told of each |
| `AnyPeer.OneResponderSays` | packages/rsocket-core/src/RequestStreamStream.ts:413-512 | the responder sends ERROR (0x201) exactly when its application raises an error on a stream that is not done, and never CANCEL |
| `AnyPeer.OneResponderGivesUp` | packages/rsocket-core/src/RequestStreamStream.ts:350-411 | against any peer: the responder is finished by any frame but fragments while it puts the request together, and demand and extensions afterwards; it cancels its application, if it serves, and answers ERROR 0x203 unless the frame was CANCEL or ERROR |
| `AnyPeer.OneFlagClosing` | packages/rsocket-core/src/RequestStreamStream.ts:514-527 | a closing connection finishes the requester with one signal, and cancels the responder's application without finishing the stream |
| `RequestPairRuns.StepKeeps` | packages/rsocket-core/src/RequestStreamStream.ts:82-527 | every call, delivery and loss of a connection keeps the invariant of the pair |
| `RequestStreamStreams.RequestRequesterStream.constructor` | packages/rsocket-core/src/RequestStreamStream.ts:70-80 | a requester that is not ready, of a request-stream or a request-response |
| `RequestStreamStreams.RequestRequesterStream.HandleReady` | packages/rsocket-core/src/RequestStreamStream.ts:82-126 | state and frames sent, fragmented or not; a cancelled requester refuses |
| `RequestStreamStreams.RequestRequesterStream.HandleReject` | packages/rsocket-core/src/RequestStreamStream.ts:128-136 | done and one error, once |
| `RequestStreamStreams.RequestRequesterStream.Handle` | packages/rsocket-core/src/RequestStreamStream.ts:138-214 | every frame type in every state |
| `RequestStreamStreams.RequestRequesterStream.HandleError` | packages/rsocket-core/src/RequestStreamStream.ts:177-186 | ERROR ends the stream with an error |
| `RequestStreamStreams.RequestRequesterStream.HandlePayload` | packages/rsocket-core/src/RequestStreamStream.ts:142-175 | elements, fragments and completion, with an exception of the reassembler; a single one is done with its first payload |
| `RequestStreamStreams.RequestRequesterStream.Reject` | packages/rsocket-core/src/RequestStreamStream.ts:206-213 | close with an error, CANCEL, unregistered |
| `RequestStreamStreams.RequestRequesterStream.RequestMore` | packages/rsocket-core/src/RequestStreamStream.ts:216-232 | kept for the request before the stream is ready, REQUEST_N afterwards |
| `RequestStreamStreams.RequestRequesterStream.CancelStream` | packages/rsocket-core/src/RequestStreamStream.ts:234-254 | done, and CANCEL once the stream is ready |
| `RequestStreamStreams.RequestRequesterStream.OnExtension` | packages/rsocket-core/src/RequestStreamStream.ts:256-280 | an extension, kept for later before the stream is ready |
| `RequestStreamStreams.RequestRequesterStream.Close` | packages/rsocket-core/src/RequestStreamStream.ts:282-296 | the connection closes: one error, unless done |
| `RequestStreamStreams.RequestResponderStream.constructor` | packages/rsocket-core/src/RequestStreamStream.ts:317-348 | from the request frame, whole or the first fragment |
| `RequestStreamStreams.RequestResponderStream.Handle` | packages/rsocket-core/src/RequestStreamStream.ts:350-411 | fragments, the handler, demand, extensions; any other frame cancels the receiver and ends the stream |
| `RequestStreamStreams.RequestResponderStream.HandleFragment` | packages/rsocket-core/src/RequestStreamStream.ts:354-375 | a fragment of the request; the last one calls the handler, unless the reassembler throws |
| `RequestStreamStreams.RequestResponderStream.Stop` | packages/rsocket-core/src/RequestStreamStream.ts:394-411 | the receiver cancelled, ERROR unless the peer ended the stream, unregistered |
| `RequestStreamStreams.RequestResponderStream.OnError` | packages/rsocket-core/src/RequestStreamStream.ts:413-437 | ERROR and done |
| `RequestStreamStreams.RequestResponderStream.OnNext` | packages/rsocket-core/src/RequestStreamStream.ts:439-476 | an element; the last one, or the only one, ends the stream |
| `RequestStreamStreams.RequestResponderStream.OnComplete` | packages/rsocket-core/src/RequestStreamStream.ts:478-494 | completion and done |
| `RequestStreamStreams.RequestResponderStream.OnExtension` | packages/rsocket-core/src/RequestStreamStream.ts:496-512 | an extension unless done |
| `RequestStreamStreams.RequestResponderStream.Close` | packages/rsocket-core/src/RequestStreamStream.ts:514-527 | the connection closes: the receiver is cancelled, and the stream is not done |
| `Transport.Stream.SendPayload` | packages/rsocket-core/src/RequestChannelStream.ts:336-357 | a payload goes out whole or in the fragments of the generator that its kind asks for |
| `FragmentationLaws.FragmentsReassemble` | packages/rsocket-core/src/Fragmenter.ts:53-330 | fragmenting and reassembling gives the payload back, alone, with the holder reset, if and only if the data is non-empty or the payload complete, and REQUEST was not charged twice against too much data |
| `FragmentationLaws.NegativeRoom` | packages/rsocket-core/src/Fragmenter.ts:217-299 | the double charge leaves room for -1 or -2 bytes; what the first frame then carries |
| `FragmentationLaws.Garbled` | packages/rsocket-core/src/Fragmenter.ts:192-330 | with the double charge and more data than a fragment the payload arrives garbled |
| `FragmentationLaws.DoubleChargeGarbles` | packages/rsocket-core/src/Fragmenter.ts:217-299 | a request of nine bytes that arrives with two of them twice, and that makes the reassembler throw when it crosses the wire |
| `FragmentationLaws.MetadataAloneNeverEnds` | packages/rsocket-core/src/Fragmenter.ts:107-139 | a request-response with large metadata and no data that is never delivered |
| `FragmentShapes.FragmentsWellShaped` | packages/rsocket-core/src/Fragmenter.ts:29-330 | a fragmentable payload yields at least two frames; all but the last carry FOLLOWS; COMPLETE is on the last one alone and exactly when the payload is complete; the last one is without FOLLOWS if and only if there is data or the payload is complete; ordinary frames are within the fragment size plus the header |
| `FragmentSizes.FragmentsAreFull` | packages/rsocket-core/src/Fragmenter.ts:53-330 | every fragment but the last one, and the first one of a request, is exactly as large as the fragment size allows; the first one of a request reaches its limit, but for the bytes of REQUEST charged twice, unless its room for data is negative |
| `FragmentSizes.WholeIfItFits` | packages/rsocket-core/src/Fragmenter.ts:29-51 | a payload is sent in one frame if and only if that frame keeps to the limit |
| `FragmentShapes.FirstFrameSize` | packages/rsocket-core/src/Fragmenter.ts:192-330 | the first frame of a request keeps to its limit if and only if it is not the case that REQUEST was charged twice and there are more than three bytes of data |
| `Fragmenter.MetadataLoopRoom` | packages/rsocket-core/src/Fragmenter.ts:107-139 | the metadata loop ends with room left for data, so the generators terminate |
| `FragmentGenerators.Fragment` | packages/rsocket-core/src/Fragmenter.ts:53-190 | the generator yields exactly the specified frames, well shaped |
| `FragmentGenerators.FragmentWithRequestN` | packages/rsocket-core/src/Fragmenter.ts:192-330 | the generator yields exactly the specified frames, well shaped |
| `FragmentGenerators.YieldMetadata` | packages/rsocket-core/src/Fragmenter.ts:107-139 | the loop over metadata: frames, metadata kept for the next frame, and room left |
| `FragmentGenerators.YieldData` | packages/rsocket-core/src/Fragmenter.ts:166-189 | the loop over data |
| `FragmentGenerators.MetadataPhase` | packages/rsocket-core/src/Fragmenter.ts:71-141 | the first frame may take all metadata, or is full of it |
| `FragmentGenerators.DataPhase` | packages/rsocket-core/src/Fragmenter.ts:143-189 | the first frame, if it has not been yielded, and the loop over data |
| `Reassembler.FragmentsHolder.AddFragment` | packages/rsocket-core/src/Reassembler.ts:25-48 | a fragment is kept or appended; a missing data fragment throws |
| `Reassembler.FragmentsHolder.ReassemblePayload` | packages/rsocket-core/src/Reassembler.ts:50-80 | the payload and an empty holder, or an exception after `hasFragments` was reset |
| `Reassembler.FragmentsHolder.CancelFragments` | packages/rsocket-core/src/Reassembler.ts:82-86 | an empty holder |
| `Reassembler.ReceiveConcat` | packages/rsocket-core/src/Reassembler.ts:25-80 | receiving two lists of frames is receiving one after the other |
| `Sending.BackToBack` | packages/rsocket-core/src/Fragmenter.ts:53-190 | payloads sent back to back come out one by one, in order, and nothing else |
| `Sending.ItemArrives` | packages/rsocket-core/src/Fragmenter.ts:53-330 | a payload, fragmented or not, arrives if and only if it is deliverable |
| `WirePipeline.PayloadsCrossTheWire` | packages/rsocket-tcp-client/src/TcpDuplexConnection.ts:122-137 | a payload of any kind and any number of elements after it, fragmented or not, serialized, cut into any chunks, parsed and reassembled: nothing stays in the buffer, and the payloads come out, in order and nothing else, if and only if the fragmenter can deliver each of them |
| `WirePipeline.AllArriveExactly` | packages/rsocket-core/src/Reassembler.ts:25-80 | payloads back to back are reassembled one by one, if and only if each can be delivered |
| `WirePipeline.FragmentsAreFaithful` | packages/rsocket-core/src/Codecs.ts:222-257 | every fragment can be serialized and fits the length prefix |
| `Codec.RoundTrip` | packages/rsocket-core/src/Codecs.ts:168-257 | deserializing a serialized frame gives the frame back, with empty buffers absent, for every serializable frame type |
| `Codec.FillsItsBuffer` | packages/rsocket-core/src/Codecs.ts:262-297 | the bytes written are as many as `sizeOfFrame` computes if and only if the resume flag matches the presence of a token |
| `Codec.TokenWithoutFlag` | packages/rsocket-core/src/Codecs.ts:311-366 | a SETUP whose buffer is three bytes longer than what is written |
| `Codec.PeersCountTheSame` | packages/rsocket-core/src/Resume.ts:60-91 | the sender and the receiver of a stream frame count the same size |
| `Codec.ReceivedSize` | packages/rsocket-core/src/Codecs.ts:262-297 | a received frame has the size of the one sent |
| `Frames.FlagsReadBack` | packages/rsocket-core/src/Codecs.ts:168-182 | the flags survive the bits of the header |
| `WireFormat.EncodedLayout` | packages/rsocket-core/src/Codecs.ts:1095-1106 | for every frame the codec writes: the stream id in bytes 0-3, the word 1024 * type + flags in bytes 4-5 with the literal numbers of the types and flags, and every field at its place, big-endian |
| `WireFormat.CancelBytes` | packages/rsocket-core/src/Codecs.ts:222-257 | CANCEL, byte by byte |
| `WireFormat.RequestNBytes` | packages/rsocket-core/src/Codecs.ts:222-257 | REQUEST_N, byte by byte |
| `WireFormat.ErrorBytes` | packages/rsocket-core/src/Codecs.ts:488-499 | ERROR, byte by byte |
| `WireFormat.KeepAliveBytes` | packages/rsocket-core/src/Codecs.ts:549-559 | KEEPALIVE, byte by byte |
| `WireFormat.LeaseBytes` | packages/rsocket-core/src/Codecs.ts:605-616 | LEASE, byte by byte |
| `WireFormat.PayloadFrameBytes` | packages/rsocket-core/src/Codecs.ts:940-945 | PAYLOAD with metadata and data, byte by byte |
| `WireFormat.RequestChannelBytes` | packages/rsocket-core/src/Codecs.ts:781-791 | REQUEST_CHANNEL, byte by byte |
| `WireFormat.MetadataPushBytes` | packages/rsocket-core/src/Codecs.ts:222-257 | METADATA_PUSH, byte by byte |
| `WireFormat.SetupBytes` | packages/rsocket-core/src/Codecs.ts:311-366 | SETUP with a resume token, byte by byte |
| `WireFormat.ResumeBytes` | packages/rsocket-core/src/Codecs.ts:987-999 | RESUME, byte by byte |
| `WireFormat.ResumeOkBytes` | packages/rsocket-core/src/Codecs.ts:1060-1065 | RESUME_OK, byte by byte |
| `WireFormat.PrefixBytes` | packages/rsocket-core/src/Codecs.ts:157-163 | on a byte stream a frame is preceded by its length in three bytes, big-endian |
| `Serializer.SerializeFrame` | packages/rsocket-core/src/Codecs.ts:222-257 | the buffer of `sizeOfFrame` bytes is filled with exactly the encoding, with no overflow and no gap |
| `Serializer.SerializeFrameWithLength` | packages/rsocket-core/src/Codecs.ts:157-163 | the encoding behind its three-byte length |
| `Serializer.SerializeSetup` | packages/rsocket-core/src/Codecs.ts:311-366 | SETUP, field by field at running offsets |
| `Serializer.SerializeResume` | packages/rsocket-core/src/Codecs.ts:987-999 | RESUME |
| `Serializer.SerializeKeepAlive` | packages/rsocket-core/src/Codecs.ts:549-559 | KEEPALIVE |
| `Serializer.SerializeLease` | packages/rsocket-core/src/Codecs.ts:605-616 | LEASE |
| `Serializer.SerializePayload` | packages/rsocket-core/src/Codecs.ts:940-945 | PAYLOAD, and with it the requests without requestN |
| `Serializer.SerializeRequestMany` | packages/rsocket-core/src/Codecs.ts:781-791 | REQUEST_STREAM and REQUEST_CHANNEL |
| `Serializer.SerializeError` | packages/rsocket-core/src/Codecs.ts:488-499 | ERROR |
| `Serializer.SerializeResumeOk` | packages/rsocket-core/src/Codecs.ts:1060-1065 | RESUME_OK |
| `Serializer.WriteUInt24` | packages/rsocket-core/src/Codecs.ts:75-82 | three bytes at an offset, the rest of the buffer untouched |
| `Serializer.WriteUInt64` | packages/rsocket-core/src/Codecs.ts:99-107 | eight bytes at an offset, the rest of the buffer untouched |
| `Serializer.WriteHeader` | packages/rsocket-core/src/Codecs.ts:1095-1106 | stream id, type and flags |
| `Serializer.WritePayload` | packages/rsocket-core/src/Codecs.ts:1126-1147 | metadata with its length, and data |
| `Framing.ChunkingDoesNotMatter` | packages/rsocket-tcp-client/src/TcpDuplexConnection.ts:122-137 | for all bytes, well formed or not, and all ways to cut them: the frames handed over and the fate of the connection are those of one chunk, and what is kept is less than a frame |
| `Framing.FramesSurviveChunking` | packages/rsocket-tcp-client/src/TcpDuplexConnection.ts:122-137 | any list of encoded frames, cut anywhere, is handed over exactly once, in order, with nothing left |
| `Framing.PartialDelivery` | packages/rsocket-tcp-client/src/TcpDuplexConnection.ts:122-137 | wherever the stream is interrupted the connection is open and has handed over a prefix |
| `Framing.UndecodableCloses` | packages/rsocket-tcp-client/src/TcpDuplexConnection.ts:122-137 | if one frame of a stream cannot be decoded, the connection is closed and has handed over exactly the frames before it, however the bytes are cut |
| `Framing.EmptyFrameWaits` | packages/rsocket-core/src/Codecs.ts:137-152 | a frame announced to be empty is not read before a byte follows it |
| `Framing.ParseAppend` | packages/rsocket-core/src/Codecs.ts:137-152 | parsing more bytes later continues where the shorter buffer stopped |
| `Framing.TcpDuplexConnection.ReadFrames` | packages/rsocket-core/src/Codecs.ts:137-152 | the parsing loop: frames handed over, where it stopped, and whether decoding failed |
| `Framing.TcpDuplexConnection.HandleData` | packages/rsocket-tcp-client/src/TcpDuplexConnection.ts:122-137 | one chunk: the kept bytes and the chunk are parsed, the rest is kept, a failure closes the connection |
| `BufferingSubscribers.ObserverToBufferingRSocketSubscriber.EverythingDueIsEmitted` | packages/rsocket-adapter-rxjs/src/ObserverToBufferingRSocketSubscriber.ts:68-177 | no lost wake-up: with no drain running and the stream not ended, exactly the first min(demand, pushed) items have been emitted, and the end is held back only for want of demand; always a prefix, never more than the demand, at most one terminal signal |
| `BufferingSubscribers.ObserverToBufferingRSocketSubscriber.Drain` | packages/rsocket-adapter-rxjs/src/ObserverToBufferingRSocketSubscriber.ts:122-177 | the loop guarded by `wip`: within a running drain it only counts, otherwise it returns settled and caught up, or ended; without calls back it emits exactly `Batch` |
| `BufferingSubscribers.ObserverToBufferingRSocketSubscriber.Deliver` | packages/rsocket-adapter-rxjs/src/ObserverToBufferingRSocketSubscriber.ts:134-167 | the inner loop, with calls back at every signal |
| `BufferingSubscribers.ObserverToBufferingRSocketSubscriber.DeliverNext` | packages/rsocket-adapter-rxjs/src/ObserverToBufferingRSocketSubscriber.ts:135-166 | one item, marked last exactly when nothing is left and nothing will come |
| `BufferingSubscribers.ObserverToBufferingRSocketSubscriber.RunDry` | packages/rsocket-adapter-rxjs/src/ObserverToBufferingRSocketSubscriber.ts:137-152 | nothing left: the terminal signal, the silent end of a cancelled source, or more to come |
| `BufferingSubscribers.ObserverToBufferingRSocketSubscriber.React` | packages/rsocket-adapter-rxjs/src/ObserverToBufferingRSocketSubscriber.ts:68-120 | whatever a subscriber calls back within a signal is deferred, and shows in `wip` if it changed anything |
| `BufferingSubscribers.ObserverToBufferingRSocketSubscriber.RequestMore` | packages/rsocket-adapter-rxjs/src/ObserverToBufferingRSocketSubscriber.ts:68-77 | demand added; nothing is waiting when there was demand already |
| `BufferingSubscribers.ObserverToBufferingRSocketSubscriber.NextValue` | packages/rsocket-adapter-rxjs/src/ObserverToBufferingRSocketSubscriber.ts:95-99 | an item buffered and drained |
| `BufferingSubscribers.ObserverToBufferingRSocketSubscriber.ErrorOut` | packages/rsocket-adapter-rxjs/src/ObserverToBufferingRSocketSubscriber.ts:101-110 | the first end wins: after another one, or a cancellation, nothing changes |
| `BufferingSubscribers.ObserverToBufferingRSocketSubscriber.CompleteAll` | packages/rsocket-adapter-rxjs/src/ObserverToBufferingRSocketSubscriber.ts:112-120 | the first end wins: after another one, or a cancellation, nothing changes |
| `BufferingSubscribers.ObserverToBufferingRSocketSubscriber.CancelSource` | packages/rsocket-adapter-rxjs/src/ObserverToBufferingRSocketSubscriber.ts:79-87 | the source is cancelled unless it has ended; what is buffered still goes out, and no end is signalled |
| `BufferingSubscribers.BatchItems` | packages/rsocket-adapter-rxjs/src/ObserverToBufferingRSocketSubscriber.ts:134-167 | without calls back a drain emits the oldest items, as many as there is demand for |
| `BufferingSubscribers.BufferedErrorIsSwallowed` | packages/rsocket-adapter-rxjs/src/ObserverToBufferingRSocketSubscriber.ts:137-164 | an error reaches the subscriber if and only if nothing is buffered; otherwise the last item says that the stream is complete |
| `BufferingSubscribers.ErrorBehindAnItem` | packages/rsocket-adapter-rxjs/src/ObserverToBufferingRSocketSubscriber.ts:137-164 | one buffered item is enough for the subscriber to take a failed stream for a completed one |
| `BufferingSubscribers.ProperMeans` | packages/rsocket-adapter-rxjs/src/ObserverToBufferingRSocketSubscriber.ts:154-164 | at most one terminal signal, and nothing after it |
| `LeaseHandlers.AdmissionIsExact` | packages/rsocket-core/src/RSocketSupport.ts:189-238 | in every run with a clock that does not go back: started since the last LEASE plus what is available is what it granted, the queue keeps its limit, and the requests started and pending are those submitted and not rejected or withdrawn, in this order |
| `LeaseHandlers.EveryRequestHasOneFate` | packages/rsocket-core/src/RSocketSupport.ts:189-238 | every submitted request is in exactly one of started, pending, rejected and withdrawn, and no other is in any |
| `LeaseHandlers.CancelIsFinal` | packages/rsocket-core/src/RSocketSupport.ts:232-237 | in every fair run: a request that is cancelled while it waits is withdrawn, and neither pending nor started in any continuation; the cancel of a request that does not wait changes nothing |
| `LeaseHandlers.CancelTakesOut` | packages/rsocket-core/src/RSocketSupport.ts:232-237 | cancelling takes the request out of the queue and leaves the others in order |
| `LeaseHandlers.RequestIsDecided` | packages/rsocket-core/src/RSocketSupport.ts:214-230 | a request is started exactly when something is left of a lease in force, rejected exactly when the queue is full, and waits otherwise, behind all others |
| `LeaseHandlers.LeaseInForce` | packages/rsocket-core/src/RSocketSupport.ts:202-212 | what is available, and until when, is what the last LEASE frame says |
| `LeaseHandlers.OvertakingNeedsTheClock` | packages/rsocket-core/src/RSocketSupport.ts:214-220 | a new request overtakes those that wait exactly when something is left of a lease whose time is not over, which takes a clock that went back |
| `LeaseHandlers.ClockGoesBack` | packages/rsocket-core/src/RSocketSupport.ts:214-220 | a run in which it happens |
| `LeaseHandlers.LeaseHandler.Handle` | packages/rsocket-core/src/RSocketSupport.ts:202-212 | the loop that starts pending requests, oldest first, as many as granted |
| `LeaseHandlers.LeaseHandler.RequestLease` | packages/rsocket-core/src/RSocketSupport.ts:214-230 | started, rejected or queued |
| `LeaseHandlers.LeaseHandler.CancelRequest` | packages/rsocket-core/src/RSocketSupport.ts:232-237 | taken out of the queue if it is there |

## Left out

- Sockets, WebSocket transports, promises, timers and keep-alive scheduling: a disconnection is a step, and the lease clock is a parameter.
- Server and connector wiring, the acceptance of a SETUP, session expiry and sessions other than the one modelled.
- The stream id generator, whose ids only have to be positive here, and fire-and-forget streams.
- Serializing EXT frames, which the codec has no case for, and decoding METADATA_PUSH, whose deserializer uses an undeclared `length` (`packages/rsocket-core/src/Codecs.ts:762`). EXT frames do travel in the channel and request models, where frames are values.
- `REQUEST_N`, LEASE and other fields are integers of the width that the serializer checks; the streams themselves do not limit demand.
- Calls of an application back into a stream from within one of its signals: streams are called one at a time. The drain loop is modelled with such calls.
- Concrete error codes and messages other than those the library itself sends; an application error is one code.
- RequestChannelStreams.RequestChannelResponderStream.constructor: does not model a handler that throws, which the code answers with its own `onError`.
- RequestChannelStreams.RequestChannelResponderStream.TakePayload: does not model a handler that throws, which the code answers with its own `onError`.
- RequestStreamStreams.RequestResponderStream.constructor: does not model a handler that throws, which the code answers with its own `onError`.
- RequestStreamStreams.RequestResponderStream.Handle: does not model a handler that throws, which the code answers with its own `onError`.
- RequestStreamStreams.RequestResponderStream.HandleFragment: does not model a handler that throws, which the code answers with its own `onError`.
- RequestChannelStreams.RequestChannelRequesterStream.CancelStream: does not model the call of the lease manager's `cancelRequest` for a stream that is not ready; the lease handler's own `CancelRequest` is modelled.
- RequestStreamStreams.RequestRequesterStream.CancelStream: does not model the call of the lease manager's `cancelRequest` for a stream that is not ready; the lease handler's own `CancelRequest` is modelled.
- Framing.TcpDuplexConnection.HandleData: does not model exceptions of the multiplexer that handles the frames, which close the connection as a failed decoding does; the two-party models have them.
- LeaseHandlers.LeaseHandler.CreateRequestStream: records that the request was handed to the multiplexer, which may still reject it when it has closed.
- RequestPairTheorems.AnswersArriveInOrder: for payloads that the fragmenter can deliver; the others are the subject of `FragmentsReassemble`.
- ChannelTheorems.PayloadsArriveInOrder: for payloads that the fragmenter can deliver; the others are the subject of `FragmentsReassemble`.
- BufferingSubscribers.ObserverToBufferingRSocketSubscriber.React: the subscriber's calls at each signal are a list given beforehand, of any length, one list for each signal.
- Prefetching and single-value adapters, routing, composite metadata, authentication and the tables of well-known types.
