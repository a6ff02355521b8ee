# ShadowChat, verified

ShadowChat is an end-to-end encrypted chat and file-sharing service: a Go signaling backend and a browser
client. This project models the parts in which state, concurrency and arithmetic meet, and proves what they
promise over every run.

| part | modules |
|---|---|
| chunked file transfer | `Slicing`, `PacketCodec`, `HashWorker`, `ChunkStore`, `TransferState`, `Coordinator`, `StreamRunner` (the objects), `TransferModel` (the step machine), `TransferSafety`, `TransferAccounting`, `TransferPointer`, `TransferCompletion`, `TransferResume`, `TransferTheorems`, `TransferPauses`, `TransferProgress`, `TransferUninterrupted`, `TransferOutcomes`, `TransferOverlap`, `TransferSilence`, `TransferControl`, `TransferCleanup`, `TransferBackpressure`, `TransferUploads` (the theorems) |
| signaling hub | `HubState` (tables as values), `HubContracts` (what each handler does to each connection), `HubObjects` (the objects), `HubTables`, `HubMembership`, `HubNetwork`, `HubDelivery`, `HubThreads`, `HubAtomicity`, `HubSettling` (the theorems) |
| frames and browser client | `Framing`, `JsonReading`, `Signaling` (values and theorems), `SignalingReconnect`, `SignalingLiveness`, `SignalingObjects` (the object) |
| rate limiter | `RateLimit` (one bucket), `LimiterRuns` (runs and theorems), `LimiterStore` (the objects) |
| rooms | `RoomStore` (values and theorems), `RoomLife` (the life of a room over runs), `RoomRepository`, `RoomService` (the objects) |
| shared | `Wrappers`, `Counting` |

## How it is built

What the source updates in place is a class here. Each of its methods is proved equal to a function on values
(`View()` after the call is that function of `View()` before it), and the theorems are about runs of these
functions. What a handler or a method does is also stated without those functions, in terms of the state before and
after alone (`HubContracts`, the second halves of the methods' contracts). Code that awaits, or that runs beside other threads, is cut into its uninterrupted pieces: each piece
is a method and, in the step machines, an event. Any sequence of events is a run; an event whose moment has not
come changes nothing.

How fine the steps are, theorem by theorem:

- File transfer: one step is the code between two awaits. Any number of streams, data handlers and
  reassemblies may be suspended at once. Safety, accounting, the resume pointer, the backpressure bound and
  "delivered at least once" hold at this granularity. `TransferOutcomes.ExactlyOnceIff` says exactly when, at this
  granularity, the file is delivered once and no failure reported; handling each data message to its end before the
  next is one way (second half of `TransferTheorems.DrainedRunHasDelivered`).
- Hub: `HubMembership` and `HubNetwork` take a handler of the hub loop as one step; `HubThreads` interleaves the
  hub goroutine, broker callbacks and shutdown at every lock, flag test and channel operation. `HubAtomicity` joins the
  two: under every interleaving a registration or departure leaves the tables as its one-step handler does.
- Limiter: `get` and `allow` are two steps of a request, and the cleanup loop takes one step for each key, with a
  cutoff time read before it took the lock; anything may come in between.
- Rooms: each repository call is one step; a lookup and the lazy deletion it leads to are two.
- Browser client: one step is one event handler, with everything its listeners do.

Foreign parts are parameters: AES-GCM is a pair of functions of which only `open(seal(p)) = p` is used (section 7
of NIST SP 800-38D) and, for the backpressure bound, that a tag has 16 bytes; the digest is any function; the
incremental hasher is any one for which feeding two pieces equals feeding their concatenation (section 6.2 of
FIPS 180-4). Clocks, random draws, failures of the chunk table and of channels, and the choices of the peer are
inputs of the events.

## What the proofs found

- A receiver's resume that arrives after the sender has sent its last chunk is ignored. From that moment the file is
  delivered if and only if every chunk has already been received or is on a lane (`TransferPauses.LateResumeIff`); a
  failing run is `TransferTheorems.LateResumeStrands`.
- A pause that came from the sender cannot be undone by the sender. With pauses from both sides, a drained transfer
  has been delivered if and only if the receiver is not left paused with a chunk missing
  (`TransferTheorems.DrainedDeliversIff`); a failing run is `TransferPauses.SenderPauseStrands`.
- Two data handlers that are both past their saves may both reassemble: the file is delivered twice, or delivered
  and then reported as failed (`TransferOverlap.OverlapDeliversTwice`, `TransferOverlap.OverlapDeliversAndFails`).
  This happens if and only if another handler is waiting for the completion test when the last chunk is counted
  (`TransferOutcomes.ExactlyOnceIff`).
- A client that relays a membership message makes views wrong, exactly when the message is untrue for somebody told
  (`HubMembership.ViewsAgreeIff`, `HubMembership.RelayedMembershipMisleads`).
- An eviction is noticed by somebody if and only if it removes a bucket that a request holds between `get` and
  `allow` (`LimiterRuns.EvictionShowsIff`, `LimiterStore.SweepBetweenGetAndAllow`).
- `Create` with an id already in use leaves a stale code behind (`RoomStore.CreateKeepsIndexIff`); an id with
  upper-case letters passes validation but cannot stand in for a code (`RoomService.IdServesAsCodeIff`).
- `disconnect` clears only the newest reconnection timer, and a lost heartbeat leaves two
  (`SignalingReconnect.DisconnectIsFinalIff`, `SignalingReconnect.HeartbeatLossOutlivesDisconnect`). The closing
  event of an abandoned socket makes the client forget its new one; a new connection is safe from this if and only
  if every older socket had closed when it was made (`SignalingReconnect.NewConnectionIsSafeIff`,
  `SignalingReconnect.LateCloseHappens`).
- After a transfer has ended and its stored rows have been cleared, rows of it can come back if and only if a handler is
  still in its save (`TransferCleanup.RowsComeBackIff`); otherwise nothing is left (`TransferCleanup.EndedLeavesNothing`).
- A cancel or pause from the receiver reaches only a sender that still lists the transfer: once one stream has given it
  up, other streams of it can no longer be stopped (the hypothesis of `TransferControl.CancelThereEndsBoth`).
- A reconnection whose socket cannot be made is the last, though attempts are left
  (`SignalingLiveness.FailedSocketEndsIt`). With sockets that can be made, no listener that throws on a closing event
  and no authentication on a forgotten socket, the client never gives up early (`SignalingLiveness.NeverGivesUpEarly`).
- Documentation that disagrees with the code: the packet diagram has a 16-byte transfer id, the code writes the
  36 ASCII characters of the UUID; the comment on the room-code charset says the letter O is omitted, it is not.
  The model follows the code.

## Model

| member | source | states |
|---|---|---|
| TransferSafety.DeliveredIsTheFile | frontend/src/lib/engines/transfer.ts:417-657 | End-to-end safety: in every interleaving of lanes, overlapping or resumed streams, pauses, cancels, suspended handlers and failing saves, a blob given to onComplete is the sender's file byte for byte |
| TransferSafety.FullSetIsTheFile | frontend/src/lib/engines/transfer.ts:605-632 | Strictly ascending good rows reassemble to the file if there are as many as the file has chunks, and to an error otherwise |
| TransferSafety.SealedIsGood | frontend/src/lib/engines/transfer.ts:438-448 | A slice that is sealed, serialised and decoded again opens to that slice under its own index |
| TransferSafety.IndicesFitIff | frontend/src/lib/engines/transfer.ts:370-370 | All chunk indices fit the 32-bit field if and only if the file has at most 2^48 bytes |
| TransferSafety.RunIsSafe | frontend/src/lib/engines/transfer.ts:522-657 | The invariant of every run: packets and stored rows are good, stored indices are distinct and received, every blob on its way is the file |
| TransferSafety.DeliveredHasTheDigest | frontend/src/lib/engines/transfer.ts:628-632 | With arbitrary forged packets, whatever is delivered still has the announced digest |
| TransferAccounting.RunIsAccounted | frontend/src/lib/engines/transfer.ts:530-552 | In every run the chunk count plus the handlers that have not counted yet is the number of distinct received indices, and everything below the pointer is received |
| TransferAccounting.DeliveredMeansAllReceived | frontend/src/lib/engines/transfer.ts:530-577 | A run that has delivered has received every chunk, and its count is exactly the number of chunks |
| TransferPointer.ResumePointer | frontend/src/lib/engines/transfer.ts:547-552 | contiguousIndex never decreases between two moments of any run, everything below it is received, and it is the least missing index whenever no handler is suspended before its count |
| TransferState.FirstMissing | frontend/src/lib/engines/transfer.ts:550-552 | The catch-up loop stops at the least index, at or after its start, that is not received |
| TransferCompletion.IdleAndFullDelivers | frontend/src/lib/engines/transfer.ts:575-578 | With suspended handlers allowed: once every chunk is received and every handler has ended, onComplete has fired |
| TransferCompletion.SerialStep | frontend/src/lib/engines/transfer.ts:522-592 | Handling each data message to its end keeps deliveries and pending deliveries together at most one, and failures at zero |
| TransferTheorems.DrainedRunHasDelivered | frontend/src/lib/engines/transfer.ts:183-195 | Pausing and resuming from either side loses nothing: if nothing fails and each of the receiver's resumes finds the sender still holding the transfer, a drained run whose receiver is not left paused has delivered the file, and with message-at-a-time handling exactly once and without failure |
| TransferTheorems.DeliversIffAllArrived | frontend/src/lib/engines/transfer.ts:522-657 | Without failures, and with no handler suspended, the file has been delivered if and only if every chunk has been received, whether or not resumes came in time |
| TransferTheorems.DrainedDeliversIff | frontend/src/lib/engines/transfer.ts:166-195 | With pauses and resumes from both sides: a drained transfer has been delivered if and only if the receiver is not left paused with a chunk missing |
| TransferPauses.LateResumeIff | frontend/src/lib/engines/transfer.ts:313-320 | From any moment at which the sender has let go and the receiver is listening, whatever comes without failure or a further pause: drained, the file has been delivered if and only if every chunk had at that moment been received or was on a lane |
| TransferPauses.LateResumeIffInRun | frontend/src/lib/engines/transfer.ts:313-320 | The same for every run from the accepted offer on, split at any such moment |
| TransferPauses.SenderPauseStrands | frontend/src/lib/engines/transfer.ts:183-195 | For every one-chunk file a run without failure in which the sender pauses and resumes, everything drains, and the file is never delivered |
| TransferProgress.WorkTerminates | frontend/src/lib/engines/transfer.ts:417-657 | From any world of any run, no more steps take up waiting work than its measure says, whatever fails and in whatever order |
| TransferProgress.AtRestIff | frontend/src/lib/engines/transfer.ts:417-657 | Some step can go on without a failure if and only if the transfer has not drained |
| TransferProgress.EveryRunCanDrain | frontend/src/lib/engines/transfer.ts:417-657 | From any world of any run there is a way on without failures, no longer than the measure, after which it has drained |
| TransferUninterrupted.PlainRunDelivers | frontend/src/lib/engines/transfer.ts:417-657 | An uninterrupted transfer works for a bounded number of steps, and where nothing can go on the file has been delivered, exactly once with message-at-a-time handling |
| TransferOutcomes.OneOutcomeForEachPass | frontend/src/lib/engines/transfer.ts:575-656 | Conservation of outcomes: deliveries and failures, reported or on their way, are as many as the handlers that passed the completion test |
| TransferOutcomes.OneOutcomeIff | frontend/src/lib/engines/transfer.ts:575-577 | With every chunk received and every handler ended: exactly one delivery and no failure if and only if exactly one handler passed the test |
| TransferOutcomes.ExactlyOnceIff | frontend/src/lib/engines/transfer.ts:547-577 | Over every run without failures: delivered exactly once and no failure if and only if no other handler was between its count and the test when the last chunk was counted |
| TransferTheorems.GoneNeverDelivers | frontend/src/lib/engines/transfer.ts:313-320 | Once the sender has let go and a chunk is neither received nor on a lane, no continuation of any kind delivers |
| TransferTheorems.LateResumeStrands | frontend/src/lib/engines/transfer.ts:489-490 | For every one-chunk file a run without any failure in which the resume comes after the entry is deleted: everything drains and the file is never delivered |
| TransferTheorems.PausedReceivesNothing | frontend/src/lib/engines/transfer.ts:527-528 | A paused receiver that does not itself resume receives nothing more, whatever the sender does |
| TransferTheorems.SenderResumeCannotUnpause | frontend/src/lib/engines/transfer.ts:305-320 | A receiver paused with a chunk missing never delivers unless it resumes itself: the sender's resume has no effect on it |
| TransferSilence.PausedSenderIsSilent | frontend/src/lib/engines/transfer.ts:434-464 | From a pause of the sender on, made here or heard, until it makes or hears a resume: in every run its lanes only lose packets or gain those of other transfers, and lastSentIndex stands |
| TransferSilence.CancelledSenderIsOver | frontend/src/lib/engines/transfer.ts:201-206 | A cancelled upload is over for good: in no continuation of any kind is another of its packets put on a lane, lastSentIndex moved or a stream started |
| TransferSilence.CancelledRunsEnd | frontend/src/lib/engines/transfer.ts:436-461 | Every stream of a cancelled upload has ended once it has come to its next look at the flags, in every run |
| TransferSilence.EndedReceivesNothing | frontend/src/lib/engines/transfer.ts:522-528 | A transfer that has left the incoming table receives nothing more, whatever comes |
| TransferControl.CancelHereEndsBoth | frontend/src/lib/engines/transfer.ts:201-206 | Cancelled by the sender: in every run from there nothing more is sent, and once the receiver has read its control messages nothing is received |
| TransferControl.CancelThereEndsBoth | frontend/src/lib/engines/transfer.ts:322-335 | Cancelled by the receiver: nothing more is received, and once the sender has read its control messages it is cancelled for good and sends nothing, unless a stream had already given the transfer up |
| TransferControl.PauseThereStopsBoth | frontend/src/lib/engines/transfer.ts:166-178 | Paused by the receiver, and until somebody resumes: nothing is received, and once the sender has read its control messages nothing is sent |
| TransferControl.PauseHereStopsBoth | frontend/src/lib/engines/transfer.ts:305-311 | Paused by the sender, and until somebody resumes: nothing is sent, and once the receiver has read its control messages nothing is received |
| TransferCleanup.LoopHeadDecides | frontend/src/lib/engines/transfer.ts:434-436 | At the loop head a stream ends with its entry from the chunk that starts at or past the end of the file, ends alone when paused or cancelled, and goes on otherwise |
| TransferCleanup.SealDecides | frontend/src/lib/engines/transfer.ts:438-459 | The sealed packet decodes to exactly this chunk: id, index, IV and the sealed 64 KiB of the file at that index; it waits exactly when 1 MiB or more is buffered on lane index mod 4 |
| TransferCleanup.ClearingEmpties | frontend/src/lib/engines/transfer.ts:579-635 | Clearing, in a catch, after delivery or on cancel, removes all rows of the transfer and none of another |
| TransferCleanup.EndedLeavesNothing | frontend/src/lib/engines/transfer.ts:575-656 | In every run, when the transfer has ended, delivered, failed or cancelled, and its handlers with it, none of its rows is stored, if clearings succeed and no save succeeds after the end |
| TransferCleanup.RowsComeBackIff | frontend/src/lib/engines/transfer.ts:530-545 | After an ended transfer was cleared its rows can come back if and only if a handler is still in its save |
| TransferUninterrupted.ChunksPartition | frontend/src/lib/engines/transfer.ts:434-464 | Conservation: at every moment of an uninterrupted run each chunk is exactly one of unsent, in flight and received, and the count is the number of received indices less those not yet counted |
| TransferUninterrupted.PointerIsLaneMinimum | frontend/src/lib/engines/transfer.ts:450-452 | In an uninterrupted run over FIFO lanes the resume pointer is the minimum over lanes l of l + 4 * (chunks received on l) |
| TransferOverlap.BothPass | frontend/src/lib/engines/transfer.ts:547-577 | The handlers of the last two chunks, both past their saves, both pass the completion test when each counts before either tests |
| TransferOverlap.TwoHandlersDeliverTwice | frontend/src/lib/engines/transfer.ts:575-645 | Both then deliver if both fetch the rows before either clears them |
| TransferOverlap.TwoHandlersDeliverAndFail | frontend/src/lib/engines/transfer.ts:606-656 | Or one delivers and the other then reports a failure, the rows being cleared |
| TransferOverlap.LastTwoIsReached | frontend/src/lib/engines/transfer.ts:522-552 | For every two-chunk file a run from the accepted offer, without failures, leaves the last two handlers past their saves with the whole file stored |
| TransferOverlap.OverlapDeliversTwice | frontend/src/lib/engines/transfer.ts:575-645 | Every two-chunk file has a run without failures that delivers it twice |
| TransferOverlap.OverlapDeliversAndFails | frontend/src/lib/engines/transfer.ts:606-656 | And one that delivers it and then reports a failure |
| TransferBackpressure.BufferedAmountBound | frontend/src/lib/engines/transfer.ts:443-463 | With at most n streams of whatever transfers overlapping on a coordinator and k timed-out waits, every lane's buffered amount stays below 1 MiB + (n + k) * 65605 bytes |
| TransferUploads.AdvanceIsOneStep | frontend/src/lib/engines/transfer.ts:417-470 | With any number of uploads on one coordinator, a run of a stream that goes on is a step of its own upload as the one-transfer machine describes it |
| TransferUploads.CommandIsOneStep | frontend/src/lib/engines/transfer.ts:166-206 | So is a pause, resume or cancel by the user |
| TransferUploads.HearingIsOneStep | frontend/src/lib/engines/transfer.ts:300-337 | And a control message that comes in |
| TransferUploads.OthersAreUntouched | frontend/src/lib/engines/transfer.ts:417-470 | No event of one upload changes the record or the streams of another |
| TransferUploads.PausedUploadRests | frontend/src/lib/engines/transfer.ts:436-461 | Over every run: a paused or cancelled upload sends no chunk until it is resumed, whatever the other uploads do |
| Slicing.SliceLength | frontend/src/lib/engines/transfer.ts:438-441 | Every slice is non-empty and at most the chunk size, and all but the last are full |
| Slicing.SliceCountBounds | frontend/src/lib/engines/transfer.ts:422-422 | An index is below the chunk count if and only if its slice starts inside the file |
| Slicing.SlicesRejoin | frontend/src/lib/engines/transfer.ts:434-441 | The slices in order concatenate to the file |
| PacketCodec.RoundTrip | frontend/src/lib/engines/transfer.ts:355-412 | Decoding an encoded chunk returns it if and only if the id has 36 bytes, the IV 12 and the index fits in 32 bits; payload and index modulo 2^32 always survive |
| PacketCodec.ReEncode | frontend/src/lib/engines/transfer.ts:383-412 | Re-encoding any accepted packet gives its bytes back |
| PacketCodec.U32RoundTrip | frontend/src/lib/engines/transfer.ts:370-370 | Writing an index big-endian and reading it back reduces it modulo 2^32 |
| PacketCodec.HeaderFields | frontend/src/lib/engines/transfer.ts:364-371 | However long id and IV are, the type byte, the index and the IV stand where they belong |
| PacketCodec.SerializeChunk | frontend/src/lib/engines/transfer.ts:355-378 | Filling the buffers field by field yields the encoded packet, or the range error of an over-long field |
| StreamRunner.StreamRun.LoopHead | frontend/src/lib/engines/transfer.ts:434-436 | From the chunk that starts at or past the end of the file on, the stream ends and deletes the entry; paused or cancelled, it ends alone; otherwise it goes on |
| StreamRunner.StreamRun.Seal | frontend/src/lib/engines/transfer.ts:438-459 | The chunk's packet goes to lane index mod 4: past the wait below 1 MiB, into the wait from there on; a closed lane or an over-long field ends the transfer |
| StreamRunner.StreamRun.Transmit | frontend/src/lib/engines/transfer.ts:461-464 | Paused or cancelled during the wait: lanes, buffered amounts and lastSentIndex are as before and the stream ends. Otherwise exactly this packet is appended to exactly its lane and lastSentIndex is this index; a send that throws ends the transfer |
| Coordinator.IncomingTransfer.ChunkSaved | frontend/src/lib/engines/transfer.ts:547-552 | Counts the chunk and moves the pointer to the first missing index |
| Coordinator.FileTransferCoordinator.HandleDataMessage | frontend/src/lib/engines/transfer.ts:522-545 | Exactly the decodable packets of an active, unpaused, uncancelled transfer with a new index are taken, each marked received before its save |
| Coordinator.FileTransferCoordinator.CheckComplete | frontend/src/lib/engines/transfer.ts:575-577 | A handler goes on to reassemble exactly when the count has reached the total, and then the entry is gone |
| Coordinator.FileTransferCoordinator.ReassembleFile | frontend/src/lib/engines/transfer.ts:605-632 | A blob comes out exactly when the rows are as many as the chunks, all open, and the whole has the announced digest |
| Coordinator.FileTransferCoordinator.AcceptTransfer | frontend/src/lib/engines/transfer.ts:344-349 | Tells the sender to start, for a known incoming transfer only |
| Coordinator.FileTransferCoordinator.PauseTransfer | frontend/src/lib/engines/transfer.ts:166-178 | Marks both directions of this transfer, touches no other, and tells the peer once per direction |
| Coordinator.FileTransferCoordinator.ResumeTransfer | frontend/src/lib/engines/transfer.ts:183-196 | A paused outgoing transfer restarts after its last sent chunk; a paused incoming one asks for its first missing chunk |
| Coordinator.FileTransferCoordinator.CancelTransfer | frontend/src/lib/engines/transfer.ts:201-228 | Both directions are forgotten and the peer told; chunks are to be cleared exactly for an incoming one |
| Coordinator.FileTransferCoordinator.CancelOutgoing | frontend/src/lib/engines/transfer.ts:202-206 | Forgets an outgoing transfer, and no other, and tells the peer |
| Coordinator.FileTransferCoordinator.CancelIncoming | frontend/src/lib/engines/transfer.ts:215-220 | Forgets an incoming transfer, and no other, tells the peer, and owes the clearing of its chunks |
| Coordinator.FileTransferCoordinator.HandleControlMessage | frontend/src/lib/engines/transfer.ts:300-337 | Cancel sets the cancelled flags of both records, removes both entries and owes the reports and the clearing; pause sets both paused flags; resume clears the outgoing one only and starts a stream at the index asked for; accept starts one at 0; nothing else changes |
| ChunkStore.SortMembers | frontend/src/lib/engines/storage.ts:91-93 | Fetching returns exactly the stored rows |
| ChunkStore.SortOrders | frontend/src/lib/engines/storage.ts:91-93 | In ascending index order, strictly when no index is stored twice |
| ChunkStore.ClearIsLocal | frontend/src/lib/engines/storage.ts:95-97 | Clearing a transfer removes all its rows and no other transfer's |
| ChunkStore.ChunkTable.SaveChunk | frontend/src/lib/engines/storage.ts:87-89 | A save appends its row or silently does nothing |
| ChunkStore.ChunkTable.GetTransferChunks | frontend/src/lib/engines/storage.ts:91-93 | A fetch returns exactly the transfer's rows in ascending index order, strictly when no index is stored twice, or nothing when it fails |
| ChunkStore.ChunkTable.ClearTransferChunks | frontend/src/lib/engines/storage.ts:95-97 | A clear removes the transfer's rows or silently does nothing |
| HashWorker.HashFile | frontend/src/workers/hash.worker.ts:11-30 | The digest fed in 1 MB slices is the one-shot digest of the file, also of an empty one |
| HubMembership.MembersSeeEachOther | backend/internal/hub/hub.go:96-256 | On one hub without a broker, after any run with repeated ids, a member with no dropped message has been told exactly the room's other members, and the last peer count is their number plus one |
| HubMembership.StepKeeps | backend/internal/hub/hub.go:96-308 | Every event keeps the agreement of all views with the tables |
| HubMembership.RelayedMembershipIff | backend/internal/hub/hub.go:282-298 | From an agreeing state, relaying a membership message keeps all views right if and only if it is true for every member told |
| HubMembership.ViewsAgreeIff | backend/internal/hub/hub.go:96-308 | Over every run: all views are right at every moment if and only if every relayed membership message was true for everyone told |
| HubMembership.RelayedMembershipMisleads | backend/internal/hub/hub.go:282-298 | In every room of two, a client that relays its own departure and stays makes the other's view wrong: the run, from the empty hub |
| HubContracts.RelayReachesExactly | backend/internal/hub/hub.go:258-308 | A relayed message is offered to exactly the member it targets, or without target to exactly the members but its sender, and to nobody else; it is published exactly if the room is there and the broker takes its id |
| HubContracts.ArrivalReachesExactly | backend/internal/hub/hub.go:327-356 | A message from the broker is offered to exactly those, and changes nothing else |
| HubContracts.OtherKindsStayHere | backend/internal/hub/hub.go:258-280 | A ping is answered with a pong to exactly the connection under its sender's id; auth, join and leave change nothing; none of them is published |
| HubContracts.RegistrationFiles | backend/internal/hub/hub.go:102-129 | After a registration the connection stands under its id in its room's table, in place of any other, every other entry of every room is as before, and a room that was not there is subscribed to |
| HubContracts.RegistrationTells | backend/internal/hub/hub.go:157-183 | The newcomer gets the greeting and the list of exactly the others; exactly the others are told who came and how many they now are; no other connection changes |
| HubContracts.RefusalTellsOnlyTheClient | backend/internal/hub/hub.go:96-124 | A refused connection gets an error, is listed nowhere, and nobody else hears of it |
| HubContracts.DepartureRemoves | backend/internal/hub/hub.go:205-256 | After a departure the id is out of its room's table, every other entry of every room is as before, and an empty room goes with its subscription |
| HubContracts.DepartureTells | backend/internal/hub/hub.go:224-240 | Exactly those left in the room are told who went and how many they are; the leaver's flag is set and its channel closed; no other connection changes |
| HubContracts.ShutdownReachesExactly | backend/internal/hub/hub.go:61-91 | Exactly those listed in a room are told of the shutdown, and have their flags set |
| HubDelivery.SubmissionIsDelivered | backend/internal/hub/hub.go:282-303 | Over runs of any number of hubs: a submission, once handled, is for ever after in the queue of its target, or of every other member of its room, at the place then next, unless that queue was full or closed |
| HubDelivery.PublicationIsDelivered | backend/internal/hub/hub.go:327-356 | So is a publication, at every hub it comes to |
| HubDelivery.SubmissionIsPublished | backend/internal/hub/hub.go:305-325 | A handled submission is on its way to every hub the broker reaches, one copy each, exactly if its room is there and the broker takes its id |
| HubDelivery.PublicationsAreTheNews | backend/internal/hub/hub.go:184-325 | In every run the publications are exactly as many as the registrations, departures and relayed messages handled that a broker takes |
| HubNetwork.RelaysReachTheirRoom | backend/internal/hub/hub.go:258-356 | Over any number of hubs: a relayed message is only at clients of the room it was stamped with, from is the submitting connection's id, a targeted message is only at its target, a broadcast never at its sender's id, broker echo included |
| HubNetwork.PublicationsAreBounded | backend/internal/hub/hub.go:305-325 | In any run of any number of hubs publications never exceed the registrations, departures and broadcasts handled |
| HubNetwork.StepPublishes | backend/internal/hub/hub.go:327-356 | No step publishes more than it handles, and a delivery from the broker publishes nothing |
| HubNetwork.WorkTerminates | backend/internal/hub/hub.go:310-356 | Without new input at most inbox * (hubs + 1) + bus working steps remain |
| HubThreads.ChannelsAreSafe | backend/internal/hub/hub.go:61-256 | Under every schedule of hub goroutine, broker callbacks and shutdown, also with shared ids: nothing is sent on a closed channel, none is closed twice, and every client in a map has an open one |
| HubThreads.StepKeeps | backend/internal/hub/client.go:125-139 | The lock and flag discipline behind it is kept by every lock, flag and channel operation of every thread |
| HubAtomicity.RegistrationIsAtomic | backend/internal/hub/hub.go:96-150 | From any reachable state, whatever other threads do at every lock, flag and channel operation in between: when the hub goroutine is back from a registration, the tables are those the one-step handler leaves |
| HubAtomicity.DepartureIsAtomic | backend/internal/hub/hub.go:197-256 | The same for a departure; a listed client then has its flag set and its channel closed |
| HubAtomicity.OthersKeepTables | backend/internal/hub/hub.go:258-356 | No other thread changes a client table, the rooms, or where the hub goroutine is |
| HubSettling.EveryScheduleCanSettle | backend/internal/hub/hub.go:61-356 | No deadlock: every schedule has a continuation after which no thread is busy and every lock is free |
| HubSettling.SomebodyCanGo | backend/internal/hub/hub.go:197-256 | Wherever a thread is busy, one is not waiting for a lock |
| HubSettling.RunIsBacked | backend/internal/hub/hub.go:61-256 | In every run a lock is held only by threads in the middle of using it |
| HubTables.RegisterTables | backend/internal/hub/hub.go:96-195 | A registration keeps every table entry a registered connection with an open channel, filed under its own room and id |
| HubTables.UnregisterTables | backend/internal/hub/hub.go:197-256 | So does a departure, even when the entry under the id names another connection |
| HubObjects.Client.SendJSON | backend/internal/hub/client.go:125-139 | Appends to the queue unless the flag is set or 256 messages wait; never sends on a closed channel |
| HubObjects.Client.Stamp | backend/internal/hub/client.go:70-74 | The sender's id and room are the connection's own, whatever the payload claims, and everything else is kept |
| HubObjects.Client.WriteFrame | backend/internal/hub/client.go:86-111 | One turn of the write pump empties the queue and writes its messages in order, one a line, into one frame |
| HubObjects.Notify | backend/internal/hub/hub.go:173-183 | The notification loop reaches every member but the one skipped, each once, and nobody else |
| HubObjects.SignalingHub.HandleRegister | backend/internal/hub/hub.go:96-195 | The client replaces any other under its id, is welcomed with the list of the others, they are told, and the arrival is published; or it is refused at shutdown or when the subscription fails |
| HubObjects.SignalingHub.HandleUnregister | backend/internal/hub/hub.go:197-256 | The entry under the id goes, this connection's channel is closed, those left are told with their number, an empty room goes with its subscription |
| HubObjects.SignalingHub.HandleBroadcast | backend/internal/hub/hub.go:258-308 | A relayed message is offered to exactly its target, or to everyone in the room but the sender, no other connection or table changes, and it is published exactly if the room is there and the broker takes its id; a ping is answered to its sender; auth, join and leave do nothing |
| HubObjects.SignalingHub.HandleNatsMessage | backend/internal/hub/hub.go:327-356 | A message from the broker is offered to exactly its target, or to everyone in the room but the sender; no other connection or table changes and nothing is published |
| HubObjects.SignalingHub.NotifyShutdown | backend/internal/hub/hub.go:61-76 | Every client filed in a room is told of the shutdown once, in whatever order rooms are visited |
| HubObjects.RegisterByParts | backend/internal/hub/hub.go:104-194 | Opening the room, filing, welcoming and announcing in this order is the registration of the step machine |
| HubObjects.UnregisterByParts | backend/internal/hub/hub.go:205-255 | Removing, closing, announcing and cleaning up in this order is the departure of the step machine |
| Framing.FramingRoundTrip | frontend/src/lib/engines/signaling.ts:135-146 | However messages are grouped into frames, splitting on newlines and dropping empty lines yields exactly them in order, if and only if each is non-empty and free of raw newlines |
| Framing.RenderedIsWireSafe | backend/internal/hub/message.go:54-56 | Compact JSON text, null and numbers of any spelling included, is never empty and holds no raw newline (sections 6 and 7 of RFC 8259) |
| Framing.MessagesSurviveFraming | backend/internal/hub/client.go:86-111 | Serialised messages survive every grouping into frames, in order |
| Framing.LinesAreSafe | frontend/src/lib/engines/signaling.ts:136-137 | Whatever arrives, the lines handed to the parser are non-empty and newline-free |
| JsonReading.ParseRendered | backend/internal/hub/message.go:54-56 | Parsing the text made of a JSON value gives that value back, whatever its strings contain (RFC 8259, sections 3 to 7) |
| JsonReading.MessagesArriveWhole | frontend/src/lib/engines/signaling.ts:135-146 | However the write pump groups messages into frames, the browser parses out exactly those messages, in order |
| JsonReading.StringReads | backend/internal/hub/message.go:54-56 | Unescaping a string up to its closing quote undoes escaping, whatever follows |
| Signaling.OutboundIsConserved | frontend/src/lib/engines/signaling.ts:198-210 | Over any run every accepted message is written exactly once or still queued, queued messages are written in queue order, and the queue never exceeds 500 |
| Signaling.QueueWaitsForAuthentication | frontend/src/lib/engines/signaling.ts:230-240 | A queued message is written only in handling an authentication success |
| Signaling.StepKeeps | frontend/src/lib/engines/signaling.ts:111-314 | Every event keeps conservation, queue order and pace, and none but an authentication success takes from the queue |
| Signaling.AuthenticationFlushesIff | frontend/src/lib/engines/signaling.ts:230-241 | An authentication leaves the queue empty if and only if the client holds an open socket and no listener disconnects, or nothing was queued and no listener queues anything |
| Signaling.DirectOvertakesQueued | frontend/src/lib/engines/signaling.ts:205-209 | There is no order between direct and queued messages: for any two, a run in which the later one is written first |
| SignalingReconnect.ReconnectionsAreBounded | frontend/src/lib/engines/signaling.ts:174-191 | At most five reconnection timers before the first authentication and five more after each, their delays since the last one beginning 1, 2, 4, 8, 15 seconds |
| SignalingReconnect.DisconnectIsFinalIff | frontend/src/lib/engines/signaling.ts:156-162 | After disconnect, no unasked connection in any run if and only if no timer but the newest was pending |
| SignalingReconnect.HeartbeatLossOutlivesDisconnect | frontend/src/lib/engines/signaling.ts:284-292 | After a lost heartbeat and its closing event a disconnect is not final |
| SignalingReconnect.LateCloseDropsTheNewSocket | frontend/src/lib/engines/signaling.ts:124-129 | The closing event of an old socket makes the client forget its open new one, whose authentication then flushes nothing |
| SignalingReconnect.LateCloseHappens | frontend/src/lib/engines/signaling.ts:284-292 | Such a state is reached: a lost heartbeat, a reconnection, and only then the old socket's closing event |
| SignalingReconnect.CurrentCanBeDroppedIff | frontend/src/lib/engines/signaling.ts:124-129 | Some run in which the socket stays current ends with another's closing event dropping it, if and only if another socket has not closed |
| SignalingReconnect.NewConnectionIsSafeIff | frontend/src/lib/engines/signaling.ts:83-129 | A new connection can be dropped by an older socket's closing event if and only if an older socket had not closed when it was made |
| SignalingLiveness.PingsAreTheTicks | frontend/src/lib/engines/signaling.ts:284-297 | In every run the pings on the wire are, one for one and in order, the heartbeat ticks that were not late and found the client pinging on an open socket, each on the socket current then; likewise the greetings on opening |
| SignalingLiveness.NeverGivesUpEarly | frontend/src/lib/engines/signaling.ts:174-191 | In every run in which sockets can be made, no listener throws on a closing event and no forgotten socket authenticates: the client has a socket, a pending reconnection, was told to disconnect, or has tried five times |
| SignalingLiveness.FailedSocketEndsIt | frontend/src/lib/engines/signaling.ts:83-154 | A reconnection whose socket cannot be made leaves no socket and no timer, though attempts are left |
| SignalingObjects.SignalingClient.Send | frontend/src/lib/engines/signaling.ts:198-210 | Writes on an open socket, queues below 500, drops otherwise |
| SignalingObjects.SignalingClient.FlushQueue | frontend/src/lib/engines/signaling.ts:306-314 | The shifting loop writes the whole queue in order on an open socket and nothing otherwise |
| SignalingObjects.SignalingClient.ScheduleReconnect | frontend/src/lib/engines/signaling.ts:174-191 | One more attempt and timer with a doubled, capped delay, unless disconnecting or after five attempts |
| SignalingObjects.SignalingClient.Connect | frontend/src/lib/engines/signaling.ts:83-154 | A new socket unless one is held |
| SignalingObjects.SignalingClient.Disconnect | frontend/src/lib/engines/signaling.ts:156-162 | Closes and forgets the socket, stops the heartbeat, clears the newest timer |
| SignalingObjects.SignalingClient.OnOpen | frontend/src/lib/engines/signaling.ts:115-122 | The greeting goes to the current socket if that is open |
| SignalingObjects.SignalingClient.OnClose | frontend/src/lib/engines/signaling.ts:124-129 | The closed socket and the current one are forgotten and the heartbeat stops, listeners run, and a reconnection is asked for unless one of them throws or five were tried |
| SignalingObjects.SignalingClient.HandleAuth | frontend/src/lib/engines/signaling.ts:230-241 | Success resets the attempts, runs the listeners, then starts the heartbeat and writes the queue in order on an open socket unless a listener throws; failure closes the socket and writes nothing |
| SignalingObjects.SignalingClient.OnHeartbeat | frontend/src/lib/engines/signaling.ts:284-297 | Not late and on an open socket, exactly one ping is written, on that socket; otherwise the wire is as before. A late pong drops the socket and asks for a reconnection |
| RateLimit.IdleMeansFullIff | backend/internal/middleware/ratelimit.go:55-63 | An evicted bucket would always have been full again if and only if rate * 600 s >= burst |
| LimiterRuns.EvictionIsInvisible | backend/internal/middleware/ratelimit.go:50-93 | If rate * 600 s >= burst (the server uses 5 and 10): in every run in which no eviction removes a bucket that a request is holding, evictions at any times change no answer to any request |
| LimiterRuns.EvictionShowsIff | backend/internal/middleware/ratelimit.go:50-93 | The exact boundary: some continuation is answered differently because of an eviction if and only if it finds the bucket idle and a request is holding it |
| LimiterRuns.HeldEvictionShows | backend/internal/middleware/ratelimit.go:50-93 | The continuation: the holder spends, then as many requests as the burst; the last is allowed only if the bucket was evicted |
| LimiterRuns.RateGuarantee | backend/internal/middleware/ratelimit.go:20-35 | Within any stretch of T seconds of any run, at most burst + rate * T requests of a key are allowed, plus those that spent from a bucket evicted while they held it |
| LimiterRuns.WindowSpends | backend/internal/middleware/ratelimit.go:20-35 | What was allowed is paid by what was available plus the refill, or by orphaned buckets |
| LimiterRuns.StoreViews | backend/internal/middleware/ratelimit.go:54-85 | On the table of levels the steps of a run are the store's get and its sweep, key by key |
| RateLimit.AllowKeeps | backend/internal/middleware/ratelimit.go:20-35 | Tokens stay within 0 and burst, and an allowed request costs exactly one of those available |
| RateLimit.RefillFrom | backend/internal/middleware/ratelimit.go:24-29 | Refilling in two goes is refilling in one, cap included |
| LimiterStore.SweepBetweenGetAndAllow | backend/internal/middleware/ratelimit.go:50-93 | For every store, key and time at which the key's bucket is idle: with a sweep between get and allow, one request more than the burst is allowed at one instant |
| LimiterStore.Bucket.Allow | backend/internal/middleware/ratelimit.go:20-35 | What the bucket had plus rate times the elapsed time, cut at the burst, decides: one token is spent if there is one, and the time is noted either way |
| LimiterStore.LimiterStore.Get | backend/internal/middleware/ratelimit.go:71-85 | The key's bucket, made full if missing; no other bucket changes |
| LimiterStore.LimiterStore.Sweep | backend/internal/middleware/ratelimit.go:54-66 | The delete-while-iterating loop removes exactly the buckets not seen for more than 600 seconds and changes no other |
| LimiterStore.LimiterStore.Decide | backend/internal/middleware/ratelimit.go:91-99 | The verdict and the table after one request that nothing interrupts |
| RoomStore.SweepsAreInvisible | backend/internal/service/room.go:126-164 | Never reusing ids and codes, and with time not running backwards: every lookup by id or code shows the same room with the same lock flag, or nothing, as in a table that deletes no expired room, however lazy and periodic deletions interleave |
| RoomStore.IndexStaysExact | backend/internal/repository/room.go:73-85 | The code index stays the exact inverse of the rooms' codes through every such run |
| RoomStore.CreateKeepsIndexIff | backend/internal/repository/room.go:73-85 | Creating keeps the index exact if and only if neither id nor code is in use, or the id's room has this very code |
| RoomStore.PurgeKeepsIndex | backend/internal/repository/room.go:160-173 | The expiry loops keep the index exact |
| RoomStore.DeleteKeepsIndex | backend/internal/repository/room.go:148-158 | So does a deletion |
| RoomLife.RoomLivesItsTime | backend/internal/service/room.go:126-152 | Over every run with sweeps and lazy deletions anywhere: a created room that nobody deletes is shown by id and by code, with the lock flag last set, exactly until its time is over |
| RoomLife.RequestedRoomLives | backend/internal/service/room.go:91-100 | For a room created on request that time is asked + lifetime when a lifetime is given, whatever the temporary flag says; else 24 hours if temporary; else for ever |
| RoomStore.SweepTakesTheExpired | backend/internal/repository/room.go:160-173 | A sweep takes exactly the rooms past their expiry, with their codes, and leaves every other under its id and code |
| RoomRepository.MemoryRoomRepository.Create | backend/internal/repository/room.go:73-85 | Stamps the caller's record and files it under id and code; an empty id is refused |
| RoomRepository.MemoryRoomRepository.GetByID | backend/internal/repository/room.go:87-97 | A copy of the room, or nothing |
| RoomRepository.MemoryRoomRepository.GetByCode | backend/internal/repository/room.go:99-120 | A copy of the room of that code, or of that lower-cased id when the code is unknown |
| RoomRepository.MemoryRoomRepository.UpdateLock | backend/internal/repository/room.go:122-131 | Sets the flag of that room and changes nothing else |
| RoomRepository.MemoryRoomRepository.UpdateMemberCount | backend/internal/repository/room.go:133-146 | Adds to the count, not below zero; an unknown room is ignored |
| RoomRepository.MemoryRoomRepository.Delete | backend/internal/repository/room.go:148-158 | Removes the room and its code |
| RoomRepository.MemoryRoomRepository.DeleteExpired | backend/internal/repository/room.go:160-173 | The delete-while-iterating loop removes exactly the expired rooms and their codes, and counts them |
| RoomRepository.OneMore | backend/internal/repository/room.go:62-67 | One turn of that loop deletes and counts the room exactly if it has expired |
| RoomService.GenerateRoomCode | backend/internal/service/room.go:34-45 | Eight letters of the charset, one per draw, or none when a draw fails |
| RoomService.RoomService.CreateRoom | backend/internal/service/room.go:76-124 | A valid request files an unlocked room under a generated id and code, expiring at asked + lifetime when a lifetime is given, else 24 hours after if temporary, else never, with the limit asked for or 10; an invalid one, or a failing random source, changes nothing |
| RoomService.RoomService.GetRoom | backend/internal/service/room.go:126-138 | An unexpired room is shown; an expired one is deleted and reported as such |
| RoomService.RoomService.GetRoomByCode | backend/internal/service/room.go:140-152 | The same by code |
| RoomService.RoomService.LockRoom | backend/internal/service/room.go:154-156 | Sets the lock of a known room and nothing else |
| RoomService.RoomService.UnlockRoom | backend/internal/service/room.go:158-160 | Lifts it |
| RoomService.RoomService.DeleteRoom | backend/internal/service/room.go:162-164 | Removes the room and its code |
| RoomService.RoomService.ValidateAccess | backend/internal/service/room.go:166-181 | A shown room may be entered unless it is locked or full |
| RoomService.CreatedRoomIsFound | backend/internal/service/room.go:76-181 | A created room is found by id and by code, and may be entered, exactly as long as its request says, in literal times |
| RoomService.IdServesAsCodeIff | backend/internal/repository/room.go:103-110 | Some spelling of a room's id finds it through the code lookup if and only if the id has no upper-case letter |

## Left out

- Hub.Shutdown, second half: that the flags of all clients are set is a step of the runs, not a method of the hub object.
- HandleRegister: the Redis branch, in which the peer list comes from the cache, is not modelled; without a cache the list is the room's table.
- Connect: the promise it returns, its two listeners and the ten-second timeout, which change no field of the client.
- NATS: at-least-once and ordering are not claimed; a publication may reach any set of hubs, its publisher among them, in any order. With a broker, agreement of the membership views is not claimed: the echo of a hub's own notification comes back to its members.
- LocalRoom: in the hub object a room's client table is a value in the hub's map; the sharing of a `LocalRoom` between threads is modelled in `HubThreads` alone.
- HubThreads.ChannelsAreSafe: the write of the client table and the release of the room's lock are one step where nothing can happen between them.
- Wire form of messages: in the hub a message is its fields; `author` is the model's own tag. Which JSON object a message's fields make is not modelled; that any JSON value survives text and frames is (`JsonReading`), without half surrogate pairs, which Go does not write.
- Slice counts: a zero-byte file has no chunks and its receiver never reassembles, so completion asks for a non-empty file.
- TransferTheorems.DrainedRunHasDelivered: asks for chunk indices below 2^32, that is a file of at most 2^48 bytes; beyond it indices wrap around.
- PacketCodec.RoundTrip: ids are compared as bytes, which on ASCII ids is what the text decoder does.
- Several transfers at once: the step machine of `TransferModel` follows one transfer; others appear as foreign packets on the lanes and foreign rows in the table. `TransferBackpressure` runs any number of outgoing transfers, without their receivers. A second metadata message for a running transfer is not modelled.
- CancelTransfer: the two parts with nothing in between; `CancelOutgoing` and `CancelIncoming` are the pieces around the metadata awaits. In the step machine a transfer is outgoing at one peer and incoming at the other.
- File metadata rows (`saveFileMeta`, `getFileMeta`), progress, speed and ETA: they decide nothing in the protocol.
- Limiter tokens are reals, not floats, and IP addresses are strings.
- Room ids and codes: lower-casing is that of ASCII letters; on ids, which are hexadecimal digits and dashes, nothing else can match.
- Room capacity: nothing in the server calls `UpdateMemberCount`, so no bound on members is claimed.
- SignalingClient.destroy and jitter; JSON parsing in `onmessage`.
- User interface, `roomStore.ts`, WebRTC negotiation, HTTP handlers, configuration, logging, key wrapping and tokens: glue around foreign calls, which would add only easy members.
