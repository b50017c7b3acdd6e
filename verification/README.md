# The transport core, proved

This project models the reliable-UDP transport of a RakNet implementation in
Dafny and proves what it promises. The model covers the send queue, the receive
queue, the frame and range codecs, a network that drops, duplicates and
reorders, and the two concurrent protocols around them: the idle-maintenance
wakeup and the listener's dispatch cache.

## How it is organised

Each component has specification functions on values and, where the program
updates an object in place, a class whose methods are proved to compute them.
The laws are then proved of the functions and lifted to whole runs.

| modules | subject |
|---|---|
| Serial, Window, AckSet | 24-bit serial numbers, the duplicate filter, ACK and NACK ranges |
| Bytes, Frames, FrameCodec, RangeCodec | the wire formats |
| Fragments, Receiver, Reorder | reassembly, the receive queue, its reordering |
| Sender, SendQueue | the send queue as functions and as an object |
| Renumber, Deadlines, DeadlineRuns, Acks, Naming, FlightRuns | retransmission caches, acknowledgement |
| Sums, Ledger, Admission, SendOptions, Room | the byte ledger and admission |
| Scheduler, Policy | the three-lane byte scheduler and the queue under a send policy |
| Packing, Datagrams, Custody, Outbound | packing, grouping, who holds which frame |
| Plan, Inbound, Delivery | the log of accepted messages, and the receiver against it |
| Transport, Safety, Runs, Unordered | the whole system as a state machine |
| TailProbe, ProbeRuns, ProbeSamples, ProbeApart | tail probes |
| ControlReplies, Wakeup, Dispatch | control replies and the two concurrent protocols |

## Conventions and assumptions

- Counters of the sender are kept unwrapped, and every comparison, match and
  wire field goes through `Wrap`. Receiver state is 24-bit, as in the program,
  and is proved to stand for unbounded state.
- Time is a parameter of each operation. The multiplication by 1.5 in the
  retry timeout is the exact integer one, which it equals up to the bound of
  12,000 ms.
- `sort_unstable_by_key` may produce any rearrangement in key order.
- The system assumes bounded lifetimes only, as tests/STRESS.md:44 does. A
  datagram arrives before its sender has used another half epoch of reliable
  indexes (`Transport.Timely`). When an ACK is processed, the numbers it stands
  for and the numbers remembered by frames in flight are less than an epoch old
  (`Transport.Recent`). That new frames are never half an epoch ahead of the
  receiver is proved, not assumed.
- The system takes the MTU in 61..=1492, the range a listener negotiates
  (src/server.rs:140, src/server.rs:644).
- A control reply is one message of 9 to 1024 bytes, or an ordered one and then
  a ping. The only two-part reply is NewIncomingConnection, 94 bytes or more
  (src/packet.rs:549-561), and a connected ping of 9 (src/packet.rs:571-577).
- NACKs in the system are arbitrary range lists at arbitrary times.
- Atomics are sequentially consistent and the wakeup stores one permit.

## Where the program does not keep its promise

- A control reply of two messages can be refused half-way: the ordered message
  is queued, the ping that follows it exceeds a datagram of fewer than 69 bytes,
  and the error path neither flushes nor wakes maintenance
  (src/socket.rs:418-440, src/socket.rs:1229-1231). `Wakeup.HalfReplyIsLost`
  gives the run and `Wakeup.WakeupsAreKept` the exact condition. A client at
  that MTU never leaves `connect`, so its idle maintenance is never switched on.
  It takes a listener-side socket with idle maintenance whose peer sends
  ConnectionRequestAccepted. The laws of the whole system hold in runs with such
  a refusal too: it delays the reply and loses or reorders nothing.
- A send policy promises that a reliable send leaves the unreliable reserve free
  (src/send_options.rs:63-64). Control replies and the notice that closing queues
  are inserted without admission (src/socket.rs:413-454, src/socket.rs:1509-1517)
  and may reach into it. `Policy.ForcedEatsReserve` gives a run,
  `Policy.InsertReaches` what each such insertion takes, and
  `Policy.LaneDecidesExactly` the exact condition under which an unreliable
  message is granted whenever its lane has room.

## Model

| member | source | states |
|---|---|---|
| Runs.DeliveryInOrder | src/arq.rs:676-763 | In every run of sender, lossy network and receiver, at every moment and on every channel, the ReliableOrdered payloads handed over are a prefix of those the sender accepted there; the receiver goes on so after the sender has closed |
| Runs.NoSilentLoss | src/arq.rs:1459-1542 | In every run, a reliable frame the sender no longer holds has been accepted by the receiver |
| Runs.OneNumberOneDatagram | src/socket.rs:503-520 | In every run, the bytes of each datagram decode to exactly the frames ever emitted under its number |
| Unordered.EmptyMeansEverythingDelivered | src/arq.rs:1772-1786 | In every run, when the send queue is empty every accepted ReliableOrdered and Reliable message has been handed over by the receive queue: ordered ones in order on their channel, unordered ones exactly once |
| Unordered.UnorderedExactlyOnce | src/arq.rs:697-699 | In every run, the Reliable payloads handed over by the receive queue are, with multiplicity, exactly those of the messages whose frame was accepted |
| Runs.RunIsSafe | src/socket.rs:1121-1150 | The whole invariant holds in every reachable state |
| Runs.StepLives | src/socket.rs:1031-1094 | Every step of either peer keeps the invariant: sending, a control reply taken whole or refused half-way, the notice of closing, ACK, NACK, maintenance, arrival, receipt, and either side closing |
| Runs.SenderIsNear | src/arq.rs:1084-1104 | The sender is never more than 589,824 reliable indexes ahead of the receive window, so serial comparisons against new frames never wrap |
| Runs.ArriveLives | src/socket.rs:1105-1150 | An arriving datagram, first or repeated, keeps the invariant, and one that closes the receiver hands nothing over |
| Safety.RetiredWasAccepted | src/arq.rs:1473-1514 | A frame retired on any current or remembered number was accepted, given feedback younger than an epoch of numbers |
| Safety.MaintenanceWhole | src/socket.rs:1411-1424 | The maintenance flush, sent frame by frame, still sends each number as one datagram |
| Safety.TransmittedWhole | src/socket.rs:503-520 | A flush sent through the grouping path sends each number as one datagram |
| Safety.SendInserts | src/socket.rs:1772-1790 | A granted batch is inserted whole |
| Safety.ReplyIsCalm | src/socket.rs:418-440 | A control reply taken whole leaves at most one frame to pack; one refused half-way leaves none, unless the flight is full or the cap cut it short, and then nothing as long as a ping goes in before a flush |
| Safety.LeaveLives | src/socket.rs:1509-1517 | The notice that closing queues, without admission or flush, keeps the invariant |
| Room.DrainedHasRoom | src/arq.rs:1084-1104 | With the queue drained and fewer than 64 frames in flight, at least 2 MiB of the cap are free, however long the messages sent |
| Room.SendKeepsRoom | src/arq.rs:1127-1146 | A granted batch keeps the bound on long messages that this rests on |
| Room.WholeReplyFits | src/socket.rs:418-440 | There a two-part reply is never refused half-way when the ping fits the datagram |
| Runs.RepliesAreWhole | src/socket.rs:418-440 | In every run, a drained queue with room in its flight takes a two-part reply whole when the ping fits the datagram |
| Delivery.ReceiveReliable | src/arq.rs:676-763 | Any reliable frame of the log, new or repeated and in any order, keeps every channel delivering exactly the accepted payloads in order |
| Delivery.FlushDelivers | src/arq.rs:790-799 | Handing ready frames over only moves the line between ready and delivered |
| Delivery.OrderNear | src/arq.rs:700-709 | While the next message of a channel is incomplete, the receive window bounds how far ahead any accepted message can be |
| Inbound.NoReuse | src/sequence.rs:32-48 | While a message is incomplete, no fragment of another message with the same wrapped compound number can be accepted |
| Inbound.FragmentAccepted | src/fragment.rs:127-143 | An accepted fragment joins exactly its own message; the last one yields the payload byte for byte and frees the group; the groups stay exactly the partly accepted messages |
| Plan.EnqueueLogs | src/arq.rs:1254-1316 | Every accepted reliable message becomes one well-formed log entry whose frames rejoin to its payload |
| Plan.SpansApart | src/arq.rs:1263-1301 | Messages use disjoint, increasing reliable indexes, at least one per ordered message and two per fragmented one |
| Plan.ReuseIsFar | src/arq.rs:1301-1301 | Two messages with the same 16-bit compound number lie at least 131,070 reliable indexes apart |
| Outbound.FlushSettles | src/arq.rs:1624-1770 | A flush leaves the queue resting and drained, emits numbers within one epoch, packed, contiguous, and keeps every reliable frame |
| Outbound.RetiredWasNamed | src/arq.rs:1473-1514 | A frame an ACK removes left under a number the ACK covers |
| Custody.FlushCustody | src/arq.rs:1624-1770 | A flush loses no reliable frame, emits only held frames, and extends each frame's trail by exactly the numbers it emits it under |
| Custody.AckAnswers | src/arq.rs:1459-1542 | An ACK removes only items it names and otherwise only renumbers |
| Custody.AnsweredHeld | src/arq.rs:1473-1514 | A frame no longer held after feedback was acknowledged under one of its numbers |
| Datagrams.TransmitFrames | src/socket.rs:491-531 | The grouping loop computes the specified datagrams |
| Datagrams.DatagramsAreWhole | src/socket.rs:503-520 | Each datagram is exactly what was emitted under its number, and every number has its datagram |
| Datagrams.DatagramRoundTrip | src/arq.rs:306-319 | Each datagram is encodable, within MTU - 28, and decodes to the frames put into it |
| Datagrams.EnqueueKeepsFit | src/arq.rs:1170-1325 | Insertion queues only frames that fit an MTU in 61..=1492 |
| DeadlineRuns.CachedRunRefinesScan | src/arq.rs:1575-1702 | Every run with the cached deadline, retry flag and dirty flag emits, flush by flush, what a run that always rescans and sorts emits |
| DeadlineRuns.RunKeepsCached | src/arq.rs:1343-1357 | After every step of every run the cached deadline is no later than the deadline of any sent frame, a waiting frame is flagged, and so is an unsorted flight |
| Deadlines.FlushIsScan | src/arq.rs:1664-1702 | One flush under that cache condition equals one full rescan and sort |
| Deadlines.OverdueIsResent | src/arq.rs:1567-1622 | Any flush at least 12,000 ms after a frame was last sent, or while it waits, emits it again |
| Deadlines.FlushKeepsCached | src/arq.rs:1624-1770 | A flush restores the cache condition and leaves nothing waiting |
| Renumber.TickFromExact | src/arq.rs:1592-1617 | A scan moves exactly the sent items whose timeout has run out, each to its own fresh number |
| Renumber.NackRangesExact | src/arq.rs:1544-1565 | A NACK list moves exactly the sent items whose current number it covers |
| Renumber.MoveMarkExact | src/arq.rs:1526-1541 | Moving the mark moves exactly the sent items in the gap |
| Acks.CompactExact | src/arq.rs:1459-1542 | One pass keeps exactly the unnamed frames in order, moves the mark to the newest retired number, resequences exactly the sent survivors between the marks, and folds the samples into the latency |
| Acks.OneSamplePerDatagram | src/arq.rs:1495-1509 | In a grouped flight exactly one sample is taken per acknowledged datagram with a frame never retransmitted |
| FlightRuns.RunSamplesOnce | src/arq.rs:1495-1509 | In every run, an ACK after a flush takes exactly one sample per acknowledged datagram with a frame never retransmitted, packed flight or not, and the latency it leaves is those samples folded in |
| Acks.SinglePathAgrees | src/arq.rs:1398-1448 | The single-number path agrees with the one-pass form if and only if the number names at most one frame |
| Naming.RunNamed | src/arq.rs:1732-1736 | In every reachable state two frames in flight answer to a common number only in a flight marked as packed, and no number is above the next one |
| Naming.RunAckIsOnePass | src/arq.rs:1398-1402 | In every run, while the numbers in flight span less than an epoch, an ACK list does exactly what the one-pass form does, whichever path it takes |
| Acks.NewestIsGreatest | src/arq.rs:1490-1494 | Within half an epoch the new mark is the greatest acknowledged number |
| Acks.SurvivorsExact | src/arq.rs:1470-1485 | A frame survives if and only if no range covers a number it answers to |
| Ledger.RunLedgered | src/arq.rs:1084-1104 | In every run the byte counter is 128 per held frame, plus each held whole payload, plus the length of each payload that run has cut into fragments, once while a fragment of it is held; and at most 64 MiB |
| Ledger.RetireBalanced | src/arq.rs:1411-1424 | Retiring a frame gives back its own payload, or a fragmented one exactly when no other fragment of it is held, and never more than is buffered |
| Ledger.RetireReturns | src/arq.rs:1411-1424 | What retiring a frame gives back is exactly what holding it cost |
| Ledger.ReplayReleasesNothing | src/arq.rs:1486-1514 | An ACK that names no frame in flight changes nothing |
| Ledger.AckLedgered | src/arq.rs:1459-1542 | Acknowledgements keep the ledger in balance, never raise it, and leave the recorded payloads of unfinished messages as they were |
| Ledger.EnqueueLedgered | src/arq.rs:1170-1341 | Inserting a message, accepted or refused, keeps the ledger in balance |
| Ledger.EnqueueOwes | src/arq.rs:1170-1341 | An accepted message adds exactly what its frames cost: 128 each and its payload once, recorded under its own compound number |
| Ledger.FlushLedgered | src/arq.rs:1704-1767 | A flush keeps the ledger in balance |
| Ledger.EmptyOwesNothing | src/arq.rs:1772-1786 | An empty queue has an empty ledger |
| Ledger.FramesBounded | src/arq.rs:883-887 | No queue ever holds more than 524,288 frames |
| Admission.GrantedBatchFits | src/arq.rs:1127-1146 | After a granted batch every insertion succeeds exactly when each message fits its mode, and what was granted is what is reserved |
| Admission.GrantedMessageFits | src/arq.rs:1106-1117 | The same for one message |
| Admission.ShortcutIsGeneral | src/arq.rs:1941-1990 | The reliable shortcut decides as the general reservation formula |
| Admission.AdmissionKeepsReserve | src/arq.rs:1941-1990 | Granted bytes fit the cap, and a reliable admission leaves the whole unreliable reserve free |
| Admission.ReserveIsUsable | src/send_options.rs:65-83 | After a reliable admission and any further offers, an unreliable message is granted exactly when its own lane has room |
| Policy.ConfigureKeeps | src/arq.rs:1867-1934 | Putting a queue under a policy at any moment keeps every frame and leaves both byte counters exact |
| Policy.OfferBooks | src/arq.rs:1895-1906 | Under a policy an insertion succeeds exactly when it fits the cap and its mode, and books its bytes where admission counts them |
| Policy.PolicedBatchFits | src/arq.rs:1848-1865 | Under a policy every insertion of a granted batch succeeds exactly when each message fits its mode; reliable ones leave the whole unreliable reserve free and unreliable ones leave it as it was |
| Policy.ReserveOverRuns | src/send_options.rs:63-83 | In every run of sends, insertions without admission, ACKs, NACKs and flushes of a policed queue, a granted unreliable message has room in its lane, and one with room is granted, up to the bytes inserted reliably without admission: admitted traffic is never the reason for a refusal |
| Policy.InsertReaches | src/socket.rs:413-454 | A control reply or closing notice reaches into the unreliable reserve by exactly the bytes it inserts reliably |
| Policy.LaneDecidesExactly | src/arq.rs:1941-1990 | The unreliable lane alone decides every unreliable request if and only if the reliable frames leave the reserve free or the lane is over its budget |
| Policy.ForcedEatsReserve | src/socket.rs:1509-1517 | A run in which a granted batch and the closing notice leave an unreliable message refused that fits its lane |
| Policy.CountersOverRuns | src/arq.rs:1895-1906 | In every run of a policed queue the byte counter is the exact cost of the reliable frames plus the reserved bytes of the frames in the lane |
| Policy.FreshReserves | src/arq.rs:1917-1934 | A fresh queue under any policy its MTU allows starts such a run |
| Policy.FlushPoliced | src/arq.rs:1992-2156 | The scheduled flush runs in every such state and its result is the step those runs take |
| SendOptions.SendOptions.WithInFlightLimits | src/send_options.rs:47-61 | Accepts exactly the documented ranges, sets the two flight limits and nothing else, and keeps valid options valid |
| SendOptions.SendOptions.WithQueueBudgets | src/send_options.rs:65-83 | Accepts exactly budgets of at least 2048 whose sum fits the cap, sets the two budgets and nothing else, and keeps valid options valid |
| SendOptions.SendOptions.WithFlushBudget | src/send_options.rs:87-95 | Accepts exactly the documented range, sets the flush budget and nothing else, and keeps valid options valid |
| SendOptions.BuiltExactly | src/send_options.rs:22-32 | The values that chains of setters build from the preset are exactly the valid ones |
| FlightRuns.RunPacks | src/arq.rs:1704-1749 | In every run each group of frames a flush emits under one number is contiguous, has at most eight members and encodes to at most MTU - 28 bytes |
| Packing.FlushPacks | src/arq.rs:1704-1749 | The same for one flush of any queue, and without packing all numbers differ |
| Packing.FlushStaysSingle | src/arq.rs:1704-1749 | With the flight full or at most one packable frame queued, a flush packs nothing |
| Packing.FlushDrains | src/arq.rs:1709-1721 | After a flush the queue is empty or the flight is full, and the flight never exceeds 64 |
| FrameCodec.GroupRoundTrip | src/arq.rs:306-319 | Decoding inverts encoding on every valid group of canonical frames |
| FrameCodec.GroupSizeExact | src/arq.rs:410-438 | The size formula is the encoded length |
| FrameCodec.SerializeGroup | src/arq.rs:306-319 | Succeeds exactly on valid groups and writes the specified bytes |
| FrameCodec.EncodeHeader | src/arq.rs:334-375 | Succeeds exactly on valid frames and writes the specified header |
| FrameCodec.DecodeInto | src/arq.rs:457-459 | Computes the specified parse on every byte string |
| FrameCodec.DecodeOwnedInto | src/arq.rs:461-476 | The in-place form computes the same parse on every byte string |
| FrameCodec.DecodeWith | src/arq.rs:478-541 | The shared loop computes the parse, with or without copying a lone payload |
| RangeCodec.ControlRoundTrip | src/packet.rs:391-419 | A range list encodes exactly when it has at most 65,535 records, and then decodes to itself |
| RangeCodec.WriteControlRanges | src/packet.rs:407-419 | The writer computes the specified bytes |
| RangeCodec.ReadControlRanges | src/packet.rs:363-389 | The reader computes the specified parse, refusing reversed ranges and wrong counts |
| Bytes.RaknetReader.ReadU24 | src/datatype.rs:232-255 | Reads a little-endian 24-bit number or fails without moving |
| Bytes.RaknetReader.ReadSlice | src/datatype.rs:201-212 | Reads exactly the requested bytes or fails without moving |
| AckSet.AcksAreWhatArrived | src/arq.rs:589-614 | The ACK ranges cover exactly the numbers received since the last take, although they may overlap |
| AckSet.HolesOverRun | src/arq.rs:552-587 | Over any arrivals within half an epoch the NACK ranges are disjoint, never wrap, and cover exactly the numbers passed and not received |
| AckSet.ReportExact | src/arq.rs:616-619 | Between two takes the report is exactly the holes passed since the first |
| AckSet.HolesExact | src/arq.rs:552-587 | The same for one arrival, through range splitting and the wrap |
| AckSet.ACKSet.InsertNumber | src/arq.rs:552-605 | The in-place update is the specified one |
| AckSet.ACKSet.TakeAck | src/arq.rs:611-614 | Returns the recorded ranges and empties the record |
| Window.AcceptedExactlyOnce | src/sequence.rs:32-48 | Over any arrivals within half an epoch an index is accepted exactly on first sight |
| Window.AcceptRefines | src/sequence.rs:32-48 | Deciding on 24-bit indexes is deciding on an unbounded seen-set, with everything pending strictly ahead and within 65,536 |
| Window.DrainRefines | src/sequence.rs:43-46 | The drain loop advances the unbounded base past exactly the contiguous pending indexes |
| Window.ReliableWindow.AcceptIndex | src/sequence.rs:32-48 | The in-place update is the specified one; its loop terminates |
| Serial.NewerIsGreater | src/sequence.rs:19-22 | Within half an epoch the wrapped comparison is the unbounded one |
| Serial.DistanceAhead | src/sequence.rs:15-17 | Within an epoch the wrapped distance is the difference |
| Fragments.PieceJoins | src/fragment.rs:127-143 | A new piece joins its group; the completing one, whichever it is, yields the message and frees the group; other groups are untouched |
| Fragments.BytesExact | src/fragment.rs:106-143 | The byte counters are exact after every insertion and stay within the budget |
| Fragments.InsertionKeepsValid | src/fragment.rs:35-60 | Only incomplete groups are kept |
| Fragments.FullIsComplete | src/fragment.rs:31-33 | A full group has every index |
| Fragments.MergeGroup | src/fragment.rs:62-96 | The merge loop computes the specified frame or error |
| Fragments.FragmentQ.InsertAndTakeCompleted | src/fragment.rs:127-143 | The in-place update is the specified one |
| Reorder.BypassRefinesBuffer | src/arq.rs:726-748 | For one new message the contiguous bypass leaves what storing and then releasing leaves |
| Reorder.RunRefinesBuffer | src/arq.rs:676-763 | Over every run of frames of any mode and hand-overs the receive queue hands over, event by event, what one with the plain store-then-release buffer does, and refuses a frame exactly when that one does |
| Reorder.ReceiveKeeps | src/arq.rs:676-763 | Every frame keeps both byte counters exact, held indexes strictly ahead of their turn, the count and 64 MiB bounds, and leaves every other channel exactly as it was |
| Reorder.PlaceKeeps | src/arq.rs:716-748 | The same for one complete message |
| Receiver.RecvQ.InsertFrame | src/arq.rs:676-763 | The in-place update is the specified one |
| Receiver.RecvQ.FlushInto | src/arq.rs:790-799 | Hands over the ready frames and then the rest by datagram number |
| SendQueue.SendQ.Insert | src/arq.rs:1170-1341 | Insertion with its fragment loop is the specified one, on success and on every refusal |
| SendQueue.SendQ.NackNumber | src/arq.rs:1367-1396 | The resequencing loop is the specified one |
| SendQueue.SendQ.NackRangeList | src/arq.rs:1544-1565 | The NACK loops are the specified ones |
| SendQueue.SendQ.AckOne | src/arq.rs:1398-1448 | The single-number path is the specified one |
| SendQueue.SendQ.Compact | src/arq.rs:1466-1542 | The one-pass path is the specified one |
| SendQueue.SendQ.AckRangeList | src/arq.rs:1451-1464 | Chooses between the two paths as specified |
| SendQueue.SendQ.ExpireItems | src/arq.rs:1575-1622 | The timeout loop is the specified one |
| SendQueue.SortItems | src/arq.rs:1664-1670 | Returns a rearrangement in order of wire number |
| SendQueue.SendQ.PumpQueue | src/arq.rs:1704-1770 | The loop that moves queued frames out is the specified one |
| SendQueue.SendQ.FlushQueue | src/arq.rs:1624-1770 | The flush is the specified one for the order its sort produced |
| Scheduler.FlushScheduled | src/arq.rs:1992-2156 | Terminates; every frame either leaves through its lane in order or stays; at most flush_bytes leave; new reliable frames stay within both flight limits; and it stops only when each lane is empty, flight-blocked, or its head does not fit the remaining budget |
| Scheduler.ServeLanes | src/arq.rs:2026-2143 | The rounds have those properties |
| Scheduler.ServeLane | src/arq.rs:2031-2136 | One lane's turn keeps them, and a turn that sends nothing proves the lane stuck |
| Scheduler.ServeKeeps | src/arq.rs:2073-2131 | Sending one lane's head keeps them |
| ProbeRuns.ProbeNeverDelays | src/arq.rs:1575-1622 | In every run, each frame of a probed datagram that no ACK names has left under a number above the probe's by any flush at or after the datagram's original deadline, whatever NACKs, gaps or option changes come between |
| ProbeApart.ProbedLeaveApart | src/arq.rs:1592-1621 | In every run, any two frames of a probed datagram that no ACK names have left under two different numbers above the probe's by any flush at or after the original deadline |
| ProbeApart.NeverTogether | src/arq.rs:1592-1621 | In every run, no number above the probe's ever carries two frames of the probed datagram |
| ProbeApart.RunSettled | src/arq.rs:1170-1341 | In every reachable state each reliable frame is held at most once |
| ProbeRuns.FallbackIsResent | src/arq.rs:1592-1621 | At or after the recorded deadline every probed frame leaves under its own fresh number |
| ProbeRuns.ProbeIsNoRetry | src/arq.rs:1035-1068 | A probe replays the whole datagram under one number, records its original deadline and adds no backoff |
| ProbeSamples.ProbedGivesNoSample | src/arq.rs:1495-1509 | In every run, the estimate an ACK leaves is the old one with exactly the measured frames folded in: retired frames never retransmitted nor sent under a second number, one for each number; whatever else the ACK names |
| ProbeSamples.AckFolds | src/arq.rs:1425-1446 | The same for any queue, on the single-number path and the one-pass path |
| ProbeSamples.MeasuredExact | src/arq.rs:1495-1509 | Only unambiguous retired frames are measured, every number among them once and, in a flight that is not packed, every frame |
| ProbeSamples.RetiredLeave | src/arq.rs:1459-1542 | An ACK removes exactly the frames it retires |
| ProbeSamples.AmbiguousGivesNoSample | src/arq.rs:1440-1446 | An ACK that names only frames sent under several numbers leaves the estimate as it was, on both paths |
| ProbeRuns.RecordPersists | src/arq.rs:922-969 | The recorded deadline survives every operation, options being replaced included, while the frame stays on the probe's number |
| ProbeRuns.RunKeeps | src/arq.rs:971-1068 | In every reachable state the number of every probed frame is on record and the cached deadline is no later than any frame's deadline or recorded one; that the record is the original deadline is ProbeIsNoRetry with RecordPersists |
| TailProbe.ScanExact | src/arq.rs:1592-1617 | The scan moves exactly the sent items past their own timeout or the recorded one |
| Wakeup.WakeupsAreKept | src/socket.rs:1343-1401 | No interleaving loses an idle wakeup if and only if a connected ping fits the datagram or nothing does |
| Wakeup.NoLostWakeup | src/socket.rs:1343-1401 | With maintenance in its long wait and every sending, receiving and closing task finished, either neither queue needs it, or a permit is stored, or the connection is closed and the wait ends |
| Wakeup.HalfReplyIsLost | src/socket.rs:418-440 | With an MTU of 61 to 68, every reply of an ordered message of up to 1024 bytes and a ping is queued by half and announced to nobody, in a concrete run that ends with that refusal |
| Wakeup.RunKeeps | src/socket.rs:1141-1143 | The handshake invariant holds in every reachable state |
| Wakeup.QueuedIsSent | src/arq.rs:1704-1767 | With nothing in flight, a flush sends the first queued frame |
| Wakeup.NoHalfReply | src/socket.rs:418-440 | An empty queue takes a whole reply or nothing of it when the ping fits |
| Dispatch.HitAgreesWithMap | src/server.rs:63-70 | In every interleaving a cache hit is the session the map holds for that full address |
| Dispatch.SendAgreesWithMap | src/server.rs:743-749 | Until the listener has sent, its choice is still the map's, or the map has none |
| Dispatch.OnlyEndedRemoved | src/server.rs:764-768 | What is removed for a failed send is the session that ended, never a replacement |
| Dispatch.RunKeeps | src/server.rs:637-770 | The agreement of cache and map holds in every reachable state |
| Dispatch.SessionDispatchCache.Sender | src/server.rs:63-70 | Looks up as specified |
| Dispatch.SessionDispatchCache.Remember | src/server.rs:72-78 | Overwrites the slot of the address |
| Dispatch.SessionDispatchCache.Forget | src/server.rs:80-85 | Empties the slot only when it holds that address |
| Dispatch.SessionDispatchCache.Prune | src/server.rs:87-96 | Empties exactly the slots of ended sessions |

## Left out

- Tokio, sockets, batched system calls, sharding and loss simulation: a send puts a datagram into the network.
- The blocking adapters, handshake codecs, ping, MOTD and version negotiation: fixed layouts that would only add easy members.
- Fragment expiry by wall clock: a connection may close at any moment instead.
- The bounded queue between receiver and application and the early drop when it is full: the network may lose any datagram.
- Delivery of unreliable and sequenced modes, ReliableSequenced among them: they promise no completeness, and only their effect on the reliable state is modelled.
- Scheduler.FlushScheduled: does not state how the scheduled flush packs datagrams, and says nothing across flushes, because the program promises no fairness there.
- ProbeRuns.ProbeNeverDelays: like ProbeApart.ProbedLeaveApart, does not cover a flush that goes through the scheduler, nor the deadline-driven maintenance timer.
- Scheduler.ServeLanes: works on values where the program updates the queue in place, so aliasing and in-place update are not captured there.
- Policy.ReserveOverRuns: the policed queue is modelled on values, and its options are set once; replacing them later changes only the limits.
- TailProbe.ScanExact: the recovery build is modelled on values where the program updates the queue in place, so in-place update is not captured there.
- Packing eligibility of a batch before it is sent (src/arq.rs:1814-1846): only whether coalescing is switched on is modelled.
- The send-policy build without recovery policy: property of whole datagrams is claimed for the default build only.
- Buffer reuse, zero-copy payloads and capacity hints: allocation, not meaning.
