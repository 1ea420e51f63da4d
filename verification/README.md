# A verified model of the RaSTA protocol core of librasta

librasta implements RaSTA (DIN VDE V 0831-200), the transport protocol of railway signalling. This
project models the two protocol layers of the library, the codecs and check codes below them, and
proves what they are for: messages arrive in order, none twice, none made up, whatever the network
does, and every fast or encoded form agrees with a simple definition.

`dafny verify dfyconfig.toml` checks the whole project.

## How the model is built

Code that changes things in place is modelled in place: a connection, a redundancy channel, a defer
queue, a linked-list FIFO, a CRC option block, the two hash contexts and the conversion routines with
their shared error flag are classes, and the loops of the code are loops. Each method is proved
against a function or relation on values, and the theorems over whole runs are about those values.

| file | contents |
|---|---|
| `Packets.dfy` | PDUs as the state machine sees them |
| `SafetyLayer.dfy` | the safety and retransmission layer as functions on the value of a connection |
| `Transitions.dfy` | what one event does, as a table over states and fields, proved of `SafetyLayer` without its checks and handlers |
| `Timestamps.dfy` | the clock, confirmed number and confirmed timestamp of every PDU ever sent |
| `Disconnection.dfy` | what a disconnection request ends, and what it does not |
| `SrConnection.dfy` | the same operations as methods of a class, proved to have exactly that effect |
| `Sessions.dfy` | a connection object through a whole session with any peer |
| `Fifos.dfy` | the linked-list FIFO, refined to a bounded sequence |
| `Runs.dfy` | runs of two endpoints over channels that may lose any PDU |
| `Moves.dfy` | what every operation does to a sender and to a receiver |
| `LossyRuns.dfy` | order and uniqueness in every such run |
| `SenderLog.dfy` | the shape of a sender's log |
| `Completeness.dfy`, `MissingBatches.dfy` | exactly when no batch goes missing over such channels |
| `SilentLoss.dfy`, `LateHeartbeat.dfy` | two concrete runs in which batches do go missing |
| `Stalling.dfy` | endpoints that wait for a retransmission in vain |
| `ReliableRuns.dfy` | two endpoints over channels that lose nothing |
| `Endpoint.dfy` | one endpoint against an arbitrary peer, and where the state machine departs from its design |
| `Delivery.dfy` | what the applications read, against what they submitted |
| `Redundancy.dfy` | the redundancy layer on values, over arbitrary networks |
| `Reception.dfy` | which PDUs the redundancy layer keeps: the reception window from below |
| `DeferQueues.dfy`, `RedundancyChannels.dfy` | the defer queue and the channel as classes |
| `EndToEnd.dfy` | both layers together |
| `Stations.dfy` | a connection and its channel as one object |
| `Crc.dfy` | table-driven CRC against bit-at-a-time division |
| `CrcChoices.dfy` | the configured options and their start values |
| `CrcAnswers.dfy` | known answers of the options, and laws of every code |
| `Codec.dfy` | PDU, redundancy PDU, message and datagram codecs |
| `WireFormat.dfy` | where every field stands in the bytes, and what the two codes cover |
| `Hashing.dfy` | streaming BLAKE2b and MD4 against the block sequences of their RFCs |
| `HashFormat.dfy` | what those block sequences are, byte by byte |

Modelling decisions:

- One session. Sequence numbers are natural numbers and do not wrap at 2^32; queue sizes and all
  configuration values are arbitrary. Key exchange is off.
- The clock is an arbitrary input of every event, and one event reads it once. The outcome of the
  version comparison is an input too. Timers are events that may happen at any time.
- A channel between two endpoints is the sender's log and the number of its PDUs that were consumed;
  losing a PDU consumes it without handing it up. Above an arbitrary network the redundancy layer is
  modelled itself (`EndToEnd`).
- `log` and the tag `origin` record what happened. No operation of a connection reads them; the
  theorems do, and `Stations` takes from `log.sent` what the connection hands to the channel.
- The hash behind the safety code is an uninterpreted function of the covered bytes, and the verdict
  on a received code is the field `intact`.
- Words of the CRC computation are lists of 64 bits, so that shifts out of the word and bits above the
  CRC width behave as in the code. The start value is the one the code uses (`initial_optimized`);
  `CrcChoices` relates it to the configured one.
- The FIFOs hold decoded PDUs, where the code holds their bytes and decodes them on use; the round
  trips of `Codec` say that this is the same.
- `qsort` is represented by an insertion sort with the code's comparator; its callers rely only on
  the contract of `Sort`. For timestamps within 31 bits of each other that contract is what the C
  standard promises. That the result is a permutation for other timestamps, too, is an assumption
  about `qsort`: the comparator is inconsistent then, and the standard promises nothing.
- Decoders demand that the bytes they read lie inside the buffer (`Readable`, `Packed`, `Framed`):
  outside of that the code reads beyond its buffer or does not end.

What the code does differently from what its states and comments suggest is kept, and proved:

- A confirmed number that is not itself queued empties the retransmission queue
  (`Endpoint.RemovalIsExact`), and so messages can be lost without a trace: `SilentLoss` has a run at
  whose end both endpoints are Up, every PDU is consumed and two of three messages are gone. Every
  batch stays buffered or queued if and only if no such removal happens
  (`MissingBatches.KeptExactlyWhen`); while none happens the receiver has exactly the first
  batches sent (`Completeness.CompleteWhileExact`). Order and uniqueness hold in any case
  (`Delivery.LossyDelivery`).
- A first heartbeat out of sequence brings the server up behind data it never saw. No batch sent before
  that heartbeat is ever buffered (`MissingBatches.SkippedByLateHeartbeat`), even when every removal is
  exact (`LateHeartbeat.MessageSkippedByLateHeartbeat`); a late heartbeat with no batch before it costs
  nothing. So on the way to the server, with safe removals, the first batches are what is buffered if
  and only if no late heartbeat counted a batch or nothing was buffered at all
  (`MissingBatches.FirstOnesExactlyWhen`), and `MissingBatches.KeptForServerExactlyWhen` says without
  any condition when every batch stays buffered or queued.
- Data in sequence is confirmed but not buffered in state RetrRunning
  (`Endpoint.ConfirmedButNotBuffered`). Between two honest endpoints it never gets there: the burst of
  a retransmission is sent at once and its heartbeat ends that state
  (`Completeness.DataNeverMeetsRetransmission`).
- A gap shown by a heartbeat leads to the waiting state without a request
  (`Endpoint.GapSeenByHeartbeatIsNotAskedFor`), and no endpoint that got there ever comes up again
  (`Stalling.GapSeenByHeartbeatIsFatal`).
- A first heartbeat can end in state Up behind a disconnection request
  (`Endpoint.UpAfterDisconnecting`), and a retransmission request in RetrRunning is answered behind
  one (`Endpoint.AnsweredAfterClosing`).
- A disconnection request of the peer closes the connection and locks its timers for the rest of the
  session (`Disconnection.DisconnectedForGood`), but not its sending: messages still queued are packed
  and handed to the redundancy layer by the next flush (`Disconnection.FlushedThoughClosed`), as in the
  run of `Disconnection.DataBehindDisconnection`, and a retransmission request behind a gap is answered
  and even leaves Closed (`Disconnection.LeavesClosedExactlyWhen`). Between endpoints configured for
  each other a disconnection request is ignored if more than ten send windows lie between the number
  expected and its own, and only then (`Disconnection.DisconnectionIsHeard`).
- The redundancy layer encodes a PDU again before handing it up, so the verdict on the safety code of
  what arrived is lost on the way (`Reception.VerdictIsLost`, `Codec.ReencodeDecoded`).
- A rejected connection request leaves the initial sequence number set, so a later retransmission
  request is answered by an endpoint that never was connected. The invariants allow for it.
- A second copy of the expected PDU in one datagram keeps a slot of the defer queue for good
  (`Redundancy.RepeatedPduLeavesCopy`, `Redundancy.LeftoverStays`), a full defer queue accepts nothing
  more (`Redundancy.FullQueueIsStuck`), and the defer timeout goes backwards exactly when such a
  leftover is queued (`Redundancy.TimeoutMovesForward`), as in the run of `Redundancy.DeliveredTwice`.
- The comparator of the defer queue is right exactly for timestamps within 31 bits of each other
  (`DeferQueues.CompareIsFaithful`) and not even transitive beyond (`DeferQueues.CompareGoesRound`).

## Model

| member | source | states |
|---|---|---|
| `LossyRuns.BufferedInOrderWithoutDuplicates` | src/c/retransmission/handlers.c:69-263 | In every run of two honest endpoints over channels that lose any PDUs, the PDUs whose messages an endpoint buffered carry batches of its peer, in the order of first sending, none twice, despite renumbering, repeated retransmission and over-eager removal |
| `LossyRuns.NextInv` | src/c/retransmission/safety_retransmission.c:564-645 | Every receive, loss, application call and timer keeps the invariant of both directions: at most one request or response is under way, and a burst under way starts above what the receiver buffered |
| `LossyRuns.RunInv` | src/c/retransmission/handlers.c:9-38 | The invariant holds in every state of every lossy run |
| `Runs.PopConfirmedDropsConfirmed` | src/c/retransmission/safety_retransmission.c:93-112 | Nothing numbered up to the confirmed number survives in an ordered retransmission queue |
| `LossyRuns.MoveKeepsDirection` | src/c/retransmission/safety_retransmission.c:88-118 | Removing, speaking and sending a batch keep the invariant of a direction |
| `LossyRuns.ReplySender` | src/c/retransmission/handlers.c:161-168 | An answer from a queue beyond what the request confirms keeps it, too: response, renumbered burst and heartbeat under way start above what the receiver buffered |
| `LossyRuns.ReactionKeepsDirection` | src/c/retransmission/handlers.c:9-375 | Whether the receiver ignores, notes or takes the next PDU, or asks for a retransmission, the invariant of the direction holds |
| `LossyRuns.SilentLocal` | src/c/retransmission/safety_retransmission.c:376-433 | Before it is connected an endpoint sends nothing but disconnection requests |
| `Moves.ReceiveMoves` | src/c/retransmission/safety_retransmission.c:564-645 | Whatever the four moves of a sender keep (removing, speaking, sending a batch, answering a request), every arrival keeps; removals only when the arrival confirms, with its number and the queue as it was, answers only to requests |
| `Moves.LocalMoves` | src/c/transport/events.c:168-277 | Whatever speaking and sending batches keep, the application and the timers keep |
| `Moves.ReceiveReacts` | src/c/retransmission/handlers.c:9-375 | Every arrival is ignored, noted in sequence or on one of four other occasions, or taken in sequence while Up or RetrRunning; one who waits goes on waiting and asks nothing unless the response comes |
| `SenderLog.MoveKeepsLog` | src/c/retransmission/safety_retransmission.c:283-358 | Every move keeps the log of a sender: numbers and batches without gaps, bursts whole behind every response, and a queue that holds exactly the last batches sent |
| `Completeness.DataNeverMeetsRetransmission` | src/c/retransmission/handlers.c:107-110 | In no run of two honest endpoints does data in sequence reach one in RetrRunning |
| `Completeness.CompleteWhileExact` | src/c/retransmission/safety_retransmission.c:88-118 | In every lossy run and in either direction: while every removal confirms a queued number or everything queued, and the heartbeat that ends the server's handshake is in sequence or has no batch before it (needed towards the server only), the receiver buffered exactly the first batches, all others are still queued, and all are buffered once it has caught up |
| `Completeness.RunDialing` | src/c/retransmission/handlers.c:453-529 | In no run does a client that awaits its response receive a heartbeat |
| `MissingBatches.KeptExactlyWhen` | src/c/retransmission/safety_retransmission.c:88-118 | In either direction, unless a late first heartbeat had a batch before it (towards the server only): every batch was at all times buffered by the receiver or queued by the sender if and only if every removal confirmed a queued number, or everything queued, or came when the receiver had everything |
| `MissingBatches.KeptForServerExactlyWhen` | src/c/retransmission/safety_retransmission.c:88-118 | Towards the server without any condition: every batch was at all times buffered or queued if and only if every removal was safe and, once a late first heartbeat had a batch before it, nothing was removed any more |
| `MissingBatches.FirstOnesExactlyWhen` | src/c/retransmission/handlers.c:268-327 | With safe removals, what the server buffered are at all times the first batches if and only if no late first heartbeat had a batch before it, or nothing was buffered at all |
| `MissingBatches.GoneForGood` | src/c/retransmission/safety_retransmission.c:283-358 | A batch that is neither buffered nor queued nor under way is never buffered |
| `MissingBatches.UnsafeRemovalCanLose` | src/c/retransmission/safety_retransmission.c:93-112 | After the first unsafe removal the run has a continuation, by loss alone, in which the next batch that the receiver needs is gone for good |
| `MissingBatches.SkippedByLateHeartbeat` | src/c/retransmission/handlers.c:268-327 | In every run, once a heartbeat out of sequence has brought the server up, no batch that was sent before that heartbeat is ever buffered |
| `MissingBatches.QueuedBehind` | src/c/retransmission/safety_retransmission.c:283-358 | While no response follows a control PDU, what is queued behind its number comes after every batch it counts |
| `SilentLoss.MessagesLostSilently` | src/c/retransmission/safety_retransmission.c:93-112 | For any three messages there is a run at whose end both endpoints are Up, every PDU is consumed, nothing is queued, and only the first message was buffered; its removal at step 12 is not safe |
| `SilentLoss.RemovalIsUnsafe` | src/c/retransmission/safety_retransmission.c:93-112 | In state 12 of that run number 4 is confirmed while 3 and 5 are queued |
| `LateHeartbeat.MessageSkippedByLateHeartbeat` | src/c/retransmission/handlers.c:268-327 | With a clock that moves at every event, there is a run in which every removal is exact, a late first heartbeat has a batch before it, both endpoints end Up with every PDU consumed and nothing queued, and the only batch was never buffered |
| `Stalling.UnansweredStaysDown` | src/c/retransmission/handlers.c:202-220 | In every run an endpoint in RetrRequested with no request of its own and no response under way is never Up, RetrRunning or Start again |
| `Stalling.GapSeenByHeartbeatIsFatal` | src/c/retransmission/handlers.c:360-373 | From the moment a heartbeat puts an endpoint into the waiting state, it never comes up again |
| `ReliableRuns.NeverRetransmits` | src/c/retransmission/handlers.c:265-375 | Over channels that lose nothing no endpoint enters RetrRequested or RetrRunning, and no retransmission PDU is ever sent |
| `ReliableRuns.BufferedIsExactPrefix` | src/c/retransmission/handlers.c:69-140 | There, the batches buffered are exactly the first ones sent, and all of them once an endpoint that is Up consumed everything |
| `ReliableRuns.NextNetInv` | src/c/retransmission/safety_retransmission.c:564-645 | Every step of such a run keeps the numbering of both directions in agreement, through the handshake, data, heartbeats and closing |
| `ReliableRuns.ReliableRunInv` | src/c/retransmission/handlers.c:9-38 | That agreement holds in every state of every such run |
| `ReliableRuns.ServerAnswers` | src/c/retransmission/handlers.c:379-451 | The first connection request brings the server from unused to agreement with the client, or closes it |
| `ReliableRuns.ClientAnswered` | src/c/retransmission/handlers.c:453-529 | The connection response brings the client to agreement with the server, or closes it |
| `ReliableRuns.NextPduIsValid` | src/c/retransmission/safety_retransmission.c:142-181 | The next PDU of the peer passes the identity, range, confirmation and sequence checks of an engaged receiver |
| `Delivery.LossyDelivery` | src/c/rasta.c:133-161 | In every lossy run what an application reads is a subsequence of what the other one submitted |
| `Delivery.ReliableDelivery` | src/c/rasta.c:133-161 | In every run without loss, and while the receive queue refused nothing, it is a prefix |
| `Delivery.RunSound` | src/c/retransmission/safety_retransmission.c:564-645 | Both endpoints of a run keep the bookkeeping invariant of `Endpoint` |
| `Delivery.InOrderFlatten` | src/c/retransmission/safety_retransmission.c:55-86 | The messages of batches accepted in order are a subsequence of all messages sent |
| `EndToEnd.StackDelivery` | src/c/transport/events.c:122-125 | Both layers over an arbitrary network: no retransmission happens, the expected PDU is never left queued, an application reads a prefix of what was submitted, and an endpoint that is Up and caught up has buffered every batch |
| `EndToEnd.ActKeepsInv` | src/c/redundancy/rastaredundancy.c:27-56 | A receive event drains PDUs that are exactly the next steps of a run without loss |
| `EndToEnd.StackRunInv` | src/c/redundancy/rastaredundancy.c:27-169 | The combined invariant holds in every state of every run of the stack |
| `Endpoint.ApplySound` | src/c/retransmission/safety_retransmission.c:564-645 | Against an arbitrary peer every event of a first session keeps numbering, queues and message accounting consistent and never lowers the confirmed number |
| `Endpoint.HistorySound` | src/c/retransmission/handlers.c:9-38 | That consistency holds in every reachable state of a first session |
| `Endpoint.ConfirmationNeverDecreases` | src/c/retransmission/safety_retransmission.c:165-177 | The confirmed number never decreases and stays below the next number to send |
| `Endpoint.QueueStaysOrdered` | src/c/transport/events.c:243-260 | Numbers in the retransmission queue strictly increase, stay below the next number, and the queue stays within its bound |
| `Endpoint.NumbersHaveNoGaps` | src/c/retransmission/messages.c:15-64 | The m-th PDU sent carries the initial number plus the PDUs before it that are not disconnection requests; the next number counts all of them |
| `Endpoint.MessagesAreConserved` | src/c/transport/events.c:192-277 | Messages submitted equal those in data PDUs followed by the send queue; a PDU carries between one and the maximal number of messages |
| `Endpoint.AcceptedNumbersAscend` | src/c/retransmission/safety_retransmission.c:142-163 | Against an arbitrary peer the numbers of accepted PDUs strictly increase between two retransmission responses |
| `Endpoint.RemovalIsExact` | src/c/retransmission/safety_retransmission.c:88-112 | Removal leaves exactly the unconfirmed PDUs if and only if the confirmed number is queued or everything queued is confirmed; otherwise it leaves nothing |
| `Endpoint.RetransmissionKeepsBatches` | src/c/retransmission/safety_retransmission.c:283-358 | Retransmitting n queued PDUs keeps their batches and order, gives them the next n numbers, sends them and one heartbeat, and advances the number by n + 1 |
| `Endpoint.ConfirmedButNotBuffered` | src/c/retransmission/handlers.c:74-116 | A valid data PDU in sequence is confirmed without being buffered if and only if the state is RetrRunning |
| `Endpoint.GapSeenByHeartbeatIsNotAskedFor` | src/c/retransmission/handlers.c:360-373 | Entering the waiting state sends exactly one request, or none if a heartbeat showed the gap |
| `Endpoint.UpAfterDisconnecting` | src/c/retransmission/handlers.c:268-327 | A first heartbeat leads to Up behind a disconnection request if and only if its timestamp is in sequence and the endpoint is a client or the number is not in sequence |
| `Endpoint.AnsweredAfterClosing` | src/c/retransmission/handlers.c:142-179 | A request in sequence is always answered; in RetrRunning behind a disconnection request, and the connection ends closed |
| `Transitions.ArrivalFollowsTable` | src/c/retransmission/handlers.c:9-529 | Every PDU in every state: next state, PDUs without messages sent in answer and their order, numbers and timestamps recorded, messages buffered or dropped, error counters, role and heartbeat lock are those of a table over the fields; every PDU sent carries both identities, the clock, and the confirmed number and timestamp that the table says |
| `Transitions.ImplausibleIsCounted` | src/c/retransmission/safety_retransmission.c:595-635 | Outside the handshake a PDU with a wrong code, a foreign identity, a number outside ten send windows or a confirmation outside what is unconfirmed changes nothing but the counter of the first of these tests |
| `Transitions.TakenExactlyWhen` | src/c/retransmission/handlers.c:69-263 | Messages are buffered if and only if code, identities, number, confirmed number and confirmed timestamp lie in ranges written out over the fields, and data meets Up or retransmitted data RetrRunning |
| `Transitions.LocalFollowsTable` | src/c/transport/events.c:132-277 | Every call of the application and every timer in every state: next state, PDUs without messages sent, lock, counters and marks; a timeout closes exactly an established connection with running timers |
| `Transitions.FetchesOldest` | src/c/rasta.c:133-161 | Reading takes the oldest buffered message exactly if there is one and the connection is Up |
| `Transitions.FlushSends` | src/c/transport/events.c:192-277 | A flush sends exactly if something is queued and the retransmission queue has room, in any state: one data PDU with the oldest messages, all of them unless the packet is full or the room used up |
| `Transitions.ConfirmedAreDropped` | src/c/retransmission/safety_retransmission.c:88-118 | Data or a heartbeat whose confirmation is recorded leaves nothing queued up to the confirmed number |
| `Transitions.RemovalFlushesExactlyWhen` | src/c/retransmission/safety_retransmission.c:88-118 | A removal is followed by a flush if and only if the send queue is full |
| `Transitions.QueuedWithoutSending` | src/c/retransmission/safety_retransmission.c:388-410 | Messages that fit into the send queue are queued in order, and nothing is sent |
| `Transitions.RefusedOnlyWhenFull` | src/c/retransmission/safety_retransmission.c:388-410 | A message is refused, and all that follow, only if send queue and retransmission queue are both full |
| `Transitions.SubmitsExactly` | src/c/retransmission/safety_retransmission.c:376-433 | Which messages sr_send queues in every state; too many at once change nothing |
| `Timestamps.EveryPduIsMarked` | src/c/retransmission/messages.c:15-64 | In every history each PDU sent carries the identities of the connection, the clock of the event that sent it, and the number and timestamp of the last arrival noted by then: zeros before any and in a connection request, the request's own confirmed timestamp in a connection response |
| `Timestamps.ConfirmsLastNoted` | src/c/retransmission/handlers.c:40-49 | In every history the connection confirms the number and timestamp of the last arrival noted |
| `Timestamps.ConnectionRequest` | src/c/retransmission/safety_retransmission.c:435-476 | Connecting sends one request with the initial number that confirms nothing, and awaits the response with locked timers |
| `Disconnection.DisconnectedByPeer` | src/c/retransmission/handlers.c:51-67 | A plausible disconnection request closes the connection, locks its timers, resets its counters and changes nothing else: nothing is sent, buffered or removed |
| `Disconnection.DisconnectedForGood` | src/c/retransmission/handlers.c:51-67 | In every history, from then on to the end of the session the timers stay locked, no handshake is under way, and neither heartbeat timer nor timeout changes anything |
| `Disconnection.TimersRunExactlyWhen` | src/c/transport/events.c:132-190 | The heartbeat timer and the timeout do something if and only if the timers are unlocked and the connection is established |
| `Disconnection.LeavesClosedExactlyWhen` | src/c/retransmission/handlers.c:180-197 | A used connection leaves Closed for one event only, a plausible retransmission request behind a gap, and then for RetrRequested |
| `Disconnection.DisconnectionIsHeard` | src/c/retransmission/handlers.c:51-67 | In every run, at either end, a disconnection request of the peer sends and buffers nothing and leaves the connection Closed if and only if it was Closed before, or the endpoints are configured for each other and at most ten send windows lie between the expected number and the request's |
| `Disconnection.RunCredit` | src/c/retransmission/handlers.c:40-49 | In every run what is under way confirms in ascending order from what its receiver knows as confirmed, and every PDU sent names the two identities |
| `Disconnection.SilentTimersBehindDisconnection` | src/c/transport/events.c:132-190 | In every run, at either end, the timers stay silent behind a disconnection request that was heard |
| `Disconnection.FlushedThoughClosed` | src/c/transport/events.c:192-277 | Behind a disconnection request a flush still sends data if and only if messages are queued and the retransmission queue has room |
| `Disconnection.DataBehindDisconnection` | src/c/transport/events.c:192-277 | For any three messages there is a run in which the client, Closed by the server's disconnection request, sends a data PDU with the first of them |
| `Fifos.Fifo.constructor` | src/c/util/fifo.c:7-16 | A new FIFO is empty |
| `Fifos.Fifo.Pop` | src/c/util/fifo.c:18-35 | Takes the first element off the sequence, or nothing off an empty one |
| `Fifos.Fifo.Push` | src/c/util/fifo.c:37-60 | Appends unless the element is missing or the FIFO full |
| `Fifos.Fifo.IsFull` | src/c/util/fifo.c:68-70 | Full when the sequence has the maximal length |
| `SrConnection.Connection.SendDiscReq` | src/c/retransmission/messages.c:15-27 | Sends a disconnection request that takes no number |
| `SrConnection.Connection.SendHeartbeat` | src/c/retransmission/messages.c:35-45 | Sends a heartbeat under the next number |
| `SrConnection.Connection.SendRetrReq` | src/c/retransmission/messages.c:47-55 | Sends a retransmission request under the next number |
| `SrConnection.Connection.SendRetrResp` | src/c/retransmission/messages.c:57-64 | Sends a retransmission response under the next number |
| `SrConnection.Connection.Reset` | src/c/retransmission/safety_retransmission.c:207-224 | Closed, heartbeats locked, error counters cleared, everything else kept |
| `SrConnection.Connection.Close` | src/c/retransmission/safety_retransmission.c:226-246 | Resets, and sends a disconnection request unless already closed or down |
| `SrConnection.Connection.DataSend` | src/c/transport/events.c:192-277 | Moves the next messages into one data PDU, queued for retransmission and sent, exactly when there is room for it; the push never fails |
| `SrConnection.Connection.PopConfirmed` | src/c/retransmission/safety_retransmission.c:93-112 | The pop loop over the linked list leaves what `PopConfirmed` says |
| `SrConnection.Connection.RemoveConfirmed` | src/c/retransmission/safety_retransmission.c:88-118 | Removal followed by a flush when the send queue is full |
| `SrConnection.Connection.RetransmitOne` | src/c/retransmission/safety_retransmission.c:306-344 | One PDU is renumbered, sent, and queued again if and only if there is room |
| `SrConnection.Connection.ResendAll` | src/c/retransmission/safety_retransmission.c:304-354 | The loop renumbers and sends all of them in order and no push fails |
| `SrConnection.Connection.Retransmit` | src/c/retransmission/safety_retransmission.c:283-358 | The whole retransmission, heartbeat included |
| `SrConnection.Connection.AddAppMessages` | src/c/retransmission/safety_retransmission.c:55-86 | Pushes messages in order until the receive queue is full |
| `SrConnection.Connection.SnInSeq` | src/c/retransmission/safety_retransmission.c:142-151 | The sequence check |
| `SrConnection.Connection.CtsInSeq` | src/c/retransmission/safety_retransmission.c:122-140 | The check of the confirmed timestamp |
| `SrConnection.Connection.SnRangeValid` | src/c/retransmission/safety_retransmission.c:153-163 | The range check |
| `SrConnection.Connection.CsValid` | src/c/retransmission/safety_retransmission.c:165-177 | The check of the confirmed number |
| `SrConnection.Connection.Check` | src/c/retransmission/safety_retransmission.c:183-205 | All checks together |
| `SrConnection.Connection.UpdateConnection` | src/c/retransmission/handlers.c:40-44 | Expected number, number to confirm and timestamp after a PDU |
| `SrConnection.Connection.UpdateConfirmed` | src/c/retransmission/handlers.c:46-49 | Confirmed timestamp and number after a PDU |
| `SrConnection.Connection.HandleDiscReq` | src/c/retransmission/handlers.c:51-67 | The connection is reset |
| `SrConnection.Connection.HandleData` | src/c/retransmission/handlers.c:69-140 | Buffers, confirms, requests a retransmission, closes or ignores, by state and checks |
| `SrConnection.Connection.HandleRetrReq` | src/c/retransmission/handlers.c:142-200 | Answers with response, burst and heartbeat, also after closing |
| `SrConnection.Connection.HandleRetrResp` | src/c/retransmission/handlers.c:202-220 | Starts the retransmission if one was awaited, else closes |
| `SrConnection.Connection.HandleRetrData` | src/c/retransmission/handlers.c:222-263 | Buffers a retransmitted PDU, asks again, closes or ignores |
| `SrConnection.Connection.HandleFirstHeartbeat` | src/c/retransmission/handlers.c:268-327 | Completes the handshake, closing branches included |
| `SrConnection.Connection.HandleHeartbeat` | src/c/retransmission/handlers.c:265-375 | Confirms and ends a retransmission, waits without a request, or closes |
| `SrConnection.Connection.HandleConnReq` | src/c/retransmission/handlers.c:379-451 | Opens a session as server or closes |
| `SrConnection.Connection.HandleConnResp` | src/c/retransmission/handlers.c:453-529 | Completes the client's handshake or closes |
| `SrConnection.Connection.HandleChecked` | src/c/retransmission/handlers.c:9-38 | The dispatch on the PDU type |
| `SrConnection.Connection.Receive` | src/c/retransmission/safety_retransmission.c:564-645 | The checks in their order, each counted in its own error counter, then the dispatch |
| `SrConnection.Connection.Enqueue` | src/c/retransmission/safety_retransmission.c:389-411 | Queues messages with flushes in between; succeeds if and only if all were queued |
| `SrConnection.Connection.Submit` | src/c/retransmission/safety_retransmission.c:376-433 | sr_send with its three state cases and its return value |
| `SrConnection.Connection.HeartbeatTick` | src/c/transport/events.c:168-190 | Sends a heartbeat if unlocked and established |
| `SrConnection.Connection.Expire` | src/c/transport/events.c:132-166 | Closes if unlocked and established |
| `SrConnection.Connection.Fetch` | src/c/rasta.c:133-161 | Reads the oldest received message while Up |
| `SrConnection.Connection.Connect` | src/c/retransmission/safety_retransmission.c:435-476 | The client's request with fresh numbers, up to the event loop |
| `Sessions.Handle` | src/c/retransmission/safety_retransmission.c:376-645 | One event at the object has the effect of that event on its value |
| `Sessions.RunSession` | src/c/retransmission/safety_retransmission.c:435-645 | A connection object taken through any list of events of a first session, with any peer, passes through a history of `Endpoint` and is sound at its end: nothing submitted or delivered is unaccounted for, and the confirmed number is below the next one |
| `Stations.Station.constructor` | src/c/redundancy/rasta_redundancy_channel.c:58-76 | A new connection on a new channel: both numbers start together |
| `Stations.Station.Transmit` | src/c/redundancy/rasta_red_multiplexer.c:247-298 | Afterwards the channel's number counts every PDU the connection ever sent, disconnection requests included, and every transport channel that was connected carries the new ones in order, under their numbers; whatever any of them carries is a genuine copy |
| `Stations.Station.Dial` | src/c/retransmission/safety_retransmission.c:435-476 | The request of the client, sent and passed on |
| `Stations.Station.Act` | src/c/transport/events.c:132-277 | What the application and the timers do to the connection is passed on; receiving is not affected |
| `Stations.Station.Hear` | src/c/transport/events.c:122-125 | One receive event of both layers: the channel drains as `Redundancy.Hears` says, the connection handles what was drained in order, and what it sends is passed on |
| `Redundancy.HandedIsPrefixOfSent` | src/c/redundancy/rastaredundancy.c:27-169 | For any channels with loss, repetition and reordering, what is handed up are the first `seqRx` PDUs sent, each once and in order, and the expected PDU is never left queued |
| `Redundancy.HearsKeeps` | src/c/transport/events.c:122-125 | One receive event keeps the channel's invariant and hands up the next PDUs |
| `Redundancy.ReceiveAllKeeps` | src/c/redundancy/rasta_red_multiplexer.c:81-107 | Receiving a datagram only adds genuine PDUs, within the bound, and the expected one only when it reports it |
| `Redundancy.DrainedAreNext` | src/c/redundancy/rastaredundancy.c:32-52 | What is drained are the next PDUs that were sent |
| `Redundancy.ReportedExactlyWhen` | src/c/redundancy/rasta_red_multiplexer.c:81-107 | A datagram is reported exactly if an intact copy of the expected PDU in it, from the peer, met a queue with room |
| `Redundancy.MaximalRunIsDelivered` | src/c/redundancy/rastaredundancy.c:32-52 | For every datagram, what is handed up is exactly the maximal consecutive run, from the expected number on, in the queue after admission |
| `Redundancy.ExpectedPduDeliversRun` | src/c/redundancy/rastaredundancy.c:111-132 | With room in the queue the expected PDU alone delivers exactly the run that was queued behind it |
| `Redundancy.FullQueueIsStuck` | src/c/redundancy/rasta_red_multiplexer.c:95-99 | A full queue is left unchanged by every datagram, and nothing is reported |
| `Redundancy.LeftoverStays` | src/c/redundancy/rastaredundancy.c:128-130 | A copy below the expected number keeps its slot through every event |
| `Redundancy.RepeatedPduLeavesCopy` | src/c/redundancy/rastaredundancy.c:111-132 | Two copies of the expected PDU in one datagram: one is delivered, one stays |
| `Redundancy.TimeoutMovesForward` | src/c/redundancy/rastaredundancy.c:171-180 | On a full queue the timeout drains from the true minimum, and goes forward if and only if nothing queued lies below the expected number |
| `Redundancy.DeliveredNumbersIncrease` | src/c/redundancy/rastaredundancy.c:171-180 | Over any mix of receptions of genuine PDUs and timeouts, everything delivered is what was sent under its number, and the numbers strictly increase if and only if no timeout found a leftover below the expected one |
| `Redundancy.DeliveredTwice` | src/c/redundancy/rastaredundancy.c:128-180 | From an empty channel with two slots, and whatever a peer's first three PDUs are, there is a reception of genuine PDUs and one timeout that hands up the first PDU twice |
| `Reception.HeldExactlyWhen` | src/c/redundancy/rastaredundancy.c:58-169 | Behind a datagram a number is held if and only if it was held before or an intact copy from the peer, at most ten queue sizes ahead of the expected number, met a queue with room; the very first PDU must be number 0 |
| `Reception.NewEntriesAreDated` | src/c/redundancy/rastaredundancy.c:125-158 | What is new in the queue is a PDU of the datagram with its time of arrival |
| `Reception.PassedOrHeldExactlyWhen` | src/c/redundancy/rastaredundancy.c:27-169 | Over every reception a PDU was handed up or is held if and only if a copy of it entered at some event |
| `Reception.HandedUpToFirstMissing` | src/c/redundancy/rastaredundancy.c:27-169 | Over every reception the number of PDUs handed up is the first number of which no copy entered |
| `Reception.WithRoomAllAreHandedUp` | src/c/redundancy/rastaredundancy.c:133-158 | While no PDU meets a full queue, PDUs 0 to n of which a copy came inside the window are all handed up |
| `Reception.LaterPdusQueuedOnce` | src/c/redundancy/rastaredundancy.c:136-158 | Over every reception no PDU behind the expected one is queued twice |
| `Reception.VerdictIsLost` | src/c/redundancy/rastaredundancy.c:16-40 | PDUs that differ only in the verdict on their safety code are handed up alike, as intact |
| `DeferQueues.CompareIsFaithful` | src/c/util/rastadeferqueue.c:24-29 | The truncating comparator has the right sign if and only if the difference fits 32 bits with sign |
| `DeferQueues.CompareGoesRound` | src/c/util/rastadeferqueue.c:24-29 | Three timestamps that it orders in a circle |
| `DeferQueues.SortedIsOrdered` | src/c/util/rastadeferqueue.c:35-37 | Sorting orders by time whenever timestamps lie within 31 bits of each other |
| `DeferQueues.SortedIsPermutation` | src/c/util/rastadeferqueue.c:35-37 | The sorting that stands for `qsort` neither adds nor loses entries; for timestamps more than 31 bits apart this is assumed of `qsort` |
| `DeferQueues.LookupIgnoresOrder` | src/c/util/rastadeferqueue.c:14-22 | With distinct numbers a look-up depends only on what is queued |
| `DeferQueues.DeferQueue.FindIndex` | src/c/util/rastadeferqueue.c:14-22 | The first entry with the number, or -1 |
| `DeferQueues.DeferQueue.Sort` | src/c/util/rastadeferqueue.c:35-37 | A permutation, ordered when timestamps are close; a permutation of other timestamps is assumed of `qsort` |
| `DeferQueues.DeferQueue.Add` | src/c/util/rastadeferqueue.c:61-80 | Adds exactly one entry unless full, and leaves close timestamps in order |
| `DeferQueues.DeferQueue.Remove` | src/c/util/rastadeferqueue.c:82-101 | Removes exactly the first entry with the number, if any, and leaves close timestamps in order |
| `DeferQueues.DeferQueue.Contains` | src/c/util/rastadeferqueue.c:103-107 | Whether an entry with the number is queued |
| `DeferQueues.DeferQueue.Get` | src/c/util/rastadeferqueue.c:134-145 | The entry that a removal would take |
| `DeferQueues.DeferQueue.SmallestSeqNr` | src/c/util/rastadeferqueue.c:116-132 | The slot with the smallest number of all slots, used or not |
| `RedundancyChannels.RedundancyChannel.ReceiveData` | src/c/redundancy/rastaredundancy.c:58-169 | Discards, queues or reports a PDU by check code, number and queue |
| `RedundancyChannels.RedundancyChannel.ReceivePacket` | src/c/redundancy/rasta_red_multiplexer.c:75-110 | The loop over the PDUs of a datagram, with its admission tests |
| `RedundancyChannels.RedundancyChannel.DeliverOne` | src/c/redundancy/rastaredundancy.c:36-51 | Hands up one PDU with the expected number and takes it off |
| `RedundancyChannels.RedundancyChannel.DeliverDeferQueue` | src/c/redundancy/rastaredundancy.c:27-56 | Drains in order until the next number is missing |
| `RedundancyChannels.RedundancyChannel.Hear` | src/c/transport/events.c:122-125 | Receive, then drain if the expected PDU was seen |
| `RedundancyChannels.RedundancyChannel.DeferTmo` | src/c/redundancy/rastaredundancy.c:171-180 | Jumps and drains; on a full queue to the smallest queued number |
| `RedundancyChannels.RedundancyChannel.MuxSend` | src/c/redundancy/rasta_red_multiplexer.c:247-298 | Every PDU takes one number and is copied to every channel that is, or can again be, connected |
| `Crc.FeedAllIsLinear` | src/c/util/rastacrc.c:123-127 | Bit-at-a-time division is linear in register and input |
| `Crc.FeedOwnTop` | src/c/util/rastacrc.c:123-127 | Feeding a register its own top bits only shifts it |
| `Crc.FeedEight` | src/c/util/rastacrc.c:149-157 | Eight steps of the division are a shift and a term that depends on eight bits |
| `Crc.Reflect` | src/c/util/rastacrc.c:9-20 | Mirrors the lowest n bits and clears the others |
| `Crc.TableEntry` | src/c/util/rastacrc.c:115-133 | A table entry is the term of its index, in the representation of the loop |
| `Crc.LookupStep` | src/c/util/rastacrc.c:149-157 | One look-up does eight steps of the division, whatever the accumulator holds above the width |
| `Crc.CrcOptions.GenerateTable` | src/c/util/rastacrc.c:111-137 | The whole table |
| `Crc.CrcOptions.LookupByte` | src/c/util/rastacrc.c:149-157 | One round of the loop over the data |
| `Crc.CrcOptions.Remainder` | src/c/util/rastacrc.c:143-157 | The loop represents the remainder of the division of all data |
| `Crc.CrcOptions.Calculate` | src/c/util/rastacrc.c:138-166 | For widths 8 to 64, any polynomial, reflections and data, with or without a ready table, the result is the check code by bit-at-a-time division |
| `CrcChoices.Augmented` | src/c/util/rastacrc.c:138-166 | Division of a message followed by as many zeros as the code is wide is the division of the code from a start value prepared with as many zero bits |
| `CrcChoices.OptimisedStart` | src/c/util/rastacrc.c:31-109 | Each of the options b to e is in the range of the other results, and its optimised start value is the configured one after as many zero bits as the code is wide; 0x2A26F826 gives 0xFFFFFFFF |
| `CrcChoices.RemainderAsConfigured` | src/c/util/rastacrc.c:31-166 | So the remainder that the code computes is the division of the message followed by zeros from the configured start value |
| `CrcAnswers.KnownAnswers` | test/rasta_test/c/rastacrc_test.c:4-61 | The codes of the nine digits under options b, c, d and e are 0x0E7C650A, 0xE3069283, 0x2189 and 0xBB3D |
| `CrcAnswers.CodesAreLinear` | src/c/util/rastacrc.c:138-166 | For every width, polynomial and choice of reflections the xor of the codes of two messages of equal length is the code of their xor without start value and final xor |
| `CrcAnswers.FinalXorIsApplied` | src/c/util/rastacrc.c:159-163 | Another final xor changes the code of any message by exactly the xor of the two |
| `Codec.DecodeEncode` | src/c/util/rastamodule.c:93-201 | Decoding an encoded PDU, whatever bytes follow it, gives back every field and the data and finds the safety code correct |
| `Codec.ReencodeDecoded` | src/c/redundancy/rastaredundancy.c:16-40 | Encoding a decoded PDU again keeps fields and data and makes the code correct; it gives back the received bytes if and only if their code was correct |
| `Codec.DecodeEncodeRedundancy` | src/c/util/rastamodule.c:203-307 | The same round trip through both layers, with both codes correct |
| `Codec.UnpackPack` | src/c/rastafactory.c:330-390 | Extracting messages inverts packing them |
| `Codec.PackUnpack` | src/c/rastafactory.c:330-390 | Packing extracted messages gives back the payload |
| `Codec.CreateData` | src/c/rastafactory.c:330-359 | The filling loops yield the packed messages |
| `Codec.ExtractMessages` | src/c/rastafactory.c:361-390 | The counting and copying loops yield the messages |
| `Codec.FramesOfJoined` | src/c/redundancy/rasta_red_multiplexer.c:79-107 | A datagram of whole PDUs falls apart into exactly these |
| `Codec.SplitDatagram` | src/c/redundancy/rasta_red_multiplexer.c:79-107 | The framing loop visits every PDU once, in order, and ends with nothing remaining |
| `Codec.DatagramRoundTrip` | src/c/redundancy/rasta_red_multiplexer.c:75-141 | A datagram of encoded PDUs is received as exactly these PDUs, in order, all codes correct |
| `WireFormat.EncodedFormat` | src/c/util/rastamodule.c:64-120 | Every field at its offset, lowest byte first, then the data, and behind them as many bytes as configured of the hash of everything in front |
| `WireFormat.IntactExactlyWhen` | src/c/util/rastamodule.c:141-201 | Fields are read from these offsets, and a PDU is found intact if and only if the bytes behind the data are the first bytes of the hash of those in front |
| `WireFormat.ShortIntactExactlyWhen` | src/c/util/rastamodule.c:141-201 | The same where the length field leaves no room for the header: no data, and a code looked for behind the header |
| `WireFormat.ChangeUnnoticedExactlyWhen` | src/c/util/rastamodule.c:194-201 | Changed header or data under the code of an intact PDU goes unnoticed if and only if the two hashes agree on the bytes that are sent |
| `WireFormat.RedundancyFormat` | src/c/util/rastamodule.c:203-245 | As the factory makes it: length, two zero bytes, number, inner PDU and the reference check code of all this, lowest byte first |
| `WireFormat.OuterIntactExactlyWhen` | src/c/util/rastamodule.c:247-307 | A redundancy PDU is found intact if and only if its last bytes are the reference check code of the others |
| `WireFormat.PackedFormat` | src/c/rastafactory.c:330-359 | A payload is the length of its first message in two bytes, lowest first, the message, and the payload of the others |
| `Codec.PackFields` | src/c/util/rastamodule.c:64-91 | The 28 header bytes |
| `Codec.RastaModule.GetLastError` | src/c/util/rastamodule.c:8-14 | Returns the error flag and clears it |
| `Codec.RastaModule.ModuleToBytes` | src/c/util/rastamodule.c:93-120 | The encoding of the data that the length field asks for, or zeros while the flag is set by this or an earlier call |
| `Codec.RastaModule.BytesToPacket` | src/c/util/rastamodule.c:141-201 | The decoding; too few bytes set the flag |
| `Codec.RastaModule.CodeBytes` | src/c/util/rastamodule.c:279-306 | The check code in the bytes of its width |
| `Codec.RastaModule.RedundancyToBytes` | src/c/util/rastamodule.c:203-245 | The frame around the encoded inner PDU, for every outer length that holds it; with the flag set, around zeros |
| `Codec.FrameIsEncoding` | src/c/rastafactory.c:403-417 | With the length that the factory computes the frame is the outer encoding |
| `Codec.RastaModule.BytesToRedundancy` | src/c/util/rastamodule.c:247-307 | The outer decoding; an inner PDU that is too short sets the flag and is not intact |
| `Hashing.Blake2b.Init` | src/c/util/rastablake2.c:125-149 | Refuses illegal lengths; a key becomes the first block, padded with zeros |
| `Hashing.Blake2b.Update` | src/c/util/rastablake2.c:153-168 | Appends to the input; full blocks are compressed with the right counter |
| `Hashing.Blake2b.Final` | src/c/util/rastablake2.c:173-188 | All compression calls are those of section 3.3 of RFC 7693 |
| `Hashing.HashBlake2b` | src/c/util/rastablake2.c:125-188 | The same for every key and every split of the message into updates, empty ones included |
| `Hashing.CountsStep` | src/c/util/rastamd4.c:144-147 | The two counter words with their carry follow the byte count |
| `Hashing.CountsValue` | src/c/util/rastamd4.c:144-147 | Together they are the byte count modulo 2^61 |
| `Hashing.PaddedBlocks` | src/c/util/rastamd4.c:182-201 | The padded message of sections 3.1 and 3.2 of RFC 1320 ends in one or two tail blocks |
| `Hashing.Md4.Update` | src/c/util/rastamd4.c:140-171 | Processed blocks and buffer are the input, through every branch |
| `Hashing.Md4.Final` | src/c/util/rastamd4.c:179-209 | The blocks processed are exactly those of the padded message |
| `Hashing.HashMd4` | src/c/util/rastamd4.c:140-209 | The same for every split of the message into updates |
| `HashFormat.PaddedFormat` | src/c/util/rastamd4.c:179-209 | The padded message is the message, 0x80, the fewest zeros that reach whole blocks of 64 bytes, and its length in bits modulo 2^64 as one number, lowest byte first |
| `HashFormat.BlocksFormat` | src/c/util/rastamd4.c:140-171 | The blocks are its bytes in order, 64 in each |
| `HashFormat.CallsFormat` | src/c/util/rastablake2.c:153-188 | The blocks given to the compression function are the input, filled up with zeros to the fewest whole blocks of 128 bytes, and at least one |
| `HashFormat.CallsCount` | src/c/util/rastablake2.c:153-188 | Each call is given the number of input bytes up to its end modulo 2^128 in its two words, and exactly the last one the flag of the last |
| `HashFormat.KeyFormat` | src/c/util/rastablake2.c:125-149 | A key is one block, filled up with zeros, in front of the message |

## Left out

- Sockets, TCP, UDP, TLS and DTLS, the event loop and its scheduling: transports are arbitrary networks, timers are events at arbitrary times.
- The OPAQUE key exchange and the states that belong to it.
- Several sessions on one connection, and sequence numbers beyond 2^32: the code neither resets nor wraps all of its numbers.
- `Endpoint.IsHistory` speaks of a first session: a connection request that opens a session finds a connection that has sent nothing yet.
- The closing of transport channels when a connection closes: PDUs may still arrive and be sent afterwards, which allows more runs than the code has.
- The compression functions of BLAKE2b and MD4 and the output of the digest; the key of BLAKE2b is fed by a loop of its own instead of a call of the update routine.
- SipHash, and CRC option a, which uses no check code.
- The byte-level link between a PDU of the state machine and its encoding: the two kinds of PDUs are separate datatypes, joined by the round trips of `Codec`.
- Payloads of connection and disconnection PDUs (version, send maximum, reason) and the version comparison.
- The diagnostics buffer and counters, drift statistics, notifications, logging, memory management, configuration parsing, the dictionary, the command-line examples and the gRPC bridge.
- The adaptive timeout interval, which only schedules a timer.
- `SrConnection.Connection.Fetch`: does not model the wait for a message or the cut to the caller's buffer, because the first belongs to the event loop and the second to the caller.
- `RedundancyChannels.RedundancyChannel.DeferTmo`: does not say where a timeout on a queue that is not full jumps to, because the code then scans unused slots.
- `Codec.SplitDatagram`: demands that length fields stay inside the datagram and are not zero, because the code otherwise reads beyond its buffer or does not end.
- `Codec.ExtractMessages`: demands that inner length fields stay inside the payload, because the code otherwise reads beyond it.
- `Codec.RastaModule.ModuleToBytes`: demands as much data as the length field asks for, because the code otherwise reads beyond it.
- `Codec.RastaModule.BytesToPacket`: demands that the length field lies between the safety code's length and the buffer's, because the code otherwise hashes bytes beyond the buffer.
- `Codec.RastaModule.RedundancyToBytes`: demands an outer length that holds the inner PDU and the check code, because the code otherwise writes beyond its buffer.
- `Codec.CreateData`: demands that the payload fits its 16-bit length, because the code otherwise writes beyond its buffer.
- `Codec.RastaModule.BytesToRedundancy`: demands room for the outer fields and the check code, because the code otherwise copies a negative number of bytes.
