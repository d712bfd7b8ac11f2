# CRUX: a verified model of the reliability stack

CRUX is a small reliable protocol over UDP. This project models its whole reliability stack and proves
what it promises, from the arithmetic of sequence numbers up to two sockets that talk over a network
which loses, duplicates and reorders datagrams.

| file | what it models |
|---|---|
| Wrappers.dfy | a value that may be missing |
| SequenceNumber.dfy | circular sequence numbers, for a circle of any size |
| CumulativeSet.dfy | the acceptance history, an ordered set that forgets contiguous prefixes |
| Timer.dfy, TimerRuns.dfy | the six-state restartable timer, and all its runs |
| TransmitQueue.dfy, TransmitQueueRuns.dfy, Pacing.dfy | the stop-and-wait transmit queue, and all its runs |
| Wire.dfy, Concatenate.dfy | byte cursors, the three headers, and the concatenated buffer view |
| Endpoint.dfy | every socket operation as a function on the state of one endpoint |
| Socket.dfy | the socket, multiplexer and acceptor as objects, proved equal to those functions |
| Peek.dfy | what the multiplexer does with a received datagram; receive accounting of one step |
| ReceiveFacts.dfy, EndpointRuns.dfy | receive matching and receive accounting over all runs of one socket |
| Accept.dfy | the receive accounting of an accepted socket, over all its runs |
| EndpointFacts.dfy, Delivery.dfy, Discipline.dfy, Completion.dfy, Aborting.dfy | what one endpoint keeps true of its packets |
| Connection.dfy, Acknowledgement.dfy, ConnectionRuns.dfy | two endpoints and a network, and the promises of the protocol |
| Answer.dfy | which acknowledgement every datagram of a connection carries |
| Closing.dfy | how every queued send ends: acknowledged, refused, or aborted when its socket closes |
| Attention.dfy | when a socket that needs datagrams waits for them |
| Reaction.dfy | how a socket reacts in every state: which handlers run, when it asks for datagrams, when it asserts |
| Report.dfy | which sizes the handlers of a connection are told |
| Progress.dfy | what the protocol does not promise: a lost keepalive blocks its receiver |
| Wrap.dfy | what goes wrong when a packet is numbered below a pending one |
| Establishment.dfy, Exchange.dfy | runs that show that connections, and the exceptions above, do occur |

How the pieces fit. Objects that the source updates in place are classes here (`TimerObject`,
`TransmitQueue`, `CumulativeSet`, `Encoder`, `Decoder`, `Iterator`, `Socket`, `Multiplexer`,
`Acceptor`). Each method is proved to change its object exactly as a function of the same name
changes the object's value, and the properties are proved of those functions and of their runs.

Modelling decisions:

- A user's handler is the list of calls it makes on its socket. The list is arbitrary, and it runs at
  the place where the source calls the handler, so calls made from inside handlers are covered. The
  timer's handler is likewise an arbitrary list of timer calls.
- Every packet carries an index, its position among all packets its sender ever numbered. The index is
  not on the wire and no operation reads it; the raw number is the index plus the initial number, modulo
  2^32. The log of a socket records what happened and has no counterpart in the source.
- Everything ever sent stays in the network and may be delivered any number of times, in any order, or
  never. Assumed of the network: a handshake is delivered at most once, and a datagram is delivered only
  while its number is less than 2^32 away from the next expected one. `EndpointFacts.HandshakeAsserts` and
  `EndpointFacts.ExpectedEveryCircle` say exactly what happens otherwise. Nothing is assumed of the
  acknowledgement a datagram carries, except in `ConnectionRuns.SuccessMeansAccepted` after the sender's
  numbers have wrapped; `EndpointFacts.AcknowledgedEveryCircle` says why it is needed there.
- Deliveries need no waiting receiver, so the promises hold of more runs than the code has. The runs that
  show something possible deliver datagrams only where they are waited for (`Establishments.Attained`).
- Either side may be closed at any time, by its user or by its keepalive timer. After that nothing happens
  at this side: its datagrams find no socket, and the user's calls are refused. Completions that come late
  only call handlers (`Abortings.LateCompletionOnlyReports`); they are not events of a connection.
- Assumed of the user: one `async_connect` and one `async_accept`, sends only once the remote endpoint is
  known (include/maidsafe/crux/socket.hpp:89 asks for a connected socket; a connector may send earlier,
  and does in the model), and no posted receive that runs while no data is left: in the source that pops an
  empty queue, and ends the runs of a connection here. It is what the condition of
  `ReceiveFacts.ReceiveIsSafeIffAllowed` rules out.
- A failed assertion stops the endpoint that reached it.
- Completions of asynchronous sends reach an endpoint of a connection any number of times, with or
  without an error. This includes every real order of completions.
- A handler that the source posts to the io_service is recorded where it is posted.

Where the code does not do what one might expect:

- A receive issued while every queued packet is already claimed by a posted receive pops an empty
  queue: `ReceiveFacts.ReceiveIsSafeIffAllowed` is the exact condition, `ReceiveFacts.TwoReceivesOnePacket`
  the smallest case.
- A connector that sends data before it is connected leaves its handshake, not its keepalive, at the
  front of the listener's history when the listener becomes established:
  `ConnectionRuns.ListenerEstablishes` says exactly when, and
  `Establishments.EarlyDataLeavesHandshakeInFront` is a run in which it happens.
- A step of the transmit queue that fails while no other step is in flight and the timer is not armed stops
  the retransmission of an entry that stays queued. `TransmitQueueRuns.WakeupLostIff` is the exact condition,
  `TransmitQueueRuns.StallEndsIff` says what ends such a stall, `TransmitQueueRuns.FailedStepStalls` is a run.
- A step that completes after its entry was acknowledged arms the timer all the same, even of an empty queue.
  An entry pushed then is transmitted twice before any step of its own completed:
  `Pacing.TickFollowsCompletion` and `Pacing.ArmedPushIsRepeated` say exactly when, `Pacing.EarlyRepeat` is a run.
- The transmit queue is ordered by raw numbers. A packet that is numbered below a pending one, after a wrap,
  overtakes it: a connector whose first number is the largest one retransmits its data, never its handshake
  (`Wraps.DataCanOvertake`, `Wraps.HandshakeIsNeverRepeated`).
- A send is refused when a packet that is a multiple of 2^32 older is still pending:
  `Closings.RefusedEveryCircle`. While no packet is numbered below a pending one, none is.
- A keepalive is sent once (`Progress.KeepaliveIsSentOnce`). If that datagram is lost its receiver accepts
  nothing more (`Progress.LostKeepaliveBlocks`), and a connection can come to that point
  (`Exchanges.OneLossCanBlock`).
- An expected keepalive whose acknowledgement leaves no packet pending leaves a waiting receive without a
  request for datagrams, in every state that does not assert, and so does the handshake that a connector
  waits for; data never does. `Attentions.KeepaliveStallsIff` and `Attentions.HandshakeStallsIff` are the
  exact conditions; `Exchanges.ReceiveCanStall`, `Exchanges.ListenerCanStall` and
  `Exchanges.ConnectorCanStall` are runs.
- While an accept is pending, the request counter stays exact for just those datagrams that establish a
  socket that was receiving, or do neither (`Accepts.AccountKeptIff`). Data that comes too early uses up the
  acceptor's request, and the acceptor hears nothing more (`Accepts.DataDeafensAcceptor`).
- A waiting receive whose buffers are too small loses the end of the payload:
  `Concatenation.PayloadFitsIff`.

## Model

| member | source | states |
|---|---|---|
| SequenceNumbers.Construct | include/maidsafe/crux/detail/sequence_number.hpp:79-85 | construction fails exactly for values off the circle |
| SequenceNumbers.SequenceNumber.PreIncrement | include/maidsafe/crux/detail/sequence_number.hpp:98-103 | moves to the next point of the circle and returns it |
| SequenceNumbers.SequenceNumber.PostIncrement | include/maidsafe/crux/detail/sequence_number.hpp:112-118 | moves to the next point of the circle and returns the previous one |
| SequenceNumbers.DistanceReaches | include/maidsafe/crux/detail/sequence_number.hpp:151-181 | going the distance from a ends at b, and the distance is within half a circle |
| SequenceNumbers.DistanceExact | include/maidsafe/crux/detail/sequence_number.hpp:151-181 | the distance is the only number in that range that leads from a to b, for every circle |
| SequenceNumbers.DistanceFitsSigned | include/maidsafe/crux/detail/sequence_number.hpp:32 | the distance fits the signed type of the same width |
| SequenceNumbers.DistanceAntisymmetric | include/maidsafe/crux/detail/sequence_number.hpp:151-181 | swapping the arguments flips the sign if and only if the points are not exactly opposite |
| SequenceNumbers.DistanceAfterIncrements | include/maidsafe/crux/detail/sequence_number.hpp:98-103 | after k increments, k at most half a circle, the distance is k |
| SequenceNumbers.Trichotomy | include/maidsafe/crux/detail/sequence_number.hpp:120-125 | exactly one of before, equal and after holds on the whole circle |
| SequenceNumbers.LessIsPositiveDistance | include/maidsafe/crux/detail/sequence_number.hpp:120-125 | before means positive distance, and of two opposite points the larger comes first |
| SequenceNumbers.WindowOrder | include/maidsafe/crux/detail/sequence_number.hpp:120-125 | on half a circle of consecutive points, wrapping included, the order is that of the offsets |
| SequenceNumbers.NotTransitiveOnTheCircle | include/maidsafe/crux/detail/sequence_number.hpp:120-125 | on the whole circle the comparison is transitive if and only if there are at most two points |
| CumulativeSets.CumulativeSet.Empty | include/maidsafe/crux/detail/cumulative_set.hpp:66-70 | true exactly when there is no front |
| CumulativeSets.CumulativeSet.FrontElement | include/maidsafe/crux/detail/cumulative_set.hpp:72-81 | the first element, if any |
| CumulativeSets.CumulativeSet.Insert | include/maidsafe/crux/detail/cumulative_set.hpp:83-89 | ordered insertion without duplicates, then pruning |
| CumulativeSets.CumulativeSet.Prune | include/maidsafe/crux/detail/cumulative_set.hpp:91-112 | only the last element stays if all are contiguous, otherwise nothing changes |
| CumulativeSets.FrontIsCumulative | include/maidsafe/crux/detail/cumulative_set.hpp:72-112 | whatever the order of insertion, every number from the base to the front was inserted |
| CumulativeSets.CollapsesInAnyOrder | include/maidsafe/crux/detail/cumulative_set.hpp:83-112 | inserting each of the next m numbers once, in any order, leaves just base + m |
| CumulativeSets.SuccessorKeepsOrder | include/maidsafe/crux/detail/cumulative_set.hpp:83-89 | the successor of the front can always be inserted without breaking the order of the keys |
| CumulativeSets.SuccessorReplaces | include/maidsafe/crux/detail/cumulative_set.hpp:91-112 | a single element meeting its successor is replaced by it |
| Timers.TimerObject.Start | include/maidsafe/crux/detail/timer.hpp:118-133 | the new state and outstanding waits, from each of the six states |
| Timers.TimerObject.Stop | include/maidsafe/crux/detail/timer.hpp:135-149 | the new state, from each of the six states |
| Timers.TimerObject.FastForward | include/maidsafe/crux/detail/timer.hpp:151-155 | ends in the cancelling state that fires next, with one wait outstanding |
| Timers.TimerObject.DoStart | include/maidsafe/crux/detail/timer.hpp:157-169 | issues a wait, never over a live one |
| Timers.TimerObject.BeginTick | include/maidsafe/crux/detail/timer.hpp:171-183 | when a wait callback runs the handler; the stopped and executing arms are unreachable |
| Timers.TimerObject.EndTick | include/maidsafe/crux/detail/timer.hpp:202-204 | a handler that did not touch the timer leaves it stopped |
| Timers.TimerObject.HandleTick | include/maidsafe/crux/detail/timer.hpp:171-205 | a whole wait callback around a handler that makes any calls on the timer |
| TimerRuns.StepRefines | include/maidsafe/crux/detail/timer.hpp:118-205 | every step is one of the three-state timer idle, armed, armed now, or does not show |
| TimerRuns.WaitsMatchState | include/maidsafe/crux/detail/timer.hpp:118-181 | in all runs one wait is outstanding in running and the cancelling states, none otherwise |
| TimerRuns.RunIsPaidFor | include/maidsafe/crux/detail/timer.hpp:39-49 | each handler run has an earlier start or fast_forward of its own, with no stop in between |
| TimerRuns.StoppedIsSilent | include/maidsafe/crux/detail/timer.hpp:43-45 | after a stop the handler does not run until the timer is armed again |
| TimerRuns.RunsNeverExceedArmings | include/maidsafe/crux/detail/timer.hpp:39-49 | there are never more handler runs than calls that arm the timer |
| TimerRuns.ArmedFires | include/maidsafe/crux/detail/timer.hpp:171-181 | an armed timer has a wait outstanding and fires within two callbacks, after fast_forward with the first |
| TimerRuns.StartRestarts | include/maidsafe/crux/detail/timer.hpp:118-133 | a start with a wait outstanding makes that wait's callback issue a new wait without running the handler, and the new one runs it |
| TimerRuns.NoStaleRun | include/maidsafe/crux/detail/timer.hpp:118-181 | over all runs the wait whose callback runs the handler was issued after the latest start, or a fast_forward came after that start |
| TimerRuns.NextCallbackIsSilent | include/maidsafe/crux/detail/timer.hpp:118-181 | over all runs the first callback after a start with a wait outstanding runs no handler, unless a fast_forward lies between |
| TransmitQueues.TransmitQueue.Push | include/maidsafe/crux/detail/transmit_queue.hpp:139-164 | a duplicate index is rejected, a new entry queued, and stepped if it is alone |
| TransmitQueues.TransmitQueue.ApplyAck | include/maidsafe/crux/detail/transmit_queue.hpp:96-120 | removes exactly the named entry; if it was first the timer stops and the next entry is stepped |
| TransmitQueues.TransmitQueue.Shutdown | include/maidsafe/crux/detail/transmit_queue.hpp:122-137 | empties the queue and aborts every entry in order |
| TransmitQueues.InOrderByIndex | include/maidsafe/crux/detail/transmit_queue.hpp:122-137 | in the order of a shutdown each entry has as many others before it as there are smaller indices |
| TransmitQueues.TransmitQueue.OnTimerTick | include/maidsafe/crux/detail/transmit_queue.hpp:76-84 | steps the first entry, if any |
| TransmitQueues.TransmitQueue.OnWait | include/maidsafe/crux/detail/transmit_queue.hpp:72 | a wait callback of the timer steps the first entry if the timer fires |
| TransmitQueues.TransmitQueue.OnStepDone | include/maidsafe/crux/detail/transmit_queue.hpp:166-182 | a completed step arms the timer, or reports a failure or a late completion |
| TransmitQueueRuns.NoLostWakeup | include/maidsafe/crux/detail/transmit_queue.hpp:76-182 | without failed steps and shutdown a non-empty queue has a step in flight or an armed timer |
| TransmitQueueRuns.WakeupTransmitsFirst | include/maidsafe/crux/detail/transmit_queue.hpp:166-182 | a completion arms the timer, and a firing tick transmits the first entry |
| TransmitQueueRuns.WakeupLostIff | include/maidsafe/crux/detail/transmit_queue.hpp:166-182 | a waiting queue loses its wakeup if and only if its only step in flight fails while the timer is not armed |
| TransmitQueueRuns.StallEndsIff | include/maidsafe/crux/detail/transmit_queue.hpp:96-120 | a stalled queue gets going again if and only if its first entry is acknowledged |
| TransmitQueueRuns.OnlyThoseFailuresStall | include/maidsafe/crux/detail/transmit_queue.hpp:76-182 | over all runs, failed steps included, no other failure loses the wakeup |
| TransmitQueueRuns.FailedStepStalls | include/maidsafe/crux/detail/transmit_queue.hpp:174-176 | a run in which such a failure leaves an entry queued with nothing outstanding |
| TransmitQueueRuns.StopAndWaitDiscipline | include/maidsafe/crux/detail/transmit_queue.hpp:76-163 | with increasing indices exactly the first entry has been stepped, and steps follow push order |
| TransmitQueueRuns.HandlersConserved | include/maidsafe/crux/detail/transmit_queue.hpp:96-164 | over all runs each pushed handler is pending, acknowledged, aborted or rejected, once, with its size |
| TransmitQueueRuns.ReportsNeedFailureOrShutdown | include/maidsafe/crux/detail/transmit_queue.hpp:174-176 | other handler calls happen exactly for failed steps and for completions after the shutdown |
| Pacing.FirstAckStops | include/maidsafe/crux/detail/transmit_queue.hpp:106-118 | acknowledging the first entry leaves the timer idle |
| Pacing.ArmedIff | include/maidsafe/crux/detail/transmit_queue.hpp:96-182 | exactly which events arm the timer and which take that back |
| Pacing.TickIsPaidFor | include/maidsafe/crux/detail/transmit_queue.hpp:76-182 | over all runs each tick has a completed step of its own before it, with no acknowledgement of a first entry in between |
| Pacing.TicksNeverExceedCompletions | include/maidsafe/crux/detail/transmit_queue.hpp:76-182 | over all runs there are never more ticks than steps completed without error |
| Pacing.TickFollowsCompletion | include/maidsafe/crux/detail/transmit_queue.hpp:96-182 | over all runs, before a tick steps an entry some step completed without error since that entry became first, unless it was pushed while the timer was armed |
| Pacing.ArmedPushIsRepeated | include/maidsafe/crux/detail/transmit_queue.hpp:139-182 | an entry that a push puts first while the timer is armed is stepped by that timer with no completion in between |
| Pacing.EarlyRepeat | include/maidsafe/crux/detail/transmit_queue.hpp:166-182 | a run from the start in which that happens: a step completed after its acknowledgement and armed the timer of an empty queue |
| Wire.Encoder.Put8 | include/maidsafe/crux/detail/encoder.hpp:87-93 | appends one byte and changes nothing else |
| Wire.Encoder.Put16 | include/maidsafe/crux/detail/encoder.hpp:95-103 | appends two bytes that stand for the number, the high one first, and changes nothing else |
| Wire.Encoder.Put32 | include/maidsafe/crux/detail/encoder.hpp:105-115 | appends four bytes that stand for the number, the highest first, and changes nothing else |
| Wire.Decoder.Get8 | include/maidsafe/crux/detail/decoder.hpp:89-94 | reads one byte and moves past it |
| Wire.Decoder.Get16 | include/maidsafe/crux/detail/decoder.hpp:96-109 | reads the number that two bytes stand for, the high one first, and moves past them |
| Wire.Decoder.Get32 | include/maidsafe/crux/detail/decoder.hpp:111-126 | reads the number that four bytes stand for, the highest first, and moves past them |
| Wire.BytesHaveValue16 | include/maidsafe/crux/detail/encoder.hpp:100-101 | the two bytes of a word have its value, the first counting 256 |
| Wire.BytesHaveValue32 | include/maidsafe/crux/detail/encoder.hpp:110-113 | the four bytes of a word have its value, read from the first on in base 256 |
| Wire.WordHasValue16 | include/maidsafe/crux/detail/decoder.hpp:103-105 | a word made of two bytes is the number they stand for |
| Wire.WordHasValue32 | include/maidsafe/crux/detail/decoder.hpp:118-122 | a word made of four bytes is the number they stand for |
| Wire.RoundTrip32 | include/maidsafe/crux/detail/encoder.hpp:105-115 | a word read back from its bytes is the word |
| Wire.Encode | include/maidsafe/crux/detail/header.hpp:57-65 | writes exactly the twelve bytes of the header |
| Wire.Decode | include/maidsafe/crux/detail/header.hpp:45-55 | decodes the header from those bytes without reading past them |
| Wire.TypeFieldReadsBack | include/maidsafe/crux/detail/header.hpp:95-99 | kind, clamped retransmission count and presence of an acknowledgement read back from the type field |
| Wire.HeaderStart | include/maidsafe/crux/detail/header.hpp:57-62 | the first four bytes of an encoded header: kind, clamped count with acknowledgement flag, and the version of a handshake |
| Wire.HeaderNumbers | include/maidsafe/crux/detail/header.hpp:63-64 | bytes 4 to 7 hold the sequence number and bytes 8 to 11 the acknowledgement, or zero |
| Wire.DecodedKind | include/maidsafe/crux/detail/multiplexer.hpp:485-505 | which first two bytes of any twelve make which kind, or none, and which announce an acknowledgement |
| Wire.DecodedNumbers | include/maidsafe/crux/detail/header.hpp:45-55 | and which of the bytes give version, sequence number and acknowledgement |
| Wire.HeaderRoundTrip | include/maidsafe/crux/detail/header.hpp:30-143 | decoding an encoded header restores everything but a count above 3 and the dummy field |
| Concatenation.Iterator.PreIncrement | include/maidsafe/crux/detail/concatenate.hpp:77-87 | moves one element on |
| Concatenation.Iterator.PostIncrement | include/maidsafe/crux/detail/concatenate.hpp:89-98 | moves one element on and returns an iterator for where it was |
| Concatenation.Iterator.Dereference | include/maidsafe/crux/detail/concatenate.hpp:100-105 | the element of left followed by right at the iterator's position |
| Concatenation.Iterator.Equals | include/maidsafe/crux/detail/concatenate.hpp:124-128 | equal exactly at equal positions |
| Concatenation.Begin | include/maidsafe/crux/detail/concatenate.hpp:135-140 | an iterator at the first position |
| Concatenation.End | include/maidsafe/crux/detail/concatenate.hpp:142-146 | an iterator behind the last position |
| Concatenation.Traverse | include/maidsafe/crux/detail/concatenate.hpp:77-146 | from begin to end there are as many steps as elements, yielding left and then right |
| Concatenation.Frame | include/maidsafe/crux/detail/multiplexer.hpp:306-312 | a datagram is the encoded header followed by the payload buffers |
| Concatenation.Scatter | include/maidsafe/crux/detail/multiplexer.hpp:466-482 | a datagram fills a sequence of buffers in order; what does not fit is lost |
| Concatenation.GatherScattered | include/maidsafe/crux/detail/multiplexer.hpp:466-482 | read as one, the buffers hold the datagram as far as it fits and then what they held before |
| Concatenation.Unframe | include/maidsafe/crux/detail/multiplexer.hpp:474-486 | without a waiting receive a datagram splits into the decoded header and the payload |
| Concatenation.UnframeInto | include/maidsafe/crux/detail/multiplexer.hpp:462-486 | with a waiting receive the payload goes into its buffers |
| Concatenation.PayloadFitsIff | include/maidsafe/crux/detail/multiplexer.hpp:466-472 | the whole payload arrives in these buffers if and only if they are large enough, otherwise its beginning does |
| Concatenation.FramingRoundTrip | include/maidsafe/crux/detail/multiplexer.hpp:306-312 | splitting a framed datagram restores header and payload, whatever the buffer sizes |
| Sockets.Multiplexer.StartReceive | include/maidsafe/crux/detail/multiplexer.hpp:333-346 | counts a request and starts a peek for the first one |
| Sockets.Multiplexer.StopReceive | include/maidsafe/crux/detail/multiplexer.hpp:348-366 | counts off a request |
| Sockets.Multiplexer.DoStartReceive | include/maidsafe/crux/detail/multiplexer.hpp:368-385 | starts a peek |
| Sockets.Multiplexer.ProcessPeek | include/maidsafe/crux/detail/multiplexer.hpp:395-510 | consumes the datagram, dispatches it, and peeks again if a request is left |
| Sockets.Multiplexer.ProcessDatagram | include/maidsafe/crux/detail/multiplexer.hpp:450-505 | a registered socket gets every message, a waiting one goes through the acceptor |
| Sockets.Multiplexer.FinishPeek | include/maidsafe/crux/detail/multiplexer.hpp:507-509 | counts off the answered request and peeks again if one is left |
| Sockets.Multiplexer.Dispatch | include/maidsafe/crux/detail/multiplexer.hpp:581-625 | the message first, then its acknowledgement; the buffers agree with process_data's assertions |
| Sockets.Multiplexer.EstablishConnection | include/maidsafe/crux/detail/multiplexer.hpp:512-579 | data from an unknown sender is dropped, an established socket uses up the accept request |
| Sockets.Acceptor.AsyncAccept | include/maidsafe/crux/acceptor.hpp:93-139 | a closed socket starts to listen, any other is refused with its error |
| Sockets.Socket.IdempotentStartReceive | include/maidsafe/crux/socket.hpp:277-284 | at most one request, with the keepalive timer armed |
| Sockets.Socket.IdempotentStopReceive | include/maidsafe/crux/socket.hpp:271-275 | withdraws the request, if any |
| Sockets.Socket.OnAnyPacketReceived | include/maidsafe/crux/socket.hpp:286-289 | the request is answered and the keepalive timer stopped |
| Sockets.Socket.Transmit | include/maidsafe/crux/socket.hpp:739-752 | a handshake repeats its acknowledgement, data carries the current front of the history |
| Sockets.Socket.RunHandler | include/maidsafe/crux/socket.hpp:778-794 | the listener's reply establishes or closes it, the connector's handshake completes the connect |
| Sockets.Socket.ProcessConnect | include/maidsafe/crux/socket.hpp:387-417 | calls the handler with success, or with operation_aborted when closed; asserts in listening and handshaking |
| Sockets.Socket.SendHandshake | include/maidsafe/crux/socket.hpp:681-712 | numbers, requests a receive and queues the handshake |
| Sockets.Socket.SendKeepalive | include/maidsafe/crux/socket.hpp:714-728 | numbers the keepalive and sends it once, unqueued |
| Sockets.Socket.SendData | include/maidsafe/crux/socket.hpp:730-760 | numbers, requests a receive and queues the data |
| Sockets.Socket.AsyncConnect | include/maidsafe/crux/socket.hpp:329-385 | only a bound, closed socket starts to connect; otherwise which error |
| Sockets.Socket.AsyncSend | include/maidsafe/crux/socket.hpp:581-608 | sends data, or refuses without a multiplexer |
| Sockets.Socket.AsyncReceive | include/maidsafe/crux/socket.hpp:512-556 | waits for data, or claims data that waits |
| Sockets.Socket.RunClaim | include/maidsafe/crux/socket.hpp:542-552 | a posted receive takes the oldest waiting data |
| Sockets.Socket.GetRecvBuffers | include/maidsafe/crux/socket.hpp:112-118 | buffers exist exactly when a receive waits |
| Sockets.Socket.IsExpectedPacket | include/maidsafe/crux/socket.hpp:307-322 | the first packet, or the successor of the front of the history |
| Sockets.Socket.ProcessHandshake | include/maidsafe/crux/socket.hpp:762-825 | the reaction in each connection state |
| Sockets.Socket.OnGreetingSent | include/maidsafe/crux/socket.hpp:802-811 | the sent keepalive establishes or closes the connector |
| Sockets.Socket.ProcessKeepalive | include/maidsafe/crux/socket.hpp:667-679 | an expected keepalive enters the history, any other is dropped |
| Sockets.Socket.TakeData | include/maidsafe/crux/socket.hpp:632-657 | data enters the history, then waits, or completes the first receive and is acknowledged |
| Sockets.Socket.ProcessData | include/maidsafe/crux/socket.hpp:618-665 | the same with the user's handler, and when receiving goes on |
| Sockets.Socket.ApplyAck | include/maidsafe/crux/socket.hpp:857 | the queue's reaction and the named entry's handler |
| Sockets.Socket.ProcessAcknowledgement | include/maidsafe/crux/socket.hpp:827-863 | the reaction in each connection state, and when receiving goes on |
| Sockets.Socket.OnQueueWait | include/maidsafe/crux/detail/transmit_queue.hpp:76-84 | a firing timer of the queue transmits the first pending packet again |
| Sockets.Socket.OnKeepaliveWait | include/maidsafe/crux/socket.hpp:291-293 | a firing keepalive timer closes the socket |
| Sockets.Socket.Close | include/maidsafe/crux/socket.hpp:249-269 | stops both timers, aborts sends and receives, withdraws the request |
| Peeks.FrameIsDispatched | include/maidsafe/crux/detail/multiplexer.hpp:485-505 | the header and payload made of a packet's own fields are dispatched as its content, its number and its acknowledgement, if it has one |
| Peeks.PeekDispatches | include/maidsafe/crux/detail/multiplexer.hpp:395-510 | a whole peek at such a datagram, for a registered socket and for one in the acceptor's queue |
| Peeks.CounterAssertionsHold | include/maidsafe/crux/detail/multiplexer.hpp:333-352 | with one socket and exact accounts the assertions on the request counter hold |
| Peeks.PeekedAccounted | include/maidsafe/crux/detail/multiplexer.hpp:395-510 | processing any datagram of the peer keeps requests, peeks and keepalive timer in step |
| EndpointRuns.ReceiveAccounting | include/maidsafe/crux/detail/multiplexer.hpp:333-346 | over all runs one request, one peek and an armed keepalive timer exactly while receiving |
| Accepts.AccountKeptIff | include/maidsafe/crux/detail/multiplexer.hpp:512-579 | exactly which datagrams keep the request counter exact while an accept is pending |
| Accepts.DataDeafensAcceptor | include/maidsafe/crux/detail/multiplexer.hpp:558-563 | data for a socket that only listens leaves it with no request and no peek |
| Accepts.AcceptAccounting | include/maidsafe/crux/detail/multiplexer.hpp:512-579 | over all runs of an accepted socket one request each for the receiving socket and the waiting acceptor |
| EndpointRuns.ReceiveMatching | include/maidsafe/crux/socket.hpp:528-553 | over all runs of a connecting or an accepted socket the k-th receive gets the k-th accepted data; the two queues never both wait |
| ReceiveFacts.ReceiveIsSafeIffAllowed | include/maidsafe/crux/socket.hpp:528-553 | posted receives all find data if and only if the receive was issued while unclaimed data, or none, waited |
| ReceiveFacts.TwoReceivesOnePacket | include/maidsafe/crux/socket.hpp:542-552 | two receives issued while one packet waits pop an empty queue |
| EndpointFacts.ExpectedIsNext | include/maidsafe/crux/socket.hpp:307-322 | of the packets less than 2^32 away only the next one is expected |
| EndpointFacts.RememberKeeps | include/maidsafe/crux/socket.hpp:632 | accepting the next packet moves the history on to its number, across the wrap |
| EndpointFacts.ProcessDataKeeps | include/maidsafe/crux/socket.hpp:618-665 | all numbers, queued packets and acknowledgements stay right, whatever the receive handler does |
| EndpointFacts.ProcessAcknowledgementKeeps | include/maidsafe/crux/socket.hpp:827-863 | the same for acknowledgements, which complete just the pending packet they name, if any |
| EndpointFacts.ExpectedEveryCircle | include/maidsafe/crux/socket.hpp:307-322 | any packet is expected if and only if it is a multiple of 2^32 away from the next one |
| EndpointFacts.AcknowledgedEveryCircle | include/maidsafe/crux/detail/transmit_queue.hpp:96-120 | an acknowledgement completes a pending packet if and only if it names one a multiple of 2^32 away |
| EndpointFacts.HandshakeAsserts | include/maidsafe/crux/socket.hpp:770-824 | a handshake asserts exactly outside listening and connecting |
| Deliveries.DispatchRegistered | include/maidsafe/crux/detail/multiplexer.hpp:485-505 | a registered endpoint accepts a data packet or keepalive exactly if it is the next one |
| Deliveries.ConnectorMeetsHandshake | include/maidsafe/crux/socket.hpp:797-812 | the listener's handshake establishes the connector, which numbers and sends its keepalive next |
| Deliveries.ListenerMeetsHandshake | include/maidsafe/crux/socket.hpp:772-795 | the connector's handshake makes the listener queue its own and keep listening |
| Deliveries.ListenerMeetsKeepalive | include/maidsafe/crux/detail/multiplexer.hpp:554-578 | the keepalive that acknowledges it establishes the listener, expected or not |
| Disciplines.EnqueueDisciplined | include/maidsafe/crux/socket.hpp:754-759 | a new packet is pending or refused; numbered behind all pending ones it is queued behind them and sent at once only if alone |
| Disciplines.DispatchDisciplined | include/maidsafe/crux/detail/transmit_queue.hpp:96-120 | no delivery repeats a keepalive or loses track of a packet; while packets are numbered in order none makes any but the first pending one leave |
| Completions.DispatchCompletes | include/maidsafe/crux/socket.hpp:827-857 | a delivery completes just the pending packet its acknowledgement names, if the connection expects one, and nothing else |
| Connections.NextHolds | include/maidsafe/crux/socket.hpp:618-863 | every event of either side keeps the joint invariant of both endpoints and the network |
| ConnectionRuns.PrefixSafety | include/maidsafe/crux/socket.hpp:307-322 | what a side accepted is a prefix of what the peer numbered, and its receives got a prefix of the peer's data |
| ConnectionRuns.SuccessMeansAccepted | include/maidsafe/crux/detail/transmit_queue.hpp:96-120 | a send succeeds only after the peer accepted that packet; after the wrap, while no acknowledgement is 2^32 away from a pending packet |
| ConnectionRuns.ReceivesGetWhatWasSent | include/maidsafe/crux/socket.hpp:528-553 | the k-th receive of either side gets the k-th data its peer sent |
| ConnectionRuns.AcknowledgementNamesAccepted | include/maidsafe/crux/socket.hpp:655-657 | every acknowledgement in the network names a packet its sender accepted |
| Answers.DatagramsCarryLastAccepted | include/maidsafe/crux/socket.hpp:730-760 | over all runs each data packet and keepalive that is sent carries the number of the packet its sender accepted last, and none only if it accepted nothing |
| ConnectionRuns.AtMostOneAhead | include/maidsafe/crux/detail/transmit_queue.hpp:96-120 | while no packet is numbered below a pending one (and so before the wrap), completed packets are accepted, and at most the first other one is too; after the wrap for timely acknowledgements |
| ConnectionRuns.UnwrappedIsOrdered | include/maidsafe/crux/socket.hpp:689-705 | before the wrap no packet is numbered below a pending one |
| ConnectionRuns.FirstIsHead | include/maidsafe/crux/detail/transmit_queue.hpp:76-84 | on an open side that other packet is the one at the head of the transmit queue |
| ConnectionRuns.HandshakeAgreement | include/maidsafe/crux/socket.hpp:762-863 | without failed sends no assertion is reachable and the listener is established only after the connector |
| ConnectionRuns.ListenerEstablishes | include/maidsafe/crux/detail/multiplexer.hpp:543-578 | what both histories hold when the listener becomes established, for both kinds of connector |
| Closings.SendsAreSettled | include/maidsafe/crux/detail/transmit_queue.hpp:96-164 | in every reachable state each handshake and data packet is pending, acknowledged, refused or aborted, and just one of these; none is aborted before its side closes, and none refused while packets are numbered in order |
| Closings.RefusedEveryCircle | include/maidsafe/crux/detail/transmit_queue.hpp:147-153 | a send is refused if and only if a pending packet is a multiple of 2^32 away from it |
| Closings.CloseAbortsTheRest | include/maidsafe/crux/socket.hpp:249-269 | closing a side of any reachable state aborts each pending packet once and completes, sends and accepts nothing |
| Closings.BothWaysEnd | include/maidsafe/crux/socket.hpp:249-293 | a close by the user and a firing keepalive timer end a side in the way of the previous row |
| Abortings.LateCompletionOnlyReports | include/maidsafe/crux/detail/transmit_queue.hpp:174-176 | a step that completes after the closing changes nothing but calls its handler |
| Attentions.PendingPacketsAreHeard | include/maidsafe/crux/socket.hpp:286-289 | in every reachable state a side with pending packets waits for datagrams, and one with a waiting receive does unless it accepted a keepalive or handshake last |
| Attentions.KeepaliveStallsIff | include/maidsafe/crux/socket.hpp:667-679 | exactly when a keepalive leaves a waiting receive without a request for datagrams, in every state that does not assert |
| Attentions.HandshakeStallsIff | include/maidsafe/crux/socket.hpp:762-825 | exactly when the handshake that a connector waits for does so |
| Attentions.DataNeverStalls | include/maidsafe/crux/socket.hpp:618-665 | data, expected or not, never does |
| Reactions.DetachedIsInert | include/maidsafe/crux/socket.hpp:249-608 | a socket without a multiplexer ignores close, connect and any calls of the user |
| Reactions.BusyIsRefused | include/maidsafe/crux/socket.hpp:329-385 | a socket that connects or listens ignores a further connect and a further accept |
| Reactions.DataHandlerRunsIff | include/maidsafe/crux/socket.hpp:618-665 | in every state the receive handler runs, after a keepalive, if and only if data is expected and a receive waits |
| Reactions.AcknowledgementHandlerRunsIff | include/maidsafe/crux/detail/transmit_queue.hpp:96-120 | a send's handler runs if and only if the acknowledgement names a pending packet |
| Reactions.DataRequestsIff | include/maidsafe/crux/socket.hpp:618-665 | after data the socket asks for datagrams if and only if the data was not expected, or a receive or a packet waits |
| Reactions.AcknowledgementRequestsIff | include/maidsafe/crux/socket.hpp:857-861 | after an acknowledgement if and only if it did before, or a packet is pending, or the handler left a receive waiting |
| Reactions.TickResendsIff | include/maidsafe/crux/detail/transmit_queue.hpp:76-84 | a wait callback of the queue's timer sends the first pending packet again if and only if it fires |
| Reactions.AcknowledgementSendsIff | include/maidsafe/crux/detail/transmit_queue.hpp:96-120 | an acknowledgement sends the next pending packet if and only if it completes the first one |
| Reactions.PushSendsIff | include/maidsafe/crux/detail/transmit_queue.hpp:139-164 | a new packet is sent at once if and only if no other is pending |
| Reactions.CompletionIsFollowedByResend | include/maidsafe/crux/detail/transmit_queue.hpp:76-182 | after a completed step the first or second wait callback sends the first pending packet again, and nothing is sent before |
| Reactions.SilenceCloses | include/maidsafe/crux/socket.hpp:277-293 | a waiting socket that hears nothing closes with the first or second keepalive callback |
| Reactions.HeardStaysOpen | include/maidsafe/crux/socket.hpp:286-293 | after a datagram keepalive callbacks do nothing until the socket waits again |
| Reactions.AcknowledgementAssertsIff | include/maidsafe/crux/socket.hpp:827-863 | exactly the states and acknowledgements that run into an assertion |
| Reactions.EitherEstablishes | include/maidsafe/crux/socket.hpp:797-848 | the sent keepalive and the acknowledgement establish the connector in any order; a failed keepalive closes it |
| Reactions.UnsentReplyCloses | include/maidsafe/crux/socket.hpp:772-795 | a failed step closes the connection if and only if it is one of the listener's reply, and so does a refused reply |
| Reactions.FirstIsExpected | include/maidsafe/crux/socket.hpp:307-322 | a socket that accepted nothing takes any packet for the next one |
| Reactions.UnknownKind | include/maidsafe/crux/detail/multiplexer.hpp:485-579 | a datagram of no known kind asserts if its sender is known, and is ignored otherwise |
| Reactions.LeftoverPeekEnds | include/maidsafe/crux/detail/multiplexer.hpp:348-407 | closing a receiving socket leaves one peek, which the next datagram ends unread, and then the accounts are exact |
| Reports.SizesAreReported | include/maidsafe/crux/socket.hpp:754-759 | over all runs the handlers of acknowledged and aborted packets are told the size of the payload, those of refused ones 0 |
| Wraps.DataCanOvertake | include/maidsafe/crux/socket.hpp:705 | some run puts data in front of the connector's pending handshake |
| Wraps.HandshakeIsNeverRepeated | include/maidsafe/crux/detail/transmit_queue.hpp:76-84 | from there on the handshake is not sent again, and without its one datagram the listener accepts nothing |
| Establishments.BothCanEstablish | include/maidsafe/crux/socket.hpp:762-863 | from any initial numbers some run establishes both sides |
| Establishments.EarlyDataLeavesHandshakeInFront | include/maidsafe/crux/socket.hpp:667-679 | some run leaves the connector's handshake in front of the listener's history |
| Exchanges.OneLossCanBlock | include/maidsafe/crux/socket.hpp:714-728 | some run reaches an established connection that the loss of one keepalive blocks for good |
| Exchanges.ConnectorCanStall | include/maidsafe/crux/socket.hpp:797-812 | some run leaves a connector's waiting receive without a request when it becomes established |
| Exchanges.ListenerCanStall | include/maidsafe/crux/socket.hpp:667-679 | the same of a listener |
| Exchanges.ReceiveCanStall | include/maidsafe/crux/socket.hpp:667-679 | some run leaves a waiting receive without a request for datagrams |
| Progress.StuckUntilNextArrives | include/maidsafe/crux/socket.hpp:307-322 | a side accepts nothing until the packet after its last accepted one arrives |
| Progress.KeepaliveIsSentOnce | include/maidsafe/crux/socket.hpp:714-728 | in every reachable state no datagram repeats a keepalive, and none is pending |
| Progress.LostKeepaliveBlocks | include/maidsafe/crux/socket.hpp:714-728 | a side that a keepalive is next for accepts nothing in any run that does not deliver that datagram |

## Left out

- Boost.Asio itself: sockets, io_service, resolver, completion tokens. Datagrams, completions and wait callbacks are events that may come in any order.
- Durations: the timers are armed or not; the round-trip constant and the keepalive period are not modelled.
- Eventual delivery: the code does not provide it, because keepalives are sent once and dropped duplicates are not acknowledged again.
- Memory of user buffers: apart from `Concatenation.UnframeInto` a payload is the bytes of its packet; what a rejected datagram leaves in a waiting buffer is not modelled.
- Stray datagrams, several sockets on one multiplexer, and aborted peeks: the request counter is not exact there, as the source itself says.
- Timers.TimerObject.HandleTick: the handler is fixed; replacing it with set_handler and destroying the timer from inside its handler are not modelled.
- Concatenation.Traverse: asio performs this loop when it gathers buffers; it is written out here to state what iterating yields.
- Sockets.Multiplexer.StartReceive: the assertion on the counter is not in the method, because it does not hold of every caller; `Peeks.CounterAssertionsHold` proves it for one socket with exact accounts.
- Sockets.Multiplexer.StopReceive: the same for its two assertions; the empty datagram that the socket sends itself is not modelled.
- Sockets.Multiplexer.ProcessPeek: the return for a closed UDP socket, the arm for an aborted peek, and the assertion on the counter, for which see `Peeks.CounterAssertionsHold`.
- Sockets.Multiplexer.ProcessDatagram: reading a datagram that was peeked at does not fail, so no error is passed on to the receive handler.
- Sockets.Multiplexer.EstablishConnection: a socket waits in the acceptor's queue whenever it is called; a failing read and the call of the accept handler are not modelled.
- Sockets.Acceptor.AsyncAccept: the queue of accept requests holds one socket, so it is not represented as a list.
- Sockets.Socket.ProcessData: the error code that the receive handler is called with; it is always success here.
- Sockets.Socket.Close: removal from the multiplexer's map and from the service, neither of which is modelled.
- The socket's connect_handler: the source never assigns it, so it is never called.
- Address handling: remote endpoints are known or unknown; loopback substitution, the resolver and the endpoint registry of the service are not modelled.
- Connections.NextHolds: posted receives and late completions at a side that was closed are not events of a run.
- Alignment assertions of the decoder and overflow of C++ negation: numbers are mathematical integers with explicit ranges, bytes and header words are bit-vectors.
