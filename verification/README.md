# ntun: a verified model of the tunnel's layers

ntun carries many local connections over one transport. Each of its layers keeps a little state and must not be
noticed by the layer above. This project models those layers in Dafny and proves what each promises, and that the
stack of them still keeps the promise.

| file | module | what it models |
|---|---|---|
| Bytes.dfy | Bytes, Sealing | byte strings, big-endian length fields, authenticated encryption as an inverse pair that adds 28 bytes |
| DataRateLimiter.dfy | RateLimiting | the byte-rate limiter: queue, bursts, intervals, timeouts |
| TransportSocket.dfy | Framing | framing with a length field, cutting into chunks, reassembly in place from any chunks |
| Link.dfy | Links | one transport direction: framing, limiter, wire and reassembly together |
| Tunnel.dfy, Connection.dfy | Tunnel, ConnectionTables | CONNECT / DATA / CLOSE between an input node and a direct output node |
| TunnelEvents.dfy | TunnelEvents | what the events of a run say about the nodes and the messages |
| TunnelOverLinks.dfy | TunnelOverLinks | the two nodes on top of two full transport directions |
| StackProgress.dfy | StackProgress | the same with a clock and timeouts: what is sent arrives |
| Pairing.dfy, VkTransport.dfy | Pairing, Participants | pairing of any number of call participants |
| PairingProgress.dfy | Meetings | who will still meet, and when nobody can |
| PairingAnswers.dfy | Answers | the session descriptions that paired participants exchange |
| CipherConn.dfy | CipherConns | the encrypting connection, its records, and messages read with one Read per part |
| Handshake.dfy | Handshakes | the symmetric handshake and the choice of the client |
| BufferedConn.dfy | BufferedConns | gathering of small writes with a deadline |
| TrafficStats.dfy | TrafficStats | the sliding window behind the speeds |
| Socks5.dfy | Socks5 | the SOCKS5 handshake without authentication (RFC 1928) |

Objects of the source are classes; each of their methods is proved against a function of the old state and the
inputs (`Process`, `Feed`, `WriteChunks`, `React`, `OnMessage`, `ReadFrom`, `Handshake`, ...). The theorems are about
those functions and about whole runs: a run is any list of events, and an event that cannot happen in the state it
meets is passed over, so a theorem about `Run(events)` is about every reachable state. In `Tunnel`, `TunnelOverLinks`
and `StackProgress` a run also passes over a client that takes a connection id before `Tunnel.Safe` allows it;
`Tunnel.ReuseIsSafeExactly` says what such a client can break. What a socket has emitted, what its client asked for and
which messages are owed is computed from the events alone (`TunnelEvents`), not read off the nodes.

The main results:

* `TunnelEvents.ChannelsCarryTheEvents` and `SocketToSocket`: the messages sent are exactly those that the sockets'
  events call for, and what one socket emits arrives at the other, at the target that was asked for.
* `TunnelOverLinks.TunnelDelivers`: for every interleaving of socket events, timers and deliveries of any number of
  bytes, each socket has been given a prefix of what the other end's socket emitted, all of it once both directions
  are drained and it is ready, and then both nodes know the same connections. It rests on `Links.StepRefinesChannel`
  (bytes refine a first-in first-out channel of buffers) and on the protocol's invariant, proved one connection id at a
  time.
* `StackProgress.StackDrains` and `StackCanDrain`: once the sockets fall silent, all that was sent is delivered when
  the limiters' chains of timeouts have ended or fired often enough and the bytes have arrived, and from every state
  there is such a run.
* `Tunnel.ReuseIsSafeExactly` and `ReuseKeepsTheStreamExactly`: when a connection id may come back.
* `Framing.SegmentationIndependence`: reassembly depends on the concatenation of the chunks only, exactly unless an
  empty chunk follows the length field of an empty frame. `EmptyChunkIsSeen` is an input of that kind.
* `RateLimiting.RateBound`, `OneBudgetPerInterval`, `RunConserves` and `NothingWaitsInVain`: how much any window of time
  and any interval can see, that no byte is lost through splits and re-entrant sends, and that nothing waits before the
  interval's budget is used up. `QueueDrains` and `QueueDrainsInTime`: N queued bytes are gone after 2 * ceil(N / budget)
  firings of the limiter's own timeouts, whose chain does not break off before (`ChainFiresUntilEmpty`), and within as
  many intervals if timeouts run when due. `ProgressNeedsABudget`: a positive rate sends nothing, ever, exactly if it
  allows less than one byte per interval.
* `Pairing.AnswerPeersAreMatched`, `Answers.AppliedAnswersAreOwn` with `AstrayAnswerCanBeApplied`, and
  `Meetings.NoPairingDeadlock`, over all message reorderings and departures; `Answers.AnswerInTimeIsSent` and
  `PairCanComplete`: from every reachable state two waiting participants with a CONNECT in flight can finish their exchange.
* `CipherConns.CipherConnIsTransparent`, `MessageReadBack`, `Handshakes.OneEndsVerdict` and `ExactlyOneClient`.

Where the code does less than it promises, the model keeps the code, and the exact condition is proved:

* `Tunnel.ReuseIsSafeExactly`: a connection id is a hash of a socket's addresses and ports and can come back. The
  tables then agree, whatever happens afterwards, exactly if no CLOSE for the id is on its way to the input node or
  can still be sent there. Otherwise (`EarlyReuseBreaksAgreement`, from any reachable state) that CLOSE can take the
  new record from the input node while the output keeps its own until its socket closes.
  `ReuseKeepsTheStreamExactly`, for every client that takes an id: its stream is in order, whatever happens while it
  has the id, exactly if the output has no record of the id, no CONNECT of it is in flight and no DATA of it is on its
  way to the input node. Otherwise the client can be given bytes of an earlier use. A client that takes an id while its
  last client's socket is open loses its record when that socket closes (`OverwrittenRecordTakesTheNewOne`).
* `RateLimiting.ExactTimeoutsSendEverySecondTime`: an interval lasts to its last instant included, so a timeout that runs
  exactly when it is due still belongs to it. Timeouts that are never late send one budget in two intervals.
* `Meetings.StepMeetsExactly`: between "ready" and its first setStateConnecting a VkWebRTCTransport drops CONNECTs, and
  a connected one ignores them. Two participants lose their meeting exactly when the last CONNECT of a connecting sender
  is dropped that is not listed, or when a participant whose opponent has left connects again and misses someone it does
  not list. `UnannouncedConnectDeadlocks` and `UnannouncedRestartDeadlocks` are such runs; a stalemate lasts until
  someone else joins (`StalemateLasts`). VkCallSignalServerTransport begins at once, and as long as nobody leaves
  `SignalServerNeverDeadlocks` needs no condition.
* `Pairing.MisfitNotification`: a "registered-peer" notification whose attributes do not fit falls through into
  "hungup". That keeps the matching exactly when nobody live counts on the pairing it ends. A participant is not one
  of its peers (VkWebSocketSignalServer.js:173-174 look the participant up by its peer), and type, platform and
  client are those of the peer that registers, so the notification can be about a live participant that joins from a
  second device; `MisfitBreaksThePairing` is a run in which that ends a pairing on one side only. The theorems about
  whole runs assume that it does not happen.
* `Answers.AppliedAnswersAreOwn`: an answer is created asynchronously and sent to whoever is the opponent by then. A
  participant that becomes an answer peer drops what it was creating, so a late answer is one that is ready at an offer
  peer, after the author of its offer has left (`LateAnswers`). It does harm only if that offer peer faces another one, by
  crossed CONNECTs, or still may; answers are applied by the authors of their offers in all other runs, and from every
  reachable state in which one goes astray it can come to be applied (`AstrayAnswerCanBeApplied`;
  `StrayAnswerIsApplied` is a run).
* `Answers.CrossedPairsNeverFinish`: two participants that take each other's CONNECT are both offer peers. They count as
  connected, and neither ever answers the other's offer, until one of them leaves; the only answers that can pass between
  them are late ones to earlier opponents. `Pairing.MutualPairs`: every other pair that is connected to each other has
  one offer and one answer peer. `CrossingConnects` is a run in which two cross.
* `CipherConns.MessageReadBack`: a message is read back exactly when its body has 1 to 4066 bytes.
* `Socks5.OtherCommandsAccepted`: the command check joins its two conditions with "and", so commands other than CONNECT
  pass exactly when the reserved byte is 0, against section 4 of RFC 1928.

Assumptions about the surroundings: the clock of the limiter is positive, and one run of its loop takes place at one
instant; a listener of the "buffer" event does not close the socket while it is being called; a node socket's "connect"
and "ready" come one right after the other; encryption, message packing and JSON are inverse pairs; participant ids are
not reused; "hungup", and a "registered-peer" of a foreign kind, are about someone who is not a live participant, and no
"registered-peer" is about the participant that gets it; setStateConnecting comes only after the check of the relay
servers has succeeded, as in the source.

## Model

| member | source | states |
|---|---|---|
| Bytes.U32 | node/src/ntun.js:785-787 | a length below 2^32 written as 4 bytes is read back |
| Bytes.LengthFieldsAreBigEndian | node/src/ntun.js:785-787 | its bytes, and those of the 2-byte length of the encrypting connection, spell it most significant byte first |
| RateLimiting.Configure | node/src/utils/DataRateLimiter.js:6-11 | the budget is the whole number of bytes that the rate allows per interval: not more, and less than one byte short |
| RateLimiting.ReleaseConserves | node/src/utils/DataRateLimiter.js:49-70 | one loop: sent then queued bytes are the old queue followed by the re-entrant sends, and at most the remaining budget is sent |
| RateLimiting.ReleaseDrains | node/src/utils/DataRateLimiter.js:49-70 | one loop empties the queue or uses up the budget, whatever is sent meanwhile |
| RateLimiting.ReleaseCutsLate | node/src/utils/DataRateLimiter.js:49-70 | it hands out whole buffers and cuts one at most, at the end of the budget, whose rest stays first in the queue |
| RateLimiting.ProcessKeeps | node/src/utils/DataRateLimiter.js:33-75 | after a run the interval has used at most its budget, and only a limited rate with an open interval has a queue |
| RateLimiting.RunConserves | node/src/utils/DataRateLimiter.js:23-75 | in every run sent bytes followed by queued bytes are the accepted bytes in order, through splits and re-entrant sends |
| RateLimiting.WindowBound | node/src/utils/DataRateLimiter.js:39-70 | a window sees at most one budget more than the intervals that fit into its width and one interval |
| RateLimiting.RateBound | node/src/utils/DataRateLimiter.js:11-70 | a window of width W sees at most floor(W/I)+2 budgets and at most rate*(W+2I)/1000 bytes |
| RateLimiting.NothingWaitsInVain | node/src/utils/DataRateLimiter.js:23-72 | in every run something is queued only when the interval's budget is used up |
| RateLimiting.IntervalIsCounted | node/src/utils/DataRateLimiter.js:39-68 | in every run the bytes counted are exactly those sent from the start of the interval to its last instant, and none were sent after it |
| RateLimiting.OneBudgetPerInterval | node/src/utils/DataRateLimiter.js:39-50 | every interval opened in a run sees one budget at most up to its last instant, and the next begins after it |
| RateLimiting.FiringsSendABudget | node/src/utils/DataRateLimiter.js:33-72 | timeouts at any times, stale ones included, have sent a full budget or all that was left once they reach beyond the current interval |
| RateLimiting.RunPaces | node/src/utils/DataRateLimiter.js:17-75 | in every run of sends, firings and clears: while something is queued the budget is used up and the remembered timeout is armed, not due before the current interval is over; no timeout is due more than an interval ahead |
| RateLimiting.ChainSends | node/src/utils/DataRateLimiter.js:33-72 | every second firing of a chain of timeouts, each armed by the run of the one before, sends a budget, whatever stale ones fire in between |
| RateLimiting.QueueDrains | node/src/utils/DataRateLimiter.js:33-72 | with no new input N queued bytes are gone after 2*ceil(N/budget) firings of the limiter's own timeout and its successors |
| RateLimiting.QueueEmpties | node/src/utils/DataRateLimiter.js:33-72 | the queue itself is empty after 2*(floor(N/budget)+1) of them |
| RateLimiting.ChainFiresUntilEmpty | node/src/utils/DataRateLimiter.js:33-72 | while anything is queued the next timeout of that chain is armed, and the chain has fired fewer times than that |
| RateLimiting.QueueDrainsInTime | node/src/utils/DataRateLimiter.js:33-72 | with timeouts that run at most a given lag late, N bytes queued are gone 2*ceil(N/budget)*(interval+lag) later |
| RateLimiting.ExactTimeoutsSendEverySecondTime | node/src/utils/DataRateLimiter.js:39-40 | that is tight: timeouts that run exactly when due send one budget in two |
| RateLimiting.ProgressNeedsABudget | node/src/utils/DataRateLimiter.js:6-50 | a limited rate never sends a byte in any run exactly if it allows less than one byte per interval |
| RateLimiting.DataRateLimiter.constructor | node/src/utils/DataRateLimiter.js:4-15 | a new limiter is idle, with the configured budget |
| RateLimiting.DataRateLimiter.Clear | node/src/utils/DataRateLimiter.js:17-21 | the queue and the interval are forgotten, nothing is sent, and exactly the remembered timeout is cancelled |
| RateLimiting.DataRateLimiter.Send | node/src/utils/DataRateLimiter.js:23-31 | the new state, the timeouts armed and the chunks sent are those of SendLoop and Submit |
| RateLimiting.DataRateLimiter.TimerFired | node/src/utils/DataRateLimiter.js:33-75 | a timeout, current or stale, leaves the state and the timeouts of FireLoop and sends what Process says |
| RateLimiting.DataRateLimiter.ProcessRateLimitQueue | node/src/utils/DataRateLimiter.js:33-75 | the in-place run equals Process; a timeout is armed, due one interval from now, exactly if the queue is not empty, and no other is touched |
| RateLimiting.DataRateLimiter.OpenInterval | node/src/utils/DataRateLimiter.js:39-45 | a fresh interval begins exactly if there is none or it is longer ago than the interval |
| RateLimiting.DataRateLimiter.NextBuffer | node/src/utils/DataRateLimiter.js:51-66 | the buffer taken and the queue left are the cut of the old queue at the remaining budget |
| RateLimiting.DataRateLimiter.WriteWithinBudget | node/src/utils/DataRateLimiter.js:49-70 | the loop sends the burst that Release describes and counts its bytes |
| Framing.DrainResumes | node/src/ntun.js:828-862 | parsing can stop anywhere and resume: frames and state are those of the whole |
| Framing.FramingRoundTrip | node/src/ntun.js:785-862 | the frames of any buffers parse back to those buffers, but for an empty last one |
| Framing.PrefixParses | node/src/ntun.js:828-862 | any prefix of a stream of non-empty frames yields a prefix of the buffers and never meets the missing chunk |
| Framing.FeedAllParses | node/src/ntun.js:821-862 | what any sequence of chunks, empty ones included, emits and leaves behind, in terms of their concatenation |
| Framing.SegmentationIndependence | node/src/ntun.js:821-862 | chunks give what their concatenation gives exactly unless an empty chunk follows the length of an empty frame |
| Framing.EmptyChunkIsSeen | node/src/ntun.js:828-862 | a zero length and then an empty chunk emit a frame that the same bytes in one chunk do not |
| Framing.PiecesAreTheFrame | node/src/ntun.js:785-795 | the chunks of a payload are its length field, in one chunk of 4 bytes, and itself, cut into chunks of the maximum size and a last one no longer, none empty |
| Framing.Sealed | node/src/ntun.js:709-724 | sealing adds 28 bytes or none, and the other end gets the same buffer back |
| Framing.LengthNeverOverflows | node/src/ntun.js:726-787 | the largest accepted buffer plus the cipher's 28 bytes fits the 4-byte length |
| Framing.OnlyBadFramesAreErrors | node/src/ntun.js:807-815 | a frame is reported as an error exactly if it does not open, and as its plain buffer otherwise |
| Framing.WriteChunksConserves | node/src/ntun.js:785-801 | writing makes wire plus queue longer by exactly the bytes written |
| Framing.TransportSocket.constructor | node/src/ntun.js:735-763 | a new socket expects a length; a chunk size of 0 means 128 kB; a rate of 0 means no limiter |
| Framing.TransportSocket.Close | node/src/ntun.js:765-772 | reassembly starts over and the limiter's queue is dropped |
| Framing.TransportSocket.WriteData | node/src/ntun.js:798-805 | a chunk goes through the limiter or straight to the wire |
| Framing.TransportSocket.WriteBuffer | node/src/ntun.js:774-796 | a buffer is refused exactly above 256 MB; otherwise its pieces are written in order |
| Framing.TransportSocket.WritePayload | node/src/ntun.js:789-795 | the loop writes exactly the chunks of the payload |
| Framing.TransportSocket.HandleOnData | node/src/ntun.js:821-826 | one pushed chunk has the effect of Feed; it throws exactly if a zero length is left without a chunk |
| Framing.TransportSocket.ProcessData | node/src/ntun.js:828-862 | the loops over the chunk list emit the frames and leave the state of the parser on the concatenation; the byte count stays exact |
| Framing.TransportSocket.Turn | node/src/ntun.js:836-860 | one turn reads a length or cuts off a frame and removes exactly those bytes |
| Framing.TransportSocket.GatherFront | node/src/ntun.js:829-834 | joining leading chunks changes no byte, never runs past the list and makes the first chunk long enough |
| Links.LinkIsAChannel | node/src/ntun.js:774-862 | in every state the emitted buffers are a prefix of those written, and all of them once queue and wire are empty |
| Links.StepRefinesChannel | node/src/ntun.js:774-862 | a write appends to the channel, a timer changes nothing, a delivery of any bytes takes buffers off the front and emits exactly those |
| Tunnel.ConnectionsAreIsolated | node/src/ntun.js:214-315 | an event of one connection changes nothing that concerns another id |
| Tunnel.StepKeeps | node/src/ntun.js:214-315 | every event keeps the invariant of every id: streams, closes, tables and channel contents |
| Tunnel.TunnelStreams | node/src/ntun.js:231-315 | in every run in which no client takes an id too early, data arrives in order, use by use of an id; while the receiving record is live or its CONNECT in flight, read = written + kept back + in flight; the output dials what was asked for; towards the client unless DATA of an earlier use was on its way |
| Tunnel.TablesAgree | node/src/ntun.js:214-311 | in every run in which no client takes an id too early, with nothing in flight both nodes have the same connections, crossing closes included |
| Tunnel.ProtocolDiscipline | node/src/ntun.js:300-311 | each side sends at most one CLOSE per use of an id; at most one CONNECT of an id is in flight and finds no record; nothing else of an id reaches the output before its first CONNECT |
| Tunnel.NoConnectToInput | node/src/ntun.js:614-616 | the input node never gets a CONNECT, so it never throws |
| Tunnel.CloseComesAfterTheData | node/src/ntun.js:214-237 | when a CLOSE reaches a connected record, its socket has been given everything the other end read |
| Tunnel.EarlyReuseBreaksAgreement | node/src/ntun.js:76-78 | from every reachable state, an id taken back while a CLOSE for it may come has a continuation that ends with nothing in flight and its record at the output only |
| Tunnel.ReuseIsSafeExactly | node/src/ntun.js:76-78 | taking an id keeps the tables in agreement in all continuations exactly if no CLOSE for it may come |
| Tunnel.StaleDataReachesTheNextClient | node/src/ntun.js:231-237 | from every reachable state, a client that takes an id whose earlier use can still send has a continuation in which it is given bytes that its own use never read |
| Tunnel.ReuseKeepsTheStreamExactly | node/src/ntun.js:76-78 | for every client that takes an id, its stream is in order in all continuations exactly if the output has no record, no CONNECT is in flight and no DATA on its way back |
| Tunnel.OverwrittenRecordTakesTheNewOne | node/src/ntun.js:239-311 | a record that was overwritten removes the new one under its id when its socket closes, and sends CLOSE |
| TunnelEvents.RecordsAreKept | node/src/ntun.js:214-315 | in every run, what was emitted and asked for, which records there are, their last errors and which sockets are ready are what the list of events says |
| TunnelEvents.ChannelsCarryTheEvents | node/src/ntun.js:200-315 | in every run, what reached a node and what is in flight are exactly one CONNECT per client, one DATA with all the data per data event, and one CLOSE with the last error per closed connection, in order |
| TunnelEvents.SocketToSocket | node/src/ntun.js:231-315 | in every run a socket has been given a prefix of what the other end's socket emitted by the list of events, and everything but what is in flight or kept back for a socket that is not ready |
| TunnelEvents.SocketsAreFree | node/src/ntun.js:239-315 | a client can always come, and the socket of a connection can emit any data, fail and close |
| TunnelEvents.StaleMeans | node/src/ntun.js:76-78 | the ids left out of the promise towards the client are those that began with something on its way back |
| ConnectionTables.ConnectionTable.HandleOnSocksServerConnection | node/src/ntun.js:578-597 | a client is denied without a transport, else entered as connected and announced with a CONNECT for its target |
| ConnectionTables.ConnectionTable.HandleMessage | node/src/ntun.js:383-419 | a received message has the effect of Handle; an input node throws on CONNECT only |
| ConnectionTables.ConnectionTable.HandleSocketOnReady | node/src/ntun.js:285-298 | the record is connected and everything kept back is written in order |
| ConnectionTables.ConnectionTable.HandleSocketOnData | node/src/ntun.js:313-315 | all the data goes out as one DATA message and is on record |
| ConnectionTables.ConnectionTable.HandleSocketOnClose | node/src/ntun.js:268-311 | for a record in the Map or out of it: a CLOSE with its error is sent and the Map's record of that id removed, unless the far end closed it or there is no transport |
| TunnelOverLinks.StackRefinesProtocol | node/src/ntun.js:376-419 | every run over bytes, timers and reassembly is a run of the message protocol with the same socket events |
| TunnelOverLinks.TunnelDelivers | node/src/ntun.js:214-419 | over the whole stack, unless a client takes an id too early: prefixes of what the events say was emitted always, everything once drained for live records whose sockets are ready, at the target asked for, and then equal tables |
| StackProgress.StackDrains | node/src/ntun.js:774-862 | after any timed run, once no socket sends, each limiter's chain has ended or fired often enough and the wires are empty, all is delivered and the tables agree; stale timeouts, partial deliveries and any order included |
| StackProgress.StackCanDrain | node/src/ntun.js:774-862 | from every state of a timed run there is such a continuation, for unlimited rates and for budgets of at least a byte |
| Pairing.StepKeepsMatching | node/src/transport/vk-calls/VkWebRTCTransport.js:166-332 | every message, notification, join and departure keeps the matching invariant |
| Pairing.AnswerPeersAreMatched | node/src/transport/vk-calls/VkWebRTCTransport.js:166-332 | a live answer peer's live opponent is connected back as offer peer; no two answer peers share an opponent or face each other; connected iff an opponent is recorded |
| Pairing.ParticipantsAreTold | node/src/transport/vk-calls/VkWebRTCTransport.js:124-204 | in every run a participant lists exactly those it was told of and not told to have left |
| Pairing.MisfitNotification | node/src/transport/vk-calls/VkWebRTCTransport.js:181-204 | the fall-through into hungup keeps the matching exactly if nobody live counts on the pairing |
| Pairing.MisfitBreaksThePairing | node/src/transport/vk-calls/VkWebRTCTransport.js:181-204 | a run after which such a notification about a live participant ends a pairing on one side only |
| Pairing.MutualPairs | node/src/transport/vk-calls/VkWebRTCTransport.js:213-332 | two participants connected to each other are exactly one of: offer and answer peer, answer and offer peer, crossed |
| Pairing.CrossedStays | node/src/transport/vk-calls/VkWebRTCTransport.js:240-268 | a crossed pair stays crossed in all continuations in which neither leaves |
| Pairing.StuckPairsApplyNothing | node/src/transport/vk-calls/VkWebRTCTransport.js:240-268 | if no answer is under way between the two they apply none at all |
| Answers.CrossedPairsNeverFinish | node/src/transport/vk-calls/VkWebRTCTransport.js:240-268 | in all those continuations neither has created or applied an answer to the other's offer |
| Pairing.CrossingConnects | node/src/transport/vk-calls/VkWebRTCTransport.js:213-220 | a run in which two participants take each other's CONNECT |
| Answers.AnswersGoHome | node/src/transport/vk-calls/VkWebRTCTransport.js:259-357 | answers go to those whose offers they answer in exactly the runs in which each is ready while that is the opponent or there is none |
| Answers.AnswerInTimeIsSent | node/src/transport/vk-calls/VkWebRTCTransport.js:355-357 | an answer that is ready while its creator answers the author of the offer is sent there, once |
| Answers.ExchangeCanComplete | node/src/transport/vk-calls/VkWebRTCTransport.js:240-268 | from every reachable state, an offer in flight to the author's answer peer can lead to the author applying its answer |
| Answers.PairCanComplete | node/src/transport/vk-calls/VkWebRTCTransport.js:208-357 | from every reachable state, two waiting participants with a CONNECT in flight can pair and finish the exchange |
| Answers.LateAnswers | node/src/transport/vk-calls/VkWebRTCTransport.js:304-357 | in every run, an answer that is ready later is ready at an offer peer, and the author of its offer has left |
| Answers.AppliedAnswersAreGenuine | node/src/transport/vk-calls/VkWebRTCTransport.js:259-357 | in every run an applied answer came from the recorded answer peer, which created it from an offer sent to it by the offer's author |
| Answers.AppliedAnswersAreOwn | node/src/transport/vk-calls/VkWebRTCTransport.js:259-357 | unless an answer is ready at an offer peer that faces an offer peer or has its CONNECT to it in flight, that author is the participant that applies the answer |
| Answers.AstrayAnswerCanBeApplied | node/src/transport/vk-calls/VkWebRTCTransport.js:269-357 | from every reachable state, an answer that goes astray can come to be applied by someone whose offer it does not answer |
| Answers.StrayAnswerIsApplied | node/src/transport/vk-calls/VkWebRTCTransport.js:304-357 | a run with crossing CONNECTs in which a late answer to one participant is applied by another |
| Meetings.DeliverMeetsExactly | node/src/transport/vk-calls/VkWebRTCTransport.js:208-224 | a delivery keeps every two participants meeting exactly if it does not drop the last CONNECT of a connecting sender at an idle participant that does not list it |
| Meetings.StepMeetsExactly | node/src/transport/vk-calls/VkWebRTCTransport.js:124-332 | an event keeps every two participants meeting exactly if it is no such delivery and no restart of a participant that misses someone |
| Meetings.NoPairingDeadlock | node/src/transport/vk-calls/VkWebRTCTransport.js:124-332 | in runs without such events, departures included, once no CONNECT is in flight at most one participant is still connecting |
| Meetings.SignalServerNeverDeadlocks | node/src/transport/vk-calls/VkCallSignalServerTransport.js:108-263 | the same for participants that begin as they join, with no condition on the order of announcements |
| Meetings.UnannouncedConnectDeadlocks | node/src/transport/vk-calls/VkWebRTCTransport.js:124-144 | a run in which a CONNECT overtakes the announcement of its sender and leaves two connecting with nothing in flight |
| Meetings.UnannouncedRestartDeadlocks | node/src/transport/vk-calls/VkWebRTCTransport.js:193-204 | a run in which a participant loses its opponent, connects again and misses one that joined unannounced |
| Meetings.StalemateLasts | node/src/transport/vk-calls/VkWebRTCTransport.js:124-332 | once all are connecting with nothing in flight, that lasts until somebody joins |
| Participants.Participant.SendConnectToOpponentParticipants | node/src/transport/vk-calls/VkWebRTCTransport.js:146-156 | one CONNECT to each known participant and nothing else |
| Participants.Participant.SetStateConnecting | node/src/transport/vk-calls/VkWebRTCTransport.js:294-302 | no opponent, and CONNECT to all |
| Participants.Participant.SetStateConnected | node/src/transport/vk-calls/VkWebRTCTransport.js:304-332 | the opponent and the roles; the offer peer sends ACCEPT and its offer, the answer peer drops the answers it was creating |
| Participants.Participant.StartAnswerConnection | node/src/transport/webrtc/WebRTCTransport.js:119-131 | the peer that is creating answers is replaced, so they are never ready |
| Participants.Participant.HandleOnParticipantMessage | node/src/transport/vk-calls/VkWebRTCTransport.js:208-292 | the reaction to every message type in every state |
| Participants.Participant.HandleHungUp | node/src/transport/vk-calls/VkWebRTCTransport.js:193-204 | the participant is forgotten; losing the opponent means connecting again |
| Participants.Participant.HandleRegisteredPeer | node/src/transport/vk-calls/VkWebRTCTransport.js:181-204 | a fitting participant is remembered, any other counts as hung up |
| CipherConns.ChunksOf | go/internal/connections/CipherAesGcmConn.go:36-37 | the chunks of a Write have 1 to 4066 bytes and join to what was written |
| CipherConns.RecordFits | go/internal/connections/CipherAesGcmConn.go:10-44 | a sealed chunk has at most 4094 bytes, so its length fits 16 bits and the record 4096 |
| CipherConns.RecordsAreDrawn | go/internal/connections/CipherAesGcmConn.go:36-57 | every record of a Write is sealed with a random draw of its own |
| CipherConns.CipherConnIsTransparent | go/internal/connections/CipherAesGcmConn.go:35-95 | for any interleaving of Writes and Reads of any sizes, read + buffered + still sealed = written |
| CipherConns.WrittenIsGiven | go/internal/connections/CipherAesGcmConn.go:35-60 | what was written is what the Writes of the run were given |
| CipherConns.ReadsMakeProgress | go/internal/connections/CipherAesGcmConn.go:62-95 | a Read waits exactly if everything has been read, gets at least one byte otherwise, fills its slice unless the record is used up, and never meets a bad record |
| CipherConns.MessageReadBack | go/internal/ntun/node/ConnectionManager.go:164-219 | a message is read back whole with nothing left buffered exactly if its body has 1 to 4066 bytes |
| CipherConns.MessagesReadBack | go/internal/ntun/node/ConnectionManager.go:164-219 | any messages of such sizes are read back by as many ReadMsg calls, and the next protocol starts on its first byte |
| CipherConns.CipherAesGcmConn.Write | go/internal/connections/CipherAesGcmConn.go:35-60 | the records of the chunks are written in order and all bytes counted |
| CipherConns.CipherAesGcmConn.ReadInto | go/internal/connections/CipherAesGcmConn.go:62-95 | a Read serves leftover bytes first, else one record, and keeps what does not fit; a record that does not open is used up |
| CipherConns.CipherAesGcmConn.WriteMsg | go/internal/ntun/node/ConnectionManager.go:164-190 | length and body are written in Writes of their own |
| CipherConns.CipherAesGcmConn.ReadMsg | go/internal/ntun/node/ConnectionManager.go:192-219 | one Read for the length and one for the body, each failing unless it fills its buffer; what is used up is stated for a message, a wait and a failure |
| Handshakes.PrecedesIsNumeric | go/internal/ntun/node/ConnectionManager.go:221-230 | the bytewise order of ids is the order of the numbers they spell, hence strict and total |
| Handshakes.CmpUUID | go/internal/ntun/node/ConnectionManager.go:221-230 | -1, 1 or 0 as the ids compare as numbers, 0 exactly for equal ids |
| Handshakes.ConnectionManager.SendHandshake | go/internal/ntun/node/ConnectionManager.go:233-239 | the own version and id are written as one message |
| Handshakes.ConnectionManager.ReceiveHandshake | go/internal/ntun/node/ConnectionManager.go:241-265 | the verdict on the message received, in the order of the checks, and the role |
| Handshakes.ConnectionManager.HasAllowedToConnectNodeId | go/internal/ntun/node/Node.go:34-42 | true exactly for the configured ids |
| Handshakes.OneEndsVerdict | go/internal/ntun/node/ConnectionManager.go:245-263 | in every run an end that finishes accepts exactly if the versions agree, the ids differ and the other is allowed here, is client exactly if its id comes first, and otherwise gives the first reason that applies |
| Handshakes.ExactlyOneClient | go/internal/ntun/node/ConnectionManager.go:232-266 | once both ends finish, both accept iff versions agree and ids differ and are mutually allowed; then exactly one is client, the one with the smaller id |
| BufferedConns.NothingWaitsTooLong | go/internal/connections/BufferedConn.go:42-113 | in every interleaving written + channel + chunk in hand + buffer = accepted; a timeout is armed iff bytes are buffered, since the first arrived, and never waits for the lock; no byte stays in the buffer past the delay; the buffer stays below maxSize |
| BufferedConns.AcceptedIsWritten | go/internal/connections/BufferedConn.go:42-50 | the bytes accepted are those of the Writes of the run |
| BufferedConns.OnlyFullChunks | go/internal/connections/BufferedConn.go:52-64 | without Flush and before any timeout, only chunks of at least maxSize go out |
| BufferedConns.WaitingFlushEnds | go/internal/connections/BufferedConn.go:80-104 | a flush that waits for the channel goes on after the writer's next turn |
| BufferedConns.BufferedConn.Write | go/internal/connections/BufferedConn.go:42-64 | the locked step of a Write, with its flush, on a full channel too, or timeout |
| BufferedConns.BufferedConn.FlushLocked | go/internal/connections/BufferedConn.go:66-87 | the buffer goes to the channel as one chunk, or is held until there is room, and the timeout is gone; an empty buffer changes nothing |
| TrafficStats.RecentMeans | go/internal/connections/TrafficStatsConn.go:9-41 | the window holds exactly what is at most 250 milliseconds old |
| TrafficStats.RecentLater | go/internal/connections/TrafficStatsConn.go:36-48 | what one validate drops, a later one would drop too |
| TrafficStats.ExpiredPrefix | go/internal/connections/TrafficStatsConn.go:36-48 | in time order the expired intervals are exactly a prefix |
| TrafficStats.Speed.Add | go/internal/connections/TrafficStatsConn.go:25-34 | the intervals kept are all ever added that are at most 250 ms old, and sum is their total |
| TrafficStats.Speed.Validate | go/internal/connections/TrafficStatsConn.go:36-48 | the same, although only a prefix is scanned |
| TrafficStats.Speed.GetSpeed | go/internal/connections/TrafficStatsConn.go:50-57 | the speed is the total of the last 250 ms divided by that time |
| Socks5.ConnectIsConsumedExactly | go/internal/proxy/socks/Sock5NoAuthServer.go:99-186 | after a greeting with method 0 and a CONNECT request the address and port are recovered and exactly the payload is left |
| Socks5.AcceptedInputs | go/internal/proxy/socks/Sock5NoAuthServer.go:99-186 | the inputs accepted, exactly |
| Socks5.RefusalsHaveReasons | go/internal/proxy/socks/Sock5NoAuthServer.go:99-177 | the reason of a refusal is the first part of the input that is wrong |
| Socks5.GreetingIsAnswered | go/internal/proxy/socks/Sock5NoAuthServer.go:122-132 | a whole greeting of version 5 is answered with bytes 5 and 0 if it offers method 0, and with 5 and 255 otherwise; nothing else is answered |
| Socks5.OtherCommandsAccepted | go/internal/proxy/socks/Sock5NoAuthServer.go:138-145 | another command is accepted exactly if the reserved byte is 0 |
| Socks5.SourceConn.ReadFull | go/internal/proxy/socks/Sock5NoAuthServer.go:105-107 | the slice is filled and the rest of the buffer untouched, or the input is used up |
| Socks5.Sock5NoAuthServer.HandshakeNoAuth | go/internal/proxy/socks/Sock5NoAuthServer.go:99-186 | result, bytes left and bytes replied are those of Handshake, also if the reply cannot be delivered, in one reused 255-byte buffer that is never overrun |
| Socks5.Sock5NoAuthServer.ReadAddress | go/internal/proxy/socks/Sock5NoAuthServer.go:147-176 | the address of each type, read into the reused buffer |
| Socks5.Sock5NoAuthServer.HandleDial | go/internal/proxy/socks/Sock5NoAuthServer.go:188-208 | what a client reads by section 6 of RFC 1928: version 5, status 0 exactly if the target was reached and 1 otherwise, IPv4, zero address and port; a target whose reply cannot be delivered is closed again |
| Socks5.Sock5NoAuthServer.HandleConn | go/internal/proxy/socks/Sock5NoAuthServer.go:77-97 | a connection is proxied exactly after a good handshake to a reachable address with both replies delivered, and closed otherwise |

## Left out

- The internals of AES-GCM, the hashes, msgpack and JSON: inverse pairs, of which only lengths are kept.
- Sockets, WebSockets, WebRTC, yamux and the mail and HTTP clients: foreign code, seen as channels or sources of events.
- `Socks5OutputConnection`: it swaps a stand-in socket for the real one, which can enter a connection whose CLOSE has passed.
- Start, stop and reconnection of nodes and transports, configuration, logging and rate parsing: one transport session is modelled.
- The Yandex and plain WebRTC transports of the Go node and the commented-out Go multiplexer.
- Connection records are values in the table and among the detached records: that closures share one mutable record is not captured.
- ConnectionTables.ConnectionTable.HandleOnSocksServerConnection: a record that is overwritten while it is in the Map keeps its listeners; its "close" is modelled, its later data and errors are not. No run of the theorems overwrites one.
- Tunnel.TunnelStreams: data of an id that has left the receiver's table is dropped, as in the source; the prefix is all that holds for it then.
- Links.LinkIsAChannel: buffers are not empty, as those of the multiplexer never are; `Framing.FramingRoundTrip` says what happens to empty ones.
- RateLimiting.RateBound: runs do not contain `clear`, which forgets the interval.
- CipherConns.CipherAesGcmConn.ReadInto: a Read that waits is a separate outcome with no change; errors of the underlying connection are not modelled.
- Socks5.SourceConn.ReadFull: the peer has sent all it will; waiting for more is not modelled, and a Write is delivered whole or not at all.
- BufferedConns.NothingWaitsTooLong: `Close`, which may lose data, and write errors are not modelled; a timeout is taken to run no later than its deadline, and a flush that waits is a step of its own.
- The byte counters of `TrafficStatsConn`, 32-bit sums, and the text form of addresses.
- Participants.Participant.HandleOnParticipantMessage: BUFFER messages change nothing in the pairing; the transport socket that takes them is not part of it.
