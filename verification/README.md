# vRPC, modelled and verified in Dafny

vRPC multiplexes unary calls, server streams, client streams and chats over one
connection, with either end as the initiator. This project models the parts of it
that are protocols rather than plumbing, and proves what they promise over every
interleaving, every input and every reachable state:

- **Stream flow control.** A sender takes a credit from a gate before each value; the
  receiver feeds a bounded pump and hands credit back in batches as its consumer
  reads. The accounting exists four times in the source (client and server, as
  initiator and as responder); one transition system covers all four
  (`CreditGate`, `StreamPump`, `PumpLifecycle`, `StreamFlow`, `StreamInvariant`,
  `StreamTheorems`), and `ChatUpstream` adds the teardown of a chat by the end of its
  responder's output.
- **Session resumption.** A client-held reverse hash chain, the server that accepts a
  link within a window, and a network that loses, repeats and reorders handshakes
  (`HashChain`, `SessionResumption`). The scheme is S/KEY (RFC 1760), with the one-step
  check of section 7.0 of RFC 2289 widened to a window.
- **Request lifecycle.** Half-close of chats, completion of unary calls, correlation by
  signed ids, registration before data, reconnect, the caps on handlers and streams,
  and server shutdown (`HalfClose`, `UnaryCompletion`, `Correlation`, `Registration`,
  `Reconnect`, `StreamLimits`, `Shutdown`).
- **Resilience.** The circuit breaker and the token bucket (`Breaker`, `TokenBucket`).
- **Framing.** The length-prefix codec with its reused write buffer (`Framing`).

How the files are built: an object whose methods update fields in place is a class, and
each of its methods is proved against a function on values (`AfterPush`, `AfterGrant`,
`AfterRecord`, ...). The transition systems take their steps from those same functions:
`Init`, `Enabled`, `Next`, and `Runs(s, acts, t)` for "performing `acts` leads from `s`
to `t`". Code whose whole point is the interleaving of atomic operations (half-close, the
caps, reconnect, shutdown, completion) is modelled at that grain only: one step per atomic
operation, with a program counter for each goroutine. An invariant is proved part by part
and step by step, carried over whole runs by induction on `acts`, and then read off in the
theorems. `dafny verify dfyconfig.toml` checks everything.

## Results that differ from what the source's comments say

- *Flow control is lossless for every sender that pays, but it does not always finish.*
  A `StreamValue` carrying Null costs a credit that is never handed back. A stream
  completes if and only if its Nulls leave enough credit at every point
  (`CompletesExactlyWhenSufficient`); `TwoNullsAreTooMany` is an input that does not.
- *A server configured with a non-positive `maxPending`* passes it on as the window,
  unlike the other three copies, and then no stream to it that carries a value completes
  (`NonPositiveWindowStarves`).
- *A half-open breaker can close before its probes have succeeded.* Outcomes are not
  tagged with the state their call was admitted in. From a half-open state it can if and
  only if a call that is not one of its probes is in flight or has had a success recorded
  (`ClosesEarlyExactlyWithOtherCalls`); `StaleSuccessCloses` is a run.
- *The cap on open streams is kept if and only if the cap on handlers is 1*
  (`StreamCapHoldsExactlyForOneHandler`), because check and store are separate steps. With
  a positive handler cap it is exceeded by up to that cap less one, a bound that is proved
  and attained (`OpenStreamsStayBounded`, `BoundIsAttained`); with handlers uncapped it
  bounds nothing (`NoBoundWithoutRequestCap`).
- *Reconnect does not put every request on exactly one side.* A caller stores its request
  and sends it in separate steps, and its send waits for the new connection. A replayable
  request is then sent twice, and another is reported lost and sent all the same, exactly
  when the caller has not sent it at the reset; one that is not even stored then outlives
  a failed reconnect (`SentTwiceExactlyWhenUnsent`, `LostAndSentExactlyWhenUnsent`,
  `SurvivesFailureExactlyWhenUnstored`). For requests sent before the reset the promise
  holds (`SentRequestIsConserved`), except that one completed in the meantime may still be
  resent (`CompletedIsResent`, `GoneExactlyWhenCompleted`); `DoubleSend` is a run from the
  start.
- *The hash chain heals across window - 1 lost handshakes*, not a full window of them: the
  link presented counts too (`NextLinkHeals`, `WindowOfLossesIsTooMany`).
- *The upstream half of a chat is not lossless.* The end of the responder's output stops
  its pump and closes the initiator's gate. Ending it can lose a value if and only if not
  every value of the initiator has come out of the pump (`LosesExactlyWhenUndelivered`),
  and the initiator then sends its own StreamEnd if and only if it has no value left
  (`EndsExactlyWithoutValuesLeft`).
- *The loser of a race of two first connects that is admitted leaves the session on a
  closed connection*: it closes its own before it resumes on it (`LoadOrStore`).
- *A server that has lost its sessions gives a client id to whoever comes first*: once that
  is another principal, the client is rejected until the sessions are lost again
  (`TakenIdStaysTaken`, `IdCanBeTaken`).
- *Writing goes on behind a failed write*, and then a reader gets a message nobody wrote
  (`BrokenFrameSwallowsTheNext`); it is in step again exactly when the frames swallowed
  fill up the broken one (`BackInStepExactlyWhenAligned`).
- *A connection cut right behind a frame header reads as a clean end of stream*, not as an
  unexpected one (`CutFrameFails`).
- *The rate limit bounds the rate for non-negative rates only*
  (`RateBoundNeedsNonNegativeRate`).

## Model

| member | source | states |
|---|---|---|
| `CreditGates.CreditGate.constructor` | valuerpc/credit.go:24-28 | a new gate is open and holds no credit |
| `CreditGates.CreditGate.TryAcquire` | valuerpc/credit.go:32-43 | one pass of the wait loop: closed is refused, no credit blocks, else exactly one credit is taken; nothing changes unless it is |
| `CreditGates.CreditGate.Grant` | valuerpc/credit.go:46-54 | adds a positive grant, also to a closed gate, and ignores any other |
| `CreditGates.CreditGate.Close` | valuerpc/credit.go:57-62 | closes for good and keeps the credit |
| `CreditGates.GateNeverOverspends` | valuerpc/credit.go:32-62 | for every history of calls: acquisitions + credit left = credit at the start + positive grants, credit never goes negative, a closed gate hands out none |
| `StreamPumps.Bound` | valuerpc/pump.go:59-61 | a pump always works with a positive bound |
| `StreamPumps.MoveDown` | valuerpc/pump.go:91 | an overlapping front-to-back copy moves the live region intact and leaves the rest alone |
| `StreamPumps.Clear` | valuerpc/pump.go:92-94 | exactly the vacated slots become nil |
| `StreamPumps.Grow` | valuerpc/pump.go:98 | a grown backing array of any larger size starts with the old contents and is nil behind them |
| `StreamPumps.StreamPump.constructor` | valuerpc/pump.go:58-71 | the array form of an empty open pump with the normalised bound |
| `StreamPumps.StreamPump.Push` | valuerpc/pump.go:76-101 | refines a bounded FIFO: accepted exactly below the bound and before the end, appended at the back; crossing the bound ends the input; the backing array is replaced exactly when it is full of live values, fewer than the bound |
| `StreamPumps.StreamPump.Compact` | valuerpc/pump.go:88-97 | in-place compaction is invisible in the abstract queue and leaves no stale reference |
| `StreamPumps.StreamPump.Append` | valuerpc/pump.go:98 | append in place or into a larger array gives the same abstract queue |
| `StreamPumps.StreamPump.Take` | valuerpc/pump.go:154-160 | takes the oldest accepted value; the rest keeps its order and delivered slots are nil |
| `StreamPumps.StreamPump.Close` | valuerpc/pump.go:105-110 | ends the input and drops nothing |
| `StreamPumps.StreamPump.Stop` | valuerpc/pump.go:115-120 | stops the pump, idempotently |
| `PumpLifecycle.StepKeepsInv` | valuerpc/pump.go:76-174 | every step of Push, Close, Stop and the goroutine keeps: accepted = sent + in hand + queued, within the bound, one close |
| `PumpLifecycle.PumpDeliversInOrder` | valuerpc/pump.go:139-174 | in every interleaving what reached `out` is a prefix of what was accepted, `out` is closed exactly when the goroutine is gone and never twice, and finishing without Stop means everything accepted was delivered |
| `PumpLifecycle.NothingAcceptedAfterEnd` | valuerpc/pump.go:79-87 | after Close, Stop or overflow no continuation accepts anything |
| `PumpLifecycle.NoLostWakeup` | valuerpc/pump.go:105-146 | in every reachable state the goroutine has nothing to do, or a step of its own or the pending signal of a Stop is enabled |
| `StreamFlow.Batch` | valueclient/request.go:114-117 | the batch is at least 1 and never above a positive window |
| `StreamFlow.ReceiveWindow.constructor` | valueclient/request.go:77-91 | the counter starts at -1 where an uncounted ack is delivered first, else at 0 |
| `StreamFlow.ReceiveWindow.OnDeliver` | valueclient/request.go:112-125 | every delivery is granted or held back exactly once, grants are whole batches, less than a batch is held back |
| `StreamFlow.Conservation` | valueserver/serving_request.go:66-93 | credit at the gate, in flight, spent on values in flight, queued, held, uncounted or counted, plus what Nulls used up and what came after the sender left, is exactly the window |
| `StreamFlow.RoomForValue` | valuerpc/pump.go:82-87 | a value at the head of the channel always finds room in the pump |
| `StreamInvariant.StepKeepsInv` | valueserver/serving_request.go:230-266 | each of the 17 kinds of step of sender, channels, pump, consumer and accounting keeps all nine parts of the invariant |
| `StreamInvariant.RunKeepsInv` | valueclient/client.go:401-472 | all nine parts hold in every state any run reaches |
| `StreamInvariant.RoomForNext` | valuerpc/pump.go:76-87 | the pump accepts the next cell that arrives, ack or value |
| `StreamTheorems.InOrderDelivery` | valueclient/client.go:430-462 | in every run, for all four endpoints, the consumer has read the ack and then a prefix of the non-Null values emitted; when it sees the channel closed it has read all of them |
| `StreamTheorems.CreditConserved` | valueclient/request.go:77-125 | in every run the outstanding credit is at most the window, exactly the window while a Null-free stream is sent, and the pump never overflows |
| `StreamTheorems.RunsAreFinite` | valueserver/serving_request.go:230-266 | a measure decreases with every step, so every run ends |
| `StreamTheorems.CompletesExactlyWhenSufficient` | valueserver/serving_request.go:82-93 | a run that has come to a stop has delivered everything and closed the channel if and only if the input leaves enough credit, a condition on window, batch and Nulls alone |
| `StreamTheorems.NullFreeIsSufficient` | valueclient/request.go:112-125 | a Null-free input with a positive window always leaves enough |
| `StreamTheorems.NoCreditDeadlock` | valuerpc/credit.go:32-43 | Null-free with window >= 1: every reachable state that is not complete has a step left, and a waiting sender finds credit when nothing is in flight, queued or held |
| `StreamTheorems.EveryRunCanStop` | valueserver/serving_stream.go:353-368 | from every reachable state some continuation stops |
| `StreamTheorems.NonPositiveWindowStarves` | valueserver/serving_request.go:66-77 | a server with a non-positive bound never completes a stream that carries a value |
| `StreamTheorems.InsufficientStarves` | valueserver/serving_request.go:187-189 | every input without enough credit has a run that stops incomplete |
| `StreamTheorems.TwoNullsAreTooMany` | valueclient/client.go:433-436 | at a window of two, two Nulls and a value: a run that stops incomplete |
| `ChatUpstream.MoveKeepsInv` | valueserver/serving_request.go:230-266 | each step of the stream and of the teardown (end sent, request deleted, pump stopped, gate closed, sender refused, frames missed) keeps order and openness |
| `ChatUpstream.UpstreamIsPrefix` | valueclient/client.go:839-873 | in every run, whenever the output ends and however the teardown goes, the handler gets a prefix of the non-Null values sent, in order |
| `ChatUpstream.LosesExactlyWhenUndelivered` | valueserver/serving_request.go:244-251 | in every reachable state, ending the output now can lose a value if and only if some non-Null value of the initiator has not come out of the pump |
| `ChatUpstream.ReadingToTheEndIsLossless` | valueserver/serving_request.go:205-212 | a handler that has seen the end of its input before it ends its output loses nothing |
| `ChatUpstream.EndsExactlyWithoutValuesLeft` | valueclient/client.go:841-857 | once the initiator has received the end of the output, its own StreamEnd is sent or can still be if and only if it has no value left that needs a credit |
| `HashChains.IterAdd` | valuerpc/hashchain.go:86-88 | hashing i then k times is hashing i + k times |
| `HashChains.Precompute` | valuerpc/hashchain.go:82-88 | slot i holds the seed hashed i times |
| `HashChains.HashChain.constructor` | valuerpc/hashchain.go:78-90 | n links or the default for n <= 0, next to reveal is the one before the anchor |
| `HashChains.HashChain.Anchor` | valuerpc/hashchain.go:96-100 | the last iterate, at no cost |
| `HashChains.HashChain.Next` | valuerpc/hashchain.go:107-116 | reveals the pre-images in reverse order, each once, then the empty token; so each call returns the head of the tokens still to come |
| `HashChains.HashChain.Remaining` | valuerpc/hashchain.go:120-124 | of any number k of further Next calls exactly the first min(k, r) reveal a link |
| `HashChains.VerifyHashStep` | valuerpc/hashchain.go:135-158 | succeeds if and only if both tokens decode and 1 to window hashes reach the last link, and returns the least such number; 0 on failure |
| `HashChains.ServingClient.AuthorizeResume` | valueserver/serving_client.go:99-110 | accepts exactly links that advance or repeat the stored one, stores only an advance, changes nothing on rejection |
| `HashChains.RpcServer.Resume` | valueserver/server.go:449-460 | a known id is resumed exactly for the same principal and an authorized link; the session moves to the new connection, the one it was on is closed, no other session changes |
| `HashChains.RpcServer.LoadOrStore` | valueserver/server.go:466-478 | whatever other connections did since the first look-up, the effect on the table is one step as the second one finds it; an admitted connection is closed if and only if it lost the race |
| `HashChains.RpcServer.CreateOrUpdateServingClient` | valueserver/server.go:447-479 | a known id is resumed exactly for the same principal and an authorized link, an unknown id starts at the link presented, no other session changes; without a race the session ends up on an open connection |
| `HashChains.ServingClient.constructor` | valueserver/serving_client.go:68-89 | the first link presented is the one stored |
| `HashChains.RpcServer.constructor` | valueserver/server.go:187-201 | no sessions at the start |
| `SessionResumption.ResumingClient.constructor` | valueclient/client.go:137-160 | no chain yet, nothing acknowledged |
| `SessionResumption.ResumingClient.HandshakeToken` | valueclient/client.go:68-86 | the anchor until established, then a new pre-image on every attempt, an error once exhausted |
| `SessionResumption.ServerStepIsTableStep` | valueserver/server.go:447-479 | the server steps of the protocol model, under this and under another principal, are the steps of the session table |
| `SessionResumption.AcceptedExactlyWithinWindow` | valueserver/serving_client.go:99-110 | in every run over a lossy network a genuine link is accepted if and only if the id is unknown, or this client's and the link is the stored one or at most window links further, itself included; what is stored then |
| `SessionResumption.TakenIdStaysTaken` | valueserver/server.go:452-454 | an id that is another principal's rejects every link of the client in every continuation without a loss of sessions |
| `SessionResumption.IdCanBeTaken` | valueserver/server.go:466-469 | from every state a loss of sessions and a handshake under another principal take the id |
| `SessionResumption.NextLinkHeals` | valuerpc/hashchain.go:135-158 | the next link is accepted whatever the hash if fewer handshakes than the window were lost since the stored link, and exactly then if the iterates are distinct |
| `SessionResumption.WindowOfLossesIsTooMany` | valuerpc/hashchain.go:55-60 | for every chain longer than the window a run loses exactly a window of handshakes and has its next link rejected |
| `SessionResumption.LinksAreOneTime` | valuerpc/hashchain.go:96-124 | revealed indices strictly decrease, revealed + remaining = n, the anchor consumes none |
| `SessionResumption.StoredIndexNeverIncreases` | valueserver/serving_client.go:99-105 | while the server keeps its sessions the stored index never increases |
| `SessionResumption.OlderLinkIsRejected` | valuerpc/hashchain.go:126-134 | in every run an older link is rejected and leaves the state unchanged |
| `HalfClose.StepKeepsInv` | valueclient/request.go:164-243 | every atomic store, load and Once step of any number of closing threads keeps the invariant |
| `HalfClose.ClosedExactlyOnce` | valueclient/request.go:164-209 | in every interleaving the result channel closes at most once and RequestEnd fires at most once, both before Close or TryGetClose returns |
| `HalfClose.FinishedRequestIsRemoved` | valueclient/request.go:219-243 | when both halves of a chat have finished at least one reported it and the map entry is gone; a put-stream after its put half, others after their get half |
| `UnaryCompletion.StepKeepsInv` | valueclient/request.go:149-181 | concurrent responses, closers and the caller keep the invariant of channel, Once and map entry |
| `UnaryCompletion.UnaryCompletesOnce` | valueclient/client.go:401-428 | with duplicate responses RequestEnd fires once, the caller gets the first result delivered or learns that someone closed without one, and the entry is gone afterwards |
| `UnaryCompletion.OutcomeIsFinal` | valueclient/request.go:260-285 | the outcome of a call never changes |
| `Correlation.StepKeepsInv` | valueserver/serving_client.go:586-630 | calls, replays, opens, frames, answers, errors, cancels and losses on both sides keep tables, work and mail genuine |
| `Correlation.TablesAreSignSeparated` | valueserver/serving_stream.go:32-37 | in every run own entries have the own sign, served ones the other sign, and calls and streams never share an id |
| `Correlation.IdsAreFresh` | valueclient/client.go:671 | the next id exceeds in absolute value every id its side has used |
| `Correlation.MessagesAreRoutedRight` | valueclient/client.go:491-550 | although client and server look things up in different orders, every request, reply, error, frame and cancel goes to the entry it belongs to, or nowhere when that is gone |
| `Correlation.ErrorEndsItsStream` | valueserver/serving_client.go:600-614 | in every run an error reply for an own stream ends that stream and is the result of no call |
| `Correlation.CallsGetTheirOwnResults` | valueserver/serving_client.go:308-362 | in every run the result of a call was given by a handler of the other side for the argument sent under that id |
| `Correlation.CompletionIsFinal` | valueserver/serving_client.go:338-362 | later replies change neither result nor argument |
| `Registration.StepKeepsInv` | valueserver/serving_client.go:541-561 | entry, window, ready ack, data and teardown steps of any number of streams keep the order of registration |
| `Registration.RegistrationPrecedesData` | valueclient/serving.go:94-105 | in every run a frame in flight finds its entry at the receiver, in both directions, unless the receiver has itself removed it, whatever the sender did |
| `Reconnects.StepKeepsInv` | valueclient/client.go:327-392 | each step of callers (allocate, store, send), responses, other dials and a reconnect (flag, reset, cutoff, walk, connect, resend, fail, release) keeps the account of every request |
| `Reconnects.RequestsAreAccountedFor` | valueclient/client.go:664-679 | in every run with any number of reconnects a request is on any one connection at most twice, sent again there at most once, lost at most once, and in the map from its store until it is completed or lost |
| `Reconnects.OutcomeOfReconnect` | valueclient/client.go:344-379 | in every run, when a reconnect is over: a request it met at or below the cutoff was sent again exactly once if replayable and connected, else lost exactly once and removed; how often it is on the new connection; ids above the cutoff are neither resent nor lost |
| `Reconnects.SentRequestIsConserved` | valueclient/client.go:348-379 | a request in the map whose caller sent it before the reset, and that no response completes, ends either kept, on the new connection once and not lost, or removed, lost once and not on it; which one is decided by kind, policy and connect, whatever others do |
| `Reconnects.SentTwiceExactlyWhenUnsent` | valueclient/client.go:671-677 | a replayable request can be put twice on a connection made after the reset if and only if its caller has not sent it when the reset comes |
| `Reconnects.LostAndSentExactlyWhenUnsent` | valueclient/client.go:355-360 | a request that may not be replayed can be reported lost and still be put on a later connection if and only if its caller has not sent it when the reset comes |
| `Reconnects.SurvivesFailureExactlyWhenUnstored` | valueclient/client.go:363-369 | a request at or below the cutoff can be left in the map by a reconnect that fails if and only if its caller has not stored it when the reset comes |
| `Reconnects.CompletedIsResent` | valueclient/client.go:371-378 | from every state about to resend a request some run completes it with that resend still to come, which then puts the completed request on the new connection |
| `Reconnects.GoneExactlyWhenCompleted` | valueclient/client.go:374-378 | in every run a request about to be resent is out of the map if and only if a response has completed it |
| `Reconnects.DoubleSend` | valueclient/client.go:664-679 | a run from the start that puts a replayable request twice on the new connection |
| `Reconnects.ReconnectEnds` | valueclient/client.go:327-380 | a reconnect that has begun can be brought to its end with either outcome of the connect, nothing else happening |
| `Reconnects.EveryReconnectCanEnd` | valueclient/client.go:335-380 | so can, with some outcome, every reconnect under way in a state the invariant allows |
| `StreamLimits.StepKeepsInv` | valueserver/serving_client.go:541-584 | each atomic counter or map step keeps the bounds |
| `StreamLimits.OpenStreamsStayBounded` | valueserver/serving_client.go:632-662 | in every interleaving handlers <= R, open streams <= S + R - 1, and the counter equals the map size up to steps in progress |
| `StreamLimits.BoundIsAttained` | valueserver/serving_client.go:432-439 | for all positive caps some run opens S + R - 1 streams |
| `StreamLimits.NoBoundWithoutRequestCap` | valueserver/serving_client.go:648-652 | with the handler cap disabled some run opens any number of streams, whatever the stream cap |
| `StreamLimits.StreamCapHoldsExactlyForOneHandler` | valueserver/serving_client.go:435-439 | a positive stream cap is kept in every run if and only if the handler cap is 1 |
| `Shutdown.StepKeepsInv` | valueserver/server.go:279-298 | each step of accept loops, handlers and Close keeps mutex, wait group and connection map consistent |
| `Shutdown.NoHandlerAfterSignal` | valueserver/server.go:207-219 | once the signal is given no continuation registers a handler |
| `Shutdown.CloseUnblocksHandlers` | valueserver/server.go:222-238 | when Close starts to wait every unfinished handler has had its connection closed, and when Close returns all have finished |
| `TokenBuckets.TokenBucket.constructor` | resilience/policies.go:88-92 | starts full, with a burst of at least 1 |
| `TokenBuckets.TokenBucket.Allow` | resilience/policies.go:69-83 | decides by the capped level and spends one token if it admits |
| `TokenBuckets.RateBound` | resilience/policies.go:85-99 | after any polls, any window [t1, t2] admits at most burst + rate * (t2 - t1) calls |
| `TokenBuckets.RateBoundNeedsNonNegativeRate` | resilience/policies.go:73 | for every negative rate some window breaks the bound |
| `TokenBuckets.RefusedPollIsInvisible` | resilience/policies.go:73-77 | lazy refill is continuous refill: a refused poll leaves every later level as it was |
| `TokenBuckets.RefusedPollsNeverMatter` | resilience/policies.go:69-83 | leaving out any refused polls changes none of the other decisions |
| `Breakers.CircuitBreaker.constructor` | resilience/breaker.go:163-164 | a new breaker is closed with nothing counted |
| `Breakers.CircuitBreaker.Allow` | resilience/breaker.go:95-115 | admits when closed, after the cooldown, or below the probe cap; a refusal changes nothing |
| `Breakers.CircuitBreaker.Record` | resilience/breaker.go:118-138 | trips exactly on the failure that reaches the threshold or any failure while half-open |
| `Breakers.CircuitBreaker.Trip` | resilience/breaker.go:140-144 | open from now on, no probes |
| `Breakers.StepKeepsInv` | resilience/breaker.go:95-144 | every admitted or recorded call at any time keeps counting, cooling and probing consistent |
| `Breakers.ClosedCountsTrailingFailures` | resilience/breaker.go:122-129 | in every timed run a closed breaker has counted exactly the trailing failures, below the threshold, and trips exactly when they reach it |
| `Breakers.NoCallDuringCooldown` | resilience/breaker.go:98-105 | in every run no call is admitted within the cooldown after any trip |
| `Breakers.HalfOpenCountsProbes` | resilience/breaker.go:106-111 | in every run 1 <= probes <= maximum, and probes = probes in flight - outcomes of other calls |
| `Breakers.ClosesEarlyExactlyWithOtherCalls` | resilience/breaker.go:130-137 | in every reachable half-open state the breaker can close in this episode with a probe unfinished if and only if a call that is not one of its probes is in flight, or has had a success recorded |
| `Breakers.ClosingAccount` | resilience/breaker.go:133-136 | at a closing step some admitted probe has not succeeded if and only if another call's success was recorded in the episode |
| `Breakers.StaleSuccessCloses` | resilience/breaker.go:168-169 | a run in which a success from before the trip closes the breaker with its probe in flight |
| `Framing.Decode32Inverts` | valuerpc/rpc.go:103 | big-endian decoding inverts encoding |
| `Framing.PutUint32` | valuerpc/rpc.go:156 | writes the four header bytes and no other |
| `Framing.CopyAfterHeader` | valuerpc/rpc.go:157 | puts the payload behind an intact header |
| `Framing.MsgWriter.constructor` | valuerpc/rpc.go:66-73 | nothing written, no buffer retained |
| `Framing.MsgWriter.WriteFrame` | valuerpc/rpc.go:121-160 | after every history of writes without a failure the wire is exactly the frames of the payloads written, whatever the reused buffer held; a failing write leaves the bytes the connection took; no buffer above 64 KiB is retained; nothing is written after shutdown |
| `Framing.MsgWriter.Close` | valuerpc/rpc.go:178-181 | shuts the writer down and changes nothing on the wire |
| `Framing.MsgReader.constructor` | valuerpc/rpc.go:66-73 | the limit is the one given at construction, for good |
| `Framing.MsgReader.Take` | valuerpc/rpc.go:100-102 | reads exactly k bytes, or reports EOF if none were left and an unexpected EOF otherwise |
| `Framing.MsgReader.ReadMessage` | valuerpc/rpc.go:98-119 | the outcome and the rest of the stream for one frame, with the size limit |
| `Framing.FirstFrameReads` | valuerpc/rpc.go:98-119 | reading inverts writing at the head of any stream |
| `Framing.RoundTripsExactlyWhenFits` | valuerpc/rpc.go:103-106 | a frame round-trips if and only if its length is below 2^32 and within the limit |
| `Framing.CutFrameFails` | valuerpc/rpc.go:100-110 | a cut frame yields no message; EOF if nothing or just the header is left, else an unexpected EOF |
| `Framing.PrefixYieldsCompleteFrames` | valuerpc/rpc.go:98-160 | reading any prefix of a stream of frames yields exactly the payloads of its complete frames, in order, and then the right error |
| `Framing.FailedWriteYieldsEarlierFrames` | valuerpc/rpc.go:158-159 | after a write that failed part way a reader gets exactly the payloads written before |
| `Framing.BackInStepExactlyWhenAligned` | valueserver/serving_client.go:268-273 | when writing goes on behind a failed write: what the next read returns, and that the reader is in step at a later frame if and only if the frames before it make up what the claimed length still wanted |
| `Framing.BrokenFrameSwallowsTheNext` | valuerpc/rpc.go:158-159 | a frame broken behind its header and the next one read as a message that was never written |

## Left out

- Sequential method bodies for closeResult, TryGetClose, TryPutClose, notifyResult, newServingRequest, deleteRequest, sendRequest, Reconnect, Run and Close: they are modelled as sequences of atomic steps, not as methods of a class.
- QUIC transport: it closes write halves that the credit protocol still needs, so the stream theorems do not carry over to it.
- TCP, Unix, TLS, WebSocket and in-memory transports, deadlines and I/O errors: channels are reliable FIFO sequences of messages.
- MessagePack encoding: payloads are opaque.
- SHA-256, hex and random seeds: the hash is any function on digests, and a token is what decoding makes of it.
- Timers, contexts, authentication, logging and metrics other than RequestEnd: parameters, or steps that may happen at any time.
- Retry, Timeout, Fallback, Bulkhead and reconnect backoff: loops and wrappers around one call, by attempt count, deadline, default value, semaphore and delay.
- Options, typed codecs and interceptor chains: they set fields, convert values and compose functions.
- Integer and floating-point widths: `int64` counters do not wrap and `float64` rounding is not modelled; the length field of a frame is.
- Streams across cancel or a broken connection: the stream theorems are about one connection on which neither side tears the stream down, ChatUpstream about the end of a chat's output; a `StreamEnd` that carries a value occurs only after that and is not modelled.
- The values of a chat's other direction: ChatUpstream has its end only.
- Blocking of the bounded send queues of a connection: sending is a step that always succeeds.
- CreditGates.CreditGate.TryAcquire: models one pass of the wait loop of Acquire; going back to sleep is the `Blocked` outcome.
- StreamPumps.Grow: the capacity Go chooses for a grown slice is any larger one.
- StreamTheorems.RunsAreFinite: gives finiteness and an enabled step, not a bound on time; fairness of the Go scheduler is not modelled.
- Registration.RegistrationPrecedesData: credit is present or absent, not counted.
- HalfClose.FinishedRequestIsRemoved: a Close whose caller leaves the map entry alone is modelled, so no claim is made that every Close removes it; stopping the pump inside Close is not a step of its own.
- StreamLimits.OpenStreamsStayBounded: handlers at the same point of the code are counted, not named.
- Shutdown.CloseUnblocksHandlers: the closing of the serving clients is one step without effect on connections.
- Correlation.MessagesAreRoutedRight: an open for a stream the server already serves goes to that stream, as the server's order of lookups has it.
- SessionResumption.AcceptedExactlyWithinWindow: a handshake under this client's principal with a token outside its chain is not among the steps.
- Reconnects.OutcomeOfReconnect: failing a request is one step (its own steps are those of UnaryCompletion and HalfClose); closing of the replaced connection and the reset by a client's Close are not modelled.
