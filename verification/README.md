# MiniPunch: reliable direct channel and relay hub

A Dafny model of three parts of MiniPunch, with proofs of what they guarantee over whole runs.

**The direct channel** (`crates/minipunch-agent/src/direct.rs`) is a small reliable transport over
UDP. Each end is sender and receiver at once.

- `Ranges`, `Scoreboard`, `ScoreboardHistory`: selective acknowledgements as canonical interval lists.
- `Congestion`, `WindowLaws`, `RetransmitTimer`: the window and the retransmission timeout, over the reals.
- `Reorder`: the receiver's buffer and the report it makes of it.
- `LossRecovery`: which packet to send again.
- `AckHandling`, `AckProperties`, `DuplicateAcks`, `RecoveryEpisode`: what acknowledgements do to the
  sender, one by one, in runs of duplicates and over an episode of fast recovery. `RecoveryRun` has a
  whole run in which such an episode is disturbed.
- `Endpoint`: each arm of the bridge loop as one step of an endpoint; `Bridge` is the code of those
  arms over the mutable parts, proved to perform exactly these steps.
- `Channel`, `ChannelInvariant`, `ChannelSteps`, `ChannelReceipts`: two endpoints and a network. A
  message once sent may arrive at any time, any number of times, or never, but cannot be forged. One
  invariant ties sender queue, scoreboard, acknowledgements in flight and receiver buffer together.
- `ChannelTheorems`, `ChannelBudget`, `ChannelAbandon`, `TimerLaws`: what every run guarantees.
- `ChannelProgress`, `ChannelRevival`, `ChannelExhaustion`: how a channel can go on, from messages
  already sent or, when all of those are lost, by its timers, and exactly when it cannot.

**The cipher counters** (`crates/minipunch-core/src/crypto.rs`) are in `SecureChannel`. The AEAD of
section 2.8 of RFC 8439 is ideal: a packet opens under exactly the key, nonce and associated data it
was sealed with.

**The relay hub** (`crates/minipunch-server/src/relay.rs`): `RelayModel` has the tables and one function
per step, `RelayService` the object that updates its tables in place and is proved to perform these
functions; `RelayInvariant`, `RelaySteps`, `RelayChannels`, `RelayOpen`,
`RelayTheorems`, `RelayPreference`, `RelayCleanUp`, `RelayHistory`, `RelayOrder`, `RelayNotices` and
`RelayDelivery` prove what
every run guarantees. The history records every socket that came or went, every channel opened,
confirmed or removed, and every message handed to a socket.

Where the code does less than one might expect, the model follows the code: slow start may overshoot
its threshold (`SlowStartOvershoot` says exactly when), a second fast retransmit may move the mark and
the threshold of a recovery in force (`AckKeepsEpisode` says exactly when), a saturating counter would
reuse a nonce (`NonceReuse` says exactly when), the peer's close makes an end abandon what the peer has
not written (`AbandonsNothingIfWritten` says exactly what), and the clean-up of a failed offer may
remove another source's channel (`CleanUpTakesItsOwn` says exactly when).

## Model

| member | source | states |
|---|---|---|
| `ChannelReceipts.StepKeepsPaired` | crates/minipunch-agent/src/direct.rs:2073-2368 | Every step of one end (read, end of stream, timer, or any message the other end ever sent arriving in any order and any number of times) keeps both directions linked: queue, scoreboard, acknowledgements in flight, reorder buffer, cipher counters and close handshake. |
| `ChannelTheorems.DeliveredIsPrefixOfRead` | crates/minipunch-agent/src/direct.rs:2207-2232 | In every reachable channel what one end has written is a prefix of what the other end has read: in order, each chunk once, unaltered. |
| `ChannelTheorems.NothingIsLost` | crates/minipunch-agent/src/direct.rs:2746-2784 | Every chunk read is still queued, or written, or buffered by the peer; the one the peer waits for is always still in the queue, although selectively acknowledged data is discarded for good. |
| `ChannelTheorems.HighestAckIsFront` | crates/minipunch-agent/src/direct.rs:2746-2866 | Acknowledgements processed in any order and with repetitions: the highest cumulative one is the end of the stream or the front of the queue; the queue is empty exactly when all is acknowledged, and then fast recovery is over. |
| `ChannelTheorems.CloseMeansDelivered` | crates/minipunch-agent/src/direct.rs:2398-2420 | From the moment an end has sent a close, its stream has ended and the peer has written all of it. |
| `ChannelTheorems.CloseIsNeverEarly` | crates/minipunch-agent/src/direct.rs:2318-2345 | A close that arrives never names a sequence beyond the receiver's, so the branch that only re-acknowledges is unreachable and a running receiver leaves. |
| `ChannelTheorems.EarlyCloseIsAnswered` | crates/minipunch-agent/src/direct.rs:2323-2332 | Should one come early all the same, it would be answered by the present report and change nothing else. |
| `ChannelTheorems.CloseAckIsNeverStray` | crates/minipunch-agent/src/direct.rs:2346-2356 | A close confirmation that arrives at a running end is always for its close, so it leaves. |
| `ChannelTheorems.OrderlyExits` | crates/minipunch-agent/src/direct.rs:2318-2356 | Leaving by a confirmation means the peer wrote everything; leaving by the peer's close means everything the peer read was written; two closes mean both directions are complete. |
| `ChannelAbandon.PeerCloseAbandonsOwnData` | crates/minipunch-agent/src/direct.rs:2334-2344 | A concrete reachable run after which both ends have left in an orderly way although a chunk that was read is never written: the end that receives a close abandons its own queue. |
| `ChannelAbandon.AbandonsNothingIfWritten` | crates/minipunch-agent/src/direct.rs:2334-2344 | Everything an end read was written by the peer if and only if every packet it still has queued was: exactly then a close that ends it loses nothing. |
| `ChannelAbandon.EmptyQueueAbandonsNothing` | crates/minipunch-agent/src/direct.rs:2334-2344 | With an empty queue nothing is lost. |
| `ChannelAbandon.QueuedIsNotAlwaysLost` | crates/minipunch-agent/src/direct.rs:2334-2344 | A reachable run in which an end leaves with a packet still queued and nothing is lost, because only the acknowledgement was. |
| `ChannelProgress.OrderlyFinishIsPossible` | crates/minipunch-agent/src/direct.rs:2207-2368 | No deadlock: from every reachable channel with both ends running, some continuation of arrivals and ends of streams alone (no reads, no timer) ends with everything read written on both sides and both ends gone in an orderly way. It may use messages sent long ago. |
| `ChannelRevival.RevivalIsPossible` | crates/minipunch-agent/src/direct.rs:2117-2159 | After everything sent so far is lost, from any moment on: if the attempts left suffice, timers, new messages and ends of streams, at times that never run backwards, bring the channel to an orderly finish in which everything read is written. |
| `ChannelRevival.RevivalWhileAttemptsLast` | crates/minipunch-agent/src/direct.rs:2117-2159 | In particular while no queued packet and no close has used up its twenty attempts. |
| `ChannelRevival.Round` | crates/minipunch-agent/src/direct.rs:2117-2159 | One round: at the moment a packet is due first the timer sends it again; the answer takes the front off the queue, and what is then at the head, if anything, is a packet the peer lacks. The packet is the front, or the peer has the front. |
| `ChannelExhaustion.RevivalNeedsAttempts` | crates/minipunch-agent/src/direct.rs:2375-2396 | Conversely such a finish, with timers at any moments whatever, needs an attempt left for every packet the peer lacks; for some packet that can be due before all those ahead of it, in each queue that has to move; and for a close sent before. |
| `ChannelExhaustion.RevivableExactlyWhen` | crates/minipunch-agent/src/direct.rs:2117-2159 | Both together: the exact condition, on attempts and times of the queued packets, under which the lost channel can finish from a given moment on. The front of a queue may have used up its attempts. |
| `ChannelProgress.Deliver` | crates/minipunch-agent/src/direct.rs:2213-2250 | From packets already sent, everything read at one end can be delivered to the other without touching the sending halves. |
| `ChannelProgress.Drain` | crates/minipunch-agent/src/direct.rs:2251-2287 | The queue of an end can be emptied by the packets and answers of the two ends alone. |
| `ChannelProgress.StepKeepsCloseStarted` | crates/minipunch-agent/src/direct.rs:2398-2420 | A stream that has ended with nothing outstanding has always sent its close, whichever step emptied the queue. |
| `ChannelTheorems.DecryptionNeverFails` | crates/minipunch-core/src/crypto.rs:224-264 | In every reachable channel the sending counter is the number of chunks read, the receiving counter the number written, and every packet that arrives is processed without a decryption failure. |
| `ChannelTheorems.ResendsRepeatTheCiphertext` | crates/minipunch-agent/src/direct.rs:2089-2105 | Two packets of one end carry the same nonce exactly when they carry the same sequence, and then the same ciphertext. |
| `ChannelTheorems.NoNonceSharedBetweenEnds` | crates/minipunch-core/src/crypto.rs:278-306 | No packet of one end carries the nonce of a packet of the other. |
| `ChannelTheorems.BuffersAreBounded` | crates/minipunch-agent/src/direct.rs:2552-2586 | At most 32 packets are queued and 64 buffered, buffered keys lie in the window above the expected one, the capacity test can never reject, and the ends are at most 96 sequences apart. |
| `ChannelTheorems.WindowAndTimerAreBounded` | crates/minipunch-agent/src/direct.rs:171-251 | Window, threshold and retransmission timeout stay within their limits in every run. |
| `ChannelTheorems.SendsAreBounded` | crates/minipunch-agent/src/direct.rs:2375-2396 | No chunk and no close is sent more than twenty times, and all data sends together are at most twenty times the chunks read. |
| `ChannelBudget.TickPays` | crates/minipunch-agent/src/direct.rs:2117-2159 | A timer step that finds something due strictly lowers the sum of remaining attempts, or ends the channel. |
| `ChannelBudget.StepPays` | crates/minipunch-agent/src/direct.rs:2073-2368 | Reading a chunk adds twenty attempts (unless its number overflows, which ends the channel); no other step adds any, and every send spends one. |
| `ChannelBudget.SendsWithinBudget` | crates/minipunch-agent/src/direct.rs:2422-2443 | Over any stretch of a run without reads an end sends no more than the attempts it had left. |
| `TimerLaws.ReadsFitTheWindow` | crates/minipunch-agent/src/direct.rs:2075 | A chunk may be read exactly while the endpoint runs, its stream is open, no close was started and one more packet fits the window. |
| `TimerLaws.ReadStaysInWindow` | crates/minipunch-agent/src/direct.rs:2075-2106 | In every reachable channel, reading never makes more packets outstanding than the window of that moment. |
| `TimerLaws.TimerStep` | crates/minipunch-agent/src/direct.rs:2117-2159 | A timer that finds a packet due leaves a window of two, half of the packets queued as threshold, and twice the timeout up to two seconds; with only the close due, twice the timeout; with nothing due, everything as it was. |
| `TimerLaws.SendingStartsClock` | crates/minipunch-agent/src/direct.rs:2375-2396 | Whatever step sends a packet, for the first time or again, restarts that packet's clock. |
| `TimerLaws.SendingStartsCloseClock` | crates/minipunch-agent/src/direct.rs:2398-2443 | And whatever step sends the close restarts the close's. |
| `TimerLaws.JustSentIsNotDue` | crates/minipunch-agent/src/direct.rs:2139-2148 | Nothing just sent is due again before the timeout then in force has passed. |
| `TimerLaws.TimerSendsAreApart` | crates/minipunch-agent/src/direct.rs:2117-2138 | Over a run, whenever the timer sends a packet that was sent before, at least the timeout in force, and so 120 ms, has passed since that send, whatever happened in between. |
| `TimerLaws.TimerClosesAreApart` | crates/minipunch-agent/src/direct.rs:2139-2149 | The same for the close. |
| `Bridge.DirectBridge.SendAgain` | crates/minipunch-agent/src/direct.rs:2375-2396 | Sends a data packet again or gives the channel up after twenty attempts; the whole state is that of the endpoint's step. |
| `Bridge.DirectBridge.SendCloseAgain` | crates/minipunch-agent/src/direct.rs:2422-2443 | Sends a close again or gives the channel up after twenty attempts; the whole state is that of the endpoint's step. |
| `Bridge.DirectBridge.StartCloseIfDone` | crates/minipunch-agent/src/direct.rs:2398-2420 | A stream that has ended with nothing outstanding has a close afterwards; a close is started only together with sending it under the next sequence, and never replaced. |
| `Bridge.DirectBridge.HandleRead` | crates/minipunch-agent/src/direct.rs:2088-2106 | The read arm performs the endpoint's read step for every state; an overflow of the sequence number ends the endpoint. |
| `Bridge.DirectBridge.HandleEof` | crates/minipunch-agent/src/direct.rs:2077-2087 | The end-of-stream arm performs the endpoint's step, and the close has been started if nothing is outstanding. |
| `Bridge.DirectBridge.ResendTimedOut` | crates/minipunch-agent/src/direct.rs:2121-2138 | The packet looked up by sequence after loss-recovery selection is the first timed-out one of the queue. |
| `Bridge.DirectBridge.HandleTick` | crates/minipunch-agent/src/direct.rs:2117-2159 | The timer arm performs the endpoint's timer step, including which of window and timeout change. |
| `Bridge.DirectBridge.HandleAck` | crates/minipunch-agent/src/direct.rs:2251-2287 | The acknowledgement arm, with the resend it may ask for and the close it may start, performs the endpoint's step. |
| `Bridge.DirectBridge.SendAck` | crates/minipunch-agent/src/direct.rs:2234-2240 | The acknowledgement sent is the expected sequence with the first eight runs of the reorder buffer. |
| `Bridge.DirectBridge.OpenAndWrite` | crates/minipunch-agent/src/direct.rs:2224-2232 | Released payloads are opened and written one by one up to the first that does not open. |
| `Bridge.DirectBridge.HandleData` | crates/minipunch-agent/src/direct.rs:2213-2240 | The data arm performs the endpoint's step for every sequence; an overflow of the expected number ends the endpoint. |
| `Bridge.DirectBridge.HandleClose` | crates/minipunch-agent/src/direct.rs:2318-2345 | The close arm performs the endpoint's step. |
| `Bridge.DirectBridge.HandleCloseAck` | crates/minipunch-agent/src/direct.rs:2346-2356 | The confirmation arm performs the endpoint's step: nothing without a close of its own, and leaving at the latest when its own final sequence is confirmed. |
| `AckHandling.DirectSender.HandleAck` | crates/minipunch-agent/src/direct.rs:2735-2866 | The in-place acknowledgement handler (pops, index-wise removals, window, estimator, duplicate tracker) computes one function of the old state: new queue, scoreboard, window, timeout, tracker and the sequence to resend. |
| `AckHandling.DirectSender.Acknowledge` | crates/minipunch-agent/src/direct.rs:2746-2784 | Scoreboard, queue, acknowledged count (the exact length difference), new evidence and round-trip sample of one acknowledgement. |
| `AckHandling.DirectSender.PopAcknowledged` | crates/minipunch-agent/src/direct.rs:2746-2761 | Popping the front removes exactly the entries below the cumulative acknowledgement; the sample is the last such entry sent once. |
| `AckHandling.DirectSender.RemoveSelectivelyAcknowledged` | crates/minipunch-agent/src/direct.rs:2766-2784 | Removes exactly the entries in the scoreboard, keeping order. |
| `AckHandling.DirectSender.SelectivePositions` | crates/minipunch-agent/src/direct.rs:2766-2779 | Collects exactly the positions of the scoreboard's entries, in order. |
| `AckHandling.DirectSender.RemovePositions` | crates/minipunch-agent/src/direct.rs:2780-2784 | Removing collected positions from the last to the first leaves exactly the other entries. |
| `AckHandling.DirectSender.Progress` | crates/minipunch-agent/src/direct.rs:2786-2807 | What an acknowledgement that freed packets does to window, estimator and timeout. |
| `AckHandling.DirectSender.CountDuplicate` | crates/minipunch-agent/src/direct.rs:2837-2865 | The duplicate rule as a function of the noted state. |
| `AckProperties.QueueIsFiltered` | crates/minipunch-agent/src/direct.rs:2746-2784 | The queue afterwards is the old one filtered to entries at or above the acknowledgement and outside the updated scoreboard, in order. |
| `AckProperties.ResendIsOutstanding` | crates/minipunch-agent/src/direct.rs:2797-2865 | A sequence returned for resending is in the new queue, at or above the acknowledgement and not selectively acknowledged. |
| `AckProperties.SampleFromPacketSentOnce` | crates/minipunch-agent/src/direct.rs:2746-2791 | A round-trip sample comes from a packet sent once only that this acknowledgement freed. |
| `AckProperties.LatestPacketIsMeasured` | crates/minipunch-agent/src/direct.rs:2749-2791 | By positions in the queue: estimate and timeout follow from the latest packet below the acknowledgement that was sent once; if there is none, from the first packet newly reported received that was sent once; with neither they stand. |
| `AckProperties.LatestOfTwo` | crates/minipunch-agent/src/direct.rs:2756-2758 | Packets sent at 0 and 100 ms, acknowledged together at 200 ms as the first sample, give a timeout of 200 ms. |
| `AckProperties.ProgressStartsCountAfresh` | crates/minipunch-agent/src/direct.rs:2811-2824 | An acknowledgement that frees the front, or does not ask for what is then the front, starts the count of duplicates afresh and remembers what it had sent again, which outside recovery is nothing. |
| `AckProperties.RecoveryAfterAck` | crates/minipunch-agent/src/direct.rs:178-224 | An acknowledgement leaves fast recovery in force only towards a mark not yet acknowledged or not beyond the last queued packet. |
| `AckProperties.BoundsKept` | crates/minipunch-agent/src/direct.rs:2735-2866 | Window and timeout limits survive any acknowledgement. |
| `DuplicateAcks.DuplicatesResendEachHoleOnce` | crates/minipunch-agent/src/direct.rs:2826-2865 | In a run of plain duplicates of any length, the k-th asks for a resend exactly when k is three times some i up to the number of holes, and then for the i-th hole: each hole once, in order, nothing else; the first is left out if it has just been resent. |
| `Scoreboard.SelectiveAckScoreboard.AdvanceCumulativeAck` | crates/minipunch-agent/src/direct.rs:79-93 | Keeps exactly the covered sequences at or above the acknowledgement, in canonical form. |
| `Scoreboard.SelectiveAckScoreboard.ObserveRanges` | crates/minipunch-agent/src/direct.rs:95-128 | The list becomes the canonical form of the union and the result is exactly the number of newly covered sequences. |
| `Scoreboard.SelectiveAckScoreboard.Contains` | crates/minipunch-agent/src/direct.rs:130-136 | True exactly on covered sequences. |
| `Scoreboard.SelectiveAckScoreboard.HighestSequence` | crates/minipunch-agent/src/direct.rs:138-141 | The largest covered sequence, absent exactly when nothing is covered. |
| `Scoreboard.MergeSorted` | crates/minipunch-agent/src/direct.rs:112-123 | Merging sorted ranges gives a sorted, disjoint, non-adjacent list with the same coverage. |
| `Ranges.CanonicalUnique` | crates/minipunch-agent/src/direct.rs:112-123 | A set of sequences has exactly one canonical list. |
| `Ranges.CountIsCardinality` | crates/minipunch-agent/src/direct.rs:2642-2652 | On a canonical list the fold counts each covered sequence once and never saturates. |
| `ScoreboardHistory.OrderAndRepetitionIrrelevant` | crates/minipunch-agent/src/direct.rs:95-128 | Two histories that reported the same sequences, whatever the order, batching or repetition, end in the identical list. |
| `ScoreboardHistory.ReportIsAFixedPoint` | crates/minipunch-agent/src/direct.rs:2588-2621 | What the receiver reports, fed to an empty scoreboard, is recorded as the same list. |
| `Congestion.SendWindowSize` | crates/minipunch-agent/src/direct.rs:171-176 | Between 2 and 32 packets, and the whole part of the window. |
| `Congestion.CongestionController.OnAckProgress` | crates/minipunch-agent/src/direct.rs:178-207 | Growth, leaving recovery and the partial-acknowledgement resend, as one function of the old window; limits kept. |
| `Congestion.CongestionController.OnDuplicateAck` | crates/minipunch-agent/src/direct.rs:209-213 | Inflation during recovery only; limits kept. |
| `Congestion.CongestionController.OnFastRetransmit` | crates/minipunch-agent/src/direct.rs:215-224 | Halving by packets in flight and the recovery mark; limits kept. |
| `Congestion.CongestionController.OnTimeout` | crates/minipunch-agent/src/direct.rs:226-237 | Collapse to the smallest window; limits kept. |
| `Congestion.CongestionController.GrowWindow` | crates/minipunch-agent/src/direct.rs:239-251 | The growth loop computes slow start or that many rounds of congestion avoidance. |
| `Congestion.AvoidanceGrowth` | crates/minipunch-agent/src/direct.rs:243-247 | k acknowledgements in congestion avoidance take c to c' with c²+2k ≤ c'² ≤ c²+2k+k/c², and c' ≤ c+k/c. |
| `Congestion.OnePacketPerWindow` | crates/minipunch-agent/src/direct.rs:243-247 | A window of acknowledgements gains at most one packet, as section 3.1 of RFC 5681 intends. |
| `WindowLaws.AckGrowsWindow` | crates/minipunch-agent/src/direct.rs:239-251 | An acknowledgement outside recovery that starts none and frees k packets: in slow start the window c becomes min(32, c+k); in congestion avoidance c' has min(32², c²+2k) ≤ c'² ≤ c²+2k+k/c², and c' ≤ c+1 if k ≤ c; the threshold stands. Freeing nothing changes nothing. |
| `WindowLaws.AckInflatesWindow` | crates/minipunch-agent/src/direct.rs:189-213 | Inside recovery, short of its end and of a restart: freed packets set the window one above the threshold, a duplicate adds one, both up to 32. |
| `WindowLaws.RestartedWindow` | crates/minipunch-agent/src/direct.rs:215-237 | A fast retransmit sets the threshold to half of the packets queued, within the limits, the window three above it, and the mark past the last packet. |
| `Congestion.SlowStartOvershoot` | crates/minipunch-agent/src/direct.rs:240-241 | Slow start stays at or below the threshold if and only if the acknowledged packets fit below it or the threshold is the largest window; otherwise it overshoots. |
| `Congestion.SlowStartCanOvershoot` | crates/minipunch-agent/src/direct.rs:240-241 | An input that overshoots: after a timeout with ten packets in flight, four acknowledgements take the window to 6 against a threshold of 5. |
| `RecoveryEpisode.AckKeepsEpisode` | crates/minipunch-agent/src/direct.rs:2797-2864 | An acknowledgement inside recovery keeps mark and threshold if and only if it neither frees packets at the mark nor starts a fast retransmit (front asked for, nothing freed below the mark, at least three duplicates, a packet not resent last), or starts one for a queue that gives the same two values. |
| `RecoveryEpisode.StepKeepsEpisode` | crates/minipunch-agent/src/direct.rs:2117-2159 | The same for every step of an endpoint, where the timer counts too: it ends the episode exactly when it resends a packet and the channel survives. |
| `RecoveryEpisode.EpisodeLasts` | crates/minipunch-agent/src/direct.rs:178-224 | Over any stretch of steps none of which is such a disturbance, recovery keeps the mark and threshold of its fast retransmit, and the window stays a packet above the threshold or at the maximum. |
| `RecoveryEpisode.RecoveryHalves` | crates/minipunch-agent/src/direct.rs:178-237 | The acknowledgement that ends an undisturbed episode leaves half of what was queued at its start, within the limits, as window and threshold. |
| `RecoveryEpisode.SecondRetransmitMovesTheMark` | crates/minipunch-agent/src/direct.rs:2855-2862 | An episode that is disturbed: two of eight packets lost, the others reported in two acknowledgements of which the second arrives twice; the copy moves the mark from 12 to 6 and the threshold from 2.5 to 2. |
| `RecoveryRun.MarkMovesInARun` | crates/minipunch-agent/src/direct.rs:2855-2862 | The same in a whole run from the opening of the channel: twelve chunks read, all but two of the last eight delivered and reported, and one report arriving twice. |
| `RetransmitTimer.SteadyTimeouts` | crates/minipunch-agent/src/direct.rs:2530-2548 | On constant samples the first timeout is twice the sample (not three times it, as section 2 of RFC 6298 has it) and later ones approach the sample, the margin losing a quarter each time. |
| `RetransmitTimer.SmoothedApproaches` | crates/minipunch-agent/src/direct.rs:2532-2533 | After a change of the round-trip time an eighth of the remaining error is made good by each sample. |
| `RetransmitTimer.VariationFollows` | crates/minipunch-agent/src/direct.rs:2532 | After a change of the round-trip time by d the variation is (3/4)ⁿ of the old one plus 2d((7/8)ⁿ − (3/4)ⁿ). |
| `RetransmitTimer.TimeoutDoubles` | crates/minipunch-agent/src/direct.rs:2152-2158 | n resends with nothing acknowledged multiply the timeout by 2ⁿ, up to two seconds. |
| `RetransmitTimer.RttEstimator.Update` | crates/minipunch-agent/src/direct.rs:2524-2550 | The in-place update computes the estimator's step; the timeout lies between 120 ms and 2 s. |
| `RetransmitTimer.EstimateStaysWithinSamples` | crates/minipunch-agent/src/direct.rs:2530-2543 | Over any sample sequence the smoothed value stays between the smallest and largest sample, and the variation between 0 and the larger of half the first sample and the samples' spread. |
| `RetransmitTimer.Backoff` | crates/minipunch-agent/src/direct.rs:2152-2158 | Backing off at most doubles, never leaves the limits, and stops changing exactly at the largest timeout. |
| `Reorder.ReorderBuffer.Queue` | crates/minipunch-agent/src/direct.rs:2552-2586 | The in-place insertion, for every sequence: what is released, what stays buffered and what is expected next, or an overflow exactly when that would pass the last 64-bit number, with the buffer it leaves. |
| `Reorder.ReorderBuffer.Release` | crates/minipunch-agent/src/direct.rs:2568-2575 | The release loop: the expected payload and all that follow without a gap, or the overflow. |
| `Reorder.QueuedKeepsWindow` | crates/minipunch-agent/src/direct.rs:2558-2585 | Buffered keys stay strictly above the expected sequence and within the window, and that sequence never falls. |
| `Reorder.CapacityNeverRejects` | crates/minipunch-agent/src/direct.rs:2576-2578 | By counting, a new sequence within the window always finds room. |
| `Reorder.KeysInOrder` | crates/minipunch-agent/src/direct.rs:2588-2593 | The buffered keys, each once, in increasing order. |
| `Reorder.SelectiveAckRanges` | crates/minipunch-agent/src/direct.rs:2588-2621 | The run-building loop yields exactly the first eight maximal runs of the keys. |
| `Reorder.SackRangesReport` | crates/minipunch-agent/src/direct.rs:2588-2621 | The report is canonical, at most eight ranges, sound, downward complete, and complete exactly when there are at most eight runs. |
| `LossRecovery.HolesArePrefix` | crates/minipunch-agent/src/direct.rs:2654-2666 | On a sorted queue the holes are a prefix of it. |
| `LossRecovery.TimeoutPicksFirst` | crates/minipunch-agent/src/direct.rs:2682-2700 | The timeout trigger equals the plain scan for the first timed-out packet. |
| `LossRecovery.ProgressPicksFront` | crates/minipunch-agent/src/direct.rs:2714-2718 | The recovery-progress trigger always yields the front of the queue. |
| `LossRecovery.BudgetPicksHole` | crates/minipunch-agent/src/direct.rs:2701-2713 | The duplicate budget yields entry min(slots, holes)−1 of the queue, or the fallback when there is no hole. |
| `SecureChannel.SecureSender.Encrypt` | crates/minipunch-core/src/crypto.rs:224-240 | Seals under the nonce of the current counter and advances it once, stopping at the last 64-bit number. |
| `SecureChannel.SecureReceiver.Decrypt` | crates/minipunch-core/src/crypto.rs:249-264 | Opens under the nonce of its own counter and advances it whether or not that succeeds. |
| `SecureChannel.PairsMatch` | crates/minipunch-core/src/crypto.rs:266-299 | The two roles' directions pair up crosswise and use different prefixes. |
| `SecureChannel.BuildNonceInjective` | crates/minipunch-core/src/crypto.rs:301-306 | Nonces of equally long prefixes agree only when prefix and counter agree. |
| `SecureChannel.NonceReuse` | crates/minipunch-core/src/crypto.rs:226-227 | A sender's i-th and j-th nonces coincide if and only if the counter has reached its last value by the i-th: a saturating counter reuses nonces from there on. |
| `SecureChannel.OpensOnlyInStep` | crates/minipunch-core/src/crypto.rs:250-263 | A packet opens exactly when the receiver's counter is the one it was sealed under. |
| `SecureChannel.OnlyTheOtherEndOpens` | crates/minipunch-core/src/crypto.rs:266-299 | What one end seals, exactly the other end of the channel with the same secret and id opens, at the same count. |
| `RelayTheorems.StepKeepsInv` | crates/minipunch-server/src/relay.rs:67-541 | Every hub step, open requests also when their rounds are interleaved with anything else, keeps tables, preference index, channel ends and history consistent and only ever raises preferences. |
| `RelayTheorems.ChannelsJoinLiveSockets` | crates/minipunch-server/src/relay.rs:95-142 | Both ends of every channel are sockets that are up; a disconnected one occurs in no table. |
| `RelayTheorems.DataIsIsolated` | crates/minipunch-server/src/relay.rs:399-446 | Channel data handed to a socket comes from the opposite end of the channel open under that id, after its target accepted it and with nothing that ends the channel in between. |
| `RelayOrder.DataKeepsItsOrder` | crates/minipunch-server/src/relay.rs:399-446 | Over a whole run the data handed out is exactly the data submitted on accepted channels whose other end is in the table: in the order of submission, each item once and unaltered, to that other end. |
| `RelayOrder.StepIsQuiet` | crates/minipunch-server/src/relay.rs:67-541 | No step but the forwarding of data hands channel data to anyone. |
| `RelayNotices.StepSaysExactly` | crates/minipunch-server/src/relay.rs:336-486 | Over a run, what an acceptance, a rejection, forwarded data, a close, a disconnection, a refusal or a ping adds to the history and to the channel table, exactly: an acceptance or rejection by the target is passed to the source; a close by an end removes the channel and is passed with its reason to the other end; a refused open request and a ping are answered; a reset clears the table; each once, and only if the table knows the socket. |
| `RelayNotices.ResetForgetsAll` | crates/minipunch-server/src/relay.rs:144-149 | A reset forgets every connection, channel and preference; sockets stay up and numbers go on. |
| `RelayNotices.DisconnectSays` | crates/minipunch-server/src/relay.rs:99-142 | A disconnection removes each channel of the socket and tells its other end "peer disconnected", once per channel, and nothing else. |
| `RelayTheorems.NoDataAfterClose` | crates/minipunch-server/src/relay.rs:448-486 | In the order in which the hub looks sockets up: after a close on an id, to anyone, no data on that id until it is opened again. |
| `RelayHistory.StepSpeaks` | crates/minipunch-server/src/relay.rs:95-142 | Whatever data or close a step hands out goes from the socket on whose behalf it is taken to the opposite end of a channel open before the step. |
| `RelayDelivery.SessionKeepsItsOrder` | crates/minipunch-server/src/relay.rs:431-445 | Sends happen after the lock is released, so messages may be sent in another order than they were looked up. In every such order that keeps the order of each socket's own handlers, data and closes to one socket on one id keep their order unless the id was opened anew in between. |
| `RelayDelivery.NoDataAfterItsClose` | crates/minipunch-server/src/relay.rs:483-485 | So a close and later data sent to a socket on one id always belong to different openings of that id. |
| `RelayTheorems.NothingAfterDisconnect` | crates/minipunch-server/src/relay.rs:544-554 | No lookup finds a socket that went away, so nothing is handed to it from then on. |
| `RelayTheorems.OpenNeverOverwrites` | crates/minipunch-server/src/relay.rs:263-313 | An id is opened again only after its channel was removed. |
| `RelayTheorems.PreferenceAgreesWithTable` | crates/minipunch-server/src/relay.rs:562-590 | A preferred connection is registered, never stated a preference and never opened a channel. |
| `RelayTheorems.PreferenceOnlyMovesForward` | crates/minipunch-server/src/relay.rs:654-704 | A device's later preferred connection, even after a gap, is the same one or was registered after it: an older idle socket is never promoted. |
| `RelayPreference.SuccessorOrNone` | crates/minipunch-server/src/relay.rs:689-703 | Among the open idle legacy connections registered after a given one there is always a newest, unless there are none. |
| `RelayPreference.RemovalPrefersSuccessor` | crates/minipunch-server/src/relay.rs:624-652 | When the preferred connection leaves, the device prefers the newest open idle legacy connection registered after it, or nothing if there is none. |
| `RelayPreference.RemovalKeepsOtherPreference` | crates/minipunch-server/src/relay.rs:624-652 | When another connection leaves, or one of another device, the preference stands. |
| `RelayPreference.DisconnectPrefersSuccessor` | crates/minipunch-server/src/relay.rs:95-142 | The same of a whole disconnection. |
| `RelayPreference.OpeningMarksSource` | crates/minipunch-server/src/relay.rs:516-531 | A connection that opens a channel is marked as having done so and no longer counts as one that did not say what it wants; no other connection changes. |
| `RelayPreference.OpeningPrefersSuccessor` | crates/minipunch-server/src/relay.rs:503-541 | When the preferred connection opens a channel, the newest open idle legacy connection registered after it takes its place, or none. |
| `RelayPreference.OpeningKeepsOtherPreference` | crates/minipunch-server/src/relay.rs:503-541 | When another connection opens one, the preference stands. |
| `RelayPreference.RefreshPrefersSuccessor` | crates/minipunch-server/src/relay.rs:562-590 | When the preferred connection has died, the newest open idle legacy connection registered after it takes its place, or none; while it is open and idle it stays. |
| `RelayPreference.RequestGoesToSuccessor` | crates/minipunch-server/src/relay.rs:592-622 | Without an open explicit connection a request goes to the preferred connection while that is open, then to its successor, which is preferred from then on, and otherwise to nobody. |
| `RelayPreference.OfferGoesToSuccessor` | crates/minipunch-server/src/relay.rs:281-328 | So the round of an open request enters the channel with that successor and tells it. |
| `RelayPreference.RegisteredEntry` | crates/minipunch-server/src/relay.rs:67-93 | A registration adds exactly one connection, under the next number, explicit yes, explicit no or unknown as asked. |
| `RelayPreference.RegisteringLegacyPrefersIt` | crates/minipunch-server/src/relay.rs:654-679 | An open connection that did not say what it wants becomes preferred on registration unless the one preferred before is still open and idle. |
| `RelayPreference.RegisteredExplicitIsOffered` | crates/minipunch-server/src/relay.rs:603-615 | A connection that asked for channels is the one a request is offered to from then on, while it is open and the newest. |
| `RelayPreference.DeclinedIsNeverOffered` | crates/minipunch-server/src/relay.rs:592-622 | A connection that declined channels is never offered one. |
| `RelayTheorems.OpenEndsOneWay` | crates/minipunch-server/src/relay.rs:226-334 | An open request that runs undisturbed ends in exactly one way: one new entry whose target was told, or one refusal with the channels as they were; the choice is the newest open explicit connection before any legacy one. |
| `RelayCleanUp.CleanUpTakesItsOwn` | crates/minipunch-server/src/relay.rs:324-332 | With other steps between a failed offer and its clean-up: the clean-up removes somebody else's channel if and only if the entry it finds names another source, that is, if the id was opened again and is still open; no other channel is touched and nobody is told. |
| `RelayCleanUp.CleanUpMayTakeAnothers` | crates/minipunch-server/src/relay.rs:324-332 | A run in which it does: the target of the failed offer disconnects, another source opens the same id, and the clean-up removes that channel silently. |
| `RelayOpen.OpenLoopEnds` | crates/minipunch-server/src/relay.rs:280-333 | The retry loop's outcome, its trace of failed attempts, and the invariant it keeps. |
| `RelayOpen.PickChoosesRight` | crates/minipunch-server/src/relay.rs:592-622 | The choice is the newest open explicit connection, or else the preferred open idle legacy one; none only if neither exists. |
| `RelayOpen.LoopIsRounds` | crates/minipunch-server/src/relay.rs:280-333 | The loop is its rounds in a row with a clean-up after each failed send, so steps may be interleaved between them. |
| `RelayOpen.OpenRoundKeepsInv` | crates/minipunch-server/src/relay.rs:281-328 | One round keeps everything on its own, whatever happens before the next. |
| `RelayOpen.CleanUpKeepsInv` | crates/minipunch-server/src/relay.rs:330-332 | So does the clean-up after a failed send, whatever happened since the round. |
| `RelayModel.RemovalShrinks` | crates/minipunch-server/src/relay.rs:624-652 | Removing a registered connection lowers the device's connection count, which ends the retry loop. |
| `RelayService.FindNewest` | crates/minipunch-server/src/relay.rs:603-609 | The scan for the largest registration number finds the one newest candidate, or nothing exactly when there is none. |
| `RelayService.RelayHub.RegisterDevice` | crates/minipunch-server/src/relay.rs:67-93 | The tables after a registration, and the preference assigned. |
| `RelayService.RelayHub.DisconnectDevice` | crates/minipunch-server/src/relay.rs:95-142 | The tables after a disconnection, with every channel of the socket removed and its other end told, in some order of exactly the affected channels. |
| `RelayService.RelayHub.Reset` | crates/minipunch-server/src/relay.rs:144-149 | All tables cleared, so that no socket is found any more. |
| `RelayService.RelayHub.NoteConnectionOpenedChannel` | crates/minipunch-server/src/relay.rs:503-541 | Marks the source and gives its preference on. |
| `RelayService.RelayHub.HandleOpenChannel` | crates/minipunch-server/src/relay.rs:226-334 | Marking, authorization and the retry loop compute the model's open step. |
| `RelayService.RelayHub.Withdraw` | crates/minipunch-server/src/relay.rs:330-332 | Takes back an offer that could not be sent, with the connection it was made to. |
| `RelayService.RelayHub.OfferRound` | crates/minipunch-server/src/relay.rs:281-328 | One critical section of the loop with its send, for interleaving with other steps: an existing entry is never changed, and a target is returned exactly when its offer could not be sent. |
| `RelayService.RelayHub.OfferToTarget` | crates/minipunch-server/src/relay.rs:280-333 | The retry loop of rounds and withdrawals ends and computes the model's recursion. |
| `RelayService.RelayHub.HandleChannelAccepted` | crates/minipunch-server/src/relay.rs:336-361 | Only the target's acceptance changes anything, nothing but that entry changes, and only its source is told. |
| `RelayService.RelayHub.HandleChannelRejected` | crates/minipunch-server/src/relay.rs:363-397 | The entry is gone exactly when the target rejected it, no other entry changes, and the source is told. |
| `RelayService.RelayHub.HandlePing` | crates/minipunch-server/src/relay.rs:212-219 | A ping is answered to its sender and changes nothing else. |
| `RelayService.RelayHub.HandleChannelData` | crates/minipunch-server/src/relay.rs:399-446 | The tables stand, and the history grows by at most one item: the data, on an accepted channel, to the end opposite to the sender. |
| `RelayService.RelayHub.HandleChannelClose` | crates/minipunch-server/src/relay.rs:448-486 | The entry is gone exactly when one of its ends closed it, no other entry changes, and the other end is told. |
| `RelayService.RelayHub.PickIncomingConnection` | crates/minipunch-server/src/relay.rs:592-622 | The in-place choice computes the model's choice and refreshed preference. |
| `RelayService.RelayHub.RefreshPreferredLegacyConnection` | crates/minipunch-server/src/relay.rs:562-590 | Keeps, replaces or drops the preference as the model's refresh does. |
| `RelayService.RelayHub.RemoveConnectionEntry` | crates/minipunch-server/src/relay.rs:624-652 | Removes an entry, the device's table when empty, and moves the preference on. |
| `RelayService.RelayHub.MaybeAssignPreferredLegacyConnection` | crates/minipunch-server/src/relay.rs:654-679 | Assigns the preference only when none stands after a refresh. |
| `RelayService.RelayHub.MaybePromoteNewerLegacyConnection` | crates/minipunch-server/src/relay.rs:681-704 | Promotes the newest idle legacy connection that is newer than the one removed. |

## Left out

- RelayService.RelayHub.RegisterDevice: registration numbers are unbounded instead of wrapping at 64 bits.
- RelayService.RelayHub.HandleOpenChannel: one undisturbed call; `RelayTheorems.StepKeepsInv` and the theorems over runs also cover its sections interleaved with other steps.
- RelayService.RelayHub.OfferToTarget: its rounds follow one another without other steps; `OfferRound` and `Withdraw` are its critical sections on their own, and `RelayOpen.OpenRoundKeepsInv`, `RelayOpen.CleanUpKeepsInv` and `RelayCleanUp` cover what may come between.
- RelayTheorems.OpenEndsOneWay: is about an undisturbed open request; what another step can do between its rounds is in `RelayCleanUp`.
- RelayTheorems.NoDataAfterClose: is about the order of lookups; the order of sends is in `RelayDelivery`, where it holds per socket and session.
- RelayTheorems.NothingAfterDisconnect: is about lookups; a message looked up before the disconnection may still be put into the queue of the departed socket, which nobody reads.
- Arithmetic overflow of a sequence number is modelled as the end of the endpoint, as in builds that check it; builds that do not would wrap to zero after 2^64 chunks.
- Sending failures in the relay other than the offer to a target: a closed receiver drops what it is handed.
- The order in which a disconnection finds the affected channels is arbitrary, and each notice is recorded right after its channel's removal instead of after all removals.
- The authorization of an open request and whether a socket's sender is closed are parameters, observed afresh in every step; the message that greets a new socket and the service details in an offer are not modelled.
- Rounding of `f64` arithmetic: windows, times and estimates are reals; instants and durations are milliseconds, one per step. Runs do not order the moments of their steps, so what holds of all runs holds whatever the clocks; the continuations in `ChannelRevival` and `ChannelExhaustion` have one clock that never runs backwards.
- Base64, JSON, UDP and TCP sockets, signatures, key agreement and path probing.
- Keepalives, metrics and the idle timeout. An idle timeout, a socket error or a rejection is one step that ends the endpoint; how far an interrupted step got is not modelled.
- Removing a channel's route after its confirmation, and the synthetic close with final sequence 0 that ends all channels of a lost connection: both end a channel without a completeness promise.
- Completion under a fair network is shown as a possible continuation, not as an eventual certainty: an end gives up after twenty attempts.
- The auto-forward supervisor, the runtime state, the SQLite control plane, the desktop application and the scripts.
