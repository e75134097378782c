# Verification of the tailjump core

This project models the parts of tailjump that carry state through long runs, and proves what they
keep. It is written in Dafny 4.11 and stands alone: `dafny verify dfyconfig.toml` checks all of it.

Four components are modelled.

* **Congestion control.** A growable ring buffer carries the queue of packets in flight; the queue
  carries the bandwidth sampler of BBR; a windowed maximum filter summarises the samples; the BBR
  sender drives the sampler, the filter and a mode machine; a token-bucket pacer meters packets out.
  Brutal is the other sender over the same pacer. The model is of the standard profile, the only one
  the helper and the client install.
* **The session runner.** It holds one transport at a time (a QUIC connection, or one SSH connection
  per protocol), loses it, rebuilds it inside a window, and reverts the host when it ends.
* **The control stream** between client and helper: request lines one way, reply lines the other, and
  the one QUIC listener of the helper.
* **The wire formats** of the mux: flow streams, the control line, the checksum of an echo request.

How the files fit together:

| files | content |
|---|---|
| `RingBuffer`, `PacketQueue`, `WindowedFilter`, `Pacer` | the data structures, each a class proved against a function on sequences, maps or records |
| `SamplerModel`, `Sampler` | what the sampler computes, and the class over the packet queue that computes it |
| `LinkRate`, `SendSlope`, `Conservation`, `AppLimited` | theorems on every run of the sampler |
| `BbrModel`, `BbrSender` | what the sender computes, and the class that computes it |
| `BbrRuns` | runs of the sender: sends, congestion events, datagram size changes in any order |
| `BbrWindows`, `BbrGrowth`, `BbrRate`, `BbrModes`, `BbrProbeRtt`, `BbrRecovery`, `BbrSteps`, `BbrEstimate`, `BbrSamples`, `BbrFilter`, `BbrPacing`, `BbrOutput` | theorems on every run of the sender |
| `Brutal` | the Brutal sender and its bounds |
| `Session`, `Backoff` | the runner and its reconnect |
| `ControlProtocol` | client and helper on the control stream |
| `Frames`, `ControlLine`, `Checksum`, `Streams`, `Bytes` | the wire formats |
| `Arith`, `Wrappers` | arithmetic facts, `Option` and `Result` |

Numbers are unbounded integers unless a type says otherwise. The float gains of BBR and the ack rate
of Brutal are reals that are truncated where the code converts them. What the QUIC library supplies
(packet numbers, times, the minimum of its RTT statistics, its constants) is a parameter; the library
is not part of this model. A random choice, a dial, a bind or a status query is an outcome given to
the call, so each theorem holds for all of them.

Two statements fail in the code. Each is kept with runs that show it and with the exact condition
under which it holds.

* Before full bandwidth the stored rate and the window do not fall, but the pacing rate in effect can.
  While no rate is stored, it is 2.885 times the initial window per RTT, so it follows the RTT, and the
  first rate that is stored need not reach it. `BbrRates.RateFallsExactly` says of one operation of any
  run when it does not fall; `BbrRates.FirstRateFalls` gives a run in which it does for every RTT and
  packet size.
* A control call reads its own reply exactly when no call before it gave up
  (`ControlProtocol.RepliesAnswerInOrder`); after one that did, a late reply is taken for the answer to
  the next call (`ControlProtocol.LateReplyIsMistaken`).

The pacer takes a last send at time zero for no send at all. So the token-bucket bound assumes of its
environment that the clock is positive at a send that another one follows; `Pacers.SecondBurstAtClockZero`
shows what two sends put out when it is not.

The comment on `transport` says it leaves nothing open when it fails, and this holds
(`Session.Runner.Transport`). The comment on `Run` says it reverts every change; a setup that fails
after the routes were added leaves the routing rules to the cleanup, as the code does
(`Session.Runner.Run`, `Session.Runner.Cleanup`).

## Model

| member | source | states |
|---|---|---|
| `RingBuffers.RingBuffer.PushBack` | internal/congestion/bbr/ringbuffer.go:37-50 | the contents grow by the element at the back, through wrap-around and growth, and every copy made so far is paid for by fewer than two copies a push |
| `RingBuffers.RingBuffer.PopFront` | internal/congestion/bbr/ringbuffer.go:54-68 | gives the first element, leaves the others in order, and sets the slot it frees to the zero value |
| `RingBuffers.RingBuffer.Grow` | internal/congestion/bbr/ringbuffer.go:102-112 | doubles the ring, from one slot on, and keeps the contents in order |
| `RingBuffers.RingBuffer.Clear` | internal/congestion/bbr/ringbuffer.go:115-121 | empties the buffer and every slot |
| `RingBuffers.ViewPush` | internal/congestion/bbr/ringbuffer.go:37-50 | a write at the tail of a ring that has room appends to the sequence the ring stands for, wrapped or not |
| `RingBuffers.ViewPop` | internal/congestion/bbr/ringbuffer.go:54-68 | a step of the head drops the first element of that sequence, and free slots that were zero stay zero, with the one it frees |
| `PacketQueues.PacketNumberIndexedQueue.Emplace` | internal/congestion/bbr/packet_number_indexed_queue.go:57-91 | puts a packet into the map exactly when it has an entry and its number is above the last slot, and changes nothing otherwise |
| `PacketQueues.PacketNumberIndexedQueue.GetEntry` | internal/congestion/bbr/packet_number_indexed_queue.go:95-101 | lookup in the map |
| `PacketQueues.PacketNumberIndexedQueue.Remove` | internal/congestion/bbr/packet_number_indexed_queue.go:106-122 | deletes a packet that is there and hands its entry to the callback once |
| `PacketQueues.PacketNumberIndexedQueue.RemoveUpTo` | internal/congestion/bbr/packet_number_indexed_queue.go:127-140 | keeps exactly the packets from a number on |
| `PacketQueues.PacketNumberIndexedQueue.Clearup` | internal/congestion/bbr/packet_number_indexed_queue.go:174-181 | drops absent front slots, so that the front of a queue with slots is present, without changing the map |
| `PacketQueues.CountIsSize` | internal/congestion/bbr/packet_number_indexed_queue.go:148-150 | the count of present slots is the size of the map |
| `PacketQueues.TableErase` | internal/congestion/bbr/packet_number_indexed_queue.go:106-122 | marking one slot absent removes that key and nothing else |
| `WindowedFilters.WindowedFilter.Update` | internal/congestion/bbr/windowed_filter.go:105-154 | the three estimates become those of the specification of one sample, which the rows below pin down over whole histories |
| `WindowedFilters.RunTracks` | internal/congestion/bbr/windowed_filter.go:105-154 | after any history in time order the estimates are samples ordered by value and by time, each the maximum of everything from it on, and the best is no older than the window |
| `WindowedFilters.BestIsMaxSince` | internal/congestion/bbr/windowed_filter.go:105-154 | the best is a sample of the window that no later sample beats |
| `WindowedFilters.BestWithinWindowMax` | internal/congestion/bbr/windowed_filter.go:105-154 | the best is at most the true maximum of the window and misses only samples older than itself |
| `WindowedFilters.UpdatedIsSpread` | internal/congestion/bbr/windowed_filter.go:136-154 | while the best stays, a tie of the second or the third estimate is broken up after a quarter or a half of the window |
| `WindowedFilters.BestIsPeak` | internal/congestion/bbr/windowed_filter.go:105-154 | a maximum is kept for a whole window: while the peak of the history is in the window of the newest sample, it is the best, whatever smaller samples come |
| `WindowedFilters.BestGivesWay` | internal/congestion/bbr/windowed_filter.go:105-136 | the best changes only when it is zero-valued, for a sample that beats or ties it, or when it has left the window |
| `WindowedFilters.RunnerUpTakesOver` | internal/congestion/bbr/windowed_filter.go:121-135 | when the peak leaves the window the best is the runner-up that came more than a quarter of the window later, or the next in line, more than half a window after that, when the runner-up has left too |
| `WindowedFilters.BestAfterExpiry` | internal/congestion/bbr/windowed_filter.go:121-135 | after an expiry the best is at least every sample since the old second estimate, or since the old third when the second has left the window too |
| `WindowedFilters.ExpiryCanMissASample` | internal/congestion/bbr/windowed_filter.go:121-135 | a run of five samples in which the best and the second leave the window together and a larger sample between the second and the third, still in the window, is missed |
| `Pacers.TokenBucketBound` | internal/congestion/common/pacer.go:35-61 | a run of sends, each within its budget and on a positive clock if another follows, puts out at most one burst plus the rate times the elapsed time, rounded down |
| `Pacers.SecondBurstAtClockZero` | internal/congestion/common/pacer.go:45-48 | two sends of the whole budget, the first at clock zero, are two bursts; they are within the bound exactly when the bandwidth carries a burst in between |
| `Pacers.ReadyHasBudget` | internal/congestion/common/pacer.go:65-79 | from the time that is named on, there is budget for one datagram |
| `Pacers.ReadyIsEarliest` | internal/congestion/common/pacer.go:65-79 | one nanosecond before that time there is not, unless the minimum pacing delay decided it |
| `Pacers.Pacer.TimeUntilSend` | internal/congestion/common/pacer.go:65-79 | from the time it names on there is budget for a datagram, and a nanosecond before there is not unless the minimum delay decided |
| `Samplers.BandwidthSampler.OnPacketSent` | internal/congestion/bbr/bandwidth_sampler.go:557-599 | counts the bytes, starts a slope in an idle connection, and stores the snapshot in the queue |
| `Samplers.BandwidthSampler.OnCongestionEvent` | internal/congestion/bbr/bandwidth_sampler.go:601-678 | the losses, the acks and the sample of the event, as specified |
| `Samplers.BandwidthSampler.OnPacketAcknowledged` | internal/congestion/bbr/bandwidth_sampler.go:765-836 | the counters, the end of the app-limited phase, and the sample of the specification, whose slopes `SendSlopes.SampleIsSmallerSlope` ties to the run |
| `Samplers.MaxAckHeightTracker.Update` | internal/congestion/bbr/bandwidth_sampler.go:134-212 | the aggregation epoch and the ack height filter, as specified |
| `LinkRates.SamplesWithinLink` | internal/congestion/bbr/bandwidth_sampler.go:557-599 | over a link that carries at most a rate between ack points, every bandwidth sample of every run is at most that rate, in bits per second |
| `LinkRates.AnchoredStep` | internal/congestion/bbr/bandwidth_sampler.go:765-836 | every stored ack-total snapshot was the total at the ack time stored with it, whatever is called |
| `LinkRates.RateBound` | internal/congestion/bbr/bandwidth.go:28-30 | bytes the link can carry in a time give a rate within the link's |
| `SendSlopes.SampleIsSmallerSlope` | internal/congestion/bbr/bandwidth_sampler.go:765-836 | in every run the ack of a tracked packet yields a sample exactly when the packet has an anchor and time has passed; it is the smaller of the slopes, from that anchor, of the curve of bytes sent by the run's calls and the curve of bytes acked, and its RTT counts from the packet's own call |
| `SendSlopes.EventSampleIsSummary` | internal/congestion/bbr/bandwidth_sampler.go:601-678 | the sample of an event has the largest bandwidth of its packets' samples, with the app-limited state of one that has it, the smallest RTT, and the most acked since a packet was sent |
| `SendSlopes.SamplesReachLink` | internal/congestion/bbr/bandwidth_sampler.go:803-827 | when both curves carry at least a rate between the points of a packet of an event, the sample of the event is at least that rate |
| `Conservation.BytesConserved` | internal/congestion/bbr/bandwidth_sampler.go:557-697 | in every run bytes acked plus bytes lost are at most bytes sent, snapshots are behind the totals, and the epoch bytes are those acked since the epoch began |
| `Conservation.SamplesNonNegative` | internal/congestion/bbr/bandwidth_sampler.go:765-836 | no numerator of a slope and no sample is negative, in every run |
| `Conservation.AcksConserve` | internal/congestion/bbr/bandwidth_sampler.go:765-780 | acks move bytes from pending to acked; a packet no longer tracked only leaves pending |
| `Conservation.ExcessIsBeyondBandwidth` | internal/congestion/bbr/bandwidth_sampler.go:134-212 | in every possible run an event that acks bytes starts an epoch exactly when there is none or when the epoch's bytes are no more than the bandwidth carried since it began; otherwise the excess is all bytes of the epoch, with the event's, beyond that, and the ack height filter takes it |
| `AppLimitedPhases.AppLimitedUntilLaterAck` | internal/congestion/bbr/bandwidth_sampler.go:694-697 | after OnAppLimited at any point of any run, as long as nothing sent later is acked, every packet sent yields an app-limited sample |
| `AppLimitedPhases.PhaseEndsExactly` | internal/congestion/bbr/bandwidth_sampler.go:780-800 | in any run the phase ends at the ack of a tracked packet above its end, and at nothing else |
| `BbrSenders.BbrSender.OnCongestionEventEx` | internal/congestion/bbr/bbr_sender.go:541-640 | one congestion event changes the whole state of the sender to that of the specification the run theorems are about; `BbrGrowths`, `BbrSteps` and `BbrRecoveries` say what that is |
| `BbrSenders.BbrSender.SetMaxDatagramSize` | internal/congestion/bbr/bbr_sender.go:492-512 | rescales the packet-sized windows and lifts the current ones to the new minimum |
| `BbrSenders.BbrSender.UpdateGainCyclePhase` | internal/congestion/bbr/bbr_sender.go:769-803 | the next phase of the gain cycle, as specified |
| `BbrSenders.BbrSender.MaybeEnterOrExitProbeRtt` | internal/congestion/bbr/bbr_sender.go:853-901 | entry, timing and exit of PROBE_RTT, as specified |
| `BbrSenders.BbrSender.UpdateRecoveryState` | internal/congestion/bbr/bbr_sender.go:905-938 | entry, growth and end of recovery, as specified; the three `BbrRecoveries` rows say over whole runs when each happens |
| `BbrSenders.BbrSender.CalculateRecoveryWindow` | internal/congestion/bbr/bbr_sender.go:1014-1043 | the recovery window, as specified |
| `BbrWindows.WindowBounds` | internal/congestion/bbr/bbr_sender.go:525-535 | in every reachable state, over any mix of sends, events and size changes, the window is between 4 datagrams and the maximum, so a flight below 4 may send, and it grew by at most the bytes acked |
| `BbrWindows.RecoveryReleasesAcked` | internal/congestion/bbr/bbr_sender.go:1014-1043 | after every event in recovery the recovery window is at least the flight plus what the event acked |
| `BbrWindows.NothingFallsBeforeFullBandwidth` | internal/congestion/bbr/bbr_sender.go:941-1010 | before full bandwidth neither the window nor the stored pacing rate falls |
| `BbrGrowths.WindowGrowsByAcks` | internal/congestion/bbr/bbr_sender.go:996-1010 | in every run that has been in STARTUP at one datagram size, until an initial window of bytes is acked in total, the window is the initial window plus all bytes acked, up to the maximum |
| `BbrGrowths.WindowReachesGoal` | internal/congestion/bbr/bbr_sender.go:981-1010 | below full bandwidth and outside PROBE_RTT, an event grows the window by exactly what it acked, up to the maximum, while it is short of twice the bandwidth-delay product or few bytes were acked, and otherwise keeps it at or above that product |
| `BbrGrowths.WindowFollowsGoal` | internal/congestion/bbr/bbr_sender.go:981-1010 | at full bandwidth and outside PROBE_RTT, an event leaves at most twice the bandwidth-delay product plus the ack height, or 4 datagrams, and reaches that by no more than what it acked |
| `BbrGrowths.ProbeRttKeepsWindow` | internal/congestion/bbr/bbr_sender.go:981-984 | PROBE_RTT leaves the window as it is for afterwards |
| `BbrGrowths.TargetIsGoal` | internal/congestion/bbr/bbr_sender.go:694-706 | the target window is twice the bytes the estimate carries in the minimum RTT, 64 datagrams while there are none, and at least 4 datagrams |
| `BbrRates.RateFallsExactly` | internal/congestion/bbr/bbr_sender.go:643-652 | in every run, an operation that ends below full bandwidth keeps the rate in effect up exactly when a rate was stored before, or the first rate it stores reaches the one in effect, or it stores none and the initial window per RTT does not fall |
| `BbrRates.FirstRateFalls` | internal/congestion/bbr/bbr_sender.go:941-961 | for every RTT, packet size, datagram size and maximum window, a reachable run in which the first stored rate lowers the rate in effect by the startup gain |
| `BbrModes.RunGains` | internal/congestion/bbr/bbr_sender.go:724-851 | in every reachable state STARTUP is below full bandwidth, DRAIN and PROBE_BW are at it, and both gains are those of the mode |
| `BbrModes.FullBandwidthStays` | internal/congestion/bbr/bbr_sender.go:805-826 | full bandwidth is never unset |
| `BbrModes.DrainFollowsProbe` | internal/congestion/bbr/bbr_sender.go:736-803 | a 0.75 phase follows a 1.25 phase of the same stay in PROBE_BW |
| `BbrSteps.StartupDrains` | internal/congestion/bbr/bbr_sender.go:836-851 | an event in STARTUP or DRAIN leaves STARTUP exactly when full bandwidth is reached and goes to PROBE_BW exactly when the flight fits the path, unless PROBE_RTT begins |
| `BbrSteps.FullBandwidthIsReached` | internal/congestion/bbr/bbr_sender.go:805-826 | a round whose last sample is not app-limited counts; growth of a quarter sets the mark, and otherwise full bandwidth is reached exactly in the third such round in a row, or in a lossy one: eight losing events and more than 2% of the flight |
| `BbrSteps.CycleMovesOn` | internal/congestion/bbr/bbr_sender.go:769-803 | the gain cycle moves on exactly when its phase ends: 5/4 of the path filled or packets lost, and a minimum RTT, for the probe; the flight drained or a minimum RTT for the drain; a minimum RTT else |
| `BbrSteps.MinRttIsLeast` | internal/congestion/bbr/bbr_sender.go:712-722 | the minimum RTT is the least RTT measured since the event that started over last, the first or one that found the old minimum more than 10 s old |
| `BbrSteps.RateKeepsUp` | internal/congestion/bbr/bbr_sender.go:941-978 | in STARTUP a stored rate rises to 2.885 times the estimate when that is more, and otherwise stays |
| `BbrProbeRtts.StayIsLongEnough` | internal/congestion/bbr/bbr_sender.go:853-901 | a stay in PROBE_RTT ends at least 200 ms after an event that found the flight drained, and a round start later |
| `BbrProbeRtts.StaysAreApart` | internal/congestion/bbr/bbr_sender.go:712-722 | a stay begins more than 10 s after every earlier exit |
| `BbrSteps.ProbeRttBegins` | internal/congestion/bbr/bbr_sender.go:853-860 | a stay begins exactly at an event that measured an RTT while the minimum RTT was more than 10 s old, unless the sender was idle just before |
| `BbrSteps.ProbeRttEnds` | internal/congestion/bbr/bbr_sender.go:871-900 | an event times the exit exactly when the flight is below 4 datagrams and a packet; a timed stay ends exactly when 200 ms and a round have passed, in the mode the full-bandwidth flag tells |
| `BbrRecoveries.EntersAtFullBandwidth` | internal/congestion/bbr/bbr_sender.go:905-915 | out of recovery, an operation begins it exactly at full bandwidth, when it is an event with acks and losses; it begins in CONSERVATION |
| `BbrRecoveries.ConservationLastsARound` | internal/congestion/bbr/bbr_sender.go:905-938 | CONSERVATION becomes GROWTH exactly when a packet sent after recovery began is acked and that does not end recovery |
| `BbrRecoveries.RecoveryEndsAfterLosses` | internal/congestion/bbr/bbr_sender.go:905-938 | recovery ends exactly at a loss-free event that acks a packet sent after the latest event with acks and losses |
| `BbrRecoveries.RoundsAreCounted` | internal/congestion/bbr/bbr_sender.go:759-766 | a round trip is counted exactly when a packet is acked that was sent after the latest operation that counted one or began recovery |
| `BbrSteps.RecoveryRoom` | internal/congestion/bbr/bbr_sender.go:1014-1043 | the recovery window starts at the flight and the new acks; then a loss leaves the room for new bytes as it is, an acked byte makes room for one in CONSERVATION and two in GROWTH, and what was just acked may always be sent |
| `BbrEstimates.SamplerOfRun` | internal/congestion/bbr/bbr_sender.go:541-640 | the sampler in the sender is the sampler after the calls the sender made on it |
| `BbrEstimates.EstimateWithinLink` | internal/congestion/bbr/bbr_sender.go:580-584 | the bandwidth estimate of every reachable state is at most the rate of the link |
| `BbrSamples.EventMeasuresSlopes` | internal/congestion/bbr/bbr_sender.go:580-584 | in every run of the sender an event with acks measures the summary of its packets' slopes, of a run of calls with increasing packet numbers |
| `BbrSamples.EventReachesLink` | internal/congestion/bbr/bbr_sender.go:580-584 | and it measures at least a rate that both curves carry between the points of one of its packets |
| `BbrSamples.ShortFlightIsAppLimited` | internal/congestion/bbr/bbr_sender.go:828-834 | an event that finds less in flight than the path holds leaves the sampler app-limited |
| `BbrFilters.FilterOfRun` | internal/congestion/bbr/bbr_sender.go:580-584 | the filter in the sender is the filter of the samples its events gave, in the order of their rounds |
| `BbrFilters.EstimateIsRecentMax` | internal/congestion/bbr/bbr_sender.go:662-664 | in every run the estimate is a sample of the last ten rounds and the largest of all samples since it |
| `BbrFilters.EstimateIsLargestSample` | internal/congestion/bbr/bbr_sender.go:662-664 | in every run the largest sample of the run is the estimate for ten rounds, whatever smaller samples follow |
| `BbrFilters.EstimateFallsOnExpiry` | internal/congestion/bbr/bbr_sender.go:662-664 | in every run an estimate that is set falls only when the sample it came from is more than ten rounds old |
| `BbrFilters.EstimateFallsToRunnerUp` | internal/congestion/bbr/windowed_filter.go:121-135 | the filter of the sender then falls to the largest sample since, when that came more than two rounds later |
| `BbrEstimates.BytesConserved` | internal/congestion/bbr/bbr_sender.go:541-640 | the byte accounts hold in every run of the sender |
| `BbrPacing.ReadyMeansBudget` | internal/congestion/bbr/bbr_sender.go:437-444 | in every run of a sender with its pacer, whose datagram size starts no larger than the pacer's, the pacer's bandwidth is at least the floor, and HasPacingBudget is true from the time TimeUntilSend names on |
| `BbrPacing.OutputBound` | internal/congestion/bbr/bbr_sender.go:437-455 | from any send of any run on, a sender that keeps to its pacer puts out at most one burst plus what the largest bandwidth it paced at carries |
| `BbrOutputs.ProbeBwOutput` | internal/congestion/bbr/bbr_sender.go:941-951 | over a link of a rate, a sender in PROBE_BW that sends only with pacing budget puts out at most one burst plus 5/4 of that rate times the time |
| `BbrOutputs.RunRateFollows` | internal/congestion/bbr/bbr_sender.go:941-951 | in every reachable state at full bandwidth with an estimate, the stored rate is the gain times the estimate |
| `Brutal.SlotsCountTheWindow` | internal/congestion/brutal/brutal.go:112-150 | the sums over the five slots are the acks and losses of the events in the last five whole seconds of the history |
| `Brutal.PacingRateBounds` | internal/congestion/brutal/brutal.go:60-62 | the ack rate is between 4/5 and 1, so the pacing rate is between the configured rate and 5/4 of it |
| `Brutal.BytesBound` | internal/congestion/brutal/brutal.go:51-75 | sends within budget put out at most one burst at 5/4 of the rate plus 5/4 of the rate times the time |
| `Brutal.BrutalSender.OnCongestionEventEx` | internal/congestion/brutal/brutal.go:112-125 | an event extends the sender's history; the slots and the ack rate are those of that history |
| `Brutal.BrutalSender.UpdateAckRate` | internal/congestion/brutal/brutal.go:135-174 | the loop over the slots computes the ack rate of the counts in the window, whose meaning is `Brutal.RateCompensates` |
| `Brutal.RateCompensates` | internal/congestion/brutal/brutal.go:150-174 | with 50 samples and at least 4/5 acked, the acked share of the rate paced at is the configured rate, rounded down to the byte; with fewer samples or no loss it is the configured rate itself, and with fewer acks it is 5/4 of it |
| `Brutal.WindowCompensates` | internal/congestion/brutal/brutal.go:112-174 | so for the acks and losses of the last five seconds of any ordered history of events |
| `Brutal.BrutalSender.PacerBandwidth` | internal/congestion/brutal/brutal.go:60-62 | the bandwidth the pacer of the sender is given compensates the losses of the sender's own last five seconds |
| `Checksum.FoldedSumIsOnesSum` | internal/mux/echo_socket.go:264-279 | adding first and folding the carries at the end gives the ones' complement sum of section 1 of RFC 1071, for every message |
| `Checksum.ChecksumVerifies` | internal/mux/echo_socket.go:121-135 | with the checksum in its field the message sums to 0xffff whatever the field held before, odd lengths included; no other value does, but for the two forms of zero |
| `Checksum.IcmpChecksum` | internal/mux/echo_socket.go:264-279 | the loops compute that value, no addition leaves 32 bits, and the fold ends |
| `Checksum.EchoRequest` | internal/mux/echo_socket.go:121-135 | the bytes of an echo request, which over IPv4 sum to 0xffff |
| `Frames.ErrorRoundTrip` | internal/mux/frames.go:159-181 | an ICMP error decodes to itself, address unmapped, exactly when it names its sender |
| `Frames.MessageRoundTrip` | internal/mux/frames.go:55-154 | each request and reply decodes to itself, with the round-trip time in whole microseconds up to 2^32-1 of them |
| `Frames.CutStream` | internal/mux/mux.go:317-342 | of a stream of frames cut anywhere, a reader gets exactly the messages that are whole and then an error; a cut between frames or right after a length reads as the end, every other cut as unexpected |
| `Frames.DestReadsBack` | internal/mux/mux.go:269-314 | a destination reads back, a mapped address as IPv4, exactly when all of it arrived |
| `Frames.UnmapsExactly` | internal/mux/mux.go:269-285 | exactly the mapped form, ten zero bytes, two of 0xff and its four bytes, stands for an IPv4 address; every other address stands for itself, and none for sixteen zero bytes |
| `Frames.FlowReadsBack` | internal/mux/server.go:83-103 | a whole flow, kind, destination and requests, reads back from its stream, and a cut flow yields what arrived |
| `Frames.ReadMessages` | internal/mux/server.go:347-372 | the read loop of a relay yields the messages up to the first frame that does not read or decode |
| `Frames.ReadFrame` | internal/mux/mux.go:328-342 | reads one frame off the stream and nothing past it |
| `Frames.ReadDest` | internal/mux/mux.go:287-314 | reads one destination off the stream, with each of its errors |
| `Frames.Writer.WriteFrame` | internal/mux/mux.go:317-326 | writes length and body, or nothing and an error above 65535 bytes |
| `Frames.EncodeEchoData` | internal/mux/frames.go:118-125 | fills the reply frame the decoder reads back |
| `ControlLine.QuoteReadsBack` | internal/mux/mux.go:125-128 | quoting is undone exactly for every ASCII string |
| `ControlLine.SplitUndoesJoin` | internal/mux/mux.go:195-215 | the quote-aware scan cuts at the separators between the parts and nowhere else |
| `ControlLine.LineSplits` | internal/mux/mux.go:134-144 | whatever the values hold, the line is cut into the five fields that were printed |
| `ControlLine.LineDecodes` | internal/mux/mux.go:134-171 | the parser undoes the printer for all ASCII values |
| `ControlLine.ControlInfoArrives` | internal/mux/mux.go:355-373 | the record arrives through the stream, with nothing past its newline consumed, exactly when its line is at most 4096 bytes |
| `ControlLine.EncodedIsOneLine` | internal/mux/mux.go:125-128 | the only newline of an encoded record is its last byte |
| `ControlLine.SplitTopLevel` | internal/mux/mux.go:195-215 | the loop computes the specified split |
| `ControlLine.IndexTopLevel` | internal/mux/mux.go:175-192 | the loop finds the first separator outside a quoted string |
| `ControlLine.ReadLine` | internal/mux/mux.go:355-373 | reads up to the newline, drops one carriage return, and stops with an error past the limit |
| `ControlLine.DecodeControlInfo` | internal/mux/mux.go:134-171 | the loop over the fields decodes as specified, the first error ends it |
| `ControlProtocol.RepliesAnswerInOrder` | internal/mux/client.go:120-146 | in every interleaving the n-th reply read answers the n-th request, so a call reads its own answer exactly when no call before it gave up |
| `ControlProtocol.PortsAreFromARequest` | internal/mux/client.go:136-147 | a port the client reads is from the range of a quic request, its own when no call gave up |
| `ControlProtocol.LateReplyIsMistaken` | internal/session/quic.go:137-159 | after an echo query that gave up, the negotiation takes its late answer for an error while the helper listens |
| `ControlProtocol.ListenerIsTheLastStart` | internal/mux/quic_server.go:34-89 | in every interleaving at most one socket is open, one is exactly when no abandon, quit or end came after the last start, and none ever is after a quit or the end |
| `ControlProtocol.StartsOnlyFromNone` | internal/mux/quic_server.go:34-72 | a listener starts only from none, on the first free port of the range asked for |
| `ControlProtocol.NegotiationAfterAbandon` | internal/mux/client.go:136-156 | from any run at rest, an abandon and a new request bring a listener up and the client reads its port |
| `ControlProtocol.DialKeepsListenerOnlyWhenUp` | internal/session/quic.go:86-112 | at any point of any run, a dial whose reply arrives leaves a new listener exactly when it is up, on the port it dialed; a fallback leaves the helper as it was, and a reply that does not arrive fails the dial |
| `ControlProtocol.UnlinkTellsTheTruth` | internal/mux/client.go:117-131 | in every interleaving an unlink call that reads its answer succeeds exactly when a turn up to that answer removed the helper's file, and then the file is gone |
| `ControlProtocol.Server.HandleControl` | internal/mux/server.go:139-174 | the loop handles the lines up to quit or to a reply that cannot be written as specified, and answers exactly those that want a reply |
| `ControlProtocol.Server.BindInRange` | internal/mux/quic_server.go:60-70 | binds the first free port of the range, up to the last port of all |
| `ControlProtocol.Server.StopQUIC` | internal/mux/quic_server.go:74-89 | closes the listener there is, once |
| `ControlProtocol.Client.DialQUIC` | internal/session/quic.go:86-112 | sends the request, and the abandon exactly when a port came and the handshake did not complete |
| `Backoff.BackoffAfter` | internal/session/reconnect.go:99-108 | the loop computes the smaller of 2^(n-1) and 10 seconds |
| `Backoff.AttemptsAreBounded` | internal/session/reconnect.go:229-242 | an attempt whose waits fit in the window is one of the first window/10 + 4 |
| `Session.Runner.Transport` | internal/session/run.go:332-378 | succeeds exactly when every part opens; success leaves exactly one way up, with the dialer and every wait channel on it; failure leaves nothing open; only a moved remote with another manifest gives the error that ends the session |
| `Session.Runner.OpenTransport` | internal/session/run.go:384-404 | the kind of transport stays the one picked first; a failure opens nothing more |
| `Session.Runner.SelectTransport` | internal/session/quic.go:19-53 | QUIC exactly on a dial that came up; SSH by plan or by fallback, never when the plan demands QUIC |
| `Session.Runner.GuardManifest` | internal/session/reconnect.go:314-329 | passes at the planned address or on a matching manifest only; a mismatch is another error than a failed fetch |
| `Session.Runner.Lost` | internal/session/reconnect.go:199-220 | closes all of the transport and its watches, empties the dialer, and keeps device, routes and data plane |
| `Session.Runner.Attempt` | internal/session/reconnect.go:272-285 | ends the session exactly when the remote moved to an address with another manifest; any other failure leaves it down as it was |
| `Session.Runner.Reconnect` | internal/session/reconnect.go:229-266 | ends for every network behaviour; attempts start after their waits and inside the window, at most window/10 + 4 of them; it stops up at the first attempt that can succeed; else it ends after the window, on a changed remote, or on a signal during the last attempt or the wait after it |
| `Session.Runner.Loop` | internal/session/run.go:451-469 | handles every end of the transport that is up, once, and nothing else; the reconnect counter is the losses recovered; the kind never changes |
| `Session.OnlyTheCurrentTransportIsLost` | internal/session/run.go:477-496 | the select of a session that is up sees the channels of its own transport only, and all of them |
| `Session.LossesAreOfDifferentTransports` | internal/session/run.go:472-496 | no transport is lost twice, and no loss of an older transport is handled again |
| `Session.Runner.Wait` | internal/session/run.go:477-496 | returns the first channel to fire among those selected; others go unseen |
| `Session.Runner.SetUp` | internal/session/run.go:409-446 | all of the host is in place, or nothing but the routing rules that were added |
| `Session.Runner.StopSession` | internal/session/run.go:544-567 | reverts the host, and asks the helpers of the held transport to quit, and no others |
| `Session.DropAfterStopLeavesNothing` | internal/session/lanes.go:159-192 | after the stop, the drop closes what is left and does not close a lane twice |
| `Session.Runner.Run` | internal/session/run.go:233-299 | the session comes up exactly when the first transport and the setup can; on every way out nothing is open, but for routing rules of a setup that failed after adding them; no helper of a lost transport is asked to quit |
| `Session.Runner.Cleanup` | internal/session/run.go:620-651 | takes away what a session can leave on the host |
| `Session.Runner.OpenLaneSet` | internal/session/lanes.go:49-76 | opens the lanes that come up, and a lane that does not is no error |

## Left out

- BbrSender: the sampler, the filter and the pacer are values in the sender, not the objects of `Samplers`, `WindowedFilters` and `Pacers`; each of those classes is proved against the same functions the sender uses, but the objects are not composed under the sender, and aliasing between them is not modelled. The sender's flat fields are grouped in records (round, path, phase, recovery, limits).
- Runner: the runner's fields are grouped in records, and a lane set is a value; that the dialer keeps a pointer to the lanes is not modelled.
- BandwidthFromDelta: products of bytes and time are unbounded integers, so the wrap-around of a 64-bit product is not modelled.
- Scaled: gains are exact reals truncated to integers; float64 rounding is not modelled.
- BytesConserved: each packet is acked or lost at most once at the size it was sent with, which the QUIC library keeps and the code does not check.
- Possible: packet numbers increase, sizes are not negative, an event has at least one ack or loss, and the clock is positive and does not go back; these are promises of the QUIC library.
- Encode: the control line is modelled for ASCII values, the ones its comment promises; round-trip times are not negative; IPv6 zones are not modelled.
- DecodeControlInfo: strings in single or back quotes, and bytes above 0x7f that stand in the line itself, are errors here; the standard library accepts them, the printer never writes them. Every escape of a double-quoted string is modelled.
- HandleControl: lines are taken as parsed; a read deadline that cuts a reply in the middle of its line is not modelled, and the accepted connection ends with its socket.
- Round: the time an attempt takes is an outcome; that its deadline bounds the attempt is left to the context package.
- TeardownDevice: a close, a delete or a revert that fails is only logged by the code, and takes effect here.
- The options of the sampler and the sender that the standard profile never turns on, among them overestimate avoidance and the drain to the target window.
- OnPacketNeutered and the counters that only feed debug output.
- The removal of the helper's file at its exit and the sweep of stale files; the file is modelled for the unlink line alone.
- Metrics, state file contents, log lines, signals as such, and the choice of a lane for a flow.
- SSH, yamux, QUIC, TLS, TUN, netlink and DNS themselves; only their outcomes appear.
- The TCP relay, the bench and probe streams, and the idle timers of the relays.
- Configuration, discovery, the CLI, the platform packages and the tailnet client.
