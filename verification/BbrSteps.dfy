/** When the BBR sender takes each of its smaller steps, over whole runs: the minimum RTT, entry to and
    exit from each mode, the gain cycle, the window of recovery and the rate in STARTUP. */
module BbrSteps {
  import opened Arith
  import SM = SamplerModel
  import opened SamplerModel
  import opened BbrModel
  import opened BbrRuns
  import opened BbrModes
  import opened BbrWindows
  import opened BbrGrowths
  import opened BbrProbeRtts
  import BbrRates

  /** What the sampler made of an event. */
  function SampleOfEvent(b: Bbr, e: BbrModel.Event): EventSample {
    PathUpdated(b, e).1
  }

  /** The packet acked last is beyond the mark of the round. */
  ghost predicate NewRound(b: Bbr, e: BbrModel.Event) {
    e.acked != [] && (b.round.currentRoundTripEnd == -1 || LastAcked(e) > b.round.currentRoundTripEnd)
  }

  // ----- the minimum RTT

  lemma PathMinRtt(b: Bbr, e: BbrModel.Event)
    ensures PathUpdated(b, e).0.path.minRtt == MinRttUpdated(b.path, e.time, SampleOfEvent(b, e).rtt).minRtt
    ensures PathUpdated(b, e).0.path.minRttTimestamp == MinRttUpdated(b.path, e.time, SampleOfEvent(b, e).rtt).minRttTimestamp
  {
    assert Rounds(Received(b, e), e).path == b.path;
  }

  lemma ModesKeepMinRtt(b: Bbr, e: BbrModel.Event, roundStart: bool, expired: bool, state: SendTimeState)
    requires e.Valid()
    ensures var b' := Modes(b, e, roundStart, expired, state);
            && b'.path.minRtt == b.path.minRtt && b'.path.maxBandwidth == b.path.maxBandwidth
            && b'.path.lastSampleIsAppLimited == b.path.lastSampleIsAppLimited
            && b'.bytesInFlight == b.bytesInFlight && b'.limits == b.limits
  {
  }

  lemma EventMinRtt(b: Bbr, e: BbrModel.Event)
    requires e.Valid()
    ensures BbrModel.OnCongestionEvent(b, e).path.minRtt == MinRttUpdated(b.path, e.time, SampleOfEvent(b, e).rtt).minRtt
  {
    var (b1, v) := PathUpdated(b, e);
    PathMinRtt(b, e);
    ModesKeepMinRtt(b1, e, RoundStart(b, e), SeesExpiry(b, e, v), v.lastPacketSendState);
  }

  /** The RTT an operation measured, if any. */
  function RttOf(w: World, op: Op): int {
    if op.Congestion? then SampleOfEvent(w.b, op.e).rtt else INF_RTT
  }

  /** Operation k measured an RTT when none was kept, or when the one kept was more than 10 s old. */
  ghost predicate StartsOver(w: World, op: Op) {
    && RttOf(w, op) != INF_RTT && op.Congestion?
    && (w.b.path.minRtt == 0 || op.e.time > w.b.path.minRttTimestamp + 10_000_000_000)
  }

  /** What each operation of a run measured. */
  ghost function Rtts(ws: seq<World>, ops: seq<Op>): (rtts: seq<int>)
    requires |ws| == |ops| + 1
    ensures |rtts| == |ops| && forall i | 0 <= i < |ops| :: rtts[i] == RttOf(ws[i], ops[i])
  {
    seq(|ops|, i requires 0 <= i < |ops| => RttOf(ws[i], ops[i]))
  }

  /** Whether each operation of a run started over. */
  ghost function Restarts(ws: seq<World>, ops: seq<Op>): (restarts: seq<bool>)
    requires |ws| == |ops| + 1
    ensures |restarts| == |ops| && forall i | 0 <= i < |ops| :: restarts[i] == StartsOver(ws[i], ops[i])
  {
    seq(|ops|, i requires 0 <= i < |ops| => StartsOver(ws[i], ops[i]))
  }

  /** minRtt is the least of the RTTs measured by the operations from k up to n. */
  ghost predicate LeastSince(rtts: seq<int>, k: nat, n: nat, minRtt: int) {
    && k < n <= |rtts|
    && (forall j | k <= j < n :: rtts[j] == INF_RTT || rtts[j] >= minRtt)
    && (exists j | k <= j < n :: rtts[j] == minRtt)
  }

  /** Operation k is the last before n that started over. */
  ghost predicate StartedOverAt(restarts: seq<bool>, k: nat, n: nat) {
    k < n <= |restarts| && restarts[k] && forall j | k < j < n :: !restarts[j]
  }

  ghost predicate MinRttStep(minRtt: int, minRtt': int, rtt: int, restart: bool) {
    minRtt' == if restart || (rtt != INF_RTT && rtt < minRtt) then rtt else minRtt
  }

  lemma StepMinRtt(w: World, op: Op)
    requires Possible(w, op)
    ensures MinRttStep(w.b.path.minRtt, Stepped(w, op).b.path.minRtt, RttOf(w, op), StartsOver(w, op))
  {
    if op.Congestion? {
      EventMinRtt(w.b, op.e);
    }
  }

  lemma LeastExtends(rtts: seq<int>, k: nat, n: nat, minRtt: int, minRtt': int)
    requires n < |rtts| && LeastSince(rtts, k, n, minRtt) && MinRttStep(minRtt, minRtt', rtts[n], false)
    ensures LeastSince(rtts, k, n + 1, minRtt')
  {
    var j :| k <= j < n && rtts[j] == minRtt;
    assert rtts[n] == minRtt' || rtts[j] == minRtt';
  }

  lemma {:induction false} MinRttChain(mins: seq<int>, rtts: seq<int>, restarts: seq<bool>, n: nat) returns (k: nat)
    requires |mins| == |rtts| + 1 == |restarts| + 1 && n < |mins| && mins[0] == 0 && mins[n] != 0
    requires forall i | 0 <= i < |rtts| :: MinRttStep(mins[i], mins[i + 1], rtts[i], restarts[i])
    requires forall i | 0 <= i < |rtts| :: mins[i] == 0 && rtts[i] != INF_RTT ==> restarts[i]
    ensures StartedOverAt(restarts, k, n) && LeastSince(rtts, k, n, mins[n])
  {
    k := n - 1;
    assert MinRttStep(mins[n - 1], mins[n - 1 + 1], rtts[n - 1], restarts[n - 1]);
    if restarts[n - 1] {
      assert rtts[n - 1] == mins[n];
    } else {
      k := MinRttChain(mins, rtts, restarts, n - 1);
      LeastExtends(rtts, k, n - 1, mins[n - 1], mins[n]);
    }
  }

  /** In every run, a minimum RTT that is kept is the least RTT measured since the operation that
      started over last: the first to measure one, or one that found the old minimum more than 10 s
      old. */
  lemma MinRttIsLeast(ws: seq<World>, ops: seq<Op>, datagram: int, maxPackets: int, n: nat) returns (k: nat)
    requires Run(ws, ops, datagram, maxPackets) && n < |ws| && ws[n].b.path.minRtt != 0
    ensures StartedOverAt(Restarts(ws, ops), k, n) && LeastSince(Rtts(ws, ops), k, n, ws[n].b.path.minRtt)
  {
    var mins := seq(|ws|, i requires 0 <= i < |ws| => ws[i].b.path.minRtt);
    var rtts, restarts := Rtts(ws, ops), Restarts(ws, ops);
    forall i | 0 <= i < |ops| ensures MinRttStep(mins[i], mins[i + 1], rtts[i], restarts[i]) {
      StepMinRtt(ws[i], ops[i]);
      assert ws[i + 1] == Stepped(ws[i], ops[i]);
    }
    forall i | 0 <= i < |ops| ensures mins[i] == 0 && rtts[i] != INF_RTT ==> restarts[i] {
      OnlyEventsMeasure(ws[i], ops[i]);
    }
    k := MinRttChain(mins, rtts, restarts, n);
  }

  lemma OnlyEventsMeasure(w: World, op: Op)
    ensures RttOf(w, op) != INF_RTT && w.b.path.minRtt == 0 ==> StartsOver(w, op)
  {
  }

  // ----- the entry to PROBE_RTT

  lemma CycleKeepsMode(b: Bbr, e: BbrModel.Event, roundStart: bool, state: SendTimeState)
    requires e.Valid() && b.phase.mode != ProbeRtt
    ensures var p := CycleAndStartup(b, e, roundStart, state);
            p.mode != ProbeRtt && p.exitingQuiescence == b.phase.exitingQuiescence
  {
  }

  lemma StayBegins(b: Bbr, e: BbrModel.Event, roundStart: bool, expired: bool)
    requires e.Valid() && b.phase.mode != ProbeRtt
    ensures MaybeEnterOrExitProbeRtt(b, e, roundStart, expired).phase.mode == ProbeRtt <==> expired && !b.phase.exitingQuiescence
  {
  }

  lemma EventEntersProbeRtt(b: Bbr, e: BbrModel.Event)
    requires e.Valid() && b.phase.mode != ProbeRtt
    ensures BbrModel.OnCongestionEvent(b, e).phase.mode == ProbeRtt
       <==> SeesExpiry(b, e, SampleOfEvent(b, e)) && !b.phase.exitingQuiescence
  {
    var (b1, v) := PathUpdated(b, e);
    EventPhase(b, e);
    CycleKeepsMode(b1, e, RoundStart(b, e), v.lastPacketSendState);
    StayBegins(b1.(phase := CycleAndStartup(b1, e, RoundStart(b, e), v.lastPacketSendState)), e, RoundStart(b, e), SeesExpiry(b, e, v));
  }

  /** Outside PROBE_RTT, an operation enters it exactly when it is an event that measured an RTT while
      the minimum RTT was more than 10 s old, unless the sender was idle just before. */
  lemma ProbeRttBegins(ws: seq<World>, ops: seq<Op>, n: nat)
    requires Trace(ws, ops) && n < |ops| && ws[n].b.phase.mode != ProbeRtt
    ensures ws[n + 1].b.phase.mode == ProbeRtt
       <==> && StartsOver(ws[n], ops[n]) && ws[n].b.path.minRtt != 0
            && !ws[n].b.phase.exitingQuiescence
  {
    if ops[n].Congestion? {
      EventEntersProbeRtt(ws[n].b, ops[n].e);
    }
  }

  // ----- the end of STARTUP

  lemma FiveQuartersOf(x: int)
    ensures Scaled(1.25, x) == Quotient(5 * x, 4)
  {
    if x >= 0 {
      FloorOfQuarter(x);
    } else {
      FloorOfQuarter(-x);
      assert -(1.25 * x as real) == 1.25 * (-x) as real;
    }
  }

  lemma FloorOfQuarter(x: nat)
    ensures (1.25 * x as real).Floor == 5 * x / 4
  {
    var q := (1.25 * x as real).Floor;
    assert q as real <= 1.25 * x as real < q as real + 1.0;
    assert (4 * q) as real <= (5 * x) as real < (4 * q + 4) as real;
  }

  /** More than 2% of a flight. */
  lemma FiftiethOf(lost: int, flight: nat)
    ensures lost > Scaled(0.02, flight) <==> 50 * lost > flight
  {
    var q := (0.02 * flight as real).Floor;
    assert q as real <= 0.02 * flight as real < q as real + 1.0;
    assert (50 * q) as real <= flight as real < (50 * q + 50) as real;
  }

  /** Eight losing events in the round, with more than 2% of the flight of the event's largest packet. */
  ghost predicate LossyRound(lossEvents: int, bytesLost: int, state: SendTimeState) {
    && lossEvents >= 8 && state.isValid && state.bytesInFlight > 0 && bytesLost > 0
    && 50 * bytesLost > state.bytesInFlight
  }

  /** What an event makes of the growth of the bandwidth: a round that counts is one that ends below
      full bandwidth with a sample that is not app-limited. */
  ghost predicate GrowthStep(p: Phase, p': Phase, counts: bool, estimate: int, lossy: bool) {
    if !counts then
      && p'.isAtFullBandwidth == p.isAtFullBandwidth && p'.bandwidthAtLastRound == p.bandwidthAtLastRound
      && p'.roundsWithoutBandwidthGain == p.roundsWithoutBandwidthGain
    else if estimate >= Quotient(5 * p.bandwidthAtLastRound, 4) then
      && p'.isAtFullBandwidth == p.isAtFullBandwidth && p'.bandwidthAtLastRound == estimate
      && p'.roundsWithoutBandwidthGain == 0
    else
      && (p'.isAtFullBandwidth <==> p.isAtFullBandwidth || p.roundsWithoutBandwidthGain >= 2 || lossy)
      && p'.bandwidthAtLastRound == p.bandwidthAtLastRound
      && p'.roundsWithoutBandwidthGain == p.roundsWithoutBandwidthGain + 1
  }

  lemma CheckIsGrowthStep(p: Phase, appLimited: bool, bandwidth: int, r: Round, state: SendTimeState)
    ensures GrowthStep(p, CheckFullBandwidth(p, appLimited, bandwidth, r, state), !appLimited, bandwidth,
                       LossyRound(r.numLossEventsInRound, r.bytesLostInRound, state))
  {
    FiveQuartersOf(p.bandwidthAtLastRound);
    if state.bytesInFlight > 0 {
      FiftiethOf(r.bytesLostInRound, state.bytesInFlight);
    }
  }

  lemma ModesGrowth(b: Bbr, e: BbrModel.Event, roundStart: bool, expired: bool, state: SendTimeState)
    requires e.Valid() && !b.phase.isAtFullBandwidth && b.phase.mode != ProbeBw
    ensures GrowthStep(b.phase, Modes(b, e, roundStart, expired, state).phase, roundStart && !b.path.lastSampleIsAppLimited,
                       BandwidthEstimate(b), LossyRound(b.round.numLossEventsInRound, b.round.bytesLostInRound, state))
  {
    CheckIsGrowthStep(b.phase, b.path.lastSampleIsAppLimited, BandwidthEstimate(b), b.round, state);
    var p := if roundStart then CheckFullBandwidth(b.phase, b.path.lastSampleIsAppLimited, BandwidthEstimate(b), b.round, state) else b.phase;
    LaterKeepGrowth(b, e, p, roundStart, expired);
  }

  lemma LaterKeepGrowth(b: Bbr, e: BbrModel.Event, p: Phase, roundStart: bool, expired: bool)
    requires e.Valid()
    ensures var p' := MaybeExitStartupOrDrain(p, b.bytesInFlight <= TargetWindow(b, 1.0, e.rttMin), e.time, e.draw);
            var q := MaybeEnterOrExitProbeRtt(b.(phase := p'), e, roundStart, expired).phase;
            && q.isAtFullBandwidth == p.isAtFullBandwidth && q.bandwidthAtLastRound == p.bandwidthAtLastRound
            && q.roundsWithoutBandwidthGain == p.roundsWithoutBandwidthGain
  {
  }

  lemma PathRounds(b: Bbr, e: BbrModel.Event)
    ensures var (b1, v) := PathUpdated(b, e);
            && b1.round.numLossEventsInRound == b.round.numLossEventsInRound + (if e.lost != [] then 1 else 0)
            && b1.round.bytesLostInRound
               == b.round.bytesLostInRound + (if e.lost != [] then b1.sampler.totalBytesLost - b.sampler.totalBytesLost else 0)
            && (NewRound(b, e) <==> RoundStart(b, e))
  {
  }

  lemma EventGrowth(b: Bbr, e: BbrModel.Event)
    requires e.Valid() && !b.phase.isAtFullBandwidth && GainsMatch(b.phase)
    ensures var b' := BbrModel.OnCongestionEvent(b, e);
            var lossEvents := b.round.numLossEventsInRound + (if e.lost != [] then 1 else 0);
            var bytesLost := b.round.bytesLostInRound
                           + (if e.lost != [] then b'.sampler.totalBytesLost - b.sampler.totalBytesLost else 0);
            GrowthStep(b.phase, b'.phase, NewRound(b, e) && !b'.path.lastSampleIsAppLimited, BandwidthEstimate(b'),
                       LossyRound(lossEvents, bytesLost, SampleOfEvent(b, e).lastPacketSendState))
  {
    var (b1, v) := PathUpdated(b, e);
    EventPhase(b, e);
    PathRounds(b, e);
    ModesGrowth(b1, e, RoundStart(b, e), SeesExpiry(b, e, v), v.lastPacketSendState);
    ModesKeepMinRtt(b1, e, RoundStart(b, e), SeesExpiry(b, e, v), v.lastPacketSendState);
  }

  /** Below full bandwidth, in every run: a round whose last sample is not app-limited counts. When the
      estimate has grown by a quarter over the last growth it is the new mark; otherwise full bandwidth
      is reached exactly in the third such round in a row, or when the round was lossy. */
  lemma FullBandwidthIsReached(ws: seq<World>, ops: seq<Op>, datagram: int, maxPackets: int, n: nat)
    requires Run(ws, ops, datagram, maxPackets) && n < |ops| && ops[n].Congestion? && !ws[n].b.phase.isAtFullBandwidth
    ensures var b, b', e := ws[n].b, ws[n + 1].b, ops[n].e;
            var lossEvents := b.round.numLossEventsInRound + (if e.lost != [] then 1 else 0);
            var bytesLost := b.round.bytesLostInRound
                           + (if e.lost != [] then b'.sampler.totalBytesLost - b.sampler.totalBytesLost else 0);
            GrowthStep(b.phase, b'.phase, NewRound(b, e) && !b'.path.lastSampleIsAppLimited, BandwidthEstimate(b'),
                       LossyRound(lossEvents, bytesLost, SampleOfEvent(b, e).lastPacketSendState))
  {
    RunGains(ws, ops, datagram, maxPackets, n);
    EventGrowth(ws[n].b, ops[n].e);
  }

  // ----- the gain cycle

  /** A share of the bandwidth-delay product, or of 32 datagrams while there is none. */
  function Share(b: Bbr, num: nat, den: nat, rttMin: nat): int
    requires den > 0
  {
    var x := Quotient(num * Bdp(b, rttMin), den);
    Max(4 * b.limits.datagram, if x == 0 then Quotient(num * 32 * b.limits.datagram, den) else x)
  }

  lemma SharesAreTargets(b: Bbr, rttMin: nat, maxPackets: int)
    requires b.limits == NewLimits(b.limits.datagram, maxPackets)
    ensures TargetWindow(b, 1.0, rttMin) == Share(b, 1, 1, rttMin)
    ensures TargetWindow(b, 1.25, rttMin) == Share(b, 5, 4, rttMin)
  {
    NestedQuotient(GetMinRtt(b, rttMin) * BandwidthEstimate(b));
    FiveQuartersOf(Bdp(b, rttMin));
    FiveQuartersOf(b.limits.initialWindow);
    assert 1.0 * Bdp(b, rttMin) as real == Bdp(b, rttMin) as real;
    assert 1.0 * b.limits.initialWindow as real == b.limits.initialWindow as real;
  }

  /** Whether an event ends a phase of the cycle, when b is the sender it leaves: the probe lasts until it
      filled 5/4 of the path or lost packets, the drain no longer than until the flight fits the path,
      and each at least, or else exactly, one minimum RTT. */
  ghost predicate EndsPhase(p: Phase, b: Bbr, e: BbrModel.Event) {
    var late := e.time > p.lastCycleStart + GetMinRtt(b, e.rttMin);
    if p.cycleCurrentOffset == 0 then late && (e.lost != [] || e.priorInFlight >= Share(b, 5, 4, e.rttMin))
    else if p.cycleCurrentOffset == 1 then late || b.bytesInFlight <= Share(b, 1, 1, e.rttMin)
    else late
  }

  /** The offset moves on by one, around eight, exactly at the end of a phase. */
  ghost predicate CycleStep(p: Phase, p': Phase, ends: bool, now: int) {
    && p'.cycleCurrentOffset == (if !ends then p.cycleCurrentOffset else if p.cycleCurrentOffset == 7 then 0 else p.cycleCurrentOffset + 1)
    && p'.lastCycleStart == (if ends then now else p.lastCycleStart)
  }

  lemma UpdateIsCycleStep(b: Bbr, e: BbrModel.Event, maxPackets: int)
    requires GainsMatch(b.phase) && b.phase.mode == ProbeBw && b.limits == NewLimits(b.limits.datagram, maxPackets)
    ensures var p' := UpdateGainCycle(b.phase, e, b.bytesInFlight, TargetWindow(b, 1.0, e.rttMin),
                                      TargetWindow(b, b.phase.pacingGain, e.rttMin), GetMinRtt(b, e.rttMin));
            CycleStep(b.phase, p', EndsPhase(b.phase, b, e), e.time) && p'.mode == ProbeBw && p'.isAtFullBandwidth
  {
    SharesAreTargets(b, e.rttMin, maxPackets);
    var gain := b.phase.pacingGain;
    assert b.phase.cycleCurrentOffset == 0 ==> gain == 1.25;
    assert b.phase.cycleCurrentOffset == 1 ==> gain == 0.75;
    assert b.phase.cycleCurrentOffset > 1 ==> gain == 1.0;
  }

  lemma EntryKeepsCycle(b: Bbr, e: BbrModel.Event, roundStart: bool, expired: bool)
    requires e.Valid() && b.phase.mode == ProbeBw
    ensures var p := MaybeEnterOrExitProbeRtt(b, e, roundStart, expired).phase;
            p.cycleCurrentOffset == b.phase.cycleCurrentOffset && p.lastCycleStart == b.phase.lastCycleStart
  {
  }

  lemma ModesCycle(b: Bbr, e: BbrModel.Event, roundStart: bool, expired: bool, state: SendTimeState, maxPackets: int)
    requires e.Valid() && GainsMatch(b.phase) && b.phase.mode == ProbeBw && b.limits == NewLimits(b.limits.datagram, maxPackets)
    ensures CycleStep(b.phase, Modes(b, e, roundStart, expired, state).phase, EndsPhase(b.phase, b, e), e.time)
  {
    UpdateIsCycleStep(b, e, maxPackets);
    EntryKeepsCycle(b.(phase := CycleAndStartup(b, e, roundStart, state)), e, roundStart, expired);
  }

  /** Only the path and the flight tell whether a phase ends. */
  lemma SameEnd(p: Phase, b: Bbr, b': Bbr, e: BbrModel.Event)
    requires b.path.minRtt == b'.path.minRtt && b.path.maxBandwidth == b'.path.maxBandwidth
    requires b.bytesInFlight == b'.bytesInFlight && b.limits == b'.limits
    ensures EndsPhase(p, b, e) == EndsPhase(p, b', e)
  {
  }

  /** An event leaves the path and the flight as its model of the path has them. */
  lemma EventKeepsPath(b: Bbr, e: BbrModel.Event)
    requires e.Valid()
    ensures var b1, b' := PathUpdated(b, e).0, BbrModel.OnCongestionEvent(b, e);
            && b1.path.minRtt == b'.path.minRtt && b1.path.maxBandwidth == b'.path.maxBandwidth
            && b1.bytesInFlight == b'.bytesInFlight && b1.limits == b'.limits == b.limits
  {
    var (b1, v) := PathUpdated(b, e);
    PathKeeps(b, e);
    ModesKeepMinRtt(b1, e, RoundStart(b, e), SeesExpiry(b, e, v), v.lastPacketSendState);
  }

  lemma EventCycle(b: Bbr, e: BbrModel.Event, maxPackets: int)
    requires e.Valid() && GainsMatch(b.phase) && b.phase.mode == ProbeBw && b.limits == NewLimits(b.limits.datagram, maxPackets)
    ensures var b' := BbrModel.OnCongestionEvent(b, e);
            CycleStep(b.phase, b'.phase, EndsPhase(b.phase, b', e), e.time)
  {
    var (b1, v) := PathUpdated(b, e);
    EventPhase(b, e);
    EventKeepsPath(b, e);
    ModesCycle(b1, e, RoundStart(b, e), SeesExpiry(b, e, v), v.lastPacketSendState, maxPackets);
    SameEnd(b.phase, b1, BbrModel.OnCongestionEvent(b, e), e);
  }

  /** In PROBE_BW, in every run, an event moves the cycle on exactly when it ends the phase. */
  lemma CycleMovesOn(ws: seq<World>, ops: seq<Op>, datagram: int, maxPackets: int, n: nat)
    requires datagram > 0 && maxPackets >= INITIAL_WINDOW_PACKETS && Run(ws, ops, datagram, maxPackets)
    requires n < |ops| && ops[n].Congestion? && ws[n].b.phase.mode == ProbeBw
    ensures CycleStep(ws[n].b.phase, ws[n + 1].b.phase, EndsPhase(ws[n].b.phase, ws[n + 1].b, ops[n].e), ops[n].e.time)
  {
    RunSafe(ws, ops, datagram, maxPackets, n);
    RunGains(ws, ops, datagram, maxPackets, n);
    EventCycle(ws[n].b, ops[n].e, maxPackets);
  }

  // ----- the window of recovery

  lemma {:induction false} LossesAreCounted(s: Sampler, lost: seq<LostPacket>)
    ensures LoseAll(s, lost).0.totalBytesLost == s.totalBytesLost + LostBytes(lost)
  {
    if lost != [] {
      LossesAreCounted(s, lost[..|lost| - 1]);
    }
  }

  lemma {:induction false} AcksKeepLost(s: Sampler, time: int, acked: seq<AckedPacket>)
    ensures AckAll(s, time, acked).0.totalBytesLost == s.totalBytesLost
  {
    if acked != [] {
      AcksKeepLost(s, time, acked[..|acked| - 1]);
    }
  }

  lemma PathLost(b: Bbr, e: BbrModel.Event)
    ensures PathUpdated(b, e).0.sampler.totalBytesLost == b.sampler.totalBytesLost + LostBytes(e.lost)
  {
    var s := Rounds(Received(b, e), e).sampler;
    LossesAreCounted(s, e.lost);
    AcksKeepLost(LoseAll(s, e.lost).0, e.time, e.acked);
  }

  /** What one event does to the window of recovery, by the room it leaves for new bytes. A loss leaves the
      room as it is, since it leaves the flight too: in CONSERVATION each acked byte makes room for one
      byte, in GROWTH for two, and what was just acked may always be sent. */
  ghost predicate RoomStep(b: Bbr, b': Bbr, e: BbrModel.Event) {
    var least, newly := 4 * b'.limits.datagram, NewlyAcked(b, b');
    var grown := if b'.recovery.state == Growth then newly else 0;
    var room, room' := b.recovery.window - e.priorInFlight, b'.recovery.window - b'.bytesInFlight;
    if !InRecovery(b) then b'.recovery.window == Max(least, b'.bytesInFlight + newly)
    else if b.recovery.window >= LostBytes(e.lost) then
      room' == Max(least - b'.bytesInFlight, Max(newly, room + AckedBytes(e.acked) + grown))
    else b'.recovery.window == Max(least, Max(b'.bytesInFlight + newly, b'.limits.datagram + grown))
  }

  /** The window an event leaves in recovery is the one it calculates from what it leaves. */
  lemma EventRecoveryWindow(b: Bbr, e: BbrModel.Event)
    requires e.Valid() && InRecovery(BbrModel.OnCongestionEvent(b, e))
    ensures var b' := BbrModel.OnCongestionEvent(b, e);
            var r := Recovery(b'.recovery.state, b'.recovery.endAt, if InRecovery(b) then b.recovery.window else 0);
            && b'.recovery.window == CalculateRecoveryWindow(r, b'.limits, b'.bytesInFlight, NewlyAcked(b, b'), LostBytes(e.lost))
            && b'.bytesInFlight == e.priorInFlight - AckedBytes(e.acked) - LostBytes(e.lost)
  {
    ModelRecovery(b, e);
  }

  lemma ModelRecovery(b: Bbr, e: BbrModel.Event)
    requires e.Valid()
    ensures var b1 := ModelUpdated(b, e);
            && b1.sampler.totalBytesLost == b.sampler.totalBytesLost + LostBytes(e.lost)
            && b1.bytesInFlight == e.priorInFlight - AckedBytes(e.acked) - LostBytes(e.lost)
            && (InRecovery(b1) ==> b1.recovery.window == if InRecovery(b) then b.recovery.window else 0)
  {
    var (b1, v) := PathUpdated(b, e);
    PathKeeps(b, e);
    PathLost(b, e);
    ModesSafe(b1, e, RoundStart(b, e), SeesExpiry(b, e, v), v.lastPacketSendState);
    ModesKeepLost(b1, e, RoundStart(b, e), SeesExpiry(b, e, v), v.lastPacketSendState);
    EntryZeroesWindow(b, e);
  }

  lemma EventRoom(b: Bbr, e: BbrModel.Event, maxPackets: int)
    requires e.Valid() && b.limits.datagram > 0 && b.limits == NewLimits(b.limits.datagram, maxPackets)
    requires InRecovery(BbrModel.OnCongestionEvent(b, e)) && b.limits.minWindow <= b.recovery.window
    ensures RoomStep(b, BbrModel.OnCongestionEvent(b, e), e)
  {
    var b' := BbrModel.OnCongestionEvent(b, e);
    EventKeepsSent(b, e);
    EventRecoveryWindow(b, e);
    RoomIsLeft(b, b', e, Recovery(b'.recovery.state, b'.recovery.endAt, if InRecovery(b) then b.recovery.window else 0));
  }

  lemma ModesKeepLost(b: Bbr, e: BbrModel.Event, roundStart: bool, expired: bool, state: SendTimeState)
    requires e.Valid()
    ensures Modes(b, e, roundStart, expired, state).sampler.totalBytesLost == b.sampler.totalBytesLost
  {
  }

  lemma EntryZeroesWindow(b: Bbr, e: BbrModel.Event)
    ensures var r := PathUpdated(b, e).0.recovery;
            r.state != NotInRecovery ==> r.window == if InRecovery(b) then b.recovery.window else 0
  {
  }

  lemma RoomIsLeft(b: Bbr, b': Bbr, e: BbrModel.Event, r: Recovery)
    requires r.state == b'.recovery.state != NotInRecovery && r.window == if InRecovery(b) then b.recovery.window else 0
    requires b'.recovery.window == CalculateRecoveryWindow(r, b'.limits, b'.bytesInFlight, NewlyAcked(b, b'), LostBytes(e.lost))
    requires b'.bytesInFlight == e.priorInFlight - AckedBytes(e.acked) - LostBytes(e.lost)
    requires b'.limits.minWindow == 4 * b'.limits.datagram && 0 < 4 * b'.limits.datagram <= b.recovery.window
    ensures RoomStep(b, b', e)
  {
  }

  /** In every run, every event that leaves the sender in recovery leaves that room. */
  lemma RecoveryRoom(ws: seq<World>, ops: seq<Op>, datagram: int, maxPackets: int, n: nat)
    requires datagram > 0 && maxPackets >= INITIAL_WINDOW_PACKETS && Run(ws, ops, datagram, maxPackets)
    requires n < |ops| && ops[n].Congestion? && InRecovery(ws[n + 1].b)
    ensures RoomStep(ws[n].b, ws[n + 1].b, ops[n].e)
  {
    RunSafe(ws, ops, datagram, maxPackets, n);
    EventRoom(ws[n].b, ops[n].e, maxPackets);
  }

  // ----- the end of PROBE_RTT, of STARTUP and of DRAIN

  /** One event of a PROBE_RTT stay that began in phase p and left the sender b: it times the exit
      exactly when the flight is below 4 datagrams and a packet, and a timed stay ends exactly when the
      200 ms and a round have passed, in STARTUP or in PROBE_BW by the full-bandwidth flag. */
  ghost predicate ExitStep(p: Phase, b: Bbr, e: BbrModel.Event, newRound: bool) {
    var q := b.phase;
    if p.exitProbeRttAt == 0 then
      && q.mode == ProbeRtt
      && q.exitProbeRttAt == (if b.bytesInFlight < 4 * b.limits.datagram + e.extraPacket then e.time + 200_000_000 else 0)
    else if e.time >= p.exitProbeRttAt && (p.probeRttRoundPassed || newRound) then
      q.mode == if q.isAtFullBandwidth then ProbeBw else Startup
    else
      && q.mode == ProbeRtt && q.exitProbeRttAt == p.exitProbeRttAt
      && q.probeRttRoundPassed == (p.probeRttRoundPassed || newRound)
  }

  lemma ExitStepOfPhase(b: Bbr, e: BbrModel.Event, roundStart: bool, expired: bool)
    requires e.Valid() && b.phase.mode == ProbeRtt && b.limits.minWindow == 4 * b.limits.datagram
    ensures ExitStep(b.phase, MaybeEnterOrExitProbeRtt(b, e, roundStart, expired), e, roundStart)
  {
  }

  lemma SameStay(p: Phase, p': Phase, b: Bbr, b': Bbr, e: BbrModel.Event, newRound: bool)
    requires ExitStep(p, b, e, newRound) && b'.phase == b.phase && b'.bytesInFlight == b.bytesInFlight && b'.limits == b.limits
    requires p'.exitProbeRttAt == p.exitProbeRttAt && p'.probeRttRoundPassed == p.probeRttRoundPassed
    ensures ExitStep(p', b', e, newRound)
  {
  }

  lemma EventExitStep(b: Bbr, e: BbrModel.Event)
    requires e.Valid() && b.phase.mode == ProbeRtt && b.limits.minWindow == 4 * b.limits.datagram
    ensures ExitStep(b.phase, BbrModel.OnCongestionEvent(b, e), e, NewRound(b, e))
  {
    var (b1, v) := PathUpdated(b, e);
    var b2 := b1.(phase := CycleAndStartup(b1, e, RoundStart(b, e), v.lastPacketSendState));
    PathKeeps(b, e);
    EventPhase(b, e);
    EventKeepsPath(b, e);
    CycleKeepsProbeRtt(b1, e, RoundStart(b, e), v.lastPacketSendState);
    ExitStepOfPhase(b2, e, RoundStart(b, e), SeesExpiry(b, e, v));
    ModesKeepMinRtt(b1, e, RoundStart(b, e), SeesExpiry(b, e, v), v.lastPacketSendState);
    PathRounds(b, e);
    SameStay(b2.phase, b.phase, MaybeEnterOrExitProbeRtt(b2, e, RoundStart(b, e), SeesExpiry(b, e, v)),
             BbrModel.OnCongestionEvent(b, e), e, RoundStart(b, e));
  }

  /** In every run, an event in PROBE_RTT goes on with the stay or ends it as that says. */
  lemma ProbeRttEnds(ws: seq<World>, ops: seq<Op>, datagram: int, maxPackets: int, n: nat)
    requires datagram > 0 && maxPackets >= INITIAL_WINDOW_PACKETS && Run(ws, ops, datagram, maxPackets)
    requires n < |ops| && ops[n].Congestion? && ws[n].b.phase.mode == ProbeRtt
    ensures ExitStep(ws[n].b.phase, ws[n + 1].b, ops[n].e, NewRound(ws[n].b, ops[n].e))
  {
    RunSafe(ws, ops, datagram, maxPackets, n);
    EventExitStep(ws[n].b, ops[n].e);
  }

  lemma CycleLeavesStartup(b: Bbr, e: BbrModel.Event, roundStart: bool, state: SendTimeState)
    requires e.Valid() && GainsMatch(b.phase) && (b.phase.mode == Startup || b.phase.mode == Drain)
    ensures var p := CycleAndStartup(b, e, roundStart, state);
            p.mode == if !p.isAtFullBandwidth then Startup
                      else if b.bytesInFlight <= TargetWindow(b, 1.0, e.rttMin) then ProbeBw else Drain
  {
  }

  lemma EntryKeepsMode(b: Bbr, e: BbrModel.Event, roundStart: bool, expired: bool)
    requires e.Valid() && b.phase.mode != ProbeRtt
    ensures var p := MaybeEnterOrExitProbeRtt(b, e, roundStart, expired).phase;
            (p.mode == ProbeRtt || p.mode == b.phase.mode) && p.isAtFullBandwidth == b.phase.isAtFullBandwidth
  {
  }

  lemma EventLeavesStartup(b: Bbr, e: BbrModel.Event, maxPackets: int)
    requires e.Valid() && GainsMatch(b.phase) && (b.phase.mode == Startup || b.phase.mode == Drain)
    requires b.limits == NewLimits(b.limits.datagram, maxPackets)
    ensures var b' := BbrModel.OnCongestionEvent(b, e);
            b'.phase.mode == ProbeRtt
            || b'.phase.mode == if !b'.phase.isAtFullBandwidth then Startup
                                else if b'.bytesInFlight <= Share(b', 1, 1, e.rttMin) then ProbeBw else Drain
  {
    var (b1, v) := PathUpdated(b, e);
    EventPhase(b, e);
    EventKeepsPath(b, e);
    SharesAreTargets(b1, e.rttMin, maxPackets);
    CycleLeavesStartup(b1, e, RoundStart(b, e), v.lastPacketSendState);
    EntryKeepsMode(b1.(phase := CycleAndStartup(b1, e, RoundStart(b, e), v.lastPacketSendState)), e, RoundStart(b, e), SeesExpiry(b, e, v));
  }

  /** In every run, an event in STARTUP or DRAIN leaves STARTUP exactly when full bandwidth is reached, and
      drains exactly until the flight fits the path, unless PROBE_RTT begins. */
  lemma StartupDrains(ws: seq<World>, ops: seq<Op>, datagram: int, maxPackets: int, n: nat)
    requires datagram > 0 && maxPackets >= INITIAL_WINDOW_PACKETS && Run(ws, ops, datagram, maxPackets)
    requires n < |ops| && ops[n].Congestion? && (ws[n].b.phase.mode == Startup || ws[n].b.phase.mode == Drain)
    ensures var b' := ws[n + 1].b;
            b'.phase.mode == ProbeRtt
            || b'.phase.mode == if !b'.phase.isAtFullBandwidth then Startup
                                else if b'.bytesInFlight <= Share(b', 1, 1, ops[n].e.rttMin) then ProbeBw else Drain
  {
    RunSafe(ws, ops, datagram, maxPackets, n);
    RunGains(ws, ops, datagram, maxPackets, n);
    EventLeavesStartup(ws[n].b, ops[n].e, maxPackets);
  }

  /** In STARTUP a stored rate rises to 2.885 times the estimate, when that is more, and otherwise stays. */
  lemma RateKeepsUp(ws: seq<World>, ops: seq<Op>, datagram: int, maxPackets: int, n: nat)
    requires Run(ws, ops, datagram, maxPackets) && n < |ops| && ops[n].Congestion?
    requires ws[n].b.pacingRate != 0 && ws[n + 1].b.phase.mode == Startup && BandwidthEstimate(ws[n + 1].b) >= 0
    ensures ws[n + 1].b.pacingRate
         == if BandwidthEstimate(ws[n + 1].b) == 0 then ws[n].b.pacingRate
            else Max(ws[n].b.pacingRate, (2.885 * BandwidthEstimate(ws[n + 1].b) as real).Floor)
  {
    RunGains(ws, ops, datagram, maxPackets, n + 1);
    BbrRates.EventRate(ws[n].b, ops[n].e);
  }
}
