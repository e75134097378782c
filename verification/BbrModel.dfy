/** What the BBR sender computes (internal/congestion/bbr/bbr_sender.go), as functions on
    values, in the standard profile. Gains are reals, and a scaled integer is truncated. */
module BbrModel {
  import opened Arith
  import opened WindowedFilters
  import opened PacketQueues
  import Pacers
  import SM = SamplerModel
  import opened SamplerModel

  const MIN_BPS := 65536
  const INITIAL_WINDOW_PACKETS := 32
  const MIN_WINDOW_PACKETS := 4
  const HIGH_GAIN: real := 2.885
  const DRAIN_GAIN: real := 1.0 / 2.885
  const HIGH_CWND_GAIN: real := 2.0
  const CWND_GAIN: real := 2.0
  const GAIN_CYCLE: seq<real> := [1.25, 0.75, 1.0, 1.0, 1.0, 1.0, 1.0, 1.0]
  const GAIN_CYCLE_LENGTH := 8
  const MIN_RTT_EXPIRY := 10 * NANOS
  const PROBE_RTT_TIME := 200_000_000
  const DEFAULT_RTT := 100_000_000
  const STARTUP_GROWTH_TARGET: real := 1.25
  const STARTUP_ROUNDS := 3
  const STARTUP_FULL_LOSS_COUNT := 8
  const LOSS_THRESHOLD: real := 0.02

  datatype Mode = Startup | Drain | ProbeBw | ProbeRtt
  datatype RecoveryState = NotInRecovery | Conservation | Growth

  /** The round trip in progress. */
  datatype Round = Round(count: int, currentRoundTripEnd: int, numLossEventsInRound: int, bytesLostInRound: int)

  /** The model of the path. */
  datatype Path = Path(
    maxBandwidth: Estimates<int>,
    minRtt: int,
    minRttTimestamp: int,
    lastSampleIsAppLimited: bool,
    hasNoAppLimitedSample: bool)

  /** The mode and what only the mode machine uses. */
  datatype Phase = Phase(
    mode: Mode,
    pacingGain: real,
    congestionWindowGain: real,
    cycleCurrentOffset: nat,
    lastCycleStart: int,
    isAtFullBandwidth: bool,
    roundsWithoutBandwidthGain: int,
    bandwidthAtLastRound: int,
    exitingQuiescence: bool,
    exitProbeRttAt: int,
    probeRttRoundPassed: bool)

  datatype Recovery = Recovery(state: RecoveryState, endAt: int, window: int)

  datatype Limits = Limits(datagram: int, initialWindow: int, maxWindow: int, minWindow: int)

  datatype Bbr = Bbr(
    sampler: Sampler,
    lastSentPacket: int,
    bytesInFlight: int,
    round: Round,
    path: Path,
    phase: Phase,
    recovery: Recovery,
    limits: Limits,
    congestionWindow: int,
    pacingRate: int)

  /** A congestion event. rttMin is the minimum of the connection's RTT statistics then, zero
      when there is none, and draw is the random value below 7 that picks a cycle offset.
      extraPacket is MaxPacketBufferSize of the QUIC library. */
  datatype Event = Event(
    priorInFlight: int,
    time: int,
    acked: seq<AckedPacket>,
    lost: seq<LostPacket>,
    rttMin: nat,
    draw: nat,
    extraPacket: nat)
  {
    ghost predicate Valid() {
      (acked != [] || lost != []) && draw < GAIN_CYCLE_LENGTH - 1
    }
  }

  function NewLimits(datagram: int, maxWindowPackets: int): Limits {
    Limits(datagram, INITIAL_WINDOW_PACKETS * datagram, maxWindowPackets * datagram, MIN_WINDOW_PACKETS * datagram)
  }

  const NEW_PHASE := EnterStartup(Phase(Startup, 1.0, 1.0, 0, 0, false, 0, 0, false, 0, false))

  function New(datagram: int, maxWindowPackets: int): Bbr {
    var limits := NewLimits(datagram, maxWindowPackets);
    Bbr(NEW_SAMPLER, INVALID_PACKET, 0, Round(0, INVALID_PACKET, 0, 0), Path(Cleared(0), 0, 0, false, false),
        NEW_PHASE, Recovery(NotInRecovery, INVALID_PACKET, limits.maxWindow), limits, limits.initialWindow, 0)
  }

  function Trunc(x: real): int {
    if x >= 0.0 then x.Floor else -((-x).Floor)
  }

  function Scaled(gain: real, x: int): int {
    Trunc(gain * x as real)
  }

  function BandwidthEstimate(b: Bbr): int {
    b.path.maxBandwidth.best.sample
  }

  /** The minimum RTT of the path, of the connection's statistics, or a default. */
  function MinRttOr(minRtt: int, rttMin: nat): int {
    if minRtt != 0 then minRtt else if rttMin == 0 then DEFAULT_RTT else rttMin
  }

  function GetMinRtt(b: Bbr, rttMin: nat): int {
    MinRttOr(b.path.minRtt, rttMin)
  }

  /** Whether the pacer lets a datagram out. */
  function HasPacingBudget(b: Bbr, pacer: Pacers.Bucket, now: int, rttMin: nat, delay: nat): bool
    requires b.path.minRtt >= 0
  {
    Pacers.Budget(pacer, now, BandwidthForPacer(b, rttMin), delay) >= b.limits.datagram
  }

  /** A gain times the bandwidth-delay product, or times the initial window without one. */
  function Target(rtt: int, bandwidth: int, gain: real, l: Limits): int {
    var window := Scaled(gain, Quotient(Quotient(rtt * bandwidth, BYTES_PER_SECOND), NANOS));
    Max(if window == 0 then Scaled(gain, l.initialWindow) else window, l.minWindow)
  }

  function PacingRate(b: Bbr, rttMin: nat): int
    requires b.path.minRtt >= 0
  {
    if b.pacingRate == 0 then Scaled(HIGH_GAIN, BandwidthFromDelta(b.limits.initialWindow, GetMinRtt(b, rttMin)))
    else b.pacingRate
  }

  /** Never below MIN_BPS, so the pacer never divides by zero. */
  function BandwidthForPacer(b: Bbr, rttMin: nat): int
    requires b.path.minRtt >= 0
  {
    Max(MIN_BPS, Trunc(PacingRate(b, rttMin) as real / BYTES_PER_SECOND as real))
  }

  function TargetWindow(b: Bbr, gain: real, rttMin: nat): int {
    Target(GetMinRtt(b, rttMin), BandwidthEstimate(b), gain, b.limits)
  }

  function InRecovery(b: Bbr): bool {
    b.recovery.state != NotInRecovery
  }

  function CongestionWindow(b: Bbr): int {
    if b.phase.mode == ProbeRtt then b.limits.minWindow
    else if InRecovery(b) then Min(b.congestionWindow, b.recovery.window)
    else b.congestionWindow
  }

  function CanSend(b: Bbr, inFlight: int): bool {
    inFlight < CongestionWindow(b)
  }

  function OnPacketSent(b: Bbr, time: int, inFlight: int, pn: int, bytes: int, retransmittable: bool): Bbr {
    b.(lastSentPacket := pn,
       bytesInFlight := inFlight,
       phase := if inFlight == 0 then b.phase.(exitingQuiescence := true) else b.phase,
       sampler := SM.OnPacketSent(b.sampler, time, pn, bytes, inFlight, retransmittable))
  }

  function ScaleWindow(window: int, from: int, to: int): int
    requires from > 0
  {
    if from == to then window else Quotient(window * to, from)
  }

  function Rescaled(l: Limits, datagram: int): Limits
    requires l.datagram > 0
  {
    Limits(datagram, ScaleWindow(l.initialWindow, l.datagram, datagram), ScaleWindow(l.maxWindow, l.datagram, datagram),
           MIN_WINDOW_PACKETS * datagram)
  }

  function SetMaxDatagramSize(b: Bbr, datagram: int): Bbr
    requires 0 < b.limits.datagram <= datagram
  {
    var l := Rescaled(b.limits, datagram);
    b.(limits := l,
       congestionWindow :=
         if b.congestionWindow == b.limits.minWindow then l.minWindow
         else if b.congestionWindow == b.limits.initialWindow then l.initialWindow
         else Min(l.maxWindow, Max(b.congestionWindow, l.minWindow)),
       recovery := b.recovery.(window := Min(l.maxWindow, Max(b.recovery.window, l.minWindow))))
  }

  function MaybeAppLimited(b: Bbr, inFlight: int, rttMin: nat): Bbr {
    if inFlight < TargetWindow(b, 1.0, rttMin) then b.(sampler := SM.OnAppLimited(b.sampler)) else b
  }

  function AckedBytes(acked: seq<AckedPacket>): int {
    if acked == [] then 0 else AckedBytes(acked[..|acked| - 1]) + acked[|acked| - 1].bytesAcked
  }

  function LostBytes(lost: seq<LostPacket>): int {
    if lost == [] then 0 else LostBytes(lost[..|lost| - 1]) + lost[|lost| - 1].bytesLost
  }

  /** The start of an event: the app-limited check and the bytes still in flight. */
  function Received(b: Bbr, e: Event): Bbr {
    MaybeAppLimited(b, e.priorInFlight, e.rttMin)
      .(bytesInFlight := e.priorInFlight - AckedBytes(e.acked) - LostBytes(e.lost))
  }

  function StartsRound(r: Round, lastAcked: int): bool {
    r.currentRoundTripEnd == INVALID_PACKET || lastAcked > r.currentRoundTripEnd
  }

  function UpdateRoundTripCounter(r: Round, lastAcked: int, lastSent: int): Round {
    if StartsRound(r, lastAcked) then r.(count := r.count + 1, currentRoundTripEnd := lastSent) else r
  }

  function EntersRecovery(r: Recovery, full: bool, hasLosses: bool): bool {
    full && hasLosses && r.state == NotInRecovery
  }

  /** Once recovery is on: growth after a round, the end after a loss-free ack beyond the end
      mark. */
  function UpdateRecoveryState(r: Recovery, full: bool, lastSent: int, lastAcked: int, hasLosses: bool, roundStart: bool): Recovery {
    if !full then r
    else
      var r1 := if hasLosses then r.(endAt := lastSent) else r;
      if EntersRecovery(r, full, hasLosses) then r1.(state := Conservation, window := 0)
      else if r1.state == NotInRecovery then r1
      else if !hasLosses && lastAcked > r1.endAt then r1.(state := NotInRecovery)
      else if r1.state == Conservation && roundStart then r1.(state := Growth)
      else r1
  }

  function LastAcked(e: Event): int
    requires e.acked != []
  {
    e.acked[|e.acked| - 1].packetNumber
  }

  function RoundStart(b: Bbr, e: Event): bool {
    e.acked != [] && StartsRound(b.round, LastAcked(e))
  }

  /** Round counting and recovery, on events with acks. The start of recovery extends the round. */
  function RoundsAndRecovery(r: Round, rec: Recovery, full: bool, lastSent: int, e: Event): (Round, Recovery) {
    if e.acked == [] then (r, rec)
    else
      var hasLosses := e.lost != [];
      var r1 := UpdateRoundTripCounter(r, LastAcked(e), lastSent);
      (if EntersRecovery(rec, full, hasLosses) then r1.(currentRoundTripEnd := lastSent) else r1,
       UpdateRecoveryState(rec, full, lastSent, LastAcked(e), hasLosses, StartsRound(r, LastAcked(e))))
  }

  function Rounds(b: Bbr, e: Event): Bbr {
    var (r, rec) := RoundsAndRecovery(b.round, b.recovery, b.phase.isAtFullBandwidth, b.lastSentPacket, e);
    b.(round := r, recovery := rec)
  }

  function Sample(b: Bbr, e: Event): (Sampler, EventSample) {
    SM.OnCongestionEvent(b.sampler, e.time, e.acked, e.lost, BandwidthEstimate(b), INF_BANDWIDTH, b.round.count)
  }

  /** The bandwidth filter takes the sample of an event that acked bytes, unless an app-limited
      sample brings nothing new. */
  function BandwidthUpdated(p: Path, v: EventSample, ackedBytes: bool, round: int): Path {
    var p1 := if v.lastPacketSendState.isValid then
                p.(lastSampleIsAppLimited := v.lastPacketSendState.isAppLimited,
                   hasNoAppLimitedSample := p.hasNoAppLimitedSample || !v.lastPacketSendState.isAppLimited)
              else p;
    if ackedBytes && (!v.isAppLimited || v.maxBandwidth > p.maxBandwidth.best.sample) then
      p1.(maxBandwidth := Updated(p.maxBandwidth, Entry(v.maxBandwidth, round), 0, WINDOW, MaxFilter))
    else p1
  }

  function MinRttExpired(p: Path, now: int): bool {
    p.minRtt != 0 && now > p.minRttTimestamp + MIN_RTT_EXPIRY
  }

  /** Only an event with an RTT sample looks at the age of the minimum RTT. */
  function SeesExpiry(b: Bbr, e: Event, v: EventSample): bool {
    v.rtt != INF_RTT && MinRttExpired(b.path, e.time)
  }

  function MinRttUpdated(p: Path, now: int, sample: int): Path {
    if sample != INF_RTT && (MinRttExpired(p, now) || sample < p.minRtt || p.minRtt == 0) then
      p.(minRtt := sample, minRttTimestamp := now)
    else p
  }

  function LossCounted(r: Round, hasLosses: bool, bytesLost: int): Round {
    if hasLosses then
      r.(numLossEventsInRound := r.numLossEventsInRound + 1, bytesLostInRound := r.bytesLostInRound + bytesLost)
    else r
  }

  /** The sample of an event and what the model of the path makes of it. */
  function Measured(b: Bbr, e: Event): (Bbr, EventSample) {
    var (s, v) := Sample(b, e);
    var path := BandwidthUpdated(b.path, v, s.totalBytesAcked != b.sampler.totalBytesAcked, b.round.count);
    (b.(sampler := s, path := MinRttUpdated(path, e.time, v.rtt),
        round := LossCounted(b.round, e.lost != [], s.totalBytesLost - b.sampler.totalBytesLost)), v)
  }

  /** The model of the path after an event: rounds, recovery, bandwidth, RTT and losses. */
  function PathUpdated(b: Bbr, e: Event): (Bbr, EventSample) {
    Measured(Rounds(Received(b, e), e), e)
  }

  function EnterStartup(p: Phase): Phase {
    p.(mode := Startup, pacingGain := HIGH_GAIN, congestionWindowGain := HIGH_CWND_GAIN)
  }

  /** A random offset of the gain cycle, any but 1. */
  function CycleOffset(draw: nat): nat {
    if draw >= 1 then draw + 1 else draw
  }

  function EnterProbeBw(p: Phase, now: int, draw: nat): Phase
    requires draw < GAIN_CYCLE_LENGTH - 1
  {
    p.(mode := ProbeBw, congestionWindowGain := CWND_GAIN, cycleCurrentOffset := CycleOffset(draw),
       lastCycleStart := now, pacingGain := GAIN_CYCLE[CycleOffset(draw)])
  }

  /** A probe goes on until it has filled its target or lost packets, and a drain ends as soon as
      the flight is down; otherwise a phase lasts one minimum RTT. */
  function AdvancesCycle(p: Phase, e: Event, inFlight: int, drainTarget: int, probeTarget: int, rtt: int): bool {
    if p.pacingGain < 1.0 && inFlight <= drainTarget then true
    else if p.pacingGain > 1.0 && e.lost == [] && e.priorInFlight < probeTarget then false
    else e.time > p.lastCycleStart + rtt
  }

  function NextCycle(p: Phase, now: int): Phase {
    var offset := (p.cycleCurrentOffset + 1) % GAIN_CYCLE_LENGTH;
    p.(cycleCurrentOffset := offset, lastCycleStart := now, pacingGain := GAIN_CYCLE[offset])
  }

  function UpdateGainCycle(p: Phase, e: Event, inFlight: int, drainTarget: int, probeTarget: int, rtt: int): Phase {
    if p.mode == ProbeBw && AdvancesCycle(p, e, inFlight, drainTarget, probeTarget, rtt) then NextCycle(p, e.time) else p
  }

  function ExcessiveLoss(r: Round, state: SendTimeState): bool {
    && r.numLossEventsInRound >= STARTUP_FULL_LOSS_COUNT && state.isValid
    && state.bytesInFlight > 0 && r.bytesLostInRound > 0
    && r.bytesLostInRound > Scaled(LOSS_THRESHOLD, state.bytesInFlight)
  }

  function CheckFullBandwidth(p: Phase, appLimited: bool, bandwidth: int, r: Round, state: SendTimeState): Phase {
    if appLimited then p
    else if bandwidth >= Scaled(STARTUP_GROWTH_TARGET, p.bandwidthAtLastRound) then
      p.(bandwidthAtLastRound := bandwidth, roundsWithoutBandwidthGain := 0)
    else
      var p1 := p.(roundsWithoutBandwidthGain := p.roundsWithoutBandwidthGain + 1);
      if p1.roundsWithoutBandwidthGain >= STARTUP_ROUNDS || ExcessiveLoss(r, state) then p1.(isAtFullBandwidth := true) else p1
  }

  function MaybeExitStartupOrDrain(p: Phase, drained: bool, now: int, draw: nat): Phase
    requires draw < GAIN_CYCLE_LENGTH - 1
  {
    var p1 := if p.mode == Startup && p.isAtFullBandwidth then
                p.(mode := Drain, pacingGain := DRAIN_GAIN, congestionWindowGain := HIGH_CWND_GAIN)
              else p;
    if p1.mode == Drain && drained then EnterProbeBw(p1, now, draw) else p1
  }

  function EntersProbeRtt(p: Phase, minRttExpired: bool): bool {
    minRttExpired && !p.exitingQuiescence && p.mode != ProbeRtt
  }

  function EnterProbeRtt(p: Phase): Phase {
    p.(mode := ProbeRtt, pacingGain := 1.0, exitProbeRttAt := 0)
  }

  /** Whether an event ends a PROBE_RTT stay: the exit is timed, the time and a round passed. */
  function ExitsProbeRtt(p: Phase, now: int, roundStart: bool): bool {
    p.exitProbeRttAt != 0 && now >= p.exitProbeRttAt && (p.probeRttRoundPassed || roundStart)
  }

  /** One event in PROBE_RTT: the exit is timed once the flight is small enough. */
  function InProbeRtt(p: Phase, smallFlight: bool, now: int, roundStart: bool, draw: nat): Phase
    requires draw < GAIN_CYCLE_LENGTH - 1
  {
    if p.exitProbeRttAt == 0 then
      if smallFlight then p.(exitProbeRttAt := now + PROBE_RTT_TIME, probeRttRoundPassed := false) else p
    else
      var p1 := p.(probeRttRoundPassed := p.probeRttRoundPassed || roundStart);
      if !ExitsProbeRtt(p, now, roundStart) then p1
      else if !p1.isAtFullBandwidth then EnterStartup(p1)
      else EnterProbeBw(p1, now, draw)
  }

  function MaybeEnterOrExitProbeRtt(b: Bbr, e: Event, roundStart: bool, minRttExpired: bool): Bbr
    requires e.Valid()
  {
    var p := if EntersProbeRtt(b.phase, minRttExpired) then EnterProbeRtt(b.phase) else b.phase;
    if p.mode != ProbeRtt then b.(phase := p.(exitingQuiescence := false))
    else
      var smallFlight := b.bytesInFlight < b.limits.minWindow + e.extraPacket;
      var p' := InProbeRtt(p, smallFlight, e.time, roundStart, e.draw);
      b.(phase := p'.(exitingQuiescence := false),
         sampler := SM.OnAppLimited(b.sampler),
         path := if ExitsProbeRtt(p, e.time, roundStart) then b.path.(minRttTimestamp := e.time) else b.path)
  }

  /** The modes up to the PROBE_RTT step. */
  function CycleAndStartup(b: Bbr, e: Event, roundStart: bool, state: SendTimeState): Phase
    requires e.Valid()
  {
    var drainTarget := TargetWindow(b, 1.0, e.rttMin);
    var p1 := UpdateGainCycle(b.phase, e, b.bytesInFlight, drainTarget, TargetWindow(b, b.phase.pacingGain, e.rttMin),
                              GetMinRtt(b, e.rttMin));
    var p2 := if roundStart && !p1.isAtFullBandwidth then
                CheckFullBandwidth(p1, b.path.lastSampleIsAppLimited, BandwidthEstimate(b), b.round, state)
              else p1;
    MaybeExitStartupOrDrain(p2, b.bytesInFlight <= drainTarget, e.time, e.draw)
  }

  /** The mode machine of one event. */
  function Modes(b: Bbr, e: Event, roundStart: bool, minRttExpired: bool, state: SendTimeState): Bbr
    requires e.Valid()
  {
    MaybeEnterOrExitProbeRtt(b.(phase := CycleAndStartup(b, e, roundStart, state)), e, roundStart, minRttExpired)
  }

  function CalculatePacingRate(rate: int, bandwidth: int, p: Phase, l: Limits, rttMin: nat): int {
    if bandwidth == 0 then rate
    else if p.isAtFullBandwidth then Scaled(p.pacingGain, bandwidth)
    else if rate == 0 && rttMin != 0 then BandwidthFromDelta(l.initialWindow, rttMin)
    else Max(rate, Scaled(p.pacingGain, bandwidth))
  }

  /** target is the target window, height the ack height that full bandwidth adds to it, and
      totalAcked the bytes acked so far. */
  function CalculateCongestionWindow(window: int, p: Phase, l: Limits, target: int, height: int, totalAcked: int, bytesAcked: int): int {
    if p.mode == ProbeRtt then window
    else
      var w :=
        if p.isAtFullBandwidth then Min(target + height, window + bytesAcked)
        else if window < target || totalAcked < l.initialWindow then window + bytesAcked
        else window;
      Min(Max(w, l.minWindow), l.maxWindow)
  }

  function CalculateRecoveryWindow(r: Recovery, l: Limits, inFlight: int, bytesAcked: int, bytesLost: int): int {
    if r.state == NotInRecovery then r.window
    else if r.window == 0 then Max(l.minWindow, inFlight + bytesAcked)
    else
      var afterLoss := if r.window >= bytesLost then r.window - bytesLost else l.datagram;
      var grown := if r.state == Growth then afterLoss + bytesAcked else afterLoss;
      Max(l.minWindow, Max(grown, inFlight + bytesAcked))
  }

  function Controlled(b: Bbr, bytesAcked: int, bytesLost: int, rttMin: nat): Bbr {
    b.(pacingRate := CalculatePacingRate(b.pacingRate, BandwidthEstimate(b), b.phase, b.limits, rttMin),
       congestionWindow :=
         CalculateCongestionWindow(b.congestionWindow, b.phase, b.limits,
                                   TargetWindow(b, b.phase.congestionWindowGain, rttMin),
                                   b.sampler.height.filter.best.sample.extraAcked, b.sampler.totalBytesAcked, bytesAcked),
       recovery := b.recovery.(window := CalculateRecoveryWindow(b.recovery, b.limits, b.bytesInFlight, bytesAcked, bytesLost)))
  }

  function LeastUnacked(e: Event): int
    requires e.Valid()
  {
    if e.acked != [] then LastAcked(e) - 2 else e.lost[|e.lost| - 1].packetNumber + 1
  }

  function CleanedUp(b: Bbr, e: Event, roundStart: bool): Bbr
    requires e.Valid()
  {
    b.(sampler := SM.RemoveObsoletePackets(b.sampler, LeastUnacked(e)),
       round := if roundStart then b.round.(numLossEventsInRound := 0, bytesLostInRound := 0) else b.round)
  }

  /** The model of the path and the mode, before the rate and the windows follow. */
  function ModelUpdated(b: Bbr, e: Event): Bbr
    requires e.Valid()
  {
    var (b1, v) := PathUpdated(b, e);
    Modes(b1, e, RoundStart(b, e), SeesExpiry(b, e, v), v.lastPacketSendState)
  }

  function OnCongestionEvent(b: Bbr, e: Event): Bbr
    requires e.Valid()
  {
    var b1 := ModelUpdated(b, e);
    var b2 := Controlled(b1, b1.sampler.totalBytesAcked - b.sampler.totalBytesAcked,
                         b1.sampler.totalBytesLost - b.sampler.totalBytesLost, e.rttMin);
    CleanedUp(b2, e, RoundStart(b, e))
  }
}
