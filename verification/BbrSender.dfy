/** The BBR sender (internal/congestion/bbr/bbr_sender.go) in the standard profile. Every method
    is proved to compute what BbrModel says of the value of the object. The fields of the
    original are grouped into the records of BbrModel. The sampler, the bandwidth filter and the
    pacer are held as values: the classes Samplers.BandwidthSampler,
    WindowedFilters.WindowedFilter and Pacers.Pacer are proved to compute these functions.
    rttMin is what the RTT statistics of the connection report as the minimum at the call, zero
    for none. */
module BbrSenders {
  import opened Arith
  import opened WindowedFilters
  import opened PacketQueues
  import Pacers
  import SM = SamplerModel
  import opened SamplerModel
  import opened BbrModel

  /** An event is the model update, the control of rate and windows by what it acked and lost, and
      the clean-up, one after the other. */
  lemma EventInParts(before: Bbr, modelled: Bbr, controlled: Bbr, e: BbrModel.Event, bytesAcked: int, bytesLost: int)
    requires e.Valid() && modelled == ModelUpdated(before, e)
    requires bytesAcked == modelled.sampler.totalBytesAcked - before.sampler.totalBytesAcked
    requires bytesLost == modelled.sampler.totalBytesLost - before.sampler.totalBytesLost
    requires controlled == Controlled(modelled, bytesAcked, bytesLost, e.rttMin)
    ensures BbrModel.OnCongestionEvent(before, e) == CleanedUp(controlled, e, RoundStart(before, e))
  {
  }

  class BbrSender {
    /** MinPacingDelay of the QUIC library, in nanoseconds. */
    const minPacingDelay: nat
    var pacer: Pacers.Bucket
    var sampler: Sampler
    var lastSentPacket: int
    var bytesInFlight: int
    var round: Round
    var path: Path
    var phase: Phase
    var recovery: Recovery
    var limits: Limits
    var congestionWindow: int
    var pacingRate: int

    function Value(): Bbr
      reads this
    {
      Bbr(sampler, lastSentPacket, bytesInFlight, round, path, phase, recovery, limits, congestionWindow, pacingRate)
    }

    constructor (initialMaxDatagramSize: nat, maxWindowPackets: nat, initialPacketSize: nat, minPacingDelay: nat)
      ensures Value() == New(initialMaxDatagramSize, maxWindowPackets)
      ensures pacer == Pacers.Bucket(Pacers.MAX_BURST_PACKETS * initialPacketSize, initialPacketSize, 0)
      ensures this.minPacingDelay == minPacingDelay
    {
      this.minPacingDelay := minPacingDelay;
      pacer := Pacers.Bucket(Pacers.MAX_BURST_PACKETS * initialPacketSize, initialPacketSize, 0);
      sampler := NEW_SAMPLER;
      lastSentPacket, bytesInFlight := INVALID_PACKET, 0;
      round := Round(0, INVALID_PACKET, 0, 0);
      path := Path(Cleared(0), 0, 0, false, false);
      limits := NewLimits(initialMaxDatagramSize, maxWindowPackets);
      recovery := Recovery(NotInRecovery, INVALID_PACKET, maxWindowPackets * initialMaxDatagramSize);
      congestionWindow, pacingRate := INITIAL_WINDOW_PACKETS * initialMaxDatagramSize, 0;
      phase := Phase(Startup, 1.0, 1.0, 0, 0, false, 0, 0, false, 0, false);
      new;
      EnterStartupMode();
    }

    /** The bandwidth callback of the pacer. */
    method PacerBandwidth(rttMin: nat) returns (bw: int)
      requires path.minRtt >= 0
      ensures bw == BandwidthForPacer(Value(), rttMin)
    {
      var rate := pacingRate;
      if rate == 0 {
        rate := Scaled(HIGH_GAIN, BandwidthFromDelta(limits.initialWindow, MinRttOr(path.minRtt, rttMin)));
      }
      bw := Trunc(rate as real / BYTES_PER_SECOND as real);
      if bw < MIN_BPS {
        bw := MIN_BPS;
      }
    }

    method TimeUntilSend(rttMin: nat) returns (time: int)
      requires path.minRtt >= 0
      ensures time == Pacers.ReadyAt(pacer, BandwidthForPacer(Value(), rttMin), minPacingDelay)
    {
      var bw := PacerBandwidth(rttMin);
      time := Pacers.ReadyAt(pacer, bw, minPacingDelay);
    }

    method HasPacingBudget(now: int, rttMin: nat) returns (has: bool)
      requires path.minRtt >= 0
      ensures has == BbrModel.HasPacingBudget(Value(), pacer, now, rttMin, minPacingDelay)
    {
      var bw := PacerBandwidth(rttMin);
      has := Pacers.Budget(pacer, now, bw, minPacingDelay) >= limits.datagram;
    }

    method OnPacketSent(sentTime: int, inFlight: int, packetNumber: int, bytes: int, isRetransmittable: bool, rttMin: nat)
      requires path.minRtt >= 0
      modifies this
      ensures Value() == BbrModel.OnPacketSent(old(Value()), sentTime, inFlight, packetNumber, bytes, isRetransmittable)
      ensures pacer == Pacers.Sent(old(pacer), sentTime, bytes, BandwidthForPacer(old(Value()), rttMin), minPacingDelay)
    {
      var bw := PacerBandwidth(rttMin);
      pacer := Pacers.Sent(pacer, sentTime, bytes, bw, minPacingDelay);
      lastSentPacket := packetNumber;
      bytesInFlight := inFlight;
      if inFlight == 0 {
        phase := phase.(exitingQuiescence := true);
      }
      sampler := SM.OnPacketSent(sampler, sentTime, packetNumber, bytes, inFlight, isRetransmittable);
    }

    /** At least the minimum window and at most the congestion window, when both windows are at least
        the minimum, as they are in every run. */
    method GetCongestionWindow() returns (window: int)
      ensures limits.minWindow <= congestionWindow && limits.minWindow <= recovery.window ==>
                limits.minWindow <= window <= congestionWindow
      ensures InRecovery(Value()) ==> window <= Max(recovery.window, limits.minWindow)
      ensures window == CongestionWindow(Value())
    {
      if phase.mode == ProbeRtt {
        return limits.minWindow;
      }
      if recovery.state != NotInRecovery {
        return Min(congestionWindow, recovery.window);
      }
      return congestionWindow;
    }

    method CanSend(inFlight: int) returns (can: bool)
      ensures can == BbrModel.CanSend(Value(), inFlight)
    {
      var window := GetCongestionWindow();
      can := inFlight < window;
    }

    method SetMaxDatagramSize(s: int)
      requires 0 < limits.datagram <= s
      modifies this
      ensures Value() == BbrModel.SetMaxDatagramSize(old(Value()), s)
      ensures pacer == old(pacer).(maxDatagramSize := s)
    {
      var oldLimits := limits;
      limits := Rescaled(limits, s);
      if congestionWindow == oldLimits.minWindow {
        congestionWindow := limits.minWindow;
      } else if congestionWindow == oldLimits.initialWindow {
        congestionWindow := limits.initialWindow;
      } else {
        congestionWindow := Min(limits.maxWindow, Max(congestionWindow, limits.minWindow));
      }
      recovery := recovery.(window := Min(limits.maxWindow, Max(recovery.window, limits.minWindow)));
      pacer := pacer.(maxDatagramSize := s);
    }

    method OnCongestionEventEx(e: BbrModel.Event)
      requires e.Valid()
      modifies `sampler, `bytesInFlight, `round, `recovery, `path, `phase, `pacingRate, `congestionWindow
      ensures Value() == BbrModel.OnCongestionEvent(old(Value()), e) && pacer == old(pacer)
    {
      ghost var before := Value();
      var totalBytesAckedBefore, totalBytesLostBefore := sampler.totalBytesAcked, sampler.totalBytesLost;
      var isRoundStart := UpdateModel(e);
      ghost var modelled := Value();
      var bytesAcked := sampler.totalBytesAcked - totalBytesAckedBefore;
      var bytesLost := sampler.totalBytesLost - totalBytesLostBefore;
      Control(bytesAcked, bytesLost, e.rttMin);
      ghost var controlled := Value();
      CleanUp(e, isRoundStart);
      EventInParts(before, modelled, controlled, e, bytesAcked, bytesLost);
    }

    /** The model of the path and the mode, before the rate and the windows follow. */
    method UpdateModel(e: BbrModel.Event) returns (isRoundStart: bool)
      requires e.Valid()
      modifies `sampler, `bytesInFlight, `round, `recovery, `path, `phase
      ensures Value() == ModelUpdated(old(Value()), e)
      ensures isRoundStart == RoundStart(old(Value()), e)
    {
      var minRttExpired, sample;
      isRoundStart, minRttExpired, sample := UpdatePath(e);
      UpdateModes(e, isRoundStart, minRttExpired, sample.lastPacketSendState);
    }

    /** The first part of an event: rounds, recovery, and the model of the path. */
    method UpdatePath(e: BbrModel.Event) returns (isRoundStart: bool, minRttExpired: bool, sample: EventSample)
      modifies `sampler, `bytesInFlight, `round, `recovery, `path
      ensures (Value(), sample) == PathUpdated(old(Value()), e)
      ensures isRoundStart == RoundStart(old(Value()), e)
      ensures minRttExpired == SeesExpiry(old(Value()), e, sample)
    {
      Receive(e);
      isRoundStart := CountRounds(e);
      minRttExpired, sample := Measure(e);
    }

    /** The app-limited check and the bytes still in flight. */
    method Receive(e: BbrModel.Event)
      modifies `bytesInFlight, `sampler
      ensures Value() == Received(old(Value()), e)
    {
      if e.priorInFlight < TargetWindow(Value(), 1.0, e.rttMin) {
        sampler := SM.OnAppLimited(sampler);
      }
      TakeFromFlight(e);
    }

    method TakeFromFlight(e: BbrModel.Event)
      modifies `bytesInFlight
      ensures bytesInFlight == e.priorInFlight - AckedBytes(e.acked) - LostBytes(e.lost)
    {
      bytesInFlight := e.priorInFlight;
      for i := 0 to |e.acked|
        invariant bytesInFlight == e.priorInFlight - AckedBytes(e.acked[..i])
      {
        assert e.acked[..i + 1][..i] == e.acked[..i];
        bytesInFlight := bytesInFlight - e.acked[i].bytesAcked;
      }
      assert e.acked[..|e.acked|] == e.acked;
      for i := 0 to |e.lost|
        invariant bytesInFlight == e.priorInFlight - AckedBytes(e.acked) - LostBytes(e.lost[..i])
      {
        assert e.lost[..i + 1][..i] == e.lost[..i];
        bytesInFlight := bytesInFlight - e.lost[i].bytesLost;
      }
      assert e.lost[..|e.lost|] == e.lost;
    }

    /** Round counting and recovery. */
    method CountRounds(e: BbrModel.Event) returns (isRoundStart: bool)
      modifies `round, `recovery
      ensures isRoundStart == RoundStart(old(Value()), e)
      ensures Value() == Rounds(old(Value()), e)
    {
      isRoundStart := false;
      if |e.acked| != 0 {
        var lastAckedPacket := e.acked[|e.acked| - 1].packetNumber;
        isRoundStart := UpdateRoundTripCounter(lastAckedPacket);
        UpdateRecoveryState(lastAckedPacket, |e.lost| != 0, isRoundStart);
      }
    }

    method UpdateRoundTripCounter(lastAckedPacket: int) returns (roundStart: bool)
      modifies `round
      ensures roundStart == StartsRound(old(round), lastAckedPacket)
      ensures round == BbrModel.UpdateRoundTripCounter(old(round), lastAckedPacket, lastSentPacket)
    {
      if round.currentRoundTripEnd == INVALID_PACKET || lastAckedPacket > round.currentRoundTripEnd {
        round := round.(count := round.count + 1, currentRoundTripEnd := lastSentPacket);
        return true;
      }
      return false;
    }

    method UpdateRecoveryState(lastAckedPacket: int, hasLosses: bool, isRoundStart: bool)
      modifies `recovery, `round
      ensures recovery == BbrModel.UpdateRecoveryState(old(recovery), phase.isAtFullBandwidth, lastSentPacket,
                                                       lastAckedPacket, hasLosses, isRoundStart)
      ensures round == if EntersRecovery(old(recovery), phase.isAtFullBandwidth, hasLosses)
                       then old(round).(currentRoundTripEnd := lastSentPacket) else old(round)
    {
      if !phase.isAtFullBandwidth {
        return;
      }
      if hasLosses {
        recovery := recovery.(endAt := lastSentPacket);
      }
      if recovery.state == NotInRecovery {
        if hasLosses {
          recovery := recovery.(state := Conservation, window := 0);
          round := round.(currentRoundTripEnd := lastSentPacket);
        }
      } else {
        if recovery.state == Conservation && isRoundStart {
          recovery := recovery.(state := Growth);
        }
        if !hasLosses && lastAckedPacket > recovery.endAt {
          recovery := recovery.(state := NotInRecovery);
        }
      }
    }

    /** The sample of an event and what the model of the path makes of it. */
    method Measure(e: BbrModel.Event) returns (minRttExpired: bool, sample: EventSample)
      modifies `sampler, `path, `round
      ensures (Value(), sample) == Measured(old(Value()), e)
      ensures minRttExpired == SeesExpiry(old(Value()), e, sample)
    {
      var acked, lost := sampler.totalBytesAcked, sampler.totalBytesLost;
      var result := SM.OnCongestionEvent(sampler, e.time, e.acked, e.lost, path.maxBandwidth.best.sample, INF_BANDWIDTH, round.count);
      sampler, sample := result.0, result.1;
      UpdateBandwidth(sample, acked != sampler.totalBytesAcked);
      minRttExpired := false;
      if sample.rtt != INF_RTT {
        minRttExpired := MaybeUpdateMinRtt(e.time, sample.rtt);
      }
      if |e.lost| != 0 {
        round := round.(numLossEventsInRound := round.numLossEventsInRound + 1,
                        bytesLostInRound := round.bytesLostInRound + (sampler.totalBytesLost - lost));
      }
    }

    method UpdateBandwidth(sample: EventSample, ackedBytes: bool)
      modifies `path
      ensures path == BandwidthUpdated(old(path), sample, ackedBytes, round.count)
    {
      if sample.lastPacketSendState.isValid {
        path := path.(lastSampleIsAppLimited := sample.lastPacketSendState.isAppLimited);
        path := path.(hasNoAppLimitedSample := path.hasNoAppLimitedSample || !path.lastSampleIsAppLimited);
      }
      if ackedBytes {
        if !sample.isAppLimited || sample.maxBandwidth > path.maxBandwidth.best.sample {
          path := path.(maxBandwidth := Updated(path.maxBandwidth, Entry(sample.maxBandwidth, round.count), 0, WINDOW, MaxFilter));
        }
      }
    }

    method MaybeUpdateMinRtt(now: int, sampleMinRtt: int) returns (minRttExpired: bool)
      requires sampleMinRtt != INF_RTT
      modifies `path
      ensures minRttExpired == MinRttExpired(old(path), now)
      ensures path == MinRttUpdated(old(path), now, sampleMinRtt)
    {
      minRttExpired := path.minRtt != 0 && now > path.minRttTimestamp + MIN_RTT_EXPIRY;
      if minRttExpired || sampleMinRtt < path.minRtt || path.minRtt == 0 {
        path := path.(minRtt := sampleMinRtt);
        path := path.(minRttTimestamp := now);
      }
    }

    /** The second part of an event: the mode machine. */
    method UpdateModes(e: BbrModel.Event, isRoundStart: bool, minRttExpired: bool, lastPacketSendState: SendTimeState)
      requires e.Valid()
      modifies `phase, `sampler, `path
      ensures Value() == Modes(old(Value()), e, isRoundStart, minRttExpired, lastPacketSendState)
    {
      CycleAndExit(e, isRoundStart, lastPacketSendState);
      MaybeEnterOrExitProbeRtt(e, isRoundStart, minRttExpired);
    }

    /** The steps of PROBE_BW, STARTUP and DRAIN. */
    method CycleAndExit(e: BbrModel.Event, isRoundStart: bool, lastPacketSendState: SendTimeState)
      requires e.Valid()
      modifies `phase
      ensures phase == CycleAndStartup(old(Value()), e, isRoundStart, lastPacketSendState)
    {
      var drainTarget := TargetWindow(Value(), 1.0, e.rttMin);
      if phase.mode == ProbeBw {
        UpdateGainCyclePhase(e, drainTarget, TargetWindow(Value(), phase.pacingGain, e.rttMin), GetMinRtt(Value(), e.rttMin));
      }
      if isRoundStart && !phase.isAtFullBandwidth {
        CheckIfFullBandwidthReached(lastPacketSendState);
      }
      MaybeExitStartupOrDrain(bytesInFlight <= drainTarget, e.time, e.draw);
    }

    method UpdateGainCyclePhase(e: BbrModel.Event, drainTarget: int, probeTarget: int, rtt: int)
      requires phase.mode == ProbeBw
      modifies `phase
      ensures phase == UpdateGainCycle(old(phase), e, bytesInFlight, drainTarget, probeTarget, rtt)
    {
      var shouldAdvanceGainCycling := e.time > phase.lastCycleStart + rtt;
      if phase.pacingGain > 1.0 && |e.lost| == 0 && e.priorInFlight < probeTarget {
        shouldAdvanceGainCycling := false;
      }
      if phase.pacingGain < 1.0 && bytesInFlight <= drainTarget {
        shouldAdvanceGainCycling := true;
      }
      if shouldAdvanceGainCycling {
        var offset := (phase.cycleCurrentOffset + 1) % GAIN_CYCLE_LENGTH;
        phase := phase.(cycleCurrentOffset := offset, lastCycleStart := e.time);
        phase := phase.(pacingGain := GAIN_CYCLE[offset]);
      }
    }

    method CheckIfFullBandwidthReached(lastPacketSendState: SendTimeState)
      modifies `phase
      ensures phase == CheckFullBandwidth(old(phase), path.lastSampleIsAppLimited, path.maxBandwidth.best.sample, round, lastPacketSendState)
    {
      if path.lastSampleIsAppLimited {
        return;
      }
      var target := Scaled(STARTUP_GROWTH_TARGET, phase.bandwidthAtLastRound);
      if path.maxBandwidth.best.sample >= target {
        phase := phase.(bandwidthAtLastRound := path.maxBandwidth.best.sample, roundsWithoutBandwidthGain := 0);
        return;
      }
      phase := phase.(roundsWithoutBandwidthGain := phase.roundsWithoutBandwidthGain + 1);
      var lossy := ShouldExitStartupDueToLoss(lastPacketSendState);
      if phase.roundsWithoutBandwidthGain >= STARTUP_ROUNDS || lossy {
        phase := phase.(isAtFullBandwidth := true);
      }
    }

    method ShouldExitStartupDueToLoss(state: SendTimeState) returns (exit: bool)
      ensures exit == ExcessiveLoss(round, state)
    {
      if round.numLossEventsInRound < STARTUP_FULL_LOSS_COUNT || !state.isValid {
        return false;
      }
      if state.bytesInFlight > 0 && round.bytesLostInRound > 0 {
        return round.bytesLostInRound > Scaled(LOSS_THRESHOLD, state.bytesInFlight);
      }
      return false;
    }

    method MaybeExitStartupOrDrain(drained: bool, now: int, draw: nat)
      requires draw < GAIN_CYCLE_LENGTH - 1
      modifies `phase
      ensures phase == BbrModel.MaybeExitStartupOrDrain(old(phase), drained, now, draw)
    {
      if phase.mode == Startup && phase.isAtFullBandwidth {
        phase := phase.(mode := Drain, pacingGain := DRAIN_GAIN, congestionWindowGain := HIGH_CWND_GAIN);
      }
      if phase.mode == Drain && drained {
        EnterProbeBandwidthMode(now, draw);
      }
    }

    method EnterProbeBandwidthMode(now: int, draw: nat)
      requires draw < GAIN_CYCLE_LENGTH - 1
      modifies `phase
      ensures phase == EnterProbeBw(old(phase), now, draw)
    {
      phase := phase.(mode := ProbeBw, congestionWindowGain := CWND_GAIN, cycleCurrentOffset := draw);
      if phase.cycleCurrentOffset >= 1 {
        phase := phase.(cycleCurrentOffset := phase.cycleCurrentOffset + 1);
      }
      phase := phase.(lastCycleStart := now, pacingGain := GAIN_CYCLE[phase.cycleCurrentOffset]);
    }

    method EnterStartupMode()
      modifies `phase
      ensures phase == EnterStartup(old(phase))
    {
      phase := phase.(mode := Startup, pacingGain := HIGH_GAIN, congestionWindowGain := HIGH_CWND_GAIN);
    }

    method MaybeEnterOrExitProbeRtt(e: BbrModel.Event, isRoundStart: bool, minRttExpired: bool)
      requires e.Valid()
      modifies `phase, `sampler, `path
      ensures Value() == BbrModel.MaybeEnterOrExitProbeRtt(old(Value()), e, isRoundStart, minRttExpired)
    {
      if minRttExpired && !phase.exitingQuiescence && phase.mode != ProbeRtt {
        phase := phase.(mode := ProbeRtt, pacingGain := 1.0, exitProbeRttAt := 0);
      }
      if phase.mode == ProbeRtt {
        sampler := SM.OnAppLimited(sampler);
        StayInProbeRtt(e, isRoundStart);
      }
      phase := phase.(exitingQuiescence := false);
    }

    method StayInProbeRtt(e: BbrModel.Event, isRoundStart: bool)
      requires e.draw < GAIN_CYCLE_LENGTH - 1
      modifies `phase, `path
      ensures phase == InProbeRtt(old(phase), bytesInFlight < limits.minWindow + e.extraPacket, e.time, isRoundStart, e.draw)
      ensures path == if ExitsProbeRtt(old(phase), e.time, isRoundStart) then old(path).(minRttTimestamp := e.time) else old(path)
    {
      if phase.exitProbeRttAt == 0 {
        if bytesInFlight < limits.minWindow + e.extraPacket {
          phase := phase.(exitProbeRttAt := e.time + PROBE_RTT_TIME, probeRttRoundPassed := false);
        }
      } else {
        if isRoundStart {
          phase := phase.(probeRttRoundPassed := true);
        }
        if e.time - phase.exitProbeRttAt >= 0 && phase.probeRttRoundPassed {
          path := path.(minRttTimestamp := e.time);
          if !phase.isAtFullBandwidth {
            EnterStartupMode();
          } else {
            EnterProbeBandwidthMode(e.time, e.draw);
          }
        }
      }
    }

    /** The third part of an event: the rate and the windows. */
    method Control(bytesAcked: int, bytesLost: int, rttMin: nat)
      modifies `pacingRate, `congestionWindow, `recovery
      ensures Value() == Controlled(old(Value()), bytesAcked, bytesLost, rttMin)
    {
      var target := TargetWindow(Value(), phase.congestionWindowGain, rttMin);
      CalculatePacingRate(rttMin);
      CalculateCongestionWindow(bytesAcked, target);
      CalculateRecoveryWindow(bytesAcked, bytesLost);
    }

    method CalculatePacingRate(rttMin: nat)
      modifies `pacingRate
      ensures pacingRate == BbrModel.CalculatePacingRate(old(pacingRate), path.maxBandwidth.best.sample, phase, limits, rttMin)
    {
      if path.maxBandwidth.best.sample == 0 {
        return;
      }
      var targetRate := Scaled(phase.pacingGain, path.maxBandwidth.best.sample);
      if phase.isAtFullBandwidth {
        pacingRate := targetRate;
        return;
      }
      if pacingRate == 0 && rttMin != 0 {
        pacingRate := BandwidthFromDelta(limits.initialWindow, rttMin);
        return;
      }
      pacingRate := Max(pacingRate, targetRate);
    }

    method CalculateCongestionWindow(bytesAcked: int, target: int)
      modifies `congestionWindow
      ensures congestionWindow
           == BbrModel.CalculateCongestionWindow(old(congestionWindow), phase, limits, target,
                                                 sampler.height.filter.best.sample.extraAcked,
                                                 sampler.totalBytesAcked, bytesAcked)
    {
      if phase.mode == ProbeRtt {
        return;
      }
      var targetWindow := target;
      if phase.isAtFullBandwidth {
        targetWindow := targetWindow + sampler.height.filter.best.sample.extraAcked;
      }
      if phase.isAtFullBandwidth {
        congestionWindow := Min(targetWindow, congestionWindow + bytesAcked);
      } else if congestionWindow < targetWindow || sampler.totalBytesAcked < limits.initialWindow {
        congestionWindow := congestionWindow + bytesAcked;
      }
      congestionWindow := Max(congestionWindow, limits.minWindow);
      congestionWindow := Min(congestionWindow, limits.maxWindow);
    }

    method CalculateRecoveryWindow(bytesAcked: int, bytesLost: int)
      modifies `recovery
      ensures recovery
           == old(recovery).(window := BbrModel.CalculateRecoveryWindow(old(recovery), limits, bytesInFlight, bytesAcked, bytesLost))
    {
      if recovery.state == NotInRecovery {
        return;
      }
      var window := recovery.window;
      if window == 0 {
        window := bytesInFlight + bytesAcked;
        recovery := recovery.(window := Max(limits.minWindow, window));
        return;
      }
      if window >= bytesLost {
        window := window - bytesLost;
      } else {
        window := limits.datagram;
      }
      if recovery.state == Growth {
        window := window + bytesAcked;
      }
      window := Max(window, bytesInFlight + bytesAcked);
      recovery := recovery.(window := Max(limits.minWindow, window));
    }

    /** The last part of an event: obsolete packets, and the counters of a round that ended. */
    method CleanUp(e: BbrModel.Event, isRoundStart: bool)
      requires e.Valid()
      modifies `round, `sampler
      ensures Value() == CleanedUp(old(Value()), e, isRoundStart)
    {
      var leastUnacked;
      if |e.acked| != 0 {
        leastUnacked := e.acked[|e.acked| - 1].packetNumber - 2;
      } else {
        leastUnacked := e.lost[|e.lost| - 1].packetNumber + 1;
      }
      sampler := SM.RemoveObsoletePackets(sampler, leastUnacked);
      if isRoundStart {
        round := round.(numLossEventsInRound := 0, bytesLostInRound := 0);
      }
    }
  }
}
