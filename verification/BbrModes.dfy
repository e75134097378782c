/** The mode machine of the BBR sender over whole runs. */
module BbrModes {
  import opened Arith
  import opened SamplerModel
  import opened BbrModel
  import opened BbrRuns

  /** What a mode says of the gains and of the full-bandwidth flag. */
  ghost predicate GainsMatch(p: Phase) {
    match p.mode
    case Startup => !p.isAtFullBandwidth && p.pacingGain == HIGH_GAIN && p.congestionWindowGain == HIGH_CWND_GAIN
    case Drain => p.isAtFullBandwidth && p.pacingGain == DRAIN_GAIN && p.congestionWindowGain == HIGH_CWND_GAIN
    case ProbeBw =>
      && p.isAtFullBandwidth && p.congestionWindowGain == CWND_GAIN
      && p.cycleCurrentOffset < GAIN_CYCLE_LENGTH && p.pacingGain == GAIN_CYCLE[p.cycleCurrentOffset]
    case ProbeRtt => p.pacingGain == 1.0 && p.congestionWindowGain == CWND_GAIN
  }

  /** In the 1.25 phase, or in the 0.75 phase, of a PROBE_BW stay. */
  ghost predicate Probing(p: Phase) {
    p.mode == ProbeBw && p.pacingGain == 1.25
  }

  ghost predicate Draining(p: Phase) {
    p.mode == ProbeBw && p.pacingGain == 0.75
  }

  /** The phase an event leaves is what the mode machine made of the phase before it. */
  lemma EventPhase(b: Bbr, e: BbrModel.Event)
    requires e.Valid()
    ensures var (b1, v) := PathUpdated(b, e);
            && b1.phase == b.phase
            && BbrModel.OnCongestionEvent(b, e).phase
            == Modes(b1, e, RoundStart(b, e), SeesExpiry(b, e, v), v.lastPacketSendState).phase
  {
    PathKeeps(b, e);
  }

  /** Gains that still match the mode, but for a full-bandwidth flag set in STARTUP. */
  ghost predicate GainsMatchButStartup(p: Phase) {
    GainsMatch(p) || (p.mode == Startup && p.isAtFullBandwidth)
  }

  /** What every part of the mode machine keeps between the phases before and after it. */
  ghost predicate Follows(p: Phase, p': Phase) {
    && (p.isAtFullBandwidth ==> p'.isAtFullBandwidth)
    && (Draining(p') ==> Probing(p) || Draining(p))
  }

  lemma CycleFollows(p: Phase, now: int)
    requires GainsMatch(p) && p.mode == ProbeBw
    ensures GainsMatch(NextCycle(p, now)) && Follows(p, NextCycle(p, now))
  {
  }

  lemma FullFollows(p: Phase, appLimited: bool, bandwidth: int, r: Round, state: SendTimeState)
    requires GainsMatch(p) && !p.isAtFullBandwidth
    ensures var p' := CheckFullBandwidth(p, appLimited, bandwidth, r, state);
            && GainsMatchButStartup(p') && Follows(p, p')
            && p'.mode == p.mode && (p.mode == Startup || p.mode == ProbeRtt)
  {
  }

  lemma ExitFollows(p: Phase, drained: bool, now: int, draw: nat)
    requires draw < GAIN_CYCLE_LENGTH - 1 && GainsMatchButStartup(p)
    ensures var p' := MaybeExitStartupOrDrain(p, drained, now, draw);
            GainsMatch(p') && Follows(p, p')
  {
  }

  lemma CycleAndStartupFollows(b: Bbr, e: BbrModel.Event, roundStart: bool, state: SendTimeState)
    requires e.Valid() && GainsMatch(b.phase)
    ensures var p := CycleAndStartup(b, e, roundStart, state);
            GainsMatch(p) && Follows(b.phase, p)
  {
    if b.phase.mode == ProbeBw {
      CycleFollows(b.phase, e.time);
    }
    var drained := b.bytesInFlight <= TargetWindow(b, 1.0, e.rttMin);
    var p1 := UpdateGainCycle(b.phase, e, b.bytesInFlight, TargetWindow(b, 1.0, e.rttMin),
                              TargetWindow(b, b.phase.pacingGain, e.rttMin), GetMinRtt(b, e.rttMin));
    var p2 := p1;
    if roundStart && !p1.isAtFullBandwidth {
      FullFollows(p1, b.path.lastSampleIsAppLimited, BandwidthEstimate(b), b.round, state);
      p2 := CheckFullBandwidth(p1, b.path.lastSampleIsAppLimited, BandwidthEstimate(b), b.round, state);
    }
    ExitFollows(p2, drained, e.time, e.draw);
  }

  lemma ProbeRttFollows(b: Bbr, e: BbrModel.Event, roundStart: bool, expired: bool)
    requires e.Valid() && GainsMatch(b.phase)
    ensures var p := MaybeEnterOrExitProbeRtt(b, e, roundStart, expired).phase;
            GainsMatch(p) && Follows(b.phase, p)
  {
  }

  lemma EventGains(b: Bbr, e: BbrModel.Event)
    requires e.Valid() && GainsMatch(b.phase)
    ensures var p := BbrModel.OnCongestionEvent(b, e).phase;
            GainsMatch(p) && Follows(b.phase, p)
  {
    EventPhase(b, e);
    var (b1, v) := PathUpdated(b, e);
    CycleAndStartupFollows(b1, e, RoundStart(b, e), v.lastPacketSendState);
    var b2 := b1.(phase := CycleAndStartup(b1, e, RoundStart(b, e), v.lastPacketSendState));
    ProbeRttFollows(b2, e, RoundStart(b, e), SeesExpiry(b, e, v));
  }

  /** What one operation does to the phase. */
  ghost predicate PhaseStep(w: World, w': World) {
    GainsMatch(w.b.phase) ==> GainsMatch(w'.b.phase) && Follows(w.b.phase, w'.b.phase)
  }

  ghost predicate PhaseTrace(ws: seq<World>) {
    && |ws| > 0 && GainsMatch(ws[0].b.phase) && !Draining(ws[0].b.phase)
    && forall n | 0 <= n < |ws| - 1 :: PhaseStep(ws[n], ws[n + 1])
  }

  lemma RunIsPhaseTrace(ws: seq<World>, ops: seq<Op>, datagram: int, maxPackets: int)
    requires Run(ws, ops, datagram, maxPackets)
    ensures PhaseTrace(ws)
  {
    forall n | 0 <= n < |ws| - 1 ensures PhaseStep(ws[n], ws[n + 1]) {
      assert ws[n + 1] == Stepped(ws[n], ops[n]);
      if ops[n].Congestion? && GainsMatch(ws[n].b.phase) {
        EventGains(ws[n].b, ops[n].e);
      }
    }
  }

  lemma {:induction false} TraceGains(ws: seq<World>, n: nat)
    requires PhaseTrace(ws) && n < |ws|
    ensures GainsMatch(ws[n].b.phase)
  {
    if n > 0 {
      TraceGains(ws, n - 1);
      assert PhaseStep(ws[n - 1], ws[n - 1 + 1]);
    }
  }

  /** In every reachable state STARTUP is below full bandwidth, DRAIN and PROBE_BW are at it,
      and both gains are those of the mode. */
  lemma RunGains(ws: seq<World>, ops: seq<Op>, datagram: int, maxPackets: int, n: nat)
    requires Run(ws, ops, datagram, maxPackets) && n < |ws|
    ensures GainsMatch(ws[n].b.phase)
  {
    RunIsPhaseTrace(ws, ops, datagram, maxPackets);
    TraceGains(ws, n);
  }

  lemma {:induction false} TraceKeepsFull(ws: seq<World>, m: nat, n: nat)
    requires PhaseTrace(ws) && m <= n < |ws| && ws[m].b.phase.isAtFullBandwidth
    ensures ws[n].b.phase.isAtFullBandwidth
    decreases n
  {
    if m < n {
      TraceKeepsFull(ws, m, n - 1);
      TraceGains(ws, n - 1);
      assert PhaseStep(ws[n - 1], ws[n - 1 + 1]);
    }
  }

  /** Full bandwidth, once reached, is never lost. */
  lemma FullBandwidthStays(ws: seq<World>, ops: seq<Op>, datagram: int, maxPackets: int, m: nat, n: nat)
    requires Run(ws, ops, datagram, maxPackets) && m <= n < |ws| && ws[m].b.phase.isAtFullBandwidth
    ensures ws[n].b.phase.isAtFullBandwidth
  {
    RunIsPhaseTrace(ws, ops, datagram, maxPackets);
    TraceKeepsFull(ws, m, n);
  }

  /** In state k the sender probed at 1.25, and ever since, up to state n, it drained at 0.75. */
  ghost predicate DrainsAfterProbe(ws: seq<World>, k: nat, n: nat) {
    && k < n < |ws|
    && Probing(ws[k].b.phase)
    && forall i | k < i <= n :: Draining(ws[i].b.phase)
  }

  lemma {:induction false} TraceDrains(ws: seq<World>, n: nat) returns (k: nat)
    requires PhaseTrace(ws) && n < |ws| && Draining(ws[n].b.phase)
    ensures DrainsAfterProbe(ws, k, n)
  {
    TraceGains(ws, n - 1);
    assert PhaseStep(ws[n - 1], ws[n - 1 + 1]);
    if Probing(ws[n - 1].b.phase) {
      k := n - 1;
    } else {
      k := TraceDrains(ws, n - 1);
    }
  }

  /** A 0.75 phase only ever follows a 1.25 phase of the same PROBE_BW stay. */
  lemma DrainFollowsProbe(ws: seq<World>, ops: seq<Op>, datagram: int, maxPackets: int, n: nat) returns (k: nat)
    requires Run(ws, ops, datagram, maxPackets) && n < |ws| && Draining(ws[n].b.phase)
    ensures DrainsAfterProbe(ws, k, n)
  {
    RunIsPhaseTrace(ws, ops, datagram, maxPackets);
    k := TraceDrains(ws, n);
  }
}
