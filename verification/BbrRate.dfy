/** The pacing rate the BBR sender has in effect, over whole runs before full bandwidth. */
module BbrRates {
  import opened Arith
  import opened PacketQueues
  import opened WindowedFilters
  import SM = SamplerModel
  import opened SamplerModel
  import opened BbrModel
  import opened BbrRuns
  import opened BbrWindows
  import BbrPacing

  /** The initial window per RTT, in bits per second. */
  function WindowRate(b: Bbr, rttMin: nat): int
    requires b.path.minRtt >= 0
  {
    BandwidthFromDelta(b.limits.initialWindow, GetMinRtt(b, rttMin))
  }

  /** The rate an operation sets on a sender that has none, when b' is the sender after it: the
      initial window per RTT of the statistics, or without that RTT the estimate times the gain. */
  function FirstRate(op: Op, b': Bbr): int {
    if !op.Congestion? || BandwidthEstimate(b') == 0 then 0
    else if op.e.rttMin != 0 then BandwidthFromDelta(b'.limits.initialWindow, op.e.rttMin)
    else Scaled(b'.phase.pacingGain, BandwidthEstimate(b'))
  }

  /** Before a rate is set, the sender paces at HIGH_GAIN times the window rate of the moment, which
      follows the RTT and the window; and the first rate that is set need not reach that. */
  predicate RateHolds(b: Bbr, op: Op, b': Bbr, before: nat, after: nat)
    requires b.path.minRtt >= 0 && b'.path.minRtt >= 0
  {
    || b.pacingRate > 0
    || (if FirstRate(op, b') > 0 then FirstRate(op, b') >= Scaled(HIGH_GAIN, WindowRate(b, before))
        else WindowRate(b', after) >= WindowRate(b, before))
  }

  lemma FloorMonotone(x: real, y: real)
    requires x <= y
    ensures x.Floor <= y.Floor
  {
  }

  lemma HighGainKeepsOrder(x: nat, y: nat)
    ensures x <= y <==> Scaled(HIGH_GAIN, x) <= Scaled(HIGH_GAIN, y)
  {
    var a, c := HIGH_GAIN * x as real, HIGH_GAIN * y as real;
    if x <= y {
      FloorMonotone(a, c);
    } else {
      assert a >= c + 1.0;
      FloorMonotone(c + 1.0, a);
      assert (c + 1.0).Floor == c.Floor + 1;
    }
  }

  /** The rate after an event is the one the event calculates from what it leaves. */
  lemma EventRate(b: Bbr, e: BbrModel.Event)
    requires e.Valid()
    ensures var b' := BbrModel.OnCongestionEvent(b, e);
            b'.pacingRate == CalculatePacingRate(b.pacingRate, BandwidthEstimate(b'), b'.phase, b'.limits, e.rttMin)
  {
    var (b1, v) := PathUpdated(b, e);
    PathKeeps(b, e);
    ModesSafe(b1, e, RoundStart(b, e), SeesExpiry(b, e, v), v.lastPacketSendState);
  }

  lemma StepRate(w: World, op: Op)
    requires Possible(w, op) && !Stepped(w, op).b.phase.isAtFullBandwidth && w.b.pacingRate == 0
    requires Stepped(w, op).b.limits.initialWindow >= 0
    ensures var b' := Stepped(w, op).b; b'.pacingRate == Max(0, FirstRate(op, b'))
  {
    if op.Congestion? {
      EventRate(w.b, op.e);
      if op.e.rttMin != 0 {
        WindowRateNonNegative(Stepped(w, op).b.limits.initialWindow, op.e.rttMin);
      }
    }
  }

  lemma WindowRateNonNegative(window: int, rtt: int)
    requires window >= 0 && rtt > 0
    ensures BandwidthFromDelta(window, rtt) >= 0
  {
    Product(0, window, 0, NANOS);
  }

  /** In every run, one operation that leaves the sender below full bandwidth lowers the rate in
      effect exactly when no rate was set before it and RateHolds fails: when it sets a first rate
      below HIGH_GAIN times the window rate in effect, or sets none while the window rate falls. before
      and after are the RTT minimum of the connection's statistics at the two readings. */
  lemma RateFallsExactly(ws: seq<World>, ops: seq<Op>, datagram: int, maxPackets: int, n: nat, before: nat, after: nat)
    requires datagram > 0 && maxPackets >= INITIAL_WINDOW_PACKETS && Run(ws, ops, datagram, maxPackets)
    requires n < |ops| && !ws[n + 1].b.phase.isAtFullBandwidth
    ensures ws[n].b.path.minRtt >= 0 && ws[n + 1].b.path.minRtt >= 0
    ensures PacingRate(ws[n + 1].b, after) >= PacingRate(ws[n].b, before)
       <==> RateHolds(ws[n].b, ops[n], ws[n + 1].b, before, after)
  {
    var b, b' := ws[n].b, ws[n + 1].b;
    RunSafe(ws, ops, datagram, maxPackets, n);
    RunSafe(ws, ops, datagram, maxPackets, n + 1);
    BbrPacing.RunTimed(ws, ops, datagram, maxPackets, n);
    BbrPacing.RunTimed(ws, ops, datagram, maxPackets, n + 1);
    NothingFallsBeforeFullBandwidth(ws, ops, datagram, maxPackets, n);
    FullBandwidthBefore(ws[n], ops[n]);
    if b.pacingRate == 0 {
      StepRate(ws[n], ops[n]);
      WindowRateNonNegative(b.limits.initialWindow, GetMinRtt(b, before));
      WindowRateNonNegative(b'.limits.initialWindow, GetMinRtt(b', after));
      HighGainKeepsOrder(WindowRate(b, before), WindowRate(b', after));
    }
  }

  lemma FullBandwidthBefore(w: World, op: Op)
    requires Possible(w, op) && !Stepped(w, op).b.phase.isAtFullBandwidth
    ensures !w.b.phase.isAtFullBandwidth
  {
    if op.Congestion? {
      var (b1, v) := PathUpdated(w.b, op.e);
      PathKeeps(w.b, op.e);
      ModesSafe(b1, op.e, RoundStart(w.b, op.e), SeesExpiry(w.b, op.e, v), v.lastPacketSendState);
    }
  }

  /** A sender after its first packet: a slope has begun, nothing is acked, no rate is set. */
  ghost predicate AfterFirstSend(b: Bbr, time: int, size: int) {
    && 0 in b.sampler.tracked && b.sampler.totalBytesAcked == 0
    && (var p := b.sampler.tracked[0];
        && p.size == size && p.sendTimeState.totalBytesAcked == 0
        && p.sentTime == p.lastAckedPacketSentTime == p.lastAckedPacketAckTime == time
        && p.sendTimeState.isValid && !p.sendTimeState.isAppLimited)
    && b.path == Path(Cleared(0), 0, 0, false, false) && b.round.currentRoundTripEnd == INVALID_PACKET
    && b.phase.mode == Startup && !b.phase.isAtFullBandwidth && b.phase.bandwidthAtLastRound == 0
    && b.pacingRate == 0
  }

  ghost predicate IsFirstAck(e: BbrModel.Event, time: int, rtt: int, size: int) {
    && e.Valid() && e.acked == [AckedPacket(0, size)] && e.lost == []
    && e.time == time + rtt && e.rttMin == rtt
  }

  /** The first ack yields a sample of its bytes per RTT. */
  lemma FirstSample(s: Sampler, e: BbrModel.Event, time: int, rtt: int, size: int, round: int)
    requires 0 in s.tracked && s.totalBytesAcked == 0 && time > 0 && 0 < rtt < INF_RTT
    requires var p := s.tracked[0];
      && p.size == size && p.sendTimeState.totalBytesAcked == 0
      && p.sentTime == p.lastAckedPacketSentTime == p.lastAckedPacketAckTime == time
      && p.sendTimeState.isValid && !p.sendTimeState.isAppLimited
    requires IsFirstAck(e, time, rtt, size) && 0 < BandwidthFromDelta(size, rtt) <= INF_BANDWIDTH
    ensures var (s', v) := SM.OnCongestionEvent(s, e.time, e.acked, e.lost, 0, INF_BANDWIDTH, round);
            && v.maxBandwidth == BandwidthFromDelta(size, rtt) && !v.isAppLimited && v.rtt == rtt
            && s'.totalBytesAcked == size && v.lastPacketSendState == s.tracked[0].sendTimeState
  {
    assert e.acked[..|e.acked| - 1] == [];
    assert AckAll(s, e.time, []) == (s, NO_EVENT_SAMPLE);
    assert SampleOf(s.tracked[0], e.time, size).bandwidth == BandwidthFromDelta(size, rtt);
  }

  lemma FirstPath(b: Bbr, e: BbrModel.Event, time: int, rtt: int, size: int)
    requires AfterFirstSend(b, time, size) && time > 0 && 0 < rtt < INF_RTT && size != 0
    requires IsFirstAck(e, time, rtt, size) && 0 < BandwidthFromDelta(size, rtt) <= INF_BANDWIDTH
    ensures var (b1, v) := PathUpdated(b, e);
            && BandwidthEstimate(b1) == BandwidthFromDelta(size, rtt) && b1.path.minRtt == rtt && !b1.path.lastSampleIsAppLimited
            && b1.phase == b.phase && b1.pacingRate == 0
  {
    var b0 := Rounds(Received(b, e), e);
    assert b0.path == b.path && b0.sampler.tracked == b.sampler.tracked && b0.sampler.totalBytesAcked == 0;
    assert BandwidthEstimate(b0) == 0;
    FirstSample(b0.sampler, e, time, rtt, size, b0.round.count);
  }

  lemma FirstPhase(b1: Bbr, e: BbrModel.Event, state: SendTimeState)
    requires e.Valid() && b1.phase.mode == Startup && !b1.phase.isAtFullBandwidth && b1.phase.bandwidthAtLastRound == 0
    requires BandwidthEstimate(b1) > 0
    ensures var b2 := Modes(b1, e, true, false, state); !b2.phase.isAtFullBandwidth && b2.path == b1.path
  {
  }

  lemma FirstAck(b: Bbr, e: BbrModel.Event, time: int, rtt: int, size: int)
    requires AfterFirstSend(b, time, size) && time > 0 && 0 < rtt < INF_RTT && size != 0
    requires IsFirstAck(e, time, rtt, size) && 0 < BandwidthFromDelta(size, rtt) <= INF_BANDWIDTH
    ensures var b' := BbrModel.OnCongestionEvent(b, e);
            && !b'.phase.isAtFullBandwidth && b'.path.minRtt == rtt && b'.limits == b.limits
            && b'.pacingRate == BandwidthFromDelta(b.limits.initialWindow, rtt)
  {
    var (b1, v) := PathUpdated(b, e);
    FirstPath(b, e, time, rtt, size);
    assert RoundStart(b, e) && !SeesExpiry(b, e, v);
    FirstPhase(b1, e, v.lastPacketSendState);
    EventRate(b, e);
    EventKeepsSent(b, e);
  }

  /** Runs in which the rate in effect falls, one for each RTT, packet size, datagram size and maximum
      window: a packet into an idle connection, and its ack. The ack sets the window rate, and without
      a rate set that was taken 2.885 times. */
  lemma FirstRateFalls(datagram: int, maxPackets: int, time: int, rtt: nat, size: int, inFlight: int)
    returns (ws: seq<World>, ops: seq<Op>)
    requires datagram > 0 && maxPackets >= INITIAL_WINDOW_PACKETS && time > 0 && 0 < rtt < INF_RTT && size > 0
    requires 0 < BandwidthFromDelta(size, rtt) <= INF_BANDWIDTH
    requires BandwidthFromDelta(INITIAL_WINDOW_PACKETS * datagram, rtt) > 0
    ensures Run(ws, ops, datagram, maxPackets) && |ops| == 2 && !ws[2].b.phase.isAtFullBandwidth
    ensures ws[1].b.path.minRtt == 0 && ws[2].b.path.minRtt == rtt
    ensures PacingRate(ws[2].b, rtt) == BandwidthFromDelta(INITIAL_WINDOW_PACKETS * datagram, rtt)
    ensures PacingRate(ws[1].b, rtt) == Scaled(HIGH_GAIN, PacingRate(ws[2].b, rtt)) > PacingRate(ws[2].b, rtt)
  {
    var e := BbrModel.Event(inFlight, time + rtt, [AckedPacket(0, size)], [], rtt, 0, 0);
    var w0 := Start(datagram, maxPackets);
    var w1 := World(BbrModel.OnPacketSent(w0.b, time, 0, 0, size, true), time);
    var w2 := World(BbrModel.OnCongestionEvent(w1.b, e), time + rtt);
    ws, ops := [w0, w1, w2], [Send(time, 0, 0, size, true), Congestion(e)];
    assert Possible(w0, ops[0]) && Stepped(w0, ops[0]) == w1;
    assert Possible(w1, ops[1]) && Stepped(w1, ops[1]) == w2;
    FirstAck(w1.b, e, time, rtt, size);
    HighGainGains(BandwidthFromDelta(INITIAL_WINDOW_PACKETS * datagram, rtt));
  }

  lemma HighGainGains(x: nat)
    requires x > 0
    ensures Scaled(HIGH_GAIN, x) > x
  {
    assert HIGH_GAIN * x as real >= (x + 1) as real;
    FloorMonotone((x + 1) as real, HIGH_GAIN * x as real);
  }
}
