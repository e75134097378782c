/** The congestion window of the BBR sender in every reachable state. */
module BbrWindows {
  import opened Arith
  import SM = SamplerModel
  import opened SamplerModel
  import LR = LinkRates
  import opened BbrModel
  import opened BbrRuns

  ghost predicate SizesTracked(s: Sampler) {
    forall pn | pn in s.tracked :: s.tracked[pn].size >= 0
  }

  /** The windows of a sender of the given maximum, in packets. */
  ghost predicate WindowsSafe(b: Bbr, maxPackets: int) {
    && b.limits.datagram > 0
    && b.limits == NewLimits(b.limits.datagram, maxPackets)
    && b.limits.minWindow <= b.congestionWindow <= b.limits.maxWindow
    && b.limits.minWindow <= b.recovery.window
    && b.congestionWindow <= b.limits.initialWindow + b.sampler.totalBytesAcked
    && b.sampler.totalBytesAcked >= 0
    && SizesTracked(b.sampler)
    && (!b.phase.isAtFullBandwidth ==> b.pacingRate >= 0)
  }

  lemma ScaleExact(packets: nat, from: int, to: int)
    requires 0 < from <= to
    ensures ScaleWindow(packets * from, from, to) == packets * to
  {
    assert packets * from * to == packets * to * from;
    Product(0, packets, 0, to);
    QuotientExact(packets * to, from);
  }

  lemma ResizeSafe(b: Bbr, datagram: int, maxPackets: int)
    requires maxPackets >= INITIAL_WINDOW_PACKETS && WindowsSafe(b, maxPackets) && b.limits.datagram <= datagram
    ensures WindowsSafe(SetMaxDatagramSize(b, datagram), maxPackets)
    ensures SetMaxDatagramSize(b, datagram).congestionWindow >= b.congestionWindow
  {
    ScaleExact(INITIAL_WINDOW_PACKETS, b.limits.datagram, datagram);
    ScaleExact(maxPackets, b.limits.datagram, datagram);
    Product(b.limits.datagram, datagram, maxPackets, maxPackets);
    Product(INITIAL_WINDOW_PACKETS, maxPackets, datagram, datagram);
  }

  lemma SampleGrows(s: Sampler, time: int, acked: seq<AckedPacket>, lost: seq<LostPacket>, maxBandwidth: int, round: int)
    requires SizesTracked(s)
    ensures var s' := SM.OnCongestionEvent(s, time, acked, lost, maxBandwidth, INF_BANDWIDTH, round).0;
            s'.totalBytesAcked >= s.totalBytesAcked && s'.tracked == s.tracked && s'.lastSlot == s.lastSlot
  {
    LoseAllKeeps(s, lost);
    LR.AckAllKeeps(LoseAll(s, lost).0, time, acked);
  }

  /** After the path update the recovery window is as before, or zero at the start of recovery. */
  lemma PathSafe(b: Bbr, e: BbrModel.Event)
    requires SizesTracked(b.sampler)
    ensures var b1 := PathUpdated(b, e).0;
            && b1.sampler.totalBytesAcked >= b.sampler.totalBytesAcked && b1.sampler.tracked == b.sampler.tracked
            && (b1.recovery.window == b.recovery.window || (b1.recovery.window == 0 && InRecovery(b1)))
  {
    var b1 := Rounds(Received(b, e), e);
    assert b1.sampler.tracked == b.sampler.tracked && b1.sampler.totalBytesAcked == b.sampler.totalBytesAcked;
    SampleGrows(b1.sampler, e.time, e.acked, e.lost, BandwidthEstimate(b1), b1.round.count);
  }

  lemma ModesSafe(b: Bbr, e: BbrModel.Event, roundStart: bool, expired: bool, state: SendTimeState)
    requires e.Valid()
    ensures var b' := Modes(b, e, roundStart, expired, state);
            && b'.limits == b.limits && b'.recovery == b.recovery && b'.congestionWindow == b.congestionWindow
            && b'.sampler.totalBytesAcked == b.sampler.totalBytesAcked && b'.sampler.tracked == b.sampler.tracked
            && b'.bytesInFlight == b.bytesInFlight && b'.pacingRate == b.pacingRate
            && (b.phase.isAtFullBandwidth ==> b'.phase.isAtFullBandwidth)
  {
  }

  lemma ControlSafe(b: Bbr, bytesAcked: int, bytesLost: int, rttMin: nat, maxPackets: int)
    requires maxPackets >= INITIAL_WINDOW_PACKETS && bytesAcked >= 0
    requires b.limits.datagram > 0 && b.limits == NewLimits(b.limits.datagram, maxPackets)
    requires b.limits.minWindow <= b.congestionWindow <= b.limits.maxWindow
    requires InRecovery(b) || b.limits.minWindow <= b.recovery.window
    requires b.congestionWindow <= b.limits.initialWindow + b.sampler.totalBytesAcked - bytesAcked
    requires b.sampler.totalBytesAcked >= bytesAcked && SizesTracked(b.sampler)
    requires !b.phase.isAtFullBandwidth ==> b.pacingRate >= 0
    ensures WindowsSafe(Controlled(b, bytesAcked, bytesLost, rttMin), maxPackets)
    ensures InRecovery(b) ==> Controlled(b, bytesAcked, bytesLost, rttMin).recovery.window >= b.bytesInFlight + bytesAcked
  {
    Product(MIN_WINDOW_PACKETS, maxPackets, b.limits.datagram, b.limits.datagram);
    RateGrows(b.pacingRate, BandwidthEstimate(b), b.phase, b.limits, rttMin);
  }

  lemma RateGrows(rate: int, bandwidth: int, p: Phase, l: Limits, rttMin: nat)
    requires l.initialWindow >= 0 && !p.isAtFullBandwidth ==> rate >= 0
    ensures l.initialWindow >= 0 && !p.isAtFullBandwidth ==> CalculatePacingRate(rate, bandwidth, p, l, rttMin) >= rate
  {
  }

  /** What the control step relies on. */
  ghost predicate Controllable(b: Bbr, before: Bbr) {
    && b.limits == before.limits && b.congestionWindow == before.congestionWindow
    && (InRecovery(b) || b.limits.minWindow <= b.recovery.window)
    && b.sampler.totalBytesAcked >= before.sampler.totalBytesAcked && SizesTracked(b.sampler)
    && (!b.phase.isAtFullBandwidth ==> b.pacingRate >= 0)
  }

  lemma ModelSafe(b: Bbr, e: BbrModel.Event, maxPackets: int)
    requires WindowsSafe(b, maxPackets) && e.Valid()
    ensures Controllable(ModelUpdated(b, e), b)
  {
    var (b1, v) := PathUpdated(b, e);
    PathKeeps(b, e);
    PathSafe(b, e);
    ModesSafe(b1, e, RoundStart(b, e), SeesExpiry(b, e, v), v.lastPacketSendState);
  }

  lemma CleanSafe(b: Bbr, e: BbrModel.Event, roundStart: bool, maxPackets: int)
    requires WindowsSafe(b, maxPackets) && e.Valid()
    ensures var b' := CleanedUp(b, e, roundStart);
            && WindowsSafe(b', maxPackets) && b'.recovery == b.recovery && b'.bytesInFlight == b.bytesInFlight
            && b'.sampler.totalBytesAcked == b.sampler.totalBytesAcked
  {
  }

  lemma EventSafe(b: Bbr, e: BbrModel.Event, maxPackets: int)
    requires maxPackets >= INITIAL_WINDOW_PACKETS && WindowsSafe(b, maxPackets) && e.Valid()
    ensures var b' := BbrModel.OnCongestionEvent(b, e);
            && WindowsSafe(b', maxPackets)
            && (InRecovery(b') ==>
                  b'.recovery.window >= b'.bytesInFlight + (b'.sampler.totalBytesAcked - b.sampler.totalBytesAcked))
  {
    var b1 := ModelUpdated(b, e);
    ModelSafe(b, e, maxPackets);
    var acked, lost := b1.sampler.totalBytesAcked - b.sampler.totalBytesAcked, b1.sampler.totalBytesLost - b.sampler.totalBytesLost;
    ControlSafe(b1, acked, lost, e.rttMin, maxPackets);
    CleanSafe(Controlled(b1, acked, lost, e.rttMin), e, RoundStart(b, e), maxPackets);
  }

  lemma StepSafe(w: World, op: Op, maxPackets: int)
    requires maxPackets >= INITIAL_WINDOW_PACKETS && WindowsSafe(w.b, maxPackets) && Possible(w, op)
    ensures WindowsSafe(Stepped(w, op).b, maxPackets)
  {
    match op
    case Send(_, _, _, _, _) =>
    case Congestion(e) => EventSafe(w.b, e, maxPackets);
    case Resize(size) => ResizeSafe(w.b, size, maxPackets);
  }

  lemma {:induction false} RunSafe(ws: seq<World>, ops: seq<Op>, datagram: int, maxPackets: int, n: nat)
    requires datagram > 0 && maxPackets >= INITIAL_WINDOW_PACKETS && Run(ws, ops, datagram, maxPackets) && n < |ws|
    ensures WindowsSafe(ws[n].b, maxPackets)
  {
    if n == 0 {
      Product(INITIAL_WINDOW_PACKETS, maxPackets, datagram, datagram);
    } else {
      RunSafe(ws, ops, datagram, maxPackets, n - 1);
      StepSafe(ws[n - 1], ops[n - 1], maxPackets);
      assert ws[n - 1 + 1] == Stepped(ws[n - 1], ops[n - 1]);
    }
  }

  /** In every reachable state, after any mix of sends, events and datagram size increases: the
      window the sender enforces is between 4 datagrams and the maximum, so a flight below 4
      datagrams may always send, and the window has grown from the initial window by no more
      than the bytes acked. */
  lemma WindowBounds(ws: seq<World>, ops: seq<Op>, datagram: int, maxPackets: int, n: nat)
    requires datagram > 0 && maxPackets >= INITIAL_WINDOW_PACKETS && Run(ws, ops, datagram, maxPackets) && n < |ws|
    ensures var b := ws[n].b;
            && MIN_WINDOW_PACKETS * b.limits.datagram <= CongestionWindow(b) <= maxPackets * b.limits.datagram
            && (forall inFlight :: inFlight < MIN_WINDOW_PACKETS * b.limits.datagram ==> CanSend(b, inFlight))
            && b.congestionWindow <= INITIAL_WINDOW_PACKETS * b.limits.datagram + b.sampler.totalBytesAcked
  {
    RunSafe(ws, ops, datagram, maxPackets, n);
    Product(MIN_WINDOW_PACKETS, maxPackets, ws[n].b.limits.datagram, ws[n].b.limits.datagram);
  }

  /** After every event in recovery, the recovery window lets out at least what was acked. */
  lemma RecoveryReleasesAcked(ws: seq<World>, ops: seq<Op>, datagram: int, maxPackets: int, n: nat)
    requires datagram > 0 && maxPackets >= INITIAL_WINDOW_PACKETS && Run(ws, ops, datagram, maxPackets)
    requires n < |ops| && ops[n].Congestion? && InRecovery(ws[n + 1].b)
    ensures var b, b' := ws[n].b, ws[n + 1].b;
            b'.recovery.window >= b'.bytesInFlight + (b'.sampler.totalBytesAcked - b.sampler.totalBytesAcked)
  {
    RunSafe(ws, ops, datagram, maxPackets, n);
    EventSafe(ws[n].b, ops[n].e, maxPackets);
  }

  /** Until the sender is at full bandwidth, nothing lowers the window or the pacing rate it
      has set. */
  lemma NothingFallsBeforeFullBandwidth(ws: seq<World>, ops: seq<Op>, datagram: int, maxPackets: int, n: nat)
    requires datagram > 0 && maxPackets >= INITIAL_WINDOW_PACKETS && Run(ws, ops, datagram, maxPackets)
    requires n < |ops| && !ws[n + 1].b.phase.isAtFullBandwidth
    ensures ws[n + 1].b.congestionWindow >= ws[n].b.congestionWindow
    ensures ws[n + 1].b.pacingRate >= ws[n].b.pacingRate
  {
    RunSafe(ws, ops, datagram, maxPackets, n);
    match ops[n]
    case Send(_, _, _, _, _) =>
    case Congestion(e) => EventGrows(ws[n].b, e, maxPackets);
    case Resize(size) => ResizeSafe(ws[n].b, size, maxPackets);
  }

  lemma EventGrows(b: Bbr, e: BbrModel.Event, maxPackets: int)
    requires maxPackets >= INITIAL_WINDOW_PACKETS && WindowsSafe(b, maxPackets) && e.Valid()
    ensures var b' := BbrModel.OnCongestionEvent(b, e);
            !b'.phase.isAtFullBandwidth ==> b'.congestionWindow >= b.congestionWindow && b'.pacingRate >= b.pacingRate
  {
    var (b1, v) := PathUpdated(b, e);
    PathKeeps(b, e);
    PathSafe(b, e);
    ModesSafe(b1, e, RoundStart(b, e), SeesExpiry(b, e, v), v.lastPacketSendState);
    var b2 := Modes(b1, e, RoundStart(b, e), SeesExpiry(b, e, v), v.lastPacketSendState);
    RateGrows(b2.pacingRate, BandwidthEstimate(b2), b2.phase, b2.limits, e.rttMin);
  }
}
