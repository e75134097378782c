/** How the congestion window of the BBR sender follows the bandwidth-delay product, over whole
    runs. */
module BbrGrowths {
  import opened Arith
  import SM = SamplerModel
  import opened SamplerModel
  import opened BbrModel
  import opened BbrRuns
  import opened BbrModes
  import opened BbrWindows

  /** The bytes that the path carries in one RTT: the estimate is in bits per second, the RTT in
      nanoseconds. */
  function Bdp(b: Bbr, rttMin: nat): int {
    Quotient(GetMinRtt(b, rttMin) * BandwidthEstimate(b), 8_000_000_000)
  }

  /** Twice the bandwidth-delay product, or 64 datagrams while there is none; at least 4 datagrams. */
  function Goal(b: Bbr, rttMin: nat): int {
    Max(4 * b.limits.datagram, if Bdp(b, rttMin) == 0 then 64 * b.limits.datagram else 2 * Bdp(b, rttMin))
  }

  /** What the aggregation of acks adds to the window. */
  function AckHeight(b: Bbr): int {
    b.sampler.height.filter.best.sample.extraAcked
  }

  /** The bytes an operation found newly acked. */
  function NewlyAcked(b: Bbr, b': Bbr): int {
    b'.sampler.totalBytesAcked - b.sampler.totalBytesAcked
  }

  lemma NestedQuotient(x: int)
    ensures Quotient(Quotient(x, 8), 1_000_000_000) == Quotient(x, 8_000_000_000)
  {
  }

  lemma TwiceScaled(x: int)
    ensures Scaled(2.0, x) == 2 * x
  {
    assert 2.0 * x as real == (2 * x) as real;
  }

  lemma TargetIsGoal(b: Bbr, rttMin: nat, maxPackets: int)
    requires b.limits == NewLimits(b.limits.datagram, maxPackets)
    ensures TargetWindow(b, 2.0, rttMin) == Goal(b, rttMin)
  {
    NestedQuotient(GetMinRtt(b, rttMin) * BandwidthEstimate(b));
    TwiceScaled(Bdp(b, rttMin));
    TwiceScaled(b.limits.initialWindow);
  }

  /** The window an event leaves is the one it calculates from what it leaves. */
  lemma EventCalculates(b: Bbr, e: BbrModel.Event)
    requires e.Valid()
    ensures var b' := BbrModel.OnCongestionEvent(b, e);
            b'.congestionWindow
            == CalculateCongestionWindow(b.congestionWindow, b'.phase, b'.limits, TargetWindow(b', b'.phase.congestionWindowGain, e.rttMin),
                                         AckHeight(b'), b'.sampler.totalBytesAcked, NewlyAcked(b, b'))
  {
    var b1 := ModelUpdated(b, e);
    ModelKeepsWindow(b, e);
  }

  lemma ModelKeepsWindow(b: Bbr, e: BbrModel.Event)
    requires e.Valid()
    ensures ModelUpdated(b, e).congestionWindow == b.congestionWindow && ModelUpdated(b, e).limits == b.limits
  {
    var (b1, v) := PathUpdated(b, e);
    PathKeeps(b, e);
    ModesSafe(b1, e, RoundStart(b, e), SeesExpiry(b, e, v), v.lastPacketSendState);
  }

  /** What one event does to the window, in terms of what it leaves. */
  ghost predicate WindowStep(b: Bbr, b': Bbr, rttMin: nat, maxPackets: int) {
    var w, w', acked, most := b.congestionWindow, b'.congestionWindow, NewlyAcked(b, b'), maxPackets * b'.limits.datagram;
    && acked >= 0 && b'.limits == b.limits
    && w' == if b'.phase.mode == ProbeRtt then w
             else if b'.phase.isAtFullBandwidth then
               Min(most, Max(4 * b'.limits.datagram, Min(Goal(b', rttMin) + AckHeight(b'), w + acked)))
             else if w < Goal(b', rttMin) || b'.sampler.totalBytesAcked < 32 * b'.limits.datagram then Min(most, w + acked)
             else w
  }

  lemma EventWindow(b: Bbr, e: BbrModel.Event, maxPackets: int)
    requires maxPackets >= INITIAL_WINDOW_PACKETS && WindowsSafe(b, maxPackets) && e.Valid() && GainsMatch(b.phase)
    ensures WindowStep(b, BbrModel.OnCongestionEvent(b, e), e.rttMin, maxPackets)
  {
    var b' := BbrModel.OnCongestionEvent(b, e);
    EventCalculates(b, e);
    EventSafe(b, e, maxPackets);
    EventGains(b, e);
    ModelSafe(b, e, maxPackets);
    EventKeepsSent(b, e);
    TargetIsGoal(b', e.rttMin, maxPackets);
    assert b'.sampler.totalBytesAcked == ModelUpdated(b, e).sampler.totalBytesAcked;
  }

  /** The window step of an event in a run. */
  lemma RunWindow(ws: seq<World>, ops: seq<Op>, datagram: int, maxPackets: int, n: nat)
    requires datagram > 0 && maxPackets >= INITIAL_WINDOW_PACKETS && Run(ws, ops, datagram, maxPackets)
    requires n < |ops| && ops[n].Congestion?
    ensures WindowStep(ws[n].b, ws[n + 1].b, ops[n].e.rttMin, maxPackets)
    ensures 4 * ws[n].b.limits.datagram <= ws[n].b.congestionWindow <= maxPackets * ws[n].b.limits.datagram
  {
    RunSafe(ws, ops, datagram, maxPackets, n);
    RunGains(ws, ops, datagram, maxPackets, n);
    EventWindow(ws[n].b, ops[n].e, maxPackets);
  }

  /** In STARTUP throughout, with one datagram size. */
  ghost predicate StartupSince(ws: seq<World>, datagram: int, n: nat) {
    n < |ws| && forall k | 0 <= k <= n ::
      ws[k].b.limits.datagram == datagram && !ws[k].b.phase.isAtFullBandwidth && ws[k].b.phase.mode != ProbeRtt
  }

  lemma ResizeToSame(b: Bbr, datagram: int, maxPackets: int)
    requires maxPackets >= INITIAL_WINDOW_PACKETS && WindowsSafe(b, maxPackets) && datagram == b.limits.datagram
    ensures SetMaxDatagramSize(b, datagram).congestionWindow == b.congestionWindow
  {
  }

  /** The window is the initial window and all that was acked, up to the maximum. */
  ghost predicate GrownByAcks(b: Bbr, datagram: int, maxPackets: int) {
    b.congestionWindow == Min(maxPackets * datagram, 32 * datagram + b.sampler.totalBytesAcked)
  }

  ghost predicate StartupStep(w: World, w': World, datagram: int, maxPackets: int) {
    && w.b.sampler.totalBytesAcked <= w'.b.sampler.totalBytesAcked
    && (GrownByAcks(w.b, datagram, maxPackets) && w'.b.sampler.totalBytesAcked < 32 * datagram ==>
          GrownByAcks(w'.b, datagram, maxPackets))
  }

  lemma RunStartupStep(ws: seq<World>, ops: seq<Op>, datagram: int, maxPackets: int, n: nat, k: nat)
    requires datagram > 0 && maxPackets >= INITIAL_WINDOW_PACKETS && Run(ws, ops, datagram, maxPackets)
    requires StartupSince(ws, datagram, n) && k < n
    ensures StartupStep(ws[k], ws[k + 1], datagram, maxPackets)
  {
    match ops[k]
    case Send(_, _, _, _, _) =>
    case Congestion(e) => RunWindow(ws, ops, datagram, maxPackets, k);
    case Resize(size) =>
      RunSafe(ws, ops, datagram, maxPackets, k);
      ResizeToSame(ws[k].b, size, maxPackets);
  }

  lemma {:induction false} StartupChain(ws: seq<World>, datagram: int, maxPackets: int, n: nat)
    requires n < |ws| && GrownByAcks(ws[0].b, datagram, maxPackets)
    requires forall k | 0 <= k < n :: StartupStep(ws[k], ws[k + 1], datagram, maxPackets)
    ensures ws[n].b.sampler.totalBytesAcked < 32 * datagram ==> GrownByAcks(ws[n].b, datagram, maxPackets)
  {
    if n > 0 {
      StartupChain(ws, datagram, maxPackets, n - 1);
      assert StartupStep(ws[n - 1], ws[n - 1 + 1], datagram, maxPackets);
    }
  }

  /** The first initial window of acks: until that many bytes are acked in total, the window is the
      initial window and all that was acked, up to the maximum. */
  lemma WindowGrowsByAcks(ws: seq<World>, ops: seq<Op>, datagram: int, maxPackets: int, n: nat)
    requires datagram > 0 && maxPackets >= INITIAL_WINDOW_PACKETS && Run(ws, ops, datagram, maxPackets)
    requires StartupSince(ws, datagram, n) && ws[n].b.sampler.totalBytesAcked < 32 * datagram
    ensures ws[n].b.congestionWindow == Min(maxPackets * datagram, 32 * datagram + ws[n].b.sampler.totalBytesAcked)
  {
    Product(INITIAL_WINDOW_PACKETS, maxPackets, datagram, datagram);
    forall k | 0 <= k < n ensures StartupStep(ws[k], ws[k + 1], datagram, maxPackets) {
      RunStartupStep(ws, ops, datagram, maxPackets, n, k);
    }
    StartupChain(ws, datagram, maxPackets, n);
  }

  /** Below full bandwidth and outside PROBE_RTT, an event grows the window by exactly what it acked,
      up to the maximum, when the window is short of the goal or few bytes were acked yet; otherwise
      it keeps it, at or above the goal. */
  lemma WindowReachesGoal(ws: seq<World>, ops: seq<Op>, datagram: int, maxPackets: int, n: nat)
    requires datagram > 0 && maxPackets >= INITIAL_WINDOW_PACKETS && Run(ws, ops, datagram, maxPackets)
    requires n < |ops| && ops[n].Congestion?
    requires !ws[n + 1].b.phase.isAtFullBandwidth && ws[n + 1].b.phase.mode != ProbeRtt
    ensures var b, b' := ws[n].b, ws[n + 1].b; var most := maxPackets * b'.limits.datagram;
            if b.congestionWindow < Goal(b', ops[n].e.rttMin) || b'.sampler.totalBytesAcked < 32 * b'.limits.datagram then
              b'.congestionWindow == Min(most, b.congestionWindow + NewlyAcked(b, b')) >= b.congestionWindow
            else b'.congestionWindow == b.congestionWindow >= Goal(b', ops[n].e.rttMin)
  {
    RunWindow(ws, ops, datagram, maxPackets, n);
  }

  /** At full bandwidth and outside PROBE_RTT, an event leaves at most the goal and the ack height, or
      4 datagrams; the window comes no closer than by what was acked. */
  lemma WindowFollowsGoal(ws: seq<World>, ops: seq<Op>, datagram: int, maxPackets: int, n: nat)
    requires datagram > 0 && maxPackets >= INITIAL_WINDOW_PACKETS && Run(ws, ops, datagram, maxPackets)
    requires n < |ops| && ops[n].Congestion?
    requires ws[n + 1].b.phase.isAtFullBandwidth && ws[n + 1].b.phase.mode != ProbeRtt
    ensures var b, b' := ws[n].b, ws[n + 1].b; var goal := Goal(b', ops[n].e.rttMin) + AckHeight(b');
            var most, least := maxPackets * b'.limits.datagram, 4 * b'.limits.datagram;
            && b'.congestionWindow <= Max(least, goal)
            && (b.congestionWindow + NewlyAcked(b, b') <= goal ==>
                  b'.congestionWindow == Min(most, b.congestionWindow + NewlyAcked(b, b')))
            && (b.congestionWindow + NewlyAcked(b, b') >= goal >= least ==> b'.congestionWindow == Min(most, goal))
  {
    RunWindow(ws, ops, datagram, maxPackets, n);
  }

  /** A PROBE_RTT stay leaves the window for afterwards. */
  lemma ProbeRttKeepsWindow(ws: seq<World>, ops: seq<Op>, datagram: int, maxPackets: int, n: nat)
    requires datagram > 0 && maxPackets >= INITIAL_WINDOW_PACKETS && Run(ws, ops, datagram, maxPackets)
    requires n < |ops| && ops[n].Congestion? && ws[n + 1].b.phase.mode == ProbeRtt
    ensures ws[n + 1].b.congestionWindow == ws[n].b.congestionWindow
  {
    RunWindow(ws, ops, datagram, maxPackets, n);
  }
}
