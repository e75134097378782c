/** Pacing of the BBR sender: in every reachable state the pacer has a positive bandwidth, and
    once the time it names has come a datagram goes out. */
module BbrPacing {
  import opened Arith
  import Pacers
  import SM = SamplerModel
  import opened SamplerModel
  import opened LinkRates
  import opened BbrModel
  import opened BbrRuns

  ghost predicate SentBy(s: Sampler, clock: int) {
    forall pn | pn in s.tracked :: s.tracked[pn].sentTime <= clock
  }

  /** No packet was sent after the clock, so no RTT is negative. */
  ghost predicate Timed(w: World) {
    w.b.path.minRtt >= 0 && SentBy(w.b.sampler, w.clock)
  }

  lemma {:induction false} AckedRtt(s: Sampler, time: int, acked: seq<AckedPacket>)
    requires SentBy(s, time)
    ensures AckAll(s, time, acked).1.rtt >= 0 && AckAll(s, time, acked).0.tracked == s.tracked
  {
    if acked != [] {
      AckedRtt(s, time, acked[..|acked| - 1]);
    }
  }

  lemma SampledRtt(s: Sampler, e: BbrModel.Event, bandwidth: int, round: int)
    requires SentBy(s, e.time)
    ensures var (s', v) := SM.OnCongestionEvent(s, e.time, e.acked, e.lost, bandwidth, INF_BANDWIDTH, round);
            v.rtt >= 0 && s'.tracked == s.tracked
  {
    LoseAllKeeps(s, e.lost);
    AckedRtt(LoseAll(s, e.lost).0, e.time, e.acked);
  }

  lemma EventTimed(w: World, e: BbrModel.Event)
    requires Timed(w) && Possible(w, Congestion(e))
    ensures Timed(Stepped(w, Congestion(e)))
  {
    var b1 := Rounds(Received(w.b, e), e);
    assert b1.sampler.tracked == w.b.sampler.tracked && b1.path == w.b.path;
    SampledRtt(b1.sampler, e, BandwidthEstimate(b1), b1.round.count);
    var (b2, v) := PathUpdated(w.b, e);
    assert b2.path.minRtt >= 0 && b2.sampler.tracked == w.b.sampler.tracked;
    ModesTimed(b2, e, RoundStart(w.b, e), SeesExpiry(w.b, e, v), v.lastPacketSendState);
  }

  lemma ModesTimed(b: Bbr, e: BbrModel.Event, roundStart: bool, expired: bool, state: SendTimeState)
    requires e.Valid()
    ensures var b' := Modes(b, e, roundStart, expired, state);
            b'.path.minRtt == b.path.minRtt && b'.sampler.tracked == b.sampler.tracked
  {
  }

  lemma {:induction false} RunTimed(ws: seq<World>, ops: seq<Op>, datagram: int, maxPackets: int, n: nat)
    requires Run(ws, ops, datagram, maxPackets) && n < |ws|
    ensures Timed(ws[n])
  {
    if n > 0 {
      RunTimed(ws, ops, datagram, maxPackets, n - 1);
      assert ws[n - 1 + 1] == Stepped(ws[n - 1], ops[n - 1]);
      if ops[n - 1].Congestion? {
        EventTimed(ws[n - 1], ops[n - 1].e);
      }
    }
  }

  /** What an operation does to the sender's pacer. rttMin is the RTT minimum its bandwidth callback
      reads. */
  function PacerAfter(p: Pacers.Bucket, b: Bbr, op: Op, rttMin: nat, delay: nat): Pacers.Bucket
    requires b.path.minRtt >= 0
  {
    match op
    case Send(time, _, _, bytes, _) => Pacers.Sent(p, time, bytes, BandwidthForPacer(b, rttMin), delay)
    case Congestion(_) => p
    case Resize(datagram) => p.(maxDatagramSize := datagram)
  }

  /** The states and operations of a run, the pacer in each state, and the RTT minimum its bandwidth
      callback reads at each operation. */
  datatype PacedTrace = PacedTrace(ws: seq<World>, ops: seq<Op>, ps: seq<Pacers.Bucket>, rtts: seq<nat>, delay: nat)

  /** A run with the pacer in each of its states, from a new pacer. The sender and its pacer may start
      with different datagram sizes. */
  ghost predicate PacedRun(t: PacedTrace, datagram: int, maxPackets: int, initialPacketSize: int) {
    && Run(t.ws, t.ops, datagram, maxPackets)
    && |t.ps| == |t.ws| && |t.rtts| == |t.ops|
    && t.ps[0] == Pacers.Bucket(Pacers.MAX_BURST_PACKETS * initialPacketSize, initialPacketSize, 0)
    && forall n | 0 <= n < |t.ops| && t.ws[n].b.path.minRtt >= 0 :: t.ps[n + 1] == PacerAfter(t.ps[n], t.ws[n].b, t.ops[n], t.rtts[n], t.delay)
  }

  /** The pacer sends datagrams of the sender, and has not sent after the clock. */
  ghost predicate Fits(w: World, p: Pacers.Bucket) {
    Pacers.InUse(p) && 0 < w.b.limits.datagram <= p.maxDatagramSize && p.lastSentTime <= w.clock
  }

  lemma {:induction false} RunFits(t: PacedTrace, datagram: int, maxPackets: int, initialPacketSize: int, n: nat)
    requires PacedRun(t, datagram, maxPackets, initialPacketSize) && n < |t.ws|
    requires 0 < datagram <= initialPacketSize
    ensures Fits(t.ws[n], t.ps[n])
  {
    if n > 0 {
      RunFits(t, datagram, maxPackets, initialPacketSize, n - 1);
      RunTimed(t.ws, t.ops, datagram, maxPackets, n - 1);
      assert t.ws[n - 1 + 1] == Stepped(t.ws[n - 1], t.ops[n - 1]);
      assert t.ps[n - 1 + 1] == PacerAfter(t.ps[n - 1], t.ws[n - 1].b, t.ops[n - 1], t.rtts[n - 1], t.delay);
      if t.ops[n - 1].Congestion? {
        EventKeepsSent(t.ws[n - 1].b, t.ops[n - 1].e);
      }
    }
  }

  /** In every reachable state of a sender whose datagram size starts no larger than its pacer's: the
      bandwidth of the pacer is at least 64 KB/s, and from the time TimeUntilSend names on
      HasPacingBudget says yes. */
  lemma ReadyMeansBudget(t: PacedTrace, datagram: int, maxPackets: int, initialPacketSize: int, n: nat, rttMin: nat, now: int)
    requires PacedRun(t, datagram, maxPackets, initialPacketSize) && n < |t.ws|
    requires 0 < datagram <= initialPacketSize
    ensures t.ws[n].b.path.minRtt >= 0 && BandwidthForPacer(t.ws[n].b, rttMin) >= MIN_BPS > 0
    ensures now >= t.ws[n].clock && now >= Pacers.ReadyAt(t.ps[n], BandwidthForPacer(t.ws[n].b, rttMin), t.delay) ==>
              BbrModel.HasPacingBudget(t.ws[n].b, t.ps[n], now, rttMin, t.delay)
  {
    RunTimed(t.ws, t.ops, datagram, maxPackets, n);
    RunFits(t, datagram, maxPackets, initialPacketSize, n);
    Pacers.ReadyStays(t.ps[n], BandwidthForPacer(t.ws[n].b, rttMin), t.delay);
  }

  // ----- What a run puts out.

  function SentBytes(ops: seq<Op>, m: nat, n: nat): int
    requires m <= n <= |ops|
    decreases n - m
  {
    if m == n then 0 else (if ops[m].Send? then ops[m].bytes else 0) + SentBytes(ops, m + 1, n)
  }

  /** Operations m up to n as their pacer sees them. */
  ghost function Steps(t: PacedTrace, m: nat, n: nat): seq<Pacers.Step>
    requires m <= n <= |t.ops| == |t.rtts| < |t.ws|
    requires forall k | m <= k < n :: t.ws[k].b.path.minRtt >= 0
    decreases n - m
  {
    if m == n then []
    else
      (match t.ops[m]
       case Send(time, _, _, bytes, _) => [Pacers.Send(time, bytes, BandwidthForPacer(t.ws[m].b, t.rtts[m]))]
       case Congestion(_) => []
       case Resize(datagram) => [Pacers.Resize(datagram)])
      + Steps(t, m + 1, n)
  }

  /** Every send of operations m up to n is within the budget of its moment and sees at most a
      bandwidth. */
  ghost predicate SendsWithin(t: PacedTrace, m: nat, n: nat, bw: int)
    requires n <= |t.ops| == |t.rtts| < |t.ws| == |t.ps|
  {
    forall k | m <= k < n && t.ops[k].Send? && t.ws[k].b.path.minRtt >= 0 ::
      && t.ops[k].bytes <= Pacers.Budget(t.ps[k], t.ops[k].time, BandwidthForPacer(t.ws[k].b, t.rtts[k]), t.delay)
      && BandwidthForPacer(t.ws[k].b, t.rtts[k]) <= bw
  }

  lemma {:induction false} StepsAreMetered(t: PacedTrace, datagram: int, maxPackets: int, initialPacketSize: int, m: nat, n: nat, bw: int)
    requires PacedRun(t, datagram, maxPackets, initialPacketSize) && m <= n <= |t.ops|
    requires 0 < datagram <= initialPacketSize && SendsWithin(t, m, n, bw)
    ensures forall k | m <= k < n :: t.ws[k].b.path.minRtt >= 0
    ensures var steps := Steps(t, m, n);
            && Pacers.Metered(t.ps[m], steps, bw, t.delay) && Pacers.BytesSent(steps) == SentBytes(t.ops, m, n)
            && t.ps[m].lastSentTime <= Pacers.LastTime(t.ps[m].lastSentTime, steps) <= t.ws[n].clock
    decreases n - m
  {
    RunFits(t, datagram, maxPackets, initialPacketSize, m);
    if m < n {
      StepsAreMetered(t, datagram, maxPackets, initialPacketSize, m + 1, n, bw);
      RunTimed(t.ws, t.ops, datagram, maxPackets, m);
      var rest := Steps(t, m + 1, n);
      assert Possible(t.ws[m], t.ops[m]) && t.ps[m + 1] == PacerAfter(t.ps[m], t.ws[m].b, t.ops[m], t.rtts[m], t.delay);
      match t.ops[m]
      case Congestion(_) =>
        assert [] + rest == rest;
      case Resize(size) =>
        StepCons(t.ps[m], Pacers.Resize(size), rest, bw, t.delay);
      case Send(time, _, _, bytes, _) =>
        StepCons(t.ps[m], Pacers.Send(time, bytes, BandwidthForPacer(t.ws[m].b, t.rtts[m])), rest, bw, t.delay);
    }
  }

  lemma StepCons(p: Pacers.Bucket, step: Pacers.Step, rest: seq<Pacers.Step>, bw: int, delay: int)
    requires Pacers.Metered(Pacers.Stepped(p, step, delay), rest, bw, delay)
    requires step.Send? ==>
      && 0 < step.time && p.lastSentTime <= step.time && 0 <= step.bw <= bw
      && 0 <= step.size <= Pacers.Budget(p, step.time, step.bw, delay)
    ensures Pacers.Metered(p, [step] + rest, bw, delay)
    ensures Pacers.BytesSent([step] + rest) == (if step.Send? then step.size else 0) + Pacers.BytesSent(rest)
    ensures Pacers.LastTime(p.lastSentTime, [step] + rest) == Pacers.LastTime(Pacers.Stepped(p, step, delay).lastSentTime, rest)
  {
    assert ([step] + rest)[1..] == rest;
  }

  lemma BoundUntil(p: Pacers.Bucket, steps: seq<Pacers.Step>, bw: nat, delay: nat, end: int)
    requires Pacers.InUse(p) && steps != [] && steps[0].Send? && Pacers.Metered(p, steps, bw, delay)
    requires steps[0].time <= Pacers.LastTime(p.lastSentTime, steps) <= end
    ensures Pacers.BytesSent(steps) <= Pacers.MaxBurst(p.maxDatagramSize, bw, delay) + Quotient(bw * (end - steps[0].time), NANOS)
  {
    var last := Pacers.LastTime(p.lastSentTime, steps);
    Pacers.TokenBucketBound(p, steps, bw, delay);
    Product(bw, bw, last - steps[0].time, end - steps[0].time);
    QuotientMonotone(bw * (last - steps[0].time), bw * (end - steps[0].time));
  }

  /** The output of a sender that keeps to its pacer: from a send on, no more than one burst and what
      the largest bandwidth it paced at carries in the time. */
  lemma OutputBound(t: PacedTrace, datagram: int, maxPackets: int, initialPacketSize: int, m: nat, n: nat, bw: nat)
    requires PacedRun(t, datagram, maxPackets, initialPacketSize) && m < n <= |t.ops|
    requires 0 < datagram <= initialPacketSize && t.ops[m].Send? && SendsWithin(t, m, n, bw)
    ensures SentBytes(t.ops, m, n)
         <= Pacers.MaxBurst(t.ps[m].maxDatagramSize, bw, t.delay) + Quotient(bw * (t.ws[n].clock - t.ops[m].time), NANOS)
  {
    StepsAreMetered(t, datagram, maxPackets, initialPacketSize, m, n, bw);
    RunFits(t, datagram, maxPackets, initialPacketSize, m);
    StepsEndAfter(t, datagram, maxPackets, initialPacketSize, m, n, bw);
    BoundUntil(t.ps[m], Steps(t, m, n), bw, t.delay, t.ws[n].clock);
  }

  lemma StepsEndAfter(t: PacedTrace, datagram: int, maxPackets: int, initialPacketSize: int, m: nat, n: nat, bw: nat)
    requires PacedRun(t, datagram, maxPackets, initialPacketSize) && m < n <= |t.ops|
    requires 0 < datagram <= initialPacketSize && t.ops[m].Send? && SendsWithin(t, m, n, bw)
    requires forall k | m <= k < n :: t.ws[k].b.path.minRtt >= 0
    ensures Steps(t, m, n) != [] && Steps(t, m, n)[0].Send? && Steps(t, m, n)[0].time == t.ops[m].time
    ensures Pacers.LastTime(t.ps[m].lastSentTime, Steps(t, m, n)) >= t.ops[m].time
  {
    StepsAreMetered(t, datagram, maxPackets, initialPacketSize, m + 1, n, bw);
    assert t.ps[m + 1] == PacerAfter(t.ps[m], t.ws[m].b, t.ops[m], t.rtts[m], t.delay);
    assert Steps(t, m, n)[1..] == Steps(t, m + 1, n);
  }
}
