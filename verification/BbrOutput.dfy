/** What a BBR sender puts out over a link, in PROBE_BW. */
module BbrOutputs {
  import opened Arith
  import Pacers
  import opened SamplerModel
  import opened LinkRates
  import opened BbrModel
  import opened BbrRuns
  import opened BbrModes
  import opened BbrEstimates
  import opened BbrPacing
  import BbrRates

  /** At full bandwidth the rate is the gain of the mode times the estimate. */
  ghost predicate RateFollows(b: Bbr) {
    b.phase.isAtFullBandwidth && BandwidthEstimate(b) != 0 ==> b.pacingRate == Scaled(b.phase.pacingGain, BandwidthEstimate(b))
  }

  lemma {:induction false} RunRateFollows(ws: seq<World>, ops: seq<Op>, datagram: int, maxPackets: int, n: nat)
    requires Run(ws, ops, datagram, maxPackets) && n < |ws|
    ensures RateFollows(ws[n].b)
  {
    if n > 0 {
      RunRateFollows(ws, ops, datagram, maxPackets, n - 1);
      assert ws[n - 1 + 1] == Stepped(ws[n - 1], ops[n - 1]);
      if ops[n - 1].Congestion? {
        BbrRates.EventRate(ws[n - 1].b, ops[n - 1].e);
      }
    }
  }

  /** The bandwidth the pacer sees in PROBE_BW, in bytes per second: no more than 5/4 of a bound on
      the estimate, or the floor. */
  lemma ProbeBwBandwidth(b: Bbr, rttMin: nat, rate: nat)
    requires GainsMatch(b.phase) && b.phase.mode == ProbeBw && RateFollows(b) && b.path.minRtt >= 0
    requires BYTES_PER_SECOND <= BandwidthEstimate(b) <= BYTES_PER_SECOND * rate
    ensures BandwidthForPacer(b, rttMin) <= Max(MIN_BPS, 5 * rate / 4)
  {
    var gain, estimate := b.phase.pacingGain, BandwidthEstimate(b);
    assert 0.75 <= gain <= 1.25;
    GainTimes(gain, estimate, rate);
    assert PacingRate(b, rttMin) == b.pacingRate == Scaled(gain, estimate);
    PerByte(b.pacingRate, rate);
  }

  lemma GainTimes(gain: real, estimate: int, rate: nat)
    requires 0.75 <= gain <= 1.25 && 8 <= estimate <= 8 * rate
    ensures 0 < Scaled(gain, estimate) <= 10 * rate
  {
    var x := gain * estimate as real;
    RealProduct(0.75, gain, 8.0, estimate as real);
    RealProduct(gain, 1.25, estimate as real, (8 * rate) as real);
    BbrRates.FloorMonotone(6.0, x);
    BbrRates.FloorMonotone(x, (10 * rate) as real);
  }

  lemma RealProduct(a: real, b: real, c: real, d: real)
    requires 0.0 <= a <= b && 0.0 <= c <= d
    ensures a * c <= b * d
  {
    assert a * c <= b * c && b * c <= b * d;
  }

  lemma PerByte(bits: nat, rate: nat)
    requires bits <= 10 * rate
    ensures Trunc(bits as real / BYTES_PER_SECOND as real) <= 5 * rate / 4
  {
    var x := bits as real / 8.0;
    assert x <= (5 * rate) as real / 4.0;
    assert x.Floor as real <= x;
    assert (4 * x.Floor) as real <= (5 * rate) as real;
  }

  /** A send of a sender that asked its pacer first: at most a datagram, when there was budget for
      one; and in PROBE_BW, with an estimate of at least a byte per second. */
  ghost predicate PacedSend(t: PacedTrace, k: nat)
    requires k < |t.ops| == |t.rtts| < |t.ws| == |t.ps| && t.ops[k].Send? && t.ws[k].b.path.minRtt >= 0
  {
    && t.ws[k].b.phase.mode == ProbeBw && BandwidthEstimate(t.ws[k].b) >= BYTES_PER_SECOND
    && BbrModel.HasPacingBudget(t.ws[k].b, t.ps[k], t.ops[k].time, t.rtts[k], t.delay)
    && t.ops[k].bytes <= t.ws[k].b.limits.datagram
  }

  /** Over a link of a rate in bytes per second, a BBR sender in PROBE_BW that sends only with pacing
      budget puts out no more than one burst and what 5/4 of that rate carries in the time. */
  lemma ProbeBwOutput(t: PacedTrace, datagram: int, maxPackets: int, initialPacketSize: int, m: nat, n: nat, rate: nat)
    requires PacedRun(t, datagram, maxPackets, initialPacketSize) && m < n <= |t.ops|
    requires 0 < datagram <= initialPacketSize && t.ops[m].Send? && Carries(Points(AllCalls(t.ws, t.ops, n)), rate)
    requires forall k | m <= k < n && t.ops[k].Send? && t.ws[k].b.path.minRtt >= 0 :: PacedSend(t, k)
    ensures var bw := Max(MIN_BPS, 5 * rate / 4);
            SentBytes(t.ops, m, n) <=
              Pacers.MaxBurst(t.ps[m].maxDatagramSize, bw, t.delay) + Quotient(bw * (t.ws[n].clock - t.ops[m].time), NANOS)
  {
    var bw := Max(MIN_BPS, 5 * rate / 4);
    forall k | m <= k < n && t.ops[k].Send? && t.ws[k].b.path.minRtt >= 0
      ensures t.ops[k].bytes <= Pacers.Budget(t.ps[k], t.ops[k].time, BandwidthForPacer(t.ws[k].b, t.rtts[k]), t.delay)
      ensures BandwidthForPacer(t.ws[k].b, t.rtts[k]) <= bw
    {
      assert PacedSend(t, k);
      RunGains(t.ws, t.ops, datagram, maxPackets, k);
      RunRateFollows(t.ws, t.ops, datagram, maxPackets, k);
      CarriesEarlier(t.ws, t.ops, k, n, rate);
      EstimateWithinLink(t.ws, t.ops, datagram, maxPackets, k, rate);
      ProbeBwBandwidth(t.ws[k].b, t.rtts[k], rate);
    }
    OutputBound(t, datagram, maxPackets, initialPacketSize, m, n, bw);
  }
}
