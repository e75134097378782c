/** What a bandwidth sample is, in terms of the run alone: the smaller of two slopes, between points
    of the curve of bytes sent and between points of the curve of bytes acked. Both curves are built
    from the calls, not from the sampler. */
module SendSlopes {
  import opened Arith
  import opened PacketQueues
  import SM = SamplerModel
  import opened SamplerModel
  import opened AppLimitedPhases

  /** The call that sent a packet, or -1. */
  function SendOf(calls: seq<Call>, pn: int): (m: int)
    ensures -1 <= m < |calls|
    ensures m >= 0 ==> calls[m].Sent? && calls[m].retransmittable && calls[m].pn == pn
  {
    if calls == [] then -1
    else
      var last := |calls| - 1;
      if Sends(calls[last], pn) then last else SendOf(calls[..last], pn)
  }

  predicate Sends(c: Call, pn: int) {
    c.Sent? && c.retransmittable && c.pn == pn
  }

  /** The curve of bytes sent: the retransmittable bytes of all calls. */
  function SentTotal(calls: seq<Call>): int {
    if calls == [] then 0
    else
      var c := calls[|calls| - 1];
      SentTotal(calls[..|calls| - 1]) + if c.Sent? && c.retransmittable then c.bytes else 0
  }

  function BytesOf(calls: seq<Call>, pn: int): int {
    var m := SendOf(calls, pn);
    if m >= 0 then calls[m].bytes else 0
  }

  /** The bytes of the acked packets that the sampler still tracks, as they were sent. */
  ghost function TrackedBytes(calls: seq<Call>, acked: seq<AckedPacket>): int {
    if acked == [] then 0
    else
      var pn := acked[|acked| - 1].packetNumber;
      TrackedBytes(calls, acked[..|acked| - 1]) + if pn in After(calls).tracked then BytesOf(calls, pn) else 0
  }

  /** The curve of bytes acked. */
  ghost function AckedTotal(calls: seq<Call>): int {
    if calls == [] then 0
    else
      var init, c := calls[..|calls| - 1], calls[|calls| - 1];
      AckedTotal(init) + if c.Event? then TrackedBytes(init, c.acked) else 0
  }

  /** Where the slopes of the next packet start: when the last acked packet was sent and what was
      sent by then, and when it was acked. */
  datatype Anchor = Unset | Anchor(sendTime: int, sent: int, ackTime: int)

  function SendPoint(calls: seq<Call>, pn: int, ackTime: int): Anchor {
    var m := SendOf(calls, pn);
    if m < 0 then Unset else Anchor(calls[m].time, SentTotal(calls[..m + 1]), ackTime)
  }

  /** The last of the acked packets that is tracked sets the anchor. */
  ghost function AckAnchor(calls: seq<Call>, before: Anchor, time: int, acked: seq<AckedPacket>): Anchor {
    if acked == [] then before
    else
      var pn := acked[|acked| - 1].packetNumber;
      if pn in After(calls).tracked then SendPoint(calls, pn, time)
      else AckAnchor(calls, before, time, acked[..|acked| - 1])
  }

  /** A send into an idle connection is its own anchor. */
  ghost function AnchorAfter(calls: seq<Call>): Anchor {
    if calls == [] then Unset
    else
      var init, c := calls[..|calls| - 1], calls[|calls| - 1];
      if c.Sent? && c.retransmittable && c.inFlight == 0 then Anchor(c.time, SentTotal(calls), c.time)
      else if c.Event? then AckAnchor(init, AnchorAfter(init), c.time, c.acked)
      else AnchorAfter(init)
  }

  /** Bits per second, rounded down. */
  function Slope(bytes: int, delta: int): int
    requires delta > 0
  {
    8 * Quotient(bytes * 1_000_000_000, delta)
  }

  /** The slope of the curve of bytes sent from the anchor up to the packet. */
  ghost function SendSlope(calls: seq<Call>, m: nat): int
    requires m < |calls| && calls[m].Sent? && AnchorAfter(calls[..m + 1]).Anchor?
  {
    var a := AnchorAfter(calls[..m + 1]);
    if calls[m].time > a.sendTime then Slope(SentTotal(calls[..m + 1]) - a.sent, calls[m].time - a.sendTime)
    else INF_BANDWIDTH
  }

  /** The slope of the curve of bytes acked from the anchor up to the ack of the packet. */
  ghost function AckSlope(calls: seq<Call>, m: nat, time: int, total: int): int
    requires m < |calls| && AnchorAfter(calls[..m + 1]).Anchor? && time > AnchorAfter(calls[..m + 1]).ackTime
  {
    Slope(total - AckedTotal(calls[..m]), time - AnchorAfter(calls[..m + 1]).ackTime)
  }

  /** Whether the ack of the packet of call m yields a sample: zero times stand for no anchor, and a
      slope needs time to have passed. */
  ghost predicate Yields(calls: seq<Call>, m: nat, time: int)
    requires m < |calls|
  {
    var a := AnchorAfter(calls[..m + 1]);
    a.Anchor? && a.sendTime != 0 && time > a.ackTime
  }

  ghost predicate At(sendTime: int, sent: int, ackTime: int, a: Anchor) {
    if a.Unset? then sendTime == 0 && sent == 0 && ackTime == 0
    else sendTime == a.sendTime && sent == a.sent && ackTime == a.ackTime
  }

  /** What is stored of a packet is what the run says of its call. */
  ghost predicate Stored(e: SentPacket, calls: seq<Call>, pn: int) {
    var m := SendOf(calls, pn);
    && m >= 0 && e.sentTime == calls[m].time && e.size == calls[m].bytes
    && e.sendTimeState.totalBytesSent == SentTotal(calls[..m + 1])
    && e.sendTimeState.totalBytesAcked == AckedTotal(calls[..m])
    && At(e.lastAckedPacketSentTime, e.totalBytesSentAtLastAckedPacket, e.lastAckedPacketAckTime, AnchorAfter(calls[..m + 1]))
  }

  ghost predicate OnCurves(s: Sampler, calls: seq<Call>) {
    && s.totalBytesSent == SentTotal(calls)
    && s.totalBytesAcked == AckedTotal(calls)
    && At(s.lastAckedPacketSentTime, s.totalBytesSentAtLastAckedPacket, s.lastAckedPacketAckTime, AnchorAfter(calls))
    && AllStored(s, calls)
  }

  ghost predicate AllStored(s: Sampler, calls: seq<Call>) {
    forall pn | pn in s.tracked :: Stored(s.tracked[pn], calls, pn)
  }

  lemma StoredGrows(e: SentPacket, calls: seq<Call>, pn: int)
    requires calls != [] && Stored(e, calls[..|calls| - 1], pn) && !Sends(calls[|calls| - 1], pn)
    ensures Stored(e, calls, pn)
  {
    var init := calls[..|calls| - 1];
    var m := SendOf(init, pn);
    assert init[..m] == calls[..m] && init[..m + 1] == calls[..m + 1];
  }

  lemma AllStoredGrows(s: Sampler, calls: seq<Call>)
    requires calls != [] && AllStored(s, calls[..|calls| - 1])
    requires forall pn | pn in s.tracked :: !Sends(calls[|calls| - 1], pn)
    ensures AllStored(s, calls)
  {
    forall pn | pn in s.tracked ensures Stored(s.tracked[pn], calls, pn) {
      StoredGrows(s.tracked[pn], calls, pn);
    }
  }

  /** The state after some of the acks of an event. */
  ghost predicate OnCurvesWithin(s: Sampler, calls: seq<Call>, time: int, acked: seq<AckedPacket>) {
    && s.totalBytesAcked == AckedTotal(calls) + TrackedBytes(calls, acked)
    && At(s.lastAckedPacketSentTime, s.totalBytesSentAtLastAckedPacket, s.lastAckedPacketAckTime,
          AckAnchor(calls, AnchorAfter(calls), time, acked))
    && s.tracked == After(calls).tracked && s.totalBytesSent == After(calls).totalBytesSent && s.lastSlot == After(calls).lastSlot
  }

  lemma {:induction false} AcksOnCurves(calls: seq<Call>, s: Sampler, time: int, acked: seq<AckedPacket>)
    requires OnCurves(After(calls), calls) && OnCurvesWithin(s, calls, time, [])
    ensures OnCurvesWithin(AckAll(s, time, acked).0, calls, time, acked)
  {
    if acked != [] {
      var init, pn := acked[..|acked| - 1], acked[|acked| - 1].packetNumber;
      AcksOnCurves(calls, s, time, init);
      if pn in After(calls).tracked {
        assert Stored(After(calls).tracked[pn], calls, pn);
      }
    }
  }

  lemma SentOnCurves(calls: seq<Call>)
    requires calls != [] && Increasing(calls) && calls[|calls| - 1].Sent? && OnCurves(After(calls[..|calls| - 1]), calls[..|calls| - 1])
    ensures OnCurves(After(calls), calls)
  {
    var init, c := calls[..|calls| - 1], calls[|calls| - 1];
    var s := After(init);
    RunIsNumbered(init);
    AllStoredGrows(s, calls);
    if c.retransmittable {
      assert calls[..|calls| - 1 + 1] == calls;
      var s' := After(calls);
      assert Stored(s'.tracked[c.pn], calls, c.pn);
      forall pn | pn in s'.tracked ensures Stored(s'.tracked[pn], calls, pn) {
        assert pn != c.pn ==> pn in s.tracked && s'.tracked[pn] == s.tracked[pn];
      }
    }
  }

  lemma EventOnCurves(calls: seq<Call>)
    requires calls != [] && calls[|calls| - 1].Event? && OnCurves(After(calls[..|calls| - 1]), calls[..|calls| - 1])
    ensures OnCurves(After(calls), calls)
  {
    var init, c := calls[..|calls| - 1], calls[|calls| - 1];
    var s1 := LoseAll(After(init), c.lost).0;
    LoseAllKeeps(After(init), c.lost);
    AcksOnCurves(init, s1, c.time, c.acked);
    AllStoredGrows(After(init), calls);
  }

  lemma {:induction false} RunOnCurves(calls: seq<Call>)
    requires Increasing(calls)
    ensures OnCurves(After(calls), calls)
  {
    if calls != [] {
      RunOnCurves(calls[..|calls| - 1]);
      match calls[|calls| - 1]
      case Sent(_, _, _, _, _) => SentOnCurves(calls);
      case Event(_, _, _, _, _, _) => EventOnCurves(calls);
      case AppLimited => AllStoredGrows(After(calls), calls);
      case Obsolete(_) => AllStoredGrows(After(calls), calls);
    }
  }

  /** The sample that the ack of packet i of an event yields. */
  function PacketSample(s: Sampler, time: int, acked: seq<AckedPacket>, i: nat): BandwidthSample
    requires i < |acked|
  {
    OnPacketAcknowledged(AckAll(s, time, acked[..i]).0, time, acked[i].packetNumber).1
  }

  /** In every run, the ack of a tracked packet yields a sample exactly when the packet has an
      anchor and time has passed since; the sample is the smaller of the send slope and the ack
      slope from that anchor, and its RTT is the time since the packet's own call. */
  lemma SampleIsSmallerSlope(calls: seq<Call>, time: int, acked: seq<AckedPacket>, lost: seq<LostPacket>, i: nat)
    requires Increasing(calls) && i < |acked| && acked[i].packetNumber in After(calls).tracked
    ensures var m := SendOf(calls, acked[i].packetNumber);
            var b := PacketSample(LoseAll(After(calls), lost).0, time, acked, i);
            && m >= 0
            && (b.stateAtSend.isValid <==> Yields(calls, m, time))
            && (Yields(calls, m, time) ==>
                  && b.sendRate == SendSlope(calls, m)
                  && b.bandwidth == Min(SendSlope(calls, m), AckSlope(calls, m, time, AckedTotal(calls) + TrackedBytes(calls, acked[..i + 1])))
                  && b.rtt == time - calls[m].time)
  {
    var pn := acked[i].packetNumber;
    var s1 := LoseAll(After(calls), lost).0;
    RunOnCurves(calls);
    LoseAllKeeps(After(calls), lost);
    AcksOnCurves(calls, s1, time, acked[..i]);
    AcksOnCurves(calls, s1, time, acked[..i + 1]);
    assert acked[..i + 1][..i] == acked[..i];
    assert Stored(After(calls).tracked[pn], calls, pn);
  }

  /** The sample of one packet of an event, with the bytes acked by then. */
  datatype Taken = Taken(b: BandwidthSample, total: int)

  function TakenAt(s: Sampler, time: int, acked: seq<AckedPacket>, i: nat): Taken
    requires i < |acked|
  {
    Taken(PacketSample(s, time, acked, i), AckAll(s, time, acked[..i + 1]).0.totalBytesAcked)
  }

  /** The samples of the packets of an event, in order. */
  function PacketSamples(s: Sampler, time: int, acked: seq<AckedPacket>): (samples: seq<Taken>)
    ensures |samples| == |acked|
  {
    seq(|acked|, i requires 0 <= i < |acked| => TakenAt(s, time, acked, i))
  }

  /** v is the summary of some samples: the largest bandwidth with the state of a packet that had it,
      the smallest RTT, and the most that was acked since a packet was sent. */
  ghost predicate Summarizes(v: EventSample, samples: seq<Taken>) {
    && (forall i | 0 <= i < |samples| && samples[i].b.stateAtSend.isValid :: Covers(v, samples[i]))
    && (v.maxBandwidth == 0 || exists i | 0 <= i < |samples| :: HasBandwidth(v, samples[i].b))
    && (v.rtt == INF_RTT || exists i | 0 <= i < |samples| :: HasRtt(v, samples[i].b))
  }

  ghost predicate Covers(v: EventSample, taken: Taken) {
    && v.maxBandwidth >= taken.b.bandwidth
    && (taken.b.rtt != 0 ==> v.rtt <= taken.b.rtt)
    && v.maxInflight >= taken.total - taken.b.stateAtSend.totalBytesAcked
  }

  ghost predicate HasBandwidth(v: EventSample, b: BandwidthSample) {
    b.stateAtSend.isValid && b.bandwidth == v.maxBandwidth && b.stateAtSend.isAppLimited == v.isAppLimited
  }

  ghost predicate HasRtt(v: EventSample, b: BandwidthSample) {
    b.stateAtSend.isValid && b.rtt == v.rtt
  }

  lemma OneMoreSample(v: EventSample, samples: seq<Taken>, t: Taken)
    requires Summarizes(v, samples)
    ensures Summarizes(Absorbed(v, t.b, t.total), samples + [t])
  {
    var v', all := Absorbed(v, t.b, t.total), samples + [t];
    assert all[|samples|] == t;
    forall i | 0 <= i < |samples|
      ensures all[i] == samples[i]
      ensures HasBandwidth(v, samples[i].b) && !HasBandwidth(v', t.b) ==> HasBandwidth(v', all[i].b)
      ensures HasRtt(v, samples[i].b) && !HasRtt(v', t.b) ==> HasRtt(v', all[i].b)
    {
    }
  }

  lemma {:induction false} AcksAreSummarized(s: Sampler, time: int, acked: seq<AckedPacket>)
    ensures Summarizes(AckAll(s, time, acked).1, PacketSamples(s, time, acked))
  {
    if acked != [] {
      var last, init := |acked| - 1, acked[..|acked| - 1];
      assert acked[..last + 1] == acked;
      AcksAreSummarized(s, time, init);
      OneMoreSample(AckAll(s, time, init).1, PacketSamples(s, time, init), TakenAt(s, time, acked, last));
      SamplesGrow(s, time, acked);
    }
  }

  lemma SameTaken(s: Sampler, time: int, acked: seq<AckedPacket>, k: nat, i: nat)
    requires i < k <= |acked|
    ensures TakenAt(s, time, acked[..k], i) == TakenAt(s, time, acked, i)
  {
    assert acked[..k][..i] == acked[..i] && acked[..k][..i + 1] == acked[..i + 1];
  }

  lemma SamplesGrow(s: Sampler, time: int, acked: seq<AckedPacket>)
    requires acked != []
    ensures PacketSamples(s, time, acked) == PacketSamples(s, time, acked[..|acked| - 1]) + [TakenAt(s, time, acked, |acked| - 1)]
  {
    var last := |acked| - 1;
    var samples, before := PacketSamples(s, time, acked), PacketSamples(s, time, acked[..last]);
    forall i | 0 <= i < last ensures samples[i] == before[i] {
      SameTaken(s, time, acked, last, i);
    }
  }

  /** The sample of an event in a run summarizes the samples of its packets, whose slopes are those
      of the two curves. */
  lemma EventSampleIsSummary(calls: seq<Call>, c: Call)
    requires c.Event? && c.acked != []
    ensures var v := SM.OnCongestionEvent(After(calls), c.time, c.acked, c.lost, c.maxBandwidth, c.upperBound, c.round).1;
            Summarizes(v, PacketSamples(LoseAll(After(calls), c.lost).0, c.time, c.acked))
  {
    var s1 := LoseAll(After(calls), c.lost).0;
    var v, w := AckAll(s1, c.time, c.acked).1,
                SM.OnCongestionEvent(After(calls), c.time, c.acked, c.lost, c.maxBandwidth, c.upperBound, c.round).1;
    AcksAreSummarized(s1, c.time, c.acked);
    SameSummary(v, w, PacketSamples(s1, c.time, c.acked));
  }

  lemma SameSummary(v: EventSample, w: EventSample, samples: seq<Taken>)
    requires Summarizes(v, samples)
    requires w == v.(lastPacketSendState := w.lastPacketSendState, extraAcked := w.extraAcked)
    ensures Summarizes(w, samples)
  {
    forall i | 0 <= i < |samples|
      ensures HasBandwidth(v, samples[i].b) ==> HasBandwidth(w, samples[i].b)
      ensures HasRtt(v, samples[i].b) ==> HasRtt(w, samples[i].b)
    {
    }
  }

  /** Both curves carry at least rate bytes per second between the points of a sample. */
  ghost predicate CarryAtLeast(calls: seq<Call>, m: nat, time: int, total: int, rate: nat)
    requires m < |calls| && calls[m].Sent? && Yields(calls, m, time)
  {
    var a := AnchorAfter(calls[..m + 1]);
    && (calls[m].time > a.sendTime ==>
          (SentTotal(calls[..m + 1]) - a.sent) * 1_000_000_000 >= rate * (calls[m].time - a.sendTime))
    && (total - AckedTotal(calls[..m])) * 1_000_000_000 >= rate * (time - a.ackTime)
  }

  lemma SlopeAtLeast(bytes: int, delta: int, rate: nat)
    requires delta > 0 && bytes * 1_000_000_000 >= rate * delta
    ensures Slope(bytes, delta) >= 8 * rate
  {
    var x := bytes * 1_000_000_000;
    Product(0, rate, 0, delta);
    TimesMonotone(x / delta + 1, rate, delta);
    assert (x / delta + 1) * delta == x / delta * delta + delta;
  }

  /** The ack of packet i of an event yields a sample, between points that carry at least rate. */
  ghost predicate Reaches(calls: seq<Call>, time: int, acked: seq<AckedPacket>, i: nat, rate: nat) {
    && i < |acked| && acked[i].packetNumber in After(calls).tracked
    && var m := SendOf(calls, acked[i].packetNumber);
       && m >= 0 && Yields(calls, m, time)
       && CarryAtLeast(calls, m, time, AckedTotal(calls) + TrackedBytes(calls, acked[..i + 1]), rate)
  }

  lemma PacketReachesLink(calls: seq<Call>, time: int, acked: seq<AckedPacket>, lost: seq<LostPacket>, i: nat, rate: nat)
    requires Increasing(calls) && Reaches(calls, time, acked, i, rate)
    ensures var b := PacketSample(LoseAll(After(calls), lost).0, time, acked, i);
            b.stateAtSend.isValid && b.bandwidth >= Min(INF_BANDWIDTH, 8 * rate)
  {
    var m := SendOf(calls, acked[i].packetNumber);
    var a, total := AnchorAfter(calls[..m + 1]), AckedTotal(calls) + TrackedBytes(calls, acked[..i + 1]);
    SampleIsSmallerSlope(calls, time, acked, lost, i);
    SlopeAtLeast(total - AckedTotal(calls[..m]), time - a.ackTime, rate);
    if calls[m].time > a.sendTime {
      SlopeAtLeast(SentTotal(calls[..m + 1]) - a.sent, calls[m].time - a.sendTime, rate);
    }
  }

  /** The companion of the upper bound: in every run, when both curves carry at least a rate between
      the points of a packet of an event, the sample of the event is at least that rate. */
  lemma SamplesReachLink(calls: seq<Call>, c: Call, i: nat, rate: nat)
    requires Increasing(calls) && c.Event? && Reaches(calls, c.time, c.acked, i, rate)
    ensures SM.OnCongestionEvent(After(calls), c.time, c.acked, c.lost, c.maxBandwidth, c.upperBound, c.round).1.maxBandwidth
         >= Min(INF_BANDWIDTH, 8 * rate)
  {
    PacketReachesLink(calls, c.time, c.acked, c.lost, i, rate);
    EventSampleIsSummary(calls, c);
    assert Covers(SM.OnCongestionEvent(After(calls), c.time, c.acked, c.lost, c.maxBandwidth, c.upperBound, c.round).1,
                  PacketSamples(LoseAll(After(calls), c.lost).0, c.time, c.acked)[i]);
  }
}
