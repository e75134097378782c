/** The bandwidth estimate never exceeds the rate of the link. The link rate is a hypothesis on
    the run: between two points of the ack curve, no more bytes are acked than the link
    carries in that time. */
module LinkRates {
  import opened Arith
  import opened PacketQueues
  import opened SamplerModel

  /** A point of the ack curve: the total acked at a time. The points are the events that acked
      a tracked packet, and the sends into an idle connection, which the sampler takes as the
      start of a slope. */
  datatype AckPoint = AckPoint(time: int, total: int, isAck: bool)

  ghost predicate AcksTracked(s: Sampler, acked: seq<AckedPacket>) {
    exists i | 0 <= i < |acked| :: acked[i].packetNumber in s.tracked
  }

  ghost function PointsAfter(points: seq<AckPoint>, s: Sampler, c: Call): seq<AckPoint> {
    if c.Sent? && c.retransmittable && c.inFlight == 0 then
      points + [AckPoint(c.time, s.totalBytesAcked, false)]
    else if c.Event? && AcksTracked(s, c.acked) then
      points + [AckPoint(c.time, Applied(s, c).totalBytesAcked, true)]
    else points
  }

  /** The link carries at most rate bytes per second: from any point to any later ack, the bytes
      acked in between fit in the time in between. */
  ghost predicate Carries(points: seq<AckPoint>, rate: nat) {
    forall i, j | 0 <= i < j < |points| && points[j].isAck ::
      (points[j].total - points[i].total) * NANOS <= rate * (points[j].time - points[i].time)
  }

  ghost predicate HasPoint(points: seq<AckPoint>, time: int, total: int) {
    exists i | 0 <= i < |points| :: points[i].time == time && points[i].total == total
  }

  /** Every slope the sampler can take starts at a point. */
  ghost predicate Anchored(s: Sampler, points: seq<AckPoint>) {
    && (s.lastAckedPacketSentTime != 0 ==> HasPoint(points, s.lastAckedPacketAckTime, s.totalBytesAcked))
    && forall pn | pn in s.tracked :: AnchoredPacket(s.tracked[pn], points)
  }

  ghost predicate AnchoredPacket(e: SentPacket, points: seq<AckPoint>) {
    && e.size >= 0
    && (e.lastAckedPacketSentTime != 0 ==> HasPoint(points, e.lastAckedPacketAckTime, e.sendTimeState.totalBytesAcked))
  }

  ghost predicate SizesNonNegative(c: Call) {
    c.Sent? ==> c.bytes >= 0
  }

  lemma PointsGrow(points: seq<AckPoint>, p: AckPoint, time: int, total: int)
    requires HasPoint(points, time, total)
    ensures HasPoint(points + [p], time, total)
  {
    var i :| 0 <= i < |points| && points[i].time == time && points[i].total == total;
    assert (points + [p])[i].time == time;
  }

  /** What an event's acks leave behind: the packets stay, and the ack time and the total move
      together. */
  lemma {:induction false} AckAllKeeps(s: Sampler, time: int, acked: seq<AckedPacket>)
    requires forall pn | pn in s.tracked :: s.tracked[pn].size >= 0
    ensures var s' := AckAll(s, time, acked).0;
            && s'.tracked == s.tracked && s'.lastSlot == s.lastSlot
            && s'.totalBytesAcked >= s.totalBytesAcked
            && (if AcksTracked(s, acked) then s'.lastAckedPacketAckTime == time
                else s' == s.(lastAckedPacket := s'.lastAckedPacket))
  {
    if acked != [] {
      var init, last := acked[..|acked| - 1], acked[|acked| - 1];
      AckAllKeeps(s, time, init);
      if AcksTracked(s, init) {
        var i :| 0 <= i < |init| && init[i].packetNumber in s.tracked;
        assert acked[i] == init[i];
      } else if last.packetNumber !in s.tracked {
        forall i | 0 <= i < |acked| ensures acked[i].packetNumber !in s.tracked {
          assert i < |init| ==> init[i] == acked[i];
        }
      }
    }
  }

  lemma RateBound(bytes: int, delta: int, rate: nat)
    requires delta > 0 && bytes * NANOS <= rate * delta
    ensures BandwidthFromDelta(bytes, delta) <= BYTES_PER_SECOND * rate
  {
    QuotientAtMost(bytes * NANOS, delta, rate);
  }

  /** What is acked from the start of the packet's ack slope up to a total, the link can carry. */
  ghost predicate WithinLink(e: SentPacket, time: int, end: int, rate: nat) {
    e.lastAckedPacketSentTime != 0 && time > e.lastAckedPacketAckTime ==>
      (end - e.sendTimeState.totalBytesAcked) * NANOS <= rate * (time - e.lastAckedPacketAckTime)
  }

  /** A sample stays within the link when the bytes up to the end of the event do. */
  lemma SampleBound(e: SentPacket, time: int, acked: int, end: int, rate: nat)
    requires acked <= end && WithinLink(e, time, end, rate)
    ensures SampleOf(e, time, acked).bandwidth <= BYTES_PER_SECOND * rate
  {
    if e.lastAckedPacketSentTime != 0 && time > e.lastAckedPacketAckTime {
      RateBound(acked - e.sendTimeState.totalBytesAcked, time - e.lastAckedPacketAckTime, rate);
    }
  }

  lemma {:induction false} AckAllBound(s: Sampler, time: int, acked: seq<AckedPacket>, end: int, rate: nat)
    requires forall pn | pn in s.tracked :: s.tracked[pn].size >= 0 && WithinLink(s.tracked[pn], time, end, rate)
    requires AckAll(s, time, acked).0.totalBytesAcked <= end
    ensures AckAll(s, time, acked).1.maxBandwidth <= BYTES_PER_SECOND * rate
  {
    if acked != [] {
      var init, pn := acked[..|acked| - 1], acked[|acked| - 1].packetNumber;
      AckAllKeeps(s, time, init);
      AckAllBound(s, time, init, end, rate);
      if pn in s.tracked {
        SampleBound(s.tracked[pn], time, AckAll(s, time, acked).0.totalBytesAcked, end, rate);
      }
    }
  }

  /** Every sample of an event is within the link. */
  lemma EventWithinLink(s: Sampler, points: seq<AckPoint>, c: Call, rate: nat)
    requires Anchored(s, points) && c.Event? && Carries(PointsAfter(points, s, c), rate)
    ensures OnCongestionEvent(s, c.time, c.acked, c.lost, c.maxBandwidth, c.upperBound, c.round).1.maxBandwidth
         <= BYTES_PER_SECOND * rate
  {
    var s1 := LoseAll(s, c.lost).0;
    LoseAllKeeps(s, c.lost);
    AckAllKeeps(s1, c.time, c.acked);
    if c.acked != [] && AcksTracked(s, c.acked) {
      var points', end := PointsAfter(points, s, c), AckAll(s1, c.time, c.acked).0.totalBytesAcked;
      assert points'[|points|] == AckPoint(c.time, end, true);
      forall pn | pn in s.tracked ensures WithinLink(s.tracked[pn], c.time, end, rate) {
        var e := s.tracked[pn];
        assert AnchoredPacket(e, points);
        if e.lastAckedPacketSentTime != 0 {
          var i :| 0 <= i < |points| && points[i].time == e.lastAckedPacketAckTime && points[i].total == e.sendTimeState.totalBytesAcked;
          assert points'[i] == points[i];
        }
      }
      AckAllBound(s1, c.time, c.acked, end, rate);
    } else {
      UntrackedYieldNothing(s1, c.time, c.acked);
    }
  }

  lemma {:induction false} UntrackedYieldNothing(s: Sampler, time: int, acked: seq<AckedPacket>)
    requires !AcksTracked(s, acked)
    ensures AckAll(s, time, acked).1 == NO_EVENT_SAMPLE
    ensures AckAll(s, time, acked).0.tracked == s.tracked
  {
    if acked != [] {
      assert !AcksTracked(s, acked[..|acked| - 1]);
      UntrackedYieldNothing(s, time, acked[..|acked| - 1]);
    }
  }

  lemma AnchoredSent(s: Sampler, points: seq<AckPoint>, c: Call)
    requires Anchored(s, points) && c.Sent? && SizesNonNegative(c)
    ensures Anchored(Applied(s, c), PointsAfter(points, s, c))
  {
    var points', s' := PointsAfter(points, s, c), Applied(s, c);
    if c.retransmittable && c.inFlight == 0 {
      assert points'[|points|].time == c.time;
      assert HasPoint(points', c.time, s.totalBytesAcked);
    }
    forall pn | pn in s.tracked ensures AnchoredPacket(s.tracked[pn], points') {
      AnchoredGrows(s.tracked[pn], points, points');
    }
  }

  lemma AnchoredGrows(e: SentPacket, points: seq<AckPoint>, points': seq<AckPoint>)
    requires AnchoredPacket(e, points)
    requires points' == points || (|points'| == |points| + 1 && points' == points + [points'[|points|]])
    ensures AnchoredPacket(e, points')
  {
    if points' != points && e.lastAckedPacketSentTime != 0 {
      PointsGrow(points, points'[|points|], e.lastAckedPacketAckTime, e.sendTimeState.totalBytesAcked);
    }
  }

  lemma AnchoredEvent(s: Sampler, points: seq<AckPoint>, c: Call)
    requires Anchored(s, points) && c.Event?
    ensures Anchored(Applied(s, c), PointsAfter(points, s, c))
  {
    var points', s' := PointsAfter(points, s, c), Applied(s, c);
    var s1 := LoseAll(s, c.lost).0;
    LoseAllKeeps(s, c.lost);
    AckAllKeeps(s1, c.time, c.acked);
    forall pn | pn in s.tracked ensures AnchoredPacket(s.tracked[pn], points') {
      AnchoredGrows(s.tracked[pn], points, points');
    }
    if AcksTracked(s, c.acked) {
      assert points'[|points|] == AckPoint(c.time, s'.totalBytesAcked, true);
      assert HasPoint(points', c.time, s'.totalBytesAcked);
    }
  }

  /** Every call keeps the slopes anchored. */
  lemma AnchoredStep(s: Sampler, points: seq<AckPoint>, c: Call)
    requires Anchored(s, points) && SizesNonNegative(c)
    ensures Anchored(Applied(s, c), PointsAfter(points, s, c))
  {
    match c
    case Sent(_, _, _, _, _) => AnchoredSent(s, points, c);
    case Event(_, _, _, _, _, _) => AnchoredEvent(s, points, c);
    case AppLimited =>
    case Obsolete(k) =>
  }

  lemma CarriesPrefix(points: seq<AckPoint>, s: Sampler, c: Call, rate: nat)
    requires Carries(PointsAfter(points, s, c), rate)
    ensures Carries(points, rate)
  {
    var points' := PointsAfter(points, s, c);
    forall i, j | 0 <= i < j < |points| && points[j].isAck
      ensures (points[j].total - points[i].total) * NANOS <= rate * (points[j].time - points[i].time)
    {
      assert points'[i] == points[i] && points'[j] == points[j];
    }
  }

  ghost function Points(calls: seq<Call>): seq<AckPoint> {
    if calls == [] then []
    else
      var init := calls[..|calls| - 1];
      PointsAfter(Points(init), After(init), calls[|calls| - 1])
  }

  lemma {:induction false} RunAnchored(calls: seq<Call>)
    requires forall c | c in calls :: SizesNonNegative(c)
    ensures Anchored(After(calls), Points(calls))
  {
    if calls != [] {
      var init := calls[..|calls| - 1];
      RunAnchored(init);
      AnchoredStep(After(init), Points(init), calls[|calls| - 1]);
    }
  }

  /** In every run over a link of the given rate (bytes per second), every bandwidth sample
      (bits per second) is at most that rate. */
  lemma SamplesWithinLink(calls: seq<Call>, c: Call, rate: nat)
    requires forall c | c in calls :: SizesNonNegative(c)
    requires c.Event? && Carries(Points(calls + [c]), rate)
    ensures OnCongestionEvent(After(calls), c.time, c.acked, c.lost, c.maxBandwidth, c.upperBound, c.round).1.maxBandwidth
         <= BYTES_PER_SECOND * rate
  {
    RunAnchored(calls);
    assert (calls + [c])[..|calls + [c]| - 1] == calls;
    EventWithinLink(After(calls), Points(calls), c, rate);
  }
}
