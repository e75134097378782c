/** The byte accounts of the bandwidth sampler over whole runs: bytes acked and lost never
    exceed the bytes sent, every snapshot is behind the totals, and the ack aggregation epoch
    counts exactly the bytes acked since it began. The environment is the QUIC sender: packet
    numbers increase, and each packet is acked or lost at most once, at its sent size. */
module Conservation {
  import opened Arith
  import opened PacketQueues
  import opened WindowedFilters
  import opened SamplerModel

  /** The sampler with what its environment knows: the sizes of the packets that are neither
      acked nor lost yet, and the total acked when the current epoch began. */
  datatype World = World(s: Sampler, pending: map<int, int>, epochBase: int)

  function AckedNumbers(acked: seq<AckedPacket>): set<int> {
    set i | 0 <= i < |acked| :: acked[i].packetNumber
  }

  function LostNumbers(lost: seq<LostPacket>): set<int> {
    set i | 0 <= i < |lost| :: lost[i].packetNumber
  }

  ghost predicate Distinct(acked: seq<AckedPacket>, lost: seq<LostPacket>) {
    && (forall i, j | 0 <= i < j < |acked| :: acked[i].packetNumber != acked[j].packetNumber)
    && (forall i, j | 0 <= i < j < |lost| :: lost[i].packetNumber != lost[j].packetNumber)
    && AckedNumbers(acked) !! LostNumbers(lost)
  }

  ghost predicate Possible(w: World, c: Call) {
    match c
    case Sent(time, pn, bytes, inFlight, retransmittable) => pn > w.s.lastSentPacket && bytes >= 0
    case Event(time, acked, lost, _, _, _) =>
      && time > 0
      && Distinct(acked, lost)
      && (forall i | 0 <= i < |acked| && acked[i].packetNumber in w.s.tracked :: acked[i].packetNumber in w.pending)
      && (forall i | 0 <= i < |lost| ::
            lost[i].packetNumber in w.pending && w.pending[lost[i].packetNumber] == lost[i].bytesLost)
    case AppLimited => true
    case Obsolete(_) => true
  }

  ghost function Stepped(w: World, c: Call): World {
    var s' := Applied(w.s, c);
    var pending' :=
      if c.Sent? && c.retransmittable then w.pending[c.pn := c.bytes]
      else if c.Event? then w.pending - LostNumbers(c.lost) - AckedNumbers(c.acked)
      else w.pending;
    World(s', pending', if s'.height.epochs > w.s.height.epochs then w.s.totalBytesAcked else w.epochBase)
  }

  ghost function WorldAfter(calls: seq<Call>): World {
    if calls == [] then World(NEW_SAMPLER, map[], 0)
    else Stepped(WorldAfter(calls[..|calls| - 1]), calls[|calls| - 1])
  }

  /** The environment keeps its side over a whole run. */
  ghost predicate PossibleRun(calls: seq<Call>) {
    calls != [] ==>
      PossibleRun(calls[..|calls| - 1]) && Possible(WorldAfter(calls[..|calls| - 1]), calls[|calls| - 1])
  }

  /** The bytes of the packets numbered below n. */
  ghost function BytesBelow(pending: map<int, int>, n: int): int
    decreases n
  {
    if n <= 0 then 0
    else BytesBelow(pending, n - 1) + if n - 1 in pending then pending[n - 1] else 0
  }

  ghost predicate Sizes(pending: map<int, int>) {
    forall pn | pn in pending :: pn >= 0 && pending[pn] >= 0
  }

  /** A snapshot taken at a send is behind the totals. */
  ghost predicate Behind(e: SentPacket, s: Sampler) {
    && e.size >= 0
    && e.sendTimeState.totalBytesAcked <= s.totalBytesAcked
    && e.sendTimeState.totalBytesLost <= s.totalBytesLost
    && e.totalBytesSentAtLastAckedPacket <= e.sendTimeState.totalBytesSent <= s.totalBytesSent
  }

  ghost predicate Snapshots(s: Sampler) {
    && s.totalBytesSentAtLastAckedPacket <= s.totalBytesSent
    && forall pn | pn in s.tracked :: Behind(s.tracked[pn], s)
  }

  ghost predicate EpochCounts(w: World) {
    && w.s.totalBytesAckedAfterLastAckEvent == w.s.totalBytesAcked
    && (w.s.height.epochs == 0 <==> w.s.height.epochStartTime == 0)
    && (w.s.height.epochs > 0 ==> w.s.height.epochBytes == w.s.totalBytesAcked - w.epochBase)
  }

  ghost predicate Conserved(w: World) {
    && Sizes(w.pending)
    && (forall pn | pn in w.pending :: pn <= w.s.lastSentPacket)
    && (forall pn | pn in w.s.tracked :: pn in w.pending ==> w.s.tracked[pn].size == w.pending[pn])
    && w.s.totalBytesAcked >= 0 && w.s.totalBytesLost >= 0
    && w.s.lastSlot <= w.s.lastSentPacket && w.s.lastSentPacket >= INVALID_PACKET
    && w.s.totalBytesAcked + w.s.totalBytesLost + BytesBelow(w.pending, w.s.lastSentPacket + 1) <= w.s.totalBytesSent
  }

  ghost predicate Invariant(w: World) {
    Conserved(w) && Snapshots(w.s) && EpochCounts(w)
  }

  lemma {:induction false} BytesNonNegative(pending: map<int, int>, n: int)
    requires Sizes(pending)
    ensures BytesBelow(pending, n) >= 0
    decreases n
  {
    if n > 0 {
      BytesNonNegative(pending, n - 1);
    }
  }

  lemma {:induction false} BytesRemove(pending: map<int, int>, k: int, n: int)
    requires k in pending
    ensures BytesBelow(pending - {k}, n) == BytesBelow(pending, n) - if 0 <= k < n then pending[k] else 0
    decreases n
  {
    if n > 0 {
      BytesRemove(pending, k, n - 1);
    }
  }

  lemma {:induction false} BytesAbove(pending: map<int, int>, m: int, n: int, k: int, size: int)
    requires 0 <= m <= k && n <= k && forall pn | pn in pending :: pn < m
    ensures BytesBelow(pending[k := size], n) == BytesBelow(pending, Min(m, n))
    ensures BytesBelow(pending, n) == BytesBelow(pending, Min(m, n))
    decreases n
  {
    if n > 0 {
      BytesAbove(pending, m, n - 1, k, size);
    }
  }

  /** Losses move bytes from pending to lost, one for one. */
  lemma {:induction false} LossesConserve(s: Sampler, pending: map<int, int>, lost: seq<LostPacket>, n: int)
    requires Sizes(pending) && forall pn | pn in pending :: pn < n
    requires forall i, j | 0 <= i < j < |lost| :: lost[i].packetNumber != lost[j].packetNumber
    requires forall i | 0 <= i < |lost| ::
               lost[i].packetNumber in pending && pending[lost[i].packetNumber] == lost[i].bytesLost
    ensures LoseAll(s, lost).0 == s.(totalBytesLost := LoseAll(s, lost).0.totalBytesLost)
    ensures LoseAll(s, lost).0.totalBytesLost >= s.totalBytesLost
    ensures LoseAll(s, lost).0.totalBytesLost + BytesBelow(pending - LostNumbers(lost), n)
         == s.totalBytesLost + BytesBelow(pending, n)
  {
    if lost == [] {
      assert pending - LostNumbers(lost) == pending;
    } else {
      var init, last := lost[..|lost| - 1], lost[|lost| - 1];
      LossesConserve(s, pending, init, n);
      assert LostNumbers(lost) == LostNumbers(init) + {last.packetNumber} by {
        forall pn ensures pn in LostNumbers(lost) <==> pn in LostNumbers(init) || pn == last.packetNumber {
          if pn in LostNumbers(init) {
            var i :| 0 <= i < |init| && init[i].packetNumber == pn;
            assert lost[i].packetNumber == pn;
          }
        }
      }
      assert last.packetNumber !in LostNumbers(init);
      BytesRemove(pending - LostNumbers(init), last.packetNumber, n);
      assert pending - LostNumbers(lost) == (pending - LostNumbers(init)) - {last.packetNumber};
    }
  }

  /** Acks move bytes from pending to acked; the bytes of packets that are no longer tracked
      are dropped. */
  lemma {:induction false} AcksConserve(s: Sampler, time: int, pending: map<int, int>, acked: seq<AckedPacket>, n: int)
    requires Sizes(pending) && forall pn | pn in pending :: pn < n
    requires forall i, j | 0 <= i < j < |acked| :: acked[i].packetNumber != acked[j].packetNumber
    requires forall pn | pn in s.tracked :: s.tracked[pn].size >= 0 && (pn in pending ==> s.tracked[pn].size == pending[pn])
    requires forall i | 0 <= i < |acked| && acked[i].packetNumber in s.tracked :: acked[i].packetNumber in pending
    ensures var s' := AckAll(s, time, acked).0;
            && s'.tracked == s.tracked && s'.lastSlot == s.lastSlot && s'.height == s.height
            && s'.totalBytesSent == s.totalBytesSent && s'.totalBytesLost == s.totalBytesLost
            && s'.lastSentPacket == s.lastSentPacket
            && s'.totalBytesAckedAfterLastAckEvent == s.totalBytesAckedAfterLastAckEvent
            && s'.totalBytesAcked >= s.totalBytesAcked
            && (s'.totalBytesAcked != s.totalBytesAcked ==> s'.lastAckedPacketAckTime == time)
            && s'.totalBytesAcked + BytesBelow(pending - AckedNumbers(acked), n) <= s.totalBytesAcked + BytesBelow(pending, n)
  {
    if acked == [] {
      assert pending - AckedNumbers(acked) == pending;
    } else {
      var init, pn := acked[..|acked| - 1], acked[|acked| - 1].packetNumber;
      AcksConserve(s, time, pending, init, n);
      assert AckedNumbers(acked) == AckedNumbers(init) + {pn} by {
        forall k ensures k in AckedNumbers(acked) <==> k in AckedNumbers(init) || k == pn {
          if k in AckedNumbers(init) {
            var i :| 0 <= i < |init| && init[i].packetNumber == k;
            assert acked[i].packetNumber == k;
          }
        }
      }
      assert pn !in AckedNumbers(init);
      var rest := pending - AckedNumbers(init);
      assert pending - AckedNumbers(acked) == rest - {pn};
      if pn in rest {
        BytesRemove(rest, pn, n);
      } else {
        assert rest - {pn} == rest;
      }
    }
  }

  /** The snapshots stay behind over an event's acks. */
  lemma {:induction false} AcksKeepSnapshots(s: Sampler, time: int, acked: seq<AckedPacket>)
    requires Snapshots(s)
    ensures Snapshots(AckAll(s, time, acked).0)
  {
    if acked != [] {
      AcksKeepSnapshots(s, time, acked[..|acked| - 1]);
    }
  }

  lemma SentKeeps(w: World, c: Call)
    requires Invariant(w) && Possible(w, c) && c.Sent?
    ensures Conserved(Stepped(w, c)) && EpochCounts(Stepped(w, c))
  {
    var n := w.s.lastSentPacket + 1;
    BytesAbove(w.pending, n, c.pn, c.pn, c.bytes);
  }

  lemma SentKeepsSnapshots(w: World, c: Call)
    requires Invariant(w) && Possible(w, c) && c.Sent?
    ensures Snapshots(Stepped(w, c).s)
  {
  }

  /** The totals after an event, before the aggregation epoch is updated. */
  lemma EventTotals(w: World, c: Call) returns (s2: Sampler)
    requires Invariant(w) && Possible(w, c) && c.Event?
    ensures s2 == if c.acked == [] then LoseAll(w.s, c.lost).0 else AckAll(LoseAll(w.s, c.lost).0, c.time, c.acked).0
    ensures s2.tracked == w.s.tracked && s2.lastSlot == w.s.lastSlot && s2.lastSentPacket == w.s.lastSentPacket
    ensures s2.totalBytesAcked >= w.s.totalBytesAcked && s2.totalBytesLost >= w.s.totalBytesLost
    ensures s2.totalBytesAcked != w.s.totalBytesAcked ==> s2.lastAckedPacketAckTime == c.time
    ensures s2.totalBytesSent == w.s.totalBytesSent && s2.height == w.s.height
    ensures s2.totalBytesAckedAfterLastAckEvent == w.s.totalBytesAcked
    ensures c.acked == [] ==> s2.totalBytesAcked == w.s.totalBytesAcked
    ensures s2.totalBytesAcked + s2.totalBytesLost + BytesBelow(Stepped(w, c).pending, w.s.lastSentPacket + 1)
         <= w.s.totalBytesAcked + w.s.totalBytesLost + BytesBelow(w.pending, w.s.lastSentPacket + 1)
    ensures Snapshots(s2)
  {
    var n := w.s.lastSentPacket + 1;
    LossesConserve(w.s, w.pending, c.lost, n);
    var s1, rest := LoseAll(w.s, c.lost).0, w.pending - LostNumbers(c.lost);
    s2 := s1;
    if c.acked == [] {
      assert rest - AckedNumbers(c.acked) == rest;
    } else {
      forall i | 0 <= i < |c.acked| && c.acked[i].packetNumber in w.s.tracked ensures c.acked[i].packetNumber in rest {
        assert c.acked[i].packetNumber in AckedNumbers(c.acked);
      }
      s2 := AckAll(s1, c.time, c.acked).0;
      AcksConserve(s1, c.time, rest, c.acked, n);
      AcksKeepSnapshots(s1, c.time, c.acked);
    }
  }

  lemma EventKeeps(w: World, c: Call)
    requires Invariant(w) && Possible(w, c) && c.Event?
    ensures Invariant(Stepped(w, c))
  {
    var s2 := EventTotals(w, c);
    var s' := Applied(w.s, c);
    assert s' == s2.(totalBytesAckedAfterLastAckEvent := s2.totalBytesAcked, height := s'.height);
    EventKeepsEpoch(w, c, s2);
  }

  lemma EventKeepsEpoch(w: World, c: Call, s2: Sampler)
    requires Invariant(w) && Possible(w, c) && c.Event?
    requires s2 == if c.acked == [] then LoseAll(w.s, c.lost).0 else AckAll(LoseAll(w.s, c.lost).0, c.time, c.acked).0
    requires s2.totalBytesAcked != w.s.totalBytesAcked ==> s2.lastAckedPacketAckTime == c.time
    requires s2.height == w.s.height && s2.totalBytesAckedAfterLastAckEvent == w.s.totalBytesAcked
    requires c.acked == [] ==> s2.totalBytesAcked == w.s.totalBytesAcked
    ensures EpochCounts(Stepped(w, c))
  {
  }

  lemma StepKeeps(w: World, c: Call)
    requires Invariant(w) && Possible(w, c)
    ensures Invariant(Stepped(w, c))
  {
    match c
    case Sent(_, _, _, _, _) => SentKeeps(w, c); SentKeepsSnapshots(w, c);
    case Event(_, _, _, _, _, _) => EventKeeps(w, c);
    case AppLimited =>
    case Obsolete(_) =>
  }

  lemma {:induction false} RunKeeps(calls: seq<Call>)
    requires PossibleRun(calls)
    ensures Invariant(WorldAfter(calls)) && WorldAfter(calls).s == After(calls)
  {
    if calls != [] {
      RunKeeps(calls[..|calls| - 1]);
      StepKeeps(WorldAfter(calls[..|calls| - 1]), calls[|calls| - 1]);
    }
  }

  /** In every run: bytes acked and lost are at most the bytes sent, every snapshot is behind
      the totals, and the epoch holds the bytes acked since it began. */
  lemma BytesConserved(calls: seq<Call>)
    requires PossibleRun(calls)
    ensures var w := WorldAfter(calls);
            && w.s == After(calls)
            && 0 <= w.s.totalBytesAcked && 0 <= w.s.totalBytesLost
            && w.s.totalBytesAcked + w.s.totalBytesLost <= w.s.totalBytesSent
            && (forall pn | pn in w.s.tracked :: Behind(w.s.tracked[pn], w.s))
            && (w.s.height.epochs > 0 ==> w.s.height.epochBytes == w.s.totalBytesAcked - w.epochBase)
  {
    RunKeeps(calls);
    BytesNonNegative(WorldAfter(calls).pending, WorldAfter(calls).s.lastSentPacket + 1);
  }

  lemma RateNonNegative(bytes: nat, delta: int)
    requires delta > 0
    ensures BandwidthFromDelta(bytes, delta) >= 0
  {
    var x := bytes * NANOS;
    assert x / delta >= 0;
  }

  lemma SampleNonNegative(e: SentPacket, s: Sampler, time: int, acked: int)
    requires Behind(e, s) && acked >= s.totalBytesAcked >= 0
    ensures var b := SampleOf(e, time, acked);
            b.bandwidth >= 0 && b.sendRate >= 0 && acked - b.stateAtSend.totalBytesAcked >= 0
  {
    if e.sentTime > e.lastAckedPacketSentTime {
      RateNonNegative(e.sendTimeState.totalBytesSent - e.totalBytesSentAtLastAckedPacket, e.sentTime - e.lastAckedPacketSentTime);
    }
    if time > e.lastAckedPacketAckTime {
      RateNonNegative(acked - e.sendTimeState.totalBytesAcked, time - e.lastAckedPacketAckTime);
    }
  }

  /** So no rate the sampler computes has a negative numerator: in every run the ack of a
      tracked packet yields a bandwidth, a send rate and an inflight sample of at least zero. */
  lemma SamplesNonNegative(calls: seq<Call>, time: int, pn: int, acked: int)
    requires PossibleRun(calls) && pn in After(calls).tracked
    requires acked >= After(calls).totalBytesAcked
    ensures var b := SampleOf(After(calls).tracked[pn], time, acked);
            b.bandwidth >= 0 && b.sendRate >= 0 && acked - b.stateAtSend.totalBytesAcked >= 0
  {
    BytesConserved(calls);
    SampleNonNegative(After(calls).tracked[pn], After(calls), time, acked);
  }

  /** What the bandwidth of an event carries from a time up to it. */
  function Carried(c: Call, v: EventSample, since: int): int
    requires c.Event?
  {
    Quotient(Min(c.upperBound, Max(c.maxBandwidth, v.maxBandwidth)) * (c.time - since), 8_000_000_000)
  }

  /** The filter of the ack height took an excess, at a round. */
  ghost predicate Took(before: Height, after: Height, excess: int, round: int) {
    exists x: ExtraAckedEvent ::
      x.extraAcked == excess && after.filter == Updated(before.filter, Entry(x, round), NO_EXTRA, WINDOW, CompareExtra)
  }

  lemma HeightTakes(h: Height, bandwidth: int, round: int, lastSent: int, ackTime: int, bytes: int)
    ensures var (h', extra) := HeightUpdate(h, bandwidth, round, lastSent, ackTime, bytes);
            var expected := BytesFromBandwidth(bandwidth, ackTime - h.epochStartTime);
            if h.epochStartTime == 0 || h.epochBytes <= expected then
              extra == 0 && h'.filter == h.filter && h'.epochs == h.epochs + 1 && h'.epochStartTime == ackTime
            else
              extra == h.epochBytes + bytes - expected && Took(h, h', extra, round) && h'.epochs == h.epochs
  {
    var expected := BytesFromBandwidth(bandwidth, ackTime - h.epochStartTime);
    if !(h.epochStartTime == 0 || h.epochBytes <= expected) {
      var extra := h.epochBytes + bytes - expected;
      var x := ExtraAckedEvent(extra, h.epochBytes + bytes, ackTime - h.epochStartTime, 0);
      assert HeightUpdate(h, bandwidth, round, lastSent, ackTime, bytes).0.filter
          == Updated(h.filter, Entry(x, round), NO_EXTRA, WINDOW, CompareExtra) && x.extraAcked == extra;
    }
  }

  /** The end of an event, from the totals after its acks. */
  lemma EndTakes(w: World, c: Call, s2: Sampler, v: EventSample)
    requires EpochCounts(w) && c.Event?
    requires s2.totalBytesAcked > w.s.totalBytesAcked && s2.lastAckedPacketAckTime == c.time
    requires s2.height == w.s.height && s2.totalBytesAckedAfterLastAckEvent == w.s.totalBytesAcked
    ensures var (s3, extra) := OnAckEventEnd(s2, Min(c.upperBound, Max(c.maxBandwidth, v.maxBandwidth)), c.round);
            var acked, carried := w.s.totalBytesAcked - w.epochBase, Carried(c, v, w.s.height.epochStartTime);
            if w.s.height.epochs == 0 || acked <= carried then
              && extra == 0 && s3.height.filter == w.s.height.filter
              && s3.height.epochs == w.s.height.epochs + 1 && s3.height.epochStartTime == c.time
            else
              && extra == s2.totalBytesAcked - w.epochBase - carried > s2.totalBytesAcked - w.s.totalBytesAcked
              && Took(w.s.height, s3.height, extra, c.round) && s3.height.epochs == w.s.height.epochs
  {
    HeightTakes(w.s.height, Min(c.upperBound, Max(c.maxBandwidth, v.maxBandwidth)), c.round, s2.lastSentPacket, c.time,
                s2.totalBytesAcked - w.s.totalBytesAcked);
  }

  /** In every possible run, an event that acks bytes starts an epoch, without excess, exactly when there is
      none or when the bytes acked in the epoch before it are no more than the bandwidth carried since the
      epoch began. Otherwise the excess it reports is all that was acked in the epoch, with its own bytes,
      beyond what the bandwidth carried, and the filter of the ack height takes it. */
  lemma ExcessIsBeyondBandwidth(calls: seq<Call>, c: Call)
    requires PossibleRun(calls) && Possible(WorldAfter(calls), c) && c.Event? && c.acked != []
    requires Applied(After(calls), c).totalBytesAcked != After(calls).totalBytesAcked
    ensures var w := WorldAfter(calls); var w' := Stepped(w, c);
            var v := SamplerModel.OnCongestionEvent(w.s, c.time, c.acked, c.lost, c.maxBandwidth, c.upperBound, c.round).1;
            var carried := Carried(c, v, w.s.height.epochStartTime);
            if w.s.height.epochs == 0 || w.s.totalBytesAcked - w.epochBase <= carried then
              && v.extraAcked == 0 && w'.s.height.filter == w.s.height.filter
              && w'.s.height.epochs == w.s.height.epochs + 1 && w'.s.height.epochStartTime == c.time
              && w'.epochBase == w.s.totalBytesAcked
            else
              && v.extraAcked == w'.s.totalBytesAcked - w.epochBase - carried > w'.s.totalBytesAcked - w.s.totalBytesAcked
              && Took(w.s.height, w'.s.height, v.extraAcked, c.round)
              && w'.s.height.epochs == w.s.height.epochs && w'.epochBase == w.epochBase
  {
    RunKeeps(calls);
    var w := WorldAfter(calls);
    var s2 := EventTotals(w, c);
    var v := AckAll(LoseAll(w.s, c.lost).0, c.time, c.acked).1;
    EndTakes(w, c, s2, v);
  }
}
