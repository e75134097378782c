/** The bandwidth sampler (internal/congestion/bbr/bandwidth_sampler.go) over the packet queue,
    for the options of the standard profile. Every method is proved to compute what SamplerModel
    says of the value of the object. */
module Samplers {
  import opened Wrappers
  import opened Arith
  import opened WindowedFilters
  import opened PacketQueues
  import opened SamplerModel

  const STATE_MAP_QUEUE_SIZE := 256

  class MaxAckHeightTracker {
    const maxAckHeightFilter: WindowedFilter<ExtraAckedEvent>
    var aggregationEpochStartTime: int
    var aggregationEpochBytes: int
    var lastSentPacketNumberBeforeEpoch: int
    var numAckAggregationEpochs: nat

    ghost function Repr(): set<object>
      reads this, maxAckHeightFilter
    {
      {this, maxAckHeightFilter, maxAckHeightFilter.estimates}
    }

    ghost predicate Valid()
      reads this, maxAckHeightFilter
    {
      && maxAckHeightFilter.Valid()
      && maxAckHeightFilter.windowLength == WINDOW
      && maxAckHeightFilter.zero == NO_EXTRA
      && maxAckHeightFilter.comparator == CompareExtra
    }

    ghost function Value(): Height
      requires Valid()
      reads this, maxAckHeightFilter, maxAckHeightFilter.estimates
    {
      Height(maxAckHeightFilter.Value(), aggregationEpochStartTime, aggregationEpochBytes,
             lastSentPacketNumberBeforeEpoch, numAckAggregationEpochs)
    }

    constructor ()
      ensures Valid() && fresh(Repr()) && Value() == NEW_SAMPLER.height
    {
      maxAckHeightFilter := new WindowedFilter(NO_EXTRA, WINDOW, CompareExtra);
      aggregationEpochStartTime, aggregationEpochBytes := 0, 0;
      lastSentPacketNumberBeforeEpoch, numAckAggregationEpochs := INVALID_PACKET, 0;
    }

    function Get(): (height: int)
      requires Valid()
      reads this, maxAckHeightFilter, maxAckHeightFilter.estimates
      ensures height == Value().filter.best.sample.extraAcked
    {
      maxAckHeightFilter.GetBest().extraAcked
    }

    method Update(bandwidthEstimate: int, roundTripCount: int, lastSentPacketNumber: int, ackTime: int, bytesAcked: int)
      returns (extraBytesAcked: int)
      requires Valid()
      modifies this, maxAckHeightFilter.estimates
      ensures Valid() && Repr() == old(Repr())
      ensures (Value(), extraBytesAcked)
           == HeightUpdate(old(Value()), bandwidthEstimate, roundTripCount, lastSentPacketNumber, ackTime, bytesAcked)
    {
      if aggregationEpochStartTime == 0 {
        aggregationEpochBytes := bytesAcked;
        aggregationEpochStartTime := ackTime;
        lastSentPacketNumberBeforeEpoch := lastSentPacketNumber;
        numAckAggregationEpochs := numAckAggregationEpochs + 1;
        return 0;
      }
      var aggregationDelta := ackTime - aggregationEpochStartTime;
      var expectedBytesAcked := BytesFromBandwidth(bandwidthEstimate, aggregationDelta);
      if aggregationEpochBytes <= expectedBytesAcked {
        aggregationEpochBytes := bytesAcked;
        aggregationEpochStartTime := ackTime;
        lastSentPacketNumberBeforeEpoch := lastSentPacketNumber;
        numAckAggregationEpochs := numAckAggregationEpochs + 1;
        return 0;
      }
      aggregationEpochBytes := aggregationEpochBytes + bytesAcked;
      extraBytesAcked := aggregationEpochBytes - expectedBytesAcked;
      var newEvent := ExtraAckedEvent(extraBytesAcked, aggregationEpochBytes, aggregationDelta, 0);
      maxAckHeightFilter.Update(newEvent, roundTripCount);
    }
  }

  class BandwidthSampler {
    var totalBytesSent: int
    var totalBytesAcked: int
    var totalBytesLost: int
    var totalBytesSentAtLastAckedPacket: int
    var lastAckedPacketSentTime: int
    var lastAckedPacketAckTime: int
    var lastSentPacket: int
    var lastAckedPacket: int
    var isAppLimited: bool
    var endOfAppLimitedPhase: int
    const connectionStateMap: PacketNumberIndexedQueue<SentPacket>
    const maxAckHeightTracker: MaxAckHeightTracker
    var totalBytesAckedAfterLastAckEvent: int

    ghost function Repr(): set<object>
      reads this, connectionStateMap, connectionStateMap.entries, maxAckHeightTracker, maxAckHeightTracker.maxAckHeightFilter
    {
      {this, connectionStateMap, connectionStateMap.entries, connectionStateMap.entries.ring,
       maxAckHeightTracker, maxAckHeightTracker.maxAckHeightFilter, maxAckHeightTracker.maxAckHeightFilter.estimates}
    }

    ghost predicate Valid()
      reads Repr()
    {
      && connectionStateMap.entries.ring as object != maxAckHeightTracker.maxAckHeightFilter.estimates
      && connectionStateMap.Valid()
      && maxAckHeightTracker.Valid()
    }

    ghost function Value(): Sampler
      requires Valid()
      reads Repr()
    {
      Sampler(totalBytesSent, totalBytesAcked, totalBytesLost, totalBytesSentAtLastAckedPacket,
              lastAckedPacketSentTime, lastAckedPacketAckTime, lastSentPacket, lastAckedPacket,
              isAppLimited, endOfAppLimitedPhase, connectionStateMap.Entries(), connectionStateMap.LastPacket(),
              maxAckHeightTracker.Value(), totalBytesAckedAfterLastAckEvent)
    }

    constructor ()
      ensures Valid() && fresh(Repr()) && Value() == NEW_SAMPLER
    {
      totalBytesSent, totalBytesAcked, totalBytesLost := 0, 0, 0;
      totalBytesSentAtLastAckedPacket, lastAckedPacketSentTime, lastAckedPacketAckTime := 0, 0, 0;
      lastSentPacket, lastAckedPacket, endOfAppLimitedPhase := INVALID_PACKET, INVALID_PACKET, INVALID_PACKET;
      isAppLimited, totalBytesAckedAfterLastAckEvent := false, 0;
      connectionStateMap := new PacketNumberIndexedQueue(STATE_MAP_QUEUE_SIZE, NO_PACKET);
      maxAckHeightTracker := new MaxAckHeightTracker();
    }

    function MaxAckHeight(): (height: int)
      requires Valid()
      reads Repr()
      ensures height == Value().height.filter.best.sample.extraAcked
    {
      maxAckHeightTracker.Get()
    }

    method OnPacketSent(sentTime: int, packetNumber: int, bytes: int, bytesInFlight: int, isRetransmittable: bool)
      requires Valid() && packetNumber >= 0
      modifies Repr()
      ensures Valid() && fresh(Repr() - old(Repr()))
      ensures Value()
           == SamplerModel.OnPacketSent(old(Value()), sentTime, packetNumber, bytes, bytesInFlight, isRetransmittable)
    {
      lastSentPacket := packetNumber;
      if !isRetransmittable {
        return;
      }
      StartSlope(sentTime, bytes, bytesInFlight);
      var state := SentPacket(sentTime, bytes, totalBytesSentAtLastAckedPacket, lastAckedPacketSentTime, lastAckedPacketAckTime,
                              SendTimeState(true, isAppLimited, totalBytesSent, totalBytesAcked, totalBytesLost, bytesInFlight + bytes));
      var _ := connectionStateMap.Emplace(packetNumber, Some(state));
    }

    /** The bytes of a retransmittable packet; a send into an idle connection starts a slope. */
    method StartSlope(sentTime: int, bytes: int, bytesInFlight: int)
      requires Valid()
      modifies this
      ensures Valid() && Value() == SlopeStarted(old(Value()), sentTime, bytes, bytesInFlight)
    {
      totalBytesSent := totalBytesSent + bytes;
      if bytesInFlight == 0 {
        lastAckedPacketAckTime := sentTime;
        totalBytesSentAtLastAckedPacket := totalBytesSent;
        lastAckedPacketSentTime := sentTime;
      }
    }

    method OnCongestionEvent(ackTime: int, ackedPackets: seq<AckedPacket>, lostPackets: seq<LostPacket>,
                             maxBandwidth: int, estBandwidthUpperBound: int, roundTripCount: int)
      returns (eventSample: EventSample)
      requires Valid()
      modifies Repr()
      ensures Valid() && Repr() == old(Repr())
      ensures connectionStateMap.Entries() == old(connectionStateMap.Entries())
      ensures (Value(), eventSample)
           == SamplerModel.OnCongestionEvent(old(Value()), ackTime, ackedPackets, lostPackets,
                                             maxBandwidth, estBandwidthUpperBound, roundTripCount)
    {
      eventSample := NO_EVENT_SAMPLE;
      var lastLostPacketSendState := LosePackets(lostPackets);
      if |ackedPackets| == 0 {
        eventSample := eventSample.(lastPacketSendState := lastLostPacketSendState);
        return;
      }
      eventSample := AckPackets(ackTime, ackedPackets);
      var lastAckedPacketSendState := eventSample.lastPacketSendState;
      LostNeedsLosses(old(Value()), lostPackets);
      if !lastLostPacketSendState.isValid {
      } else if !lastAckedPacketSendState.isValid {
        eventSample := eventSample.(lastPacketSendState := lastLostPacketSendState);
      } else if lostPackets[|lostPackets| - 1].packetNumber > ackedPackets[|ackedPackets| - 1].packetNumber {
        eventSample := eventSample.(lastPacketSendState := lastLostPacketSendState);
      }
      var newMaxBandwidth := Max(maxBandwidth, eventSample.maxBandwidth);
      var extraAcked := OnAckEventEnd(Min(estBandwidthUpperBound, newMaxBandwidth), roundTripCount);
      eventSample := eventSample.(extraAcked := extraAcked);
    }

    /** The loop over the lost packets. */
    method LosePackets(lostPackets: seq<LostPacket>) returns (lastLostPacketSendState: SendTimeState)
      requires Valid()
      modifies this
      ensures Valid() && (Value(), lastLostPacketSendState) == LoseAll(old(Value()), lostPackets)
    {
      lastLostPacketSendState := NO_STATE;
      for i := 0 to |lostPackets|
        invariant Valid() && (Value(), lastLostPacketSendState) == LoseAll(old(Value()), lostPackets[..i])
      {
        assert lostPackets[..i + 1][..i] == lostPackets[..i];
        var sendState := OnPacketLost(lostPackets[i].packetNumber, lostPackets[i].bytesLost);
        if sendState.isValid {
          lastLostPacketSendState := sendState;
        }
      }
      assert lostPackets[..|lostPackets|] == lostPackets;
    }

    /** The loop over the acked packets. */
    method AckPackets(ackTime: int, ackedPackets: seq<AckedPacket>) returns (eventSample: EventSample)
      requires Valid()
      modifies this
      ensures Valid() && (Value(), eventSample) == AckAll(old(Value()), ackTime, ackedPackets)
    {
      eventSample := NO_EVENT_SAMPLE;
      for i := 0 to |ackedPackets|
        invariant Valid() && (Value(), eventSample) == AckAll(old(Value()), ackTime, ackedPackets[..i])
      {
        assert ackedPackets[..i + 1][..i] == ackedPackets[..i];
        var sample := OnPacketAcknowledged(ackTime, ackedPackets[i].packetNumber);
        eventSample := AbsorbSample(eventSample, sample);
      }
      assert ackedPackets[..|ackedPackets|] == ackedPackets;
    }

    /** What the loop over the acked packets does with one sample. */
    method AbsorbSample(before: EventSample, sample: BandwidthSample) returns (eventSample: EventSample)
      ensures eventSample == Absorbed(before, sample, totalBytesAcked)
    {
      eventSample := before;
      if !sample.stateAtSend.isValid {
        return;
      }
      eventSample := eventSample.(lastPacketSendState := sample.stateAtSend);
      if sample.rtt != 0 {
        eventSample := eventSample.(rtt := Min(eventSample.rtt, sample.rtt));
      }
      if sample.bandwidth > eventSample.maxBandwidth {
        eventSample := eventSample.(maxBandwidth := sample.bandwidth, isAppLimited := sample.stateAtSend.isAppLimited);
      }
      var inflightSample := totalBytesAcked - sample.stateAtSend.totalBytesAcked;
      if inflightSample > eventSample.maxInflight {
        eventSample := eventSample.(maxInflight := inflightSample);
      }
    }

    method OnPacketLost(packetNumber: int, bytesLost: int) returns (state: SendTimeState)
      requires Valid()
      modifies this
      ensures Valid() && (Value(), state) == SamplerModel.OnPacketLost(old(Value()), LostPacket(packetNumber, bytesLost))
    {
      state := NO_STATE;
      totalBytesLost := totalBytesLost + bytesLost;
      var sentPacket := connectionStateMap.GetEntry(packetNumber);
      if sentPacket.Some? {
        state := sentPacket.value.sendTimeState.(isValid := true);
      }
    }

    method OnAppLimited()
      requires Valid()
      modifies this
      ensures Valid() && Value() == SamplerModel.OnAppLimited(old(Value()))
    {
      isAppLimited := true;
      endOfAppLimitedPhase := lastSentPacket;
    }

    method RemoveObsoletePackets(leastUnacked: int)
      requires Valid()
      modifies Repr()
      ensures Valid() && fresh(Repr() - old(Repr()))
      ensures Value() == SamplerModel.RemoveObsoletePackets(old(Value()), leastUnacked)
    {
      connectionStateMap.RemoveUpTo(leastUnacked);
      connectionStateMap.EmptyIffNoSlots();
    }

    method OnPacketAcknowledged(ackTime: int, packetNumber: int) returns (sample: BandwidthSample)
      requires Valid()
      modifies this
      ensures Valid() && (Value(), sample) == SamplerModel.OnPacketAcknowledged(old(Value()), ackTime, packetNumber)
    {
      sample := NO_SAMPLE;
      ghost var before := Value();
      lastAckedPacket := packetNumber;
      assert Value() == before.(lastAckedPacket := packetNumber);
      var found := connectionStateMap.GetEntry(packetNumber);
      if found.None? {
        return;
      }
      CountAck(ackTime, packetNumber, found.value);
      assert Value() == SamplerModel.CountAck(before, ackTime, packetNumber, found.value);
      ExitAppLimitedPhase(packetNumber);
      sample := TakeSample(found.value, ackTime);
    }

    /** The counters of an ack. */
    method CountAck(ackTime: int, packetNumber: int, sentPacket: SentPacket)
      requires Valid()
      modifies this`lastAckedPacket, this`totalBytesAcked, this`totalBytesSentAtLastAckedPacket
      modifies this`lastAckedPacketSentTime, this`lastAckedPacketAckTime
      ensures Valid()
      ensures Value() == SamplerModel.CountAck(old(Value()), ackTime, packetNumber, sentPacket)
    {
      lastAckedPacket := packetNumber;
      totalBytesAcked := totalBytesAcked + sentPacket.size;
      totalBytesSentAtLastAckedPacket := sentPacket.sendTimeState.totalBytesSent;
      lastAckedPacketSentTime := sentPacket.sentTime;
      lastAckedPacketAckTime := ackTime;
    }

    /** The end of an app-limited phase. */
    method ExitAppLimitedPhase(packetNumber: int)
      requires Valid()
      modifies this`isAppLimited
      ensures Valid() && Value() == PhaseExited(old(Value()), packetNumber)
    {
      if isAppLimited {
        if endOfAppLimitedPhase == INVALID_PACKET || packetNumber > endOfAppLimitedPhase {
          isAppLimited := false;
        }
      }
    }

    /** The slopes between the acked packet and the last packet acked before it was sent. */
    method TakeSample(sentPacket: SentPacket, ackTime: int) returns (sample: BandwidthSample)
      ensures sample == SampleOf(sentPacket, ackTime, totalBytesAcked)
    {
      sample := NO_SAMPLE;
      if sentPacket.lastAckedPacketSentTime == 0 {
        return;
      }
      var sendRate := INF_BANDWIDTH;
      if sentPacket.sentTime > sentPacket.lastAckedPacketSentTime {
        sendRate := BandwidthFromDelta(
          sentPacket.sendTimeState.totalBytesSent - sentPacket.totalBytesSentAtLastAckedPacket,
          sentPacket.sentTime - sentPacket.lastAckedPacketSentTime);
      }
      var a0Time, a0Acked := sentPacket.lastAckedPacketAckTime, sentPacket.sendTimeState.totalBytesAcked;
      if ackTime - a0Time <= 0 {
        return;
      }
      var ackRate := BandwidthFromDelta(totalBytesAcked - a0Acked, ackTime - a0Time);
      sample := BandwidthSample(Min(sendRate, ackRate), ackTime - sentPacket.sentTime, sendRate,
                                sentPacket.sendTimeState.(isValid := true));
    }

    method OnAckEventEnd(bandwidthEstimate: int, roundTripCount: int) returns (extraAcked: int)
      requires Valid()
      modifies this, maxAckHeightTracker, maxAckHeightTracker.maxAckHeightFilter.estimates
      ensures Valid() && Repr() == old(Repr())
      ensures (Value(), extraAcked) == SamplerModel.OnAckEventEnd(old(Value()), bandwidthEstimate, roundTripCount)
    {
      var newlyAckedBytes := totalBytesAcked - totalBytesAckedAfterLastAckEvent;
      if newlyAckedBytes == 0 {
        return 0;
      }
      totalBytesAckedAfterLastAckEvent := totalBytesAcked;
      extraAcked := maxAckHeightTracker.Update(bandwidthEstimate, roundTripCount, lastSentPacket,
                                               lastAckedPacketAckTime, newlyAckedBytes);
    }
  }
}
