/** What the bandwidth sampler computes (internal/congestion/bbr/bandwidth_sampler.go), as
    functions on values, for the options of the standard profile. Bandwidths are bits per
    second, times nanoseconds with zero for "not set". */
module SamplerModel {
  import opened WindowedFilters
  import opened PacketQueues
  import opened Arith

  const INF_RTT := 0x7FFF_FFFF_FFFF_FFFF
  const INF_BANDWIDTH := 0xFFFF_FFFF_FFFF_FFFF
  const BYTES_PER_SECOND := 8

  /** The length of the bandwidth and ack height windows, in round trips. */
  const WINDOW := 10

  datatype AckedPacket = AckedPacket(packetNumber: int, bytesAcked: int)
  datatype LostPacket = LostPacket(packetNumber: int, bytesLost: int)

  datatype SendTimeState = SendTimeState(
    isValid: bool,
    isAppLimited: bool,
    totalBytesSent: int,
    totalBytesAcked: int,
    totalBytesLost: int,
    bytesInFlight: int)

  const NO_STATE := SendTimeState(false, false, 0, 0, 0, 0)

  /** The state of the connection when a packet was sent. */
  datatype SentPacket = SentPacket(
    sentTime: int,
    size: int,
    totalBytesSentAtLastAckedPacket: int,
    lastAckedPacketSentTime: int,
    lastAckedPacketAckTime: int,
    sendTimeState: SendTimeState)

  const NO_PACKET := SentPacket(0, 0, 0, 0, 0, NO_STATE)

  datatype BandwidthSample = BandwidthSample(bandwidth: int, rtt: int, sendRate: int, stateAtSend: SendTimeState)

  const NO_SAMPLE := BandwidthSample(0, 0, INF_BANDWIDTH, NO_STATE)

  datatype ExtraAckedEvent = ExtraAckedEvent(extraAcked: int, bytesAcked: int, timeDelta: int, round: int)

  const NO_EXTRA := ExtraAckedEvent(0, 0, 0, 0)

  function CompareExtra(a: ExtraAckedEvent, b: ExtraAckedEvent): int {
    if a.extraAcked > b.extraAcked then 1 else if a.extraAcked < b.extraAcked then -1 else 0
  }

  /** The ack aggregation epoch and the maximum of what it acked beyond the bandwidth. */
  datatype Height = Height(
    filter: Estimates<ExtraAckedEvent>,
    epochStartTime: int,
    epochBytes: int,
    lastSentBeforeEpoch: int,
    epochs: nat)

  datatype EventSample = EventSample(
    maxBandwidth: int,
    isAppLimited: bool,
    rtt: int,
    maxInflight: int,
    lastPacketSendState: SendTimeState,
    extraAcked: int)

  const NO_EVENT_SAMPLE := EventSample(0, false, INF_RTT, 0, NO_STATE, 0)

  /** tracked is the packet queue as a map, lastSlot the packet number of its last slot. */
  datatype Sampler = Sampler(
    totalBytesSent: int,
    totalBytesAcked: int,
    totalBytesLost: int,
    totalBytesSentAtLastAckedPacket: int,
    lastAckedPacketSentTime: int,
    lastAckedPacketAckTime: int,
    lastSentPacket: int,
    lastAckedPacket: int,
    isAppLimited: bool,
    endOfAppLimitedPhase: int,
    tracked: map<int, SentPacket>,
    lastSlot: int,
    height: Height,
    totalBytesAckedAfterLastAckEvent: int)

  const NEW_SAMPLER := Sampler(0, 0, 0, 0, 0, 0, INVALID_PACKET, INVALID_PACKET, false, INVALID_PACKET,
                               map[], INVALID_PACKET, Height(Cleared(NO_EXTRA), 0, 0, INVALID_PACKET, 0), 0)

  function BandwidthFromDelta(bytes: int, delta: int): int
    requires delta > 0
  {
    Quotient(bytes * NANOS, delta) * BYTES_PER_SECOND
  }

  function BytesFromBandwidth(bandwidth: int, delta: int): int {
    Quotient(bandwidth * delta, NANOS * 8)
  }

  function Snapshot(s: Sampler, sentTime: int, size: int, inFlight: int): SentPacket {
    SentPacket(sentTime, size, s.totalBytesSentAtLastAckedPacket, s.lastAckedPacketSentTime, s.lastAckedPacketAckTime,
               SendTimeState(true, s.isAppLimited, s.totalBytesSent, s.totalBytesAcked, s.totalBytesLost, inFlight))
  }

  /** The totals with a new packet; a send into an idle connection starts a slope. */
  function SlopeStarted(s: Sampler, time: int, bytes: int, inFlight: int): Sampler {
    var s1 := s.(totalBytesSent := s.totalBytesSent + bytes);
    if inFlight == 0 then
      s1.(lastAckedPacketAckTime := time, lastAckedPacketSentTime := time,
          totalBytesSentAtLastAckedPacket := s1.totalBytesSent)
    else s1
  }

  function Tracked(s: Sampler, pn: int, e: SentPacket): Sampler {
    if pn > s.lastSlot then s.(tracked := s.tracked[pn := e], lastSlot := pn) else s
  }

  function OnPacketSent(s: Sampler, time: int, pn: int, bytes: int, inFlight: int, retransmittable: bool): Sampler {
    var s1 := s.(lastSentPacket := pn);
    if !retransmittable then s1
    else
      var s2 := SlopeStarted(s1, time, bytes, inFlight);
      Tracked(s2, pn, Snapshot(s2, time, bytes, inFlight + bytes))
  }

  function OnPacketLost(s: Sampler, p: LostPacket): (Sampler, SendTimeState) {
    (s.(totalBytesLost := s.totalBytesLost + p.bytesLost),
     if p.packetNumber in s.tracked then s.tracked[p.packetNumber].sendTimeState.(isValid := true) else NO_STATE)
  }

  /** All losses of an event, and the send state of the last lost packet that is tracked. */
  function LoseAll(s: Sampler, lost: seq<LostPacket>): (Sampler, SendTimeState) {
    if lost == [] then (s, NO_STATE)
    else
      var (s1, state) := LoseAll(s, lost[..|lost| - 1]);
      var (s2, state') := OnPacketLost(s1, lost[|lost| - 1]);
      (s2, if state'.isValid then state' else state)
  }

  /** The counters after an ack of a tracked packet. */
  function CountAck(s: Sampler, time: int, pn: int, e: SentPacket): Sampler {
    s.(lastAckedPacket := pn,
       totalBytesAcked := s.totalBytesAcked + e.size,
       totalBytesSentAtLastAckedPacket := e.sendTimeState.totalBytesSent,
       lastAckedPacketSentTime := e.sentTime,
       lastAckedPacketAckTime := time)
  }

  /** The ack of a packet sent after the end of the app-limited phase ends the phase. */
  function PhaseExited(s: Sampler, pn: int): Sampler {
    s.(isAppLimited := s.isAppLimited && s.endOfAppLimitedPhase != INVALID_PACKET && pn <= s.endOfAppLimitedPhase)
  }

  function SendRate(e: SentPacket): int {
    if e.sentTime > e.lastAckedPacketSentTime then
      BandwidthFromDelta(e.sendTimeState.totalBytesSent - e.totalBytesSentAtLastAckedPacket,
                         e.sentTime - e.lastAckedPacketSentTime)
    else INF_BANDWIDTH
  }

  /** The sample an ack of e at time yields, when acked is the total with e. */
  function SampleOf(e: SentPacket, time: int, acked: int): BandwidthSample {
    if e.lastAckedPacketSentTime == 0 then NO_SAMPLE
    else if time - e.lastAckedPacketAckTime <= 0 then NO_SAMPLE
    else
      var ackRate := BandwidthFromDelta(acked - e.sendTimeState.totalBytesAcked, time - e.lastAckedPacketAckTime);
      BandwidthSample(Min(SendRate(e), ackRate), time - e.sentTime, SendRate(e), e.sendTimeState.(isValid := true))
  }

  function OnPacketAcknowledged(s: Sampler, time: int, pn: int): (Sampler, BandwidthSample) {
    if pn !in s.tracked then (s.(lastAckedPacket := pn), NO_SAMPLE)
    else
      var s' := PhaseExited(CountAck(s, time, pn, s.tracked[pn]), pn);
      (s', SampleOf(s.tracked[pn], time, s'.totalBytesAcked))
  }

  /** An event sample with one more packet sample, when acked is the total with that packet.
      lastPacketSendState is that of the last acked packet so far. */
  function Absorbed(v: EventSample, b: BandwidthSample, acked: int): EventSample {
    if !b.stateAtSend.isValid then v
    else
      var v1 := v.(lastPacketSendState := b.stateAtSend,
                   rtt := if b.rtt != 0 then Min(v.rtt, b.rtt) else v.rtt,
                   maxInflight := Max(v.maxInflight, acked - b.stateAtSend.totalBytesAcked));
      if b.bandwidth > v1.maxBandwidth then
        v1.(maxBandwidth := b.bandwidth, isAppLimited := b.stateAtSend.isAppLimited)
      else v1
  }

  function AckAll(s: Sampler, time: int, acked: seq<AckedPacket>): (Sampler, EventSample) {
    if acked == [] then (s, NO_EVENT_SAMPLE)
    else
      var (s1, v) := AckAll(s, time, acked[..|acked| - 1]);
      var (s2, b) := OnPacketAcknowledged(s1, time, acked[|acked| - 1].packetNumber);
      (s2, Absorbed(v, b, s2.totalBytesAcked))
  }

  /** A fresh ack aggregation epoch. */
  function NewEpoch(h: Height, lastSent: int, ackTime: int, bytes: int): Height {
    h.(epochBytes := bytes, epochStartTime := ackTime, lastSentBeforeEpoch := lastSent, epochs := h.epochs + 1)
  }

  function HeightUpdate(h: Height, bandwidth: int, round: int, lastSent: int, ackTime: int, bytes: int): (Height, int) {
    var expected := BytesFromBandwidth(bandwidth, ackTime - h.epochStartTime);
    if h.epochStartTime == 0 || h.epochBytes <= expected then (NewEpoch(h, lastSent, ackTime, bytes), 0)
    else
      var extra := h.epochBytes + bytes - expected;
      var e := Entry(ExtraAckedEvent(extra, h.epochBytes + bytes, ackTime - h.epochStartTime, 0), round);
      (h.(epochBytes := h.epochBytes + bytes, filter := Updated(h.filter, e, NO_EXTRA, WINDOW, CompareExtra)), extra)
  }

  function OnAckEventEnd(s: Sampler, bandwidth: int, round: int): (Sampler, int) {
    var bytes := s.totalBytesAcked - s.totalBytesAckedAfterLastAckEvent;
    if bytes == 0 then (s, 0)
    else
      var (h, extra) := HeightUpdate(s.height, bandwidth, round, s.lastSentPacket, s.lastAckedPacketAckTime, bytes);
      (s.(totalBytesAckedAfterLastAckEvent := s.totalBytesAcked, height := h), extra)
  }

  /** The send state of the largest packet of an event that has both losses and acks. */
  function LastState(lostState: SendTimeState, ackedState: SendTimeState, lost: seq<LostPacket>, acked: seq<AckedPacket>): SendTimeState
    requires acked != [] && (lost == [] ==> !lostState.isValid)
  {
    if !lostState.isValid then ackedState
    else if !ackedState.isValid then lostState
    else if lost[|lost| - 1].packetNumber > acked[|acked| - 1].packetNumber then lostState
    else ackedState
  }

  function OnCongestionEvent(s: Sampler, time: int, acked: seq<AckedPacket>, lost: seq<LostPacket>, maxBandwidth: int, upperBound: int, round: int): (Sampler, EventSample) {
    LostNeedsLosses(s, lost);
    var (s1, lostState) := LoseAll(s, lost);
    if acked == [] then (s1, NO_EVENT_SAMPLE.(lastPacketSendState := lostState))
    else
      var (s2, v) := AckAll(s1, time, acked);
      var (s3, extra) := OnAckEventEnd(s2, Min(upperBound, Max(maxBandwidth, v.maxBandwidth)), round);
      (s3, v.(lastPacketSendState := LastState(lostState, v.lastPacketSendState, lost, acked), extraAcked := extra))
  }

  lemma LostNeedsLosses(s: Sampler, lost: seq<LostPacket>)
    ensures lost == [] ==> !LoseAll(s, lost).1.isValid
  {
  }

  /** Losses move no more than the total of lost bytes. */
  lemma {:induction false} LoseAllKeeps(s: Sampler, lost: seq<LostPacket>)
    ensures LoseAll(s, lost).0 == s.(totalBytesLost := LoseAll(s, lost).0.totalBytesLost)
  {
    if lost != [] {
      LoseAllKeeps(s, lost[..|lost| - 1]);
    }
  }

  function OnAppLimited(s: Sampler): Sampler {
    s.(isAppLimited := true, endOfAppLimitedPhase := s.lastSentPacket)
  }

  function RemoveObsoletePackets(s: Sampler, leastUnacked: int): Sampler {
    var tracked := From(s.tracked, leastUnacked);
    s.(tracked := tracked, lastSlot := if tracked == map[] then INVALID_PACKET else s.lastSlot)
  }

  /** One call on the sampler. */
  datatype Call =
    | Sent(time: int, pn: int, bytes: int, inFlight: int, retransmittable: bool)
    | Event(time: int, acked: seq<AckedPacket>, lost: seq<LostPacket>, maxBandwidth: int, upperBound: int, round: int)
    | AppLimited
    | Obsolete(leastUnacked: int)

  function Applied(s: Sampler, c: Call): Sampler {
    match c
    case Sent(time, pn, bytes, inFlight, retransmittable) => OnPacketSent(s, time, pn, bytes, inFlight, retransmittable)
    case Event(time, acked, lost, maxBandwidth, upperBound, round) =>
      OnCongestionEvent(s, time, acked, lost, maxBandwidth, upperBound, round).0
    case AppLimited => OnAppLimited(s)
    case Obsolete(leastUnacked) => RemoveObsoletePackets(s, leastUnacked)
  }

  function ApplyAll(s: Sampler, calls: seq<Call>): Sampler {
    if calls == [] then s else Applied(ApplyAll(s, calls[..|calls| - 1]), calls[|calls| - 1])
  }

  /** The sampler after a run of calls. */
  function After(calls: seq<Call>): Sampler {
    ApplyAll(NEW_SAMPLER, calls)
  }

  lemma {:induction false} ApplyConcat(s: Sampler, first: seq<Call>, rest: seq<Call>)
    ensures ApplyAll(s, first + rest) == ApplyAll(ApplyAll(s, first), rest)
  {
    if rest == [] {
      assert first + rest == first;
    } else {
      ApplyConcat(s, first, rest[..|rest| - 1]);
      assert (first + rest)[..|first + rest| - 1] == first + rest[..|rest| - 1];
    }
  }
}
