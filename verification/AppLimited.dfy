/** The app-limited phase of the bandwidth sampler: from OnAppLimited on, every packet sent
    yields an app-limited sample, until a packet sent after that call is acked. */
module AppLimitedPhases {
  import opened PacketQueues
  import opened SamplerModel

  /** Tracked packets are numbered from zero up to the last sent packet, and a phase ends within
      what was sent. */
  ghost predicate Numbered(s: Sampler) {
    && INVALID_PACKET <= s.endOfAppLimitedPhase <= s.lastSentPacket
    && s.lastSlot <= s.lastSentPacket
    && forall pn | pn in s.tracked :: 0 <= pn <= s.lastSentPacket
  }

  /** Packet numbers increase over a run from a new sampler. */
  ghost predicate Increasing(calls: seq<Call>) {
    calls != [] ==>
      var init, c := calls[..|calls| - 1], calls[|calls| - 1];
      Increasing(init) && (c.Sent? ==> c.pn > After(init).lastSentPacket)
  }

  /** Acks change neither the packets nor the mark of the phase. */
  lemma {:induction false} AcksKeepNumbers(s: Sampler, time: int, acked: seq<AckedPacket>)
    ensures var s' := AckAll(s, time, acked).0;
            && s'.tracked == s.tracked && s'.lastSlot == s.lastSlot && s'.lastSentPacket == s.lastSentPacket
            && s'.endOfAppLimitedPhase == s.endOfAppLimitedPhase
  {
    if acked != [] {
      AcksKeepNumbers(s, time, acked[..|acked| - 1]);
    }
  }

  lemma {:induction false} RunIsNumbered(calls: seq<Call>)
    requires Increasing(calls)
    ensures Numbered(After(calls))
  {
    if calls != [] {
      var init, c := calls[..|calls| - 1], calls[|calls| - 1];
      RunIsNumbered(init);
      if c.Event? {
        LoseAllKeeps(After(init), c.lost);
        AcksKeepNumbers(LoseAll(After(init), c.lost).0, c.time, c.acked);
      }
    }
  }

  /** Packet numbers increase, and no event acks a tracked packet numbered above end. */
  ghost predicate WithinPhase(s: Sampler, calls: seq<Call>, end: int) {
    calls != [] ==>
      var v, c := ApplyAll(s, calls[..|calls| - 1]), calls[|calls| - 1];
      && WithinPhase(s, calls[..|calls| - 1], end)
      && (c.Sent? ==> c.pn > v.lastSentPacket)
      && (c.Event? ==> forall i | 0 <= i < |c.acked| && c.acked[i].packetNumber in v.tracked :: c.acked[i].packetNumber <= end)
  }

  /** The phase that began when the last sent packet was end. */
  ghost predicate InPhase(s: Sampler, end: int) {
    && Numbered(s)
    && s.isAppLimited
    && INVALID_PACKET <= end <= s.endOfAppLimitedPhase
    && end <= s.lastSentPacket
    && forall pn | pn in s.tracked && pn > end :: s.tracked[pn].sendTimeState.isAppLimited
  }

  lemma {:induction false} AcksKeepPhase(s: Sampler, time: int, acked: seq<AckedPacket>, end: int)
    requires InPhase(s, end)
    requires forall i | 0 <= i < |acked| && acked[i].packetNumber in s.tracked :: acked[i].packetNumber <= end
    ensures InPhase(AckAll(s, time, acked).0, end)
    ensures AckAll(s, time, acked).0.tracked == s.tracked
  {
    if acked != [] {
      AcksKeepPhase(s, time, acked[..|acked| - 1], end);
    }
  }

  lemma CallKeepsPhase(s: Sampler, c: Call, end: int)
    requires InPhase(s, end)
    requires c.Sent? ==> c.pn > s.lastSentPacket
    requires c.Event? ==> forall i | 0 <= i < |c.acked| && c.acked[i].packetNumber in s.tracked :: c.acked[i].packetNumber <= end
    ensures InPhase(Applied(s, c), end)
  {
    if c.Event? {
      LoseAllKeeps(s, c.lost);
      AcksKeepPhase(LoseAll(s, c.lost).0, c.time, c.acked, end);
    }
  }

  lemma {:induction false} RunKeepsPhase(s: Sampler, calls: seq<Call>)
    requires Numbered(s) && WithinPhase(OnAppLimited(s), calls, s.lastSentPacket)
    ensures InPhase(ApplyAll(OnAppLimited(s), calls), s.lastSentPacket)
  {
    if calls != [] {
      RunKeepsPhase(s, calls[..|calls| - 1]);
      CallKeepsPhase(ApplyAll(OnAppLimited(s), calls[..|calls| - 1]), calls[|calls| - 1], s.lastSentPacket);
    }
  }

  /** After OnAppLimited in any run, as long as no packet sent after it is acked: the sampler stays
      app-limited, and the ack of any packet sent after it yields an app-limited sample. */
  lemma AppLimitedUntilLaterAck(before: seq<Call>, calls: seq<Call>, time: int, pn: int)
    requires Increasing(before) && WithinPhase(OnAppLimited(After(before)), calls, After(before).lastSentPacket)
    ensures var s' := ApplyAll(OnAppLimited(After(before)), calls);
            && s'.isAppLimited
            && (pn in s'.tracked && pn > After(before).lastSentPacket ==>
                  var b := OnPacketAcknowledged(s', time, pn).1.stateAtSend;
                  b.isValid ==> b.isAppLimited)
  {
    RunIsNumbered(before);
    RunKeepsPhase(After(before), calls);
  }

  /** In any run, the ack of a tracked packet numbered above the end of the phase, and only that,
      ends it. */
  lemma PhaseEndsExactly(calls: seq<Call>, time: int, pn: int)
    requires Increasing(calls) && After(calls).isAppLimited
    ensures !OnPacketAcknowledged(After(calls), time, pn).0.isAppLimited
       <==> pn in After(calls).tracked && pn > After(calls).endOfAppLimitedPhase
  {
    RunIsNumbered(calls);
  }
}
