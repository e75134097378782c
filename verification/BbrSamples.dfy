/** What the sampler measures for the BBR sender, over whole runs of the sender. */
module BbrSamples {
  import opened Arith
  import opened PacketQueues
  import SM = SamplerModel
  import opened SamplerModel
  import opened AppLimitedPhases
  import opened SendSlopes
  import opened BbrModel
  import opened BbrRuns
  import opened BbrEstimates
  import opened BbrSteps
  import opened BbrWindows

  predicate NoSends(calls: seq<Call>) {
    forall c | c in calls :: !c.Sent?
  }

  lemma {:induction false} IncreasingOn(calls: seq<Call>, rest: seq<Call>)
    requires Increasing(calls) && NoSends(rest)
    ensures Increasing(calls + rest)
  {
    if rest == [] {
      assert calls + rest == calls;
    } else {
      var last := |rest| - 1;
      IncreasingOn(calls, rest[..last]);
      assert (calls + rest)[..|calls + rest| - 1] == calls + rest[..last];
    }
  }

  lemma OneMoreSend(calls: seq<Call>, c: Call)
    requires Increasing(calls) && (c.Sent? ==> c.pn > After(calls).lastSentPacket)
    ensures Increasing(calls + [c])
  {
    assert (calls + [c])[..|calls|] == calls;
  }

  lemma CallKeepsSent(s: Sampler, c: Call)
    ensures Applied(s, c).lastSentPacket == if c.Sent? then c.pn else s.lastSentPacket
  {
    if c.Event? {
      LoseAllKeeps(s, c.lost);
      AcksKeepNumbers(LoseAll(s, c.lost).0, c.time, c.acked);
    }
  }

  lemma {:induction false} CallsKeepSent(s: Sampler, calls: seq<Call>)
    requires NoSends(calls)
    ensures ApplyAll(s, calls).lastSentPacket == s.lastSentPacket
  {
    if calls != [] {
      CallsKeepSent(s, calls[..|calls| - 1]);
      CallKeepsSent(ApplyAll(s, calls[..|calls| - 1]), calls[|calls| - 1]);
    }
  }

  /** The calls number their packets upwards, and the sampler knows the last packet the sender sent. */
  ghost predicate Counts(b: Bbr, calls: seq<Call>) {
    b.sampler == After(calls) && Increasing(calls) && b.sampler.lastSentPacket == b.lastSentPacket
  }

  lemma EventCounts(b: Bbr, e: BbrModel.Event, calls: seq<Call>)
    requires e.Valid() && Counts(b, calls)
    ensures Counts(BbrModel.OnCongestionEvent(b, e), calls + Calls(b, Congestion(e)))
  {
    var more := Calls(b, Congestion(e));
    EventSampler(b, e);
    EventKeepsSent(b, e);
    NoSendsIn(b, e);
    IncreasingOn(calls, more);
    CallsKeepSent(b.sampler, more);
    ApplyConcat(NEW_SAMPLER, calls, more);
  }

  lemma NoSendsIn(b: Bbr, e: BbrModel.Event)
    requires e.Valid()
    ensures NoSends(Calls(b, Congestion(e)))
  {
  }

  lemma StepCounts(w: World, op: Op, calls: seq<Call>)
    requires Possible(w, op) && Counts(w.b, calls)
    ensures Counts(Stepped(w, op).b, calls + Calls(w.b, op))
  {
    match op
    case Send(time, inFlight, pn, bytes, retransmittable) =>
      var c := Sent(time, pn, bytes, inFlight, retransmittable);
      OneMoreSend(calls, c);
      CallKeepsSent(w.b.sampler, c);
      assert (calls + [c])[..|calls|] == calls;
    case Congestion(e) => EventCounts(w.b, e, calls);
    case Resize(_) => assert calls + [] == calls;
  }

  lemma RunStepCounts(ws: seq<World>, ops: seq<Op>, n: nat)
    requires Trace(ws, ops) && n < |ops| && Counts(ws[n].b, AllCalls(ws, ops, n))
    ensures Counts(ws[n + 1].b, AllCalls(ws, ops, n + 1))
  {
    StepCounts(ws[n], ops[n], AllCalls(ws, ops, n));
    AllCallsStep(ws, ops, n + 1);
  }

  /** In every run of the sender its sampler sees packet numbers that increase. */
  lemma {:induction false} CallsIncrease(ws: seq<World>, ops: seq<Op>, datagram: int, maxPackets: int, n: nat)
    requires Run(ws, ops, datagram, maxPackets) && n < |ws|
    ensures Counts(ws[n].b, AllCalls(ws, ops, n))
  {
    if n > 0 {
      CallsIncrease(ws, ops, datagram, maxPackets, n - 1);
      RunStepCounts(ws, ops, n - 1);
    }
  }

  /** The calls the sampler has seen when it takes the sample of event n. */
  ghost function CallsUpTo(ws: seq<World>, ops: seq<Op>, n: nat): seq<Call>
    requires Callable(ws, ops) && n < |ops| && ops[n].Congestion?
  {
    AllCalls(ws, ops, n) + CallsBefore(ws[n].b, ops[n].e)
  }

  lemma SampleOfRun(ws: seq<World>, ops: seq<Op>, datagram: int, maxPackets: int, n: nat)
    requires Run(ws, ops, datagram, maxPackets) && n < |ops| && ops[n].Congestion?
    ensures var b, e := ws[n].b, ops[n].e; var calls, c := CallsUpTo(ws, ops, n), SampleCall(b, e);
            && Increasing(calls)
            && PathUpdated(b, e).1
            == SM.OnCongestionEvent(After(calls), c.time, c.acked, c.lost, c.maxBandwidth, c.upperBound, c.round).1
  {
    var b, e := ws[n].b, ops[n].e;
    CallsIncrease(ws, ops, datagram, maxPackets, n);
    ReceivedSampler(b, e);
    ApplyConcat(NEW_SAMPLER, AllCalls(ws, ops, n), CallsBefore(b, e));
    IncreasingOn(AllCalls(ws, ops, n), CallsBefore(b, e));
  }

  /** In every run of the sender, an event with acks measures the summary of the slopes of its packets. */
  lemma EventMeasuresSlopes(ws: seq<World>, ops: seq<Op>, datagram: int, maxPackets: int, n: nat)
    requires Run(ws, ops, datagram, maxPackets) && n < |ops| && ops[n].Congestion? && ops[n].e.acked != []
    ensures var b, e := ws[n].b, ops[n].e; var calls := CallsUpTo(ws, ops, n);
            && Increasing(calls)
            && Summarizes(PathUpdated(b, e).1, PacketSamples(LoseAll(After(calls), e.lost).0, e.time, e.acked))
  {
    SampleOfRun(ws, ops, datagram, maxPackets, n);
    EventSampleIsSummary(CallsUpTo(ws, ops, n), SampleCall(ws[n].b, ops[n].e));
  }

  /** And it measures at least a rate that both curves carry between the points of one of its packets. */
  lemma EventReachesLink(ws: seq<World>, ops: seq<Op>, datagram: int, maxPackets: int, n: nat, i: nat, rate: nat)
    requires Run(ws, ops, datagram, maxPackets) && n < |ops| && ops[n].Congestion?
    requires Reaches(CallsUpTo(ws, ops, n), ops[n].e.time, ops[n].e.acked, i, rate)
    ensures PathUpdated(ws[n].b, ops[n].e).1.maxBandwidth >= Min(INF_BANDWIDTH, 8 * rate)
  {
    SampleOfRun(ws, ops, datagram, maxPackets, n);
    SamplesReachLink(CallsUpTo(ws, ops, n), SampleCall(ws[n].b, ops[n].e), i, rate);
  }

  // ----- the app-limited mark

  /** A mark set after the last packet sent stays as long as nothing is sent. */
  lemma {:induction false} CallsKeepMark(s: Sampler, calls: seq<Call>)
    requires Numbered(s) && s.isAppLimited && s.endOfAppLimitedPhase == s.lastSentPacket && NoSends(calls)
    ensures InPhase(ApplyAll(s, calls), s.lastSentPacket)
  {
    if calls != [] {
      var init, c := calls[..|calls| - 1], calls[|calls| - 1];
      CallsKeepMark(s, init);
      CallsKeepSent(s, init);
      CallKeepsPhase(ApplyAll(s, init), c, s.lastSentPacket);
    }
  }

  lemma EventMarks(b: Bbr, e: BbrModel.Event, calls: seq<Call>)
    requires e.Valid() && Counts(b, calls) && e.priorInFlight < TargetWindow(b, 1.0, e.rttMin)
    ensures BbrModel.OnCongestionEvent(b, e).sampler.isAppLimited
  {
    var more := [SampleCall(b, e)] + CallsAfter(b, e);
    RunIsNumbered(calls);
    EventSampler(b, e);
    NoSendsIn(b, e);
    assert Calls(b, Congestion(e)) == [AppLimited] + more;
    ApplyConcat(b.sampler, [AppLimited], more);
    ApplyOne(b.sampler, AppLimited);
    CallsKeepMark(SM.OnAppLimited(b.sampler), more);
  }

  /** In every run, an event that finds less in flight than the path holds leaves the sampler
      app-limited. */
  lemma ShortFlightIsAppLimited(ws: seq<World>, ops: seq<Op>, datagram: int, maxPackets: int, n: nat)
    requires datagram > 0 && maxPackets >= INITIAL_WINDOW_PACKETS && Run(ws, ops, datagram, maxPackets)
    requires n < |ops| && ops[n].Congestion? && ops[n].e.priorInFlight < Share(ws[n].b, 1, 1, ops[n].e.rttMin)
    ensures ws[n + 1].b.sampler.isAppLimited
  {
    RunSafe(ws, ops, datagram, maxPackets, n);
    SharesAreTargets(ws[n].b, ops[n].e.rttMin, maxPackets);
    CallsIncrease(ws, ops, datagram, maxPackets, n);
    EventMarks(ws[n].b, ops[n].e, AllCalls(ws, ops, n));
  }
}
