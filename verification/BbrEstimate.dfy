/** The bandwidth estimate of the BBR sender over whole runs. The sampler inside the sender sees
    a run of calls, so what holds in every run of the sampler holds here. */
module BbrEstimates {
  import opened Arith
  import opened WindowedFilters
  import SM = SamplerModel
  import opened SamplerModel
  import opened LinkRates
  import C = Conservation
  import opened BbrModel
  import opened BbrRuns

  function When(condition: bool, c: Call): seq<Call> {
    if condition then [c] else []
  }

  function SampleCall(b: Bbr, e: BbrModel.Event): Call {
    Call.Event(e.time, e.acked, e.lost, BandwidthEstimate(b), INF_BANDWIDTH, Rounds(Received(b, e), e).round.count)
  }

  /** The mode an event is in when it comes to PROBE_RTT. */
  function TouchesProbeRtt(b: Bbr, e: BbrModel.Event): bool
    requires e.Valid()
  {
    var (b1, v) := PathUpdated(b, e);
    var p := CycleAndStartup(b1, e, RoundStart(b, e), v.lastPacketSendState);
    p.mode == ProbeRtt || EntersProbeRtt(p, SeesExpiry(b, e, v))
  }

  function CallsBefore(b: Bbr, e: BbrModel.Event): seq<Call> {
    When(e.priorInFlight < TargetWindow(b, 1.0, e.rttMin), AppLimited)
  }

  function CallsAfter(b: Bbr, e: BbrModel.Event): seq<Call>
    requires e.Valid()
  {
    When(TouchesProbeRtt(b, e), AppLimited) + [Obsolete(LeastUnacked(e))]
  }

  /** The calls an operation makes on the sampler. */
  function Calls(b: Bbr, op: Op): seq<Call>
    requires op.Congestion? ==> op.e.Valid()
  {
    match op
    case Send(time, inFlight, pn, bytes, retransmittable) => [Sent(time, pn, bytes, inFlight, retransmittable)]
    case Congestion(e) => CallsBefore(b, e) + [SampleCall(b, e)] + CallsAfter(b, e)
    case Resize(_) => []
  }

  lemma ApplyWhen(s: Sampler, condition: bool, c: Call)
    ensures ApplyAll(s, When(condition, c)) == if condition then Applied(s, c) else s
  {
    assert [c][..0] == [];
  }

  lemma ApplyOne(s: Sampler, c: Call)
    ensures ApplyAll(s, [c]) == Applied(s, c)
  {
    assert [c][..0] == [];
  }

  lemma ReceivedSampler(b: Bbr, e: BbrModel.Event)
    ensures Rounds(Received(b, e), e).sampler == ApplyAll(b.sampler, CallsBefore(b, e))
    ensures BandwidthEstimate(Rounds(Received(b, e), e)) == BandwidthEstimate(b)
  {
    ApplyWhen(b.sampler, e.priorInFlight < TargetWindow(b, 1.0, e.rttMin), AppLimited);
  }

  lemma PathSampler(b: Bbr, e: BbrModel.Event)
    ensures PathUpdated(b, e).0.sampler == ApplyAll(b.sampler, CallsBefore(b, e) + [SampleCall(b, e)])
  {
    ReceivedSampler(b, e);
    ApplyConcat(b.sampler, CallsBefore(b, e), [SampleCall(b, e)]);
    ApplyOne(ApplyAll(b.sampler, CallsBefore(b, e)), SampleCall(b, e));
  }

  lemma ModesSampler(b: Bbr, e: BbrModel.Event, roundStart: bool, expired: bool, state: SendTimeState)
    requires e.Valid()
    ensures var p := CycleAndStartup(b, e, roundStart, state);
            Modes(b, e, roundStart, expired, state).sampler
            == if p.mode == ProbeRtt || EntersProbeRtt(p, expired) then SM.OnAppLimited(b.sampler) else b.sampler
  {
  }

  /** The sampler after an event's model update, before it drops obsolete packets. */
  lemma ModelSampler(b: Bbr, e: BbrModel.Event)
    requires e.Valid()
    ensures ModelUpdated(b, e).sampler
         == ApplyAll(b.sampler, CallsBefore(b, e) + [SampleCall(b, e)] + When(TouchesProbeRtt(b, e), AppLimited))
  {
    var before, touches := CallsBefore(b, e) + [SampleCall(b, e)], TouchesProbeRtt(b, e);
    var (b1, v) := PathUpdated(b, e);
    PathSampler(b, e);
    ModesSampler(b1, e, RoundStart(b, e), SeesExpiry(b, e, v), v.lastPacketSendState);
    ApplyWhen(b1.sampler, touches, AppLimited);
    ApplyConcat(b.sampler, before, When(touches, AppLimited));
  }

  lemma EventSampler(b: Bbr, e: BbrModel.Event)
    requires e.Valid()
    ensures BbrModel.OnCongestionEvent(b, e).sampler == ApplyAll(b.sampler, Calls(b, Congestion(e)))
  {
    var first, last := CallsBefore(b, e) + [SampleCall(b, e)] + When(TouchesProbeRtt(b, e), AppLimited), Obsolete(LeastUnacked(e));
    ModelSampler(b, e);
    ApplyOne(ApplyAll(b.sampler, first), last);
    ApplyConcat(b.sampler, first, [last]);
    assert Calls(b, Congestion(e)) == first + [last];
  }

  /** The sampler after an operation is the sampler before it after the operation's calls. */
  lemma StepSampler(w: World, op: Op)
    requires Possible(w, op)
    ensures Stepped(w, op).b.sampler == ApplyAll(w.b.sampler, Calls(w.b, op))
  {
    match op
    case Send(time, inFlight, pn, bytes, retransmittable) =>
      ApplyOne(w.b.sampler, Sent(time, pn, bytes, inFlight, retransmittable));
    case Resize(_) =>
    case Congestion(e) => EventSampler(w.b, e);
  }

  ghost predicate Callable(ws: seq<World>, ops: seq<Op>) {
    |ws| == |ops| + 1 && forall n | 0 <= n < |ops| :: ops[n].Congestion? ==> ops[n].e.Valid()
  }

  /** The calls of each operation. */
  ghost function CallLists(ws: seq<World>, ops: seq<Op>): (lists: seq<seq<Call>>)
    requires Callable(ws, ops)
    ensures |lists| == |ops| && forall i | 0 <= i < |ops| :: lists[i] == Calls(ws[i].b, ops[i])
  {
    seq(|ops|, i requires 0 <= i < |ops| => Calls(ws[i].b, ops[i]))
  }

  function Flat(lists: seq<seq<Call>>): seq<Call> {
    if lists == [] then [] else Flat(lists[..|lists| - 1]) + lists[|lists| - 1]
  }

  /** The calls of the first n operations of a run. */
  ghost function AllCalls(ws: seq<World>, ops: seq<Op>, n: nat): seq<Call>
    requires Callable(ws, ops) && n < |ws|
  {
    Flat(CallLists(ws, ops)[..n])
  }

  lemma AllCallsStep(ws: seq<World>, ops: seq<Op>, n: nat)
    requires Callable(ws, ops) && 0 < n < |ws|
    ensures AllCalls(ws, ops, n) == AllCalls(ws, ops, n - 1) + Calls(ws[n - 1].b, ops[n - 1])
  {
    assert CallLists(ws, ops)[..n][..n - 1] == CallLists(ws, ops)[..n - 1];
  }

  lemma {:induction false} FlatPrefix(lists: seq<seq<Call>>, k: nat, n: nat)
    requires k <= n <= |lists|
    ensures Flat(lists[..k]) <= Flat(lists[..n])
    decreases n
  {
    if k < n {
      FlatPrefix(lists, k, n - 1);
      assert lists[..n][..n - 1] == lists[..n - 1];
    }
  }

  lemma {:induction false} SamplerOfRun(ws: seq<World>, ops: seq<Op>, datagram: int, maxPackets: int, n: nat)
    requires Run(ws, ops, datagram, maxPackets) && n < |ws|
    ensures ws[n].b.sampler == After(AllCalls(ws, ops, n))
  {
    if n > 0 {
      SamplerOfRun(ws, ops, datagram, maxPackets, n - 1);
      StepSampler(ws[n - 1], ops[n - 1]);
      AllCallsStep(ws, ops, n);
      assert ws[n - 1 + 1] == Stepped(ws[n - 1], ops[n - 1]);
      ApplyConcat(NEW_SAMPLER, AllCalls(ws, ops, n - 1), Calls(ws[n - 1].b, ops[n - 1]));
    }
  }

  lemma {:induction false} CarriesBefore(calls: seq<Call>, rest: seq<Call>, rate: nat)
    requires Carries(Points(calls + rest), rate)
    ensures Carries(Points(calls), rate)
  {
    if rest == [] {
      assert calls + rest == calls;
    } else {
      var all := calls + rest;
      assert all[..|all| - 1] == calls + rest[..|rest| - 1];
      CarriesPrefix(Points(all[..|all| - 1]), After(all[..|all| - 1]), all[|all| - 1], rate);
      CarriesBefore(calls, rest[..|rest| - 1], rate);
    }
  }

  /** All three estimates of the bandwidth filter are within the bound. */
  ghost predicate Within(f: Estimates<int>, bound: int) {
    f.best.sample <= bound && f.second.sample <= bound && f.third.sample <= bound
  }

  lemma FilterWithin(f: Estimates<int>, e: Entry<int>, bound: int)
    requires Within(f, bound) && e.sample <= bound
    ensures Within(Updated(f, e, 0, WINDOW, MaxFilter), bound)
  {
  }

  ghost predicate AllNonNegative(calls: seq<Call>) {
    forall c | c in calls :: SizesNonNegative(c)
  }

  lemma StepNonNegative(w: World, op: Op)
    requires Possible(w, op)
    ensures AllNonNegative(Calls(w.b, op))
  {
    if op.Congestion? {
      var e := op.e;
      assert AllNonNegative(CallsBefore(w.b, e)) && AllNonNegative(CallsAfter(w.b, e));
      ConcatNonNegative(CallsBefore(w.b, e), [SampleCall(w.b, e)]);
      ConcatNonNegative(CallsBefore(w.b, e) + [SampleCall(w.b, e)], CallsAfter(w.b, e));
    }
  }

  lemma ConcatNonNegative(first: seq<Call>, rest: seq<Call>)
    requires AllNonNegative(first) && AllNonNegative(rest)
    ensures AllNonNegative(first + rest)
  {
  }

  lemma {:induction false} CallsNonNegative(ws: seq<World>, ops: seq<Op>, n: nat)
    requires Trace(ws, ops) && n < |ws|
    ensures AllNonNegative(AllCalls(ws, ops, n))
  {
    if n > 0 {
      CallsNonNegative(ws, ops, n - 1);
      StepNonNegative(ws[n - 1], ops[n - 1]);
      AllCallsStep(ws, ops, n);
      ConcatNonNegative(AllCalls(ws, ops, n - 1), Calls(ws[n - 1].b, ops[n - 1]));
    }
  }

  lemma EventKeepsWithin(b: Bbr, e: BbrModel.Event, bound: int)
    requires e.Valid() && Within(b.path.maxBandwidth, bound)
    requires Sample(Rounds(Received(b, e), e), e).1.maxBandwidth <= bound
    ensures Within(BbrModel.OnCongestionEvent(b, e).path.maxBandwidth, bound)
  {
    var b1 := Rounds(Received(b, e), e);
    assert b1.path == b.path;
    FilterWithin(b.path.maxBandwidth, Entry(Sample(b1, e).1.maxBandwidth, b1.round.count), bound);
    assert Within(PathUpdated(b, e).0.path.maxBandwidth, bound);
  }

  /** The sample of an event, when the sampler has seen the calls before it. */
  lemma EventSampleWithin(b: Bbr, e: BbrModel.Event, calls: seq<Call>, rate: nat)
    requires e.Valid() && b.sampler == After(calls) && AllNonNegative(calls)
    requires Carries(Points(calls + Calls(b, Congestion(e))), rate)
    ensures Sample(Rounds(Received(b, e), e), e).1.maxBandwidth <= BYTES_PER_SECOND * rate
  {
    var before, c := calls + CallsBefore(b, e), SampleCall(b, e);
    assert calls + Calls(b, Congestion(e)) == (before + [c]) + CallsAfter(b, e);
    CarriesBefore(before + [c], CallsAfter(b, e), rate);
    SamplesWithinLink(before, c, rate);
    ApplyConcat(NEW_SAMPLER, calls, CallsBefore(b, e));
    ReceivedSampler(b, e);
  }

  lemma CarriesPrefixOf(calls: seq<Call>, all: seq<Call>, rate: nat)
    requires calls <= all && Carries(Points(all), rate)
    ensures Carries(Points(calls), rate)
  {
    assert all == calls + all[|calls|..];
    CarriesBefore(calls, all[|calls|..], rate);
  }

  /** A link that carries a run carries every part of it from the start. */
  lemma CarriesEarlier(ws: seq<World>, ops: seq<Op>, k: nat, n: nat, rate: nat)
    requires Trace(ws, ops) && k <= n < |ws| && Carries(Points(AllCalls(ws, ops, n)), rate)
    ensures Carries(Points(AllCalls(ws, ops, k)), rate)
  {
    FlatPrefix(CallLists(ws, ops), k, n);
    CarriesPrefixOf(AllCalls(ws, ops, k), AllCalls(ws, ops, n), rate);
  }

  lemma StepWithin(w: World, op: Op, calls: seq<Call>, rate: nat)
    requires Possible(w, op) && Within(w.b.path.maxBandwidth, BYTES_PER_SECOND * rate)
    requires w.b.sampler == After(calls) && AllNonNegative(calls) && Carries(Points(calls + Calls(w.b, op)), rate)
    ensures Within(Stepped(w, op).b.path.maxBandwidth, BYTES_PER_SECOND * rate)
  {
    if op.Congestion? {
      EventSampleWithin(w.b, op.e, calls, rate);
      EventKeepsWithin(w.b, op.e, BYTES_PER_SECOND * rate);
    }
  }

  ghost predicate KeepsWithin(w: World, w': World, bound: int) {
    Within(w.b.path.maxBandwidth, bound) ==> Within(w'.b.path.maxBandwidth, bound)
  }

  lemma RunStepWithin(ws: seq<World>, ops: seq<Op>, datagram: int, maxPackets: int, i: nat, rate: nat)
    requires Run(ws, ops, datagram, maxPackets) && i < |ops| && Carries(Points(AllCalls(ws, ops, i + 1)), rate)
    ensures KeepsWithin(ws[i], ws[i + 1], BYTES_PER_SECOND * rate)
  {
    SamplerOfRun(ws, ops, datagram, maxPackets, i);
    CallsNonNegative(ws, ops, i);
    AllCallsStep(ws, ops, i + 1);
    if Within(ws[i].b.path.maxBandwidth, BYTES_PER_SECOND * rate) {
      StepWithin(ws[i], ops[i], AllCalls(ws, ops, i), rate);
    }
  }

  lemma {:induction false} WithinChain(ws: seq<World>, n: nat, bound: int)
    requires n < |ws| && Within(ws[0].b.path.maxBandwidth, bound)
    requires forall i | 0 <= i < n :: KeepsWithin(ws[i], ws[i + 1], bound)
    ensures Within(ws[n].b.path.maxBandwidth, bound)
  {
    if n > 0 {
      WithinChain(ws, n - 1, bound);
      assert KeepsWithin(ws[n - 1], ws[n - 1 + 1], bound);
    }
  }

  /** In every run over a link of the given rate in bytes per second, the bandwidth estimate, in
      bits per second, never exceeds that rate. */
  lemma EstimateWithinLink(ws: seq<World>, ops: seq<Op>, datagram: int, maxPackets: int, n: nat, rate: nat)
    requires Run(ws, ops, datagram, maxPackets) && n < |ws|
    requires Carries(Points(AllCalls(ws, ops, n)), rate)
    ensures Within(ws[n].b.path.maxBandwidth, BYTES_PER_SECOND * rate)
    ensures BandwidthEstimate(ws[n].b) <= BYTES_PER_SECOND * rate
  {
    forall i | 0 <= i < n ensures KeepsWithin(ws[i], ws[i + 1], BYTES_PER_SECOND * rate) {
      CarriesEarlier(ws, ops, i + 1, n, rate);
      RunStepWithin(ws, ops, datagram, maxPackets, i, rate);
    }
    WithinChain(ws, n, BYTES_PER_SECOND * rate);
  }

  /** The byte accounts of the sampler hold in every run of the sender whose connection acks or
      loses each packet at most once. */
  lemma BytesConserved(ws: seq<World>, ops: seq<Op>, datagram: int, maxPackets: int, n: nat)
    requires Run(ws, ops, datagram, maxPackets) && n < |ws| && C.PossibleRun(AllCalls(ws, ops, n))
    ensures var s := ws[n].b.sampler;
            0 <= s.totalBytesAcked && 0 <= s.totalBytesLost && s.totalBytesAcked + s.totalBytesLost <= s.totalBytesSent
  {
    SamplerOfRun(ws, ops, datagram, maxPackets, n);
    C.BytesConserved(AllCalls(ws, ops, n));
  }
}
