/** The bandwidth estimate of the BBR sender as a maximum over its own samples, over whole runs. */
module BbrFilters {
  import opened Arith
  import opened WindowedFilters
  import SM = SamplerModel
  import opened SamplerModel
  import opened BbrModel
  import opened BbrRuns

  /** The sample an event gives to the bandwidth filter, with its round: none when no bytes were acked
      or when an app-limited sample brings nothing new. */
  function Given(b: Bbr, e: BbrModel.Event): seq<Entry<int>> {
    var b1 := Rounds(Received(b, e), e);
    var (s, v) := Sample(b1, e);
    if s.totalBytesAcked != b1.sampler.totalBytesAcked && (!v.isAppLimited || v.maxBandwidth > BandwidthEstimate(b)) then
      [Entry(v.maxBandwidth, b1.round.count)]
    else []
  }

  /** The samples given in the first n operations of a run. */
  ghost function Samples(ws: seq<World>, ops: seq<Op>, n: nat): seq<Entry<int>>
    requires Trace(ws, ops) && n < |ws|
  {
    if n == 0 then []
    else Samples(ws, ops, n - 1) + Added(ws[n - 1], ops[n - 1])
  }

  function Filter(history: seq<Entry<int>>): Estimates<int> {
    Filtered(history, 0, WINDOW, MaxFilter)
  }

  lemma EventFilters(b: Bbr, e: BbrModel.Event, history: seq<Entry<int>>)
    requires e.Valid() && b.path.maxBandwidth == Filter(history)
    ensures BbrModel.OnCongestionEvent(b, e).path.maxBandwidth == Filter(history + Given(b, e))
    ensures BbrModel.OnCongestionEvent(b, e).round.count == Rounds(Received(b, e), e).round.count >= b.round.count
  {
    var b1 := Rounds(Received(b, e), e);
    assert b1.path == b.path;
    assert BbrModel.OnCongestionEvent(b, e).path.maxBandwidth == PathUpdated(b, e).0.path.maxBandwidth;
    FilterGrows(history, Given(b, e));
  }

  lemma FilterGrows(history: seq<Entry<int>>, given: seq<Entry<int>>)
    requires |given| <= 1
    ensures Filter(history + given) == if given == [] then Filter(history) else Updated(Filter(history), given[0], 0, WINDOW, MaxFilter)
  {
    if given == [] {
      assert history + given == history;
    } else {
      assert (history + given)[..|history|] == history;
    }
  }

  /** The rounds of the samples do not go back, and none is ahead of a round count. */
  ghost predicate UpToRound(history: seq<Entry<int>>, round: int) {
    InOrder(history) && forall i | 0 <= i < |history| :: history[i].time <= round
  }

  /** The samples an operation adds. */
  function Added(w: World, op: Op): seq<Entry<int>> {
    if op.Congestion? then Given(w.b, op.e) else []
  }

  lemma RoundGrows(history: seq<Entry<int>>, given: seq<Entry<int>>, round: int, later: int)
    requires UpToRound(history, round) && round <= later && |given| <= 1 && (given != [] ==> given[0].time == later)
    ensures UpToRound(history + given, later)
  {
  }

  lemma StepFilters(w: World, op: Op, history: seq<Entry<int>>)
    requires Possible(w, op) && w.b.path.maxBandwidth == Filter(history) && UpToRound(history, w.b.round.count)
    ensures Stepped(w, op).b.path.maxBandwidth == Filter(history + Added(w, op))
    ensures UpToRound(history + Added(w, op), Stepped(w, op).b.round.count)
  {
    if op.Congestion? {
      EventFilters(w.b, op.e, history);
      RoundGrows(history, Given(w.b, op.e), w.b.round.count, Stepped(w, op).b.round.count);
    } else {
      assert history + [] == history;
    }
  }

  lemma {:induction false} FilterOfRun(ws: seq<World>, ops: seq<Op>, datagram: int, maxPackets: int, n: nat)
    requires Run(ws, ops, datagram, maxPackets) && n < |ws|
    ensures ws[n].b.path.maxBandwidth == Filter(Samples(ws, ops, n))
    ensures UpToRound(Samples(ws, ops, n), ws[n].b.round.count)
  {
    if n > 0 {
      FilterOfRun(ws, ops, datagram, maxPackets, n - 1);
      assert ws[n - 1 + 1] == Stepped(ws[n - 1], ops[n - 1]);
      StepFilters(ws[n - 1], ops[n - 1], Samples(ws, ops, n - 1));
    }
  }

  /** The best of a history: the sample it is, within the window and not beaten since. */
  lemma RecentMax(h: seq<Entry<int>>) returns (p: nat)
    requires InOrder(h) && h != []
    ensures p < |h| && h[p].sample == Filter(h).best.sample && h[|h| - 1].time - h[p].time <= WINDOW
    ensures forall i | p <= i < |h| :: h[i].sample <= h[p].sample
  {
    MaxFilterIsPreorder();
    p := BestIsMaxSince(h, 0, WINDOW, MaxFilter);
    BeatenByNone(h, p, Filter(h).best);
  }

  lemma BeatenByNone(h: seq<Entry<int>>, p: nat, e: Entry<int>)
    requires MaxFrom(h, MaxFilter, p, e)
    ensures p < |h| && h[p] == e && forall i | p <= i < |h| :: h[i].sample <= e.sample
  {
    forall i | p <= i < |h| ensures h[i].sample <= e.sample {
      assert MaxFilter(e.sample, h[i].sample) >= 0;
    }
  }

  /** In every run the bandwidth estimate is zero before the first sample. After that it is a sample of
      the run, of one of the last ten rounds as of the latest sample, and the largest of all samples
      since it; a larger one it misses is older. */
  lemma EstimateIsRecentMax(ws: seq<World>, ops: seq<Op>, datagram: int, maxPackets: int, n: nat) returns (p: nat)
    requires Run(ws, ops, datagram, maxPackets) && n < |ws|
    ensures var h := Samples(ws, ops, n); var estimate := BandwidthEstimate(ws[n].b);
            if h == [] then estimate == 0
            else
              && p < |h| && h[p].sample == estimate && h[|h| - 1].time - h[p].time <= WINDOW
              && forall i | p <= i < |h| :: h[i].sample <= estimate
  {
    FilterOfRun(ws, ops, datagram, maxPackets, n);
    var h := Samples(ws, ops, n);
    p := 0;
    if h != [] {
      p := RecentMax(h);
    }
  }

  /** So the estimate is at most whatever bounds the samples of its window. */
  lemma EstimateWithinWindowMax(ws: seq<World>, ops: seq<Op>, datagram: int, maxPackets: int, n: nat, bound: int)
    requires Run(ws, ops, datagram, maxPackets) && n < |ws| && Samples(ws, ops, n) != []
    requires var h := Samples(ws, ops, n); forall e | e in h && h[|h| - 1].time - e.time <= WINDOW :: e.sample <= bound
    ensures BandwidthEstimate(ws[n].b) <= bound
  {
    FilterOfRun(ws, ops, datagram, maxPackets, n);
    MaxFilterIsPreorder();
    BestWithinWindowMax(Samples(ws, ops, n), 0, WINDOW, MaxFilter, bound);
  }

  /** Sample p is at least every sample since from, and above every later one. */
  ghost predicate LargestSince(h: seq<Entry<int>>, from: nat, p: nat) {
    && from <= p < |h|
    && (forall i | from <= i < p :: h[i].sample <= h[p].sample)
    && (forall i | p < i < |h| :: h[i].sample < h[p].sample)
  }

  lemma LargestIsPeak(h: seq<Entry<int>>, from: nat, p: nat)
    requires LargestSince(h, from, p)
    ensures PeakFrom(h, MaxFilter, from, p)
  {
  }

  lemma LargestIsBest(h: seq<Entry<int>>, p: nat)
    requires InOrder(h) && LargestSince(h, 0, p) && h[p].sample != 0 && h[|h| - 1].time - h[p].time <= WINDOW
    ensures Filter(h).best == h[p]
  {
    MaxFilterIsPreorder();
    LargestIsPeak(h, 0, p);
    BestIsPeak(h, 0, WINDOW, MaxFilter, p);
  }

  /** In every run the largest sample of the run is the bandwidth estimate for ten rounds, whatever
      smaller samples come in between. */
  lemma EstimateIsLargestSample(ws: seq<World>, ops: seq<Op>, datagram: int, maxPackets: int, n: nat, p: nat)
    requires Run(ws, ops, datagram, maxPackets) && n < |ws|
    requires var h := Samples(ws, ops, n);
             LargestSince(h, 0, p) && h[p].sample != 0 && h[|h| - 1].time - h[p].time <= WINDOW
    ensures BandwidthEstimate(ws[n].b) == Samples(ws, ops, n)[p].sample
  {
    FilterOfRun(ws, ops, datagram, maxPackets, n);
    LargestIsBest(Samples(ws, ops, n), p);
  }

  /** In every run an estimate that is set falls only when the sample it came from is more than ten
      rounds old. */
  lemma EstimateFallsOnExpiry(ws: seq<World>, ops: seq<Op>, datagram: int, maxPackets: int, n: nat) returns (p: nat)
    requires Run(ws, ops, datagram, maxPackets) && n < |ops|
    requires BandwidthEstimate(ws[n + 1].b) < BandwidthEstimate(ws[n].b) && BandwidthEstimate(ws[n].b) != 0
    ensures var h, h' := Samples(ws, ops, n), Samples(ws, ops, n + 1);
            && h < h' && p < |h| && h[p].sample == BandwidthEstimate(ws[n].b)
            && h'[|h|].time - h[p].time > WINDOW
  {
    FilterOfRun(ws, ops, datagram, maxPackets, n);
    FilterOfRun(ws, ops, datagram, maxPackets, n + 1);
    var h, given := Samples(ws, ops, n), Added(ws[n], ops[n]);
    assert Samples(ws, ops, n + 1) == h + given;
    assert h + [] == h;
    assert given == [given[0]];
    p := FallsOnExpiry(h, given[0]);
  }

  lemma FallsOnExpiry(h: seq<Entry<int>>, s: Entry<int>) returns (p: nat)
    requires InOrder(h + [s]) && Filter(h + [s]).best.sample < Filter(h).best.sample && Filter(h).best.sample != 0
    ensures p < |h| && h[p].sample == Filter(h).best.sample && s.time - h[p].time > WINDOW
  {
    InitInOrder(h, s);
    BestExpires(h, s);
    p := BestIsASample(h);
  }

  lemma BestIsASample(h: seq<Entry<int>>) returns (p: nat)
    requires InOrder(h) && h != []
    ensures p < |h| && h[p] == Filter(h).best
  {
    MaxFilterIsPreorder();
    p := BestIsMaxSince(h, 0, WINDOW, MaxFilter);
  }

  lemma BestExpires(h: seq<Entry<int>>, s: Entry<int>)
    requires InOrder(h + [s]) && h != [] && Filter(h + [s]).best.sample < Filter(h).best.sample && Filter(h).best.sample != 0
    ensures s.time - Filter(h).best.time > WINDOW
  {
    MaxFilterIsPreorder();
    BestGivesWay(h, s, 0, WINDOW, MaxFilter);
    assert (h + [s])[..|h|] == h;
  }

  /** And it then falls to the runner-up: the largest sample since, given more than two rounds after
      it. */
  lemma EstimateFallsToRunnerUp(h: seq<Entry<int>>, s: Entry<int>, p: nat, q: nat, r: nat)
    requires InOrder(h + [s]) && LargestSince(h, 0, p) && LargestSince(h, p + 1, q) && LargestSince(h + [s], q + 1, r) && r < |h|
    requires h[p].sample != 0 && h[|h| - 1].time - h[p].time <= WINDOW < s.time - h[p].time
    requires h[q].time - h[p].time > WINDOW / 4 && h[r].time - h[q].time > WINDOW / 2 && s.time - h[q].time <= WINDOW
    ensures Filter(h + [s]).best == h[q]
  {
    MaxFilterIsPreorder();
    assert forall i | 0 <= i < |h| :: (h + [s])[i] == h[i];
    LargestIsPeak(h, 0, p);
    LargestIsPeak(h, p + 1, q);
    LargestIsPeak(h, q + 1, r);
    LargestIsPeak(h + [s], q + 1, r);
    InitInOrder(h, s);
    RunnerUpTakesOver(h, s, 0, WINDOW, MaxFilter, p, q, r);
  }
}
