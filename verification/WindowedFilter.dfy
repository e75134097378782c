/** Kathleen Nichols' windowed maximum (internal/congestion/bbr/windowed_filter.go): three
    estimates stand in for the samples of a whole window. */
module WindowedFilters {

  datatype Entry<V> = Entry(sample: V, time: int)

  datatype Estimates<V> = Estimates(best: Entry<V>, second: Entry<V>, third: Entry<V>)

  /** A comparator in the style of the original: positive when a beats b, zero on a tie. */
  type Comparator<!V> = (V, V) -> int

  ghost predicate TotalPreorder<V(!new)>(cmp: Comparator<V>) {
    && (forall a :: cmp(a, a) == 0)
    && (forall a, b :: (cmp(a, b) >= 0 <==> cmp(b, a) <= 0))
    && (forall a, b, c {:trigger cmp(a, b), cmp(b, c)} :: cmp(a, b) >= 0 && cmp(b, c) >= 0 ==> cmp(a, c) >= 0)
  }

  /** MaxFilter on integers. */
  function MaxFilter(a: int, b: int): int {
    if a > b then 1 else if a < b then -1 else 0
  }

  function Cleared<V>(zero: V): Estimates<V> {
    Estimates(Entry(zero, 0), Entry(zero, 0), Entry(zero, 0))
  }

  function ResetTo<V>(e: Entry<V>): Estimates<V> {
    Estimates(e, e, e)
  }

  /** The estimates after one more sample. */
  function Updated<V>(f: Estimates<V>, e: Entry<V>, zero: V, window: int, cmp: Comparator<V>): Estimates<V> {
    if cmp(f.best.sample, zero) == 0 || cmp(e.sample, f.best.sample) >= 0 || e.time - f.third.time > window then
      ResetTo(e)
    else
      Expired(Replaced(f, e, cmp), e, window, cmp)
  }

  /** A sample that beats the second or the third estimate takes its place and those after it. */
  function Replaced<V>(f: Estimates<V>, e: Entry<V>, cmp: Comparator<V>): Estimates<V> {
    if cmp(e.sample, f.second.sample) >= 0 then Estimates(f.best, e, e)
    else if cmp(e.sample, f.third.sample) >= 0 then Estimates(f.best, f.second, e)
    else f
  }

  /** An estimate that left the window gives way to the next; one that ages without a rival
      in its part of the window gives way to the new sample. */
  function Expired<V>(f: Estimates<V>, e: Entry<V>, window: int, cmp: Comparator<V>): Estimates<V> {
    if e.time - f.best.time > window then
      if e.time - f.second.time > window then Estimates(f.third, e, e)
      else Estimates(f.second, f.third, e)
    else if cmp(f.second.sample, f.best.sample) == 0 && e.time - f.second.time > window / 4 then
      Estimates(f.best, e, e)
    else if cmp(f.third.sample, f.second.sample) == 0 && e.time - f.third.time > window / 2 then
      Estimates(f.best, f.second, e)
    else f
  }

  /** The estimates after a whole history of samples. */
  function Filtered<V>(history: seq<Entry<V>>, zero: V, window: int, cmp: Comparator<V>): Estimates<V> {
    if history == [] then Cleared(zero)
    else
      var last := |history| - 1;
      Updated(Filtered(history[..last], zero, window, cmp), history[last], zero, window, cmp)
  }

  ghost predicate InOrder<V>(history: seq<Entry<V>>) {
    forall i, j | 0 <= i < j < |history| :: history[i].time <= history[j].time
  }

  /** e is the sample at position p, and no sample from p on beats it. */
  ghost predicate MaxFrom<V>(history: seq<Entry<V>>, cmp: Comparator<V>, p: nat, e: Entry<V>) {
    && p < |history| && history[p] == e
    && forall j | p <= j < |history| :: cmp(e.sample, history[j].sample) >= 0
  }

  /** The estimates are maxima of ever shorter suffixes of the history. */
  ghost predicate Tracks<V>(f: Estimates<V>, history: seq<Entry<V>>, cmp: Comparator<V>) {
    exists p: nat, q: nat, r: nat :: TracksAt(f, history, cmp, p, q, r)
  }

  ghost predicate TracksAt<V>(f: Estimates<V>, history: seq<Entry<V>>, cmp: Comparator<V>, p: nat, q: nat, r: nat) {
    && p <= q <= r
    && MaxFrom(history, cmp, p, f.best)
    && MaxFrom(history, cmp, q, f.second)
    && MaxFrom(history, cmp, r, f.third)
  }

  lemma MaxFromExtends<V(!new)>(history: seq<Entry<V>>, cmp: Comparator<V>, p: nat, e: Entry<V>, s: Entry<V>)
    requires TotalPreorder(cmp) && MaxFrom(history, cmp, p, e) && cmp(s.sample, e.sample) <= 0
    ensures MaxFrom(history + [s], cmp, p, e)
  {
  }

  lemma NewestIsMax<V(!new)>(history: seq<Entry<V>>, cmp: Comparator<V>, s: Entry<V>)
    requires TotalPreorder(cmp)
    ensures MaxFrom(history + [s], cmp, |history|, s)
  {
  }

  lemma ReplacedTracks<V(!new)>(f: Estimates<V>, history: seq<Entry<V>>, s: Entry<V>, cmp: Comparator<V>)
    requires TotalPreorder(cmp) && Tracks(f, history, cmp)
    requires cmp(s.sample, f.best.sample) < 0
    ensures Tracks(Replaced(f, s, cmp), history + [s], cmp)
    ensures cmp(s.sample, Replaced(f, s, cmp).third.sample) <= 0
    ensures cmp(s.sample, Replaced(f, s, cmp).second.sample) <= 0
  {
    var p: nat, q: nat, r: nat :| TracksAt(f, history, cmp, p, q, r);
    var n, h := |history|, history + [s];
    MaxFromExtends(history, cmp, p, f.best, s);
    NewestIsMax(history, cmp, s);
    if cmp(s.sample, f.second.sample) >= 0 {
      assert TracksAt(Estimates(f.best, s, s), h, cmp, p, n, n);
    } else if cmp(s.sample, f.third.sample) >= 0 {
      MaxFromExtends(history, cmp, q, f.second, s);
      assert TracksAt(Estimates(f.best, f.second, s), h, cmp, p, q, n);
    } else {
      MaxFromExtends(history, cmp, q, f.second, s);
      MaxFromExtends(history, cmp, r, f.third, s);
      assert TracksAt(f, h, cmp, p, q, r);
    }
  }

  lemma ExpiredTracks<V(!new)>(f: Estimates<V>, history: seq<Entry<V>>, s: Entry<V>, window: int, cmp: Comparator<V>)
    requires TotalPreorder(cmp) && Tracks(f, history + [s], cmp)
    ensures Tracks(Expired(f, s, window, cmp), history + [s], cmp)
  {
    var n, h := |history|, history + [s];
    var p: nat, q: nat, r: nat :| TracksAt(f, h, cmp, p, q, r);
    NewestIsMax(history, cmp, s);
    var f' := Expired(f, s, window, cmp);
    assert TracksAt(f', h, cmp, p, q, r) || TracksAt(f', h, cmp, p, q, n) || TracksAt(f', h, cmp, p, n, n)
        || TracksAt(f', h, cmp, r, n, n) || TracksAt(f', h, cmp, q, r, n);
  }

  lemma UpdatedTracks<V(!new)>(f: Estimates<V>, history: seq<Entry<V>>, s: Entry<V>, zero: V, window: int, cmp: Comparator<V>)
    requires TotalPreorder(cmp) && window >= 0
    requires if history == [] then f == Cleared(zero) else Tracks(f, history, cmp)
    ensures Tracks(Updated(f, s, zero, window, cmp), history + [s], cmp)
  {
    if cmp(f.best.sample, zero) == 0 || cmp(s.sample, f.best.sample) >= 0 || s.time - f.third.time > window {
      NewestIsMax(history, cmp, s);
      assert TracksAt(ResetTo(s), history + [s], cmp, |history|, |history|, |history|);
    } else {
      ReplacedTracks(f, history, s, cmp);
      ExpiredTracks(Replaced(f, s, cmp), history, s, window, cmp);
    }
  }

  /** The best estimate never outlives the window. */
  lemma UpdatedIsFresh<V>(f: Estimates<V>, s: Entry<V>, zero: V, window: int, cmp: Comparator<V>)
    requires window >= 0
    ensures s.time - Updated(f, s, zero, window, cmp).best.time <= window
  {
  }

  /** The rule that bounds the error: while the best stays, a second estimate that ties it is
      no older than a quarter of the window, and a third that ties the second no older than
      half of it. */
  lemma UpdatedIsSpread<V>(f: Estimates<V>, s: Entry<V>, zero: V, window: int, cmp: Comparator<V>)
    requires window >= 0
    ensures var f' := Updated(f, s, zero, window, cmp);
            f'.best == f.best && s.time - f.best.time <= window ==>
              && (cmp(f'.second.sample, f'.best.sample) == 0 ==> s.time - f'.second.time <= window / 4 || f'.second == s)
              && (cmp(f'.third.sample, f'.second.sample) == 0 ==> s.time - f'.third.time <= window / 2 || f'.third == s)
  {
  }

  lemma TracksOrdered<V(!new)>(f: Estimates<V>, history: seq<Entry<V>>, cmp: Comparator<V>)
    requires TotalPreorder(cmp) && InOrder(history) && Tracks(f, history, cmp)
    ensures cmp(f.best.sample, f.second.sample) >= 0 && cmp(f.second.sample, f.third.sample) >= 0
    ensures f.best.time <= f.second.time <= f.third.time
  {
    var p: nat, q: nat, r: nat :| TracksAt(f, history, cmp, p, q, r);
    assert history[p].time <= history[q].time <= history[r].time;
  }

  lemma FilteredStep<V>(history: seq<Entry<V>>, s: Entry<V>, zero: V, window: int, cmp: Comparator<V>)
    ensures Filtered(history + [s], zero, window, cmp) == Updated(Filtered(history, zero, window, cmp), s, zero, window, cmp)
  {
    assert (history + [s])[..|history|] == history;
  }

  lemma TracksOn<V(!new)>(history: seq<Entry<V>>, s: Entry<V>, zero: V, window: int, cmp: Comparator<V>)
    requires TotalPreorder(cmp) && window >= 0
    requires history == [] || Tracks(Filtered(history, zero, window, cmp), history, cmp)
    ensures Tracks(Filtered(history + [s], zero, window, cmp), history + [s], cmp)
  {
    FilteredStep(history, s, zero, window, cmp);
    UpdatedTracks(Filtered(history, zero, window, cmp), history, s, zero, window, cmp);
  }

  lemma {:induction false} RunIsTracked<V(!new)>(history: seq<Entry<V>>, zero: V, window: int, cmp: Comparator<V>)
    requires TotalPreorder(cmp) && window >= 0 && history != []
    ensures Tracks(Filtered(history, zero, window, cmp), history, cmp)
    decreases |history|
  {
    var init, s := history[..|history| - 1], history[|history| - 1];
    if init != [] {
      RunIsTracked(init, zero, window, cmp);
    }
    assert history == init + [s];
    TracksOn(init, s, zero, window, cmp);
  }

  /** After any history with times that do not go back: the three estimates are samples of the
      history, each the maximum of everything that arrived from it on, ordered by value
      (descending) and by time (ascending), and the best is within the window of the newest. */
  lemma RunTracks<V(!new)>(history: seq<Entry<V>>, zero: V, window: int, cmp: Comparator<V>)
    requires TotalPreorder(cmp) && window >= 0 && history != [] && InOrder(history)
    ensures var f := Filtered(history, zero, window, cmp);
            && Tracks(f, history, cmp)
            && cmp(f.best.sample, f.second.sample) >= 0 && cmp(f.second.sample, f.third.sample) >= 0
            && f.best.time <= f.second.time <= f.third.time
            && history[|history| - 1].time - f.best.time <= window
  {
    RunIsTracked(history, zero, window, cmp);
    TracksOrdered(Filtered(history, zero, window, cmp), history, cmp);
    var last := |history| - 1;
    UpdatedIsFresh(Filtered(history[..last], zero, window, cmp), history[last], zero, window, cmp);
  }

  /** The best is a sample of the window that nothing has beaten since it came. */
  lemma BestIsMaxSince<V(!new)>(history: seq<Entry<V>>, zero: V, window: int, cmp: Comparator<V>) returns (p: nat)
    requires TotalPreorder(cmp) && window >= 0 && history != [] && InOrder(history)
    ensures p < |history| && MaxFrom(history, cmp, p, Filtered(history, zero, window, cmp).best)
    ensures history[|history| - 1].time - history[p].time <= window
  {
    RunTracks(history, zero, window, cmp);
    var q: nat, r: nat;
    p, q, r :| TracksAt(Filtered(history, zero, window, cmp), history, cmp, p, q, r);
  }

  /** The best never exceeds the true maximum of the window, and a sample it misses is older
      than it: every sample that beats the best arrived before it. */
  lemma BestWithinWindowMax<V(!new)>(history: seq<Entry<V>>, zero: V, window: int, cmp: Comparator<V>, bound: V)
    requires TotalPreorder(cmp) && window >= 0 && history != [] && InOrder(history)
    requires forall e | e in history && history[|history| - 1].time - e.time <= window :: cmp(bound, e.sample) >= 0
    ensures cmp(bound, Filtered(history, zero, window, cmp).best.sample) >= 0
    ensures forall e | e in history && cmp(e.sample, Filtered(history, zero, window, cmp).best.sample) > 0 ::
              e.time <= Filtered(history, zero, window, cmp).best.time
  {
    RunTracks(history, zero, window, cmp);
    var f := Filtered(history, zero, window, cmp);
    var p: nat, q: nat, r: nat :| TracksAt(f, history, cmp, p, q, r);
    assert history[p] in history;
    forall e | e in history && cmp(e.sample, f.best.sample) > 0 ensures e.time <= f.best.time {
      var i :| 0 <= i < |history| && history[i] == e;
      assert i < p;
    }
  }

  /** The sample at p is at least every one since from, and beats every later one. */
  ghost predicate PeakFrom<V>(history: seq<Entry<V>>, cmp: Comparator<V>, from: nat, p: nat) {
    && from <= p < |history|
    && (forall i | from <= i < p :: cmp(history[p].sample, history[i].sample) >= 0)
    && (forall i | p < i < |history| :: cmp(history[i].sample, history[p].sample) < 0)
  }

  /** The peak of the history is not zero-valued and within the window of the newest sample. */
  ghost predicate PeakInWindow<V>(history: seq<Entry<V>>, zero: V, window: int, cmp: Comparator<V>, p: nat) {
    && PeakFrom(history, cmp, 0, p)
    && cmp(history[p].sample, zero) != 0
    && history[|history| - 1].time - history[p].time <= window
  }

  /** The best of the samples after the peak, more than a quarter of the window later. */
  ghost predicate RunnerUp<V>(history: seq<Entry<V>>, window: int, cmp: Comparator<V>, p: nat, q: nat) {
    && PeakFrom(history, cmp, p + 1, q)
    && history[q].time - history[p].time > window / 4
  }

  /** The best of the samples after the runner-up, more than half of the window after it. */
  ghost predicate ThirdInLine<V>(history: seq<Entry<V>>, window: int, cmp: Comparator<V>, q: nat, r: nat) {
    && PeakFrom(history, cmp, q + 1, r)
    && history[r].time - history[q].time > window / 2
  }

  /** The estimates before the last sample of a history. */
  lemma InitTracks<V(!new)>(history: seq<Entry<V>>, zero: V, window: int, cmp: Comparator<V>) returns (f: Estimates<V>)
    requires TotalPreorder(cmp) && window >= 0 && |history| > 1 && InOrder(history)
    ensures f == Filtered(history[..|history| - 1], zero, window, cmp)
    ensures Filtered(history, zero, window, cmp) == Updated(f, history[|history| - 1], zero, window, cmp)
    ensures Tracks(f, history[..|history| - 1], cmp) && Ordered(f, cmp)
  {
    f := Filtered(history[..|history| - 1], zero, window, cmp);
    RunTracks(history[..|history| - 1], zero, window, cmp);
  }

  datatype Place = Best | Second | Third

  ghost predicate Ordered<V>(f: Estimates<V>, cmp: Comparator<V>) {
    && f.best.time <= f.second.time <= f.third.time
    && cmp(f.best.sample, f.second.sample) >= 0 && cmp(f.second.sample, f.third.sample) >= 0
  }

  /** A sample below the best that comes while the best is in the window leaves it. */
  lemma BestStays<V>(f: Estimates<V>, s: Entry<V>, zero: V, window: int, cmp: Comparator<V>)
    requires cmp(f.best.sample, zero) != 0 && cmp(s.sample, f.best.sample) < 0
    requires s.time - f.best.time <= window && f.best.time <= f.third.time
    ensures Updated(f, s, zero, window, cmp) == Expired(Replaced(f, s, cmp), s, window, cmp)
    ensures Updated(f, s, zero, window, cmp).best == f.best
  {
  }

  lemma BestIsNewMaximum<V(!new)>(f: Estimates<V>, history: seq<Entry<V>>, s: Entry<V>, zero: V, window: int, cmp: Comparator<V>)
    requires TotalPreorder(cmp) && Tracks(f, history, cmp)
    requires forall i | 0 <= i < |history| :: cmp(s.sample, history[i].sample) >= 0
    ensures Updated(f, s, zero, window, cmp) == ResetTo(s)
  {
  }

  /** The estimates on either side of the sample at k. */
  lemma TrackedStep<V(!new)>(history: seq<Entry<V>>, zero: V, window: int, cmp: Comparator<V>, k: nat) returns (f: Estimates<V>)
    requires TotalPreorder(cmp) && window >= 0 && 0 < k < |history| && InOrder(history)
    ensures f == Filtered(history[..k], zero, window, cmp)
    ensures Filtered(history[..k + 1], zero, window, cmp) == Updated(f, history[k], zero, window, cmp)
    ensures InOrder(history[..k]) && Tracks(f, history[..k], cmp) && Ordered(f, cmp)
  {
    assert history[..k + 1][..k] == history[..k];
    f := InitTracks(history[..k + 1], zero, window, cmp);
  }

  /** The estimate at a place after the first n samples. */
  ghost predicate Holds<V>(history: seq<Entry<V>>, zero: V, window: int, cmp: Comparator<V>, place: Place, e: Entry<V>, n: nat) {
    n <= |history| &&
      var f := Filtered(history[..n], zero, window, cmp);
      match place case Best => f.best == e case Second => f.second == e case Third => f.third == e
  }

  ghost predicate Keeps<V>(history: seq<Entry<V>>, zero: V, window: int, cmp: Comparator<V>, place: Place, e: Entry<V>, n: nat) {
    Holds(history, zero, window, cmp, place, e, n) ==> Holds(history, zero, window, cmp, place, e, n + 1)
  }

  lemma {:induction false} KeptOn<V>(history: seq<Entry<V>>, zero: V, window: int, cmp: Comparator<V>, place: Place, e: Entry<V>, m: nat, n: nat)
    requires m <= n && Holds(history, zero, window, cmp, place, e, m)
    requires forall k | m <= k < n :: Keeps(history, zero, window, cmp, place, e, k)
    ensures Holds(history, zero, window, cmp, place, e, n)
    decreases n
  {
    if m < n {
      KeptOn(history, zero, window, cmp, place, e, m, n - 1);
      assert Keeps(history, zero, window, cmp, place, e, n - 1);
    }
  }

  ghost predicate OrderedAt<V>(history: seq<Entry<V>>, zero: V, window: int, cmp: Comparator<V>, k: nat) {
    k <= |history| && Ordered(Filtered(history[..k], zero, window, cmp), cmp)
  }

  lemma BestStarts<V(!new)>(history: seq<Entry<V>>, zero: V, window: int, cmp: Comparator<V>, p: nat)
    requires TotalPreorder(cmp) && window >= 0 && InOrder(history) && PeakFrom(history, cmp, 0, p)
    ensures Holds(history, zero, window, cmp, Best, history[p], p + 1)
  {
    assert history[..p + 1][..p] == history[..p];
    if p > 0 {
      var f := TrackedStep(history, zero, window, cmp, p);
      BestIsNewMaximum(f, history[..p], history[p], zero, window, cmp);
    }
  }

  lemma BestStep<V>(history: seq<Entry<V>>, zero: V, window: int, cmp: Comparator<V>, p: nat, k: nat)
    requires InOrder(history) && PeakInWindow(history, zero, window, cmp, p) && p < k < |history|
    requires OrderedAt(history, zero, window, cmp, k) && Holds(history, zero, window, cmp, Best, history[p], k)
    ensures Holds(history, zero, window, cmp, Best, history[p], k + 1)
    ensures history[k].time - history[p].time <= window
    ensures Filtered(history[..k + 1], zero, window, cmp)
         == Expired(Replaced(Filtered(history[..k], zero, window, cmp), history[k], cmp), history[k], window, cmp)
  {
    assert history[..k + 1][..k] == history[..k];
    assert history[k].time <= history[|history| - 1].time;
    BestStays(Filtered(history[..k], zero, window, cmp), history[k], zero, window, cmp);
  }

  /** From the peak on, the best estimate is the peak. */
  lemma BestSince<V>(history: seq<Entry<V>>, zero: V, window: int, cmp: Comparator<V>, p: nat, n: nat)
    requires InOrder(history) && PeakInWindow(history, zero, window, cmp, p) && p < n <= |history|
    requires forall k | 0 < k < |history| :: OrderedAt(history, zero, window, cmp, k)
    requires Holds(history, zero, window, cmp, Best, history[p], p + 1)
    ensures Holds(history, zero, window, cmp, Best, history[p], n)
  {
    forall k | p + 1 <= k < n ensures Keeps(history, zero, window, cmp, Best, history[p], k) {
      if Holds(history, zero, window, cmp, Best, history[p], k) {
        BestStep(history, zero, window, cmp, p, k);
      }
    }
    KeptOn(history, zero, window, cmp, Best, history[p], p + 1, n);
  }

  lemma AllOrdered<V(!new)>(history: seq<Entry<V>>, zero: V, window: int, cmp: Comparator<V>)
    requires TotalPreorder(cmp) && window >= 0 && InOrder(history)
    ensures forall k | 0 < k < |history| :: OrderedAt(history, zero, window, cmp, k)
  {
    forall k | 0 < k < |history| ensures OrderedAt(history, zero, window, cmp, k) {
      var _ := TrackedStep(history, zero, window, cmp, k);
    }
  }

  /** A maximum is kept for a whole window: as long as the peak of the history is in the window of
      the newest sample, the best estimate is the peak. */
  lemma BestIsPeak<V(!new)>(history: seq<Entry<V>>, zero: V, window: int, cmp: Comparator<V>, p: nat)
    requires TotalPreorder(cmp) && window >= 0 && InOrder(history) && PeakInWindow(history, zero, window, cmp, p)
    ensures Filtered(history, zero, window, cmp).best == history[p]
  {
    AllOrdered(history, zero, window, cmp);
    BestStarts(history, zero, window, cmp, p);
    BestSince(history, zero, window, cmp, p, |history|);
    assert history[..|history|] == history;
  }

  /** A sample below the second estimate leaves it, when the second does not tie the best. */
  lemma SecondStays<V>(f: Estimates<V>, s: Entry<V>, window: int, cmp: Comparator<V>)
    requires cmp(s.sample, f.second.sample) < 0 && s.time - f.best.time <= window
    requires cmp(f.second.sample, f.best.sample) != 0
    ensures Expired(Replaced(f, s, cmp), s, window, cmp).second == f.second
  {
  }

  /** The sample s takes the place of the estimate a, which comes after b: it is at least a, or a ties b
      and has aged. */
  ghost predicate GivesWay<V>(a: Entry<V>, b: Entry<V>, s: Entry<V>, cmp: Comparator<V>, age: int) {
    cmp(s.sample, a.sample) >= 0 || (cmp(a.sample, b.sample) == 0 && s.time - a.time > age)
  }

  /** A sample that is at least every one since b, and more than an age after b, takes the place of the
      estimate after b. */
  lemma LargestTakesPlace<V(!new)>(history: seq<Entry<V>>, a: Entry<V>, s: Entry<V>, cmp: Comparator<V>, age: int, p: nat, j: nat)
    requires TotalPreorder(cmp) && InOrder(history) && p < |history| && MaxFrom(history, cmp, j, a)
    requires cmp(history[p].sample, a.sample) >= 0 && s.time - history[p].time > age
    requires forall i | p < i < |history| :: cmp(s.sample, history[i].sample) >= 0
    ensures GivesWay(a, history[p], s, cmp, age)
  {
    if j <= p {
      assert cmp(a.sample, history[p].sample) >= 0;
      assert history[j].time <= history[p].time;
    }
  }

  lemma SecondGivesWay<V(!new)>(history: seq<Entry<V>>, zero: V, window: int, cmp: Comparator<V>, p: nat, q: nat)
    requires TotalPreorder(cmp) && window >= 0 && InOrder(history) && RunnerUp(history, window, cmp, p, q)
    requires Holds(history, zero, window, cmp, Best, history[p], q)
    ensures var f := Filtered(history[..q], zero, window, cmp); GivesWay(f.second, f.best, history[q], cmp, window / 4)
  {
    var f := TrackedStep(history, zero, window, cmp, q);
    var i: nat, j: nat, k: nat :| TracksAt(f, history[..q], cmp, i, j, k);
    LargestTakesPlace(history[..q], f.second, history[q], cmp, window / 4, p, j);
  }

  lemma SecondIsNew<V>(f: Estimates<V>, s: Entry<V>, window: int, cmp: Comparator<V>)
    requires GivesWay(f.second, f.best, s, cmp, window / 4) && s.time - f.best.time <= window
    ensures Expired(Replaced(f, s, cmp), s, window, cmp).second == s
  {
  }

  lemma SecondStarts<V>(history: seq<Entry<V>>, zero: V, window: int, cmp: Comparator<V>, p: nat, q: nat)
    requires window >= 0 && InOrder(history) && PeakInWindow(history, zero, window, cmp, p) && RunnerUp(history, window, cmp, p, q)
    requires OrderedAt(history, zero, window, cmp, q) && Holds(history, zero, window, cmp, Best, history[p], q)
    requires var f := Filtered(history[..q], zero, window, cmp); GivesWay(f.second, f.best, history[q], cmp, window / 4)
    ensures Holds(history, zero, window, cmp, Second, history[q], q + 1)
  {
    BestStep(history, zero, window, cmp, p, q);
    SecondIsNew(Filtered(history[..q], zero, window, cmp), history[q], window, cmp);
  }

  lemma SecondStep<V>(history: seq<Entry<V>>, zero: V, window: int, cmp: Comparator<V>, p: nat, q: nat, k: nat)
    requires InOrder(history) && PeakInWindow(history, zero, window, cmp, p) && RunnerUp(history, window, cmp, p, q)
    requires q < k < |history| && OrderedAt(history, zero, window, cmp, k)
    requires Holds(history, zero, window, cmp, Best, history[p], k) && Holds(history, zero, window, cmp, Second, history[q], k)
    ensures Holds(history, zero, window, cmp, Second, history[q], k + 1)
  {
    BestStep(history, zero, window, cmp, p, k);
    SecondStays(Filtered(history[..k], zero, window, cmp), history[k], window, cmp);
  }

  /** From the runner-up on, the second estimate is the runner-up. */
  lemma SecondSince<V>(history: seq<Entry<V>>, zero: V, window: int, cmp: Comparator<V>, p: nat, q: nat, n: nat)
    requires InOrder(history) && PeakInWindow(history, zero, window, cmp, p)
    requires RunnerUp(history, window, cmp, p, q) && q < n <= |history|
    requires forall k | 0 < k < |history| :: OrderedAt(history, zero, window, cmp, k)
    requires Holds(history, zero, window, cmp, Best, history[p], p + 1)
    requires Holds(history, zero, window, cmp, Second, history[q], q + 1)
    ensures Holds(history, zero, window, cmp, Second, history[q], n)
  {
    forall k | q + 1 <= k < n ensures Keeps(history, zero, window, cmp, Second, history[q], k) {
      if Holds(history, zero, window, cmp, Second, history[q], k) {
        BestSince(history, zero, window, cmp, p, k);
        SecondStep(history, zero, window, cmp, p, q, k);
      }
    }
    KeptOn(history, zero, window, cmp, Second, history[q], q + 1, n);
  }

  /** The same for the third estimate. */
  lemma ThirdStays<V>(f: Estimates<V>, s: Entry<V>, window: int, cmp: Comparator<V>)
    requires cmp(s.sample, f.second.sample) < 0 && cmp(s.sample, f.third.sample) < 0 && s.time - f.best.time <= window
    requires cmp(f.second.sample, f.best.sample) != 0 && cmp(f.third.sample, f.second.sample) != 0
    ensures Expired(Replaced(f, s, cmp), s, window, cmp).third == f.third
  {
  }

  lemma ThirdGivesWay<V(!new)>(history: seq<Entry<V>>, zero: V, window: int, cmp: Comparator<V>, q: nat, r: nat)
    requires TotalPreorder(cmp) && window >= 0 && InOrder(history) && ThirdInLine(history, window, cmp, q, r)
    requires Holds(history, zero, window, cmp, Second, history[q], r)
    ensures var f := Filtered(history[..r], zero, window, cmp); GivesWay(f.third, f.second, history[r], cmp, window / 2)
  {
    var f := TrackedStep(history, zero, window, cmp, r);
    var i: nat, j: nat, k: nat :| TracksAt(f, history[..r], cmp, i, j, k);
    LargestTakesPlace(history[..r], f.third, history[r], cmp, window / 2, q, k);
  }

  lemma ThirdIsNew<V>(f: Estimates<V>, s: Entry<V>, window: int, cmp: Comparator<V>)
    requires GivesWay(f.third, f.second, s, cmp, window / 2) && s.time - f.best.time <= window
    requires cmp(s.sample, f.second.sample) < 0 && cmp(f.second.sample, f.best.sample) != 0
    ensures Expired(Replaced(f, s, cmp), s, window, cmp).third == s
  {
  }

  lemma ThirdStarts<V>(history: seq<Entry<V>>, zero: V, window: int, cmp: Comparator<V>, p: nat, q: nat, r: nat)
    requires window >= 0 && InOrder(history) && PeakInWindow(history, zero, window, cmp, p)
    requires RunnerUp(history, window, cmp, p, q) && ThirdInLine(history, window, cmp, q, r)
    requires OrderedAt(history, zero, window, cmp, r)
    requires Holds(history, zero, window, cmp, Best, history[p], r) && Holds(history, zero, window, cmp, Second, history[q], r)
    requires var f := Filtered(history[..r], zero, window, cmp); GivesWay(f.third, f.second, history[r], cmp, window / 2)
    ensures Holds(history, zero, window, cmp, Third, history[r], r + 1)
  {
    BestStep(history, zero, window, cmp, p, r);
    ThirdIsNew(Filtered(history[..r], zero, window, cmp), history[r], window, cmp);
  }

  lemma ThirdStep<V>(history: seq<Entry<V>>, zero: V, window: int, cmp: Comparator<V>, p: nat, q: nat, r: nat, k: nat)
    requires InOrder(history) && PeakInWindow(history, zero, window, cmp, p)
    requires RunnerUp(history, window, cmp, p, q) && ThirdInLine(history, window, cmp, q, r)
    requires r < k < |history| && OrderedAt(history, zero, window, cmp, k) && Holds(history, zero, window, cmp, Best, history[p], k)
    requires Holds(history, zero, window, cmp, Second, history[q], k) && Holds(history, zero, window, cmp, Third, history[r], k)
    ensures Holds(history, zero, window, cmp, Third, history[r], k + 1)
  {
    BestStep(history, zero, window, cmp, p, k);
    ThirdStays(Filtered(history[..k], zero, window, cmp), history[k], window, cmp);
  }

  lemma ThirdSince<V>(history: seq<Entry<V>>, zero: V, window: int, cmp: Comparator<V>, p: nat, q: nat, r: nat, n: nat)
    requires InOrder(history) && PeakInWindow(history, zero, window, cmp, p)
    requires RunnerUp(history, window, cmp, p, q) && ThirdInLine(history, window, cmp, q, r) && r < n <= |history|
    requires forall k | 0 < k < |history| :: OrderedAt(history, zero, window, cmp, k)
    requires Holds(history, zero, window, cmp, Best, history[p], p + 1)
    requires Holds(history, zero, window, cmp, Second, history[q], q + 1)
    requires Holds(history, zero, window, cmp, Third, history[r], r + 1)
    ensures Holds(history, zero, window, cmp, Third, history[r], n)
  {
    forall k | r + 1 <= k < n ensures Keeps(history, zero, window, cmp, Third, history[r], k) {
      if Holds(history, zero, window, cmp, Third, history[r], k) {
        BestSince(history, zero, window, cmp, p, k);
        SecondSince(history, zero, window, cmp, p, q, k);
        ThirdStep(history, zero, window, cmp, p, q, r, k);
      }
    }
    KeptOn(history, zero, window, cmp, Third, history[r], r + 1, n);
  }

  /** While the peak is in the window, the second estimate is the runner-up. */
  lemma SecondIsRunnerUp<V(!new)>(history: seq<Entry<V>>, zero: V, window: int, cmp: Comparator<V>, p: nat, q: nat)
    requires TotalPreorder(cmp) && window >= 0 && InOrder(history) && PeakInWindow(history, zero, window, cmp, p)
    requires RunnerUp(history, window, cmp, p, q)
    ensures Filtered(history, zero, window, cmp).second == history[q]
    ensures Holds(history, zero, window, cmp, Best, history[p], p + 1)
    ensures Holds(history, zero, window, cmp, Second, history[q], q + 1)
  {
    AllOrdered(history, zero, window, cmp);
    BestStarts(history, zero, window, cmp, p);
    BestSince(history, zero, window, cmp, p, q);
    SecondGivesWay(history, zero, window, cmp, p, q);
    SecondStarts(history, zero, window, cmp, p, q);
    SecondSince(history, zero, window, cmp, p, q, |history|);
    assert history[..|history|] == history;
  }

  /** And the third is the next in line. */
  lemma ThirdIsNextInLine<V(!new)>(history: seq<Entry<V>>, zero: V, window: int, cmp: Comparator<V>, p: nat, q: nat, r: nat)
    requires TotalPreorder(cmp) && window >= 0 && InOrder(history) && PeakInWindow(history, zero, window, cmp, p)
    requires RunnerUp(history, window, cmp, p, q) && ThirdInLine(history, window, cmp, q, r)
    ensures Filtered(history, zero, window, cmp).third == history[r]
  {
    AllOrdered(history, zero, window, cmp);
    SecondIsRunnerUp(history, zero, window, cmp, p, q);
    BestSince(history, zero, window, cmp, p, r);
    SecondSince(history, zero, window, cmp, p, q, r);
    ThirdGivesWay(history, zero, window, cmp, q, r);
    ThirdStarts(history, zero, window, cmp, p, q, r);
    ThirdSince(history, zero, window, cmp, p, q, r, |history|);
    assert history[..|history|] == history;
  }

  /** What an expired best gives way to. */
  lemma ExpiryPromotes<V>(f: Estimates<V>, s: Entry<V>, zero: V, window: int, cmp: Comparator<V>)
    requires cmp(f.best.sample, zero) != 0 && cmp(s.sample, f.best.sample) < 0
    requires s.time - f.best.time > window && s.time - f.third.time <= window && window >= 0
    ensures var best := Updated(f, s, zero, window, cmp).best;
            if s.time - f.second.time <= window then
              best == if cmp(s.sample, f.second.sample) >= 0 then s else f.second
            else
              best == if cmp(s.sample, f.second.sample) >= 0 || cmp(s.sample, f.third.sample) >= 0 then s else f.third
  {
  }

  lemma InitInOrder<V>(history: seq<Entry<V>>, s: Entry<V>)
    requires InOrder(history + [s])
    ensures InOrder(history) && (history + [s])[..|history|] == history
  {
    forall i, j | 0 <= i < j < |history| ensures history[i].time <= history[j].time {
      assert (history + [s])[i].time <= (history + [s])[j].time;
    }
  }

  /** When the peak leaves the window, the runner-up takes over, or the third in line when the
      runner-up has left it too. */
  lemma RunnerUpTakesOver<V(!new)>(history: seq<Entry<V>>, s: Entry<V>, zero: V, window: int, cmp: Comparator<V>, p: nat, q: nat, r: nat)
    requires TotalPreorder(cmp) && window >= 0 && InOrder(history + [s]) && PeakInWindow(history, zero, window, cmp, p)
    requires RunnerUp(history, window, cmp, p, q) && ThirdInLine(history, window, cmp, q, r)
    requires PeakFrom(history + [s], cmp, q + 1, r)
    requires s.time - history[p].time > window && s.time - history[r].time <= window
    ensures Filtered(history + [s], zero, window, cmp).best
         == if s.time - history[q].time <= window then history[q] else history[r]
  {
    InitInOrder(history, s);
    BestIsPeak(history, zero, window, cmp, p);
    SecondIsRunnerUp(history, zero, window, cmp, p, q);
    ThirdIsNextInLine(history, zero, window, cmp, p, q, r);
    BelowAll(history, s, cmp, p, q, r);
    ExpiryPromotes(Filtered(history, zero, window, cmp), s, zero, window, cmp);
  }

  lemma BelowAll<V(!new)>(history: seq<Entry<V>>, s: Entry<V>, cmp: Comparator<V>, p: nat, q: nat, r: nat)
    requires TotalPreorder(cmp) && PeakFrom(history, cmp, 0, p) && PeakFrom(history, cmp, p + 1, q)
    requires PeakFrom(history + [s], cmp, q + 1, r) && r < |history|
    ensures cmp(s.sample, history[p].sample) < 0 && cmp(s.sample, history[q].sample) < 0 && cmp(s.sample, history[r].sample) < 0
  {
    assert (history + [s])[|history|] == s && (history + [s])[r] == history[r];
    assert cmp(history[r].sample, history[q].sample) < 0 && cmp(history[q].sample, history[p].sample) < 0;
    Below(cmp, s.sample, history[r].sample, history[q].sample);
    Below(cmp, s.sample, history[q].sample, history[p].sample);
  }

  lemma Below<V(!new)>(cmp: Comparator<V>, a: V, b: V, c: V)
    requires TotalPreorder(cmp) && cmp(a, b) < 0 && cmp(b, c) < 0
    ensures cmp(a, c) < 0
  {
    assert cmp(c, b) >= 0;
    assert cmp(a, c) >= 0 ==> cmp(a, b) >= 0;
  }

  /** The best estimate gives way only when it is zero-valued, to a sample that beats or ties it, or
      when it has left the window. */
  lemma BestGivesWay<V(!new)>(history: seq<Entry<V>>, s: Entry<V>, zero: V, window: int, cmp: Comparator<V>)
    requires TotalPreorder(cmp) && window >= 0 && history != [] && InOrder(history + [s])
    requires Filtered(history + [s], zero, window, cmp).best != Filtered(history, zero, window, cmp).best
    ensures var best := Filtered(history, zero, window, cmp).best;
            cmp(best.sample, zero) == 0 || cmp(s.sample, best.sample) >= 0 || s.time - best.time > window
  {
    InitInOrder(history, s);
    var f := InitTracks(history + [s], zero, window, cmp);
    if !(cmp(f.best.sample, zero) == 0 || cmp(s.sample, f.best.sample) >= 0 || s.time - f.best.time > window) {
      BestStays(f, s, zero, window, cmp);
    }
  }

  /** After an expiry that is not a reset, the best is at least every sample since the old second
      estimate, or since the old third when the second has left the window too. */
  lemma BestAfterExpiry<V(!new)>(history: seq<Entry<V>>, s: Entry<V>, zero: V, window: int, cmp: Comparator<V>) returns (q: nat, r: nat)
    requires TotalPreorder(cmp) && window >= 0 && history != [] && InOrder(history + [s])
    requires var f := Filtered(history, zero, window, cmp);
             && cmp(f.best.sample, zero) != 0 && cmp(s.sample, f.best.sample) < 0
             && s.time - f.best.time > window && s.time - f.third.time <= window
    ensures var f := Filtered(history, zero, window, cmp);
            && MaxFrom(history, cmp, q, f.second) && MaxFrom(history, cmp, r, f.third)
            && var since := if s.time - f.second.time <= window then q else r;
            forall i | since <= i < |history + [s]| ::
              cmp(Filtered(history + [s], zero, window, cmp).best.sample, (history + [s])[i].sample) >= 0
  {
    InitInOrder(history, s);
    var f := InitTracks(history + [s], zero, window, cmp);
    var p: nat;
    p, q, r :| TracksAt(f, history, cmp, p, q, r);
    ExpiryPromotes(f, s, zero, window, cmp);
    AtLeastSince(history, s, cmp, q, f.second);
    AtLeastSince(history, s, cmp, r, f.third);
    NewestIsMax(history, cmp, s);
  }

  /** The larger of a suffix maximum and the next sample is the maximum of the longer suffix. */
  lemma AtLeastSince<V(!new)>(history: seq<Entry<V>>, s: Entry<V>, cmp: Comparator<V>, q: nat, e: Entry<V>)
    requires TotalPreorder(cmp) && MaxFrom(history, cmp, q, e)
    ensures cmp(s.sample, e.sample) < 0 ==> forall i | q <= i < |history + [s]| :: cmp(e.sample, (history + [s])[i].sample) >= 0
    ensures cmp(s.sample, e.sample) >= 0 ==> forall i | q <= i < |history + [s]| :: cmp(s.sample, (history + [s])[i].sample) >= 0
  {
  }

  /** A sample of the window, later than the old second estimate, can be missed when the second expires
      with the best: in a window of 10, after 9, 8, 7 and 6 at the times 0, 3, 4 and 9, a sample at 14
      leaves 6 as the best, though 7 is still in the window. */
  lemma ExpiryCanMissASample(x: int)
    requires x < 6
    ensures var h := [Entry(9, 0)] + [Entry(8, 3)] + [Entry(7, 4)] + [Entry(6, 9)];
            && Filtered(h, 0, 10, MaxFilter) == Estimates(Entry(9, 0), Entry(8, 3), Entry(6, 9))
            && Filtered(h + [Entry(x, 14)], 0, 10, MaxFilter).best == Entry(6, 9)
            && h[2] == Entry(7, 4) && 14 - h[2].time <= 10
  {
    var none: seq<Entry<int>> := [];
    var h1 := [Entry(9, 0)];
    var h2 := h1 + [Entry(8, 3)];
    var h3 := h2 + [Entry(7, 4)];
    var h4 := h3 + [Entry(6, 9)];
    assert none + [Entry(9, 0)] == h1;
    FilteredStep(none, Entry(9, 0), 0, 10, MaxFilter);
    FilteredStep(h1, Entry(8, 3), 0, 10, MaxFilter);
    FilteredStep(h2, Entry(7, 4), 0, 10, MaxFilter);
    FilteredStep(h3, Entry(6, 9), 0, 10, MaxFilter);
    FilteredStep(h4, Entry(x, 14), 0, 10, MaxFilter);
  }

  lemma MaxFilterIsPreorder()
    ensures TotalPreorder(MaxFilter)
  {
  }

  class WindowedFilter<V> {
    /** The zero value of the sample type, which marks estimates that no sample set yet. */
    const zero: V
    const comparator: Comparator<V>
    var windowLength: int
    var estimates: array<Entry<V>>

    ghost predicate Valid()
      reads this
    {
      estimates.Length == 3 && windowLength >= 0
    }

    ghost function Value(): Estimates<V>
      requires Valid()
      reads this, estimates
    {
      Estimates(estimates[0], estimates[1], estimates[2])
    }

    ghost function Repr(): set<object>
      reads this
    {
      {this, estimates}
    }

    constructor (zero: V, windowLength: nat, comparator: Comparator<V>)
      ensures Valid() && fresh(Repr())
      ensures Value() == Cleared(zero) && this.windowLength == windowLength
      ensures this.zero == zero && this.comparator == comparator
    {
      this.zero, this.comparator, this.windowLength := zero, comparator, windowLength;
      estimates := new Entry<V>[3](_ => Entry(zero, 0));
    }

    method SetWindowLength(windowLength: nat)
      requires Valid()
      modifies this
      ensures Valid() && this.windowLength == windowLength
      ensures estimates == old(estimates)
    {
      this.windowLength := windowLength;
    }

    function GetBest(): (best: V)
      requires Valid()
      reads this, estimates
      ensures best == Value().best.sample
    {
      estimates[0].sample
    }

    method Update(newSample: V, newTime: int)
      requires Valid()
      modifies estimates
      ensures Valid()
      ensures Value() == Updated(old(Value()), Entry(newSample, newTime), zero, windowLength, comparator)
    {
      if comparator(estimates[0].sample, zero) == 0
        || comparator(newSample, estimates[0].sample) >= 0
        || newTime - estimates[2].time > windowLength
      {
        Reset(newSample, newTime);
        return;
      }

      if comparator(newSample, estimates[1].sample) >= 0 {
        estimates[1] := Entry(newSample, newTime);
        estimates[2] := estimates[1];
      } else if comparator(newSample, estimates[2].sample) >= 0 {
        estimates[2] := Entry(newSample, newTime);
      }

      if newTime - estimates[0].time > windowLength {
        estimates[0] := estimates[1];
        estimates[1] := estimates[2];
        estimates[2] := Entry(newSample, newTime);
        if newTime - estimates[0].time > windowLength {
          estimates[0] := estimates[1];
          estimates[1] := estimates[2];
        }
        return;
      }
      if comparator(estimates[1].sample, estimates[0].sample) == 0
        && newTime - estimates[1].time > windowLength / 4
      {
        estimates[1] := Entry(newSample, newTime);
        estimates[2] := estimates[1];
        return;
      }
      if comparator(estimates[2].sample, estimates[1].sample) == 0
        && newTime - estimates[2].time > windowLength / 2
      {
        estimates[2] := Entry(newSample, newTime);
      }
    }

    method Reset(newSample: V, newTime: int)
      requires Valid()
      modifies estimates
      ensures Valid() && Value() == ResetTo(Entry(newSample, newTime))
    {
      estimates[2] := Entry(newSample, newTime);
      estimates[1] := estimates[2];
      estimates[0] := estimates[1];
    }

    method Clear()
      requires Valid()
      modifies this
      ensures Valid() && fresh(estimates) && Value() == Cleared(zero)
      ensures windowLength == old(windowLength)
    {
      var z := zero;
      estimates := new Entry<V>[3](_ => Entry(z, 0));
    }
  }
}
