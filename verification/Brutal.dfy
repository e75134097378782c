/** The Brutal sender (internal/congestion/brutal/brutal.go): it sends at a fixed rate, raised
    by the share of packets lost in the last five seconds. Five slots, indexed by the second
    modulo 5, stand in for the history of events. */
module Brutal {
  import opened Arith
  import P = Pacers

  const SLOTS := 5
  const MIN_SAMPLE_COUNT := 50
  const MIN_ACK_RATE: real := 0.8

  datatype Slot = Slot(timestamp: int, acked: nat, lost: nat)

  const EMPTY := Slot(0, 0, 0)

  /** A congestion event: its second, and how many packets it acked and lost. */
  datatype Event = Event(second: nat, acked: nat, lost: nat)

  function Counted(slot: Slot, e: Event): Slot {
    if slot.timestamp == e.second then Slot(e.second, slot.acked + e.acked, slot.lost + e.lost)
    else Slot(e.second, e.acked, e.lost)
  }

  function Recorded(slots: seq<Slot>, e: Event): seq<Slot>
    requires |slots| == SLOTS
  {
    slots[e.second % SLOTS := Counted(slots[e.second % SLOTS], e)]
  }

  /** What a slot adds to the sums: nothing when it is too old. */
  function CountedAcks(slot: Slot, oldest: int): nat {
    if slot.timestamp < oldest then 0 else slot.acked
  }

  function CountedLosses(slot: Slot, oldest: int): nat {
    if slot.timestamp < oldest then 0 else slot.lost
  }

  function SumAcked(slots: seq<Slot>, n: nat, oldest: int): nat
    requires n <= |slots|
  {
    if n == 0 then 0 else SumAcked(slots, n - 1, oldest) + CountedAcks(slots[n - 1], oldest)
  }

  function SumLost(slots: seq<Slot>, n: nat, oldest: int): nat
    requires n <= |slots|
  {
    if n == 0 then 0 else SumLost(slots, n - 1, oldest) + CountedLosses(slots[n - 1], oldest)
  }

  /** The ack rate for the counts of the window. */
  function AckRate(acked: nat, lost: nat): real {
    if acked + lost < MIN_SAMPLE_COUNT then 1.0
    else if acked as real / (acked + lost) as real < MIN_ACK_RATE then MIN_ACK_RATE
    else acked as real / (acked + lost) as real
  }

  /** The acks and losses of the events of one second in the history. */
  function AckedIn(history: seq<Event>, second: int): nat {
    if history == [] then 0
    else
      var last := |history| - 1;
      AckedIn(history[..last], second) + if history[last].second == second then history[last].acked else 0
  }

  function LostIn(history: seq<Event>, second: int): nat {
    if history == [] then 0
    else
      var last := |history| - 1;
      LostIn(history[..last], second) + if history[last].second == second then history[last].lost else 0
  }

  /** The acks and losses of the events in the five whole seconds up to second. */
  function RecentAcked(history: seq<Event>, second: int): nat {
    AckedIn(history, second) + AckedIn(history, second - 1) + AckedIn(history, second - 2)
    + AckedIn(history, second - 3) + AckedIn(history, second - 4)
  }

  function RecentLost(history: seq<Event>, second: int): nat {
    LostIn(history, second) + LostIn(history, second - 1) + LostIn(history, second - 2)
    + LostIn(history, second - 3) + LostIn(history, second - 4)
  }

  ghost predicate InOrder(history: seq<Event>) {
    forall i, j | 0 <= i < j < |history| :: history[i].second <= history[j].second
  }

  /** The slots after a whole history. */
  function SlotsAfter(history: seq<Event>): (slots: seq<Slot>)
    ensures |slots| == SLOTS
  {
    if history == [] then [EMPTY, EMPTY, EMPTY, EMPTY, EMPTY]
    else Recorded(SlotsAfter(history[..|history| - 1]), history[|history| - 1])
  }

  /** A slot of residue k holds the counts of the latest second of that residue that had an
      event, or is empty when there was none. */
  ghost predicate Faithful(slot: Slot, k: int, history: seq<Event>) {
    if slot.timestamp % SLOTS == k then
      && slot.timestamp >= 0
      && slot.acked == AckedIn(history, slot.timestamp) && slot.lost == LostIn(history, slot.timestamp)
      && NoneLater(history, k, slot.timestamp)
    else slot == EMPTY && NoneLater(history, k, -1)
  }

  ghost predicate NoneLater(history: seq<Event>, k: int, second: int) {
    forall i | 0 <= i < |history| && history[i].second % SLOTS == k :: history[i].second <= second
  }

  lemma {:induction false} NothingIn(history: seq<Event>, second: int)
    requires forall i | 0 <= i < |history| :: history[i].second != second
    ensures AckedIn(history, second) == 0 && LostIn(history, second) == 0
  {
    if history != [] {
      NothingIn(history[..|history| - 1], second);
    }
  }

  lemma OneMoreEvent(slot: Slot, k: int, history: seq<Event>, e: Event)
    requires Faithful(slot, k, history) && slot.timestamp <= e.second
    requires forall i | 0 <= i < |history| :: history[i].second <= e.second
    ensures Faithful(if e.second % SLOTS == k then Counted(slot, e) else slot, k, history + [e])
  {
    assert (history + [e])[..|history|] == history;
    if e.second % SLOTS == k && slot.timestamp != e.second {
      NothingIn(history, e.second);
    }
  }

  lemma {:induction false} SlotsFaithful(history: seq<Event>, k: nat)
    requires InOrder(history) && k < SLOTS
    ensures Faithful(SlotsAfter(history)[k], k, history)
  {
    if history != [] {
      var init, e := history[..|history| - 1], history[|history| - 1];
      SlotsFaithful(init, k);
      SlotNotAhead(init, k);
      OneMoreEvent(SlotsAfter(init)[k], k, init, e);
      assert init + [e] == history;
    }
  }

  /** The second of residue k among the five up to now. */
  function SecondOf(k: int, now: int): int {
    now - (now - k) % SLOTS
  }

  lemma SecondHasResidue(k: nat, now: int)
    requires k < SLOTS
    ensures SecondOf(k, now) % SLOTS == k && now - SLOTS < SecondOf(k, now) <= now
  {
  }

  /** A second of residue k up to now is SecondOf(k, now), or before the window. */
  lemma SameResidue(t: int, now: int, k: nat)
    requires k < SLOTS && t % SLOTS == k && t <= now
    ensures t == SecondOf(k, now) || (t <= now - SLOTS && t <= SecondOf(k, now) - SLOTS)
    ensures t == now - SLOTS ==> now % SLOTS == k
  {
    var d := now - t;
    assert (now - k) % SLOTS == d % SLOTS;
  }

  /** What a slot adds to the sums is what the history holds for its second. */
  lemma SlotCounts(history: seq<Event>, k: nat)
    requires InOrder(history) && history != [] && k < SLOTS
    ensures var now := history[|history| - 1].second;
            var slot := SlotsAfter(history)[k];
            && CountedAcks(slot, now - SLOTS) == AckedIn(history, SecondOf(k, now))
            && CountedLosses(slot, now - SLOTS) == LostIn(history, SecondOf(k, now))
  {
    var now := history[|history| - 1].second;
    var slot := SlotsAfter(history)[k];
    SlotsFaithful(history, k);
    SlotNotAhead(history, k);
    SecondHasResidue(k, now);
    if slot.timestamp % SLOTS == k {
      assert history[|history| - 1].second == now;
      SameResidue(slot.timestamp, now, k);
    }
    if slot.timestamp % SLOTS != k || slot.timestamp != SecondOf(k, now) {
      NothingIn(history, SecondOf(k, now));
    }
  }

  lemma {:induction false} SlotNotAhead(history: seq<Event>, k: nat)
    requires InOrder(history) && k < SLOTS
    ensures SlotsAfter(history)[k].timestamp <= if history == [] then 0 else history[|history| - 1].second
  {
    if history != [] {
      SlotNotAhead(history[..|history| - 1], k);
    }
  }

  /** The seconds of the five residues are the five seconds up to now, in some order. */
  lemma ResiduesAreRecent(count: int -> int, now: int)
    ensures count(SecondOf(0, now)) + count(SecondOf(1, now)) + count(SecondOf(2, now)) + count(SecondOf(3, now))
          + count(SecondOf(4, now))
         == count(now) + count(now - 1) + count(now - 2) + count(now - 3) + count(now - 4)
  {
    var s0, s1, s2, s3, s4 := SecondOf(0, now), SecondOf(1, now), SecondOf(2, now), SecondOf(3, now), SecondOf(4, now);
    SecondsOf(now);
    FiveInOrder(now % SLOTS, now, s0, s1, s2, s3, s4);
    if s0 == now {
    } else if s1 == now {
    } else if s2 == now {
    } else if s3 == now {
    } else {
      assert s4 == now;
    }
  }

  /** Five seconds that go round the slots: the one at now is at residue r, and each slot before it
      holds the second before. */
  lemma FiveInOrder(r: nat, now: int, s0: int, s1: int, s2: int, s3: int, s4: int)
    requires r < 5
    requires s0 == now - r && s1 == (if r >= 1 then now - r + 1 else now - 4) && s2 == (if r >= 2 then now - r + 2 else now - r - 3)
    requires s3 == (if r >= 3 then now - r + 3 else now - r - 2) && s4 == (if r >= 4 then now else now - r - 1)
    ensures || (s0 == now && s1 == now - 4 && s2 == now - 3 && s3 == now - 2 && s4 == now - 1)
            || (s0 == now - 1 && s1 == now && s2 == now - 4 && s3 == now - 3 && s4 == now - 2)
            || (s0 == now - 2 && s1 == now - 1 && s2 == now && s3 == now - 4 && s4 == now - 3)
            || (s0 == now - 3 && s1 == now - 2 && s2 == now - 1 && s3 == now && s4 == now - 4)
            || (s0 == now - 4 && s1 == now - 3 && s2 == now - 2 && s3 == now - 1 && s4 == now)
  {
  }

  /** Slot k holds the second now - r + k, or the one five seconds before when that is ahead. */
  lemma SecondsOf(now: int)
    ensures var r := now % SLOTS;
      && SecondOf(0, now) == now - r
      && SecondOf(1, now) == (if r >= 1 then now - r + 1 else now - 4)
      && SecondOf(2, now) == (if r >= 2 then now - r + 2 else now - r - 3)
      && SecondOf(3, now) == (if r >= 3 then now - r + 3 else now - r - 2)
      && SecondOf(4, now) == (if r >= 4 then now else now - r - 1)
  {
  }

  /** What the slots add up to, by the seconds of the five residues. */
  lemma {:induction false} SlotSums(history: seq<Event>)
    requires InOrder(history) && history != []
    ensures var now := history[|history| - 1].second;
            && SumAcked(SlotsAfter(history), SLOTS, now - SLOTS)
               == AckedIn(history, SecondOf(0, now)) + AckedIn(history, SecondOf(1, now)) + AckedIn(history, SecondOf(2, now))
                + AckedIn(history, SecondOf(3, now)) + AckedIn(history, SecondOf(4, now))
            && SumLost(SlotsAfter(history), SLOTS, now - SLOTS)
               == LostIn(history, SecondOf(0, now)) + LostIn(history, SecondOf(1, now)) + LostIn(history, SecondOf(2, now))
                + LostIn(history, SecondOf(3, now)) + LostIn(history, SecondOf(4, now))
  {
    var now := history[|history| - 1].second;
    FiveSums(SlotsAfter(history), now - SLOTS);
    SlotCounts(history, 0);
    SlotCounts(history, 1);
    SlotCounts(history, 2);
    SlotCounts(history, 3);
    SlotCounts(history, 4);
  }

  /** The five slots agree with the whole history: with times that do not go back, the sums over
      the slots are the acks and losses of the events in the last five whole seconds. */
  lemma {:induction false} SlotsCountTheWindow(history: seq<Event>)
    requires InOrder(history) && history != []
    ensures SumAcked(SlotsAfter(history), SLOTS, history[|history| - 1].second - SLOTS)
         == RecentAcked(history, history[|history| - 1].second)
    ensures SumLost(SlotsAfter(history), SLOTS, history[|history| - 1].second - SLOTS)
         == RecentLost(history, history[|history| - 1].second)
  {
    var now := history[|history| - 1].second;
    SlotSums(history);
    AckedByResidue(history, now);
    LostByResidue(history, now);
  }

  lemma AckedByResidue(history: seq<Event>, now: int)
    ensures RecentAcked(history, now)
         == AckedIn(history, SecondOf(0, now)) + AckedIn(history, SecondOf(1, now)) + AckedIn(history, SecondOf(2, now))
          + AckedIn(history, SecondOf(3, now)) + AckedIn(history, SecondOf(4, now))
  {
    ResiduesAreRecent(s => AckedIn(history, s), now);
  }

  lemma LostByResidue(history: seq<Event>, now: int)
    ensures RecentLost(history, now)
         == LostIn(history, SecondOf(0, now)) + LostIn(history, SecondOf(1, now)) + LostIn(history, SecondOf(2, now))
          + LostIn(history, SecondOf(3, now)) + LostIn(history, SecondOf(4, now))
  {
    ResiduesAreRecent(s => LostIn(history, s), now);
  }

  lemma FiveSums(slots: seq<Slot>, oldest: int)
    requires |slots| == SLOTS
    ensures SumAcked(slots, SLOTS, oldest)
         == CountedAcks(slots[0], oldest) + CountedAcks(slots[1], oldest) + CountedAcks(slots[2], oldest)
          + CountedAcks(slots[3], oldest) + CountedAcks(slots[4], oldest)
    ensures SumLost(slots, SLOTS, oldest)
         == CountedLosses(slots[0], oldest) + CountedLosses(slots[1], oldest) + CountedLosses(slots[2], oldest)
          + CountedLosses(slots[3], oldest) + CountedLosses(slots[4], oldest)
  {
    assert SumAcked(slots, 4, oldest) == SumAcked(slots, 3, oldest) + CountedAcks(slots[3], oldest);
    assert SumAcked(slots, 3, oldest) == SumAcked(slots, 2, oldest) + CountedAcks(slots[2], oldest);
    assert SumAcked(slots, 2, oldest) == SumAcked(slots, 1, oldest) + CountedAcks(slots[1], oldest);
    assert SumLost(slots, 4, oldest) == SumLost(slots, 3, oldest) + CountedLosses(slots[3], oldest);
    assert SumLost(slots, 3, oldest) == SumLost(slots, 2, oldest) + CountedLosses(slots[2], oldest);
    assert SumLost(slots, 2, oldest) == SumLost(slots, 1, oldest) + CountedLosses(slots[1], oldest);
  }

  lemma AckRateBounds(acked: nat, lost: nat)
    ensures MIN_ACK_RATE <= AckRate(acked, lost) <= 1.0
  {
    if acked + lost >= MIN_SAMPLE_COUNT {
      var a, n := acked as real, (acked + lost) as real;
      assert a <= n;
      assert a / n <= 1.0;
    }
  }

  /** The pacing rate: the configured rate over the ack rate. */
  function PacingRate(bps: nat, ackRate: real): int
    requires ackRate > 0.0
  {
    (bps as real / ackRate).Floor
  }

  /** Losses raise the pacing rate by at most a quarter. */
  lemma PacingRateBounds(bps: nat, acked: nat, lost: nat)
    ensures AckRate(acked, lost) > 0.0
    ensures bps <= PacingRate(bps, AckRate(acked, lost)) <= Quotient(5 * bps, 4)
  {
    AckRateBounds(acked, lost);
    var r, q := AckRate(acked, lost), bps as real / AckRate(acked, lost);
    assert q * r == bps as real;
    RealRatio(q, r, bps as real);
  }

  lemma RealRatio(q: real, r: real, x: real)
    requires x >= 0.0 && 0.8 <= r <= 1.0 && q * r == x
    ensures x <= q <= 1.25 * x
  {
    assert q < 0.0 ==> q * r < 0.0;
    assert q >= 0.0 ==> q * 0.8 <= q * r <= q * 1.0;
  }

  /** The rate for the counts of the window leaves the configured rate after the losses: the acked
      share of it is bps, up to rounding. With few samples or no loss it is bps itself, and below
      four acks in five it is raised no further than to 5/4 of bps. */
  predicate Compensates(rate: int, bps: nat, acked: nat, lost: nat) {
    var n := acked + lost;
    if n < 50 || lost == 0 then rate == bps
    else if 5 * acked >= 4 * n then bps * n - acked < rate * acked <= bps * n
    else rate == Quotient(5 * bps, 4)
  }

  lemma RateCompensates(bps: nat, acked: nat, lost: nat)
    ensures AckRate(acked, lost) > 0.0 && Compensates(PacingRate(bps, AckRate(acked, lost)), bps, acked, lost)
  {
    AckRateBounds(acked, lost);
    var a, n := acked as real, (acked + lost) as real;
    if acked + lost >= 50 {
      ShareAtLeast(acked, acked + lost);
      if lost == 0 {
        assert a / n == 1.0;
      } else if 5 * acked >= 4 * (acked + lost) {
        AckedShare(bps, acked, acked + lost);
      } else {
        FiveQuarters(bps);
      }
    }
  }

  lemma ShareAtLeast(acked: nat, total: nat)
    requires total > 0
    ensures acked as real / total as real >= 0.8 <==> 5 * acked >= 4 * total
  {
    var x, n := acked as real / total as real, total as real;
    assert x * n == acked as real;
    if x >= 0.8 {
      TimesReal(0.8, x, n);
    } else {
      TimesBelow(x, 0.8, n);
      assert (5 * acked) as real < (4 * total) as real;
    }
  }

  lemma TimesReal(x: real, y: real, d: real)
    requires x <= y && 0.0 <= d
    ensures x * d <= y * d
  {
  }

  lemma TimesBelow(x: real, y: real, d: real)
    requires x < y && 0.0 < d
    ensures x * d < y * d
  {
  }

  lemma CastTimes(x: int, a: nat)
    ensures (x * a) as real == x as real * a as real
  {
    if a > 0 {
      CastTimes(x, a - 1);
      assert x * a == x * (a - 1) + x;
      assert x as real * a as real == x as real * (a - 1) as real + x as real;
    }
  }

  lemma AckedShare(bps: nat, acked: nat, total: nat)
    requires 0 < acked && 0 < total && acked as real / total as real > 0.0
    ensures var rate := (bps as real / (acked as real / total as real)).Floor;
            bps * total - acked < rate * acked <= bps * total
  {
    var a, n, b := acked as real, total as real, bps as real;
    var q := b / (a / n);
    assert q * (a / n) == b;
    assert q * a == b * n by {
      assert q * (a / n) * n == b * n;
      assert a / n * n == a;
      assert q * (a / n) * n == q * (a / n * n);
    }
    FloorTimes(q, acked, bps * total);
  }

  lemma AtLeastTimes(q: real, r: int, a: nat, x: int)
    requires a > 0 && q * a as real == x as real && r as real <= q
    ensures r * a <= x
  {
    TimesReal(r as real, q, a as real);
    CastTimes(r, a);
  }

  lemma BelowTimes(q: real, r: int, a: nat, x: int)
    requires a > 0 && q * a as real == x as real && q < r as real
    ensures x < r * a
  {
    TimesBelow(q, r as real, a as real);
    CastTimes(r, a);
  }

  lemma FloorTimes(q: real, a: nat, x: int)
    requires a > 0 && q * a as real == x as real
    ensures x - a < q.Floor * a <= x
  {
    var r := q.Floor;
    AtLeastTimes(q, r, a, x);
    BelowTimes(q, r + 1, a, x);
    assert (r + 1) * a == r * a + a;
  }

  lemma FiveQuarters(bps: nat)
    ensures (bps as real / 0.8).Floor == Quotient(5 * bps, 4)
  {
    var x := bps as real / 0.8;
    var q := x.Floor;
    assert 4.0 * x == (5 * bps) as real;
    assert q as real <= x < q as real + 1.0;
    assert (4 * q) as real <= (5 * bps) as real < (4 * q + 4) as real;
  }

  /** The ack rate of a sender after a history of events. */
  function RateAfter(history: seq<Event>): real {
    if history == [] then 1.0
    else
      var oldest := history[|history| - 1].second - SLOTS;
      AckRate(SumAcked(SlotsAfter(history), SLOTS, oldest), SumLost(SlotsAfter(history), SLOTS, oldest))
  }

  /** Whatever the history of events, in order: the rate paced at compensates the losses of the last
      five seconds of that history. */
  lemma WindowCompensates(bps: nat, history: seq<Event>)
    requires InOrder(history) && history != []
    ensures var now := history[|history| - 1].second;
            && RateAfter(history) > 0.0
            && Compensates(PacingRate(bps, RateAfter(history)), bps, RecentAcked(history, now), RecentLost(history, now))
  {
    var now := history[|history| - 1].second;
    SlotsCountTheWindow(history);
    RateCompensates(bps, RecentAcked(history, now), RecentLost(history, now));
  }

  /** The pacer of a Brutal sender: each send sees the pacing rate of the ack rate of its moment. */
  ghost predicate PacedBy(steps: seq<P.Step>, bps: nat) {
    forall i | 0 <= i < |steps| && steps[i].Send? ::
      exists acked: nat, lost: nat {:trigger AckRate(acked, lost)} ::
        AckRate(acked, lost) > 0.0 && steps[i].bw == PacingRate(bps, AckRate(acked, lost))
  }

  lemma PacedIsMetered(b: P.Bucket, steps: seq<P.Step>, bps: nat, delay: int)
    requires PacedBy(steps, bps) && P.WithinBudget(b, steps, delay)
    ensures P.Metered(b, steps, Quotient(5 * bps, 4), delay)
  {
    forall i | 0 <= i < |steps| && steps[i].Send? ensures 0 <= steps[i].bw <= Quotient(5 * bps, 4) {
      var acked: nat, lost: nat :| AckRate(acked, lost) > 0.0 && steps[i].bw == PacingRate(bps, AckRate(acked, lost));
      PacingRateBounds(bps, acked, lost);
    }
  }

  /** Over any run of sends within budget, a Brutal sender puts out no more than one burst at 5/4
      of its rate and what 5/4 of its rate carries in that time. */
  lemma BytesBound(b: P.Bucket, steps: seq<P.Step>, bps: nat, delay: nat)
    requires b.budgetAtLastSent >= 0 && b.maxDatagramSize >= 0 && steps != [] && steps[0].Send?
    requires PacedBy(steps, bps) && P.WithinBudget(b, steps, delay)
    ensures P.BytesSent(steps)
         <= P.MaxBurst(b.maxDatagramSize, Quotient(5 * bps, 4), delay)
          + Quotient(Quotient(5 * bps, 4) * (P.LastTime(b.lastSentTime, steps) - steps[0].time), NANOS)
  {
    PacedIsMetered(b, steps, bps, delay);
    P.TokenBucketBound(b, steps, Quotient(5 * bps, 4), delay);
  }

  class BrutalSender {
    const bps: nat
    const disableLossCompensation: bool
    const pktInfoSlots: array<Slot>
    var ackRate: real
    ghost var history: seq<Event>

    ghost predicate Valid()
      reads this, pktInfoSlots
    {
      && pktInfoSlots.Length == SLOTS && MIN_ACK_RATE <= ackRate <= 1.0
      && pktInfoSlots[..] == SlotsAfter(history)
      && ackRate == if disableLossCompensation then 1.0 else RateAfter(history)
    }

    constructor (bps: nat, disableLossCompensation: bool)
      ensures Valid() && fresh(pktInfoSlots) && history == []
      ensures this.bps == bps && this.disableLossCompensation == disableLossCompensation
    {
      this.bps, this.disableLossCompensation := bps, disableLossCompensation;
      pktInfoSlots := new Slot[SLOTS](_ => EMPTY);
      ackRate, history := 1.0, [];
    }

    /** The bandwidth callback of the pacer: with events in order, it compensates the losses of the last
        five seconds. */
    function PacerBandwidth(): (bw: int)
      requires Valid()
      reads this, pktInfoSlots
      ensures disableLossCompensation || history == [] ==> bw == bps
      ensures !disableLossCompensation && history != [] && InOrder(history) ==>
                var now := history[|history| - 1].second;
                Compensates(bw, bps, RecentAcked(history, now), RecentLost(history, now))
    {
      assert !disableLossCompensation && history != [] && InOrder(history) ==>
          var now := history[|history| - 1].second;
          Compensates(PacingRate(bps, ackRate), bps, RecentAcked(history, now), RecentLost(history, now)) by {
        if history != [] && InOrder(history) {
          WindowCompensates(bps, history);
        }
      }
      PacingRate(bps, ackRate)
    }

    method OnCongestionEventEx(eventTime: nat, ackedPackets: nat, lostPackets: nat)
      requires Valid()
      modifies this, pktInfoSlots
      ensures Valid() && history == old(history) + [Event(eventTime / NANOS, ackedPackets, lostPackets)]
    {
      var currentTimestamp := eventTime / NANOS;
      CountEvent(currentTimestamp, ackedPackets, lostPackets);
      UpdateAckRate(currentTimestamp);
    }

    /** The slot of the event's second. */
    method CountEvent(currentTimestamp: nat, ackedPackets: nat, lostPackets: nat)
      requires pktInfoSlots.Length == SLOTS && pktInfoSlots[..] == SlotsAfter(history)
      modifies pktInfoSlots, `history
      ensures history == old(history) + [Event(currentTimestamp, ackedPackets, lostPackets)]
      ensures pktInfoSlots[..] == SlotsAfter(history)
    {
      ghost var before := pktInfoSlots[..];
      var slot := currentTimestamp % SLOTS;
      if pktInfoSlots[slot].timestamp == currentTimestamp {
        pktInfoSlots[slot] := Slot(currentTimestamp, pktInfoSlots[slot].acked + ackedPackets, pktInfoSlots[slot].lost + lostPackets);
      } else {
        pktInfoSlots[slot] := Slot(currentTimestamp, ackedPackets, lostPackets);
      }
      history := history + [Event(currentTimestamp, ackedPackets, lostPackets)];
      assert history[..|history| - 1] == old(history);
      assert pktInfoSlots[..] == Recorded(before, history[|history| - 1]);
    }

    method UpdateAckRate(currentTimestamp: int)
      requires pktInfoSlots.Length == SLOTS
      modifies `ackRate
      ensures MIN_ACK_RATE <= ackRate <= 1.0
      ensures ackRate == if disableLossCompensation then 1.0
                         else AckRate(SumAcked(pktInfoSlots[..], SLOTS, currentTimestamp - SLOTS),
                                      SumLost(pktInfoSlots[..], SLOTS, currentTimestamp - SLOTS))
    {
      if disableLossCompensation {
        ackRate := 1.0;
        return;
      }
      var minTimestamp := currentTimestamp - SLOTS;
      var ackCount, lossCount := 0, 0;
      for i := 0 to SLOTS
        invariant ackCount == SumAcked(pktInfoSlots[..], i, minTimestamp)
        invariant lossCount == SumLost(pktInfoSlots[..], i, minTimestamp)
      {
        if pktInfoSlots[i].timestamp < minTimestamp {
          continue;
        }
        ackCount := ackCount + pktInfoSlots[i].acked;
        lossCount := lossCount + pktInfoSlots[i].lost;
      }
      AckRateBounds(ackCount, lossCount);
      if ackCount + lossCount < MIN_SAMPLE_COUNT {
        ackRate := 1.0;
        return;
      }
      var rate := ackCount as real / (ackCount + lossCount) as real;
      if rate < MIN_ACK_RATE {
        ackRate := MIN_ACK_RATE;
        return;
      }
      ackRate := rate;
    }
  }
}
