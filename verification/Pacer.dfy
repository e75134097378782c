/** The token bucket that meters packets out (internal/congestion/common/pacer.go). Times are
    nanoseconds, bandwidths bytes per second. The bandwidth callback is the parameter bw: what
    it returns at the call. delay is MinPacingDelay of the QUIC library, in nanoseconds. */
module Pacers {
  import opened Arith

  const MAX_BURST_PACKETS := 10
  const MAX_BURST_DELAYS := 4

  datatype Bucket = Bucket(budgetAtLastSent: int, maxDatagramSize: int, lastSentTime: int)

  /** What the constructor sets up and every call keeps. */
  predicate InUse(b: Bucket) {
    b.budgetAtLastSent >= 0 && b.maxDatagramSize > 0 && b.lastSentTime >= 0
  }

  function MaxBurst(datagram: int, bw: int, delay: int): int {
    Max(Quotient(MAX_BURST_DELAYS * delay * bw, NANOS), MAX_BURST_PACKETS * datagram)
  }

  function Budget(b: Bucket, now: int, bw: int, delay: int): int {
    if b.lastSentTime == 0 then MaxBurst(b.maxDatagramSize, bw, delay)
    else
      var budget := b.budgetAtLastSent + Quotient(bw * (now - b.lastSentTime), NANOS);
      Min(MaxBurst(b.maxDatagramSize, bw, delay), if budget < 0 then 0x3FFF_FFFF_FFFF_FFFF else budget)
  }

  function Sent(b: Bucket, time: int, size: int, bw: int, delay: int): Bucket {
    var budget := Budget(b, time, bw, delay);
    b.(budgetAtLastSent := if size > budget then 0 else budget - size, lastSentTime := time)
  }

  /** Zero: a packet can go at once. */
  function ReadyAt(b: Bucket, bw: int, delay: int): int
    requires bw > 0
  {
    if b.budgetAtLastSent >= b.maxDatagramSize then 0
    else
      var diff := NANOS * (b.maxDatagramSize - b.budgetAtLastSent);
      b.lastSentTime + Max(delay, if diff % bw > 0 then diff / bw + 1 else diff / bw)
  }

  datatype Step = Send(time: int, size: int, bw: int) | Resize(datagram: int)

  function Stepped(b: Bucket, s: Step, delay: int): Bucket {
    match s
    case Send(time, size, bw) => Sent(b, time, size, bw, delay)
    case Resize(datagram) => b.(maxDatagramSize := datagram)
  }

  function BytesSent(steps: seq<Step>): int {
    if steps == [] then 0
    else (if steps[0].Send? then steps[0].size else 0) + BytesSent(steps[1..])
  }

  /** The time of the last send, or start when there is none. */
  function LastTime(start: int, steps: seq<Step>): int
    decreases |steps|
  {
    if steps == [] then start
    else LastTime(if steps[0].Send? then steps[0].time else start, steps[1..])
  }

  predicate HasSend(steps: seq<Step>) {
    exists k :: 0 <= k < |steps| && steps[k].Send?
  }

  /** Every send is within the budget of its moment, and times do not go back. The clock is
      positive at every send that another one follows: the pacer takes a last send at time zero for
      none. */
  ghost predicate WithinBudget(b: Bucket, steps: seq<Step>, delay: int)
    decreases |steps|
  {
    steps != [] ==>
      && (steps[0].Send? ==>
            && 0 <= steps[0].time && b.lastSentTime <= steps[0].time && (HasSend(steps[1..]) ==> 0 < steps[0].time)
            && 0 <= steps[0].size <= Budget(b, steps[0].time, steps[0].bw, delay))
      && WithinBudget(Stepped(b, steps[0], delay), steps[1..], delay)
  }

  /** Such a run whose sends see no more than a bandwidth. */
  ghost predicate Metered(b: Bucket, steps: seq<Step>, bw: int, delay: int) {
    WithinBudget(b, steps, delay) && forall i | 0 <= i < |steps| && steps[i].Send? :: 0 <= steps[i].bw <= bw
  }

  lemma LaterSend(steps: seq<Step>)
    requires steps != [] && HasSend(steps[1..])
    ensures HasSend(steps)
  {
    var k :| 0 <= k < |steps[1..]| && steps[1..][k].Send?;
    assert steps[k + 1].Send?;
  }

  /** Leftovers add up: what came in up to a send at t, and from there to an end. */
  lemma EarnedUntil(seen: int, bw: int, last: int, t: int, end: int)
    requires 0 <= seen <= bw && last <= t <= end
    ensures Quotient(seen * (t - last), NANOS) + Quotient(bw * (end - t), NANOS) <= Quotient(bw * (end - last), NANOS)
  {
    Product(seen, bw, t - last, t - last);
    QuotientMonotone(seen * (t - last), bw * (t - last));
    Product(0, bw, 0, end - t);
    QuotientSum(bw * (t - last), bw * (end - t));
    assert bw * (t - last) + bw * (end - t) == bw * (end - last);
  }

  lemma SendLeaves(b: Bucket, t: int, size: int, bw: int, delay: int)
    requires 0 < b.lastSentTime <= t && b.budgetAtLastSent >= 0 && bw >= 0 && 0 <= size <= Budget(b, t, bw, delay)
    ensures var b' := Sent(b, t, size, bw, delay);
            && b'.lastSentTime == t && 0 <= b'.budgetAtLastSent
            && b'.budgetAtLastSent + size <= b.budgetAtLastSent + Quotient(bw * (t - b.lastSentTime), NANOS)
  {
    Product(0, bw, 0, t - b.lastSentTime);
  }

  /** What a bucket that has sent before lets out over a run of steps, leftover included. */
  lemma {:induction false} LeftoverBound(b: Bucket, steps: seq<Step>, bw: int, delay: int)
    requires b.lastSentTime >= 0 && (HasSend(steps) ==> b.lastSentTime > 0) && b.budgetAtLastSent >= 0 && bw >= 0
    requires Metered(b, steps, bw, delay)
    ensures LastTime(b.lastSentTime, steps) >= b.lastSentTime
    ensures BytesSent(steps) <= b.budgetAtLastSent + Quotient(bw * (LastTime(b.lastSentTime, steps) - b.lastSentTime), NANOS)
    decreases |steps|
  {
    if steps != [] {
      var b', rest := Stepped(b, steps[0], delay), steps[1..];
      if HasSend(rest) {
        LaterSend(steps);
      }
      if steps[0].Send? {
        assert HasSend(steps);
        SendLeaves(b, steps[0].time, steps[0].size, steps[0].bw, delay);
      }
      LeftoverBound(b', rest, bw, delay);
      if steps[0].Send? {
        EarnedUntil(steps[0].bw, bw, b.lastSentTime, steps[0].time, LastTime(steps[0].time, rest));
      }
    }
  }

  /** The token bucket bound: from any state, a run of sends within budget puts out no more than
      one burst and what the bandwidth carries between its first and its last send. */
  lemma TokenBucketBound(b: Bucket, steps: seq<Step>, bw: int, delay: int)
    requires b.budgetAtLastSent >= 0 && b.maxDatagramSize >= 0 && bw >= 0 && delay >= 0
    requires steps != [] && steps[0].Send? && Metered(b, steps, bw, delay)
    ensures BytesSent(steps)
         <= MaxBurst(b.maxDatagramSize, bw, delay) + Quotient(bw * (LastTime(b.lastSentTime, steps) - steps[0].time), NANOS)
  {
    var b' := Stepped(b, steps[0], delay);
    LeftoverBound(b', steps[1..], bw, delay);
    MaxBurstMonotone(b.maxDatagramSize, steps[0].bw, bw, delay);
  }

  lemma MaxBurstMonotone(datagram: int, bw: int, bw': int, delay: int)
    requires 0 <= bw <= bw' && delay >= 0
    ensures MaxBurst(datagram, bw, delay) <= MaxBurst(datagram, bw', delay)
  {
    var k := MAX_BURST_DELAYS * delay;
    Product(bw, bw', k, k);
    assert bw * k == k * bw && bw' * k == k * bw';
    QuotientMonotone(k * bw, k * bw');
  }

  /** Why a send that another one follows needs a positive clock. Of two sends, each of the whole
      budget of its moment and the first at time zero, the bytes are within the bound exactly when the
      bandwidth carries a whole burst in the time between them. */
  lemma SecondBurstAtClockZero(b: Bucket, t: nat, bw: nat, delay: nat)
    requires b.lastSentTime == 0 && b.budgetAtLastSent >= 0 && b.maxDatagramSize > 0
    ensures var burst := MaxBurst(b.maxDatagramSize, bw, delay);
            var sends := [Send(0, Budget(b, 0, bw, delay), bw), Send(t, Budget(Sent(b, 0, burst, bw, delay), t, bw, delay), bw)];
            && BytesSent(sends) == 2 * burst > 0
            && (BytesSent(sends) <= burst + Quotient(bw * (LastTime(0, sends) - sends[0].time), NANOS)
                <==> burst <= Quotient(bw * t, NANOS))
  {
    var burst := MaxBurst(b.maxDatagramSize, bw, delay);
    var sends := [Send(0, burst, bw), Send(t, burst, bw)];
    assert sends[1..] == [Send(t, burst, bw)] && sends[1..][1..] == [];
    assert LastTime(0, sends) == LastTime(0, sends[1..]) == LastTime(t, []) == t;
    assert Budget(b, 0, bw, delay) == burst && Budget(Sent(b, 0, burst, bw, delay), t, bw, delay) == burst;
    assert BytesSent(sends) == burst + BytesSent(sends[1..]) && BytesSent(sends[1..]) == burst + BytesSent([]);
    Product(0, MAX_BURST_DELAYS * delay, 0, bw);
  }

  lemma CeilingCovers(diff: int, bw: int, d: int)
    requires diff > 0 && bw > 0
    requires d == if diff % bw > 0 then diff / bw + 1 else diff / bw
    ensures bw * d >= diff && bw * (d - 1) < diff && d > 0
  {
    var q, r := diff / bw, diff % bw;
    assert diff == bw * q + r;
    assert bw * (q + 1) == bw * q + bw;
    assert bw * (q - 1) == bw * q - bw;
  }

  /** At the time TimeUntilSend names there is budget for one datagram, when the bandwidth has
      not changed. */
  lemma ReadyHasBudget(b: Bucket, now: int, bw: int, delay: int)
    requires InUse(b) && bw > 0 && delay >= 0
    requires now >= b.lastSentTime && now >= ReadyAt(b, bw, delay)
    ensures Budget(b, now, bw, delay) >= b.maxDatagramSize
  {
    var elapsed := now - b.lastSentTime;
    Product(0, bw, 0, elapsed);
    if b.budgetAtLastSent < b.maxDatagramSize {
      var diff := NANOS * (b.maxDatagramSize - b.budgetAtLastSent);
      var d := if diff % bw > 0 then diff / bw + 1 else diff / bw;
      CeilingCovers(diff, bw, d);
      Product(bw, bw, d, elapsed);
    }
  }

  /** The same for every moment from then on. */
  lemma ReadyStays(b: Bucket, bw: int, delay: int)
    requires InUse(b) && bw > 0 && delay >= 0
    ensures forall now :: now >= b.lastSentTime && now >= ReadyAt(b, bw, delay) ==> Budget(b, now, bw, delay) >= b.maxDatagramSize
  {
    forall now | now >= b.lastSentTime && now >= ReadyAt(b, bw, delay)
      ensures Budget(b, now, bw, delay) >= b.maxDatagramSize
    {
      ReadyHasBudget(b, now, bw, delay);
    }
  }

  /** It names no later time than needed: unless the minimum pacing delay decides, one
      nanosecond earlier the budget is short of a datagram. */
  lemma ReadyIsEarliest(b: Bucket, bw: int, delay: int)
    requires 0 <= b.budgetAtLastSent < b.maxDatagramSize && b.lastSentTime > 0 && bw > 0 && delay >= 0
    requires ReadyAt(b, bw, delay) > b.lastSentTime + delay
    ensures Budget(b, ReadyAt(b, bw, delay) - 1, bw, delay) < b.maxDatagramSize
  {
    var diff := NANOS * (b.maxDatagramSize - b.budgetAtLastSent);
    var d := if diff % bw > 0 then diff / bw + 1 else diff / bw;
    CeilingCovers(diff, bw, d);
    Product(0, bw, 0, d - 1);
  }

  class Pacer {
    const delay: nat
    var budgetAtLastSent: int
    var maxDatagramSize: int
    var lastSentTime: int

    function Value(): Bucket
      reads this
    {
      Bucket(budgetAtLastSent, maxDatagramSize, lastSentTime)
    }

    constructor (initialPacketSize: nat, delay: nat)
      ensures Value() == Bucket(MAX_BURST_PACKETS * initialPacketSize, initialPacketSize, 0)
      ensures this.delay == delay
    {
      this.delay := delay;
      budgetAtLastSent := MAX_BURST_PACKETS * initialPacketSize;
      maxDatagramSize := initialPacketSize;
      lastSentTime := 0;
    }

    method SentPacket(sendTime: int, size: int, bw: int)
      modifies this
      ensures Value() == Sent(old(Value()), sendTime, size, bw, delay)
    {
      var budget := BudgetAt(sendTime, bw);
      if size > budget {
        budgetAtLastSent := 0;
      } else {
        budgetAtLastSent := budget - size;
      }
      lastSentTime := sendTime;
    }

    method BudgetAt(now: int, bw: int) returns (budget: int)
      ensures budget == Budget(Value(), now, bw, delay)
    {
      if lastSentTime == 0 {
        return MaxBurst(maxDatagramSize, bw, delay);
      }
      budget := budgetAtLastSent + Quotient(bw * (now - lastSentTime), NANOS);
      if budget < 0 {
        budget := 0x3FFF_FFFF_FFFF_FFFF;
      }
      return Min(MaxBurst(maxDatagramSize, bw, delay), budget);
    }

    /** Names a time, zero for at once, from which on there is budget for a datagram; a nanosecond
        before it there is not, unless the minimum pacing delay decides. */
    method TimeUntilSend(bw: int) returns (time: int)
      requires bw > 0
      ensures InUse(Value()) ==>
                forall now :: now >= lastSentTime && now >= time ==> Budget(Value(), now, bw, delay) >= maxDatagramSize
      ensures InUse(Value()) && lastSentTime > 0 && time > lastSentTime + delay ==>
                Budget(Value(), time - 1, bw, delay) < maxDatagramSize
      ensures time == ReadyAt(Value(), bw, delay)
    {
      if InUse(Value()) {
        ReadyStays(Value(), bw, delay);
      }
      if budgetAtLastSent >= maxDatagramSize {
        return 0;
      }
      var diff := NANOS * (maxDatagramSize - budgetAtLastSent);
      var d := diff / bw;
      if diff % bw > 0 {
        d := d + 1;
      }
      CeilingCovers(diff, bw, d);
      time := lastSentTime + Max(delay, d);
      if InUse(Value()) && lastSentTime > 0 && time > lastSentTime + delay {
        ReadyIsEarliest(Value(), bw, delay);
      }
    }

    method SetMaxDatagramSize(s: int)
      modifies this
      ensures Value() == old(Value()).(maxDatagramSize := s)
    {
      maxDatagramSize := s;
    }
  }
}
