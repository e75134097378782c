/** The growable ring buffer of the congestion controller
    (internal/congestion/bbr/ringbuffer.go). It refines an unbounded sequence, keeps every
    slot outside the contents at the zero value, and copies little enough when it grows that
    the copying is paid for by the pushes. */
module RingBuffers {

  /** The elements of a ring from head up to tail, wrapping past the end. */
  function View<T>(ring: seq<T>, head: nat, tail: nat, full: bool): (contents: seq<T>)
    requires head <= |ring| && tail <= |ring|
  {
    if !full && head <= tail then ring[head..tail] else ring[head..] + ring[..tail]
  }

  /** A slot that holds no element of the contents. */
  predicate Unused(slot: nat, head: nat, tail: nat, full: bool) {
    !full && if head <= tail then slot < head || tail <= slot else tail <= slot < head
  }

  ghost predicate ZeroOutside<T>(ring: seq<T>, head: nat, tail: nat, full: bool, zero: T) {
    forall slot | 0 <= slot < |ring| && Unused(slot, head, tail, full) :: ring[slot] == zero
  }

  function Next(slot: nat, size: nat): nat {
    if slot + 1 == size then 0 else slot + 1
  }

  lemma ViewPush<T>(ring: seq<T>, head: nat, tail: nat, t: T)
    requires head < |ring| && tail < |ring|
    ensures var tail' := Next(tail, |ring|);
            View(ring[tail := t], head, tail', tail' == head) == View(ring, head, tail, false) + [t]
  {
    var after := ring[tail := t];
    if head > tail {
      assert after[head..] == ring[head..] && after[..tail + 1] == ring[..tail] + [t];
      assert ring[head..] + (ring[..tail] + [t]) == ring[head..] + ring[..tail] + [t];
    } else if tail + 1 < |ring| {
      assert after[head..tail + 1] == ring[head..tail] + [t];
    } else {
      assert after[head..] == ring[head..tail] + [t] && after[..0] == [];
      assert after[head..] + [] == after[head..];
    }
  }

  lemma ViewPop<T>(ring: seq<T>, head: nat, tail: nat, full: bool, zero: T)
    requires head < |ring| && tail < |ring| && (full ==> head == tail)
    requires full || head != tail
    ensures var before := View(ring, head, tail, full);
            |before| > 0 && before[0] == ring[head] &&
            View(ring[head := zero], Next(head, |ring|), tail, false) == before[1..]
    ensures ZeroOutside(ring, head, tail, full, zero) ==>
              ZeroOutside(ring[head := zero], Next(head, |ring|), tail, false, zero)
  {
    var after := ring[head := zero];
    assert after[..head] == ring[..head] && after[head + 1..] == ring[head + 1..];
    if full || tail < head {
      assert after[..tail] == ring[..tail];
      DropFirst(ring[head..], ring[..tail]);
      assert ring[head..][1..] == ring[head + 1..];
      if head + 1 == |ring| {
        assert ring[head + 1..] == [] && [] + ring[..tail] == ring[..tail];
        assert after[0..tail] == after[..tail];
      }
    } else {
      assert after[head + 1..tail] == ring[head..tail][1..];
    }
  }

  lemma DropFirst<T>(a: seq<T>, b: seq<T>)
    requires a != []
    ensures (a + b)[1..] == a[1..] + b && (a + b)[0] == a[0]
  {
  }

  lemma ViewStore<T>(ring: seq<T>, head: nat, tail: nat, full: bool, index: nat, slot: nat, t: T)
    requires head < |ring| && tail < |ring| && (full ==> head == tail)
    requires index < |View(ring, head, tail, full)|
    requires slot == if head + index < |ring| then head + index else head + index - |ring|
    ensures ring[slot] == View(ring, head, tail, full)[index]
    ensures View(ring[slot := t], head, tail, full) == View(ring, head, tail, full)[index := t]
    ensures !Unused(slot, head, tail, full)
  {
    var after, before := View(ring[slot := t], head, tail, full), View(ring, head, tail, full);
    assert |after| == |before|;
    assert forall i | 0 <= i < |after| :: after[i] == before[index := t][i];
  }

  class RingBuffer<T> {
    /** The zero value of the element type. */
    const zero: T
    var ring: array<T>
    var headPos: nat
    var tailPos: nat
    var full: bool

    /** The number of PushBack calls, and the number of elements Grow copied, so far. */
    ghost var pushes: nat
    ghost var copied: nat

    /** The buffered elements, front first. */
    ghost function Contents(): seq<T>
      requires headPos <= ring.Length && tailPos <= ring.Length
      reads this, ring
    {
      View(ring[..], headPos, tailPos, full)
    }

    ghost predicate Valid()
      reads this, ring
    {
      && (if ring.Length == 0 then headPos == 0 && tailPos == 0 && !full
          else headPos < ring.Length && tailPos < ring.Length)
      && (full ==> headPos == tailPos)
      && ZeroOutside(ring[..], headPos, tailPos, full, zero)
      && Paid()
    }

    /** The growth account: every copy so far is covered by twice the pushes. */
    ghost predicate Paid()
      requires headPos <= ring.Length && tailPos <= ring.Length
      reads this, ring
    {
      && |Contents()| <= pushes
      && (if ring.Length == 0 then copied == 0 else copied < ring.Length)
      && (if pushes == 0 then copied == 0 else copied < 2 * pushes)
    }

    constructor (size: nat, zero: T)
      ensures Valid() && fresh(ring) && this.zero == zero
      ensures Contents() == [] && pushes == 0 && copied == 0
    {
      this.zero := zero;
      ring := new T[size](_ => zero);
      headPos, tailPos, full := 0, 0, false;
      pushes, copied := 0, 0;
    }

    function Len(): (n: nat)
      requires Valid()
      reads this, ring
      ensures n == |Contents()|
    {
      if full then ring.Length
      else if tailPos >= headPos then tailPos - headPos
      else tailPos + ring.Length - headPos
    }

    predicate Empty()
      requires Valid()
      reads this, ring
      ensures Empty() <==> Contents() == []
    {
      !full && headPos == tailPos
    }

    method PushBack(t: T)
      requires Valid()
      modifies this, ring
      ensures Valid() && (ring == old(ring) || fresh(ring))
      ensures Contents() == old(Contents()) + [t]
      ensures pushes == old(pushes) + 1 && copied < 2 * pushes
    {
      if full || ring.Length == 0 {
        Grow();
      }
      Put(t);
    }

    /** The rest of PushBack: the write into a ring that has room. */
    method Put(t: T)
      requires Valid() && !full && ring.Length > 0
      modifies this, ring
      ensures Valid() && ring == old(ring)
      ensures Contents() == old(Contents()) + [t]
      ensures pushes == old(pushes) + 1 && copied == old(copied)
    {
      ghost var slots, head, tail := ring[..], headPos, tailPos;
      ring[tailPos] := t;
      tailPos := tailPos + 1;
      if tailPos == ring.Length {
        tailPos := 0;
      }
      if tailPos == headPos {
        full := true;
      }
      pushes := pushes + 1;
      ViewPush(slots, head, tail, t);
      assert ring[..] == slots[tail := t];
    }

    method PopFront() returns (t: T)
      requires Valid() && !Empty()
      modifies this, ring
      ensures Valid() && ring == old(ring)
      ensures t == old(Contents())[0] && Contents() == old(Contents())[1..]
      ensures pushes == old(pushes) && copied == old(copied)
    {
      ghost var slots := ring[..];
      ViewPop(slots, headPos, tailPos, full, zero);
      full := false;
      t := ring[headPos];
      ring[headPos] := zero;
      assert ring[..] == slots[headPos := zero];
      headPos := headPos + 1;
      if headPos == ring.Length {
        headPos := 0;
      }
    }

    /** The slot of an element, where the original returns a pointer to it. */
    function Offset(index: nat): (offset: nat)
      requires Valid() && index < Len()
      reads this, ring
      ensures offset < ring.Length && ring[offset] == Contents()[index]
      ensures offset == if headPos + index < ring.Length then headPos + index else headPos + index - ring.Length
    {
      WrapOnce(headPos + index, ring.Length);
      (headPos + index) % ring.Length
    }

    /** The read through the pointer that Offset returns. */
    function At(index: nat): (t: T)
      requires Valid() && index < Len()
      reads this, ring
      ensures t == Contents()[index]
    {
      ring[Offset(index)]
    }

    function Front(): (t: T)
      requires Valid() && !Empty()
      reads this, ring
      ensures t == Contents()[0]
    {
      ring[headPos]
    }

    function Back(): (t: T)
      requires Valid() && !Empty()
      reads this, ring
      ensures t == Contents()[|Contents()| - 1]
    {
      At(Len() - 1)
    }

    /** The write through the pointer that Offset returns. */
    method Store(index: nat, t: T)
      requires Valid() && index < Len()
      modifies ring
      ensures Valid()
      ensures Contents() == old(Contents())[index := t]
    {
      ghost var slots := ring[..];
      ViewStore(slots, headPos, tailPos, full, index, Offset(index), t);
      var slot := Offset(index);
      ring[slot] := t;
      assert ring[..] == slots[slot := t];
    }

    method Grow()
      requires Valid() && (full || ring.Length == 0)
      modifies this
      ensures Valid() && fresh(ring) && !full && tailPos < ring.Length
      ensures Contents() == old(Contents()) && pushes == old(pushes)
      ensures copied == old(copied) + |Contents()| && ring.Length == if old(ring.Length) == 0 then 1 else 2 * old(ring.Length)
    {
      var oldRing := ring;
      var newSize := oldRing.Length * 2;
      if newSize == 0 {
        newSize := 1;
      }
      ring := new T[newSize](_ => zero);
      var headLen := oldRing.Length - headPos;
      forall i | 0 <= i < headLen {
        ring[i] := oldRing[headPos + i];
      }
      forall i | 0 <= i < headPos {
        ring[headLen + i] := oldRing[i];
      }
      copied := copied + oldRing.Length;
      headPos, tailPos, full := 0, oldRing.Length, false;
      assert Contents() == old(Contents());
    }

    method Clear()
      requires Valid()
      modifies this, ring
      ensures Valid() && ring == old(ring)
      ensures Contents() == [] && pushes == old(pushes) && copied == old(copied)
    {
      for i := 0 to ring.Length
        invariant headPos == old(headPos) && tailPos == old(tailPos) && full == old(full)
        invariant ring == old(ring) && pushes == old(pushes) && copied == old(copied)
        invariant forall j :: 0 <= j < i ==> ring[j] == zero
      {
        ring[i] := zero;
      }
      headPos, tailPos, full := 0, 0, false;
    }
  }

  /** The remainder of a position that has passed the end of the ring at most once. */
  lemma WrapOnce(x: nat, n: nat)
    requires x < 2 * n
    ensures x % n == if x < n then x else x - n
  {
    var q := x / n;
    assert x == q * n + x % n;
    assert q >= 2 ==> q * n >= 2 * n;
  }
}
