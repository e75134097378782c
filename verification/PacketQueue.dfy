/** The queue of packets in flight (internal/congestion/bbr/packet_number_indexed_queue.go):
    a ring buffer of slots for consecutive packet numbers, each marked present or not. It
    refines a finite map from packet numbers to entries. */
module PacketQueues {
  import opened Wrappers
  import opened RingBuffers

  const INVALID_PACKET := -1

  datatype EntryWrapper<T> = EntryWrapper(present: bool, entry: T)

  /** The map that slots for the packet numbers from first on stand for. */
  function Table<T>(first: int, slots: seq<EntryWrapper<T>>): map<int, T>
    decreases |slots|
  {
    if slots == [] then map[]
    else
      var rest := Table(first + 1, slots[1..]);
      if slots[0].present then rest[first := slots[0].entry] else rest
  }

  function PresentCount<T>(slots: seq<EntryWrapper<T>>): nat {
    if slots == [] then 0 else (if slots[0].present then 1 else 0) + PresentCount(slots[1..])
  }

  /** Keys from k on. */
  function From<T>(table: map<int, T>, k: int): map<int, T> {
    map n | n in table && n >= k :: table[n]
  }

  lemma {:induction false} TableAt<T>(first: int, slots: seq<EntryWrapper<T>>, k: int)
    ensures k in Table(first, slots) <==> first <= k < first + |slots| && slots[k - first].present
    ensures k in Table(first, slots) ==> Table(first, slots)[k] == slots[k - first].entry
    decreases |slots|
  {
    if slots != [] {
      TableAt(first + 1, slots[1..], k);
      assert first < k < first + |slots| ==> slots[k - first] == slots[1..][k - (first + 1)];
    }
  }

  /** Dropping the front slot drops the front packet and nothing else. */
  lemma TableTail<T>(first: int, slots: seq<EntryWrapper<T>>)
    requires slots != []
    ensures Table(first + 1, slots[1..]) == Table(first, slots) - {first}
    ensures !slots[0].present ==> Table(first + 1, slots[1..]) == Table(first, slots)
    ensures forall k :: k > first ==> From(Table(first + 1, slots[1..]), k) == From(Table(first, slots), k)
  {
    TableAt(first + 1, slots[1..], first);
  }

  lemma {:induction false} TableAppend<T>(first: int, slots: seq<EntryWrapper<T>>, e: EntryWrapper<T>)
    ensures Table(first, slots + [e])
         == if e.present then Table(first, slots)[first + |slots| := e.entry] else Table(first, slots)
    decreases |slots|
  {
    if slots == [] {
      assert [e][1..] == [];
    } else {
      TableAppend(first + 1, slots[1..], e);
      assert (slots + [e])[1..] == slots[1..] + [e];
    }
  }

  lemma {:induction false} TableErase<T>(first: int, slots: seq<EntryWrapper<T>>, i: nat, e: EntryWrapper<T>)
    requires i < |slots| && !e.present
    ensures Table(first, slots[i := e]) == Table(first, slots) - {first + i}
    decreases |slots|
  {
    if i == 0 {
      assert slots[0 := e][1..] == slots[1..];
      TableAt(first + 1, slots[1..], first);
    } else {
      TableErase(first + 1, slots[1..], i - 1, e);
      assert slots[i := e][1..] == slots[1..][i - 1 := e];
    }
  }

  lemma TableFrom<T>(first: int, slots: seq<EntryWrapper<T>>, k: int)
    requires slots == [] || k <= first
    ensures From(Table(first, slots), k) == Table(first, slots)
  {
    forall n | n in Table(first, slots) ensures n >= k {
      TableAt(first, slots, n);
    }
  }

  lemma {:induction false} CountIsSize<T>(first: int, slots: seq<EntryWrapper<T>>)
    ensures |Table(first, slots)| == PresentCount(slots)
    decreases |slots|
  {
    if slots != [] {
      CountIsSize(first + 1, slots[1..]);
      TableTail(first, slots);
      TableAt(first, slots, first);
      if slots[0].present {
        assert Table(first, slots).Keys == Table(first + 1, slots[1..]).Keys + {first};
      }
      assert |Table(first, slots)| == |Table(first, slots).Keys|;
      assert |Table(first + 1, slots[1..])| == |Table(first + 1, slots[1..]).Keys|;
    }
  }

  lemma {:induction false} CountAppend<T>(slots: seq<EntryWrapper<T>>, e: EntryWrapper<T>)
    ensures PresentCount(slots + [e]) == PresentCount(slots) + if e.present then 1 else 0
  {
    if slots != [] {
      CountAppend(slots[1..], e);
      assert (slots + [e])[1..] == slots[1..] + [e];
    }
  }

  lemma {:induction false} CountErase<T>(slots: seq<EntryWrapper<T>>, i: nat, e: EntryWrapper<T>)
    requires i < |slots| && slots[i].present && !e.present
    ensures PresentCount(slots[i := e]) == PresentCount(slots) - 1
  {
    if i == 0 {
      assert slots[0 := e][1..] == slots[1..];
    } else {
      CountErase(slots[1..], i - 1, e);
      assert slots[i := e][1..] == slots[1..][i - 1 := e];
    }
  }

  class PacketNumberIndexedQueue<T> {
    const entries: RingBuffer<EntryWrapper<T>>
    var numberOfPresentEntries: int
    var firstPacket: int

    ghost function Slots(): seq<EntryWrapper<T>>
      requires entries.Valid()
      reads this, entries, entries.ring
    {
      entries.Contents()
    }

    /** The packets in the queue. */
    ghost function Entries(): map<int, T>
      requires entries.Valid()
      reads this, entries, entries.ring
    {
      Table(firstPacket, Slots())
    }

    /** Everything Valid asks for but a present front slot. */
    ghost predicate Counted()
      reads this, entries, entries.ring
    {
      && entries.Valid()
      && numberOfPresentEntries == PresentCount(Slots())
      && (Slots() != [] ==> firstPacket >= 0)
    }

    ghost predicate Valid()
      reads this, entries, entries.ring
    {
      && Counted()
      && (if Slots() == [] then firstPacket == INVALID_PACKET else Slots()[0].present)
    }

    ghost function Repr(): set<object>
      reads this, entries
    {
      {this, entries, entries.ring}
    }

    constructor (size: nat, zero: T)
      ensures Valid() && fresh(Repr())
      ensures Entries() == map[] && Slots() == []
    {
      entries := new RingBuffer(size, EntryWrapper(false, zero));
      numberOfPresentEntries, firstPacket := 0, INVALID_PACKET;
    }

    predicate IsEmpty()
      reads this
    {
      numberOfPresentEntries == 0
    }

    function NumberOfPresentEntries(): (n: int)
      requires Valid()
      reads this, entries, entries.ring
      ensures n == |Entries()|
    {
      CountIsSize(firstPacket, Slots());
      numberOfPresentEntries
    }

    /** No present entry means no slots; otherwise the front slot is the smallest packet. */
    lemma EmptyIffNoSlots()
      requires Valid()
      ensures IsEmpty() <==> Slots() == []
      ensures IsEmpty() <==> Entries() == map[]
      ensures Slots() != [] ==> firstPacket in Entries()
      ensures forall k :: k in Entries() ==> firstPacket <= k <= LastPacket()
    {
      TableAt(firstPacket, Slots(), firstPacket);
      forall k | k in Entries() ensures firstPacket <= k < firstPacket + |Slots()| {
        TableAt(firstPacket, Slots(), k);
      }
    }

    function EntrySlotsUsed(): (n: nat)
      requires Valid()
      reads this, entries, entries.ring
      ensures n == |Slots()|
      ensures n > 0 ==> n == LastPacket() - firstPacket + 1
    {
      entries.Len()
    }

    function FirstPacket(): int
      reads this
    {
      firstPacket
    }

    /** The packet number of the last slot: the last packet ever put in since the queue was
        empty, present or not. */
    function LastPacket(): (last: int)
      requires Valid()
      reads this, entries, entries.ring
      ensures last == if Slots() == [] then INVALID_PACKET else firstPacket + |Slots()| - 1
    {
      if IsEmpty() then INVALID_PACKET else firstPacket + entries.Len() - 1
    }

    method Emplace(packetNumber: int, entry: Option<T>) returns (inserted: bool)
      requires Valid() && packetNumber >= INVALID_PACKET
      modifies this, entries, entries.ring
      ensures Valid() && fresh(Repr() - old(Repr()))
      ensures inserted <==> packetNumber > old(LastPacket()) && entry.Some?
      ensures Entries() == if inserted then old(Entries())[packetNumber := entry.value] else old(Entries())
      ensures LastPacket() == if inserted then packetNumber else old(LastPacket())
    {
      if packetNumber == INVALID_PACKET || entry.None? {
        return false;
      }
      if IsEmpty() {
        TableAppend(packetNumber, [], EntryWrapper(true, entry.value));
        entries.PushBack(EntryWrapper(true, entry.value));
        numberOfPresentEntries := 1;
        firstPacket := packetNumber;
        assert Slots() == [EntryWrapper(true, entry.value)] == [] + [EntryWrapper(true, entry.value)];
        return true;
      }
      if packetNumber <= LastPacket() {
        return false;
      }
      var offset := packetNumber - FirstPacket();
      var gap := offset - entries.Len();
      Pad(gap);
      Append(entry.value);
      return true;
    }

    /** The present slot that ends the queue. */
    method Append(entry: T)
      requires Valid() && Slots() != []
      modifies this, entries, entries.ring
      ensures Valid() && fresh(Repr() - old(Repr()))
      ensures |Slots()| == |old(Slots())| + 1 && firstPacket == old(firstPacket)
      ensures Entries() == old(Entries())[old(LastPacket()) + 1 := entry]
    {
      CountAppend(Slots(), EntryWrapper(true, entry));
      TableAppend(firstPacket, Slots(), EntryWrapper(true, entry));
      entries.PushBack(EntryWrapper(true, entry));
      numberOfPresentEntries := numberOfPresentEntries + 1;
    }

    /** The gap before a new packet: absent slots for the numbers that were skipped. */
    method Pad(gap: nat)
      requires Valid() && Slots() != []
      modifies this, entries, entries.ring
      ensures Valid() && fresh(Repr() - old(Repr()))
      ensures |Slots()| == |old(Slots())| + gap
      ensures firstPacket == old(firstPacket) && Entries() == old(Entries())
    {
      for i := 0 to gap
        invariant Valid() && fresh(Repr() - old(Repr()))
        invariant |Slots()| == |old(Slots())| + i && firstPacket == old(firstPacket)
        invariant Entries() == old(Entries())
      {
        CountAppend(Slots(), EntryWrapper(false, entries.zero.entry));
        TableAppend(firstPacket, Slots(), EntryWrapper(false, entries.zero.entry));
        entries.PushBack(EntryWrapper(false, entries.zero.entry));
      }
    }

    /** The offset of a present packet in the slots; None where the original returns nil. */
    function GetEntryWrapper(packetNumber: int): (offset: Option<nat>)
      requires Valid()
      reads this, entries, entries.ring
      ensures offset.Some? <==> packetNumber in Entries()
      ensures offset.Some? ==> offset.value == packetNumber - firstPacket < |Slots()|
    {
      TableAt(firstPacket, Slots(), packetNumber);
      if packetNumber == INVALID_PACKET || IsEmpty() || packetNumber < firstPacket then
        None
      else
        var offset := packetNumber - firstPacket;
        if offset >= entries.Len() then None
        else if !entries.At(offset).present then None
        else Some(offset)
    }

    /** GetEntry is the lookup in the map. */
    function GetEntry(packetNumber: int): (entry: Option<T>)
      requires Valid()
      reads this, entries, entries.ring
      ensures entry == if packetNumber in Entries() then Some(Entries()[packetNumber]) else None
    {
      TableAt(firstPacket, Slots(), packetNumber);
      var offset := GetEntryWrapper(packetNumber);
      if offset.None? then None else Some(entries.At(offset.value).entry)
    }

    /** Removes a packet. called is what the callback gets: the entry, when it was there. */
    method Remove(packetNumber: int) returns (removed: bool, called: Option<T>)
      requires Valid()
      modifies this, entries, entries.ring
      ensures Valid() && fresh(Repr() - old(Repr()))
      ensures removed <==> packetNumber in old(Entries())
      ensures called == if removed then Some(old(Entries())[packetNumber]) else None
      ensures Entries() == old(Entries()) - {packetNumber}
      ensures LastPacket() == old(LastPacket()) || Entries() == map[]
    {
      var ew := GetEntryWrapper(packetNumber);
      if ew.None? {
        return false, None;
      }
      called := GetEntry(packetNumber);
      ghost var slots := Slots();
      var absent := entries.At(ew.value).(present := false);
      CountErase(slots, ew.value, absent);
      TableErase(firstPacket, slots, ew.value, absent);
      entries.Store(ew.value, absent);
      numberOfPresentEntries := numberOfPresentEntries - 1;
      if packetNumber == FirstPacket() {
        Clearup();
      }
      return true, called;
    }

    /** Keeps exactly the packets from packetNumber on. */
    method RemoveUpTo(packetNumber: int)
      requires Valid()
      modifies this, entries, entries.ring
      ensures Valid() && fresh(Repr() - old(Repr()))
      ensures Entries() == From(old(Entries()), packetNumber)
      ensures LastPacket() == old(LastPacket()) || Entries() == map[]
    {
      while !entries.Empty() && firstPacket != INVALID_PACKET && firstPacket < packetNumber
        invariant Counted() && entries.ring == old(entries.ring)
        invariant Slots() == [] || firstPacket + |Slots()| == old(firstPacket + |Slots()|)
        invariant From(Entries(), packetNumber) == From(old(Entries()), packetNumber)
        decreases |Slots()|
      {
        DropFront();
      }
      TableFrom(firstPacket, Slots(), packetNumber);
      Clearup();
    }

    /** One turn of the loops that pop the front slot. */
    method DropFront()
      requires Counted() && Slots() != []
      modifies this, entries, entries.ring
      ensures Counted() && entries.ring == old(entries.ring)
      ensures Slots() == old(Slots())[1..] && firstPacket == old(firstPacket) + 1
      ensures !old(Slots())[0].present ==> Entries() == old(Entries())
      ensures forall k :: k >= firstPacket ==> From(Entries(), k) == From(old(Entries()), k)
    {
      TableTail(firstPacket, Slots());
      if entries.Front().present {
        numberOfPresentEntries := numberOfPresentEntries - 1;
      }
      var _ := entries.PopFront();
      firstPacket := firstPacket + 1;
    }

    /** Drops the absent slots at the front. */
    method Clearup()
      requires Counted()
      modifies this, entries, entries.ring
      ensures Valid() && entries.ring == old(entries.ring)
      ensures Entries() == old(Entries())
      ensures Slots() == [] || firstPacket + |Slots()| == old(firstPacket + |Slots()|)
    {
      while !entries.Empty() && !entries.Front().present
        invariant Counted() && entries.ring == old(entries.ring)
        invariant Entries() == old(Entries())
        invariant Slots() == [] || firstPacket + |Slots()| == old(firstPacket + |Slots()|)
        decreases |Slots()|
      {
        DropFront();
      }
      if entries.Empty() {
        firstPacket := INVALID_PACKET;
      }
    }
  }
}
