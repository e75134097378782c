/** The checksum of an echo request (internal/mux/echo_socket.go), which adds the sixteen-bit words
    of the message in a 32-bit accumulator and folds the carries once at the end. Section 1 of
    RFC 1071 defines the sum with a carry brought around after every addition. */
module Checksum {
  import opened Bytes

  const HEADER := 8
  const ECHO_REQUEST_V4: Byte := 8
  const ECHO_REQUEST_V6: Byte := 128

  /** The words of the message added as plain numbers; an odd last byte is a high byte. */
  function WordSum(msg: seq<Byte>): nat {
    if msg == [] then 0
    else if |msg| == 1 then Word(msg[0], 0)
    else Get16(msg) + WordSum(msg[2..])
  }

  /** One ones' complement addition: the carry out of the top comes back in at the bottom. */
  function OnesAdd(a: Uint16, b: Uint16): Uint16 {
    if a + b > 0xffff then a + b - 0xffff else a + b
  }

  /** The ones' complement sum of a message, the definition a receiver checks against. */
  function OnesSum(msg: seq<Byte>): Uint16 {
    if msg == [] then 0
    else if |msg| == 1 then Word(msg[0], 0)
    else OnesAdd(Get16(msg), OnesSum(msg[2..]))
  }

  /** The fold of the accumulator: the high half added to the low half until none is left. */
  function Fold(sum: nat): Uint16
    decreases sum
  {
    if sum < 0x1_0000 then sum else Fold(sum % 0x1_0000 + sum / 0x1_0000)
  }

  /** The representative of a number modulo 0xffff that is zero for zero only. */
  function Residue(x: nat): Uint16 {
    if x == 0 then 0 else 1 + (x - 1) % 0xffff
  }

  lemma {:induction false} FoldIsResidue(sum: nat)
    ensures Fold(sum) == Residue(sum)
    decreases sum
  {
    if sum >= 0x1_0000 {
      var folded := sum % 0x1_0000 + sum / 0x1_0000;
      FoldIsResidue(folded);
      ResidueShift(folded, sum / 0x1_0000);
    }
  }

  lemma {:induction false} ResidueShift(x: nat, n: nat)
    requires x > 0
    ensures Residue(x + n * 0xffff) == Residue(x)
  {
    if n > 0 {
      ResidueShift(x, n - 1);
      assert x + n * 0xffff == x + (n - 1) * 0xffff + 0xffff;
    }
  }

  lemma ResidueAdd(a: Uint16, x: nat)
    ensures Residue(a + x) == OnesAdd(a, Residue(x))
  {
  }

  /** Deferring the carries changes nothing: folding the plain sum is the ones' complement sum. */
  lemma {:induction false} FoldedSumIsOnesSum(msg: seq<Byte>)
    ensures Fold(WordSum(msg)) == OnesSum(msg)
  {
    FoldIsResidue(WordSum(msg));
    if |msg| >= 2 {
      FoldedSumIsOnesSum(msg[2..]);
      FoldIsResidue(WordSum(msg[2..]));
      ResidueAdd(Get16(msg), WordSum(msg[2..]));
    }
  }

  lemma {:induction false} WordSumAppend(a: seq<Byte>, b: seq<Byte>)
    requires |a| % 2 == 0
    ensures WordSum(a + b) == WordSum(a) + WordSum(b)
  {
    if a == [] {
      assert a + b == b;
    } else {
      assert (a + b)[2..] == a[2..] + b;
      WordSumAppend(a[2..], b);
    }
  }

  lemma {:induction false} WordSumBound(msg: seq<Byte>)
    ensures WordSum(msg) <= (|msg| + 1) / 2 * 0xffff
  {
    if |msg| >= 2 {
      WordSumBound(msg[2..]);
    }
  }

  /** The message with a value in its checksum field. */
  function WithField(msg: seq<Byte>, field: Uint16): (s: seq<Byte>)
    requires |msg| >= 4
    ensures |s| == |msg|
  {
    msg[..2] + Put16(field) + msg[4..]
  }

  /** The value the code computes: the complement of the sum with the field read as zero. */
  function ChecksumOf(msg: seq<Byte>): Uint16
    requires |msg| >= 4
  {
    0xffff - Fold(WordSum(msg[..2]) + WordSum(msg[4..]))
  }

  lemma FieldAdds(msg: seq<Byte>, field: Uint16)
    requires |msg| >= 4
    ensures WordSum(WithField(msg, field)) == WordSum(msg[..2]) + field + WordSum(msg[4..])
  {
    WordSumAppend(msg[..2] + Put16(field), msg[4..]);
    WordSumAppend(msg[..2], Put16(field));
    Get16Put16(field, []);
    assert Put16(field) + [] == Put16(field);
    assert Put16(field)[2..] == [];
    assert WordSum(Put16(field)) == field;
  }

  /** A message with the checksum in its field sums to 0xffff, whatever the field held before. A
      field verifies only with that value; a zero checksum has the second form 0xffff when the rest
      of the message is not all zero. */
  lemma ChecksumVerifies(msg: seq<Byte>, field: Uint16)
    requires |msg| >= 4
    ensures OnesSum(WithField(msg, ChecksumOf(msg))) == 0xffff
    ensures ChecksumOf(WithField(msg, field)) == ChecksumOf(msg)
    ensures OnesSum(WithField(msg, field)) == 0xffff
        <==> (field == ChecksumOf(msg) || (ChecksumOf(msg) == 0 && field == 0xffff))
  {
    assert WithField(msg, field)[..2] == msg[..2] && WithField(msg, field)[4..] == msg[4..];
    FieldSum(msg, field);
    FieldSum(msg, ChecksumOf(msg));
  }

  lemma FieldSum(msg: seq<Byte>, field: Uint16)
    requires |msg| >= 4
    ensures OnesSum(WithField(msg, field)) == OnesAdd(field, 0xffff - ChecksumOf(msg))
  {
    FoldIsResidue(WordSum(msg[..2]) + WordSum(msg[4..]));
    FieldAdds(msg, field);
    FoldedSumIsOnesSum(WithField(msg, field));
    FoldIsResidue(WordSum(WithField(msg, field)));
    ResidueAdd(field, WordSum(msg[..2]) + WordSum(msg[4..]));
  }

  lemma WordSumStep(msg: seq<Byte>, i: nat)
    requires i % 2 == 0 && i + 1 < |msg|
    ensures WordSum(msg[..i + 2]) == WordSum(msg[..i]) + Word(msg[i], msg[i + 1])
  {
    assert msg[..i + 2] == msg[..i] + msg[i..i + 2];
    WordSumAppend(msg[..i], msg[i..i + 2]);
    assert msg[i..i + 2][2..] == [];
  }

  /** The words the loop has added before index i, the word at 2 left out. */
  function Added(msg: seq<Byte>, i: nat): nat
    requires i <= |msg|
  {
    WordSum(if i <= 4 then msg[..if i <= 2 then i else 2] else msg[..2]) + if i <= 4 then 0 else WordSum(msg[4..i])
  }

  lemma AddedStep(msg: seq<Byte>, i: nat)
    requires |msg| >= 4 && i % 2 == 0 && i + 1 < |msg|
    ensures Added(msg, i + 2) == Added(msg, i) + if i == 2 then 0 else Word(msg[i], msg[i + 1])
  {
    if i == 0 {
      WordSumStep(msg, 0);
      assert WordSum(msg[..0]) == 0;
    } else if i >= 4 {
      WordSumStep(msg[4..], i - 4);
      assert msg[4..][..i - 4] == msg[4..i] && msg[4..][..i - 2] == msg[4..i + 2];
    }
  }

  lemma AddedLast(msg: seq<Byte>)
    requires |msg| >= 4
    ensures Added(msg, |msg|) == WordSum(msg[..2]) + WordSum(msg[4..])
    ensures |msg| % 2 == 1 ==> Added(msg, |msg|) == Added(msg, |msg| - 1) + Word(msg[|msg| - 1], 0)
  {
    assert msg[4..|msg|] == msg[4..];
    if |msg| % 2 == 1 {
      var last := [msg[|msg| - 1]];
      assert msg[4..] == msg[4..|msg| - 1] + last;
      WordSumAppend(msg[4..|msg| - 1], last);
    }
  }

  /** No accumulation of words exceeds 32 bits on a message up to this length, far above the 65543
      bytes an echo request can have. */
  const LENGTH_LIMIT := 0x2_0000

  lemma AddedFits(msg: seq<Byte>, i: nat)
    requires 4 <= |msg| <= LENGTH_LIMIT && i <= |msg|
    ensures Added(msg, i) < 0x1_0000_0000
  {
    WordSumBound(msg[..2]);
    WordSumBound(msg[..if i <= 2 then i else 2]);
    if i > 4 {
      WordSumBound(msg[4..i]);
    }
  }

  /** The accumulator is a machine word here, so that no step of the loop can wrap. */
  method AddWords(msg: array<Byte>) returns (sum: Uint32)
    requires 4 <= msg.Length <= LENGTH_LIMIT
    ensures sum == WordSum(msg[..2]) + WordSum(msg[4..])
  {
    sum := 0;
    ghost var bytes := msg[..];
    var i := 0;
    while i + 1 < msg.Length
      invariant 0 <= i <= msg.Length && i % 2 == 0
      invariant sum == Added(bytes, i)
    {
      AddedStep(bytes, i);
      AddedFits(bytes, i + 2);
      if i != 2 {
        sum := sum + Word(msg[i], msg[i + 1]);
      }
      i := i + 2;
    }
    AddedLast(bytes);
    AddedFits(bytes, msg.Length);
    if msg.Length % 2 == 1 {
      sum := sum + Word(msg[msg.Length - 1], 0);
    }
    assert bytes[..2] == msg[..2] && bytes[4..] == msg[4..];
  }

  method IcmpChecksum(msg: array<Byte>) returns (checksum: Uint16)
    requires 4 <= msg.Length <= LENGTH_LIMIT
    ensures checksum == ChecksumOf(msg[..])
  {
    var sum := AddWords(msg);
    assert msg[..][..2] == msg[..2] && msg[..][4..] == msg[4..];
    while sum / 0x1_0000 != 0
      invariant 0xffff - Fold(sum) == ChecksumOf(msg[..])
      decreases sum
    {
      sum := sum % 0x1_0000 + sum / 0x1_0000;
    }
    checksum := 0xffff - sum;
  }

  /** The wire form of an echo request with a value in the checksum field. */
  function EchoMessage(v6: bool, field: Uint16, ident: Uint16, number: Uint16, payload: seq<Byte>): (msg: seq<Byte>)
    ensures |msg| == HEADER + |payload|
  {
    [if v6 then ECHO_REQUEST_V6 else ECHO_REQUEST_V4, 0] + Put16(field) + (Put16(ident) + Put16(number) + payload)
  }

  /** The kernel fills the checksum of an IPv6 message, so its field stays zero. */
  function SentField(v6: bool, ident: Uint16, number: Uint16, payload: seq<Byte>): Uint16 {
    if v6 then 0 else ChecksumOf(EchoMessage(v6, 0, ident, number, payload))
  }

  /** Every IPv4 echo request leaves with a checksum that verifies. */
  lemma SentRequestVerifies(ident: Uint16, number: Uint16, payload: seq<Byte>)
    ensures OnesSum(EchoMessage(false, SentField(false, ident, number, payload), ident, number, payload)) == 0xffff
  {
    var blank := EchoMessage(false, 0, ident, number, payload);
    ChecksumVerifies(blank, 0);
    FieldReplaced([ECHO_REQUEST_V4, 0], 0, ChecksumOf(blank), Put16(ident) + Put16(number) + payload);
  }

  lemma FieldReplaced(head: seq<Byte>, field: Uint16, replaced: Uint16, tail: seq<Byte>)
    requires |head| == 2
    ensures WithField(head + Put16(field) + tail, replaced) == head + Put16(replaced) + tail
  {
  }

  method FillRequest(msg: array<Byte>, v6: bool, ident: Uint16, number: Uint16, payload: seq<Byte>)
    requires msg.Length == HEADER + |payload|
    requires forall i :: 0 <= i < msg.Length ==> msg[i] == 0
    modifies msg
    ensures msg[..] == EchoMessage(v6, 0, ident, number, payload)
  {
    msg[0] := ECHO_REQUEST_V4;
    if v6 {
      msg[0] := ECHO_REQUEST_V6;
    }
    msg[4], msg[5] := ident / 256, ident % 256;
    msg[6], msg[7] := number / 256, number % 256;
    forall i | 0 <= i < |payload| {
      msg[HEADER + i] := payload[i];
    }
  }

  method EchoRequest(v6: bool, ident: Uint16, number: Uint16, payload: seq<Byte>) returns (msg: array<Byte>)
    requires |payload| <= 0xffff
    ensures msg[..] == EchoMessage(v6, SentField(v6, ident, number, payload), ident, number, payload)
    ensures !v6 ==> OnesSum(msg[..]) == 0xffff
  {
    msg := new Byte[HEADER + |payload|](_ => 0);
    FillRequest(msg, v6, ident, number, payload);
    if !v6 {
      var checksum := IcmpChecksum(msg);
      msg[2], msg[3] := checksum / 256, checksum % 256;
      SentRequestVerifies(ident, number, payload);
    }
  }
}
