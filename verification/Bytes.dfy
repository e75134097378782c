/** Bytes and the big-endian numbers the wire formats are made of. */
module Bytes {

  type Byte = x: int | 0 <= x < 256
  type Uint16 = x: int | 0 <= x < 0x1_0000
  type Uint32 = x: int | 0 <= x < 0x1_0000_0000

  function Put16(v: Uint16): (s: seq<Byte>) {
    [v / 256, v % 256]
  }

  function Word(high: Byte, low: Byte): (v: Uint16) {
    var h: int := high;
    h * 256 + low
  }

  function Get16(s: seq<Byte>): (v: Uint16)
    requires |s| >= 2
  {
    Word(s[0], s[1])
  }

  function Pair(high: Uint16, low: Uint16): (v: Uint32) {
    var h: int := high;
    h * 0x1_0000 + low
  }

  function Put32(v: Uint32): (s: seq<Byte>) {
    Put16(v / 0x1_0000) + Put16(v % 0x1_0000)
  }

  function Get32(s: seq<Byte>): (v: Uint32)
    requires |s| >= 4
  {
    Pair(Get16(s), Get16(s[2..]))
  }

  lemma Get16Put16(v: Uint16, rest: seq<Byte>)
    ensures Get16(Put16(v) + rest) == v
  {
    var s := Put16(v) + rest;
    assert s[0] == v / 256 && s[1] == v % 256;
  }

  lemma Get32Put32(v: Uint32, rest: seq<Byte>)
    ensures Get32(Put32(v) + rest) == v
  {
    var high, low := v / 0x1_0000, v % 0x1_0000;
    Get32Halves(high, low, rest);
    assert Put32(v) == Put16(high) + Put16(low);
  }

  lemma Get32Halves(high: Uint16, low: Uint16, rest: seq<Byte>)
    ensures Get32(Put16(high) + Put16(low) + rest) == Pair(high, low)
  {
    var s := Put16(high) + Put16(low) + rest;
    assert s == Put16(high) + (Put16(low) + rest) && s[2..] == Put16(low) + rest;
    Get16Put16(high, Put16(low) + rest);
    Get16Put16(low, rest);
  }
}
