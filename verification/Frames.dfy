/** Flow streams (internal/mux/mux.go, frames.go): a kind byte, a destination, and one frame for
    each message. A reader consumes a stream from the front; what a cut stream yields is decided by
    the bytes that arrived. */
module Frames {
  import opened Wrappers
  import opened Bytes
  import opened Arith
  import opened Streams

  const MAX_FRAME := 0xffff
  const MAX_MICROS := 0xffff_ffff
  const KIND_UDP: Byte := 2
  const KIND_ICMP: Byte := 4
  const REPLY_DATA: Byte := 0
  const REPLY_ERROR: Byte := 1
  const ERROR_HEADER := 7

  type Octets4 = s: seq<Byte> | |s| == 4 witness [0, 0, 0, 0]
  type Octets16 = s: seq<Byte> | |s| == 16 witness [0, 0, 0, 0, 0, 0, 0, 0, 0, 0, 0, 0, 0, 0, 0, 0]

  const ZERO16: Octets16 := [0, 0, 0, 0, 0, 0, 0, 0, 0, 0, 0, 0, 0, 0, 0, 0]
  const MAPPED: seq<Byte> := [0, 0, 0, 0, 0, 0, 0, 0, 0, 0, 0xff, 0xff]

  datatype Addr = Unset | V4(four: Octets4) | V6(sixteen: Octets16)
  datatype Dest = Dest(addr: Addr, port: Uint16)
  datatype IcmpError = IcmpError(typ: Byte, code: Byte, info: Uint32, from: Addr, inner: seq<Byte>)

  datatype Message =
    | UdpRequest(ttl: Byte, payload: seq<Byte>)
    | UdpData(payload: seq<Byte>)
    | UdpError(error: IcmpError)
    | EchoRequest(number: Uint16, ttl: Byte, payload: seq<Byte>)
    | EchoData(number: Uint16, rtt: nat, payload: seq<Byte>)
    | EchoError(error: IcmpError)

  datatype Direction = UdpRequests | UdpReplies | EchoRequests | EchoReplies

  datatype Error =
    | Ended(how: ReadError)
    | AddressLength(n: nat)
    | FrameTooLarge(n: nat)
    | FrameTooShort(n: nat)
    | UnknownReply(kind: Byte)

  // ----- What the encoders write.

  /** An IPv4 address that travels as a mapped IPv6 address is the IPv4 address. */
  function Unmap(a: Addr): Addr {
    if a.V6? && a.sixteen[..12] == MAPPED then V4(a.sixteen[12..]) else a
  }

  function AsSlice(a: Addr): (s: seq<Byte>)
    ensures |s| in {0, 4, 16}
  {
    match a
    case Unset => []
    case V4(b) => b
    case V6(b) => b
  }

  /** A destination without an address goes out as sixteen zero bytes. */
  function DestAddr(a: Addr): Addr {
    if a.Unset? then V6(ZERO16) else Unmap(a)
  }

  /** Exactly the IPv4 address and its mapped form, ten zero bytes, two of 0xff and its four, stand for an
      IPv4 address; every other address stands for itself. */
  lemma UnmapsExactly(a: Addr, x: Octets4)
    ensures Unmap(a) == V4(x)
       <==> a == V4(x) || (a.V6? && a.sixteen == [0, 0, 0, 0, 0, 0, 0, 0, 0, 0, 255, 255, x[0], x[1], x[2], x[3]])
    ensures Unmap(a).V4? || Unmap(a) == a
    ensures DestAddr(Unset) == V6([0, 0, 0, 0, 0, 0, 0, 0, 0, 0, 0, 0, 0, 0, 0, 0])
    ensures !a.Unset? ==> DestAddr(a) == Unmap(a)
  {
    var mapped: seq<Byte> := [0, 0, 0, 0, 0, 0, 0, 0, 0, 0, 255, 255, x[0], x[1], x[2], x[3]];
    assert mapped[..12] == MAPPED && mapped[12..] == x;
    if a.V6? && a.sixteen[..12] == MAPPED && a.sixteen[12..] == x {
      assert a.sixteen == a.sixteen[..12] + a.sixteen[12..];
      assert a.sixteen == mapped;
    }
  }

  function EncodeDest(d: Dest): seq<Byte> {
    var raw := AsSlice(DestAddr(d.addr));
    [|raw|] + raw + Put16(d.port)
  }

  function EncodeError(e: IcmpError): seq<Byte> {
    var raw := AsSlice(Unmap(e.from));
    [e.typ, e.code] + Put32(e.info) + [|raw|] + raw + e.inner
  }

  function EncodeRtt(rtt: nat): Uint32 {
    Min(rtt / 1000, MAX_MICROS)
  }

  function Encode(m: Message): (s: seq<Byte>)
    ensures s != []
  {
    match m
    case UdpRequest(ttl, payload) => [ttl] + payload
    case UdpData(payload) => [REPLY_DATA] + payload
    case UdpError(e) => [REPLY_ERROR] + EncodeError(e)
    case EchoRequest(number, ttl, payload) => Put16(number) + [ttl] + payload
    case EchoData(number, rtt, payload) => [REPLY_DATA] + Put16(number) + Put32(EncodeRtt(rtt)) + payload
    case EchoError(e) => [REPLY_ERROR] + EncodeError(e)
  }

  function Frame(body: seq<Byte>): Result<seq<Byte>, Error> {
    if |body| > MAX_FRAME then Err(FrameTooLarge(|body|)) else Ok(Put16(|body|) + body)
  }

  // ----- What the decoders read.

  function ReadAddr(s: seq<Byte>, n: Byte): (Result<Addr, Error>, seq<Byte>) {
    if n != 4 && n != 16 then (Err(AddressLength(n)), s)
    else
      var (raw, rest) := Full(s, n);
      (match raw
       case Err(e) => Err(Ended(e))
       case Ok(b) => Ok(if n == 4 then V4(b) else V6(b)), rest)
  }

  function ReadDestFrom(s: seq<Byte>): (Result<Dest, Error>, seq<Byte>) {
    var (length, afterLength) := Full(s, 1);
    if length.Err? then (Err(Ended(length.error)), afterLength)
    else
      var (addr, afterAddr) := ReadAddr(afterLength, length.value[0]);
      if addr.Err? then (Err(addr.error), afterAddr)
      else
        var (port, rest) := Full(afterAddr, 2);
        if port.Err? then (Err(Ended(port.error)), rest) else (Ok(Dest(addr.value, Get16(port.value))), rest)
  }

  function ReadFrameFrom(s: seq<Byte>): (r: (Result<seq<Byte>, Error>, seq<Byte>))
    ensures r.0.Ok? ==> |r.1| < |s|
  {
    var (header, rest) := Full(s, 2);
    if header.Err? then (Err(Ended(header.error)), rest)
    else if Get16(header.value) == 0 then (Ok([]), rest)
    else
      var (body, left) := Full(rest, Get16(header.value));
      (match body
       case Err(e) => Err(Ended(e))
       case Ok(b) => Ok(b), left)
  }

  function DecodeError(b: seq<Byte>): Result<IcmpError, Error> {
    if |b| < ERROR_HEADER then Err(FrameTooShort(|b|))
    else
      var n := b[6];
      if (n != 4 && n != 16) || |b| < ERROR_HEADER + n then Err(AddressLength(n))
      else
        var raw := b[ERROR_HEADER..ERROR_HEADER + n];
        Ok(IcmpError(b[0], b[1], Get32(b[2..6]), if n == 4 then V4(raw) else V6(raw), b[ERROR_HEADER + n..]))
  }

  function DecodeReply(frame: seq<Byte>, echo: bool): Result<Message, Error> {
    if |frame| < 1 then Err(FrameTooShort(0))
    else if frame[0] == REPLY_DATA then
      if !echo then Ok(UdpData(frame[1..]))
      else if |frame| - 1 < 6 then Err(FrameTooShort(|frame|))
      else Ok(EchoData(Get16(frame[1..3]), Get32(frame[3..7]) * 1000, frame[7..]))
    else if frame[0] == REPLY_ERROR then
      match DecodeError(frame[1..])
      case Err(e) => Err(e)
      case Ok(e) => Ok(if echo then EchoError(e) else UdpError(e))
    else Err(UnknownReply(frame[0]))
  }

  function Decode(d: Direction, frame: seq<Byte>): Result<Message, Error> {
    match d
    case UdpRequests =>
      if |frame| < 1 then Err(FrameTooShort(|frame|)) else Ok(UdpRequest(frame[0], frame[1..]))
    case EchoRequests =>
      if |frame| < 3 then Err(FrameTooShort(|frame|)) else Ok(EchoRequest(Get16(frame[..2]), frame[2], frame[3..]))
    case UdpReplies => DecodeReply(frame, false)
    case EchoReplies => DecodeReply(frame, true)
  }

  /** The messages of a stream up to the first frame that does not read or does not decode. */
  function ReadAll(d: Direction, s: seq<Byte>): (r: (seq<Message>, Error))
    decreases |s|
  {
    var (frame, rest) := ReadFrameFrom(s);
    if frame.Err? then ([], frame.error)
    else
      match Decode(d, frame.value)
      case Err(e) => ([], e)
      case Ok(m) => var (ms, e) := ReadAll(d, rest); ([m] + ms, e)
  }

  // ----- One message.

  predicate Belongs(m: Message, d: Direction) {
    match d
    case UdpRequests => m.UdpRequest?
    case EchoRequests => m.EchoRequest?
    case UdpReplies => m.UdpData? || m.UdpError?
    case EchoReplies => m.EchoData? || m.EchoError?
  }

  function NormalError(e: IcmpError): IcmpError {
    e.(from := Unmap(e.from))
  }

  /** What arrives of a message: addresses unmapped, the round-trip time in whole microseconds and
      no more than 32 bits of them hold. */
  function Normal(m: Message): Message {
    match m
    case UdpError(e) => UdpError(NormalError(e))
    case EchoError(e) => EchoError(NormalError(e))
    case EchoData(number, rtt, payload) => EchoData(number, Min(rtt - rtt % 1000, MAX_MICROS * 1000), payload)
    case _ => m
  }

  predicate HasSender(m: Message) {
    (m.UdpError? || m.EchoError?) ==> !m.error.from.Unset?
  }

  /** An ICMP error decodes to itself exactly when it names the sender. */
  lemma ErrorRoundTrip(e: IcmpError)
    ensures DecodeError(EncodeError(e)) == Ok(NormalError(e)) <==> !e.from.Unset?
    ensures e.from.Unset? ==> DecodeError(EncodeError(e)) == Err(AddressLength(0))
  {
    var raw := AsSlice(Unmap(e.from));
    var b := EncodeError(e);
    assert b == [e.typ, e.code] + (Put32(e.info) + ([|raw|] + raw + e.inner));
    assert b[2..6] == Put32(e.info) + [];
    Get32Put32(e.info, []);
    assert b[ERROR_HEADER..ERROR_HEADER + |raw|] == raw;
    assert b[ERROR_HEADER + |raw|..] == e.inner;
  }

  lemma MessageRoundTrip(m: Message, d: Direction)
    requires Belongs(m, d)
    ensures Decode(d, Encode(m)) == Ok(Normal(m)) <==> HasSender(m)
  {
    var b := Encode(m);
    match m
    case UdpRequest(ttl, payload) => assert b[1..] == payload;
    case UdpData(payload) => assert b[1..] == payload;
    case UdpError(e) => assert b[1..] == EncodeError(e); ErrorRoundTrip(e);
    case EchoError(e) => assert b[1..] == EncodeError(e); ErrorRoundTrip(e);
    case EchoRequest(number, ttl, payload) =>
      Parts([], Put16(number), [ttl] + payload);
      Get16Put16(number, []);
      assert b == [] + Put16(number) + ([ttl] + payload) && Put16(number) + [] == Put16(number);
      assert b[3..] == payload;
    case EchoData(number, rtt, payload) =>
      EchoDataReads(number, EncodeRtt(rtt), Put16(number), Put32(EncodeRtt(rtt)), payload);
      WholeMicros(rtt);
  }

  lemma Parts(a: seq<Byte>, b: seq<Byte>, c: seq<Byte>)
    ensures (a + b + c)[|a|..|a| + |b|] == b && (a + b + c)[|a| + |b|..] == c
  {
  }

  /** The reply with a number and a time that are encoded in two and four bytes. */
  lemma EchoDataReads(number: Uint16, micros: Uint32, two: seq<Byte>, four: seq<Byte>, payload: seq<Byte>)
    requires two == Put16(number) && four == Put32(micros) && |two| == 2 && |four| == 4
    ensures DecodeReply([REPLY_DATA] + two + four + payload, true) == Ok(EchoData(number, micros * 1000, payload))
  {
    var b := [REPLY_DATA] + two + four + payload;
    Parts([REPLY_DATA], two, four + payload);
    Parts([REPLY_DATA] + two, four, payload);
    assert b == [REPLY_DATA] + two + (four + payload);
    assert two + [] == two && four + [] == four;
    Get16Put16(number, []);
    Get32Put32(micros, []);
  }

  lemma WholeMicros(rtt: nat)
    ensures EncodeRtt(rtt) * 1000 == Min(rtt - rtt % 1000, MAX_MICROS * 1000)
  {
    assert rtt / 1000 * 1000 == rtt - rtt % 1000;
  }

  // ----- A stream of frames, whole or cut.

  predicate Fits(m: Message) {
    |Encode(m)| <= MAX_FRAME
  }

  predicate Sendable(ms: seq<Message>, d: Direction) {
    forall i :: 0 <= i < |ms| ==> Belongs(ms[i], d) && HasSender(ms[i]) && Fits(ms[i])
  }

  function Stream(ms: seq<Message>): seq<Byte>
    requires forall i :: 0 <= i < |ms| ==> Fits(ms[i])
  {
    if ms == [] then [] else assert Fits(ms[0]); Frame(Encode(ms[0])).value + Stream(ms[1..])
  }

  function NormalAll(ms: seq<Message>): (ns: seq<Message>)
    ensures |ns| == |ms| && forall i :: 0 <= i < |ms| ==> ns[i] == Normal(ms[i])
  {
    if ms == [] then [] else [Normal(ms[0])] + NormalAll(ms[1..])
  }

  /** The frames that lie whole within the first k bytes, and the bytes past the last of them. */
  function Whole(ms: seq<Message>, k: nat): (r: (nat, nat))
    ensures r.0 <= |ms|
  {
    if ms == [] || k < 2 + |Encode(ms[0])| then (0, k)
    else
      var (n, left) := Whole(ms[1..], k - 2 - |Encode(ms[0])|);
      (n + 1, left)
  }

  /** A cut between frames reads as the end of the stream. So does a cut after the two length bytes
      of a frame; every other cut shows. */
  function CutError(left: nat): Error {
    Ended(if left == 0 || left == 2 then Eof else UnexpectedEof)
  }

  lemma FrameReadsBack(body: seq<Byte>, rest: seq<Byte>, k: nat)
    requires 0 < |body| <= MAX_FRAME && k <= 2 + |body| + |rest|
    ensures var s := (Frame(body).value + rest)[..k];
      if k >= 2 + |body| then ReadFrameFrom(s) == (Ok(body), rest[..k - 2 - |body|])
      else ReadFrameFrom(s) == (Err(CutError(k)), [])
  {
    assert Frame(body).value + rest == Put16(|body|) + (body + rest);
    FullReadsBack(Put16(|body|), body + rest, k);
    if k >= 2 {
      assert Put16(|body|) + [] == Put16(|body|);
      Get16Put16(|body|, []);
      FullReadsBack(body, rest, k - 2);
    }
  }

  /** A whole frame in front of a stream: its message, then what the rest yields. */
  lemma ReadCons(m: Message, d: Direction, rest: seq<Byte>)
    requires Belongs(m, d) && HasSender(m) && Fits(m)
    ensures var (ms, e) := ReadAll(d, rest); ReadAll(d, Frame(Encode(m)).value + rest) == ([Normal(m)] + ms, e)
  {
    var s := Frame(Encode(m)).value + rest;
    FrameReadsBack(Encode(m), rest, |s|);
    assert s[..|s|] == s && rest[..|rest|] == rest;
    MessageRoundTrip(m, d);
  }

  /** A frame that is cut off yields no message. */
  lemma ReadCut(m: Message, d: Direction, rest: seq<Byte>, k: nat)
    requires Fits(m) && k < 2 + |Encode(m)|
    ensures ReadAll(d, (Frame(Encode(m)).value + rest)[..k]) == ([], CutError(k))
  {
    FrameReadsBack(Encode(m), rest, k);
  }

  lemma NormalCons(ms: seq<Message>, n: nat)
    requires 0 < n <= |ms|
    ensures NormalAll(ms[..n]) == [Normal(ms[0])] + NormalAll(ms[1..][..n - 1])
  {
    assert ms[..n][1..] == ms[1..][..n - 1];
  }

  /** What a reader gets of a stream up to a cut: the whole frames, then the end. */
  ghost predicate CutReads(ms: seq<Message>, d: Direction, s: seq<Byte>, k: nat) {
    var (n, left) := Whole(ms, k);
    ReadAll(d, s) == (NormalAll(ms[..n]), CutError(left))
  }

  lemma FirstCut(ms: seq<Message>, d: Direction, rest: seq<Byte>, k: nat)
    requires ms != [] && Fits(ms[0]) && k < 2 + |Encode(ms[0])|
    ensures CutReads(ms, d, (Frame(Encode(ms[0])).value + rest)[..k], k)
  {
    ReadCut(ms[0], d, rest, k);
    assert ms[..0] == [];
  }

  lemma LaterCut(ms: seq<Message>, d: Direction, s: seq<Byte>, k: nat)
    requires ms != [] && Belongs(ms[0], d) && HasSender(ms[0]) && Fits(ms[0]) && k >= 2 + |Encode(ms[0])|
    requires CutReads(ms[1..], d, s, k - 2 - |Encode(ms[0])|)
    ensures CutReads(ms, d, Frame(Encode(ms[0])).value + s, k)
  {
    ReadCons(ms[0], d, s);
    NormalCons(ms, Whole(ms, k).0);
  }

  /** Frames delimit themselves: of a stream cut anywhere, a reader gets exactly the messages whose
      frames are whole, and then an end of stream; it never gets a message that was not sent. */
  lemma {:induction false} CutStream(ms: seq<Message>, d: Direction, k: nat)
    requires Sendable(ms, d) && k <= |Stream(ms)|
    ensures var (n, left) := Whole(ms, k);
      ReadAll(d, Stream(ms)[..k]) == (NormalAll(ms[..n]), CutError(left))
  {
    CutStreamReads(ms, d, k);
  }

  lemma LaterCutAt(ms: seq<Message>, d: Direction, rest: seq<Byte>, k: nat)
    requires ms != [] && Belongs(ms[0], d) && HasSender(ms[0]) && Fits(ms[0])
    requires 2 + |Encode(ms[0])| <= k <= 2 + |Encode(ms[0])| + |rest|
    requires CutReads(ms[1..], d, rest[..k - 2 - |Encode(ms[0])|], k - 2 - |Encode(ms[0])|)
    ensures CutReads(ms, d, (Frame(Encode(ms[0])).value + rest)[..k], k)
  {
    LaterCut(ms, d, rest[..k - 2 - |Encode(ms[0])|], k);
    CutConcat(Frame(Encode(ms[0])).value, rest, k);
  }

  lemma {:induction false} CutStreamReads(ms: seq<Message>, d: Direction, k: nat)
    requires Sendable(ms, d) && k <= |Stream(ms)|
    ensures CutReads(ms, d, Stream(ms)[..k], k)
    decreases |ms|
  {
    if ms == [] {
      assert Stream(ms)[..k] == [] && ms[..0] == [];
    } else if k < 2 + |Encode(ms[0])| {
      FirstCut(ms, d, Stream(ms[1..]), k);
    } else {
      CutStreamReads(ms[1..], d, k - 2 - |Encode(ms[0])|);
      LaterCutAt(ms, d, Stream(ms[1..]), k);
    }
  }

  lemma CutConcat(a: seq<Byte>, b: seq<Byte>, k: nat)
    requires |a| <= k <= |a| + |b|
    ensures (a + b)[..k] == a + b[..k - |a|]
  {
  }

  lemma {:induction false} WholeStream(ms: seq<Message>)
    requires forall i :: 0 <= i < |ms| ==> Fits(ms[i])
    ensures Whole(ms, |Stream(ms)|) == (|ms|, 0)
  {
    if ms != [] {
      WholeStream(ms[1..]);
    }
  }

  // ----- A flow.

  datatype Flow = Refused(error: Error) | Other(kind: Byte) | Flow(dest: Dest, messages: seq<Message>, ending: Error)

  function KindOf(d: Direction): Byte
    requires d.UdpRequests? || d.EchoRequests?
  {
    if d.UdpRequests? then KIND_UDP else KIND_ICMP
  }

  function FlowStream(d: Direction, dest: Dest, ms: seq<Message>): seq<Byte>
    requires (d.UdpRequests? || d.EchoRequests?) && Sendable(ms, d)
  {
    [KindOf(d)] + (EncodeDest(dest) + Stream(ms))
  }

  /** What the helper makes of a stream: the kind selects the handler, the handler reads the
      destination and then requests. */
  function ReadFlow(s: seq<Byte>): Flow {
    var (kind, afterKind) := Full(s, 1);
    if kind.Err? then Refused(Ended(kind.error))
    else if kind.value[0] != KIND_UDP && kind.value[0] != KIND_ICMP then Other(kind.value[0])
    else ReadRequests(if kind.value[0] == KIND_UDP then UdpRequests else EchoRequests, afterKind)
  }

  function ReadRequests(d: Direction, s: seq<Byte>): Flow {
    var (dest, rest) := ReadDestFrom(s);
    if dest.Err? then Refused(dest.error)
    else
      var (ms, e) := ReadAll(d, rest);
      Flow(dest.value, ms, e)
  }

  lemma DestReadsBack(dest: Dest, rest: seq<Byte>, k: nat)
    requires k <= |EncodeDest(dest)| + |rest|
    ensures var s := (EncodeDest(dest) + rest)[..k];
      if k >= |EncodeDest(dest)|
      then ReadDestFrom(s) == (Ok(dest.(addr := DestAddr(dest.addr))), rest[..k - |EncodeDest(dest)|])
      else ReadDestFrom(s).0.Err?
  {
    var raw := AsSlice(DestAddr(dest.addr));
    assert EncodeDest(dest) + rest == [|raw|] + (raw + (Put16(dest.port) + rest));
    FullReadsBack([|raw|], raw + (Put16(dest.port) + rest), k);
    if k >= 1 {
      FullReadsBack(raw, Put16(dest.port) + rest, k - 1);
      if k >= 1 + |raw| {
        FullReadsBack(Put16(dest.port), rest, k - 1 - |raw|);
        assert Put16(dest.port) + [] == Put16(dest.port);
        Get16Put16(dest.port, []);
      }
    }
  }

  /** What a flow yields of its first k bytes. */
  function FlowUpTo(d: Direction, dest: Dest, ms: seq<Message>, k: int): Flow
    requires k >= |EncodeDest(dest)|
  {
    var (n, left) := Whole(ms, k - |EncodeDest(dest)|);
    Flow(Dest(DestAddr(dest.addr), dest.port), ms[..n], CutError(left))
  }

  /** A flow reads back from its stream, and a cut flow yields its destination only when that
      arrived whole, and then exactly the requests that did. */
  lemma FlowReadsBack(d: Direction, dest: Dest, ms: seq<Message>, k: nat)
    requires (d.UdpRequests? || d.EchoRequests?) && Sendable(ms, d)
    requires k <= |FlowStream(d, dest, ms)|
    ensures var flow := ReadFlow(FlowStream(d, dest, ms)[..k]);
      if k <= |EncodeDest(dest)| then flow.Refused? else flow == FlowUpTo(d, dest, ms, k - 1)
  {
    KindReadsBack(d, EncodeDest(dest) + Stream(ms), k);
    if k > 0 {
      RequestsReadBack(d, dest, ms, k - 1);
    }
  }

  lemma KindReadsBack(d: Direction, rest: seq<Byte>, k: nat)
    requires (d.UdpRequests? || d.EchoRequests?) && k <= 1 + |rest|
    ensures ReadFlow(([KindOf(d)] + rest)[..k]) == if k == 0 then Refused(Ended(Eof)) else ReadRequests(d, rest[..k - 1])
  {
    FullReadsBack([KindOf(d)], rest, k);
  }

  lemma RequestsReadBack(d: Direction, dest: Dest, ms: seq<Message>, k: nat)
    requires (d.UdpRequests? || d.EchoRequests?) && Sendable(ms, d)
    requires k <= |EncodeDest(dest) + Stream(ms)|
    ensures var flow := ReadRequests(d, (EncodeDest(dest) + Stream(ms))[..k]);
      if k < |EncodeDest(dest)| then flow.Refused? else flow == FlowUpTo(d, dest, ms, k)
  {
    DestReadsBack(dest, Stream(ms), k);
    if k >= |EncodeDest(dest)| {
      CutStream(ms, d, k - |EncodeDest(dest)|);
      RequestsAreNormal(ms, d, Whole(ms, k - |EncodeDest(dest)|).0);
    }
  }

  lemma RequestsAreNormal(ms: seq<Message>, d: Direction, n: nat)
    requires (d.UdpRequests? || d.EchoRequests?) && Sendable(ms, d) && n <= |ms|
    ensures NormalAll(ms[..n]) == ms[..n]
  {
  }

  // ----- The code that reads and writes.

  method ReadDest(r: Reader<Byte>) returns (dest: Result<Dest, Error>)
    modifies r
    ensures (dest, r.rest) == ReadDestFrom(old(r.rest))
  {
    var length := r.ReadFull(1);
    if length.Err? {
      return Err(Ended(length.error));
    }
    var addr: Addr;
    if length.value[0] == 4 {
      var b := r.ReadFull(4);
      if b.Err? {
        return Err(Ended(b.error));
      }
      addr := V4(b.value);
    } else if length.value[0] == 16 {
      var b := r.ReadFull(16);
      if b.Err? {
        return Err(Ended(b.error));
      }
      addr := V6(b.value);
    } else {
      return Err(AddressLength(length.value[0]));
    }
    var port := r.ReadFull(2);
    if port.Err? {
      return Err(Ended(port.error));
    }
    dest := Ok(Dest(addr, Get16(port.value)));
  }

  method ReadFrame(r: Reader<Byte>) returns (frame: Result<seq<Byte>, Error>)
    modifies r
    ensures (frame, r.rest) == ReadFrameFrom(old(r.rest))
  {
    var header := r.ReadFull(2);
    if header.Err? {
      return Err(Ended(header.error));
    }
    var n := Get16(header.value);
    if n == 0 {
      return Ok([]);
    }
    var body := r.ReadFull(n);
    frame := if body.Ok? then Ok(body.value) else Err(Ended(body.error));
  }

  /** all is what was read so far and what the rest of the stream will yield. */
  ghost predicate Continues(all: (seq<Message>, Error), messages: seq<Message>, d: Direction, s: seq<Byte>) {
    all == (messages + ReadAll(d, s).0, ReadAll(d, s).1)
  }

  lemma ReadEnds(all: (seq<Message>, Error), messages: seq<Message>, d: Direction, s: seq<Byte>, e: Error)
    requires Continues(all, messages, d, s)
    requires ReadFrameFrom(s).0 == Err(e) || (ReadFrameFrom(s).0.Ok? && Decode(d, ReadFrameFrom(s).0.value) == Err(e))
    ensures all == (messages, e)
  {
    assert messages + [] == messages;
  }

  lemma ReadGoesOn(all: (seq<Message>, Error), messages: seq<Message>, d: Direction, s: seq<Byte>, m: Message)
    requires Continues(all, messages, d, s)
    requires ReadFrameFrom(s).0.Ok? && Decode(d, ReadFrameFrom(s).0.value) == Ok(m)
    ensures Continues(all, messages + [m], d, ReadFrameFrom(s).1)
  {
    var ms := ReadAll(d, ReadFrameFrom(s).1).0;
    assert messages + ([m] + ms) == messages + [m] + ms;
  }

  /** The read loop of a relay, from the first frame to the error that ends it. */
  method ReadMessages(r: Reader<Byte>, d: Direction) returns (messages: seq<Message>, ending: Error)
    modifies r
    ensures (messages, ending) == ReadAll(d, old(r.rest))
  {
    messages := [];
    ghost var all := ReadAll(d, r.rest);
    assert [] + all.0 == all.0;
    while true
      invariant Continues(all, messages, d, r.rest)
      decreases |r.rest|
    {
      ghost var before := r.rest;
      var frame := ReadFrame(r);
      if frame.Err? {
        ReadEnds(all, messages, d, before, frame.error);
        return messages, frame.error;
      }
      var m := Decode(d, frame.value);
      if m.Err? {
        ReadEnds(all, messages, d, before, m.error);
        return messages, m.error;
      }
      ReadGoesOn(all, messages, d, before, m.value);
      messages := messages + [m.value];
    }
  }

  /** The stream a side writes, as the bytes written so far. */
  class Writer {
    var sent: seq<Byte>

    constructor ()
      ensures sent == []
    {
      sent := [];
    }

    method WriteFrame(p: seq<Byte>) returns (r: Result<(), Error>)
      modifies this
      ensures r == (if |p| > MAX_FRAME then Err(FrameTooLarge(|p|)) else Ok(()))
      ensures sent == old(sent) + if |p| > MAX_FRAME then [] else Frame(p).value
    {
      if |p| > MAX_FRAME {
        return Err(FrameTooLarge(|p|));
      }
      var buf := new Byte[2 + |p|](_ => 0);
      buf[0], buf[1] := |p| / 256, |p| % 256;
      forall i | 0 <= i < |p| {
        buf[2 + i] := p[i];
      }
      assert buf[..] == Frame(p).value;
      sent := sent + buf[..];
      r := Ok(());
    }
  }

  /** An echo data reply, filled into a fresh buffer. */
  method EncodeEchoData(number: Uint16, rtt: nat, payload: seq<Byte>) returns (buf: array<Byte>)
    ensures buf[..] == Encode(EchoData(number, rtt, payload))
  {
    buf := new Byte[7 + |payload|](_ => 0);
    buf[0] := REPLY_DATA;
    buf[1], buf[2] := number / 256, number % 256;
    var micros: Uint32 := if rtt / 1000 < MAX_MICROS then rtt / 1000 else MAX_MICROS;
    var high, low := micros / 0x1_0000, micros % 0x1_0000;
    buf[3], buf[4], buf[5], buf[6] := high / 256, high % 256, low / 256, low % 256;
    forall i | 0 <= i < |payload| {
      buf[7 + i] := payload[i];
    }
  }
}
