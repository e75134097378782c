/** Runs of the BBR sender: what its caller, the QUIC connection, does to it, and the calls its
    bandwidth sampler sees. */
module BbrRuns {
  import opened Arith
  import opened PacketQueues
  import SM = SamplerModel
  import opened SamplerModel
  import opened BbrModel

  datatype Op =
    | Send(time: int, inFlight: int, pn: int, bytes: int, retransmittable: bool)
    | Congestion(e: BbrModel.Event)
    | Resize(datagram: int)

  /** The sender with the latest time it was told. */
  datatype World = World(b: Bbr, clock: int)

  /** What the connection does: time does not go back, packet numbers increase, and the datagram
      size never falls, which the sender answers with a panic. */
  ghost predicate Possible(w: World, op: Op) {
    match op
    case Send(time, _, pn, bytes, _) => 0 < time && w.clock <= time && pn > w.b.lastSentPacket && bytes >= 0
    case Congestion(e) =>
      && e.Valid() && 0 < e.time && w.clock <= e.time
      && forall i | 0 <= i < |e.acked| :: e.acked[i].packetNumber >= 0
    case Resize(datagram) => 0 < w.b.limits.datagram <= datagram
  }

  ghost function Stepped(w: World, op: Op): World
    requires Possible(w, op)
  {
    match op
    case Send(time, inFlight, pn, bytes, retransmittable) =>
      World(BbrModel.OnPacketSent(w.b, time, inFlight, pn, bytes, retransmittable), time)
    case Congestion(e) => World(BbrModel.OnCongestionEvent(w.b, e), e.time)
    case Resize(datagram) => World(SetMaxDatagramSize(w.b, datagram), w.clock)
  }

  ghost function Start(datagram: int, maxWindowPackets: int): World {
    World(New(datagram, maxWindowPackets), 0)
  }

  /** ws are the states of a run: ws[n] is the one before operation n. */
  ghost predicate Trace(ws: seq<World>, ops: seq<Op>) {
    && |ws| == |ops| + 1
    && forall n | 0 <= n < |ops| :: Possible(ws[n], ops[n]) && ws[n + 1] == Stepped(ws[n], ops[n])
  }

  /** A run from a new sender with the given datagram size and maximum window in packets. */
  ghost predicate Run(ws: seq<World>, ops: seq<Op>, datagram: int, maxPackets: int) {
    Trace(ws, ops) && ws[0] == Start(datagram, maxPackets)
  }

  /** The clock and the packet numbers only grow. */
  ghost predicate Grows(w: World, w': World) {
    w.clock <= w'.clock && w.b.lastSentPacket <= w'.b.lastSentPacket
  }

  lemma StepGrows(w: World, op: Op)
    requires Possible(w, op)
    ensures Grows(w, Stepped(w, op))
    ensures op.Congestion? ==> Stepped(w, op).clock == op.e.time
  {
    if op.Congestion? {
      EventKeepsSent(w.b, op.e);
    }
  }

  lemma {:induction false} GrowsOn(ws: seq<World>, m: nat, n: nat)
    requires m <= n < |ws| && forall i | 0 <= i < |ws| - 1 :: Grows(ws[i], ws[i + 1])
    ensures Grows(ws[m], ws[n])
    decreases n
  {
    if m < n {
      GrowsOn(ws, m, n - 1);
      assert Grows(ws[n - 1], ws[n - 1 + 1]);
    }
  }

  /** What an event leaves alone. */
  lemma PathKeeps(b: Bbr, e: BbrModel.Event)
    ensures var b1 := PathUpdated(b, e).0;
            && b1.lastSentPacket == b.lastSentPacket && b1.limits == b.limits && b1.phase == b.phase
            && b1.congestionWindow == b.congestionWindow && b1.pacingRate == b.pacingRate
            && b1.bytesInFlight == e.priorInFlight - AckedBytes(e.acked) - LostBytes(e.lost)
  {
  }

  lemma EventKeepsSent(b: Bbr, e: BbrModel.Event)
    requires e.Valid()
    ensures BbrModel.OnCongestionEvent(b, e).lastSentPacket == b.lastSentPacket
    ensures BbrModel.OnCongestionEvent(b, e).limits == b.limits
  {
    PathKeeps(b, e);
  }
}
