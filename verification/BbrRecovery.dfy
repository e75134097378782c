/** Loss recovery of the BBR sender over whole runs. */
module BbrRecoveries {
  import opened Arith
  import opened SamplerModel
  import opened BbrModel
  import opened BbrRuns

  /** An event that carried both acks and losses. */
  ghost predicate AcksAndLoses(op: Op) {
    op.Congestion? && op.e.acked != [] && op.e.lost != []
  }

  /** An event with acks but no losses. */
  ghost predicate OnlyAcks(op: Op) {
    op.Congestion? && op.e.acked != [] && op.e.lost == []
  }

  /** The last packet acked was sent after the mark; -1 marks nothing. */
  ghost predicate AcksBeyond(e: BbrModel.Event, mark: int) {
    e.acked != [] && (mark == -1 || LastAcked(e) > mark)
  }

  ghost predicate Begins(b: Bbr, b': Bbr) {
    !InRecovery(b) && InRecovery(b')
  }

  /** What one event does to the state of recovery, when recovery is only ever on at full
      bandwidth. */
  ghost predicate RecoveryStep(b: Bbr, b': Bbr, e: BbrModel.Event) {
    var r, r' := b.recovery, b'.recovery;
    && b'.lastSentPacket == b.lastSentPacket
    && (b.phase.isAtFullBandwidth ==> b'.phase.isAtFullBandwidth)
    && (r.state == NotInRecovery ==>
          && (r'.state != NotInRecovery <==> b.phase.isAtFullBandwidth && e.acked != [] && e.lost != [])
          && (r'.state != NotInRecovery ==> r'.state == Conservation && r'.endAt == b.lastSentPacket))
    && (r.state != NotInRecovery ==>
          && r'.endAt == (if e.acked != [] && e.lost != [] then b.lastSentPacket else r.endAt)
          && (r'.state == NotInRecovery <==> e.acked != [] && e.lost == [] && LastAcked(e) > r.endAt))
    && (r.state == Conservation ==>
          (r'.state == Growth <==> AcksBeyond(e, b.round.currentRoundTripEnd) && r'.state != NotInRecovery))
    && (r.state == Growth ==> r'.state != Conservation)
  }

  /** What one event does to the round: it counts one when it acks beyond the mark, and a new round
      or the start of recovery sets the mark. */
  ghost predicate RoundStep(b: Bbr, b': Bbr, e: BbrModel.Event) {
    && b'.round.count == b.round.count + (if AcksBeyond(e, b.round.currentRoundTripEnd) then 1 else 0)
    && b'.round.currentRoundTripEnd
       == (if AcksBeyond(e, b.round.currentRoundTripEnd) || Begins(b, b') then b.lastSentPacket
           else b.round.currentRoundTripEnd)
  }

  lemma PathRecovery(b: Bbr, e: BbrModel.Event)
    requires InRecovery(b) ==> b.phase.isAtFullBandwidth
    ensures var b1 := PathUpdated(b, e).0;
            RecoveryStep(b, b1, e) && RoundStep(b, b1, e)
  {
    PathKeeps(b, e);
    RoundsRecovery(Received(b, e), e);
  }

  lemma RoundsRecovery(b: Bbr, e: BbrModel.Event)
    requires InRecovery(b) ==> b.phase.isAtFullBandwidth
    ensures RecoveryStep(b, Rounds(b, e), e) && RoundStep(b, Rounds(b, e), e)
  {
  }

  lemma ModesKeepRecovery(b: Bbr, e: BbrModel.Event, roundStart: bool, expired: bool, state: SendTimeState)
    requires e.Valid()
    ensures var b' := Modes(b, e, roundStart, expired, state);
            && b'.recovery == b.recovery && b'.round == b.round && b'.lastSentPacket == b.lastSentPacket
            && (b.phase.isAtFullBandwidth ==> b'.phase.isAtFullBandwidth)
  {
  }

  lemma EventRecovery(b: Bbr, e: BbrModel.Event)
    requires e.Valid() && (InRecovery(b) ==> b.phase.isAtFullBandwidth)
    ensures RecoveryStep(b, BbrModel.OnCongestionEvent(b, e), e) && RoundStep(b, BbrModel.OnCongestionEvent(b, e), e)
  {
    PathRecovery(b, e);
    var (b1, v) := PathUpdated(b, e);
    ModesKeepRecovery(b1, e, RoundStart(b, e), SeesExpiry(b, e, v), v.lastPacketSendState);
  }

  /** What one operation does to recovery. */
  ghost predicate OpStep(w: World, w': World, op: Op) {
    && Grows(w, w')
    && (InRecovery(w.b) ==> w.b.phase.isAtFullBandwidth)
    && if op.Congestion? then
         RecoveryStep(w.b, w'.b, op.e) && RoundStep(w.b, w'.b, op.e) && (op.e.acked != [] ==> LastAcked(op.e) >= 0)
       else
         && w'.b.recovery.state == w.b.recovery.state && w'.b.recovery.endAt == w.b.recovery.endAt
         && w'.b.round == w.b.round && w'.b.phase.isAtFullBandwidth == w.b.phase.isAtFullBandwidth
  }

  ghost predicate RecoveryTrace(ws: seq<World>, ops: seq<Op>) {
    && |ws| == |ops| + 1 && !InRecovery(ws[0].b)
    && forall n | 0 <= n < |ops| :: OpStep(ws[n], ws[n + 1], ops[n])
  }

  lemma StepIsOpStep(w: World, op: Op)
    requires Possible(w, op) && (InRecovery(w.b) ==> w.b.phase.isAtFullBandwidth)
    ensures OpStep(w, Stepped(w, op), op)
    ensures InRecovery(Stepped(w, op).b) ==> Stepped(w, op).b.phase.isAtFullBandwidth
  {
    StepGrows(w, op);
    if op.Congestion? {
      EventRecovery(w.b, op.e);
      assert op.e.acked != [] ==> op.e.acked[|op.e.acked| - 1].packetNumber >= 0;
    }
  }

  lemma {:induction false} RecoveryNeedsFull(ws: seq<World>, ops: seq<Op>, n: nat)
    requires Trace(ws, ops) && !InRecovery(ws[0].b) && n < |ws|
    ensures InRecovery(ws[n].b) ==> ws[n].b.phase.isAtFullBandwidth
  {
    if n > 0 {
      RecoveryNeedsFull(ws, ops, n - 1);
      StepIsOpStep(ws[n - 1], ops[n - 1]);
      assert ws[n - 1 + 1] == Stepped(ws[n - 1], ops[n - 1]);
    }
  }

  lemma TraceIsRecoveryTrace(ws: seq<World>, ops: seq<Op>)
    requires Trace(ws, ops) && !InRecovery(ws[0].b)
    ensures RecoveryTrace(ws, ops)
  {
    forall n | 0 <= n < |ops| ensures OpStep(ws[n], ws[n + 1], ops[n]) {
      RecoveryNeedsFull(ws, ops, n);
      StepIsOpStep(ws[n], ops[n]);
    }
  }

  ghost predicate Enters(ws: seq<World>, i: nat) {
    i < |ws| - 1 && !InRecovery(ws[i].b) && InRecovery(ws[i + 1].b)
  }

  /** Out of recovery, an operation begins it exactly at full bandwidth, when it is an event with
      acks and losses; recovery begins in CONSERVATION. */
  lemma EntersAtFullBandwidth(ws: seq<World>, ops: seq<Op>, n: nat)
    requires Trace(ws, ops) && !InRecovery(ws[0].b) && n < |ops| && !InRecovery(ws[n].b)
    ensures InRecovery(ws[n + 1].b) <==> ws[n].b.phase.isAtFullBandwidth && AcksAndLoses(ops[n])
    ensures InRecovery(ws[n + 1].b) ==> ws[n + 1].b.recovery.state == Conservation
  {
    TraceIsRecoveryTrace(ws, ops);
    assert OpStep(ws[n], ws[n + 1], ops[n]);
  }

  /** Operation i entered the CONSERVATION that still holds in state n. */
  ghost predicate ConservesSince(ws: seq<World>, i: nat, n: nat) {
    && i < n < |ws| && Enters(ws, i)
    && forall j | i < j <= n :: ws[j].b.recovery.state == Conservation
  }

  lemma {:induction false} ConservationHistory(ws: seq<World>, ops: seq<Op>, n: nat) returns (i: nat)
    requires RecoveryTrace(ws, ops) && n < |ws| && ws[n].b.recovery.state == Conservation
    ensures ConservesSince(ws, i, n)
    ensures ws[n].b.round.currentRoundTripEnd == ws[i].b.lastSentPacket <= ws[n].b.recovery.endAt
    ensures ws[i].b.lastSentPacket <= ws[n].b.lastSentPacket
  {
    i := n - 1;
    assert OpStep(ws[n - 1], ws[n - 1 + 1], ops[n - 1]);
    if InRecovery(ws[n - 1].b) {
      i := ConservationHistory(ws, ops, n - 1);
    }
  }

  /** CONSERVATION becomes GROWTH exactly when a packet sent after recovery began is acked and that
      does not end recovery; GROWTH never goes back. */
  lemma ConservationLastsARound(ws: seq<World>, ops: seq<Op>, n: nat) returns (i: nat)
    requires Trace(ws, ops) && !InRecovery(ws[0].b) && n < |ops| && ws[n].b.recovery.state == Conservation
    ensures ConservesSince(ws, i, n)
    ensures ws[n + 1].b.recovery.state == Growth
       <==> && ops[n].Congestion? && ops[n].e.acked != [] && LastAcked(ops[n].e) > ws[i].b.lastSentPacket
            && InRecovery(ws[n + 1].b)
  {
    TraceIsRecoveryTrace(ws, ops);
    assert OpStep(ws[n], ws[n + 1], ops[n]);
    i := ConservationHistory(ws, ops, n);
  }

  lemma GrowthNeverConserves(ws: seq<World>, ops: seq<Op>, n: nat)
    requires Trace(ws, ops) && !InRecovery(ws[0].b) && n < |ops| && ws[n].b.recovery.state == Growth
    ensures ws[n + 1].b.recovery.state != Conservation
  {
    TraceIsRecoveryTrace(ws, ops);
    assert OpStep(ws[n], ws[n + 1], ops[n]);
  }

  /** Operation k is the latest before n that carried both acks and losses. */
  ghost predicate LatestLoss(ops: seq<Op>, k: nat, n: nat) {
    && k < n <= |ops| && AcksAndLoses(ops[k])
    && forall j | k < j < n :: !AcksAndLoses(ops[j])
  }

  lemma {:induction false} LossHistory(ws: seq<World>, ops: seq<Op>, n: nat) returns (k: nat)
    requires RecoveryTrace(ws, ops) && n < |ws| && InRecovery(ws[n].b)
    ensures LatestLoss(ops, k, n) && ws[n].b.recovery.endAt == ws[k].b.lastSentPacket
  {
    k := n - 1;
    assert OpStep(ws[n - 1], ws[n - 1 + 1], ops[n - 1]);
    if !AcksAndLoses(ops[n - 1]) {
      k := LossHistory(ws, ops, n - 1);
    }
  }

  /** Recovery ends exactly in a loss-free event that acks a packet sent after the latest event that
      carried both acks and losses. */
  lemma RecoveryEndsAfterLosses(ws: seq<World>, ops: seq<Op>, n: nat) returns (k: nat)
    requires Trace(ws, ops) && !InRecovery(ws[0].b) && n < |ops| && InRecovery(ws[n].b)
    ensures LatestLoss(ops, k, n)
    ensures !InRecovery(ws[n + 1].b) <==> OnlyAcks(ops[n]) && LastAcked(ops[n].e) > ws[k].b.lastSentPacket
  {
    TraceIsRecoveryTrace(ws, ops);
    assert OpStep(ws[n], ws[n + 1], ops[n]);
    k := LossHistory(ws, ops, n);
  }

  /** Operation j counted a round or began recovery. */
  ghost predicate Marks(ws: seq<World>, j: nat) {
    j < |ws| - 1 && (ws[j + 1].b.round.count != ws[j].b.round.count || Enters(ws, j))
  }

  /** Operation k is the latest before n that set the mark of the round; k == n when there is none. */
  ghost predicate LatestMark(ws: seq<World>, k: nat, n: nat) {
    && k <= n < |ws| && (k < n ==> Marks(ws, k))
    && forall j | (if k < n then k + 1 else 0) <= j < n :: !Marks(ws, j)
  }

  lemma {:induction false} MarkHistory(ws: seq<World>, ops: seq<Op>, n: nat) returns (k: nat)
    requires RecoveryTrace(ws, ops) && ws[0].b.round.currentRoundTripEnd == -1 && n < |ws|
    ensures LatestMark(ws, k, n)
    ensures ws[n].b.round.currentRoundTripEnd == if k < n then ws[k].b.lastSentPacket else -1
  {
    k := n;
    if n > 0 {
      assert OpStep(ws[n - 1], ws[n - 1 + 1], ops[n - 1]);
      if Marks(ws, n - 1) {
        k := n - 1;
      } else {
        var k1 := MarkHistory(ws, ops, n - 1);
        k := if k1 < n - 1 then k1 else n;
      }
    }
  }

  /** A round trip is counted exactly when a packet is acked that was sent after the latest operation
      that counted a round or began recovery. */
  lemma RoundsAreCounted(ws: seq<World>, ops: seq<Op>, datagram: int, maxPackets: int, n: nat) returns (k: nat)
    requires Run(ws, ops, datagram, maxPackets) && n < |ops|
    ensures LatestMark(ws, k, n)
    ensures ws[n + 1].b.round.count == ws[n].b.round.count
          + if && ops[n].Congestion? && ops[n].e.acked != []
               && (k == n || ws[k].b.lastSentPacket == -1 || LastAcked(ops[n].e) > ws[k].b.lastSentPacket) then 1 else 0
  {
    TraceIsRecoveryTrace(ws, ops);
    assert OpStep(ws[n], ws[n + 1], ops[n]);
    k := MarkHistory(ws, ops, n);
  }
}
