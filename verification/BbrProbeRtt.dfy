/** The PROBE_RTT stays of the BBR sender over whole runs: how long each lasts, and how far
    apart they are. */
module BbrProbeRtts {
  import opened Arith
  import opened SamplerModel
  import opened BbrModel
  import opened BbrRuns
  import opened BbrModes

  ghost predicate Unscheduled(p: Phase) {
    p.mode == ProbeRtt && p.exitProbeRttAt == 0
  }

  /** The event found the flight small enough and timed the exit. */
  ghost predicate JustScheduled(b: Bbr, e: BbrModel.Event) {
    && b.phase.mode == ProbeRtt
    && b.phase.exitProbeRttAt == e.time + PROBE_RTT_TIME && !b.phase.probeRttRoundPassed
    && b.bytesInFlight < b.limits.minWindow + e.extraPacket
  }

  /** What one event does to a PROBE_RTT stay. */
  ghost predicate ProbeRttStep(b: Bbr, b': Bbr, e: BbrModel.Event, roundStart: bool) {
    var p, p' := b.phase, b'.phase;
    && (b'.path.minRttTimestamp == b.path.minRttTimestamp || b'.path.minRttTimestamp == e.time)
    && (p.mode != ProbeRtt && p'.mode == ProbeRtt ==>
          && e.time > b.path.minRttTimestamp + MIN_RTT_EXPIRY
          && (Unscheduled(p') || JustScheduled(b', e)))
    && (Unscheduled(p) ==> Unscheduled(p') || JustScheduled(b', e))
    && (p.mode == ProbeRtt && p.exitProbeRttAt != 0 && p'.mode == ProbeRtt ==>
          && p'.exitProbeRttAt == p.exitProbeRttAt
          && p'.probeRttRoundPassed == (p.probeRttRoundPassed || roundStart))
    && (p.mode == ProbeRtt && p'.mode != ProbeRtt ==>
          && ExitsProbeRtt(p, e.time, roundStart)
          && b'.path.minRttTimestamp == e.time)
  }

  lemma CycleKeepsProbeRtt(b: Bbr, e: BbrModel.Event, roundStart: bool, state: SendTimeState)
    requires e.Valid()
    ensures var p := CycleAndStartup(b, e, roundStart, state);
            && (p.mode == ProbeRtt <==> b.phase.mode == ProbeRtt)
            && p.exitProbeRttAt == b.phase.exitProbeRttAt
            && p.probeRttRoundPassed == b.phase.probeRttRoundPassed
  {
  }

  lemma StayStep(b: Bbr, e: BbrModel.Event, roundStart: bool, expired: bool)
    requires e.Valid() && e.time > 0
    ensures var b' := MaybeEnterOrExitProbeRtt(b, e, roundStart, expired);
            && (b'.path == b.path || (b.phase.mode == ProbeRtt && b'.path == b.path.(minRttTimestamp := e.time)))
            && b'.bytesInFlight == b.bytesInFlight && b'.limits == b.limits
            && (b.phase.mode != ProbeRtt && b'.phase.mode == ProbeRtt ==>
                  expired && (Unscheduled(b'.phase) || JustScheduled(b', e)))
            && (Unscheduled(b.phase) ==> Unscheduled(b'.phase) || JustScheduled(b', e))
            && (b.phase.mode == ProbeRtt && b.phase.exitProbeRttAt != 0 && b'.phase.mode == ProbeRtt ==>
                  && b'.phase.exitProbeRttAt == b.phase.exitProbeRttAt
                  && b'.phase.probeRttRoundPassed == (b.phase.probeRttRoundPassed || roundStart))
            && (b.phase.mode == ProbeRtt && b'.phase.mode != ProbeRtt ==>
                  ExitsProbeRtt(b.phase, e.time, roundStart) && b'.path.minRttTimestamp == e.time)
  {
  }

  lemma PathTimestamp(b: Bbr, e: BbrModel.Event)
    ensures var (b1, v) := PathUpdated(b, e);
            b1.path.minRttTimestamp == b.path.minRttTimestamp || b1.path.minRttTimestamp == e.time
  {
    assert Rounds(Received(b, e), e).path == b.path;
  }

  lemma EventStay(b: Bbr, e: BbrModel.Event)
    requires e.Valid() && e.time > 0
    ensures ProbeRttStep(b, BbrModel.OnCongestionEvent(b, e), e, RoundStart(b, e))
  {
    var (b1, v) := PathUpdated(b, e);
    PathKeeps(b, e);
    PathTimestamp(b, e);
    CycleKeepsProbeRtt(b1, e, RoundStart(b, e), v.lastPacketSendState);
    var b2 := b1.(phase := CycleAndStartup(b1, e, RoundStart(b, e), v.lastPacketSendState));
    StayStep(b2, e, RoundStart(b, e), SeesExpiry(b, e, v));
  }

  /** What one operation does to a PROBE_RTT stay: only events touch it. */
  ghost predicate OpStep(w: World, w': World, op: Op) {
    if op.Congestion? then
      && w.clock <= op.e.time == w'.clock
      && ProbeRttStep(w.b, w'.b, op.e, RoundStart(w.b, op.e))
    else
      && w'.clock >= w.clock && w'.b.path == w.b.path
      && w'.b.phase.mode == w.b.phase.mode && w'.b.phase.exitProbeRttAt == w.b.phase.exitProbeRttAt
      && w'.b.phase.probeRttRoundPassed == w.b.phase.probeRttRoundPassed
  }

  ghost predicate StayTrace(ws: seq<World>, ops: seq<Op>) {
    && |ws| == |ops| + 1 && ws[0].b.phase.mode != ProbeRtt
    && forall n | 0 <= n < |ops| :: OpStep(ws[n], ws[n + 1], ops[n])
  }

  lemma TraceIsStayTrace(ws: seq<World>, ops: seq<Op>)
    requires Trace(ws, ops) && ws[0].b.phase.mode != ProbeRtt
    ensures StayTrace(ws, ops)
  {
    forall n | 0 <= n < |ops| ensures OpStep(ws[n], ws[n + 1], ops[n]) {
      if ops[n].Congestion? {
        EventStay(ws[n].b, ops[n].e);
      }
    }
  }

  /** Operation s timed the exit of the stay that still holds in state n. */
  ghost predicate Scheduled(ws: seq<World>, ops: seq<Op>, s: nat, n: nat)
    requires |ws| == |ops| + 1
  {
    && s < n < |ws| && ops[s].Congestion?
    && JustScheduled(ws[s + 1].b, ops[s].e)
    && forall i | s < i <= n ::
         ws[i].b.phase.mode == ProbeRtt && ws[i].b.phase.exitProbeRttAt == ops[s].e.time + PROBE_RTT_TIME
  }

  ghost predicate RoundStartsAt(ws: seq<World>, ops: seq<Op>, r: nat)
    requires |ws| == |ops| + 1
  {
    r < |ops| && ops[r].Congestion? && RoundStart(ws[r].b, ops[r].e)
  }

  /** When the exit is timed: the operation that timed it, and, when a round passed since, the
      operation where that round started. */
  lemma {:induction false} StayHistory(ws: seq<World>, ops: seq<Op>, n: nat) returns (s: nat, r: nat)
    requires StayTrace(ws, ops) && n < |ws|
    requires ws[n].b.phase.mode == ProbeRtt && ws[n].b.phase.exitProbeRttAt != 0
    ensures Scheduled(ws, ops, s, n)
    ensures ws[n].b.phase.probeRttRoundPassed ==> s < r < n && RoundStartsAt(ws, ops, r)
    decreases n
  {
    s, r := n - 1, 0;
    assert OpStep(ws[n - 1], ws[n - 1 + 1], ops[n - 1]);
    var p := ws[n - 1].b.phase;
    if p.mode == ProbeRtt && p.exitProbeRttAt != 0 {
      s, r := StayHistory(ws, ops, n - 1);
      if !p.probeRttRoundPassed {
        r := n - 1;
      }
    }
  }

  /** Every PROBE_RTT stay that ends has lasted at least 200 ms since an event that found the
      flight drained, and a round started after that event. */
  lemma StayIsLongEnough(ws: seq<World>, ops: seq<Op>, n: nat) returns (s: nat, r: nat)
    requires Trace(ws, ops) && ws[0].b.phase.mode != ProbeRtt && Exits(ws, n)
    ensures ops[n].Congestion? && Scheduled(ws, ops, s, n)
    ensures ops[n].e.time >= ops[s].e.time + PROBE_RTT_TIME
    ensures s < r <= n && RoundStartsAt(ws, ops, r)
  {
    TraceIsStayTrace(ws, ops);
    s, r := TimedStay(ws, ops, n);
  }

  lemma TimedStay(ws: seq<World>, ops: seq<Op>, n: nat) returns (s: nat, r: nat)
    requires StayTrace(ws, ops) && Exits(ws, n)
    ensures ops[n].Congestion? && Scheduled(ws, ops, s, n)
    ensures ops[n].e.time >= ops[s].e.time + PROBE_RTT_TIME
    ensures s < r <= n && RoundStartsAt(ws, ops, r)
  {
    assert OpStep(ws[n], ws[n + 1], ops[n]);
    s, r := StayHistory(ws, ops, n);
    if !ws[n].b.phase.probeRttRoundPassed {
      r := n;
    }
  }

  ghost predicate Exits(ws: seq<World>, x: nat) {
    x < |ws| - 1 && ws[x].b.phase.mode == ProbeRtt && ws[x + 1].b.phase.mode != ProbeRtt
  }

  ghost predicate Enters(ws: seq<World>, y: nat) {
    y < |ws| - 1 && ws[y].b.phase.mode != ProbeRtt && ws[y + 1].b.phase.mode == ProbeRtt
  }

  lemma {:induction false} TimestampAfterExit(ws: seq<World>, ops: seq<Op>, x: nat, n: nat)
    requires StayTrace(ws, ops) && x < n < |ws| && Exits(ws, x)
    ensures ops[x].Congestion? && ws[n].clock >= ops[x].e.time && ws[n].b.path.minRttTimestamp >= ops[x].e.time
    decreases n
  {
    assert OpStep(ws[x], ws[x + 1], ops[x]);
    if n > x + 1 {
      TimestampAfterExit(ws, ops, x, n - 1);
      assert OpStep(ws[n - 1], ws[n - 1 + 1], ops[n - 1]);
    }
  }

  /** A stay begins more than 10 s after the end of every stay before it. */
  lemma StaysAreApart(ws: seq<World>, ops: seq<Op>, x: nat, y: nat)
    requires Trace(ws, ops) && ws[0].b.phase.mode != ProbeRtt
    requires x < y && Exits(ws, x) && Enters(ws, y)
    ensures ops[x].Congestion? && ops[y].Congestion?
    ensures ops[y].e.time > ops[x].e.time + MIN_RTT_EXPIRY
  {
    TraceIsStayTrace(ws, ops);
    TimestampAfterExit(ws, ops, x, y);
    assert OpStep(ws[y], ws[y + 1], ops[y]);
  }
}
