/** The session runner (internal/session/run.go, reconnect.go, quic.go, lanes.go). It holds one
    transport at a time, rebuilds it after a loss, and reverts everything it opened. What the network
    and the host do is given to each call as an outcome; a close always takes effect. */
module Session {
  import opened Wrappers
  import Backoff
  import opened ControlProtocol

  type Addr = nat

  datatype Mode = Auto | OnlySsh | OnlyQuic
  datatype Kind = Unselected | OverQuic | OverSsh
  datatype Status = Starting | IsUp | Reconnecting | Stopping

  /** The lanes planned count the primary lane. */
  datatype Plan = Plan(
    addr: Addr,
    reconnectFor: int,
    mode: Mode,
    portsParse: bool,
    lanes: nat,
    singleLane: bool,
    dns: bool,
    serversParse: bool,
    routesParse: bool)

  datatype Fetch = FetchFailed | Content(matches: bool)

  /** The outcome of everything one attempt to open a transport can ask of the network. */
  datatype Connect = Connect(ssh: bool, fetch: Fetch, helper: bool, dial: Dialed, lanes: set<nat>, dns: bool)

  /** Lanes open but for a list of DNS servers that does not parse. */
  predicate LanesOpen(plan: Plan) {
    plan.lanes == 0 || !plan.dns || plan.serversParse
  }

  /** What a fresh mux must meet for a transport of the kind the session has, or picks. */
  predicate WayOpens(plan: Plan, kind: Kind, c: Connect) {
    match kind
    case OverQuic => plan.portsParse && c.dial.Up?
    case OverSsh => LanesOpen(plan)
    case Unselected =>
      if plan.mode == OnlySsh then LanesOpen(plan)
      else plan.portsParse && (c.dial.Up? || (c.dial.Fallback? && plan.mode == Auto && LanesOpen(plan)))
  }

  predicate DnsApplies(plan: Plan, applies: bool) {
    !plan.dns || (plan.serversParse && applies)
  }

  /** Everything one attempt needs from the network and the host. */
  predicate Opens(plan: Plan, addr: Addr, device: bool, kind: Kind, c: Connect) {
    && c.ssh && (addr == plan.addr || c.fetch == Content(true)) && c.helper
    && WayOpens(plan, kind, c) && (device ==> DnsApplies(plan, c.dns))
  }

  datatype Setup = Setup(creates: bool, configures: bool, routes: bool, dns: bool, plane: bool) {
    predicate AddsRules(plan: Plan) {
      creates && configures && plan.routesParse && routes
    }

    predicate Succeeds(plan: Plan) {
      AddsRules(plan) && DnsApplies(plan, dns) && plane
    }
  }

  datatype Error =
    | StateNotWritten | SshFailed | ManifestNotFetched | RemoteChanged | HelperFailed | QuicUnavailable
    | QuicFailed(error: CallError) | BadPlan | DnsFailed | DeviceFailed | RoutesFailed | PlaneFailed

  /** The connections and helpers that are open, by the generation of their transport, and the extra
      lanes by generation and place. */
  datatype Net = Net(ssh: set<nat>, mux: set<nat>, quic: set<nat>, laneSsh: set<(nat, nat)>, laneMux: set<(nat, nat)>)

  const NO_NET := Net({}, {}, {}, {}, {})

  /** The watches that run, by the generation of their transport. */
  datatype Running = Running(path: set<nat>, sampler: set<nat>, detector: set<nat>)

  const NOT_RUNNING := Running({}, {}, {})

  /** The changes of the host that are in effect. */
  datatype Host = Host(stateFile: bool, device: bool, routes: bool, rules: bool, dns: bool, plane: bool)

  const UNTOUCHED := Host(false, false, false, false, false, false)

  /** The extra lanes of one transport. A set that was stopped or closed is not closed again. */
  datatype LaneSet = LaneSet(gen: nat, extra: seq<nat>, stopped: bool)

  datatype Dialer = NoDialer | ToQuic(gen: nat) | ToLanes(gen: nat)

  datatype Channel = MuxClosed(gen: nat) | QuicClosed(gen: nat) | LaneClosed(gen: nat) | ProbeFailed(gen: nat)

  function LaneIds(gen: nat, extra: seq<nat>): set<(nat, nat)> {
    set i | i in extra :: (gen, i)
  }

  /** The way of a transport: the QUIC connection, or the extra lanes. */
  function WithWay(n: Net, gen: nat, lanes: Option<LaneSet>): Net {
    match lanes
    case None => n.(quic := n.quic + {gen})
    case Some(l) => n.(laneSsh := n.laneSsh + LaneIds(gen, l.extra), laneMux := n.laneMux + LaneIds(gen, l.extra))
  }

  function WithTransport(n: Net, gen: nat, lanes: Option<LaneSet>): Net {
    WithWay(n.(ssh := n.ssh + {gen}, mux := n.mux + {gen}), gen, lanes)
  }

  function Plus(gens: set<nat>, gen: Option<nat>): set<nat> {
    if gen.Some? then gens + {gen.value} else gens
  }

  function Minus(gens: set<nat>, gen: Option<nat>): set<nat> {
    if gen.Some? then gens - {gen.value} else gens
  }

  /** A lane set that was stopped has nothing left to close. */
  function MinusLanes(ids: set<(nat, nat)>, l: Option<LaneSet>): set<(nat, nat)> {
    if l.Some? && !l.value.stopped then ids - LaneIds(l.value.gen, l.value.extra) else ids
  }

  function PlusLanes(ids: set<(nat, nat)>, l: Option<LaneSet>): set<(nat, nat)> {
    if l.Some? && !l.value.stopped then ids + LaneIds(l.value.gen, l.value.extra) else ids
  }

  function WithoutTransport(n: Net, quic: Option<nat>, l: Option<LaneSet>, mux: Option<nat>, ssh: Option<nat>): Net {
    Net(Minus(n.ssh, ssh), Minus(n.mux, mux), Minus(n.quic, quic), MinusLanes(n.laneSsh, l), MinusLanes(n.laneMux, l))
  }

  function WithWatches(r: Running, w: Watches): Running {
    Running(Plus(r.path, w.path), Plus(r.sampler, w.sampler), Plus(r.detector, w.detector))
  }

  function WithoutWatches(r: Running, w: Watches): Running {
    Running(Minus(r.path, w.path), Minus(r.sampler, w.sampler), Minus(r.detector, w.detector))
  }

  function InPlace(dns: bool): Host {
    Host(true, true, true, true, dns, true)
  }

  datatype Resolved = Unreachable | At(addr: Addr)

  /** What happens around one reconnect attempt: a stop signal in the wait before it, the time the
      wait takes beyond its length, the status answer, the outcome of the dials, the time they take,
      and a stop signal meanwhile. */
  datatype Try = Try(signalInWait: bool, oversleep: nat, resolved: Resolved, connect: Connect, duration: nat, signalled: bool)

  /** An attempt that reaches the remote and opens the transport. */
  predicate Recovers(plan: Plan, kind: Kind, t: Try) {
    t.resolved.At? && Opens(plan, t.resolved.addr, true, kind, t.connect)
  }

  /** A channel that fires, the time since the event before it, and the attempts if it is a loss. */
  datatype Fire = Fire(channel: Channel, after: nat, tries: nat -> Try)

  /** The handles of one transport and its three loss channels, each named by the generation it was
      opened in; None is a nil field. */
  datatype Link = Link(
    ssh: Option<nat>,
    mux: Option<nat>,
    quic: Option<nat>,
    lanes: Option<LaneSet>,
    muxWait: Option<nat>,
    quicWait: Option<nat>,
    laneClosed: Option<nat>)

  const NO_LINK := Link(None, None, None, None, None, None, None)

  /** The closures that stop the watches of a transport. */
  datatype Watches = Watches(path: Option<nat>, sampler: Option<nat>, detector: Option<nat>)

  const NO_WATCHES := Watches(None, None, None)

  function WatchesOf(gen: nat, detector: bool): Watches {
    Watches(Some(gen), Some(gen), if detector then Some(gen) else None)
  }

  /** The select of the wait: a channel that the session holds. */
  predicate Selected(c: Channel, link: Link, resumeLoss: Option<nat>) {
    match c
    case MuxClosed(gen) => link.muxWait == Some(gen)
    case QuicClosed(gen) => link.quicWait == Some(gen)
    case LaneClosed(gen) => link.laneClosed == Some(gen)
    case ProbeFailed(gen) => resumeLoss == Some(gen)
  }

  /** The state file: the kind of transport, its port, the progress. */
  datatype State = State(kind: Kind, quicPort: Port, status: Status, addr: Addr, attempts: nat, reconnects: nat)

  /** The link holds one transport of a generation, a QUIC connection or a lane set; the dialer
      points at it, and every wait channel belongs to it. */
  predicate Connected(link: Link, dialer: Dialer, kind: Kind, gen: nat) {
    && link.ssh == link.mux == link.muxWait == Some(gen)
    && match link.lanes
       case None =>
         && link.quic == link.quicWait == Some(gen) && link.laneClosed == None
         && kind == OverQuic && dialer == ToQuic(gen)
       case Some(l) =>
         && link.quic == link.quicWait == None && link.laneClosed == Some(gen)
         && kind == OverSsh && dialer == ToLanes(gen) && l.gen == gen && !l.stopped
  }

  class Runner {
    const plan: Plan

    var addr: Addr
    var link: Link
    var watches: Watches
    var resumeLoss: Option<nat>
    var dialer: Dialer
    var device: bool
    var plane: bool
    var state: State
    var lostAt: int

    /** The clock, in seconds, and the number of transports dialed. */
    var now: int
    var dials: nat

    /** What is open, the helpers asked to quit, and whether the last dial found the planned manifest. */
    ghost var net: Net
    ghost var running: Running
    ghost var host: Host
    ghost var quits: set<nat>
    ghost var laneQuits: set<(nat, nat)>
    ghost var matched: bool

    constructor (plan: Plan, now: int)
      ensures this.plan == plan && addr == plan.addr && this.now == now && link == NO_LINK && dialer == NoDialer
      ensures !device && !plane && state == State(Unselected, 0, Starting, plan.addr, 0, 0)
      ensures watches == NO_WATCHES && resumeLoss == None && net == NO_NET && running == NOT_RUNNING && host == UNTOUCHED && quits == {} && laneQuits == {}
    {
      this.plan, addr, this.now, dials, lostAt := plan, plan.addr, now, 0, now;
      link, watches, resumeLoss, dialer := NO_LINK, NO_WATCHES, None, NoDialer;
      device, plane := false, false;
      state := State(Unselected, 0, Starting, plan.addr, 0, 0);
      net, running, host, quits, laneQuits, matched := NO_NET, NOT_RUNNING, UNTOUCHED, {}, {}, false;
    }

    /** Between events the session is up on its latest transport, with the watches of that transport
        and everything of the host in place, ... */
    ghost predicate SessionUp()
      reads this
    {
      && dials > 0 && Connected(link, dialer, state.kind, dials - 1)
      && (addr == plan.addr || matched)
      && watches == WatchesOf(dials - 1, plan.reconnectFor > 0)
      && resumeLoss == (if plan.reconnectFor > 0 then Some(dials - 1) else None)
      && device && plane && state.status == IsUp
      && net == WithTransport(NO_NET, dials - 1, link.lanes) && running == WithWatches(NOT_RUNNING, watches)
      && host == InPlace(plan.dns)
    }

    /** ... or it holds no transport at all and the dialer of the data plane leads nowhere, while the
        device, the routes and the data plane stay. */
    ghost predicate SessionDown()
      reads this
    {
      && link == NO_LINK && dialer == NoDialer
      && device && plane && state.status == Reconnecting && state.kind != Unselected
      && net == NO_NET && running == NOT_RUNNING && host == InPlace(false)
    }

    // ----- One transport.

    method CloseLanes(l: LaneSet)
      modifies this`net
      ensures net == WithoutTransport(old(net), None, Some(l), None, None)
    {
      if l.stopped {
        return;
      }
      for i := 0 to |l.extra|
        invariant net == old(net).(laneSsh := net.laneSsh, laneMux := net.laneMux)
        invariant net.laneSsh == old(net).laneSsh - LaneIds(l.gen, l.extra[..i])
        invariant net.laneMux == old(net).laneMux - LaneIds(l.gen, l.extra[..i])
      {
        net := net.(laneSsh := net.laneSsh - {(l.gen, l.extra[i])});
        net := net.(laneMux := net.laneMux - {(l.gen, l.extra[i])});
      }
      assert l.extra[..|l.extra|] == l.extra;
    }

    /** Closes the parts that are there, the connection before the mux over it, without a quit. */
    method CloseTransport(quic: Option<nat>, l: Option<LaneSet>, mux: Option<nat>, ssh: Option<nat>)
      modifies this`net
      ensures net == WithoutTransport(old(net), quic, l, mux, ssh)
    {
      if quic.Some? {
        net := net.(quic := net.quic - {quic.value});
      }
      if ssh.Some? {
        net := net.(ssh := net.ssh - {ssh.value});
      }
      if l.Some? {
        CloseLanes(l.value);
      }
      if mux.Some? {
        net := net.(mux := net.mux - {mux.value});
      }
    }

    method GuardManifest(fetch: Fetch) returns (err: Option<Error>)
      modifies this`matched
      ensures err.None? <==> addr == plan.addr || (fetch.Content? && fetch.matches)
      ensures err == Some(RemoteChanged) <==> addr != plan.addr && fetch == Content(false)
      ensures err.None? && addr != plan.addr ==> matched
    {
      matched := false;
      if addr == plan.addr {
        return None;
      }
      if fetch.FetchFailed? {
        return Some(ManifestNotFetched);
      }
      if !fetch.matches {
        return Some(RemoteChanged);
      }
      matched := true;
      err := None;
    }

    /** Opens the lanes that come up; one that does not is no error. */
    method OpenLaneSet(gen: nat, c: Connect) returns (r: Result<LaneSet, Error>)
      modifies this`net
      ensures r.Ok? ==> r.value.gen == gen && !r.value.stopped && net == WithWay(old(net), gen, Some(r.value))
      ensures r.Ok? ==> forall i :: i in r.value.extra <==> 1 <= i < plan.lanes && !plan.singleLane && i in c.lanes
      ensures r.Ok? <==> LanesOpen(plan)
      ensures r.Err? ==> net == old(net) && r.error == BadPlan
    {
      if plan.lanes == 0 {
        return Ok(LaneSet(gen, [], false));
      }
      if plan.dns && !plan.serversParse {
        return Err(BadPlan);
      }
      var extra: seq<nat> := [];
      if !plan.singleLane {
        for i := 1 to plan.lanes
          invariant net == WithWay(old(net), gen, Some(LaneSet(gen, extra, false)))
          invariant forall j :: j in extra <==> 1 <= j < i && j in c.lanes
        {
          if i in c.lanes {
            net := net.(laneSsh := net.laneSsh + {(gen, i)}, laneMux := net.laneMux + {(gen, i)});
            extra := extra + [i];
          }
        }
      }
      r := Ok(LaneSet(gen, extra, false));
    }

    /** The first connect picks the transport and records it. */
    method SelectTransport(gen: nat, dial: Dialed) returns (r: Result<bool, Error>)
      requires state.kind == Unselected
      modifies this`net, this`state
      ensures r == Ok(true) ==> exists p :: dial == Up(p) && state == old(state).(kind := OverQuic, quicPort := p)
      ensures r == Ok(false) ==> state == old(state).(kind := OverSsh)
      ensures r == Ok(true) <==> plan.mode != OnlySsh && plan.portsParse && dial.Up?
      ensures r == Ok(false) <==> plan.mode == OnlySsh || (plan.mode == Auto && plan.portsParse && dial.Fallback?)
      ensures r.Err? ==> state == old(state) && r.error != RemoteChanged
      ensures net == if r == Ok(true) then WithWay(old(net), gen, None) else old(net)
    {
      if plan.mode == OnlySsh {
        state := state.(kind := OverSsh);
        return Ok(false);
      }
      if !plan.portsParse {
        return Err(BadPlan);
      }
      match dial
      case Failed(e) => return Err(QuicFailed(e));
      case Up(port) =>
        net := net.(quic := net.quic + {gen});
        state := state.(kind := OverQuic, quicPort := port);
        return Ok(true);
      case Fallback =>
        if plan.mode == OnlyQuic {
          return Err(QuicUnavailable);
        }
        state := state.(kind := OverSsh);
        return Ok(false);
    }

    method RedialQUIC(gen: nat, dial: Dialed) returns (r: Result<Port, Error>)
      modifies this`net
      ensures r.Ok? <==> plan.portsParse && dial.Up?
      ensures r.Ok? ==> dial == Up(r.value)
      ensures r.Err? ==> r.error != RemoteChanged
      ensures net == if r.Ok? then WithWay(old(net), gen, None) else old(net)
    {
      if !plan.portsParse {
        return Err(BadPlan);
      }
      match dial
      case Failed(e) => return Err(QuicFailed(e));
      case Fallback => return Err(QuicUnavailable);
      case Up(port) =>
        net := net.(quic := net.quic + {gen});
        return Ok(port);
    }

    /** Picks a way over a fresh mux, or takes the one picked before: a lane set, or without one the
        QUIC connection. A failure has opened nothing. */
    method OpenTransport(gen: nat, c: Connect) returns (r: Result<Option<LaneSet>, Error>)
      modifies this`net, this`state
      ensures state == old(state).(kind := state.kind, quicPort := state.quicPort)
      ensures old(state).kind != Unselected ==> state.kind == old(state).kind
      ensures r.Ok? <==> WayOpens(plan, old(state).kind, c)
      ensures r.Err? ==> net == old(net) && r.error != RemoteChanged
      ensures r.Ok? ==> net == WithWay(old(net), gen, r.value)
      ensures r.Ok? ==> state.kind == (if r.value.None? then OverQuic else OverSsh)
      ensures r.Ok? && r.value.None? ==> c.dial == Up(state.quicPort)
      ensures r.Ok? && r.value.Some? ==> r.value.value.gen == gen && !r.value.value.stopped
    {
      if state.kind == Unselected {
        var quic := SelectTransport(gen, c.dial);
        if quic.Err? {
          return Err(quic.error);
        }
        if quic.value {
          return Ok(None);
        }
      } else if state.kind == OverQuic {
        var port := RedialQUIC(gen, c.dial);
        if port.Err? {
          return Err(port.error);
        }
        state := state.(quicPort := port.value);
        return Ok(None);
      }
      var l := OpenLaneSet(gen, c);
      if l.Err? {
        return Err(l.error);
      }
      r := Ok(Some(l.value));
    }

    method ApplyDNS(applies: bool) returns (err: Option<Error>)
      modifies this`host
      ensures host == old(host).(dns := old(host).dns || (err.None? && plan.dns))
      ensures err.None? <==> DnsApplies(plan, applies)
      ensures err.Some? ==> err.value != RemoteChanged
    {
      if !plan.dns {
        return None;
      }
      if !plan.serversParse {
        return Some(BadPlan);
      }
      if !applies {
        return Some(DnsFailed);
      }
      host := host.(dns := true);
      err := None;
    }

    /** Connects, checks the manifest and starts the helper. */
    method StartHelper(gen: nat, c: Connect) returns (err: Option<Error>)
      requires net == NO_NET
      modifies this`net, this`matched
      ensures net == if err.None? then old(net).(ssh := {gen}, mux := {gen}) else old(net)
      ensures err.None? <==> c.ssh && (addr == plan.addr || c.fetch == Content(true)) && c.helper
      ensures err.None? && addr != plan.addr ==> matched
      ensures err == Some(RemoteChanged) <==> c.ssh && addr != plan.addr && c.fetch == Content(false)
    {
      if !c.ssh {
        return Some(SshFailed);
      }
      net := net.(ssh := net.ssh + {gen});
      err := GuardManifest(c.fetch);
      if err.Some? {
        net := net.(ssh := net.ssh - {gen});
        return;
      }
      if !c.helper {
        net := net.(ssh := net.ssh - {gen});
        return Some(HelperFailed);
      }
      net := net.(mux := net.mux + {gen});
    }

    /** One try to get a transport: all of its parts, or none. The error that ends the session comes
        from a remote at another address with another manifest, and from nothing else. */
    method Transport(c: Connect) returns (err: Option<Error>)
      requires link == NO_LINK && net == NO_NET
      modifies this`net, this`host, this`dials, this`matched, this`state, this`dialer, this`link
      ensures state == old(state).(kind := state.kind, quicPort := state.quicPort)
      ensures old(state).kind != Unselected ==> state.kind == old(state).kind
      ensures dials == old(dials) + 1
      ensures err.None? <==> Opens(plan, addr, device, old(state).kind, c)
      ensures err.Some? ==> link == NO_LINK && net == NO_NET && host == old(host) && dialer == old(dialer)
      ensures err.None? ==> Connected(link, dialer, state.kind, old(dials)) && (addr == plan.addr || matched)
      ensures err.None? ==> net == WithTransport(NO_NET, old(dials), link.lanes)
      ensures err.None? ==> host == old(host).(dns := old(host).dns || (device && plan.dns))
      ensures err == Some(RemoteChanged) <==> c.ssh && addr != plan.addr && c.fetch == Content(false)
    {
      var gen := dials;
      dials := dials + 1;
      err := StartHelper(gen, c);
      if err.Some? {
        return;
      }
      var way := OpenTransport(gen, c);
      if way.Err? {
        CloseTransport(None, None, Some(gen), Some(gen));
        return Some(way.error);
      }
      err := Adopt(gen, way.value, c.dns);
    }

    /** Puts the DNS mode back on a device that is there, and points the session at the transport. */
    method Adopt(gen: nat, l: Option<LaneSet>, dns: bool) returns (err: Option<Error>)
      requires link == NO_LINK && net == WithTransport(NO_NET, gen, l)
      requires state.kind == if l.None? then OverQuic else OverSsh
      requires l.Some? ==> l.value.gen == gen && !l.value.stopped
      modifies this`net, this`host, this`dialer, this`link
      ensures err.None? <==> (device ==> DnsApplies(plan, dns))
      ensures err.Some? ==> link == NO_LINK && net == NO_NET && host == old(host) && dialer == old(dialer) && err.value != RemoteChanged
      ensures err.None? ==> link.lanes == l && Connected(link, dialer, state.kind, gen)
      ensures err.None? ==> net == old(net) && host == old(host).(dns := old(host).dns || (device && plan.dns))
    {
      var quic := if l.None? then Some(gen) else None;
      if device {
        err := ApplyDNS(dns);
        if err.Some? {
          CloseTransport(quic, l, Some(gen), Some(gen));
          return;
        }
      }
      err := None;
      link := Link(Some(gen), Some(gen), quic, l, Some(gen), None, None);
      if quic.Some? {
        link := link.(quicWait := Some(gen));
        dialer := ToQuic(gen);
        return;
      }
      link := link.(laneClosed := Some(gen));
      dialer := ToLanes(gen);
    }

    /** Afterwards the runner has no handle and no channel of a transport any more. */
    method DropTransport()
      modifies this`net, this`link
      ensures link == NO_LINK
      ensures net == WithoutTransport(old(net), old(link).quic, old(link).lanes, old(link).mux, old(link).ssh)
    {
      CloseTransport(link.quic, link.lanes, link.mux, link.ssh);
      link := NO_LINK;
    }

    // ----- The watches.

    method StopWatches()
      modifies this`running
      ensures running == WithoutWatches(old(running), watches)
    {
      if watches.path.Some? {
        running := running.(path := running.path - {watches.path.value});
      }
      if watches.detector.Some? {
        running := running.(detector := running.detector - {watches.detector.value});
      }
      if watches.sampler.Some? {
        running := running.(sampler := running.sampler - {watches.sampler.value});
      }
    }

    /** Starts the watches of the current transport. The loss channel of the detector is replaced
        before the session waits again. */
    method StartWatches()
      requires dials > 0
      modifies this`running, this`watches, this`resumeLoss
      ensures watches == WatchesOf(dials - 1, plan.reconnectFor > 0)
      ensures resumeLoss == if plan.reconnectFor > 0 then Some(dials - 1) else old(resumeLoss)
      ensures running == WithWatches(old(running), watches)
    {
      running := running.(path := running.path + {dials - 1}, sampler := running.sampler + {dials - 1});
      watches := Watches(Some(dials - 1), Some(dials - 1), None);
      if plan.reconnectFor <= 0 {
        return;
      }
      resumeLoss := Some(dials - 1);
      running := running.(detector := running.detector + {dials - 1});
      watches := watches.(detector := Some(dials - 1));
    }

    // ----- A loss and the reconnect.

    method Lost()
      requires SessionUp()
      modifies this`net, this`running, this`host, this`link, this`dialer, this`state, this`lostAt
      ensures SessionDown() && lostAt == now
      ensures state == old(state).(status := Reconnecting, attempts := 0)
    {
      DropLeavesNothing(link, dialer, state.kind, dials - 1);
      StopLeavesNothing(watches);
      lostAt := now;
      dialer := NoDialer;
      StopWatches();
      DropTransport();
      host := host.(dns := false);
      state := state.(status := Reconnecting, attempts := 0);
    }

    method Resolve(resolved: Resolved) returns (reachable: bool)
      modifies this`addr, this`state
      ensures reachable <==> resolved.At?
      ensures addr == if resolved.At? then resolved.addr else old(addr)
      ensures state == old(state).(addr := state.addr)
    {
      if resolved.Unreachable? {
        return false;
      }
      if resolved.addr != addr {
        addr := resolved.addr;
        state := state.(addr := resolved.addr);
      }
      reachable := true;
    }

    /** One attempt. It ends the session only when the remote moved to an address that serves another
        manifest; every other failure leaves the session as it was but for the address. */
    method Attempt(t: Try) returns (up: bool, err: Option<Error>)
      requires SessionDown()
      modifies this`addr, this`net, this`host, this`dials, this`matched, this`state, this`dialer, this`link
      ensures state == old(state).(addr := state.addr, quicPort := state.quicPort)
      ensures dials >= old(dials)
      ensures up <==> Recovers(plan, old(state).kind, t)
      ensures up ==> err.None? && dials > old(dials) && Connected(link, dialer, state.kind, dials - 1) && (addr == plan.addr || matched)
      ensures up ==> net == WithTransport(NO_NET, dials - 1, link.lanes) && running == NOT_RUNNING && host == InPlace(plan.dns)
      ensures !up ==> SessionDown()
      ensures err.Some? <==> err == Some(RemoteChanged)
      ensures err.Some? <==>
        t.resolved.At? && t.resolved.addr != plan.addr && t.connect.ssh && t.connect.fetch == Content(false)
    {
      var reachable := Resolve(t.resolved);
      if !reachable {
        return false, None;
      }
      var failure := Transport(t.connect);
      up := failure.None?;
      err := if failure == Some(RemoteChanged) then failure else None;
    }

    method MarkUp()
      modifies this`state
      ensures state == old(state).(status := IsUp)
    {
      state := state.(status := IsUp);
    }

    /** The end of an attempt that brought the transport up. */
    method Recovered()
      requires dials > 0 && Connected(link, dialer, state.kind, dials - 1) && (addr == plan.addr || matched)
      requires device && plane && plan.reconnectFor > 0
      requires net == WithTransport(NO_NET, dials - 1, link.lanes) && running == NOT_RUNNING && host == InPlace(plan.dns)
      modifies this`state, this`running, this`watches, this`resumeLoss
      ensures SessionUp() && state == old(state).(status := IsUp, reconnects := old(state).reconnects + 1)
    {
      state := state.(reconnects := state.reconnects + 1);
      MarkUp();
      StartWatches();
    }

    /** One round of the reconnect: the wait before the attempt, the check of the window, the attempt. */
    method Round(attempt: nat, t: Try, deadline: int) returns (r: RoundEnd, ghost start: Option<int>)
      requires SessionDown() && plan.reconnectFor > 0 && attempt > 0
      modifies this`addr, this`net, this`running, this`host, this`dials, this`matched, this`state, this`dialer, this`link
      modifies this`watches, this`resumeLoss, this`now
      ensures if r.CameUp? then SessionUp() && dials > old(dials) else SessionDown() && dials >= old(dials)
      ensures state.kind == old(state).kind && state.reconnects == old(state).reconnects + if r.CameUp? then 1 else 0
      ensures r.Ended? && r.err.Some? ==> r.err == Some(RemoteChanged)
      ensures r == Ended(None) && now < deadline ==>
        if start.None? then attempt > 1 && t.signalInWait else t.signalled
      ensures r == Again ==> start.Some? && now >= start.value
      ensures r.CameUp? <==> start.Some? && Recovers(plan, old(state).kind, t)
      ensures start.Some? ==>
        start.value == old(now) + (if attempt == 1 then 0 else Backoff.Wait(attempt - 1) + t.oversleep) < deadline
    {
      start := None;
      if attempt > 1 {
        if t.signalInWait {
          return Ended(None), None;
        }
        var d := Backoff.BackoffAfter(attempt - 1);
        now := now + d + t.oversleep;
      }
      if now >= deadline {
        return Ended(None), None;
      }
      start := Some(now);
      state := state.(attempts := attempt);
      r := AttemptUnderWindow(t);
    }

    /** The attempt of a round and what follows from its end. */
    method AttemptUnderWindow(t: Try) returns (r: RoundEnd)
      requires SessionDown() && plan.reconnectFor > 0
      modifies this`addr, this`net, this`running, this`host, this`dials, this`matched, this`state, this`dialer, this`link
      modifies this`watches, this`resumeLoss, this`now
      ensures if r.CameUp? then SessionUp() && dials > old(dials) else SessionDown() && dials >= old(dials)
      ensures state.kind == old(state).kind && state.reconnects == old(state).reconnects + if r.CameUp? then 1 else 0
      ensures r.CameUp? <==> Recovers(plan, old(state).kind, t)
      ensures r.Ended? && r.err.Some? ==> r.err == Some(RemoteChanged)
      ensures r == Ended(None) ==> t.signalled
      ensures now == old(now) + t.duration
    {
      var up, err := Attempt(t);
      now := now + t.duration;
      if up {
        Recovered();
        return CameUp;
      }
      r := if err.Some? || t.signalled then Ended(err) else Again;
    }

    /** Rebuilds the transport inside the window. Whatever the network does, this ends, and each
        attempt starts after the waits before it and before the window passes. Without a signal it
        gives up only when the window has passed or the remote changed. */
    method Reconnect(tries: nat -> Try) returns (up: bool, err: Option<Error>, ghost starts: seq<int>)
      requires SessionDown() && plan.reconnectFor > 0 && now == lostAt
      modifies this`addr, this`net, this`running, this`host, this`dials, this`matched, this`state, this`dialer, this`link
      modifies this`watches, this`resumeLoss, this`now
      ensures if up then SessionUp() && err.None? && dials > old(dials) else SessionDown() && dials >= old(dials)
      ensures state.kind == old(state).kind && state.reconnects == old(state).reconnects + if up then 1 else 0
      ensures err.Some? ==> err == Some(RemoteChanged)
      ensures InWindow(starts, lostAt, plan.reconnectFor)
      ensures up <==> |starts| > 0 && Recovers(plan, old(state).kind, tries(|starts|))
      ensures NoneRecovers(plan, old(state).kind, tries, |starts|)
      ensures !up && err.None? && now < lostAt + plan.reconnectFor ==>
        |starts| > 0 && (tries(|starts|).signalled || tries(|starts| + 1).signalInWait)
    {
      var deadline := lostAt + plan.reconnectFor;
      var attempt := 1;
      ghost var kind := state.kind;
      starts := [];
      while true
        invariant attempt == |starts| + 1 && SessionDown() && dials >= old(dials)
        invariant state.kind == kind && state.reconnects == old(state).reconnects
        invariant Backoff.WaitSum(if attempt == 1 then 0 else attempt - 2) <= now - lostAt
        invariant InWindow(starts, lostAt, plan.reconnectFor)
        invariant NoneRecovers(plan, kind, tries, attempt)
        decreases deadline - now, if attempt == 1 then 1 else 0
      {
        var r, start := Round(attempt, tries(attempt), deadline);
        if start.Some? {
          OneMoreStart(starts, start.value, lostAt, plan.reconnectFor);
          starts := starts + [start.value];
        }
        if r != Again {
          return r.CameUp?, if r.Ended? then r.err else None, starts;
        }
        OneMoreFailure(plan, kind, tries, attempt);
        attempt := attempt + 1;
      }
    }

    // ----- The wait for a loss.

    /** Waits for the first channel to fire that the select holds; the others go unseen. Those are the
        ends of the transport that is up. Without one the signal ends the wait. */
    method Wait(script: seq<Fire>, from: nat) returns (at: Option<nat>)
      requires from <= |script| && SessionUp()
      modifies this`now
      ensures at.Some? ==> from <= at.value < |script|
      ensures at.Some? ==> LossOf(script[at.value].channel, dials - 1, state.kind, plan.reconnectFor > 0)
      ensures Quiet(script, from, if at.Some? then at.value else |script|, dials - 1, state.kind, plan.reconnectFor > 0)
    {
      for i := from to |script|
        invariant Quiet(script, from, i, dials - 1, state.kind, plan.reconnectFor > 0)
      {
        OnlyTheCurrentTransportIsLost(script[i].channel, link, resumeLoss, dialer, state.kind, dials - 1, plan.reconnectFor > 0);
        now := now + script[i].after;
        if Selected(script[i].channel, link, resumeLoss) {
          return Some(i);
        }
      }
      at := None;
    }

    method HandleLoss(tries: nat -> Try) returns (up: bool, err: Option<Error>)
      requires SessionUp() && plan.reconnectFor > 0
      modifies this`addr, this`net, this`running, this`host, this`dials, this`matched, this`state, this`dialer, this`link
      modifies this`watches, this`resumeLoss, this`now, this`lostAt
      ensures if up then SessionUp() && err.None? && dials > old(dials) else SessionDown() && dials >= old(dials)
      ensures state.kind == old(state).kind && state.reconnects == old(state).reconnects + if up then 1 else 0
      ensures err.Some? ==> err == Some(RemoteChanged)
    {
      ghost var starts;
      Lost();
      up, err, starts := Reconnect(tries);
    }

    /** One turn of the loop: the wait, and the reconnect after a loss. None is a session that ends, by
        a signal, or by a loss when it has no window. */
    method NextLoss(script: seq<Fire>, from: nat) returns (at: Option<nat>, up: bool, err: Option<Error>)
      requires from <= |script| && SessionUp()
      modifies this`addr, this`net, this`running, this`host, this`dials, this`matched, this`state, this`dialer, this`link
      modifies this`watches, this`resumeLoss, this`now, this`lostAt
      ensures state.kind == old(state).kind
      ensures at.None? ==> SessionUp() && dials == old(dials) && state.reconnects == old(state).reconnects && err.None?
      ensures at.None? && plan.reconnectFor > 0 ==> Quiet(script, from, |script|, old(dials) - 1, state.kind, true)
      ensures at.Some? ==> plan.reconnectFor > 0 && from <= at.value < |script|
      ensures at.Some? ==> LossOf(script[at.value].channel, old(dials) - 1, state.kind, true)
      ensures at.Some? ==> Quiet(script, from, at.value, old(dials) - 1, state.kind, true)
      ensures at.Some? ==> if up then SessionUp() && err.None? && dials > old(dials) else SessionDown() && dials >= old(dials)
      ensures at.Some? ==> state.reconnects == old(state).reconnects + if up then 1 else 0
      ensures err.Some? ==> at.Some? && err == Some(RemoteChanged)
    {
      at := Wait(script, from);
      if at.None? || plan.reconnectFor <= 0 {
        return None, true, None;
      }
      up, err := HandleLoss(script[at.value].tries);
    }

    /** Handles losses until a signal, the end of a window or a changed remote. Every end of the
        transport that is up is handled, once, and nothing else is; all but the last, or all when the
        session is still up, were recovered. */
    method Loop(script: seq<Fire>) returns (err: Option<Error>, ghost up: bool, ghost ats: seq<nat>, ghost gens: seq<nat>)
      requires SessionUp()
      modifies this`addr, this`net, this`running, this`host, this`dials, this`matched, this`state, this`dialer, this`link
      modifies this`watches, this`resumeLoss, this`now, this`lostAt
      ensures if up then SessionUp() else SessionDown()
      ensures err.Some? ==> !up && err == Some(RemoteChanged)
      ensures state.kind == old(state).kind
      ensures state.reconnects == old(state).reconnects + |ats| - (if up then 0 else 1)
      ensures EveryLossOnce(script, ats, gens, dials, state.kind, plan.reconnectFor > 0)
      ensures up && plan.reconnectFor > 0 ==> Quiet(script, From(ats), |script|, dials - 1, state.kind, true)
      ensures plan.reconnectFor <= 0 ==> up && ats == []
    {
      ats, gens := [], [];
      ghost var kind, windowed := state.kind, plan.reconnectFor > 0;
      var i := 0;
      while true
        invariant i == From(ats) <= |script| && SessionUp()
        invariant state.kind == kind && state.reconnects == old(state).reconnects + |ats|
        invariant EveryLossOnce(script, ats, gens, dials - 1, kind, windowed)
        invariant plan.reconnectFor <= 0 ==> ats == []
        decreases |script| - i
      {
        ghost var gen: nat := dials - 1;
        var at, recovered, e := NextLoss(script, i);
        if at.Some? {
          OneMoreLoss(script, ats, gens, at.value, gen, dials - 1, dials, kind, windowed);
          ats, gens := ats + [at.value], gens + [gen];
          i := at.value + 1;
        } else {
          LimitGrows(script, ats, gens, gen, kind, windowed);
        }
        if at.None? || !recovered {
          return e, at.None?, ats, gens;
        }
      }
    }

    // ----- The session from start to end.

    method TeardownDevice()
      modifies this`host
      ensures host == old(host).(device := false, routes := false)
    {
      host := host.(device := false, routes := false);
    }

    /** Either every change of the host is made, or all that were made are taken back but one: a
        failure past the routes keeps their rules, which only the cleanup removes. */
    method SetUp(s: Setup) returns (err: Option<Error>)
      requires host == UNTOUCHED.(stateFile := true) && !device && !plane
      modifies this`host, this`device, this`plane
      ensures err.None? <==> s.Succeeds(plan)
      ensures if err.None? then device && plane && host == InPlace(plan.dns)
        else !device && !plane && host == UNTOUCHED.(stateFile := true, rules := s.AddsRules(plan))
      ensures err.Some? ==> err.value != RemoteChanged
    {
      if !s.creates {
        return Some(DeviceFailed);
      }
      host := host.(device := true);
      if !s.configures {
        TeardownDevice();
        return Some(DeviceFailed);
      }
      if !plan.routesParse {
        TeardownDevice();
        return Some(BadPlan);
      }
      if !s.routes {
        TeardownDevice();
        return Some(RoutesFailed);
      }
      host := host.(routes := true, rules := true);
      err := ApplyDNS(s.dns);
      if err.Some? {
        host := host.(routes := false);
        TeardownDevice();
        return;
      }
      if !s.plane {
        host := host.(dns := false);
        host := host.(routes := false);
        TeardownDevice();
        return Some(PlaneFailed);
      }
      device, plane := true, true;
      host := host.(plane := true);
    }

    /** Asks every extra lane's helper to quit and closes the lane, once. */
    method StopLanes()
      modifies this`net, this`link, this`laneQuits
      ensures link == old(link).(lanes := Halted(old(link).lanes))
      ensures net == WithoutTransport(old(net), None, old(link).lanes, None, None)
      ensures laneQuits == PlusLanes(old(laneQuits), old(link).lanes)
    {
      if link.lanes.None? || link.lanes.value.stopped {
        return;
      }
      var l := link.lanes.value;
      for i := 0 to |l.extra|
        invariant link == old(link)
        invariant net.ssh == old(net).ssh && net.mux == old(net).mux && net.quic == old(net).quic
        invariant net.laneSsh == old(net).laneSsh - LaneIds(l.gen, l.extra[..i])
        invariant net.laneMux == old(net).laneMux - LaneIds(l.gen, l.extra[..i])
        invariant laneQuits == old(laneQuits) + LaneIds(l.gen, l.extra[..i])
      {
        laneQuits := laneQuits + {(l.gen, l.extra[i])};
        net := net.(laneMux := net.laneMux - {(l.gen, l.extra[i])});
        net := net.(laneSsh := net.laneSsh - {(l.gen, l.extra[i])});
      }
      link := link.(lanes := Some(l.(stopped := true)));
    }

    /** Reverts the session. The helpers of the transport that is held, and no others, are asked to
        quit. */
    method StopSession()
      modifies this`net, this`running, this`host, this`link, this`quits, this`laneQuits, this`state
      ensures state == old(state).(status := Stopping)
      ensures running == WithoutWatches(old(running), watches)
      ensures host == UNTOUCHED.(stateFile := old(host).stateFile, plane := old(host).plane && !plane)
      ensures net == WithoutTransport(old(net), old(link).quic, old(link).lanes, None, None)
      ensures link == old(link).(lanes := Halted(old(link).lanes))
      ensures quits == Plus(old(quits), old(link).mux) && laneQuits == PlusLanes(old(laneQuits), old(link).lanes)
    {
      state := state.(status := Stopping);
      StopWatches();
      host := host.(dns := false, routes := false, rules := false);
      StopTransport();
      if plane {
        host := host.(plane := false);
      }
      TeardownDevice();
    }

    method StopTransport()
      modifies this`net, this`link, this`quits, this`laneQuits
      ensures net == WithoutTransport(old(net), old(link).quic, old(link).lanes, None, None)
      ensures link == old(link).(lanes := Halted(old(link).lanes))
      ensures quits == Plus(old(quits), old(link).mux) && laneQuits == PlusLanes(old(laneQuits), old(link).lanes)
    {
      if link.quic.Some? {
        net := net.(quic := net.quic - {link.quic.value});
      }
      if link.mux.Some? {
        quits := quits + {link.mux.value};
      }
      StopLanes();
    }

    /** The way out of a session that ran: the stop, and the close of what the stop leaves open. */
    method Finish()
      requires SessionUp() || SessionDown()
      modifies this`net, this`running, this`host, this`link, this`quits, this`laneQuits, this`state
      ensures net == NO_NET && running == NOT_RUNNING && link == NO_LINK && host == UNTOUCHED
      ensures quits == Plus(old(quits), old(link).mux) && laneQuits == PlusLanes(old(laneQuits), old(link).lanes)
    {
      StopLeavesNothing(watches);
      if link != NO_LINK {
        DropAfterStopLeavesNothing(link, dialer, state.kind, dials - 1);
      }
      StopSession();
      DropTransport();
      host := host.(stateFile := false);
    }

    /** The way out of a session whose setup failed. */
    method Abort()
      requires dials > 0 && Connected(link, dialer, state.kind, dials - 1) && net == WithTransport(NO_NET, dials - 1, link.lanes)
      modifies this`net, this`link, this`host
      ensures net == NO_NET && link == NO_LINK && host == old(host).(stateFile := false)
    {
      DropLeavesNothing(link, dialer, state.kind, dials - 1);
      DropTransport();
      host := host.(stateFile := false);
    }

    /** The session. On every way out nothing is open: no connection, no watch, and nothing on the host
        but the routing rules when the setup failed after it added them. No helper of a lost transport
        is asked to quit. */
    method Run(stateWritten: bool, first: Connect, s: Setup, script: seq<Fire>) returns (err: Option<Error>)
      requires link == NO_LINK && dialer == NoDialer && !device && !plane && state == State(Unselected, 0, Starting, plan.addr, 0, 0)
      requires watches == NO_WATCHES && resumeLoss == None && addr == plan.addr
      requires net == NO_NET && running == NOT_RUNNING && host == UNTOUCHED && quits == {} && laneQuits == {}
      modifies this
      ensures net == NO_NET && running == NOT_RUNNING && link == NO_LINK
      ensures host == UNTOUCHED.(rules := host.rules)
      ensures host.rules ==> err.Some? && s.AddsRules(plan) && !s.Succeeds(plan)
      ensures quits <= {dials - 1} && forall id :: id in laneQuits ==> id.0 == dials - 1
      ensures err.None? || err == Some(RemoteChanged) <==>
        stateWritten && Opens(plan, plan.addr, false, Unselected, first) && s.Succeeds(plan)
    {
      if !stateWritten {
        return Some(StateNotWritten);
      }
      host := host.(stateFile := true);
      err := Transport(first);
      if err.Some? {
        host := host.(stateFile := false);
        return;
      }
      err := SetUp(s);
      if err.Some? {
        Abort();
        return;
      }
      err := Serve(script);
    }

    method Begin()
      requires dials > 0 && Connected(link, dialer, state.kind, dials - 1) && addr == plan.addr && resumeLoss == None
      requires device && plane
      requires net == WithTransport(NO_NET, dials - 1, link.lanes) && running == NOT_RUNNING && host == InPlace(plan.dns)
      modifies this`state, this`running, this`watches, this`resumeLoss
      ensures SessionUp() && state == old(state).(status := IsUp)
    {
      MarkUp();
      StartWatches();
    }

    /** A session whose transport and setup are in place. */
    method Serve(script: seq<Fire>) returns (err: Option<Error>)
      requires dials > 0 && Connected(link, dialer, state.kind, dials - 1) && addr == plan.addr && resumeLoss == None
      requires device && plane && state.reconnects == 0
      requires net == WithTransport(NO_NET, dials - 1, link.lanes) && running == NOT_RUNNING && host == InPlace(plan.dns)
      modifies this`addr, this`net, this`running, this`host, this`dials, this`matched, this`state, this`dialer, this`link
      modifies this`watches, this`resumeLoss, this`now, this`lostAt, this`quits, this`laneQuits
      ensures net == NO_NET && running == NOT_RUNNING && link == NO_LINK && host == UNTOUCHED
      ensures quits - old(quits) <= {dials - 1} && forall id :: id in laneQuits && id !in old(laneQuits) ==> id.0 == dials - 1
      ensures err.Some? ==> err == Some(RemoteChanged)
    {
      Begin();
      ghost var up, ats, gens;
      err, up, ats, gens := Loop(script);
      Finish();
    }

    /** What runs after the session, however it ended. */
    method Cleanup()
      modifies this`host
      ensures host == UNTOUCHED.(plane := old(host).plane)
    {
      host := host.(dns := false);
      TeardownDevice();
      host := host.(rules := false);
      host := host.(stateFile := false);
    }
  }

  function Halted(l: Option<LaneSet>): Option<LaneSet> {
    match l
    case None => None
    case Some(lanes) => Some(lanes.(stopped := true))
  }

  /** A channel that reports the end of the transport of a generation and kind. */
  predicate LossOf(c: Channel, gen: nat, kind: Kind, detector: bool) {
    && c.gen == gen && (c.QuicClosed? ==> kind == OverQuic) && (c.LaneClosed? ==> kind == OverSsh)
    && (c.ProbeFailed? ==> detector)
  }

  predicate Quiet(script: seq<Fire>, lo: nat, hi: int, gen: nat, kind: Kind, detector: bool) {
    forall j :: lo <= j < hi && j < |script| ==> !LossOf(script[j].channel, gen, kind, detector)
  }

  function From(ats: seq<nat>): nat {
    if ats == [] then 0 else ats[|ats| - 1] + 1
  }

  /** The losses handled are at these places of the script and of these generations: each is the
      first end of its transport after the loss before it, and the generations, all below a limit,
      only grow. */
  ghost predicate EveryLossOnce(script: seq<Fire>, ats: seq<nat>, gens: seq<nat>, limit: int, kind: Kind, detector: bool)
    decreases |ats|
  {
    && |gens| == |ats|
    && (ats == [] ||
        var n := |ats| - 1;
        && From(ats[..n]) <= ats[n] < |script| && gens[n] < limit
        && LossOf(script[ats[n]].channel, gens[n], kind, detector)
        && Quiet(script, From(ats[..n]), ats[n], gens[n], kind, detector)
        && EveryLossOnce(script, ats[..n], gens[..n], gens[n], kind, detector))
  }

  lemma OneMoreLoss(script: seq<Fire>, ats: seq<nat>, gens: seq<nat>, at: nat, gen: nat, lower: int, upper: int, kind: Kind, detector: bool)
    requires EveryLossOnce(script, ats, gens, gen, kind, detector) && From(ats) <= at < |script| && gen < upper
    requires LossOf(script[at].channel, gen, kind, detector) && Quiet(script, From(ats), at, gen, kind, detector)
    ensures EveryLossOnce(script, ats + [at], gens + [gen], upper, kind, detector)
    ensures gen < lower ==> EveryLossOnce(script, ats + [at], gens + [gen], lower, kind, detector)
    ensures From(ats + [at]) == at + 1
  {
    assert (ats + [at])[..|ats|] == ats && (gens + [gen])[..|gens|] == gens;
  }

  lemma LimitGrows(script: seq<Fire>, ats: seq<nat>, gens: seq<nat>, limit: int, kind: Kind, detector: bool)
    requires EveryLossOnce(script, ats, gens, limit, kind, detector)
    ensures EveryLossOnce(script, ats, gens, limit + 1, kind, detector)
  {
  }

  /** No transport is lost twice. */
  lemma {:induction false} LossesAreOfDifferentTransports(script: seq<Fire>, ats: seq<nat>, gens: seq<nat>, limit: int,
                                                          kind: Kind, detector: bool, j: nat, k: nat)
    requires EveryLossOnce(script, ats, gens, limit, kind, detector) && j < k < |ats|
    ensures ats[j] < ats[k] < |script| && script[ats[j]].channel.gen == gens[j] < gens[k] == script[ats[k]].channel.gen
    decreases |ats|
  {
    var n := |ats| - 1;
    if k < n {
      LossesAreOfDifferentTransports(script, ats[..n], gens[..n], gens[n], kind, detector, j, k);
    } else if j < n - 1 {
      LossesAreOfDifferentTransports(script, ats[..n], gens[..n], gens[n], kind, detector, j, n - 1);
    }
  }

  datatype RoundEnd = CameUp | Again | Ended(err: Option<Error>)

  /** The times attempts start at: each after the waits before it and within the window, which
      bounds their number. */
  predicate InWindow(starts: seq<int>, lostAt: int, window: int) {
    && (forall n :: 0 <= n < |starts| ==> Backoff.WaitSum(n) <= starts[n] - lostAt < window)
    && (window > 0 ==> |starts| <= window / Backoff.CAP + 4)
  }

  lemma OneMoreStart(starts: seq<int>, start: int, lostAt: int, window: int)
    requires InWindow(starts, lostAt, window) && Backoff.WaitSum(|starts|) <= start - lostAt < window
    ensures InWindow(starts + [start], lostAt, window)
  {
    Backoff.AttemptsAreBounded(|starts| + 1, window);
  }

  /** No attempt before the n-th could succeed. */
  predicate NoneRecovers(plan: Plan, kind: Kind, tries: nat -> Try, n: nat) {
    n <= 1 || (NoneRecovers(plan, kind, tries, n - 1) && !Recovers(plan, kind, tries(n - 1)))
  }

  lemma OneMoreFailure(plan: Plan, kind: Kind, tries: nat -> Try, n: nat)
    requires NoneRecovers(plan, kind, tries, n) && !Recovers(plan, kind, tries(n))
    ensures NoneRecovers(plan, kind, tries, n + 1)
  {
  }

  lemma DropLeavesNothing(link: Link, dialer: Dialer, kind: Kind, gen: nat)
    requires Connected(link, dialer, kind, gen)
    ensures WithoutTransport(WithTransport(NO_NET, gen, link.lanes), link.quic, link.lanes, link.mux, link.ssh) == NO_NET
  {
  }

  /** A lane set that was stopped is not closed a second time by the drop that follows. */
  lemma DropAfterStopLeavesNothing(link: Link, dialer: Dialer, kind: Kind, gen: nat)
    requires Connected(link, dialer, kind, gen)
    ensures var stopped := WithoutTransport(WithTransport(NO_NET, gen, link.lanes), link.quic, link.lanes, None, None);
      WithoutTransport(stopped, link.quic, Halted(link.lanes), link.mux, link.ssh) == NO_NET
  {
  }

  /** The select of a session that is up sees the end of its own transport only, and every end of it. */
  lemma OnlyTheCurrentTransportIsLost(c: Channel, link: Link, resumeLoss: Option<nat>, dialer: Dialer, kind: Kind, gen: nat, detector: bool)
    requires Connected(link, dialer, kind, gen) && resumeLoss == if detector then Some(gen) else None
    ensures Selected(c, link, resumeLoss) <==> LossOf(c, gen, kind, detector)
  {
  }

  lemma StopLeavesNothing(w: Watches)
    ensures WithoutWatches(WithWatches(NOT_RUNNING, w), w) == NOT_RUNNING
    ensures WithoutWatches(NOT_RUNNING, w) == NOT_RUNNING
  {
  }
}
