/** The control stream between client and helper (internal/mux/server.go, client.go,
    quic_server.go): request lines one way, reply lines the other, and the helper's one QUIC
    listener. */
module ControlProtocol {
  import opened Wrappers

  type Port = p: int | 0 <= p < 0x1_0000

  datatype PortRange = PortRange(first: Port, last: Port) {
    predicate Contains(p: Port) {
      first <= p <= last
    }
  }

  /** A line of the client. A quic line carries the port range, and whether its other fields parse;
      any line with another verb, or none, is Other. */
  datatype Line = Quit | Quic(ports: PortRange, parses: bool) | Abandon | Icmp | Unlink | Other

  datatype Reason = BadRequest | ListenerExists | NoCertificate | NoFreePort | ListenFailed

  datatype Reply = QuicReply(port: Port) | Unavailable(reason: Reason) | EchoReply | UnlinkReply(removed: bool)

  /** What the host of the helper does when one line is handled, and whether the stream takes the
      reply. */
  datatype Env = Env(certificate: bool, busy: set<Port>, listens: bool, removes: bool, writes: bool)

  /** An open UDP socket with its listener; no two sockets of a run have the same id. */
  datatype Socket = Socket(id: nat, port: Port)

  /** serving: the control stream is read. The listener can outlive that, when a reply could not be
      written, until the transport ends. file: the helper's own file is there. */
  datatype Helper = Helper(serving: bool, quic: Option<Socket>, open: set<Socket>, nextId: nat, file: bool)

  const FRESH := Helper(true, None, {}, 0, true)

  // ----- The helper.

  function FirstFree(p: int, last: Port, busy: set<Port>): (r: Option<Port>)
    requires 0 <= p
    ensures r.Some? ==> p <= r.value <= last && r.value !in busy
    ensures forall q: Port :: p <= q <= last && (r.None? || q < r.value) ==> q in busy
    decreases last - p
  {
    if p > last then None else if p !in busy then Some(p) else FirstFree(p + 1, last, busy)
  }

  function Started(h: Helper, ports: PortRange, env: Env): (Helper, Reply) {
    if h.quic.Some? then (h, Unavailable(ListenerExists))
    else if !env.certificate then (h, Unavailable(NoCertificate))
    else
      match FirstFree(ports.first, ports.last, env.busy)
      case None => (h, Unavailable(NoFreePort))
      case Some(p) =>
        var bound := h.(nextId := h.nextId + 1);
        if !env.listens then (bound, Unavailable(ListenFailed))
        else
          var socket := Socket(h.nextId, p);
          (bound.(quic := Some(socket), open := h.open + {socket}), QuicReply(p))
  }

  function Stopped(h: Helper): Helper {
    match h.quic
    case None => h
    case Some(socket) => h.(quic := None, open := h.open - {socket})
  }

  /** The remove of a file that is gone already is no failure. */
  function Unlinked(h: Helper, env: Env): Helper {
    h.(file := h.file && !env.removes)
  }

  /** The helper after one line, and its reply line. */
  function Handled(h: Helper, line: Line, env: Env): (Helper, Option<Reply>) {
    match line
    case Quit => (Stopped(h).(serving := false), None)
    case Quic(ports, parses) =>
      if !parses || ports.first == 0 || ports.first > ports.last then (h, Some(Unavailable(BadRequest)))
      else
        var (next, reply) := Started(h, ports, env);
        (next, Some(reply))
    case Abandon => (Stopped(h), None)
    case Icmp => (h, Some(EchoReply))
    case Unlink => (Unlinked(h, env), Some(UnlinkReply(!Unlinked(h, env).file)))
    case Other => (h, None)
  }

  function Replies(reply: Option<Reply>): seq<Reply> {
    if reply.None? then [] else [reply.value]
  }

  /** A line served: the reply goes out, or the control stream is given up with it. */
  function Served(h: Helper, line: Line, env: Env): (Helper, seq<Reply>) {
    var (next, reply) := Handled(h, line, env);
    if reply.Some? && !env.writes then (next.(serving := false), []) else (next, Replies(reply))
  }

  function HandledAll(h: Helper, lines: seq<Line>, envs: seq<Env>): (Helper, seq<Reply>)
    requires |envs| == |lines|
    decreases |lines|
  {
    if lines == [] || !h.serving then (h, [])
    else
      var (next, sent) := Served(h, lines[0], envs[0]);
      var (last, replies) := HandledAll(next, lines[1..], envs[1..]);
      (last, sent + replies)
  }

  // ----- Client and helper over two channels.

  predicate WantsReply(line: Line) {
    line.Quic? || line.Icmp? || line.Unlink?
  }

  /** A line the helper took, or the end of its transport. */
  datatype Turn = Took(line: Line, env: Env, reply: Option<Reply>) | HungUp

  /** A reply the client read: the request that read it, as its place among the requests that want
      a reply, and the calls that had given up before. */
  datatype Read = Read(request: nat, gaveUp: nat, reply: Reply)

  datatype World = World(
    toHelper: seq<Line>,
    toClient: seq<Reply>,
    waiting: bool,
    helper: Helper,
    asked: seq<Line>,
    turns: seq<Turn>,
    heard: seq<Read>,
    gaveUp: nat)

  /** A step of either side. A call that wants a reply ends with Receive, or with GiveUp when its
      read deadline passes or the stream fails. */
  datatype Op = Send(line: Line) | Receive | GiveUp | Serve(env: Env) | Hangup

  const START := World([], [], false, FRESH, [], [], [], 0)

  function Next(w: World, op: Op): World {
    match op
    case Send(line) =>
      if w.waiting then w
      else w.(toHelper := w.toHelper + [line], waiting := WantsReply(line),
        asked := if WantsReply(line) then w.asked + [line] else w.asked)
    case Receive =>
      if !w.waiting || w.toClient == [] || w.asked == [] then w
      else w.(waiting := false, toClient := w.toClient[1..],
        heard := w.heard + [Read(|w.asked| - 1, w.gaveUp, w.toClient[0])])
    case GiveUp =>
      if !w.waiting then w else w.(waiting := false, gaveUp := w.gaveUp + 1)
    case Serve(env) =>
      if !w.helper.serving || w.toHelper == [] then w
      else
        var (next, sent) := Served(w.helper, w.toHelper[0], env);
        w.(helper := next, toHelper := w.toHelper[1..], toClient := w.toClient + sent,
        turns := w.turns + [Took(w.toHelper[0], env, Handled(w.helper, w.toHelper[0], env).1)])
    case Hangup =>
      w.(helper := Stopped(w.helper).(serving := false), turns := w.turns + [HungUp])
  }

  /** Every interleaving of client, helper and failures is a sequence of steps. */
  function Run(ops: seq<Op>): World {
    if ops == [] then START else Next(Run(ops[..|ops| - 1]), ops[|ops| - 1])
  }

  // ----- Which request a reply answers.

  function Wanting(lines: seq<Line>): seq<Line> {
    if lines == [] then []
    else (if WantsReply(lines[0]) then [lines[0]] else []) + Wanting(lines[1..])
  }

  /** The requests taken, in order, and the replies that went out to them. */
  function Taken(turns: seq<Turn>): seq<Line> {
    if turns == [] then []
    else
      var t := turns[|turns| - 1];
      Taken(turns[..|turns| - 1]) + if t.Took? && WantsReply(t.line) then [t.line] else []
  }

  function Given(turns: seq<Turn>): seq<Reply> {
    if turns == [] then []
    else
      var t := turns[|turns| - 1];
      Given(turns[..|turns| - 1]) + if t.Took? && t.env.writes then Replies(t.reply) else []
  }

  function Received(heard: seq<Read>): (rs: seq<Reply>)
    ensures |rs| == |heard| && forall i :: 0 <= i < |rs| ==> rs[i] == heard[i].reply
  {
    if heard == [] then [] else Received(heard[..|heard| - 1]) + [heard[|heard| - 1].reply]
  }

  /** A reply of the kind a request asks for; a port is one of the requested range. */
  predicate Answers(line: Line, reply: Reply) {
    match line
    case Quic(ports, _) => reply.Unavailable? || (reply.QuicReply? && reply.port > 0 && ports.Contains(reply.port))
    case Icmp => reply.EchoReply?
    case Unlink => reply.UnlinkReply?
    case _ => false
  }

  /** Each reply answers the request at its place. */
  predicate AnswersAll(lines: seq<Line>, replies: seq<Reply>) {
    |lines| >= |replies| && forall i :: 0 <= i < |replies| ==> Answers(lines[i], replies[i])
  }

  /** Every request sent is taken or still on its way. */
  predicate AllAsked(asked: seq<Line>, turns: seq<Turn>, toHelper: seq<Line>) {
    asked == Taken(turns) + Wanting(toHelper)
  }

  /** Every reply answers the request taken with it, and is read or still on its way. */
  predicate AllAnswered(turns: seq<Turn>, heard: seq<Read>, toClient: seq<Reply>) {
    AnswersAll(Taken(turns), Given(turns)) && Given(turns) == Received(heard) + toClient
  }

  ghost predicate InStep(w: World) {
    && AllAsked(w.asked, w.turns, w.toHelper)
    && AllAnswered(w.turns, w.heard, w.toClient)
    && (w.helper.serving ==> |Given(w.turns)| == |Taken(w.turns)|)
    && |w.asked| == |w.heard| + w.gaveUp + (if w.waiting then 1 else 0)
    && Numbered(w.heard, w.gaveUp)
  }

  predicate Numbered(heard: seq<Read>, gaveUp: nat) {
    forall i :: 0 <= i < |heard| ==> heard[i].request == i + heard[i].gaveUp && heard[i].gaveUp <= gaveUp
  }

  lemma {:induction false} WantingAppend(lines: seq<Line>, line: Line)
    ensures Wanting(lines + [line]) == Wanting(lines) + if WantsReply(line) then [line] else []
  {
    if lines != [] {
      assert (lines + [line])[1..] == lines[1..] + [line];
      WantingAppend(lines[1..], line);
    }
  }

  lemma HandledAnswers(h: Helper, line: Line, env: Env)
    ensures var reply := Handled(h, line, env).1;
      WantsReply(line) == reply.Some? && (reply.Some? ==> Answers(line, reply.value))
  {
  }

  lemma TurnAppend(turns: seq<Turn>, t: Turn)
    ensures Taken(turns + [t]) == Taken(turns) + if t.Took? && WantsReply(t.line) then [t.line] else []
    ensures Given(turns + [t]) == Given(turns) + if t.Took? && t.env.writes then Replies(t.reply) else []
  {
    assert (turns + [t])[..|turns|] == turns;
  }

  lemma ServeAnswers(turns: seq<Turn>, line: Line, env: Env, reply: Option<Reply>)
    requires AnswersAll(Taken(turns), Given(turns)) && |Given(turns)| == |Taken(turns)|
    requires WantsReply(line) == reply.Some? && (reply.Some? ==> Answers(line, reply.value))
    ensures var more := turns + [Took(line, env, reply)];
      && AnswersAll(Taken(more), Given(more))
      && Given(more) == Given(turns) + (if env.writes then Replies(reply) else [])
      && (reply.None? || env.writes ==> |Given(more)| == |Taken(more)|)
  {
    TurnAppend(turns, Took(line, env, reply));
  }

  lemma ServeTakes(turns: seq<Turn>, lines: seq<Line>, env: Env, reply: Option<Reply>)
    requires lines != []
    ensures Taken(turns + [Took(lines[0], env, reply)]) + Wanting(lines[1..]) == Taken(turns) + Wanting(lines)
  {
    var taken := if WantsReply(lines[0]) then [lines[0]] else [];
    TurnAppend(turns, Took(lines[0], env, reply));
    Associate(Taken(turns), taken, Wanting(lines[1..]));
  }

  lemma Associate<T>(a: seq<T>, b: seq<T>, c: seq<T>)
    ensures a + b + c == a + (b + c)
  {
  }

  lemma ServeKeeps(w: World, env: Env)
    requires InStep(w)
    ensures InStep(Next(w, Serve(env)))
  {
    if w.helper.serving && w.toHelper != [] {
      var reply := Handled(w.helper, w.toHelper[0], env).1;
      HandledAnswers(w.helper, w.toHelper[0], env);
      ServeAnswers(w.turns, w.toHelper[0], env, reply);
      ServeTakes(w.turns, w.toHelper, env, reply);
      Associate(Received(w.heard), w.toClient, if env.writes then Replies(reply) else []);
    }
  }

  lemma ReceivedAppend(turns: seq<Turn>, heard: seq<Read>, r: Read, coming: seq<Reply>)
    requires AllAnswered(turns, heard, coming) && coming != [] && r.reply == coming[0]
    ensures AllAnswered(turns, heard + [r], coming[1..])
  {
    assert (heard + [r])[..|heard|] == heard;
    Associate(Received(heard), [r.reply], coming[1..]);
    assert [r.reply] + coming[1..] == coming;
  }

  lemma NumberedAppend(heard: seq<Read>, r: Read)
    requires Numbered(heard, r.gaveUp) && r.request == |heard| + r.gaveUp
    ensures Numbered(heard + [r], r.gaveUp)
  {
  }

  lemma ReceiveKeeps(w: World)
    requires InStep(w)
    ensures InStep(Next(w, Receive))
  {
    if w.waiting && w.toClient != [] && w.asked != [] {
      var r := Read(|w.asked| - 1, w.gaveUp, w.toClient[0]);
      ReceivedAppend(w.turns, w.heard, r, w.toClient);
      NumberedAppend(w.heard, r);
    }
  }

  lemma SendKeeps(w: World, line: Line)
    requires InStep(w)
    ensures InStep(Next(w, Send(line)))
  {
    WantingAppend(w.toHelper, line);
    Associate(Taken(w.turns), Wanting(w.toHelper), [line]);
    assert Wanting(w.toHelper) + [] == Wanting(w.toHelper);
  }

  lemma HangupKeeps(w: World)
    requires InStep(w)
    ensures InStep(Next(w, Hangup))
  {
    TurnAppend(w.turns, HungUp);
    assert Taken(w.turns) + [] == Taken(w.turns) && Given(w.turns) + [] == Given(w.turns);
  }

  lemma NextKeeps(w: World, op: Op)
    requires InStep(w)
    ensures InStep(Next(w, op))
  {
    match op
    case Send(line) => SendKeeps(w, line);
    case Receive => ReceiveKeeps(w);
    case GiveUp =>
    case Serve(env) => ServeKeeps(w, env);
    case Hangup => HangupKeeps(w);
  }

  lemma {:induction false} RunsInStep(ops: seq<Op>)
    ensures InStep(Run(ops))
  {
    if ops != [] {
      RunsInStep(ops[..|ops| - 1]);
      NextKeeps(Run(ops[..|ops| - 1]), ops[|ops| - 1]);
    }
  }

  /** In every interleaving the n-th reply read answers the n-th request, so a request reads the
      answer to itself exactly when no call before it gave up, and after that the answer to a
      request as many places back as calls gave up. */
  lemma {:induction false} RepliesAnswerInOrder(ops: seq<Op>, i: nat)
    requires i < |Run(ops).heard|
    ensures var w := Run(ops); var r := w.heard[i];
      && i < |w.asked| && Answers(w.asked[i], r.reply)
      && r.request < |w.asked| && r.request - r.gaveUp == i
      && (i == r.request <==> r.gaveUp == 0)
  {
    RunsInStep(ops);
    HeardAnswers(Run(ops), i);
  }

  lemma HeardAnswers(w: World, i: nat)
    requires InStep(w) && i < |w.heard|
    ensures i < |w.asked| && Answers(w.asked[i], w.heard[i].reply)
    ensures w.heard[i].request < |w.asked| && w.heard[i].request == i + w.heard[i].gaveUp
  {
    assert Received(w.heard)[i] == Given(w.turns)[i];
    assert w.asked[i] == Taken(w.turns)[i];
  }

  /** A port the client reads is from the range of a quic request, and of its own when no call
      before it gave up. */
  lemma PortsAreFromARequest(ops: seq<Op>, i: nat)
    requires i < |Run(ops).heard| && Run(ops).heard[i].reply.QuicReply?
    ensures var w := Run(ops); var r := w.heard[i];
      i < |w.asked| && w.asked[i].Quic? && w.asked[i].ports.Contains(r.reply.port) && (r.gaveUp == 0 ==> r.request == i)
  {
    RepliesAnswerInOrder(ops, i);
  }

  /** After an echo query that gave up, the negotiation reads the answer to the query, and the
      helper then holds a listener that the client does not know of. */
  lemma LateReplyIsMistaken(ports: PortRange, env: Env)
    requires 0 < ports.first <= ports.last && env.certificate && env.listens && env.writes && ports.first !in env.busy
    ensures var w := Run([Send(Icmp), GiveUp, Serve(env), Send(Quic(ports, true)), Receive, Serve(env)]);
      w.heard == [Read(1, 1, EchoReply)] && w.helper.quic.Some? && NegotiateOutcome(Arrived(EchoReply)) == Err(UnexpectedLine)
  {
    var ops := [Send(Icmp), GiveUp, Serve(env), Send(Quic(ports, true)), Receive, Serve(env)];
    assert ops[..5][..4][..3][..2][..1] == ops[..1] && ops[..5][..4][..3][..2] == ops[..2];
    assert ops[..5][..4][..3] == ops[..3] && ops[..5][..4] == ops[..4];
    assert Run(ops[..1]) == Next(START, Send(Icmp));
    assert Run(ops[..2]) == Next(Run(ops[..1]), GiveUp);
    assert Run(ops[..3]) == Next(Run(ops[..2]), Serve(env));
    assert Run(ops[..4]) == Next(Run(ops[..3]), Send(Quic(ports, true)));
    assert Run(ops[..5]) == Next(Run(ops[..4]), Receive);
  }

  // ----- The life of the listener.

  /** The port the last start left, unless an abandon, a quit or the end came after it. */
  function ListeningAfter(turns: seq<Turn>): Option<Port> {
    if turns == [] then None
    else
      match turns[|turns| - 1]
      case HungUp => None
      case Took(line, _, reply) =>
        if line.Quit? || line.Abandon? then None
        else if reply.Some? && reply.value.QuicReply? then Some(reply.value.port)
        else ListeningAfter(turns[..|turns| - 1])
  }

  /** The sockets open are the one of the listener, if there is a listener. */
  ghost predicate OneListener(h: Helper) {
    h.open == (match h.quic case None => {} case Some(socket) => {socket})
  }

  ghost predicate Listening(w: World) {
    && OneListener(w.helper)
    && ListeningAfter(w.turns) == (match w.helper.quic case None => None case Some(socket) => Some(socket.port))
  }

  lemma HandledListener(h: Helper, line: Line, env: Env)
    requires OneListener(h)
    ensures var (next, reply) := Handled(h, line, env);
      && OneListener(next)
      && ((line.Quit? || line.Abandon?) ==> next.quic.None?)
      && (reply.Some? && reply.value.QuicReply? ==>
        h.quic.None? && next.quic.Some? && next.quic.value.port == reply.value.port)
      && (!line.Quit? && !line.Abandon? && !(reply.Some? && reply.value.QuicReply?) ==> next.quic == h.quic)
  {
  }

  lemma ListeningAppend(turns: seq<Turn>, t: Turn)
    ensures ListeningAfter(turns + [t]) ==
      if t.HungUp? || t.line.Quit? || t.line.Abandon? then None
      else if t.reply.Some? && t.reply.value.QuicReply? then Some(t.reply.value.port)
      else ListeningAfter(turns)
  {
    assert (turns + [t])[..|turns|] == turns;
  }

  lemma ServeListens(w: World, env: Env)
    requires Listening(w)
    ensures Listening(Next(w, Serve(env)))
  {
    if w.helper.serving && w.toHelper != [] {
      HandledListener(w.helper, w.toHelper[0], env);
      ListeningAppend(w.turns, Took(w.toHelper[0], env, Handled(w.helper, w.toHelper[0], env).1));
    }
  }

  lemma HangupListens(w: World)
    requires Listening(w)
    ensures Listening(Next(w, Hangup))
  {
    ListeningAppend(w.turns, HungUp);
  }

  lemma {:induction false} RunsListening(ops: seq<Op>)
    ensures Listening(Run(ops))
  {
    if ops != [] {
      var w, op := Run(ops[..|ops| - 1]), ops[|ops| - 1];
      RunsListening(ops[..|ops| - 1]);
      if op.Serve? {
        ServeListens(w, op.env);
      } else if op.Hangup? {
        HangupListens(w);
      }
    }
  }

  /** The helper has at most one socket open in every interleaving. It has one exactly when the last
      start was not followed by an abandon, a quit or the end of the transport. */
  lemma ListenerIsTheLastStart(ops: seq<Op>)
    ensures var w := Run(ops);
      && |w.helper.open| <= 1
      && (forall socket :: socket in w.helper.open ==> ListeningAfter(w.turns) == Some(socket.port))
      && (w.helper.open == {} <==> ListeningAfter(w.turns).None?)
      && (forall t :: t in w.turns && (t.HungUp? || t.line.Quit?) ==> w.helper.open == {})
  {
    RunsListening(ops);
    StoppedStaysClosed(ops);
  }

  /** After a quit or the end of the transport nothing is served, so nothing starts again. */
  lemma {:induction false} StoppedStaysClosed(ops: seq<Op>)
    ensures forall t :: t in Run(ops).turns && (t.HungUp? || t.line.Quit?) ==>
      !Run(ops).helper.serving && Run(ops).helper.quic.None?
  {
    if ops != [] {
      StoppedStaysClosed(ops[..|ops| - 1]);
    }
  }

  /** A turn that started a listener: from none, on the first free port of the range it was asked
      for. */
  ghost predicate StartsFromNone(before: seq<Turn>, t: Turn) {
    t.Took? && t.reply.Some? && t.reply.value.QuicReply? ==>
      && ListeningAfter(before).None?
      && t.line.Quic? && t.line.ports.Contains(t.reply.value.port)
      && t.reply.value.port !in t.env.busy
      && forall q: Port :: t.line.ports.first <= q < t.reply.value.port ==> q in t.env.busy
  }

  lemma {:induction false} StartsOnlyFromNone(ops: seq<Op>, k: nat)
    requires k < |Run(ops).turns|
    ensures StartsFromNone(Run(ops).turns[..k], Run(ops).turns[k])
  {
    if ops != [] {
      var w, op := Run(ops[..|ops| - 1]), ops[|ops| - 1];
      if k < |w.turns| {
        StartsOnlyFromNone(ops[..|ops| - 1], k);
        assert Run(ops).turns[..k] == w.turns[..k];
      } else {
        RunsListening(ops[..|ops| - 1]);
        assert Run(ops).turns[..k] == w.turns;
      }
    }
  }

  lemma RunOne(ops: seq<Op>, op: Op)
    ensures Run(ops + [op]) == Next(Run(ops), op)
  {
    assert (ops + [op])[..|ops|] == ops;
  }

  /** From any point of any run where both sides are at rest and no call gave up, an abandon and a
      new request bring a listener up on the first free port, and the client reads that port. */
  lemma NegotiationAfterAbandon(ops: seq<Op>, ports: PortRange, first: Env, env: Env, p: Port)
    requires var w := Run(ops); !w.waiting && w.gaveUp == 0 && w.helper.serving && w.toHelper == []
    requires 0 < ports.first <= ports.last && env.certificate && env.listens && env.writes
    requires FirstFree(ports.first, ports.last, env.busy) == Some(p)
    ensures var w := Run(ops + [Send(Abandon)] + [Serve(first)] + [Send(Quic(ports, true))] + [Serve(env)] + [Receive]);
      && w.helper.quic.Some? && w.helper.quic.value.port == p
      && |w.heard| == |Run(ops).heard| + 1
      && w.heard[|w.heard| - 1] == Read(|w.heard| - 1, 0, QuicReply(p))
  {
    RunsInStep(ops);
    RunOne(ops, Send(Abandon));
    RunOne(ops + [Send(Abandon)], Serve(first));
    var w := Run(ops + [Send(Abandon)] + [Serve(first)]);
    AbandonRests(Run(ops), first);
    NegotiationFromRest(w, ports, env, p);
    RunOne(ops + [Send(Abandon)] + [Serve(first)], Send(Quic(ports, true)));
    RunOne(ops + [Send(Abandon)] + [Serve(first)] + [Send(Quic(ports, true))], Serve(env));
    RunOne(ops + [Send(Abandon)] + [Serve(first)] + [Send(Quic(ports, true))] + [Serve(env)], Receive);
  }

  predicate AtRest(w: World) {
    !w.waiting && w.gaveUp == 0 && w.helper.serving && w.toHelper == [] && w.toClient == [] && |w.asked| == |w.heard|
  }

  lemma AbandonRests(w: World, env: Env)
    requires InStep(w) && !w.waiting && w.gaveUp == 0 && w.helper.serving && w.toHelper == []
    ensures var next := Next(Next(w, Send(Abandon)), Serve(env));
      AtRest(next) && next.helper.quic.None? && next.heard == w.heard
  {
    assert |Given(w.turns)| == |Taken(w.turns)| == |w.asked| == |w.heard|;
    assert w.toClient == [];
    assert Handled(w.helper, Abandon, env) == (Stopped(w.helper), None);
  }

  lemma NegotiationFromRest(w: World, ports: PortRange, env: Env, p: Port)
    requires AtRest(w) && w.helper.quic.None?
    requires 0 < ports.first <= ports.last && env.certificate && env.listens && env.writes
    requires FirstFree(ports.first, ports.last, env.busy) == Some(p)
    ensures var next := Next(Next(Next(w, Send(Quic(ports, true))), Serve(env)), Receive);
      && next.helper.quic.Some? && next.helper.quic.value.port == p
      && next.heard == w.heard + [Read(|w.heard|, 0, QuicReply(p))]
  {
    assert Handled(w.helper, Quic(ports, true), env).1 == Some(QuicReply(p));
  }

  // ----- The calls of the client.

  datatype Delivery = Arrived(reply: Reply) | NoReply

  datatype CallError = NoAnswer | UnexpectedLine | BadPort | Refused(reason: Reason) | NotRemoved

  function NegotiateOutcome(d: Delivery): Result<Port, CallError> {
    match d
    case NoReply => Err(NoAnswer)
    case Arrived(QuicReply(p)) => if p == 0 then Err(BadPort) else Ok(p)
    case Arrived(Unavailable(reason)) => Err(Refused(reason))
    case Arrived(_) => Err(UnexpectedLine)
  }

  function UnlinkOutcome(d: Delivery): Result<(), CallError> {
    match d
    case NoReply => Err(NoAnswer)
    case Arrived(UnlinkReply(removed)) => if removed then Ok(()) else Err(NotRemoved)
    case Arrived(_) => Err(UnexpectedLine)
  }

  function EchoOutcome(d: Delivery): Result<(), CallError> {
    match d
    case NoReply => Err(NoAnswer)
    case Arrived(EchoReply) => Ok(())
    case Arrived(_) => Err(UnexpectedLine)
  }

  /** The end of the QUIC negotiation: the connection is up, the session can fall back to SSH, or the
      attempt failed. */
  datatype Dialed = Up(port: Port) | Fallback | Failed(error: CallError)

  function DialOutcome(d: Delivery, handshake: bool): Dialed {
    match NegotiateOutcome(d)
    case Err(Refused(_)) => Fallback
    case Err(e) => Failed(e)
    case Ok(p) => if handshake then Up(p) else Fallback
  }

  /** What the client sends after the reply. */
  function DialFollowUp(d: Delivery, handshake: bool): (lines: seq<Line>)
    ensures |lines| <= 1
  {
    if NegotiateOutcome(d).Ok? && !handshake then [Abandon] else []
  }

  /** The helper after a dial: it takes the request, and what the client then sends. */
  function AfterDial(h: Helper, ports: PortRange, parses: bool, env: Env, later: Env, handshake: bool): (Helper, Dialed)
    requires env.writes
  {
    var (next, reply) := Handled(h, Quic(ports, parses), env);
    var answered := Arrived(reply.value);
    var extra := DialFollowUp(answered, handshake);
    (HandledAll(next, extra, [later][..|extra|]).0, DialOutcome(answered, handshake))
  }

  // ----- What an unlink reply tells.

  /** One of the first n turns removed the file. */
  ghost predicate RemovedBy(turns: seq<Turn>, n: nat) {
    exists j | 0 <= j < n <= |turns| :: Removes(turns[j])
  }

  predicate Removes(t: Turn) {
    t.Took? && t.line.Unlink? && t.env.removes
  }

  /** The file is there until a turn removes it, and each unlink reply says whether one has. */
  ghost predicate FileTold(turns: seq<Turn>, file: bool) {
    && (file <==> !RemovedBy(turns, |turns|))
    && forall k | 0 <= k < |turns| && turns[k].Took? ::
         if turns[k].line.Unlink? then turns[k].reply == Some(UnlinkReply(RemovedBy(turns, k + 1)))
         else turns[k].reply.Some? ==> !turns[k].reply.value.UnlinkReply?
  }

  lemma RemovedAppend(turns: seq<Turn>, t: Turn, n: nat)
    ensures n <= |turns| ==> RemovedBy(turns + [t], n) == RemovedBy(turns, n)
    ensures RemovedBy(turns + [t], |turns| + 1) == (RemovedBy(turns, |turns|) || Removes(t))
  {
    var more := turns + [t];
    if n <= |turns| && RemovedBy(more, n) {
      var j :| 0 <= j < n && Removes(more[j]);
      assert Removes(turns[j]);
    }
    if n <= |turns| && RemovedBy(turns, n) {
      var j :| 0 <= j < n && Removes(turns[j]);
      assert Removes(more[j]);
    }
    if RemovedBy(turns, |turns|) {
      var j :| 0 <= j < |turns| && Removes(turns[j]);
      assert Removes(more[j]);
    }
    assert more[|turns|] == t;
    if RemovedBy(more, |turns| + 1) && !Removes(t) {
      var j :| 0 <= j < |turns| + 1 && Removes(more[j]);
      assert Removes(turns[j]);
    }
  }

  lemma FileAppend(turns: seq<Turn>, file: bool, t: Turn, file': bool)
    requires FileTold(turns, file) && (file' <==> file && !Removes(t))
    requires t.Took? ==>
      if t.line.Unlink? then t.reply == Some(UnlinkReply(!file')) else t.reply.Some? ==> !t.reply.value.UnlinkReply?
    ensures FileTold(turns + [t], file')
  {
    var more := turns + [t];
    RemovedAppend(turns, t, 0);
    forall k | 0 <= k < |more| && more[k].Took?
      ensures if more[k].line.Unlink? then more[k].reply == Some(UnlinkReply(RemovedBy(more, k + 1)))
              else more[k].reply.Some? ==> !more[k].reply.value.UnlinkReply?
    {
      if k < |turns| {
        RemovedAppend(turns, t, k + 1);
      }
    }
  }

  lemma HandledFile(h: Helper, line: Line, env: Env)
    ensures var (next, reply) := Handled(h, line, env);
      && (next.file <==> h.file && !Removes(Took(line, env, reply)))
      && (if line.Unlink? then reply == Some(UnlinkReply(!next.file)) else reply.Some? ==> !reply.value.UnlinkReply?)
      && Served(h, line, env).0.file == next.file
  {
  }

  lemma NextTellsFile(w: World, op: Op)
    requires FileTold(w.turns, w.helper.file)
    ensures FileTold(Next(w, op).turns, Next(w, op).helper.file)
  {
    match op
    case Serve(env) =>
      if w.helper.serving && w.toHelper != [] {
        var (next, reply) := Handled(w.helper, w.toHelper[0], env);
        HandledFile(w.helper, w.toHelper[0], env);
        FileAppend(w.turns, w.helper.file, Took(w.toHelper[0], env, reply), next.file);
      }
    case Hangup => FileAppend(w.turns, w.helper.file, HungUp, w.helper.file);
    case _ =>
  }

  lemma {:induction false} RunsTellFile(ops: seq<Op>)
    ensures FileTold(Run(ops).turns, Run(ops).helper.file)
  {
    if ops != [] {
      RunsTellFile(ops[..|ops| - 1]);
      NextTellsFile(Run(ops[..|ops| - 1]), ops[|ops| - 1]);
    }
  }

  /** A reply that went out is the reply of a turn. */
  lemma {:induction false} GivenByTurn(turns: seq<Turn>, i: nat) returns (k: nat)
    requires i < |Given(turns)|
    ensures k < |turns| && turns[k].Took? && turns[k].reply == Some(Given(turns)[i])
  {
    var last := |turns| - 1;
    if i < |Given(turns[..last])| {
      k := GivenByTurn(turns[..last], i);
    } else {
      k := last;
    }
  }

  /** In every interleaving: an unlink call that reads its answer and succeeds means that the helper's
      file is gone, and one that is told of a failure was answered before anything removed it. */
  lemma UnlinkTellsTheTruth(ops: seq<Op>, i: nat) returns (k: nat)
    requires i < |Run(ops).heard| && Run(ops).heard[i].reply.UnlinkReply?
    ensures var w := Run(ops); var outcome := UnlinkOutcome(Arrived(w.heard[i].reply));
      && (outcome.Ok? ==> !w.helper.file)
      && k < |w.turns| && w.turns[k].Took? && w.turns[k].line.Unlink?
      && (outcome.Ok? <==> RemovedBy(w.turns, k + 1))
      && (!outcome.Ok? ==> outcome == Err(NotRemoved))
  {
    RunsInStep(ops);
    RunsTellFile(ops);
    k := HeardFromTurn(Run(ops), i);
    RemovedForGood(Run(ops).turns, k + 1);
  }

  lemma HeardFromTurn(w: World, i: nat) returns (k: nat)
    requires InStep(w) && i < |w.heard|
    ensures k < |w.turns| && w.turns[k].Took? && w.turns[k].reply == Some(w.heard[i].reply)
  {
    assert Received(w.heard)[i] == Given(w.turns)[i];
    k := GivenByTurn(w.turns, i);
  }

  lemma RemovedForGood(turns: seq<Turn>, n: nat)
    requires n <= |turns|
    ensures RemovedBy(turns, n) ==> RemovedBy(turns, |turns|)
  {
  }

  /** At any point of any run, a dial whose reply arrives leaves the helper a new listener exactly when
      it is up, on the port it dialed; a fallback leaves the helper with the listener it had, or none. A
      reply that does not arrive fails the dial and is followed by nothing, so the listener it announced
      stays. */
  lemma DialKeepsListenerOnlyWhenUp(ops: seq<Op>, ports: PortRange, parses: bool, env: Env, later: Env, handshake: bool)
    requires Run(ops).helper.serving
    ensures var h := Run(ops).helper; var (next, reply) := Handled(h, Quic(ports, parses), env);
      && (env.writes ==>
        var (left, outcome) := AfterDial(h, ports, parses, env, later, handshake);
        match outcome
        case Up(p) => h.quic.None? && left.quic.Some? && left.quic.value.port == p && left.open == {left.quic.value}
        case Fallback => left.quic == h.quic && left.open == h.open
        case Failed(_) => false)
      && DialFollowUp(NoReply, handshake) == [] && DialOutcome(NoReply, handshake) == Failed(NoAnswer)
      && (next.quic == h.quic <==> !reply.value.QuicReply?)
  {
    RunsListening(ops);
    var h := Run(ops).helper;
    var (next, reply) := Handled(h, Quic(ports, parses), env);
    var extra := DialFollowUp(Arrived(reply.value), handshake);
    assert extra == [Abandon] || extra == [];
    if extra == [Abandon] {
      AbandonServed(next, later);
      assert [later][..1] == [later];
    }
  }

  lemma AbandonServed(h: Helper, env: Env)
    requires h.serving
    ensures HandledAll(h, [Abandon], [env]) == (Stopped(h), [])
  {
    var lines, envs := [Abandon], [env];
    var (next, sent) := Served(h, lines[0], envs[0]);
    assert next == Stopped(h) && sent == [];
    assert HandledAll(next, lines[1..], envs[1..]) == (next, []);
    assert HandledAll(h, lines, envs) == (next, sent + []) && sent + [] == [];
  }

  // ----- The code.

  /** The helper's server. The set of open sockets and the next id stand for the host's tables. */
  class Server {
    var serving: bool
    var quic: Option<Socket>
    var open: set<Socket>
    var nextId: nat
    var file: bool

    constructor ()
      ensures State() == FRESH
    {
      serving, quic, open, nextId, file := true, None, {}, 0, true;
    }

    ghost function State(): Helper
      reads this
    {
      Helper(serving, quic, open, nextId, file)
    }

    /** Binds the first port of the range that is free. The counter is wider than a port, so the
        loop ends for a range that goes up to the last one. */
    method BindInRange(ports: PortRange, busy: set<Port>) returns (socket: Option<Socket>)
      modifies this
      ensures var port := FirstFree(ports.first, ports.last, busy);
        if port.None? then socket == None && State() == old(State())
        else
          && socket == Some(Socket(old(nextId), port.value))
          && State() == old(State()).(open := old(open) + {socket.value}, nextId := old(nextId) + 1)
    {
      var p: int := ports.first;
      while p <= ports.last
        invariant 0 <= p && FirstFree(ports.first, ports.last, busy) == FirstFree(p, ports.last, busy)
        invariant State() == old(State())
      {
        if p !in busy {
          socket := Some(Socket(nextId, p));
          open, nextId := open + {socket.value}, nextId + 1;
          return;
        }
        p := p + 1;
      }
      socket := None;
    }

    method StartQUIC(ports: PortRange, env: Env) returns (reply: Reply)
      requires forall socket :: socket in open ==> socket.id < nextId
      modifies this
      ensures (State(), reply) == Started(old(State()), ports, env)
    {
      if quic.Some? {
        return Unavailable(ListenerExists);
      }
      if !env.certificate {
        return Unavailable(NoCertificate);
      }
      var socket := BindInRange(ports, env.busy);
      if socket.None? {
        return Unavailable(NoFreePort);
      }
      if !env.listens {
        open := open - {socket.value};
        return Unavailable(ListenFailed);
      }
      quic := socket;
      reply := QuicReply(socket.value.port);
    }

    method StopQUIC()
      modifies this
      ensures State() == Stopped(old(State()))
    {
      var q := quic;
      quic := None;
      if q.None? {
        return;
      }
      open := open - {q.value};
    }

    method AnswerQUIC(ports: PortRange, parses: bool, env: Env) returns (reply: Reply)
      requires forall socket :: socket in open ==> socket.id < nextId
      modifies this
      ensures (State(), Some(reply)) == Handled(old(State()), Quic(ports, parses), env)
    {
      if !parses || ports.first == 0 || ports.first > ports.last {
        return Unavailable(BadRequest);
      }
      reply := StartQUIC(ports, env);
    }

    method HandleLine(line: Line, env: Env) returns (reply: Option<Reply>)
      requires forall socket :: socket in open ==> socket.id < nextId
      modifies this
      ensures (State(), reply) == Handled(old(State()), line, env)
      ensures forall socket :: socket in open ==> socket.id < nextId
    {
      reply := None;
      match line
      case Quit =>
        StopQUIC();
        serving := false;
      case Quic(ports, parses) =>
        var answer := AnswerQUIC(ports, parses, env);
        reply := Some(answer);
      case Abandon =>
        StopQUIC();
      case Icmp =>
        reply := Some(EchoReply);
      case Unlink =>
        if env.removes {
          file := false;
        }
        reply := Some(UnlinkReply(!file));
      case Other =>
    }

    /** Serves the lines of one control stream up to quit, to a reply that cannot be written, or to the
        end of the stream. */
    method HandleControl(lines: seq<Line>, envs: seq<Env>) returns (replies: seq<Reply>)
      requires |envs| == |lines| && serving
      requires forall socket :: socket in open ==> socket.id < nextId
      modifies this
      ensures (State(), replies) == HandledAll(old(State()), lines, envs)
    {
      replies := [];
      ghost var (last, all) := HandledAll(State(), lines, envs);
      assert lines[0..] == lines && envs[0..] == envs && [] + all == all;
      for i := 0 to |lines|
        invariant serving && forall socket :: socket in open ==> socket.id < nextId
        invariant (last, all) ==
          (HandledAll(State(), lines[i..], envs[i..]).0, replies + HandledAll(State(), lines[i..], envs[i..]).1)
      {
        assert lines[i..][1..] == lines[i + 1..] && envs[i..][1..] == envs[i + 1..];
        ghost var before, sent := replies, Served(State(), lines[i], envs[i]).1;
        var reply := HandleLine(lines[i], envs[i]);
        if reply.Some? {
          if !envs[i].writes {
            serving := false;
          } else {
            replies := replies + [reply.value];
          }
        }
        assert replies == before + sent;
        Associate(before, sent, HandledAll(State(), lines[i + 1..], envs[i + 1..]).1);
        if !serving {
          assert HandledAll(State(), lines[i + 1..], envs[i + 1..]) == (State(), []);
          assert replies + [] == replies;
          return;
        }
      }
      assert replies + [] == replies;
    }
  }

  /** The client's end of the control stream: the lines it has written, and what its next reads will
      bring, a reply or nothing before the deadline. */
  class Client {
    var sent: seq<Line>
    var inbox: seq<Delivery>

    constructor (deliveries: seq<Delivery>)
      ensures sent == [] && inbox == deliveries
    {
      sent, inbox := [], deliveries;
    }

    function Coming(): Delivery
      reads this
    {
      if inbox == [] then NoReply else inbox[0]
    }

    method Ask(line: Line) returns (d: Delivery)
      modifies this
      ensures d == old(Coming()) && sent == old(sent) + [line]
      ensures inbox == if old(inbox) == [] then [] else old(inbox)[1..]
    {
      sent := sent + [line];
      d := Coming();
      if inbox != [] {
        inbox := inbox[1..];
      }
    }

    method NegotiateQUIC(ports: PortRange) returns (port: Result<Port, CallError>)
      modifies this
      ensures port == NegotiateOutcome(old(Coming())) && sent == old(sent) + [Quic(ports, true)]
    {
      var d := Ask(Quic(ports, true));
      if d.NoReply? {
        return Err(NoAnswer);
      }
      match d.reply
      case Unavailable(reason) => return Err(Refused(reason));
      case QuicReply(p) =>
        if p == 0 {
          return Err(BadPort);
        }
        return Ok(p);
      case _ => return Err(UnexpectedLine);
    }

    method QueryEchoSocket() returns (r: Result<(), CallError>)
      modifies this
      ensures r == EchoOutcome(old(Coming())) && sent == old(sent) + [Icmp]
    {
      var d := Ask(Icmp);
      r := EchoOutcome(d);
    }

    method UnlinkFile() returns (r: Result<(), CallError>)
      modifies this
      ensures r == UnlinkOutcome(old(Coming())) && sent == old(sent) + [Unlink]
    {
      var d := Ask(Unlink);
      r := UnlinkOutcome(d);
    }

    method AbandonQUIC()
      modifies this`sent
      ensures sent == old(sent) + [Abandon]
    {
      sent := sent + [Abandon];
    }

    method QuitHelper()
      modifies this`sent
      ensures sent == old(sent) + [Quit]
    {
      sent := sent + [Quit];
    }

    /** Negotiates the listener and dials it; a handshake that does not complete is abandoned. */
    method DialQUIC(ports: PortRange, handshake: bool) returns (r: Dialed)
      modifies this
      ensures r == DialOutcome(old(Coming()), handshake)
      ensures sent == old(sent) + [Quic(ports, true)] + DialFollowUp(old(Coming()), handshake)
    {
      var port := NegotiateQUIC(ports);
      if port.Err? {
        return if port.error.Refused? then Fallback else Failed(port.error);
      }
      if !handshake {
        AbandonQUIC();
        return Fallback;
      }
      r := Up(port.value);
    }
  }
}
