/** The daemon's connection and the GTK client as one system: the daemon reads the lines the client
    sent, in order, and the client receives the bytes the daemon wrote, in order, each at any pace. */
module LinuxSystem {
  import opened Prelude
  import opened Framing
  import opened IpcServer
  import opened IpcServerProofs
  import opened IpcStreams
  import L = LinuxClient
  import P = LinuxClientProofs

  /** What the client sees in a response, given what it makes of a result. */
  function PayloadOf(b: Body, value: Body -> int): L.Payload {
    match b case Error(code) => L.ErrorMember(code) case _ => L.ResultMember(value(b))
  }

  function ViewOf(m: Msg, value: Body -> int): L.View {
    match m
    case Response(id, b) =>
      L.Object(match id case NumId(n) => Some(n) case _ => None, PayloadOf(b, value), None)
    case Notification(topic, _) => L.Object(None, L.NeitherMember, Some(topic))
  }

  lemma FramesAreNotCut(line: Bytes)
    requires NUL !in line
    ensures L.CString(line) == line
  {
  }

  /** `taken` is how many bytes of the wire the client has received. */
  datatype System = System(server: State, client: L.Client, taken: int)

  datatype Turn = Serve(move: Label) | Act(op: L.Op)

  /** The calls that went out, by id and events. */
  function SentBy(calls: seq<L.Issued>): seq<(int, seq<string>)> {
    if calls == [] then []
    else
      var last := calls[|calls| - 1];
      SentBy(calls[..|calls| - 1]) + (match last.id case Some(id) => [(id, last.events)] case None => [])
  }

  /** The line is one the call may have sent: under its id, and a subscription if it names events. */
  predicate LineOf(call: (int, seq<string>), line: Line) {
    && !line.Garbage? && line.id == NumId(call.0)
    && (call.1 != [] ==> line == Subscribe(NumId(call.0), Some(call.1)))
  }

  /** The chunk is what comes next on the wire. */
  predicate Follows(wire: Bytes, taken: int, chunk: Bytes) {
    0 <= taken && taken + |chunk| <= |wire| && wire[taken..taken + |chunk|] == chunk
  }

  predicate Possible(y: System, u: Turn) {
    match u
    case Serve(l) =>
      && Enabled(y.server, l)
      && (l.Read? ==>
            && |y.server.lines| < |SentBy(y.client.calls)|
            && LineOf(SentBy(y.client.calls)[|y.server.lines|], l.line))
    case Act(op) =>
      && L.Enabled(y.client, op)
      && (op.Receive? ==> Follows(y.server.wire, y.taken, op.chunk))
  }

  function After(enc: Msg -> Bytes, parse: Bytes -> L.View, y: System, u: Turn): System
    requires Possible(y, u)
  {
    match u
    case Serve(l) => y.(server := Step(enc, y.server, l))
    case Act(op) =>
      y.(client := L.Step(parse, y.client, op), taken := y.taken + if op.Receive? then |op.chunk| else 0)
  }

  function Play(enc: Msg -> Bytes, parse: Bytes -> L.View, before: seq<Note>, turns: seq<Turn>): Option<System> {
    if turns == [] then Some(System(Accepted(before), L.CONNECTED, 0))
    else
      match Play(enc, parse, before, turns[..|turns| - 1])
      case None => None
      case Some(y) =>
        if Possible(y, turns[|turns| - 1]) then Some(After(enc, parse, y, turns[|turns| - 1])) else None
  }

  // ----- each side by itself -----

  function ServerSide(turns: seq<Turn>): seq<Label> {
    if turns == [] then []
    else
      var side, u := ServerSide(turns[..|turns| - 1]), turns[|turns| - 1];
      match u case Serve(l) => side + [l] case Act(_) => side
  }

  function ClientSide(turns: seq<Turn>): seq<L.Op> {
    if turns == [] then []
    else
      var side, u := ClientSide(turns[..|turns| - 1]), turns[|turns| - 1];
      match u case Act(op) => side + [op] case Serve(_) => side
  }

  /** What the daemon has read, and what it has made of it. */
  function RequestsOf(turns: seq<Turn>): seq<Request> {
    Requests(ServerSide(turns))
  }

  lemma WireGrows(enc: Msg -> Bytes, s: State, l: Label)
    requires Enabled(s, l)
    ensures s.wire <= Step(enc, s, l).wire
  {
  }

  lemma {:induction false} ServerRuns(enc: Msg -> Bytes, parse: Bytes -> L.View, before: seq<Note>, turns: seq<Turn>,
          y: System)
    requires Play(enc, parse, before, turns) == Some(y)
    ensures Exec(enc, before, ServerSide(turns)) == Some(y.server)
  {
    if turns != [] {
      var init := turns[..|turns| - 1];
      ServerRuns(enc, parse, before, init, Play(enc, parse, before, init).value);
      if turns[|turns| - 1].Serve? {
        assert ServerSide(turns)[..|ServerSide(init)|] == ServerSide(init);
      }
    }
  }

  lemma {:induction false} ClientRuns(enc: Msg -> Bytes, parse: Bytes -> L.View, before: seq<Note>, turns: seq<Turn>,
          y: System)
    requires Play(enc, parse, before, turns) == Some(y)
    ensures L.Exec(parse, ClientSide(turns)) == Some(y.client)
  {
    if turns != [] {
      var init := turns[..|turns| - 1];
      ClientRuns(enc, parse, before, init, Play(enc, parse, before, init).value);
      if turns[|turns| - 1].Act? {
        assert ClientSide(turns)[..|ClientSide(init)|] == ClientSide(init);
      }
    }
  }

  lemma ChunksAppend(ops: seq<L.Op>, op: L.Op)
    ensures Concat(P.Chunks(ops + [op])) ==
              if op.Receive? then Concat(P.Chunks(ops)) + op.chunk else Concat(P.Chunks(ops))
  {
    assert (ops + [op])[..|ops|] == ops;
    var chunks := P.Chunks(ops);
    if op.Receive? {
      assert (chunks + [op.chunk])[..|chunks|] == chunks;
    } else {
      assert P.Chunks(ops + [op]) == chunks;
    }
  }

  /** The client has received exactly the first `taken` bytes of the wire. */
  predicate TakenFrom(wire: Bytes, taken: int, received: Bytes) {
    0 <= taken <= |wire| && received == wire[..taken]
  }

  lemma TakenStays(wire: Bytes, wire': Bytes, taken: int, received: Bytes)
    requires TakenFrom(wire, taken, received) && wire <= wire'
    ensures TakenFrom(wire', taken, received)
  {
  }

  lemma TakenMore(wire: Bytes, taken: int, received: Bytes, chunk: Bytes)
    requires TakenFrom(wire, taken, received) && Follows(wire, taken, chunk)
    ensures TakenFrom(wire, taken + |chunk|, received + chunk)
  {
  }

  function Received(turns: seq<Turn>): Bytes {
    Concat(P.Chunks(ClientSide(turns)))
  }

  lemma ReceivedAppend(turns: seq<Turn>)
    requires turns != []
    ensures var u := turns[|turns| - 1];
            Received(turns) == if u.Act? && u.op.Receive? then Received(turns[..|turns| - 1]) + u.op.chunk
                               else Received(turns[..|turns| - 1])
  {
    var u := turns[|turns| - 1];
    if u.Act? {
      ChunksAppend(ClientSide(turns[..|turns| - 1]), u.op);
    }
  }

  lemma {:induction false} BytesTaken(enc: Msg -> Bytes, parse: Bytes -> L.View, before: seq<Note>, turns: seq<Turn>,
          y: System)
    requires Play(enc, parse, before, turns) == Some(y)
    ensures TakenFrom(y.server.wire, y.taken, Received(turns))
  {
    if turns != [] {
      var init, u := turns[..|turns| - 1], turns[|turns| - 1];
      var y0 := Play(enc, parse, before, init).value;
      BytesTaken(enc, parse, before, init, y0);
      ReceivedAppend(turns);
      match u
      case Serve(l) =>
        WireGrows(enc, y0.server, l);
        TakenStays(y0.server.wire, y.server.wire, y.taken, Received(init));
      case Act(op) =>
        if op.Receive? {
          TakenMore(y0.server.wire, y0.taken, Received(init), op.chunk);
        }
    }
  }

  lemma TakenAndLeft(wire: Bytes, taken: int, received: Bytes)
    requires TakenFrom(wire, taken, received)
    ensures received + wire[taken..] == wire
  {
  }

  /** In a run of the system each side has made a run of its own, and what the client received is the
      beginning of what the daemon wrote. */
  lemma SidesRun(enc: Msg -> Bytes, parse: Bytes -> L.View, before: seq<Note>, turns: seq<Turn>, y: System)
    requires Play(enc, parse, before, turns) == Some(y)
    ensures Exec(enc, before, ServerSide(turns)) == Some(y.server)
    ensures L.Exec(parse, ClientSide(turns)) == Some(y.client)
    ensures 0 <= y.taken <= |y.server.wire|
    ensures Received(turns) + y.server.wire[y.taken..] == y.server.wire
  {
    ServerRuns(enc, parse, before, turns, y);
    ClientRuns(enc, parse, before, turns, y);
    BytesTaken(enc, parse, before, turns, y);
    TakenAndLeft(y.server.wire, y.taken, Received(turns));
  }

  // ----- what was sent stays sent -----

  ghost predicate SameSendings(a: seq<L.Issued>, b: seq<L.Issued>) {
    && |a| <= |b|
    && forall t | 0 <= t < |a| :: a[t].id == b[t].id && a[t].events == b[t].events && a[t].since == b[t].since
  }

  lemma {:induction false} SentGrows(a: seq<L.Issued>, b: seq<L.Issued>)
    requires SameSendings(a, b)
    ensures SentBy(a) <= SentBy(b)
    decreases |b|
  {
    if |b| == 0 {
    } else if |a| < |b| {
      SentGrows(a, b[..|b| - 1]);
    } else {
      SentGrows(a[..|a| - 1], b[..|b| - 1]);
      SentGrows(b[..|b| - 1], a[..|a| - 1]);
      assert SentBy(a[..|a| - 1]) == SentBy(b[..|b| - 1]);
    }
  }

  lemma {:induction false} SentIs(calls: seq<L.Issued>, n: int) returns (t: int)
    requires 0 <= n < |SentBy(calls)|
    ensures 0 <= t < |calls| && calls[t].id == Some(SentBy(calls)[n].0) && calls[t].events == SentBy(calls)[n].1
  {
    if n < |SentBy(calls[..|calls| - 1])| {
      t := SentIs(calls[..|calls| - 1], n);
    } else {
      t := |calls| - 1;
    }
  }

  lemma {:induction false} HandlingKeepsSendings(parse: Bytes -> L.View, c: L.Client, lines: seq<Bytes>)
    ensures SameSendings(c.calls, L.HandleLines(c, parse, lines).calls)
    decreases |lines|
  {
    if lines != [] {
      HandlingKeepsSendings(parse, L.HandleLine(c, parse, lines[0]), lines[1..]);
    }
  }

  lemma ActingKeepsSendings(parse: Bytes -> L.View, c: L.Client, op: L.Op)
    requires L.Enabled(c, op)
    ensures SameSendings(c.calls, L.Step(parse, c, op).calls)
  {
    if op.Receive? {
      var (lines, rest) := Split(c.buf + op.chunk);
      HandlingKeepsSendings(parse, c.(buf := rest), lines);
    }
  }

  // ----- what the daemon reads was sent -----

  ghost predicate LinesWereSent(y: System) {
    |y.server.lines| <= |SentBy(y.client.calls)|
    && forall k | 0 <= k < |y.server.lines| :: LineOf(SentBy(y.client.calls)[k], y.server.lines[k])
  }

  lemma ServingKeepsLines(enc: Msg -> Bytes, s: State, l: Label)
    requires Enabled(s, l)
    ensures Step(enc, s, l).lines == if l.Read? then s.lines + [l.line] else s.lines
  {
  }

  lemma {:induction false} EveryLineWasSent(enc: Msg -> Bytes, parse: Bytes -> L.View, before: seq<Note>,
                                            turns: seq<Turn>, y: System)
    requires Play(enc, parse, before, turns) == Some(y)
    ensures LinesWereSent(y)
  {
    if turns != [] {
      var init := turns[..|turns| - 1];
      var y0 := Play(enc, parse, before, init).value;
      EveryLineWasSent(enc, parse, before, init, y0);
      match turns[|turns| - 1]
      case Serve(l) => ServingKeepsLines(enc, y0.server, l);
      case Act(op) =>
        ActingKeepsSendings(parse, y0.client, op);
        SentGrows(y0.client.calls, y.client.calls);
    }
  }

  // ----- no answer before its request -----

  ghost predicate SentBefore(calls: seq<L.Issued>, t: int, id: int, i: int) {
    0 <= t < |calls| && calls[t].id == Some(id) && calls[t].since <= i
  }

  /** Every line that carries an id came in after the call with that id went out. */
  ghost predicate NothingEarly(parse: Bytes -> L.View, frames: seq<Bytes>, calls: seq<L.Issued>) {
    forall i, id | 0 <= i < |frames| && P.CarriesId(parse, frames[i], id) :: exists t :: SentBefore(calls, t, id, i)
  }

  ghost predicate Understands(enc: Msg -> Bytes, parse: Bytes -> L.View, value: Body -> int) {
    Encoder(enc) && forall m :: parse(enc(m)) == ViewOf(m, value)
  }

  /** What the client makes of the lines it received: they are the daemon's first frames. */
  lemma ReceivedFrame(enc: Msg -> Bytes, parse: Bytes -> L.View, value: Body -> int, before: seq<Note>,
                      turns: seq<Turn>, y: System, i: int)
    requires Understands(enc, parse, value) && Play(enc, parse, before, turns) == Some(y)
    requires 0 <= i < |y.client.frames|
    ensures i < |y.server.frames| && L.Seen(parse, y.client.frames[i]) == ViewOf(y.server.frames[i], value)
  {
    SidesRun(enc, parse, before, turns, y);
    P.LinesAreTheStream(parse, ClientSide(turns), y.client);
    var j := AnyCuttingYieldsTheFrames(enc, before, ServerSide(turns), y.server, P.Chunks(ClientSide(turns)),
                                       y.server.wire[y.taken..]);
    assert y.client.frames[i] == enc(y.server.frames[i]);
    FramesAreNotCut(enc(y.server.frames[i]));
  }

  /** A line that carries an id answers a line the daemon read, and so a call that was sent. */
  lemma CarriedIdWasSent(enc: Msg -> Bytes, parse: Bytes -> L.View, value: Body -> int, before: seq<Note>,
                         turns: seq<Turn>, y: System, i: int, id: int) returns (t: int, n: int)
    requires Understands(enc, parse, value) && Play(enc, parse, before, turns) == Some(y)
    requires 0 <= i < |y.client.frames| && P.CarriesId(parse, y.client.frames[i], id)
    ensures 0 <= t < |y.client.calls| && y.client.calls[t].id == Some(id)
    ensures 0 <= n < |Replies(y.server.frames)| <= |RequestsOf(turns)| == |y.server.lines| && i < |y.server.frames|
    ensures Replies(y.server.frames)[n] == y.server.frames[i] && Answers(y.server.frames[i], RequestsOf(turns)[n])
    ensures RequestsOf(turns)[n].line == y.server.lines[n]
    ensures n < |SentBy(y.client.calls)| && SentBy(y.client.calls)[n] == (id, y.client.calls[t].events)
    ensures LineOf(SentBy(y.client.calls)[n], y.server.lines[n])
  {
    ReceivedFrame(enc, parse, value, before, turns, y, i);
    SidesRun(enc, parse, before, turns, y);
    EveryLineWasSent(enc, parse, before, turns, y);
    ExecKeepsInv(enc, before, ServerSide(turns), y.server);
    ReplyAt(y.server.frames, i);
    n := |Replies(y.server.frames[..i])|;
    assert Answers(Replies(y.server.frames)[n], RequestsOf(turns)[n]);
    t := SentIs(y.client.calls, n);
  }

  /** Every line the client has handled came in after the call whose id it carries went out. */
  lemma {:induction false} NoAnswerBeforeItsRequest(enc: Msg -> Bytes, parse: Bytes -> L.View, value: Body -> int,
                                                    before: seq<Note>, turns: seq<Turn>, y: System)
    requires Understands(enc, parse, value) && Play(enc, parse, before, turns) == Some(y)
    ensures NothingEarly(parse, y.client.frames, y.client.calls)
  {
    if turns != [] {
      var init, u := turns[..|turns| - 1], turns[|turns| - 1];
      var y0 := Play(enc, parse, before, init).value;
      NoAnswerBeforeItsRequest(enc, parse, value, before, init, y0);
      if u.Act? {
        ActingKeepsSendings(parse, y0.client, u.op);
        ActingKeepsFrames(parse, y0.client, u.op);
        forall i, id | 0 <= i < |y.client.frames| && P.CarriesId(parse, y.client.frames[i], id)
          ensures exists t :: SentBefore(y.client.calls, t, id, i)
        {
          if i < |y0.client.frames| {
            var t :| SentBefore(y0.client.calls, t, id, i);
            assert SentBefore(y.client.calls, t, id, i);
          } else {
            var t, n := CarriedIdWasSent(enc, parse, value, before, turns, y, i, id);
            SentByThen(parse, init, y0, u.op, enc, before, t);
            assert SentBefore(y.client.calls, t, id, i);
          }
        }
      }
    }
  }

  lemma ActingKeepsFrames(parse: Bytes -> L.View, c: L.Client, op: L.Op)
    requires L.Enabled(c, op)
    ensures c.frames <= L.Step(parse, c, op).frames
    ensures !op.Receive? ==> L.Step(parse, c, op).frames == c.frames
    ensures op.Receive? ==> |L.Step(parse, c, op).calls| == |c.calls|
  {
    if op.Receive? {
      var (lines, rest) := Split(c.buf + op.chunk);
      P.HandleLinesLogsThem(parse, c.(buf := rest), lines);
      HandlingAddsNoCalls(parse, c.(buf := rest), lines);
    }
  }

  lemma {:induction false} HandlingAddsNoCalls(parse: Bytes -> L.View, c: L.Client, lines: seq<Bytes>)
    ensures |L.HandleLines(c, parse, lines).calls| == |c.calls|
    decreases |lines|
  {
    if lines != [] {
      HandlingAddsNoCalls(parse, L.HandleLine(c, parse, lines[0]), lines[1..]);
    }
  }

  /** A call that is there when lines come in went out before all of them. */
  lemma SentByThen(parse: Bytes -> L.View, init: seq<Turn>, y0: System, op: L.Op, enc: Msg -> Bytes,
          before: seq<Note>, t: int)
    requires Play(enc, parse, before, init) == Some(y0) && L.Enabled(y0.client, op)
    requires L.Step(parse, y0.client, op).frames != y0.client.frames
    requires 0 <= t < |L.Step(parse, y0.client, op).calls|
    ensures L.Step(parse, y0.client, op).calls[t].since <= |y0.client.frames|
  {
    ActingKeepsFrames(parse, y0.client, op);
    ActingKeepsSendings(parse, y0.client, op);
    ClientRuns(enc, parse, before, init, y0);
    P.ExecKeepsInv(parse, ClientSide(init), y0.client);
    var c := y0.client;
    assert P.CallOk(parse, c.frames, c.disconnected, c.pending, c.calls[t], t);
  }

  /** The payload is the handler's value for a call, or the code of its failure, or the events subscribed to. */
  predicate TellsOf(p: L.Payload, q: Request, value: Body -> int) {
    match q.line
    case Garbage => false
    case Subscribe(_, events) =>
      p == L.ResultMember(value(Subscribed(match events case Some(es) => es case None => [])))
    case Call(_, _) =>
      match q.outcome
      case None => false
      case Some(Success(v)) => p == L.ResultMember(value(Result(v)))
      case Some(Failure(kind)) => p.ErrorMember? && KindOf(p.code) == Some(kind)
  }

  lemma PayloadTells(m: Msg, q: Request, value: Body -> int)
    requires Answers(m, q) && !q.line.Garbage?
    ensures TellsOf(PayloadOf(m.body, value), q, value)
  {
  }

  /** Whatever a call is told is what the daemon's handler made of the line that call sent. */
  lemma WhatACallIsTold(enc: Msg -> Bytes, parse: Bytes -> L.View, value: Body -> int, before: seq<Note>,
                        turns: seq<Turn>, y: System, t: int, id: int, p: L.Payload) returns (n: int)
    requires Understands(enc, parse, value) && Play(enc, parse, before, turns) == Some(y)
    requires 0 <= t < |y.client.calls| && y.client.calls[t].id == Some(id)
    requires y.client.calls[t].fired == [L.Answered(id, p)]
    ensures 0 <= n < |RequestsOf(turns)| && n < |Replies(y.server.frames)| && n < |SentBy(y.client.calls)|
    ensures SentBy(y.client.calls)[n] == (id, y.client.calls[t].events)
    ensures LineOf(SentBy(y.client.calls)[n], RequestsOf(turns)[n].line)
    ensures TellsOf(p, RequestsOf(turns)[n], value)
  {
    SidesRun(enc, parse, before, turns, y);
    P.CallbacksGetTheirOwnAnswer(parse, ClientSide(turns), y.client, t, id);
    var k :| P.AnswerAt(parse, y.client.frames, y.client.calls[t].since, id, p, k);
    var u;
    u, n := CarriedIdWasSent(enc, parse, value, before, turns, y, k, id);
    assert u == t;
    ReceivedFrame(enc, parse, value, before, turns, y, k);
    PayloadTells(y.server.frames[k], RequestsOf(turns)[n], value);
  }

  /** With all of an idle wire received, the client has handled a line for every frame. */
  lemma WholeWireHandled(enc: Msg -> Bytes, parse: Bytes -> L.View, before: seq<Note>, turns: seq<Turn>, y: System)
    requires Encoder(enc) && Play(enc, parse, before, turns) == Some(y)
    requires y.taken == |y.server.wire| && Unwritten(y.server) == []
    ensures |y.client.frames| == |y.server.frames|
  {
    SidesRun(enc, parse, before, turns, y);
    P.LinesAreTheStream(parse, ClientSide(turns), y.client);
    var j := AnyCuttingYieldsTheFrames(enc, before, ServerSide(turns), y.server, P.Chunks(ClientSide(turns)), []);
  }

  /** And it carries, for every reply, the id of the call whose line the reply answers. */
  lemma RepliesWereHandled(enc: Msg -> Bytes, parse: Bytes -> L.View, value: Body -> int, before: seq<Note>,
                           turns: seq<Turn>, y: System, n: int) returns (i: int)
    requires Understands(enc, parse, value) && Play(enc, parse, before, turns) == Some(y)
    requires y.taken == |y.server.wire| && Unwritten(y.server) == [] && 0 <= n < |Replies(y.server.frames)|
    ensures Replies(y.server.frames)[n].Response? && n < |SentBy(y.client.calls)|
    ensures 0 <= i < |y.client.frames| && P.CarriesId(parse, y.client.frames[i], SentBy(y.client.calls)[n].0)
  {
    WholeWireHandled(enc, parse, before, turns, y);
    ServerRuns(enc, parse, before, turns, y);
    ExecKeepsInv(enc, before, ServerSide(turns), y.server);
    EveryLineWasSent(enc, parse, before, turns, y);
    assert Answers(Replies(y.server.frames)[n], RequestsOf(turns)[n]);
    i := KthReply(y.server.frames, n);
    ReceivedFrame(enc, parse, value, before, turns, y, i);
  }

  /** A call that has had a line with its id come in has been told, once, the answer to its own line. */
  lemma HandledIsTold(enc: Msg -> Bytes, parse: Bytes -> L.View, value: Body -> int, before: seq<Note>,
                      turns: seq<Turn>, y: System, t: int, id: int, i: int) returns (p: L.Payload)
    requires Understands(enc, parse, value) && Play(enc, parse, before, turns) == Some(y)
    requires 0 <= t < |y.client.calls| && y.client.calls[t].id == Some(id)
    requires 0 <= i < |y.client.frames| && P.CarriesId(parse, y.client.frames[i], id)
    ensures y.client.calls[t].fired == [L.Answered(id, p)]
  {
    NoAnswerBeforeItsRequest(enc, parse, value, before, turns, y);
    ClientRuns(enc, parse, before, turns, y);
    P.CallbacksGetTheirOwnAnswer(parse, ClientSide(turns), y.client, t, id);
    var u :| SentBefore(y.client.calls, u, id, i);
    p := ToldSomething(parse, ClientSide(turns), y.client, u, id, i);
  }

  /** And whatever the daemon answers reaches the callback: once the wire is idle and the client has
      received all of it, every call whose line the daemon answered has been told, once, what the handler
      made of it. */
  lemma AnswersReachTheirCalls(enc: Msg -> Bytes, parse: Bytes -> L.View, value: Body -> int, before: seq<Note>,
                               turns: seq<Turn>, y: System, n: int)
    returns (t: int, id: int, p: L.Payload)
    requires Understands(enc, parse, value) && Play(enc, parse, before, turns) == Some(y)
    requires y.taken == |y.server.wire| && Unwritten(y.server) == [] && 0 <= n < |Replies(y.server.frames)|
    ensures 0 <= t < |y.client.calls| && n < |SentBy(y.client.calls)| && y.client.calls[t].id == Some(id)
    ensures SentBy(y.client.calls)[n] == (id, y.client.calls[t].events)
    ensures n < |RequestsOf(turns)| && TellsOf(p, RequestsOf(turns)[n], value)
    ensures y.client.calls[t].fired == [L.Answered(id, p)]
  {
    var i := RepliesWereHandled(enc, parse, value, before, turns, y, n);
    t := SentIs(y.client.calls, n);
    id := y.client.calls[t].id.value;
    p := HandledIsTold(enc, parse, value, before, turns, y, t, id, i);
    var m := WhatACallIsTold(enc, parse, value, before, turns, y, t, id, p);
    SentOnce(enc, parse, before, turns, y, m, n);
  }

  lemma SentOnce(enc: Msg -> Bytes, parse: Bytes -> L.View, before: seq<Note>, turns: seq<Turn>, y: System, m: int,
          n: int)
    requires Play(enc, parse, before, turns) == Some(y)
    requires 0 <= m < |SentBy(y.client.calls)| && 0 <= n < |SentBy(y.client.calls)|
    requires SentBy(y.client.calls)[m].0 == SentBy(y.client.calls)[n].0
    ensures m == n
  {
    ClientRuns(enc, parse, before, turns, y);
    P.ExecKeepsInv(parse, ClientSide(turns), y.client);
    SentInOrder(y.client.calls);
  }

  /** A call is told an answer once a line with its id has come in since it went out. */
  lemma ToldSomething(parse: Bytes -> L.View, ops: seq<L.Op>, c: L.Client, t: int, id: int, i: int)
    returns (p: L.Payload)
    requires L.Exec(parse, ops) == Some(c) && 0 <= t < |c.calls| && c.calls[t].id == Some(id)
    requires 0 <= i < |c.frames| && c.calls[t].since <= i && P.CarriesId(parse, c.frames[i], id)
    ensures c.calls[t].fired == [L.Answered(id, p)]
  {
    P.ExecKeepsInv(parse, ops, c);
    assert P.CallOk(parse, c.frames, c.disconnected, c.pending, c.calls[t], t);
    assert id !in c.pending;
    p := c.calls[t].fired[0].payload;
  }

  lemma {:induction false} SentInOrder(calls: seq<L.Issued>)
    requires forall t, u | 0 <= t < u < |calls| && calls[t].id.Some? && calls[u].id.Some? ::
               calls[t].id.value < calls[u].id.value
    ensures forall j, k | 0 <= j < k < |SentBy(calls)| :: SentBy(calls)[j].0 < SentBy(calls)[k].0
  {
    if calls != [] {
      var init := calls[..|calls| - 1];
      SentInOrder(init);
      forall j | 0 <= j < |SentBy(init)|
        ensures calls[|init|].id.Some? ==> SentBy(init)[j].0 < calls[|init|].id.value
      {
        var t := SentIs(init, j);
        assert calls[t] == init[t];
      }
    }
  }
}
