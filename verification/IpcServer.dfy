/** One IPC connection of the daemon: the request loop and the notification fan-out, two tasks
    that share the filter and the writer lock, as a labelled transition system. */
module IpcServer {
  import opened Prelude
  import opened Framing

  type Topic = string

  /** The `id` member of a request; a missing one reads as null. */
  datatype JsonId = NullId | NumId(n: int) | OtherId(raw: int)

  datatype Note =
    | ApprovalRequested(content: int)
    | ApprovalResolved(content: int)
    | AccountAdded(content: int)
    | AccountRemoved(content: int)
    | AccountNeedsReauth(content: int)
    | McpPausedChanged(content: int)

  function TopicOf(n: Note): Topic {
    match n
    case ApprovalRequested(_) => "approval.requested"
    case ApprovalResolved(_) => "approval.resolved"
    case AccountAdded(_) => "account.added"
    case AccountRemoved(_) => "account.removed"
    case AccountNeedsReauth(_) => "account.needs_reauth"
    case McpPausedChanged(_) => "mcp.paused_changed"
  }

  /** One input line: not a request, a subscription (with its `events`, if they decode), or a
      call for the handler. */
  datatype Line =
    | Garbage
    | Subscribe(id: JsonId, events: Option<seq<Topic>>)
    | Call(id: JsonId, name: string)

  datatype ErrorKind = NotFound | PermissionDenied | ApprovalRejected | ApprovalTimeout | OtherError

  datatype Handled = Success(value: int) | Failure(kind: ErrorKind)

  function ErrorCode(k: ErrorKind): int {
    match k
    case NotFound => -32601
    case PermissionDenied => -32002
    case ApprovalRejected => -32003
    case ApprovalTimeout => -32004
    case OtherError => -32000
  }

  datatype Body = Result(value: int) | Subscribed(events: seq<Topic>) | Error(code: int)

  datatype Msg = Response(id: JsonId, body: Body) | Notification(topic: Topic, content: int)

  function Push(n: Note): Msg {
    Notification(TopicOf(n), n.content)
  }

  function EventsOf(l: Line): seq<Topic>
    requires l.Subscribe?
  {
    match l.events case Some(es) => es case None => []
  }

  function Reply(l: Line, h: Handled): Msg {
    match l
    case Garbage => Response(NullId, Error(-32700))
    case Subscribe(id, _) => Response(id, Subscribed(EventsOf(l)))
    case Call(id, _) =>
      Response(id, match h case Success(v) => Result(v) case Failure(k) => Error(ErrorCode(k)))
  }

  /** How many notifications a receiver may fall behind before the channel drops them. */
  const CAPACITY := 64

  datatype LoopPc =
    | Reading
    | Filtering(line: Line)
    | Arming(line: Line)
    | Handling(line: Line)
    | Replying(reply: Msg)
    | WritingReply(rest: Bytes)
    | Closed

  datatype FanPc =
    | Off
    | Waiting
    | Checking(note: Note)
    | Pushing(push: Msg)
    | WritingPush(rest: Bytes)
    | Lagged

  /** `lines` is everything read so far, `bcast` everything the daemon ever broadcast, `checks` the
      filter in force at each notification the fan-out has examined, and `frames` the messages a
      task has taken the writer lock for. */
  datatype State = State(
    lines: seq<Line>,
    filter: seq<Topic>,
    loop: LoopPc,
    fan: FanPc,
    bcast: seq<Note>,
    armedAt: int,
    next: int,
    checks: seq<seq<Topic>>,
    frames: seq<Msg>,
    wire: Bytes)

  /** A connection accepted when `before` had already been broadcast. */
  function Accepted(before: seq<Note>): State {
    State([], [], Reading, Off, before, 0, 0, [], [], [])
  }

  datatype Label =
    | Read(line: Line)
    | Eof
    | SetFilter
    | Arm
    | Handle(handled: Handled)
    | LockForReply
    | WriteReply(n: int)
    | Broadcast(note: Note)
    | Receive
    | Check
    | LockForPush
    | WritePush(n: int)

  predicate Enabled(s: State, l: Label) {
    match l
    case Read(_) => s.loop == Reading
    case Eof => s.loop == Reading
    case SetFilter => s.loop.Filtering? && s.loop.line.Subscribe?
    case Arm => s.loop.Arming?
    case Handle(_) => s.loop.Handling?
    case LockForReply => s.loop.Replying? && !s.fan.WritingPush?
    case WriteReply(n) => s.loop.WritingReply? && 0 < n <= |s.loop.rest|
    case Broadcast(_) => true
    case Receive => s.fan == Waiting && s.next < |s.bcast| && 0 <= s.next
    case Check => s.fan.Checking?
    case LockForPush => s.fan.Pushing? && !s.loop.WritingReply?
    case WritePush(n) => s.fan.WritingPush? && 0 < n <= |s.fan.rest|
  }

  function Step(enc: Msg -> Bytes, s: State, l: Label): State
    requires Enabled(s, l)
  {
    match l
    case Read(line) =>
      s.(lines := s.lines + [line],
         loop := match line
                 case Garbage => Replying(Reply(Garbage, Success(0)))
                 case Subscribe(_, _) => Filtering(line)
                 case Call(_, _) => Handling(line))
    case Eof => s.(loop := Closed)
    case SetFilter =>
      var line := s.loop.line;
      s.(filter := EventsOf(line),
         loop := if s.fan == Off then Arming(line) else Replying(Reply(line, Success(0))))
    case Arm =>
      s.(fan := Waiting, armedAt := |s.bcast|, next := |s.bcast|,
         loop := Replying(Reply(s.loop.line, Success(0))))
    case Handle(h) => s.(loop := Replying(Reply(s.loop.line, h)))
    case LockForReply =>
      s.(loop := WritingReply(enc(s.loop.reply) + [NL]), frames := s.frames + [s.loop.reply])
    case WriteReply(n) =>
      s.(wire := s.wire + s.loop.rest[..n],
         loop := if n == |s.loop.rest| then Reading else WritingReply(s.loop.rest[n..]))
    case Broadcast(note) => s.(bcast := s.bcast + [note])
    case Receive =>
      if |s.bcast| - s.next > CAPACITY then s.(fan := Lagged)
      else s.(fan := Checking(s.bcast[s.next]), next := s.next + 1)
    case Check =>
      s.(checks := s.checks + [s.filter],
         fan := if TopicOf(s.fan.note) in s.filter then Pushing(Push(s.fan.note)) else Waiting)
    case LockForPush =>
      s.(fan := WritingPush(enc(s.fan.push) + [NL]), frames := s.frames + [s.fan.push])
    case WritePush(n) =>
      s.(wire := s.wire + s.fan.rest[..n],
         fan := if n == |s.fan.rest| then Waiting else WritingPush(s.fan.rest[n..]))
  }

  /** The state a sequence of labels leads to, or None where a label was not enabled. */
  function Exec(enc: Msg -> Bytes, before: seq<Note>, labels: seq<Label>): Option<State> {
    if labels == [] then Some(Accepted(before))
    else
      match Exec(enc, before, labels[..|labels| - 1])
      case None => None
      case Some(s) =>
        if Enabled(s, labels[|labels| - 1]) then Some(Step(enc, s, labels[|labels| - 1])) else None
  }

  // ----- what a schedule says -----

  /** A line the connection has read, and what the handler has made of it, if it has. */
  datatype Request = Request(line: Line, outcome: Option<Handled>)

  function RequestsAfter(requests: seq<Request>, l: Label): seq<Request> {
    match l
    case Read(line) => requests + [Request(line, None)]
    case Handle(h) =>
      if requests == [] then []
      else requests[|requests| - 1 := Request(requests[|requests| - 1].line, Some(h))]
    case _ => requests
  }

  function Requests(labels: seq<Label>): seq<Request> {
    if labels == [] then [] else RequestsAfter(Requests(labels[..|labels| - 1]), labels[|labels| - 1])
  }

  /** Everything the daemon has broadcast. */
  function Noted(before: seq<Note>, labels: seq<Label>): seq<Note> {
    if labels == [] then before
    else
      var notes := Noted(before, labels[..|labels| - 1]);
      match labels[|labels| - 1] case Broadcast(n) => notes + [n] case _ => notes
  }

  /** How much had been broadcast when the receiver was armed. */
  function ArmedAt(before: seq<Note>, labels: seq<Label>): nat {
    if labels == [] then 0
    else
      var init := labels[..|labels| - 1];
      if labels[|labels| - 1].Arm? then |Noted(before, init)| else ArmedAt(before, init)
  }

  /** The events of the last subscription that has reached the filter. */
  function FilterSet(labels: seq<Label>): seq<Topic> {
    if labels == [] then []
    else
      var init := labels[..|labels| - 1];
      var requests := Requests(init);
      if !labels[|labels| - 1].SetFilter? || requests == [] then FilterSet(init)
      else
        match requests[|requests| - 1].line case Subscribe(_, Some(events)) => events case _ => []
  }

  /** The filter in force each time the fan-out examined a note. */
  function Checks(labels: seq<Label>): seq<seq<Topic>> {
    if labels == [] then []
    else
      var init := labels[..|labels| - 1];
      if labels[|labels| - 1].Check? then Checks(init) + [FilterSet(init)] else Checks(init)
  }

  // ----- what the streams should be -----

  /** Encoded messages contain no newline and no NUL, and are not empty. */
  ghost predicate Encoder(enc: Msg -> Bytes) {
    forall m :: enc(m) != [] && NL !in enc(m) && NUL !in enc(m)
  }

  function Encoded(enc: Msg -> Bytes, frames: seq<Msg>): (r: seq<Bytes>)
    ensures |r| == |frames|
  {
    seq(|frames|, i requires 0 <= i < |frames| => enc(frames[i]))
  }

  function Replies(frames: seq<Msg>): seq<Msg> {
    if frames == [] then []
    else
      var f := frames[|frames| - 1];
      Replies(frames[..|frames| - 1]) + (if f.Response? then [f] else [])
  }

  function Pushes(frames: seq<Msg>): seq<Msg> {
    if frames == [] then []
    else
      var f := frames[|frames| - 1];
      Pushes(frames[..|frames| - 1]) + (if f.Notification? then [f] else [])
  }

  /** Of the notes broadcast from position `from` on, those the filter in force let through, in order. */
  function Admitted(bcast: seq<Note>, from: int, checks: seq<seq<Topic>>): seq<Msg>
    requires 0 <= from && from + |checks| <= |bcast|
  {
    if checks == [] then []
    else
      var n := bcast[from + |checks| - 1];
      Admitted(bcast, from, checks[..|checks| - 1])
      + (if TopicOf(n) in checks[|checks| - 1] then [Push(n)] else [])
  }
}
