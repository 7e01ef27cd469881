/** What holds in every state of every connection. */
module IpcServerProofs {
  import opened Prelude
  import opened Framing
  import opened IpcServer

  /** The bytes of the current frame not yet on the wire. */
  function Unwritten(s: State): Bytes {
    if s.loop.WritingReply? then s.loop.rest
    else if s.fan.WritingPush? then s.fan.rest
    else []
  }

  /** The wire, and then the rest of the frame being written, are the frames in order. */
  ghost predicate WireOk(enc: Msg -> Bytes, wire: Bytes, rest: Bytes, frames: seq<Msg>) {
    && wire + rest == Flatten(Encoded(enc, frames))
    && (rest != [] ==> frames != [] && |rest| <= |enc(frames[|frames| - 1])| + 1)
  }

  ghost predicate WireInv(enc: Msg -> Bytes, s: State) {
    && !(s.loop.WritingReply? && s.fan.WritingPush?)
    && (s.loop.WritingReply? ==> s.loop.rest != [])
    && (s.fan.WritingPush? ==> s.fan.rest != [])
    && WireOk(enc, s.wire, Unwritten(s), s.frames)
  }

  /** The lines whose reply has not been given a frame: at most the last one. */
  function Owed(loop: LoopPc): int {
    if loop.Reading? || loop.WritingReply? || loop.Closed? then 0 else 1
  }

  /** What a client takes an error code for. */
  function KindOf(code: int): Option<ErrorKind> {
    match code
    case -32601 => Some(NotFound)
    case -32002 => Some(PermissionDenied)
    case -32003 => Some(ApprovalRejected)
    case -32004 => Some(ApprovalTimeout)
    case -32000 => Some(OtherError)
    case _ => None
  }

  /** The message answers the request: under its id, a call with the handler's value or the code of its
      failure, a subscription with the events it named, and anything else with a parse error. */
  predicate Answers(m: Msg, q: Request) {
    m.Response? &&
    match q.line
    case Garbage => m.id == NullId && m.body == Error(-32700)
    case Subscribe(id, events) => m.id == id && m.body == Subscribed(match events case Some(es) => es case None => [])
    case Call(id, _) =>
      m.id == id &&
      match q.outcome
      case None => false
      case Some(Success(v)) => m.body == Result(v)
      case Some(Failure(kind)) => m.body.Error? && KindOf(m.body.code) == Some(kind)
  }

  /** The responses among the frames answer the requests, one each, from the first on. */
  ghost predicate Served(frames: seq<Msg>, requests: seq<Request>) {
    |Replies(frames)| <= |requests| && forall k | 0 <= k < |Replies(frames)| :: Answers(Replies(frames)[k], requests[k])
  }

  ghost predicate RepliesOk(frames: seq<Msg>, requests: seq<Request>, loop: LoopPc) {
    && Served(frames, requests) && |Replies(frames)| + Owed(loop) == |requests|
    && (loop.Replying? ==> Answers(loop.reply, requests[|requests| - 1]))
    && (loop.Filtering? || loop.Arming? ==> loop.line == requests[|requests| - 1].line && loop.line.Subscribe?)
    && (loop.Handling? ==> loop.line == requests[|requests| - 1].line && loop.line.Call?)
  }

  ghost predicate LinesMatch(lines: seq<Line>, requests: seq<Request>) {
    |lines| == |requests| && forall k | 0 <= k < |lines| :: lines[k] == requests[k].line
  }

  ghost predicate RepliesInv(s: State, requests: seq<Request>) {
    && RepliesOk(s.frames, requests, s.loop) && LinesMatch(s.lines, requests)
    && (s.fan.Pushing? ==> s.fan.push.Notification?)
  }

  ghost predicate FilterInv(s: State) {
    s.loop.Arming? ==> s.fan == Off
  }

  /** What the fan-out has examined, and what it has pushed or is about to. */
  ghost predicate FanOk(bcast: seq<Note>, armedAt: int, next: int, checks: seq<seq<Topic>>, pushes: seq<Msg>,
          fan: FanPc) {
    && 0 <= armedAt <= next <= |bcast|
    && |checks| == next - armedAt - (if fan.Checking? then 1 else 0)
    && (fan.Off? ==> next == armedAt)
    && (fan.Checking? ==> next > armedAt && fan.note == bcast[next - 1])
    && (fan.Pushing? ==> fan.push.Notification?)
    && pushes + (if fan.Pushing? then [fan.push] else []) == Admitted(bcast, armedAt, checks)
    && (fan.Lagged? ==> |bcast| - next > CAPACITY)
  }

  ghost predicate FanInv(s: State) {
    FanOk(s.bcast, s.armedAt, s.next, s.checks, Pushes(s.frames), s.fan)
  }

  ghost predicate Inv(enc: Msg -> Bytes, s: State, requests: seq<Request>) {
    WireInv(enc, s) && RepliesInv(s, requests) && FilterInv(s) && FanInv(s)
  }

  // ----- appending one frame, line, note or check -----

  lemma EncodedAppend(enc: Msg -> Bytes, frames: seq<Msg>, f: Msg)
    ensures Flatten(Encoded(enc, frames + [f])) == Flatten(Encoded(enc, frames)) + (enc(f) + [NL])
  {
    assert Encoded(enc, frames + [f]) == Encoded(enc, frames) + [enc(f)];
    FlattenAppend(Encoded(enc, frames), [enc(f)]);
    assert Flatten([enc(f)]) == enc(f) + [NL];
  }

  lemma ProjectionsAppend(frames: seq<Msg>, f: Msg)
    ensures Replies(frames + [f]) == Replies(frames) + (if f.Response? then [f] else [])
    ensures Pushes(frames + [f]) == Pushes(frames) + (if f.Notification? then [f] else [])
  {
    assert (frames + [f])[..|frames|] == frames;
  }

  lemma {:induction false} AdmittedFrame(bcast: seq<Note>, more: seq<Note>, from: int, checks: seq<seq<Topic>>)
    requires 0 <= from && from + |checks| <= |bcast|
    ensures Admitted(bcast + more, from, checks) == Admitted(bcast, from, checks)
  {
    if checks != [] {
      AdmittedFrame(bcast, more, from, checks[..|checks| - 1]);
    }
  }

  lemma AdmittedAppend(bcast: seq<Note>, from: int, checks: seq<seq<Topic>>, c: seq<Topic>)
    requires 0 <= from && from + |checks| < |bcast|
    ensures Admitted(bcast, from, checks + [c]) ==
            Admitted(bcast, from, checks)
            + (if TopicOf(bcast[from + |checks|]) in c then [Push(bcast[from + |checks|])] else [])
  {
    assert (checks + [c])[..|checks|] == checks;
  }

  // ----- every step keeps it: the wire -----

  lemma LockingKeepsWire(enc: Msg -> Bytes, wire: Bytes, frames: seq<Msg>, f: Msg)
    requires WireOk(enc, wire, [], frames)
    ensures WireOk(enc, wire, enc(f) + [NL], frames + [f])
  {
    EncodedAppend(enc, frames, f);
    assert wire + [] == wire;
  }

  lemma WritingKeepsWire(enc: Msg -> Bytes, wire: Bytes, rest: Bytes, frames: seq<Msg>, n: int)
    requires WireOk(enc, wire, rest, frames) && 0 < n <= |rest|
    ensures WireOk(enc, wire + rest[..n], rest[n..], frames)
  {
    Assoc(wire, rest[..n], rest[n..]);
    assert rest[..n] + rest[n..] == rest;
  }

  lemma StepKeepsWire(enc: Msg -> Bytes, s: State, l: Label)
    requires WireInv(enc, s) && FilterInv(s) && Enabled(s, l)
    ensures WireInv(enc, Step(enc, s, l))
  {
    match l
    case LockForReply => LockingKeepsWire(enc, s.wire, s.frames, s.loop.reply);
    case LockForPush => LockingKeepsWire(enc, s.wire, s.frames, s.fan.push);
    case WriteReply(n) => WritingKeepsWire(enc, s.wire, s.loop.rest, s.frames, n);
    case WritePush(n) => WritingKeepsWire(enc, s.wire, s.fan.rest, s.frames, n);
    case _ => OthersKeepWire(enc, s, l);
  }

  lemma OthersKeepWire(enc: Msg -> Bytes, s: State, l: Label)
    requires FilterInv(s) && Enabled(s, l)
    requires l != LockForReply && l != LockForPush && !l.WriteReply? && !l.WritePush?
    ensures var s' := Step(enc, s, l);
            && s'.wire == s.wire && s'.frames == s.frames && Unwritten(s') == Unwritten(s)
            && (s'.loop.WritingReply? <==> s.loop.WritingReply?) && (s'.fan.WritingPush? <==> s.fan.WritingPush?)
            && (s'.loop.WritingReply? ==> s'.loop == s.loop) && (s'.fan.WritingPush? ==> s'.fan == s.fan)
  {
  }

  // ----- the replies -----

  lemma ReadingKeepsReplies(frames: seq<Msg>, requests: seq<Request>, line: Line, loop: LoopPc)
    requires RepliesOk(frames, requests, Reading)
    requires match line
             case Garbage => loop == Replying(Reply(Garbage, Success(0)))
             case Subscribe(_, _) => loop == Filtering(line)
             case Call(_, _) => loop == Handling(line)
    ensures RepliesOk(frames, requests + [Request(line, None)], loop)
  {
    assert forall k | 0 <= k < |requests| :: (requests + [Request(line, None)])[k] == requests[k];
  }

  lemma ReplyAnswers(q: Request, h: Handled)
    requires q.line.Call? ==> q.outcome == Some(h)
    ensures Answers(Reply(q.line, h), q)
  {
  }

  lemma SubscribingKeepsReplies(frames: seq<Msg>, requests: seq<Request>, loop: LoopPc)
    requires RepliesOk(frames, requests, loop) && (loop.Filtering? || loop.Arming?)
    ensures RepliesOk(frames, requests, Replying(Reply(loop.line, Success(0))))
  {
    ReplyAnswers(requests[|requests| - 1], Success(0));
  }

  lemma HandlingKeepsReplies(frames: seq<Msg>, requests: seq<Request>, loop: LoopPc, h: Handled)
    requires RepliesOk(frames, requests, loop) && loop.Handling?
    ensures RepliesOk(frames, RequestsAfter(requests, Handle(h)), Replying(Reply(loop.line, h)))
  {
    ReplyAnswers(Request(loop.line, Some(h)), h);
  }

  lemma ReplyingKeepsReplies(frames: seq<Msg>, requests: seq<Request>, reply: Msg, rest: Bytes)
    requires RepliesOk(frames, requests, Replying(reply))
    ensures RepliesOk(frames + [reply], requests, WritingReply(rest))
  {
    ProjectionsAppend(frames, reply);
    ServedOneMore(Replies(frames), reply, requests);
  }

  lemma ServedOneMore(replies: seq<Msg>, reply: Msg, requests: seq<Request>)
    requires |replies| + 1 == |requests| && Answers(reply, requests[|replies|])
    requires forall k | 0 <= k < |replies| :: Answers(replies[k], requests[k])
    ensures reply.Response?
    ensures forall k | 0 <= k < |replies| + 1 :: Answers((replies + [reply])[k], requests[k])
  {
  }

  lemma PushingKeepsReplies(frames: seq<Msg>, requests: seq<Request>, push: Msg, loop: LoopPc)
    requires RepliesOk(frames, requests, loop) && push.Notification?
    ensures RepliesOk(frames + [push], requests, loop)
  {
    ProjectionsAppend(frames, push);
    assert Replies(frames) + [] == Replies(frames);
  }

  lemma StepKeepsReplies(enc: Msg -> Bytes, s: State, requests: seq<Request>, l: Label)
    requires RepliesInv(s, requests) && Enabled(s, l)
    ensures RepliesInv(Step(enc, s, l), RequestsAfter(requests, l))
  {
    match l
    case Read(line) => ReadingKeepsReplies(s.frames, requests, line, Step(enc, s, l).loop);
    case SetFilter => SubscribingKeepsReplies(s.frames, requests, s.loop);
    case Arm => SubscribingKeepsReplies(s.frames, requests, s.loop);
    case Handle(h) => HandlingKeepsReplies(s.frames, requests, s.loop, h);
    case LockForReply => ReplyingKeepsReplies(s.frames, requests, s.loop.reply, Step(enc, s, l).loop.rest);
    case LockForPush => PushingKeepsReplies(s.frames, requests, s.fan.push, s.loop);
    case _ =>
  }

  // ----- the fan-out -----

  lemma BroadcastingKeepsFan(bcast: seq<Note>, armedAt: int, next: int, checks: seq<seq<Topic>>, pushes: seq<Msg>,
                             fan: FanPc, n: Note)
    requires FanOk(bcast, armedAt, next, checks, pushes, fan)
    ensures FanOk(bcast + [n], armedAt, next, checks, pushes, fan)
  {
    AdmittedFrame(bcast, [n], armedAt, checks);
  }

  lemma CheckingKeepsFan(bcast: seq<Note>, armedAt: int, next: int, checks: seq<seq<Topic>>, pushes: seq<Msg>,
                         fan: FanPc, filter: seq<Topic>)
    requires FanOk(bcast, armedAt, next, checks, pushes, fan) && fan.Checking?
    ensures FanOk(bcast, armedAt, next, checks + [filter], pushes,
                  if TopicOf(fan.note) in filter then Pushing(Push(fan.note)) else Waiting)
  {
    AdmittedAppend(bcast, armedAt, checks, filter);
    assert pushes + [] == pushes;
  }

  lemma ArmingKeepsFan(bcast: seq<Note>, armedAt: int, next: int, checks: seq<seq<Topic>>, pushes: seq<Msg>)
    requires FanOk(bcast, armedAt, next, checks, pushes, Off)
    ensures FanOk(bcast, |bcast|, |bcast|, checks, pushes, Waiting)
  {
    assert checks == [];
  }

  lemma PushedKeepsFan(bcast: seq<Note>, armedAt: int, next: int, checks: seq<seq<Topic>>, pushes: seq<Msg>,
                       fan: FanPc, rest: Bytes)
    requires FanOk(bcast, armedAt, next, checks, pushes, fan) && fan.Pushing?
    ensures FanOk(bcast, armedAt, next, checks, pushes + [fan.push], WritingPush(rest))
  {
    assert pushes + [fan.push] + [] == pushes + [fan.push];
  }

  lemma StepKeepsFan(enc: Msg -> Bytes, s: State, l: Label)
    requires FanInv(s) && FilterInv(s) && Enabled(s, l)
    requires s.loop.Replying? ==> s.loop.reply.Response?
    ensures FanInv(Step(enc, s, l))
  {
    var pushes := Pushes(s.frames);
    match l
    case Arm => ArmingKeepsFan(s.bcast, s.armedAt, s.next, s.checks, pushes);
    case Broadcast(n) => BroadcastingKeepsFan(s.bcast, s.armedAt, s.next, s.checks, pushes, s.fan, n);
    case Check => CheckingKeepsFan(s.bcast, s.armedAt, s.next, s.checks, pushes, s.fan, s.filter);
    case LockForReply => ReplyIsNoPush(s.frames, s.loop.reply);
    case LockForPush =>
      ProjectionsAppend(s.frames, s.fan.push);
      PushedKeepsFan(s.bcast, s.armedAt, s.next, s.checks, pushes, s.fan, Step(enc, s, l).fan.rest);
    case _ =>
  }

  lemma ReplyIsNoPush(frames: seq<Msg>, reply: Msg)
    requires reply.Response?
    ensures Pushes(frames + [reply]) == Pushes(frames)
  {
    ProjectionsAppend(frames, reply);
    assert Pushes(frames) + [] == Pushes(frames);
  }

  lemma {:induction false} ExecKeepsInv(enc: Msg -> Bytes, before: seq<Note>, labels: seq<Label>, s: State)
    requires Exec(enc, before, labels) == Some(s)
    ensures Inv(enc, s, Requests(labels))
  {
    if labels != [] {
      var l, s0 := labels[|labels| - 1], Exec(enc, before, labels[..|labels| - 1]).value;
      ExecKeepsInv(enc, before, labels[..|labels| - 1], s0);
      StepKeepsWire(enc, s0, l);
      StepKeepsReplies(enc, s0, Requests(labels[..|labels| - 1]), l);
      StepKeepsFan(enc, s0, l);
    }
  }

  // ----- the state is what the schedule says -----

  ghost predicate FollowsSchedule(before: seq<Note>, labels: seq<Label>, s: State) {
    && s.bcast == Noted(before, labels)
    && s.armedAt == ArmedAt(before, labels)
    && s.filter == FilterSet(labels)
    && s.checks == Checks(labels)
  }

  lemma StepFollowsSchedule(enc: Msg -> Bytes, before: seq<Note>, labels: seq<Label>, s: State, l: Label)
    requires FollowsSchedule(before, labels, s) && RepliesInv(s, Requests(labels)) && FilterInv(s) && Enabled(s, l)
    ensures FollowsSchedule(before, labels + [l], Step(enc, s, l))
  {
    assert (labels + [l])[..|labels|] == labels;
  }

  lemma {:induction false} ExecFollowsSchedule(enc: Msg -> Bytes, before: seq<Note>, labels: seq<Label>, s: State)
    requires Exec(enc, before, labels) == Some(s)
    ensures FollowsSchedule(before, labels, s)
  {
    if labels != [] {
      var init, l := labels[..|labels| - 1], labels[|labels| - 1];
      var s0 := Exec(enc, before, init).value;
      ExecFollowsSchedule(enc, before, init, s0);
      ExecKeepsInv(enc, before, init, s0);
      StepFollowsSchedule(enc, before, init, s0, l);
      assert labels == init + [l];
    }
  }
}
