/** End to end: what the other end of the connection can rely on. */
module IpcStreams {
  import opened Prelude
  import opened Framing
  import opened IpcServer
  import opened IpcServerProofs

  /** How many frames are wholly on the wire. */
  function Complete(s: State): int {
    if Unwritten(s) == [] then |s.frames| else |s.frames| - 1
  }

  /** A wire with nothing missing is its frames. */
  lemma IdleWireSplits(enc: Msg -> Bytes, wire: Bytes, frames: seq<Msg>)
    requires Encoder(enc) && WireOk(enc, wire, [], frames)
    ensures Split(wire) == (Encoded(enc, frames), [])
  {
    assert wire + [] == wire;
    assert Flatten(Encoded(enc, frames)) + [] == wire;
    SplitFlatten(Encoded(enc, frames), []);
  }

  /** A wire with the end of its last frame missing is the frames before, and a beginning of that. */
  lemma BusyWireSplits(enc: Msg -> Bytes, wire: Bytes, rest: Bytes, init: seq<Msg>, last: Msg)
    requires Encoder(enc) && WireOk(enc, wire, rest, init + [last]) && rest != []
    ensures Split(wire).0 == Encoded(enc, init) && Split(wire).1 + rest == enc(last) + [NL]
  {
    EncodedAppend(enc, init, last);
    var head := Flatten(Encoded(enc, init));
    PartialLast(head, enc(last), wire, rest);
    SplitFlatten(Encoded(enc, init), wire[|head|..]);
  }

  lemma WireSplits(enc: Msg -> Bytes, wire: Bytes, rest: Bytes, frames: seq<Msg>)
    requires Encoder(enc) && WireOk(enc, wire, rest, frames)
    ensures rest == [] ==> Split(wire) == (Encoded(enc, frames[..|frames|]), [])
    ensures rest != [] ==> frames != [] && Split(wire).0 == Encoded(enc, frames[..|frames| - 1])
                           && Split(wire).1 + rest == enc(frames[|frames| - 1]) + [NL]
  {
    if rest == [] {
      IdleWireSplits(enc, wire, frames);
      assert frames[..|frames|] == frames;
    } else {
      assert frames == frames[..|frames| - 1] + [frames[|frames| - 1]];
      BusyWireSplits(enc, wire, rest, frames[..|frames| - 1], frames[|frames| - 1]);
    }
  }

  /** The wire is whole frames, in the order the writer lock was taken, and at most the beginning
      of one more: the two tasks never mix inside a frame. */
  lemma WireIsWholeFrames(enc: Msg -> Bytes, before: seq<Note>, labels: seq<Label>, s: State)
    requires Encoder(enc) && Exec(enc, before, labels) == Some(s)
    ensures 0 <= Complete(s) <= |s.frames|
    ensures Split(s.wire).0 == Encoded(enc, s.frames[..Complete(s)])
    ensures Unwritten(s) == [] ==> Split(s.wire).1 == []
    ensures Unwritten(s) != [] ==> Split(s.wire).1 + Unwritten(s) == enc(s.frames[|s.frames| - 1]) + [NL]
  {
    ExecKeepsInv(enc, before, labels, s);
    WireSplits(enc, s.wire, Unwritten(s), s.frames);
  }

  /** A wire that lacks a non-empty end of `head + frame + newline`, no longer than the frame and
      its newline, is `head` and a beginning of the frame. */
  lemma PartialLast(head: Bytes, frame: Bytes, wire: Bytes, unwritten: Bytes)
    requires NL !in frame && unwritten != [] && |unwritten| <= |frame| + 1
    requires wire + unwritten == head + (frame + [NL])
    ensures |wire| >= |head| && wire == head + wire[|head|..]
    ensures wire[|head|..] + unwritten == frame + [NL]
    ensures NL !in wire[|head|..]
  {
    var whole := head + (frame + [NL]);
    assert |wire| + |unwritten| == |head| + |frame| + 1;
    assert wire == whole[..|wire|];
    assert head == whole[..|head|];
    var part := wire[|head|..];
    assert part + unwritten == whole[|head|..] == frame + [NL];
    assert part == frame[..|part|];
  }

  /** A reader that has received any prefix of the wire, cut up in any way, has assembled exactly
      the first frames and holds no newline back; with all of an idle wire, it has them all. */
  lemma AnyCuttingYieldsTheFrames(enc: Msg -> Bytes, before: seq<Note>, labels: seq<Label>, s: State,
                                  chunks: seq<Bytes>, more: Bytes) returns (j: nat)
    requires Encoder(enc) && Exec(enc, before, labels) == Some(s)
    requires Concat(chunks) + more == s.wire
    ensures j <= |s.frames| && Reassemble(chunks).0 == Encoded(enc, s.frames[..j])
    ensures NL !in Reassemble(chunks).1
    ensures more == [] && Unwritten(s) == [] ==> j == |s.frames| && Reassemble(chunks).1 == []
  {
    WireIsWholeFrames(enc, before, labels, s);
    ReassembleIsSplit(chunks);
    SplitAppend(Concat(chunks), more);
    j := BeginningOf(enc, s.frames, Complete(s), Reassemble(chunks).0,
                     Split(Reassemble(chunks).1 + more).0);
    if more == [] {
      assert Concat(chunks) + more == Concat(chunks);
    }
  }

  /** The first of the encoded frames are the first frames encoded. */
  lemma BeginningOf(enc: Msg -> Bytes, frames: seq<Msg>, n: int, lines: seq<Bytes>, rest: seq<Bytes>) returns (j: nat)
    requires 0 <= n <= |frames| && lines + rest == Encoded(enc, frames[..n])
    ensures j == |lines| <= n && lines == Encoded(enc, frames[..j])
  {
    j := |lines|;
    assert lines == (lines + rest)[..j];
  }

  function Decoded(dec: Bytes -> Msg, lines: seq<Bytes>): (r: seq<Msg>)
    ensures |r| == |lines|
  {
    seq(|lines|, i requires 0 <= i < |lines| => dec(lines[i]))
  }

  lemma {:induction false} ProjectionsOfPrefix(frames: seq<Msg>, j: int)
    requires 0 <= j <= |frames|
    ensures Replies(frames[..j]) <= Replies(frames)
    ensures Pushes(frames[..j]) <= Pushes(frames)
  {
    if j < |frames| {
      var init := frames[..|frames| - 1];
      ProjectionsOfPrefix(init, j);
      assert init[..j] == frames[..j];
    } else {
      assert frames[..j] == frames;
    }
  }

  /** A response in the stream is one of its replies, after exactly those before it. */
  lemma {:induction false} ReplyAt(frames: seq<Msg>, i: int)
    requires 0 <= i < |frames| && frames[i].Response?
    ensures |Replies(frames[..i])| < |Replies(frames)| && Replies(frames)[|Replies(frames[..i])|] == frames[i]
  {
    var init := frames[..|frames| - 1];
    if i < |init| {
      ReplyAt(init, i);
      assert init[..i] == frames[..i];
    }
  }

  /** Position in `frames` of the k-th response. */
  lemma {:induction false} KthReply(frames: seq<Msg>, k: int) returns (i: int)
    requires 0 <= k < |Replies(frames)|
    ensures 0 <= i < |frames| && frames[i] == Replies(frames)[k] && frames[i].Response?
    ensures |Replies(frames[..i])| == k
  {
    var init := frames[..|frames| - 1];
    if k < |Replies(init)| {
      i := KthReply(init, k);
      assert init[..i] == frames[..i];
    } else {
      i := |frames| - 1;
    }
  }

  /** The name a note of this kind goes by. */
  predicate Names(topic: Topic, n: Note) {
    match n
    case ApprovalRequested(_) => topic == "approval.requested"
    case ApprovalResolved(_) => topic == "approval.resolved"
    case AccountAdded(_) => topic == "account.added"
    case AccountRemoved(_) => topic == "account.removed"
    case AccountNeedsReauth(_) => topic == "account.needs_reauth"
    case McpPausedChanged(_) => topic == "mcp.paused_changed"
  }

  /** The message says what happened: under the name of that kind of thing, with its content. */
  predicate Tells(m: Msg, n: Note) {
    m.Notification? && Names(m.topic, n) && m.content == n.content
  }

  /** The i-th note examined is let through by the filter in force then. */
  ghost predicate LetThrough(notes: seq<Note>, from: int, checks: seq<seq<Topic>>, i: int) {
    && 0 <= i < |checks| && 0 <= from && from + |checks| <= |notes|
    && exists topic :: topic in checks[i] && Names(topic, notes[from + i])
  }

  /** The messages tell, in order and once each, notes examined that the filter let through. */
  ghost predicate ToldInOrder(msgs: seq<Msg>, notes: seq<Note>, from: int, checks: seq<seq<Topic>>, at: seq<int>) {
    && |at| == |msgs| && 0 <= from && from + |checks| <= |notes|
    && (forall k | 0 <= k < |at| :: LetThrough(notes, from, checks, at[k]) && Tells(msgs[k], notes[from + at[k]]))
    && (forall j, k | 0 <= j < k < |at| :: at[j] < at[k])
  }

  /** And these are all that it let through. */
  ghost predicate ToldAll(notes: seq<Note>, from: int, checks: seq<seq<Topic>>, at: seq<int>) {
    forall i | LetThrough(notes, from, checks, i) :: i in at
  }

  lemma PushTells(n: Note)
    ensures Tells(Push(n), n) && forall topic :: Names(topic, n) <==> topic == TopicOf(n)
  {
  }

  lemma LetThroughIff(notes: seq<Note>, from: int, checks: seq<seq<Topic>>, i: int)
    requires 0 <= i < |checks| && 0 <= from && from + |checks| <= |notes|
    ensures LetThrough(notes, from, checks, i) <==> TopicOf(notes[from + i]) in checks[i]
  {
    PushTells(notes[from + i]);
  }

  lemma SameBeforeTheLast(notes: seq<Note>, from: int, checks: seq<seq<Topic>>)
    requires checks != [] && 0 <= from && from + |checks| <= |notes|
    ensures forall i | i != |checks| - 1 ::
              LetThrough(notes, from, checks, i) <==> LetThrough(notes, from, checks[..|checks| - 1], i)
  {
    forall i | 0 <= i < |checks| - 1
      ensures LetThrough(notes, from, checks, i) <==> LetThrough(notes, from, checks[..|checks| - 1], i)
    {
      LetThroughIff(notes, from, checks, i);
      LetThroughIff(notes, from, checks[..|checks| - 1], i);
    }
  }

  lemma OneMoreTells(msgs: seq<Msg>, notes: seq<Note>, from: int, checks: seq<seq<Topic>>, at: seq<int>)
    requires checks != [] && 0 <= from && from + |checks| <= |notes|
    requires ToldInOrder(msgs, notes, from, checks[..|checks| - 1], at)
        && ToldAll(notes, from, checks[..|checks| - 1], at)
    ensures var last := |checks| - 1;
            if TopicOf(notes[from + last]) in checks[last]
            then ToldInOrder(msgs + [Push(notes[from + last])], notes, from, checks, at + [last])
                 && ToldAll(notes, from, checks, at + [last])
            else ToldInOrder(msgs, notes, from, checks, at) && ToldAll(notes, from, checks, at)
  {
    var last := |checks| - 1;
    SameBeforeTheLast(notes, from, checks);
    LetThroughIff(notes, from, checks, last);
    PushTells(notes[from + last]);
    assert (at + [last])[|at|] == last;
  }

  lemma {:induction false} AdmittedTells(notes: seq<Note>, from: int, checks: seq<seq<Topic>>) returns (at: seq<int>)
    requires 0 <= from && from + |checks| <= |notes|
    ensures ToldInOrder(Admitted(notes, from, checks), notes, from, checks, at) && ToldAll(notes, from, checks, at)
  {
    if checks == [] {
      at := [];
    } else {
      var init, last := checks[..|checks| - 1], |checks| - 1;
      at := AdmittedTells(notes, from, init);
      OneMoreTells(Admitted(notes, from, init), notes, from, checks, at);
      if TopicOf(notes[from + last]) in checks[last] {
        at := at + [last];
      } else {
        assert Admitted(notes, from, init) + [] == Admitted(notes, from, init);
      }
    }
  }

  lemma FirstPushesTell(pushes: seq<Msg>, all: seq<Msg>, notes: seq<Note>, from: int, checks: seq<seq<Topic>>)
    returns (at: seq<int>)
    requires 0 <= from && from + |checks| <= |notes|
    requires pushes <= all == Admitted(notes, from, checks)
    ensures ToldInOrder(pushes, notes, from, checks, at) && (pushes == all ==> ToldAll(notes, from, checks, at))
  {
    at := AdmittedTells(notes, from, checks);
    at := at[..|pushes|];
  }

  /** The first frames' notifications, of a schedule. */
  lemma NotesOfFrames(enc: Msg -> Bytes, before: seq<Note>, labels: seq<Label>, s: State, j: nat) returns (at: seq<int>)
    requires Exec(enc, before, labels) == Some(s) && j <= |s.frames|
    ensures ToldInOrder(Pushes(s.frames[..j]), Noted(before, labels), ArmedAt(before, labels), Checks(labels), at)
    ensures j == |s.frames| && !s.fan.Pushing? ==>
              ToldAll(Noted(before, labels), ArmedAt(before, labels), Checks(labels), at)
  {
    ExecKeepsInv(enc, before, labels, s);
    ExecFollowsSchedule(enc, before, labels, s);
    ProjectionsOfPrefix(s.frames, j);
    at := FirstPushesTell(Pushes(s.frames[..j]), Admitted(s.bcast, s.armedAt, s.checks), s.bcast, s.armedAt, s.checks);
    if j == |s.frames| {
      assert s.frames[..j] == s.frames;
    }
  }

  /** The first frames' responses, of a schedule. */
  lemma AnswersOfFrames(enc: Msg -> Bytes, before: seq<Note>, labels: seq<Label>, s: State, j: nat)
    requires Exec(enc, before, labels) == Some(s) && j <= |s.frames|
    ensures Served(s.frames[..j], Requests(labels))
    ensures j == |s.frames| && s.loop == Reading ==> |Replies(s.frames[..j])| == |Requests(labels)|
    ensures s.fan == Off ==> Pushes(s.frames[..j]) == []
  {
    ExecKeepsInv(enc, before, labels, s);
    ProjectionsOfPrefix(s.frames, j);
    if j == |s.frames| {
      assert s.frames[..j] == s.frames;
    }
  }

  /** The whole path: for every schedule of the two tasks and every cutting of the bytes, what the client
      decodes is an interleaving of two ordered streams. Its responses answer the requests one for one, in
      order, each with what the handler made of it; its notifications tell, in order and once each, the
      notes broadcast since the subscription that the filter in force let through. Requests, notes and
      filters are read off the schedule. When nothing is on its way these are all of them: one response for
      every request, and every note examined and let through, be it none because the client never
      subscribed, or those before the receiver fell behind. */
  lemma EndToEnd(enc: Msg -> Bytes, dec: Bytes -> Msg, before: seq<Note>, labels: seq<Label>, s: State,
                 chunks: seq<Bytes>, more: Bytes) returns (at: seq<int>)
    requires Encoder(enc) && (forall m :: dec(enc(m)) == m)
    requires Exec(enc, before, labels) == Some(s) && Concat(chunks) + more == s.wire
    ensures var msgs := Decoded(dec, Reassemble(chunks).0);
            && msgs <= s.frames
            && Served(msgs, Requests(labels))
            && ToldInOrder(Pushes(msgs), Noted(before, labels), ArmedAt(before, labels), Checks(labels), at)
    ensures more == [] && s.loop == Reading && !s.fan.WritingPush? && !s.fan.Pushing? ==>
            var msgs := Decoded(dec, Reassemble(chunks).0);
            && |Replies(msgs)| == |Requests(labels)|
            && ToldAll(Noted(before, labels), ArmedAt(before, labels), Checks(labels), at)
            && (s.fan == Off ==> Pushes(msgs) == [])
            && (s.fan == Waiting ==> ArmedAt(before, labels) + |Checks(labels)| == s.next)
  {
    ExecKeepsInv(enc, before, labels, s);
    ExecFollowsSchedule(enc, before, labels, s);
    var j := AnyCuttingYieldsTheFrames(enc, before, labels, s, chunks, more);
    assert Decoded(dec, Reassemble(chunks).0) == s.frames[..j];
    AnswersOfFrames(enc, before, labels, s, j);
    at := NotesOfFrames(enc, before, labels, s, j);
  }

  // ----- the fan-out -----

  function IsArm(l: Label): bool { l.Arm? }

  /** A connection arms at most one receiver. */
  lemma {:induction false} ArmedAtMostOnce(enc: Msg -> Bytes, before: seq<Note>, labels: seq<Label>, s: State)
    requires Exec(enc, before, labels) == Some(s)
    ensures CountIf(IsArm, labels) == if s.fan == Off then 0 else 1
  {
    if labels != [] {
      var init, l := labels[..|labels| - 1], labels[|labels| - 1];
      var s0 := Exec(enc, before, init).value;
      ArmedAtMostOnce(enc, before, init, s0);
      ExecKeepsInv(enc, before, init, s0);
      OnlyArmStartsTheFan(enc, s0, l);
    }
  }

  lemma OnlyArmStartsTheFan(enc: Msg -> Bytes, s: State, l: Label)
    requires FilterInv(s) && Enabled(s, l)
    ensures l.Arm? ==> s.fan == Off && Step(enc, s, l).fan != Off
    ensures !l.Arm? ==> (Step(enc, s, l).fan == Off <==> s.fan == Off)
  {
  }

  /** The fan-out examines every note from its arming on, each under the filter of the last subscription
      processed by then, and gives up exactly when it has fallen behind by more than the channel holds. */
  lemma FanoutMissesNothing(enc: Msg -> Bytes, before: seq<Note>, labels: seq<Label>, s: State)
    requires Exec(enc, before, labels) == Some(s)
    ensures s.bcast == Noted(before, labels) && s.armedAt == ArmedAt(before, labels) && s.checks == Checks(labels)
    ensures 0 <= s.armedAt && s.armedAt + |s.checks| <= |s.bcast|
    ensures Pushes(s.frames) + (if s.fan.Pushing? then [s.fan.push] else [])
            == Admitted(s.bcast, s.armedAt, s.checks)
    ensures s.fan == Lagged ==> |s.bcast| - s.next > 64
    ensures s.fan == Waiting ==> s.armedAt + |s.checks| == s.next
    ensures s.fan == Waiting && s.next < |s.bcast| ==> Enabled(s, Receive)
    ensures Enabled(s, Receive) ==>
              Step(enc, s, Receive).fan == if |s.bcast| - s.next > 64 then Lagged else Checking(s.bcast[s.next])
  {
    ExecKeepsInv(enc, before, labels, s);
    ExecFollowsSchedule(enc, before, labels, s);
  }

  /** Where a receiver starts, it stays: nothing from before the first subscription is pushed, and
      subscribing again changes neither the starting point nor what was examined. */
  lemma SubscribingAgainOnlyChangesTheFilter(enc: Msg -> Bytes, before: seq<Note>, labels: seq<Label>,
                                             s: State, l: Label)
    requires Exec(enc, before, labels) == Some(s) && s.fan != Off && Enabled(s, l)
    ensures Step(enc, s, l).armedAt == s.armedAt && s.checks <= Step(enc, s, l).checks
    ensures l == SetFilter ==>
      var events := if s.loop.line.events.Some? then s.loop.line.events.value else [];
      Step(enc, s, l) == s.(filter := events, loop := Replying(Response(s.loop.line.id, Subscribed(events))))
  {
    ExecKeepsInv(enc, before, labels, s);
  }

  /** The loop is over exactly once the stream has ended, and reads nothing more. */
  lemma {:induction false} NoLineAfterTheEnd(enc: Msg -> Bytes, before: seq<Note>, labels: seq<Label>, s: State)
    requires Exec(enc, before, labels) == Some(s)
    ensures s.loop == Closed <==> exists i :: 0 <= i < |labels| && labels[i] == Eof
    ensures forall i, j | 0 <= i < j < |labels| && labels[i] == Eof :: !labels[j].Read?
  {
    if labels != [] {
      var init, l := labels[..|labels| - 1], labels[|labels| - 1];
      var s0 := Exec(enc, before, init).value;
      NoLineAfterTheEnd(enc, before, init, s0);
      assert forall i | 0 <= i < |init| :: labels[i] == init[i];
      OnlyEofEnds(enc, s0, l);
      if i :| 0 <= i < |init| && init[i] == Eof {
        assert labels[i] == Eof;
      }
    }
  }

  lemma OnlyEofEnds(enc: Msg -> Bytes, s: State, l: Label)
    requires Enabled(s, l)
    ensures Step(enc, s, l).loop == Closed <==> s.loop == Closed || l == Eof
    ensures s.loop == Closed ==> !l.Read?
  {
  }

  // ----- no deadlock -----

  /** The connection's own steps: neither a new line, nor a broadcast, nor the end of the stream. */
  predicate ServersOwn(labels: seq<Label>) {
    forall i | 0 <= i < |labels| :: !labels[i].Read? && labels[i] != Eof && !labels[i].Broadcast?
  }

  /** How far the two tasks are from having nothing to do. */
  function StepsLeft(s: State): int {
    (match s.loop case Reading => 0 case Closed => 0 case WritingReply(_) => 1 case Replying(_) => 2
                  case Handling(_) => 3 case Arming(_) => 3 case Filtering(_) => 4)
    + (match s.fan case Off => 0 case Lagged => 0
                   case Waiting => 4 * (|s.bcast| - s.next)
                   case WritingPush(_) => 4 * (|s.bcast| - s.next) + 1
                   case Pushing(_) => 4 * (|s.bcast| - s.next) + 2
                   case Checking(_) => 4 * (|s.bcast| - s.next) + 3)
  }

  /** What one of them can do next. */
  function NextOwn(s: State, h: Handled): Label {
    if s.fan.WritingPush? then WritePush(|s.fan.rest|)
    else
      match s.loop
      case Filtering(_) => SetFilter
      case Arming(_) => Arm
      case Handling(_) => Handle(h)
      case Replying(_) => LockForReply
      case WritingReply(rest) => WriteReply(|rest|)
      case _ => if s.fan.Checking? then Check else if s.fan.Pushing? then LockForPush else Receive
  }

  predicate Advances(s: State, s': State) {
    StepsLeft(s') < StepsLeft(s) && (s'.loop == Closed <==> s.loop == Closed) && s'.bcast == s.bcast
  }

  lemma FanAdvances(enc: Msg -> Bytes, s: State, l: Label)
    requires WireInv(enc, s) && FanInv(s) && StepsLeft(s) > 0
    requires s.fan.WritingPush? || s.loop == Reading || s.loop == Closed
    requires l == if s.fan.WritingPush? then WritePush(|s.fan.rest|)
                  else if s.fan.Checking? then Check else if s.fan.Pushing? then LockForPush else Receive
    ensures Enabled(s, l) && Advances(s, Step(enc, s, l))
  {
  }

  lemma LoopAdvances(enc: Msg -> Bytes, s: State, h: Handled)
    requires WireInv(enc, s) && FilterInv(s) && 0 <= s.next <= |s.bcast|
    requires s.loop.Filtering? ==> s.loop.line.Subscribe?
    requires !s.fan.WritingPush? && s.loop != Reading && s.loop != Closed
    ensures Enabled(s, NextOwn(s, h)) && Advances(s, Step(enc, s, NextOwn(s, h)))
  {
  }

  lemma OwnStepAdvances(enc: Msg -> Bytes, s: State, requests: seq<Request>, h: Handled)
    requires Inv(enc, s, requests) && StepsLeft(s) > 0
    ensures Enabled(s, NextOwn(s, h)) && ServersOwn([NextOwn(s, h)])
    ensures Advances(s, Step(enc, s, NextOwn(s, h)))
  {
    if s.fan.WritingPush? || s.loop == Reading || s.loop == Closed {
      FanAdvances(enc, s, NextOwn(s, h));
    } else {
      LoopAdvances(enc, s, h);
    }
  }

  /** Every line read has been answered, nothing is half written, and every note broadcast since the
      subscription has been examined, unless the receiver fell behind. */
  ghost predicate CaughtUp(before: seq<Note>, labels: seq<Label>, s: State) {
    && s.loop == Reading && Unwritten(s) == [] && |Requests(labels)| == |Replies(s.frames)|
    && (s.fan == Off || s.fan == Lagged ||
        (s.fan == Waiting && ArmedAt(before, labels) + |Checks(labels)| == |s.bcast|))
  }

  lemma AtRest(enc: Msg -> Bytes, before: seq<Note>, labels: seq<Label>, s: State)
    requires Exec(enc, before, labels) == Some(s) && s.loop != Closed && StepsLeft(s) <= 0
    ensures CaughtUp(before, labels, s)
  {
    ExecKeepsInv(enc, before, labels, s);
    ExecFollowsSchedule(enc, before, labels, s);
  }

  lemma OneOwnStep(enc: Msg -> Bytes, before: seq<Note>, labels: seq<Label>, s: State, h: Handled)
    returns (l: Label, s': State)
    requires Exec(enc, before, labels) == Some(s) && StepsLeft(s) > 0
    ensures ServersOwn([l]) && Exec(enc, before, labels + [l]) == Some(s') && Advances(s, s')
  {
    l := NextOwn(s, h);
    ExecKeepsInv(enc, before, labels, s);
    OwnStepAdvances(enc, s, Requests(labels), h);
    assert (labels + [l])[..|labels|] == labels;
    s' := Step(enc, s, l);
  }

  /** From any point of any run the two tasks catch up by their own steps, whatever the handler makes of
      the line it is at. */
  lemma {:induction false} TheServerCatchesUp(enc: Msg -> Bytes, before: seq<Note>, labels: seq<Label>, s: State,
                                              h: Handled)
    returns (all: seq<Label>, s': State)
    requires Exec(enc, before, labels) == Some(s) && s.loop != Closed
    ensures labels <= all && ServersOwn(all[|labels|..]) && Exec(enc, before, all) == Some(s')
    ensures CaughtUp(before, all, s') && s'.bcast == s.bcast
    decreases StepsLeft(s)
  {
    if StepsLeft(s) <= 0 {
      all, s' := labels, s;
      AtRest(enc, before, labels, s);
    } else {
      var l, s1 := OneOwnStep(enc, before, labels, s, h);
      all, s' := TheServerCatchesUp(enc, before, labels + [l], s1, h);
      OneMoreInFront(labels, l, all);
    }
  }

  lemma OneMoreInFront(labels: seq<Label>, l: Label, all: seq<Label>)
    requires labels + [l] <= all && ServersOwn([l]) && ServersOwn(all[|labels + [l]|..])
    ensures labels <= all && ServersOwn(all[|labels|..])
  {
    assert all[|labels|..] == [l] + all[|labels| + 1..];
    assert [l][0] == l;
  }
}
