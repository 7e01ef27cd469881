/** What becomes of the calls of the GTK client that do not go out, and who is handed its notifications. */
module LinuxClientNotices {
  import opened Prelude
  import opened Framing
  import opened LinuxClient
  import opened LinuxClientProofs

  // ----- the calls are those that were made -----

  /** A call as it was made: the events it names, whether it could be written, and whether the connection was
      over by then. */
  datatype Ask = Ask(events: seq<string>, written: bool, over: bool)

  predicate Over(ops: seq<Op>) {
    exists i | 0 <= i < |ops| :: ops[i] == HangUp || ops[i] == Disconnect
  }

  function Asks(ops: seq<Op>): seq<Ask> {
    if ops == [] then []
    else
      var init := ops[..|ops| - 1];
      match ops[|ops| - 1]
      case Issue(events, written) => Asks(init) + [Ask(events, written, Over(init))]
      case _ => Asks(init)
  }

  /** How many of these were made while the connection was there. */
  function Numbered(asks: seq<Ask>): nat {
    if asks == [] then 0 else Numbered(asks[..|asks| - 1]) + if asks[|asks| - 1].over then 0 else 1
  }

  /** The call goes out exactly if the connection was there and took it, under the next number; otherwise its
      callback is told why not, and of nothing else. */
  predicate AsAsked(call: Issued, ask: Ask, number: int) {
    && call.events == ask.events
    && call.id == (if ask.written && !ask.over then Some(number) else None)
    && (ask.over ==> call.fired == [Disconnected])
    && (!ask.over && !ask.written ==> call.fired == [WriteFailed])
  }

  /** Callbacks already told something have been told it. */
  ghost predicate ToldMore(a: seq<Issued>, b: seq<Issued>) {
    |a| == |b| && forall t | 0 <= t < |a| ::
      a[t].id == b[t].id && a[t].events == b[t].events && a[t].since == b[t].since && a[t].fired <= b[t].fired
  }

  lemma {:induction false} HandlingTellsMore(parse: Bytes -> View, c: Client, lines: seq<Bytes>)
    ensures ToldMore(c.calls, HandleLines(c, parse, lines).calls) && HandleLines(c, parse, lines).nextId == c.nextId
    decreases |lines|
  {
    if lines != [] {
      HandlingTellsMore(parse, HandleLine(c, parse, lines[0]), lines[1..]);
    }
  }

  lemma StepTellsMore(parse: Bytes -> View, c: Client, op: Op)
    requires Enabled(c, op) && !op.Issue?
    ensures ToldMore(c.calls, Step(parse, c, op).calls) && Step(parse, c, op).nextId == c.nextId
  {
    if op.Receive? {
      var (lines, rest) := Split(c.buf + op.chunk);
      HandlingTellsMore(parse, c.(buf := rest), lines);
    }
  }

  lemma OverAppend(ops: seq<Op>, op: Op)
    ensures Over(ops + [op]) <==> Over(ops) || op == HangUp || op == Disconnect
  {
    var all := ops + [op];
    assert all[|ops|] == op && forall i | 0 <= i < |ops| :: all[i] == ops[i];
    if Over(ops) {
      var i :| 0 <= i < |ops| && (ops[i] == HangUp || ops[i] == Disconnect);
      assert all[i] == ops[i];
    }
  }

  lemma {:induction false} HandlingStaysConnected(parse: Bytes -> View, c: Client, lines: seq<Bytes>)
    ensures HandleLines(c, parse, lines).disconnected == c.disconnected
    decreases |lines|
  {
    if lines != [] {
      HandlingStaysConnected(parse, HandleLine(c, parse, lines[0]), lines[1..]);
    }
  }

  lemma StepOver(parse: Bytes -> View, c: Client, op: Op)
    requires Enabled(c, op)
    ensures Step(parse, c, op).disconnected <==> c.disconnected || op == HangUp || op == Disconnect
  {
    if op.Receive? {
      var (lines, rest) := Split(c.buf + op.chunk);
      HandlingStaysConnected(parse, c.(buf := rest), lines);
    }
  }

  ghost predicate AllAsAsked(calls: seq<Issued>, asks: seq<Ask>, nextId: int) {
    && |calls| == |asks| && nextId == 1 + Numbered(asks)
    && forall t | 0 <= t < |calls| :: AsAsked(calls[t], asks[t], 1 + Numbered(asks[..t]))
  }

  lemma NumberedAppend(asks: seq<Ask>, ask: Ask)
    ensures Numbered(asks + [ask]) == Numbered(asks) + if ask.over then 0 else 1
  {
    assert (asks + [ask])[..|asks|] == asks;
  }

  lemma OneMoreAsked(calls: seq<Issued>, call: Issued, asks: seq<Ask>, ask: Ask, nextId: int)
    requires AllAsAsked(calls, asks, nextId) && AsAsked(call, ask, nextId)
    ensures AllAsAsked(calls + [call], asks + [ask], nextId + if ask.over then 0 else 1)
  {
    NumberedAppend(asks, ask);
    forall t | 0 <= t < |calls| + 1
      ensures AsAsked((calls + [call])[t], (asks + [ask])[t], 1 + Numbered((asks + [ask])[..t]))
    {
      assert (asks + [ask])[..t] == asks[..t];
      assert t < |calls| ==> AsAsked(calls[t], asks[t], 1 + Numbered(asks[..t]));
      assert asks[..|asks|] == asks;
    }
  }

  lemma IssuedAsAsked(c: Client, asks: seq<Ask>, events: seq<string>, written: bool)
    requires AllAsAsked(c.calls, asks, c.nextId)
    ensures var c' := Call(c, events, written);
            AllAsAsked(c'.calls, asks + [Ask(events, written, c.disconnected)], c'.nextId)
  {
    var c' := Call(c, events, written);
    assert c'.calls == c.calls + [c'.calls[|c.calls|]];
    OneMoreAsked(c.calls, c'.calls[|c.calls|], asks, Ask(events, written, c.disconnected), c.nextId);
  }

  lemma StaysAsAsked(parse: Bytes -> View, ops: seq<Op>, c: Client, before: seq<Issued>, asks: seq<Ask>)
    requires Exec(parse, ops) == Some(c) && ToldMore(before, c.calls) && AllAsAsked(before, asks, c.nextId)
    ensures AllAsAsked(c.calls, asks, c.nextId)
  {
    ExecKeepsInv(parse, ops, c);
    forall t | 0 <= t < |c.calls|
      ensures AsAsked(c.calls[t], asks[t], 1 + Numbered(asks[..t]))
    {
      assert AsAsked(before[t], asks[t], 1 + Numbered(asks[..t]));
      assert CallOk(parse, c.frames, c.disconnected, c.pending, c.calls[t], t);
    }
  }

  /** The calls are those made, in order, and what did not go out was told why. */
  lemma {:induction false} CallsAreAsAsked(parse: Bytes -> View, ops: seq<Op>, c: Client)
    requires Exec(parse, ops) == Some(c)
    ensures c.disconnected <==> Over(ops)
    ensures AllAsAsked(c.calls, Asks(ops), c.nextId)
  {
    if ops != [] {
      var init, op := ops[..|ops| - 1], ops[|ops| - 1];
      var c0 := Exec(parse, init).value;
      CallsAreAsAsked(parse, init, c0);
      assert ops == init + [op];
      OverAppend(init, op);
      StepOver(parse, c0, op);
      match op
      case Issue(events, written) => IssuedAsAsked(c0, Asks(init), events, written);
      case _ =>
        StepTellsMore(parse, c0, op);
        StaysAsAsked(parse, ops, c, c0.calls, Asks(init));
    }
  }

  /** A line is read up to its first NUL, and no further. */
  lemma ALineEndsAtItsNul(parse: Bytes -> View, front: Bytes, more: Bytes)
    requires NUL !in front
    ensures Seen(parse, front + [NUL] + more) == Seen(parse, front)
    ensures front != [] ==> Seen(parse, front) == parse(front)
    ensures front == [] ==> Seen(parse, front) == NotAnObject
  {
    var line := front + [NUL] + more;
    IndexPast(front, [NUL] + more, NUL);
    assert line == front + ([NUL] + more) && line[..|front|] == front;
    IndexPast(front, [], NUL);
    assert front + [] == front && front[..|front|] == front;
  }

  // ----- notifications -----

  ghost predicate Answered(parse: Bytes -> View, calls: seq<Issued>, frames: seq<Bytes>, k: int) {
    exists t, p :: 0 <= t < |calls| && calls[t].id.Some?
                   && AnswerAt(parse, frames, calls[t].since, calls[t].id.value, p, k)
  }

  /** Line k is a notification of m: it names m and is the answer to no call. */
  ghost predicate NoticeAt(parse: Bytes -> View, calls: seq<Issued>, frames: seq<Bytes>, k: int, m: string) {
    && 0 <= k < |frames| && Seen(parse, frames[k]).Object? && Seen(parse, frames[k]).method_ == Some(m)
    && !Answered(parse, calls, frames, k)
  }

  /** The call's request was granted by a line before k. */
  ghost predicate GrantedBefore(parse: Bytes -> View, call: Issued, frames: seq<Bytes>, k: int) {
    call.id.Some? && exists j, v :: j < k && AnswerAt(parse, frames, call.since, call.id.value, ResultMember(v), j)
  }

  /** How often the call should have been handed m by the first n lines. */
  ghost function Owed(parse: Bytes -> View, calls: seq<Issued>, frames: seq<Bytes>, m: string, t: int, n: nat): nat
    requires 0 <= t < |calls|
  {
    if n == 0 then 0
    else
      Owed(parse, calls, frames, m, t, n - 1) +
      if NoticeAt(parse, calls, frames, n - 1, m) && GrantedBefore(parse, calls[t], frames, n - 1)
      then multiset(calls[t].events)[m] else 0
  }

  ghost predicate Handed(parse: Bytes -> View, c: Client) {
    forall m, t | 0 <= t < |c.calls| ::
      multiset(c.delivered)[(m, t)] == Owed(parse, c.calls, c.frames, m, t, |c.frames|)
  }

  lemma AnswerAppend(parse: Bytes -> View, frames: seq<Bytes>, line: Bytes, from: int, id: int, p: Payload, k: int)
    requires k < |frames|
    ensures AnswerAt(parse, frames + [line], from, id, p, k) <==> AnswerAt(parse, frames, from, id, p, k)
  {
    assert forall j | 0 <= j < |frames| :: (frames + [line])[j] == frames[j];
  }

  /** Later lines and later outcomes change nothing for the lines before. */
  lemma SameAnswered(parse: Bytes -> View, a: seq<Issued>, b: seq<Issued>, frames: seq<Bytes>, line: Bytes, k: int)
    requires ToldMore(a, b) && 0 <= k < |frames|
    ensures Answered(parse, b, frames + [line], k) <==> Answered(parse, a, frames, k)
  {
    if t, p :| 0 <= t < |a| && a[t].id.Some? && AnswerAt(parse, frames, a[t].since, a[t].id.value, p, k) {
      AnswerAppend(parse, frames, line, a[t].since, a[t].id.value, p, k);
      assert AnswerAt(parse, frames + [line], b[t].since, b[t].id.value, p, k);
    }
    if t, p :| 0 <= t < |b| && b[t].id.Some? && AnswerAt(parse, frames + [line], b[t].since, b[t].id.value, p, k) {
      AnswerAppend(parse, frames, line, a[t].since, a[t].id.value, p, k);
      assert AnswerAt(parse, frames, a[t].since, a[t].id.value, p, k);
    }
  }

  lemma SameGranted(parse: Bytes -> View, a: Issued, b: Issued, frames: seq<Bytes>, line: Bytes, k: int)
    requires a.id == b.id && a.since == b.since && 0 <= k <= |frames|
    ensures GrantedBefore(parse, b, frames + [line], k) <==> GrantedBefore(parse, a, frames, k)
  {
    if a.id.Some? {
      forall j, v | j < k
        ensures AnswerAt(parse, frames + [line], a.since, a.id.value, ResultMember(v), j) <==>
                AnswerAt(parse, frames, a.since, a.id.value, ResultMember(v), j)
      {
        AnswerAppend(parse, frames, line, a.since, a.id.value, ResultMember(v), j);
      }
    }
  }

  lemma {:induction false} SameOwed(parse: Bytes -> View, a: seq<Issued>, b: seq<Issued>, frames: seq<Bytes>,
                                    line: Bytes, m: string, t: int, n: nat)
    requires ToldMore(a, b) && 0 <= t < |a| && n <= |frames|
    ensures Owed(parse, b, frames + [line], m, t, n) == Owed(parse, a, frames, m, t, n)
  {
    if n > 0 {
      SameOwed(parse, a, b, frames, line, m, t, n - 1);
      SameAnswered(parse, a, b, frames, line, n - 1);
      SameGranted(parse, a[t], b[t], frames, line, n - 1);
    }
  }

  /** What the client knows of a call is what the lines say of it. */
  lemma AckedIsGranted(parse: Bytes -> View, c: Client, t: int)
    requires Inv(parse, c) && !c.disconnected && 0 <= t < |c.calls|
    ensures Acked(c.calls[t]) <==> GrantedBefore(parse, c.calls[t], c.frames, |c.frames|)
  {
    var call := c.calls[t];
    assert CallOk(parse, c.frames, c.disconnected, c.pending, call, t);
    if call.id.Some? {
      OneFirstAnswer(parse, c.frames, call.since, call.id.value);
      if call.id.value !in c.pending {
        var p := call.fired[0].payload;
        var k :| AnswerAt(parse, c.frames, call.since, call.id.value, p, k);
        assert p.ResultMember? ==> AnswerAt(parse, c.frames, call.since, call.id.value, ResultMember(p.value), k);
      }
    }
  }

  /** The next line answers a call exactly if its id is pending. */
  lemma AnsweredIsPending(parse: Bytes -> View, c: Client, line: Bytes)
    requires Inv(parse, c) && !c.disconnected
    ensures Answered(parse, c.calls, c.frames + [line], |c.frames|) <==>
              Seen(parse, line).Object? && Seen(parse, line).id.Some? && Seen(parse, line).id.value in c.pending
  {
    var frames, v := c.frames + [line], Seen(parse, line);
    if v.Object? && v.id.Some? && v.id.value in c.pending {
      var t := c.pending[v.id.value];
      PendingCall(parse, c, v.id.value);
      assert CallOk(parse, c.frames, c.disconnected, c.pending, c.calls[t], t);
      assert c.calls[t].id == v.id;
      assert AnswerAt(parse, frames, c.calls[t].since, v.id.value, v.payload, |c.frames|);
    }
    if t, p :| 0 <= t < |c.calls| && c.calls[t].id.Some?
               && AnswerAt(parse, frames, c.calls[t].since, c.calls[t].id.value, p, |c.frames|) {
      FirstAnswerIsAwaited(parse, c, line, t, p);
    }
  }

  lemma NoSecondAnswer(parse: Bytes -> View, frames: seq<Bytes>, line: Bytes, from: int, id: int, q: Payload, k: int)
    requires AnswerAt(parse, frames, from, id, q, k)
    ensures forall p :: !AnswerAt(parse, frames + [line], from, id, p, |frames|)
  {
    assert (frames + [line])[k] == frames[k];
  }

  lemma FirstAnswerIsAwaited(parse: Bytes -> View, c: Client, line: Bytes, t: int, p: Payload)
    requires Inv(parse, c) && !c.disconnected && 0 <= t < |c.calls| && c.calls[t].id.Some?
    requires AnswerAt(parse, c.frames + [line], c.calls[t].since, c.calls[t].id.value, p, |c.frames|)
    ensures c.calls[t].id.value in c.pending && Seen(parse, line).Object? && Seen(parse, line).id == c.calls[t].id
  {
    var call := c.calls[t];
    assert CallOk(parse, c.frames, c.disconnected, c.pending, call, t);
    if call.id.value !in c.pending {
      var q := call.fired[0].payload;
      var k :| AnswerAt(parse, c.frames, call.since, call.id.value, q, k);
      NoSecondAnswer(parse, c.frames, line, call.since, call.id.value, q, k);
    }
  }

  lemma DeliveriesCount(m: string, ts: seq<int>, name: string, t: int)
    ensures multiset(Deliveries(m, ts))[(name, t)] == if name == m then multiset(ts)[t] else 0
  {
    if ts != [] {
      var init, last := ts[..|ts| - 1], ts[|ts| - 1];
      DeliveriesCount(m, init, name, t);
      assert ts == init + [last];
      assert Deliveries(m, ts) == Deliveries(m, init) + [(m, last)];
    } else {
      assert Deliveries(m, ts) == [];
    }
  }

  /** What one line adds to what was handed over. */
  lemma LineDelivers(parse: Bytes -> View, c: Client, line: Bytes, m: string, t: int)
    requires Inv(parse, c) && !c.disconnected && SubscribersOk(c) && 0 <= t < |c.calls|
    ensures multiset(HandleLine(c, parse, line).delivered)[(m, t)] == multiset(c.delivered)[(m, t)] +
              if NoticeAt(parse, c.calls, c.frames + [line], |c.frames|, m) && Acked(c.calls[t])
              then multiset(c.calls[t].events)[m] else 0
  {
    AnsweredIsPending(parse, c, line);
    var v := Seen(parse, line);
    assert (c.frames + [line])[|c.frames|] == line;
    if v.Object? && v.id.Some? && v.id.value in c.pending {
      PendingCall(parse, c, v.id.value);
    } else if v.Object? && v.method_.Some? {
      DeliveriesCount(v.method_.value, Subscribed(c.subscribers, v.method_.value), m, t);
      assert Copies(c.subscribers, m, t) == Due(c.calls, m, t);
    }
  }

  lemma LineHandsOne(parse: Bytes -> View, c: Client, line: Bytes, calls: seq<Issued>, delivered: seq<(string, int)>,
                     m: string, t: int)
    requires Inv(parse, c) && !c.disconnected && 0 <= t < |c.calls| && ToldMore(c.calls, calls)
    requires multiset(c.delivered)[(m, t)] == Owed(parse, c.calls, c.frames, m, t, |c.frames|)
    requires multiset(delivered)[(m, t)] == multiset(c.delivered)[(m, t)] +
               if NoticeAt(parse, c.calls, c.frames + [line], |c.frames|, m) && Acked(c.calls[t])
               then multiset(c.calls[t].events)[m] else 0
    ensures multiset(delivered)[(m, t)] == Owed(parse, calls, c.frames + [line], m, t, |c.frames| + 1)
  {
    LineOwes(parse, c.calls, calls, c.frames, line, m, t);
    AckedIsGranted(parse, c, t);
  }

  lemma LineTellsMore(parse: Bytes -> View, c: Client, line: Bytes)
    ensures ToldMore(c.calls, HandleLine(c, parse, line).calls)
    ensures HandleLine(c, parse, line).frames == c.frames + [line]
  {
  }

  lemma LineHands(parse: Bytes -> View, c: Client, line: Bytes)
    requires Inv(parse, c) && !c.disconnected && SubscribersOk(c) && Handed(parse, c)
    ensures Handed(parse, HandleLine(c, parse, line))
  {
    LineTellsMore(parse, c, line);
    var c' := HandleLine(c, parse, line);
    forall m, t | 0 <= t < |c'.calls|
      ensures multiset(c'.delivered)[(m, t)] == Owed(parse, c'.calls, c'.frames, m, t, |c'.frames|)
    {
      LineDelivers(parse, c, line, m, t);
      LineHandsOne(parse, c, line, c'.calls, c'.delivered, m, t);
    }
  }

  /** The line on top of what was owed before it. */
  lemma LineOwes(parse: Bytes -> View, a: seq<Issued>, b: seq<Issued>, frames: seq<Bytes>, line: Bytes, m: string,
          t: int)
    requires ToldMore(a, b) && 0 <= t < |a|
    ensures Owed(parse, b, frames + [line], m, t, |frames| + 1) ==
              Owed(parse, a, frames, m, t, |frames|) +
              if NoticeAt(parse, a, frames + [line], |frames|, m) && GrantedBefore(parse, a[t], frames, |frames|)
              then multiset(a[t].events)[m] else 0
  {
    SameOwed(parse, a, b, frames, line, m, t, |frames|);
    SameGranted(parse, a[t], b[t], frames, line, |frames|);
    SameCalls(parse, a, b, frames + [line], |frames|);
  }

  lemma SameCalls(parse: Bytes -> View, a: seq<Issued>, b: seq<Issued>, frames: seq<Bytes>, k: int)
    requires ToldMore(a, b)
    ensures Answered(parse, b, frames, k) <==> Answered(parse, a, frames, k)
  {
    if t, p :| 0 <= t < |a| && a[t].id.Some? && AnswerAt(parse, frames, a[t].since, a[t].id.value, p, k) {
      assert AnswerAt(parse, frames, b[t].since, b[t].id.value, p, k);
    }
    if t, p :| 0 <= t < |b| && b[t].id.Some? && AnswerAt(parse, frames, b[t].since, b[t].id.value, p, k) {
      assert AnswerAt(parse, frames, a[t].since, a[t].id.value, p, k);
    }
  }

  lemma {:induction false} LinesHand(parse: Bytes -> View, c: Client, lines: seq<Bytes>)
    requires Inv(parse, c) && !c.disconnected && SubscribersOk(c) && Handed(parse, c)
    ensures Handed(parse, HandleLines(c, parse, lines))
    decreases |lines|
  {
    if lines != [] {
      HandleLineKeepsInv(parse, c, lines[0]);
      HandleLineKeepsSubscribers(parse, c, lines[0]);
      LineHands(parse, c, lines[0]);
      LinesHand(parse, HandleLine(c, parse, lines[0]), lines[1..]);
    }
  }

  /** Calls made after the lines that have come in are owed nothing by them, and change nothing. */
  lemma {:induction false} LaterCallsOwedNothing(parse: Bytes -> View, calls: seq<Issued>, call: Issued,
                                                 frames: seq<Bytes>, m: string, t: int, n: nat)
    requires call.since == |frames| && n <= |frames| && 0 <= t <= |calls|
    ensures Owed(parse, calls + [call], frames, m, t, n)
      == if t < |calls| then Owed(parse, calls, frames, m, t, n) else 0
  {
    if n > 0 {
      LaterCallsOwedNothing(parse, calls, call, frames, m, t, n - 1);
      LaterCallAnswersNothing(parse, calls, call, frames, n - 1);
    }
  }

  lemma LaterCallAnswersNothing(parse: Bytes -> View, calls: seq<Issued>, call: Issued, frames: seq<Bytes>, k: int)
    requires call.since == |frames|
    ensures Answered(parse, calls + [call], frames, k) <==> Answered(parse, calls, frames, k)
  {
    var all := calls + [call];
    if t, p :| 0 <= t < |calls| && calls[t].id.Some? &&
               AnswerAt(parse, frames, calls[t].since, calls[t].id.value, p, k) {
      assert AnswerAt(parse, frames, all[t].since, all[t].id.value, p, k);
    }
    if t, p :| 0 <= t < |all| && all[t].id.Some? && AnswerAt(parse, frames, all[t].since, all[t].id.value, p, k) {
      assert t < |calls|;
      assert AnswerAt(parse, frames, calls[t].since, calls[t].id.value, p, k);
    }
  }

  lemma NobodyYet(c: Client, m: string, t: int)
    requires SubscribersOk(c) && t >= |c.calls|
    ensures multiset(c.delivered)[(m, t)] == 0
  {
    forall i | 0 <= i < |c.delivered|
      ensures c.delivered[i] != (m, t)
    {
      assert Due(c.calls, c.delivered[i].0, c.delivered[i].1) > 0;
    }
  }

  lemma IssuingHands(parse: Bytes -> View, c: Client, events: seq<string>, written: bool)
    requires SubscribersOk(c) && Handed(parse, c)
    ensures Handed(parse, Call(c, events, written))
  {
    var c' := Call(c, events, written);
    var call := c'.calls[|c.calls|];
    assert c'.calls == c.calls + [call];
    forall m, t | 0 <= t < |c'.calls|
      ensures multiset(c'.delivered)[(m, t)] == Owed(parse, c'.calls, c'.frames, m, t, |c'.frames|)
    {
      LaterCallsOwedNothing(parse, c.calls, call, c.frames, m, t, |c.frames|);
      if t == |c.calls| {
        NobodyYet(c, m, t);
      }
    }
  }

  lemma {:induction false} OwedByOutcomes(parse: Bytes -> View, a: seq<Issued>, b: seq<Issued>, frames: seq<Bytes>,
                                          m: string, t: int, n: nat)
    requires ToldMore(a, b) && 0 <= t < |a|
    ensures Owed(parse, b, frames, m, t, n) == Owed(parse, a, frames, m, t, n)
  {
    if n > 0 {
      OwedByOutcomes(parse, a, b, frames, m, t, n - 1);
      SameCalls(parse, a, b, frames, n - 1);
    }
  }

  lemma StepHands(parse: Bytes -> View, c: Client, op: Op)
    requires Inv(parse, c) && Enabled(c, op) && SubscribersOk(c) && Handed(parse, c)
    ensures Handed(parse, Step(parse, c, op))
  {
    match op
    case Issue(events, written) => IssuingHands(parse, c, events, written);
    case Receive(chunk) =>
      var (lines, rest) := Split(c.buf + chunk);
      assert Inv(parse, c.(buf := rest));
      SameAcknowledged(c, c.(buf := rest));
      LinesHand(parse, c.(buf := rest), lines);
    case _ =>
      var c' := Step(parse, c, op);
      StepTellsMore(parse, c, op);
      forall m, t | 0 <= t < |c'.calls|
        ensures multiset(c'.delivered)[(m, t)] == Owed(parse, c'.calls, c'.frames, m, t, |c'.frames|)
      {
        OwedByOutcomes(parse, c.calls, c'.calls, c.frames, m, t, |c.frames|);
      }
  }

  /** Every notification is handed, as often as it asked for it, to each subscriber whose request had been
      granted by then, and nothing else is handed to anybody. */
  lemma {:induction false} NotificationsReachTheirSubscribers(parse: Bytes -> View, ops: seq<Op>, c: Client)
    requires Exec(parse, ops) == Some(c)
    ensures forall m, t | 0 <= t < |c.calls| ::
              multiset(c.delivered)[(m, t)] == Owed(parse, c.calls, c.frames, m, t, |c.frames|)
    ensures forall i | 0 <= i < |c.delivered| :: 0 <= c.delivered[i].1 < |c.calls|
  {
    SubscribersAreTheAcknowledged(parse, ops, c);
    HandedInRuns(parse, ops, c);
  }

  lemma {:induction false} HandedInRuns(parse: Bytes -> View, ops: seq<Op>, c: Client)
    requires Exec(parse, ops) == Some(c)
    ensures Handed(parse, c)
  {
    if ops != [] {
      var init := ops[..|ops| - 1];
      var c0 := Exec(parse, init).value;
      HandedInRuns(parse, init, c0);
      ExecKeepsInv(parse, init, c0);
      SubscribersAreTheAcknowledged(parse, init, c0);
      StepHands(parse, c0, ops[|ops| - 1]);
    }
  }
}
