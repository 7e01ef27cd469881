/** Every call of the GTK client settles exactly once, with its own answer. */
module LinuxClientProofs {
  import opened Prelude
  import opened Framing
  import opened LinuxClient

  ghost predicate CarriesId(parse: Bytes -> View, line: Bytes, id: int) {
    Seen(parse, line).Object? && Seen(parse, line).id == Some(id)
  }

  /** No line from position `from` on carries the id. */
  ghost predicate NoAnswer(parse: Bytes -> View, frames: seq<Bytes>, from: int, id: int) {
    forall k | 0 <= from <= k < |frames| :: !CarriesId(parse, frames[k], id)
  }

  /** Line k is the first from position `from` on to carry the id, with this payload. */
  ghost predicate AnswerAt(parse: Bytes -> View, frames: seq<Bytes>, from: int, id: int, p: Payload, k: int) {
    && 0 <= from <= k < |frames|
    && CarriesId(parse, frames[k], id) && Seen(parse, frames[k]).payload == p
    && forall j | from <= j < k :: !CarriesId(parse, frames[j], id)
  }

  /** What the callback of a call sent under `id` may have been invoked with. */
  ghost predicate Settled(parse: Bytes -> View, frames: seq<Bytes>, over: bool, from: int, id: int, o: Outcome) {
    match o
    case WriteFailed => false
    case Disconnected => over && NoAnswer(parse, frames, from, id)
    case Answered(i, p) => i == id && exists k :: AnswerAt(parse, frames, from, id, p, k)
  }

  ghost predicate CallOk(parse: Bytes -> View, frames: seq<Bytes>, over: bool, pending: map<int, int>,
                         call: Issued, t: int) {
    && 0 <= call.since <= |frames|
    && (match call.id
        case None => call.fired == [Disconnected] || call.fired == [WriteFailed]
        case Some(id) =>
          if id in pending then pending[id] == t && call.fired == [] && NoAnswer(parse, frames, call.since, id)
          else |call.fired| == 1 && Settled(parse, frames, over, call.since, id, call.fired[0]))
  }

  /** Ids are given out in order, and the table holds exactly the calls still waiting. */
  ghost predicate TableOk(c: Client) {
    && 1 <= c.nextId
    && c.reading == !c.disconnected
    && (c.disconnected ==> c.pending == map[])
    && (forall id | id in c.pending ::
          1 <= id < c.nextId && 0 <= c.pending[id] < |c.calls| && c.calls[c.pending[id]].id == Some(id))
    && (forall t | 0 <= t < |c.calls| && c.calls[t].id.Some? :: 1 <= c.calls[t].id.value < c.nextId)
    && (forall t, u | 0 <= t < u < |c.calls| && c.calls[t].id.Some? && c.calls[u].id.Some? ::
          c.calls[t].id.value < c.calls[u].id.value)
  }

  ghost predicate CallsOk(parse: Bytes -> View, c: Client) {
    forall t | 0 <= t < |c.calls| :: CallOk(parse, c.frames, c.disconnected, c.pending, c.calls[t], t)
  }

  ghost predicate Inv(parse: Bytes -> View, c: Client) {
    TableOk(c) && CallsOk(parse, c)
  }

  lemma HandleLineKeepsTable(parse: Bytes -> View, c: Client, line: Bytes)
    requires TableOk(c)
    ensures TableOk(HandleLine(c, parse, line))
  {
    var c' := HandleLine(c, parse, line);
    assert forall t | 0 <= t < |c.calls| :: c'.calls[t].id == c.calls[t].id;
  }

  lemma HandleLineKeepsCall(parse: Bytes -> View, c: Client, line: Bytes, t: int)
    requires Inv(parse, c) && !c.disconnected && 0 <= t < |c.calls|
    ensures var c' := HandleLine(c, parse, line);
            CallOk(parse, c'.frames, c'.disconnected, c'.pending, c'.calls[t], t)
  {
    var c' := HandleLine(c, parse, line);
    var call := c.calls[t];
    assert CallOk(parse, c.frames, c.disconnected, c.pending, call, t);
    if call.id.Some? {
      var id := call.id.value;
      assert c'.frames[..|c.frames|] == c.frames;
      if id !in c.pending {
        SettledStays(parse, c.frames, line, call.since, id, call.fired[0]);
      } else if CarriesId(parse, line, id) {
        assert AnswerAt(parse, c'.frames, call.since, id, Seen(parse, line).payload, |c.frames|);
      }
    }
  }

  lemma SettledStays(parse: Bytes -> View, frames: seq<Bytes>, line: Bytes, from: int, id: int, o: Outcome)
    requires Settled(parse, frames, false, from, id, o)
    ensures Settled(parse, frames + [line], false, from, id, o)
  {
    var k :| AnswerAt(parse, frames, from, id, o.payload, k);
    assert AnswerAt(parse, frames + [line], from, id, o.payload, k);
  }

  lemma HandleLineKeepsInv(parse: Bytes -> View, c: Client, line: Bytes)
    requires Inv(parse, c) && !c.disconnected
    ensures Inv(parse, HandleLine(c, parse, line)) && !HandleLine(c, parse, line).disconnected
  {
    HandleLineKeepsTable(parse, c, line);
    forall t | 0 <= t < |c.calls| {
      HandleLineKeepsCall(parse, c, line, t);
    }
  }

  lemma {:induction false} HandleLinesKeepsInv(parse: Bytes -> View, c: Client, lines: seq<Bytes>)
    requires Inv(parse, c) && !c.disconnected
    ensures Inv(parse, HandleLines(c, parse, lines))
    decreases |lines|
  {
    if lines != [] {
      HandleLineKeepsInv(parse, c, lines[0]);
      HandleLinesKeepsInv(parse, HandleLine(c, parse, lines[0]), lines[1..]);
    }
  }

  lemma CallKeepsInv(parse: Bytes -> View, c: Client, events: seq<string>, written: bool)
    requires Inv(parse, c)
    ensures Inv(parse, Call(c, events, written))
  {
    var c' := Call(c, events, written);
    forall t | 0 <= t < |c'.calls|
      ensures CallOk(parse, c'.frames, c'.disconnected, c'.pending, c'.calls[t], t)
    {
      assert t < |c.calls| ==> CallOk(parse, c.frames, c.disconnected, c.pending, c.calls[t], t);
    }
  }

  lemma FailAllKeepsInv(parse: Bytes -> View, c: Client)
    requires Inv(parse, c)
    ensures Inv(parse, FailAll(c))
  {
    var c' := FailAll(c);
    forall t | 0 <= t < |c.calls|
      ensures CallOk(parse, c'.frames, c'.disconnected, c'.pending, c'.calls[t], t)
    {
      assert CallOk(parse, c.frames, c.disconnected, c.pending, c.calls[t], t);
    }
  }

  lemma StepKeepsInv(parse: Bytes -> View, c: Client, op: Op)
    requires Inv(parse, c) && Enabled(c, op)
    ensures Inv(parse, Step(parse, c, op))
  {
    match op
    case Issue(events, written) => CallKeepsInv(parse, c, events, written);
    case Receive(chunk) =>
      var (lines, rest) := Split(c.buf + chunk);
      assert Inv(parse, c.(buf := rest));
      HandleLinesKeepsInv(parse, c.(buf := rest), lines);
    case HangUp => FailAllKeepsInv(parse, c);
    case Disconnect => FailAllKeepsInv(parse, c);
  }

  lemma {:induction false} ExecKeepsInv(parse: Bytes -> View, ops: seq<Op>, c: Client)
    requires Exec(parse, ops) == Some(c)
    ensures Inv(parse, c)
  {
    if ops != [] {
      var init := ops[..|ops| - 1];
      var c0 := Exec(parse, init).value;
      ExecKeepsInv(parse, init, c0);
      StepKeepsInv(parse, c0, ops[|ops| - 1]);
    }
  }

  /** No callback ever fires twice, and the ones that have not fired are exactly those with a
      pending request; so once the connection is gone, every one has fired exactly once. */
  lemma CallbacksFireExactlyOnce(parse: Bytes -> View, ops: seq<Op>, c: Client)
    requires Exec(parse, ops) == Some(c)
    ensures forall t | 0 <= t < |c.calls| :: |c.calls[t].fired| == if t in Waiting(c.pending) then 0 else 1
    ensures c.disconnected ==> c.pending == map[] && forall t | 0 <= t < |c.calls| :: |c.calls[t].fired| == 1
    ensures forall id | id in c.pending :: 1 <= id < c.nextId
    ensures forall i, j | i in c.pending && j in c.pending && i != j :: c.pending[i] != c.pending[j]
  {
    ExecKeepsInv(parse, ops, c);
    forall t | 0 <= t < |c.calls|
      ensures |c.calls[t].fired| == if t in Waiting(c.pending) then 0 else 1
    {
      assert CallOk(parse, c.frames, c.disconnected, c.pending, c.calls[t], t);
    }
  }

  /** A call that went out is told of the first line with its own id that came in after it, and of
      the disconnection only if there was none; while it waits, there is none yet. */
  lemma CallbacksGetTheirOwnAnswer(parse: Bytes -> View, ops: seq<Op>, c: Client, t: int, id: int)
    requires Exec(parse, ops) == Some(c) && 0 <= t < |c.calls| && c.calls[t].id == Some(id)
    ensures forall p :: c.calls[t].fired == [Answered(id, p)] <==>
              exists k :: AnswerAt(parse, c.frames, c.calls[t].since, id, p, k)
    ensures c.calls[t].fired == [] || c.calls[t].fired == [Disconnected] <==>
              NoAnswer(parse, c.frames, c.calls[t].since, id)
    ensures forall u | 0 <= u < |c.calls| && u != t :: c.calls[u].id != Some(id)
  {
    ExecKeepsInv(parse, ops, c);
    assert CallOk(parse, c.frames, c.disconnected, c.pending, c.calls[t], t);
    OneFirstAnswer(parse, c.frames, c.calls[t].since, id);
  }

  lemma OneFirstAnswer(parse: Bytes -> View, frames: seq<Bytes>, from: int, id: int)
    ensures forall p, q, j, k ::
              AnswerAt(parse, frames, from, id, p, j) && AnswerAt(parse, frames, from, id, q, k) ==> p == q
    ensures forall p, k :: AnswerAt(parse, frames, from, id, p, k) ==> !NoAnswer(parse, frames, from, id)
  {
    forall p, q, j, k | AnswerAt(parse, frames, from, id, p, j) && AnswerAt(parse, frames, from, id, q, k)
      ensures p == q
    {
      assert j == k;
    }
  }

  // ----- the stream -----

  function Chunks(ops: seq<Op>): seq<Bytes> {
    if ops == [] then []
    else
      var op := ops[|ops| - 1];
      Chunks(ops[..|ops| - 1]) + (if op.Receive? then [op.chunk] else [])
  }

  lemma {:induction false} HandleLinesLogsThem(parse: Bytes -> View, c: Client, lines: seq<Bytes>)
    ensures HandleLines(c, parse, lines).frames == c.frames + lines
    ensures HandleLines(c, parse, lines).buf == c.buf
    decreases |lines|
  {
    if lines != [] {
      HandleLinesLogsThem(parse, HandleLine(c, parse, lines[0]), lines[1..]);
      Assoc(c.frames, [lines[0]], lines[1..]);
      assert lines == [lines[0]] + lines[1..];
    }
  }

  lemma StepReassembles(parse: Bytes -> View, c: Client, op: Op, chunks: seq<Bytes>)
    requires Enabled(c, op) && (c.frames, c.buf) == Reassemble(chunks)
    ensures var c' := Step(parse, c, op);
            (c'.frames, c'.buf) == Reassemble(if op.Receive? then chunks + [op.chunk] else chunks)
  {
    if op.Receive? {
      var (lines, rest) := Split(c.buf + op.chunk);
      HandleLinesLogsThem(parse, c.(buf := rest), lines);
      assert (chunks + [op.chunk])[..|chunks|] == chunks;
    }
  }

  /** However the stream was cut into reads, the lines handled are those of the stream, and no
      newline is held back. */
  lemma {:induction false} LinesAreTheStream(parse: Bytes -> View, ops: seq<Op>, c: Client)
    requires Exec(parse, ops) == Some(c)
    ensures (c.frames, c.buf) == Reassemble(Chunks(ops)) == Split(Concat(Chunks(ops)))
    ensures NL !in c.buf
  {
    if ops != [] {
      var init, op := ops[..|ops| - 1], ops[|ops| - 1];
      var c0 := Exec(parse, init).value;
      LinesAreTheStream(parse, init, c0);
      StepReassembles(parse, c0, op, Chunks(init));
      assert op.Receive? || Chunks(ops) == Chunks(init);
    }
    ReassembleIsSplit(Chunks(ops));
  }

  // ----- subscribers -----

  /** The subscribe request was acknowledged. */
  predicate Acked(call: Issued) {
    |call.fired| == 1 && call.fired[0].Answered? && call.fired[0].payload.ResultMember?
  }

  function Due(calls: seq<Issued>, m: string, t: int): int {
    if 0 <= t < |calls| && Acked(calls[t]) then multiset(calls[t].events)[m] else 0
  }

  function Copies(subs: map<string, seq<int>>, m: string, t: int): int {
    multiset(Subscribed(subs, m))[t]
  }

  ghost predicate ListsOk(subs: map<string, seq<int>>, calls: seq<Issued>) {
    forall m, t :: Copies(subs, m, t) == Due(calls, m, t)
  }

  ghost predicate DeliveredOk(delivered: seq<(string, int)>, calls: seq<Issued>) {
    forall i | 0 <= i < |delivered| :: Due(calls, delivered[i].0, delivered[i].1) > 0
  }

  ghost predicate SubscribersOk(c: Client) {
    ListsOk(c.subscribers, c.calls) && DeliveredOk(c.delivered, c.calls)
  }

  lemma {:induction false} RegisterAdds(subs: map<string, seq<int>>, t: int, events: seq<string>, m: string, u: int)
    ensures Copies(Register(subs, t, events), m, u)
            == Copies(subs, m, u) + if u == t then multiset(events)[m] else 0
  {
    if events != [] {
      var init, last := events[..|events| - 1], events[|events| - 1];
      RegisterAdds(subs, t, init, m, u);
      assert events == init + [last];
      assert multiset(events)[m] == multiset(init)[m] + if last == m then 1 else 0;
      assert multiset(Subscribed(Register(subs, t, init), last) + [t])[u] ==
             multiset(Subscribed(Register(subs, t, init), last))[u] + if u == t then 1 else 0;
    }
  }

  lemma DeliveredWereSubscribed(m: string, ts: seq<int>, i: int)
    requires 0 <= i < |Deliveries(m, ts)|
    ensures Deliveries(m, ts)[i].0 == m && multiset(ts)[Deliveries(m, ts)[i].1] > 0
  {
    assert ts[i] in ts;
  }

  /** A pending request belongs to a call that has not been told anything. */
  lemma PendingCall(parse: Bytes -> View, c: Client, id: int)
    requires Inv(parse, c) && id in c.pending
    ensures 0 <= c.pending[id] < |c.calls| && c.calls[c.pending[id]].fired == []
  {
    var t := c.pending[id];
    assert 0 <= t < |c.calls| && c.calls[t].id == Some(id);
    assert CallOk(parse, c.frames, c.disconnected, c.pending, c.calls[t], t);
  }

  /** Telling a call that had been told nothing: what that does to what is due. */
  lemma FiringChangesDue(calls: seq<Issued>, t: int, id: int, payload: Payload, m: string, u: int)
    requires 0 <= t < |calls| && calls[t].fired == []
    ensures Due(Fire(calls, t, Answered(id, payload)), m, u) ==
              Due(calls, m, u) + if u == t && payload.ResultMember? then multiset(calls[t].events)[m] else 0
  {
  }

  lemma AnsweringKeepsSubscribers(subs: map<string, seq<int>>, calls: seq<Issued>, delivered: seq<(string, int)>,
                                  t: int, id: int, payload: Payload)
    requires ListsOk(subs, calls) && DeliveredOk(delivered, calls) && 0 <= t < |calls| && calls[t].fired == []
    ensures var subs' := if payload.ResultMember? then Register(subs, t, calls[t].events) else subs;
            var calls' := Fire(calls, t, Answered(id, payload));
            ListsOk(subs', calls') && DeliveredOk(delivered, calls')
  {
    var subs' := if payload.ResultMember? then Register(subs, t, calls[t].events) else subs;
    var calls' := Fire(calls, t, Answered(id, payload));
    forall m, u
      ensures Copies(subs', m, u) == Due(calls', m, u) && Due(calls', m, u) >= Due(calls, m, u)
    {
      assert Copies(subs, m, u) == Due(calls, m, u);
      RegisterAdds(subs, t, calls[t].events, m, u);
      FiringChangesDue(calls, t, id, payload, m, u);
    }
  }

  lemma NotifyingKeepsSubscribers(subs: map<string, seq<int>>, calls: seq<Issued>, delivered: seq<(string, int)>,
          m: string)
    requires ListsOk(subs, calls) && DeliveredOk(delivered, calls)
    ensures DeliveredOk(delivered + Deliveries(m, Subscribed(subs, m)), calls)
  {
    var more := Deliveries(m, Subscribed(subs, m));
    forall i | 0 <= i < |more|
      ensures Due(calls, more[i].0, more[i].1) > 0
    {
      DeliveredWereSubscribed(m, Subscribed(subs, m), i);
      assert Copies(subs, m, more[i].1) == Due(calls, m, more[i].1);
    }
  }

  lemma HandleLineKeepsSubscribers(parse: Bytes -> View, c: Client, line: Bytes)
    requires Inv(parse, c) && SubscribersOk(c)
    ensures SubscribersOk(HandleLine(c, parse, line))
  {
    var v := Seen(parse, line);
    if v.Object? {
      if v.id.Some? && v.id.value in c.pending {
        PendingCall(parse, c, v.id.value);
        AnsweringKeepsSubscribers(c.subscribers, c.calls, c.delivered, c.pending[v.id.value], v.id.value, v.payload);
      } else if v.method_.Some? {
        NotifyingKeepsSubscribers(c.subscribers, c.calls, c.delivered, v.method_.value);
      }
    }
  }

  lemma {:induction false} HandleLinesKeepsSubscribers(parse: Bytes -> View, c: Client, lines: seq<Bytes>)
    requires Inv(parse, c) && !c.disconnected && SubscribersOk(c)
    ensures SubscribersOk(HandleLines(c, parse, lines))
    decreases |lines|
  {
    if lines != [] {
      HandleLineKeepsInv(parse, c, lines[0]);
      HandleLineKeepsSubscribers(parse, c, lines[0]);
      HandleLinesKeepsSubscribers(parse, HandleLine(c, parse, lines[0]), lines[1..]);
    }
  }

  /** Calls that keep their place, their events and whether they were acknowledged. */
  lemma SameAcknowledged(c: Client, c': Client)
    requires SubscribersOk(c) && c'.subscribers == c.subscribers && c'.delivered == c.delivered
    requires forall m, t :: Due(c'.calls, m, t) == Due(c.calls, m, t)
    ensures SubscribersOk(c')
  {
  }

  lemma StepKeepsSubscribers(parse: Bytes -> View, c: Client, op: Op)
    requires Inv(parse, c) && Enabled(c, op) && SubscribersOk(c)
    ensures SubscribersOk(Step(parse, c, op))
  {
    if op.Receive? {
      var (lines, rest) := Split(c.buf + op.chunk);
      assert Inv(parse, c.(buf := rest));
      SameAcknowledged(c, c.(buf := rest));
      HandleLinesKeepsSubscribers(parse, c.(buf := rest), lines);
    } else {
      var c' := Step(parse, c, op);
      forall m, t
        ensures Due(c'.calls, m, t) == Due(c.calls, m, t)
      {
        assert 0 <= t < |c.calls| ==> CallOk(parse, c.frames, c.disconnected, c.pending, c.calls[t], t);
      }
      SameAcknowledged(c, c');
    }
  }

  /** A subscriber is on the list of an event, as often as it asked for it, exactly if its request
      was acknowledged; and nobody else was ever handed a notification. */
  lemma {:induction false} SubscribersAreTheAcknowledged(parse: Bytes -> View, ops: seq<Op>, c: Client)
    requires Exec(parse, ops) == Some(c)
    ensures forall m, t :: Copies(c.subscribers, m, t) == Due(c.calls, m, t)
    ensures forall i | 0 <= i < |c.delivered| :: Due(c.calls, c.delivered[i].0, c.delivered[i].1) > 0
  {
    if ops != [] {
      var init := ops[..|ops| - 1];
      var c0 := Exec(parse, init).value;
      SubscribersAreTheAcknowledged(parse, init, c0);
      ExecKeepsInv(parse, init, c0);
      StepKeepsSubscribers(parse, c0, ops[|ops| - 1]);
    }
  }
}
