/** Whichever comes first, the frame or the caller waiting for it, they meet. */
module SwiftClientProofs {
  import opened Prelude
  import opened Framing
  import opened SwiftClient

  /** The frame that a call which asked after `at` frames should be handed: the last one with its
      id from before, or failing that the first one from then on. */
  function Due(peekId: Bytes -> Option<int>, routed: seq<Bytes>, at: int, id: int): Option<Bytes> {
    if routed == [] then None
    else
      var init, last := routed[..|routed| - 1], routed[|routed| - 1];
      var before := Due(peekId, init, at, id);
      if peekId(last) == Some(id) && (before.None? || |init| < at) then Some(last) else before
  }

  lemma DueAppend(peekId: Bytes -> Option<int>, routed: seq<Bytes>, last: Bytes, at: int, id: int)
    ensures Due(peekId, routed + [last], at, id) ==
              if peekId(last) == Some(id) && (Due(peekId, routed, at, id).None? || |routed| < at) then Some(last)
              else Due(peekId, routed, at, id)
  {
    assert (routed + [last])[..|routed|] == routed;
  }

  lemma {:induction false} DueBeyond(peekId: Bytes -> Option<int>, routed: seq<Bytes>, a: int, b: int, id: int)
    requires |routed| <= a && |routed| <= b
    ensures Due(peekId, routed, a, id) == Due(peekId, routed, b, id)
  {
    if routed != [] {
      DueBeyond(peekId, routed[..|routed| - 1], a, b, id);
    }
  }

  /** What is due is a frame with that id, and something is due as soon as there is one. */
  lemma {:induction false} DueCarriesTheId(peekId: Bytes -> Option<int>, routed: seq<Bytes>, at: int, id: int)
    ensures Due(peekId, routed, at, id).Some? <==> exists k :: 0 <= k < |routed| && peekId(routed[k]) == Some(id)
    ensures Due(peekId, routed, at, id).Some? ==>
              Due(peekId, routed, at, id).value in routed && peekId(Due(peekId, routed, at, id).value) == Some(id)
  {
    if routed != [] {
      var init, last := routed[..|routed| - 1], routed[|routed| - 1];
      DueCarriesTheId(peekId, init, at, id);
      assert routed == init + [last];
    }
  }

  /** The frames routed while the connection was open. */
  function WhileOpen(c: Client): seq<Bytes> {
    if c.closed && 0 <= c.closedAt <= |c.routed| then c.routed[..c.closedAt] else c.routed
  }

  function Stashed(early: map<int, Bytes>, id: int): Option<Bytes> {
    if id in early then Some(early[id]) else None
  }

  ghost predicate CallOk(peekId: Bytes -> Option<int>, open: seq<Bytes>, closed: bool,
                         pending: map<int, int>, early: map<int, Bytes>, p: Pending, t: int) {
    match p.stage
    case NotSent => p.resumes == 0 && p.id !in pending
    case AskedTooLate(at) => p.resumes == 0 && p.id !in pending && closed
    case Sent =>
      p.resumes == 0 && p.id !in pending && (!closed ==> Due(peekId, open, |open|, p.id) == Stashed(early, p.id))
    case Early(at, f) => p.resumes == 0 && p.id !in pending && at <= |open| && Due(peekId, open, at, p.id) == Some(f)
    case Waiting(at) =>
      && p.resumes == 0 && !closed && p.id in pending && pending[p.id] == t
      && at <= |open| && Due(peekId, open, at, p.id) == None
    case Resumed(at, f) => p.resumes == 1 && p.id !in pending && at <= |open| && Due(peekId, open, at, p.id) == Some(f)
    case Dropped(at) => p.resumes == 1 && p.id !in pending && closed && Due(peekId, open, at, p.id) == None
  }

  ghost predicate TablesOk(c: Client) {
    && 0 <= c.closedAt <= |c.routed| && (!c.closed ==> c.closedAt == |c.routed|)
    && (forall id | id in c.pending ::
          && 0 <= c.pending[id] < |c.calls| && c.calls[c.pending[id]].id == id
          && c.calls[c.pending[id]].stage.Waiting? && id !in c.early)
    && (forall t | 0 <= t < |c.calls| :: c.calls[t].id < c.nextId)
    && (forall t, u | 0 <= t < u < |c.calls| :: c.calls[t].id < c.calls[u].id)
  }

  /** Frames for calls yet to be made are stashed. */
  ghost predicate FutureOk(peekId: Bytes -> Option<int>, c: Client) {
    !c.closed ==> forall id | c.nextId <= id :: Due(peekId, c.routed, |c.routed|, id) == Stashed(c.early, id)
  }

  ghost predicate CallsOk(peekId: Bytes -> Option<int>, c: Client) {
    forall t | 0 <= t < |c.calls| :: CallOk(peekId, WhileOpen(c), c.closed, c.pending, c.early, c.calls[t], t)
  }

  ghost predicate Inv(peekId: Bytes -> Option<int>, c: Client) {
    TablesOk(c) && FutureOk(peekId, c) && CallsOk(peekId, c)
  }

  /** What a call in this stage has heard of after one more frame that is not for it. */
  lemma OthersFrame(peekId: Bytes -> Option<int>, open: seq<Bytes>, frame: Bytes, pending: map<int, int>,
                    early: map<int, Bytes>, pending': map<int, int>, early': map<int, Bytes>, p: Pending, t: int)
    requires CallOk(peekId, open, false, pending, early, p, t) && peekId(frame) != Some(p.id)
    requires (p.id in pending <==> p.id in pending') && (p.id in pending ==> pending[p.id] == pending'[p.id])
    requires Stashed(early, p.id) == Stashed(early', p.id)
    ensures CallOk(peekId, open + [frame], false, pending', early', p, t)
  {
    if p.stage == Sent {
      DueBeyond(peekId, open, |open|, |open| + 1, p.id);
      DueAppend(peekId, open, frame, |open| + 1, p.id);
    } else if p.stage != NotSent {
      DueAppend(peekId, open, frame, p.stage.at, p.id);
    }
  }

  /** And after one that is: a waiting call is handed it, for any other call it is stashed. */
  lemma OwnFrame(peekId: Bytes -> Option<int>, open: seq<Bytes>, frame: Bytes, pending: map<int, int>,
                 early: map<int, Bytes>, p: Pending, t: int)
    requires CallOk(peekId, open, false, pending, early, p, t) && peekId(frame) == Some(p.id)
    ensures p.stage.Waiting? ==>
      CallOk(peekId, open + [frame], false, pending - {p.id}, early,
             Pending(p.id, Resumed(p.stage.at, frame), p.resumes + 1), t)
    ensures !p.stage.Waiting? ==> CallOk(peekId, open + [frame], false, pending, early[p.id := frame], p, t)
  {
    if p.stage == Sent {
      DueBeyond(peekId, open, |open|, |open| + 1, p.id);
      DueAppend(peekId, open, frame, |open| + 1, p.id);
    } else if p.stage != NotSent {
      DueAppend(peekId, open, frame, p.stage.at, p.id);
    }
  }

  lemma RouteKeepsCall(peekId: Bytes -> Option<int>, c: Client, frame: Bytes, t: int)
    requires TablesOk(c) && !c.closed && 0 <= t < |c.calls|
    requires CallOk(peekId, c.routed, false, c.pending, c.early, c.calls[t], t)
    ensures var c' := RouteFrame(c, peekId, frame);
            CallOk(peekId, c'.routed, false, c'.pending, c'.early, c'.calls[t], t)
  {
    var c' := RouteFrame(c, peekId, frame);
    if peekId(frame) == Some(c.calls[t].id) {
      OwnFrame(peekId, c.routed, frame, c.pending, c.early, c.calls[t], t);
    } else {
      OthersFrame(peekId, c.routed, frame, c.pending, c.early, c'.pending, c'.early, c.calls[t], t);
    }
  }

  lemma RouteKeepsFuture(peekId: Bytes -> Option<int>, c: Client, frame: Bytes)
    requires TablesOk(c) && FutureOk(peekId, c)
    ensures FutureOk(peekId, RouteFrame(c, peekId, frame))
  {
    var c' := RouteFrame(c, peekId, frame);
    forall id | c.nextId <= id && !c.closed
      ensures Due(peekId, c'.routed, |c'.routed|, id) == Stashed(c'.early, id)
    {
      DueBeyond(peekId, c.routed, |c.routed|, |c.routed| + 1, id);
      DueAppend(peekId, c.routed, frame, |c.routed| + 1, id);
    }
  }

  lemma RouteKeepsTables(peekId: Bytes -> Option<int>, c: Client, frame: Bytes)
    requires TablesOk(c)
    ensures TablesOk(RouteFrame(c, peekId, frame))
  {
  }

  lemma RouteKeepsCalls(peekId: Bytes -> Option<int>, c: Client, frame: Bytes)
    requires TablesOk(c) && CallsOk(peekId, c)
    ensures CallsOk(peekId, RouteFrame(c, peekId, frame))
  {
    var c' := RouteFrame(c, peekId, frame);
    assert c.closed ==> WhileOpen(c') == WhileOpen(c);
    forall t | 0 <= t < |c.calls|
      ensures CallOk(peekId, WhileOpen(c'), c'.closed, c'.pending, c'.early, c'.calls[t], t)
    {
      assert CallOk(peekId, WhileOpen(c), c.closed, c.pending, c.early, c.calls[t], t);
      if !c.closed {
        RouteKeepsCall(peekId, c, frame, t);
      }
    }
  }

  lemma RouteKeepsInv(peekId: Bytes -> Option<int>, c: Client, frame: Bytes)
    requires Inv(peekId, c)
    ensures Inv(peekId, RouteFrame(c, peekId, frame))
  {
    RouteKeepsTables(peekId, c, frame);
    RouteKeepsFuture(peekId, c, frame);
    RouteKeepsCalls(peekId, c, frame);
  }

  lemma CloseKeepsInv(peekId: Bytes -> Option<int>, c: Client)
    requires Inv(peekId, c)
    ensures Inv(peekId, Close(c))
  {
    var c' := Close(c);
    assert WhileOpen(c') == WhileOpen(c);
    forall t | 0 <= t < |c.calls|
      ensures CallOk(peekId, WhileOpen(c'), c'.closed, c'.pending, c'.early, c'.calls[t], t)
    {
      assert CallOk(peekId, WhileOpen(c), c.closed, c.pending, c.early, c.calls[t], t);
    }
  }

  lemma AwaitKeepsTables(c: Client, t: int)
    requires TablesOk(c) && Enabled(c, AwaitResponse(t))
    ensures TablesOk(Await(c, t))
  {
  }

  lemma AwaitKeepsInv(peekId: Bytes -> Option<int>, c: Client, t: int)
    requires Inv(peekId, c) && Enabled(c, AwaitResponse(t))
    ensures Inv(peekId, Await(c, t))
  {
    var c' := Await(c, t);
    AwaitKeepsTables(c, t);
    forall u | 0 <= u < |c.calls|
      ensures CallOk(peekId, WhileOpen(c'), c'.closed, c'.pending, c'.early, c'.calls[u], u)
    {
      assert CallOk(peekId, WhileOpen(c), c.closed, c.pending, c.early, c.calls[u], u);
    }
  }

  lemma BeginKeepsInv(peekId: Bytes -> Option<int>, c: Client, written: bool)
    requires Inv(peekId, c)
    ensures Inv(peekId, Begin(c, written))
  {
    var c' := Begin(c, written);
    forall u | 0 <= u < |c'.calls|
      ensures CallOk(peekId, WhileOpen(c'), c'.closed, c'.pending, c'.early, c'.calls[u], u)
    {
      assert u < |c.calls| ==> CallOk(peekId, WhileOpen(c), c.closed, c.pending, c.early, c.calls[u], u);
    }
  }

  /** Moving bytes about the buffer touches nothing else. */
  lemma BufferIsApart(peekId: Bytes -> Option<int>, c: Client, buffer: Bytes, reading: bool)
    requires Inv(peekId, c)
    ensures Inv(peekId, c.(buffer := buffer, reading := reading))
  {
    var c' := c.(buffer := buffer, reading := reading);
    forall t | 0 <= t < |c.calls|
      ensures CallOk(peekId, WhileOpen(c'), c'.closed, c'.pending, c'.early, c'.calls[t], t)
    {
      assert CallOk(peekId, WhileOpen(c), c.closed, c.pending, c.early, c.calls[t], t);
    }
  }

  lemma StepKeepsInv(peekId: Bytes -> Option<int>, c: Client, l: Label)
    requires Inv(peekId, c) && Enabled(c, l)
    ensures Inv(peekId, Step(peekId, c, l))
  {
    match l
    case BeginCall(written) => BeginKeepsInv(peekId, c, written);
    case AwaitResponse(t) => AwaitKeepsInv(peekId, c, t);
    case Read(chunk) => BufferIsApart(peekId, c, c.buffer + chunk, c.reading);
    case Route =>
      var n := IndexOf(c.buffer, NL);
      BufferIsApart(peekId, c, c.buffer[n + 1..], c.reading);
      RouteKeepsInv(peekId, c.(buffer := c.buffer[n + 1..]), c.buffer[..n]);
    case Eof =>
      BufferIsApart(peekId, c, c.buffer, false);
      CloseKeepsInv(peekId, c.(reading := false));
    case Disconnect => CloseKeepsInv(peekId, c);
  }

  lemma {:induction false} ExecKeepsInv(peekId: Bytes -> Option<int>, labels: seq<Label>, c: Client)
    requires Exec(peekId, labels) == Some(c)
    ensures Inv(peekId, c)
  {
    if labels != [] {
      var init := labels[..|labels| - 1];
      var c0 := Exec(peekId, init).value;
      ExecKeepsInv(peekId, init, c0);
      StepKeepsInv(peekId, c0, labels[|labels| - 1]);
    }
  }

  /** No continuation is resumed twice; the ones never resumed are exactly those in the table,
      which is empty once the connection is closed; and no id is both waited for and stashed. */
  lemma ContinuationsResumeOnce(peekId: Bytes -> Option<int>, labels: seq<Label>, c: Client)
    requires Exec(peekId, labels) == Some(c)
    ensures forall id | id in c.pending :: id !in c.early && !c.closed
    ensures forall t | 0 <= t < |c.calls| ::
              && c.calls[t].resumes == (if c.calls[t].stage.Resumed? || c.calls[t].stage.Dropped? then 1 else 0)
              && (c.calls[t].stage.Waiting? <==> c.calls[t].id in c.pending && c.pending[c.calls[t].id] == t)
  {
    ExecKeepsInv(peekId, labels, c);
    forall t | 0 <= t < |c.calls|
      ensures c.calls[t].resumes == (if c.calls[t].stage.Resumed? || c.calls[t].stage.Dropped? then 1 else 0)
      ensures c.calls[t].stage.Waiting? <==> c.calls[t].id in c.pending && c.pending[c.calls[t].id] == t
    {
      assert CallOk(peekId, WhileOpen(c), c.closed, c.pending, c.early, c.calls[t], t);
    }
    forall id | id in c.pending
      ensures !c.closed
    {
      var t := c.pending[id];
      assert CallOk(peekId, WhileOpen(c), c.closed, c.pending, c.early, c.calls[t], t);
    }
  }

  /** A call that asked for its response while the connection was open, before or after the frame
      came, is handed the frame due to it, which carries its id; it goes on waiting, or is told of
      the closing, only if no frame with its id was routed while the connection was open. */
  lemma ResponsesMeetTheirCalls(peekId: Bytes -> Option<int>, labels: seq<Label>, c: Client, t: int)
    requires Exec(peekId, labels) == Some(c) && 0 <= t < |c.calls|
    ensures var p, open := c.calls[t], WhileOpen(c);
            match p.stage
            case Early(at, f) => Due(peekId, open, at, p.id) == Some(f) && peekId(f) == Some(p.id)
            case Resumed(at, f) => Due(peekId, open, at, p.id) == Some(f) && peekId(f) == Some(p.id)
            case Waiting(_) => !c.closed && forall k | 0 <= k < |open| :: peekId(open[k]) != Some(p.id)
            case Dropped(_) => c.closed && forall k | 0 <= k < |open| :: peekId(open[k]) != Some(p.id)
            case _ => true
    ensures forall u | 0 <= u < |c.calls| && u != t :: c.calls[u].id != c.calls[t].id
  {
    ExecKeepsInv(peekId, labels, c);
    var p := c.calls[t];
    assert CallOk(peekId, WhileOpen(c), c.closed, c.pending, c.early, p, t);
    match p.stage
    case Early(at, _) => DueCarriesTheId(peekId, WhileOpen(c), at, p.id);
    case Resumed(at, _) => DueCarriesTheId(peekId, WhileOpen(c), at, p.id);
    case Waiting(at) => DueCarriesTheId(peekId, WhileOpen(c), at, p.id);
    case Dropped(at) => DueCarriesTheId(peekId, WhileOpen(c), at, p.id);
    case _ =>
  }

  /** The connection has been closed by either side. */
  predicate Stopped(labels: seq<Label>) {
    labels != [] &&
    (Stopped(labels[..|labels| - 1]) || labels[|labels| - 1] == Eof || labels[|labels| - 1] == Disconnect)
  }

  /** The call asked for its response before that. */
  predicate AskedInTime(labels: seq<Label>, t: int) {
    labels != [] &&
    var init := labels[..|labels| - 1];
    AskedInTime(init, t) || (labels[|labels| - 1] == AwaitResponse(t) && !Stopped(init))
  }

  predicate InTime(p: Pending) {
    p.stage.Early? || p.stage.Waiting? || p.stage.Resumed? || p.stage.Dropped?
  }

  lemma {:induction false} StageTellsWhenItAsked(peekId: Bytes -> Option<int>, labels: seq<Label>, c: Client, t: int)
    requires Exec(peekId, labels) == Some(c)
    ensures c.closed <==> Stopped(labels)
    ensures AskedInTime(labels, t) <==> 0 <= t < |c.calls| && InTime(c.calls[t])
  {
    if labels != [] {
      var init, l := labels[..|labels| - 1], labels[|labels| - 1];
      var c0 := Exec(peekId, init).value;
      StageTellsWhenItAsked(peekId, init, c0, t);
      StepTellsWhenItAsked(peekId, c0, l, t);
    }
  }

  lemma StepTellsWhenItAsked(peekId: Bytes -> Option<int>, c: Client, l: Label, t: int)
    requires Enabled(c, l)
    ensures Step(peekId, c, l).closed <==> c.closed || l == Eof || l == Disconnect
    ensures var c' := Step(peekId, c, l);
            0 <= t < |c'.calls| && InTime(c'.calls[t]) <==>
              (0 <= t < |c.calls| && InTime(c.calls[t])) || (l == AwaitResponse(t) && !c.closed)
  {
  }

  /** A call as it was begun: whether it could be written, and whether either side had closed by then. */
  datatype Begun = Begun(written: bool, stopped: bool)

  function Begins(labels: seq<Label>): seq<Begun> {
    if labels == [] then []
    else
      var init := labels[..|labels| - 1];
      match labels[|labels| - 1]
      case BeginCall(written) => Begins(init) + [Begun(written, Stopped(init))]
      case _ => Begins(init)
  }

  /** Ids count up from one, and a call goes out exactly if it could be written before either side closed. */
  ghost predicate AsBegun(calls: seq<Pending>, begins: seq<Begun>) {
    && |calls| == |begins|
    && forall t | 0 <= t < |calls| ::
         calls[t].id == t + 1 && (calls[t].stage == NotSent <==> !begins[t].written || begins[t].stopped)
  }

  /** The same calls, none of which has changed between going out and not. */
  ghost predicate SameCalls(a: seq<Pending>, b: seq<Pending>) {
    && |a| == |b|
    && forall t | 0 <= t < |a| :: a[t].id == b[t].id && (a[t].stage == NotSent <==> b[t].stage == NotSent)
  }

  lemma RoutingKeepsThem(peekId: Bytes -> Option<int>, c: Client, frame: Bytes)
    ensures SameCalls(c.calls, RouteFrame(c, peekId, frame).calls)
    ensures RouteFrame(c, peekId, frame).nextId == c.nextId
  {
  }

  lemma StepKeepsThem(peekId: Bytes -> Option<int>, c: Client, l: Label)
    requires Enabled(c, l) && !l.BeginCall?
    ensures SameCalls(c.calls, Step(peekId, c, l).calls) && Step(peekId, c, l).nextId == c.nextId
  {
    if l == Route {
      var n := IndexOf(c.buffer, NL);
      RoutingKeepsThem(peekId, c.(buffer := c.buffer[n + 1..]), c.buffer[..n]);
    }
  }

  lemma StepKeepsBegun(peekId: Bytes -> Option<int>, c: Client, l: Label, begins: seq<Begun>)
    requires Enabled(c, l) && AsBegun(c.calls, begins) && c.nextId == |c.calls| + 1
    ensures var c' := Step(peekId, c, l);
            && AsBegun(c'.calls, if l.BeginCall? then begins + [Begun(l.written, c.closed)] else begins)
            && c'.nextId == |c'.calls| + 1
  {
    if !l.BeginCall? {
      StepKeepsThem(peekId, c, l);
    }
  }

  /** The calls are those begun, in order. */
  lemma {:induction false} CallsAreAsBegun(peekId: Bytes -> Option<int>, labels: seq<Label>, c: Client)
    requires Exec(peekId, labels) == Some(c)
    ensures |c.calls| == |Begins(labels)| && c.nextId == |c.calls| + 1
    ensures forall t | 0 <= t < |c.calls| :: c.calls[t].id == t + 1 &&
              (c.calls[t].stage == NotSent <==> !Begins(labels)[t].written || Begins(labels)[t].stopped)
  {
    if labels != [] {
      var init, l := labels[..|labels| - 1], labels[|labels| - 1];
      var c0 := Exec(peekId, init).value;
      CallsAreAsBegun(peekId, init, c0);
      StageTellsWhenItAsked(peekId, init, c0, 0);
      StepKeepsBegun(peekId, c0, l, Begins(init));
    }
  }

  /** A call whose response was routed while the connection was open returns it if and only if it asked
      for it before either side closed. */
  lemma ResponseReturnedIffAskedInTime(peekId: Bytes -> Option<int>, labels: seq<Label>, c: Client, t: int)
    requires Exec(peekId, labels) == Some(c) && 0 <= t < |c.calls| && c.calls[t].stage != NotSent
    requires exists k :: 0 <= k < |WhileOpen(c)| && peekId(WhileOpen(c)[k]) == Some(c.calls[t].id)
    ensures c.calls[t].stage.Early? || c.calls[t].stage.Resumed? <==> AskedInTime(labels, t)
    ensures c.calls[t].stage.AskedTooLate? || c.calls[t].stage == Sent <==> !AskedInTime(labels, t)
  {
    StageTellsWhenItAsked(peekId, labels, c, t);
    ResponsesMeetTheirCalls(peekId, labels, c, t);
  }

  /** One more enabled label extends a run. */
  lemma Then(peekId: Bytes -> Option<int>, labels: seq<Label>, c: Client, l: Label)
    returns (labels': seq<Label>, c': Client)
    requires Exec(peekId, labels) == Some(c) && Enabled(c, l)
    ensures labels' == labels + [l] && Exec(peekId, labels') == Some(c') && c' == Step(peekId, c, l)
  {
    assert (labels + [l])[..|labels|] == labels;
    labels', c' := labels + [l], Step(peekId, c, l);
  }

  /** A response has been routed before its call asked for it. */
  lemma StashedRun(peekId: Bytes -> Option<int>, frame: Bytes) returns (labels: seq<Label>, c: Client)
    requires NL !in frame && |frame| < 4096 && peekId(frame) == Some(1)
    ensures Exec(peekId, labels) == Some(c)
    ensures c.calls == [Pending(1, Sent, 0)] && c.pending == map[] && c.early == map[1 := frame]
    ensures !c.closed && |c.routed| == 1 && c.closedAt == 1
  {
    var bytes := frame + [NL];
    labels, c := [], CONNECTED;
    labels, c := Then(peekId, labels, c, BeginCall(true));
    labels, c := Then(peekId, labels, c, Read(bytes));
    assert c.buffer == bytes;
    FirstIndex(bytes, |frame|);
    assert bytes[..|frame|] == frame;
    labels, c := Then(peekId, labels, c, Route);
  }

  /** "While open" matters: `awaitResponse` looks at `isClosed` before it looks at the stash, so a
      response that is already there is lost if the connection closes before the call asks. */
  lemma AnEarlyResponseCanBeLost(peekId: Bytes -> Option<int>, frame: Bytes)
    returns (labels: seq<Label>, c: Client)
    requires NL !in frame && |frame| < 4096 && peekId(frame) == Some(1)
    ensures Exec(peekId, labels) == Some(c)
    ensures c.calls == [Pending(1, AskedTooLate(1), 0)] && c.early == map[1 := frame] && c.closed && c.closedAt == 1
  {
    labels, c := StashedRun(peekId, frame);
    labels, c := Then(peekId, labels, c, Disconnect);
    labels, c := Then(peekId, labels, c, AwaitResponse(0));
  }

  // ----- the stream -----

  /** `routed`, and then what is still whole in `buffer`, are the lines of the chunks received. */
  ghost predicate Streamed(chunks: seq<Bytes>, routed: seq<Bytes>, buffer: Bytes) {
    Split(Concat(chunks)) == (routed + Split(buffer).0, Split(buffer).1)
  }

  lemma ReadKeepsStream(chunks: seq<Bytes>, chunk: Bytes, routed: seq<Bytes>, buffer: Bytes)
    requires NL !in buffer && Streamed(chunks, routed, buffer)
    ensures Streamed(chunks + [chunk], routed, buffer + chunk)
  {
    assert (chunks + [chunk])[..|chunks|] == chunks;
    SplitAppend(Concat(chunks), chunk);
    NothingToCut(buffer);
    assert routed + [] == routed;
  }

  lemma RouteKeepsStream(chunks: seq<Bytes>, routed: seq<Bytes>, buffer: Bytes)
    requires NL in buffer && Streamed(chunks, routed, buffer)
    ensures var n := IndexOf(buffer, NL);
            Streamed(chunks, routed + [buffer[..n]], buffer[n + 1..])
  {
    var n := IndexOf(buffer, NL);
    Assoc(routed, [buffer[..n]], Split(buffer[n + 1..]).0);
  }

  lemma RoutingLogs(peekId: Bytes -> Option<int>, c: Client, frame: Bytes)
    ensures RouteFrame(c, peekId, frame).routed == c.routed + [frame]
    ensures RouteFrame(c, peekId, frame).buffer == c.buffer
  {
  }

  lemma RouteStreams(peekId: Bytes -> Option<int>, c: Client, chunks: seq<Bytes>)
    requires Enabled(c, Route) && Streamed(chunks, c.routed, c.buffer)
    ensures Streamed(chunks, Step(peekId, c, Route).routed, Step(peekId, c, Route).buffer)
  {
    var n := IndexOf(c.buffer, NL);
    var frame, rest := c.buffer[..n], c.buffer[n + 1..];
    RouteKeepsStream(chunks, c.routed, c.buffer);
    RoutingLogs(peekId, c.(buffer := rest), frame);
    assert Step(peekId, c, Route) == RouteFrame(c.(buffer := rest), peekId, frame);
  }

  lemma ReadStreams(peekId: Bytes -> Option<int>, c: Client, chunk: Bytes, chunks: seq<Bytes>)
    requires Enabled(c, Read(chunk)) && Streamed(chunks, c.routed, c.buffer)
    ensures Streamed(chunks + [chunk], Step(peekId, c, Read(chunk)).routed, Step(peekId, c, Read(chunk)).buffer)
  {
    ReadKeepsStream(chunks, chunk, c.routed, c.buffer);
  }

  lemma OthersLeaveTheStream(peekId: Bytes -> Option<int>, c: Client, l: Label)
    requires Enabled(c, l) && !l.Read? && l != Route
    ensures Step(peekId, c, l).routed == c.routed && Step(peekId, c, l).buffer == c.buffer
  {
  }

  function Received(chunks: seq<Bytes>, l: Label): seq<Bytes> {
    match l case Read(chunk) => chunks + [chunk] case _ => chunks
  }

  function Chunks(labels: seq<Label>): seq<Bytes> {
    if labels == [] then [] else Received(Chunks(labels[..|labels| - 1]), labels[|labels| - 1])
  }

  lemma StepKeepsStream(peekId: Bytes -> Option<int>, c: Client, l: Label, chunks: seq<Bytes>)
    requires Enabled(c, l) && Streamed(chunks, c.routed, c.buffer)
    ensures Streamed(Received(chunks, l), Step(peekId, c, l).routed, Step(peekId, c, l).buffer)
  {
    match l
    case Read(chunk) => ReadStreams(peekId, c, chunk, chunks);
    case Route => RouteStreams(peekId, c, chunks);
    case _ => OthersLeaveTheStream(peekId, c, l);
  }

  /** The frames routed, and those still in the buffer, are the lines of the stream received. */
  lemma {:induction false} FramesAreTheStream(peekId: Bytes -> Option<int>, labels: seq<Label>, c: Client)
    requires Exec(peekId, labels) == Some(c)
    ensures Streamed(Chunks(labels), c.routed, c.buffer)
  {
    if labels == [] {
      NothingToCut([]);
      assert CONNECTED.routed + [] == CONNECTED.routed;
    } else {
      var init := labels[..|labels| - 1];
      var c0 := Exec(peekId, init).value;
      FramesAreTheStream(peekId, init, c0);
      StepKeepsStream(peekId, c0, labels[|labels| - 1], Chunks(init));
    }
  }
}
