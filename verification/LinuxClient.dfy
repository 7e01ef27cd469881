/** The GTK tray's IPC client: a read buffer, a table of pending requests, a table of
    subscribers, and one callback per call. */
module LinuxClient {
  import opened Prelude
  import opened Framing

  datatype Payload = ErrorMember(code: int) | ResultMember(value: int) | NeitherMember

  /** What JSON parsing makes of a frame: not an object, or an object with these members. */
  datatype View = NotAnObject | Object(id: Option<int>, payload: Payload, method_: Option<string>)

  /** What a callback is invoked with. */
  datatype Outcome =
    | Disconnected
    | WriteFailed
    | Answered(id: int, payload: Payload)

  /** A call: the events it subscribes to (none for a plain call), the id it was sent under if it
      was sent, how many frames had been handled by then, and the invocations of its callback. */
  datatype Issued = Issued(events: seq<string>, id: Option<int>, since: int, fired: seq<Outcome>)

  /** `calls` lists the calls in the order they were made; `pending` maps an id to a position in
      it. `frames` is every line cut off so far, `delivered` every subscriber callback invoked. */
  datatype Client = Client(
    buf: Bytes,
    pending: map<int, int>,
    subscribers: map<string, seq<int>>,
    nextId: int,
    disconnected: bool,
    reading: bool,
    calls: seq<Issued>,
    frames: seq<Bytes>,
    delivered: seq<(string, int)>)

  const CONNECTED := Client([], map[], map[], 1, false, true, [], [], [])

  function Fire(calls: seq<Issued>, t: int, o: Outcome): (r: seq<Issued>)
    requires 0 <= t < |calls|
    ensures |r| == |calls|
  {
    calls[t := calls[t].(fired := calls[t].fired + [o])]
  }

  function Call(c: Client, events: seq<string>, written: bool): Client {
    if c.disconnected then
      c.(calls := c.calls + [Issued(events, None, |c.frames|, [Disconnected])])
    else if !written then
      c.(calls := c.calls + [Issued(events, None, |c.frames|, [WriteFailed])], nextId := c.nextId + 1)
    else
      c.(calls := c.calls + [Issued(events, Some(c.nextId), |c.frames|, [])],
         nextId := c.nextId + 1, pending := c.pending[c.nextId := |c.calls|])
  }

  function Subscribed(subs: map<string, seq<int>>, m: string): seq<int> {
    if m in subs then subs[m] else []
  }

  /** Append `t` to the list of every event named, as often as it is named. */
  function Register(subs: map<string, seq<int>>, t: int, events: seq<string>): map<string, seq<int>> {
    if events == [] then subs
    else
      var init, m := events[..|events| - 1], events[|events| - 1];
      var subs' := Register(subs, t, init);
      subs'[m := Subscribed(subs', m) + [t]]
  }

  function Deliveries(m: string, ts: seq<int>): seq<(string, int)> {
    seq(|ts|, i requires 0 <= i < |ts| => (m, ts[i]))
  }

  function HandleFrame(c: Client, v: View): Client {
    match v
    case NotAnObject => c
    case Object(id, payload, m) =>
      if id.Some? && id.value in c.pending && 0 <= c.pending[id.value] < |c.calls| then
        var t := c.pending[id.value];
        c.(calls := Fire(c.calls, t, Answered(id.value, payload)),
           subscribers := if payload.ResultMember? then Register(c.subscribers, t, c.calls[t].events)
                          else c.subscribers,
           pending := c.pending - {id.value})
      else if m.Some? then
        c.(delivered := c.delivered + Deliveries(m.value, Subscribed(c.subscribers, m.value)))
      else c
  }

  /** `g_strndup` stops at a NUL. */
  function CString(line: Bytes): Bytes {
    line[..IndexOf(line, NUL)]
  }

  /** What a line is taken for: an empty one is skipped unparsed. */
  function Seen(parse: Bytes -> View, line: Bytes): View {
    if CString(line) == [] then NotAnObject else parse(CString(line))
  }

  function HandleLine(c: Client, parse: Bytes -> View, line: Bytes): Client {
    HandleFrame(c.(frames := c.frames + [line]), Seen(parse, line))
  }

  function HandleLines(c: Client, parse: Bytes -> View, lines: seq<Bytes>): Client
    decreases |lines|
  {
    if lines == [] then c else HandleLines(HandleLine(c, parse, lines[0]), parse, lines[1..])
  }

  function Drain(c: Client, parse: Bytes -> View): Client {
    HandleLines(c.(buf := Split(c.buf).1), parse, Split(c.buf).0)
  }

  function FailEach(calls: seq<Issued>, ts: set<int>): (r: seq<Issued>)
    ensures |r| == |calls|
  {
    seq(|calls|, t requires 0 <= t < |calls| =>
      if t in ts then calls[t].(fired := calls[t].fired + [Disconnected]) else calls[t])
  }

  /** The calls that have a pending request. */
  function Waiting(pending: map<int, int>): set<int> {
    set id | id in pending :: pending[id]
  }

  function FailAll(c: Client): Client {
    c.(disconnected := true, reading := false, calls := FailEach(c.calls, Waiting(c.pending)), pending := map[])
  }

  datatype Op =
    | Issue(events: seq<string>, written: bool)
    | Receive(chunk: Bytes)
    | HangUp
    | Disconnect

  predicate Enabled(c: Client, op: Op) {
    match op
    case Receive(chunk) => c.reading && 0 < |chunk| <= 4096
    case HangUp => c.reading
    case _ => true
  }

  function Step(parse: Bytes -> View, c: Client, op: Op): Client
    requires Enabled(c, op)
  {
    match op
    case Issue(events, written) => Call(c, events, written)
    case Receive(chunk) => Drain(c.(buf := c.buf + chunk), parse)
    case HangUp => if c.disconnected then c.(reading := false) else FailAll(c)
    case Disconnect => if c.disconnected then c else FailAll(c)
  }

  function Exec(parse: Bytes -> View, ops: seq<Op>): Option<Client> {
    if ops == [] then Some(CONNECTED)
    else
      match Exec(parse, ops[..|ops| - 1])
      case None => None
      case Some(c) =>
        if Enabled(c, ops[|ops| - 1]) then Some(Step(parse, c, ops[|ops| - 1])) else None
  }

  // ----- the object -----

  class IpcClient {
    var readBuf: Bytes
    var pending: map<int, int>
    var subscribers: map<string, seq<int>>
    var nextId: int
    var disconnected: bool
    var reading: bool
    var calls: seq<Issued>
    var frames: seq<Bytes>
    var delivered: seq<(string, int)>

    ghost function Value(): Client
      reads this
    {
      Client(readBuf, pending, subscribers, nextId, disconnected, reading, calls, frames, delivered)
    }

    /** Every pending request belongs to a call of its own. */
    ghost predicate Valid()
      reads this
    {
      && (forall id | id in pending :: 0 <= pending[id] < |calls|)
      && (forall i, j | i in pending && j in pending && i != j :: pending[i] != pending[j])
    }

    constructor ()
      ensures Value() == CONNECTED && Valid()
    {
      readBuf, pending, subscribers, nextId, disconnected := [], map[], map[], 1, false;
      reading, calls, frames, delivered := true, [], [], [];
    }

    method CallAsync(events: seq<string>, written: bool)
      requires Valid()
      modifies this
      ensures Value() == Call(old(Value()), events, written) && Valid()
    {
      if disconnected {
        calls := calls + [Issued(events, None, |frames|, [Disconnected])];
        return;
      }
      var id := nextId;
      nextId := nextId + 1;
      if !written {
        calls := calls + [Issued(events, None, |frames|, [WriteFailed])];
        return;
      }
      pending := pending[id := |calls|];
      calls := calls + [Issued(events, Some(id), |frames|, [])];
    }

    method OnSubscribeResponse(t: int, events: seq<string>)
      modifies this`subscribers
      ensures subscribers == Register(old(subscribers), t, events)
    {
      var i := 0;
      while i < |events|
        invariant 0 <= i <= |events|
        invariant subscribers == Register(old(subscribers), t, events[..i])
      {
        var m := events[i];
        assert events[..i + 1][..i] == events[..i] && events[..i + 1][i] == m;
        if m in subscribers {
          var existing := subscribers[m] + [t];
          assert (subscribers - {m})[m := existing] == subscribers[m := existing];
          subscribers := subscribers - {m};
          subscribers := subscribers[m := existing];
        } else {
          assert Subscribed(subscribers, m) + [t] == [t];
          subscribers := subscribers[m := [t]];
        }
        i := i + 1;
      }
      assert events[..i] == events;
    }

    method Notify(m: string)
      modifies this`delivered
      ensures delivered == old(delivered) + Deliveries(m, Subscribed(subscribers, m))
    {
      if m in subscribers {
        var subs := subscribers[m];
        var i := 0;
        while i < |subs|
          invariant 0 <= i <= |subs|
          invariant delivered == old(delivered) + Deliveries(m, subs)[..i]
        {
          delivered := delivered + [(m, subs[i])];
          i := i + 1;
        }
        assert Deliveries(m, subs)[..i] == Deliveries(m, subs);
      }
    }

    method Handle(v: View)
      requires Valid()
      modifies this
      ensures Value() == HandleFrame(old(Value()), v) && Valid()
    {
      if v.NotAnObject? {
        return;
      }
      if v.id.Some? && v.id.value in pending {
        var t := pending[v.id.value];
        calls := Fire(calls, t, Answered(v.id.value, v.payload));
        if v.payload.ResultMember? {
          OnSubscribeResponse(t, calls[t].events);
        }
        pending := pending - {v.id.value};
        return;
      }
      if v.method_.Some? {
        Notify(v.method_.value);
      }
    }

    /** One turn of the loop of OnSocketReadable. */
    method HandleNext(parse: Bytes -> View)
      requires Valid() && NL in readBuf
      modifies this
      ensures Valid()
      ensures var n := IndexOf(old(readBuf), NL);
              && readBuf == old(readBuf)[n + 1..]
              && Value() == HandleLine(old(Value()).(buf := readBuf), parse, old(readBuf)[..n])
    {
      var n := IndexOf(readBuf, NL);
      var line := readBuf[..n];
      var frame := CString(line);
      frames := frames + [line];
      readBuf := readBuf[n + 1..];
      assert Value() == old(Value()).(buf := readBuf, frames := old(frames) + [line]);
      assert Seen(parse, line) == if frame == [] then NotAnObject else parse(frame);
      if frame != [] {
        Handle(parse(frame));
      }
    }

    method OnSocketReadable(parse: Bytes -> View, chunk: Bytes)
      requires Valid() && Enabled(Value(), Receive(chunk))
      modifies this
      ensures Value() == Step(parse, old(Value()), Receive(chunk)) && Valid()
    {
      readBuf := readBuf + chunk;
      ghost var target := Drain(Value(), parse);
      while NL in readBuf
        invariant Valid() && Drain(Value(), parse) == target
        decreases |readBuf|
      {
        DrainOne(Value(), parse);
        HandleNext(parse);
      }
      NothingToCut(readBuf);
    }

    /** The walk over the hash table is in no particular order. */
    method FailPending()
      requires Valid()
      modifies this`calls, this`pending
      ensures calls == FailEach(old(calls), Waiting(old(pending))) && pending == map[]
    {
      var todo := pending.Keys;
      ghost var done: set<int> := {};
      while todo != {}
        invariant todo <= pending.Keys && pending == old(pending) && calls == FailEach(old(calls), done)
        invariant forall id | id in todo :: pending[id] !in done
        invariant forall id | id in pending && id !in todo :: pending[id] in done
        invariant done <= Waiting(pending)
      {
        var id := Pick(todo);
        todo := todo - {id};
        calls := Fire(calls, pending[id], Disconnected);
        done := done + {pending[id]};
        assert calls == FailEach(old(calls), done);
      }
      assert done == Waiting(pending);
      pending := map[];
    }

    method EmitDisconnected()
      requires Valid() && reading
      modifies this
      ensures (forall parse :: Step(parse, old(Value()), HangUp) == Value()) && Valid()
    {
      if !disconnected {
        disconnected := true;
        FailPending();
      }
      reading := false;
    }

    method DisconnectNow()
      requires Valid()
      modifies this
      ensures (forall parse :: Step(parse, old(Value()), Disconnect) == Value()) && Valid()
    {
      if disconnected {
        return;
      }
      disconnected := true;
      reading := false;
      FailPending();
    }
  }

  /** Draining is: cut the first line off, handle it, drain the rest. */
  lemma DrainOne(c: Client, parse: Bytes -> View)
    requires NL in c.buf
    ensures var n := IndexOf(c.buf, NL);
            Drain(c, parse) == Drain(HandleLine(c.(buf := c.buf[n + 1..]), parse, c.buf[..n]), parse)
  {
    var n := IndexOf(c.buf, NL);
    var f, more := c.buf[..n], c.buf[n + 1..];
    var (lines, rest) := Split(more);
    assert ([f] + lines)[1..] == lines;
    HandlingKeepsBuf(c, parse, f, more, rest);
  }

  lemma HandlingKeepsBuf(c: Client, parse: Bytes -> View, line: Bytes, b0: Bytes, b1: Bytes)
    ensures HandleLine(c.(buf := b0), parse, line).buf == b0
    ensures HandleLine(c.(buf := b0), parse, line).(buf := b1) == HandleLine(c.(buf := b1), parse, line)
  {
  }
}
