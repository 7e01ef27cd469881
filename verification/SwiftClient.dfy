/** The macOS tray's IPC client: an actor whose callers may start waiting for a response before or
    after the reader has routed it. One connection, actor steps in any order. */
module SwiftClient {
  import opened Prelude
  import opened Framing

  /** How far a call has got. `at` is how many frames had been routed when it asked for its
      response: it is then turned away if the connection is closed, handed an early response, or
      waits on a continuation. */
  datatype Stage =
    | NotSent
    | Sent
    | AskedTooLate(at: int)
    | Early(at: int, frame: Bytes)
    | Waiting(at: int)
    | Resumed(at: int, frame: Bytes)
    | Dropped(at: int)

  /** `resumes` counts how often the call's continuation has been resumed. */
  datatype Pending = Pending(id: int, stage: Stage, resumes: int)

  /** `routed` is every frame the reader has routed, and `closedAt` how many of them before the
      connection was closed. */
  datatype Client = Client(
    nextId: int,
    pending: map<int, int>,
    early: map<int, Bytes>,
    closed: bool,
    buffer: Bytes,
    reading: bool,
    calls: seq<Pending>,
    routed: seq<Bytes>,
    closedAt: int)

  const CONNECTED := Client(1, map[], map[], false, [], true, [], [], 0)

  function Begin(c: Client, written: bool): Client {
    c.(calls := c.calls + [Pending(c.nextId, if c.closed || !written then NotSent else Sent, 0)],
       nextId := c.nextId + 1)
  }

  function Await(c: Client, t: int): Client
    requires 0 <= t < |c.calls|
  {
    var id := c.calls[t].id;
    if c.closed then c.(calls := c.calls[t := c.calls[t].(stage := AskedTooLate(|c.routed|))])
    else if id in c.early then
      c.(calls := c.calls[t := c.calls[t].(stage := Early(|c.routed|, c.early[id]))], early := c.early - {id})
    else
      c.(calls := c.calls[t := c.calls[t].(stage := Waiting(|c.routed|))], pending := c.pending[id := t])
  }

  function Resume(calls: seq<Pending>, t: int, frame: Bytes): (r: seq<Pending>)
    ensures |r| == |calls|
  {
    if 0 <= t < |calls| && calls[t].stage.Waiting? then
      calls[t := Pending(calls[t].id, Resumed(calls[t].stage.at, frame), calls[t].resumes + 1)]
    else if 0 <= t < |calls| then calls[t := calls[t].(resumes := calls[t].resumes + 1)]
    else calls
  }

  function RouteFrame(c: Client, peekId: Bytes -> Option<int>, frame: Bytes): Client {
    var c' := c.(routed := c.routed + [frame], closedAt := if c.closed then c.closedAt else |c.routed| + 1);
    match peekId(frame)
    case None => c'
    case Some(id) =>
      if id in c.pending then
        c'.(calls := Resume(c.calls, c.pending[id], frame), pending := c.pending - {id})
      else c'.(early := c.early[id := frame])
  }

  function Drop(p: Pending): Pending {
    if p.stage.Waiting? then Pending(p.id, Dropped(p.stage.at), p.resumes + 1)
    else p.(resumes := p.resumes + 1)
  }

  function DropEach(calls: seq<Pending>, ts: set<int>): (r: seq<Pending>)
    ensures |r| == |calls|
  {
    seq(|calls|, t requires 0 <= t < |calls| => if t in ts then Drop(calls[t]) else calls[t])
  }

  function Parked(pending: map<int, int>): set<int> {
    set id | id in pending :: pending[id]
  }

  function Close(c: Client): Client {
    if c.closed then c
    else c.(closed := true, calls := DropEach(c.calls, Parked(c.pending)), pending := map[])
  }

  datatype Label =
    | BeginCall(written: bool)
    | AwaitResponse(t: int)
    | Read(chunk: Bytes)
    | Route
    | Eof
    | Disconnect

  predicate Enabled(c: Client, l: Label) {
    match l
    case AwaitResponse(t) => 0 <= t < |c.calls| && c.calls[t].stage == Sent
    case Read(chunk) => c.reading && NL !in c.buffer && 0 < |chunk| <= 4096
    case Route => c.reading && NL in c.buffer
    case Eof => c.reading && NL !in c.buffer
    case _ => true
  }

  function Step(peekId: Bytes -> Option<int>, c: Client, l: Label): Client
    requires Enabled(c, l)
  {
    match l
    case BeginCall(written) => Begin(c, written)
    case AwaitResponse(t) => Await(c, t)
    case Read(chunk) => c.(buffer := c.buffer + chunk)
    case Route =>
      var n := IndexOf(c.buffer, NL);
      RouteFrame(c.(buffer := c.buffer[n + 1..]), peekId, c.buffer[..n])
    case Eof => Close(c.(reading := false))
    case Disconnect => Close(c)
  }

  function Exec(peekId: Bytes -> Option<int>, labels: seq<Label>): Option<Client> {
    if labels == [] then Some(CONNECTED)
    else
      match Exec(peekId, labels[..|labels| - 1])
      case None => None
      case Some(c) =>
        if Enabled(c, labels[|labels| - 1]) then Some(Step(peekId, c, labels[|labels| - 1])) else None
  }

  /** The actor. */
  class IpcClient {
    var nextId: int
    var pending: map<int, int>
    var earlyResponses: map<int, Bytes>
    var isClosed: bool
    var buffer: Bytes
    var reading: bool
    var calls: seq<Pending>
    var routed: seq<Bytes>
    ghost var closedAt: int

    ghost function Value(): Client
      reads this
    {
      Client(nextId, pending, earlyResponses, isClosed, buffer, reading, calls, routed, closedAt)
    }

    /** Every continuation belongs to a call of its own. */
    ghost predicate Valid()
      reads this
    {
      && (forall id | id in pending :: 0 <= pending[id] < |calls|)
      && (forall i, j | i in pending && j in pending && i != j :: pending[i] != pending[j])
    }

    constructor ()
      ensures Value() == CONNECTED && Valid()
    {
      nextId, pending, earlyResponses, isClosed, buffer, reading := 1, map[], map[], false, [], true;
      calls, routed, closedAt := [], [], 0;
    }

    method BeginCall(written: bool) returns (t: int)
      requires Valid()
      modifies this
      ensures Value() == Begin(old(Value()), written) && Valid()
      ensures t == |old(calls)|
    {
      var id := nextId;
      nextId := nextId + 1;
      t := |calls|;
      calls := calls + [Pending(id, if isClosed || !written then NotSent else Sent, 0)];
    }

    method AwaitResponse(t: int)
      requires Valid() && 0 <= t < |calls| && calls[t].stage == Sent
      requires forall id | id in pending :: pending[id] != t
      modifies this
      ensures Value() == Await(old(Value()), t) && Valid()
    {
      var id := calls[t].id;
      if isClosed {
        calls := calls[t := calls[t].(stage := AskedTooLate(|routed|))];
      } else if id in earlyResponses {
        var frame := earlyResponses[id];
        earlyResponses := earlyResponses - {id};
        calls := calls[t := calls[t].(stage := Early(|routed|, frame))];
      } else {
        calls := calls[t := calls[t].(stage := Waiting(|routed|))];
        pending := pending[id := t];
      }
    }

    method RouteOne(peekId: Bytes -> Option<int>, frame: Bytes)
      requires Valid()
      modifies this
      ensures Value() == RouteFrame(old(Value()), peekId, frame) && Valid()
    {
      routed := routed + [frame];
      if !isClosed {
        closedAt := |routed|;
      }
      match peekId(frame)
      case None =>
      case Some(id) =>
        if id in pending {
          var cont := pending[id];
          pending := pending - {id};
          calls := Resume(calls, cont, frame);
        } else {
          earlyResponses := earlyResponses[id := frame];
        }
    }

    /** The continuations are resumed in no particular order. */
    method ResumeAll()
      requires Valid()
      modifies this`calls, this`pending
      ensures calls == DropEach(old(calls), Parked(old(pending))) && pending == map[]
    {
      var todo := pending.Keys;
      ghost var done: set<int> := {};
      while todo != {}
        invariant todo <= pending.Keys && pending == old(pending) && calls == DropEach(old(calls), done)
        invariant forall id | id in todo :: pending[id] !in done
        invariant forall id | id in pending && id !in todo :: pending[id] in done
        invariant done <= Parked(pending)
      {
        var id := Pick(todo);
        var cont := pending[id];
        todo := todo - {id};
        DropOneMore(old(calls), done, cont);
        calls := calls[cont := Drop(calls[cont])];
        done := done + {cont};
      }
      assert done == Parked(pending);
      pending := map[];
    }

    method FailOnEof()
      requires Valid()
      modifies this
      ensures Value() == Close(old(Value())) && Valid()
    {
      if isClosed {
        return;
      }
      isClosed := true;
      ResumeAll();
    }
  }

  lemma DropOneMore(calls: seq<Pending>, done: set<int>, t: int)
    requires 0 <= t < |calls| && t !in done
    ensures DropEach(calls, done)[t := Drop(DropEach(calls, done)[t])] == DropEach(calls, done + {t})
  {
  }
}
