/** The admin CLI's client: it sends one request at a time and reads frames until its id appears. */
module AdminClient {
  import opened Prelude
  import opened Framing
  import opened IpcServer
  import opened IpcServerProofs
  import opened IpcStreams

  /** What the client makes of a line: not JSON it can read, or these members of it. */
  datatype Heard = Garbled | Frame(id: Option<int>, error: Option<int>, result: Option<Body>)

  datatype Answer = Got(value: Body) | Failed(code: int) | MissingResult | BadLine | ConnectionClosed

  /** The line ends the wait for the answer to request `id`. */
  predicate Stops(h: Heard, id: int) {
    h.Garbled? || h.id == Some(id)
  }

  function AnswerOf(h: Heard): Answer {
    match h
    case Garbled => BadLine
    case Frame(_, Some(code), _) => Failed(code)
    case Frame(_, None, Some(value)) => Got(value)
    case Frame(_, None, None) => MissingResult
  }

  /** The first line from position `from` on that ends the wait, or the end of the stream. */
  function Skip(stream: seq<Heard>, from: nat, id: int): (k: nat)
    requires from <= |stream|
    ensures from <= k <= |stream|
    ensures forall i | from <= i < k :: !Stops(stream[i], id)
    ensures k < |stream| ==> Stops(stream[k], id)
    decreases |stream| - from
  {
    if from == |stream| || Stops(stream[from], id) then from else Skip(stream, from + 1, id)
  }

  /** The answer to request `id` of a client that has read `from` lines, and how many it has read then. */
  function CallFrom(stream: seq<Heard>, from: nat, id: int): (r: (Answer, nat))
    requires from <= |stream|
    ensures from <= r.1 <= |stream|
  {
    var k := Skip(stream, from, id);
    if k < |stream| then (AnswerOf(stream[k]), k + 1) else (ConnectionClosed, |stream|)
  }

  class IpcClient {
    var nextId: int
    var read: nat

    constructor ()
      ensures nextId == 1 && read == 0
    {
      nextId, read := 1, 0;
    }

    /** `stream` is every line the daemon will have sent by the time the connection closes;
        `read` is how many this client has taken off it. */
    method Call(stream: seq<Heard>) returns (answer: Answer)
      requires read <= |stream|
      modifies this
      ensures nextId == old(nextId) + 1
      ensures (answer, read) == CallFrom(stream, old(read), old(nextId))
      ensures var k := Skip(stream, old(read), old(nextId));
              if k == |stream| then answer == ConnectionClosed && read == |stream|
              else
                && read == k + 1
                && (stream[k].Garbled? ==> answer == BadLine)
                && (stream[k].Frame? && stream[k].error.Some? ==> answer == Failed(stream[k].error.value))
                && (stream[k].Frame? && stream[k].error.None? ==>
                      answer == if stream[k].result.Some? then Got(stream[k].result.value) else MissingResult)
    {
      var id := nextId;
      nextId := nextId + 1;
      while read < |stream|
        invariant old(read) <= read <= |stream| && nextId == id + 1
        invariant Skip(stream, read, id) == Skip(stream, old(read), id)
      {
        var resp := stream[read];
        read := read + 1;
        if resp.Garbled? {
          return BadLine;
        }
        if resp.id != Some(id) {
          continue;
        }
        if resp.error.Some? {
          return Failed(resp.error.value);
        }
        if resp.result.None? {
          return MissingResult;
        }
        return Got(resp.result.value);
      }
      return ConnectionClosed;
    }
  }

  predicate Carries(m: Msg, id: int) {
    m.Response? && m.id == NumId(id)
  }

  /** What the client makes of the daemon's messages; ids are read as unsigned. */
  function HeardOf(m: Msg): Heard {
    match m
    case Notification(_, _) => Frame(None, None, None)
    case Response(id, body) =>
      var n := match id case NumId(n) => if n >= 0 then Some(n) else None case _ => None;
      match body
      case Error(code) => Frame(n, Some(code), None)
      case _ => Frame(n, None, Some(body))
  }

  function StreamOf(frames: seq<Msg>): (r: seq<Heard>)
    ensures |r| == |frames|
  {
    seq(|frames|, i requires 0 <= i < |frames| => HeardOf(frames[i]))
  }

  /** The requests such a client makes: its k-th has id k. */
  ghost predicate SentByAdmin(requests: seq<Request>) {
    forall k | 0 <= k < |requests| :: !requests[k].line.Garbage? && requests[k].line.id == NumId(k + 1)
  }

  /** What a call is told when its request is answered: the handler's value, the code of its failure, or
      the events it subscribed to. */
  predicate IsTold(answer: Answer, q: Request) {
    match q.line
    case Garbage => false
    case Subscribe(_, events) => answer == Got(Subscribed(match events case Some(es) => es case None => []))
    case Call(_, _) =>
      match q.outcome
      case None => false
      case Some(Success(v)) => answer == Got(Result(v))
      case Some(Failure(kind)) => answer.Failed? && KindOf(answer.code) == Some(kind)
  }

  lemma AnswersAreTold(m: Msg, q: Request)
    requires Answers(m, q) && !q.line.Garbage?
    ensures IsTold(AnswerOf(HeardOf(m)), q)
  {
  }

  lemma OneMoreReply(frames: seq<Msg>, i: int)
    requires 0 <= i < |frames| && frames[i].Response?
    ensures |Replies(frames[..i + 1])| == |Replies(frames[..i])| + 1
  {
    assert frames[..i + 1] == frames[..i] + [frames[i]];
    ProjectionsAppend(frames[..i], frames[i]);
  }

  /** The one message with id n is the reply to the n-th request, wherever the fan-out put its
      notifications: skipping to one's own id returns one's own answer. */
  lemma SkippingFindsTheOwnReply(frames: seq<Msg>, requests: seq<Request>, n: int, i: int)
    requires Served(frames, requests) && SentByAdmin(requests)
    requires 0 <= i < |frames| && Carries(frames[i], n)
    ensures 1 <= n <= |Replies(frames)| && frames[i] == Replies(frames)[n - 1]
    ensures Answers(frames[i], requests[n - 1])
    ensures |Replies(frames[..i])| == n - 1 && |Replies(frames[..i + 1])| == n
  {
    ReplyAt(frames, i);
    OneMoreReply(frames, i);
    var k := |Replies(frames[..i])|;
    assert Answers(Replies(frames)[k], requests[k]);
  }

  /** A response makes one more reply for every longer prefix. */
  lemma RepliesGrow(frames: seq<Msg>, i: int, start: int)
    requires 0 <= i < start <= |frames| && frames[i].Response?
    ensures |Replies(frames[..i])| < |Replies(frames[..start])|
  {
    ProjectionsOfPrefix(frames[..start], i + 1);
    assert frames[..start][..i + 1] == frames[..i + 1];
    OneMoreReply(frames, i);
  }

  /** Conversely, a client that has read its first n - 1 answers and no further still has the reply
      to an answered n-th request ahead of it, under that id: its next call does not miss it. */
  lemma EveryAnsweredRequestIsFound(frames: seq<Msg>, requests: seq<Request>, n: int, start: int) returns (i: int)
    requires Served(frames, requests) && SentByAdmin(requests) && 1 <= n <= |Replies(frames)|
    requires 0 <= start <= |frames| && |Replies(frames[..start])| == n - 1
    ensures start <= i < |frames| && Carries(frames[i], n) && frames[i] == Replies(frames)[n - 1]
    ensures |Replies(frames[..i])| == n - 1
  {
    i := KthReply(frames, n - 1);
    assert Answers(Replies(frames)[n - 1], requests[n - 1]);
    if i < start {
      RepliesGrow(frames, i, start);
    }
  }

  /** How many lines a client has read that has called n times. */
  function ReadAfter(stream: seq<Heard>, n: nat): (r: nat)
    ensures r <= |stream|
  {
    if n == 0 then 0 else CallFrom(stream, ReadAfter(stream, n - 1), n).1
  }

  /** The stream of a connection that ended after these messages, and perhaps in the middle of one more. */
  function Ending(frames: seq<Msg>, cut: bool): (r: seq<Heard>)
    ensures |frames| <= |r|
  {
    StreamOf(frames) + if cut then [Garbled] else []
  }

  /** One call of a session: the client has read its first n - 1 answers and no further. */
  lemma AnsweredCall(frames: seq<Msg>, cut: bool, requests: seq<Request>, n: int, from: nat)
    requires Served(frames, requests) && SentByAdmin(requests) && 1 <= n <= |Replies(frames)|
    requires from <= |frames| && |Replies(frames[..from])| == n - 1
    ensures var (answer, read) := CallFrom(Ending(frames, cut), from, n);
            && answer == AnswerOf(HeardOf(Replies(frames)[n - 1]))
            && read <= |frames| && |Replies(frames[..read])| == n
  {
    var stream := Ending(frames, cut);
    var i := EveryAnsweredRequestIsFound(frames, requests, n, from);
    assert Stops(stream[i], n);
    var k := Skip(stream, from, n);
    assert Carries(frames[k], n);
    SkippingFindsTheOwnReply(frames, requests, n, k);
  }

  /** A call that is not answered reads everything; it meets the line that was cut short, if an earlier
      one has not. */
  lemma UnansweredCall(frames: seq<Msg>, cut: bool, requests: seq<Request>, n: int, from: nat)
    requires Served(frames, requests) && SentByAdmin(requests) && |Replies(frames)| < n
    requires from <= |Ending(frames, cut)|
    ensures CallFrom(Ending(frames, cut), from, n) ==
              (if cut && from <= |frames| then BadLine else ConnectionClosed, |Ending(frames, cut)|)
  {
    var stream := Ending(frames, cut);
    var k := Skip(stream, from, n);
    if k < |frames| {
      assert Stops(stream[k], n) && stream[k] == HeardOf(frames[k]);
      SkippingFindsTheOwnReply(frames, requests, n, k);
    }
    assert cut ==> Stops(stream[|frames|], n);
  }

  /** What the n-th call of a session is told. */
  function Told(frames: seq<Msg>, cut: bool, n: int): Answer
    requires 1 <= n
  {
    if n <= |Replies(frames)| then AnswerOf(HeardOf(Replies(frames)[n - 1]))
    else if cut && n == |Replies(frames)| + 1 then BadLine
    else ConnectionClosed
  }

  /** A session of any length: as long as the daemon answers, the n-th call returns the daemon's answer
      to the n-th request, wherever notifications fall and however far the daemon is ahead; after that
      it is told of the line cut short, if there is one, and then that the connection closed. */
  lemma {:induction false} SessionOf(frames: seq<Msg>, cut: bool, requests: seq<Request>, n: nat)
    requires Served(frames, requests) && SentByAdmin(requests)
    ensures var read := ReadAfter(Ending(frames, cut), n);
            if n <= |Replies(frames)| then read <= |frames| && |Replies(frames[..read])| == n
            else read == |Ending(frames, cut)|
    ensures 1 <= n ==>
              CallFrom(Ending(frames, cut), ReadAfter(Ending(frames, cut), n - 1), n).0 == Told(frames, cut, n)
  {
    if n == 0 {
      assert Replies(frames[..0]) == [];
    } else {
      SessionOf(frames, cut, requests, n - 1);
      var from := ReadAfter(Ending(frames, cut), n - 1);
      if n <= |Replies(frames)| {
        AnsweredCall(frames, cut, requests, n, from);
      } else {
        UnansweredCall(frames, cut, requests, n, from);
      }
    }
  }

  /** The same in terms of what the handler made of each request. */
  lemma SessionIsTold(frames: seq<Msg>, cut: bool, requests: seq<Request>, n: nat)
    requires Served(frames, requests) && SentByAdmin(requests) && 1 <= n
    ensures var stream, answered := Ending(frames, cut), |Replies(frames)|;
            var answer := CallFrom(stream, ReadAfter(stream, n - 1), n).0;
            if n <= answered then n <= |requests| && IsTold(answer, requests[n - 1])
            else answer == if cut && n == answered + 1 then BadLine else ConnectionClosed
  {
    SessionOf(frames, cut, requests, n);
    if n <= |Replies(frames)| {
      assert Answers(Replies(frames)[n - 1], requests[n - 1]);
      AnswersAreTold(Replies(frames)[n - 1], requests[n - 1]);
    }
  }

  // ----- from the bytes on -----

  /** How the client reads lines: encoded messages as what they are, and none that is cut short. */
  ghost predicate Reader(enc: Msg -> Bytes, read: Bytes -> Heard) {
    && (forall m :: read(enc(m)) == HeardOf(m))
    && (forall m, p | p != [] && p < enc(m) :: read(p) == Garbled)
  }

  function Mapped(read: Bytes -> Heard, lines: seq<Bytes>): (r: seq<Heard>)
    ensures |r| == |lines|
  {
    seq(|lines|, i requires 0 <= i < |lines| => read(lines[i]))
  }

  /** The lines of a stream that has ended; its last need not end in a newline. */
  function LinesOf(read: Bytes -> Heard, got: Bytes): seq<Heard> {
    var (lines, part) := Split(got);
    Mapped(read, lines) + if part == [] then [] else [read(part)]
  }

  /** The end of what was received is the whole of the next message, but for its newline. */
  predicate LacksItsNewline(enc: Msg -> Bytes, frames: seq<Msg>, got: Bytes) {
    var (lines, part) := Split(got);
    part != [] && |lines| < |frames| && part == enc(frames[|lines|])
  }

  /** How many messages have arrived whole. */
  function Arrived(enc: Msg -> Bytes, frames: seq<Msg>, got: Bytes): nat {
    |Split(got).0| + if LacksItsNewline(enc, frames, got) then 1 else 0
  }

  predicate CutShort(enc: Msg -> Bytes, frames: seq<Msg>, got: Bytes) {
    Split(got).1 != [] && !LacksItsNewline(enc, frames, got)
  }

  /** Some of the bytes end in a part of a line: a beginning of the line that continues it. */
  lemma PartOfALine(enc: Msg -> Bytes, frames: seq<Msg>, n: nat, unwritten: Bytes,
                    lines: seq<Bytes>, part: Bytes, more: Bytes)
    requires n <= |frames| && NL !in part && part != []
    requires lines + Split(part + more).0 == Encoded(enc, frames[..n])
    requires unwritten == [] ==> Split(part + more).1 == []
    requires unwritten != [] ==> n < |frames| && Split(part + more).1 + unwritten == enc(frames[n]) + [NL]
    ensures |lines| < |frames| && part <= enc(frames[|lines|])
  {
    if NL in part + more {
      var f, rest := CutAtNewline(part + more);
      BeforeNewline(part, more, f, rest);
      assert Encoded(enc, frames[..n])[|lines|] == (lines + Split(part + more).0)[|lines|] == f;
    } else {
      NothingToCut(part + more);
      PrefixOfLine(part, more, unwritten, enc(frames[n]));
    }
  }

  /** The lines of a beginning of the wire are the first frames, and the rest a beginning of the next. */
  lemma BeginningOfTheWire(enc: Msg -> Bytes, before: seq<Note>, labels: seq<Label>, s: State,
                           got: Bytes, more: Bytes)
    requires Encoder(enc) && Exec(enc, before, labels) == Some(s) && got + more == s.wire
    ensures var (lines, part) := Split(got);
            && |lines| <= |s.frames| && lines == Encoded(enc, s.frames[..|lines|])
            && (part != [] ==> |lines| < |s.frames| && part <= enc(s.frames[|lines|]))
  {
    var (lines, part) := Split(got);
    WireIsWholeFrames(enc, before, labels, s);
    SplitAppend(got, more);
    var j := BeginningOf(enc, s.frames, Complete(s), lines, Split(part + more).0);
    if part != [] {
      PartOfALine(enc, s.frames, Complete(s), Unwritten(s), lines, part, more);
    }
  }

  lemma BeforeNewline(part: Bytes, more: Bytes, f: Bytes, rest: Bytes)
    requires part + more == f + [NL] + rest && NL !in part
    ensures part <= f
  {
    assert (part + more)[|f|] == NL;
    assert |part| <= |f|;
    assert part == (part + more)[..|part|];
    assert f == (part + more)[..|f|];
  }

  lemma PrefixOfLine(part: Bytes, more: Bytes, unwritten: Bytes, f: Bytes)
    requires part + more + unwritten == f + [NL] && NL !in part
    ensures part <= f
  {
    assert part + (more + unwritten) == f + [NL] + [];
    BeforeNewline(part, more + unwritten, f, []);
  }

  /** All of an idle wire is whole. */
  lemma AllOfAnIdleWire(enc: Msg -> Bytes, before: seq<Note>, labels: seq<Label>, s: State)
    requires Encoder(enc) && Exec(enc, before, labels) == Some(s) && Unwritten(s) == []
    ensures Arrived(enc, s.frames, s.wire) == |s.frames| && !CutShort(enc, s.frames, s.wire)
  {
    WireIsWholeFrames(enc, before, labels, s);
  }

  /** What the client hears of the bytes it received: the messages that arrived whole, and at most one
      line that it cannot read. */
  lemma LinesAreAnEnding(enc: Msg -> Bytes, read: Bytes -> Heard, frames: seq<Msg>, got: Bytes)
    requires Reader(enc, read)
    requires var (lines, part) := Split(got);
             && |lines| <= |frames| && lines == Encoded(enc, frames[..|lines|])
             && (part != [] ==> |lines| < |frames| && part <= enc(frames[|lines|]))
    ensures Arrived(enc, frames, got) <= |frames|
    ensures LinesOf(read, got) == Ending(frames[..Arrived(enc, frames, got)], CutShort(enc, frames, got))
  {
    var (lines, part) := Split(got);
    assert Mapped(read, lines) == StreamOf(frames[..|lines|]);
    if part != [] && part == enc(frames[|lines|]) {
      assert StreamOf(frames[..|lines| + 1]) == StreamOf(frames[..|lines|]) + [read(part)];
    }
  }

  lemma ServedBeginning(frames: seq<Msg>, requests: seq<Request>, j: nat)
    requires Served(frames, requests) && j <= |frames|
    ensures Served(frames[..j], requests)
  {
    ProjectionsOfPrefix(frames, j);
  }

  /** Against the daemon, whatever the schedule of its two tasks and wherever the bytes stop: the n-th
      call returns the daemon's answer to the n-th request if that answer arrived whole, and otherwise it
      is told of the line cut short, if no call was before, or that the connection closed. */
  lemma EveryCallGetsItsAnswer(enc: Msg -> Bytes, read: Bytes -> Heard, before: seq<Note>, labels: seq<Label>,
                               s: State, got: Bytes, more: Bytes, n: nat)
    requires Encoder(enc) && Reader(enc, read)
    requires Exec(enc, before, labels) == Some(s) && SentByAdmin(Requests(labels)) && got + more == s.wire && 1 <= n
    ensures Arrived(enc, s.frames, got) <= |s.frames|
    ensures got == s.wire && Unwritten(s) == [] ==>
              Arrived(enc, s.frames, got) == |s.frames| && !CutShort(enc, s.frames, got)
    ensures var stream, answered := LinesOf(read, got), |Replies(s.frames[..Arrived(enc, s.frames, got)])|;
            var answer := CallFrom(stream, ReadAfter(stream, n - 1), n).0;
            if n <= answered then n <= |Requests(labels)| && IsTold(answer, Requests(labels)[n - 1])
            else answer == if CutShort(enc, s.frames, got) && n == answered + 1 then BadLine else ConnectionClosed
  {
    ExecKeepsInv(enc, before, labels, s);
    BeginningOfTheWire(enc, before, labels, s, got, more);
    LinesAreAnEnding(enc, read, s.frames, got);
    var whole := s.frames[..Arrived(enc, s.frames, got)];
    ServedBeginning(s.frames, Requests(labels), |whole|);
    SessionIsTold(whole, CutShort(enc, s.frames, got), Requests(labels), n);
    if got == s.wire && Unwritten(s) == [] {
      AllOfAnIdleWire(enc, before, labels, s);
    }
  }
}
