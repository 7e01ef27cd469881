/** The loopback listener that waits for the browser to come back from the consent page. */
module OAuthLoopback {
  import opened Prelude
  import opened Framing
  import opened PercentEncoding

  const SPACE: Byte := 32
  const QUESTION: Byte := 63
  const AMPERSAND: Byte := 38
  const EQUALS: Byte := 61
  const CODE: Bytes := [99, 111, 100, 101]
  const STATE: Bytes := [115, 116, 97, 116, 101]
  const ERROR: Bytes := [101, 114, 114, 111, 114]

  predicate Blank(b: Byte) {
    b == SPACE || 9 <= b <= 13
  }

  function FirstLine(req: Bytes): Bytes {
    req[..IndexOf(req, NL)]
  }

  function Trim(s: Bytes): Bytes {
    if s != [] && Blank(s[0]) then Trim(s[1..]) else s
  }

  /** Where the next blank is, or the length. */
  function BlankAt(s: Bytes): (n: nat)
    ensures n <= |s|
  {
    if s == [] || Blank(s[0]) then 0 else 1 + BlankAt(s[1..])
  }

  /** The next word of a line, empty if there is none, and what follows it. */
  function Word(s: Bytes): (Bytes, Bytes) {
    var t := Trim(s);
    (t[..BlankAt(t)], t[BlankAt(t)..])
  }

  function Target(req: Bytes): Bytes {
    Word(Word(FirstLine(req)).1).0
  }

  /** What comes after the first `b`, or nothing. */
  function After(s: Bytes, b: Byte): Bytes {
    if b in s then s[IndexOf(s, b) + 1..] else []
  }

  function Pieces(s: Bytes, b: Byte): seq<Bytes>
    decreases |s|
  {
    if b in s then [s[..IndexOf(s, b)]] + Pieces(s[IndexOf(s, b) + 1..], b) else [s]
  }

  function KeyOf(pair: Bytes): Bytes {
    pair[..IndexOf(pair, EQUALS)]
  }

  /** `lossy` is what decoding bytes as UTF-8 makes of them: bytes that are UTF-8 stay as they are, and
      only those. */
  function ValueOf(lossy: Bytes -> Bytes, pair: Bytes): Bytes {
    lossy(Decode(After(pair, EQUALS)))
  }

  /** The last value given for the key. */
  function Field(lossy: Bytes -> Bytes, pairs: seq<Bytes>, key: Bytes): Option<Bytes> {
    if pairs == [] then None
    else
      var last := pairs[|pairs| - 1];
      if KeyOf(last) == key then Some(ValueOf(lossy, last)) else Field(lossy, pairs[..|pairs| - 1], key)
  }

  datatype Verdict = Captured(code: Bytes) | Spurious | ProviderError(error: Bytes)

  function Judge(code: Option<Bytes>, state: Option<Bytes>, error: Option<Bytes>, expected: Bytes): Verdict {
    if error.Some? then ProviderError(error.value)
    else if state != Some(expected) then Spurious
    else match code case Some(c) => Captured(c) case None => Spurious
  }

  /** A request that is not UTF-8 is read as an empty one. */
  function PairsOf(lossy: Bytes -> Bytes, req: Bytes): seq<Bytes> {
    Pieces(After(Target(if lossy(req) == req then req else []), QUESTION), AMPERSAND)
  }

  function VerdictOn(lossy: Bytes -> Bytes, req: Bytes, expected: Bytes): Verdict {
    var pairs := PairsOf(lossy, req);
    Judge(Field(lossy, pairs, CODE), Field(lossy, pairs, STATE), Field(lossy, pairs, ERROR), expected)
  }

  /** What comes of a connection: reading fails, nothing ever comes, or these bytes do. */
  datatype Received = ReadFailed | Silence | Request(bytes: Bytes)

  datatype Incoming = Connection(at: int, received: Received) | AcceptFailed(at: int)

  datatype Failure = TimedOut | AcceptError | ReadError | Provider(error: Bytes)

  datatype Outcome = Code(code: Bytes) | Failed(why: Failure) | NeverReturns

  method HandleOne(lossy: Bytes -> Bytes, req: Bytes, expected: Bytes) returns (v: Verdict)
    ensures v == VerdictOn(lossy, req, expected)
  {
    var pairs := PairsOf(lossy, req);
    var code: Option<Bytes>, state: Option<Bytes>, error: Option<Bytes> := None, None, None;
    for i := 0 to |pairs|
      invariant code == Field(lossy, pairs[..i], CODE)
      invariant state == Field(lossy, pairs[..i], STATE)
      invariant error == Field(lossy, pairs[..i], ERROR)
    {
      assert pairs[..i + 1][..i] == pairs[..i];
      var k, value := KeyOf(pairs[i]), ValueOf(lossy, pairs[i]);
      if k == CODE {
        code := Some(value);
      } else if k == STATE {
        state := Some(value);
      } else if k == ERROR {
        error := Some(value);
      }
    }
    assert pairs[..|pairs|] == pairs;
    return Judge(code, state, error, expected);
  }

  /** What one connection means: to be answered and forgotten, or the end of waiting. */
  function OutcomeOf(lossy: Bytes -> Bytes, c: Incoming, expected: Bytes): Option<Outcome> {
    match c
    case AcceptFailed(_) => Some(Failed(AcceptError))
    case Connection(_, ReadFailed) => Some(Failed(ReadError))
    case Connection(_, Silence) => Some(NeverReturns)
    case Connection(_, Request(bytes)) =>
      match VerdictOn(lossy, bytes, expected)
      case Captured(code) => Some(Code(code))
      case ProviderError(e) => Some(Failed(Provider(e)))
      case Spurious => None
  }

  /** `incoming` is what reaches the listener, in order. The deadline is looked at before a connection
      is accepted, and while none is; a connection once accepted is read for as long as that takes. */
  function Await(lossy: Bytes -> Bytes, incoming: seq<Incoming>, deadline: int, expected: Bytes): Outcome {
    if incoming == [] || deadline <= incoming[0].at then Failed(TimedOut)
    else
      match OutcomeOf(lossy, incoming[0], expected)
      case Some(o) => o
      case None => Await(lossy, incoming[1..], deadline, expected)
  }

  method AwaitCallback(lossy: Bytes -> Bytes, incoming: seq<Incoming>, deadline: int, expected: Bytes)
    returns (r: Outcome)
    ensures r == Await(lossy, incoming, deadline, expected)
  {
    var i := 0;
    while i < |incoming|
      invariant 0 <= i <= |incoming|
      invariant Await(lossy, incoming[i..], deadline, expected) == Await(lossy, incoming, deadline, expected)
    {
      var c := incoming[i];
      assert incoming[i..][0] == c && incoming[i..][1..] == incoming[i + 1..];
      if deadline <= c.at {
        return Failed(TimedOut);
      }
      if c.AcceptFailed? {
        return Failed(AcceptError);
      }
      if c.received.ReadFailed? {
        return Failed(ReadError);
      }
      if c.received.Silence? {
        return NeverReturns;
      }
      var v := HandleOne(lossy, c.received.bytes, expected);
      match v {
        case Captured(code) => return Code(code);
        case ProviderError(e) => return Failed(Provider(e));
        case Spurious =>
      }
      i := i + 1;
    }
    return Failed(TimedOut);
  }

  // ----- the first connection that is not stray decides -----

  /** It brings a request that is answered and forgotten. */
  predicate Stray(lossy: Bytes -> Bytes, c: Incoming, expected: Bytes) {
    c.Connection? && c.received.Request? && VerdictOn(lossy, c.received.bytes, expected) == Spurious
  }

  /** What it ends the wait with: the error of accepting or of reading, the code of the callback expected, or
      the error the provider returned; or never, if nothing comes. */
  predicate EndsWith(lossy: Bytes -> Bytes, c: Incoming, expected: Bytes, o: Outcome) {
    match c
    case AcceptFailed(_) => o == Failed(AcceptError)
    case Connection(_, ReadFailed) => o == Failed(ReadError)
    case Connection(_, Silence) => o == NeverReturns
    case Connection(_, Request(bytes)) =>
      (o.Code? && VerdictOn(lossy, bytes, expected) == Captured(o.code)) ||
      (o.Failed? && o.why.Provider? && VerdictOn(lossy, bytes, expected) == ProviderError(o.why.error))
  }

  /** Before position `k` everything is in time and stray; at `k`, in time, is something that is not. */
  ghost predicate DecidesAt(lossy: Bytes -> Bytes, incoming: seq<Incoming>, deadline: int, expected: Bytes, k: int) {
    && 0 <= k < |incoming| && incoming[k].at < deadline && !Stray(lossy, incoming[k], expected)
    && forall i | 0 <= i < k :: incoming[i].at < deadline && Stray(lossy, incoming[i], expected)
  }

  lemma StrayOrDecisive(lossy: Bytes -> Bytes, c: Incoming, expected: Bytes)
    ensures OutcomeOf(lossy, c, expected).None? <==> Stray(lossy, c, expected)
    ensures forall o :: OutcomeOf(lossy, c, expected) == Some(o) <==> EndsWith(lossy, c, expected, o)
  {
  }

  lemma DecidesStepsBack(lossy: Bytes -> Bytes, incoming: seq<Incoming>, deadline: int, expected: Bytes)
    requires incoming != [] && incoming[0].at < deadline && Stray(lossy, incoming[0], expected)
    ensures forall k :: DecidesAt(lossy, incoming, deadline, expected, k) <==>
              DecidesAt(lossy, incoming[1..], deadline, expected, k - 1)
    ensures forall k :: DecidesAt(lossy, incoming, deadline, expected, k + 1) <==>
              DecidesAt(lossy, incoming[1..], deadline, expected, k)
  {
    var rest := incoming[1..];
    assert forall i | 0 < i < |incoming| :: incoming[i] == rest[i - 1];
    assert forall i | 0 <= i < |rest| :: rest[i] == incoming[i + 1];
  }

  /** The wait ends with what the first connection in time that is not stray brings, and with a timeout if
      there is none. */
  lemma {:induction false} TheFirstDecides(lossy: Bytes -> Bytes, incoming: seq<Incoming>, deadline: int,
          expected: Bytes)
    ensures forall k | DecidesAt(lossy, incoming, deadline, expected, k) ::
              EndsWith(lossy, incoming[k], expected, Await(lossy, incoming, deadline, expected))
    ensures (forall k :: !DecidesAt(lossy, incoming, deadline, expected, k)) ==>
              Await(lossy, incoming, deadline, expected) == Failed(TimedOut)
  {
    if incoming != [] && incoming[0].at < deadline {
      StrayOrDecisive(lossy, incoming[0], expected);
      if Stray(lossy, incoming[0], expected) {
        TheFirstDecides(lossy, incoming[1..], deadline, expected);
        DecidesStepsBack(lossy, incoming, deadline, expected);
      } else {
        assert DecidesAt(lossy, incoming, deadline, expected, 0);
      }
    }
  }

  predicate Silent(c: Incoming) {
    c.Connection? && c.received.Silence?
  }

  /** What reaches the listener, less the connections on which nothing comes. */
  function Heard(incoming: seq<Incoming>): seq<Incoming> {
    if incoming == [] then []
    else if Silent(incoming[0]) then Heard(incoming[1..])
    else [incoming[0]] + Heard(incoming[1..])
  }

  predicate InOrder(incoming: seq<Incoming>) {
    forall i, j | 0 <= i < j < |incoming| :: incoming[i].at <= incoming[j].at
  }

  /** A silent connection is the first in time that is not stray. */
  ghost predicate SilenceDecides(lossy: Bytes -> Bytes, incoming: seq<Incoming>, deadline: int, expected: Bytes) {
    exists k :: DecidesAt(lossy, incoming, deadline, expected, k) && Silent(incoming[k])
  }

  lemma {:induction false} HeardReturns(lossy: Bytes -> Bytes, incoming: seq<Incoming>, deadline: int, expected: Bytes)
    ensures Await(lossy, Heard(incoming), deadline, expected) != NeverReturns
  {
    if incoming != [] {
      HeardReturns(lossy, incoming[1..], deadline, expected);
      assert ([incoming[0]] + Heard(incoming[1..]))[1..] == Heard(incoming[1..]);
    }
  }

  /** Too late for the first is too late for all that follow. */
  lemma {:induction false} LateIsLate(lossy: Bytes -> Bytes, incoming: seq<Incoming>, deadline: int, expected: Bytes)
    requires InOrder(incoming) && (incoming != [] ==> deadline <= incoming[0].at)
    ensures Await(lossy, Heard(incoming), deadline, expected) == Failed(TimedOut)
  {
    if incoming != [] && Silent(incoming[0]) {
      LateIsLate(lossy, incoming[1..], deadline, expected);
    }
  }

  lemma SilenceStepsBack(lossy: Bytes -> Bytes, incoming: seq<Incoming>, deadline: int, expected: Bytes)
    requires incoming != [] && incoming[0].at < deadline && Stray(lossy, incoming[0], expected)
    ensures SilenceDecides(lossy, incoming, deadline, expected) <==>
              SilenceDecides(lossy, incoming[1..], deadline, expected)
  {
    DecidesStepsBack(lossy, incoming, deadline, expected);
    if k :| DecidesAt(lossy, incoming, deadline, expected, k) && Silent(incoming[k]) {
      assert DecidesAt(lossy, incoming[1..], deadline, expected, k - 1) && Silent(incoming[1..][k - 1]);
    }
    if k :| DecidesAt(lossy, incoming[1..], deadline, expected, k) && Silent(incoming[1..][k]) {
      assert DecidesAt(lossy, incoming, deadline, expected, k + 1) && Silent(incoming[k + 1]);
    }
  }

  /** The deadline and the other connections decide as if the silent ones had never come, if and only
      if no silent one is accepted before they do; otherwise the wait never ends. */
  lemma {:induction false} SilenceHoldsTheListener(lossy: Bytes -> Bytes, incoming: seq<Incoming>, deadline: int,
                                                   expected: Bytes)
    requires InOrder(incoming)
    ensures Await(lossy, incoming, deadline, expected) == NeverReturns <==>
              SilenceDecides(lossy, incoming, deadline, expected)
    ensures Await(lossy, incoming, deadline, expected) == Await(lossy, Heard(incoming), deadline, expected) <==>
              !SilenceDecides(lossy, incoming, deadline, expected)
  {
    HeardReturns(lossy, incoming, deadline, expected);
    if incoming != [] {
      StrayOrDecisive(lossy, incoming[0], expected);
    }
    if incoming == [] || deadline <= incoming[0].at {
      LateIsLate(lossy, incoming, deadline, expected);
    } else if OutcomeOf(lossy, incoming[0], expected).Some? {
      assert DecidesAt(lossy, incoming, deadline, expected, 0);
      TheFirstDecides(lossy, incoming, deadline, expected);
    } else {
      SilenceHoldsTheListener(lossy, incoming[1..], deadline, expected);
      SilenceStepsBack(lossy, incoming, deadline, expected);
      assert ([incoming[0]] + Heard(incoming[1..]))[1..] == Heard(incoming[1..]);
    }
  }

  // ----- a request as it is printed -----

  function Pair(p: (Bytes, Bytes)): Bytes {
    p.0 + [EQUALS] + p.1
  }

  function Query(params: seq<(Bytes, Bytes)>): Bytes {
    if params == [] then []
    else if |params| == 1 then Pair(params[0])
    else Pair(params[0]) + [AMPERSAND] + Query(params[1..])
  }

  /** The request a browser makes for `path?query`: a method, the target, and whatever follows. */
  function Printed(verb: Bytes, path: Bytes, params: seq<(Bytes, Bytes)>, rest: Bytes): Bytes {
    verb + [SPACE] + (path + [QUESTION] + Query(params)) + [SPACE] + rest
  }

  /** The same parameters with their values percent-encoded. */
  function Encoded(params: seq<(Bytes, Bytes)>): (r: seq<(Bytes, Bytes)>)
    ensures |r| == |params|
  {
    seq(|params|, i requires 0 <= i < |params| => (params[i].0, Encode(params[i].1)))
  }

  function LastValue(params: seq<(Bytes, Bytes)>, key: Bytes): Option<Bytes> {
    if params == [] then None
    else if params[|params| - 1].0 == key then Some(params[|params| - 1].1)
    else LastValue(params[..|params| - 1], key)
  }

  ghost predicate Solid(s: Bytes) {
    forall b | b in s :: !Blank(b)
  }
}
