/** What is printed into a callback is what the listener reads out of it. */
module OAuthRoundTrip {
  import opened Prelude
  import opened Framing
  import opened PercentEncoding
  import opened OAuthLoopback

  lemma CutAt(front: Bytes, more: Bytes, b: Byte)
    requires b !in front
    ensures var s := front + [b] + more;
            b in s && IndexOf(s, b) == |front| && s[..|front|] == front && s[|front| + 1..] == more
  {
    IndexPast(front, [b] + more, b);
    assert front + ([b] + more) == front + [b] + more;
  }

  /** Blanks inside a line. */
  predicate Blanks(s: Bytes) {
    forall b | b in s :: Blank(b) && b != NL
  }

  predicate EndsAWord(s: Bytes) {
    s == [] || Blank(s[0])
  }

  lemma {:induction false} BlankAfter(w: Bytes, more: Bytes)
    requires Solid(w) && EndsAWord(more)
    ensures BlankAt(w + more) == |w|
  {
    if w == [] {
      assert w + more == more;
    } else {
      assert (w + more)[1..] == w[1..] + more;
      BlankAfter(w[1..], more);
    }
  }

  lemma {:induction false} TrimBlanks(b: Bytes, s: Bytes)
    requires Blanks(b) && (s == [] || !Blank(s[0]))
    ensures Trim(b + s) == s
  {
    if b == [] {
      assert b + s == s;
    } else {
      assert b[0] in b && forall x | x in b[1..] :: x in b;
      assert (b + s)[1..] == b[1..] + s;
      TrimBlanks(b[1..], s);
    }
  }

  /** The next word is what stands between blanks. */
  lemma WordBetweenBlanks(b: Bytes, w: Bytes, more: Bytes)
    requires Blanks(b) && Solid(w) && w != [] && EndsAWord(more)
    ensures Word(b + w + more) == (w, more)
  {
    assert w[0] in w;
    assert b + w + more == b + (w + more);
    TrimBlanks(b, w + more);
    BlankAfter(w, more);
  }

  lemma NoWordInBlanks(b: Bytes)
    requires Blanks(b)
    ensures Word(b) == ([], [])
  {
    TrimBlanks(b, []);
    assert b + [] == b;
  }

  lemma FirstLineOf(front: Bytes, tail: Bytes) returns (end: Bytes)
    requires NL !in front
    ensures FirstLine(front + tail) == front + end
    ensures tail == [] || tail[0] == NL ==> end == []
    ensures EndsAWord(tail) ==> EndsAWord(end)
  {
    IndexPast(front, tail, NL);
    end := tail[..IndexOf(tail, NL)];
  }

  /** The target is the second word of the first line, whatever blanks stand around it. */
  lemma TargetIsTheSecondWord(b0: Bytes, verb: Bytes, b1: Bytes, target: Bytes, tail: Bytes)
    requires Blanks(b0) && Solid(verb) && verb != [] && Blanks(b1) && b1 != []
    requires Solid(target) && target != [] && EndsAWord(tail)
    ensures Target(b0 + verb + b1 + target + tail) == target
  {
    var front := b0 + verb + b1 + target;
    forall b | b in front
      ensures b != NL
    {
      assert b in b0 || b in verb || b in b1 || b in target;
    }
    var end := FirstLineOf(front, tail);
    var after := b1 + target + end;
    assert b1[0] in b1;
    assert front + end == b0 + verb + after;
    WordBetweenBlanks(b0, verb, after);
    WordBetweenBlanks(b1, target, end);
  }

  /** A first line with fewer than two words has none, whatever the other lines say: the request is stray. */
  lemma OneWordHasNoTarget(lossy: Bytes -> Bytes, b0: Bytes, verb: Bytes, b1: Bytes, tail: Bytes, expected: Bytes)
    requires Blanks(b0) && Solid(verb) && Blanks(b1) && (tail == [] || tail[0] == NL)
    ensures Target(b0 + verb + b1 + tail) == []
    ensures VerdictOn(lossy, b0 + verb + b1 + tail, expected) == Spurious
  {
    var front := b0 + verb + b1;
    forall b | b in front
      ensures b != NL
    {
      assert b in b0 || b in verb || b in b1;
    }
    var end := FirstLineOf(front, tail);
    assert front + end == front;
    if verb == [] {
      forall b | b in front
        ensures Blank(b)
      {
        assert b in b0 || b in b1;
      }
      NoWordInBlanks(front);
      assert Target(front + tail) == Word([]).0 == [];
    } else {
      assert b1 == [] || b1[0] in b1;
      WordBetweenBlanks(b0, verb, b1);
      NoWordInBlanks(b1);
    }
    NothingAsked();
    NoParameters(lossy, CODE);
    NoParameters(lossy, STATE);
    NoParameters(lossy, ERROR);
  }

  lemma TargetOf(verb: Bytes, target: Bytes, rest: Bytes)
    requires Solid(verb) && verb != [] && Solid(target) && target != []
    ensures Target(verb + [SPACE] + target + [SPACE] + rest) == target
  {
    assert [] + verb + [SPACE] + target + ([SPACE] + rest) == verb + [SPACE] + target + [SPACE] + rest;
    TargetIsTheSecondWord([], verb, [SPACE], target, [SPACE] + rest);
  }

  function Pairs(params: seq<(Bytes, Bytes)>): seq<Bytes> {
    seq(|params|, i requires 0 <= i < |params| => Pair(params[i]))
  }

  /** Text that can stand in a query: no blank and no ampersand. A name has no equals sign either. */
  predicate Fits(s: Bytes) {
    forall b | b in s :: !Blank(b) && b != AMPERSAND
  }

  ghost predicate Fitting(params: seq<(Bytes, Bytes)>) {
    forall i | 0 <= i < |params| :: Fits(params[i].0) && EQUALS !in params[i].0 && Fits(params[i].1)
  }

  /** A value may have equals signs of its own. */
  lemma PairReadsBack(lossy: Bytes -> Bytes, p: (Bytes, Bytes))
    requires EQUALS !in p.0
    ensures KeyOf(Pair(p)) == p.0 && ValueOf(lossy, Pair(p)) == lossy(Decode(p.1))
  {
    CutAt(p.0, p.1, EQUALS);
  }

  /** A name alone has an empty value. */
  lemma ANameAlone(lossy: Bytes -> Bytes, name: Bytes)
    requires EQUALS !in name
    ensures KeyOf(name) == name && ValueOf(lossy, name) == lossy([])
  {
  }

  lemma PairFits(p: (Bytes, Bytes))
    requires Fits(p.0) && Fits(p.1)
    ensures Solid(Pair(p)) && AMPERSAND !in Pair(p)
  {
    forall b | b in Pair(p)
      ensures !Blank(b) && b != AMPERSAND
    {
      assert b in p.0 || b == EQUALS || b in p.1;
    }
  }

  lemma SolidJoin(a: Bytes, b: Byte, c: Bytes)
    requires Solid(a) && !Blank(b) && Solid(c)
    ensures Solid(a + [b] + c)
  {
  }

  lemma PairsCons(params: seq<(Bytes, Bytes)>)
    requires params != []
    ensures Pairs(params) == [Pair(params[0])] + Pairs(params[1..])
  {
  }

  lemma {:induction false} PiecesOfQuery(params: seq<(Bytes, Bytes)>)
    requires params != [] && Fitting(params)
    ensures Pieces(Query(params), AMPERSAND) == Pairs(params)
  {
    PairFits(params[0]);
    PairsCons(params);
    if |params| == 1 {
      assert Pairs(params[1..]) == [];
    } else {
      PiecesOfQuery(params[1..]);
      PiecesStep(Pair(params[0]), Query(params[1..]), AMPERSAND);
    }
  }

  lemma {:induction false} QueryIsSolid(params: seq<(Bytes, Bytes)>)
    requires Fitting(params)
    ensures Solid(Query(params))
  {
    if params != [] {
      PairFits(params[0]);
      QueryIsSolid(params[1..]);
      SolidJoin(Pair(params[0]), AMPERSAND, Query(params[1..]));
    }
  }

  lemma PiecesStep(front: Bytes, more: Bytes, b: Byte)
    requires b !in front
    ensures Pieces(front + [b] + more, b) == [front] + Pieces(more, b)
  {
    CutAt(front, more, b);
  }

  /** A value as it is read: percent-decoded, and then as UTF-8; missing stays missing. */
  function Read(lossy: Bytes -> Bytes, value: Option<Bytes>): Option<Bytes> {
    match value case Some(v) => Some(lossy(Decode(v))) case None => None
  }

  lemma {:induction false} FieldIsLastValue(lossy: Bytes -> Bytes, params: seq<(Bytes, Bytes)>, key: Bytes)
    requires Fitting(params)
    ensures Field(lossy, Pairs(params), key) == Read(lossy, LastValue(params, key))
  {
    if params != [] {
      var init := params[..|params| - 1];
      FieldIsLastValue(lossy, init, key);
      PairReadsBack(lossy, params[|params| - 1]);
      assert Pairs(params)[..|params| - 1] == Pairs(init);
    }
  }

  lemma NoParameters(lossy: Bytes -> Bytes, key: Bytes)
    requires key != []
    ensures Field(lossy, Pieces([], AMPERSAND), key) == None
  {
    var pieces := Pieces([], AMPERSAND);
    assert pieces == [[]] && pieces[..0] == [];
  }

  /** The verdict by these values: a provider's error goes first, then the state must be the one expected,
      then there must be a code. */
  ghost predicate Says(v: Verdict, code: Option<Bytes>, state: Option<Bytes>, error: Option<Bytes>, expected: Bytes) {
    && (forall e :: v == ProviderError(e) <==> error == Some(e))
    && (forall c :: v == Captured(c) <==> error == None && state == Some(expected) && code == Some(c))
  }

  /** Whatever parameters are printed into a request, percent-encoded or not, however often and in whatever
      order, the verdict is by the last value printed for each name; a request that is not UTF-8 is
      spurious. */
  lemma VerdictIsByLastValues(lossy: Bytes -> Bytes, verb: Bytes, path: Bytes, params: seq<(Bytes, Bytes)>,
                              rest: Bytes, expected: Bytes)
    requires Solid(verb) && verb != [] && Solid(path) && QUESTION !in path && Fitting(params)
    ensures var req := Printed(verb, path, params, rest);
            if lossy(req) == req
            then Says(VerdictOn(lossy, req, expected), Read(lossy, LastValue(params, CODE)),
                      Read(lossy, LastValue(params, STATE)), Read(lossy, LastValue(params, ERROR)), expected)
            else VerdictOn(lossy, req, expected) == Spurious
  {
    var target := path + [QUESTION] + Query(params);
    if params != [] {
      PiecesOfQuery(params);
    }
    QueryIsSolid(params);
    NoParameters(lossy, CODE);
    NoParameters(lossy, STATE);
    NoParameters(lossy, ERROR);
    NothingAsked();
    TargetOf(verb, target, rest);
    CutAt(path, Query(params), QUESTION);
    FieldIsLastValue(lossy, params, CODE);
    FieldIsLastValue(lossy, params, STATE);
    FieldIsLastValue(lossy, params, ERROR);
  }

  lemma NothingAsked()
    ensures After(Target([]), QUESTION) == []
  {
  }

  // ----- what is printed is UTF-8 -----

  predicate Ascii(s: Bytes) {
    forall b | b in s :: b < 128
  }

  /** What decoding is taken to keep: single bytes of ASCII, and strings put together from strings it keeps. */
  ghost predicate KeepsText(lossy: Bytes -> Bytes) {
    && lossy([]) == []
    && (forall b: Byte | b < 128 :: lossy([b]) == [b])
    && (forall s, t | lossy(s) == s && lossy(t) == t :: lossy(s + t) == s + t)
  }

  lemma {:induction false} AsciiIsKept(lossy: Bytes -> Bytes, s: Bytes)
    requires KeepsText(lossy) && Ascii(s)
    ensures lossy(s) == s
  {
    if s != [] {
      assert s == [s[0]] + s[1..] && s[0] in s;
      assert Ascii(s[1..]) by {
        assert forall b | b in s[1..] :: b in s;
      }
      AsciiIsKept(lossy, s[1..]);
      assert lossy([s[0]]) == [s[0]];
    }
  }

  ghost predicate AsciiParams(params: seq<(Bytes, Bytes)>) {
    forall i | 0 <= i < |params| :: Ascii(params[i].0) && Ascii(params[i].1)
  }

  lemma {:induction false} QueryIsAscii(params: seq<(Bytes, Bytes)>)
    requires AsciiParams(params)
    ensures Ascii(Query(params))
  {
    if params != [] {
      QueryIsAscii(params[1..]);
    }
  }

  /** A name that needs no encoding. */
  predicate Plain(name: Bytes) {
    forall b | b in name :: Alphanumeric(b)
  }

  /** Percent-encoded values fit into a query, and are ASCII. */
  lemma EncodedFits(params: seq<(Bytes, Bytes)>)
    requires forall i | 0 <= i < |params| :: Plain(params[i].0)
    ensures Fitting(Encoded(params)) && AsciiParams(Encoded(params))
  {
    forall i | 0 <= i < |params|
      ensures Fits(Encode(params[i].1)) && Ascii(Encode(params[i].1))
      ensures Fits(params[i].0) && EQUALS !in params[i].0 && Ascii(params[i].0)
    {
      EncodedIsPlain(params[i].1);
    }
  }

  lemma {:induction false} LastEncodedValue(params: seq<(Bytes, Bytes)>, name: Bytes)
    ensures LastValue(Encoded(params), name) ==
              match LastValue(params, name) case Some(v) => Some(Encode(v)) case None => None
  {
    if params != [] {
      LastEncodedValue(params[..|params| - 1], name);
      assert Encoded(params)[..|params| - 1] == Encoded(params[..|params| - 1]);
    }
  }

  lemma JoinedIsKept(lossy: Bytes -> Bytes, s: Bytes, b: Byte, t: Bytes)
    requires KeepsText(lossy) && b < 128 && lossy(s) == s && lossy(t) == t
    ensures lossy(s + [b] + t) == s + [b] + t
  {
    assert lossy([b]) == [b];
    assert lossy(s + [b]) == s + [b];
  }

  /** With ASCII parameters, the request is UTF-8 if its method, path and remainder are. */
  lemma PrintedIsKept(lossy: Bytes -> Bytes, verb: Bytes, path: Bytes, params: seq<(Bytes, Bytes)>, rest: Bytes)
    requires KeepsText(lossy) && lossy(verb) == verb && lossy(path) == path && lossy(rest) == rest
    requires AsciiParams(params)
    ensures var req := Printed(verb, path, params, rest); lossy(req) == req
  {
    QueryIsAscii(params);
    AsciiIsKept(lossy, Query(params));
    var target := path + [QUESTION] + Query(params);
    JoinedIsKept(lossy, path, QUESTION, Query(params));
    JoinedIsKept(lossy, verb, SPACE, target);
    JoinedIsKept(lossy, verb + [SPACE] + target, SPACE, rest);
  }

  /** For every code and state in UTF-8, and every method, path and remainder in UTF-8: the callback the
      provider is asked to make is captured, with that code, by the listener that expects that state and
      by no other. */
  lemma CallbackRoundTrip(lossy: Bytes -> Bytes, verb: Bytes, path: Bytes, code: Bytes, state: Bytes,
                          rest: Bytes, expected: Bytes)
    requires Solid(verb) && verb != [] && Solid(path) && QUESTION !in path
    requires KeepsText(lossy) && lossy(verb) == verb && lossy(path) == path && lossy(rest) == rest
    requires lossy(code) == code && lossy(state) == state
    ensures VerdictOn(lossy, Printed(verb, path, Encoded([(CODE, code), (STATE, state)]), rest), expected)
            == if state == expected then Captured(code) else Spurious
    ensures VerdictOn(lossy, Printed(verb, path, Encoded([(STATE, state), (CODE, code)]), rest), expected)
            == if state == expected then Captured(code) else Spurious
  {
    CallbackVerdict(lossy, verb, path, [(CODE, code), (STATE, state)], rest, expected);
    CallbackVerdict(lossy, verb, path, [(STATE, state), (CODE, code)], rest, expected);
    NamesDiffer();
    forall key
      ensures LastValue([(CODE, code), (STATE, state)], key)
              == LastValue([(STATE, state), (CODE, code)], key)
              == if key == CODE then Some(code) else if key == STATE then Some(state) else None
    {
      LastOfTwo((CODE, code), (STATE, state), key);
      LastOfTwo((STATE, state), (CODE, code), key);
    }
  }

  function AsText(lossy: Bytes -> Bytes, value: Option<Bytes>): Option<Bytes> {
    match value case Some(v) => Some(lossy(v)) case None => None
  }

  lemma CallbackVerdict(lossy: Bytes -> Bytes, verb: Bytes, path: Bytes, params: seq<(Bytes, Bytes)>,
                        rest: Bytes, expected: Bytes)
    requires Solid(verb) && verb != [] && Solid(path) && QUESTION !in path
    requires forall i | 0 <= i < |params| :: Plain(params[i].0)
    requires KeepsText(lossy) && lossy(verb) == verb && lossy(path) == path && lossy(rest) == rest
    ensures Says(VerdictOn(lossy, Printed(verb, path, Encoded(params), rest), expected),
                 AsText(lossy, LastValue(params, CODE)), AsText(lossy, LastValue(params, STATE)),
                 AsText(lossy, LastValue(params, ERROR)), expected)
  {
    EncodedFits(params);
    VerdictIsByLastValues(lossy, verb, path, Encoded(params), rest, expected);
    PrintedIsKept(lossy, verb, path, Encoded(params), rest);
    forall name
      ensures Read(lossy, LastValue(Encoded(params), name)) == AsText(lossy, LastValue(params, name))
    {
      LastEncodedValue(params, name);
      if LastValue(params, name).Some? {
        DecodeEncode(LastValue(params, name).value);
      }
    }
  }

  /** A callback that carries an error ends the wait with that error, whatever else it carries, if only
      stray connections came before it and all in time. */
  lemma ARefusalEndsTheWait(lossy: Bytes -> Bytes, verb: Bytes, path: Bytes, params: seq<(Bytes, Bytes)>,
                            rest: Bytes, expected: Bytes, error: Bytes, incoming: seq<Incoming>, deadline: int, k: nat)
    requires Solid(verb) && verb != [] && Solid(path) && QUESTION !in path
    requires forall i | 0 <= i < |params| :: Plain(params[i].0)
    requires KeepsText(lossy) && lossy(verb) == verb && lossy(path) == path && lossy(rest) == rest
    requires LastValue(params, ERROR) == Some(error) && lossy(error) == error
    requires k < |incoming| && forall i | 0 <= i <= k :: incoming[i].at < deadline
    requires forall i | 0 <= i < k :: Stray(lossy, incoming[i], expected)
    requires incoming[k].Connection? && incoming[k].received == Request(Printed(verb, path, Encoded(params), rest))
    ensures Await(lossy, incoming, deadline, expected) == Failed(Provider(error))
  {
    RefusalIsSaid(lossy, verb, path, params, rest, expected, error);
    TheFirstDecides(lossy, incoming, deadline, expected);
    assert DecidesAt(lossy, incoming, deadline, expected, k);
  }

  lemma RefusalIsSaid(lossy: Bytes -> Bytes, verb: Bytes, path: Bytes, params: seq<(Bytes, Bytes)>,
                      rest: Bytes, expected: Bytes, error: Bytes)
    requires Solid(verb) && verb != [] && Solid(path) && QUESTION !in path
    requires forall i | 0 <= i < |params| :: Plain(params[i].0)
    requires KeepsText(lossy) && lossy(verb) == verb && lossy(path) == path && lossy(rest) == rest
    requires LastValue(params, ERROR) == Some(error) && lossy(error) == error
    ensures VerdictOn(lossy, Printed(verb, path, Encoded(params), rest), expected) == ProviderError(error)
  {
    CallbackVerdict(lossy, verb, path, params, rest, expected);
    assert AsText(lossy, LastValue(params, ERROR)) == Some(error);
  }

  lemma NamesDiffer()
    ensures CODE != STATE && CODE != ERROR && STATE != ERROR
  {
    assert CODE[0] != STATE[0] && CODE[0] != ERROR[0] && STATE[0] != ERROR[0];
  }

  lemma LastOfTwo(a: (Bytes, Bytes), b: (Bytes, Bytes), key: Bytes)
    ensures LastValue([a, b], key) == if b.0 == key then Some(b.1) else if a.0 == key then Some(a.1) else None
  {
    assert [a, b][..1] == [a] && [a][..0] == [];
    assert LastValue([a], key) == if a.0 == key then Some(a.1) else None;
  }
}
