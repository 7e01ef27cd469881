/** The authenticated HTTP client of one account: refresh before expiry and after a 401, keep a
    rotated refresh token in memory and hand it to the keychain. */
module TokenRefresh {
  import opened Prelude

  datatype Tokens = Tokens(access: string, refresh: Option<string>, expiresAt: int)

  /** The token endpoint's reply to a refresh. */
  datatype Reply = Denied | Granted(access: string, refresh: Option<string>, expiresAt: int)

  /** A client's tokens, whether it has a rotation callback, and what the keychain holds. */
  datatype Account = Account(tokens: Tokens, notify: bool, keychain: Option<string>)

  /** One visit to the token endpoint: the token presented, the reply, and whether the keychain
      would take a write then. */
  datatype Exchange = Exchange(presented: string, reply: Reply, writable: bool)

  function Store(t: Tokens, g: Reply): Tokens
    requires g.Granted?
  {
    Tokens(g.access, if g.refresh.Some? then g.refresh else t.refresh, g.expiresAt)
  }

  /** The token the callback is given: one that differs from the one presented. */
  function Rotated(x: Exchange): Option<string> {
    if x.reply.Granted? && x.reply.refresh.Some? && x.reply.refresh.value != x.presented then x.reply.refresh
    else None
  }

  function Apply(a: Account, x: Exchange): Account {
    if x.reply.Denied? then a
    else
      a.(tokens := Store(a.tokens, x.reply),
         keychain := if a.notify && x.writable && Rotated(x).Some? then Rotated(x) else a.keychain)
  }

  /** What the world does during one `ensure_fresh` and the request after it. */
  datatype Attempt = Attempt(now: int, reply: Reply, writable: bool, status: Option<int>)

  /** The exchange one `ensure_fresh` makes, if it makes one. */
  function ExchangeOf(t: Tokens, w: Attempt): seq<Exchange> {
    if t.expiresAt <= w.now && t.refresh.Some? then [Exchange(t.refresh.value, w.reply, w.writable)] else []
  }

  /** Whether `ensure_fresh` succeeds. */
  predicate Freshens(t: Tokens, w: Attempt) {
    w.now < t.expiresAt || (t.refresh.Some? && w.reply.Granted?)
  }

  function ApplyAll(a: Account, xs: seq<Exchange>): Account {
    if xs == [] then a else Apply(ApplyAll(a, xs[..|xs| - 1]), xs[|xs| - 1])
  }

  /** One request to the service: the access token it carried, and the status it got, if it got one. */
  datatype Request = Request(access: string, status: Option<int>)

  /** What one `send` did: its visits to the token endpoint, its requests, and the status it returned,
      if it returned one. */
  datatype Sent = Sent(exchanges: seq<Exchange>, requests: seq<Request>, status: Option<int>)

  const UNAUTHORIZED := 401

  class AuthClient {
    var access: string
    var refresh: Option<string>
    var expiresAt: int
    const notify: bool
    var keychain: Option<string>

    ghost function Value(): Account
      reads this
    {
      Account(Tokens(access, refresh, expiresAt), notify, keychain)
    }

    constructor (tokens: Tokens, notify: bool, keychain: Option<string>)
      ensures Value() == Account(tokens, notify, keychain)
    {
      access, refresh, expiresAt := tokens.access, tokens.refresh, tokens.expiresAt;
      this.notify, this.keychain := notify, keychain;
    }

    method EnsureFresh(w: Attempt) returns (ok: bool, made: seq<Exchange>)
      modifies this
      ensures made == ExchangeOf(old(Value()).tokens, w) && ok == Freshens(old(Value()).tokens, w)
      ensures Value() == ApplyAll(old(Value()), made)
      ensures |made| == if old(expiresAt) <= w.now && old(refresh).Some? then 1 else 0
      ensures |made| == 1 ==> made[0] == Exchange(old(refresh).value, w.reply, w.writable)
      ensures ok <==> w.now < old(expiresAt) || (|made| == 1 && w.reply.Granted?)
      ensures |made| == 0 || w.reply.Denied? ==> Value() == old(Value())
      ensures |made| == 1 && w.reply.Granted? ==>
                && access == w.reply.access && expiresAt == w.reply.expiresAt
                && refresh == (if w.reply.refresh.Some? then w.reply.refresh else old(refresh))
                && keychain == (if w.reply.refresh.Some? && w.reply.refresh != old(refresh) && notify && w.writable
                                then w.reply.refresh else old(keychain))
    {
      if expiresAt > w.now {
        return true, [];
      }
      if refresh.None? {
        return false, [];
      }
      var oldRefresh := refresh.value;
      made := [Exchange(oldRefresh, w.reply, w.writable)];
      assert made[..0] == [];
      if w.reply.Denied? {
        return false, made;
      }
      var rotated := w.reply.refresh;
      access := w.reply.access;
      expiresAt := w.reply.expiresAt;
      if rotated.Some? {
        refresh := rotated;
      }
      if rotated.Some? && rotated.value != oldRefresh && notify && w.writable {
        keychain := rotated;
      }
      return true, made;
    }

    /** `first` and `second` are what happens at the two tries, `forcedAt` the time read in between,
        `clonable` whether the request can be sent twice. */
    method Send(clonable: bool, first: Attempt, forcedAt: int, second: Attempt) returns (sent: Sent)
      requires forcedAt <= second.now
      modifies this
      ensures (Value(), sent) == Sending(old(Value()), clonable, first, forcedAt, second)
    {
      var ok, made := EnsureFresh(first);
      if !ok || !clonable {
        return Sent(made, [], None);
      }
      var requests := [Request(access, first.status)];
      if first.status == Some(UNAUTHORIZED) {
        expiresAt := forcedAt - 1;
        var more;
        ok, more := EnsureFresh(second);
        if !ok {
          return Sent(made + more, requests, None);
        }
        requests := requests + [Request(access, second.status)];
        assert requests == [requests[0], Request(access, second.status)];
        return Sent(made + more, requests, second.status);
      }
      return Sent(made, requests, first.status);
    }
  }

  function Expire(a: Account, at: int): Account {
    a.(tokens := a.tokens.(expiresAt := at))
  }

  function Sending(a: Account, clonable: bool, first: Attempt, forcedAt: int, second: Attempt): (Account, Sent) {
    var made := ExchangeOf(a.tokens, first);
    var a1 := ApplyAll(a, made);
    if !Freshens(a.tokens, first) || !clonable then (a1, Sent(made, [], None))
    else if first.status != Some(UNAUTHORIZED) then
      (a1, Sent(made, [Request(a1.tokens.access, first.status)], first.status))
    else
      var a2 := Expire(a1, forcedAt - 1);
      var more := ExchangeOf(a2.tokens, second);
      var a3 := ApplyAll(a2, more);
      var requests := [Request(a1.tokens.access, first.status)];
      if !Freshens(a2.tokens, second) then (a3, Sent(made + more, requests, None))
      else (a3, Sent(made + more, requests + [Request(a3.tokens.access, second.status)], second.status))
  }

  // ----- what sends keep -----

  datatype Try = Try(clonable: bool, first: Attempt, forcedAt: int, second: Attempt)

  /** A sequence of sends, one after the other: the account they leave, and what they did. */
  function Life(a: Account, tries: seq<Try>): (Account, seq<Sent>) {
    if tries == [] then (a, [])
    else
      var (before, log) := Life(a, tries[..|tries| - 1]);
      var t := tries[|tries| - 1];
      var (after, sent) := Sending(before, t.clonable, t.first, t.forcedAt, t.second);
      (after, log + [sent])
  }

  function Exchanges(log: seq<Sent>): seq<Exchange> {
    if log == [] then [] else Exchanges(log[..|log| - 1]) + log[|log| - 1].exchanges
  }

  /** The refresh token the provider issued last. */
  function LastIssued(initial: Option<string>, xs: seq<Exchange>): Option<string> {
    if xs == [] then initial
    else
      var x := xs[|xs| - 1];
      if x.reply.Granted? && x.reply.refresh.Some? then x.reply.refresh
      else LastIssued(initial, xs[..|xs| - 1])
  }

  function LastAccess(initial: string, xs: seq<Exchange>): string {
    if xs == [] then initial
    else
      var x := xs[|xs| - 1];
      if x.reply.Granted? then x.reply.access else LastAccess(initial, xs[..|xs| - 1])
  }

  /** Each exchange presents the refresh token issued last. */
  ghost predicate PresentsTheLatest(initial: Option<string>, xs: seq<Exchange>) {
    forall i | 0 <= i < |xs| :: LastIssued(initial, xs[..i]) == Some(xs[i].presented)
  }

  /** The account is the sum of the exchanges made. */
  ghost predicate Explains(a0: Account, xs: seq<Exchange>, a: Account) {
    && a.notify == a0.notify
    && a.tokens.refresh == LastIssued(a0.tokens.refresh, xs)
    && a.tokens.access == LastAccess(a0.tokens.access, xs)
    && PresentsTheLatest(a0.tokens.refresh, xs)
    && (a0.notify && a0.keychain == a0.tokens.refresh && (forall i | 0 <= i < |xs| :: xs[i].writable) ==>
          a.keychain == a.tokens.refresh)
  }

  lemma OneMoreExchange(a0: Account, xs: seq<Exchange>, a: Account, w: Attempt)
    requires Explains(a0, xs, a)
    ensures var made := ExchangeOf(a.tokens, w);
            Explains(a0, xs + made, ApplyAll(a, made))
  {
    var made := ExchangeOf(a.tokens, w);
    if made == [] {
      assert xs + made == xs;
    } else {
      assert made[..0] == [];
      ApplyExplained(a0, xs, a, made[0]);
    }
  }

  lemma ApplyExplained(a0: Account, xs: seq<Exchange>, a: Account, x: Exchange)
    requires Explains(a0, xs, a) && a.tokens.refresh == Some(x.presented)
    ensures Explains(a0, xs + [x], Apply(a, x))
  {
    var xs' := xs + [x];
    assert xs'[..|xs|] == xs && xs'[|xs|] == x;
    forall i | 0 <= i < |xs'|
      ensures LastIssued(a0.tokens.refresh, xs'[..i]) == Some(xs'[i].presented)
    {
      if i < |xs| {
        assert xs'[..i] == xs[..i];
      }
    }
    assert (forall i | 0 <= i < |xs'| :: xs'[i].writable) ==> x.writable && forall i | 0 <= i < |xs| :: xs[i].writable;
  }

  lemma SendingExplained(a0: Account, xs: seq<Exchange>, a: Account, t: Try)
    requires Explains(a0, xs, a)
    ensures var (a', sent) := Sending(a, t.clonable, t.first, t.forcedAt, t.second);
            Explains(a0, xs + sent.exchanges, a')
  {
    var made := ExchangeOf(a.tokens, t.first);
    var a1 := ApplyAll(a, made);
    OneMoreExchange(a0, xs, a, t.first);
    var r := Sending(a, t.clonable, t.first, t.forcedAt, t.second);
    if Freshens(a.tokens, t.first) && t.clonable && t.first.status == Some(UNAUTHORIZED) {
      var more := ExchangeOf(Expire(a1, t.forcedAt - 1).tokens, t.second);
      RetryExplained(a0, xs, made, a1, t);
      assert r.1.exchanges == made + more && r.0 == ApplyAll(Expire(a1, t.forcedAt - 1), more);
    } else {
      assert r.1.exchanges == made && r.0 == a1;
    }
  }

  lemma RetryExplained(a0: Account, xs: seq<Exchange>, made: seq<Exchange>, a1: Account, t: Try)
    requires Explains(a0, xs + made, a1)
    ensures var a2 := Expire(a1, t.forcedAt - 1);
            var more := ExchangeOf(a2.tokens, t.second);
            Explains(a0, xs + (made + more), ApplyAll(a2, more))
  {
    var a2 := Expire(a1, t.forcedAt - 1);
    var more := ExchangeOf(a2.tokens, t.second);
    OneMoreExchange(a0, xs + made, a2, t.second);
    assert xs + made + more == xs + (made + more);
  }

  /** For any sends that do not overlap and any replies: the client holds, and each time presents,
      the refresh token issued last; and while the keychain can be written, so does the keychain. */
  lemma {:induction false} KeychainFollowsMemory(a0: Account, tries: seq<Try>)
    ensures var (a, log) := Life(a0, tries);
            var xs := Exchanges(log);
            && Explains(a0, xs, a)
            && a.tokens.refresh == LastIssued(a0.tokens.refresh, xs)
            && (forall i | 0 <= i < |xs| :: LastIssued(a0.tokens.refresh, xs[..i]) == Some(xs[i].presented))
            && (a0.notify && a0.keychain == a0.tokens.refresh && (forall i | 0 <= i < |xs| :: xs[i].writable) ==>
                  a.keychain == a.tokens.refresh)
  {
    if tries != [] {
      var init, t := tries[..|tries| - 1], tries[|tries| - 1];
      KeychainFollowsMemory(a0, init);
      var (a, log) := Life(a0, init);
      SendingExplained(a0, Exchanges(log), a, t);
      var sent := Sending(a, t.clonable, t.first, t.forcedAt, t.second).1;
      assert (log + [sent])[..|log|] == log;
    }
  }

  /** One send: at most two requests and two refreshes; a second request only after a 401 and a
      refresh granted since; every request carries the access token granted last. */
  lemma AtMostOneRetry(a: Account, t: Try)
    requires t.first.now <= t.forcedAt <= t.second.now
    ensures var sent := Sending(a, t.clonable, t.first, t.forcedAt, t.second).1;
            var made := ExchangeOf(a.tokens, t.first);
            && |sent.requests| <= 2 && |sent.exchanges| <= 2 && made <= sent.exchanges
            && (|sent.requests| >= 1 ==> sent.requests[0].access == LastAccess(a.tokens.access, made))
            && (|sent.requests| == 2 ==>
                  && t.first.status == Some(UNAUTHORIZED)
                  && |sent.exchanges| == |made| + 1
                  && sent.exchanges[|made|].reply.Granted?
                  && sent.requests[1].access == sent.exchanges[|made|].reply.access)
            && (sent.status == Some(UNAUTHORIZED) ==> |sent.requests| == 2)
            && (|sent.requests| == 0 ==> sent.status == None)
  {
    var made := ExchangeOf(a.tokens, t.first);
    assert made[..0] == [];
    var a1 := ApplyAll(a, made);
    var more := ExchangeOf(Expire(a1, t.forcedAt - 1).tokens, t.second);
    assert more[..0] == [];
    assert made <= made + more;
  }

  /** What one send asks, and whose status it returns: nothing is asked without a fresh token and a request
      that can be sent twice; it is asked again exactly after a 401 and a forced refresh that brings a token;
      and the status is that of the request made last, unless that refresh brings none. */
  lemma StatusIsTheLastRequests(a: Account, t: Try)
    requires t.first.now <= t.forcedAt <= t.second.now
    ensures var sent := Sending(a, t.clonable, t.first, t.forcedAt, t.second).1;
            && (|sent.requests| == 0 <==>
                  !t.clonable || (a.tokens.expiresAt <= t.first.now
                      && (a.tokens.refresh.None? || t.first.reply.Denied?)))
            && (|sent.requests| >= 1 ==> sent.requests[0].status == t.first.status)
            && (|sent.requests| >= 1 ==> (|sent.requests| == 2 <==>
                    t.first.status == Some(401) && a.tokens.refresh.Some? && t.second.reply.Granted?))
            && (|sent.requests| == 2 ==> sent.requests[1].status == t.second.status)
            && sent.status ==
                 if sent.requests == [] || (|sent.requests| == 1 && sent.requests[0].status == Some(401)) then None
                 else sent.requests[|sent.requests| - 1].status
  {
    var made := ExchangeOf(a.tokens, t.first);
    var a1 := ApplyAll(a, made);
    assert a1.tokens.refresh.Some? <==> a.tokens.refresh.Some? by {
      assert made[..0] == [];
      assert made != [] ==> a1 == Apply(ApplyAll(a, []), made[0]);
    }
    var a2 := Expire(a1, t.forcedAt - 1);
    assert Freshens(a2.tokens, t.second) <==> a.tokens.refresh.Some? && t.second.reply.Granted?;
  }
}
