/** `enforce` as one task runs it, and the transition system restricted to that task. */
module Enforcement {
  import opened Prelude
  import opened Policies
  import opened Tools
  import opened Approvals
  import opened Gatekeeper
  import opened GatekeeperProofs
  import opened GatekeeperLogs
  import opened GatekeeperRuns

  datatype EnforceOutcome = Proceed | Blocked | ConvertToDraft

  /** The user is asked. */
  predicate Asks(p: Policy, k: Category, trusted: bool) {
    Asked(p, k) && !(p == Session && trusted)
  }

  /** What comes of it, if the user decides `decided` in time, or not. */
  function Enforced(p: Policy, k: Category, trusted: bool, decided: Option<Decision>): EnforceOutcome {
    if Asks(p, k, trusted) then (if decided == Some(Approve) then Proceed else Blocked)
    else match p case Draftify => ConvertToDraft case Block => Blocked case _ => Proceed
  }

  /** The pair becomes trusted by it. */
  predicate Earned(p: Policy, trusted: bool, decided: Option<Decision>) {
    p == Session && !trusted && decided == Some(Approve)
  }

  function Announcements(id: ApprovalId, req: Request, decided: Option<Decision>): seq<ApprovalEvent> {
    match decided
    case None => [Requested(id, req)]
    case Some(d) => [Requested(id, req), Resolved(id, d)]
  }

  /** While this waits, the user decides `decided`, or the timer fires. */
  method AskConfirm(queue: ApprovalQueue, req: Request, id: ApprovalId, decided: Option<Decision>)
    returns (outcome: EnforceOutcome)
    requires queue.Valid() && id !in queue.pending
    modifies queue
    ensures queue.Valid()
    ensures outcome == if decided == Some(Approve) then Proceed else Blocked
    ensures queue.Contents() == Queue(old(queue.pending), old(queue.events) + Announcements(id, req, decided))
  {
    ghost var pending := queue.pending;
    var rx := queue.Enqueue(id, req);
    if decided.Some? {
      var found := queue.Decide(id, decided.value);
    }
    var told := queue.Settle(id, rx);
    assert queue.pending == pending;
    match told.value {
      case Approved => return Proceed;
      case Rejected => return Blocked;
      case TimedOut => return Blocked;
    }
  }

  method Enforce(perms: Permissions, queue: ApprovalQueue, trust: SessionTrust, category: Category, req: Request,
                 id: ApprovalId, decided: Option<Decision>)
    returns (outcome: EnforceOutcome)
    requires queue.Valid() && id !in queue.pending
    modifies queue, trust
    ensures queue.Valid()
    ensures var p, trusted := perms.PolicyFor(category), old(trust.IsTrusted(req.account, category));
            && outcome == Enforced(p, category, trusted, decided)
            && (outcome == ConvertToDraft <==> p == Draftify && category == Category.Send)
            && (outcome == Proceed <==>
                  || p == Allow || (p == Session && trusted)
                  || (decided == Some(Approve)
                      && (p == Confirm || p == Session || (p == Draftify && category != Category.Send))))
            && (trust.IsTrusted(req.account, category) <==> trusted || (p == Session && decided == Some(Approve)))
            && (queue.events == old(queue.events) <==>
                  p == Allow || p == Block || (p == Session && trusted) || (p == Draftify && category == Category.Send))
            && queue.pending == old(queue.pending)
            && queue.events == old(queue.events) +
                 (if Asks(p, category, trusted) then Announcements(id, req, decided) else [])
            && forall a, k :: trust.IsTrusted(a, k) <==>
                 old(trust.IsTrusted(a, k)) || (Earned(p, trusted, decided) && a == req.account && k == category)
  {
    match perms.PolicyFor(category) {
      case Allow => return Proceed;
      case Block => return Blocked;
      case Draftify =>
        if category == Category.Send {
          return ConvertToDraft;
        }
        outcome := AskConfirm(queue, req, id, decided);
      case Confirm => outcome := AskConfirm(queue, req, id, decided);
      case Session =>
        if trust.IsTrusted(req.account, category) {
          return Proceed;
        }
        outcome := AskConfirm(queue, req, id, decided);
        if outcome == Proceed {
          trust.Grant(req.account, category);
        }
    }
  }

  // ----- the transition system agrees -----

  function PcFor(o: EnforceOutcome): Pc {
    match o
    case Proceed => AtExecute
    case Blocked => Done
    case ConvertToDraft => AtDraft
  }

  /** The dispatch waits, its approval is pending, and nothing is in its channel. */
  predicate WaitsAlone(s: State, c: CallId, id: ApprovalId, session: bool) {
    && c in s.calls && s.calls[c].pc == AtWait(id, session)
    && id in s.tickets && s.tickets[id].content.None? && s.tickets[id].receiver
    && id in s.queue.pending
  }

  lemma QueuedAlone(labels: seq<Label>, r: Run, c: CallId, id: ApprovalId)
    returns (labels': seq<Label>, r': Run)
    requires Exec(labels) == Some(r) && c in r.state.calls && r.state.calls[c].pc.AtInsert?
    requires id !in r.state.tickets
    ensures labels <= labels' && Exec(labels') == Some(r')
    ensures WaitsAlone(r'.state, c, id, r.state.calls[c].pc.session)
    ensures r'.state.trust == r.state.trust && r'.state.deciders == r.state.deciders
    ensures var k := r.state.calls[c];
            && RequestOf(r'.state.calls[c]) == RequestOf(k)
            && r'.state.queue == Queue(r.state.queue.pending[id := RequestOf(k)],
                                       r.state.queue.events + [Requested(id, RequestOf(k))])
  {
    labels', r' := Then(labels, r, Approval(c, Insert(id)));
    labels', r' := Then(labels', r', Approval(c, PublishRequest));
  }

  /** The approval is decided, and announced as decided. */
  lemma DecidedAlone(labels: seq<Label>, r: Run, c: CallId, id: ApprovalId, session: bool, x: DeciderId, d: Decision)
    returns (labels': seq<Label>, r': Run)
    requires Exec(labels) == Some(r) && WaitsAlone(r.state, c, id, session) && x !in r.state.deciders
    ensures labels <= labels' && Exec(labels') == Some(r')
    ensures r'.state.trust == r.state.trust && r'.state.calls == r.state.calls
    ensures id in r'.state.tickets && r'.state.tickets[id].content == Some(OutcomeOf(d))
    ensures r'.state.queue == Queue(r.state.queue.pending - {id}, r.state.queue.events + [Resolved(id, d)])
  {
    labels', r' := Then(labels, r, Decide(x, Take(id, d)));
    labels', r' := Then(labels', r', Decide(x, Deliver));
    labels', r' := Then(labels', r', Decide(x, PublishDecision));
  }

  /** Asking, and being told in time, with nothing in between. */
  lemma AskedAlone(labels: seq<Label>, r: Run, c: CallId, id: ApprovalId, x: DeciderId, d: Decision)
    returns (labels': seq<Label>, r': Run)
    requires Exec(labels) == Some(r) && c in r.state.calls && r.state.calls[c].pc.AtInsert?
    requires id !in r.state.tickets && id !in r.state.queue.pending && x !in r.state.deciders
    ensures labels <= labels' && Exec(labels') == Some(r')
    ensures r'.state.trust == r.state.trust && c in r'.state.calls
    ensures var s, k := r.state, r.state.calls[c];
            && r'.state.queue == Queue(s.queue.pending, s.queue.events + Announcements(id, RequestOf(k), Some(d)))
            && RequestOf(r'.state.calls[c]) == RequestOf(k)
            && r'.state.calls[c].pc == (if d == Reject then Done else if k.pc.session then AtGrant(id) else AtExecute)
  {
    labels', r' := QueuedAlone(labels, r, c, id);
    labels', r' := DecidedAlone(labels', r', c, id, r.state.calls[c].pc.session, x, d);
    labels', r' := Then(labels', r', Approval(c, Receive));
    assert r'.state.queue.pending == r.state.queue.pending;
  }

  lemma TimedOutAlone(labels: seq<Label>, r: Run, c: CallId, id: ApprovalId)
    returns (labels': seq<Label>, r': Run)
    requires Exec(labels) == Some(r) && c in r.state.calls && r.state.calls[c].pc.AtInsert?
    requires id !in r.state.tickets && id !in r.state.queue.pending
    ensures labels <= labels' && Exec(labels') == Some(r')
    ensures r'.state.trust == r.state.trust && c in r'.state.calls
    ensures var s, k := r.state, r.state.calls[c];
            && r'.state.queue == Queue(s.queue.pending, s.queue.events + Announcements(id, RequestOf(k), None))
            && RequestOf(r'.state.calls[c]) == RequestOf(k) && r'.state.calls[c].pc == Done
  {
    labels', r' := QueuedAlone(labels, r, c, id);
    labels', r' := Then(labels', r', Approval(c, FireTimer));
    labels', r' := Then(labels', r', Approval(c, CleanUp));
    assert r'.state.queue.pending == r.state.queue.pending;
  }

  /** The dispatch has read its policy, and whether the pair is trusted if that matters. */
  lemma ReadAlone(labels: seq<Label>, r: Run, c: CallId)
    returns (labels': seq<Label>, r': Run)
    requires Exec(labels) == Some(r) && c in r.state.calls && r.state.calls[c].pc == AtPolicy
    ensures labels <= labels' && Exec(labels') == Some(r') && c in r'.state.calls
    ensures r'.state == r.state.(calls := r'.state.calls)
    ensures var s, k := r.state, r.state.calls[c];
            var p, trusted := Effective(s.table, k.account, CategoryOf(k)), Trusted(s.trust, k.account, CategoryOf(k));
            && RequestOf(r'.state.calls[c]) == RequestOf(k)
            && r'.state.calls[c].pc == (if Asks(p, CategoryOf(k), trusted) then AtInsert(p == Session)
                                        else PcFor(Enforced(p, CategoryOf(k), trusted, None)))
  {
    labels', r' := Then(labels, r, Dispatch(c, ReadPolicy));
    if r'.state.calls[c].pc == AtTrust {
      labels', r' := Then(labels', r', Dispatch(c, ReadTrust));
    }
  }

  /** The dispatch asks, and waits for its approval to be decided or its timer to fire. */
  lemma AskingAlone(labels: seq<Label>, r: Run, c: CallId, id: ApprovalId, x: DeciderId, decided: Option<Decision>)
    returns (labels': seq<Label>, r': Run)
    requires Exec(labels) == Some(r) && c in r.state.calls && r.state.calls[c].pc.AtInsert?
    requires id !in r.state.tickets && id !in r.state.queue.pending && x !in r.state.deciders
    ensures labels <= labels' && Exec(labels') == Some(r') && c in r'.state.calls
    ensures var s, k := r.state, r.state.calls[c];
            && r'.state.queue == Queue(s.queue.pending, s.queue.events + Announcements(id, RequestOf(k), decided))
            && RequestOf(r'.state.calls[c]) == RequestOf(k)
            && r'.state.calls[c].pc == (if decided == Some(Approve) then AtExecute else Done)
            && r'.state.trust == (if decided == Some(Approve) && k.pc.session
                                  then Trusting(s.trust, k.account, CategoryOf(k)) else s.trust)
  {
    if decided.Some? {
      labels', r' := AskedAlone(labels, r, c, id, x, decided.value);
    } else {
      labels', r' := TimedOutAlone(labels, r, c, id);
    }
    if r'.state.calls[c].pc.AtGrant? {
      labels', r' := Then(labels', r', Dispatch(c, Grant));
    }
  }

  /** A dispatch that reads its policy and goes on with nothing in between but the decision on its own
      approval ends where `Enforce` says, with the same announcements and the same trust. */
  lemma AloneItIsEnforce(labels: seq<Label>, r: Run, c: CallId, id: ApprovalId, x: DeciderId, decided: Option<Decision>)
    returns (labels': seq<Label>, r': Run)
    requires Exec(labels) == Some(r) && c in r.state.calls && r.state.calls[c].pc == AtPolicy
    requires id !in r.state.tickets && x !in r.state.deciders
    ensures labels <= labels' && Exec(labels') == Some(r') && c in r'.state.calls
    ensures var s, k := r.state, r.state.calls[c];
            var p, trusted := Effective(s.table, k.account, CategoryOf(k)), Trusted(s.trust, k.account, CategoryOf(k));
            && RequestOf(r'.state.calls[c]) == RequestOf(k)
            && r'.state.calls[c].pc == PcFor(Enforced(p, CategoryOf(k), trusted, decided))
            && r'.state.queue.pending == s.queue.pending
            && r'.state.queue.events == s.queue.events +
                 (if Asks(p, CategoryOf(k), trusted) then Announcements(id, RequestOf(k), decided) else [])
            && forall a, k' :: Trusted(r'.state.trust, a, k') <==>
                 Trusted(s.trust, a, k') || (Earned(p, trusted, decided) && a == k.account && k' == CategoryOf(k))
  {
    QueueWithinTickets(labels, r);
    labels', r' := ReadAlone(labels, r, c);
    if r'.state.calls[c].pc.AtInsert? {
      labels', r' := AskingAlone(labels', r', c, id, x, decided);
    }
  }

  lemma QueueWithinTickets(labels: seq<Label>, r: Run)
    requires Exec(labels) == Some(r)
    ensures r.state.queue.pending.Keys <= r.state.tickets.Keys
  {
    RunKeepsInv(labels, r);
  }
}
