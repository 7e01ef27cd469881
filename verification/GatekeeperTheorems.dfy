/** Safety of the gatekeeper over every run, stated on the log of the run. */
module GatekeeperTheorems {
  import opened Prelude
  import opened Policies
  import opened Tools
  import opened Approvals
  import opened Gatekeeper
  import opened GatekeeperProofs
  import opened GatekeeperSteps
  import opened GatekeeperLogs

  // ----- every provider call is entitled -----

  lemma GrantEarned(log: seq<Event>, g: nat, c: CallId, a: AccountId, k: Category)
    requires LogOk(log) && g < |log| && log[g] == Of(c, Granted(a, k))
    ensures HasRead(log, g, c, a, k, Session)
    ensures exists tool, args :: UserApproved(log, g, c, Request(a, k, tool, args))
  {
    assert CallEventOk(DigestOf(log[..g]), c, Granted(a, k)) by { assert EventOk(DigestOf(log[..g]), log[g]); }
    var e := CallAt(log, g, c).entry.value;
    ApprovalOrigin(log, g, c, Request(a, k, e.tool, e.args));
    PolicyOrigin(log, g, c);
  }

  lemma {:induction false} TrustOrigin(log: seq<Event>, n: nat, a: AccountId, k: Category)
    requires n <= |log| && LogOk(log) && (a, k) in DigestOf(log[..n]).trust
    ensures TrustEarned(log, n, a, k)
  {
    DigestAt(log, n - 1, 0);
    if log[n - 1].Of? && log[n - 1].what == Granted(a, k) {
      GrantEarned(log, n - 1, log[n - 1].call, a, k);
      assert log[n - 1] == Of(log[n - 1].call, Granted(a, k));
    } else {
      TrustOrigin(log, n - 1, a, k);
    }
  }

  lemma TrustReadOrigin(log: seq<Event>, n: nat, c: CallId, a: AccountId, k: Category)
    requires n <= |log| && LogOk(log)
    requires CallAt(log, n, c).trustSeen == Some(true) && CallAt(log, n, c).entry.Some?
    requires var e := CallAt(log, n, c).entry.value; e.account == a && ToolCategory(e.tool) == k
    ensures exists i :: 0 <= i < n && log[i] == Of(c, TrustRead(a, k, true)) && TrustEarned(log, i, a, k)
  {
    var i := WrittenBy((h: CallHistory) => h.trustSeen, log, n, c);
    assert EventOk(DigestOf(log[..i]), log[i]);
    Kept(log, i, n, c, 0);
    TrustOrigin(log, i, a, k);
  }

  lemma LicenseOrigin(log: seq<Event>, n: nat, c: CallId, tool: ToolName, args: Args, a: AccountId)
    requires n <= |log| && LogOk(log)
    requires CallAt(log, n, c).entry == Some(Entry(tool, args, a))
    requires Licensed(DigestOf(log[..n]), c, Request(a, ToolCategory(tool), tool, args))
    ensures Entitled(log, n, c, tool, args, a)
  {
    if ApprovedFor(DigestOf(log[..n]), c, Request(a, ToolCategory(tool), tool, args)) {
      ApprovalEntitles(log, n, c, tool, args, a);
    } else {
      PolicyOrigin(log, n, c);
      if CallAt(log, n, c).policy != Some(Allow) {
        TrustReadOrigin(log, n, c, a, ToolCategory(tool));
      }
    }
  }

  lemma ApprovalEntitles(log: seq<Event>, n: nat, c: CallId, tool: ToolName, args: Args, a: AccountId)
    requires n <= |log| && LogOk(log)
    requires CallAt(log, n, c).entry == Some(Entry(tool, args, a))
    requires ApprovedFor(DigestOf(log[..n]), c, Request(a, ToolCategory(tool), tool, args))
    ensures Entitled(log, n, c, tool, args, a)
  {
    PolicyOrigin(log, n, c);
    ApprovalOrigin(log, n, c, Request(a, ToolCategory(tool), tool, args));
    assert Asked(CallAt(log, n, c).policy.value, ToolCategory(tool));
  }

  /** Between the two positions the dispatch looked its account up and found a provider registered. */
  ghost predicate FoundBetween(log: seq<Event>, i: nat, n: nat, c: CallId, a: AccountId) {
    exists j :: i < j < n <= |log| && log[j] == Of(c, LookedUp(true)) && RegisteredAt(log, j, a)
  }

  /** The dispatch behind the provider call at `n` entered at `i` as `tool`, while not paused, with the
      arguments and account of the call, and found a provider registered. It either runs its tool's own
      method, which is of its tool's category, and is entitled to, or it creates a draft for a
      send_message under Draftify. */
  ghost predicate Justified(log: seq<Event>, n: nat, i: nat, tool: ToolName)
    requires n < |log| && log[n].Of? && log[n].what.Called?
  {
    var c, e := log[n].call, log[n].what;
    && i < n && log[i] == Of(c, Entered(tool, e.args, e.account)) && UnpausedAt(log, i)
    && FoundBetween(log, i, n, c, e.account)
    && e.args.account == Some(e.account)
    && (|| (ToolOf(e.run) == tool && EffectOn(e.run) == ToolCategory(tool)
            && Entitled(log, n, c, tool, e.args, e.account))
        || (e.run == CreateDraft && tool == SendMessageTool
            && HasRead(log, n, c, e.account, Category.Send, Draftify)))
  }

  /** Over every run and every interleaving, each provider call is justified. */
  lemma EveryProviderCallIsJustified(labels: seq<Label>, r: Run, n: nat)
    requires Exec(labels) == Some(r) && n < |r.log| && r.log[n].Of? && r.log[n].what.Called?
    ensures exists i, tool :: Justified(r.log, n, i, tool)
  {
    LogIsOk(labels, r);
    ProviderCallJustified(r.log, n);
  }

  lemma ProviderCallJustified(log: seq<Event>, n: nat)
    requires LogOk(log) && n < |log| && log[n].Of? && log[n].what.Called?
    ensures exists i, tool :: Justified(log, n, i, tool)
  {
    var c, e := log[n].call, log[n].what;
    RunsItsTool(log, n);
    var j := LookUpOrigin(log, n, c);
    var i := EntryOrigin(log, j, c);
    assert FoundBetween(log, i, n, c, e.account);
    assert Justified(log, n, i, CallAt(log, n, c).entry.value.tool);
  }

  /** What the call runs, and what entitles it to. */
  lemma RunsItsTool(log: seq<Event>, n: nat)
    requires LogOk(log) && n < |log| && log[n].Of? && log[n].what.Called?
    ensures var c, e, h := log[n].call, log[n].what, CallAt(log, n, log[n].call);
            && h.entry.Some? && h.policy.Some? && h.entry.value.args == e.args && h.entry.value.account == e.account
            && e.args.account == Some(e.account)
            && var tool := h.entry.value.tool;
               || (ToolOf(e.run) == tool && EffectOn(e.run) == ToolCategory(tool)
                   && Entitled(log, n, c, tool, e.args, e.account))
               || (e.run == CreateDraft && tool == SendMessageTool
                   && HasRead(log, n, c, e.account, Category.Send, Draftify))
  {
    var c, e, d := log[n].call, log[n].what, DigestOf(log[..n]);
    assert CallEventOk(d, c, e) by { assert EventOk(d, log[n]); }
    var tool := CallAt(log, n, c).entry.value.tool;
    PolicyOrigin(log, n, c);
    if ToolOf(e.run) == tool && Licensed(d, c, Request(e.account, ToolCategory(tool), tool, e.args)) {
      LicenseOrigin(log, n, c, tool, e.args, e.account);
    }
  }

  /** The user has paused after position `i`, and not lifted it before `n`. */
  ghost predicate PausedSince(log: seq<Event>, i: int, n: int) {
    exists j :: 0 <= i < j < n <= |log| && log[j] == PauseSet(true) && forall k | j < k < n :: log[k] != PauseSet(false)
  }

  /** From a point that is not paused, a later one is paused exactly if a pause in between stands. */
  lemma PausedIffPausedSince(log: seq<Event>, i: nat, n: nat)
    requires i < n <= |log| && log[i] != PauseSet(true) && UnpausedAt(log, i)
    ensures !UnpausedAt(log, n) <==> PausedSince(log, i, n)
  {
    if !UnpausedAt(log, n) {
      var j :| 0 <= j < n && log[j] == PauseSet(true) && forall k | j < k < n :: log[k] != PauseSet(false);
      assert i < j;
    }
  }

  /** A provider is called while paused exactly if the user paused after that dispatch entered, and had
      not lifted it when the call went out. */
  lemma CalledWhilePausedIff(labels: seq<Label>, r: Run, n: nat)
    requires Exec(labels) == Some(r) && n < |r.log| && r.log[n].Of? && r.log[n].what.Called?
    ensures exists i: nat, tool :: Justified(r.log, n, i, tool) && (!UnpausedAt(r.log, n) <==> PausedSince(r.log, i, n))
  {
    EveryProviderCallIsJustified(labels, r, n);
    var i, tool :| Justified(r.log, n, i, tool);
    PausedIffPausedSince(r.log, i, n);
  }

  /** A dispatch calls the provider at most once. */
  lemma {:induction false} CalledStays(log: seq<Event>, m: nat, n: nat, c: CallId)
    requires m <= n <= |log| && CallAt(log, m, c).called.Some?
    ensures CallAt(log, n, c).called.Some?
  {
    if m < n {
      CalledStays(log, m, n - 1, c);
      DigestAt(log, n - 1, c);
      CalledKept(CallAt(log, n - 1, c), log[n - 1]);
    }
  }

  lemma CalledKept(h: CallHistory, e: Event)
    ensures e.Of? && h.called.Some? ==> Updated(h, e.what).called.Some?
  {
  }

  lemma AtMostOneProviderCall(labels: seq<Label>, r: Run, m: nat, n: nat)
    requires Exec(labels) == Some(r) && m < n < |r.log|
    requires r.log[m].Of? && r.log[m].what.Called? && r.log[n].Of? && r.log[n].what.Called?
    ensures r.log[m].call != r.log[n].call
  {
    LogIsOk(labels, r);
    var c := r.log[m].call;
    DigestAt(r.log, m, c);
    CalledStays(r.log, m + 1, n, c);
    assert EventOk(DigestOf(r.log[..n]), r.log[n]);
  }

  // ----- waiters -----

  predicate Settles(e: Event, c: CallId) {
    e.Of? && e.call == c && (e.what.Received? || e.what.CleanedUp?)
  }

  /** Every live waiter of every run can still be told: a value is in its channel or the sender
      exists. So no waiter ever sees its channel closed, and each settles at most once. */
  lemma WaitersAreNeverLost(labels: seq<Label>, r: Run, c: CallId)
    requires Exec(labels) == Some(r) && c in r.state.calls && r.state.calls[c].pc.AtWait?
    ensures !Enabled(r.state, Approval(c, SeeDropped))
    ensures Enabled(r.state, Approval(c, Receive)) || Enabled(r.state, Approval(c, FireTimer))
  {
    RunKeepsInv(labels, r);
    LiveWaiterGoesOn(r.state, DigestOf(r.log), c);
  }

  lemma LiveWaiterGoesOn(s: State, d: Digest, c: CallId)
    requires CallsInv(s, d) && TicketsInv(s, d) && DecidersInv(s, d) && c in s.calls && s.calls[c].pc.AtWait?
    ensures !StageEnabled(s, c, SeeDropped) && (StageEnabled(s, c, Receive) || StageEnabled(s, c, FireTimer))
  {
    SenderNeverLost(s, d, c);
  }

  lemma WaitersSettleAtMostOnce(labels: seq<Label>, r: Run, c: CallId, m: nat, n: nat)
    requires Exec(labels) == Some(r) && m < n < |r.log| && Settles(r.log[m], c)
    ensures !Settles(r.log[n], c)
    ensures forall id :: r.log[n] != Of(c, ChannelDropped(id))
  {
    LogIsOk(labels, r);
    DigestAt(r.log, m, c);
    Kept(r.log, m + 1, n, c, 0);
    assert EventOk(DigestOf(r.log[..n]), r.log[n]);
  }

  // ----- decisions -----

  /** An approval is decided at most once, and never after a timeout took it off the queue. */
  lemma DecidedAtMostOnce(labels: seq<Label>, r: Run, m: nat, n: nat)
    requires Exec(labels) == Some(r) && m < n < |r.log| && r.log[n].Decided?
    ensures r.log[m].Decided? ==> r.log[m].id != r.log[n].id
    ensures r.log[m].Of? ==> r.log[m].what != CleanedUp(r.log[n].id, true)
  {
    LogIsOk(labels, r);
    var log, id := r.log, r.log[n].id;
    assert Open(FateAt(log, n, id)) by { assert EventOk(DigestOf(log[..n]), log[n]); }
    DigestAt(log, m, 0);
    if FateAt(log, m + 1, id).decision.Some? || FateAt(log, m + 1, id).removed {
      ClosedStays(log, m + 1, n, id);
    }
  }

  lemma {:induction false} ClosedStays(log: seq<Event>, m: nat, n: nat, id: ApprovalId)
    requires m <= n <= |log| && (FateAt(log, m, id).decision.Some? || FateAt(log, m, id).removed)
    ensures FateAt(log, n, id).decision.Some? || FateAt(log, n, id).removed
    ensures FateAt(log, m, id).removed ==> FateAt(log, n, id).removed
  {
    if m < n {
      ClosedStays(log, m, n - 1, id);
      ClosedNext(log, n - 1, id);
    }
  }

  lemma ClosedNext(log: seq<Event>, n: nat, id: ApprovalId)
    requires n < |log|
    ensures FateAt(log, n, id).decision.Some? ==> FateAt(log, n + 1, id).decision.Some?
    ensures FateAt(log, n, id).removed ==> FateAt(log, n + 1, id).removed
  {
    DigestAt(log, n, 0);
    ClosedKept(DigestOf(log[..n]), log[n], id);
  }

  lemma ClosedKept(d: Digest, e: Event, id: ApprovalId)
    ensures var f, f' := FateOf(d.fates, id), FateOf(Digested(d, e).fates, id);
            (f.decision.Some? ==> f'.decision.Some?) && (f.removed ==> f'.removed)
  {
  }

  /** A waiter told Approved had its own approval, with its own request, decided Approve before. */
  lemma ApprovedMeansApprove(labels: seq<Label>, r: Run, n: nat, c: CallId, id: ApprovalId)
    requires Exec(labels) == Some(r) && n < |r.log| && r.log[n] == Of(c, Received(id, Approved))
    ensures exists i, j, req :: 0 <= i < j < n
              && r.log[i] == Of(c, Enqueued(id, req)) && r.log[j] == Decided(id, Approve)
  {
    LogIsOk(labels, r);
    var log := r.log;
    assert EventOk(DigestOf(log[..n]), log[n]);
    var j := DecisionOrigin(log, n, id);
    var t := WrittenBy((h: CallHistory) => h.ticket, log, n, c);
    assert EventOk(DigestOf(log[..t]), log[t]);
    assert log[j] == Decided(id, Approve);
    if t > j {
      Kept(log, j, t, c, id);
    }
  }

  lemma ReceivedAsDecided(d: Digest, c: CallId, id: ApprovalId, o: Outcome)
    requires EventOk(d, Of(c, Received(id, o)))
    ensures FateOf(d.fates, id).decision == Some(Approve) || FateOf(d.fates, id).decision == Some(Reject)
    ensures o == if FateOf(d.fates, id).decision == Some(Approve) then Approved else Rejected
  {
    assert CallEventOk(d, c, Received(id, o));
  }

  /** A waiter that receives anything is told Approved or Rejected, as its own approval was decided. */
  lemma ToldAsDecided(labels: seq<Label>, r: Run, n: nat, c: CallId, id: ApprovalId, o: Outcome)
    requires Exec(labels) == Some(r) && n < |r.log| && r.log[n] == Of(c, Received(id, o))
    ensures o == Approved || o == Rejected
    ensures exists j :: 0 <= j < n && r.log[j] == Decided(id, if o == Approved then Approve else Reject)
  {
    LogIsOk(labels, r);
    ReceivedAsDecided(DigestOf(r.log[..n]), c, id, o);
    var j := DecisionOrigin(r.log, n, id);
  }

  /** What a settled waiter was told, given that its approval was decided: the timer alone
      decides whether the decision got through. */
  ghost predicate OutcomesFit(d: Digest) {
    forall c | HistoryOf(d.calls, c).outcome.Some? ::
      var h := HistoryOf(d.calls, c);
      && h.ticket.Some?
      && (if h.timerFired then h.outcome == Some(TimedOut)
          else FateOf(d.fates, h.ticket.value).decision.Some?
               && h.outcome == Some(OutcomeOf(FateOf(d.fates, h.ticket.value).decision.value)))
  }

  lemma OutcomesFitStep(d: Digest, e: Event)
    requires OutcomesFit(d) && EventOk(d, e)
    ensures OutcomesFit(Digested(d, e))
  {
    forall c | HistoryOf(Digested(d, e).calls, c).outcome.Some?
      ensures var h, d' := HistoryOf(Digested(d, e).calls, c), Digested(d, e);
        && h.ticket.Some?
        && (if h.timerFired then h.outcome == Some(TimedOut)
            else FateOf(d'.fates, h.ticket.value).decision.Some?
                 && h.outcome == Some(OutcomeOf(FateOf(d'.fates, h.ticket.value).decision.value)))
    {
      DigestedCall(d, e, c);
      if HistoryOf(d.calls, c).ticket.Some? {
        DigestedKeeps(d, e, c, HistoryOf(d.calls, c).ticket.value);
      }
    }
  }

  lemma {:induction false} OutcomesFitLog(log: seq<Event>, n: nat)
    requires n <= |log| && LogOk(log)
    ensures OutcomesFit(DigestOf(log[..n]))
  {
    if n > 0 {
      OutcomesFitLog(log, n - 1);
      DigestAt(log, n - 1, 0);
      assert EventOk(DigestOf(log[..n - 1]), log[n - 1]);
      OutcomesFitStep(DigestOf(log[..n - 1]), log[n - 1]);
    }
  }

  /** A settled waiter whose approval was decided Approve was told Approved if and only if its timer
      had not fired. */
  lemma ApproveReachesTheSettledIffNoTimer(labels: seq<Label>, r: Run, c: CallId)
    requires Exec(labels) == Some(r)
    requires var h := CallAt(r.log, |r.log|, c);
             h.outcome.Some? && h.ticket.Some? && FateAt(r.log, |r.log|, h.ticket.value).decision == Some(Approve)
    ensures CallAt(r.log, |r.log|, c).outcome == Some(Approved) <==> !CallAt(r.log, |r.log|, c).timerFired
  {
    LogIsOk(labels, r);
    OutcomesFitLog(r.log, |r.log|);
  }

  /** Nothing is ever published as resolved that was not decided; in particular no timeout is. */
  lemma TimeoutsPublishNothing(labels: seq<Label>, r: Run, c: CallId, id: ApprovalId, n: nat, dec: Decision)
    requires Exec(labels) == Some(r)
    ensures Resolved(id, dec) in r.state.queue.events ==> Decided(id, dec) in r.log
    ensures n < |r.log| && r.log[n] == Of(c, CleanedUp(id, true)) ==> Resolved(id, dec) !in r.state.queue.events
  {
    RunKeepsInv(labels, r);
    assert r.log[..|r.log|] == r.log;
    if Resolved(id, dec) in r.state.queue.events {
      ResolvedWasDecided(r.state, DigestOf(r.log), id, dec);
      var j := DecisionOrigin(r.log, |r.log|, id);
      assert r.log[j] == Decided(id, dec);
    }
    if n < |r.log| && r.log[n] == Of(c, CleanedUp(id, true)) {
      RemovedForGood(r.log, n, c, id);
    }
  }

  lemma ResolvedWasDecided(s: State, d: Digest, id: ApprovalId, dec: Decision)
    requires TicketsInv(s, d) && EventsInv(s, d) && Resolved(id, dec) in s.queue.events
    ensures FateOf(d.fates, id).decision == Some(dec) && !FateOf(d.fates, id).removed
  {
    assert id in d.fates;
    assert TicketInv(s, d, id);
  }

  lemma RemovedForGood(log: seq<Event>, n: nat, c: CallId, id: ApprovalId)
    requires n < |log| && log[n] == Of(c, CleanedUp(id, true))
    ensures FateAt(log, |log|, id).removed
  {
    DigestAt(log, n, 0);
    ClosedStays(log, n + 1, |log|, id);
  }

  // ----- conservation -----

  function Weight(e: Event): int {
    match e
    case Of(_, Enqueued(_, _)) => 1
    case Of(_, CleanedUp(_, true)) => -1
    case Decided(_, _) => -1
    case _ => 0
  }

  function WeightOf(e: Option<Event>): int {
    match e case None => 0 case Some(e) => Weight(e)
  }

  lemma InsertConserves(s: State, c: CallId, id: ApprovalId)
    requires s.queue.pending.Keys <= s.tickets.Keys && StageEnabled(s, c, Insert(id))
    ensures var f := StageStep(s, c, Insert(id));
            |f.state.queue.pending| == |s.queue.pending| + WeightOf(f.event)
  {
    assert id !in s.queue.pending;
    PendingCount(s.queue, id, RequestOf(s.calls[c]));
  }

  lemma CleanUpConserves(s: State, c: CallId)
    requires StageEnabled(s, c, CleanUp)
    ensures var f := StageStep(s, c, CleanUp);
            |f.state.queue.pending| == |s.queue.pending| + WeightOf(f.event)
  {
    var id := s.calls[c].pc.id;
    PendingCount(s.queue, id, RequestOf(s.calls[c]));
    assert StageStep(s, c, CleanUp).state.queue == DropPending(s.queue, id);
  }

  lemma OtherStagesKeepThem(s: State, c: CallId, t: Stage)
    requires StageEnabled(s, c, t) && !t.Insert? && t != CleanUp
    ensures StageStep(s, c, t).state.queue.pending == s.queue.pending
    ensures WeightOf(StageStep(s, c, t).event) == 0
  {
  }

  lemma StageConserves(s: State, c: CallId, t: Stage)
    requires s.queue.pending.Keys <= s.tickets.Keys && StageEnabled(s, c, t)
    ensures |StageStep(s, c, t).state.queue.pending| == |s.queue.pending| + WeightOf(StageStep(s, c, t).event)
  {
    match t
    case Insert(id) => InsertConserves(s, c, id);
    case CleanUp => CleanUpConserves(s, c);
    case _ => OtherStagesKeepThem(s, c, t);
  }

  lemma PhaseConserves(s: State, x: DeciderId, t: Phase)
    requires PhaseEnabled(s, x, t)
    ensures var f := PhaseStep(s, x, t);
            |f.state.queue.pending| == |s.queue.pending| + WeightOf(f.event)
  {
    if t.Take? && t.id in s.queue.pending {
      PendingCount(s.queue, t.id, s.queue.pending[t.id]);
    }
  }

  lemma StrideConserves(s: State, c: CallId, t: Stride)
    requires StrideEnabled(s, c, t)
    ensures StrideStep(s, c, t).state.queue == s.queue && WeightOf(StrideStep(s, c, t).event) == 0
  {
  }

  lemma StepConserves(s: State, l: Label)
    requires s.queue.pending.Keys <= s.tickets.Keys && Enabled(s, l)
    ensures |Step(s, l).state.queue.pending| == |s.queue.pending| + WeightOf(Step(s, l).event)
  {
    match l
    case Setting(_) =>
    case Dispatch(c, t) => StrideConserves(s, c, t);
    case Approval(c, t) => StageConserves(s, c, t);
    case Decide(x, t) => PhaseConserves(s, x, t);
  }

  function IsEnqueue(e: Event): bool { e.Of? && e.what.Enqueued? }

  function IsDecision(e: Event): bool { e.Decided? }

  function IsTimeoutRemoval(e: Event): bool { e.Of? && e.what.CleanedUp? && e.what.removed }

  function Balance(log: seq<Event>): int {
    CountIf(IsEnqueue, log) - CountIf(IsDecision, log) - CountIf(IsTimeoutRemoval, log)
  }

  lemma BalanceGrows(log: seq<Event>, e: Option<Event>)
    ensures Balance(Extended(log, e)) == Balance(log) + WeightOf(e)
  {
    if e.Some? {
      CountIfAppend(IsEnqueue, log, e.value);
      CountIfAppend(IsDecision, log, e.value);
      CountIfAppend(IsTimeoutRemoval, log, e.value);
    }
  }

  /** At every point of every run: queued = enqueued - decided - removed by a timeout. A waiter
      that was dropped stays listed. */
  lemma {:induction false} ApprovalsAreConserved(labels: seq<Label>, r: Run)
    requires Exec(labels) == Some(r)
    ensures |r.state.queue.pending| == CountIf(IsEnqueue, r.log)
              - CountIf(IsDecision, r.log) - CountIf(IsTimeoutRemoval, r.log)
  {
    if labels != [] {
      var l := labels[|labels| - 1];
      var r0 := Exec(labels[..|labels| - 1]).value;
      ApprovalsAreConserved(labels[..|labels| - 1], r0);
      RunKeepsInv(labels[..|labels| - 1], r0);
      StepConserves(r0.state, l);
      BalanceGrows(r0.log, Step(r0.state, l).event);
    }
  }

  // ----- session trust -----

  /** Trust is held exactly by the pairs some call granted, and each grant was earned: that call
      had read Session for the pair and had its own request approved. */
  lemma TrustIsEarned(labels: seq<Label>, r: Run, a: AccountId, k: Category)
    requires Exec(labels) == Some(r)
    ensures Trusted(r.state.trust, a, k) ==> TrustEarned(r.log, |r.log|, a, k)
  {
    RunKeepsInv(labels, r);
    assert r.log[..|r.log|] == r.log;
    if Trusted(r.state.trust, a, k) {
      TrustOrigin(r.log, |r.log|, a, k);
    }
  }

  lemma TrustIsKept(labels: seq<Label>, r: Run, g: nat, x: CallId, a: AccountId, k: Category)
    requires Exec(labels) == Some(r) && g < |r.log| && r.log[g] == Of(x, Granted(a, k))
    ensures Trusted(r.state.trust, a, k)
  {
    RunKeepsInv(labels, r);
    assert r.log[..|r.log|] == r.log;
    DigestAt(r.log, g, x);
    TrustStays(r.log, g + 1, |r.log|, a, k);
  }

  lemma {:induction false} TrustStays(log: seq<Event>, m: nat, n: nat, a: AccountId, k: Category)
    requires m <= n <= |log| && (a, k) in DigestOf(log[..m]).trust
    ensures (a, k) in DigestOf(log[..n]).trust
  {
    if m < n {
      TrustStays(log, m, n - 1, a, k);
      DigestAt(log, n - 1, 0);
      TrustGrows(DigestOf(log[..n - 1]), log[n - 1]);
    }
  }

  lemma TrustGrows(d: Digest, e: Event)
    ensures d.trust <= Digested(d, e).trust
  {
  }

  /** Once trust is granted, every later trust check on the pair succeeds. */
  lemma TrustChecksSucceed(labels: seq<Label>, r: Run, g: nat, x: CallId, j: nat, c: CallId,
                           a: AccountId, k: Category, t: bool)
    requires Exec(labels) == Some(r) && g < j < |r.log|
    requires r.log[g] == Of(x, Granted(a, k)) && r.log[j] == Of(c, TrustRead(a, k, t))
    ensures t
  {
    LogIsOk(labels, r);
    var log := r.log;
    DigestAt(log, g, x);
    TrustStays(log, g + 1, j, a, k);
    assert CallEventOk(DigestOf(log[..j]), c, TrustRead(a, k, t)) by { assert EventOk(DigestOf(log[..j]), log[j]); }
  }

  /** A call whose trust check succeeded never adds to the queue, before or after. */
  lemma TrustSparesTheQueue(labels: seq<Label>, r: Run, j: nat, c: CallId, a: AccountId, k: Category, m: nat)
    requires Exec(labels) == Some(r) && j < |r.log| && m < |r.log|
    requires r.log[j] == Of(c, TrustRead(a, k, true)) && r.log[m].Of? && r.log[m].call == c
    ensures !r.log[m].what.Enqueued?
  {
    LogIsOk(labels, r);
    var log := r.log;
    assert CallEventOk(DigestOf(log[..j]), c, log[j].what) by { assert EventOk(DigestOf(log[..j]), log[j]); }
    assert CallEventOk(DigestOf(log[..m]), c, log[m].what) by { assert EventOk(DigestOf(log[..m]), log[m]); }
    DigestAt(log, m, c);
    DigestAt(log, j, c);
    if m < j {
      Kept(log, m + 1, j, c, 0);
    } else if j < m {
      TrustSeenStays(log, j + 1, m, c);
    }
  }

  lemma {:induction false} TrustSeenStays(log: seq<Event>, m: nat, n: nat, c: CallId)
    requires m <= n <= |log| && LogOk(log) && CallAt(log, m, c).trustSeen == Some(true)
    ensures CallAt(log, n, c).trustSeen == Some(true)
  {
    if m < n {
      TrustSeenStays(log, m, n - 1, c);
      TrustSeenNextAt(log, n - 1, c);
    }
  }

  lemma TrustSeenNextAt(log: seq<Event>, n: nat, c: CallId)
    requires n < |log| && LogOk(log) && CallAt(log, n, c).trustSeen == Some(true)
    ensures CallAt(log, n + 1, c).trustSeen == Some(true)
  {
    DigestAt(log, n, c);
    assert EventOk(DigestOf(log[..n]), log[n]);
    TrustSeenNext(DigestOf(log[..n]), log[n], c);
  }

  lemma TrustSeenNext(d: Digest, e: Event, c: CallId)
    requires EventOk(d, e) && HistoryOf(d.calls, c).trustSeen == Some(true)
    ensures e.Of? && e.call == c ==> Updated(HistoryOf(d.calls, c), e.what).trustSeen == Some(true)
  {
    if e.Of? && e.call == c {
      TrustSeenKept(HistoryOf(d.calls, c), d, c, e.what);
    }
  }

  lemma TrustSeenKept(h: CallHistory, d: Digest, c: CallId, e: CallEvent)
    requires h == HistoryOf(d.calls, c) && CallEventOk(d, c, e) && h.trustSeen == Some(true)
    ensures Updated(h, e).trustSeen == Some(true)
  {
  }
}
