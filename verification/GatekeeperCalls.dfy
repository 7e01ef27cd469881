/** Which dispatches reach the provider, and with what: in both directions. */
module GatekeeperCalls {
  import opened Prelude
  import opened Policies
  import opened Tools
  import opened Approvals
  import opened Gatekeeper
  import opened GatekeeperProofs
  import opened GatekeeperSteps
  import opened GatekeeperLogs
  import opened GatekeeperTheorems
  import opened GatekeeperEndings

  // ----- entering and looking up -----

  lemma PausedNext(log: seq<Event>, n: nat)
    requires n < |log|
    ensures UnpausedAt(log, n + 1) <==>
              log[n] == PauseSet(false) || (log[n] != PauseSet(true) && UnpausedAt(log, n))
  {
    if log[n] == PauseSet(false) {
      assert forall i | 0 <= i < n + 1 && log[i] == PauseSet(true) :: i < n < n + 1 && log[n] == PauseSet(false);
    } else if UnpausedAt(log, n + 1) {
      forall i | 0 <= i < n && log[i] == PauseSet(true)
        ensures exists j :: i < j < n && log[j] == PauseSet(false)
      {
        var j :| i < j < n + 1 && log[j] == PauseSet(false);
        assert j < n;
      }
    }
  }

  lemma {:induction false} PausedFlag(log: seq<Event>, n: nat)
    requires n <= |log|
    ensures DigestOf(log[..n]).paused <==> !UnpausedAt(log, n)
  {
    if n > 0 {
      DigestAt(log, n - 1, 0);
      PausedFlag(log, n - 1);
      PausedNext(log, n - 1);
    }
  }

  /** A dispatch enters if and only if the daemon is not paused and the arguments name an account. */
  lemma EntersIffUnpaused(labels: seq<Label>, r: Run, c: CallId, tool: ToolName, args: Args)
    requires Exec(labels) == Some(r) && Enabled(r.state, Dispatch(c, Enter(tool, args)))
    ensures Step(r.state, Dispatch(c, Enter(tool, args))).event ==
              if UnpausedAt(r.log, |r.log|) && args.account.Some?
              then Some(Of(c, Entered(tool, args, args.account.value)))
              else Some(Refused(tool, args))
  {
    RunKeepsInv(labels, r);
    assert r.log[..|r.log|] == r.log;
    PausedFlag(r.log, |r.log|);
  }

  /** It finds a provider if and only if one is registered for its account then. */
  lemma FoundIffRegistered(labels: seq<Label>, r: Run, n: nat, c: CallId, found: bool)
    requires Exec(labels) == Some(r) && n < |r.log| && r.log[n] == Of(c, LookedUp(found))
    ensures exists i, tool, args, a :: 0 <= i < n && r.log[i] == Of(c, Entered(tool, args, a)) &&
              (found <==> RegisteredAt(r.log, n, a))
  {
    LogIsOk(labels, r);
    assert CallEventOk(DigestOf(r.log[..n]), c, LookedUp(found)) by { assert EventOk(DigestOf(r.log[..n]), r.log[n]); }
    var i := EntryOrigin(r.log, n, c);
    var e := CallAt(r.log, n, c).entry.value;
    RegistryRow(r.log, n, e.account);
    assert r.log[i] == Of(c, Entered(e.tool, e.args, e.account));
  }

  // ----- every dispatch that may call does -----

  /** The arguments decode as what the tool takes. */
  predicate Decodes(tool: ToolName, args: Args) {
    && (tool == CreateDraftTool || tool == SendMessageTool ==> args.composeOk)
    && (tool == UpdateDraftTool ==> args.updateOk)
  }

  lemma MethodsOfTools(tool: ToolName, args: Args)
    requires tool != ListAccountsTool
    ensures MethodFor(tool, args).Some? <==> Decodes(tool, args)
    ensures MethodFor(tool, args).Some? ==> ToolOf(MethodFor(tool, args).value) == tool
    ensures ToolCategory(tool) == Category.Send ==>
              DraftifiedMethod(tool, args)
              == if tool == SendMessageTool && args.composeOk then Some(CreateDraft) else None
  {
  }

  /** The dispatch may run its own tool: it read Allow, or is trusted under Session, or had to ask and was
      told Approved. */
  predicate MayRun(h: CallHistory, k: Category) {
    || h.policy == Some(Allow)
    || (h.policy == Some(Session) && h.trustSeen == Some(true))
    || (h.outcome == Some(Approved) && h.policy.Some? && Asked(h.policy.value, k))
  }

  /** What the dispatch must have called once it is over. */
  predicate CallFits(h: CallHistory) {
    h.entry.Some? &&
    var tool, args := h.entry.value.tool, h.entry.value.args;
    match h.called
    case Some(run) =>
      || (ToolOf(run) == tool && MayRun(h, ToolCategory(tool)) && Decodes(tool, args))
      || (run == CreateDraft && tool == SendMessageTool && h.policy == Some(Draftify) && args.composeOk)
    case None =>
      && !(MayRun(h, ToolCategory(tool)) && Decodes(tool, args))
      && !(tool == SendMessageTool && h.policy == Some(Draftify) && args.composeOk)
  }

  /** Of a dispatch that is over and was not dropped. */
  predicate OverFits(pc: Option<Pc>, h: CallHistory, dropped: bool) {
    pc == Some(Done) && !dropped ==> CallFits(h)
  }

  predicate OverFitsAfter(f: Effect, d: Digest, c: CallId, dropped: bool) {
    OverFits(PcOf(f.state.calls, c), HistoryOf(Next(d, f.event).calls, c), dropped || f.event == Some(Of(c, Abandoned)))
  }

  lemma EnterOver(s: State, d: Digest, c: CallId, tool: ToolName, args: Args, dropped: bool)
    requires StrideEnabled(s, c, Enter(tool, args))
    ensures OverFitsAfter(StrideStep(s, c, Enter(tool, args)), d, c, dropped)
  {
  }

  lemma EarlyOver(s: State, d: Digest, c: CallId, t: Stride, dropped: bool)
    requires StrideEnabled(s, c, t) && (t == LookUp || t == ReadPolicy || t == ReadTrust || t == Leave)
    requires PcInv(d, c, s.calls[c])
    ensures OverFitsAfter(StrideStep(s, c, t), d, c, dropped)
  {
    var f := StrideStep(s, c, t);
    DigestedCall(d, f.event.value, c);
  }

  lemma GrantOver(s: State, d: Digest, c: CallId, dropped: bool)
    requires StrideEnabled(s, c, Grant)
    ensures OverFitsAfter(StrideStep(s, c, Grant), d, c, dropped)
  {
  }

  lemma LicensedMayRun(d: Digest, c: CallId, req: Request)
    requires Licensed(d, c, req)
    ensures MayRun(HistoryOf(d.calls, c), req.category)
  {
  }

  /** What a dispatch that may run its tool calls is as it should be. */
  lemma RunFits(h: CallHistory)
    requires h.entry.Some? && h.called.None? && h.entry.value.tool != ListAccountsTool
    requires MayRun(h, ToolCategory(h.entry.value.tool))
    ensures CallFits(h.(called := MethodFor(h.entry.value.tool, h.entry.value.args)))
  {
    MethodsOfTools(h.entry.value.tool, h.entry.value.args);
  }

  lemma DraftFits(h: CallHistory)
    requires h.entry.Some? && h.called.None? && h.entry.value.tool != ListAccountsTool
    requires h.policy == Some(Draftify) && ToolCategory(h.entry.value.tool) == Category.Send
    ensures CallFits(h.(called := DraftifiedMethod(h.entry.value.tool, h.entry.value.args)))
  {
    MethodsOfTools(h.entry.value.tool, h.entry.value.args);
  }

  /** Calling the provider records the call, if there is one, and ends the dispatch. */
  lemma CallingEnds(s: State, d: Digest, c: CallId, m: Option<ProviderMethod>)
    requires c in s.calls && HistoryOf(d.calls, c).called.None?
    ensures var f := CallProvider(s, c, m);
            && PcOf(f.state.calls, c) == Some(Done) && f.event != Some(Of(c, Abandoned))
            && HistoryOf(Next(d, f.event).calls, c) == HistoryOf(d.calls, c).(called := m)
  {
  }

  lemma ExecuteOver(s: State, d: Digest, c: CallId, dropped: bool)
    requires StrideEnabled(s, c, Execute) && PcInv(d, c, s.calls[c])
    ensures OverFitsAfter(StrideStep(s, c, Execute), d, c, dropped)
  {
    var k := s.calls[c];
    LicensedMayRun(d, c, RequestOf(k));
    RunFits(HistoryOf(d.calls, c));
    CallingEnds(s, d, c, MethodFor(k.tool, k.args));
  }

  lemma ConvertOver(s: State, d: Digest, c: CallId, dropped: bool)
    requires StrideEnabled(s, c, Convert) && PcInv(d, c, s.calls[c])
    ensures OverFitsAfter(StrideStep(s, c, Convert), d, c, dropped)
  {
    var k := s.calls[c];
    DraftFits(HistoryOf(d.calls, c));
    CallingEnds(s, d, c, DraftifiedMethod(k.tool, k.args));
  }

  lemma StrideOver(s: State, d: Digest, c: CallId, t: Stride, dropped: bool)
    requires CallsInv(s, d) && StrideEnabled(s, c, t)
    ensures OverFitsAfter(StrideStep(s, c, t), d, c, dropped)
  {
    match t
    case Grant => GrantOver(s, d, c, dropped);
    case Enter(tool, args) => EnterOver(s, d, c, tool, args, dropped);
    case Execute => ExecuteOver(s, d, c, dropped);
    case Convert => ConvertOver(s, d, c, dropped);
    case _ => EarlyOver(s, d, c, t, dropped);
  }

  /** Whoever has a ticket had to ask for it. */
  predicate TicketFits(h: CallHistory) {
    h.ticket.Some? ==> h.entry.Some? && MustAsk(h, ToolCategory(h.entry.value.tool)) && h.trustSeen != Some(true)
  }

  lemma TicketFitsStep(d: Digest, e: Event, c: CallId)
    requires EventOk(d, e) && TicketFits(HistoryOf(d.calls, c))
    ensures TicketFits(HistoryOf(Digested(d, e).calls, c))
  {
    DigestedCall(d, e, c);
  }

  lemma {:induction false} TicketsFitLog(log: seq<Event>, n: nat, c: CallId)
    requires n <= |log| && LogOk(log)
    ensures TicketFits(CallAt(log, n, c))
  {
    if n > 0 {
      TicketsFitLog(log, n - 1, c);
      DigestAt(log, n - 1, c);
      assert EventOk(DigestOf(log[..n - 1]), log[n - 1]);
      TicketFitsStep(DigestOf(log[..n - 1]), log[n - 1], c);
    }
  }

  /** Whoever asked, was not approved and called nothing is as it should be. */
  lemma RefusedFits(h: CallHistory)
    requires TicketFits(h) && h.ticket.Some? && h.called.None? && h.outcome != Some(Approved)
    ensures CallFits(h)
  {
  }

  lemma ReceiveOver(s: State, d: Digest, c: CallId, dropped: bool)
    requires StageEnabled(s, c, Receive) && PcInv(d, c, s.calls[c]) && TicketFits(HistoryOf(d.calls, c))
    ensures OverFitsAfter(StageStep(s, c, Receive), d, c, dropped)
  {
    var f := StageStep(s, c, Receive);
    var o := s.tickets[s.calls[c].pc.id].content.value;
    var h' := HistoryOf(d.calls, c).(outcome := Some(o));
    DigestedCall(d, f.event.value, c);
    if o != Approved {
      RefusedFits(h');
    }
  }

  lemma CleanUpOver(s: State, d: Digest, c: CallId, dropped: bool)
    requires StageEnabled(s, c, CleanUp) && PcInv(d, c, s.calls[c]) && TicketFits(HistoryOf(d.calls, c))
    ensures OverFitsAfter(StageStep(s, c, CleanUp), d, c, dropped)
  {
    var f := StageStep(s, c, CleanUp);
    DigestedCall(d, f.event.value, c);
    RefusedFits(HistoryOf(d.calls, c).(outcome := Some(TimedOut)));
  }

  lemma OtherStagesOver(s: State, d: Digest, c: CallId, t: Stage, dropped: bool)
    requires StageEnabled(s, c, t) && t != Receive && t != CleanUp && t != SeeDropped
    ensures OverFitsAfter(StageStep(s, c, t), d, c, dropped)
  {
  }

  lemma StageOver(s: State, d: Digest, c: CallId, t: Stage, dropped: bool)
    requires Inv(s, d) && StageEnabled(s, c, t) && TicketFits(HistoryOf(d.calls, c))
    ensures OverFitsAfter(StageStep(s, c, t), d, c, dropped)
  {
    match t
    case Receive => ReceiveOver(s, d, c, dropped);
    case CleanUp => CleanUpOver(s, d, c, dropped);
    case SeeDropped => SenderNeverLost(s, d, c);
    case _ => OtherStagesOver(s, d, c, t, dropped);
  }

  lemma StepOver(s: State, d: Digest, l: Label, c: CallId, dropped: bool)
    requires Inv(s, d) && Enabled(s, l) && TicketFits(HistoryOf(d.calls, c))
    requires OverFits(PcOf(s.calls, c), HistoryOf(d.calls, c), dropped)
    ensures OverFitsAfter(Step(s, l), d, c, dropped)
  {
    if l.Dispatch? && l.call == c {
      StrideOver(s, d, c, l.stride, dropped);
    } else if l.Approval? && l.call == c {
      StageOver(s, d, c, l.stage, dropped);
    } else {
      OthersStay(s, l, c);
      if Step(s, l).event.Some? {
        DigestedCall(d, Step(s, l).event.value, c);
      }
    }
  }

  lemma {:induction false} RunOver(labels: seq<Label>, r: Run, c: CallId)
    requires Exec(labels) == Some(r)
    ensures OverFits(PcOf(r.state.calls, c), HistoryOf(DigestOf(r.log).calls, c), Of(c, Abandoned) in r.log)
  {
    if labels != [] {
      var l := labels[|labels| - 1];
      var r0 := Exec(labels[..|labels| - 1]).value;
      RunOver(labels[..|labels| - 1], r0, c);
      RunKeepsInv(labels[..|labels| - 1], r0);
      TicketsFitLog(r0.log, |r0.log|, c);
      assert r0.log[..|r0.log|] == r0.log;
      StepOver(r0.state, DigestOf(r0.log), l, c, Of(c, Abandoned) in r0.log);
      if Step(r0.state, l).event.Some? {
        DigestOfAppend(r0.log, Step(r0.state, l).event.value);
      }
    }
  }

  /** A dispatch that is over and was not dropped has called its tool's own method if and only if it may run
      it and its arguments decode, and has created a draft instead if and only if it is a send_message that
      read Draftify and decodes; nothing else was called. */
  lemma CallsGoOutIff(labels: seq<Label>, r: Run, c: CallId)
    requires Exec(labels) == Some(r) && c in r.state.calls && r.state.calls[c].pc == Done
    requires Of(c, Abandoned) !in r.log
    ensures CallFits(CallAt(r.log, |r.log|, c))
  {
    RunOver(labels, r, c);
    assert r.log[..|r.log|] == r.log;
  }

  /** A dispatch that is at its call makes it, with its own account and arguments, if these decode. */
  lemma ACallIsMade(labels: seq<Label>, r: Run, c: CallId)
    requires Exec(labels) == Some(r) && c in r.state.calls && r.state.calls[c].pc == AtExecute
    ensures Enabled(r.state, Dispatch(c, Execute))
    ensures var k, e := r.state.calls[c], Step(r.state, Dispatch(c, Execute)).event;
            if Decodes(k.tool, k.args)
            then e.Some? && e.value.Of? && e.value.what.Called? && ToolOf(e.value.what.run) == k.tool
                 && e == Some(Of(c, Called(k.account, e.value.what.run, k.args)))
            else e == None
  {
    RunKeepsInv(labels, r);
    assert PcInv(DigestOf(r.log), c, r.state.calls[c]);
    MethodsOfTools(r.state.calls[c].tool, r.state.calls[c].args);
  }

  // ----- an account nobody has touched -----

  /** Whatever has been set for the pair is what an account starts with. */
  ghost predicate Untouched(log: seq<Event>, a: AccountId, k: Category) {
    forall i | 0 <= i < |log| && log[i].PolicySet? && log[i].account == a && log[i].category == k ::
      IsSafe(k, log[i].policy)
  }

  lemma UntouchedRead(log: seq<Event>, n: nat, a: AccountId, k: Category, p: Policy)
    requires n <= |log| && Untouched(log, a, k) && InForceAt(log, n, a, k, p)
    ensures IsSafe(k, p)
  {
  }

  /** What a call on such a pair has read is the safe policy. */
  lemma UntouchedPolicy(log: seq<Event>, n: nat, c: CallId, a: AccountId, k: Category, p: Policy)
    requires n <= |log| && Untouched(log, a, k) && HasRead(log, n, c, a, k, p)
    ensures IsSafe(k, p)
  {
    var i :| 0 <= i < n && log[i] == Of(c, PolicyRead(a, k, p)) && InForceAt(log, i, a, k, p);
    UntouchedRead(log, i, a, k, p);
  }

  /** Nothing is sent from an account whose sending policy nobody has changed. */
  lemma NothingIsSent(labels: seq<Label>, r: Run, n: nat, a: AccountId)
    requires Exec(labels) == Some(r) && n < |r.log| && r.log[n].Of? && r.log[n].what.Called?
    requires r.log[n].what.account == a && Untouched(r.log, a, Category.Send)
    ensures EffectOn(r.log[n].what.run) != Category.Send
  {
    EveryProviderCallIsJustified(labels, r, n);
    var i, tool :| Justified(r.log, n, i, tool);
    if EffectOn(r.log[n].what.run) == Category.Send {
      var p := EntitledRead(r.log, n, r.log[n].call, tool, r.log[n].what.args, a);
      UntouchedPolicy(r.log, n, r.log[n].call, a, Category.Send, p);
    }
  }

  /** Whoever is entitled to run its tool has read a policy that lets it; unless that is Allow or Session,
      the user approved its own request. */
  lemma EntitledRead(log: seq<Event>, n: nat, c: CallId, tool: ToolName, args: Args, a: AccountId) returns (p: Policy)
    requires n <= |log| && Entitled(log, n, c, tool, args, a)
    ensures HasRead(log, n, c, a, ToolCategory(tool), p)
    ensures p != Block && (p == Draftify ==> ToolCategory(tool) != Category.Send)
    ensures p == Allow || p == Session || UserApproved(log, n, c, Request(a, ToolCategory(tool), tool, args))
  {
    var k := ToolCategory(tool);
    if HasRead(log, n, c, a, k, Allow) {
      p := Allow;
    } else if UserApproved(log, n, c, Request(a, k, tool, args)) &&
              exists q :: Asked(q, k) && HasRead(log, n, c, a, k, q) {
      p :| Asked(p, k) && HasRead(log, n, c, a, k, p);
    } else {
      p := Session;
    }
  }

  /** And nothing is trashed or restored on one whose trashing policy nobody has changed, unless the user
      approved that very request. */
  lemma TrashingIsApproved(labels: seq<Label>, r: Run, n: nat, a: AccountId)
    requires Exec(labels) == Some(r) && n < |r.log| && r.log[n].Of? && r.log[n].what.Called?
    requires r.log[n].what.account == a && Untouched(r.log, a, Category.Trash)
    requires EffectOn(r.log[n].what.run) == Category.Trash
    ensures exists tool :: UserApproved(r.log, n, r.log[n].call, Request(a, Category.Trash, tool, r.log[n].what.args))
  {
    EveryProviderCallIsJustified(labels, r, n);
    var i, tool :| Justified(r.log, n, i, tool);
    var p := EntitledRead(r.log, n, r.log[n].call, tool, r.log[n].what.args, a);
    UntouchedPolicy(r.log, n, r.log[n].call, a, Category.Trash, p);
  }

  /** What the history of a call says it read. */
  lemma PolicyOfUntouched(labels: seq<Label>, r: Run, c: CallId)
    requires Exec(labels) == Some(r)
    requires CallAt(r.log, |r.log|, c).policy.Some? && CallAt(r.log, |r.log|, c).entry.Some?
    ensures var h := CallAt(r.log, |r.log|, c);
            Untouched(r.log, h.entry.value.account, ToolCategory(h.entry.value.tool)) ==>
              IsSafe(ToolCategory(h.entry.value.tool), h.policy.value)
  {
    LogIsOk(labels, r);
    var h := CallAt(r.log, |r.log|, c);
    PolicyOrigin(r.log, |r.log|, c);
    if Untouched(r.log, h.entry.value.account, ToolCategory(h.entry.value.tool)) {
      UntouchedPolicy(r.log, |r.log|, c, h.entry.value.account, ToolCategory(h.entry.value.tool), h.policy.value);
    }
  }

  /** What becomes of a dispatch that has read the policy of an untouched pair and is over without having
      been dropped: a send_message whose arguments decode has created a draft; a send_draft has called nothing;
      reading, changing and drafting have called their own method if their arguments decode. */
  lemma WhatAnUntouchedAccountDoes(labels: seq<Label>, r: Run, c: CallId, tool: ToolName, args: Args, a: AccountId)
    requires Exec(labels) == Some(r) && c in r.state.calls && r.state.calls[c].pc == Done
    requires Of(c, Abandoned) !in r.log && CallAt(r.log, |r.log|, c).policy.Some?
    requires CallAt(r.log, |r.log|, c).entry == Some(Entry(tool, args, a)) && Untouched(r.log, a, ToolCategory(tool))
    ensures var called := CallAt(r.log, |r.log|, c).called;
            && (tool == SendMessageTool ==> called == if args.composeOk then Some(CreateDraft) else None)
            && (tool == SendDraftTool ==> called == None)
            && (ToolCategory(tool) != Category.Send && ToolCategory(tool) != Category.Trash ==>
                  (called.Some? <==> Decodes(tool, args)) && (called.Some? ==> ToolOf(called.value) == tool))
  {
    CallsGoOutIff(labels, r, c);
    PolicyOfUntouched(labels, r, c);
  }

  /** Reading, changing and drafting on an untouched pair never ask. */
  lemma NothingIsQueued(labels: seq<Label>, r: Run, n: nat, c: CallId, id: ApprovalId, req: Request)
    requires Exec(labels) == Some(r) && n < |r.log| && r.log[n] == Of(c, Enqueued(id, req))
    requires Untouched(r.log, req.account, req.category)
    ensures req.category == Category.Trash
  {
    LogIsOk(labels, r);
    assert CallEventOk(DigestOf(r.log[..n]), c, Enqueued(id, req))
        by { assert EventOk(DigestOf(r.log[..n]), r.log[n]); }
    PolicyOrigin(r.log, n, c);
    UntouchedPolicy(r.log, n, c, req.account, req.category, CallAt(r.log, n, c).policy.value);
  }
}
