/** How the dispatches that asked the user end, also when they are dropped while they wait. */
module GatekeeperEndings {
  import opened Prelude
  import opened Policies
  import opened Tools
  import opened Approvals
  import opened Gatekeeper
  import opened GatekeeperProofs
  import opened GatekeeperSteps
  import opened GatekeeperLogs
  import opened GatekeeperTheorems

  function PcOf(calls: map<CallId, Call>, c: CallId): Option<Pc> {
    if c in calls then Some(calls[c].pc) else None
  }

  predicate Asking(pc: Pc) {
    pc.AtPublish? || pc.AtWait? || pc.AtCleanup?
  }

  /** A dropped dispatch is over and was told nothing; one that has asked and neither was told nor
      was dropped is still asking. */
  predicate EndFits(pc: Option<Pc>, h: CallHistory, dropped: bool) {
    && (dropped ==> pc == Some(Done) && h.outcome.None?)
    && (h.ticket.Some? ==> dropped || h.outcome.Some? || (pc.Some? && Asking(pc.value)))
  }

  /** What a step makes of the dispatch it belongs to. */
  predicate EndFitsAfter(f: Effect, d: Digest, c: CallId, dropped: bool) {
    EndFits(PcOf(f.state.calls, c), HistoryOf(Next(d, f.event).calls, c),
            dropped || f.event == Some(Of(c, Abandoned)))
  }

  lemma EnterEnds(s: State, d: Digest, c: CallId, tool: ToolName, args: Args, dropped: bool)
    requires StrideEnabled(s, c, Enter(tool, args)) && c !in d.calls
    requires EndFits(PcOf(s.calls, c), HistoryOf(d.calls, c), dropped)
    ensures EndFitsAfter(StrideStep(s, c, Enter(tool, args)), d, c, dropped)
  {
  }

  /** A dispatch that has not asked yet. */
  lemma EarlyStrideEnds(s: State, d: Digest, c: CallId, t: Stride, dropped: bool)
    requires StrideEnabled(s, c, t) && (t == LookUp || t == ReadPolicy || t == ReadTrust || t == Leave)
    requires PcInv(d, c, s.calls[c])
    requires EndFits(PcOf(s.calls, c), HistoryOf(d.calls, c), dropped)
    ensures EndFitsAfter(StrideStep(s, c, t), d, c, dropped)
  {
  }

  /** One that has been answered, or need not ask. */
  lemma LateStrideEnds(s: State, d: Digest, c: CallId, t: Stride, dropped: bool)
    requires StrideEnabled(s, c, t) && (t == Grant || t == Execute || t == Convert)
    requires EndFits(PcOf(s.calls, c), HistoryOf(d.calls, c), dropped)
    ensures EndFitsAfter(StrideStep(s, c, t), d, c, dropped)
  {
  }

  lemma StrideEnds(s: State, d: Digest, c: CallId, t: Stride, dropped: bool)
    requires CallsInv(s, d) && StrideEnabled(s, c, t)
    requires EndFits(PcOf(s.calls, c), HistoryOf(d.calls, c), dropped)
    ensures EndFitsAfter(StrideStep(s, c, t), d, c, dropped)
  {
    match t
    case Enter(tool, args) => EnterEnds(s, d, c, tool, args, dropped);
    case Grant | Execute | Convert => LateStrideEnds(s, d, c, t, dropped);
    case _ => EarlyStrideEnds(s, d, c, t, dropped);
  }

  lemma AskingEnds(s: State, d: Digest, c: CallId, t: Stage, dropped: bool)
    requires StageEnabled(s, c, t) && (t.Insert? || t == PublishRequest || t == FireTimer)
    requires PcInv(d, c, s.calls[c])
    requires EndFits(PcOf(s.calls, c), HistoryOf(d.calls, c), dropped)
    ensures EndFitsAfter(StageStep(s, c, t), d, c, dropped)
  {
  }

  lemma ToldEnds(s: State, d: Digest, c: CallId, t: Stage, dropped: bool)
    requires StageEnabled(s, c, t) && (t == Receive || t == CleanUp || t == Abandon)
    requires PcInv(d, c, s.calls[c])
    requires EndFits(PcOf(s.calls, c), HistoryOf(d.calls, c), dropped)
    ensures EndFitsAfter(StageStep(s, c, t), d, c, dropped)
  {
  }

  lemma StageEnds(s: State, d: Digest, c: CallId, t: Stage, dropped: bool)
    requires Inv(s, d) && StageEnabled(s, c, t)
    requires EndFits(PcOf(s.calls, c), HistoryOf(d.calls, c), dropped)
    ensures EndFitsAfter(StageStep(s, c, t), d, c, dropped)
  {
    assert PcInv(d, c, s.calls[c]);
    match t
    case Insert(_) | PublishRequest | FireTimer => AskingEnds(s, d, c, t, dropped);
    case Receive | CleanUp | Abandon => ToldEnds(s, d, c, t, dropped);
    case SeeDropped => SenderNeverLost(s, d, c);
  }

  /** The step leaves dispatch `c` where it is. */
  predicate Bystander(s: State, f: Effect, c: CallId) {
    && PcOf(f.state.calls, c) == PcOf(s.calls, c)
    && (f.event.Some? && f.event.value.Of? ==> f.event.value.call != c)
  }

  lemma StrideOfAnother(s: State, x: CallId, t: Stride, c: CallId)
    requires StrideEnabled(s, x, t) && x != c
    ensures Bystander(s, StrideStep(s, x, t), c)
  {
  }

  lemma StageOfAnother(s: State, x: CallId, t: Stage, c: CallId)
    requires StageEnabled(s, x, t) && x != c
    ensures Bystander(s, StageStep(s, x, t), c)
  {
  }

  lemma OthersStay(s: State, l: Label, c: CallId)
    requires Enabled(s, l) && (l.Dispatch? || l.Approval? ==> l.call != c)
    ensures Bystander(s, Step(s, l), c)
  {
    match l
    case Dispatch(x, t) => StrideOfAnother(s, x, t, c);
    case Approval(x, t) => StageOfAnother(s, x, t, c);
    case _ =>
  }

  lemma BystanderEnds(s: State, d: Digest, f: Effect, c: CallId, dropped: bool)
    requires Bystander(s, f, c) && EndFits(PcOf(s.calls, c), HistoryOf(d.calls, c), dropped)
    ensures EndFitsAfter(f, d, c, dropped)
  {
    if f.event.Some? {
      DigestedCall(d, f.event.value, c);
    }
  }

  lemma StepEnds(s: State, d: Digest, l: Label, c: CallId, dropped: bool)
    requires Inv(s, d) && Enabled(s, l)
    requires EndFits(PcOf(s.calls, c), HistoryOf(d.calls, c), dropped)
    ensures EndFitsAfter(Step(s, l), d, c, dropped)
  {
    if l.Dispatch? && l.call == c {
      StrideEnds(s, d, c, l.stride, dropped);
    } else if l.Approval? && l.call == c {
      StageEnds(s, d, c, l.stage, dropped);
    } else {
      OthersStay(s, l, c);
      BystanderEnds(s, d, Step(s, l), c, dropped);
    }
  }

  lemma {:induction false} RunEnds(labels: seq<Label>, r: Run, c: CallId)
    requires Exec(labels) == Some(r)
    ensures EndFits(PcOf(r.state.calls, c), HistoryOf(DigestOf(r.log).calls, c), Of(c, Abandoned) in r.log)
  {
    if labels != [] {
      var l := labels[|labels| - 1];
      var r0 := Exec(labels[..|labels| - 1]).value;
      RunEnds(labels[..|labels| - 1], r0, c);
      RunKeepsInv(labels[..|labels| - 1], r0);
      StepEnds(r0.state, DigestOf(r0.log), l, c, Of(c, Abandoned) in r0.log);
      if Step(r0.state, l).event.Some? {
        DigestOfAppend(r0.log, Step(r0.state, l).event.value);
      }
    }
  }

  /** Approve does not imply Approved. Of a dispatch whose approval was decided Approve, at any point of
      any run: it has been told Approved if and only if its timer has not fired, it was not dropped, and it
      is not still on its way to being told. */
  lemma ApproveReachesTheWaiterIff(labels: seq<Label>, r: Run, c: CallId)
    requires Exec(labels) == Some(r)
    requires var h := CallAt(r.log, |r.log|, c);
             h.ticket.Some? && FateAt(r.log, |r.log|, h.ticket.value).decision == Some(Approve)
    ensures c in r.state.calls
    ensures CallAt(r.log, |r.log|, c).outcome == Some(Approved) <==>
              && !CallAt(r.log, |r.log|, c).timerFired
              && Of(c, Abandoned) !in r.log
              && !Waits(r.state.calls[c].pc, CallAt(r.log, |r.log|, c).ticket.value)
  {
    RunKeepsInv(labels, r);
    RunEnds(labels, r, c);
    assert r.log[..|r.log|] == r.log;
    if CallAt(r.log, |r.log|, c).outcome.Some? {
      ApproveReachesTheSettledIffNoTimer(labels, r, c);
    }
    assert PcInv(DigestOf(r.log), c, r.state.calls[c]);
  }

  // ----- every dispatch can end -----

  function Rank(pc: Pc): nat {
    match pc
    case AtRegistry => 8
    case AtPolicy => 7
    case AtTrust => 6
    case AtInsert(_) => 5
    case AtPublish(_, _) => 4
    case AtWait(_, _) => 3
    case AtCleanup(_) => 1
    case AtGrant(_) => 2
    case AtExecute => 1
    case AtDraft => 1
    case Done => 0
  }

  /** What the dispatch does next, without being dropped; `id` is for its approval, if it asks. */
  function NextOwn(s: State, c: CallId, id: ApprovalId): Label
    requires c in s.calls
  {
    match s.calls[c].pc
    case AtRegistry => Dispatch(c, LookUp)
    case AtPolicy => Dispatch(c, ReadPolicy)
    case AtTrust => Dispatch(c, ReadTrust)
    case AtInsert(_) => Approval(c, Insert(id))
    case AtPublish(_, _) => Approval(c, PublishRequest)
    case AtWait(x, _) =>
      if x in s.tickets && s.tickets[x].content.Some? then Approval(c, Receive) else Approval(c, FireTimer)
    case AtCleanup(_) => Approval(c, CleanUp)
    case AtGrant(_) => Dispatch(c, Grant)
    case AtDraft => Dispatch(c, Convert)
    case _ => Dispatch(c, Execute)
  }

  predicate OwnStep(l: Label, c: CallId) {
    || (l.Dispatch? && l.call == c && l.stride != Leave)
    || (l.Approval? && l.call == c && l.stage != Abandon)
  }

  lemma OwnStepIsEnabled(s: State, d: Digest, c: CallId, id: ApprovalId)
    requires Inv(s, d) && c in s.calls && s.calls[c].pc != Done
    requires id !in s.tickets || Rank(s.calls[c].pc) <= 4
    ensures Enabled(s, NextOwn(s, c, id)) && OwnStep(NextOwn(s, c, id), c)
  {
    assert PcInv(d, c, s.calls[c]);
    if s.calls[c].pc.AtWait? {
      SenderNeverLost(s, d, c);
      assert s.calls[c].pc.id in s.tickets;
    }
  }

  predicate Ranks(s: State, s': State, c: CallId) {
    c in s.calls && c in s'.calls && Rank(s'.calls[c].pc) < Rank(s.calls[c].pc) && s'.tickets == s.tickets
  }

  lemma ReadRanks(s: State, c: CallId, t: Stride)
    requires StrideEnabled(s, c, t) && (t == LookUp || t == ReadPolicy || t == ReadTrust || t == Grant)
    ensures Ranks(s, StrideStep(s, c, t).state, c)
  {
  }

  lemma CallRanks(s: State, c: CallId, t: Stride)
    requires StrideEnabled(s, c, t) && (t == Execute || t == Convert)
    ensures Ranks(s, StrideStep(s, c, t).state, c)
  {
  }

  lemma StrideRanks(s: State, c: CallId, t: Stride)
    requires StrideEnabled(s, c, t) && !t.Enter? && t != Leave
    ensures Ranks(s, StrideStep(s, c, t).state, c)
  {
    if t == Execute || t == Convert {
      CallRanks(s, c, t);
    } else {
      ReadRanks(s, c, t);
    }
  }

  lemma StageRanks(s: State, c: CallId, t: Stage)
    requires StageEnabled(s, c, t) && t != Abandon
    ensures var s' := StageStep(s, c, t).state;
            && c in s'.calls && Rank(s'.calls[c].pc) < Rank(s.calls[c].pc)
            && s'.tickets.Keys == if t.Insert? then s.tickets.Keys + {t.id} else s.tickets.Keys
  {
  }

  /** Nothing keeps a dispatch from ending: from any point of any run its own steps alone take it to its end,
      without its being dropped. */
  lemma {:induction false} EveryDispatchCanEnd(labels: seq<Label>, r: Run, c: CallId, id: ApprovalId)
    returns (all: seq<Label>, r': Run)
    requires Exec(labels) == Some(r) && c in r.state.calls
    requires id !in r.state.tickets || Rank(r.state.calls[c].pc) <= 4
    ensures labels <= all && (forall i | |labels| <= i < |all| :: OwnStep(all[i], c))
    ensures Exec(all) == Some(r') && c in r'.state.calls && r'.state.calls[c].pc == Done
    decreases Rank(r.state.calls[c].pc)
  {
    if r.state.calls[c].pc == Done {
      all, r' := labels, r;
    } else {
      var l, r1 := OneOwnStep(labels, r, c, id);
      all, r' := EveryDispatchCanEnd(labels + [l], r1, c, id);
      assert all[|labels|] == l;
    }
  }

  lemma OneOwnStep(labels: seq<Label>, r: Run, c: CallId, id: ApprovalId) returns (l: Label, r': Run)
    requires Exec(labels) == Some(r) && c in r.state.calls && r.state.calls[c].pc != Done
    requires id !in r.state.tickets || Rank(r.state.calls[c].pc) <= 4
    ensures OwnStep(l, c) && Exec(labels + [l]) == Some(r') && c in r'.state.calls
    ensures Rank(r'.state.calls[c].pc) < Rank(r.state.calls[c].pc)
    ensures id !in r'.state.tickets || Rank(r'.state.calls[c].pc) <= 4
  {
    RunKeepsInv(labels, r);
    l := NextOwn(r.state, c, id);
    OwnStepIsEnabled(r.state, DigestOf(r.log), c, id);
    match l {
      case Dispatch(_, t) => StrideRanks(r.state, c, t);
      case Approval(_, t) => StageRanks(r.state, c, t);
    }
    assert (labels + [l])[..|labels|] == labels;
    r' := Exec(labels + [l]).value;
  }
}
