/** What is announced about an approval, how often, and in which order. */
module GatekeeperAnnouncements {
  import opened Prelude
  import opened Policies
  import opened Tools
  import opened Approvals
  import opened Gatekeeper
  import opened GatekeeperProofs
  import opened GatekeeperLogs

  predicate RequestedAt(events: seq<ApprovalEvent>, i: int, id: ApprovalId) {
    0 <= i < |events| && events[i].Requested? && events[i].id == id
  }

  predicate ResolvedAt(events: seq<ApprovalEvent>, i: int, id: ApprovalId) {
    0 <= i < |events| && events[i].Resolved? && events[i].id == id
  }

  ghost predicate Announced(events: seq<ApprovalEvent>, id: ApprovalId) {
    exists i :: RequestedAt(events, i, id)
  }

  /** The caller has queued the approval and is still on its way to announcing it. */
  predicate BeforeAnnouncing(tickets: map<ApprovalId, Ticket>, calls: map<CallId, Call>, id: ApprovalId) {
    id in tickets && tickets[id].caller in calls
    && calls[tickets[id].caller].pc.AtPublish? && calls[tickets[id].caller].pc.id == id
  }

  /** An approval is announced once its caller is past announcing it, and not before. */
  ghost predicate AnnouncedInv(s: State) {
    forall id :: Announced(s.queue.events, id) <==> id in s.tickets && !BeforeAnnouncing(s.tickets, s.calls, id)
  }

  lemma AnnouncedAppend(events: seq<ApprovalEvent>, e: ApprovalEvent, id: ApprovalId)
    ensures Announced(events + [e], id) <==> Announced(events, id) || (e.Requested? && e.id == id)
  {
    var all := events + [e];
    if i :| RequestedAt(events, i, id) {
      assert RequestedAt(all, i, id);
    }
    if i :| RequestedAt(all, i, id) {
      assert i < |events| ==> RequestedAt(events, i, id);
    }
    if e.Requested? && e.id == id {
      assert RequestedAt(all, |events|, id);
    }
  }

  /** A call that is not announcing, before or after, makes no difference to what is being announced. */
  lemma OffTheAnnouncement(tickets: map<ApprovalId, Ticket>, calls: map<CallId, Call>, c: CallId, k: Call)
    requires !k.pc.AtPublish? && (c in calls ==> !calls[c].pc.AtPublish?)
    ensures forall id :: BeforeAnnouncing(tickets, calls[c := k], id) <==> BeforeAnnouncing(tickets, calls, id)
  {
  }

  lemma StrideStaysOff(s: State, c: CallId, t: Stride)
    requires StrideEnabled(s, c, t)
    ensures var s' := StrideStep(s, c, t).state;
            && s'.queue == s.queue && s'.deciders == s.deciders && s'.tickets == s.tickets
            && (c in s.calls ==> !s.calls[c].pc.AtPublish?)
            && (s'.calls == s.calls ||
                (c in s'.calls && s'.calls == s.calls[c := s'.calls[c]] && !s'.calls[c].pc.AtPublish?))
  {
  }

  lemma StrideKeepsAnnounced(s: State, c: CallId, t: Stride)
    requires AnnouncedInv(s) && StrideEnabled(s, c, t)
    ensures AnnouncedInv(StrideStep(s, c, t).state)
  {
    var s' := StrideStep(s, c, t).state;
    StrideStaysOff(s, c, t);
    if s'.calls != s.calls {
      OffTheAnnouncement(s.tickets, s.calls, c, s'.calls[c]);
    }
  }

  /** A call on its way to announcing an approval is the approval's caller. */
  lemma AnnouncerIsCaller(s: State, d: Digest, c: CallId)
    requires Inv(s, d) && c in s.calls && s.calls[c].pc.AtPublish?
    ensures s.calls[c].pc.id in s.tickets && s.tickets[s.calls[c].pc.id].caller == c
  {
    assert PcInv(d, c, s.calls[c]);
  }

  lemma PublishingKeepsAnnounced(s: State, d: Digest, c: CallId)
    requires Inv(s, d) && AnnouncedInv(s) && StageEnabled(s, c, PublishRequest)
    ensures AnnouncedInv(StageStep(s, c, PublishRequest).state)
  {
    var s' := StageStep(s, c, PublishRequest).state;
    AnnouncerIsCaller(s, d, c);
    var e := Requested(s.calls[c].pc.id, RequestOf(s.calls[c]));
    forall id
      ensures Announced(s'.queue.events, id) <==> id in s'.tickets && !BeforeAnnouncing(s'.tickets, s'.calls, id)
    {
      AnnouncedAppend(s.queue.events, e, id);
    }
  }

  lemma InsertingKeepsAnnounced(s: State, d: Digest, c: CallId, id: ApprovalId)
    requires Inv(s, d) && AnnouncedInv(s) && StageEnabled(s, c, Insert(id))
    ensures AnnouncedInv(StageStep(s, c, Insert(id)).state)
  {
    var s' := StageStep(s, c, Insert(id)).state;
    forall x | x in s.tickets
      ensures BeforeAnnouncing(s'.tickets, s'.calls, x) <==> BeforeAnnouncing(s.tickets, s.calls, x)
    {
      assert TicketInv(s, d, x);
    }
    assert BeforeAnnouncing(s'.tickets, s'.calls, id);
  }

  /** A stage other than these two neither starts nor ends an announcement. */
  lemma OtherStagesStayOff(s: State, c: CallId, t: Stage)
    requires StageEnabled(s, c, t) && !t.Insert? && t != PublishRequest
    ensures var s' := StageStep(s, c, t).state;
            && s'.queue.events == s.queue.events && !s.calls[c].pc.AtPublish?
            && c in s'.calls && s'.calls == s.calls[c := s'.calls[c]] && !s'.calls[c].pc.AtPublish?
            && s'.tickets.Keys == s.tickets.Keys
            && forall id | id in s.tickets :: s'.tickets[id].caller == s.tickets[id].caller
  {
  }

  lemma SameCallers(tickets: map<ApprovalId, Ticket>, tickets': map<ApprovalId, Ticket>, calls: map<CallId, Call>)
    requires tickets'.Keys == tickets.Keys && forall id | id in tickets :: tickets'[id].caller == tickets[id].caller
    ensures forall id :: BeforeAnnouncing(tickets', calls, id) <==> BeforeAnnouncing(tickets, calls, id)
  {
  }

  lemma StageKeepsAnnounced(s: State, d: Digest, c: CallId, t: Stage)
    requires Inv(s, d) && AnnouncedInv(s) && StageEnabled(s, c, t)
    ensures AnnouncedInv(StageStep(s, c, t).state)
  {
    match t
    case PublishRequest => PublishingKeepsAnnounced(s, d, c);
    case Insert(id) => InsertingKeepsAnnounced(s, d, c, id);
    case _ =>
      var s' := StageStep(s, c, t).state;
      OtherStagesStayOff(s, c, t);
      OffTheAnnouncement(s.tickets, s.calls, c, s'.calls[c]);
      SameCallers(s.tickets, s'.tickets, s'.calls);
  }

  lemma PhaseKeepsAnnounced(s: State, x: DeciderId, t: Phase)
    requires AnnouncedInv(s) && PhaseEnabled(s, x, t)
    ensures AnnouncedInv(PhaseStep(s, x, t).state)
  {
    var s' := PhaseStep(s, x, t).state;
    forall id
      ensures Announced(s'.queue.events, id) <==> Announced(s.queue.events, id)
      ensures BeforeAnnouncing(s'.tickets, s'.calls, id) <==> BeforeAnnouncing(s.tickets, s.calls, id)
    {
      if t == PublishDecision {
        AnnouncedAppend(s.queue.events, Resolved(s.deciders[x].id, s.deciders[x].decision), id);
      }
    }
  }

  lemma StepKeepsAnnounced(s: State, d: Digest, l: Label)
    requires Inv(s, d) && AnnouncedInv(s) && Enabled(s, l)
    ensures AnnouncedInv(Step(s, l).state)
  {
    match l
    case Setting(t) => ChangeKeepsAnnounced(s, t);
    case Dispatch(c, t) => StrideKeepsAnnounced(s, c, t);
    case Approval(c, t) => StageKeepsAnnounced(s, d, c, t);
    case Decide(x, t) => PhaseKeepsAnnounced(s, x, t);
  }

  lemma ChangeKeepsAnnounced(s: State, t: Change)
    requires AnnouncedInv(s)
    ensures AnnouncedInv(ChangeStep(s, t).state)
  {
    var s' := ChangeStep(s, t).state;
    assert s'.tickets == s.tickets && s'.calls == s.calls && s'.queue == s.queue;
  }

  /** At every point of every run: an approval has been announced exactly if it was enqueued and its
      caller is past announcing it. */
  lemma {:induction false} AnnouncedOnceQueued(labels: seq<Label>, r: Run)
    requires Exec(labels) == Some(r)
    ensures AnnouncedInv(r.state)
  {
    if labels == [] {
      assert forall id, i :: !RequestedAt(START.queue.events, i, id);
    } else {
      var init := labels[..|labels| - 1];
      var r0 := Exec(init).value;
      AnnouncedOnceQueued(init, r0);
      RunKeepsInv(init, r0);
      StepKeepsAnnounced(r0.state, DigestOf(r0.log), labels[|labels| - 1]);
    }
  }

  // ----- once -----

  predicate Deciding(deciders: map<DeciderId, Decider>, x: DeciderId, id: ApprovalId) {
    x in deciders && (deciders[x].Holding? || deciders[x].Sent?) && deciders[x].id == id
  }

  /** At most one decision of an approval is under way, and none once it has been announced. */
  ghost predicate DecidingInv(deciders: map<DeciderId, Decider>, events: seq<ApprovalEvent>) {
    && (forall x, y, id :: Deciding(deciders, x, id) && Deciding(deciders, y, id) ==> x == y)
    && (forall x, i, id :: ResolvedAt(events, i, id) ==> !Deciding(deciders, x, id))
  }

  ghost predicate Once(events: seq<ApprovalEvent>) {
    && (forall i, j, id :: RequestedAt(events, i, id) && RequestedAt(events, j, id) ==> i == j)
    && (forall i, j, id :: ResolvedAt(events, i, id) && ResolvedAt(events, j, id) ==> i == j)
  }

  lemma PendingIsUndecided(s: State, d: Digest, id: ApprovalId)
    requires Inv(s, d) && id in s.queue.pending
    ensures forall x :: !Deciding(s.deciders, x, id)
    ensures forall i :: !ResolvedAt(s.queue.events, i, id)
  {
    assert TicketInv(s, d, id);
    assert FateOf(d.fates, id).decision.None?;
    forall i
      ensures !ResolvedAt(s.queue.events, i, id)
    {
      assert forall dec :: Resolved(id, dec) !in s.queue.events;
      if 0 <= i < |s.queue.events| && s.queue.events[i].Resolved? {
        assert Resolved(s.queue.events[i].id, s.queue.events[i].decision) in s.queue.events;
      }
    }
  }

  lemma TakenIsDeciding(deciders: map<DeciderId, Decider>, events: seq<ApprovalEvent>, x: DeciderId, deciding: Decider)
    requires DecidingInv(deciders, events) && x !in deciders && deciding.Holding?
    requires (forall y :: !Deciding(deciders, y, deciding.id)) && forall i :: !ResolvedAt(events, i, deciding.id)
    ensures DecidingInv(deciders[x := deciding], events)
  {
    var after := deciders[x := deciding];
    assert forall y, j | Deciding(after, y, j) :: Deciding(deciders, y, j) || (y == x && j == deciding.id);
  }

  lemma MissedIsNotDeciding(deciders: map<DeciderId, Decider>, events: seq<ApprovalEvent>, x: DeciderId)
    requires DecidingInv(deciders, events)
    ensures DecidingInv(deciders[x := Finished], events)
  {
    var after := deciders[x := Finished];
    assert forall y, j | Deciding(after, y, j) :: Deciding(deciders, y, j);
  }

  lemma DeliveredIsDeciding(deciders: map<DeciderId, Decider>, events: seq<ApprovalEvent>, x: DeciderId,
                            deciding: Decider)
    requires DecidingInv(deciders, events) && deciding.Sent? && Deciding(deciders, x, deciding.id)
    ensures DecidingInv(deciders[x := deciding], events)
  {
    var after := deciders[x := deciding];
    assert forall y, j | Deciding(after, y, j) :: Deciding(deciders, y, j);
  }

  lemma ResolvedIsNotDeciding(deciders: map<DeciderId, Decider>, events: seq<ApprovalEvent>, x: DeciderId,
          e: ApprovalEvent)
    requires DecidingInv(deciders, events) && e.Resolved? && Deciding(deciders, x, e.id)
    ensures DecidingInv(deciders[x := Finished], events + [e])
  {
    var after, all := deciders[x := Finished], events + [e];
    assert forall y, j | Deciding(after, y, j) :: y != x && Deciding(deciders, y, j);
    assert forall i, j | ResolvedAt(all, i, j) :: ResolvedAt(events, i, j) || j == e.id;
  }

  lemma PhaseKeepsDeciding(s: State, d: Digest, x: DeciderId, t: Phase)
    requires Inv(s, d) && DecidingInv(s.deciders, s.queue.events) && PhaseEnabled(s, x, t)
    ensures DecidingInv(PhaseStep(s, x, t).state.deciders, PhaseStep(s, x, t).state.queue.events)
  {
    match t
    case Take(id, decision) =>
      if id in s.queue.pending {
        PendingIsUndecided(s, d, id);
        TakenIsDeciding(s.deciders, s.queue.events, x, Holding(id, decision));
      } else {
        MissedIsNotDeciding(s.deciders, s.queue.events, x);
      }
    case Deliver =>
      DeliveredIsDeciding(s.deciders, s.queue.events, x, Sent(s.deciders[x].id, s.deciders[x].decision));
    case PublishDecision =>
      ResolvedIsNotDeciding(s.deciders, s.queue.events, x, Resolved(s.deciders[x].id, s.deciders[x].decision));
  }

  lemma OnceAppend(events: seq<ApprovalEvent>, e: ApprovalEvent)
    requires Once(events)
    requires if e.Requested? then !Announced(events, e.id) else forall i :: !ResolvedAt(events, i, e.id)
    ensures Once(events + [e])
  {
    var all := events + [e];
    assert forall i, id | i < |events| ::
      && (RequestedAt(all, i, id) <==> RequestedAt(events, i, id))
      && (ResolvedAt(all, i, id) <==> ResolvedAt(events, i, id));
  }

  /** What a step announces, if anything. */
  function News(s: State, l: Label): Option<ApprovalEvent>
    requires Enabled(s, l)
  {
    match l
    case Approval(c, PublishRequest) => Some(Requested(s.calls[c].pc.id, RequestOf(s.calls[c])))
    case Decide(x, PublishDecision) => Some(Resolved(s.deciders[x].id, s.deciders[x].decision))
    case _ => None
  }

  lemma StageAnnounces(s: State, c: CallId, t: Stage)
    requires StageEnabled(s, c, t)
    ensures StageStep(s, c, t).state.deciders == s.deciders
    ensures StageStep(s, c, t).state.queue.events ==
              if t == PublishRequest then s.queue.events + [Requested(s.calls[c].pc.id, RequestOf(s.calls[c]))]
              else s.queue.events
  {
  }

  lemma PhaseAnnounces(s: State, x: DeciderId, t: Phase)
    requires PhaseEnabled(s, x, t)
    ensures PhaseStep(s, x, t).state.queue.events ==
              if t == PublishDecision then s.queue.events + [Resolved(s.deciders[x].id, s.deciders[x].decision)]
              else s.queue.events
  {
  }

  lemma ChangeAnnounces(s: State, t: Change)
    ensures ChangeStep(s, t).state.queue == s.queue && ChangeStep(s, t).state.deciders == s.deciders
  {
  }

  lemma StepAnnounces(s: State, l: Label)
    requires Enabled(s, l)
    ensures Step(s, l).state.queue.events
      == match News(s, l) case None => s.queue.events case Some(e) => s.queue.events + [e]
    ensures !l.Decide? ==> Step(s, l).state.deciders == s.deciders
  {
    match l
    case Setting(t) => ChangeAnnounces(s, t);
    case Dispatch(c, t) => StrideStaysOff(s, c, t);
    case Approval(c, t) => StageAnnounces(s, c, t);
    case Decide(x, t) => PhaseAnnounces(s, x, t);
  }

  lemma StepKeepsDeciding(s: State, d: Digest, l: Label)
    requires Inv(s, d) && DecidingInv(s.deciders, s.queue.events) && Enabled(s, l)
    ensures DecidingInv(Step(s, l).state.deciders, Step(s, l).state.queue.events)
  {
    if l.Decide? {
      PhaseKeepsDeciding(s, d, l.decider, l.phase);
    } else {
      StepAnnounces(s, l);
      if News(s, l).Some? {
        RequestsDecideNothing(s.deciders, s.queue.events, News(s, l).value);
      }
    }
  }

  lemma RequestsDecideNothing(deciders: map<DeciderId, Decider>, events: seq<ApprovalEvent>, e: ApprovalEvent)
    requires DecidingInv(deciders, events) && e.Requested?
    ensures DecidingInv(deciders, events + [e])
  {
    assert forall i, j | ResolvedAt(events + [e], i, j) :: ResolvedAt(events, i, j);
  }

  lemma StepKeepsOnce(s: State, d: Digest, l: Label)
    requires Inv(s, d) && AnnouncedInv(s) && DecidingInv(s.deciders, s.queue.events) && Once(s.queue.events)
    requires Enabled(s, l)
    ensures Once(Step(s, l).state.queue.events)
  {
    StepAnnounces(s, l);
    match News(s, l)
    case None =>
    case Some(e) =>
      if l.Approval? {
        AnnouncerIsCaller(s, d, l.call);
      } else {
        assert Deciding(s.deciders, l.decider, e.id);
      }
      OnceAppend(s.queue.events, e);
  }

  /** Every approval is announced at most once, and so is its decision. */
  lemma {:induction false} AnnouncedAtMostOnce(labels: seq<Label>, r: Run)
    requires Exec(labels) == Some(r)
    ensures DecidingInv(r.state.deciders, r.state.queue.events) && Once(r.state.queue.events)
  {
    if labels != [] {
      var init := labels[..|labels| - 1];
      var r0 := Exec(init).value;
      AnnouncedAtMostOnce(init, r0);
      AnnouncedOnceQueued(init, r0);
      RunKeepsInv(init, r0);
      StepKeepsDeciding(r0.state, DigestOf(r0.log), labels[|labels| - 1]);
      StepKeepsOnce(r0.state, DigestOf(r0.log), labels[|labels| - 1]);
    }
  }

  // ----- in which order -----

  /** The decision was announced when the approval had not been. */
  ghost predicate ResolvedFirst(events: seq<ApprovalEvent>, id: ApprovalId) {
    exists i :: ResolvedAt(events, i, id) && !Announced(events[..i], id)
  }

  /** Step k announces a decision while the caller is still on its way to announcing the approval. */
  ghost predicate OvertakesAt(labels: seq<Label>, k: int, id: ApprovalId) {
    && 0 <= k < |labels| && labels[k].Decide? && labels[k].phase == PublishDecision
    && Exec(labels[..k]).Some?
    && var s := Exec(labels[..k]).value.state;
       && labels[k].decider in s.deciders && s.deciders[labels[k].decider].Sent?
       && s.deciders[labels[k].decider].id == id
       && BeforeAnnouncing(s.tickets, s.calls, id)
  }

  lemma ResolvedFirstAppend(events: seq<ApprovalEvent>, e: ApprovalEvent, id: ApprovalId)
    ensures ResolvedFirst(events + [e], id) <==>
              ResolvedFirst(events, id) || (e.Resolved? && e.id == id && !Announced(events, id))
  {
    var all := events + [e];
    assert all[..|events|] == events;
    forall i | 0 <= i < |events|
      ensures all[..i] == events[..i]
      ensures ResolvedAt(all, i, id) <==> ResolvedAt(events, i, id)
    {
    }
    if e.Resolved? && e.id == id && !Announced(events, id) {
      assert ResolvedAt(all, |events|, id);
    }
    if i :| ResolvedAt(events, i, id) && !Announced(events[..i], id) {
      assert ResolvedAt(all, i, id) && !Announced(all[..i], id);
    }
    if i :| ResolvedAt(all, i, id) && !Announced(all[..i], id) {
      assert i < |events| ==> ResolvedAt(events, i, id) && !Announced(events[..i], id);
    }
  }

  lemma OvertakesAppend(labels: seq<Label>, id: ApprovalId)
    requires labels != []
    ensures var init := labels[..|labels| - 1];
            (exists k :: OvertakesAt(labels, k, id)) <==>
              (exists k :: OvertakesAt(init, k, id)) || OvertakesAt(labels, |labels| - 1, id)
  {
    var init := labels[..|labels| - 1];
    forall k | 0 <= k < |init|
      ensures OvertakesAt(labels, k, id) <==> OvertakesAt(init, k, id)
    {
      assert labels[..k] == init[..k];
    }
    if k :| OvertakesAt(labels, k, id) {
      assert k < |init| ==> OvertakesAt(init, k, id);
    }
    if k :| OvertakesAt(init, k, id) {
      assert OvertakesAt(labels, k, id);
    }
  }

  /** What the last step does to the order. */
  lemma LastStepOvertakes(labels: seq<Label>, r0: Run, l: Label, id: ApprovalId)
    requires Exec(labels) == Some(r0) && Enabled(r0.state, l) && AnnouncedInv(r0.state)
        && Inv(r0.state, DigestOf(r0.log))
    ensures var e := News(r0.state, l);
            OvertakesAt(labels + [l], |labels|, id) <==>
              e.Some? && e.value.Resolved? && e.value.id == id && !Announced(r0.state.queue.events, id)
  {
    assert (labels + [l])[..|labels|] == labels;
    if l.Decide? && l.phase == PublishDecision {
      var s := r0.state;
      DecidedIsQueued(s, DigestOf(r0.log), l.decider);
    }
  }

  lemma DecidedIsQueued(s: State, d: Digest, x: DeciderId)
    requires Inv(s, d) && x in s.deciders && s.deciders[x].Sent?
    ensures s.deciders[x].id in s.tickets
  {
    assert FateOf(d.fates, s.deciders[x].id).decision.Some?;
  }

  lemma StepResolvesFirst(s: State, l: Label, id: ApprovalId)
    requires Enabled(s, l)
    ensures ResolvedFirst(Step(s, l).state.queue.events, id) <==>
              || ResolvedFirst(s.queue.events, id)
              || (News(s, l).Some? && News(s, l).value.Resolved? && News(s, l).value.id == id
                  && !Announced(s.queue.events, id))
  {
    StepAnnounces(s, l);
    if News(s, l).Some? {
      ResolvedFirstAppend(s.queue.events, News(s, l).value, id);
    }
  }

  /** One step more, on either side of the equivalence. */
  lemma LastStepOnBothSides(labels: seq<Label>, r0: Run, l: Label, id: ApprovalId)
    requires Exec(labels) == Some(r0) && Enabled(r0.state, l)
    ensures ResolvedFirst(Step(r0.state, l).state.queue.events, id) <==>
              ResolvedFirst(r0.state.queue.events, id) || OvertakesAt(labels + [l], |labels|, id)
  {
    AnnouncedOnceQueued(labels, r0);
    RunKeepsInv(labels, r0);
    StepResolvesFirst(r0.state, l, id);
    LastStepOvertakes(labels, r0, l, id);
  }

  /** For every run and approval: the decision is announced before the approval if and only if some
      step announced the decision while the caller stood between queueing and announcing. */
  lemma {:induction false} ResolvedFirstIffItOvertakes(labels: seq<Label>, r: Run, id: ApprovalId)
    requires Exec(labels) == Some(r)
    ensures ResolvedFirst(r.state.queue.events, id) <==> exists k :: OvertakesAt(labels, k, id)
  {
    if labels != [] {
      var init, l := labels[..|labels| - 1], labels[|labels| - 1];
      var r0 := Exec(init).value;
      ResolvedFirstIffItOvertakes(init, r0, id);
      assert labels == init + [l];
      LastStepOnBothSides(init, r0, l, id);
      OvertakesAppend(labels, id);
    }
  }

  /** Every decider decides only what had been announced when it took it. */
  ghost predicate TakesOnlyAnnounced(labels: seq<Label>) {
    if labels == [] then true
    else
      var init, l := labels[..|labels| - 1], labels[|labels| - 1];
      && TakesOnlyAnnounced(init)
      && (l.Decide? && l.phase.Take? ==>
            Exec(init).Some? && Announced(Exec(init).value.state.queue.events, l.phase.id))
  }

  /** Then no decision is announced before its approval, nor while it is not. */
  lemma {:induction false} DecidingTheAnnouncedKeepsOrder(labels: seq<Label>, r: Run, id: ApprovalId)
    requires Exec(labels) == Some(r) && TakesOnlyAnnounced(labels)
    ensures !ResolvedFirst(r.state.queue.events, id)
    ensures forall x :: Deciding(r.state.deciders, x, id) ==> Announced(r.state.queue.events, id)
  {
    if labels != [] {
      var init, l := labels[..|labels| - 1], labels[|labels| - 1];
      var r0 := Exec(init).value;
      DecidingTheAnnouncedKeepsOrder(init, r0, id);
      StepAnnounces(r0.state, l);
      if News(r0.state, l).Some? {
        var e := News(r0.state, l).value;
        ResolvedFirstAppend(r0.state.queue.events, e, id);
        AnnouncedAppend(r0.state.queue.events, e, id);
        if l.Decide? {
          assert Deciding(r0.state.deciders, l.decider, e.id);
        }
      }
      DecidersAreOld(r0.state, l, id);
    }
  }

  /** Whoever decides an approval after a step did so before, or has just taken it. */
  lemma DecidersAreOld(s: State, l: Label, id: ApprovalId)
    requires Enabled(s, l)
    ensures forall x | Deciding(Step(s, l).state.deciders, x, id) ::
              Deciding(s.deciders, x, id) || (l.Decide? && l.phase.Take? && l.phase.id == id)
  {
    if l.Decide? {
      PhaseTakesOnlyOne(s, l.decider, l.phase, id);
    } else {
      StepAnnounces(s, l);
    }
  }

  lemma PhaseTakesOnlyOne(s: State, x: DeciderId, t: Phase, id: ApprovalId)
    requires PhaseEnabled(s, x, t)
    ensures forall y | Deciding(PhaseStep(s, x, t).state.deciders, y, id) ::
              Deciding(s.deciders, y, id) || (t.Take? && t.id == id)
  {
  }
}
