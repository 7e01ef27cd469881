/** Every step of the gatekeeper keeps the invariant. Two frame lemmas say what a dispatch
    leaves alone when it moves; the rest is one small obligation per kind of step. */
module GatekeeperSteps {
  import opened Prelude
  import opened Policies
  import opened Tools
  import opened Approvals
  import opened Gatekeeper
  import opened GatekeeperProofs

  /** The digest after a step. */
  function Next(d: Digest, e: Option<Event>): Digest {
    match e case None => d case Some(e) => Digested(d, e)
  }

  /** Call `c` is the only one that changed, and it is still the same request. */
  ghost predicate OnlyCall(s: State, d: Digest, s': State, d': Digest, c: CallId) {
    && c in s'.calls && s'.calls == s.calls[c := s'.calls[c]]
    && c in d'.calls && d'.calls == d.calls[c := d'.calls[c]]
    && (c in s.calls ==> RequestOf(s'.calls[c]) == RequestOf(s.calls[c]))
    && PcInv(d', c, s'.calls[c])
  }

  predicate OnTicket(pc: Pc) {
    pc.AtPublish? || pc.AtWait?
  }

  /** A move that leaves tickets, queue and deciders alone. */
  lemma LocalMove(s: State, d: Digest, s': State, d': Digest, c: CallId)
    requires CallsInv(s, d) && TicketsInv(s, d) && DecidersInv(s, d) && EventsInv(s, d)
    requires s'.queue == s.queue && s'.tickets == s.tickets && s'.deciders == s.deciders
    requires OnlyCall(s, d, s', d', c) && d'.fates == d.fates
    requires HistoryOf(d'.calls, c).ticket == HistoryOf(d.calls, c).ticket
    requires c in s.calls ==> !OnTicket(s.calls[c].pc)
    requires !OnTicket(s'.calls[c].pc)
    ensures CallsInv(s', d') && TicketsInv(s', d') && DecidersInv(s', d') && EventsInv(s', d')
  {
    LocalMoveCalls(s, d, s', d', c);
    LocalMoveTickets(s, d, s', d', c);
  }

  lemma LocalMoveCalls(s: State, d: Digest, s': State, d': Digest, c: CallId)
    requires CallsInv(s, d)
    requires s'.tickets == s.tickets
    requires OnlyCall(s, d, s', d', c) && d'.fates == d.fates
    requires HistoryOf(d'.calls, c).ticket == HistoryOf(d.calls, c).ticket
    ensures CallsInv(s', d')
  {
    forall x | x in s'.calls && x != c
      ensures PcInv(d', x, s'.calls[x])
    {
      assert PcInv(d, x, s.calls[x]);
    }
  }

  lemma LocalMoveTickets(s: State, d: Digest, s': State, d': Digest, c: CallId)
    requires TicketsInv(s, d)
    requires s'.queue == s.queue && s'.tickets == s.tickets
    requires OnlyCall(s, d, s', d', c) && d'.fates == d.fates
    requires HistoryOf(d'.calls, c).ticket == HistoryOf(d.calls, c).ticket
    requires c in s.calls ==> !OnTicket(s.calls[c].pc)
    requires !OnTicket(s'.calls[c].pc)
    ensures TicketsInv(s', d')
  {
    forall id | id in s'.tickets
      ensures TicketInv(s', d', id)
    {
      assert TicketInv(s, d, id);
    }
  }

  /** What the invariants say of calls, tickets and deciders does not depend on the settings. */
  lemma SettingsApart(s: State, d: Digest, s': State, d': Digest)
    requires CallsInv(s, d) && TicketsInv(s, d) && DecidersInv(s, d) && EventsInv(s, d)
    requires s'.queue == s.queue && s'.tickets == s.tickets && s'.deciders == s.deciders && s'.calls == s.calls
    requires d'.calls == d.calls && d'.fates == d.fates
    ensures CallsInv(s', d') && TicketsInv(s', d') && DecidersInv(s', d') && EventsInv(s', d')
  {
    forall c | c in s.calls
      ensures PcInv(d', c, s.calls[c])
    {
      assert PcInv(d, c, s.calls[c]);
    }
    forall id | id in s.tickets
      ensures TicketInv(s', d', id)
    {
      assert TicketInv(s, d, id);
    }
  }

  lemma ChangeKeepsSettings(s: State, d: Digest, t: Change)
    requires SettingsInv(s, d)
    ensures var f := ChangeStep(s, t); var d' := Next(d, f.event);
            && SettingsInv(f.state, d') && d'.calls == d.calls && d'.fates == d.fates
            && f.state.queue == s.queue && f.state.tickets == s.tickets
            && f.state.deciders == s.deciders && f.state.calls == s.calls
  {
  }

  lemma ChangeKeepsInv(s: State, d: Digest, t: Change)
    requires Inv(s, d)
    ensures Inv(ChangeStep(s, t).state, Next(d, ChangeStep(s, t).event))
  {
    ChangeKeepsSettings(s, d, t);
    SettingsApart(s, d, ChangeStep(s, t).state, Next(d, ChangeStep(s, t).event));
  }

  // ----- steps of a dispatch outside the queue -----

  lemma EnterEventOk(s: State, d: Digest, c: CallId, tool: ToolName, args: Args)
    requires SettingsInv(s, d) && CallsInv(s, d) && StrideEnabled(s, c, Enter(tool, args))
    ensures EventOk(d, StrideStep(s, c, Enter(tool, args)).event.value)
  {
  }

  /** A read, a grant or leaving: what the invariant says of the call's place is what the event needs. */
  lemma ReadEventOk(s: State, d: Digest, c: CallId, t: Stride)
    requires SettingsInv(s, d) && StrideEnabled(s, c, t)
        && (t == LookUp || t == ReadPolicy || t == ReadTrust || t == Grant || t == Leave)
    requires PcInv(d, c, s.calls[c])
    ensures EventOk(d, StrideStep(s, c, t).event.value)
  {
  }

  lemma CallingEventOk(s: State, d: Digest, c: CallId, t: Stride)
    requires StrideEnabled(s, c, t) && (t == Execute || t == Convert)
    requires PcInv(d, c, s.calls[c])
    ensures StrideStep(s, c, t).event.Some? ==> EventOk(d, StrideStep(s, c, t).event.value)
  {
  }

  lemma StrideEventOk(s: State, d: Digest, c: CallId, t: Stride)
    requires SettingsInv(s, d) && CallsInv(s, d) && StrideEnabled(s, c, t)
    ensures StrideStep(s, c, t).event.Some? ==> EventOk(d, StrideStep(s, c, t).event.value)
  {
    match t
    case Enter(tool, args) => EnterEventOk(s, d, c, tool, args);
    case Execute => CallingEventOk(s, d, c, t);
    case Convert => CallingEventOk(s, d, c, t);
    case _ => ReadEventOk(s, d, c, t);
  }

  lemma DigestLocal(d: Digest, c: CallId, e: CallEvent)
    requires !e.Enqueued? && !e.CleanedUp?
    ensures Digested(d, Of(c, e)).fates == d.fates
    ensures Digested(d, Of(c, e)).calls == d.calls[c := Updated(HistoryOf(d.calls, c), e)]
    ensures Updated(HistoryOf(d.calls, c), e).ticket == HistoryOf(d.calls, c).ticket
  {
  }

  /** A dispatch moves to `pc`, recording `e` if there is one; only trust may change besides. */
  lemma LocalStep(s: State, d: Digest, c: CallId, trust: TrustMap, pc: Pc, e: Option<CallEvent>)
    requires CallsInv(s, d) && TicketsInv(s, d) && DecidersInv(s, d) && EventsInv(s, d)
    requires c in s.calls && !OnTicket(s.calls[c].pc) && !OnTicket(pc)
    requires e.Some? ==> !e.value.Enqueued? && !e.value.CleanedUp?
    requires PcInv(Next(d, EventOf(c, e)), c, s.calls[c].(pc := pc))
    ensures var s', d' := Move(s.(trust := trust), c, pc), Next(d, EventOf(c, e));
            CallsInv(s', d') && TicketsInv(s', d') && DecidersInv(s', d') && EventsInv(s', d')
  {
    var s', d' := Move(s.(trust := trust), c, pc), Next(d, EventOf(c, e));
    if e.Some? {
      DigestLocal(d, c, e.value);
    }
    assert d'.calls == d.calls[c := d'.calls[c]];
    LocalMove(s, d, s', d', c);
  }

  function EventOf(c: CallId, e: Option<CallEvent>): Option<Event> {
    match e case None => None case Some(e) => Some(Of(c, e))
  }

  lemma EnterKeepsInv(s: State, d: Digest, c: CallId, tool: ToolName, args: Args)
    requires Inv(s, d) && StrideEnabled(s, c, Enter(tool, args))
    ensures var f := StrideStep(s, c, Enter(tool, args)); Inv(f.state, Next(d, f.event))
  {
    var f := StrideStep(s, c, Enter(tool, args));
    if c in f.state.calls {
      LocalMove(s, d, f.state, Next(d, f.event), c);
    }
  }

  lemma CallProviderKeepsInv(s: State, d: Digest, c: CallId, m: Option<ProviderMethod>)
    requires Inv(s, d) && c in s.calls && !OnTicket(s.calls[c].pc)
    ensures var f := CallProvider(s, c, m); Inv(f.state, Next(d, f.event))
  {
    LocalStep(s, d, c, s.trust, Done,
              if m.None? then None else Some(Called(s.calls[c].account, m.value, s.calls[c].args)));
  }

  lemma LookUpKeepsInv(s: State, d: Digest, c: CallId)
    requires Inv(s, d) && StrideEnabled(s, c, LookUp)
    ensures Inv(StrideStep(s, c, LookUp).state, Next(d, StrideStep(s, c, LookUp).event))
  {
    var found := s.calls[c].account in s.registry;
    LocalStep(s, d, c, s.trust, if found then AtPolicy else Done, Some(LookedUp(found)));
  }

  lemma ReadPolicyKeepsInv(s: State, d: Digest, c: CallId)
    requires Inv(s, d) && StrideEnabled(s, c, ReadPolicy)
    ensures Inv(StrideStep(s, c, ReadPolicy).state, Next(d, StrideStep(s, c, ReadPolicy).event))
  {
    var a, k := s.calls[c].account, CategoryOf(s.calls[c]);
    var p := Effective(s.table, a, k);
    LocalStep(s, d, c, s.trust, AfterPolicy(p, k), Some(PolicyRead(a, k, p)));
  }

  lemma ReadTrustKeepsInv(s: State, d: Digest, c: CallId)
    requires Inv(s, d) && StrideEnabled(s, c, ReadTrust)
    ensures Inv(StrideStep(s, c, ReadTrust).state, Next(d, StrideStep(s, c, ReadTrust).event))
  {
    var a, k := s.calls[c].account, CategoryOf(s.calls[c]);
    var t := Trusted(s.trust, a, k);
    LocalStep(s, d, c, s.trust, if t then AtExecute else AtInsert(true), Some(TrustRead(a, k, t)));
  }

  lemma GrantKeepsInv(s: State, d: Digest, c: CallId)
    requires Inv(s, d) && StrideEnabled(s, c, Grant)
    ensures Inv(StrideStep(s, c, Grant).state, Next(d, StrideStep(s, c, Grant).event))
  {
    var a, k := s.calls[c].account, CategoryOf(s.calls[c]);
    GrantKeepsSettings(s, d, c);
    GrantMovesOn(s, d, c);
    LocalStep(s, d, c, Trusting(s.trust, a, k), AtExecute, Some(Granted(a, k)));
  }

  lemma GrantMovesOn(s: State, d: Digest, c: CallId)
    requires StrideEnabled(s, c, Grant) && PcInv(d, c, s.calls[c])
    ensures var k := s.calls[c];
            PcInv(Digested(d, Of(c, Granted(k.account, CategoryOf(k)))), c, k.(pc := AtExecute))
  {
  }

  lemma GrantKeepsSettings(s: State, d: Digest, c: CallId)
    requires SettingsInv(s, d) && StrideEnabled(s, c, Grant)
    ensures SettingsInv(StrideStep(s, c, Grant).state, Next(d, StrideStep(s, c, Grant).event))
  {
  }

  lemma ExecuteKeepsInv(s: State, d: Digest, c: CallId)
    requires Inv(s, d) && StrideEnabled(s, c, Execute)
    ensures Inv(StrideStep(s, c, Execute).state, Next(d, StrideStep(s, c, Execute).event))
  {
    CallProviderKeepsInv(s, d, c, MethodFor(s.calls[c].tool, s.calls[c].args));
  }

  lemma ConvertKeepsInv(s: State, d: Digest, c: CallId)
    requires Inv(s, d) && StrideEnabled(s, c, Convert)
    ensures Inv(StrideStep(s, c, Convert).state, Next(d, StrideStep(s, c, Convert).event))
  {
    CallProviderKeepsInv(s, d, c, DraftifiedMethod(s.calls[c].tool, s.calls[c].args));
  }

  lemma LeaveKeepsInv(s: State, d: Digest, c: CallId)
    requires Inv(s, d) && StrideEnabled(s, c, Leave)
    ensures Inv(StrideStep(s, c, Leave).state, Next(d, StrideStep(s, c, Leave).event))
  {
    LocalStep(s, d, c, s.trust, Done, Some(Abandoned));
  }

  lemma StrideKeepsInv(s: State, d: Digest, c: CallId, t: Stride)
    requires Inv(s, d) && StrideEnabled(s, c, t)
    ensures Inv(StrideStep(s, c, t).state, Next(d, StrideStep(s, c, t).event))
  {
    match t
    case Enter(tool, args) => EnterKeepsInv(s, d, c, tool, args);
    case Execute => ExecuteKeepsInv(s, d, c);
    case Convert => ConvertKeepsInv(s, d, c);
    case LookUp => LookUpKeepsInv(s, d, c);
    case ReadPolicy => ReadPolicyKeepsInv(s, d, c);
    case ReadTrust => ReadTrustKeepsInv(s, d, c);
    case Grant => GrantKeepsInv(s, d, c);
    case Leave => LeaveKeepsInv(s, d, c);
  }

  // ----- steps of a dispatch inside the queue -----

  /** A dispatch that moves on its own ticket `id` touches no other ticket, fate or entry,
      and neither the decision on `id` nor the value in its channel. */
  ghost predicate OnlyTicket(s: State, d: Digest, s': State, d': Digest, c: CallId, id: ApprovalId) {
    && s'.deciders == s.deciders
    && id in s'.tickets && s'.tickets == s.tickets[id := s'.tickets[id]] && s'.tickets[id].caller == c
    && id in d'.fates && d'.fates == d.fates[id := d'.fates[id]]
    && (forall x | x != id :: x in s'.queue.pending <==> x in s.queue.pending)
    && (forall x | x != id && x in s'.queue.pending :: s'.queue.pending[x] == s.queue.pending[x])
    && HistoryOf(d'.calls, c).ticket == Some(id)
    && (HistoryOf(d.calls, c).ticket == None || HistoryOf(d.calls, c).ticket == Some(id))
    && c in s'.calls && (OnTicket(s'.calls[c].pc) ==> s'.calls[c].pc.id == id)
    && d'.fates[id].decision == FateOf(d.fates, id).decision
    && (d'.fates[id] == FateOf(d.fates, id) || FateOf(d.fates, id).decision.None?)
    && (id in s.tickets ==> s.tickets[id].caller == c && s'.tickets[id].content == s.tickets[id].content
                            && (s'.tickets[id].receiver ==> s.tickets[id].receiver))
    && (id !in s.tickets ==> s'.tickets[id].content.None?)
  }

  lemma TicketMoveCalls(s: State, d: Digest, s': State, d': Digest, c: CallId, id: ApprovalId)
    requires CallsInv(s, d) && c in s.calls && OnlyCall(s, d, s', d', c)
    requires OnlyTicket(s, d, s', d', c, id)
    ensures CallsInv(s', d')
  {
    forall x | x in s'.calls && x != c
      ensures PcInv(d', x, s'.calls[x])
      ensures HistoryOf(d'.calls, x).ticket != Some(id) || id in s.tickets
    {
      assert PcInv(d, x, s.calls[x]);
    }
  }

  lemma TicketMoveTickets(s: State, d: Digest, s': State, d': Digest, c: CallId, id: ApprovalId)
    requires CallsInv(s, d) && TicketsInv(s, d) && c in s.calls && OnlyCall(s, d, s', d', c)
    requires OnlyTicket(s, d, s', d', c, id) && TicketInv(s', d', id)
    ensures TicketsInv(s', d')
  {
    forall x | x in s'.tickets && x != id
      ensures TicketInv(s', d', x)
    {
      assert TicketInv(s, d, x);
    }
    assert forall x | x in s'.queue.pending :: x in s'.tickets;
  }

  lemma TicketMoveDeciders(s: State, d: Digest, s': State, d': Digest, c: CallId, id: ApprovalId)
    requires TicketsInv(s, d) && DecidersInv(s, d) && OnlyTicket(s, d, s', d', c, id)
    ensures DecidersInv(s', d')
  {
  }

  lemma TicketMove(s: State, d: Digest, s': State, d': Digest, c: CallId, id: ApprovalId)
    requires Inv(s, d) && c in s.calls && OnlyCall(s, d, s', d', c)
    requires OnlyTicket(s, d, s', d', c, id) && TicketInv(s', d', id)
    requires s'.paused == s.paused && s'.table == s.table && s'.registry == s.registry && s'.trust == s.trust
    requires d'.paused == d.paused && d'.policies == d.policies && d'.registry == d.registry && d'.trust == d.trust
    requires forall x, dec :: Resolved(x, dec) in s'.queue.events ==> Resolved(x, dec) in s.queue.events
    ensures Inv(s', d')
  {
    TicketMoveCalls(s, d, s', d', c, id);
    TicketMoveTickets(s, d, s', d', c, id);
    TicketMoveDeciders(s, d, s', d', c, id);
  }

  lemma InsertKeepsInv(s: State, d: Digest, c: CallId, id: ApprovalId)
    requires Inv(s, d) && StageEnabled(s, c, Insert(id))
    ensures var f := StageStep(s, c, Insert(id)); Inv(f.state, Next(d, f.event))
  {
    var f := StageStep(s, c, Insert(id));
    TicketMove(s, d, f.state, Next(d, f.event), c, id);
  }

  lemma PublishRequestKeepsInv(s: State, d: Digest, c: CallId)
    requires Inv(s, d) && StageEnabled(s, c, PublishRequest)
    ensures var f := StageStep(s, c, PublishRequest); Inv(f.state, Next(d, f.event))
  {
    var f := StageStep(s, c, PublishRequest);
    var id := s.calls[c].pc.id;
    assert PcInv(d, c, s.calls[c]);
    assert TicketInv(s, d, id);
    TicketMove(s, d, f.state, Next(d, f.event), c, id);
  }

  /** A waiter lets go of its channel: it received, timed out, saw it closed or was dropped. */
  lemma Withdraw(s: State, d: Digest, c: CallId, pc: Pc, e: CallEvent)
    requires Inv(s, d) && c in s.calls && s.calls[c].pc.AtWait? && !OnTicket(pc)
    requires s.calls[c].pc.id in s.tickets
    requires !e.Enqueued? && !e.CleanedUp? && !e.Granted?
    requires PcInv(Digested(d, Of(c, e)), c, s.calls[c].(pc := pc))
    ensures Inv(Move(DropReceiver(s, s.calls[c].pc.id), c, pc), Digested(d, Of(c, e)))
  {
    var id := s.calls[c].pc.id;
    var s', d' := Move(DropReceiver(s, id), c, pc), Digested(d, Of(c, e));
    DigestLocal(d, c, e);
    assert PcInv(d, c, s.calls[c]);
    assert TicketInv(s, d, id);
    assert d'.calls == d.calls[c := d'.calls[c]];
    TicketMove(s, d, s', d', c, id);
  }

  lemma ReceiveKeepsInv(s: State, d: Digest, c: CallId)
    requires Inv(s, d) && StageEnabled(s, c, Receive)
    ensures var f := StageStep(s, c, Receive); Inv(f.state, Next(d, f.event))
  {
    var f := StageStep(s, c, Receive);
    assert PcInv(d, c, s.calls[c]);
    assert TicketInv(s, d, s.calls[c].pc.id);
    Withdraw(s, d, c, f.state.calls[c].pc, f.event.value.what);
  }

  lemma FireTimerKeepsInv(s: State, d: Digest, c: CallId)
    requires Inv(s, d) && StageEnabled(s, c, FireTimer)
    ensures var f := StageStep(s, c, FireTimer); Inv(f.state, Next(d, f.event))
  {
    assert PcInv(d, c, s.calls[c]);
    Withdraw(s, d, c, AtCleanup(s.calls[c].pc.id), TimerFired(s.calls[c].pc.id));
  }

  lemma DigestCleanUp(d: Digest, c: CallId, id: ApprovalId, removed: bool)
    ensures var d' := Digested(d, Of(c, CleanedUp(id, removed)));
            && d'.calls == d.calls[c := HistoryOf(d.calls, c).(outcome := Some(TimedOut))]
            && d'.fates == (if removed then d.fates[id := FateOf(d.fates, id).(removed := true)] else d.fates)
            && d'.paused == d.paused && d'.policies == d.policies && d'.trust == d.trust
  {
  }

  lemma CleanUpKeepsInv(s: State, d: Digest, c: CallId)
    requires Inv(s, d) && StageEnabled(s, c, CleanUp)
    ensures var f := StageStep(s, c, CleanUp); Inv(f.state, Next(d, f.event))
  {
    var f := StageStep(s, c, CleanUp);
    CleanUpMovesTicket(s, d, c);
    DigestCleanUp(d, c, s.calls[c].pc.id, s.calls[c].pc.id in s.queue.pending);
    TicketMove(s, d, f.state, Next(d, f.event), c, s.calls[c].pc.id);
  }

  lemma CleanUpMovesTicket(s: State, d: Digest, c: CallId)
    requires CallsInv(s, d) && TicketsInv(s, d) && StageEnabled(s, c, CleanUp)
    ensures var f, id := StageStep(s, c, CleanUp), s.calls[c].pc.id; var d' := Next(d, f.event);
            OnlyCall(s, d, f.state, d', c) && OnlyTicket(s, d, f.state, d', c, id) && TicketInv(f.state, d', id)
  {
    var id := s.calls[c].pc.id;
    assert PcInv(d, c, s.calls[c]);
    assert TicketInv(s, d, id);
    DigestCleanUp(d, c, id, id in s.queue.pending);
    assert s.tickets == s.tickets[id := s.tickets[id]];
  }

  /** A live waiter's channel holds a value or its sender still exists: it is never closed on it. */
  lemma SenderNeverLost(s: State, d: Digest, c: CallId)
    requires CallsInv(s, d) && TicketsInv(s, d) && DecidersInv(s, d)
    requires c in s.calls && OnTicket(s.calls[c].pc)
    ensures var id := s.calls[c].pc.id;
            id in s.tickets && s.tickets[id].receiver && (s.tickets[id].content.Some? || SenderAlive(s, id))
  {
    assert PcInv(d, c, s.calls[c]);
    assert TicketInv(s, d, s.calls[c].pc.id);
  }

  lemma StageKeepsInv(s: State, d: Digest, c: CallId, t: Stage)
    requires Inv(s, d) && StageEnabled(s, c, t)
    ensures Inv(StageStep(s, c, t).state, Next(d, StageStep(s, c, t).event))
  {
    match t
    case Insert(id) => InsertKeepsInv(s, d, c, id);
    case PublishRequest => PublishRequestKeepsInv(s, d, c);
    case Receive => ReceiveKeepsInv(s, d, c);
    case CleanUp => CleanUpKeepsInv(s, d, c);
    case FireTimer => FireTimerKeepsInv(s, d, c);
    case SeeDropped => SenderNeverLost(s, d, c);
    case Abandon => AbandonKeepsInv(s, d, c);
  }

  lemma AbandonKeepsInv(s: State, d: Digest, c: CallId)
    requires Inv(s, d) && StageEnabled(s, c, Abandon)
    ensures var f := StageStep(s, c, Abandon); Inv(f.state, Next(d, f.event))
  {
    if s.calls[c].pc.AtWait? {
      Withdraw(s, d, c, Done, Abandoned);
    } else {
      LocalStep(s, d, c, s.trust, Done, Some(Abandoned));
    }
  }

  lemma StageEventOk(s: State, d: Digest, c: CallId, t: Stage)
    requires CallsInv(s, d) && TicketsInv(s, d) && DecidersInv(s, d) && StageEnabled(s, c, t)
    ensures StageStep(s, c, t).event.Some? ==> EventOk(d, StageStep(s, c, t).event.value)
  {
  }

  // ----- steps of a decision -----

  lemma TakeKeepsCalls(s: State, d: Digest, x: DeciderId, id: ApprovalId, dec: Decision)
    requires CallsInv(s, d) && TicketsInv(s, d)
    requires PhaseEnabled(s, x, Take(id, dec)) && id in s.queue.pending
    ensures CallsInv(PhaseStep(s, x, Take(id, dec)).state, Digested(d, Decided(id, dec)))
  {
    assert TicketInv(s, d, id);
    var s', d' := PhaseStep(s, x, Take(id, dec)).state, Digested(d, Decided(id, dec));
    forall c | c in s'.calls
      ensures PcInv(d', c, s'.calls[c])
    {
      DecidingKeepsPc(d, c, s.calls[c], id, dec);
    }
  }

  /** Deciding what was undecided changes no call's entitlement. */
  lemma DecidingKeepsPc(d: Digest, c: CallId, k: Call, id: ApprovalId, dec: Decision)
    requires PcInv(d, c, k) && FateOf(d.fates, id).decision.None?
    ensures PcInv(Digested(d, Decided(id, dec)), c, k)
  {
    var d' := Digested(d, Decided(id, dec));
    assert d'.calls == d.calls;
    assert ApprovedFor(d, c, RequestOf(k)) ==> ApprovedFor(d', c, RequestOf(k));
  }

  lemma TakeKeepsTickets(s: State, d: Digest, x: DeciderId, id: ApprovalId, dec: Decision)
    requires TicketsInv(s, d)
    requires PhaseEnabled(s, x, Take(id, dec)) && id in s.queue.pending
    ensures TicketsInv(PhaseStep(s, x, Take(id, dec)).state, Digested(d, Decided(id, dec)))
  {
    var s', d' := PhaseStep(s, x, Take(id, dec)).state, Digested(d, Decided(id, dec));
    forall y | y in s'.tickets
      ensures TicketInv(s', d', y)
    {
      assert TicketInv(s, d, y);
    }
  }

  /** A holder other than `x` goes on holding. */
  lemma HoldersKept(s: State, s': State, x: DeciderId)
    requires x in s'.deciders && s'.deciders == s.deciders[x := s'.deciders[x]]
    ensures forall y, id :: y != x && Holds(s.deciders, y, id) ==> Holds(s'.deciders, y, id)
  {
  }

  lemma TakeKeepsDeciders(s: State, d: Digest, x: DeciderId, id: ApprovalId, dec: Decision)
    requires TicketsInv(s, d) && DecidersInv(s, d)
    requires PhaseEnabled(s, x, Take(id, dec)) && id in s.queue.pending
    ensures DecidersInv(PhaseStep(s, x, Take(id, dec)).state, Digested(d, Decided(id, dec)))
  {
    assert TicketInv(s, d, id);
    var s', d' := PhaseStep(s, x, Take(id, dec)).state, Digested(d, Decided(id, dec));
    HoldersKept(s, s', x);
    assert Holds(s'.deciders, x, id);
    forall y | y in s'.tickets && s'.tickets[y].receiver && s'.tickets[y].content.None?
               && FateOf(d'.fates, y).decision.Some?
      ensures exists z :: Holds(s'.deciders, z, y)
    {
      if y != id {
        var z :| Holds(s.deciders, z, y);
        assert Holds(s'.deciders, z, y);
      }
    }
  }

  lemma TakeKeepsInv(s: State, d: Digest, x: DeciderId, id: ApprovalId, dec: Decision)
    requires Inv(s, d) && PhaseEnabled(s, x, Take(id, dec)) && id in s.queue.pending
    ensures Inv(PhaseStep(s, x, Take(id, dec)).state, Digested(d, Decided(id, dec)))
  {
    assert TicketInv(s, d, id);
    TakeKeepsCalls(s, d, x, id, dec);
    TakeKeepsTickets(s, d, x, id, dec);
    TakeKeepsDeciders(s, d, x, id, dec);
  }

  /** Sending, publishing and missing change one decider and neither calls nor the digest. */
  lemma OtherHoldersFound(s: State, d: Digest, s': State, x: DeciderId)
    requires DecidersInv(s, d)
    requires x in s'.deciders && s'.deciders == s.deciders[x := s'.deciders[x]]
    requires s'.tickets.Keys == s.tickets.Keys
    requires forall id | id in s'.tickets && s'.tickets[id].receiver && s'.tickets[id].content.None? ::
      s.tickets[id].receiver && s.tickets[id].content.None? && !Holds(s.deciders, x, id)
    ensures forall id | id in s'.tickets && s'.tickets[id].receiver && s'.tickets[id].content.None?
                        && FateOf(d.fates, id).decision.Some? ::
              exists z :: Holds(s'.deciders, z, id)
  {
    HoldersKept(s, s', x);
    forall id | id in s'.tickets && s'.tickets[id].receiver && s'.tickets[id].content.None?
                && FateOf(d.fates, id).decision.Some?
      ensures exists z :: Holds(s'.deciders, z, id)
    {
      var z :| Holds(s.deciders, z, id);
      assert Holds(s'.deciders, z, id);
    }
  }

  lemma MissKeepsInv(s: State, d: Digest, x: DeciderId, id: ApprovalId, dec: Decision)
    requires Inv(s, d) && PhaseEnabled(s, x, Take(id, dec)) && id !in s.queue.pending
    ensures Inv(PhaseStep(s, x, Take(id, dec)).state, d)
  {
    var s' := PhaseStep(s, x, Take(id, dec)).state;
    OtherHoldersFound(s, d, s', x);
    assert forall y | y in s'.tickets :: TicketInv(s, d, y);
  }

  lemma DeliverKeepsTickets(s: State, d: Digest, x: DeciderId)
    requires TicketsInv(s, d) && DecidersInv(s, d) && PhaseEnabled(s, x, Deliver)
    ensures TicketsInv(PhaseStep(s, x, Deliver).state, d)
  {
    var s' := PhaseStep(s, x, Deliver).state;
    forall y | y in s'.tickets
      ensures TicketInv(s', d, y)
    {
      assert TicketInv(s, d, y);
    }
  }

  lemma DeliverKeepsDeciders(s: State, d: Digest, x: DeciderId)
    requires DecidersInv(s, d) && PhaseEnabled(s, x, Deliver)
    ensures DecidersInv(PhaseStep(s, x, Deliver).state, d)
  {
    OtherHoldersFound(s, d, PhaseStep(s, x, Deliver).state, x);
  }

  lemma DeliverKeepsInv(s: State, d: Digest, x: DeciderId)
    requires Inv(s, d) && PhaseEnabled(s, x, Deliver)
    ensures Inv(PhaseStep(s, x, Deliver).state, d)
  {
    DeliverKeepsTickets(s, d, x);
    DeliverKeepsDeciders(s, d, x);
  }

  lemma PublishDecisionKeepsInv(s: State, d: Digest, x: DeciderId)
    requires Inv(s, d) && PhaseEnabled(s, x, PublishDecision)
    ensures Inv(PhaseStep(s, x, PublishDecision).state, d)
  {
    var s' := PhaseStep(s, x, PublishDecision).state;
    OtherHoldersFound(s, d, s', x);
    assert forall y | y in s'.tickets :: TicketInv(s, d, y);
  }

  lemma PhaseKeepsInv(s: State, d: Digest, x: DeciderId, t: Phase)
    requires Inv(s, d) && PhaseEnabled(s, x, t)
    ensures Inv(PhaseStep(s, x, t).state, Next(d, PhaseStep(s, x, t).event))
  {
    match t
    case Take(id, dec) =>
      if id in s.queue.pending { TakeKeepsInv(s, d, x, id, dec); } else { MissKeepsInv(s, d, x, id, dec); }
    case Deliver => DeliverKeepsInv(s, d, x);
    case PublishDecision => PublishDecisionKeepsInv(s, d, x);
  }

  lemma PhaseEventOk(s: State, d: Digest, x: DeciderId, t: Phase)
    requires TicketsInv(s, d) && PhaseEnabled(s, x, t)
    ensures PhaseStep(s, x, t).event.Some? ==> EventOk(d, PhaseStep(s, x, t).event.value)
  {
  }

  // ----- any step -----

  lemma StepKeepsInv(s: State, d: Digest, l: Label)
    requires Inv(s, d) && Enabled(s, l)
    ensures Inv(Step(s, l).state, Next(d, Step(s, l).event))
  {
    match l
    case Setting(t) => ChangeKeepsInv(s, d, t);
    case Dispatch(c, t) => StrideKeepsInv(s, d, c, t);
    case Approval(c, t) => StageKeepsInv(s, d, c, t);
    case Decide(x, t) => PhaseKeepsInv(s, d, x, t);
  }

  lemma StepEventOk(s: State, d: Digest, l: Label)
    requires Inv(s, d) && Enabled(s, l)
    ensures Step(s, l).event.Some? ==> EventOk(d, Step(s, l).event.value)
  {
    match l
    case Setting(t) =>
    case Dispatch(c, t) => StrideEventOk(s, d, c, t);
    case Approval(c, t) => StageEventOk(s, d, c, t);
    case Decide(x, t) => PhaseEventOk(s, d, x, t);
  }
}
