/** What a log of the gatekeeper says, and the invariant that ties it to the state. */
module GatekeeperProofs {
  import opened Prelude
  import opened Policies
  import opened Tools
  import opened Approvals
  import opened Gatekeeper

  // ----- reading a log -----

  datatype Entry = Entry(tool: ToolName, args: Args, account: AccountId)

  /** Everything the log tells about one dispatch. */
  datatype CallHistory = CallHistory(
    entry: Option<Entry>,
    found: bool,
    policy: Option<Policy>,
    trustSeen: Option<bool>,
    ticket: Option<ApprovalId>,
    timerFired: bool,
    outcome: Option<Outcome>,
    granted: bool,
    called: Option<ProviderMethod>)

  const NO_CALL := CallHistory(None, false, None, None, None, false, None, false, None)

  /** Everything the log tells about one approval: whose it is, the decision that won it,
      and whether the timeout path took it off the queue. */
  datatype Fate = Fate(owner: Option<(CallId, Request)>, decision: Option<Decision>, removed: bool)

  const NO_FATE := Fate(None, None, false)

  /** A log read from left to right. */
  datatype Digest = Digest(
    paused: bool,
    policies: PolicyTable,
    registry: set<AccountId>,
    trust: set<(AccountId, Category)>,
    calls: map<CallId, CallHistory>,
    fates: map<ApprovalId, Fate>)

  const BLANK := Digest(false, map[], {}, {}, map[], map[])

  function HistoryOf(calls: map<CallId, CallHistory>, c: CallId): CallHistory {
    if c in calls then calls[c] else NO_CALL
  }

  function FateOf(fates: map<ApprovalId, Fate>, id: ApprovalId): Fate {
    if id in fates then fates[id] else NO_FATE
  }

  function Updated(h: CallHistory, e: CallEvent): CallHistory {
    match e
    case Entered(tool, args, a) => h.(entry := Some(Entry(tool, args, a)))
    case LookedUp(found) => h.(found := found)
    case PolicyRead(_, _, p) => h.(policy := Some(p))
    case TrustRead(_, _, t) => h.(trustSeen := Some(t))
    case Enqueued(id, _) => h.(ticket := Some(id))
    case TimerFired(_) => h.(timerFired := true)
    case Received(_, o) => h.(outcome := Some(o))
    case CleanedUp(_, _) => h.(outcome := Some(TimedOut))
    case Granted(_, _) => h.(granted := true)
    case Called(_, run, _) => h.(called := Some(run))
    case ChannelDropped(_) | Abandoned => h
  }

  function SetFate(d: Digest, id: ApprovalId, f: Fate): Digest {
    d.(fates := d.fates[id := f])
  }

  function Digested(d: Digest, e: Event): Digest {
    match e
    case PauseSet(b) => d.(paused := b)
    case PolicySet(a, k, p) => d.(policies := d.policies[(a, k) := p])
    case PoliciesCleared(a) => d.(policies := Cleared(d.policies, a))
    case RegistrySet(a, b) => d.(registry := if b then d.registry + {a} else d.registry - {a})
    case Refused(_, _) | DecideMissed(_) => d
    case Decided(id, dec) => SetFate(d, id, FateOf(d.fates, id).(decision := Some(dec)))
    case Of(c, w) =>
      var d' := d.(calls := d.calls[c := Updated(HistoryOf(d.calls, c), w)]);
      (match w
       case Enqueued(id, req) => SetFate(d', id, FateOf(d.fates, id).(owner := Some((c, req))))
       case CleanedUp(id, true) => SetFate(d', id, FateOf(d.fates, id).(removed := true))
       case Granted(a, k) => d'.(trust := d.trust + {(a, k)})
       case _ => d')
  }

  function DigestOf(log: seq<Event>): Digest {
    if log == [] then BLANK
    else Digested(DigestOf(log[..|log| - 1]), log[|log| - 1])
  }

  lemma DigestOfAppend(log: seq<Event>, e: Event)
    ensures DigestOf(log + [e]) == Digested(DigestOf(log), e)
  {
    assert (log + [e])[..|log|] == log;
  }

  // ----- what every event tells about the events before it -----

  predicate Open(f: Fate) {
    f.owner.Some? && f.decision.None? && !f.removed
  }

  /** Policies under which the user must be asked first. */
  predicate MustAsk(h: CallHistory, k: Category) {
    h.policy == Some(Confirm) || h.policy == Some(Session) || (h.policy == Some(Draftify) && k != Category.Send)
  }

  /** The user approved an approval of call `c` itself whose request is `req`. */
  predicate ApprovedFor(d: Digest, c: CallId, req: Request) {
    var h := HistoryOf(d.calls, c);
    && MustAsk(h, req.category)
    && h.outcome == Some(Approved)
    && h.ticket.Some?
    && FateOf(d.fates, h.ticket.value) == Fate(Some((c, req)), Some(Approve), false)
  }

  /** What entitles call `c` to run its own tool. */
  predicate Licensed(d: Digest, c: CallId, req: Request) {
    var h := HistoryOf(d.calls, c);
    || h.policy == Some(Allow)
    || ApprovedFor(d, c, req)
    || (h.policy == Some(Session) && h.trustSeen == Some(true))
  }

  predicate CallEventOk(d: Digest, c: CallId, e: CallEvent) {
    var h := HistoryOf(d.calls, c);
    match e
    case Entered(tool, args, a) =>
      !d.paused && args.account == Some(a) && tool != ListAccountsTool && h == NO_CALL
    case LookedUp(found) =>
      && h.entry.Some? && h == NO_CALL.(entry := h.entry)
      && found == (h.entry.value.account in d.registry)
    case PolicyRead(a, k, p) =>
      && h.entry.Some? && h.entry.value.account == a && ToolCategory(h.entry.value.tool) == k
      && h == NO_CALL.(entry := h.entry, found := true)
      && p == Effective(d.policies, a, k)
    case TrustRead(a, k, t) =>
      && h.entry.Some? && h.entry.value.account == a && ToolCategory(h.entry.value.tool) == k
      && h.policy == Some(Session) && h.trustSeen.None? && h.ticket.None?
      && t == ((a, k) in d.trust)
    case Enqueued(id, req) =>
      && FateOf(d.fates, id) == NO_FATE
      && h.ticket.None?
      && h.entry == Some(Entry(req.summary, req.details, req.account))
      && req.category == ToolCategory(req.summary)
      && MustAsk(h, req.category) && h.trustSeen != Some(true)
    case Received(id, o) =>
      && h.ticket == Some(id) && h.outcome.None? && !h.timerFired
      && FateOf(d.fates, id).decision.Some? && o == OutcomeOf(FateOf(d.fates, id).decision.value)
    case TimerFired(id) => h.ticket == Some(id) && h.outcome.None? && !h.timerFired
    case CleanedUp(id, removed) =>
      && h.ticket == Some(id) && h.outcome.None? && h.timerFired
      && removed == Open(FateOf(d.fates, id))
    case ChannelDropped(_) => false
    case Granted(a, k) =>
      && h.entry.Some? && h.entry.value.account == a && ToolCategory(h.entry.value.tool) == k
      && h.policy == Some(Session) && !h.granted
      && ApprovedFor(d, c, Request(a, k, h.entry.value.tool, h.entry.value.args))
    case Called(a, run, args) =>
      && h.called.None?
      && h.entry.Some? && h.entry.value.args == args && h.entry.value.account == a && args.account == Some(a)
      && (var tool := h.entry.value.tool;
          || (ToolOf(run) == tool && EffectOn(run) == ToolCategory(tool)
              && Licensed(d, c, Request(a, ToolCategory(tool), tool, args)))
          || (run == CreateDraft && tool == SendMessageTool && h.policy == Some(Draftify)))
    case Abandoned => true
  }

  predicate EventOk(d: Digest, e: Event) {
    match e
    case Of(c, what) => CallEventOk(d, c, what)
    case Decided(id, _) => Open(FateOf(d.fates, id))
    case DecideMissed(id) => !Open(FateOf(d.fates, id))
    case _ => true
  }

  ghost predicate LogOk(log: seq<Event>) {
    forall k | 0 <= k < |log| :: EventOk(DigestOf(log[..k]), log[k])
  }

  // ----- the state invariant -----

  ghost predicate SettingsInv(s: State, d: Digest) {
    && s.paused == d.paused
    && s.table == d.policies
    && s.registry == d.registry
    && (forall a, k :: Trusted(s.trust, a, k) == ((a, k) in d.trust))
  }

  /** The pc of a live waiter (about to await, or awaiting) on `id`. */
  predicate Waits(pc: Pc, id: ApprovalId) {
    (pc.AtPublish? || pc.AtWait?) && pc.id == id
  }

  predicate AtTicket(h: CallHistory, k: Category, id: ApprovalId, session: bool) {
    && h.ticket == Some(id) && !h.timerFired && h.outcome.None? && !h.granted && h.called.None?
    && MustAsk(h, k)
    && (session <==> h.policy == Some(Session))
  }

  predicate PcInv(d: Digest, c: CallId, k: Call) {
    var h := HistoryOf(d.calls, c);
    && k.tool != ListAccountsTool
    && k.args.account == Some(k.account)
    && h.entry == Some(Entry(k.tool, k.args, k.account))
    && match k.pc
       case AtRegistry => h == NO_CALL.(entry := h.entry)
       case AtPolicy => h == NO_CALL.(entry := h.entry, found := true)
       case AtTrust => h == NO_CALL.(entry := h.entry, found := true, policy := Some(Session))
       case AtInsert(session) =>
         && h == NO_CALL.(entry := h.entry, found := true, policy := h.policy, trustSeen := h.trustSeen)
         && MustAsk(h, CategoryOf(k)) && h.trustSeen != Some(true)
         && (session <==> h.policy == Some(Session))
       case AtPublish(id, session) => AtTicket(h, CategoryOf(k), id, session)
       case AtWait(id, session) => AtTicket(h, CategoryOf(k), id, session)
       case AtCleanup(id) => h.ticket == Some(id) && h.timerFired && h.outcome.None? && h.called.None?
       case AtGrant(id) => h.policy == Some(Session) && ApprovedFor(d, c, RequestOf(k))
                           && !h.granted && h.called.None?
       case AtExecute => Licensed(d, c, RequestOf(k)) && h.called.None?
       case AtDraft => CategoryOf(k) == Category.Send && h.policy == Some(Draftify) && h.called.None?
       case Done => true
  }

  ghost predicate CallsInv(s: State, d: Digest) {
    && d.calls.Keys == s.calls.Keys
    && (forall c | c in s.calls :: PcInv(d, c, s.calls[c]))
    && (forall c | c in s.calls && HistoryOf(d.calls, c).ticket.Some? ::
          var id := HistoryOf(d.calls, c).ticket.value;
          id in s.tickets && s.tickets[id].caller == c)
  }

  ghost predicate TicketInv(s: State, d: Digest, id: ApprovalId)
    requires id in s.tickets
  {
    var t := s.tickets[id];
    var f := FateOf(d.fates, id);
    && t.caller in s.calls
    && t.req == RequestOf(s.calls[t.caller])
    && HistoryOf(d.calls, t.caller).ticket == Some(id)
    && f.owner == Some((t.caller, t.req))
    && !(f.decision.Some? && f.removed)
    && (id in s.queue.pending <==> Open(f))
    && (id in s.queue.pending ==> s.queue.pending[id] == t.req)
    && (t.receiver <==> Waits(s.calls[t.caller].pc, id))
    && (f.removed ==> !t.receiver)
    && (t.content.Some? ==> f.decision.Some? && t.content == Some(OutcomeOf(f.decision.value)))
  }

  ghost predicate TicketsInv(s: State, d: Digest) {
    && d.fates.Keys == s.tickets.Keys
    && s.queue.pending.Keys <= s.tickets.Keys
    && (forall id | id in s.tickets :: TicketInv(s, d, id))
  }

  /** Of an undelivered, decided approval with a live receiver, exactly one decider has the sender. */
  ghost predicate DecidersInv(s: State, d: Digest) {
    && (forall x | x in s.deciders && s.deciders[x].Holding? ::
          var id := s.deciders[x].id;
          && id in s.tickets && s.tickets[id].content.None?
          && FateOf(d.fates, id).decision == Some(s.deciders[x].decision))
    && (forall x | x in s.deciders && s.deciders[x].Sent? ::
          FateOf(d.fates, s.deciders[x].id).decision == Some(s.deciders[x].decision))
    && (forall x, y | x in s.deciders && y in s.deciders && s.deciders[x].Holding? && s.deciders[y].Holding?
                      && s.deciders[x].id == s.deciders[y].id :: x == y)
    && (forall id | id in s.tickets && s.tickets[id].receiver && s.tickets[id].content.None?
                    && FateOf(d.fates, id).decision.Some? ::
          exists x :: Holds(s.deciders, x, id))
  }

  ghost predicate EventsInv(s: State, d: Digest) {
    forall id, dec :: Resolved(id, dec) in s.queue.events ==> FateOf(d.fates, id).decision == Some(dec)
  }

  ghost predicate Inv(s: State, d: Digest) {
    && SettingsInv(s, d)
    && CallsInv(s, d)
    && TicketsInv(s, d)
    && DecidersInv(s, d)
    && EventsInv(s, d)
  }
}
