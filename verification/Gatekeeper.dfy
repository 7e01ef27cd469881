/** Concurrent tool calls, decisions and settings changes as a labelled transition system.
    A step is one stretch of code between two points where another task may run. */
module Gatekeeper {
  import opened Prelude
  import opened Policies
  import opened Tools
  import opened Approvals

  type CallId = int

  type DeciderId = int

  /** Where a dispatch stands; `session` remembers that the policy read was Session. */
  datatype Pc =
    | AtRegistry
    | AtPolicy
    | AtTrust
    | AtInsert(session: bool)
    | AtPublish(id: ApprovalId, session: bool)
    | AtWait(id: ApprovalId, session: bool)
    | AtCleanup(id: ApprovalId)
    | AtGrant(id: ApprovalId)
    | AtExecute
    | AtDraft
    | Done

  datatype Call = Call(tool: ToolName, args: Args, account: AccountId, pc: Pc)

  /** The oneshot channel of one approval, with the request it was made for. */
  datatype Ticket = Ticket(caller: CallId, req: Request, content: Option<Outcome>, receiver: bool)

  /** A `decide` in progress: it owns the sender, it has sent, it has published (or found nothing). */
  datatype Decider =
    | Holding(id: ApprovalId, decision: Decision)
    | Sent(id: ApprovalId, decision: Decision)
    | Finished

  /** What could be recorded about a run, in order. */
  datatype Event =
    | PauseSet(paused: bool)
    | PolicySet(account: AccountId, category: Category, policy: Policy)
    | PoliciesCleared(account: AccountId)
    | RegistrySet(account: AccountId, present: bool)
    | Refused(tool: ToolName, args: Args)
    | Of(call: CallId, what: CallEvent)
    | Decided(id: ApprovalId, decision: Decision)
    | DecideMissed(id: ApprovalId)

  datatype CallEvent =
    | Entered(tool: ToolName, args: Args, account: AccountId)
    | LookedUp(found: bool)
    | PolicyRead(account: AccountId, category: Category, policy: Policy)
    | TrustRead(account: AccountId, category: Category, trusted: bool)
    | Enqueued(id: ApprovalId, req: Request)
    | Received(id: ApprovalId, outcome: Outcome)
    | TimerFired(id: ApprovalId)
    | CleanedUp(id: ApprovalId, removed: bool)
    | ChannelDropped(id: ApprovalId)
    | Granted(account: AccountId, category: Category)
    | Called(account: AccountId, run: ProviderMethod, args: Args)
    | Abandoned

  datatype State = State(
    paused: bool,
    table: PolicyTable,
    registry: set<AccountId>,
    trust: TrustMap,
    queue: Queue,
    tickets: map<ApprovalId, Ticket>,
    calls: map<CallId, Call>,
    deciders: map<DeciderId, Decider>)

  const START := State(false, map[], {}, map[], Queue(map[], []), map[], map[], map[])

  /** What a step leads to, and the event it records, if any. */
  datatype Effect = Effect(state: State, event: Option<Event>)

  /** A step belongs to the tray's settings, to a dispatch outside the approval queue, to a
      dispatch inside it, or to a decision. */
  datatype Label =
    | Setting(change: Change)
    | Dispatch(call: CallId, stride: Stride)
    | Approval(call: CallId, stage: Stage)
    | Decide(decider: DeciderId, phase: Phase)

  datatype Change =
    | Pause(paused: bool)
    | SetPolicy(account: AccountId, category: Category, policy: Policy)
    | ClearPolicies(account: AccountId)
    | SetRegistered(account: AccountId, present: bool)

  datatype Stride =
    | Enter(tool: ToolName, args: Args)
    | LookUp
    | ReadPolicy
    | ReadTrust
    | Grant
    | Execute
    | Convert
    | Leave

  datatype Stage =
    | Insert(id: ApprovalId)
    | PublishRequest
    | Receive
    | FireTimer
    | CleanUp
    | SeeDropped
    | Abandon

  datatype Phase =
    | Take(id: ApprovalId, decision: Decision)
    | Deliver
    | PublishDecision

  function CategoryOf(k: Call): Category {
    ToolCategory(k.tool)
  }

  function RequestOf(k: Call): Request {
    Request(k.account, CategoryOf(k), k.tool, k.args)
  }

  /** The policy match of `enforce`. */
  function AfterPolicy(p: Policy, k: Category): Pc {
    match p
    case Allow => AtExecute
    case Block => Done
    case Draftify => if k == Category.Send then AtDraft else AtInsert(false)
    case Confirm => AtInsert(false)
    case Session => AtTrust
  }

  predicate Holds(deciders: map<DeciderId, Decider>, d: DeciderId, id: ApprovalId) {
    d in deciders && deciders[d].Holding? && deciders[d].id == id
  }

  /** The sending half of the channel still exists somewhere. */
  ghost predicate SenderAlive(s: State, id: ApprovalId) {
    id in s.queue.pending || exists d :: Holds(s.deciders, d, id)
  }

  predicate StrideEnabled(s: State, c: CallId, t: Stride) {
    match t
    case Enter(tool, _) => c !in s.calls && tool != ListAccountsTool
    case LookUp => c in s.calls && s.calls[c].pc == AtRegistry
    case ReadPolicy => c in s.calls && s.calls[c].pc == AtPolicy
    case ReadTrust => c in s.calls && s.calls[c].pc == AtTrust
    case Grant => c in s.calls && s.calls[c].pc.AtGrant?
    case Execute => c in s.calls && s.calls[c].pc.AtExecute? && s.calls[c].tool != ListAccountsTool
    case Convert => c in s.calls && s.calls[c].pc.AtDraft?
    // A dispatch can be dropped (its client gone) only where it awaits something.
    case Leave => c in s.calls && (s.calls[c].pc == AtRegistry || s.calls[c].pc == AtPolicy)
  }

  ghost predicate StageEnabled(s: State, c: CallId, t: Stage) {
    c in s.calls
    && var pc := s.calls[c].pc;
       match t
       case Insert(id) => pc.AtInsert? && id !in s.tickets
       case PublishRequest => pc.AtPublish?
       case Receive => pc.AtWait? && pc.id in s.tickets && s.tickets[pc.id].content.Some?
       case FireTimer =>
         pc.AtWait? && pc.id in s.tickets && s.tickets[pc.id].content.None? && SenderAlive(s, pc.id)
       case SeeDropped =>
         pc.AtWait? && pc.id in s.tickets && s.tickets[pc.id].content.None? && !SenderAlive(s, pc.id)
       case CleanUp => pc.AtCleanup?
       case Abandon => pc.AtInsert? || (pc.AtWait? && pc.id in s.tickets) || pc.AtCleanup?
  }

  predicate PhaseEnabled(s: State, d: DeciderId, t: Phase) {
    match t
    case Take(_, _) => d !in s.deciders
    case Deliver => d in s.deciders && s.deciders[d].Holding? && s.deciders[d].id in s.tickets
    case PublishDecision => d in s.deciders && s.deciders[d].Sent?
  }

  ghost predicate Enabled(s: State, l: Label) {
    match l
    case Setting(_) => true
    case Dispatch(c, t) => StrideEnabled(s, c, t)
    case Approval(c, t) => StageEnabled(s, c, t)
    case Decide(d, t) => PhaseEnabled(s, d, t)
  }

  function Move(s: State, c: CallId, pc: Pc): State
    requires c in s.calls
  {
    s.(calls := s.calls[c := s.calls[c].(pc := pc)])
  }

  function Goto(s: State, c: CallId, pc: Pc, e: CallEvent): Effect
    requires c in s.calls
  {
    Effect(Move(s, c, pc), Some(Of(c, e)))
  }

  function DropReceiver(s: State, id: ApprovalId): State
    requires id in s.tickets
  {
    s.(tickets := s.tickets[id := s.tickets[id].(receiver := false)])
  }

  function ChangeStep(s: State, t: Change): Effect {
    match t
    case Pause(b) => Effect(s.(paused := b), Some(PauseSet(b)))
    case SetPolicy(a, k, p) => Effect(s.(table := s.table[(a, k) := p]), Some(PolicySet(a, k, p)))
    case ClearPolicies(a) => Effect(s.(table := Cleared(s.table, a)), Some(PoliciesCleared(a)))
    case SetRegistered(a, b) =>
      Effect(s.(registry := if b then s.registry + {a} else s.registry - {a}), Some(RegistrySet(a, b)))
  }

  /** The provider is called with the arguments of the dispatch, unless they did not decode. */
  function CallProvider(s: State, c: CallId, m: Option<ProviderMethod>): Effect
    requires c in s.calls
  {
    match m
    case None => Effect(Move(s, c, Done), None)
    case Some(run) => Goto(s, c, Done, Called(s.calls[c].account, run, s.calls[c].args))
  }

  function StrideStep(s: State, c: CallId, t: Stride): Effect
    requires StrideEnabled(s, c, t)
  {
    match t
    case Enter(tool, args) =>
      if s.paused || args.account.None? then Effect(s, Some(Refused(tool, args)))
      else Effect(s.(calls := s.calls[c := Call(tool, args, args.account.value, AtRegistry)]),
                  Some(Of(c, Entered(tool, args, args.account.value))))
    case LookUp =>
      var found := s.calls[c].account in s.registry;
      Goto(s, c, if found then AtPolicy else Done, LookedUp(found))
    case ReadPolicy =>
      var a, k := s.calls[c].account, CategoryOf(s.calls[c]);
      var p := Effective(s.table, a, k);
      Goto(s, c, AfterPolicy(p, k), PolicyRead(a, k, p))
    case ReadTrust =>
      var a, k := s.calls[c].account, CategoryOf(s.calls[c]);
      var trusted := Trusted(s.trust, a, k);
      Goto(s, c, if trusted then AtExecute else AtInsert(true), TrustRead(a, k, trusted))
    case Grant =>
      var a, k := s.calls[c].account, CategoryOf(s.calls[c]);
      Goto(s.(trust := Trusting(s.trust, a, k)), c, AtExecute, Granted(a, k))
    case Execute => CallProvider(s, c, MethodFor(s.calls[c].tool, s.calls[c].args))
    case Convert => CallProvider(s, c, DraftifiedMethod(s.calls[c].tool, s.calls[c].args))
    case Leave => Goto(s, c, Done, Abandoned)
  }

  function StageStep(s: State, c: CallId, t: Stage): Effect
    requires StageEnabled(s, c, t)
  {
    var k := s.calls[c];
    match t
    case Insert(id) =>
      Goto(s.(queue := AddPending(s.queue, id, RequestOf(k)),
              tickets := s.tickets[id := Ticket(c, RequestOf(k), None, true)]),
           c, AtPublish(id, k.pc.session), Enqueued(id, RequestOf(k)))
    case PublishRequest =>
      Effect(Move(s.(queue := Publish(s.queue, Requested(k.pc.id, RequestOf(k)))),
                  c, AtWait(k.pc.id, k.pc.session)), None)
    case Receive =>
      var o := s.tickets[k.pc.id].content.value;
      Goto(DropReceiver(s, k.pc.id), c,
           if o != Approved then Done else if k.pc.session then AtGrant(k.pc.id) else AtExecute,
           Received(k.pc.id, o))
    case FireTimer => Goto(DropReceiver(s, k.pc.id), c, AtCleanup(k.pc.id), TimerFired(k.pc.id))
    case CleanUp =>
      Goto(s.(queue := DropPending(s.queue, k.pc.id)), c, Done,
           CleanedUp(k.pc.id, k.pc.id in s.queue.pending))
    case SeeDropped => Goto(DropReceiver(s, k.pc.id), c, Done, ChannelDropped(k.pc.id))
    case Abandon => Goto(if k.pc.AtWait? then DropReceiver(s, k.pc.id) else s, c, Done, Abandoned)
  }

  function PhaseStep(s: State, d: DeciderId, t: Phase): Effect
    requires PhaseEnabled(s, d, t)
  {
    match t
    case Take(id, decision) =>
      if id in s.queue.pending then
        Effect(s.(queue := DropPending(s.queue, id), deciders := s.deciders[d := Holding(id, decision)]),
               Some(Decided(id, decision)))
      else
        Effect(s.(deciders := s.deciders[d := Finished]), Some(DecideMissed(id)))
    case Deliver =>
      var h := s.deciders[d];
      var k := s.tickets[h.id];
      Effect(s.(tickets := s.tickets[h.id := if k.receiver then k.(content := Some(OutcomeOf(h.decision))) else k],
                deciders := s.deciders[d := Sent(h.id, h.decision)]), None)
    case PublishDecision =>
      var h := s.deciders[d];
      Effect(s.(queue := Publish(s.queue, Resolved(h.id, h.decision)), deciders := s.deciders[d := Finished]), None)
  }

  function Step(s: State, l: Label): Effect
    requires Enabled(s, l)
  {
    match l
    case Setting(t) => ChangeStep(s, t)
    case Dispatch(c, t) => StrideStep(s, c, t)
    case Approval(c, t) => StageStep(s, c, t)
    case Decide(d, t) => PhaseStep(s, d, t)
  }

  /** A run so far: the state it reached and everything it recorded. */
  datatype Run = Run(state: State, log: seq<Event>)

  function Extended(log: seq<Event>, e: Option<Event>): seq<Event> {
    match e case None => log case Some(e) => log + [e]
  }

  /** The run a sequence of labels produces from START, or None where a label was not enabled. */
  ghost function Exec(labels: seq<Label>): Option<Run> {
    if labels == [] then Some(Run(START, []))
    else
      var l := labels[|labels| - 1];
      match Exec(labels[..|labels| - 1])
      case None => None
      case Some(r) =>
        if !Enabled(r.state, l) then None
        else var f := Step(r.state, l); Some(Run(f.state, Extended(r.log, f.event)))
  }
}
