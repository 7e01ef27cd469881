/** Several refreshes of one client at once: the tokens lock is taken three times in a refresh, and
    the rotation callback runs after the last release. */
module TokenRaces {
  import opened Prelude
  import opened TokenRefresh

  type Task = int

  datatype Pc =
    | Asking
    | Exchanging(presented: string)
    | Storing(x: Exchange)
    | Telling(token: string)
    | Over(ok: bool)

  datatype State = State(account: Account, tasks: map<Task, Pc>)

  datatype Label =
    | Start(task: Task, now: int)
    | TakeToken(task: Task)
    | Answer(task: Task, reply: Reply)
    | Keep(task: Task)
    | Tell(task: Task, writable: bool)
    | Force(now: int)

  predicate At(s: State, t: Task, l: Label) {
    t in s.tasks &&
    match l
    case TakeToken(_) => s.tasks[t] == Asking
    case Answer(_, _) => s.tasks[t].Exchanging?
    case Keep(_) => s.tasks[t].Storing?
    case Tell(_, _) => s.tasks[t].Telling?
    case _ => false
  }

  predicate Enabled(s: State, l: Label) {
    match l
    case Start(t, _) => t !in s.tasks || s.tasks[t].Over?
    case Force(_) => true
    case _ => At(s, l.task, l)
  }

  function Step(s: State, l: Label): State
    requires Enabled(s, l)
  {
    match l
    case Start(t, now) =>
      s.(tasks := s.tasks[t := if s.account.tokens.expiresAt <= now then Asking else Over(true)])
    case TakeToken(t) =>
      s.(tasks := s.tasks[t := match s.account.tokens.refresh case Some(r) => Exchanging(r) case None => Over(false)])
    case Answer(t, reply) =>
      s.(tasks := s.tasks[t := if reply.Denied? then Over(false)
                               else Storing(Exchange(s.tasks[t].presented, reply, true))])
    case Keep(t) =>
      var x := s.tasks[t].x;
      if x.reply.Denied? then s.(tasks := s.tasks[t := Over(false)])
      else
        s.(account := s.account.(tokens := Store(s.account.tokens, x.reply)),
           tasks := s.tasks[t := match Rotated(x) case Some(r) => Telling(r) case None => Over(true)])
    case Tell(t, writable) =>
      s.(account := if s.account.notify && writable then s.account.(keychain := Some(s.tasks[t].token)) else s.account,
         tasks := s.tasks[t := Over(true)])
    case Force(now) => s.(account := Expire(s.account, now - 1))
  }

  function Exec(a0: Account, labels: seq<Label>): Option<State> {
    if labels == [] then Some(State(a0, map[]))
    else
      match Exec(a0, labels[..|labels| - 1])
      case None => None
      case Some(s) =>
        if Enabled(s, labels[|labels| - 1]) then Some(Step(s, labels[|labels| - 1])) else None
  }

  /** The refresh tokens the provider has issued: the first one, and those in the replies. */
  function Issued(a0: Account, labels: seq<Label>): set<string> {
    if labels == [] then (if a0.tokens.refresh.Some? then {a0.tokens.refresh.value} else {})
    else
      Issued(a0, labels[..|labels| - 1]) +
      match labels[|labels| - 1]
      case Answer(_, Granted(_, Some(r), _)) => {r}
      case _ => {}
  }

  ghost predicate PcOk(issued: set<string>, pc: Pc) {
    match pc
    case Exchanging(p) => p in issued
    case Storing(x) => x.presented in issued &&
      (x.reply.Granted? && x.reply.refresh.Some? ==> x.reply.refresh.value in issued)
    case Telling(r) => r in issued
    case _ => true
  }

  ghost predicate Inv(a0: Account, issued: set<string>, s: State) {
    && (a0.tokens.refresh.Some? ==> s.account.tokens.refresh.Some?)
    && (s.account.tokens.refresh.Some? ==> s.account.tokens.refresh.value in issued)
    && (s.account.keychain == a0.keychain || (s.account.keychain.Some? && s.account.keychain.value in issued))
    && forall t | t in s.tasks :: PcOk(issued, s.tasks[t])
  }

  lemma StepKeepsInv(a0: Account, labels: seq<Label>, s: State, l: Label)
    requires Inv(a0, Issued(a0, labels), s) && Enabled(s, l)
    ensures Inv(a0, Issued(a0, labels + [l]), Step(s, l))
  {
    var more := Issued(a0, labels + [l]);
    assert (labels + [l])[..|labels|] == labels;
    assert Issued(a0, labels) <= more;
    forall t | t in s.tasks
      ensures PcOk(more, s.tasks[t])
    {
      assert PcOk(Issued(a0, labels), s.tasks[t]);
    }
  }

  /** Under every interleaving, a refresh token once present stays present; and whatever is in
      memory, in the keychain or on its way there was issued by the provider. */
  lemma {:induction false} TheTokenIsNeverLost(a0: Account, labels: seq<Label>, s: State)
    requires Exec(a0, labels) == Some(s)
    ensures Inv(a0, Issued(a0, labels), s)
    ensures a0.tokens.refresh.Some? ==>
              s.account.tokens.refresh.Some? && s.account.tokens.refresh.value in Issued(a0, labels)
    ensures s.account.keychain == a0.keychain ||
              (s.account.keychain.Some? && s.account.keychain.value in Issued(a0, labels))
  {
    if labels != [] {
      var init, l := labels[..|labels| - 1], labels[|labels| - 1];
      var s0 := Exec(a0, init).value;
      TheTokenIsNeverLost(a0, init, s0);
      assert labels == init + [l];
      StepKeepsInv(a0, init, s0, l);
    }
  }

  lemma Then(a0: Account, labels: seq<Label>, s: State, l: Label) returns (labels': seq<Label>, s': State)
    requires Exec(a0, labels) == Some(s) && Enabled(s, l)
    ensures labels' == labels + [l] && Exec(a0, labels') == Some(s') && s' == Step(s, l)
  {
    assert (labels + [l])[..|labels|] == labels;
    labels', s' := labels + [l], Step(s, l);
  }

  lemma AloneItIsApply(a0: Account, labels: seq<Label>, s: State, t: Task, x: Exchange)
    returns (labels': seq<Label>, s': State)
    requires Exec(a0, labels) == Some(s) && x.reply.Granted?
    requires t in s.tasks && s.tasks[t] == Storing(x.(writable := true))
    ensures labels <= labels' && Exec(a0, labels') == Some(s')
    ensures s' == State(Apply(s.account, x), s.tasks[t := Over(true)])
  {
    labels', s' := Then(a0, labels, s, Keep(t));
    if Rotated(x).Some? {
      labels', s' := Then(a0, labels', s', Tell(t, x.writable));
    }
  }

  lemma AloneItExchanges(a0: Account, labels: seq<Label>, s: State, t: Task, x: Exchange)
    returns (labels': seq<Label>, s': State)
    requires Exec(a0, labels) == Some(s) && t in s.tasks && s.tasks[t] == Exchanging(x.presented)
    ensures labels <= labels' && Exec(a0, labels') == Some(s')
    ensures s' == State(Apply(s.account, x), s.tasks[t := Over(x.reply.Granted?)])
  {
    labels', s' := Then(a0, labels, s, Answer(t, x.reply));
    if x.reply.Granted? {
      labels', s' := AloneItIsApply(a0, labels', s', t, x);
    }
  }

  /** One task on its own does what `ensure_fresh` does: that is the sequential client. */
  lemma AloneItIsEnsureFresh(a0: Account, labels: seq<Label>, s: State, t: Task, w: Attempt)
    returns (labels': seq<Label>, s': State)
    requires Exec(a0, labels) == Some(s) && Enabled(s, Start(t, w.now))
    ensures labels <= labels' && Exec(a0, labels') == Some(s')
    ensures s'.account == ApplyAll(s.account, ExchangeOf(s.account.tokens, w))
    ensures s'.tasks == s.tasks[t := Over(Freshens(s.account.tokens, w))]
  {
    labels', s' := Then(a0, labels, s, Start(t, w.now));
    if s.account.tokens.expiresAt <= w.now {
      labels', s' := Then(a0, labels', s', TakeToken(t));
      if s.account.tokens.refresh.Some? {
        var x := Exchange(s.account.tokens.refresh.value, w.reply, w.writable);
        labels', s' := AloneItExchanges(a0, labels', s', t, x);
        ApplyOne(s.account, x);
      }
    }
  }

  lemma ApplyOne(a: Account, x: Exchange)
    ensures ApplyAll(a, [x]) == Apply(a, x)
  {
    assert [x][..0] == [];
  }

  predicate AllOver(s: State) {
    forall t | t in s.tasks :: s.tasks[t].Over?
  }

  /** No refresh starts while another is under way, and every keychain write succeeds. */
  ghost predicate Serial(a0: Account, labels: seq<Label>) {
    if labels == [] then true
    else
      var init := labels[..|labels| - 1];
      Serial(a0, init) &&
      match labels[|labels| - 1]
      case Start(_, _) => Exec(a0, init).Some? && AllOver(Exec(a0, init).value)
      case Tell(_, writable) => writable
      case _ => true
  }

  /** At most one task is under way; what it has taken is what is in memory; and only while it is
      about to call back does the keychain differ. */
  ghost predicate SerialInv(s: State) {
    && (forall t, u | t in s.tasks && u in s.tasks && !s.tasks[t].Over? && !s.tasks[u].Over? :: t == u)
    && (forall t | t in s.tasks && s.tasks[t].Exchanging? :: s.account.tokens.refresh == Some(s.tasks[t].presented))
    && (forall t | t in s.tasks && s.tasks[t].Storing? :: s.account.tokens.refresh == Some(s.tasks[t].x.presented))
    && (forall t | t in s.tasks && s.tasks[t].Telling? :: s.account.tokens.refresh == Some(s.tasks[t].token))
    && (s.account.keychain == s.account.tokens.refresh || exists t :: t in s.tasks && s.tasks[t].Telling?)
  }

  lemma StepKeepsSerial(s: State, l: Label)
    requires SerialInv(s) && s.account.notify && Enabled(s, l)
    requires l.Start? ==> AllOver(s)
    requires l.Tell? ==> l.writable
    ensures SerialInv(Step(s, l)) && Step(s, l).account.notify
  {
    var s' := Step(s, l);
    if !l.Force? {
      assert forall t | t in s'.tasks && t != l.task :: t in s.tasks && s'.tasks[t] == s.tasks[t];
      assert forall t | t in s.tasks && t != l.task :: s.tasks[t].Over?;
      assert l.task in s'.tasks;
      if l.Keep? && l.task in s.tasks {
        assert Rotated(s.tasks[l.task].x).Some? ==> s'.tasks[l.task].Telling?;
      }
    }
  }

  /** Refreshes that take turns leave the keychain with the client's token, whatever the replies and
      however often the access token is declared expired in between. */
  lemma {:induction false} TakingTurnsAgrees(a0: Account, labels: seq<Label>, s: State)
    requires a0.notify && a0.keychain == a0.tokens.refresh
    requires Exec(a0, labels) == Some(s) && Serial(a0, labels)
    ensures SerialInv(s) && s.account.notify
    ensures AllOver(s) ==> s.account.keychain == s.account.tokens.refresh
  {
    if labels != [] {
      var init := labels[..|labels| - 1];
      var s0 := Exec(a0, init).value;
      TakingTurnsAgrees(a0, init, s0);
      StepKeepsSerial(s0, labels[|labels| - 1]);
    }
  }

  // ----- taking turns or not: exactly when memory and keychain agree -----

  /** The reply a task is about to store brings a refresh token. */
  predicate Brings(s: State, t: Task) {
    t in s.tasks && s.tasks[t].Storing? && s.tasks[t].x.reply.Granted? && s.tasks[t].x.reply.refresh.Some?
  }

  /** The task that stored a refresh token last. */
  function LastKeeper(a0: Account, labels: seq<Label>): Option<Task> {
    if labels == [] then None
    else
      var init, l := labels[..|labels| - 1], labels[|labels| - 1];
      if l.Keep? && Exec(a0, init).Some? && Brings(Exec(a0, init).value, l.task) then Some(l.task)
      else LastKeeper(a0, init)
  }

  /** The task whose write to the keychain succeeded last. */
  function LastWriter(labels: seq<Label>): Option<Task> {
    if labels == [] then None
    else match labels[|labels| - 1] case Tell(t, true) => Some(t) case _ => LastWriter(labels[..|labels| - 1])
  }

  /** The tasks whose latest write to the keychain failed. */
  function FailedLast(labels: seq<Label>): set<Task> {
    if labels == [] then {}
    else
      var failed := FailedLast(labels[..|labels| - 1]);
      match labels[|labels| - 1]
      case Tell(t, writable) => if writable then failed - {t} else failed + {t}
      case _ => failed
  }

  /** A refresh token that a reply brings, if it brings one, was never issued before. */
  predicate NeverRepeats(a0: Account, labels: seq<Label>) {
    if labels == [] then true
    else
      var init := labels[..|labels| - 1];
      NeverRepeats(a0, init) &&
      match labels[|labels| - 1]
      case Answer(_, Granted(_, r, _)) => r.Some? ==> r.value !in Issued(a0, init)
      case _ => true
  }

  /** The token each task stored last, and the token each wrote to the keychain last. */
  datatype History = History(kept: map<Task, string>, told: map<Task, string>)

  function HistoryOf(a0: Account, labels: seq<Label>): History {
    if labels == [] then History(map[], map[])
    else
      var init := labels[..|labels| - 1];
      var h := HistoryOf(a0, init);
      match Exec(a0, init)
      case None => h
      case Some(s) => Recorded(h, s, labels[|labels| - 1])
  }

  function Recorded(h: History, s: State, l: Label): History {
    match l
    case Keep(t) => if Brings(s, t) then h.(kept := h.kept[t := s.tasks[t].x.reply.refresh.value]) else h
    case Tell(t, writable) =>
      if writable && t in s.tasks && s.tasks[t].Telling? then h.(told := h.told[t := s.tasks[t].token]) else h
    case _ => h
  }

  function TokenOf(m: map<Task, string>, t: Option<Task>, otherwise: Option<string>): Option<string> {
    match t
    case None => otherwise
    case Some(t) => if t in m then Some(m[t]) else None
  }

  predicate Nowhere(m: map<Task, string>, r: Option<string>) {
    forall u | u in m :: Some(m[u]) != r
  }

  /** What a task under way holds is its own: its token was stored or written by no task, and is on its
      way to no other. */
  ghost predicate HoldsItsOwn(a0: Account, h: History, tasks: map<Task, Pc>, t: Task)
    requires t in tasks
  {
    match tasks[t]
    case Storing(x) =>
      && x.reply.Granted?
      && (x.reply.refresh.Some? ==>
            && Rotated(x) == x.reply.refresh && x.reply.refresh != a0.tokens.refresh
            && Nowhere(h.kept, x.reply.refresh) && Nowhere(h.told, x.reply.refresh)
            && (forall u | u in tasks && u != t && tasks[u].Storing? :: Rotated(tasks[u].x) != x.reply.refresh))
    case Telling(r) => t in h.kept && h.kept[t] == r && (t in h.told ==> h.told[t] != r)
    case _ => true
  }

  ghost predicate KeptApart(a0: Account, h: History) {
    && (forall t, u | t in h.kept && u in h.kept && t != u :: h.kept[t] != h.kept[u])
    && (forall t, u | t in h.kept && u in h.told && t != u :: h.kept[t] != h.told[u])
    && Nowhere(h.kept, a0.tokens.refresh)
  }

  /** A task with nothing on its way to the keychain has written what it kept, unless that write failed. */
  ghost predicate ToldUnlessTelling(h: History, failed: set<Task>, tasks: map<Task, Pc>) {
    && (forall t | t in h.told :: t in h.kept)
    && (forall t | t in h.kept :: t in tasks)
    && (forall t | t in h.kept && !tasks[t].Telling? :: t !in failed <==> t in h.told && h.told[t] == h.kept[t])
  }

  ghost predicate AllIssued(issued: set<string>, h: History, tasks: map<Task, Pc>) {
    && (forall t | t in h.kept :: h.kept[t] in issued)
    && (forall t | t in h.told :: h.told[t] in issued)
    && (forall t | t in tasks && tasks[t].Storing? && Rotated(tasks[t].x).Some? :: Rotated(tasks[t].x).value in issued)
  }

  /** What the labels so far say: what was stored and written, by whom last, and whose write failed. */
  datatype Story = Story(h: History, keeper: Option<Task>, writer: Option<Task>, failed: set<Task>)

  function StoryOf(a0: Account, labels: seq<Label>): Story {
    Story(HistoryOf(a0, labels), LastKeeper(a0, labels), LastWriter(labels), FailedLast(labels))
  }

  ghost predicate RaceInv(a0: Account, issued: set<string>, y: Story, s: State) {
    && (forall t | t in s.tasks :: HoldsItsOwn(a0, y.h, s.tasks, t))
    && KeptApart(a0, y.h)
    && ToldUnlessTelling(y.h, y.failed, s.tasks)
    && AllIssued(issued, y.h, s.tasks)
    && s.account.notify
    && (y.keeper.Some? ==> y.keeper.value in y.h.kept) && (y.writer.Some? ==> y.writer.value in y.h.told)
    && (y.keeper.None? ==> y.h.kept == map[]) && (y.writer.None? ==> y.h.told == map[])
    && s.account.tokens.refresh == TokenOf(y.h.kept, y.keeper, a0.tokens.refresh)
    && s.account.keychain == TokenOf(y.h.told, y.writer, a0.tokens.refresh)
  }

  lemma AnsweringKeepsRace(a0: Account, issued: set<string>, y: Story, s: State, t: Task, reply: Reply)
    requires RaceInv(a0, issued, y, s) && Enabled(s, Answer(t, reply)) && PcOk(issued, s.tasks[t])
    requires a0.tokens.refresh.Some? ==> a0.tokens.refresh.value in issued
    requires reply.Granted? && reply.refresh.Some? ==> reply.refresh.value !in issued
    ensures RaceInv(a0, issued + (if reply.Granted? && reply.refresh.Some? then {reply.refresh.value} else {}), y,
                    Step(s, Answer(t, reply)))
  {
    var tasks' := Step(s, Answer(t, reply)).tasks;
    forall u | u in tasks'
      ensures HoldsItsOwn(a0, y.h, tasks', u)
    {
      assert HoldsItsOwn(a0, y.h, s.tasks, u);
    }
  }

  lemma KeepingKeepsRace(a0: Account, issued: set<string>, y: Story, s: State, t: Task)
    requires RaceInv(a0, issued, y, s) && Enabled(s, Keep(t))
    ensures RaceInv(a0, issued,
                    y.(h := Recorded(y.h, s, Keep(t)), keeper := if Brings(s, t) then Some(t) else y.keeper),
                    Step(s, Keep(t)))
  {
    assert HoldsItsOwn(a0, y.h, s.tasks, t);
    var h', tasks' := Recorded(y.h, s, Keep(t)), Step(s, Keep(t)).tasks;
    forall u | u in tasks'
      ensures HoldsItsOwn(a0, h', tasks', u)
    {
      assert u != t ==> HoldsItsOwn(a0, y.h, s.tasks, u);
    }
  }

  lemma TellingKeepsRace(a0: Account, issued: set<string>, y: Story, s: State, t: Task, writable: bool)
    requires RaceInv(a0, issued, y, s) && Enabled(s, Tell(t, writable))
    ensures RaceInv(a0, issued,
                    y.(h := Recorded(y.h, s, Tell(t, writable)), writer := if writable then Some(t) else y.writer,
                       failed := if writable then y.failed - {t} else y.failed + {t}),
                    Step(s, Tell(t, writable)))
  {
    assert HoldsItsOwn(a0, y.h, s.tasks, t);
    var h', tasks' := Recorded(y.h, s, Tell(t, writable)), Step(s, Tell(t, writable)).tasks;
    forall u | u in tasks'
      ensures HoldsItsOwn(a0, h', tasks', u)
    {
      assert u != t ==> HoldsItsOwn(a0, y.h, s.tasks, u);
    }
  }

  /** Starting, reading the token and declaring it expired store and write nothing. */
  lemma OthersKeepRace(a0: Account, issued: set<string>, y: Story, s: State, l: Label)
    requires RaceInv(a0, issued, y, s) && Enabled(s, l)
    requires l.Start? || l.TakeToken? || l.Force?
    ensures RaceInv(a0, issued, y, Step(s, l))
  {
    var tasks' := Step(s, l).tasks;
    forall u | u in tasks'
      ensures HoldsItsOwn(a0, y.h, tasks', u)
    {
      assert u in s.tasks ==> HoldsItsOwn(a0, y.h, s.tasks, u);
    }
  }

  lemma StepKeepsRace(a0: Account, labels: seq<Label>, s: State, l: Label)
    requires Inv(a0, Issued(a0, labels), s) && Enabled(s, l) && NeverRepeats(a0, labels + [l])
    requires Exec(a0, labels) == Some(s)
    requires a0.tokens.refresh.Some? ==> a0.tokens.refresh.value in Issued(a0, labels)
    requires RaceInv(a0, Issued(a0, labels), StoryOf(a0, labels), s)
    ensures RaceInv(a0, Issued(a0, labels + [l]), StoryOf(a0, labels + [l]), Step(s, l))
  {
    assert (labels + [l])[..|labels|] == labels;
    var issued, y := Issued(a0, labels), StoryOf(a0, labels);
    match l
    case Answer(t, reply) =>
      assert PcOk(issued, s.tasks[t]);
      AnsweringKeepsRace(a0, issued, y, s, t, reply);
    case Keep(t) => KeepingKeepsRace(a0, issued, y, s, t);
    case Tell(t, writable) => TellingKeepsRace(a0, issued, y, s, t, writable);
    case _ => OthersKeepRace(a0, issued, y, s, l);
  }

  lemma AtRestAgreesIff(a0: Account, issued: set<string>, y: Story, s: State)
    requires RaceInv(a0, issued, y, s) && AllOver(s)
    ensures s.account.keychain == s.account.tokens.refresh <==>
              y.keeper == y.writer && (y.keeper.Some? ==> y.keeper.value !in y.failed)
  {
  }

  /** When no refresh token is issued twice and all is at rest: the keychain holds the client's token if
      and only if the task that stored a refresh token last is the one whose write succeeded last, and
      its latest write is not one that failed. Most grants bring no refresh token; they change nothing. */
  lemma {:induction false} AgreesIffTheLastKeeperWroteLast(a0: Account, labels: seq<Label>, s: State)
    requires a0.notify && a0.keychain == a0.tokens.refresh
    requires Exec(a0, labels) == Some(s) && NeverRepeats(a0, labels)
    ensures RaceInv(a0, Issued(a0, labels), StoryOf(a0, labels), s)
    ensures a0.tokens.refresh.Some? ==> a0.tokens.refresh.value in Issued(a0, labels)
    ensures AllOver(s) ==>
              (s.account.keychain == s.account.tokens.refresh <==>
                && LastKeeper(a0, labels) == LastWriter(labels)
                && (LastKeeper(a0, labels).Some? ==> LastKeeper(a0, labels).value !in FailedLast(labels)))
  {
    if labels != [] {
      var init, l := labels[..|labels| - 1], labels[|labels| - 1];
      var s0 := Exec(a0, init).value;
      AgreesIffTheLastKeeperWroteLast(a0, init, s0);
      TheTokenIsNeverLost(a0, init, s0);
      assert labels == init + [l];
      StepKeepsRace(a0, init, s0, l);
    }
    if AllOver(s) {
      AtRestAgreesIff(a0, Issued(a0, labels), StoryOf(a0, labels), s);
    }
  }

  /** Side by side, two refreshes that both succeed, with every keychain write succeeding, can leave
      the keychain with another token than the client's: the tokens are stored in one order and the
      callbacks run in the other. */
  lemma OverlappingRefreshesDisagree(r0: string, r1: string, r2: string)
    returns (labels: seq<Label>, s: State)
    requires r0 != r1 && r0 != r2
    ensures var a0 := Account(Tokens("", Some(r0), 0), true, Some(r0));
            Exec(a0, labels) == Some(s)
    ensures s.tasks == map[1 := Over(true), 2 := Over(true)]
    ensures s.account.tokens.refresh == Some(r2) && s.account.keychain == Some(r1)
  {
    var a0 := Account(Tokens("", Some(r0), 0), true, Some(r0));
    labels, s := [], State(a0, map[]);
    labels, s := Then(a0, labels, s, Start(1, 0));
    labels, s := Then(a0, labels, s, Start(2, 0));
    labels, s := Then(a0, labels, s, TakeToken(1));
    labels, s := Then(a0, labels, s, TakeToken(2));
    labels, s := Then(a0, labels, s, Answer(1, Granted("a", Some(r1), 9)));
    labels, s := Then(a0, labels, s, Answer(2, Granted("b", Some(r2), 9)));
    labels, s := Then(a0, labels, s, Keep(1));
    labels, s := Then(a0, labels, s, Keep(2));
    labels, s := Then(a0, labels, s, Tell(2, true));
    labels, s := Then(a0, labels, s, Tell(1, true));
  }
}
