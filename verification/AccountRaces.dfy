/** Accounts completed and removed side by side: each operation is cut where it awaits. */
module AccountRaces {
  import opened Prelude
  import opened Policies
  import opened AccountLifecycle

  /** Where the completion that created an account stands. */
  datatype Task =
    | Seeding(email: string, refresh: Option<string>, done: nat)
    | Saving(email: string, refresh: Option<string>)
    | Registering(provider: Provider)
    | ReadingBack
    | Announcing

  datatype Removal = Purging | Unregistering

  /** `creating` are the completions that have no account yet, with the label they were given; `begun` and
      `issued` are the challenges and the account ids given out. */
  datatype State = State(
    daemon: Daemon,
    creating: map<ChallengeId, string>,
    tasks: map<AccountId, Task>,
    removals: map<AccountId, Removal>,
    begun: set<ChallengeId>,
    issued: set<AccountId>)

  const IDLE := State(EMPTY, map[], map[], map[], {}, {})

  datatype Label =
    | Begin(provider: string, begins: bool, challenge: ChallengeId)
    | Abandon(challenge: ChallengeId)
    | Take(challenge: ChallengeId, title: string)
    | Create(challenge: ChallengeId, consent: Consent, id: AccountId, rowOk: bool)
    | Upsert(id: AccountId, ok: bool)
    | Save(id: AccountId, keychainOk: bool)
    | Register(id: AccountId)
    | ReadBack(id: AccountId, readOk: bool)
    | Announce(id: AccountId)
    | Delete(id: AccountId)
    | Purge(id: AccountId, purges: bool)
    | Unregister(id: AccountId)
    | SetRow(id: AccountId, category: Category, policy: Policy)
    | Refresh(id: AccountId, token: string, keychainOk: bool)
    | Reboot

  predicate Enabled(s: State, l: Label) {
    match l
    case Begin(_, _, c) => c !in s.begun
    case Abandon(_) => true
    case Take(c, _) => c in s.daemon.challenges
    case Create(c, _, id, _) => c in s.creating && id !in s.issued
    case Upsert(id, _) => id in s.tasks && s.tasks[id].Seeding? && s.tasks[id].done < |ALL_CATEGORIES|
    case Save(id, _) => id in s.tasks && s.tasks[id].Saving?
    case Register(id) => id in s.tasks && s.tasks[id].Registering?
    case ReadBack(id, _) => id in s.tasks && s.tasks[id].ReadingBack?
    case Announce(id) => id in s.tasks && s.tasks[id].Announcing?
    case Delete(id) => id in s.daemon.rows
    case Purge(id, _) => id in s.removals && s.removals[id].Purging?
    case Unregister(id) => id in s.removals && s.removals[id].Unregistering?
    case SetRow(_, _, _) => true
    // A provider's client exists from the first registration on.
    case Refresh(id, _, _) => Registered(id) in s.daemon.log
    case Reboot => true
  }

  function Stop(s: State, id: AccountId): State {
    s.(tasks := s.tasks - {id})
  }

  function Step(s: State, l: Label): State
    requires Enabled(s, l)
  {
    var d := s.daemon;
    match l
    case Begin(p, begins, c) => s.(daemon := AddOAuth(d, p, begins, c), begun := s.begun + {c})
    case Abandon(c) => s.(daemon := CancelOAuth(d, c))
    case Take(c, title) => s.(daemon := CancelOAuth(d, c), creating := s.creating[c := title])
    case Create(c, consent, id, rowOk) =>
      var s1 := s.(creating := s.creating - {c});
      if consent.NoConsent? || !rowOk then s1
      else
        var title := if s.creating[c] == "" then consent.email else s.creating[c];
        s1.(daemon := d.(rows := d.rows[id := Row(title, consent.email)]),
            tasks := s.tasks[id := Seeding(consent.email, consent.refresh, 0)],
            issued := s.issued + {id})
    case Upsert(id, ok) =>
      var t := s.tasks[id];
      // A policy row must belong to an account.
      if !ok || id !in d.rows then Stop(s, id)
      else
        var k := ALL_CATEGORIES[t.done];
        s.(daemon := d.(table := d.table[(id, k) := DefaultPolicy(k)]),
           tasks := s.tasks[id := if t.done + 1 == |ALL_CATEGORIES| then Saving(t.email, t.refresh)
                                  else t.(done := t.done + 1)])
    case Save(id, keychainOk) =>
      var t := s.tasks[id];
      if t.refresh.None? || !keychainOk then Stop(s, id)
      else s.(daemon := d.(secrets := d.secrets[id := t.refresh.value]),
              tasks := s.tasks[id := Registering(Provider(t.email, t.refresh.value))])
    case Register(id) =>
      s.(daemon := d.(registry := d.registry[id := s.tasks[id].provider], log := d.log + [Registered(id)]),
         tasks := s.tasks[id := ReadingBack])
    case ReadBack(id, readOk) =>
      if !readOk || id !in d.rows then Stop(s, id) else s.(tasks := s.tasks[id := Announcing])
    case Announce(id) => Stop(s.(daemon := d.(log := d.log + [AccountAdded(id)])), id)
    case Delete(id) =>
      s.(daemon := d.(rows := d.rows - {id}, table := Cleared(d.table, id)), removals := s.removals[id := Purging])
    case Purge(id, purges) =>
      s.(daemon := d.(secrets := if purges then d.secrets - {id} else d.secrets),
         removals := s.removals[id := Unregistering])
    case Unregister(id) =>
      s.(daemon := d.(registry := d.registry - {id}, log := d.log + [AccountRemoved(id)]),
         removals := s.removals - {id})
    case SetRow(id, k, p) => s.(daemon := SetPolicy(d, id, k, p))
    case Refresh(id, token, keychainOk) => s.(daemon := Rotate(d, id, token, keychainOk))
    case Reboot => s.(daemon := Restart(d), creating := map[], tasks := map[], removals := map[])
  }

  function Exec(labels: seq<Label>): Option<State> {
    if labels == [] then Some(IDLE)
    else
      match Exec(labels[..|labels| - 1])
      case None => None
      case Some(s) =>
        if Enabled(s, labels[|labels| - 1]) then Some(Step(s, labels[|labels| - 1])) else None
  }

  function LateAfter(s: State, late: set<AccountId>, l: Label): set<AccountId> {
    match l
    case Register(id) => if AccountRemoved(id) in s.daemon.log then late + {id} else late
    case Reboot => {}
    case _ => late
  }

  /** The accounts whose provider was registered after they had been removed, since the daemon started. */
  function Late(labels: seq<Label>): set<AccountId> {
    if labels == [] then {}
    else
      var init := labels[..|labels| - 1];
      match Exec(init)
      case None => {}
      case Some(s) => LateAfter(s, Late(init), labels[|labels| - 1])
  }

  function UnsavedAfter(unsaved: set<AccountId>, l: Label): set<AccountId> {
    match l
    case Refresh(id, _, ok) => if ok then unsaved - {id} else unsaved + {id}
    case Reboot => {}
    case _ => unsaved
  }

  /** The accounts whose latest rotation the keychain would not take, since the daemon started. */
  function Unsaved(labels: seq<Label>): set<AccountId> {
    if labels == [] then {} else UnsavedAfter(Unsaved(labels[..|labels| - 1]), labels[|labels| - 1])
  }

  // ----- one account -----

  /** All that a state and its history say of one account. */
  datatype View = View(
    row: Option<Row>,
    secret: Option<string>,
    provider: Option<Provider>,
    task: Option<Task>,
    removing: bool,
    removed: bool,
    registered: bool,
    added: bool,
    issued: bool,
    late: bool,
    unsaved: bool)

  function Lookup<K, V>(m: map<K, V>, k: K): Option<V> {
    if k in m then Some(m[k]) else None
  }

  function ViewOf(s: State, late: set<AccountId>, unsaved: set<AccountId>, id: AccountId): View {
    var d := s.daemon;
    View(Lookup(d.rows, id), Lookup(d.secrets, id), Lookup(d.registry, id), Lookup(s.tasks, id), id in s.removals,
         AccountRemoved(id) in d.log, Registered(id) in d.log, AccountAdded(id) in d.log,
         id in s.issued, id in late, id in unsaved)
  }

  predicate TaskFits(v: View, t: Task) {
    && !v.added
    && (v.row.None? ==> v.removing || v.removed)
    && match t
       case Seeding(email, _, _) =>
         !v.registered && v.provider.None? && v.secret.None? && (v.row.Some? ==> v.row.value.email == email)
       case Saving(email, _) =>
         !v.registered && v.provider.None? && v.secret.None? && (v.row.Some? ==> v.row.value.email == email)
       case Registering(p) =>
         && !v.registered && v.provider.None?
         && (v.row.Some? ==> v.secret == Some(p.refresh) && v.row.value.email == p.email)
       case _ => true
  }

  predicate Fits(v: View) {
    && (!v.issued ==> v == View(None, None, None, None, false, false, false, false, false, false, false))
    && (v.row.Some? ==> !v.removing && !v.removed)
    && (v.removing ==> !v.removed)
    && (v.late ==> v.removed && v.registered) && (v.unsaved ==> v.registered)
    && (v.row.Some? ==> (v.provider.Some? <==> v.secret.Some? && !(v.task.Some? && v.task.value.Registering?)))
    && (v.row.None? && !v.removing ==> (v.provider.Some? <==> v.late))
    && (v.row.Some? && v.provider.Some? ==>
          v.provider.value.email == v.row.value.email && (v.unsaved || Some(v.provider.value.refresh) == v.secret))
    && (v.row.Some? && v.registered ==> v.provider.Some?)
    && (v.task.Some? ==> TaskFits(v, v.task.value))
  }

  predicate IsAbout(l: Label, id: AccountId) {
    match l
    case Begin(_, _, _) | Abandon(_) | Take(_, _) | Reboot => false
    case Create(_, _, i, _) => i == id
    case _ => l.id == id
  }

  predicate Completing(l: Label) {
    l.Create? || l.Upsert? || l.Save? || l.Register? || l.ReadBack? || l.Announce?
  }

  lemma CompletingOthers(s: State, late: set<AccountId>, unsaved: set<AccountId>, l: Label, id: AccountId)
    requires Enabled(s, l) && !IsAbout(l, id) && Completing(l)
    ensures ViewOf(Step(s, l), LateAfter(s, late, l), UnsavedAfter(unsaved, l), id) == ViewOf(s, late, unsaved, id)
  {
  }

  lemma OthersKeepTheirView(s: State, late: set<AccountId>, unsaved: set<AccountId>, l: Label, id: AccountId)
    requires Enabled(s, l) && !IsAbout(l, id) && l != Reboot
    ensures ViewOf(Step(s, l), LateAfter(s, late, l), UnsavedAfter(unsaved, l), id) == ViewOf(s, late, unsaved, id)
  {
    if Completing(l) {
      CompletingOthers(s, late, unsaved, l, id);
    }
  }

  lemma CreatingFits(s: State, late: set<AccountId>, unsaved: set<AccountId>, l: Label, id: AccountId)
    requires Enabled(s, l) && IsAbout(l, id) && Fits(ViewOf(s, late, unsaved, id)) && (l.Create? || l.Upsert?)
    ensures Fits(ViewOf(Step(s, l), late, unsaved, id))
  {
  }

  lemma CompletingFits(s: State, late: set<AccountId>, unsaved: set<AccountId>, l: Label, id: AccountId)
    requires Enabled(s, l) && IsAbout(l, id) && Fits(ViewOf(s, late, unsaved, id)) && Completing(l)
    ensures Fits(ViewOf(Step(s, l), LateAfter(s, late, l), UnsavedAfter(unsaved, l), id))
  {
    if l.Create? || l.Upsert? {
      CreatingFits(s, late, unsaved, l, id);
    }
  }

  lemma RemovingFits(s: State, late: set<AccountId>, unsaved: set<AccountId>, l: Label, id: AccountId)
    requires Enabled(s, l) && IsAbout(l, id) && Fits(ViewOf(s, late, unsaved, id))
    requires !Completing(l)
    ensures Fits(ViewOf(Step(s, l), LateAfter(s, late, l), UnsavedAfter(unsaved, l), id))
  {
  }

  lemma RebootFits(s: State, late: set<AccountId>, unsaved: set<AccountId>, id: AccountId)
    requires Fits(ViewOf(s, late, unsaved, id))
    ensures Fits(ViewOf(Step(s, Reboot), {}, {}, id))
  {
  }

  lemma StepFits(s: State, late: set<AccountId>, unsaved: set<AccountId>, l: Label, id: AccountId)
    requires Enabled(s, l) && Fits(ViewOf(s, late, unsaved, id))
    ensures Fits(ViewOf(Step(s, l), LateAfter(s, late, l), UnsavedAfter(unsaved, l), id))
  {
    if l == Reboot {
      RebootFits(s, late, unsaved, id);
    } else if !IsAbout(l, id) {
      OthersKeepTheirView(s, late, unsaved, l, id);
    } else if Completing(l) {
      CompletingFits(s, late, unsaved, l, id);
    } else {
      RemovingFits(s, late, unsaved, l, id);
    }
  }

  lemma {:induction false} RunFits(labels: seq<Label>, s: State, id: AccountId)
    requires Exec(labels) == Some(s)
    ensures Fits(ViewOf(s, Late(labels), Unsaved(labels), id))
  {
    if labels != [] {
      var init, l := labels[..|labels| - 1], labels[|labels| - 1];
      RunFits(init, Exec(init).value, id);
      StepFits(Exec(init).value, Late(init), Unsaved(init), l, id);
    }
  }

  // ----- what holds of every run -----

  predicate BeingRegistered(s: State, id: AccountId) {
    id in s.tasks && s.tasks[id].Registering?
  }

  /** At every point of every run, an account that is not being removed has a provider if and only if it
      has a row and a secret and is not about to be registered, or was registered late. */
  lemma RegisteredIff(labels: seq<Label>, s: State, id: AccountId)
    requires Exec(labels) == Some(s) && id !in s.removals
    ensures var d := s.daemon;
            && (id in d.registry <==>
                  (id in d.rows && id in d.secrets && !BeingRegistered(s, id)) || id in Late(labels))
            && (id in Late(labels) ==> id !in d.rows && AccountRemoved(id) in d.log && Registered(id) in d.log)
  {
    RunFits(labels, s, id);
  }

  /** When nothing is under way: starting again would register the same accounts if and only if none was
      registered late, and with the same tokens but for those the keychain refused. */
  lemma RestartChangesNothingIffNoneIsLate(labels: seq<Label>, s: State)
    requires Exec(labels) == Some(s) && s.tasks == map[] && s.removals == map[]
    ensures var d := s.daemon;
            var h := Hydrated(d.rows, d.secrets);
            && (d.registry.Keys == h.Keys <==> Late(labels) == {})
            && (forall id | id in d.registry && id !in Late(labels) && id !in Unsaved(labels) ::
                  id in h && h[id] == d.registry[id])
  {
    var d, late := s.daemon, Late(labels);
    var h := Hydrated(d.rows, d.secrets);
    forall id
      ensures id in d.registry <==> id in h || id in late
      ensures id in late ==> id !in h
    {
      RegisteredIff(labels, s, id);
    }
    forall id | id in d.registry && id !in late && id !in Unsaved(labels)
      ensures id in h && h[id] == d.registry[id]
    {
      RunFits(labels, s, id);
    }
    if d.registry.Keys == h.Keys {
      assert forall id :: id in d.registry.Keys <==> id in h.Keys;
      assert late == {};
    }
  }

  /** No account is deleted while its completion is under way. */
  ghost predicate NoRemovalOvertakes(labels: seq<Label>) {
    if labels == [] then true
    else
      var init, l := labels[..|labels| - 1], labels[|labels| - 1];
      NoRemovalOvertakes(init) && (l.Delete? ==> Exec(init).Some? && l.id !in Exec(init).value.tasks)
  }

  ghost predicate TasksHaveRows(s: State) {
    forall id | id in s.tasks :: id in s.daemon.rows
  }

  lemma StepKeepsRows(s: State, l: Label)
    requires Enabled(s, l) && TasksHaveRows(s) && (l.Delete? ==> l.id !in s.tasks)
    ensures TasksHaveRows(Step(s, l))
  {
  }

  lemma RegisteringInTime(s: State, late: set<AccountId>, unsaved: set<AccountId>, l: Label)
    requires Enabled(s, l) && TasksHaveRows(s) && (l.Register? ==> Fits(ViewOf(s, late, unsaved, l.id)))
    ensures LateAfter(s, {}, l) == {}
  {
  }

  /** Then no registration comes late. */
  lemma {:induction false} TakingTurnsNoneIsLate(labels: seq<Label>, s: State)
    requires Exec(labels) == Some(s) && NoRemovalOvertakes(labels)
    ensures TasksHaveRows(s) && Late(labels) == {}
  {
    if labels != [] {
      var init, l := labels[..|labels| - 1], labels[|labels| - 1];
      var s0 := Exec(init).value;
      TakingTurnsNoneIsLate(init, s0);
      StepKeepsRows(s0, l);
      if l.Register? {
        RunFits(init, s0, l.id);
      }
      RegisteringInTime(s0, Late(init), Unsaved(init), l);
    }
  }

  // ----- how often -----

  function Times(e: Event, log: seq<Event>): nat {
    multiset(log)[e]
  }

  /** What a step adds to the log. */
  function News(s: State, l: Label): seq<Event>
    requires Enabled(s, l)
  {
    match l
    case Begin(p, begins, c) => if p == "gmail" && begins then [Began(c)] else []
    case Abandon(c) => if c in s.daemon.challenges then [Consumed(c)] else []
    case Take(c, _) => [Consumed(c)]
    case Register(id) => [Registered(id)]
    case Announce(id) => [AccountAdded(id)]
    case Unregister(id) => [AccountRemoved(id)]
    case _ => []
  }

  lemma StepLogs(s: State, l: Label)
    requires Enabled(s, l)
    ensures Step(s, l).daemon.log == s.daemon.log + News(s, l)
  {
    assert s.daemon.log + [] == s.daemon.log;
  }

  /** Every account is registered, announced and removed at most once. */
  lemma {:induction false} AccountsComeAndGoOnce(labels: seq<Label>, s: State, id: AccountId)
    requires Exec(labels) == Some(s)
    ensures Times(Registered(id), s.daemon.log) <= 1
    ensures Times(AccountAdded(id), s.daemon.log) <= 1
    ensures Times(AccountRemoved(id), s.daemon.log) <= 1
  {
    if labels != [] {
      var init, l := labels[..|labels| - 1], labels[|labels| - 1];
      var s0 := Exec(init).value;
      AccountsComeAndGoOnce(init, s0, id);
      RunFits(init, s0, id);
      StepLogs(s0, l);
    }
  }

  ghost predicate ChallengeFits(s: State, c: ChallengeId) {
    && Times(Consumed(c), s.daemon.log) <= Times(Began(c), s.daemon.log) <= (if c in s.begun then 1 else 0)
    && (c in s.daemon.challenges ==> Times(Began(c), s.daemon.log) == 1 && Times(Consumed(c), s.daemon.log) == 0)
  }

  lemma ChallengesAfter(s: State, l: Label, c: ChallengeId)
    requires Enabled(s, l)
    ensures c in s.begun ==> c in Step(s, l).begun
    ensures Times(Began(c), News(s, l)) ==
              if l.Begin? && l.challenge == c && l.provider == "gmail" && l.begins then 1 else 0
    ensures Times(Consumed(c), News(s, l)) ==
              if (l.Take? || l.Abandon?) && l.challenge == c && c in s.daemon.challenges then 1 else 0
    ensures c in Step(s, l).daemon.challenges ==>
              (c in s.daemon.challenges && Times(Consumed(c), News(s, l)) == 0) || Times(Began(c), News(s, l)) == 1
  {
  }

  /** Every challenge is consumed at most once, whether by completing or by cancelling, and one still
      pending has not been. */
  lemma {:induction false} ChallengesAreConsumedOnce(labels: seq<Label>, s: State, c: ChallengeId)
    requires Exec(labels) == Some(s)
    ensures ChallengeFits(s, c)
  {
    if labels != [] {
      var init, l := labels[..|labels| - 1], labels[|labels| - 1];
      var s0 := Exec(init).value;
      ChallengesAreConsumedOnce(init, s0, c);
      ChallengesAfter(s0, l, c);
      StepLogs(s0, l);
    }
  }

  // ----- policies -----

  predicate Covered(table: PolicyTable, id: AccountId, n: int) {
    forall j | 0 <= j < n && j < |ALL_CATEGORIES| :: (id, ALL_CATEGORIES[j]) in table
  }

  /** Of an account that has a row: as many categories as were seeded, and all once it is past that. */
  predicate Seeds(s: State, id: AccountId) {
    && (id in s.tasks && s.tasks[id].Seeding? ==> Covered(s.daemon.table, id, s.tasks[id].done))
    && (id in s.daemon.secrets || (id in s.tasks && s.tasks[id].Saving?) ==>
          Covered(s.daemon.table, id, |ALL_CATEGORIES|))
  }

  ghost predicate TableFits(s: State) {
    && (forall k | k in s.daemon.table :: k.0 in s.daemon.rows)
    && (forall id | id in s.daemon.rows :: Seeds(s, id))
  }

  lemma UpsertKeepsTable(s: State, id: AccountId, ok: bool)
    requires Enabled(s, Upsert(id, ok)) && TableFits(s)
    ensures TableFits(Step(s, Upsert(id, ok)))
  {
    var s' := Step(s, Upsert(id, ok));
    forall x | x in s'.daemon.rows
      ensures Seeds(s', x)
    {
      assert Seeds(s, x);
    }
  }

  lemma StepKeepsTable(s: State, late: set<AccountId>, unsaved: set<AccountId>, l: Label)
    requires Enabled(s, l) && TableFits(s) && forall id :: Fits(ViewOf(s, late, unsaved, id))
    ensures TableFits(Step(s, l))
  {
    if l.Upsert? {
      UpsertKeepsTable(s, l.id, l.ok);
    } else {
      var s' := Step(s, l);
      forall x | x in s'.daemon.rows
        ensures Seeds(s', x)
      {
        assert Fits(ViewOf(s, late, unsaved, x));
        assert x in s.daemon.rows ==> Seeds(s, x);
      }
    }
  }

  /** Under every interleaving policies belong to accounts that exist, and an account that exists and
      has a provider has one for every category. */
  lemma {:induction false} PoliciesAreComplete(labels: seq<Label>, s: State)
    requires Exec(labels) == Some(s)
    ensures TableFits(s)
    ensures forall id, c | id in s.daemon.rows && id in s.daemon.registry :: (id, c) in s.daemon.table
  {
    if labels != [] {
      var init, l := labels[..|labels| - 1], labels[|labels| - 1];
      var s0 := Exec(init).value;
      PoliciesAreComplete(init, s0);
      forall id {
        RunFits(init, s0, id);
      }
      StepKeepsTable(s0, Late(init), Unsaved(init), l);
    }
    forall id, c | id in s.daemon.rows && id in s.daemon.registry
      ensures (id, c) in s.daemon.table
    {
      RunFits(labels, s, id);
      assert Seeds(s, id);
      AllCategoriesListed(c);
    }
  }

  /** What the user last set for the pair, unless seeding the account or deleting it may have undone that. */
  function SetLast(labels: seq<Label>, id: AccountId, k: Category): Option<Policy> {
    if labels == [] then None
    else
      var before := SetLast(labels[..|labels| - 1], id, k);
      match labels[|labels| - 1]
      case SetRow(i, c, p) => if i == id && c == k then Some(p) else before
      case Create(_, _, i, _) => if i == id then None else before
      case Upsert(i, _) => if i == id then None else before
      case Delete(i) => if i == id then None else before
      case _ => before
  }

  /** A setting stays what the user made it. */
  lemma {:induction false} SettingsStick(labels: seq<Label>, s: State, id: AccountId, k: Category)
    requires Exec(labels) == Some(s) && id in s.daemon.rows && SetLast(labels, id, k).Some?
    ensures (id, k) in s.daemon.table && Some(s.daemon.table[(id, k)]) == SetLast(labels, id, k)
  {
    var init, l := labels[..|labels| - 1], labels[|labels| - 1];
    var s0 := Exec(init).value;
    OldRows(s0, l, id);
    if id in s0.daemon.rows && SetLast(init, id, k).Some? {
      SettingsStick(init, s0, id, k);
    }
  }

  lemma OldRows(s: State, l: Label, id: AccountId)
    requires Enabled(s, l) && id in Step(s, l).daemon.rows
    ensures id in s.daemon.rows || (l.Create? && l.id == id)
  {
  }

  // ----- names -----

  /** The label the last completion of the challenge was given. */
  function TitleOf(labels: seq<Label>, c: ChallengeId): string {
    if labels == [] then ""
    else
      match labels[|labels| - 1]
      case Take(x, title) => if x == c then title else TitleOf(labels[..|labels| - 1], c)
      case _ => TitleOf(labels[..|labels| - 1], c)
  }

  /** The account was created by the label at position i: with the address consented to, under the label its
      completion was given, or under that address if it was given none. */
  ghost predicate CreatedAt(labels: seq<Label>, i: int, id: AccountId, row: Row) {
    && 0 <= i < |labels| && labels[i].Create? && labels[i].id == id && labels[i].consent.Consented?
    && row.email == labels[i].consent.email
    && row.title == (if TitleOf(labels[..i], labels[i].challenge) == "" then row.email
                     else TitleOf(labels[..i], labels[i].challenge))
  }

  ghost predicate Named(labels: seq<Label>, s: State) {
    && (forall c | c in s.creating :: s.creating[c] == TitleOf(labels, c))
    && (forall id | id in s.daemon.rows :: exists i :: CreatedAt(labels, i, id, s.daemon.rows[id]))
  }

  lemma StepKeepsNames(labels: seq<Label>, s: State, l: Label)
    requires Named(labels, s) && Enabled(s, l)
    ensures Named(labels + [l], Step(s, l))
  {
    var all, s' := labels + [l], Step(s, l);
    assert all[..|labels|] == labels;
    forall id | id in s'.daemon.rows
      ensures exists i :: CreatedAt(all, i, id, s'.daemon.rows[id])
    {
      if id in s.daemon.rows && s'.daemon.rows[id] == s.daemon.rows[id] {
        var i :| CreatedAt(labels, i, id, s.daemon.rows[id]);
        assert all[..i] == labels[..i];
        assert CreatedAt(all, i, id, s'.daemon.rows[id]);
      } else {
        assert CreatedAt(all, |labels|, id, s'.daemon.rows[id]);
      }
    }
  }

  /** Every account carries the address and the name it was created with. */
  lemma {:induction false} RowsAreAsCreated(labels: seq<Label>, s: State)
    requires Exec(labels) == Some(s)
    ensures Named(labels, s)
  {
    if labels != [] {
      var init, l := labels[..|labels| - 1], labels[|labels| - 1];
      RowsAreAsCreated(init, Exec(init).value);
      StepKeepsNames(init, Exec(init).value, l);
      assert labels == init + [l];
    }
  }

  // ----- tokens -----

  /** The label at position i brought the token: with the consent to the account, or by rotating it. */
  predicate BroughtAt(labels: seq<Label>, i: int, id: AccountId, token: string) {
    0 <= i < |labels| &&
    match labels[i]
    case Create(_, Consented(_, refresh), x, _) => x == id && refresh == Some(token)
    case Refresh(x, t, _) => x == id && t == token
    case _ => false
  }

  ghost predicate Brought(labels: seq<Label>, id: AccountId, token: string) {
    exists i :: BroughtAt(labels, i, id, token)
  }

  function TokenOf(t: Task): Option<string> {
    match t
    case Seeding(_, refresh, _) => refresh
    case Saving(_, refresh) => refresh
    case Registering(p) => Some(p.refresh)
    case _ => None
  }

  ghost predicate TokensFit(labels: seq<Label>, s: State) {
    && (forall id | id in s.daemon.secrets :: Brought(labels, id, s.daemon.secrets[id]))
    && (forall id | id in s.daemon.registry :: Brought(labels, id, s.daemon.registry[id].refresh))
    && (forall id | id in s.tasks && TokenOf(s.tasks[id]).Some? :: Brought(labels, id, TokenOf(s.tasks[id]).value))
  }

  lemma BroughtStays(labels: seq<Label>, l: Label, id: AccountId, token: string)
    ensures Brought(labels, id, token) ==> Brought(labels + [l], id, token)
    ensures BroughtAt([l], 0, id, token) ==> Brought(labels + [l], id, token)
  {
    var all := labels + [l];
    if i :| BroughtAt(labels, i, id, token) {
      assert all[i] == labels[i];
      assert BroughtAt(all, i, id, token);
    }
    assert all[|labels|] == l;
    if BroughtAt([l], 0, id, token) {
      assert BroughtAt(all, |labels|, id, token);
    }
  }

  lemma StepKeepsTokens(labels: seq<Label>, s: State, l: Label)
    requires TokensFit(labels, s) && Enabled(s, l)
    ensures TokensFit(labels + [l], Step(s, l))
  {
    forall id, token
      ensures Brought(labels, id, token) ==> Brought(labels + [l], id, token)
      ensures BroughtAt([l], 0, id, token) ==> Brought(labels + [l], id, token)
    {
      BroughtStays(labels, l, id, token);
    }
  }

  /** Whatever token the keychain or a provider holds for an account came with its consent or by a rotation of
      its own. */
  lemma {:induction false} TokensWereBrought(labels: seq<Label>, s: State)
    requires Exec(labels) == Some(s)
    ensures TokensFit(labels, s)
  {
    if labels != [] {
      var init, l := labels[..|labels| - 1], labels[|labels| - 1];
      TokensWereBrought(init, Exec(init).value);
      StepKeepsTokens(init, Exec(init).value, l);
      assert labels == init + [l];
    }
  }

  // ----- one operation on its own -----

  lemma Then(labels: seq<Label>, s: State, l: Label) returns (labels': seq<Label>, s': State)
    requires Exec(labels) == Some(s) && Enabled(s, l)
    ensures labels' == labels + [l] && Exec(labels') == Some(s') && s' == Step(s, l)
  {
    assert (labels + [l])[..|labels|] == labels;
    labels', s' := labels + [l], Step(s, l);
  }

  lemma InstalledNext(table: PolicyTable, id: AccountId, n: nat)
    requires n < |ALL_CATEGORIES|
    ensures Installed(table, id, ALL_CATEGORIES[..n])[(id, ALL_CATEGORIES[n]) := DefaultPolicy(ALL_CATEGORIES[n])]
            == Installed(table, id, ALL_CATEGORIES[..n + 1])
  {
    assert ALL_CATEGORIES[..n + 1][..n] == ALL_CATEGORIES[..n];
  }

  lemma UpsertAlone(labels: seq<Label>, s: State, id: AccountId, table: PolicyTable)
    returns (labels': seq<Label>, s': State)
    requires Exec(labels) == Some(s) && id in s.daemon.rows && Enabled(s, Upsert(id, true))
    requires s.daemon.table == Installed(table, id, ALL_CATEGORIES[..s.tasks[id].done])
    ensures labels <= labels' && Exec(labels') == Some(s')
    ensures var t := s.tasks[id];
            s' == s.(daemon := s.daemon.(table := Installed(table, id, ALL_CATEGORIES[..t.done + 1])),
                     tasks := s.tasks[id := if t.done + 1 == |ALL_CATEGORIES| then Saving(t.email, t.refresh)
                                            else t.(done := t.done + 1)])
  {
    InstalledNext(table, id, s.tasks[id].done);
    labels', s' := Then(labels, s, Upsert(id, true));
  }

  /** A seeding after n categories. */
  function SeededAt(s: State, id: AccountId, t: Task, n: nat): State
    requires n < |ALL_CATEGORIES| && t.Seeding?
  {
    s.(daemon := s.daemon.(table := Installed(s.daemon.table, id, ALL_CATEGORIES[..n])),
       tasks := s.tasks[id := t.(done := n)])
  }

  lemma NotSeededYet(s: State, id: AccountId)
    requires id in s.tasks && s.tasks[id].Seeding? && s.tasks[id].done == 0
    ensures SeededAt(s, id, s.tasks[id], 0) == s
  {
    assert ALL_CATEGORIES[..0] == [];
    assert s.tasks[id := s.tasks[id]] == s.tasks;
  }

  lemma OneMoreUpsert(labels: seq<Label>, s: State, id: AccountId, t: Task, n: nat)
    returns (labels': seq<Label>, s': State)
    requires t.Seeding? && n + 1 < |ALL_CATEGORIES| && id in s.daemon.rows
    requires Exec(labels) == Some(SeededAt(s, id, t, n))
    ensures labels <= labels' && Exec(labels') == Some(s') && s' == SeededAt(s, id, t, n + 1)
  {
    labels', s' := UpsertAlone(labels, SeededAt(s, id, t, n), id, s.daemon.table);
    assert s'.tasks == s.tasks[id := t.(done := n + 1)];
  }

  /** The first n categories, of a seeding that has not begun. */
  lemma {:induction false} UpsertsAlone(labels: seq<Label>, s: State, id: AccountId, n: nat)
    returns (labels': seq<Label>, s': State)
    requires Exec(labels) == Some(s) && id in s.daemon.rows && id in s.tasks && n < |ALL_CATEGORIES|
    requires s.tasks[id].Seeding? && s.tasks[id].done == 0
    ensures labels <= labels' && Exec(labels') == Some(s') && s' == SeededAt(s, id, s.tasks[id], n)
  {
    if n == 0 {
      NotSeededYet(s, id);
      labels', s' := labels, s;
    } else {
      labels', s' := UpsertsAlone(labels, s, id, n - 1);
      labels', s' := OneMoreUpsert(labels', s, id, s.tasks[id], n - 1);
    }
  }

  /** All of it, of which the database takes `upserts`. */
  lemma SeedingAlone(labels: seq<Label>, s: State, id: AccountId, upserts: nat)
    returns (labels': seq<Label>, s': State)
    requires Exec(labels) == Some(s) && id in s.daemon.rows && id in s.tasks
    requires s.tasks[id].Seeding? && s.tasks[id].done == 0
    ensures labels <= labels' && Exec(labels') == Some(s') && s'.removals == s.removals
    ensures s'.daemon == s.daemon.(table := Seeded(s.daemon.table, id, upserts))
    ensures var t := s.tasks[id];
            s'.tasks == if upserts < |ALL_CATEGORIES| then s.tasks - {id} else s.tasks[id := Saving(t.email, t.refresh)]
  {
    if upserts < |ALL_CATEGORIES| {
      labels', s' := UpsertsAlone(labels, s, id, upserts);
      labels', s' := Then(labels', s', Upsert(id, false));
    } else {
      labels', s' := UpsertsAlone(labels, s, id, |ALL_CATEGORIES| - 1);
      labels', s' := UpsertAlone(labels', s', id, s.daemon.table);
      assert ALL_CATEGORIES[..|ALL_CATEGORIES|] == ALL_CATEGORIES;
    }
  }

  /** From the registration on. */
  lemma ReadingBackAlone(labels: seq<Label>, s: State, id: AccountId, readOk: bool)
    returns (labels': seq<Label>, s': State)
    requires Exec(labels) == Some(s) && id in s.daemon.rows && id in s.tasks && s.tasks[id].ReadingBack?
    ensures labels <= labels' && Exec(labels') == Some(s')
    ensures s'.tasks == s.tasks - {id} && s'.removals == s.removals
    ensures s'.daemon == s.daemon.(log := s.daemon.log + if readOk then [AccountAdded(id)] else [])
  {
    labels', s' := Then(labels, s, ReadBack(id, readOk));
    if readOk {
      labels', s' := Then(labels', s', Announce(id));
    } else {
      assert s.daemon.log + [] == s.daemon.log;
    }
  }

  lemma RegisteringAlone(labels: seq<Label>, s: State, id: AccountId, keychainOk: bool, readOk: bool)
    returns (labels': seq<Label>, s': State)
    requires Exec(labels) == Some(s) && id in s.daemon.rows && id in s.tasks && s.tasks[id].Saving?
    ensures labels <= labels' && Exec(labels') == Some(s')
    ensures s'.tasks == s.tasks - {id} && s'.removals == s.removals
    ensures var d, t := s.daemon, s.tasks[id];
            s'.daemon == if t.refresh.None? || !keychainOk then d
                         else d.(secrets := d.secrets[id := t.refresh.value],
                                 registry := d.registry[id := Provider(t.email, t.refresh.value)],
                                 log := d.log + [Registered(id)] + if readOk then [AccountAdded(id)] else [])
  {
    var t := s.tasks[id];
    labels', s' := Then(labels, s, Save(id, keychainOk));
    if t.refresh.Some? && keychainOk {
      labels', s' := Then(labels', s', Register(id));
      assert s'.tasks - {id} == s.tasks - {id};
      labels', s' := ReadingBackAlone(labels', s', id, readOk);
    }
  }

  /** From the creation of the row on. */
  lemma CreatingAlone(labels: seq<Label>, s: State, c: ChallengeId, consent: Consent, id: AccountId)
    returns (labels': seq<Label>, s': State)
    requires Exec(labels) == Some(s) && Enabled(s, Create(c, consent, id, true)) && consent.Consented?
    requires id !in s.tasks
    ensures labels <= labels' && Exec(labels') == Some(s')
    ensures var d, title := s.daemon, s.creating[c];
            s'.daemon == d.(rows := d.rows[id := Row(if title == "" then consent.email else title, consent.email)])
    ensures s'.tasks == s.tasks[id := Seeding(consent.email, consent.refresh, 0)] && s'.removals == s.removals
    ensures s'.tasks - {id} == s.tasks
  {
    labels', s' := Then(labels, s, Create(c, consent, id, true));
  }

  lemma StoringAlone(labels: seq<Label>, s: State, c: ChallengeId, consent: Consent, id: AccountId,
                     upserts: nat, keychainOk: bool, readOk: bool)
    returns (labels': seq<Label>, s': State)
    requires Exec(labels) == Some(s) && Enabled(s, Create(c, consent, id, true)) && consent.Consented?
    requires id !in s.tasks
    ensures labels <= labels' && Exec(labels') == Some(s')
    ensures s'.daemon == StoreAccount(s.daemon, s.creating[c], consent, id, upserts, keychainOk, readOk)
    ensures s'.tasks == s.tasks && s'.removals == s.removals
  {
    labels', s' := CreatingAlone(labels, s, c, consent, id);
    labels', s' := SeedingAlone(labels', s', id, upserts);
    if upserts >= |ALL_CATEGORIES| {
      labels', s' := RegisteringAlone(labels', s', id, keychainOk, readOk);
    }
  }

  /** A completion with nothing in between is `CompleteOAuth`. */
  lemma AloneItIsCompleteOAuth(labels: seq<Label>, s: State, c: ChallengeId, title: string, consent: Consent,
                               id: AccountId, rowOk: bool, upserts: nat, keychainOk: bool, readOk: bool)
    returns (labels': seq<Label>, s': State)
    requires Exec(labels) == Some(s) && id !in s.issued
    ensures labels <= labels' && Exec(labels') == Some(s')
    ensures s'.daemon == CompleteOAuth(s.daemon, c, title, consent, id, rowOk, upserts, keychainOk, readOk)
    ensures s'.tasks == s.tasks && s'.removals == s.removals
  {
    labels', s' := labels, s;
    if c in s.daemon.challenges {
      RunFits(labels, s, id);
      labels', s' := Then(labels', s', Take(c, title));
      if consent.NoConsent? || !rowOk {
        labels', s' := Then(labels', s', Create(c, consent, id, rowOk));
      } else {
        labels', s' := StoringAlone(labels', s', c, consent, id, upserts, keychainOk, readOk);
      }
    }
  }

  /** A removal with nothing in between is `RemoveAccount`. */
  lemma AloneItIsRemoveAccount(labels: seq<Label>, s: State, id: AccountId, purges: bool)
    returns (labels': seq<Label>, s': State)
    requires Exec(labels) == Some(s)
    ensures labels <= labels' && Exec(labels') == Some(s')
    ensures s'.daemon == RemoveAccount(s.daemon, id, purges)
    ensures s'.tasks == s.tasks && s'.removals == s.removals
  {
    labels', s' := labels, s;
    if id in s.daemon.rows {
      RunFits(labels, s, id);
      assert id !in s.removals;
      labels', s' := Then(labels', s', Delete(id));
      labels', s' := Then(labels', s', Purge(id, purges));
      labels', s' := Then(labels', s', Unregister(id));
    }
  }

  // ----- a removal that overtakes the completion -----

  /** A completion has stored its token and registers its provider next. */
  lemma AboutToRegister(c: ChallengeId, id: AccountId, token: string) returns (labels: seq<Label>, s: State)
    ensures Exec(labels) == Some(s) && id in s.daemon.rows && AccountRemoved(id) !in s.daemon.log
    ensures s.tasks == map[id := Registering(Provider("a", token))] && s.removals == map[]
  {
    labels, s := [], IDLE;
    labels, s := Then(labels, s, Begin("gmail", true, c));
    labels, s := Then(labels, s, Take(c, ""));
    labels, s := Then(labels, s, Create(c, Consented("a", Some(token)), id, true));
    labels, s := SeedingAlone(labels, s, id, |ALL_CATEGORIES|);
    labels, s := Then(labels, s, Save(id, true));
  }

  /** The account is removed while its completion is about to register the provider. When all is over the
      account is gone and has been announced as gone, and its provider is registered. */
  lemma LateRegistration(c: ChallengeId, id: AccountId, token: string) returns (labels: seq<Label>, s: State)
    ensures Exec(labels) == Some(s) && s.tasks == map[] && s.removals == map[]
    ensures id !in s.daemon.rows && AccountRemoved(id) in s.daemon.log
    ensures id in s.daemon.registry && s.daemon.registry[id] == Provider("a", token)
  {
    labels, s := AboutToRegister(c, id, token);
    labels, s := Then(labels, s, Delete(id));
    labels, s := Then(labels, s, Purge(id, true));
    labels, s := Then(labels, s, Unregister(id));
    assert s.daemon.log[|s.daemon.log| - 1] == AccountRemoved(id);
    labels, s := Then(labels, s, Register(id));
    labels, s := Then(labels, s, ReadBack(id, true));
  }
}
