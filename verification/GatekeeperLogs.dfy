/** Tracing what a run has recorded back to the events that recorded it. */
module GatekeeperLogs {
  import opened Prelude
  import opened Policies
  import opened Tools
  import opened Approvals
  import opened Gatekeeper
  import opened GatekeeperProofs
  import opened GatekeeperSteps

  // ----- runs -----

  lemma {:induction false} RunKeepsInv(labels: seq<Label>, r: Run)
    requires Exec(labels) == Some(r)
    ensures Inv(r.state, DigestOf(r.log)) && LogOk(r.log)
  {
    if labels != [] {
      var l := labels[|labels| - 1];
      var r0 := Exec(labels[..|labels| - 1]).value;
      RunKeepsInv(labels[..|labels| - 1], r0);
      StepKeepsInv(r0.state, DigestOf(r0.log), l);
      StepEventOk(r0.state, DigestOf(r0.log), l);
      match Step(r0.state, l).event {
        case None =>
        case Some(e) =>
          DigestOfAppend(r0.log, e);
          forall k | 0 <= k < |r.log|
            ensures EventOk(DigestOf(r.log[..k]), r.log[k])
          {
            assert r.log[..k] == r0.log[..k];
            assert r0.log[..|r0.log|] == r0.log;
          }
      }
    }
  }

  lemma LogIsOk(labels: seq<Label>, r: Run)
    requires Exec(labels) == Some(r)
    ensures LogOk(r.log)
  {
    RunKeepsInv(labels, r);
  }

  function CallAt(log: seq<Event>, n: nat, c: CallId): CallHistory
    requires n <= |log|
  {
    HistoryOf(DigestOf(log[..n]).calls, c)
  }

  function FateAt(log: seq<Event>, n: nat, id: ApprovalId): Fate
    requires n <= |log|
  {
    FateOf(DigestOf(log[..n]).fates, id)
  }

  /** One event more: the digest, and what it does to one call's history. */
  lemma DigestAt(log: seq<Event>, n: nat, c: CallId)
    requires n < |log|
    ensures DigestOf(log[..n + 1]) == Digested(DigestOf(log[..n]), log[n])
    ensures CallAt(log, n + 1, c) ==
            if log[n].Of? && log[n].call == c then Updated(CallAt(log, n, c), log[n].what) else CallAt(log, n, c)
  {
    assert log[..n + 1] == log[..n] + [log[n]];
    DigestOfAppend(log[..n], log[n]);
    DigestedCall(DigestOf(log[..n]), log[n], c);
  }

  lemma DigestedCall(d: Digest, e: Event, c: CallId)
    ensures HistoryOf(Digested(d, e).calls, c) ==
            if e.Of? && e.call == c then Updated(HistoryOf(d.calls, c), e.what) else HistoryOf(d.calls, c)
  {
  }

  /** What an acceptable event leaves alone once it is written. */
  lemma DigestedKeeps(d: Digest, e: Event, c: CallId, id: ApprovalId)
    requires EventOk(d, e)
    ensures var h, h' := HistoryOf(d.calls, c), HistoryOf(Digested(d, e).calls, c);
            && (h.entry.Some? ==> h'.entry == h.entry)
            && (h.ticket.Some? ==> h'.ticket == h.ticket)
            && (h.outcome.Some? ==> h'.outcome == h.outcome)
    ensures var f, f' := FateOf(d.fates, id), FateOf(Digested(d, e).fates, id);
            && (f.owner.Some? ==> f'.owner == f.owner)
            && (f.decision.Some? ==> f' == f)
  {
    DigestedKeepsCall(d, e, c);
    DigestedKeepsFate(d, e, id);
  }

  lemma DigestedKeepsCall(d: Digest, e: Event, c: CallId)
    requires EventOk(d, e)
    ensures var h, h' := HistoryOf(d.calls, c), HistoryOf(Digested(d, e).calls, c);
            && (h.entry.Some? ==> h'.entry == h.entry)
            && (h.ticket.Some? ==> h'.ticket == h.ticket)
            && (h.outcome.Some? ==> h'.outcome == h.outcome)
  {
    DigestedCall(d, e, c);
  }

  lemma DigestedKeepsFate(d: Digest, e: Event, id: ApprovalId)
    requires EventOk(d, e)
    ensures var f, f' := FateOf(d.fates, id), FateOf(Digested(d, e).fates, id);
            && (f.owner.Some? ==> f'.owner == f.owner)
            && (f.decision.Some? ==> f' == f)
  {
  }

  lemma {:induction false} Kept(log: seq<Event>, m: nat, n: nat, c: CallId, id: ApprovalId)
    requires m <= n <= |log| && LogOk(log)
    ensures var h, h' := CallAt(log, m, c), CallAt(log, n, c);
            && (h.entry.Some? ==> h'.entry == h.entry)
            && (h.ticket.Some? ==> h'.ticket == h.ticket)
            && (h.outcome.Some? ==> h'.outcome == h.outcome)
    ensures var f, f' := FateAt(log, m, id), FateAt(log, n, id);
            && (f.owner.Some? ==> f'.owner == f.owner)
            && (f.decision.Some? ==> f' == f)
  {
    if m < n {
      Kept(log, m, n - 1, c, id);
      KeptNext(log, n - 1, c, id);
    }
  }

  lemma KeptNext(log: seq<Event>, n: nat, c: CallId, id: ApprovalId)
    requires n < |log| && LogOk(log)
    ensures var h, h' := CallAt(log, n, c), CallAt(log, n + 1, c);
            && (h.entry.Some? ==> h'.entry == h.entry)
            && (h.ticket.Some? ==> h'.ticket == h.ticket)
            && (h.outcome.Some? ==> h'.outcome == h.outcome)
    ensures var f, f' := FateAt(log, n, id), FateAt(log, n + 1, id);
            && (f.owner.Some? ==> f'.owner == f.owner)
            && (f.decision.Some? ==> f' == f)
  {
    DigestAt(log, n, c);
    assert EventOk(DigestOf(log[..n]), log[n]);
    DigestedKeeps(DigestOf(log[..n]), log[n], c, id);
  }

  /** A part of a call's history that is no longer blank was last written by some event. */
  lemma {:induction false} WrittenBy<V>(part: CallHistory -> V, log: seq<Event>, n: nat, c: CallId) returns (j: nat)
    requires n <= |log| && part(CallAt(log, n, c)) != part(NO_CALL)
    ensures j < n && log[j].Of? && log[j].call == c
    ensures CallAt(log, j + 1, c) == Updated(CallAt(log, j, c), log[j].what)
    ensures part(CallAt(log, j, c)) != part(CallAt(log, j + 1, c)) == part(CallAt(log, n, c))
  {
    DigestAt(log, n - 1, c);
    if part(CallAt(log, n - 1, c)) == part(CallAt(log, n, c)) {
      j := WrittenBy(part, log, n - 1, c);
    } else {
      j := n - 1;
    }
  }

  lemma {:induction false} FateWrittenBy<V>(part: Fate -> V, log: seq<Event>, n: nat, id: ApprovalId) returns (j: nat)
    requires n <= |log| && part(FateAt(log, n, id)) != part(NO_FATE)
    ensures j < n && DigestOf(log[..j + 1]) == Digested(DigestOf(log[..j]), log[j])
    ensures part(FateAt(log, j, id)) != part(FateAt(log, j + 1, id)) == part(FateAt(log, n, id))
  {
    DigestAt(log, n - 1, 0);
    if part(FateAt(log, n - 1, id)) == part(FateAt(log, n, id)) {
      j := FateWrittenBy(part, log, n - 1, id);
    } else {
      j := n - 1;
    }
  }

  // ----- settings, in terms of the log -----

  /** Every pause before position `n` was lifted before position `n`. */
  ghost predicate UnpausedAt(log: seq<Event>, n: nat)
    requires n <= |log|
  {
    forall i | 0 <= i < n && log[i] == PauseSet(true) :: exists j :: i < j < n && log[j] == PauseSet(false)
  }

  /** The event decides what the pair's policy is from then on, and what it is. */
  predicate Touches(e: Event, a: AccountId, k: Category) {
    (e.PolicySet? && e.account == a && e.category == k) || e == PoliciesCleared(a)
  }

  function Says(e: Event, k: Category): Policy {
    if e.PolicySet? then e.policy else DefaultPolicy(k)
  }

  /** `p` is what the last event before `n` that touches the pair says, or the default if none does. */
  ghost predicate InForceAt(log: seq<Event>, n: nat, a: AccountId, k: Category, p: Policy)
    requires n <= |log|
  {
    || (exists i :: 0 <= i < n && Touches(log[i], a, k) && p == Says(log[i], k)
                    && forall j | i < j < n :: !Touches(log[j], a, k))
    || (p == DefaultPolicy(k) && forall j | 0 <= j < n :: !Touches(log[j], a, k))
  }

  lemma {:induction false} PauseFlag(log: seq<Event>, n: nat)
    requires n <= |log| && !DigestOf(log[..n]).paused
    ensures UnpausedAt(log, n)
  {
    if n > 0 {
      DigestAt(log, n - 1, 0);
      if log[n - 1] == PauseSet(false) {
        assert forall i | 0 <= i < n && log[i] == PauseSet(true) :: i < n - 1 < n && log[n - 1] == PauseSet(false);
      } else {
        PauseFlag(log, n - 1);
        forall i | 0 <= i < n && log[i] == PauseSet(true)
          ensures exists j :: i < j < n && log[j] == PauseSet(false)
        {
          assert i < n - 1;
        }
      }
    }
  }

  lemma UntouchedRow(d: Digest, e: Event, a: AccountId, k: Category)
    requires !Touches(e, a, k)
    ensures Effective(Digested(d, e).policies, a, k) == Effective(d.policies, a, k)
  {
  }

  lemma {:induction false} PolicyRow(log: seq<Event>, n: nat, a: AccountId, k: Category)
    requires n <= |log|
    ensures InForceAt(log, n, a, k, Effective(DigestOf(log[..n]).policies, a, k))
  {
    if n > 0 {
      DigestAt(log, n - 1, 0);
      var p := Effective(DigestOf(log[..n]).policies, a, k);
      if Touches(log[n - 1], a, k) {
        assert p == Says(log[n - 1], k);
      } else {
        PolicyRow(log, n - 1, a, k);
        UntouchedRow(DigestOf(log[..n - 1]), log[n - 1], a, k);
        if i :| 0 <= i < n - 1 && Touches(log[i], a, k) && p == Says(log[i], k)
                && forall j | i < j < n - 1 :: !Touches(log[j], a, k) {
          assert forall j | i < j < n :: !Touches(log[j], a, k);
        }
      }
    }
  }

  // ----- the provider registry, in terms of the log -----

  /** The last change of the account's registration before position `n` put a provider there. */
  ghost predicate RegisteredAt(log: seq<Event>, n: nat, a: AccountId)
    requires n <= |log|
  {
    exists i :: 0 <= i < n && log[i] == RegistrySet(a, true) && forall j | i < j < n :: log[j] != RegistrySet(a, false)
  }

  lemma RegisteredNext(log: seq<Event>, n: nat, a: AccountId)
    requires n < |log|
    ensures RegisteredAt(log, n + 1, a) <==>
              log[n] == RegistrySet(a, true) || (log[n] != RegistrySet(a, false) && RegisteredAt(log, n, a))
  {
    if log[n] == RegistrySet(a, true) {
      assert RegisteredAt(log, n + 1, a);
    } else if i :| 0 <= i < n && log[i] == RegistrySet(a, true) &&
                   forall j | i < j < n :: log[j] != RegistrySet(a, false) {
      assert log[n] != RegistrySet(a, false) ==> forall j | i < j < n + 1 :: log[j] != RegistrySet(a, false);
    }
  }

  lemma {:induction false} RegistryRow(log: seq<Event>, n: nat, a: AccountId)
    requires n <= |log|
    ensures a in DigestOf(log[..n]).registry <==> RegisteredAt(log, n, a)
  {
    if n > 0 {
      RegistryRow(log, n - 1, a);
      RegistryNext(log, n - 1, a);
      RegisteredNext(log, n - 1, a);
    }
  }

  lemma RegistryNext(log: seq<Event>, n: nat, a: AccountId)
    requires n < |log|
    ensures a in DigestOf(log[..n + 1]).registry <==>
              log[n] == RegistrySet(a, true) || (log[n] != RegistrySet(a, false) && a in DigestOf(log[..n]).registry)
  {
    DigestAt(log, n, 0);
  }

  /** A call past its policy has found its provider registered. */
  lemma LookUpOrigin(log: seq<Event>, n: nat, c: CallId) returns (j: nat)
    requires n <= |log| && LogOk(log) && CallAt(log, n, c).policy.Some? && CallAt(log, n, c).entry.Some?
    ensures j < n && log[j] == Of(c, LookedUp(true)) && RegisteredAt(log, j, CallAt(log, n, c).entry.value.account)
    ensures CallAt(log, j, c).entry == CallAt(log, n, c).entry
  {
    var p := WrittenBy((h: CallHistory) => h.policy, log, n, c);
    assert CallEventOk(DigestOf(log[..p]), c, log[p].what) by { assert EventOk(DigestOf(log[..p]), log[p]); }
    j := WrittenBy((h: CallHistory) => h.found, log, p, c);
    assert CallEventOk(DigestOf(log[..j]), c, log[j].what) by { assert EventOk(DigestOf(log[..j]), log[j]); }
    Kept(log, j, n, c, 0);
    RegistryRow(log, j, CallAt(log, n, c).entry.value.account);
  }

  // ----- every provider call is entitled -----

  /** Before `n`: call `c` asked with exactly `req`, that approval was approved, and `c` was told. */
  ghost predicate UserApproved(log: seq<Event>, n: nat, c: CallId, req: Request)
    requires n <= |log|
  {
    exists id, i, j, m ::
      && 0 <= i < j < m < n
      && log[i] == Of(c, Enqueued(id, req))
      && log[j] == Decided(id, Approve)
      && log[m] == Of(c, Received(id, Approved))
  }

  /** Before `n`, call `c` read `p`, the policy then in force for the pair. */
  ghost predicate HasRead(log: seq<Event>, n: nat, c: CallId, a: AccountId, k: Category, p: Policy)
    requires n <= |log|
  {
    exists i :: 0 <= i < n && log[i] == Of(c, PolicyRead(a, k, p)) && InForceAt(log, i, a, k, p)
  }

  /** Before `n`, some call that ran under Session was approved by the user and granted trust. */
  ghost predicate TrustEarned(log: seq<Event>, n: nat, a: AccountId, k: Category)
    requires n <= |log|
  {
    exists g, c, tool, args ::
      && 0 <= g < n && log[g] == Of(c, Granted(a, k))
      && HasRead(log, g, c, a, k, Session)
      && UserApproved(log, g, c, Request(a, k, tool, args))
  }

  /** The policy makes the daemon ask the user, unless the pair is trusted. */
  predicate Asked(p: Policy, k: Category) {
    p != Allow && p != Block && (p == Draftify ==> k != Category.Send)
  }

  /** Call `c` may run its tool at `n`. */
  ghost predicate Entitled(log: seq<Event>, n: nat, c: CallId, tool: ToolName, args: Args, a: AccountId)
    requires n <= |log|
  {
    var k := ToolCategory(tool);
    || HasRead(log, n, c, a, k, Allow)
    || (UserApproved(log, n, c, Request(a, k, tool, args)) && exists p :: Asked(p, k) && HasRead(log, n, c, a, k, p))
    || (HasRead(log, n, c, a, k, Session)
        && exists i :: 0 <= i < n && log[i] == Of(c, TrustRead(a, k, true)) && TrustEarned(log, i, a, k))
  }

  lemma EntryOrigin(log: seq<Event>, n: nat, c: CallId) returns (j: nat)
    requires n <= |log| && LogOk(log) && CallAt(log, n, c).entry.Some?
    ensures var e := CallAt(log, n, c).entry.value;
            j < n && log[j] == Of(c, Entered(e.tool, e.args, e.account)) && UnpausedAt(log, j)
  {
    j := WrittenBy((h: CallHistory) => h.entry, log, n, c);
    assert EventOk(DigestOf(log[..j]), log[j]);
    PauseFlag(log, j);
  }

  lemma PolicyOrigin(log: seq<Event>, n: nat, c: CallId)
    requires n <= |log| && LogOk(log) && CallAt(log, n, c).policy.Some? && CallAt(log, n, c).entry.Some?
    ensures var h := CallAt(log, n, c);
            HasRead(log, n, c, h.entry.value.account, ToolCategory(h.entry.value.tool), h.policy.value)
  {
    var h := CallAt(log, n, c);
    var j := WrittenBy((h: CallHistory) => h.policy, log, n, c);
    assert EventOk(DigestOf(log[..j]), log[j]);
    Kept(log, j, n, c, 0);
    PolicyRow(log, j, h.entry.value.account, ToolCategory(h.entry.value.tool));
  }

  /** The event that wrote the outcome Approved was a receipt of this call's own ticket. */
  lemma ReceiptOrigin(log: seq<Event>, n: nat, c: CallId) returns (m: nat)
    requires n <= |log| && LogOk(log) && CallAt(log, n, c).outcome == Some(Approved)
    ensures m < n && CallAt(log, n, c).ticket.Some?
    ensures var id := CallAt(log, n, c).ticket.value;
            log[m] == Of(c, Received(id, Approved)) && FateAt(log, m, id).decision == Some(Approve)
  {
    m := WrittenBy((h: CallHistory) => h.outcome, log, n, c);
    assert CallEventOk(DigestOf(log[..m]), c, log[m].what) by { assert EventOk(DigestOf(log[..m]), log[m]); }
    Kept(log, m, n, c, 0);
  }

  lemma DecisionOrigin(log: seq<Event>, n: nat, id: ApprovalId) returns (j: nat)
    requires n <= |log| && LogOk(log) && FateAt(log, n, id).decision.Some?
    ensures j < n && log[j] == Decided(id, FateAt(log, n, id).decision.value) && FateAt(log, j, id).owner.Some?
  {
    j := FateWrittenBy((f: Fate) => f.decision, log, n, id);
    assert EventOk(DigestOf(log[..j]), log[j]);
  }

  lemma OwnerOrigin(log: seq<Event>, n: nat, id: ApprovalId) returns (i: nat)
    requires n <= |log| && FateAt(log, n, id).owner.Some?
    ensures i < n && FateAt(log, i + 1, id).owner.Some?
    ensures var (c, req) := FateAt(log, n, id).owner.value; log[i] == Of(c, Enqueued(id, req))
  {
    i := FateWrittenBy((f: Fate) => f.owner, log, n, id);
    OwnerWritten(DigestOf(log[..i]), log[i], id);
  }

  lemma OwnerWritten(d: Digest, e: Event, id: ApprovalId)
    requires FateOf(Digested(d, e).fates, id).owner != FateOf(d.fates, id).owner
    ensures e.Of? && e.what.Enqueued? && e.what.id == id
    ensures FateOf(Digested(d, e).fates, id).owner == Some((e.call, e.what.req))
  {
  }

  lemma ApprovalOrigin(log: seq<Event>, n: nat, c: CallId, req: Request)
    requires n <= |log| && LogOk(log) && ApprovedFor(DigestOf(log[..n]), c, req)
    ensures UserApproved(log, n, c, req)
  {
    var id := CallAt(log, n, c).ticket.value;
    var m := ReceiptOrigin(log, n, c);
    var j := DecisionOrigin(log, m, id);
    var i := OwnerOrigin(log, j, id);
    Kept(log, j, n, c, id);
  }
}
