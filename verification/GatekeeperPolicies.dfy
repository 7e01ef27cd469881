/** How long a policy setting lasts. */
module GatekeeperPolicies {
  import opened Prelude
  import opened Policies
  import opened Tools
  import opened Approvals
  import opened Gatekeeper
  import opened GatekeeperProofs
  import opened GatekeeperLogs
  import opened GatekeeperTheorems

  /** Position `i` is the last before `n` at which the pair's policy was set, and it was set to `p`. */
  ghost predicate LastSet(log: seq<Event>, i: int, n: int, a: AccountId, k: Category, p: Policy) {
    && 0 <= i < n <= |log| && log[i] == PolicySet(a, k, p)
    && forall j | i < j < n && log[j].PolicySet? :: log[j].account != a || log[j].category != k
  }

  /** The account's policies were deleted between the two positions. */
  ghost predicate ClearedBetween(log: seq<Event>, i: int, n: int, a: AccountId) {
    exists j :: 0 <= i < j < n <= |log| && log[j] == PoliciesCleared(a)
  }

  lemma InForceAfterSet(log: seq<Event>, i: nat, n: nat, a: AccountId, k: Category, q: Policy, p: Policy)
    requires LastSet(log, i, n, a, k, q) && InForceAt(log, n, a, k, p)
    ensures p == if ClearedBetween(log, i, n, a) then DefaultPolicy(k) else q
  {
    assert Touches(log[i], a, k);
    var m :| 0 <= m < n && Touches(log[m], a, k) && p == Says(log[m], k)
             && forall j | m < j < n :: !Touches(log[j], a, k);
    if ClearedBetween(log, i, n, a) {
      var j :| 0 <= i < j < n <= |log| && log[j] == PoliciesCleared(a);
      assert Touches(log[j], a, k);
    }
  }

  /** A call that reads its policy reads what was last set for the pair, unless the account's policies
      were deleted since: then, and only then, the default. */
  lemma ASettingLastsUntilRemoval(labels: seq<Label>, r: Run, i: nat, n: nat, c: CallId,
                                  a: AccountId, k: Category, q: Policy, p: Policy)
    requires Exec(labels) == Some(r) && n < |r.log| && r.log[n] == Of(c, PolicyRead(a, k, p))
    requires LastSet(r.log, i, n, a, k, q)
    ensures p == if ClearedBetween(r.log, i, n, a) then DefaultPolicy(k) else q
    ensures q == Block ==> (p == Block <==> !ClearedBetween(r.log, i, n, a))
  {
    LogIsOk(labels, r);
    assert CallEventOk(DigestOf(r.log[..n]), c, r.log[n].what) by { assert EventOk(DigestOf(r.log[..n]), r.log[n]); }
    PolicyRow(r.log, n, a, k);
    InForceAfterSet(r.log, i, n, a, k, q, p);
  }

  /** The policy a call may run on, and where it read it: it is not Block. */
  lemma CalledOnAPolicy(log: seq<Event>, n: nat, i: nat, tool: ToolName) returns (m: nat, p: Policy)
    requires n < |log| && log[n].Of? && log[n].what.Called? && Justified(log, n, i, tool)
    ensures m < n && p != Block
    ensures log[m] == Of(log[n].call, PolicyRead(log[n].what.account, ToolCategory(tool), p))
  {
    var c, a, k := log[n].call, log[n].what.account, ToolCategory(tool);
    p :| p != Block && HasRead(log, n, c, a, k, p);
    assert HasRead(log, n, c, a, k, p);
    var j :| 0 <= j < n && log[j] == Of(c, PolicyRead(a, k, p)) && InForceAt(log, j, a, k, p);
    m := j;
  }

  /** So a provider call for a pair that was blocked when last set before the call read its policy
      always follows a deletion of the account's policies in between. */
  lemma BlockedCallsFollowARemoval(labels: seq<Label>, r: Run, n: nat)
    requires Exec(labels) == Some(r) && n < |r.log| && r.log[n].Of? && r.log[n].what.Called?
    ensures exists i, tool, m, p ::
      && Justified(r.log, n, i, tool)
      && 0 <= m < n && r.log[m] == Of(r.log[n].call, PolicyRead(r.log[n].what.account, ToolCategory(tool), p))
      && forall s | LastSet(r.log, s, m, r.log[n].what.account, ToolCategory(tool), Block) ::
           ClearedBetween(r.log, s, m, r.log[n].what.account)
  {
    EveryProviderCallIsJustified(labels, r, n);
    var i, tool :| Justified(r.log, n, i, tool);
    var m, p := CalledOnAPolicy(r.log, n, i, tool);
    var a := r.log[n].what.account;
    forall s | LastSet(r.log, s, m, a, ToolCategory(tool), Block)
      ensures ClearedBetween(r.log, s, m, a)
    {
      ASettingLastsUntilRemoval(labels, r, s, m, r.log[n].call, a, ToolCategory(tool), Block, p);
    }
  }
}
