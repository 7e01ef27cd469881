/** Runs that show what the gatekeeper does not promise. */
module GatekeeperRuns {
  import opened Prelude
  import opened Policies
  import opened Tools
  import opened Approvals
  import opened Gatekeeper

  const ACCOUNT: AccountId := 7
  const CALL: CallId := 1
  const TICKET: ApprovalId := 3
  const DECIDER: DeciderId := 2
  const ARGS := Args(Some(ACCOUNT), false, false, 0)

  /** One more enabled label extends a run. */
  lemma Then(labels: seq<Label>, r: Run, l: Label) returns (labels': seq<Label>, r': Run)
    requires Exec(labels) == Some(r) && Enabled(r.state, l)
    ensures labels' == labels + [l] && Exec(labels') == Some(r')
    ensures r'.state == Step(r.state, l).state && r'.log == Extended(r.log, Step(r.state, l).event)
    ensures r.log <= r'.log
  {
    assert (labels + [l])[..|labels|] == labels;
    labels', r' := labels + [l], Exec(labels + [l]).value;
  }

  /** Some dispatch was told something, or its timer fired. */
  predicate Heard(log: seq<Event>) {
    exists e | e in log :: e.Of? && (e.what.Received? || e.what.TimerFired?)
  }

  /** Some call of `tool` on a registered account is past the registry and reads its policy next. */
  lemma AtPolicyRun(tool: ToolName) returns (labels: seq<Label>, r: Run)
    requires tool != ListAccountsTool
    ensures Exec(labels) == Some(r)
    ensures r.state == START.(registry := {ACCOUNT}, calls := map[CALL := Call(tool, ARGS, ACCOUNT, AtPolicy)])
    ensures !Heard(r.log)
  {
    labels, r := [], Run(START, []);
    labels, r := Then(labels, r, Setting(SetRegistered(ACCOUNT, true)));
    labels, r := Then(labels, r, Dispatch(CALL, Enter(tool, ARGS)));
    labels, r := Then(labels, r, Dispatch(CALL, LookUp));
  }

  /** A trash call has read that it must ask. */
  lemma AskingRun() returns (labels: seq<Label>, r: Run)
    ensures Exec(labels) == Some(r) && !Heard(r.log)
    ensures r.state == START.(registry := {ACCOUNT},
                              calls := map[CALL := Call(TrashTool, ARGS, ACCOUNT, AtInsert(false))])
  {
    labels, r := AtPolicyRun(TrashTool);
    labels, r := Then(labels, r, Dispatch(CALL, ReadPolicy));
  }

  /** A trash call whose approval is on the queue but not yet announced. */
  lemma QueuedRun() returns (labels: seq<Label>, r: Run)
    ensures Exec(labels) == Some(r) && !Heard(r.log)
    ensures var req := Request(ACCOUNT, Trash, TrashTool, ARGS);
            r.state == START.(registry := {ACCOUNT},
                              queue := Queue(map[TICKET := req], []),
                              tickets := map[TICKET := Ticket(CALL, req, None, true)],
                              calls := map[CALL := Call(TrashTool, ARGS, ACCOUNT, AtPublish(TICKET, false))])
  {
    labels, r := AskingRun();
    labels, r := Then(labels, r, Approval(CALL, Insert(TICKET)));
  }

  /** And now it is announced. */
  lemma AnnouncedRun() returns (labels: seq<Label>, r: Run)
    ensures Exec(labels) == Some(r) && !Heard(r.log)
    ensures var req := Request(ACCOUNT, Trash, TrashTool, ARGS);
            r.state == START.(registry := {ACCOUNT},
                              queue := Queue(map[TICKET := req], [Requested(TICKET, req)]),
                              tickets := map[TICKET := Ticket(CALL, req, None, true)],
                              calls := map[CALL := Call(TrashTool, ARGS, ACCOUNT, AtWait(TICKET, false))])
  {
    labels, r := QueuedRun();
    labels, r := Then(labels, r, Approval(CALL, PublishRequest));
  }

  /** The timer of a trash call has fired. */
  lemma TimedOutRun() returns (labels: seq<Label>, r: Run)
    ensures Exec(labels) == Some(r)
    ensures var req := Request(ACCOUNT, Trash, TrashTool, ARGS);
            r.state == START.(registry := {ACCOUNT},
                              queue := Queue(map[TICKET := req], [Requested(TICKET, req)]),
                              tickets := map[TICKET := Ticket(CALL, req, None, false)],
                              calls := map[CALL := Call(TrashTool, ARGS, ACCOUNT, AtCleanup(TICKET))])
  {
    labels, r := AnnouncedRun();
    labels, r := Then(labels, r, Approval(CALL, FireTimer));
  }

  /** And then its approval has been decided. */
  lemma DecidedLateRun() returns (labels: seq<Label>, r: Run, d: nat)
    ensures Exec(labels) == Some(r) && d < |r.log| && r.log[d] == Decided(TICKET, Approve)
    ensures var req := Request(ACCOUNT, Trash, TrashTool, ARGS);
            r.state == START.(registry := {ACCOUNT},
                              queue := Queue(map[], [Requested(TICKET, req)]),
                              tickets := map[TICKET := Ticket(CALL, req, None, false)],
                              calls := map[CALL := Call(TrashTool, ARGS, ACCOUNT, AtCleanup(TICKET))],
                              deciders := map[DECIDER := Holding(TICKET, Approve)])
  {
    labels, r := TimedOutRun();
    labels, r := Then(labels, r, Decide(DECIDER, Take(TICKET, Approve)));
    d := |r.log| - 1;
  }

  /** The timer fires, then Approve wins the entry: the decider is told it succeeded and Resolved is
      published, while the waiter reports a timeout and its dispatch is over. */
  lemma ApproveAfterTimer()
    ensures exists labels, r ::
      && Exec(labels) == Some(r)
      && Decided(TICKET, Approve) in r.log
      && Resolved(TICKET, Approve) in r.state.queue.events
      && r.log != [] && r.log[|r.log| - 1] == Of(CALL, CleanedUp(TICKET, false))
      && CALL in r.state.calls && r.state.calls[CALL].pc == Done
  {
    var labels, r, d := DecidedLateRun();
    labels, r := Then(labels, r, Decide(DECIDER, Deliver));
    labels, r := Then(labels, r, Decide(DECIDER, PublishDecision));
    labels, r := Then(labels, r, Approval(CALL, CleanUp));
    assert r.log[d] == Decided(TICKET, Approve);
  }

  /** A trash call is announced, and then its client hangs up: the entry stays pending. */
  lemma HungUpRun() returns (labels: seq<Label>, r: Run, a: nat)
    ensures Exec(labels) == Some(r) && a < |r.log| && r.log[a] == Of(CALL, Abandoned)
    ensures !Heard(r.log)
    ensures var req := Request(ACCOUNT, Trash, TrashTool, ARGS);
            r.state == START.(registry := {ACCOUNT},
                              queue := Queue(map[TICKET := req], [Requested(TICKET, req)]),
                              tickets := map[TICKET := Ticket(CALL, req, None, false)],
                              calls := map[CALL := Call(TrashTool, ARGS, ACCOUNT, Done)])
  {
    labels, r := AnnouncedRun();
    labels, r := Then(labels, r, Approval(CALL, Abandon));
    a := |r.log| - 1;
  }

  /** A dispatch is dropped while it waits, and then Approve wins its entry: the decider is told it
      succeeded and Resolved is published. No timer ever fired, the dispatch is over, and nobody was told. */
  lemma ApproveAfterHangUp()
    ensures exists labels, r ::
      && Exec(labels) == Some(r)
      && Decided(TICKET, Approve) in r.log
      && Resolved(TICKET, Approve) in r.state.queue.events
      && Of(CALL, Abandoned) in r.log
      && !Heard(r.log) && CALL in r.state.calls && r.state.calls[CALL].pc == Done
  {
    var labels, r, a := HungUpRun();
    labels, r := Then(labels, r, Decide(DECIDER, Take(TICKET, Approve)));
    var d := |r.log| - 1;
    labels, r := Then(labels, r, Decide(DECIDER, Deliver));
    labels, r := Then(labels, r, Decide(DECIDER, PublishDecision));
    assert r.log[a] == Of(CALL, Abandoned) && r.log[d] == Decided(TICKET, Approve);
  }

  /** Requested is announced after the lock is released, so Resolved can be announced first. */
  lemma ResolvedBeforeRequested()
    ensures exists labels, r ::
      && Exec(labels) == Some(r)
      && r.state.queue.events == [Resolved(TICKET, Reject), Requested(TICKET, Request(ACCOUNT, Trash, TrashTool, ARGS))]
  {
    var labels, r := QueuedRun();
    labels, r := Then(labels, r, Decide(DECIDER, Take(TICKET, Reject)));
    labels, r := Then(labels, r, Decide(DECIDER, Deliver));
    labels, r := Then(labels, r, Decide(DECIDER, PublishDecision));
    labels, r := Then(labels, r, Approval(CALL, PublishRequest));
  }

  /** Pausing stops no dispatch that has already entered. */
  lemma CallWhilePaused()
    ensures exists labels, r ::
      && Exec(labels) == Some(r) && r.state.paused
      && r.log != [] && r.log[|r.log| - 1] == Of(CALL, Called(ACCOUNT, Search, ARGS))
  {
    var labels, r := AtPolicyRun(SearchTool);
    labels, r := Then(labels, r, Dispatch(CALL, ReadPolicy));
    labels, r := Then(labels, r, Setting(Pause(true)));
    labels, r := Then(labels, r, Dispatch(CALL, Execute));
  }

  const BEGUN: seq<Event> := [RegistrySet(ACCOUNT, true), PolicySet(ACCOUNT, Read, Block),
                              Of(CALL, Entered(SearchTool, ARGS, ACCOUNT)), Of(CALL, LookedUp(true))]

  /** A search of an account that blocks searching has found its provider. */
  lemma BlockedSearchRun() returns (labels: seq<Label>, r: Run)
    ensures Exec(labels) == Some(r) && r.log == BEGUN
    ensures r.state == START.(registry := {ACCOUNT}, table := map[(ACCOUNT, Read) := Block],
                              calls := map[CALL := Call(SearchTool, ARGS, ACCOUNT, AtPolicy)])
  {
    labels, r := [], Run(START, []);
    labels, r := Then(labels, r, Setting(SetRegistered(ACCOUNT, true)));
    labels, r := Then(labels, r, Setting(SetPolicy(ACCOUNT, Read, Block)));
    labels, r := Then(labels, r, Dispatch(CALL, Enter(SearchTool, ARGS)));
    labels, r := Then(labels, r, Dispatch(CALL, LookUp));
  }

  /** Then the account's policies are deleted, and the search reads what is left. */
  lemma ClearedSearchRun() returns (labels: seq<Label>, r: Run)
    ensures Exec(labels) == Some(r)
    ensures r.log == BEGUN + [PoliciesCleared(ACCOUNT), Of(CALL, PolicyRead(ACCOUNT, Read, Allow))]
    ensures CALL in r.state.calls && r.state.calls[CALL] == Call(SearchTool, ARGS, ACCOUNT, AtExecute)
  {
    labels, r := BlockedSearchRun();
    labels, r := Then(labels, r, Setting(ClearPolicies(ACCOUNT)));
    labels, r := Then(labels, r, Dispatch(CALL, ReadPolicy));
  }

  /** Removing an account deletes its policies before its provider: a search of an account that blocks
      searching goes out, because the call reads its policy between the two. */
  lemma RemovalForgetsABlock()
    ensures exists labels, r ::
      && Exec(labels) == Some(r)
      && r.log == BEGUN + [PoliciesCleared(ACCOUNT), Of(CALL, PolicyRead(ACCOUNT, Read, Allow)),
                           RegistrySet(ACCOUNT, false), Of(CALL, Called(ACCOUNT, Search, ARGS))]
  {
    var labels, r := ClearedSearchRun();
    labels, r := Then(labels, r, Setting(SetRegistered(ACCOUNT, false)));
    labels, r := Then(labels, r, Dispatch(CALL, Execute));
  }
}
