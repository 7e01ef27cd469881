# Verified model of mail-mcp's stateful core

mail-mcp is a daemon that lets MCP clients work on mail accounts under the user's control. This
project models its stateful parts in Dafny and proves what they promise for every input, every run
and every interleaving.

* **The gatekeeper** (`Policies`, `Tools`, `Approvals`, `Gatekeeper*`, `Enforcement`). Tool calls, approval
  decisions, timers and settings changes run side by side. `Gatekeeper` is a labelled transition
  system whose steps are the stretches of code between two points where another task may run;
  `GatekeeperProofs` and `GatekeeperSteps` hold its inductive invariant; `GatekeeperTheorems`,
  `GatekeeperCalls`, `GatekeeperEndings`, `GatekeeperAnnouncements` and `GatekeeperPolicies` state what holds of
  every run; `GatekeeperRuns` holds the runs that show what is *not* promised. `Enforcement` is the same check as one task
  runs it, in place, and shows the transition system to agree with it.
* **The IPC connection** (`Framing`, `IpcServer*`, `IpcStreams`) and the clients at its other end
  (`AdminClient`, `LinuxClient*`, `LinuxSystem`, `SwiftClient*`, `CSharpChannel`). The server has two
  tasks that share a writer and a filter; bytes arrive in arbitrary pieces; responses follow JSON-RPC 2.0
  (section 5; errors, section 5.1), except that every line is answered, also one without an id, which
  section 4.1 would leave unanswered: the code is modelled.
* **The message cache** (`MessageCache*`): a bounded least-recently-used cache with expiry, compared
  with larger ones and with a map that remembers everything.
* **Accounts and tokens** (`AccountLifecycle`, `AccountRaces`, `TokenRefresh`, `TokenRaces`): consent,
  removal, restart, refresh and rotation, one after the other and side by side.
* **Readers** (`MimeWalk`, `MimeOrder`, `PercentEncoding`, `OAuthLoopback`, `OAuthRoundTrip`, `ThreadGrouping`).

Code that changes state in place is a class or a method with loops. Each method is tied by its
`ensures` to a function on values, and the theorems are about that function over all runs. A run is a
sequence of labels; `Exec` is `None` where a label was not enabled.

## Where the code and its promises differ

Each is shown by a run or an input, with the exact condition beside it.

* A successful `Approve` need not mean `Approved`: the timer may have fired first
  (`GatekeeperRuns.ApproveAfterTimer`), or the waiting dispatch may have been dropped with its client, its
  entry staying on the queue (`GatekeeperRuns.ApproveAfterHangUp`). Exactly when:
  `GatekeeperEndings.ApproveReachesTheWaiterIff`.
* `Resolved` may be announced before `Requested` (`GatekeeperRuns.ResolvedBeforeRequested`; exactly when:
  `GatekeeperAnnouncements.ResolvedFirstIffItOvertakes`). A timeout announces nothing
  (`GatekeeperTheorems.TimeoutsPublishNothing`).
* Removing an account deletes its policies before its provider, so a dispatch in between is judged by the
  defaults, even where the account blocked (`GatekeeperRuns.RemovalForgetsABlock`; exactly when:
  `GatekeeperPolicies.ASettingLastsUntilRemoval`).
* Pausing does not stop a dispatch that has entered (`GatekeeperRuns.CallWhilePaused`; exactly when:
  `GatekeeperTheorems.CalledWhilePausedIff`); every call that goes out did enter unpaused
  (`GatekeeperTheorems.EveryProviderCallIsJustified`).
* The Swift client looks at `isClosed` before its stash, so a response already there can be lost
  (`SwiftClientProofs.AnEarlyResponseCanBeLost`; exactly when:
  `SwiftClientProofs.ResponseReturnedIffAskedInTime`).
* The Windows channel hands an item on while holding its lock, and a lock belongs to a thread: a reader that
  comes back on another thread dies with items queued, and writers on other threads block for good
  (`CSharpChannel.ItemsCanBeStranded`; exactly when: `CSharpChannel.CrashesIffItChangesThread` and
  `CSharpChannel.EverythingComesOutIffItKeepsToItsThread`).
* The comment on the rotation callback (crates/mail-mcp-core/src/providers/gmail/client.rs:197-204) says it
  runs under the tokens lock. It runs after the lock is released, and overlapping refreshes can leave the
  keychain with another token (`TokenRaces.OverlappingRefreshesDisagree`; exactly when:
  `TokenRaces.AgreesIffTheLastKeeperWroteLast`).
* An account can be removed while its completion is still on its way: the provider is then registered for an
  account that is gone, until the daemon starts again (`AccountRaces.LateRegistration`; exactly when:
  `AccountRaces.RegisteredIff`).
* A text attachment ahead of any text body is tried as the body and then listed nowhere
  (`MimeWalk.ALeadingTextFileIsLost`; exactly when: `MimeWalk.LostIff`).
* A connection to the OAuth listener on which nothing comes holds it past its deadline (exactly when:
  `OAuthLoopback.SilenceHoldsTheListener`).
* Conversation grouping takes the newest-first order on trust (`ThreadGrouping.OrderIsTakenOnTrust`; exactly
  when: `ThreadGrouping.SummariesAreTheNewestIffFirstsAre`).

## Model

| member | source | states |
|---|---|---|
| Policies.Permissions.ForAccount | crates/mail-mcp-core/src/permissions/mod.rs:115-133 | from any enumeration of an account's rows the snapshot answers every category with its row, or else its default |
| Policies.PermissionStore.Set | crates/mail-mcp-core/src/permissions/mod.rs:142-159 | an upsert: this pair's row becomes the policy, all others stay |
| Policies.PermissionStore.InstallDefaults | crates/mail-mcp-core/src/permissions/mod.rs:161-170 | succeeds exactly if every upsert does; the rows written before a failure stay |
| Policies.InstalledIsDefault | crates/mail-mcp-core/src/permissions/mod.rs:161-170 | after the upserts each category named has its default for the account, and no other row has moved |
| Policies.AllInstalled | crates/mail-mcp-core/src/permissions/mod.rs:98-106 | an account fully seeded has every category: reading, changing and drafting allowed, trashing confirmed, sending turned into drafting; and so has an account with no rows |
| Approvals.ApprovalQueue.Enqueue | crates/mail-mcp-core/src/permissions/approvals.rs:212-232 | the request is pending with the sender of a fresh channel and is announced |
| Approvals.ApprovalQueue.Decide | crates/mail-mcp-core/src/permissions/approvals.rs:234-249 | NotFound exactly if not pending, with nothing changed; else the entry goes, its own channel gets the outcome if someone listens, and it is announced |
| Approvals.ApprovalQueue.Settle | crates/mail-mcp-core/src/permissions/approvals.rs:265-277 | a value in the channel wins and leaves the queue alone; no value and no sender is the dropped-channel error; otherwise the entry is taken off and nothing is announced; a request still pending under this channel never gives that error |
| Approvals.ApprovalQueue.List | crates/mail-mcp-core/src/permissions/approvals.rs:251-254 | exactly the pending requests, each once |
| GatekeeperSteps.StepKeepsInv | crates/mail-mcp-daemon/src/mcp/dispatch.rs:47-94 | every step of every task keeps the invariant tying the pending map, channels, deciders, program counters, trust and log together |
| GatekeeperSteps.StepEventOk | crates/mail-mcp-core/src/permissions/enforce.rs:175-221 | whatever a step records is licensed by what was recorded before |
| GatekeeperSteps.SenderNeverLost | crates/mail-mcp-core/src/permissions/approvals.rs:234-249 | the sender of an undelivered approval with a live receiver is on the queue or in a decider's hands |
| GatekeeperLogs.RunKeepsInv | crates/mail-mcp-daemon/src/mcp/dispatch.rs:47-94 | the invariant and the licence of every record hold at the end of every run |
| GatekeeperTheorems.EveryProviderCallIsJustified | crates/mail-mcp-daemon/src/mcp/dispatch.rs:47-94 | each provider call comes from a dispatch that entered unpaused with those arguments and then found a provider registered; it is its tool's own method (or a draft for a send_message under Draftify), and rests on an Allow read, its own approved request with those arguments, or session trust earned for the pair |
| GatekeeperTheorems.AtMostOneProviderCall | crates/mail-mcp-daemon/src/mcp/dispatch.rs:75-94 | no dispatch calls the provider twice |
| GatekeeperCalls.EntersIffUnpaused | crates/mail-mcp-daemon/src/mcp/dispatch.rs:52-57 | a dispatch enters if and only if no pause stands and its arguments name an account |
| GatekeeperCalls.FoundIffRegistered | crates/mail-mcp-daemon/src/mcp/dispatch.rs:58-62 | it finds its provider if and only if the last change of the account's registration put one there |
| GatekeeperCalls.CallsGoOutIff | crates/mail-mcp-daemon/src/mcp/dispatch.rs:47-94 | a dispatch that is over and was not dropped has called its tool's own method exactly if it read Allow, or was trusted under Session, or had to ask and was told Approved, and its arguments decode; it has created a draft instead exactly if it is a send_message under Draftify that decodes; else nothing |
| GatekeeperCalls.ACallIsMade | crates/mail-mcp-daemon/src/mcp/dispatch.rs:281-335 | a dispatch at its call makes its tool's own call with its account and arguments if these decode, and none otherwise |
| GatekeeperCalls.NothingIsSent | crates/mail-mcp-core/src/permissions/mod.rs:98-106 | nothing is sent from an account as long as its sending policy is what an account starts with |
| GatekeeperCalls.TrashingIsApproved | crates/mail-mcp-core/src/permissions/mod.rs:98-106 | as long as the trashing policy is what an account starts with, everything trashed or restored was approved by the user as that very request |
| GatekeeperCalls.WhatAnUntouchedAccountDoes | crates/mail-mcp-core/src/permissions/mod.rs:98-106 | on an account as it starts, a send_message that decodes ends in a draft, a send_draft calls nothing, and reading, changing and drafting call their own method |
| GatekeeperCalls.NothingIsQueued | crates/mail-mcp-core/src/permissions/mod.rs:98-106 | on an account as it starts, only trashing ever asks |
| GatekeeperTheorems.WaitersAreNeverLost | crates/mail-mcp-core/src/permissions/approvals.rs:265-277 | a live waiter can always be told or time out; "approval channel dropped" is unreachable |
| GatekeeperTheorems.WaitersSettleAtMostOnce | crates/mail-mcp-core/src/permissions/approvals.rs:265-277 | a waiter settles at most once, and never by a dropped channel |
| GatekeeperTheorems.DecidedAtMostOnce | crates/mail-mcp-core/src/permissions/approvals.rs:234-249 | decide succeeds at most once an id, and not after a timeout removed it |
| GatekeeperTheorems.ApprovedMeansApprove | crates/mail-mcp-core/src/permissions/approvals.rs:234-277 | who is told Approved had queued that very request and it was decided Approve in between |
| GatekeeperTheorems.ToldAsDecided | crates/mail-mcp-core/src/permissions/approvals.rs:234-268 | who receives anything is told Approved or Rejected, as its own approval was decided before |
| GatekeeperTheorems.CalledWhilePausedIff | crates/mail-mcp-daemon/src/mcp/dispatch.rs:52-56 | a provider is called while paused if and only if the user paused after that dispatch entered and had not lifted it when the call went out |
| GatekeeperEndings.ApproveReachesTheWaiterIff | crates/mail-mcp-core/src/permissions/approvals.rs:234-277 | at every point of every run, a dispatch whose approval was decided Approve has been told Approved if and only if its timer has not fired, it was not dropped, and it is not still waiting to be told |
| GatekeeperEndings.EveryDispatchCanEnd | crates/mail-mcp-daemon/src/mcp/dispatch.rs:47-94 | from any point of any run a dispatch reaches its end by its own steps, without being dropped |
| GatekeeperTheorems.TimeoutsPublishNothing | crates/mail-mcp-core/src/permissions/approvals.rs:269-273 | only what was decided is announced as resolved; what a timeout removed never is |
| GatekeeperAnnouncements.AnnouncedOnceQueued | crates/mail-mcp-core/src/permissions/approvals.rs:212-232 | at every point of every run an approval has been announced exactly if it was enqueued and its caller is past announcing it |
| GatekeeperAnnouncements.AnnouncedAtMostOnce | crates/mail-mcp-core/src/permissions/approvals.rs:212-249 | every approval is announced at most once, and so is its decision; at most one decision of it is under way |
| GatekeeperAnnouncements.ResolvedFirstIffItOvertakes | crates/mail-mcp-core/src/permissions/approvals.rs:220-246 | the decision is announced before the approval if and only if some step announced it while the caller stood between queueing and announcing |
| GatekeeperAnnouncements.DecidingTheAnnouncedKeepsOrder | crates/mail-mcp-core/src/permissions/approvals.rs:220-246 | if deciders take only what has been announced, no decision is announced first |
| GatekeeperTheorems.ApprovalsAreConserved | crates/mail-mcp-core/src/permissions/approvals.rs:212-277 | at every point of every run, pending = enqueued - decided - removed by a timeout |
| GatekeeperTheorems.TrustIsEarned | crates/mail-mcp-core/src/permissions/enforce.rs:195-206 | a pair is trusted only if some call on it read Session, asked, and was approved |
| GatekeeperTheorems.TrustIsKept | crates/mail-mcp-core/src/permissions/enforce.rs:145-173 | once granted, trust is still there at the end of every run |
| GatekeeperTheorems.TrustChecksSucceed | crates/mail-mcp-core/src/permissions/enforce.rs:195-199 | every trust check after the grant succeeds |
| GatekeeperTheorems.TrustSparesTheQueue | crates/mail-mcp-core/src/permissions/enforce.rs:195-206 | a call whose trust check succeeded never puts anything on the queue |
| GatekeeperRuns.ApproveAfterTimer | crates/mail-mcp-core/src/permissions/approvals.rs:234-277 | a run in which Approve succeeds and is announced while the waiter timed out |
| GatekeeperRuns.ApproveAfterHangUp | crates/mail-mcp-core/src/permissions/approvals.rs:234-277 | a run in which Approve succeeds and is announced after the waiting dispatch was dropped: no timer fires and nobody is told |
| GatekeeperRuns.ResolvedBeforeRequested | crates/mail-mcp-core/src/permissions/approvals.rs:220-224 | a run in which Resolved is announced before Requested |
| GatekeeperRuns.CallWhilePaused | crates/mail-mcp-daemon/src/mcp/dispatch.rs:52-56 | a run in which a provider is called while paused |
| GatekeeperRuns.RemovalForgetsABlock | crates/mail-mcp-daemon/src/ipc_handler.rs:258-272 | a run in which an account blocks searching from the start, and a search goes out because it reads its policy after the policies were deleted and before the provider was |
| GatekeeperPolicies.ASettingLastsUntilRemoval | crates/mail-mcp-core/src/permissions/mod.rs:115-159 | a call reads what was last set for its pair if and only if the account's policies were not deleted since, unless that is the default; after a Block, Block exactly then |
| GatekeeperPolicies.BlockedCallsFollowARemoval | crates/mail-mcp-daemon/src/mcp/dispatch.rs:47-94 | every provider call for a pair last set to Block before the call read its policy follows a deletion of the account's policies in between |
| Enforcement.Enforce | crates/mail-mcp-core/src/permissions/enforce.rs:175-221 | over the mutable queue and trust record: a draft exactly for sending under Draftify; proceeding exactly on Allow, on trust under Session, or when asked and approved; the queue ends as it began, with the request and its decision announced if it asked; only a session approval adds trust, and only for its pair |
| Enforcement.AloneItIsEnforce | crates/mail-mcp-core/src/permissions/enforce.rs:175-221 | in any state of any run, a dispatch whose steps come with nothing in between but the decision on its own approval ends where `Enforce` says, with the same announcements and the same trust |
| Framing.SplitFlatten | crates/mail-mcp-core/src/ipc/server.rs:372-377 | newline-free frames written with newlines are cut back into those frames |
| Framing.FlattenSplit | tray-app-linux/src/ipc/ipc_client.c:160-167 | the lines cut off and the rest put together are the bytes received |
| Framing.ReassembleIsSplit | tray-app-linux/src/ipc/ipc_client.c:159-167 | a reader that keeps the unfinished line sees the lines of the whole stream, however it was cut into reads |
| IpcServerProofs.ExecKeepsInv | crates/mail-mcp-core/src/ipc/server.rs:261-379 | for every schedule of the two tasks: the wire is whole frames but for one in progress, replies answer requests with what the handler made of them, pushes match admitted notes |
| IpcStreams.WireIsWholeFrames | crates/mail-mcp-core/src/ipc/server.rs:305-377 | the tasks never mix inside a frame: the wire is whole frames in lock order and at most the beginning of one more |
| IpcStreams.AnyCuttingYieldsTheFrames | tray-app-linux/src/ipc/ipc_client.c:159-167 | any prefix of the wire, cut in any way, gives exactly the first frames; all of an idle wire gives them all |
| IpcStreams.EndToEnd | crates/mail-mcp-core/src/ipc/server.rs:279-379 | what a client decodes interleaves two ordered streams read off the schedule: one response a request, in order, under its id, with the handler's value or the code of its failure; and, in order and once each, under the name of their kind, the notes broadcast since arming that the filter in force let through; all of them once nothing is on its way, also for a connection that never subscribed or whose receiver fell behind |
| IpcStreams.ArmedAtMostOnce | crates/mail-mcp-core/src/ipc/server.rs:320-323 | a connection arms at most one receiver |
| IpcStreams.FanoutMissesNothing | crates/mail-mcp-core/src/ipc/server.rs:320-353 | from arming on, every note is examined under the last filter set by then and written exactly if admitted; the receiver lags exactly when it is more than 64 notes behind |
| IpcStreams.SubscribingAgainOnlyChangesTheFilter | crates/mail-mcp-core/src/ipc/server.rs:306-323 | a later subscription replaces the filter and moves neither the starting point nor what was examined |
| IpcStreams.NoLineAfterTheEnd | crates/mail-mcp-core/src/ipc/server.rs:279-284 | the request loop is over exactly once the stream has ended, and no line is read after that |
| IpcStreams.TheServerCatchesUp | crates/mail-mcp-core/src/ipc/server.rs:261-379 | no deadlock: from any point of any run the two tasks get by their own steps to where every line is answered, nothing is half written, and every note since the subscription is examined, unless the receiver fell behind |
| AdminClient.IpcClient.Call | crates/mail-mcp-admin/src/ipc_client.rs:26-68 | the call ends at the first line not yet read that is unreadable or carries the new id, with its error, its result, or the complaint that it has none; if there is no such line, at the end of the stream |
| AdminClient.SkippingFindsTheOwnReply | crates/mail-mcp-admin/src/ipc_client.rs:40-68 | the only message with id n is the daemon's reply to request n, with what the handler made of it, wherever notifications fall |
| AdminClient.EveryAnsweredRequestIsFound | crates/mail-mcp-admin/src/ipc_client.rs:40-68 | a client that stopped at its previous answer still has the reply to an answered request ahead of it |
| AdminClient.EveryCallGetsItsAnswer | crates/mail-mcp-admin/src/ipc_client.rs:26-68 | for every schedule of the daemon and wherever the bytes stop, the n-th call of a session returns the handler's value for the n-th request, or the code of its failure, if that answer arrived whole; the first call without one is told of the line cut short, if there is one; all others that the connection closed |
| LinuxClient.IpcClient.CallAsync | tray-app-linux/src/ipc/ipc_client.c:261-311 | a call fires at once when disconnected or unwritable, else is pending under a new id |
| LinuxClient.IpcClient.OnSubscribeResponse | tray-app-linux/src/ipc/ipc_client.c:331-363 | the subscriber is appended to the list of every event it named |
| LinuxClient.IpcClient.Handle | tray-app-linux/src/ipc/ipc_client.c:182-239 | a frame settles the call pending under its id, or goes to the subscribers of its method, or is dropped |
| LinuxClient.IpcClient.OnSocketReadable | tray-app-linux/src/ipc/ipc_client.c:143-169 | the loop handles exactly the lines the buffer now holds and keeps the rest |
| LinuxClient.IpcClient.FailPending | tray-app-linux/src/ipc/ipc_client.c:131-139 | in whatever order the table is walked, each pending call's callback fires once and no other's |
| LinuxClient.IpcClient.EmitDisconnected | tray-app-linux/src/ipc/ipc_client.c:171-177 | end of file fails all that is pending, unless that was done |
| LinuxClient.IpcClient.DisconnectNow | tray-app-linux/src/ipc/ipc_client.c:110-129 | disconnecting fails all that is pending, unless that was done |
| LinuxClientProofs.CallbacksFireExactlyOnce | tray-app-linux/src/ipc/ipc_client.c:110-311 | no callback fires twice; those not fired are exactly the pending ones; after disconnection each has fired once; pending ids are below next_id and belong to different calls |
| LinuxClientProofs.CallbacksGetTheirOwnAnswer | tray-app-linux/src/ipc/ipc_client.c:182-239 | a sent call is told of the first later line with its id, whose payload it gets, and of the disconnection if and only if there is none |
| LinuxClientProofs.LinesAreTheStream | tray-app-linux/src/ipc/ipc_client.c:143-169 | however the stream was cut, the lines handled are its lines and the buffer holds no newline |
| LinuxClientProofs.SubscribersAreTheAcknowledged | tray-app-linux/src/ipc/ipc_client.c:331-363 | a subscriber is listed for an event, as often as it asked, exactly if it was acknowledged; no one else is ever notified |
| LinuxClientNotices.CallsAreAsAsked | tray-app-linux/src/ipc/ipc_client.c:261-311 | the calls are those made, in order: each goes out under the next number exactly if the connection was there and took it, and is otherwise told it was disconnected or could not be written |
| LinuxClientNotices.NotificationsReachTheirSubscribers | tray-app-linux/src/ipc/ipc_client.c:182-239 | every notification is handed, as often as it asked for it, to each subscriber whose request had been granted by then, and nothing else is handed to anybody |
| LinuxClientNotices.ALineEndsAtItsNul | tray-app-linux/src/ipc/ipc_client.c:162-166 | a line is read up to its first NUL, and an empty one is skipped |
| LinuxSystem.EveryLineWasSent | tray-app-linux/src/ipc/ipc_client.c:243-311 | with both ends running as one system, the lines the daemon has read are those of the client's first calls, in order |
| LinuxSystem.NoAnswerBeforeItsRequest | tray-app-linux/src/ipc/ipc_client.c:143-311 | every line the client has handled came in after the call whose id it carries went out |
| LinuxSystem.WhatACallIsTold | tray-app-linux/src/ipc/ipc_client.c:143-239 | whatever a call is told is what the daemon's handler made of the line that call sent: its value, the code of its failure, or the events subscribed to |
| LinuxSystem.AnswersReachTheirCalls | tray-app-linux/src/ipc/ipc_client.c:143-239 | once the wire is idle and all of it received, every call whose line the daemon answered has been told, once, what the handler made of it |
| SwiftClient.IpcClient.AwaitResponse | tray-app/MailMCP/IPC/IpcClient.swift:196-205 | closed refuses, a stashed response is handed over and removed, otherwise the call is parked |
| SwiftClient.IpcClient.RouteOne | tray-app/MailMCP/IPC/IpcClient.swift:273-287 | a response resumes the call waiting for it or is stashed |
| SwiftClient.IpcClient.FailOnEof | tray-app/MailMCP/IPC/IpcClient.swift:260-271 | closing resumes every waiting call once, in whatever order, and empties the table |
| SwiftClientProofs.DueCarriesTheId | tray-app/MailMCP/IPC/IpcClient.swift:273-287 | what is due to a call carries its id, and something is due as soon as such a frame was routed |
| SwiftClientProofs.ContinuationsResumeOnce | tray-app/MailMCP/IPC/IpcClient.swift:116-287 | no continuation is resumed twice, those not resumed are those in the table, and no id is both waited for and stashed |
| SwiftClientProofs.CallsAreAsBegun | tray-app/MailMCP/IPC/IpcClient.swift:116-139 | the calls are those begun, numbered from one, and each goes out exactly if it could be written before either side closed |
| SwiftClientProofs.ResponsesMeetTheirCalls | tray-app/MailMCP/IPC/IpcClient.swift:116-287 | a call that asked while the connection was open returns the frame due to it, which carries its id; it waits or fails only if no such frame was routed while open |
| SwiftClientProofs.ResponseReturnedIffAskedInTime | tray-app/MailMCP/IPC/IpcClient.swift:101-205 | a sent call whose response was routed while the connection was open returns it if and only if it asked before either side closed |
| SwiftClientProofs.AnEarlyResponseCanBeLost | tray-app/MailMCP/IPC/IpcClient.swift:196-200 | a run in which a response already stashed is lost because the connection closed before the call asked |
| SwiftClientProofs.FramesAreTheStream | tray-app/MailMCP/IPC/IpcClient.swift:242-258 | frames routed, then those in the buffer, are the lines of the stream received |
| CSharpChannel.ChannelOf.TryWrite | tray-app-win/MailMCP/IPC/IpcClient.cs:255-265 | called on a thread that gets the lock, it takes the item exactly if the channel is not complete, and wakes a suspended reader |
| CSharpChannel.ChannelOf.Complete | tray-app-win/MailMCP/IPC/IpcClient.cs:267-275 | called on a thread that gets the lock, it closes the channel and tells a suspended reader there is no more |
| CSharpChannel.ChannelOf.ReadTurn | tray-app-win/MailMCP/IPC/IpcClient.cs:284-297 | the reader takes the oldest item and keeps the lock on its thread, or leaves a complete channel, or suspends |
| CSharpChannel.ChannelOf.MoveNext | tray-app-win/MailMCP/IPC/IpcClient.cs:287-293 | going on after an item leaves the lock on the thread that took it, and throws on any other, the lock staying where it is |
| CSharpChannel.ChannelOf.AfterAwait | tray-app-win/MailMCP/IPC/IpcClient.cs:303-305 | a woken reader leaves its loop if told there is no more, and looks at the queue again otherwise |
| CSharpChannel.NothingOutOfOrder | tray-app-win/MailMCP/IPC/IpcClient.cs:246-307 | for every schedule and every choice of threads: taken is what was offered before completion; yielded is a prefix of it, and all of it if the reader leaves its loop; a waiter in place means an empty open queue |
| CSharpChannel.CrashesIffItChangesThread | tray-app-win/MailMCP/IPC/IpcClient.cs:284-297 | the reader dies if and only if it ever goes on after an item on another thread than took it |
| CSharpChannel.ReaderCatchesUp | tray-app-win/MailMCP/IPC/IpcClient.cs:277-306 | no wake-up is lost: a reader that keeps to its thread brings out by its own steps everything taken, and ends its loop exactly if the channel is complete |
| CSharpChannel.ACrashIsFinal | tray-app-win/MailMCP/IPC/IpcClient.cs:255-297 | a dead reader yields nothing more, and only the thread that took the last item can still write or complete |
| CSharpChannel.EverythingComesOutIffItKeepsToItsThread | tray-app-win/MailMCP/IPC/IpcClient.cs:246-307 | the reader's own steps can bring everything out and end its loop as they should if and only if it has kept to its thread |
| CSharpChannel.ItemsCanBeStranded | tray-app-win/MailMCP/IPC/IpcClient.cs:284-297 | a run in which the reader comes back on another thread, a queued item never comes out, and that thread can write no more |
| MessageCache.Cache.PutValue | crates/mail-mcp-core/src/cache.rs:90-99 | a put replaces and promotes, or evicts the least recently used when full |
| MessageCache.Cache.GetValue | crates/mail-mcp-core/src/cache.rs:101-111 | a live entry is promoted and returned, an expired one dropped |
| MessageCache.Cache.InvalidateAccount | crates/mail-mcp-core/src/cache.rs:113-128 | collecting keys and popping each leaves exactly the other accounts' entries in their order |
| MessageCache.RunKeepsBounds | crates/mail-mcp-core/src/cache.rs:82-129 | over every run, at most the capacity, and one entry a key |
| MessageCacheProofs.LargerHoldsMore | crates/mail-mcp-core/src/cache.rs:90-128 | for every run and capacities k <= k', the smaller cache is the larger with entries left out, in the same recency order, and has no more free room |
| MessageCacheProofs.LargerHitsMore | crates/mail-mcp-core/src/cache.rs:101-111 | a hit in the smaller is the same hit in the larger |
| MessageCacheProofs.EntriesAreTheLatest | crates/mail-mcp-core/src/cache.rs:90-128 | every entry held is the latest put of its key since its account was last invalidated |
| MessageCacheProofs.HitsAreTheLatest | crates/mail-mcp-core/src/cache.rs:101-111 | a hit returns the latest value, aged at most the ttl |
| MessageCacheProofs.RoomyIsTheMap | crates/mail-mcp-core/src/cache.rs:82-129 | with room for every key ever put, the cache is exactly the unbounded map with expiry |
| MessageCacheProofs.InvalidationIsExact | crates/mail-mcp-core/src/cache.rs:113-128 | invalidation removes the account's entries and only those, keeping the order of the rest |
| MessageCacheOrder.EntriesStandInOrderOfUse | crates/mail-mcp-core/src/cache.rs:90-111 | over every run the entries stand in strictly descending order of last use: the last put of the key, or the last get that hit |
| MessageCacheOrder.APutEvictsTheLeastRecentlyUsed | crates/mail-mcp-core/src/cache.rs:90-99 | a put of an absent key into a full cache takes out the entry whose last use is earliest, and nothing else |
| MessageCacheOrder.OtherPutsEvictNothing | crates/mail-mcp-core/src/cache.rs:90-99 | any other put takes out the old entry of its key, if there is one, and nothing else |
| MessageCacheOrder.AGetTakesOutWhatHasExpired | crates/mail-mcp-core/src/cache.rs:101-111 | a get returns the value of the key's entry exactly if it is no older than the ttl; an older one is taken out, and nothing else |
| AccountLifecycle.DaemonHandler.AddOAuthAccount | crates/mail-mcp-daemon/src/ipc_handler.rs:122-172 | only a gmail flow that begins leaves a pending challenge |
| AccountLifecycle.DaemonHandler.CompleteOAuthAccount | crates/mail-mcp-daemon/src/ipc_handler.rs:174-244 | the challenge is consumed first; what was done before a failure stays, down to the single policy row and to a provider registered but never announced; success exactly when every stage succeeds |
| AccountLifecycle.DaemonHandler.CancelOAuthAccount | crates/mail-mcp-daemon/src/ipc_handler.rs:246-256 | a pending challenge is consumed, an unknown one ignored |
| AccountLifecycle.DaemonHandler.Remove | crates/mail-mcp-daemon/src/ipc_handler.rs:258-272 | an unknown account changes nothing; else row, policies and provider go, the secret exactly if it can be purged, and the removal is announced |
| AccountLifecycle.DaemonHandler.HydrateProviders | crates/mail-mcp-daemon/src/ipc_handler.rs:336-363 | over the rows in any order, the registry becomes one provider for each row with a secret, with that address and token; fails exactly if a secret cannot be read |
| AccountRaces.RegisteredIff | crates/mail-mcp-daemon/src/ipc_handler.rs:174-272 | with completions and removals cut where they await and interleaved at will: an account not being removed has a provider if and only if it has a row and a secret and is not about to be registered, or was registered after its removal |
| AccountRaces.RestartChangesNothingIffNoneIsLate | crates/mail-mcp-daemon/src/ipc_handler.rs:174-363 | with nothing under way, starting again registers the same accounts if and only if none was registered late, with the same tokens but for those the keychain refused |
| AccountRaces.TakingTurnsNoneIsLate | crates/mail-mcp-daemon/src/ipc_handler.rs:174-272 | while no account is deleted before its completion is over, none is registered late |
| AccountRaces.LateRegistration | crates/mail-mcp-daemon/src/ipc_handler.rs:215-272 | a run that ends with an account removed, announced as removed, and its provider registered |
| AccountRaces.PoliciesAreComplete | crates/mail-mcp-daemon/src/ipc_handler.rs:174-311 | under every interleaving policy rows belong to existing accounts, and an existing account with a provider has one for every category |
| AccountRaces.SettingsStick | crates/mail-mcp-daemon/src/ipc_handler.rs:291-311 | a policy the user sets stays as set until the account is deleted or seeded |
| AccountRaces.RowsAreAsCreated | crates/mail-mcp-daemon/src/ipc_handler.rs:180-217 | every account carries the address consented to, under the label its completion was given, or under the address if it was given none |
| AccountRaces.TokensWereBrought | crates/mail-mcp-daemon/src/ipc_handler.rs:218-237 | whatever token the keychain or a provider holds for an account came with its consent or by a rotation of its own |
| AccountRaces.ChallengesAreConsumedOnce | crates/mail-mcp-daemon/src/ipc_handler.rs:150-256 | a challenge is consumed at most once, and a pending one has not been |
| AccountRaces.AccountsComeAndGoOnce | crates/mail-mcp-daemon/src/ipc_handler.rs:174-272 | an account is registered, announced and removed at most once each |
| AccountRaces.AloneItIsCompleteOAuth | crates/mail-mcp-daemon/src/ipc_handler.rs:174-244 | a completion whose steps come with nothing in between does what the method does, failures included |
| AccountRaces.AloneItIsRemoveAccount | crates/mail-mcp-daemon/src/ipc_handler.rs:258-272 | a removal whose steps come with nothing in between does what the method does |
| TokenRefresh.AuthClient.EnsureFresh | crates/mail-mcp-core/src/providers/gmail/client.rs:232-269 | an exchange is made, presenting the refresh token held, exactly if the access token has expired and there is one; a grant replaces the access token and its expiry, and the refresh token if it brings one, which goes to the keychain if it differs from the one presented |
| TokenRefresh.AuthClient.Send | crates/mail-mcp-core/src/providers/gmail/client.rs:303-323 | the state after and the record of exchanges and requests are those of one try and, after a 401, one forced retry |
| TokenRefresh.KeychainFollowsMemory | crates/mail-mcp-core/src/providers/gmail/client.rs:232-323 | over sends that do not overlap the client holds and presents the token issued last, and so does the keychain while it can be written |
| TokenRefresh.AtMostOneRetry | crates/mail-mcp-core/src/providers/gmail/client.rs:303-323 | at most two requests and two refreshes; a second request only after a 401 and a grant since; each carries the access token granted last |
| TokenRefresh.StatusIsTheLastRequests | crates/mail-mcp-core/src/providers/gmail/client.rs:303-323 | nothing is asked without a fresh token and a request that can be sent twice; it is asked again exactly after a 401 and a forced refresh that brings a token; the status returned is that of the request made last, and none if there was no request, it failed, or that refresh brought no token |
| TokenRaces.TheTokenIsNeverLost | crates/mail-mcp-core/src/providers/gmail/client.rs:232-269 | under every interleaving a refresh token stays present, and memory and keychain only hold tokens the provider issued |
| TokenRaces.AloneItIsEnsureFresh | crates/mail-mcp-core/src/providers/gmail/client.rs:232-269 | one task stepping alone does what the sequential client does |
| TokenRaces.TakingTurnsAgrees | crates/mail-mcp-core/src/providers/gmail/client.rs:232-269 | refreshes none of which starts while another is under way leave the keychain with the token in memory, writes succeeding |
| TokenRaces.OverlappingRefreshesDisagree | crates/mail-mcp-core/src/providers/gmail/client.rs:248-266 | a run of two overlapping refreshes, all writes succeeding, that leaves another token in the keychain than in memory |
| TokenRaces.AgreesIffTheLastKeeperWroteLast | crates/mail-mcp-core/src/providers/gmail/client.rs:232-269 | whatever grants bring a refresh token, none issued twice, and whatever writes fail: at rest the keychain holds the token in memory if and only if the task that stored a refresh token last is the one whose write succeeded last, and its own latest write did not fail |
| MimeWalk.Walk.WalkParts | crates/mail-mcp-core/src/providers/gmail/parse.rs:165-189 | the recursion leaves the three accumulators as if the parts had been met one by one in preorder |
| MimeWalk.Parts | crates/mail-mcp-core/src/providers/gmail/parse.rs:131-134 | each body is the first part of its kind in preorder that decodes; attachments are, in order, the named parts with a body that were not tried as a body |
| MimeWalk.FirstDecodedIsFirst | crates/mail-mcp-core/src/providers/gmail/parse.rs:172-175 | "first" in terms of positions: it decodes, and none of its kind before it does; none means none decodes |
| MimeWalk.BodiesAreTexts | crates/mail-mcp-core/src/providers/gmail/parse.rs:165-200 | a body is the decoded text of the data of the first part of its kind, up to the case of ASCII letters, whose data decodes; there is none exactly if no such data decodes |
| MimeWalk.CandidateIff | crates/mail-mcp-core/src/providers/gmail/parse.rs:172-185 | a part is tried as a body if and only if it is of a body's kind and none of that kind before it decodes |
| MimeWalk.AttachedInOrder | crates/mail-mcp-core/src/providers/gmail/parse.rs:176-185 | the attachments are those of increasing positions, which are exactly those of the named parts with a body that were not tried as a body; each carries the name, kind and size of its part, and its id if it has one |
| MimeOrder.MetAtItsPlace | crates/mail-mcp-core/src/providers/gmail/parse.rs:165-189 | the walk meets the part at every path of the tree, at the place its path says |
| MimeOrder.NothingElseIsMet | crates/mail-mcp-core/src/providers/gmail/parse.rs:165-189 | it meets nothing else |
| MimeOrder.MetInOrder | crates/mail-mcp-core/src/providers/gmail/parse.rs:186-188 | an outer part is met before those inside it, and what is inside a part before the parts after it, and only then |
| MimeWalk.LostIff | crates/mail-mcp-core/src/providers/gmail/parse.rs:172-185 | a named part with a body is neither listed nor a body of the message if and only if it is of a body's kind, does not decode, and none of its kind before it decodes |
| MimeWalk.ALeadingTextFileIsLost | crates/mail-mcp-core/src/providers/gmail/parse.rs:172-185 | a named text part without content ahead of any text body is neither body nor attachment, and would be listed after one |
| PercentEncoding.DecodeEncode | crates/mail-mcp-core/src/oauth/mod.rs:241-244 | every byte string survives percent-encoding and decoding |
| PercentEncoding.EncodedIsPlain | crates/mail-mcp-core/src/oauth/mod.rs:241-244 | encoding leaves only letters, digits and percent signs |
| PercentEncoding.EncodeByByte | crates/mail-mcp-core/src/oauth/mod.rs:241-244 | a letter or digit stands for itself, any other byte for a percent sign and its two digits in capitals |
| PercentEncoding.DecodeEscape | crates/mail-mcp-core/src/oauth/loopback.rs:199-204 | a percent sign with two hexadecimal digits, in either case, is read as the byte they say |
| PercentEncoding.DecodePlain | crates/mail-mcp-core/src/oauth/loopback.rs:199-204 | everything else stands for itself, a plus sign and a stray percent sign among it |
| OAuthLoopback.HandleOne | crates/mail-mcp-core/src/oauth/loopback.rs:186-256 | the loop over the pairs gives the verdict by the last value of each name as it decodes, a provider error first, then the state; a request that is not UTF-8 counts as empty |
| OAuthLoopback.AwaitCallback | crates/mail-mcp-core/src/oauth/loopback.rs:146-178 | the accept loop returns what the connections decide one after the other, and does not return from one on which nothing ever comes |
| OAuthLoopback.TheFirstDecides | crates/mail-mcp-core/src/oauth/loopback.rs:146-178 | the wait ends with what the first connection in time that is not stray brings: the error of accepting or reading, the code of the expected callback, or the provider's error; and with a timeout if there is none |
| OAuthLoopback.SilenceHoldsTheListener | crates/mail-mcp-core/src/oauth/loopback.rs:146-189 | the outcome is the same as without the silent connections if and only if none of them comes, in time, before the deciding one; otherwise the wait outlives its deadline for good |
| OAuthRoundTrip.VerdictIsByLastValues | crates/mail-mcp-core/src/oauth/loopback.rs:186-256 | whatever parameters are printed into a request, encoded or not, the verdict is by the last value printed for each name as it decodes: a provider's error first, then the state must be the one expected, then there must be a code; a request that is not UTF-8 is spurious |
| OAuthRoundTrip.TargetIsTheSecondWord | crates/mail-mcp-core/src/oauth/loopback.rs:190-195 | the target is the second word of the first line, whatever blanks stand around it |
| OAuthRoundTrip.OneWordHasNoTarget | crates/mail-mcp-core/src/oauth/loopback.rs:190-195 | a first line with fewer than two words makes the request stray, whatever the other lines say |
| OAuthRoundTrip.ARefusalEndsTheWait | crates/mail-mcp-core/src/oauth/loopback.rs:146-256 | a callback that carries an error ends the wait with that error, whatever else it carries |
| OAuthRoundTrip.CallbackRoundTrip | crates/mail-mcp-core/src/oauth/loopback.rs:186-256 | for every code, state, method, path and remainder in UTF-8, the parameters in either order, the printed callback is captured with that code by the listener expecting that state and by no other |
| ThreadGrouping.Search | crates/mail-mcp-core/src/providers/m365/messages.rs:47-70 | one summary for each first message of a conversation, with that message's id, date, subject and whether it is unread; or the first of those without a date |
| ThreadGrouping.FirstsInOrder | crates/mail-mcp-core/src/providers/m365/messages.rs:49-53 | the messages summarised are exactly the first of each conversation, in their order |
| ThreadGrouping.OnePerConversation | crates/mail-mcp-core/src/providers/m365/messages.rs:49-53 | every conversation has exactly one summary, and nothing else has |
| ThreadGrouping.SummariesAreTheNewestIffFirstsAre | crates/mail-mcp-core/src/providers/m365/messages.rs:44-70 | all summaries carry the newest date of their conversation if and only if of every conversation a newest message came first |
| ThreadGrouping.NewestFirstIsEnough | crates/mail-mcp-core/src/providers/m365/messages.rs:44-46 | which it does when newer messages come first, as the service returns them |
| ThreadGrouping.OrderIsTakenOnTrust | crates/mail-mcp-core/src/providers/m365/messages.rs:44-53 | given the older message first, the older one is kept |

## Left out

- HTTP, TLS, the Gmail and Graph endpoints, SQLite and the operating system's keychain: only their order and whether they succeed, as parameters.
- JSON parsing and printing: a frame is a newline-free byte string with a decoded view; tool arguments are whether they decode and an opaque value.
- The dispatcher, the server connection and the Swift reader as loops in place: they are transition systems, because what matters about them is the interleaving; the registry inside the gatekeeper is a set of accounts.
- `revoke_all` on session trust: nothing in the repository calls it.
- Id generation: approval, account and challenge ids are taken to be new each time (ULIDs), and the pause flag is an atomic boolean.
- Server write failures: a reply that cannot be written ends the connection, and a notification that cannot ends the fan-out.
- The forwarding of approval events into the notification channel, and its own lagging.
- Linux client: connecting and reconnecting, callbacks that disconnect or free the client, and a write that fails after part of a frame has gone out. A callback that issues a call is the same as issuing it after the read or the disconnection.
- Swift client: the call timeout (it resumes no continuation and removes no entry), reconnecting after close, and notification streams.
- Windows client: its request table, which repeats the Linux one; cancelling or abandoning the reader.
- CSharpChannel.ChannelOf.TryWrite: a call that does not get the lock blocks; it is a label that is not enabled, not a step.
- MessageCache.Cache.GetValue: the clock is a parameter and ages are differences; the library's saturation for clocks that go back is not modelled.
- OAuthLoopback.HandleOne: lossy UTF-8 decoding is one opaque function, and blanks outside ASCII are not modelled; a request is what one read returns.
- OAuthLoopback.AwaitCallback: the deadline is checked against the time of arrival; the time taken to read and answer is not modelled, except that it may have no end.
- TokenRaces.AgreesIffTheLastKeeperWroteLast: a provider that returns a refresh token it has already issued is not covered; agreement then also depends on which one it is.
- AdminClient.IpcClient.Call: writing the request is taken to succeed.
- Enforcement.Enforce: what happens while it waits is one parameter, the decision or the timer; everything else that can happen is the transition system's business.
- MimeWalk.Parts: base64 and UTF-8 decoding are one opaque function; headers, labels and dates of a message are not modelled.
- ThreadGrouping.Search: only the fields grouping depends on and the subject are carried.
- Enum and string conversions, folder and label filters, URL building, paths, logging, lock files and all user interface.
