# A verified model of rootbroker's approvals, home access and command display

rootbroker lets a coding agent run single commands as root, after a human has approved them.  This
project models three parts of it in Dafny and proves what they are for.

1. **Approvals.**  The broker (sessions, in-flight requests, leases) and its manual decision provider
   (a queue of requests with write-once decisions) run concurrently: a request enters the broker's
   lock, leaves it, waits inside the provider, enters the lock again and then runs its command outside
   it.  Every execution is shown to go back to a human's approval of the same process, session and
   turn, in every interleaving.  The argument is a coupling that no single function states: `Decide`
   never looks at the turn, and is right because each change of turn cancels the contexts of that turn
   under the broker's lock, and a review closes what is cancelled before it answers.  Beside it: nothing
   is answered after its time, nothing outlives its turn, nothing runs for a client that is gone, and
   every waiter is told the outcome that stood first.
2. **Home access.**  POSIX access control lists with a shared mask are edited so that one user gains
   or loses access to a tree of files; the walk may be cut off after any write.  Everything is stated
   against the access check of section 23 of IEEE Std 1003.1e draft 17 (acl(5), "ACCESS CHECK
   ALGORITHM"), not against the entries: what the user gains, that nobody else gains or loses by it,
   and that the reported status is right after any calls for any users, cut off or refused anywhere.
3. **Display.**  Quoted and wrapped command lines are read back, by the quoting rules of section 2.2
   of the POSIX.1-2017 Shell Command Language, as exactly the arguments that will run.

`dafny verify dfyconfig.toml` verifies the project.

## How the files fit together

| files | contents |
|---|---|
| Wrappers, Approval, Listings | `Option` and `Result`; requests, decisions, scopes; listings by time of creation |
| Provider, BrokerTables | what each critical section does, as functions on tables; the class of the provider |
| Broker | the class of the broker: loops over its maps in any order, proved equal to those functions |
| Machine, BrokerSteps | broker, provider, request threads and environment as one transition system, and the proof that its steps are the methods of the broker; its steps inside the provider are the very functions that specify the provider's methods |
| Shape, Safety, Trace, Ledger | invariants: how tables, threads and queue fit; coupling and lease table; where executions come from; the lease table as a function of the history |
| Sections | what each critical section of the broker means, entry by entry and error by error, spelled out |
| Runs, OneShot, Turns, Endings, Timely, Gone, Waiters, SessionKeys, ExampleRun | the theorems about whole runs, and a run that shows they speak of something |
| Acl, AclAccess, AclEdits, AclMode | lists of entries, the access check, grants and revocations against it, mode bits |
| AclCodec, AclLayout, AclOrder, AclValue | bytes of a list and their layout, order of entries; the class that edits a list in place |
| HomeTree, HomeOutcomes, HomeManager | the tree and its attributes, the list of writes of a call; what becomes of it when writes are refused or the process is stopped; the class that performs it |
| HomeWalk, HomeNode, HomeCrash, HomeMarker, HomeRestore, HomeStatus, HomeRecovery | coverage, one node, interruptions, the ignored marker removal, restoration and repetition, the reported status, recovery |
| HomeFrame, HomeUsers | what a call leaves to everybody else; several users of one home |
| Display | printer, reader, round trip, layout |

An invariant such as `Safe` is a conjunction over requests, leases and pairs of leases; the lemma
`SafeStep` shows that every step keeps it, and `EveryStateIsSafe` draws the conclusion for every state
of every run.  Randomness, clocks, process death, client disconnects and the firing of deadlines are
steps or parameters: random identifiers are new, the clock does not go back, death is permanent.

Two findings where the code is weaker than one might read into it:

* `revokeUser` computes the new mask from raw permissions, so on a list that some other program left
  with a restrictive mask it can hand out rights (`RevokeCanWiden`).  `RevokeLeavesOthersAlone` gives
  the exact condition; lists that `grantUser` wrote meet it.
* A grant ignores the error of removing the old completion marker.  If that removal fails, an
  interrupted grant can report "enabled" for a home that is not (`IgnoredRemovalMisleads`);
  `GrantIsHonestExactlyIf` says exactly when it cannot.  And "disabled" does not mean that nothing is
  granted (`DisabledIsNotClean`); but one completed revocation recovers from anything that came before
  (`RevocationRecovers`).

## Model

| member | source | states |
|---|---|---|
| Brokers.Broker.constructor | internal/broker/broker.go:104-118 | a new broker has empty tables and its own empty provider |
| Brokers.Broker.HandleLifecycle | internal/broker/broker.go:128-175 | tables and error after a lifecycle event are those of the sweep followed by the event, for every order of iteration |
| Brokers.Broker.BeginRequest | internal/broker/broker.go:177-221 | first critical section: no active turn, some matching lease, no identifier, or a new in-flight request of the session's turn with the configured deadline; nothing else changes |
| Brokers.Broker.FinishRequest | internal/broker/broker.go:224-250 | last critical section: the request leaves the table, and is admitted only with a valid approval whose session is active at its turn, with a lease for broad scopes |
| Brokers.Broker.Decide | internal/broker/broker.go:298-328 | sweep, provider's answer, and a lease exactly for approvals; the check of the provider's result after the answer is unreachable |
| Brokers.Broker.ListPending | internal/broker/broker.go:272-280 | a listing sweeps broker and provider and shows every queued request once, decided or not, by time of creation |
| Brokers.Broker.ListLeases | internal/broker/broker.go:282-296 | exactly the leases left by the sweep, each once, unexpired and of living processes, by time of creation |
| Brokers.Broker.Revoke | internal/broker/broker.go:330-339 | takes the lease with this identifier and no other; unknown identifiers are an error |
| Brokers.Broker.ActiveSessionLocked | internal/broker/broker.go:341-355 | finds the one session of the process with an open turn; none if there are two |
| Brokers.Broker.MatchingLeaseLocked | internal/broker/broker.go:357-367 | finds an unexpired lease of the session that covers its turn if and only if there is one |
| Brokers.Broker.EnsureLeaseLocked | internal/broker/broker.go:374-405 | adds exactly one lease of the decision's scope unless an unexpired one covers it already |
| Brokers.Broker.RevokeMessageLeasesLocked | internal/broker/broker.go:407-413 | removes exactly the message leases of the session |
| Brokers.Broker.CancelPendingLocked | internal/broker/broker.go:415-422 | cancels exactly the contexts of the session's in-flight requests, in any order |
| Brokers.Broker.RemoveSessionLocked | internal/broker/broker.go:424-433 | removes the session with all its leases and cancels its requests |
| Brokers.Broker.DropLeasesLocked | internal/broker/broker.go:427-431 | the leases of a removed session |
| Brokers.Broker.PruneLeasesLocked | internal/broker/broker.go:436-440 | removes exactly the expired leases and those of dead processes |
| Brokers.Broker.PruneSessionsLocked | internal/broker/broker.go:441-451 | removes exactly the sessions of dead processes, with their leases and contexts |
| Brokers.Broker.PruneRequestsLocked | internal/broker/broker.go:452-456 | cancels exactly the in-flight requests whose time is up |
| Brokers.Broker.PruneLocked | internal/broker/broker.go:435-457 | the three loops together are one simultaneous sweep |
| BrokerTables.EnsureLeaseIsIdempotent | internal/broker/broker.go:374-405 | after a call some lease covers the decision, a new one for its whole configured lifetime; until it expires a repeated call adds nothing, whatever identifier it drew |
| BrokerTables.LazySweepEqualsEager | internal/broker/broker.go:435-457 | sweeping now and later leaves what sweeping later leaves |
| Sections.SweepCancels | internal/broker/broker.go:441-456 | a sweep cancels an in-flight request whose time is up, or whose process is gone from a session that is there, and no other; a context keeps its first error |
| Sections.LifecycleSessions | internal/broker/broker.go:137-172 | what each event makes of its session (a turn start opens the next turn if none is open and closes the open one otherwise), and that all other sessions of living processes stay |
| Sections.LifecycleCancels | internal/broker/broker.go:144-172 | the end of a turn or session, and any turn start, cancel every in-flight request of the session; apart from the sweep nothing else is cancelled |
| Sections.LifecycleReports | internal/broker/broker.go:128-167 | which events are invalid, out of order or ambiguous; an invalid one changes nothing |
| Sections.BroadApprovalLasts | internal/broker/broker.go:357-405 | for a time that is in the future, an approval for a message or session lets the next requests of the turn or session through without a review |
| Sections.BeginReports | internal/broker/broker.go:181-197 | a request is refused exactly if its process has no session with an open turn or more than one, or if no identifier can be drawn |
| Sections.BeginMakes | internal/broker/broker.go:186-208 | otherwise it finds a lease that covers the open turn, or there is none and it makes a request in that turn with its deadline, live exactly if the client is there |
| Sections.FinishReports | internal/broker/broker.go:224-248 | the last section's refusals: ill-formed decision, no approval, turn not open, no identifier, in this order |
| Sections.FinishCovers | internal/broker/broker.go:235-242 | a broad decision that lets a request through covers the turn's next requests |
| Sections.ListingDecides | internal/broker/broker.go:272-280 | a listing shows no late or orphaned request as undecided |
| Sections.RevokeReports | internal/broker/broker.go:330-339 | "not found" exactly if there is no such lease; no other lease is touched |
| SessionKeys.SessionTextInjective | internal/broker/broker.go:120-122 | the text key determines process and session, whatever bytes the session name has |
| Provider.ContextTable.CancelContext | internal/broker/broker.go:415-422 | cancelling a context twice keeps its first error |
| Provider.ManualProvider.constructor | internal/approval/provider.go:132-134 | a new provider has an empty queue |
| Provider.ManualProvider.Register | internal/approval/provider.go:136-144 | a request is queued undecided unless its identifier is queued already |
| Provider.ManualProvider.Settle | internal/approval/provider.go:146-158 | a waiter whose context ended decides its own item, and only if it is undecided |
| Provider.ManualProvider.Collect | internal/approval/provider.go:160-164 | a waiter removes its own entry and returns what was decided |
| Provider.EndedRequestLeavesNoTrace | internal/approval/provider.go:136-165 | a request whose context ends while it waits is queued, settled and collected as "expired" if a deadline ended it and "cancelled" otherwise, and leaves the queue as it would be without it |
| Provider.ManualProvider.ListPending | internal/approval/provider.go:167-181 | the listing closes ended items and shows all, each once, by time of creation |
| Listings.SortedByTime | internal/approval/provider.go:171-175 | every entry of a table once, in order of creation |
| Provider.ManualProvider.ReviewRequest | internal/approval/provider.go:183-217 | the answer and the new queue, with every refusal |
| Provider.ManualProvider.AnswerLocked | internal/approval/provider.go:203-216 | one loop answers exactly what the scope covers |
| Provider.ManualProvider.PruneLocked | internal/approval/provider.go:219-230 | exactly the items with ended contexts are closed, by the kind of their ending |
| Provider.ManualProvider.FinishLocked | internal/approval/provider.go:232-238 | the first decision wins, and the channel is never closed twice |
| Provider.ReviewSucceeds | internal/approval/provider.go:183-217 | a review succeeds only for a live undecided request and yields a valid decision of the right scope and principal |
| Provider.ReviewedItem | internal/approval/provider.go:197-238 | what a review does to one entry: decided ones stay, ended ones close, covered ones get the answer, others stay open |
| Provider.ReviewIsExact | internal/approval/provider.go:183-217 | batch approval resolves precisely the live undecided requests that the scope covers and touches no other |
| Provider.RefusedReviewAnswersNothing | internal/approval/provider.go:183-199 | a refused review decides nothing, and a missing, decided or ended target is the only reason beside malformed input |
| Provider.ReviewReports | internal/approval/provider.go:183-217 | the error codes of a review and their order, and the decision it makes: name, principal, approver, and command scope for denials |
| Provider.ReviewResolves | internal/approval/provider.go:196-238 | for every entry: decided ones stay, ended ones are "expired" or "cancelled" by the kind of their ending, the target and what a broad approval reaches get the answer, the rest stays undecided |
| Provider.SweepDecides | internal/approval/provider.go:219-230 | a sweep of the queue closes exactly the undecided ended entries, a deadline as "expired" and anything else as "cancelled" |
| Provider.FirstReasonStays | internal/broker/broker.go:415-422 | cancelling contexts ends exactly the given ones and changes no reason |
| SessionKeys.DecimalIsNumber | internal/approval/provider.go:201 | the digits in a principal stand for the approver's number |
| BrokerSteps.LifecycleIsTheCode | internal/broker/broker.go:128-175 | the lifecycle step of the transition system is the method |
| BrokerSteps.BeginIsTheCode | internal/broker/broker.go:177-221 | the first step of a request is the method's first section, with the thread where the outcome sends it |
| BrokerSteps.FinishIsTheCode | internal/broker/broker.go:224-250 | the last step of a request is the method's last section |
| BrokerSteps.DecideIsTheCode | internal/broker/broker.go:298-328 | a review whose two steps follow each other is the method, from its sweep to its lease |
| BrokerSteps.AnswerIsTheCode | internal/broker/broker.go:304-328 | whatever came in between, closing a review is the rest of the method on the tables as they are then |
| BrokerSteps.ListingIsTheCode | internal/broker/broker.go:272-280 | a listing whose two steps follow each other is the method |
| BrokerSteps.RevokeIsTheCode | internal/broker/broker.go:330-339 | so is a revocation |
| Shape.FitsStep | internal/broker/broker.go:177-270 | every step keeps tables, threads and queue in step: in flight while held, queued while waited for, unique identifiers |
| Safety.SafeStep | internal/broker/broker.go:128-457 | every step keeps the coupling, the lease table and lease uniqueness |
| Safety.TurnTestNeverRejects | internal/broker/broker.go:357-367 | comparing turns never turns away a message lease of the active session |
| Safety.ReviewApprovesOnlyOpenTurns | internal/broker/broker.go:298-328 | whatever a review approves is in the open turn of its session, though `Decide` does not look |
| Safety.MessageAndSessionReviewsAgree | internal/approval/provider.go:194-216 | message and session approvals resolve the same requests |
| Trace.TracedStep | internal/broker/broker.go:177-270 | every step keeps the trace of admissions and executions justified |
| Ledger.KeptStep | internal/broker/broker.go:330-457 | every step keeps the lease table equal to what the history leaves standing |
| Ledger.AdmittedWithoutReview | internal/broker/broker.go:177-191 | a first section admits exactly if the history holds a standing lease of the one active session |
| Runs.InvRun | internal/broker/broker.go:91-118 | all invariants hold in every state of every run |
| Runs.EveryExecutionIsApproved | internal/broker/broker.go:177-270 | every execution runs the command its thread was called with, once, after an admission of that thread: either by a validated approval of the thread's own request for that command, at its open turn (for a command approval, a review of that very request), or by a matching lease that an earlier review of the same process, session and, for a message lease, turn approved and that still stood |
| Runs.EveryStateIsSafe | internal/broker/broker.go:128-172 | in every state: live requests are in open turns, leases belong to existing sessions and open turns, one unexpired lease per session and scope |
| Runs.EveryReviewIsInItsTurn | internal/approval/provider.go:196-216 | in every state: reviews approve only open turns, and the two broad scopes agree |
| Runs.EveryLeaseAdmissionFollowsHistory | internal/broker/broker.go:177-191 | a request is admitted without review if and only if its process has one active session and the history holds a lease created for it and not yet expired, revoked, or ended with its session or turn |
| Runs.EveryWaiterIsServed | internal/approval/provider.go:146-165 | a decided or cancelled waiter gets its answer within five steps open to it: the outcome that stood first, "expired" or "cancelled" by the kind of its context's ending, or "cancelled" if its turn is gone |
| Endings.EndingsClose | internal/broker/broker.go:144-172 | after a session end the session is gone; after a turn end, or a turn start while one was open, no turn is open |
| Endings.ClosedIsOver | internal/broker/broker.go:144-169 | so every turn up to the current one is over |
| Endings.CancelledForGood | internal/broker/broker.go:144-172 | in every run: what was in flight when a lifecycle event closed the turn stays cancelled, and no review ever approves it |
| Endings.NothingOutlivesItsTurn | internal/broker/broker.go:235-239 | in every run: while the session exists, no request of a closed turn or an earlier one is in the open turn or passes its last section, approved or not |
| Timely.AnswersAreInTime | internal/broker/broker.go:298-306 | in every run: whatever a review approves or denies had not expired at the time the review read, and its process was alive when it swept, whatever happened in between |
| Gone.LaunchLooksLast | internal/broker/broker.go:253-261 | an admitted command runs exactly if its client is connected and its process alive; otherwise the answer is "cancelled" |
| Gone.NothingRunsForTheGone | internal/broker/broker.go:253-261 | in every run: no execution of a call after its client disconnected or its process died |
| Gone.GoneClientsAreCutOff | internal/broker/broker.go:203-222 | in every state of every run: the context of a disconnected client's request has ended, and so has one that was released |
| Gone.DeadAreRefused | internal/broker/broker.go:177-185 | a request of a dead process is refused |
| OneShot.EachExecutionIsPaid | internal/broker/broker.go:191-250 | with command approvals only, each execution has an approving review of its own request and its own command |
| OneShot.NoApprovalPaysTwice | internal/broker/broker.go:224-250 | no approving review serves two executions |
| OneShot.CommandApprovalsAreOneShot | internal/broker/broker.go:374-377 | command approvals leave no lease, executions map injectively to approvals of the commands they run, and never exceed them |
| Turns.TurnsAdvanceByOne | internal/broker/broker.go:144-169 | within a session the turn grows by one per accepted start and opens by nothing else |
| Turns.ClosedTurnsStayClosed | internal/broker/broker.go:235-239 | a turn that is over is never open again while its session exists, and no request of it passes its last section |
| Waiters.DecisionsAreFinal | internal/approval/provider.go:219-238 | in one step a decision is set at most once, the channel closes with it, and only the own waiter removes an entry |
| Waiters.UnlockEffect | internal/broker/broker.go:298-306 | whoever holds the broker's lock while it waits for the provider can always go on |
| Waiters.NoWaiterIsLost | internal/broker/broker.go:221-245 | from every reachable state the waiter's own steps, and at most one of the lock holder, lead to its answer |
| Waiters.WakeDecides | internal/approval/provider.go:146-158 | a waiter that sees its context end decides its own undecided entry, "expired" for a deadline and "cancelled" otherwise, and no other entry |
| Waiters.UnansweredEnds | internal/approval/provider.go:146-165 | a request that nobody answers ends as "expired" when its deadline fires and as "cancelled" when its client disconnects |
| Waiters.RegisterQueues | internal/approval/provider.go:136-144 | a request is queued undecided; an identifier that is queued already is "cancelled", which never happens in a reachable state |
| ExampleRun.CommandsCanRun | internal/broker/broker.go:177-270 | from every initial state with nobody dead, for every process, command and approver, some run of twelve steps executes the command |
| Acl.MaskOf | internal/homeaccess/acl.go:149-156 | on a valid list the first mask entry is the only one, and is the effective mask |
| Acl.UnionCovers | internal/homeaccess/acl.go:167-183 | the recalculated mask covers every group-class permission |
| Acl.UnionIsLeast | internal/homeaccess/acl.go:167-183 | and nothing more than they need |
| AclAccess.AllowsByRights | internal/homeaccess/acl.go:139-156 | the access check depends only on what each principal has within the mask |
| AclMode.WithinIsBitwise | internal/homeaccess/acl.go:139-147 | having the wanted permissions is a comparison of the three bits |
| AclMode.ModeDecides | internal/homeaccess/acl.go:68-74 | the list made from mode bits gives the owner the owner's bits, the group the group's and everybody else the others' |
| AclMode.BaseDecides | internal/homeaccess/acl.go:76-84 | the base of a list gives each class what the list's own unnamed entry says |
| AclEdits.GrantRights | internal/homeaccess/acl.go:86-109 | a grant sets the effective rights of one user and of no other principal |
| AclEdits.GrantFrame | internal/homeaccess/acl.go:86-109 | for every process: the named user gets exactly the permissions asked for, every other decision is as before; the list is valid and tight |
| AclEdits.RevokeRights | internal/homeaccess/acl.go:111-137 | a revocation leaves everybody else with their raw permissions |
| AclEdits.RevokeFrame | internal/homeaccess/acl.go:111-137 | on tight lists it removes the user, keeps the list valid and tight and changes no other decision |
| AclEdits.GrantThenRevoke | internal/homeaccess/acl.go:86-137 | for a user without an entry, granting and revoking changes no decision at all |
| AclEdits.RevokeCanWiden | internal/homeaccess/acl.go:111-137 | a list on which a revocation gives another user rights that the mask withheld |
| AclEdits.RevokeWidensOther | internal/homeaccess/acl.go:111-137 | whenever another group-class entry exceeds the mask, some process gains |
| AclEdits.RevokeLeavesOthersAlone | internal/homeaccess/acl.go:111-137 | a revocation leaves all others alone if and only if their entries were within the mask |
| AclCodec.SortedInOrder | internal/homeaccess/acl.go:50-56 | the sort orders by tag and identifier and keeps the entries |
| AclCodec.SortedIsStable | internal/homeaccess/acl.go:50-56 | and keeps entries of one key in their order |
| AclCodec.StableSortIsUnique | internal/homeaccess/acl.go:50-56 | which leaves only one result |
| AclCodec.ParseEncode | internal/homeaccess/acl.go:30-66 | reading what was written gives the stably sorted entries if all permissions fit in three bits, and an error otherwise |
| AclLayout.EncodeIsLaid | internal/homeaccess/acl.go:49-66 | the bytes: version 2, then every entry once, by tag and identifier, eight bytes each, low byte first |
| AclLayout.ParseReports | internal/homeaccess/acl.go:30-47 | which bytes are refused, and with which of the two errors |
| AclLayout.ParseReads | internal/homeaccess/acl.go:30-47 | all other bytes are read entry by entry as they are laid out |
| AclLayout.GrantWrites | internal/homeaccess/acl.go:86-109 | a granted list by the numbers of Linux's tags: user entry and mask present, owner and others kept, the rest under the old mask |
| AclLayout.MinimalListComesBack | internal/homeaccess/acl.go:86-137 | grant and revoke bring back the very bytes of a list without named entries |
| AclOrder.SameEntriesSameAccess | internal/homeaccess/acl.go:49-66 | the order of entries matters to no decision |
| AclOrder.GrantsCommute | internal/homeaccess/acl.go:86-109 | on valid lists, grants to two users are written to the same bytes in either order |
| AclValues.ParseACL | internal/homeaccess/acl.go:30-47 | the loop reads all entries or gives the right error |
| AclValues.AclValue.constructor | internal/homeaccess/acl.go:26-28 | a value holds the given entries |
| AclValues.AclValue.FindEffectiveMask | internal/homeaccess/acl.go:149-156 | the first mask entry, or everything |
| AclValues.AclValue.CheckUserHas | internal/homeaccess/acl.go:139-147 | whether the user's first entry gives the permissions within the mask |
| AclValues.AclValue.CheckNamedEntries | internal/homeaccess/acl.go:158-165 | whether a named entry exists |
| AclValues.AclValue.Recalculate | internal/homeaccess/acl.go:167-183 | the last mask entry becomes the union, or one is added |
| AclValues.AclValue.CollapseToEffective | internal/homeaccess/acl.go:91-96 | group-class entries are cut down to what they had in effect |
| AclValues.AclValue.Grant | internal/homeaccess/acl.go:86-109 | the in-place loops compute the grant that the frame theorem is about |
| AclValues.AclValue.Revoke | internal/homeaccess/acl.go:111-137 | and the revocation |
| AclValues.AclValue.EncodeBytes | internal/homeaccess/acl.go:49-66 | the filled buffer is the encoding that the round trip is about |
| HomeWalk.BoundaryIsReachable | internal/homeaccess/platform_linux.go:81-105 | the covered nodes are exactly those reached through directories of one device, never through another kind of file |
| HomeWalk.WalkOf | internal/homeaccess/platform_linux.go:59-107 | wherever the walk stops, each covered node has received a prefix of exactly its own changes |
| HomeWalk.WalkElsewhere | internal/homeaccess/platform_linux.go:59-107 | no other node receives any |
| HomeWalk.WalkSucceeds | internal/homeaccess/platform_linux.go:59-107 | the walk goes through exactly if every covered node's lists can be read |
| HomeNode.ModeIsValid | internal/homeaccess/acl.go:68-74 | the list made from mode bits is valid and names nobody |
| HomeNode.BaseIsValid | internal/homeaccess/acl.go:76-84 | the base of a valid list is valid and names nobody |
| HomeNode.UserHasIsAllowed | internal/homeaccess/acl.go:139-147 | `userHas` agrees with the access check for every process of a named user that does not own the file |
| HomeNode.ReadGranted | internal/homeaccess/acl.go:49-109 | a written grant is read back as a valid tight list with the same rights |
| HomeNode.GrantGives | internal/homeaccess/platform_linux.go:109-161 | a completed grant of a node gives the required access and, on directories, the full default entry |
| HomeNode.GrantedIsAllowed | internal/homeaccess/platform_linux.go:122-131 | which the access check honours |
| HomeFrame.GrantPermits | internal/homeaccess/platform_linux.go:115-131 | a granted node: the user gets everything on directories and executables, else reading and writing; every other process what the list, or without one the mode bits, gave it |
| HomeFrame.NewDefaultPermits | internal/homeaccess/platform_linux.go:132-154 | a default list that a grant makes gives owner, group and others what the directory's own entries do, and the user everything |
| HomeFrame.RevokeTakesNothing | internal/homeaccess/acl.go:111-137 | a revocation takes nothing from anybody else, whatever the mask was |
| HomeFrame.NobodyElseLoses | internal/homeaccess/platform_linux.go:19-57 | a call, however refused or stopped, takes no permission from any other process at any file, and a grant gives none either |
| HomeFrame.CompletedGrantPermits | internal/homeaccess/platform_linux.go:19-57 | a completed grant at every file of the home and for every process |
| HomeUsers.OthersStayGranted | internal/homeaccess/platform_linux.go:109-197 | no call for one user, however it ends, takes from another what a grant gave, and "enabled" stays "enabled" |
| HomeUsers.EnabledAmongUsers | internal/homeaccess/platform_linux.go:199-221 | crash consistency with several users: after any calls for any of them, "enabled" means that the user has the required access everywhere |
| HomeCrash.StaysSound | internal/homeaccess/platform_linux.go:19-57 | no call, complete or not, stores an invalid list |
| HomeCrash.RevokeCutsDefault | internal/homeaccess/platform_linux.go:163-197 | a revocation that wrote anything has taken the home's default entry first |
| HomeCrash.GrantCutUnmarks | internal/homeaccess/platform_linux.go:33-49 | a grant cut off before its last write leaves everything as it was, or the home unmarked |
| HomeCrash.CompletedGrant | internal/homeaccess/platform_linux.go:45-49 | a completed grant covers the whole boundary |
| HomeCrash.EnabledMeansGranted | internal/homeaccess/platform_linux.go:199-221 | crash consistency: after any attempts, interrupted anywhere and with creation markers changing at will, "enabled" means that the user has the required access everywhere, to the access check, and every directory its default entry |
| HomeOutcomes.RefusalsAreInterruptions | internal/homeaccess/platform_linux.go:142-197 | whatever writes are refused and wherever the process is stopped, the result is that of an interruption, apart from creation markers |
| HomeOutcomes.GoesOnExactlyIf | internal/homeaccess/platform_linux.go:142-197 | a call deals with all its writes exactly if each is carried out or is the removal of a creation marker |
| HomeOutcomes.FirstRefusal | internal/homeaccess/platform_linux.go:142-197 | what the first refusal does: passed over, marker taken back, or the end |
| HomeOutcomes.RefusedDefaultLeavesNothing | internal/homeaccess/platform_linux.go:148-159 | a refused new default list leaves neither list nor marker |
| HomeOutcomes.GrantGoesOn | internal/homeaccess/platform_linux.go:33-49 | a grant whose removal of the old marker is refused goes on to its end |
| HomeOutcomes.TrialIsAttempt | internal/homeaccess/platform_linux.go:19-57 | so every call is an interrupted attempt up to creation markers, and exactly one if nothing is refused |
| HomeOutcomes.EnabledAfterTrials | internal/homeaccess/platform_linux.go:199-221 | crash consistency for calls as they run, with refused and missing writes |
| HomeMarker.GrantIsHonestExactlyIf | internal/homeaccess/platform_linux.go:33-36 | the status survives every interruption of a grant if and only if the marker removal takes effect, there is no marker, or all other nodes are granted |
| HomeMarker.UnclearedGrantMisleads | internal/homeaccess/platform_linux.go:33-36 | otherwise cutting the grant after the home itself reports "enabled" wrongly |
| HomeMarker.IgnoredRemovalMisleads | internal/homeaccess/platform_linux.go:33-36 | every home with anything in it can be brought there in three attempts |
| HomeMarker.DisabledIsNotClean | internal/homeaccess/platform_linux.go:213-220 | a revocation cut off after the home itself reports "disabled" with every other node still granted |
| HomeRestore.CompletedIsExact | internal/homeaccess/platform_linux.go:59-140 | a completed call changes each covered node as its own attributes ask, the marker of the home, and nothing else |
| HomeRestore.OutsideIsUntouched | internal/homeaccess/platform_linux.go:59-107 | no call, complete or not, changes anything outside |
| HomeRestore.CallSucceeds | internal/homeaccess/platform_linux.go:19-57 | a call goes through exactly if the home is a directory and all lists can be read |
| HomeRestore.NodeRestored | internal/homeaccess/platform_linux.go:109-197 | one node granted and revoked |
| HomeRestore.GrantTwice | internal/homeaccess/platform_linux.go:19-57 | a completed grant repeated succeeds and changes nothing anywhere |
| HomeRestore.GrantThenRevokeRestores | internal/homeaccess/platform_linux.go:109-197 | for a user named nowhere: the revocation succeeds, every list permits what it did, default lists the grant made are gone, no marker is left |
| HomeRestore.RestoredDecides | internal/homeaccess/platform_linux.go:109-140 | hence every process is allowed exactly what it was |
| HomeRecovery.RevokeFine | internal/homeaccess/platform_linux.go:163-197 | whatever interrupted calls made of a node, a completed revocation brings its lists and markers back |
| HomeRecovery.StaysRecoverable | internal/homeaccess/platform_linux.go:19-57 | no call, however it ends, leaves a node beyond that |
| HomeRecovery.RevocationRecovers | internal/homeaccess/platform_linux.go:19-57 | recovery: after any calls with any writes refused or missing, one revocation whose writes take effect succeeds, gives every list its first rights, removes the default lists that grants made, and leaves no marker |
| HomeStatus.StatusAfterCall | internal/homeaccess/platform_linux.go:45-56 | the status after a completed call is what the call reports: "enabled" after a grant, "disabled" after a revocation |
| HomeStatus.StatusMeans | internal/homeaccess/platform_linux.go:199-221 | the four answers by the access check: an unreadable list, full access in both lists and the marker, in one of them, in neither |
| HomeStatus.FreshHome | internal/homeaccess/platform_linux.go:19-57 | a home without lists can always be granted, is enabled then, and meets every assumption of the theorems |
| HomeManagers.RanThen | internal/homeaccess/platform_linux.go:59-107 | two parts in sequence, refused and stopped as they may be, are one whole |
| HomeManagers.SameWalk | internal/homeaccess/platform_linux.go:59-107 | a walk depends only on the lists and creation markers of its own nodes |
| HomeManagers.HomeManager.constructor | internal/homeaccess/platform_linux.go:19-28 | a home with its attributes and the outcomes of the attempts to write that lie ahead |
| HomeManagers.HomeManager.Attempt | internal/homeaccess/platform_linux.go:276-287 | one attempt to set or remove an attribute: carried out, refused, or the process is stopped |
| HomeManagers.HomeManager.Put | internal/homeaccess/platform_linux.go:232-237 | a write whose error ends the call |
| HomeManagers.HomeManager.DropMarker | internal/homeaccess/platform_linux.go:167 | the removal of a creation marker, whose error is ignored |
| HomeManagers.HomeManager.PutNewDefault | internal/homeaccess/platform_linux.go:154-159 | a new default list; if it is refused, its marker is taken back and the call ends |
| HomeManagers.HomeManager.ReadACL | internal/homeaccess/platform_linux.go:223-230 | a missing list, a readable one, or an error |
| HomeManagers.HomeManager.Granting | internal/homeaccess/platform_linux.go:126-127 | the bytes of a granted list |
| HomeManagers.HomeManager.GrantDefaultACL | internal/homeaccess/platform_linux.go:142-161 | creation marker before the new default list, and back if the list is refused |
| HomeManagers.HomeManager.Drop | internal/homeaccess/platform_linux.go:189-195 | default list before its marker, whose error is ignored |
| HomeManagers.HomeManager.RevokeDefaultACL | internal/homeaccess/platform_linux.go:163-197 | all five ways a default list is revoked |
| HomeManagers.HomeManager.GrantACLs | internal/homeaccess/platform_linux.go:115-135 | access list, then default list |
| HomeManagers.HomeManager.RevokeAccessACL | internal/homeaccess/platform_linux.go:115-139 | the access list is rewritten only if the user had an entry |
| HomeManagers.HomeManager.RevokeACLs | internal/homeaccess/platform_linux.go:110-139 | default list, then access list |
| HomeManagers.HomeManager.ChangeACLs | internal/homeaccess/platform_linux.go:109-140 | one node changed by its plan, as far as it gets |
| HomeManagers.HomeManager.WalkFD | internal/homeaccess/platform_linux.go:59-107 | the recursive walk, reading as it writes, performs the writes planned from the state at its start, as far as it gets |
| HomeManagers.HomeManager.PlatformManage | internal/homeaccess/platform_linux.go:19-57 | a call leaves exactly the state that the theorems about calls speak of, and an interrupted attempt up to creation markers |
| HomeManagers.HomeManager.Manage | internal/homeaccess/platform_linux.go:33-56 | marker, whose removal may fail unnoticed, walk, marker |
| HomeManagers.HomeManager.ACLStatus | internal/homeaccess/platform_linux.go:199-221 | the status that the crash theorems speak of |
| Display.WrapAdminCommand | internal/commands/admin_ui.go:121-147 | the loop computes the lines that the theorems below are about |
| Display.ArgumentScans | internal/commands/admin.go:203-208 | a quoted argument is read back as itself, whatever text follows it |
| Display.QuotesExactlyIf | internal/commands/admin.go:203-208 | an argument is quoted exactly if it is empty or has one of 22 characters, and then stands between single quotes |
| Display.OnOneLine | internal/commands/admin_ui.go:121-129 | without wrapping: two spaces and the arguments with one space between them; without arguments two spaces |
| Display.DisplayRoundTrip | internal/commands/admin_ui.go:69-84 | the displayed lines of any arguments, wrapped to any width or not, are read back as exactly those arguments |
| Display.WrapIsLaid | internal/commands/admin_ui.go:130-146 | all arguments appear in order, and the layout is a good one |
| Display.WrappedWithinWidth | internal/commands/admin_ui.go:133-144 | lines begin with two spaces, further ones with four, those with several arguments stay within the width, and none is broken early |
| Display.OneLayout | internal/commands/admin_ui.go:133-144 | only one layout has these properties, so the lines are determined |

## Left out

- Sockets, JSON messages, peer credentials, user lookup, configuration, audit log, command preparation and execution, agent detection through /proc, hooks, and the rest of the administrator's interface: input and output around the modelled parts.
- Providers other than the manual one: that `Decide` may ignore the turn depends on how the manual provider watches contexts.
- Objects shared by reference: sessions, leases, in-flight requests and queue items are values in the maps of the two classes, so that two maps never share one; a context is known by the request it belongs to, which is its only use.  The parent context's own deadline is a client disconnect.
- Liveness of processes within one sweep: every look at a process in one sweep gives the same answer.
- Random identifiers: they are parameters, taken to be new; a failing source is modelled.
- Turn identity across sessions: the turn counter starts again when a session is ended and started anew, so claims that a turn is over are for as long as the session exists.
- The file system behind the attributes: mode bits that follow the access list, inheritance of default lists by new files, hard links, entries that cannot be opened, reads that fail other than by malformed content, calls that overlap in time (calls for several users one after another are in HomeUsers), and other programs at work during a walk.
- AclEdits.RevokeLeavesOthersAlone: is given an identifier that the list does not mention, to stand for an ordinary user and group; a list that mentions all of them cannot be stored.
- Acl.MaskOf and what rests on it: lists with several mask entries or repeated keys are read and written by the code and the codec theorems cover them, but the access theorems are about valid lists, the only ones the kernel stores.
- Text encoding and terminals: a character stands for a byte, as in the strings of the program, and what a terminal makes of control bytes is not modelled; comments, tilde expansion and assignments are not part of the reader of displayed commands.
