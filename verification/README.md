# Sama backend: verified models

Dafny models of the Sama backend's most intricate parts, with proofs. `dafny verify dfyconfig.toml`
checks everything.

## What is modelled

**Durable operations.** `Lifecycle`, `Receipts`, `Membership`, `Tables` and `Transactions` give every
database transaction of the operation protocol as one atomic step on the tables: the state it commits and
the code it returns. `Consistency` shows that each keeps the tables consistent. `Protocol` puts the
transactions into a state machine: any number of workers, each at its own place between its transactions,
clients in the gap between the two transactions of a review or an acceptance, users, owners, operators and
maintenance, interleaved in any order, with a crash possible anywhere. `ProtocolInvariant`,
`ProtocolSteps` and `ProtocolHistory` prove its invariant and what a run can do to one operation.
`Submission`, `Freshness`, `Acceptance`, `Coverage` and `Fencing` hold the main results; `Causes` says who may
cause which change, `Progress` what a worker achieves, after a crash of the one before it as well, and `Witnesses` has
concrete runs. `MembershipEffects`, `Leases`, `Answers` and `Effects` (over `Rows`) state of every transaction, in terms
of rows, exactly when it takes effect, everything it leaves behind, and what each refusal means. `Databases` and
`Workspaces` are the same transactions as the source writes them, statement by statement on separate rows of
operations, events, jobs, locks and resolutions (or of one workspace), each method proved to commit exactly
what its transaction says.

**Inventory.** `Inventory` has the transactions of a sync, `InventoryRuns` the state machine of scans that
are interrupted, overtaken and restarted, `ScanOrigins` where published pages come from, `SyncClosing` which
syncs can still end, `InventoryEffects` exactly what each transaction does to its rows, `InventoryRows` the
imperative form with the page loop, and `Listing` the paged reading of what was published.

**Outbound calls.** `Budgets` is the in-process allocator over real heap entries; `Outbound` the retry loop
and the classification of a mutation's one answer.

**Providers.** `Pager` (with `Text`) is the nested snapshot pager; `Dns` (with `Ordering`) the canonical form
of a DNS zone, and `DnsNames` what its names and records mean.

**Credentials.** `Envelopes` (with `Batches`) is envelope encryption and rewrapping over an ideal cipher.

**Collaboration records.** `Frontmatter` is the printer and the parser of flat frontmatter, `FrontmatterReads` what it
makes of every text, stated without its steps, and `Ledger` the allocation, finalization and validation of numbered
events with their companion files.

## What the models take for granted

- The workspace row lock serializes the transactions of one workspace, so each is one atomic step. All
  identifiers and lease tokens are fresh where they are drawn. Times are whole seconds of one clock, and a
  claimer's or a renewer's clock reading is never ahead of it (a scan's renewal reads the clock as it commits).
- The unique indexes `jobs_operation`, `resource_locks`, `operation_resolutions` and
  `operation_events` give an operation at most one job, lock row and resolution and one numbered history
  (backend/migrations/000022_operation_intents.sql, 000023_resource_reservations.sql and 000027_operation_resolutions.sql); `Tables` keeps them together and
  `Databases` shows that the separate tables amount to that.
- Digests, associated data and the pair of policy version and action switches are injective. Provider reads,
  submissions, observations and pages are arbitrary arguments, and so are the reading of a ledger's time stamps
  and the checks of a companion's content.
- No code sets `closed_at`, `revoked_at` or `disabled_at`: workspaces stay open, credentials are not
  revoked, and the set of disabled users is fixed.

## Where the code and its documentation part

- `Witnesses.HiddenKeyIsNoConflict`: backend/README.md:383 promises a conflict for a duplicate key with
  another intent. The code answers a conflict if and only if the actor can still read the first operation
  (`Acceptance.ReusedKeyConflicts`); otherwise the unique index stops it and the answer is a store error. The
  witness is a run from an empty installation.
- `Coverage.FaultsFailExactly`: a comment at backend/internal/operation/dispatch.go:92 says that temporary
  store failures leave queued work recoverable. Work that passes all its checks when they can be read is failed
  for good exactly when the read of its workspace row (backend/internal/operation/dispatch_authority.go:26) or of
  authority (backend/internal/operation/dispatch_authority.go:46) fails, since both are reported as denials; a
  failing read of the operation itself leaves it queued. `Coverage.UnsentFailsExactly` has the condition for
  work that does not pass.
- `Witnesses.WorkCanBeStranded`, `Coverage.DisableUncovers` and `Coverage.StrandedShutsGate`: a comment at
  backend/internal/connection/disable.go:60 says that submitted mutations retain their jobs, but disabling
  cancels every queued job of the connection; a submitted operation whose job was queued is then never
  settled again, keeps its reservation, and a closed recovery gate can never be reopened. The witness is a run
  from an empty installation, the condition exact.
- `SyncClosing.ReachableClosesExactly` and `SyncClosing.SyncsCanBeLost`: backend/README.md:352 says that
  interrupted leases remain recoverable, and docs/product.md:64 that a connected account reaches a clearly
  reported sync outcome. A sync can still end exactly if its job can be claimed before its deadline, with attempts
  left, or a worker holds the live lease and can still write a status. Otherwise it stays open for ever, every
  later refresh coalesces with it and nothing is published again. A job claimed in its last minute by a worker
  that dies, and one cancelled with its connection, are such runs from an empty installation.
- `InventoryRuns.NeverOvertaken`: the branch that cancels a scan overtaken by a newer success is never taken.
- `Frontmatter.RoundTripExactly`: the printer accepts text values with U+0085, U+2028 or U+2029 and leaves them
  as they are, but the parser splits lines there, so such a document is written and then refused
  (`Frontmatter.SeparatorIsLost`).

## Model

| member | source | states |
|---|---|---|
| Lifecycle.ChainShape | backend/internal/operation/state.go:16-31 | in any event history no event leads back to queued, and a terminal state is the last |
| Lifecycle.MarkerOnlySecond | backend/internal/operation/state.go:16-31 | the dispatching marker occurs at most once in a history, as its second event |
| Receipts.ReceiptSoundness | backend/internal/operation/receipt.go:17-37 | a receipt is terminal exactly on a definite rejection, waits exactly on an acceptance with a storable reference, and is reconciled otherwise; the reference kept fits its column |
| Receipts.NativeIsOnePart | backend/migrations/000030_snapshot_reviews.sql:9-14 | every simple native reference is also a valid snapshot reference |
| Membership.OwnedForever | backend/internal/workspace/change_member.go:90-98 | from creation on, every run of changes leaves an enabled owner and versions at most the policy version |
| Membership.PolicyStep | backend/internal/workspace/settings.go:47-55 | a change moves the policy version by one or leaves members, grants and settings alone; a refused one changes nothing |
| Membership.PolicyPins | backend/internal/workspace/grants.go:164-173 | an unmoved policy version means that no authority changed at any point between |
| Membership.RowStep | backend/internal/workspace/change_member.go:99-117 | a membership row stays, goes, or takes the new policy version |
| Membership.VersionPins | backend/internal/workspace/change_member.go:99-103 | a row that carries a version the workspace had already reached was not touched since, even across removal and re-adding |
| Membership.ChangeIsFenced | backend/internal/workspace/change_member.go:87-89 | a change naming the version it read succeeds only if the row is untouched since |
| Membership.RedeemIsFenced | backend/internal/workspace/redeem_invitation.go:26-32 | an invitation is redeemed only while its inviter's row is the one that issued it and may still assign the role |
| Membership.RedeemOnce | backend/internal/workspace/redeem_invitation.go:33-39 | a redeemed invitation can never be redeemed again, by anybody, at any time, after any later changes that do not draw the same digest |
| Membership.RejoinsWithoutGrants | backend/internal/workspace/change_member.go:113-114 | whoever is not a member holds no grants, so a member added again starts without any |
| Membership.AdminCannotEscalate | backend/internal/workspace/grants.go:144-156 | an admin raises nobody above operator, never itself, and delegates only grants of its own |
| MembershipEffects.ChangesMember | backend/internal/workspace/change_member.go:67-131 | a change succeeds exactly for an enabled manager who may give the role asked for and the one held, names the row as it is, and leaves an owner; it stores exactly that role at the next version, or takes row and grants away, and touches nobody else |
| MembershipEffects.ChangeRefused | backend/internal/workspace/change_member.go:67-98 | what each refused change says about its arguments and rows |
| MembershipEffects.TransfersOwnership | backend/internal/workspace/transfer.go:15-63 | a transfer succeeds exactly between two enabled members whose versions are named, from an owner; the target becomes an owner, its actor an admin if asked to, nobody else and no grant changes |
| MembershipEffects.TransferRefused | backend/internal/workspace/transfer.go:15-50 | what each refused transfer says |
| MembershipEffects.IssuesInvitation | backend/internal/workspace/invitations.go:28-74 | an invitation is issued exactly by a manager who may give its role, below a hundred pending ones; it is stored as asked for, for a day, and exactly the expired ones go |
| MembershipEffects.IssueRefused | backend/internal/workspace/invitations.go:28-60 | what each refused invitation says |
| MembershipEffects.RedeemsInvitation | backend/internal/workspace/redeem_invitation.go:15-67 | an invitation is redeemed exactly by its subject, in time, while its inviter stands by it under the same row; exactly the invited row is added and the invitation used up |
| MembershipEffects.RedeemRefused | backend/internal/workspace/redeem_invitation.go:15-55 | what each refused redemption says |
| MembershipEffects.SetsGrant | backend/internal/workspace/grants.go:91-181 | a grant is set exactly by a manager, within the ceiling of the member and, for an admin, within its own classes; it replaces exactly that one grant |
| MembershipEffects.GrantRefused | backend/internal/workspace/grants.go:91-160 | what each refused grant says |
| MembershipEffects.ChangesSettings | backend/internal/workspace/settings.go:24-69 | settings are written exactly by an owner who names the current policy version, within the limits; writing what is there leaves the version |
| MembershipEffects.SettingsRefused | backend/internal/workspace/settings.go:24-60 | what each refused change of settings says |
| Workspaces.WorkspaceRows.ChangeMemberRow | backend/internal/workspace/change_member.go:67-131 | the membership change on its rows: new state and outcome of the change function, whose effect MembershipEffects.ChangesMember states; ownership kept |
| Workspaces.WorkspaceRows.CountOwners | backend/internal/workspace/change_member.go:90-94 | the loop counts exactly the enabled owners |
| Workspaces.WorkspaceRows.TransferOwnership | backend/internal/workspace/transfer.go:15-63 | the transfer on its rows, both versions checked under one lock |
| Workspaces.WorkspaceRows.IssueInvitationRow | backend/internal/workspace/invitations.go:28-74 | issuing drops expired invitations, keeps the limit, and records the inviter's version |
| Workspaces.WorkspaceRows.RedeemInvitationRow | backend/internal/workspace/redeem_invitation.go:15-67 | redeeming on its rows, all or nothing |
| Workspaces.WorkspaceRows.SetGrantRow | backend/internal/workspace/grants.go:91-181 | the loop over the classes refuses exactly what the ceiling or the admin's own grants exclude |
| Workspaces.WorkspaceRows.ChangeSettingsRow | backend/internal/workspace/settings.go:24-69 | compare and update of the workspace row, nothing for a write of what is there |
| Tables.PutKeeps | backend/internal/operation/dispatch.go:124-140 | a transaction on one operation keeps keys, reviews, locks and histories of all operations consistent |
| Tables.AdvanceOk | backend/internal/operation/dispatch.go:124-152 | moving an operation keeps its rows right if its job is left active exactly when work remains |
| Consistency.ConfirmSecondKeeps | backend/internal/operation/accept.go:118-184 | an acceptance never shares a key, a review or a locked target with another operation |
| Consistency.StoreObservationKeeps | backend/internal/operation/observe.go:68-114 | storing an observation keeps history, job and lock in agreement, by way of reconciling where it must |
| Consistency.ConclusionAllowed | backend/internal/operation/observe.go:53-67 | an observation never argues for a state its operation cannot reach |
| Consistency.ExpireOneKeeps | backend/internal/operation/expire.go:36-74 | checkpointing an exhausted job keeps the tables consistent |
| Consistency.RecheckKeeps | backend/internal/operation/recheck.go:28-57 | reopening an unknown operation keeps the tables consistent |
| Consistency.DisableKeeps | backend/internal/connection/disable.go:55-64 | disabling a connection keeps the tables consistent, up to the jobs it cancels |
| ProtocolSteps.StepKeeps | backend/internal/operation/dispatch.go:22-89 | every step of every actor keeps the protocol's invariant |
| ProtocolSteps.RunKeeps | backend/internal/job/runner.go:122-160 | so does every run of any length, with workers crashing and losing leases anywhere |
| ProtocolHistory.StepMoves | backend/internal/operation/dispatch.go:124-140 | no step removes an operation, rewrites its identity or history, or moves it without a cause; only a marker leads to dispatching and only an owner's release resolves |
| ProtocolHistory.RunContinues | backend/internal/operation/store.go:20-30 | over any run an operation stays and only appends to its history |
| ProtocolHistory.SettledForever | backend/internal/operation/resolution.go:41-73 | a finished or released operation never changes again, except that its old job may be dropped, and holds no lock |
| ProtocolHistory.StrandedForever | backend/internal/connection/disable.go:60-64 | submitted work whose job was cancelled stays exactly as it is for ever, reservation included |
| Submission.AtMostOnce | backend/internal/operation/dispatch.go:56-88 | over every run an operation gets at most one marker, and is submitted no more often than it was marked |
| Submission.SubmitterMarked | backend/internal/operation/dispatch.go:74-88 | whoever submits committed the marker under its own token, and nothing was sent before |
| Submission.NoneAfterDispatch | backend/internal/operation/recheck.go:14-57 | once past dispatching, whatever is rechecked or released later, nothing is submitted inside a local deadline |
| Submission.LockedWhileHeld | backend/internal/operation/reservation.go:21-68 | an operation has its lock row exactly while it is unsettled, or unknown and not signed off |
| Submission.OneHolder | backend/internal/operation/reservation.go:40-51 | two operations never hold one native target together |
| Submission.SubmissionsApart | backend/internal/operation/reservation.go:21-68 | at a timely submission the operation is dispatching and locked, and every other one on its target has ended or was signed off |
| Submission.OneSubmitterPerTarget | backend/internal/operation/dispatch.go:56-88 | of two operations on one target, the one not submitting is settled and is never submitted later |
| Submission.OutcomesHaveEvidence | backend/internal/operation/observe.go:53-88 | success was observed with native evidence in the run; failure was never submitted, definitely rejected, or observed; cancelled was never submitted; unknown keeps its lock unless signed off |
| Submission.ReservationGivenUp | backend/internal/operation/dispatch.go:136-138 | a lock goes only when its operation ends or an owner releases it |
| Submission.HistoryIsBounded | backend/internal/operation/store.go:20-30 | events are gap-free, chained and allowed, end in the stored state, and are at most 203 for each attempt budget |
| Freshness.StepCounts | backend/internal/connection/rotate.go:63-82 | policy and credential versions only grow, and while both stand still nothing a review depends on changes |
| Freshness.Pinned | backend/internal/operation/dispatch_authority.go:45-61 | equal versions at both ends of a run pin members, grants, settings and credential at every point between |
| Freshness.NothingChangedSinceReview | backend/internal/operation/dispatch_authority.go:45-64 | when a marker commits, nothing authoritative changed since its review was stored, and the gate is open |
| Freshness.NothingChangedWhileReviewing | backend/internal/operation/review.go:188-199 | nothing changed between a review's first read and its storing either |
| Freshness.MarkerChecks | backend/internal/operation/dispatch.go:56-73 | a committed marker had an open gate, an active connection, current versions, a matching fingerprint, and an actor with the granted class |
| Freshness.DispatchNeedsOpenGate | backend/internal/operation/recovery_gate.go:14-26 | every step from queued to dispatching is a marker under a live lease and an open gate |
| Freshness.ReopeningIsSafe | backend/internal/operation/recovery_gate.go:58-69 | the gate reopens only with the current version and with no unresolved submission |
| Freshness.StaleReopenRefused | backend/internal/operation/recovery_gate.go:45-77 | a version inspected before any other change of the gate is refused for ever |
| Freshness.GateExactly | backend/internal/operation/recovery_gate.go:45-77 | closing always succeeds and shuts the gate, reopening succeeds exactly at the current version with no submitted operation left open; either moves the version by one |
| Freshness.NothingDispatchedOnceShut | backend/internal/operation/recovery_gate.go:14-26 | once an operator shuts the gate, no operation goes from queued to dispatching in any run until a step opens it again |
| Freshness.OpensExactly | backend/internal/operation/recovery_gate.go:58-72 | of all steps exactly such a reopening opens a shut gate |
| Acceptance.OnePerKeyAndReview | backend/migrations/000022_operation_intents.sql:52-53 | at most one operation per workspace, actor and key, and per review, in every reachable state |
| Acceptance.ConsumedReviewKept | backend/internal/operation/prune.go:10-20 | a consumed review is never pruned nor handed to another operation |
| Acceptance.ResolveTaken | backend/internal/operation/idempotency.go:32-54 | the lookup under a taken key: that operation if readable and of the same intent, a conflict if readable and of another, nothing otherwise |
| Acceptance.RepeatRecovers | backend/internal/operation/accept.go:74-110 | repeating a request at any later time returns the same operation exactly when the actor can still read it, and is refused otherwise |
| Acceptance.RacersAgree | backend/internal/operation/accept.go:118-128 | a second client past its checks finds the first one's operation and creates nothing |
| Acceptance.TakenKeyCreatesNothing | backend/internal/operation/accept.go:118-184 | a taken key creates nothing, whatever happens in the gap |
| Acceptance.ConsumedReviewCreatesNothing | backend/internal/operation/accept.go:54-59 | a consumed review creates nothing, whatever the key |
| Acceptance.ReusedKeyConflicts | backend/internal/operation/idempotency.go:43-52 | a reused key with another intent is answered by a conflict if and only if the first operation is readable |
| Acceptance.ReusedKeyStoreError | backend/internal/operation/accept.go:126-163 | when it is not readable and everything else is in order, the answer is a store error |
| Witnesses.HiddenKeyIsNoConflict | backend/internal/operation/accept.go:126-163 | a run from an empty installation after which a duplicate key with another intent is answered by a store error |
| Witnesses.WorkCanBeStranded | backend/internal/connection/disable.go:60-64 | a run from an empty installation after which submitted work has no job, and keeps its reservation over every later run |
| Answers.Resolved | backend/internal/operation/idempotency.go:32-54 | the lookup by key goes on exactly if the actor can read no operation of its own under the key, and otherwise answers one of them |
| Answers.FirstAnswers | backend/internal/operation/accept.go:74-110 | a first transaction lets its caller go on exactly for a well-formed, new request that passes every check; otherwise it answers an operation of the actor's own with its present state, or the check that failed |
| Answers.SecondAnswers | backend/internal/operation/accept.go:118-184 | every second transaction answers the operation it created, or creates nothing and answers an existing one of the actor's own with its state, or a refusal that names what stood in the way, failing reads included |
| Answers.BusyExactly | backend/internal/operation/reservation.go:40-51 | the answer is that the target is busy exactly for a request that lacks nothing but a free target |
| Coverage.JobsFollowOperations | backend/internal/operation/observe.go:89-109 | an active job never belongs to a finished or unknown operation, and an unknown one keeps its job row |
| Coverage.UnsettledHaveJobs | backend/internal/operation/receipt.go:59-72 | while no connection is disabled, every unsettled operation has its one active job |
| Coverage.DisableUncovers | backend/internal/connection/disable.go:37-64 | disabling takes a job away exactly when it is queued on that connection, submitted work included |
| Coverage.StrandedShutsGate | backend/internal/operation/recovery_gate.go:58-69 | from then on a closed gate never reopens |
| Coverage.FaultsFailExactly | backend/internal/operation/dispatch.go:91-122 | work whose checks would all pass is failed for good exactly when the read of its workspace row or of authority fails |
| Coverage.UnsentFailsExactly | backend/internal/operation/dispatch_authority.go:23-89 | in general, queued work fails unsent exactly on such a fault, when its actor, versions, connection or switches no longer support it, or when the provider can be read and no longer offers it |
| Coverage.RecheckFindsJob | backend/internal/operation/recheck.go:40-61 | a permitted recheck of a reserved unknown operation finds its job and reopens it for observation with a fresh budget |
| Coverage.ExpireEachSettles | backend/internal/operation/expire.go:36-75 | one call settles exactly the jobs it selected |
| Coverage.Drains | backend/internal/operation/expire.go:14-78 | n exhausted jobs are drained by k calls exactly when 50 k is at least n |
| Coverage.ExpiryOutcome | backend/internal/operation/expire.go:55-69 | unsent work fails and gives up its lock; submitted work becomes unknown and keeps it |
| Leases.ClaimsExactly | backend/internal/job/lease.go:46-57 | a claim succeeds exactly on a job in time, with attempts left, that is queued and due or running under a lease that ran out; it takes one attempt, sets the lease to a minute or the deadline, and touches nothing else |
| Leases.RenewsExactly | backend/internal/job/lease.go:74-85 | a renewal succeeds exactly for the holder of a live lease and moves only its end |
| Effects.PassesExactly | backend/internal/operation/dispatch_authority.go:23-89 | work goes on to dispatch exactly when all of it was read, it is still meant, and the provider still offers what was reviewed |
| Effects.MarksExactly | backend/internal/operation/dispatch.go:50-76 | a marker commits exactly for queued work still meant, under the caller's lease, with the gate open and the fingerprint reviewed; only state and history move |
| Effects.MarkRefused | backend/internal/operation/dispatch.go:56-73 | what each refused marker says |
| Effects.RejectsExactly | backend/internal/operation/dispatch.go:91-122 | work is failed unsent exactly for a definite reason, queued and under the caller's lease: state, event, lock and job in one commit |
| Effects.StoresReceipt | backend/internal/operation/receipt.go:39-77 | an answer is stored exactly while the operation is dispatching under the caller's lease: state and reference by what the answer proves, the job ended or due after the delay |
| Effects.ConcludesExactly | backend/internal/operation/observe.go:53-67 | success and failure need native evidence, waiting a reference, and a failed observation argues for reconciling |
| Effects.StoresObservation | backend/internal/operation/observe.go:68-114 | an observation is stored exactly while the operation is in the submitted state it was made in, by way of reconciling to unknown, the job ended or due after the delay |
| Effects.StoresReview | backend/internal/operation/review.go:152-213 | a review is stored exactly if the provider's answer can be reviewed, authority and versions are those seen before, and fewer than a hundred wait; the stored row says what was shown, for five minutes |
| Effects.ReviewRefused | backend/internal/operation/review.go:152-210 | what each refused review says |
| Effects.ControlAnswers | backend/internal/operation/control.go:17-45 | an operation the actor cannot read is not found, one it can read but not control is denied |
| Effects.Cancels | backend/internal/operation/control.go:68-97 | a cancellation succeeds exactly for an entitled user and a queued operation: state, event, lock and job, and nothing else |
| Effects.Rechecks | backend/internal/operation/recheck.go:15-62 | a recheck reopens exactly a reserved unknown operation with a new five-minute job; asking again while it runs changes nothing |
| Effects.Releases | backend/internal/operation/resolution.go:19-79 | a release takes exactly reservation and job from an unknown, unresolved operation, for an owner who may |
| Effects.ReleaseRefused | backend/internal/operation/resolution.go:19-70 | what each refused release says |
| Effects.Expires | backend/internal/operation/expire.go:36-74 | expiry ends exactly a job out of time or attempts under no live lease: unsent work fails, submitted work becomes unknown by way of reconciling |
| Effects.DropsReviews | backend/internal/operation/prune.go:10-20 | exactly the chosen reviews that expired unused a week ago and that no operation names go |
| Effects.DropsJob | backend/internal/job/prune.go:10-20 | exactly a job that ended a week ago, of an operation that ended, goes |
| Effects.Rotates | backend/internal/connection/rotate.go:30-95 | a rotation succeeds exactly for a manager from the version it read, and moves that connection to the next |
| Effects.Disables | backend/internal/connection/disable.go:37-76 | disabling makes the connection inactive, cancels exactly its queued jobs and moves no operation |
| Fencing.SupersededForever | backend/internal/job/lease.go:30-67 | a claim that lost its lease never gets it back |
| Fencing.SupersededCommitsNothing | backend/internal/operation/dispatch_authority.go:23-43 | none of the fenced transactions ever commits under a superseded claim |
| Fencing.HolderIsAlone | backend/internal/job/lease.go:74-85 | inside its local deadline a holder's job can be neither claimed nor expired, and keeps its lease but for the holder's own commit or a user's cancellation |
| Fencing.LocalDeadlineAnchored | backend/internal/job/lease.go:74-85 | a renewal gives its worker at most a minute, as long as the lease was granted for, counted from before it was asked for |
| Databases.Database.Advance | backend/internal/operation/dispatch.go:124-140 | the operation row, its event and its lock row move together as one history step |
| Databases.Database.FinishJob | backend/internal/operation/dispatch.go:142-152 | the job is handed back only under the live lease |
| Databases.Database.ClaimJob | backend/internal/job/lease.go:46-57 | the claim on its row, whose condition and effect Leases.ClaimsExactly states |
| Databases.Database.RenewLease | backend/internal/job/lease.go:74-85 | the renewal on its row |
| Databases.Database.CommitMarker | backend/internal/operation/dispatch.go:50-76 | the marker transaction on its rows |
| Databases.Database.RejectUnsentWork | backend/internal/operation/dispatch.go:91-122 | failing unsent work on its rows |
| Databases.Database.CommitReceipt | backend/internal/operation/receipt.go:39-77 | storing a receipt on its rows: reference, state, event, lock and job |
| Databases.Database.CommitObservation | backend/internal/operation/observe.go:68-114 | storing an observation on its rows |
| Databases.Database.CancelOperation | backend/internal/operation/control.go:68-97 | cancelling on its rows |
| Databases.Database.RecheckOperation | backend/internal/operation/recheck.go:15-62 | reopening on its rows |
| Databases.Database.ReleaseUnknownOperation | backend/internal/operation/resolution.go:19-79 | the owner's release on its rows: resolution in, lock and job out |
| Databases.Database.StoreActionReview | backend/internal/operation/review.go:152-213 | storing a review if authority is unchanged |
| Databases.Database.ConfirmOperation | backend/internal/operation/accept.go:118-184 | the second transaction of an acceptance on its rows, its answer included, which Answers.SecondAnswers states |
| Databases.Database.Reserve | backend/internal/operation/reservation.go:21-51 | the lock row of a free target |
| Databases.Database.SetRecoveryGate | backend/internal/operation/recovery_gate.go:45-77 | the gate row, shut by every closing and opened exactly as Freshness.GateExactly states |
| Databases.Database.RotateCredential | backend/internal/connection/rotate.go:30-95 | compare-and-set of the credential version |
| Databases.Database.DisableConnection | backend/internal/connection/disable.go:37-76 | disabling on its rows |
| Databases.Database.PruneActionReviews | backend/internal/operation/prune.go:10-20 | only old unconsumed unreferenced reviews go |
| Databases.Database.PruneTerminalJob | backend/internal/job/prune.go:10-20 | only old jobs of ended operations go |
| Databases.Database.Expire | backend/internal/operation/expire.go:14-78 | the first fifty exhausted jobs in order, one transaction each |
| Causes.ControlExactly | backend/internal/operation/control.go:17-45 | control is granted exactly to an enabled member who may read the connection and was granted, within its role, the class its review asked for |
| Causes.ControlsAccounted | backend/internal/operation/control.go:68-97 | of all steps of all actors only a cancel, recheck or release by somebody entitled cancels, reopens or signs off an operation, and only from the state meant for it |
| Causes.CancelExactly | backend/internal/operation/control.go:77-89 | a cancellation succeeds exactly for a queued operation and an entitled user, frees the target and stops the job; otherwise nothing changes |
| Causes.RecheckExactly | backend/internal/operation/recheck.go:28-57 | a recheck succeeds exactly for a reserved unknown operation, keeps the reservation and gives a claimable job with a full budget |
| Causes.ReleaseExactly | backend/internal/operation/resolution.go:19-79 | a release succeeds exactly for an acknowledging owner with the high-impact class who typed the reviewed name; it changes only reservation and job |
| Causes.AcceptsExactly | backend/internal/operation/accept.go:118-184 | an acceptance creates an operation exactly for a current, unused review of the actor's own, an offered resource, a free key and target and a queue below its limit; it adds exactly that queued, locked operation with its due job and uses up the review |
| Causes.CreationAccounted | backend/internal/operation/accept.go:111-184 | of all steps only a client's second transaction creates an operation, after a fresh read that shows what was reviewed, and only from an acceptable request |
| Causes.RemovalAccounted | backend/internal/operation/prune.go:10-20 | a review disappears only a week after it expired unused and while no operation refers to it |
| Causes.ConnectionAccounted | backend/internal/connection/rotate.go:50-82 | credential and activity of a connection are changed only by an enabled admin or owner of its workspace |
| Progress.UndisturbedDispatch | backend/internal/operation/dispatch.go:22-89 | a due queued operation that every check still supports is marked, submitted and its answer stored within one lease |
| Progress.UndisturbedSettlement | backend/internal/operation/observe.go:53-114 | a due submitted operation is moved to exactly what its observation argues for, and frees its target if that ends it |
| Progress.UndisturbedRejection | backend/internal/operation/dispatch.go:91-122 | due queued work that is not meant or not offered any more is failed without a submission by one worker in one lease, and its target freed |
| Progress.CrashedWorkIsSettled | backend/internal/job/lease.go:50-57 | after the holder of a submitted operation crashed and its lease ran out, with time and attempts left, any idle worker takes it over and brings it to exactly what its observation argues for |
| Progress.CrashedWorkIsDispatched | backend/internal/job/runner.go:122-160 | work whose holder crashed before its marker is dispatched by the next worker, and its answer stored |
| Progress.WayToSuccess | backend/internal/operation/dispatch.go:22-89 | from any such state an accepting provider and an observed success end in success with the target free |
| InventoryRuns.PublicIsLastCompleteWalk | backend/internal/inventory/publish.go:54-106 | the public rows are exactly the complete page walk of the highest-numbered run that succeeded, and the published join drops no live row |
| InventoryRuns.NothingBeforeFirstSuccess | backend/internal/inventory/query.go:106 | before any success there is nothing to see |
| InventoryRuns.OneOpenRun | backend/internal/inventory/enqueue.go:76-86 | at most one run is pending or running, and it is the newest |
| InventoryRuns.NeverOvertaken | backend/internal/inventory/publish.go:68-75 | the branch for a newer success is never taken |
| InventoryRuns.PublishesExactly | backend/internal/inventory/publish.go:76-91 | upsert and tombstones together leave exactly the staged rows live |
| InventoryRuns.IdentityStays | backend/internal/inventory/publish.go:76-91 | a resource keeps its identifier through tombstones and reappearance, and its version counts every change |
| InventoryRuns.StepKeeps | backend/internal/inventory/scan.go:137-199 | starts, stages, crashes, lost leases and pruning keep staged rows equal to the pages the holder walked |
| InventoryEffects.Admits | backend/internal/inventory/enqueue.go:76-115 | a refresh joins the sync that has not ended; otherwise, below the queue limit, it admits one with the next number and a job for half an hour |
| InventoryEffects.ClaimsRun | backend/internal/job/lease.go:46-57 | a sync's job is taken exactly when due or abandoned, in time and with attempts left |
| InventoryEffects.RenewsRun | backend/internal/job/lease.go:74-85 | and its lease extended exactly for its holder |
| InventoryEffects.StartsScan | backend/internal/inventory/scan.go:137-164 | an attempt starts exactly for a permitted actor and a live lease; it drops what the run had staged, takes a fresh generation on a restart and binds the present credential |
| InventoryEffects.StagesPage | backend/internal/inventory/scan.go:166-199 | a page is staged exactly if permitted, under the lease, with every row timed and no identity repeated; all its rows are added and nothing else |
| InventoryEffects.Completes | backend/internal/inventory/publish.go:30-107 | a completion under the lease records the failure given to it, or publishes exactly a complete scan whose actor and credential are still good |
| InventoryEffects.DeniedPublishesNothing | backend/internal/inventory/publish.go:54-66 | a scan whose actor is no longer allowed publishes nothing |
| InventoryEffects.PrunesStaging | backend/internal/inventory/prune.go:12-23 | exactly the chosen staged rows of runs that ended go |
| InventoryEffects.PrunesJobs | backend/internal/job/prune.go:10-20 | exactly the chosen jobs that ended a week ago go |
| SyncClosing.ClosesExactly | backend/internal/job/lease.go:50-57 | an open sync can still reach a terminal status if and only if its job can be claimed before its deadline or somebody holding the live lease can write one |
| SyncClosing.ReachableClosesExactly | backend/internal/inventory/publish.go:44-66 | the same in every state reachable from an empty installation |
| SyncClosing.StuckForever | backend/internal/inventory/enqueue.go:76-86 | otherwise no run of steps ends it, every refresh coalesces with it, and the public rows never change |
| SyncClosing.SyncsCanBeLost | backend/internal/job/lease.go:50-57 | two runs from an empty installation after which a sync is lost for good |
| ScanOrigins.PublishedWalkWasRead | backend/internal/inventory/scan.go:43-79 | every page of the published walk was read in the run with its cursor, by one worker under one lease |
| InventoryRows.FeedRows.Enqueue | backend/internal/inventory/enqueue.go:76-115 | admission on its rows |
| InventoryRows.FeedRows.Begin | backend/internal/inventory/scan.go:137-164 | the start of an attempt on its rows |
| InventoryRows.FeedRows.Stage | backend/internal/inventory/scan.go:166-199 | the loop over a page's rows stages all or none |
| InventoryRows.FeedRows.Publish | backend/internal/inventory/publish.go:30-107 | publication on its rows |
| InventoryRows.FeedRows.Scan | backend/internal/inventory/scan.go:43-79 | a scan that reports no failure has staged exactly the pages of one complete walk, and one that may start ends with the acceptable walk that the answers hold, if they hold one |
| InventoryRows.RefusalIsFits | backend/internal/inventory/scan.go:55-67 | the loop's running totals decide exactly the limits of the whole walk |
| InventoryEffects.WithinLimits | backend/internal/inventory/scan.go:43-79 | a walk whose pages all fit has at most 10000 rows and 32 MiB, pages of at most 200 rows and 8 MiB, and no cursor twice |
| Listing.Query | backend/internal/inventory/query.go:73-144 | one page: the first rows after the cursor, a next cursor exactly if there are more, and a foreign cursor refused |
| Listing.WalkIsComplete | backend/internal/inventory/query.go:104-143 | a whole listing repeats no row, is in order, and misses none that was visible throughout |
| Listing.StillWalkIsExact | backend/internal/inventory/query.go:104-143 | over unchanged rows a whole listing is exactly the visible ones |
| Budgets.Left | backend/internal/platform/outbound/budget.go:109-122 | a leaving caller is counted out once on its own connection and scope, and nowhere else |
| Budgets.GrantedNow | backend/internal/platform/outbound/budget.go:104-106 | a grant moves one waiting caller to the holders and changes no other count |
| Budgets.Budget.Enter | backend/internal/platform/outbound/budget.go:59-89 | admission exactly when the scope is proper and both maps have an entry or room once expired cooldowns are gone; entries made or shared, callers anchored to them |
| Budgets.Budget.Attempt | backend/internal/platform/outbound/budget.go:90-138 | a slot is granted exactly when one is free and no postponement of the scope still runs |
| Budgets.Budget.Release | backend/internal/platform/outbound/budget.go:107-123 | releasing counts once, a second call does nothing, and the scope's entry goes exactly if nobody uses it and no postponement runs |
| Budgets.Budget.Postpone | backend/internal/platform/outbound/budget.go:141-154 | a postponement bars the scope until exactly its end if it has an entry, which it has while any call uses it, and is never shortened |
| Budgets.Budget.KeptExactly | backend/internal/platform/outbound/budget.go:65-69 | a clearing keeps exactly the scopes that some call uses and those whose postponement still runs |
| Budgets.Budget.UsedExactly | backend/internal/platform/outbound/budget.go:118-120 | exactly the connections that some call uses have an entry |
| Outbound.RequestJson | backend/internal/platform/outbound/response.go:25-78 | one sending for a mutation, at most five for a read, going on exactly after no response, an unreadable body that is no denial, a 429 or a 5xx; delivered exactly on a 2xx with an intact, fitting body, and every other answer has its own failure |
| Outbound.OneKind | backend/internal/platform/outbound/response.go:37-65 | every exchange is of exactly one kind: good, a denial, invalid, refused or transient, a throttled one among the last |
| Outbound.DeliversExactly | backend/internal/platform/outbound/response.go:31-76 | a request is delivered exactly if within its attempts some answer is good and every earlier one may be retried, without expiry or a cut wait |
| Outbound.PostMutation | backend/internal/provider/power.go:44-77 | sent exactly once; rejected exactly on a status that proves no effect; never accepted |
| Outbound.DeleteSnapshot | backend/internal/provider/snapshot_http.go:11-41 | sent exactly once; accepted exactly on an intact 204 |
| Pager.CursorRoundTrip | backend/internal/provider/contabo/snapshot.go:76-99 | every emitted cursor is read back to exactly the same position |
| Pager.CursorCanonical | backend/internal/provider/contabo/snapshot.go:77-99 | no other text is accepted for a position |
| Pager.EmittedInRange | backend/internal/provider/contabo/snapshot.go:139-174 | every emitted position is within the accepted ranges, one step on |
| Pager.WalkIsComplete | backend/internal/provider/contabo/snapshot.go:75-175 | a walk returns all snapshot pages of all instances in order, each once, exactly if every page is acceptable and there are at most a hundred; otherwise it fails |
| Pager.CollectInstances | backend/internal/provider/contabo/inventory.go:72-84 | the loop accepts exactly valid rows of one account |
| Pager.CollectSnapshots | backend/internal/provider/contabo/snapshot.go:130-138 | the loop accepts exactly valid rows of the instance, each once |
| Pager.AcceptsInstances | backend/internal/provider/contabo/inventory.go:41-107 | an instance page is accepted exactly if it is the page asked for, whole, of one account, within the limits, and links on exactly while the provider counts more |
| Pager.AcceptsSnapshots | backend/internal/provider/contabo/snapshot.go:119-160 | a snapshot page likewise, its rows of the instance and each once |
| Dns.ZoneNameIdempotent | backend/internal/provider/netcup/dns.go:42-53 | a zone name is its own normal form |
| Dns.RecordNameIdempotent | backend/internal/provider/netcup/dns.go:55-80 | an accepted owner name is absolute, lies in its zone and is its own normal form |
| Dns.GroupKeyInjective | backend/internal/provider/netcup/cloud_records.go:102-103 | the printed group key tells names and types apart |
| Dns.Group | backend/internal/provider/netcup/cloud_records.go:88-122 | the grouping loop refuses exactly the records that do not group, whatever their order |
| Dns.Decode | backend/internal/provider/netcup/legacy.go:229-253 | a zone is refused exactly when its records are not acceptable, and otherwise yields their canonical sets |
| Dns.CanonicalUnique | backend/internal/provider/netcup/dns.go:88-125 | the same records in any order have one canonical form |
| Dns.DecodeTwice | backend/internal/provider/netcup/dns.go:88-125 | two readings of the same records in different orders agree, acceptance included |
| Dns.ValuesConserved | backend/internal/provider/netcup/cloud_records.go:101-122 | grouping loses, adds and moves no value |
| DnsNames.CaseIgnored | backend/internal/provider/netcup/dns.go:42-80 | letter case makes no difference to a zone or an owner |
| DnsNames.FinalDotIgnored | backend/internal/provider/netcup/dns.go:42-53 | nor does a zone's final dot |
| DnsNames.OwnerExactly | backend/internal/provider/netcup/dns.go:55-80 | an owner is the zone for the at sign, a name at or below the zone as it stands, and otherwise a name below it unless its final dot says that it is absolute |
| DnsNames.RelativeIsAbsolute | backend/internal/provider/netcup/dns.go:55-80 | a relative name and the absolute one it abbreviates are the same owner |
| Ordering.SortIsSorted | backend/internal/provider/netcup/dns.go:99-111 | sorting orders and keeps the elements |
| Ordering.SortedUnique | backend/internal/provider/netcup/dns.go:99-111 | a sorted sequence is determined by its elements |
| Envelopes.EncryptDecrypt | backend/internal/platform/credentials/envelope.go:81-115 | whatever encryption accepts passes decryption's size limits and comes back |
| Envelopes.EncryptsExactly | backend/internal/platform/credentials/envelope.go:81-101 | encryption accepts exactly a fitting binding, a payload within its limit, a proper key name and keys of the right size, and seals exactly that payload under that data key |
| Envelopes.DecryptedWasSealed | backend/internal/platform/credentials/envelope.go:103-115 | whatever is decrypted was sealed for this binding, under a data key that the named master key wraps, and all of it is |
| Envelopes.DecryptExactly | backend/internal/platform/credentials/envelope.go:103-115 | decryption answers the payload under the one binding and key, and fails otherwise |
| Envelopes.RewrapExactly | backend/internal/platform/credentials/rewrap.go:5-26 | a rewrap succeeds exactly with the ring, binding and key of the envelope, and changes only the wrapping |
| Envelopes.RewrapsPreserve | backend/internal/platform/credentials/rewrap.go:5-26 | after any sequence of rewraps the current key gives the original payload under the original binding, any other fails, and ciphertext and nonce are untouched |
| Envelopes.BatchKeepsSecrets | backend/internal/connection/rewrap.go:52-62 | every row holds after a batch what it held before |
| Envelopes.RewrapsDrain | backend/internal/connection/rewrap.go:17-67 | n references are gone after the ceiling of n / limit batches, and not before |
| Envelopes.Versions.RewrapBatch | backend/internal/connection/rewrap.go:17-67 | one batch rewraps the first rows in order or changes nothing, failing exactly when one of them does not open |
| Batches.First | backend/internal/connection/rewrap.go:26-29 | the loop selects the first elements in order |
| Frontmatter.RoundTripExactly | scripts/agent_collaboration/upstream.py:230-266 | printed values and a body are read back, leading newlines dropped, exactly if no text value has a line boundary that quoting leaves alone; otherwise the document is refused |
| Frontmatter.ReprintExactly | scripts/agent_collaboration/upstream.py:230-266 | whatever was parsed prints and parses again under the same condition |
| Frontmatter.Parse | scripts/agent_collaboration/upstream.py:230-251 | the loops that find the closing marker and gather the values |
| Frontmatter.UnquoteEscaped | scripts/agent_collaboration/upstream.py:254-259 | a quoted text is read back exactly |
| Frontmatter.UnquotePart | scripts/agent_collaboration/upstream.py:213-218 | any beginning of it without the closing quote is refused |
| Frontmatter.BadLineRefuses | scripts/agent_collaboration/upstream.py:234-247 | a bad line before the closing marker refuses the document, wherever that marker is found |
| Frontmatter.KeysEnumerate | scripts/agent_collaboration/upstream.py:262-265 | every key is printed exactly once |
| FrontmatterReads.ReadsDocument | scripts/agent_collaboration/upstream.py:230-251 | a text is read as a document exactly if its lines stand between two markers as a proper set of entries and the rest is the body |
| FrontmatterReads.CutsExactly | scripts/agent_collaboration/upstream.py:231-231 | a text has exactly one cut into lines, after each boundary, a carriage return and its line feed together |
| FrontmatterReads.StripsExactly | scripts/agent_collaboration/upstream.py:211-212 | stripping takes exactly the white space around a text |
| FrontmatterReads.UnquotesExactly | scripts/agent_collaboration/upstream.py:213-218 | a quoted value stands for a text exactly if it spells it character by character before its closing quote |
| FrontmatterReads.ReadsScalar | scripts/agent_collaboration/upstream.py:211-227 | a value is read as exactly what its stripped text stands for: a quoted text, a flag, a number or itself |
| FrontmatterReads.ReadsLine | scripts/agent_collaboration/upstream.py:238-250 | a line is ignored, assigns a value to a key at its first colon, or is bad |
| FrontmatterReads.GathersExactly | scripts/agent_collaboration/upstream.py:237-250 | lines are gathered exactly if none is bad and no key comes twice, and give exactly what they assign |
| FrontmatterReads.KeysInOrder | scripts/agent_collaboration/upstream.py:262-265 | keys are printed known ones first, in their fixed order, and then the others, sorted |
| FrontmatterReads.DropsNewlines | scripts/agent_collaboration/upstream.py:266-266 | exactly the newlines a body begins with are dropped |
| Ledger.Validate | scripts/collab.py:174-186 | the validating loop accepts exactly the ledgers whose events each pass their own check and stand in order: new identifier, next number of the conversation, corrections of earlier events |
| Ledger.NumberedOneByOne | scripts/collab.py:184-186 | in an ordered ledger each conversation reads 1, 2, and so on, so its greatest number is its size |
| Ledger.NewKeeps | scripts/collab.py:276-299 | a new event gets the next number and leaves a valid ledger valid, its written companions parsing back to their metadata |
| Ledger.NewExactly | scripts/collab.py:268-290 | an event is added exactly to a valid ledger with room, in a canonical conversation, correcting only what is final; it is a draft with the number after its conversation's size |
| Ledger.NewCompanions | scripts/collab.py:292-299 | each companion of a new event reads back as its metadata and its body |
| Ledger.FinalizeExactly | scripts/collab.py:308-325 | finalizing a draft of a ledger that passes the first check fails exactly if the clock went back |
| Ledger.FinalizesExactly | scripts/collab.py:308-325 | finalizing succeeds exactly for a draft of the second format in a ledger complete enough, the clock gone on, and seals exactly that event with its files |
| Ledger.RunOrders | scripts/collab.py:268-325 | over every run, whatever others write into the files, order and numbering hold, corrections are of final events, and final events keep identity and seal |
| Ledger.ConversationsNumbered | scripts/collab.py:281-281 | from an empty ledger on, every conversation carries exactly the numbers 1 to its size |
| Ledger.SealedFilesUnchanged | scripts/collab.py:236-237 | whenever a later ledger validates, a final event has the very files it was sealed with |

## Left out

- PostgreSQL itself: isolation levels, skipped locks, query plans, pool limits, connection failures in the middle of a transaction.
- HTTP routing, OIDC and sessions, static files, configuration, the migration runner and the frontend.
- The sessions that an elevation of privilege invalidates, and audit rows.
- `operation.Transition` and `inventory.Upsert`, which nothing calls.
- Provider adapters beyond the pager and the DNS readers: their requests and JSON decoding are arguments here.
- Cryptography and hashing: the cipher is ideal, digests are injective, the loading of a keyring file is not modelled.
- Deadlock freedom of the budget, its wake-up channel, and the reuse of a slot by nested calls: the model has the critical sections, and waiting is taking another turn.
- That a sync eventually ends: it need not (see above).
- The queue limit as an invariant: it is checked on admission only, and a recheck or a lower setting may exceed it.
- The rest of the agent collaboration scripts: secret scanning, paths, links and locks, section extraction, handoffs.
- Frontmatter.Parse: an unquoted value of decimal digits outside ASCII is a number to the source and a text here, a quoted value with half a surrogate pair is refused here, and integers of more than 4300 digits and values of other types are not modelled.
- FrontmatterReads.ReadsScalar: has the same limits as Frontmatter.Parse.
- Ledger.Validate: leaves out the checks of topics, agents, roles, evidence and file names, and the digest of an event's own metadata.
- Deleting a resource's row, billing of audit retention, and the workspace overview queries.
- Dns.RecordNameIdempotent: lower-casing is modelled for the characters that can end up in a label; every other character is refused after it.
- Submission.SubmissionsApart: speaks of submissions inside the worker's local deadline; a call that outlives its cancelled context is the provider's client's affair.
- InventoryRows.FeedRows.Scan: runs with nothing in between and a fixed clock; interleavings are in InventoryRuns.
- Budgets.Budget.Enter: connection identifiers are taken to be of the version the allocator asks for.
- Databases.Database.Expire: runs its transactions with nothing in between; interleavings are in Protocol.
