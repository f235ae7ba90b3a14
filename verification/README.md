# Apophis TeamSeatWatch: verified models

This project models the decision and concurrency core of TeamSeatWatch in Dafny 4.11 and
proves properties of it. TeamSeatWatch rotates a paid workspace seat: one irreversible
DELETE empties it, two irreversible POSTs refill it, and two one-shot credential actions
follow, all under leases that expire, handlers that crash, replies that are lost and owners
who stop or revoke midway. `dafny verify dfyconfig.toml` checks everything.

The durable protocols come in layers:

- **Tables.** `removal_tables`, `join_journal` and `join_credentials` hold the rows and the short
  SQL transactions. Each transaction is a function on row values (`ClaimTx`, `ReserveTx`, …) and a
  method of a class that changes the rows branch by branch and is proved equal to that function.
- **Runs.** `removal_run`, `join_dispatch` and `join_save` are the request handlers: imperative
  code over those classes, with a record saying what the outside world answers at each point.
- **Interleavings.** `removal_protocol`, `join_protocol` and `join_credentials_protocol` are
  transition systems over the same transactions. An event is one atomic step of some handler, a
  clock tick, a lost session, or a stop or revoke; an event that is not enabled changes nothing, so
  a run is any sequence of events. Sends are appended to a log. Theorems are inductive invariants
  over all runs, with any number of handlers. `join_fence` puts the workspace lock, lost sessions,
  stops and revokes around `join_protocol`.
- **Refinements.** `removal_refinement`, `join_refinement`, `join_credentials_refinement` and
  `egress_refinement` prove that each handler, whatever the world answers, does what some sequence of
  protocol events does: same rows, same sends, same leases. So the theorems over all runs hold of the
  handlers as they are written.

The other files are the kernels around them: the frozen-roster check (`removal_roster`), the
preview and assignment decisions (`rotation_plan`, `rotation_plan_laws`), the paginated reader
(`roster_paging`), roster evidence (`join_membership`), the egress lease pool (`egress`,
`egress_protocol`), sealed secrets and their migration (`mother_secret`), the destination
test/select race (`destination`), and the duplicate-name JSON validators (`name_folding`,
`name_validator`).

Conventions: a request id, lease token or owner token is a fresh uuid per handler, so the
handler's number stands for it. Times are integers in seconds. Admissions, authority functions
and fact joins that a step reads but does not change are one boolean or one record per step. The
lower-casing and trimming of identifiers is an arbitrary function `canon`, `lower` or `fold`. Join
and credential tables are those of one slot, because every statement names the slot.

## Where the code and its promises differ

- *Stop and revoke advance the fence.* `docs/product/ticket11-confirmed-removal.md` says that stop
  and revoke advance the lease epoch and clear leases. The UPDATE in both handlers excludes slots
  already in state `stopped`, and an observation-only claim puts a slot in that state while it holds a
  lease. So a stop of an authorization that has expired leaves such a slot's epoch and live lease as
  they are. `EpochAdvancesExactly` states exactly when an epoch moves, `StopKeepsObserverLease` is a
  concrete run, and `OnlyObserversOutliveHalt` shows that such a lease can neither send nor discharge.
- *No DELETE after a stop or revoke.* This rests on the database session that carries the
  workspace lock: the runner's between probe and send, and the halting handler's between lock and
  commit, where no later statement notices its loss. `NoDeleteAfterHalt` proves for every late DELETE
  of every run that one of these two sessions was lost: its own sender's, or that of a halt of its own
  authorization. Losses of other handlers, authorizations and workspaces do not matter.
  `GapIsAlwaysOpen` and `HaltGapIsAlwaysOpen` show that from every state with a probed handler, or with
  a gated halt and a handler about to retake the lock, such a loss does end in a late DELETE;
  `HandlerGap` and `HaltGap` are runs that reach such states. The join POSTs have the same fence with
  the same two gaps: `JoinFence.NoPostAfterHalt`, `SenderGapIsOpen` and `HaltGapIsOpen`.

One guard is worth naming, although the code keeps it: `excludeLocked` drops the first match only.
`BarredIffSingle` gives the exact condition for that to bar an exit (no second route shares it),
`Egress.Router.Admit` guarantees the condition, and `DuplicateExitReturns` shows why it matters.

## Model

| member | source | states |
|---|---|---|
| RemovalTables.RemovalTables.Claim | internal/runtime/rotation_removal.go:512-583 | a claim succeeds exactly under live authority (or observing), with no live lease on the slot or a sibling of the workspace; it fences by epoch + 1; a refusal names the first cause in the order the code looks |
| RemovalTables.RemovalTables.RequireLease | internal/runtime/rotation_removal.go:697-715 | accepts exactly the current owner, token and epoch, unexpired, unstopped or observing; a refusal names its first cause |
| RemovalTables.RemovalTables.Reserve | internal/runtime/rotation_removal.go:716-738 | the request id is written once, with the obligation, before anything is sent |
| RemovalTables.RemovalTables.Receipt | internal/runtime/rotation_removal.go:739-754 | a receipt moves the state only; the obligation stays |
| RemovalTables.RemovalTables.FinishFailure | internal/runtime/rotation_removal.go:755-763 | a failure frees exactly this lease and keeps request and obligation |
| RemovalTables.RemovalTables.CommitEvidence | internal/runtime/rotation_removal.go:764-797 | evidence is appended with the verdict; only an authorized absence discharges |
| RemovalTables.RemovalTables.Halt | internal/runtime/expiry_rotation.go:1139-1145 | stop and revoke mark exactly this authorization, a revoke as revoked, too, and fence every slot not already stopped, and no other |
| RemovalTables.ClaimNeedsFreeWorkspace | internal/runtime/rotation_removal.go:512-563 | a claim needs facts, an authorization that is neither stopped, revoked, drifted nor expired unless it observes, and no unexpired lease in its workspace |
| RemovalTables.EveryWriteIsFenced | internal/runtime/rotation_removal.go:697-797 | every write behind a claim finds its own unexpired lease in the row and, but for the failure note, an authorization that stands unless it observes |
| RemovalProtocol.DispatchIsNew | internal/runtime/rotation_removal.go:901-911 | a dispatch is the first of its slot and carries the committed request of its sender |
| RemovalProtocol.TransactRows | internal/runtime/rotation_removal.go:697-797 | an action of a handler touches one slot, never clears a request, never lowers an epoch, and gives a lease only under a higher one |
| RemovalSafety.StepPreserves | internal/runtime/rotation_removal.go:804-954 | every event of every handler, stop, revoke, tick and session loss keeps the invariants |
| RemovalSafety.AtMostOneDelete | internal/runtime/rotation_removal.go:881-911 | in every run at most one DELETE per slot, carrying a committed request id that is still in the row |
| RemovalSafety.DeleteFollowsPresence | internal/runtime/rotation_removal.go:866-901 | in every run a DELETE leaves only after its own sender read a complete roster that still showed the target |
| RemovalSafety.EvidenceWasRead | internal/runtime/rotation_removal.go:866-949 | in every run evidence says, absent or present, what a handler of that slot read |
| RemovalSafety.NoDeleteAfterHalt | internal/runtime/rotation_removal.go:457-500 | for every DELETE after a committed stop or revoke of its authorization, its own sender's session died behind the probe, or a halt of that very authorization committed after its own session had died |
| RemovalSafety.HistoryIsKept | internal/runtime/rotation_removal.go:716-797 | over any continuation: requests are kept, epochs and attempts never fall, stopped stays stopped, evidence and sends only grow |
| RemovalSafety.ObligationsHold | internal/runtime/rotation_removal.go:716-797 | an obligation has a request; a request without obligation has the target's absence as latest evidence |
| RemovalSafety.DischargedOnlyByAbsence | internal/runtime/rotation_removal.go:764-797 | exactly one kind of step discharges: the lease holder commits an authorized absence |
| RemovalSafety.StaleHandlerIsHarmless | internal/runtime/rotation_removal.go:697-715 | a superseded or expired handler changes no row |
| RemovalSafety.StaleHandlerStaysHarmless | internal/runtime/rotation_removal.go:697-715 | once a claimed handler has lost its lease, it never regains it and changes no row, in any continuation |
| RemovalSafety.OneLeasePerWorkspace | internal/runtime/rotation_removal.go:553-563 | no two slots of one workspace are leased at once, in any run |
| RemovalSafety.EpochAdvancesExactly | internal/runtime/rotation_removal.go:483-488 | the epoch moves by one at a claim and at a halt of a slot not yet stopped, and at nothing else; the attempts count the claims |
| RemovalSafety.OnlyObserversOutliveHalt | internal/runtime/expiry_rotation.go:1139-1145 | after a halt every slot is stopped and any remaining lease belongs to an observer |
| RemovalLimits.HandlerGap | internal/runtime/rotation_removal.go:905-911 | a run in which the sender's session dies after its probe and the DELETE follows a stop |
| RemovalLimits.HaltGap | internal/runtime/rotation_removal.go:467-495 | a run in which the stopping session dies before its commit and the DELETE follows it |
| RemovalLimits.GapIsAlwaysOpen | internal/runtime/rotation_removal.go:905-911 | from every state with a probed handler a session loss lets a stop commit before the send |
| RemovalLimits.HaltGapIsAlwaysOpen | internal/runtime/rotation_removal.go:467-495 | from every state with a gated halt and a handler that may still reserve, a loss of the halt's session lets the DELETE follow its commit |
| RemovalLimits.StopKeepsObserverLease | internal/runtime/rotation_removal.go:483-488 | a run in which a stop leaves an observer's epoch and live lease untouched |
| RemovalRun.Gate.Lock | internal/runtime/rotation_removal.go:112-121 | a handler that locked holds the database lock as long as its session lives |
| RemovalRun.Gate.Unlock | internal/runtime/rotation_removal.go:122-135 | unlocking succeeds exactly on a live session or an unlocked gate, and gives the lock up |
| RemovalRun.ReserveAndProbe | internal/runtime/rotation_removal.go:897-910 | goes on to send exactly when the lock is retaken, the reservation commits and the session survives the probe; a lost session leaves the reservation failed |
| RemovalRun.Run | internal/runtime/rotation_removal.go:804-954 | one handler sends exactly when it may claim an unrequested slot, every read agrees, its lease and authorization outlast the reads and its session survives: one DELETE, with the committed request, under the held gate. Evidence is added exactly when a roster was read and lease and authorization still stood, after the DELETE on the send route, before on the other, and is absent exactly when that roster was; each end state of the row has its exact condition; only its own slot changes; the gate is closed |
| RemovalRun.OutcomeTells | internal/runtime/rotation_removal.go:804-954 | the composition of the transactions of a run leaves exactly the rows and evidence that follow from the old rows, the clock and what the world shows |
| RemovalRefinement.RunIsProtocolRun | internal/runtime/rotation_removal.go:804-954 | every run of the handler is a sequence of protocol events that leaves the very same rows, sends the very same DELETE and gives the lock back |
| RemovalRefinement.HandlerJoinsAnyRun | internal/runtime/rotation_removal.go:804-954 | behind any run of handlers, stops and revokes the handler goes on as part of that run; its DELETE is the only one of its slot before and after, under an authorization neither stopped nor revoked |
| RemovalRoster.LoadExpected | internal/runtime/rotation_removal.go:640-662 | the frozen roster is indexed by id exactly when ids are non-empty and unique |
| RemovalRoster.WalkMembers | internal/runtime/rotation_removal.go:663-694 | the walk accepts exactly the rosters that match the frozen one, and says whether the target is absent; a refusal names the first entry that stops it and why, or that entries are missing |
| RemovalRoster.CheckSnapshot | internal/runtime/rotation_removal.go:604-695 | incomplete exactly when stale or partial; otherwise accepted exactly when the live roster authorizes, and else refused with the cause of the first entry that stops the walk |
| RemovalRoster.LiveIsFrozen | internal/runtime/rotation_removal.go:663-694 | acceptance means live facts equal frozen facts minus at most the target, as sets and in number |
| RemovalRoster.FactsAreDistinct | internal/runtime/rotation_removal.go:663-675 | members with disjoint identities have distinct facts |
| RemovalRoster.ObserveSnapshot | internal/runtime/rotation_removal.go:609-639 | the observing branch accepts exactly the rosters without identity conflict |
| RemovalRoster.AuthorizingIsObserving | internal/runtime/rotation_removal.go:604-695 | where the strict branch accepts, the observing one accepts with the same answer |
| JoinJournal.JoinExecution.Claim | internal/runtime/rotation_join_execution.go:60-112 | a claim after any marker only reconciles, with the next attempt number in the journal; busy exactly while leased, stale exactly without a session |
| JoinJournal.JoinExecution.Mark | internal/runtime/rotation_join_execution.go:149-172 | the may-have-reached marker is durable and only from the stage's own state, under the live lease |
| JoinJournal.JoinExecution.FindOpenStart | internal/runtime/rotation_join_execution.go:190-198 | finds the start of this lease and stage that nothing closed, or there is none |
| JoinJournal.JoinExecution.Finish | internal/runtime/rotation_join_execution.go:177-217 | closes the open start; only a successful request keeps the lease and opens the accept |
| JoinJournal.JoinExecution.Record | internal/runtime/rotation_join_membership.go:212-291 | evidence closes the open reconciliation once, with the given digest under the attempt of that reconciliation; a replay with the same digest only observes |
| JoinProtocol.AtMostOnePostPerStage | internal/runtime/rotation_join_dispatch.go:259-359 | in every run at most one request POST and one accept POST |
| JoinProtocol.PostFollowsMarker | internal/runtime/rotation_join_dispatch.go:309-346 | each POST follows its marker under the sender's epoch, and an accept the success of the request of that epoch |
| JoinProtocol.PostFollowsRecheck | internal/runtime/rotation_join_dispatch.go:328-346 | in every run each POST follows a final recheck of its sender that found its unexpired lease and the stage it had marked |
| JoinProtocol.JournalIsWellFormed | internal/runtime/rotation_join_execution.go:77-107 | starts are numbered 1..n, each finish closes exactly one start, and counters and flags are what the journal says |
| JoinProtocol.AttemptsAreCounted | internal/runtime/rotation_join_execution.go:95-107 | the next attempt number, found as a maximum, is the number of starts |
| JoinProtocol.EvidenceIsUnique | internal/runtime/rotation_join_membership.go:212-291 | in every run each membership evidence answers and closes its own reconciliation: no attempt and no lease epoch has two |
| JoinProtocol.HistoryIsKept | internal/runtime/rotation_join_execution.go:60-217 | flags, counters and epoch never fall, the journal only grows, reconcile_required is never left |
| JoinFence.NoPostAfterHalt | internal/runtime/rotation_join_dispatch.go:259-346 | for every join POST after a committed stop or revoke, its own sender's session died behind the final recheck, or the halt committed after its own session had died |
| JoinFence.NothingIsMarkedAfterHalt | internal/runtime/rotation_join_dispatch.go:309-327 | behind a committed stop or revoke no stage is marked, in any continuation |
| JoinFence.SenderGapIsOpen | internal/runtime/rotation_join_dispatch.go:328-346 | from every state with a dispatcher behind its final recheck a session loss lets a halt commit before the POST |
| JoinFence.HaltGapIsOpen | internal/runtime/rotation_removal.go:467-495 | from every state with a gated halt and a waiting dispatcher that may mark, a loss of the halt's session lets the POST follow its commit |
| JoinFence.FencedRunsAreJoinRuns | internal/runtime/rotation_join_dispatch.go:259-359 | every run behind the lock is a run of the join protocol, so its results hold there too |
| JoinDispatch.AdmitAndMark | internal/runtime/rotation_join_dispatch.go:260-327 | a stage is marked exactly when its admission and identity stand, twice, are the pinned ones, and the row is in the stage's state under a lease that outlasted the checks |
| JoinDispatch.SendAndFinish | internal/runtime/rotation_join_dispatch.go:331-357 | a POST leaves exactly under the live lease and the final recheck; the row then changes by its finish exactly when an open start can be closed, and otherwise not at all |
| JoinDispatch.Dispatch | internal/runtime/rotation_join_dispatch.go:257-360 | the request leaves exactly when all its checks pass, carrying the admission and identity of the first pass, and the accept, carrying the same, exactly when moreover the request succeeded, was closed in time and the lease outlasted the accept's checks; each end has its exact condition; the journal records each outcome that could be closed; a refusal leaves no stage half done, every other end is marked |
| JoinRefinement.RunIsProtocolRun | internal/runtime/rotation_join_dispatch.go:257-360 | every run of a worker, from its claim to its last POST or its evidence, is a sequence of protocol events with the very same row, journal, evidence and POSTs |
| JoinRefinement.WorkerJoinsAnyRun | internal/runtime/rotation_join_dispatch.go:257-360 | behind any run of dispatchers and reconcilers a worker goes on as part of that run; a stage it sends was never sent before and never is again |
| JoinMembership.Classify | internal/runtime/rotation_join_membership.go:25-86 | unknown, absent and confirmed each exactly when the roster says so |
| JoinMembership.VerdictIgnoresOrder | internal/runtime/rotation_join_membership.go:35-86 | the verdict does not depend on the order of the roster |
| JoinCredentials.CredentialTables.Claim | internal/runtime/rotation_join_credentials_store.go:35-66 | the first save opens the one attempt on confirmed evidence, later ones must be repairs; busy while leased |
| JoinCredentials.CredentialTables.AppendStarted | internal/runtime/rotation_join_credentials_store.go:85-89 | a start is recorded exactly under the current lease |
| JoinCredentials.CredentialTables.AppendComponent | internal/runtime/rotation_join_credentials_store.go:90-104 | a component is stored exactly under the current lease |
| JoinCredentials.CredentialTables.Publish | internal/runtime/rotation_join_credentials_store.go:128-154 | publishes exactly when both stored components validate, with the earlier expiry |
| JoinCredentialsProtocol.EachActionAtMostOnce | internal/runtime/rotation_join_credentials.go:227-317 | over one save and any repairs each remote action runs at most once, oauth only behind a stored web component |
| JoinCredentialsProtocol.NothingBeforeConfirmation | internal/runtime/rotation_join_credentials_store.go:35-66 | in every run a claim on confirmed membership evidence lies before the first start, action, checkpoint and generation |
| JoinCredentialsProtocol.PublishedPairIsStoredPair | internal/runtime/rotation_join_credentials.go:318-336 | at most one generation, exactly the stored pair, expiring with the earlier |
| JoinCredentialsProtocol.StoredAsAnswered | internal/runtime/rotation_join_credentials.go:264-316 | in every run a stored component is exactly what the remote action of its worker answered |
| JoinCredentialsProtocol.HistoryIsKept | internal/runtime/rotation_join_credentials_store.go:85-154 | events, components and generations only grow and a stored component stays the stored one |
| JoinCredentialsProtocol.StaleWorkerIsHarmless | internal/runtime/rotation_join_credentials_store.go:68-84 | a worker without the current lease appends nothing |
| JoinCredentialsProtocol.StaleWorkerStaysHarmless | internal/runtime/rotation_join_credentials_store.go:68-84 | once a claimed worker has lost its lease, it never regains it and appends nothing, in any continuation |
| JoinSave.Act | internal/runtime/rotation_join_credentials.go:264-316 | a failed action asks for review and stores nothing; a good one is stored as answered, under the lease |
| JoinSave.SaveComponent | internal/runtime/rotation_join_credentials.go:227-317 | an action is called exactly when never started and never stored and its start is recorded under the lease; the component is there afterwards exactly when it was stored and valid, or was called, answered and stored under the lease, as answered; review is asked for exactly on an invalid checkpoint, an unresolved start, a doubtful proof or a failed action, and recorded while the lease holds |
| JoinSave.Save | internal/runtime/rotation_join_credentials.go:204-336 | saves exactly when nothing was published, both components are stored in turn and the pair is valid under the lease; asks for review exactly when a proof is doubtful or a component or pair cannot be settled, with the request recorded for the component that stopped it; calls are first calls in order; success publishes exactly the stored pair; every other end publishes nothing; the lease is released |
| JoinCredentialsRefinement.RunIsProtocolRun | internal/runtime/rotation_join_credentials.go:20-336 | every run of a save or repair, from its claim on, is a sequence of protocol events with the very same tables and remote actions |
| JoinCredentialsRefinement.WorkerJoinsAnyRun | internal/runtime/rotation_join_credentials.go:20-336 | behind any run of saves and repairs a worker goes on as part of that run; an action it calls was never called before and never is again, and a published pair stays the only generation |
| RotationPlan.JudgeSlot | internal/runtime/expiry_rotation.go:481-563 | a slot is replaceable exactly when used, unprotected, undelivered and so claimed; ready exactly when settled |
| RotationPlan.JudgeCandidate | internal/runtime/expiry_rotation.go:564-657 | a candidate is eligible exactly when unused, unprotected, complete, freshly invited, no member and so claimed |
| RotationPlan.SeatCountsAddUp | internal/runtime/expiry_rotation.go:441-457 | the running bound accepts exactly non-negative counts that sum to the members |
| RotationPlan.BuildPreview | internal/runtime/expiry_rotation.go:283-670 | each exit on missing, stale, ambiguous, unpermitted or unpaid facts has its own lists and status; ready exactly when none is taken, the date expired, everything settled, paid seats suffice and as many eligible as replaceable, more than none |
| RotationPlan.MatchingIsBijective | internal/runtime/expiry_rotation.go:887-899 | counting plus one-to-one matching is the same as a seat-preserving bijection |
| RotationPlan.RotationAssignments | internal/runtime/expiry_rotation.go:872-905 | accepts exactly the seat-preserving bijections and returns them sorted by member |
| RotationPlanLaws.SortedPermutationIsUnique | internal/runtime/expiry_rotation.go:900-904 | a sorted assignment is determined by its contents |
| RotationPlanLaws.OutcomeIgnoresOrder | internal/runtime/expiry_rotation.go:997-1001 | every ordering of a request gets the same answer, refusals included |
| RotationPlanLaws.ReapplyingChangesNothing | internal/runtime/rotation_removal.go:53-56 | rechecking a stored assignment returns it unchanged |
| RotationPlanLaws.ReadyIsAssignable | internal/runtime/expiry_rotation.go:658-670 | whenever the preview is ready some complete assignment is accepted |
| RotationPlanLaws.ReadyPairsFreely | internal/runtime/expiry_rotation.go:872-899 | in a ready preview exactly the complete one-to-one choices are accepted |
| RotationPlanLaws.ReadyIsSettled | internal/runtime/expiry_rotation.go:553-555 | a ready preview decides every slot on valid evidence and every child on all of its proofs, with nothing pending, suspected or contradicted |
| RotationPlanLaws.UnprovedIsUndecided | internal/runtime/expiry_rotation.go:481-540 | without valid evidence a slot that was never delivered needs verification at every exit, and the preview is not ready |
| RotationPlanLaws.ReadySeatsArePaid | internal/runtime/expiry_rotation.go:437-457 | ready means proved counts in which the one paid seat type fills the workspace, and a paid default equal to the verified limit |
| RotationPlanLaws.ReadyIsComplete | internal/runtime/expiry_rotation.go:283-465 | ready means a current selection, lists of the verified sizes without a repeat, and permitted evidence with one row for each entry |
| RotationPlanLaws.UnjudgedIsUndecided | internal/runtime/expiry_rotation.go:399-465 | where facts are missing every slot needs verification, every candidate is excluded and blocked, and the preview is not ready |
| RotationPlanLaws.EligibleIsProved | internal/runtime/expiry_rotation.go:564-657 | an eligible candidate has every proof, was never used or delivered, is freshly invited and holds no seat, at every exit |
| RotationPlan.PrecedesMeans | internal/runtime/expiry_rotation.go:900-904 | the order of the output is that of strings: the first difference decides, and a proper prefix comes first |
| RotationPlanLaws.EmptiesOnlyUnheldSlots | internal/runtime/expiry_rotation.go:501-532 | an accepted assignment empties only used, unprotected, undelivered slots with valid evidence that says so |
| RotationPlanLaws.AdmitsOnlyUnusedInvited | internal/runtime/expiry_rotation.go:580-649 | an accepted assignment admits only unused, undelivered, complete, freshly invited accounts, on valid evidence and proofs, that hold no seat |
| RosterPaging.AppendRows | internal/platform/selected_workspace_http.go:264-281 | the rows pass exactly when all convert and none repeats an identity |
| RosterPaging.CheckPage | internal/platform/selected_workspace_http.go:255-258 | a page passes exactly when complete, contiguous and within its declared bounds |
| RosterPaging.FetchPages | internal/platform/selected_workspace_http.go:247-290 | stops within 1000 requests for every server; succeeds exactly when the server offers a complete read, and returns it; a failure is the refusal that answered behind a clean partial read, or incomplete |
| RosterPaging.CompleteReadIsUnique | internal/platform/selected_workspace_http.go:259-289 | a complete read has exactly the declared total, no repeat, and is the only one the server offers |
| RosterPaging.SlicedListIsReadWhole | internal/platform/selected_workspace_http.go:99-114 | against a server slicing a clean list of at most 1000 rows the whole list comes back in order |
| Egress.Router.Admit | internal/egress/egress.go:273-303 | admits, in order, the first route of every measured exit and reports, in order, each other endpoint with its reason; fails exactly when no endpoint could be measured |
| Egress.Router.ClientFor | internal/egress/egress.go:466-485 | a client exists only for the very candidate of the latest admission |
| Egress.LeaseManager.Exclude | internal/egress/lease.go:175-182 | the slice is closed up over the first match |
| Egress.LeaseManager.Acquire | internal/egress/lease.go:116-160 | terminates; the retry loop is one pass: the first free good route, every failed one dropped; the error says whether any drifted |
| Egress.Lease.Release | internal/egress/lease.go:49-61 | frees the exit once; a second call changes nothing |
| Egress.Lease.Remeasure | internal/egress/lease.go:64-93 | a drifted exit is excluded and not stamped; an unmoved one is stamped |
| Egress.DroppedTrial | internal/egress/lease.go:124-159 | restarting behind a dropped route changes no outcome |
| Egress.AcquisitionOutcome | internal/egress/lease.go:124-160 | the leased route was free and good; exits stay distinct; nothing found broken stays |
| EgressProtocol.HeldExitsAreExclusive | internal/egress/lease.go:124-137 | in every interleaving two held leases have different exits, both marked busy |
| EgressProtocol.ActiveCountsOwners | internal/egress/lease.go:184-194 | the busy exits are exactly those of the outstanding attempts, one each |
| EgressProtocol.ReleaseFreesOnlyItsOwn | internal/egress/lease.go:49-61 | a release, first or repeated, never frees an exit another attempt owns |
| EgressProtocol.BarredIsNeverLeasedAgain | internal/egress/lease.go:162-182 | with distinct exits a drifted or quarantined one is never leased again and the list only shrinks |
| EgressProtocol.FailedTrialShrinks | internal/egress/lease.go:142-159 | on every candidate list a failed trial leaves it shorter than at its pick, whatever others did meanwhile |
| EgressProtocol.RetriesAreBounded | internal/egress/lease.go:124-159 | in every interleaving no acquisition fails more often than there were routes |
| EgressProtocol.BarredIffSingle | internal/egress/lease.go:175-182 | excluding an exit bars it exactly when no second route shares it |
| EgressProtocol.DuplicateExitReturns | internal/egress/lease.go:175-182 | with a duplicated exit a run leases it again after it was barred |
| EgressRefinement.AcquisitionIsProtocolRun | internal/egress/lease.go:116-160 | every acquisition is a sequence of protocol events that ends with the very same list, busy exits and lease |
| EgressRefinement.AcquisitionJoinsAnyRun | internal/egress/lease.go:116-160 | behind any interleaving of other attempts an acquisition goes on as part of that run, and no other held lease has its exit |
| MotherSecret.OpensWhatWasSealed | internal/mothersecret/secret.go:37-91 | a sealed secret opens at its own binding under every ring that kept its key |
| MotherSecret.OpensNowhereElse | internal/mothersecret/secret.go:31-33 | an envelope whose ciphertext the cipher rejects elsewhere opens at no other account, revision or field |
| MotherSecret.EnvelopeLayout | internal/mothersecret/secret.go:37-63 | prefix, big-endian key version, nonce, and the ciphertext under account, revision and field |
| MotherSecret.MigrateRow | internal/mothersecret/migrate.go:54-96 | a row migrates exactly when readable and sealable, and then means what it meant; a resealed field opens at no other revision, field or account |
| MotherSecret.CredentialStore.Migrate | internal/mothersecret/migrate.go:21-107 | succeeds exactly when every row migrates; any failure changes nothing; derived rows of resealed accounts go |
| MotherSecret.SecretsSurvive | internal/mothersecret/migrate.go:54-96 | after success each secret opens at the row's revision to the original |
| MotherSecret.SecretsAreRebound | internal/mothersecret/migrate.go:80-88 | after success every newly sealed secret sits at the next revision and opens at its own account, revision and field only |
| MotherSecret.SecondRunChangesNothing | internal/mothersecret/migrate.go:54-106 | a second run succeeds and changes no row |
| MotherSecret.MarkerRefusesPlaintext | internal/mothersecret/migrate.go:58-60 | once marked, an unsealed row fails the whole run |
| Destinations.DestinationTables.Update | internal/runtime/delivery_destination_http.go:103-139 | an update stores the given endpoint and group and keeps the secret unless one is given, bumps the revision, forgets the test and deselects |
| Destinations.DestinationTables.StartTest | internal/runtime/delivery_destination_http.go:154-192 | a test reserves the next attempt at the current settings and deselects |
| Destinations.DestinationTables.StoreResult | internal/runtime/delivery_destination_http.go:193-234 | a result is stored exactly at its own attempt and revision, normalised |
| Destinations.DestinationTables.Select | internal/runtime/delivery_destination_http.go:242-272 | selects exactly an enabled destination with both checks passed at its revision |
| Destinations.SelectedPassedItsTest | internal/runtime/delivery_destination_http.go:254-272 | in every interleaving the selected destination is enabled, and its latest test reached the endpoint and found the group at the settings stored now |
| Destinations.VisibleResultIsLatest | internal/runtime/delivery_destination_http.go:205-234 | a visible result is the latest test's report about the settings stored now |
| Destinations.NewerOvertakes | internal/runtime/delivery_destination_http.go:103-192 | in every reachable state a newer test and an update each overtake every earlier test of the destination |
| Destinations.SupersededIsNeverStored | internal/runtime/delivery_destination_http.go:205-219 | a result overtaken by a newer test or an update is never stored, in any continuation |
| NameFolding.Lowest | internal/platform/rotation_credentials.go:94-100 | the fold loop terminates at the least rune of the orbit |
| NameFolding.TrailGrows | internal/platform/personal_membership.go:161-170 | folding on returns to the start or reaches a new rune |
| NameFolding.SameKeyIffAlike | internal/platform/rotation_credentials.go:92-104 | two names get one key exactly when they match rune by rune up to folding |
| NameValidator.WalkOfTokens | internal/platform/rotation_credentials.go:71-122 | the walk over a document consumes exactly its tokens, or refuses exactly an ambiguous or too deep one |
| NameValidator.AcceptedIffUnambiguous | internal/platform/personal_membership.go:135-197 | a token stream is accepted exactly when it is one unambiguous document within the depth |
| NameValidator.DocumentVerdict | internal/platform/personal_membership.go:135-197 | a document is accepted exactly when no object in it repeats a name and it is not too deep |
| NameValidator.Decoder.ObjectBody | internal/platform/rotation_credentials.go:82-111 | the member loop refuses exactly what the walk refuses |
| NameValidator.CredentialJson | internal/platform/rotation_credentials.go:67-127 | accepts exactly the unambiguous documents, at any depth, that also decode into the target |
| NameValidator.UnambiguousMembershipJson | internal/platform/personal_membership.go:135-197 | accepts exactly the unambiguous documents of depth at most 16 |

## Left out

- HTTP handlers, request decoding, problem responses, audit rows, metrics and static files: plumbing around the transitions.
- Transports, headers, login flows and upstream JSON shapes: every remote call is an arbitrary answer plus an entry in a log.
- PostgreSQL itself, migrations, triggers and views: each short transaction is one atomic step, guarded by what its Go SQL text says. Of the view `tsw_rotation_released_slots` only the clauses that end with a stop or revoke are modelled, in `join_fence`. `writerfence`, `task`, `target` and `workspace` are not part of this model.
- `StartRotationRemoval` and the confirmation transaction: slots start as pending rows without a request, under an authorization that is not yet halted.
- The eligibility joins of `joinAdmissionLocal`, `removalLocalFacts` and the authority functions: one boolean or pinned record per step.
- Cryptography: an abstract cipher and distinct numbers for digests and ids; nothing is proved about strength. That a ciphertext is rejected under other associated data is assumed where a result says so, for that one ciphertext; no cipher can promise it for all.
- Evidence contents: a removal's evidence keeps whether the target was absent; the roster behind it is checked in `removal_roster`.
- The reasons shown with a slot or candidate, the expiry of a preview and the source revisions of `rotationFacts`: they decide nothing modelled here.
- The converters of the paginated reader, the outcome classifiers and enum validators: single-branch facts that would only add easy members.
- Egress: closing idle connections and transport reconstruction; a transport that cannot be built is one flag.
- RemovalRun.Run: one handler without interference; other handlers, stops and revokes act in removal_protocol.dfy, whose events removal_refinement.dfy shows its steps to be.
- JoinDispatch.Dispatch: one handler without interference; other claims act in join_protocol.dfy, whose events join_refinement.dfy shows its steps to be.
- JoinSave.Save: one handler without interference; repairs act in join_credentials_protocol.dfy, whose events join_credentials_refinement.dfy shows its steps to be.
- JoinProtocol.PostFollowsMarker: the pinned admission is a boolean there; that both stages use one admission is in JoinDispatch.Dispatch.
- RotationPlan.SeatCountsAddUp: iterates over a list, whereas Go ranges over a map in any order; the result holds for every order.
- NameValidator.CredentialJson: the verdict of the final decoding into a typed value is a parameter.
- JoinFence.NoPostAfterHalt: reconcilers send nothing and appear only as other holders of the workspace lock.
