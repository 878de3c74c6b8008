# Verified model of the replay, recovery, registry, scheduling, authority and tracing cores

This project models the parts of the repository that keep state over long runs or rest on a graph, tree or hash
argument, and proves what they guarantee. Every statement holds for all inputs, all schedules and all hash
functions: hashing, canonical JSON and signature checking are arbitrary functions, and where a collision would
break a claim the lemma names two different inputs, both hashed by the code in that very situation, with one hash.

| component | modules |
|---|---|
| Pending-first anchored replay | `ReplayRegistry`, `ReplayStore`, `PendingProtocol`, `PendingInvariant`, `PendingTheorems`, `PendingSubmission`, `PendingRecovery`, `PendingDisturbed`, `ReplayLaws`, `ReplayPlans` |
| Merkle attestation registry | `MerkleTree`, `AttestationRegistry` |
| Task graph and scheduler | `TaskGraph`, `SchedulePlan`, `SchedulerRuns` |
| Execution attempts and gate | `Attempts`, `GateProtocol`, `GateCalls` |
| Crash recovery of attempts | `RecoveryProtocol`, `RecoveryInvariant`, `RecoveryTheorems`, `RecoveryCalls`, `RecoveryCoordinator` |
| Authority epochs | `Authority`, `AuthorityRegistry` |
| Tracing | `Hops`, `FlowTracer`, `Investigation` |

Protocols are transition systems. An action names a call to start, a step of a call together with what its
environment does (dies, loses a reply, denies), or an outside change; a run is the fold of a schedule of actions. One
`BEGIN IMMEDIATE` transaction, one anchor read, one compare-and-set, or one autocommitted statement is one step.
Objects whose methods change fields or tables are classes, and their methods are proved against the same functions
that the transition systems use.

Findings, where the code does not do what one might expect:

- A `FINALIZED` pending row can go back to `CONFLICT` when a late duplicate submitter quarantines it. Acceptance is
  therefore stated through the journal and the accepted and evidence rows. `PendingTheorems.FinalizedOverwritten` gives
  the exact condition at the two anchor reads that lead there: the anchor has passed the candidate.
  `PendingSubmission.OverwriteHappens` is a run in which it happens.
- The coordinator looks for its retry by the derived grant id alone. If the gate executes that grant first, the lookup
  finds the gate's attempt, which has another key and number 1, and the call records and returns it instead of a retry.
  `RecoveryTheorems.LookupDecides` gives the exact condition over all runs, `RecoveryCalls.LoneCallReturns` for a call
  that is not interrupted, and `RecoveryCalls.AdoptionHappens` is a run in which it happens and no retry is ever made.
- A recovery of an event that is already journaled needs keys that verify all the stored evidence of the provider, not
  only that of the event, because it rebuilds the whole plan (`PendingRecovery.LoneRecovery`).
- `verify_registry` accepts entries that leave out `index`, but `build_inclusion_proof` hashes the entries as they
  are, without the index, so such proofs are refused. `AttestationRegistry.CompleteAt` gives the exact condition for
  each position, `AttestationRegistry.CompleteExactly` for a whole registry, and
  `AttestationRegistry.UnindexedExample` a registry that fails it.
- Building a registry writes out every index, so a registry built on one whose entries leave them out is refused as its
  successor (`AttestationRegistry.AppendAccepted`).
- The registry of authorities saves the new state and moves the epoch in two commits. A call cut off between them
  leaves a changed state under the old epoch: `Authority.EpochsTellIff` shows that equal epochs mean equal authority
  exactly in the runs without such a loss, and `Authority.LostEpochsReviveGrant` is a run in which a grant comes back
  to life.

## Model

| member | source | states |
|---|---|---|
| `ReplayStore.Store.CheckChain` | shared/attestation_replay_registry.py:111-135 | the row-by-row loop accepts exactly the journals that form a hash chain from genesis and end at the stored state |
| `ReplayStore.Store.AppendJournalEvent` | shared/attestation_replay_registry.py:86-161 | appends exactly the next event of the provider's chain, or refuses and changes nothing |
| `ReplayStore.Store.RecordTables` | shared/attestation_replay_registry.py:201-245 | on success accepted, journal and evidence rows grow together by one; on an error it reports which check failed, and the rollback is that of the whole transaction |
| `ReplayStore.Store.Record` | shared/attestation_replay_registry.py:164-266 | the acceptance transaction is all or nothing: accept, journal, evidence and finalization together or no change |
| `ReplayStore.Store.SetFinalized` | shared/attestation_replay_registry.py:246-262 | finalizes exactly a PREPARED row bound to the accepted event |
| `ReplayStore.Store.PersistPending` | shared/pending_anchored_attestation_replay.py:80-172 | stages a candidate only if no other row of the provider has its run id or nonce; the same candidate may be staged again |
| `ReplayStore.Store.BuildPlan` | shared/replay_registry_recovery.py:31-189 | returns a plan exactly for the states and anchors whose whole chain is proven row by row; what the plan says is stated by `ReplayPlans.WriterStatesPlannable` and `ReplayLaws.PlanCertifies` |
| `ReplayStore.Store.Revalidate` | shared/replay_registry_recovery.py:208-245 | a plan is confirmed exactly when building it again gives the same plan |
| `ReplayLaws.RecordExactly` | shared/attestation_replay_registry.py:201-266 | on any database, the acceptance transaction goes through exactly if the payload verifies, the chain is sound and ends at the expected point, no row of any table has its run id or nonce, and the named pending row is PREPARED and about this event; it then adds one row to each table, finalizes that row, and nothing else |
| `ReplayLaws.StageExactly` | shared/pending_anchored_attestation_replay.py:123-165 | on any database, staging goes through exactly if the local point is the prior one, no accepted row has the run id or nonce, and the candidate is staged and not in conflict or no row competes; a new row shows exactly the candidate |
| `ReplayLaws.FinalizeExactly` | shared/pending_anchored_attestation_replay.py:214-242 | on any database, finalizing a journaled candidate goes through exactly if its evidence is stored and its row, not in conflict, still shows it, and changes the status only |
| `ReplayLaws.LocalExactly` | shared/anchored_attestation_replay.py:45-94 | the local head is the stored one, or genesis while nothing is accepted; accepted rows without a state are refused |
| `ReplayLaws.PlanCertifies` | shared/replay_registry_recovery.py:114-189 | whatever the tables hold, a plan exists only if the journal is a sound chain through the anchor to the state row and every journal row is proved by a stored signed payload that verifies and has its accepted row |
| `PendingTheorems.JournalFollowsAnchor` | shared/pending_anchored_attestation_replay.py:286-448 | after every schedule the journal's heads are a prefix of the anchor's history and the anchor is at most one ahead, or two staged candidates share an id |
| `PendingTheorems.AheadHasOneRow` | shared/pending_anchored_attestation_replay.py:175-283 | whenever the anchor is one ahead, exactly one pending row explains it, it is PREPARED and extends the journal's tip |
| `PendingTheorems.RecoveryCatchesUp` | shared/pending_anchored_attestation_replay.py:367-448 | one uninterrupted recovery of that row reports acceptance and makes journal and anchor equal |
| `PendingTheorems.ReentryNeverRecords` | shared/pending_anchored_attestation_replay.py:260-283 | the self-call of finalization never reaches the acceptance transaction again, so it happens at most once |
| `PendingDisturbed.ReentryAccepts` | shared/pending_anchored_attestation_replay.py:250-283 | after any run, a call at the acceptance transaction whose candidate another call has journaled ends, run alone, as accepted if and only if its row is not CONFLICT, its event is still the journal's last and all stored evidence verifies; otherwise it fails and changes nothing |
| `PendingTheorems.AcceptedOnce` | shared/pending_anchored_attestation_replay.py:123-165 | no two pending rows of a provider share a run id or nonce, and each run id and nonce is accepted at most once |
| `PendingTheorems.LostNeverAccepted` | shared/pending_anchored_attestation_replay.py:324-362 | a candidate that lost its sequence number to another head is not accepted in any continuation |
| `PendingTheorems.AcceptanceIsDurable` | shared/pending_anchored_attestation_replay.py:175-283 | what a call reported as accepted stays in journal, anchor history, accepted and evidence rows in every continuation |
| `PendingTheorems.FinalizedOverwritten` | shared/pending_anchored_attestation_replay.py:324-354 | in every run, a FINALIZED status is lost in a step exactly by the conflict update of its candidate, and a call gets there exactly if it is a submitter of the candidate that reads the anchor, before its compare-and-set or after a refused one, when the anchor has passed the candidate |
| `PendingTheorems.LateDuplicateQuarantines` | shared/pending_anchored_attestation_replay.py:324-354 | at either read, a submitter of a journaled candidate marks it CONFLICT in its next two steps if and only if the anchor has passed the candidate, which stays journaled |
| `PendingTheorems.OvertakenIsQuarantined` | shared/pending_anchored_attestation_replay.py:324-354 | at either read, a submitter of any candidate marks it CONFLICT in its next two steps if and only if the anchor has moved on without it, and touches nothing in the database otherwise |
| `PendingSubmission.StagesExactly` | shared/pending_anchored_attestation_replay.py:80-172 | in a caught-up state, staging succeeds if and only if no other candidate has the run id or nonce, and the staged row is PREPARED as new |
| `PendingSubmission.LoneSubmission` | shared/pending_anchored_attestation_replay.py:286-362 | after any run an uninterrupted submission is accepted if and only if it verifies, the journal has caught up with the anchor and no other candidate competes; then anchor and journal grow by exactly its event, otherwise nothing durable changes |
| `PendingDisturbed.DisturbedSubmission` | shared/pending_anchored_attestation_replay.py:324-362 | after any run, a submission whose only disturbance is a lost or misreported reply to its compare-and-set is accepted if and only if it is submittable and the compare-and-set took effect; without effect it fails and leaves its row PREPARED |
| `PendingSubmission.OverwriteHappens` | shared/pending_anchored_attestation_replay.py:324-354 | a run from the empty state in which the pending row of an accepted and journaled candidate ends as CONFLICT |
| `PendingRecovery.LoneRecovery` | shared/pending_anchored_attestation_replay.py:367-448 | after any run an uninterrupted recovery of any id is accepted if and only if the row is not CONFLICT, verifies, and the anchor is at its prior point, or at its target and the journal is behind or all stored evidence verifies; then journal and anchor are equal, otherwise nothing changes |
| `PendingDisturbed.DisturbedRecovery` | shared/pending_anchored_attestation_replay.py:416-448 | after any run, a recovery that moves the anchor and gets a lost or misreported reply is accepted if and only if the compare-and-set took effect, and otherwise changes nothing |
| `PendingRecovery.CaughtUpHasEvidence` | shared/pending_anchored_attestation_replay.py:214-242 | an anchored event that the journal has caught up with has its own evidence row, or two events of the run share a hash |
| `PendingRecovery.RunStatesPlannable` | shared/replay_registry_recovery.py:114-189 | after any schedule of submitters and recoverers, a plan exists exactly for the points of the journal's own history when the keys verify the evidence; its items describe the signed payloads after the anchor and hash, one after another, from the anchor's head to the terminal one |
| `PendingInvariant.RunKeeps` | shared/pending_anchored_attestation_replay.py:80-448 | the inductive invariant of tables, anchor and all calls holds after every schedule and durable state only grows |
| `ReplayPlans.WriterStatesPlannable` | shared/replay_registry_recovery.py:114-189 | after any writer calls, a plan exists exactly for the points of the journal's own history when the keys verify the evidence; each item has the run id, nonce, receipt and signer of the signed payload at its sequence, and hashing the items' events from the anchor's head gives each head and the terminal one |
| `ReplayPlans.TerminalFixesJournal` | shared/attestation_replay_registry.py:111-135 | two journals that pass the chain check and end at the same point are equal, or two events with one hash are exhibited |
| `ReplayPlans.PlanFixesHistory` | shared/replay_registry_recovery.py:114-189 | plans with the same terminal point come from the same journal, or a collision is exhibited |
| `MerkleTree.FoldOfSiblings` | shared/attestation_registry.py:292-312 | folding a node with its siblings gives the root of the duplicate-last tree, and there is one sibling for each halving of the width |
| `MerkleTree.FoldDescends` | shared/attestation_registry.py:292-312 | any sibling list that folds to a root of the tree retraces nodes of that tree downwards, or two hashed inputs collide |
| `MerkleTree.FoldSound` | shared/attestation_registry.py:292-312 | a fold that reaches the root starts from a leaf of the tree, or two hashed inputs collide |
| `MerkleTree.FoldPins` | shared/attestation_registry.py:292-312 | a fold of the right width that reaches the root is that of the node itself with exactly its own siblings, or two hashed inputs collide |
| `MerkleTree.SiblingsPin` | shared/attestation_registry.py:242-254 | two levels that give a position the same siblings agree everywhere else, and there too if its node is ever an odd last one, or two hashed inputs collide |
| `AttestationRegistry.RootFromEntries` | shared/attestation_registry.py:53-64 | the level loop computes the root of the duplicate-last tree, also for no entries |
| `AttestationRegistry.BuildRegistry` | shared/attestation_registry.py:124-145 | succeeds exactly for well-formed entries with distinct ids, and the result is valid with every index written out |
| `AttestationRegistry.VerifyRegistry` | shared/attestation_registry.py:173-205 | accepts exactly the valid registries |
| `AttestationRegistry.CollectSiblings` | shared/attestation_registry.py:242-254 | the level loop collects exactly the siblings on the way from the leaf to the root |
| `AttestationRegistry.BuildInclusionProof` | shared/attestation_registry.py:231-262 | gives a proof exactly for the ids of a valid registry, for an entry with that id |
| `AttestationRegistry.VerifyInclusionProof` | shared/attestation_registry.py:265-319 | accepts exactly when the leaf of the normalized entry folds to the expected root with all siblings used |
| `AttestationRegistry.InclusionSound` | shared/attestation_registry.py:265-319 | an accepted proof against the root of a valid registry is about the registry's entry at that index, with or without an expected size, or two hashed inputs collide |
| `AttestationRegistry.InclusionComplete` | shared/attestation_registry.py:231-262 | with indices written out, every proof is accepted under root and size, with one sibling for each halving |
| `AttestationRegistry.AcceptedIsWellFormed` | shared/attestation_registry.py:271-312 | an accepted proof names the expected root and a position of its tree, has exactly one sibling for each halving, and shows a well-formed entry with no other index than the position |
| `AttestationRegistry.SizePinned` | shared/attestation_registry.py:279-284 | a pinned size accepts what no pin accepts, and only for the proof's own tree size |
| `AttestationRegistry.UnindexedProofFails` | shared/attestation_registry.py:67-101 | an entry without its index, in a registry of two or more, gives a proof that is refused, or two hashed inputs collide |
| `AttestationRegistry.CompleteAt` | shared/attestation_registry.py:231-262 | the proof of one position is accepted if and only if every other entry carries its index, and its own does unless its node is never the odd last one of a level, or two hashed inputs collide |
| `AttestationRegistry.CompleteExactly` | shared/attestation_registry.py:231-262 | all proofs of a valid registry are accepted if it has at most one entry or all carry their index, and otherwise some proof is refused, or two hashed inputs collide |
| `AttestationRegistry.UnindexedExample` | shared/attestation_registry.py:231-262 | two entries without their indices make a valid registry whose proof of the first is refused, or inputs hashed for it collide |
| `AttestationRegistry.RootFixesEntries` | shared/attestation_registry.py:173-205 | valid registries of any two sizes with one root have the same normalized entries, or two hashed inputs collide |
| `AttestationRegistry.ChainAppends` | shared/attestation_registry.py:208-228 | in an accepted chain each snapshot extends every earlier one |
| `AttestationRegistry.AppendAccepted` | shared/attestation_registry.py:208-228 | a registry built by appending to a valid one with its checkpoint is accepted as its successor if and only if the old entries carry their indices |
| `AttestationRegistry.ChainCheckpoints` | shared/attestation_registry.py:152-158 | in an accepted chain each snapshot names the size, the root and the digest of the one before it |
| `AttestationRegistry.DigestPinsHistory` | shared/attestation_registry.py:148-170 | the digest of the last snapshot fixes all earlier ones, or two snapshots with one digest are exhibited |
| `TaskGraph.CycleCheck.Visit` | orchestrator/task_graph.py:128-139 | the recursive visit lists a node after its dependencies, and reports a cycle only if there is one |
| `TaskGraph.CycleCheck.VisitDependencies` | orchestrator/task_graph.py:134-135 | after the loop every dependency is listed and the stack of visits is as before |
| `TaskGraph.ValidateAcyclic` | orchestrator/task_graph.py:124-143 | returns an order if and only if the graph has no cycle; the order lists every node once, after its dependencies |
| `TaskGraph.Construct` | orchestrator/task_graph.py:85-118 | a graph is built exactly for well-formed nodes with known dependencies, fitting budgets and no cycle |
| `TaskGraph.BuiltGraph` | orchestrator/task_graph.py:85-118 | the graph holds exactly the given nodes, in their order, and the given budgets |
| `TaskGraph.TopologicalIsAcyclic` | orchestrator/task_graph.py:124-143 | a topological order rules out every cycle |
| `SchedulePlan.CountRunning` | orchestrator/task_graph.py:185-195 | the loop counts the running tasks and their resource units |
| `SchedulePlan.Classify` | orchestrator/task_graph.py:197-223 | one pass over the stored order with falling budgets gives exactly the specified ready, blocked and waiting lists |
| `SchedulePlan.MakePlan` | orchestrator/task_graph.py:158-231 | for the caller's statuses, missing ones being PENDING: raises exactly for unknown tasks, inconsistent statuses or overrun budgets; the plan is about exactly the tasks that are PENDING or have no status; without statuses some task is ready and none blocked |
| `SchedulePlan.PlannableMeans` | orchestrator/task_graph.py:176-195 | planning does not raise exactly if tasks that run or succeeded have only succeeded dependencies and the running ones are within both budgets |
| `SchedulePlan.ScanBlocksDoomed` | orchestrator/task_graph.py:203-217 | a pending task is blocked if and only if some transitive dependency failed, timed out, is incomplete or blocked |
| `SchedulePlan.BlockedMeans` | orchestrator/task_graph.py:203-217 | a pending task is blocked exactly if a chain of dependencies leads to a task that is FAILED, TIMED_OUT, INCOMPLETE or BLOCKED |
| `SchedulePlan.FirstFit` | orchestrator/task_graph.py:218-223 | a pending task is ready exactly if its dependencies succeeded and it fits with what runs and with the ready tasks before it in the stored order |
| `SchedulePlan.PlanInOrder` | orchestrator/task_graph.py:202-223 | all three lists keep the stored order |
| `SchedulePlan.PlanContract` | orchestrator/task_graph.py:158-231 | the plan splits the pending tasks; running plus ready stay in both budgets; no satisfied waiting task would still fit; nothing waits when nothing runs and nothing is ready |
| `SchedulerRuns.PlanNeverRaises` | orchestrator/task_graph.py:158-231 | in every scheduler run the next plan does not raise |
| `SchedulerRuns.StartsBounded` | orchestrator/task_graph.py:233-246 | total starts never exceed the sum of the attempt limits |
| `SchedulerRuns.RequeueExactly` | orchestrator/task_graph.py:233-246 | in every run a task can be queued again exactly if it failed, timed out or ended incomplete and has attempts left |
| `SchedulerRuns.MovesBounded` | orchestrator/task_graph.py:158-246 | the number of moves in a run is bounded, so every run ends |
| `SchedulerRuns.StuckMeansDone` | orchestrator/task_graph.py:158-246 | when nothing runs and the plan admits nothing, every task is terminal, or blocked by a failed transitive dependency |
| `Attempts.AttemptStore.Create` | shared/execution_attempt.py:124-166 | creates the next number of the key exactly when all its attempts are over and a retry is asked for, or there are none |
| `Attempts.AttemptStore.Transition` | shared/execution_attempt.py:185-225 | moves an attempt exactly along the allowed steps and writes lease, start and finish times |
| `Attempts.AttemptStore.ExpireLeases` | shared/execution_attempt.py:263-279 | times out exactly the leased attempts whose lease is over, and reports exactly those |
| `Attempts.NumbersContiguous` | shared/execution_attempt.py:124-166 | below any number of a key every number is in use by a finished attempt |
| `Attempts.OpenIsLast` | shared/execution_attempt.py:124-166 | only the last attempt of a key may be open |
| `Attempts.TrailIsShort` | shared/execution_attempt.py:35-44 | an attempt changes its state at most three times |
| `Attempts.TimesOrdered` | shared/execution_attempt.py:185-225 | lease, start and finish are the moments the states were entered, a lease ends five minutes after it was given, and they are in order where the clock did not run backwards |
| `GateProtocol.InvokedOnce` | shared/execution_gate.py:194-271 | in every interleaving the executor runs at most once per grant id, per nonce and per idempotency key |
| `GateProtocol.RevokedNeverInvoked` | shared/capability_grant_store.py:114-149 | a grant whose revocation succeeded has no executor run, before or after |
| `GateCalls.LoneExecute` | shared/execution_gate.py:194-321 | an uninterrupted call runs the executor if and only if grant, key and nonce are unused, makes the attempt for the grant's task and intent, ends it as SUCCEEDED or FAILED by its result, and otherwise leaves exactly the registered or spent grant and the attempt made so far |
| `GateCalls.LoneCallExecutes` | shared/execution_gate.py:234-240 | in every run the call works under the given idempotency key or, without one, under the grant's nonce |
| `GateCalls.RegisteredMeanwhile` | shared/capability_grant_store.py:71-92 | a call whose grant another one registered in the meantime goes on exactly if it is active |
| `GateCalls.RevokedIsAborted` | shared/execution_gate.py:249-257 | in every run a call whose grant is revoked between lease and consumption aborts its open attempt and never runs the executor |
| `GateCalls.RunRefused` | shared/execution_gate.py:259-269 | a call whose attempt may no longer start running aborts it if it is open |
| `GateProtocol.InvokedRan` | shared/execution_gate.py:241-269 | the executor only runs under an attempt of its key that was leased and entered RUNNING |
| `GateProtocol.AttemptsNumbered` | shared/execution_attempt.py:124-166 | with lookup and insert interleaved, numbers of a key have no gaps or repeats, only the last is open, each attempt followed the allowed steps, and its lease, start and finish times fit them |
| `RecoveryInvariant.RunKeeps` | shared/execution_recovery_coordinator.py:242-364 | the inductive invariant of attempts, reviews, operations, grants and cut-off calls holds after every schedule, with gate attempts under any grant id |
| `RecoveryTheorems.AtMostOneRetry` | shared/execution_recovery_coordinator.py:242-364 | however calls are cut off and whatever the gate executes, the coordinator inserts at most one retry for a recovery; it has the derived grant id, the original's task, intent and key and its next number, and the original was found safe, aborted and never succeeded |
| `RecoveryTheorems.LaterAttemptsAreRetries` | shared/execution_recovery_coordinator.py:338-360 | every attempt after the first of its key is the retry of exactly one recovery |
| `RecoveryTheorems.ReturnedIsRetry` | shared/execution_recovery_coordinator.py:242-364 | a call that returns an attempt returns one with the derived grant id, and it is the coordinator's retry exactly if its number is above 1 |
| `RecoveryTheorems.GateRowIsFirst` | shared/execution_gate.py:234-240 | an attempt with the derived grant id was made by the gate exactly if it is the first of its key |
| `RecoveryTheorems.LookupDecides` | shared/execution_recovery_coordinator.py:321-336 | in every run and every continuation, a call that has looked up its retry by grant returns, if anything, the coordinator's retry if and only if the gate had not executed that grant before a retry was inserted |
| `RecoveryTheorems.RecordedIsFinal` | shared/execution_recovery.py:313-352 | once an operation records an attempt as created, it records that one in every continuation, and the recovery inserts nothing more |
| `RecoveryTheorems.RetryIsForever` | shared/execution_recovery_coordinator.py:338-360 | once inserted, the retry is the retry in every continuation, with the same grant, key, number, task and intent |
| `RecoveryCalls.LoneCallReturns` | shared/execution_recovery_coordinator.py:174-364 | after any run an uninterrupted call returns an attempt if and only if it gets a decision and the decided state is ready; that attempt is the coordinator's only retry, so also the one that existed before, for the original's task, intent and key, if and only if the recorded one is or, with none recorded, the gate had not executed the derived grant before a retry was inserted |
| `RecoveryCalls.AdoptionHappens` | shared/execution_recovery_coordinator.py:321-336 | a run in which the gate executes the derived grant first: the next call returns the gate's attempt of another key, and no continuation inserts a retry |
| `RecoveryCalls.LoneCallSettles` | shared/execution_recovery_coordinator.py:193-239 | after any run an uninterrupted call with a decision against a retry makes a running attempt RECOVERED if the effect was confirmed and ABORTED if quarantined, and changes nothing else but the review |
| `RecoveryCalls.GrantIsNew` | shared/execution_recovery_coordinator.py:110-111 | the derived grant id is the original's own exactly if the gate made the original under that id; the recovery of a retry always derives a new one |
| `RecoveryCoordinator.Coordinator.ClaimRetry` | shared/execution_recovery.py:253-305 | inserts the operation, or takes it over exactly when it is claimed and its lease is over |
| `RecoveryCoordinator.Coordinator.UpdateOperation` | shared/execution_recovery.py:313-352 | moves an operation along CLAIMED, AUTHORIZED, CREATED only, out of CLAIMED only with the live claim's token, and never to a second retry |
| `RecoveryCoordinator.Coordinator.RetryIfSafe` | shared/execution_recovery_coordinator.py:174-364 | the call makes the steps of a lone call and keeps the tables good; it returns an attempt exactly when the decided state is ready, its own claim's expiry between the two clock readings included, and the coordinator's retry, for the original's task, intent and key, exactly when the gate was not first |
| `Authority.EqualEpochIffQuiet` | shared/agent_authority.py:107-159 | the epoch is the same at two points exactly when no call in between moved it |
| `Authority.EpochsTellIff` | shared/agent_authority.py:107-159 | equal epochs mean equal state and policy version throughout the run if and only if no call is cut off between saving a different state and moving the epoch |
| `Authority.GrantDiesWithChange` | shared/execution_gate.py:159-168 | a grant is accepted later exactly when no call moved the epoch and the authority is the same; if no epoch is lost, the authority never changed in between |
| `Authority.LostEpochsReviveGrant` | shared/agent_authority.py:107-114 | two cut-off calls bring a grant's state back under its old epoch, and the gate accepts it |
| `Authority.StandingLaw` | shared/authority_state.py:81-187 | after any run an agent is STANDARD exactly if its last move was a trusted outcome in PROBATION, LIMITED or STANDARD, LIMITED exactly if it was an expired or untrusted outcome, PROBATION exactly if it was registration or a reset, ELEVATED exactly if it was an allowed promotion, SUSPENDED exactly if it was a suspension |
| `Authority.EpochCounts` | shared/agent_authority.py:58-75 | in every run the epoch is 1 more than the number of events that moved it, and the policy version is the one set last |
| `Authority.ProofIsLatest` | shared/authority_state.py:81-187 | in every run the record shows the proof of the last outcome, or of a promotion that names one, since the last reset |
| `Authority.HistoryTells` | shared/authority_state.py:117-129 | a change adds one transition, from the old state to the new, with its reason and proof |
| `Authority.SuspensionHolds` | shared/authority_transition.py:31-36 | a suspended agent stays suspended until a reset or an expired or untrusted outcome, and leaves exactly then; trusted outcomes and promotions never end suspension |
| `Authority.OnlyGovernanceElevates` | shared/authority_state.py:131-153 | an agent becomes elevated by an event if and only if the event is a promotion its record allows |
| `Authority.RunKeeps` | shared/authority_state.py:81-187 | in every run the counters are the outcomes since the last reset, the history is linked from probation to the current state, and an elevated agent meets the thresholds |
| `Authority.ElevatedMeansClean` | shared/authority_transition.py:38-43 | an elevated agent has the required trusted outcomes, and no more untrusted ones than allowed, since its last reset |
| `Authority.NoElevationAfterFailure` | shared/authority_state.py:109-153 | under the default thresholds an agent is not elevated after an untrusted outcome until it is reset |
| `AuthorityRegistry.StateMachine.ApplyTrust` | shared/authority_state.py:81-129 | counts the outcome, moves the state as the policy says and records the transition, or refuses and changes nothing |
| `AuthorityRegistry.StateMachine.PromoteElevated` | shared/authority_state.py:131-153 | promotes exactly with a reason, outside suspension and within the thresholds |
| `AuthorityRegistry.StateMachine.Suspend` | shared/authority_state.py:155-170 | suspends from any state when a reason is given |
| `AuthorityRegistry.StateMachine.Reset` | shared/authority_state.py:172-187 | back to probation with cleared counters, keeping the history |
| `AuthorityRegistry.Registry.Register` | shared/agent_authority.py:58-75 | a new agent starts in probation at epoch 1; a known one is unchanged |
| `AuthorityRegistry.Registry.RecordTrust` | shared/agent_authority.py:107-114 | one complete call is one event of the run: the epoch moves exactly when the state does |
| `AuthorityRegistry.Registry.PromoteElevated` | shared/agent_authority.py:120-125 | one complete call is one event of the run, with a new epoch |
| `AuthorityRegistry.Registry.Suspend` | shared/agent_authority.py:127-132 | one complete call is one event of the run, with a new epoch even if the state stays |
| `AuthorityRegistry.Registry.Reset` | shared/agent_authority.py:134-141 | one complete call is one event of the run, with a new epoch |
| `AuthorityRegistry.Registry.RotatePolicy` | shared/agent_authority.py:143-152 | version and epoch change together |
| `Hops.DistanceIsShortestPath` | scam_intelligence/investigation.py:287-358 | the level an address is found at is the length of a shortest path from the seed |
| `FlowTracer.BuildFlows` | scam_intelligence/tracer.py:14-63 | no hash is emitted twice; with distinct hashes the flows are exactly the transactions whose source is in range, level by level, at the source's shortest distance |
| `FlowTracer.ScanLevel` | scam_intelligence/tracer.py:30-58 | one pass picks exactly the transactions whose source has the level's distance, and hands on a frontier with all addresses one hop farther |
| `FlowTracer.LevelsEmitOnce` | scam_intelligence/tracer.py:26-63 | with distinct hashes a transaction is emitted if and only if its source is in range, and then exactly once: an edge of the graph with its value and token, at its source's distance |
| `FlowTracer.LowerMeans` | scam_intelligence/tracer.py:34-35 | addresses are compared without capital letters, and nothing else changes |
| `Investigation.Expand` | scam_intelligence/investigation.py:310-356 | the transaction loop of one address adds exactly the related addresses beneath it, and keeps the first transaction of each new hash |
| `Investigation.NeighboursMeans` | scam_intelligence/investigation.py:310-338 | an address leads to another exactly by a successful transaction with a hash, collected from it, that has the other, non-empty address at one end |
| `Investigation.ExpandLevel` | scam_intelligence/investigation.py:294-358 | whatever order the frontier is taken in, one level brings nodes, visited addresses and frontier exactly one hop further |
| `Investigation.Investigate` | scam_intelligence/investigation.py:263-364 | finds exactly the addresses within range, each with its shortest distance and a parent one hop nearer related by the recorded transaction; visits each; keeps one transaction per hash; traces their flows |

## Left out

- Ed25519, base64, key files, canonical JSON and SHA-256: arbitrary functions of the model.
- Hex text of digests: a digest is its 32 bytes, so malformed hex cannot be written down in the model; ids, run ids, nonces and payload fields are strings.
- Columns that no decision reads: creation times, stored key ids of replay rows, failure reasons of attempts, role and timeout of task nodes.
- Error messages: refusals that change nothing alike are one error where no caller tells them apart, as for an already staged row.
- shared/http_replay_anchor_store.py beyond its contract (lines 83-85): reads and compare-and-sets are linearizable, the new sequence is the expected one plus one, and a refusal means that the anchor was elsewhere; an update may take effect and lose its reply.
- Legacy replay databases without journal state, which the code refuses, and the older `verify_and_record_attestation_anchored` path.
- The `plan_sha256` of a recovery plan: revalidation compares the plans themselves.
- Signed registry checkpoints and their key handling: easy case analysis.
- Contents of execution receipts and the receipt id stored with a finished attempt of the gate.
- GateProtocol.InvokedOnce: the gate and the grant store are steps of a transition system, not objects; the signature, scope and expiry checks of `authorize` are assumed to have passed.
- Retry calls of one attempt that overlap: the token check and the update of an operation are separate statements, so one call at a time is assumed for each attempt; calls for different attempts interleave freely.
- RecoveryCalls.GrantIsNew: does not promise that the derived grant id is always new, because ids are arbitrary strings in the model, so the gate may have made the original under the very id that its review later derives; the code then refuses the retry.
- Which row a lookup by grant returns among several: SQL leaves it open; the model takes the first inserted, which is what a scan of a table without an index on the grant gives.
- Clock readings of a recovery call that only end up in a time column: the two that decide something, at the claim and at the authorization update, are separate.
- Attempts made by callers other than the gate and the coordinator: nobody else creates attempts with `retry`.
- The `reauthorize` callback and coordinators without a grant store: the retry grant id is then arbitrary or never found again.
- The recovery evidence chain: after a cut-off call its events can be missing or repeated.
- `find_stale_running` and `recover_stale_running`: a read-only selection and a loop over `retry_if_safe`.
- Overlapping authority calls about one agent: they load and save without a transaction, so one call at a time is assumed for each agent.
- Malformed statuses and states read back from storage: the model's types hold only well-formed ones.
- FlowTracer.BuildFlows: lower case is that of ASCII letters.
- RPC verification, clustering, entity links and evidence scores of an investigation: they do not touch the expansion.
- Command line, signer service, clients, executors, orchestrator/master.py and agents/worker.py: plumbing and heuristics.
