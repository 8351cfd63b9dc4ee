# Governed external effects, modelled and verified

An external effect in Habitat passes through four services: an authority that
holds delegated grants and quotas, an effect service with a ledger of what it has
asked for, a provider that changes the world, and a state service that projects
the outcome, leases work and switches system generations. Each writes to
disk, and a crash may fall between any two writes. This project models those
services, proves their parts against functional specifications, and proves what
the whole system keeps over every run.

Reading order:

- `Contracts`: the entities that cross service boundaries. A digest is a value
  that holds what was digested, so equal digests mean equal contents. Targets
  and effect ids are sequences, because prefixes matter.
- `Grants`, `AuthorityStore`, `AuthorityRuns`: delegation chains, the two-phase
  authority store as a class over mutable maps, and its runs; `AuthorityAnswers`:
  exactly when each request is authorized, and what becomes of a reservation.
- `EffectLedger`, `LedgerInvariant`, `LedgerRestore`, `LedgerRuns`: the ledger as
  a class with rollback to the previous image, its invariant, rebuilding it from
  canonical records, and its crash behaviour when it is kept in a file;
  `LedgerAnswers`: exactly which reservations and moves it accepts.
- `OfflineProvider`: the provider as a class over a file system of whole-file
  writes, with a crash point between any two; `ProviderAnswers`: what it carries
  out, leaves on disk and reports, field by field.
- `EffectService`, `EffectServiceRuns`, `EffectSafety`: the distributed protocol
  as a state machine over the three above; `EffectServiceLoop` is the submit and
  reconciliation loop as a program over the live objects, in which every call is
  proved to be a step of that machine, and every pass to come to what
  `EffectOutcomes` states of it: success exactly when every promise of success is
  there and every answer is heard.
- `DurableEffects`: the effect tables behind a checkpoint, with their
  append-only triggers.
- `EffectProjection`, `Lifecycle`, `LifecycleRuns`, `LeaseSafety`, `Generations`,
  `EntityStore`: the state service; `LifecycleAnswers`, `EntityAnswers`: exactly
  what it accepts and what that makes possible.
- `ContractGraph`, `WorkPackets`, `PackageResolver`: the graph algorithms.

Operations that the source performs by updating fields are methods of classes;
each is proved equal to a specification function of the old state, and the runs
are stated over those functions. A request to authority, and a transaction of the
state service, is one atomic step. What cannot be computed from the state (clock
readings, the element a `HashMap` iteration picks, the order in which a table is
read, where a crash falls, which answer is lost) is a parameter that every
theorem quantifies over.

## What the code does not keep

Some promises do not hold of the code as written. Each is stated with the exact
condition under which it does hold, and with a run or an input that breaks it.

- EVALUATE does not count outstanding PREPAREs, so usage can reach twice the
  quota (`TwiceQuotaIsReached`) but never more (`EffectsStayWithinQuota`);
  usage and prepares together stay within quota across a step exactly when
  the step is not an EVALUATE that takes their headroom (`CoverageStep`).
- A revocation at the last epoch value withdraws nothing that was already
  committed (`RevocationBitesBelowCeiling`, `RevokedAndStillAuthorized`).
- A canonical record that does not parse leaves the rebuilt cache incomplete
  although the call reports an error (`RestoreErrorKeepsRecords`).
- The provider alone would create a world file twice if a compensation came
  before the record it compensates (`SpentStep`, `UndisciplinedCreatesTwice`); the
  effect service never sends one that early (`CompensationWaitsForTheRecord`).
- A checkpoint whose record did not change writes no version, so a second
  inconclusive reconciliation is forgotten by a restart; from then on only a
  repetition of that very reconciliation is ever checkpointed
  (`ForgottenReconciliationBlocks`, `WhenRowsRunAhead`; from any new reservation,
  `TwiceInconclusiveForgets`).
- A tick acknowledges the wake of a lease that has run out and has not been
  recovered, and a denial that of a lease still live; either strands the
  lease (`StrandingIsByAcknowledgement`). Past its expiry recovery raises for ever
  (`RecoveryFailsExactly`, `RecoveryNeverAgain`), and with it every objective
  whose lease has run out can no longer be claimed (`StrandedBlocksClaims`); an
  objective is claimed again after a recovery exactly when no lease that has
  run out is stranded (`ReclaimedUnlessStranded`). Six operations lead there
  (`StrandingIsReached`).
- A backup lists rows entity by entity. It cannot be inserted when a row corrects
  one of an entity listed later, although it passes every check
  (`RestoreReproduces`, `GroupedInsertsExactly`, `CrossCorrectionDoesNotRestore`).
- Work packets are found to pass exactly as far as those that can pass are listed
  after their dependencies (`PassIsLeastExactly`, `PassIsLeastForAllGates`,
  `DisorderLosesPackets`).

## Model

| member | source | states |
|---|---|---|
| Grants.AcceptedGrantsAreValid | crates/habitat-authority/src/lib.rs:1088-1126 | a grant list is accepted exactly when every grant is well formed in itself and attenuates the parent it names, and an accepted list makes a table in which every parent exists with a larger remaining depth |
| Grants.FirstFailureExact | crates/habitat-authority/src/lib.rs:1088-1126 | validation reports the first failing grant of the list, and succeeds only when none fails |
| Grants.ChainClimbs | crates/habitat-authority/src/lib.rs:919-930 | every member of a delegation chain is a known grant, and along the chain the remaining depth strictly rises |
| Grants.ChainHasNoDuplicates | crates/habitat-authority/src/lib.rs:919-930 | no grant occurs twice in a chain |
| Grants.GrantChain | crates/habitat-authority/src/lib.rs:919-930 | the loop over parents terminates on every accepted table and returns the chain, without duplicates |
| Grants.ChainInactive | crates/habitat-authority/src/lib.rs:904-917 | the loop answers true exactly when some member of the chain is revoked |
| Grants.DelegationAttenuates | crates/habitat-authority/src/lib.rs:1097-1168 | a request that matches a grant matches every ancestor too, and no ancestor has a smaller quota |
| Grants.SelectGrant | crates/habitat-authority/src/lib.rs:1128-1168 | the selection returns a matching grant of maximal specificity, and nothing only when no grant matches |
| AuthorityStore.RuntimeAuthorityStore.Evaluate | crates/habitat-authority/src/lib.rs:520-598 | new state and decision are those of the specified step: replay, quota of every ancestor charged once, or a denial that changes only the log |
| AuthorityStore.RuntimeAuthorityStore.PrepareEffect | crates/habitat-authority/src/lib.rs:617-688 | PREPARE against its specification: a reservation under the current epoch holding the whole chain, replay of the identical request only, denial when usage and other prepares leave no room |
| AuthorityStore.RuntimeAuthorityStore.CommitEffect | crates/habitat-authority/src/lib.rs:709-777 | COMMIT against its specification: quota charged once along the stored chain, reservation bound to one effect, replay for the same effect, refusal after expiry, a newer epoch or a revoked chain |
| AuthorityStore.RuntimeAuthorityStore.AbortEffect | crates/habitat-authority/src/lib.rs:795-833 | ABORT against its specification: only an uncommitted reservation of the identical request disappears, and usage does not move |
| AuthorityStore.RuntimeAuthorityStore.StatusEffect | crates/habitat-authority/src/lib.rs:835-879 | STATUS against its specification: AUTHORIZED only for the bound effect under the current epoch, PREPARED only for an open reservation |
| AuthorityStore.RuntimeAuthorityStore.ReapExpiredPrepares | crates/habitat-authority/src/lib.rs:881-902 | exactly the uncommitted reservations past their expiry disappear, and their number is returned |
| AuthorityStore.RuntimeAuthorityStore.Revoke | crates/habitat-authority/src/lib.rs:475-494 | revocation adds a known grant once and raises the epoch, saturating at the last value |
| AuthorityStore.RuntimeAuthorityStore.RotateState | crates/habitat-authority/src/lib.rs:496-518 | a state version never used before raises the epoch, and any other is refused, so no version comes back |
| AuthorityStore.RuntimeAuthorityStore.RecordAdminApproval | crates/habitat-authority/src/lib.rs:936-979 | an approval is recorded once, for one digest and one authenticated service |
| AuthorityStore.RuntimeAuthorityStore.ApplyAdmin | crates/habitat-authority/src/lib.rs:981-1062 | an administrative request is applied only under an unused matching approval of another service, once, and is replayed only for the same digest |
| AuthorityRuns.ConservationStep | crates/habitat-authority/src/lib.rs:520-598 | every request keeps the usage of each grant equal to its evaluate reservations plus its committed effect reservations |
| AuthorityRuns.QuotaIsConserved | crates/habitat-authority/src/lib.rs:520-902 | the same conservation law in every state of every run |
| AuthorityRuns.ChargedWithinQuota | crates/habitat-authority/src/lib.rs:540-688 | an EVALUATE is charged, and a PREPARE accepted, only while every grant of the chain is strictly below its quota, PREPARE counting other prepares as well |
| AuthorityRuns.WithinQuotaStep | crates/habitat-authority/src/lib.rs:520-902 | under fixed grants each request keeps committed plus prepared effects, and evaluations, within every quota |
| AuthorityRuns.EffectsStayWithinQuota | crates/habitat-authority/src/lib.rs:520-902 | over whole runs no ancestor has more effects committed or prepared than its quota, and usage plus prepares stays within twice the quota |
| AuthorityRuns.CoverageStep | crates/habitat-authority/src/lib.rs:540-560 | usage plus prepares stays within quota across a step exactly when the step is not an EVALUATE that takes the headroom of a PREPARE |
| AuthorityRuns.PreparesStayCovered | crates/habitat-authority/src/lib.rs:617-902 | without such an EVALUATE the single quota bound holds in every state of the run |
| AuthorityRuns.TwiceQuotaIsReached | crates/habitat-authority/src/lib.rs:520-777 | a run of PREPARE, EVALUATE, COMMIT on a grant of quota one ends with usage two |
| AuthorityRuns.EpochsStep | crates/habitat-authority/src/lib.rs:475-518 | below the last epoch a reservation that carries the current epoch has no revoked chain member, epochs never fall and revocations are never undone |
| AuthorityRuns.DecisionAvoidsRevoked | crates/habitat-authority/src/lib.rs:655-754 | no authorizing decision of EVALUATE, PREPARE or COMMIT names a chain with a revoked member |
| AuthorityRuns.CommittedAnswerIsCurrent | crates/habitat-authority/src/lib.rs:731-864 | COMMIT and STATUS authorize only a reservation of the identical request made under the current epoch |
| AuthorityRuns.RevocationIsFinal | crates/habitat-authority/src/lib.rs:475-494 | after a revocation below the last epoch no later decision is authorized through that grant, and COMMIT and STATUS answer only for reservations younger than any that existed before it |
| AuthorityRuns.RevocationBitesBelowCeiling | crates/habitat-authority/src/lib.rs:475-494 | a revocation withdraws a reported commitment exactly when the epoch had room to rise |
| AuthorityRuns.RevokedAndStillAuthorized | crates/habitat-authority/src/lib.rs:475-494 | a run of PREPARE, COMMIT and revocation from a store at the last epoch, after which STATUS still answers AUTHORIZED |
| AuthorityRuns.CommitmentIsPermanent | crates/habitat-authority/src/lib.rs:709-902 | once bound to an effect a reservation stays committed to that effect and request through every later request, reaping and administration included |
| AuthorityRuns.AuthorizedMeansBound | crates/habitat-authority/src/lib.rs:709-879 | an authorizing answer of COMMIT or STATUS leaves the request bound to exactly the effect asked about |
| AuthorityRuns.TwoPersonStep | crates/habitat-authority/src/lib.rs:936-1062 | every request keeps the two-person rule: each applied change has a used approval for its digest from a service other than the requester |
| AuthorityRuns.TwoPersonRuleHolds | crates/habitat-authority/src/lib.rs:936-1062 | the two-person rule in every state of every run |
| AuthorityRuns.AdministerUsesApproval | crates/habitat-authority/src/lib.rs:981-1062 | a change that takes effect spends exactly its one approval and records its digest under a new request id |
| AuthorityRuns.FreshStoreIsSound | crates/habitat-authority/src/lib.rs:282-337 | an empty store opens exactly when its grants validate, and then satisfies every invariant that the run theorems start from |
| AuthorityAnswers.SelectedIsEntitled | crates/habitat-authority/src/lib.rs:1128-1208 | a request is given a grant exactly when it is presentable and some grant covers it field by field, and then every member of that grant's chain covers it |
| AuthorityAnswers.EvaluateExactly | crates/habitat-authority/src/lib.rs:520-598 | EVALUATE authorizes exactly an entitled request under an identity of its own, with nothing of its chain revoked and quota left, or already reserved for the same chain; each chain member is charged one, once |
| AuthorityAnswers.PrepareExactly | crates/habitat-authority/src/lib.rs:617-688 | PREPARE authorizes exactly an entitled, standing request that is reserved already as it is, or is new and has room under every ancestor; then, and only then, one open reservation with its digest, chain, epoch and configuration is added |
| AuthorityAnswers.CommitExactly | crates/habitat-authority/src/lib.rs:709-777 | COMMIT authorizes exactly the identical request, bound to no other effect, under the chain, epoch, configuration and state it was prepared under; its reservation is then committed to this effect and each chain member charged one, the first time only |
| AuthorityAnswers.StatusExactly | crates/habitat-authority/src/lib.rs:835-879 | STATUS answers AUTHORIZED exactly for a commitment to this effect under what is in force, PREPARED exactly for an open reservation of this request, and changes nothing but its log |
| AuthorityAnswers.AbortExactly | crates/habitat-authority/src/lib.rs:795-833 | ABORT answers ABORTED exactly unless the identity is another request's or committed, and then the identity holds no reservation; no quota moves |
| AuthorityAnswers.ReapExactly | crates/habitat-authority/src/lib.rs:881-902 | reaping drops exactly open reservations prepared thirty seconds ago or more |
| AuthorityAnswers.ReservationFate | crates/habitat-authority/src/lib.rs:475-1062 | of all requests only ABORT of the same request and reaping drop an open reservation, only an authorized COMMIT commits it, and nothing drops a commitment |
| AuthorityAnswers.ReservationOrigin | crates/habitat-authority/src/lib.rs:617-688 | a reservation comes about only by an authorized PREPARE of its identity |
| AuthorityAnswers.AbortedIsGone | crates/habitat-authority/src/lib.rs:795-833 | over every run, after ABORTED and until a later PREPARE of the identity, nothing is reserved under it: STATUS answers neither PREPARED nor AUTHORIZED, and no COMMIT of it is authorized |
| AuthorityAnswers.AbortReturnsHeadroom | crates/habitat-authority/src/lib.rs:795-833 | ABORT of an open reservation takes exactly one from the prepared count of each member of its chain, and from no other grant |
| AuthorityAnswers.PreparedIsCommitted | crates/habitat-authority/src/lib.rs:617-777 | over every run an authorized PREPARE is followed by an authorized COMMIT and its binding, unless it was dropped or committed, or authority revoked or reconfigured, in between |
| AuthorityAnswers.RotationWithdraws | crates/habitat-authority/src/lib.rs:496-518 | after a rotation neither COMMIT nor STATUS authorizes what was reserved under an earlier state version |
| AuthorityAnswers.AdministerExactly | crates/habitat-authority/src/lib.rs:981-1062 | a new administrative request is applied exactly with an unused approval of it by another service and with something to do; the approval is spent on it and it is answered yes ever after |
| AuthorityAnswers.ApproveExactly | crates/habitat-authority/src/lib.rs:936-979 | an approval is taken exactly from the reviewer and under a new name, or repeated as it was |
| AuthorityAnswers.ApprovedIsApplied | crates/habitat-authority/src/lib.rs:936-1062 | an approval of a request by the reviewer lets the console apply it |
| AuthorityAnswers.RestartExactly | crates/habitat-authority/src/lib.rs:282-337 | a restart takes exactly valid grants under a state version not given up; an unchanged configuration keeps the epoch, a changed one starts the next, and revocations, usage and reservations stay |
| LedgerInvariant.MoveIsLegal | crates/habitat-effects/src/lib.rs:861-1094 | every accepted move takes a legal edge of the effect state machine, appends exactly one history entry for it and changes nothing else of the record; recording an answer moves nothing |
| LedgerInvariant.ReservedOnlyFirst | crates/habitat-effects/src/lib.rs:516-524 | along a legal history RESERVED comes first and only first, a terminal state only last, REJECTED only second, and every other later state lies behind an EXECUTING |
| LedgerInvariant.TerminalRefuses | crates/habitat-effects/src/lib.rs:861-1094 | a terminal effect refuses every move |
| LedgerInvariant.MoveKeepsSound | crates/habitat-effects/src/lib.rs:861-1094 | a move keeps history and state in agreement, exactly one dispatch attempt once EXECUTING was reached and none before, and at most eight reconciliations |
| LedgerInvariant.ReserveKeepsSound | crates/habitat-effects/src/lib.rs:537-634 | a reservation keeps records and idempotency keys in bijection, one compensation per original, and gap-free numbers per ordering group |
| LedgerInvariant.OpKeepsSound | crates/habitat-effects/src/lib.rs:516-1094 | every operation keeps the whole ledger invariant and only extends what is on file: proposals fixed, histories longer, terminal entries untouched |
| LedgerInvariant.RecoverListsTheUnfinished | crates/habitat-effects/src/lib.rs:1170-1188 | recovery lists exactly the effects whose history does not end in a terminal state, and a RESERVED effect has never been dispatched |
| LedgerInvariant.SequencesAreContiguous | crates/habitat-effects/src/lib.rs:679-693 | the numbers reserved in an ordering group are exactly one to its size, each once |
| LedgerRuns.ErrorsChangeNothing | crates/habitat-effects/src/lib.rs:479-515 | an operation that returns an error leaves the records in memory as they were, a ledger that is no longer available changes nothing at all, and a storage error makes it unavailable |
| LedgerRuns.StepCrashAtomic | crates/habitat-effects/src/lib.rs:414-515 | after each operation, with a fault anywhere in its write, memory and file agree, or the ledger is closed and the file holds the old image or that of the one operation in doubt |
| LedgerRuns.CrashAtomicity | crates/habitat-effects/src/lib.rs:414-515 | over runs with faults and reopenings an available ledger equals its file, and a closed one differs from it by at most the single operation that failed |
| LedgerRuns.LedgerStaysSound | crates/habitat-effects/src/lib.rs:414-1094 | over the same runs the ledger invariant holds and later states extend earlier ones |
| LedgerRestore.RestoreRoundTrip | crates/habitat-effects/src/lib.rs:428-478 | restoring the canonical records of a sound ledger, in any order, gives back its records, its key index and every trail |
| LedgerRestore.RestoreErrorKeepsRecords | crates/habitat-effects/src/lib.rs:428-478 | a failing restore leaves memory unchanged in every case exactly when every record parses |
| EffectLedger.EffectLedger.ReserveRuntime | crates/habitat-effects/src/lib.rs:537-634 | the reservation method, its rollback and its persistence against the specified run of one operation, the replayed or new record returned |
| EffectLedger.EffectLedger.CommitOrRestore | crates/habitat-effects/src/lib.rs:479-515 | a failed write puts the previous image back and closes the ledger |
| EffectLedger.EffectLedger.RestoreAuthoritative | crates/habitat-effects/src/lib.rs:428-478 | the rebuilding loop equals the specified restore, a record that does not parse included |
| EffectLedger.EffectLedger.DispatchRuntime | crates/habitat-effects/src/lib.rs:882-913 | dispatch against its specification: a granted decision that fits the proposal, one attempt, EXECUTING |
| EffectLedger.EffectLedger.RejectReserved | crates/habitat-effects/src/lib.rs:861-870 | rejection only out of RESERVED, as specified |
| EffectLedger.EffectLedger.TransportLost | crates/habitat-effects/src/lib.rs:963-977 | a lost transport turns EXECUTING into OUTCOME_UNKNOWN and amends the last attempt, as specified |
| EffectLedger.EffectLedger.RecordProviderResponse | crates/habitat-effects/src/lib.rs:978-994 | an answer is recorded on the last attempt of an EXECUTING effect without a transition, as specified |
| EffectLedger.EffectLedger.Observe | crates/habitat-effects/src/lib.rs:995-1016 | only independent evidence concludes an EXECUTING effect, as specified |
| EffectLedger.EffectLedger.BeginReconciliation | crates/habitat-effects/src/lib.rs:1017-1046 | a reconciliation is opened at most eight times and only for an unknown outcome, as specified |
| EffectLedger.EffectLedger.ReconciliationInconclusive | crates/habitat-effects/src/lib.rs:1047-1067 | an inconclusive probe is recorded and the effect stays open, as specified |
| EffectLedger.EffectLedger.Resolve | crates/habitat-effects/src/lib.rs:1068-1094 | only independent evidence resolves a reconciling effect, as specified |
| LedgerAnswers.ReserveExactly | crates/habitat-effects/src/lib.rs:537-694 | under a new key a reservation is accepted exactly when the decision grants and fits, the proposal has not expired, its provider is registered for its class and can be asked again from E2 on, an E3 contract is complete and open, its number is the next of its group, and what it compensates succeeded, is uncompensated and of the same objective and activation; the ledger then has this one RESERVED record more |
| LedgerAnswers.ReplayExactly | crates/habitat-effects/src/lib.rs:636-651 | under a known key nothing changes, and the effect on file is answered exactly for its own proposal, expiry aside, granted and unexpired |
| LedgerAnswers.InTurnIsNext | crates/habitat-effects/src/lib.rs:679-693 | the number that is accepted next in a group is its size and one |
| LedgerAnswers.MoveExactly | crates/habitat-effects/src/lib.rs:861-1094 | each move is accepted exactly in its states, and sets the state, adds its one history entry and amends its own attempt, and nothing else |
| LedgerAnswers.MoveEffectExactly | crates/habitat-effects/src/lib.rs:861-1094 | on the ledger a move of an effect is that of its entry, and touches no other entry, key or registration |
| OfflineProvider.AllWritesAreTheStep | crates/habitat-execution/src/lib.rs:386-554 | the writes of one uninterrupted execution add up to the atomic step: the same world, records and answer |
| OfflineProvider.CrashesKeepTheOutcome | crates/habitat-execution/src/lib.rs:386-554 | any number of attempts of a command, each cut off after any write, changes neither the outcome nor the answer still to come |
| OfflineProvider.CrashRefinement | crates/habitat-execution/src/lib.rs:386-554 | after any such crashes a completed retry ends in the same world, the same records and the same observation as one uninterrupted run |
| OfflineProvider.FirstIntentIsFinal | crates/habitat-execution/src/lib.rs:400-520 | the command first written for an effect id stays pinned in every later state, and records never change |
| OfflineProvider.OtherCommandsAreRefused | crates/habitat-execution/src/lib.rs:400-520 | any other command for a pinned id writes nothing and is refused |
| OfflineProvider.CreationNeedsOwnCommand | crates/habitat-execution/src/lib.rs:440-536 | a world file appears only under its own effect's commit command, while the effect is unspent, and holds that command's effect id, operation, payload and request digest, which is the digest of that payload |
| OfflineProvider.SpentStep | crates/habitat-execution/src/lib.rs:386-554 | an effect once applied stays spent across an attempt exactly unless the attempt would compensate an effect that has its file but no record, survives the removal of that file, and, if it is about itself, dies before its own record |
| OfflineProvider.CreatedAtMostOnce | crates/habitat-execution/src/lib.rs:386-554 | if compensation runs only on recorded effects, each world file is created at most once |
| OfflineProvider.CompensatedStaysUndone | crates/habitat-execution/src/lib.rs:386-554 | a recorded effect whose file is gone never gets it back |
| OfflineProvider.RecordsStayTruthful | crates/habitat-execution/src/lib.rs:329-385 | under that discipline a record is never found invalid, and reads back as itself exactly when it is of a compensation or its file is still in the world |
| OfflineProvider.UndisciplinedCreatesTwice | crates/habitat-execution/src/lib.rs:386-554 | a run in which an early compensation makes the same world file be created a second time |
| OfflineProvider.OfflineProvider.Execute | crates/habitat-execution/src/lib.rs:386-554 | the method, stopped after any number of whole-file writes, leaves the disk and gives the result that `ProviderAnswers.ExecuteExactly` describes by field when it is not stopped, and that `CrashRefinement` relates to it when it is |
| ProviderAnswers.AnswerExactly | crates/habitat-execution/src/lib.rs:386-424 | a command is answered with an observation exactly if it is proper and open, or recorded as it is and borne out by the world; the observation names its transport and attests to the bytes of its file, or to the absence of the one it compensates |
| ProviderAnswers.ExecuteExactly | crates/habitat-execution/src/lib.rs:386-554 | an execution that is not cut short leaves exactly the command's file, or removes exactly the one it compensates, files its record, and clears its intent and its staged copy; and a command that is not open changes neither world nor records |
| ProviderAnswers.ObserveExactly | crates/habitat-execution/src/lib.rs:329-385 | a record is observed exactly if it is on file under this id, for this digest, and the world bears it out |
| ProviderAnswers.ExecutedIsObserved | crates/habitat-execution/src/lib.rs:386-565 | an execution answers exactly when it survives all its writes and is not refused, and what it answered is then observed, unchanged |
| ProviderAnswers.AtMostFiveWrites | crates/habitat-execution/src/lib.rs:426-554 | an execution makes at most five file writes |
| EffectServiceRuns.StepKeeps | crates/habitat-effects/src/main.rs:680-1605 | each step of the service, of authority, of the provider, and each restart keeps the protocol invariant |
| EffectServiceRuns.RestartKeeps | crates/habitat-effects/src/main.rs:95-110 | a cache rebuilt from the canonical records in any order satisfies the invariant |
| EffectServiceRuns.DispatchKeeps | crates/habitat-effects/src/main.rs:1532-1548 | dispatch under an authority decision keeps everything that ever executed backed by a commitment |
| EffectServiceRuns.CheckpointKeeps | crates/habitat-effects/src/main.rs:485-578 | a checkpoint brings the store level with the cache, and only then may the service move on |
| EffectServiceRuns.ReserveKeeps | crates/habitat-effects/src/main.rs:1434-1463 | a reservation, fresh or replayed, keeps the invariant |
| EffectSafety.InvariantHolds | crates/habitat-effects/src/main.rs:680-1605 | the protocol invariant holds in every state of every run from an empty system |
| EffectSafety.ChangeIsJustified | crates/habitat-effects/src/main.rs:1371-1605 | a step that changes the world or the records is a provider attempt of a command whose effect had durably reached EXECUTING and for whose request authority holds a commitment bound to exactly that effect |
| EffectSafety.EffectsAreAuthorized | crates/habitat-effects/src/main.rs:1371-1605 | the same over every run, with crashes, retries, late and repeated deliveries |
| EffectSafety.ExecutionsAreDistinct | crates/habitat-effects/src/main.rs:1371-1605 | two commands sent for different effects share neither request id nor idempotency key |
| EffectSafety.CompensationWaitsForTheRecord | crates/habitat-effects/src/lib.rs:562-593 | a compensation is sent only for an effect the provider has on record |
| EffectSafety.AppliedAtMostOnce | crates/habitat-effects/src/main.rs:680-1605 | over every run of the whole system the world file of an effect is created at most once |
| EffectSafety.SpentForGood | crates/habitat-execution/src/lib.rs:386-554 | over every run an applied effect stays spent, its record stays, and a compensated effect is never applied again |
| EffectSafety.SuccessIsRecorded | crates/habitat-effects/src/main.rs:428-483 | the ledger claims success only for an effect whose own command the provider has on record |
| EffectSafety.NothingIsForgotten | crates/habitat-effects/src/main.rs:680-700 | after any crash a command once sent is durably on file, and finished or listed for recovery; recovery lists nothing else than open durable effects |
| EffectSafety.ExecutedWithinCommitted | crates/habitat-authority/src/lib.rs:709-777 | the commands sent under a grant are no more than the commitments charged to it |
| EffectSafety.ExecutedWithinQuota | crates/habitat-authority/src/lib.rs:617-777 | over every run under fixed grants the commands sent under any grant or ancestor never exceed its quota |
| EffectServiceLoop.Advance | crates/habitat-effects/src/main.rs:680-1605 | a call that is an enabled step extends the run of the protocol and keeps its invariant |
| EffectServiceLoop.CommittedIsExecuted | crates/habitat-effects/src/main.rs:1371-1605 | when COMMITTED is answered for a request, the provider's record is of exactly the command of that request |
| EffectServiceLoop.ReplayIdentifies | crates/habitat-effects/src/lib.rs:636-651 | a replay found for a request is on file under the identity of that request's proposal, expiry aside |
| EffectServiceLoop.EffectsService.constructor | crates/habitat-effects/src/main.rs:1112-1238 | a service over a well-formed authority, and nothing sent or stored yet, stands on a run of the protocol |
| EffectServiceLoop.EffectsService.Submit | crates/habitat-effects/src/main.rs:1371-1605 | one request through the live services, whatever answers are lost and wherever the provider dies, is a run of the protocol. A request with every promise of success (`Promising`: valid, in its window, new or reserved already, supported, one elected grant with room) is COMMITTED exactly if PREPARE and COMMIT are heard, the commit is in time, the state service takes the result, and the provider makes all its writes and is heard; the provider's record and file are then this request's by field, authority holds the commitment, and the ledger has the one dispatch with its response and evidence. Otherwise it is answered, by the first of these that failed, UNAVAILABLE, FAILED or OUTCOME_UNKNOWN, with the ledger, the authority and the provider as stated for each. UNAVAILABLE is answered only if something was not heard. Repetitions, invalid and uncovered requests leave no effect |
| EffectServiceLoop.EffectsService.OpenRequest | crates/habitat-effects/src/main.rs:1290-1370 | PREPARE is sent exactly for a valid request in its window, with its precondition, whose key is new or on file for the same proposal not ended; an effect that has ended is answered from the ledger exactly for a repetition of its request |
| EffectServiceLoop.EffectsService.ReserveEffect | crates/habitat-effects/src/main.rs:1434-1456 | the reservation, made or replayed, is the protocol's step, its id is that of the request, and it is accepted under a new key exactly for a granted, supported and compensable proposal, under a known key exactly for the same one |
| EffectServiceLoop.EffectsService.CheckpointEffect | crates/habitat-effects/src/main.rs:485-578 | the checkpoint is the protocol's step, puts the record of the cache in the store, and leads to the continuation it was made for; over a different terminal record it refuses |
| EffectServiceLoop.EffectsService.DispatchAndLaunch | crates/habitat-effects/src/main.rs:1532-1605 | a reserved effect is dispatched exactly under a decision that grants its own request, and then launched: EXECUTING, checkpoint, provider call, observation, each in this order a step of the protocol, ending as `Launched` states |
| EffectServiceLoop.EffectsService.CommitAndDispatch | crates/habitat-effects/src/main.rs:1489-1533 | an expired reservation is given back at authority and ends rejected; within its window it is committed and launched, or refused without a trace, and what authority holds is not refused |
| EffectServiceLoop.EffectsService.Confirm | crates/habitat-effects/src/main.rs:1571-1605 | of an executing effect the answer, then the observation are recorded, each with a checkpoint, then the objective is guarded; it ends OBSERVED_SUCCEEDED with this response and evidence, and COMMITTED is answered exactly then |
| EffectServiceLoop.EffectsService.LoseOutcome | crates/habitat-effects/src/main.rs:1552-1570 | an executing effect ends OUTCOME_UNKNOWN, its dispatch classified as lost, and is one that recovery lists |
| EffectServiceLoop.EffectsService.GuardObjective | crates/habitat-effects/src/main.rs:650-678 | the objective counts as guarded exactly if it has no open effect and the state service took the guard; no effect moves |
| EffectServiceLoop.EffectsService.ReconcileReserved | crates/habitat-effects/src/main.rs:689-840 | a durable reservation after a crash is rejected exactly if the state service has it so; else dispatched exactly if authority holds its current commitment, given back if it is pending past its window, committed and dispatched if pending within it, and otherwise left alone, each by steps of the protocol |
| EffectServiceLoop.EffectsService.ReconcileUnknown | crates/habitat-effects/src/main.rs:873-1075 | an unknown outcome ends RESOLVED_SUCCEEDED, answered COMMITTED, or RESOLVED_FAILED, answered FAILED, exactly as the outcome that was learnt, if the provider's record is found and heard of and its outcome is known or persisted; the command is sent again only if there is none and no outcome known; without a verdict the effect stays RECONCILING and listed; the attempt with its call, evidence and classification is on file |
| EffectServiceLoop.EffectsService.Reconcile | crates/habitat-effects/src/main.rs:680-1078 | one effect of recovery, by the state it was found in: recovered, launched again, or reconciled as stated for each, and untouched otherwise |
| EffectServiceLoop.EffectsService.StartProcess | crates/habitat-effects/src/main.rs:95-110 | a new process with a fresh ledger rebuilt from the canonical records is the protocol's restart |
| EffectOutcomes.PromiseKept | crates/habitat-effects/src/main.rs:1434-1605 | a request that is ready once authority holds its reservation is fulfilled: what the stages after the reservation come to is what `Fulfilled` promises |
| EffectOutcomes.ProvidedFor | crates/habitat-effects/src/main.rs:1532-1552 | the provider has nothing on file for a new or reserved effect and will carry its command out |
| EffectOutcomes.PrepareTells | crates/habitat-authority/src/lib.rs:617-688 | PREPARE is not refused to a request with an elected grant and room, or held already, and is refused to one that no grant covers, whichever grant the map yields |
| EffectOutcomes.CommitTells | crates/habitat-authority/src/lib.rs:709-777 | COMMIT is not refused to what is held for an elected grant; it grants only with the binding to this effect, and otherwise leaves every reservation |
| EffectOutcomes.ElectedIsChosen | crates/habitat-authority/src/lib.rs:1128-1168 | a covering grant that every other ranks below is the one selected, whatever order the map yields |
| EffectOutcomes.UnsentIsUntouched | crates/habitat-effects/src/main.rs:1532-1552 | for an effect that has not durably reached EXECUTING the provider has no intent, no record and no file |
| EffectOutcomes.CheckpointNeverRefused | crates/habitat-effects/src/main.rs:485-578 | within the protocol no checkpoint meets a different terminal record |
| EffectOutcomes.LaunchIsFulfilled | crates/habitat-effects/src/main.rs:1532-1605 | a launch from a reservation succeeds with record, file, dispatch and evidence of this request exactly if it is carried out, and is recorded as lost otherwise |
| EffectOutcomes.ReconciliationComes | crates/habitat-effects/src/main.rs:873-1075 | looking, opening the attempt and classifying it make up the reconciliation as stated |
| EffectOutcomes.FirstRequestPromises | crates/habitat-effects/src/main.rs:1112-1434 | the first commit request of a new service has every promise of success as soon as one root grant covers it with quota left |
| DurableEffects.VersionsProgress | crates/habitat-effects/src/main.rs:485-578 | over every run of ledger moves, checkpoints and restarts the stored versions of an effect extend one another and the cache never falls behind the newest |
| DurableEffects.RowsOnlyFillIn | crates/habitat-effects/src/main.rs:540-566 | attempt and reconciliation rows are never removed or rewritten, only completed |
| DurableEffects.RestartReadsTheVersion | crates/habitat-effects/src/main.rs:567-578 | after an accepted checkpoint a restart reads the same record, and the same trails exactly when the record had changed or the newest version already had them |
| DurableEffects.WhenRowsRunAhead | crates/habitat-effects/src/main.rs:567-574 | rows run ahead of the newest version exactly when a checkpoint with an unchanged record added a reconciliation |
| DurableEffects.ForgottenReconciliationBlocks | crates/habitat-effects/src/main.rs:530-566 | once rows run ahead of the version a restart reads, the next reconciliation is checkpointed exactly when its call, answer, source and classification agree with the row already on record under its number |
| DurableEffects.InconclusiveRetryThenRestart | crates/habitat-effects/src/main.rs:930-1075 | after a second inconclusive probe the next checkpoint is accepted without a restart and refused after one |
| DurableEffects.TwiceInconclusiveForgets | crates/habitat-effects/src/main.rs:873-1075 | from any new reservation: dispatched, lost, twice probed in vain, restarted; of all later reconciliations only a repetition of the second is ever checkpointed |
| EffectProjection.Projection.ObserveEffectTransition | src/habitat_state/lifecycle.py:612-671 | the transaction, its replay and its rollbacks against the specified step |
| EffectProjection.TransitionKeepsAgreement | src/habitat_state/lifecycle.py:612-671 | a transition keeps projection and log in agreement: versions from one upward, a legal path, one request digest, the projected state |
| EffectProjection.ProjectionAgreesWithLog | src/habitat_state/lifecycle.py:612-671 | the agreement in every state of every run, guards and invalidations interleaved |
| EffectProjection.AuditFindsNothing | src/habitat_state/lifecycle.py:457-468 | the recovery audit never counts an inconsistent effect |
| EffectProjection.ReplayIsIdempotent | src/habitat_state/lifecycle.py:269-282 | any accepted transition, sent again at any later time, changes nothing and returns its first result, and with other contents is refused |
| EffectProjection.SettledForGood | src/habitat_state/lifecycle.py:612-671 | once committed or failed, an effect's row never changes again |
| EffectProjection.ObserveExactly | src/habitat_state/lifecycle.py:612-671 | a transition under a new identity is accepted exactly if it is one of the nine listed, under a canonical digest, with the references its state asks for, its objective is live, and it starts where the effect's log ends; it adds its one row and brings the effect's row up to it, keeping the references it does not give anew |
| EffectProjection.PrecheckExactly | src/habitat_state/lifecycle.py:615-629 | what is refused before the database is looked at, against an explicit list of transitions and references |
| EffectProjection.SettledHasEvidence | src/habitat_state/lifecycle.py:625-665 | over every run a dispatched effect has the provider's identity on its row, a committed or failed one its evidence too, and the evidence is the newest in its log |
| Lifecycle.LifecycleService.ScheduleObjective | src/habitat_state/lifecycle.py:500-522 | scheduling against its specification |
| Lifecycle.LifecycleService.CancelDeniedObjective | src/habitat_state/lifecycle.py:524-561 | denial against its specification |
| Lifecycle.LifecycleService.CompleteReadyObjective | src/habitat_state/lifecycle.py:563-610 | a tick against its specification |
| Lifecycle.LifecycleService.ClaimActivation | src/habitat_state/lifecycle.py:857-959 | claim, replay, reclaim and every refusal against its specification |
| Lifecycle.LifecycleService.RecoverExpired | src/habitat_state/lifecycle.py:384-441 | the release loop, and its rollback when one row cannot be released, against its specification |
| Lifecycle.LifecycleService.CommitActivationCommand | src/habitat_state/repository.py:215-244 | the command ledger behind the fence check against its specification |
| Lifecycle.LifecycleService.GuardObjectiveEffects | src/habitat_state/lifecycle.py:673-717 | the guard over projections joined with canonical records, against its specification |
| Lifecycle.LifecycleService.CheckpointRecord | crates/habitat-effects/src/main.rs:562-576 | the record of a checkpoint against its specification: an equal one accepted, a terminal one never changed, that of a compensation taking the objective's guard back |
| LifecycleRuns.StepKeepsSound | src/habitat_state/lifecycle.py:384-959 | schedule, deny, tick, claim, recover, commit, guard and invalidate keep wakes, activations, histories and the command ledger in agreement |
| LifecycleRuns.TablesStaySound | src/habitat_state/lifecycle.py:384-959 | the same in every state of every run |
| LeaseSafety.FencesAreSequential | src/habitat_state/lifecycle.py:881-959 | an objective has one activation, its history is versions one to n without gaps, and its issued fences are exactly one to the current one, each once |
| LeaseSafety.StaleFenceIsRefused | src/habitat_state/lifecycle.py:961-994 | once a later fence has been issued, nothing bound to an earlier one ever resolves, commits a command or reads one back |
| LeaseSafety.ReleasedLeaseIsRefused | src/habitat_state/lifecycle.py:961-994 | only the current fence of a live lease, before its deadline, resolves |
| LeaseSafety.CommandsAreCommittedOnce | src/habitat_state/repository.py:215-244 | a committed command keeps its first result under its own fence and digest, and is never replaced |
| LeaseSafety.ReplayedClaimVerifies | src/habitat_state/repository.py:170-211 | the published claim payload, rebuilt from the stored activation of a claim, is the one that was published |
| LeaseSafety.RecoveryFailsExactly | src/habitat_state/lifecycle.py:384-441 | recovery raises exactly when some expired lease's wake was acknowledged under it |
| LeaseSafety.StrandingIsByAcknowledgement | src/habitat_state/lifecycle.py:524-600 | an activation becomes stranded exactly when it holds its lease, its objective is pending, and a tick that may complete it or a denial not given before comes; then its row is frozen |
| LeaseSafety.RecoveryNeverAgain | src/habitat_state/lifecycle.py:384-441 | after a stranding every recovery past that lease's expiry raises and changes nothing |
| LeaseSafety.StrandingIsReached | src/habitat_state/lifecycle.py:500-561 | six operations from empty tables that strand one lease, with another objective pending behind it and recovery raising at the expiry of both |
| LeaseSafety.StrandedBlocksClaims | src/habitat_state/lifecycle.py:384-441 | with one lease stranded, and recoveries only past its expiry, a wake that was leased stays leased or is acknowledged, and every new claim of it is refused without change |
| LeaseSafety.ClaimedUnlessLeased | src/habitat_state/lifecycle.py:881-959 | a pending, due objective is claimed by its activation, or by a new one if it has none, exactly when its wake is not leased |
| LeaseSafety.ReclaimedUnlessStranded | src/habitat_state/lifecycle.py:384-441 | a pending objective whose lease has run out is claimed again after a recovery exactly when no activation whose lease has run out is stranded |
| LeaseSafety.PendingWorkIsNeverLost | src/habitat_state/lifecycle.py:500-610 | in every state of every run a proposed objective has an unacknowledged wake, which a tick finds due once its time and any lease on it have passed; if it is leased, the objective's activation holds that lease with the same expiry |
| LeaseSafety.AcknowledgedForGood | src/habitat_state/lifecycle.py:563-610 | an acknowledged wake never changes again, so each is acknowledged at most once |
| LeaseSafety.LogsStaySound | src/habitat_state/lifecycle.py:612-671 | over every run of all these operations projections agree with their transition log |
| LeaseSafety.SatisfiedOnlyByTick | src/habitat_state/lifecycle.py:563-610 | only a tick satisfies an objective, out of PROPOSED, and only when the guarded set is exactly its effects, all COMMITTED and canonically successful, the log of each ending in OBSERVED_SUCCEEDED or RESOLVED_SUCCEEDED |
| LeaseSafety.CommittedForGood | src/habitat_state/lifecycle.py:612-671 | whatever transitions and checkpoints come, a committed, canonically successful effect keeps its row and its record, and its log ends in a success |
| LeaseSafety.CompletionStands | src/habitat_state/lifecycle.py:563-671 | the effects that satisfied an objective are still its effects, committed and successful, in every later state |
| LifecycleAnswers.ScheduleExactly | src/habitat_state/lifecycle.py:500-522 | a new objective is proposed exactly if neither it nor its wake exists, with a wake due from then on |
| LifecycleAnswers.DenyExactly | src/habitat_state/lifecycle.py:524-561 | a denial is taken exactly for a proposed objective whose wake is open; it ends cancelled, its wake never due again |
| LifecycleAnswers.GuardExactly | src/habitat_state/lifecycle.py:673-717 | a guard is ready exactly when the set is the objective's whole, non-empty effect set, each committed and canonically successful, and none a compensation; a successful compensation compensates the objective |
| LifecycleAnswers.TickExactly | src/habitat_state/lifecycle.py:563-610 | a tick satisfies exactly a proposed objective whose guard is ready over its present effect set, all of it successful |
| LifecycleAnswers.GuardedIsCompleted | src/habitat_state/lifecycle.py:563-717 | a guard just taken completes a proposed objective at its due wake exactly when it came out ready |
| LifecycleAnswers.InvalidateExactly | src/habitat_state/lifecycle.py:719-733 | a guard is taken back exactly for a committed effect of a guarded objective, and keeps its set |
| LifecycleAnswers.SaveRecordExactly | crates/habitat-effects/src/main.rs:562-576 | a record is taken exactly if it is on file, or no ended one stands and, for a compensation, its original is a committed effect of a live, guarded objective; a compensation takes the guard back |
| LifecycleAnswers.ClaimExactly | src/habitat_state/lifecycle.py:857-959 | a claim under a new command is granted exactly for an open due wake, an available activation and a bound system; the activation then has the next fence, the lease, the caller's scope and the caller's credential digest, in row, history and reply |
| LifecycleAnswers.ResolveExactly | src/habitat_state/lifecycle.py:961-994 | an activation resolves exactly for its own fence, scope and credential digest, while it is live, leased, in time and under the same system |
| LifecycleAnswers.ClaimResolves | src/habitat_state/lifecycle.py:857-994 | what a claim handed out resolves exactly until the lease runs out, and with another fence, scope, objective or credential never |
| LifecycleAnswers.CommitExactly | src/habitat_state/repository.py:215-244 | a new command is committed exactly under an activation that resolves; it is then answered with its first result, and under another digest told so |
| LifecycleAnswers.ReleaseExactly | src/habitat_state/lifecycle.py:384-441 | recovery of a lease that its wake agrees with keeps the fence, frees the wake and leaves the activation requested, or failed if it was waiting for an effect |
| LifecycleAnswers.ReclaimSupersedes | src/habitat_state/lifecycle.py:384-994 | after recovery and reclaim the fence is one higher and the holder before resolves no more |
| Generations.GenerationController.EnsureActiveGeneration | src/habitat_state/lifecycle.py:795-801 | the first generation is bound once, against its specification |
| Generations.GenerationController.ProposeGovernedChange | src/habitat_state/lifecycle.py:999-1041 | proposing against the present binding version, against its specification |
| Generations.GenerationController.TransitionGovernedChange | src/habitat_state/lifecycle.py:1043-1103 | a stage transition with its guards, conditional binding update and rollback against its specification |
| Generations.AtMostOneActivation | src/habitat_state/lifecycle.py:1043-1103 | of two activations in a run the later was proposed against a strictly later binding version, so of the candidates of one version at most one is ever activated |
| Generations.ActivationStep | src/habitat_state/lifecycle.py:1074-1103 | an activation switches from the generation the candidate was proposed against to its target, at exactly the proposed version |
| Generations.ActivationIsExact | src/habitat_state/lifecycle.py:1074-1103 | an otherwise admissible activation succeeds exactly when the binding is still at the version it was proposed against |
| Generations.RollbackStep | src/habitat_state/lifecycle.py:1074-1103 | a rollback is accepted only for the newest binding change and takes the binding from that candidate's target to its rollback generation |
| Generations.RollbackRestores | src/habitat_state/lifecycle.py:1074-1103 | a rollback undoes one earlier activation of the same candidate, with no binding change in between, and restores exactly the generation active before it |
| Generations.VersionsRise | src/habitat_state/lifecycle.py:1024-1103 | binding versions never fall, and an equal version means the same binding: there is no way back to an old version |
| Generations.CandidatesStaySound | src/habitat_state/lifecycle.py:999-1103 | over every run each candidate's history is a legal path of stages with rising versions that ends in its stage |
| Generations.ArtifactIsConstant | src/habitat_state/lifecycle.py:1043-1075 | the artifact digest is the same from BUILT to ACTIVATED and equals the proposed source from EVALUATED on; evaluator and confirmer differ; nothing is activated unevaluated |
| Generations.ProposeExactly | src/habitat_state/lifecycle.py:999-1041 | a candidate is proposed exactly against the active generation, under a new identity, with an evaluator, a source digest and another target |
| Generations.TransitionExactly | src/habitat_state/lifecycle.py:1043-1103 | a candidate moves exactly along a listed move with that stage's evidence and, for activation and rollback, the binding as it has to be; row, history, binding and reply are given by field |
| Generations.TransitionReplays | src/habitat_state/lifecycle.py:1043-1103 | over every run a transition sent again changes nothing and gets its first answer, and nothing else is done under its command id |
| Generations.ProposalReplays | src/habitat_state/lifecycle.py:999-1041 | the same of a proposal |
| EntityStore.StateStore.Apply | src/habitat_state/store.py:209-269 | the transition transaction against its specification: replay, version conflict, legality, evidence, correction |
| EntityStore.StoreStaysSound | src/habitat_state/store.py:209-269 | over every run each entity's rows are versions one to n along a legal path, and the current row repeats the last |
| EntityStore.FindExactly | src/habitat_state/store.py:209-269 | the row found for a command id is the row that has it, and none is found only when none has it |
| EntityStore.ReplayChangesNothing | src/habitat_state/store.py:209-269 | a command sent again at any later time changes nothing and returns its row, and with other contents is refused |
| EntityStore.LogOnlyGrows | src/habitat_state/store.py:209-269 | the transition log is append-only over every run |
| EntityStore.BackupPassesChecks | src/habitat_state/store.py:316-405 | the backup of any reachable state passes every consistency check of restore |
| EntityStore.ExportRoundTrip | src/habitat_state/store.py:316-368 | a backup of a reachable state is refused only for its size, and one that was taken is never too large to restore |
| EntityStore.RestoreReproduces | src/habitat_state/store.py:364-427 | restoring a reachable state's backup succeeds exactly when the target bucket holds nothing conflicting and no row corrects one of an entity later in order, and then reproduces entities, transitions and evidence |
| EntityStore.GroupedInsertsExactly | src/habitat_state/store.py:364-427 | rows in entity order insert one by one exactly when no row corrects one of an entity later in order |
| EntityStore.RestoredIsSound | src/habitat_state/store.py:364-427 | what restores is a sound store again, so every run theorem applies to what follows |
| EntityStore.BucketExactly | src/habitat_state/evidence.py:24-34 | putting the evidence back succeeds exactly when no object in the bucket has the same key with other contents |
| EntityStore.OwnCorrectionsRestore | src/habitat_state/store.py:364-427 | when entities correct only their own rows, every backup order inserts |
| EntityStore.CrossCorrectionDoesNotRestore | src/habitat_state/store.py:316-427 | three operations from an empty store lead to one whose backup is taken and cannot be restored anywhere |
| EntityStore.StateStore.CheckTransitions | src/habitat_state/store.py:364-405 | the version loop accepts exactly the rows that fit, and ends with each entity's highest version |
| EntityAnswers.LivesAreListed | src/habitat_state/domain.py:44-63 | over every run each entity is of one kind, born as its kind is, and moves by the steps of an explicit list only |
| EntityAnswers.TransitionExactly | src/habitat_state/store.py:209-269 | a new command is accepted exactly when the expected version is the number of rows, the change is a listed step from the present state, its evidence is registered, its identity is new and its correction known; otherwise nothing changes, and the version on record is told |
| EntityAnswers.OneWriterPerVersion | src/habitat_state/store.py:209-269 | over every run, of the writers that expect one version of an entity at most one is accepted |
| EntityAnswers.PutEvidenceExactly | src/habitat_state/store.py:165-188 | evidence is taken exactly up to the size limit and unless the bucket has the object otherwise; it then verifies, under the provenance first given |
| ContractGraph.TopologicalMeansAcyclic | contracts/v2.0.1/validate_contract.py:24-43 | a graph with a topological order has no cycle |
| ContractGraph.ClosedMeansCyclic | contracts/v2.0.1/validate_contract.py:24-43 | a non-empty set of nodes in which each has a predecessor contains a cycle |
| ContractGraph.Degrees | contracts/v2.0.1/validate_contract.py:24-34 | the first loop counts known edges with their multiplicity and reports exactly the unknown ones |
| ContractGraph.Acyclic | contracts/v2.0.1/validate_contract.py:24-43 | for any nodes and any edges, duplicates included, a cycle is reported exactly when there is one, and otherwise the order popped is topological |
| WorkPackets.PacketResults | tools/qualify_v2_release.py:260-272 | the loop's result for each packet, and the set it reports passed |
| WorkPackets.PassedIsEarned | tools/qualify_v2_release.py:260-272 | what passes is contained in every set closed under own gates and dependencies |
| WorkPackets.OrderedPassIsLeast | tools/qualify_v2_release.py:260-272 | with dependencies listed first, what passes is exactly the least such set |
| WorkPackets.LeastPassIsLeast | tools/qualify_v2_release.py:260-272 | for every contract and every set of gates there is such a least set |
| WorkPackets.PassIsLeastExactly | tools/qualify_v2_release.py:260-272 | with distinct packets, what passes is the least such set exactly when every packet that passes on it has each dependency listed earlier as a packet that does too |
| WorkPackets.PassIsLeastForAllGates | tools/qualify_v2_release.py:260-272 | it is so for all gates exactly when no packet that can pass under any is listed before one of its dependencies |
| WorkPackets.PassedIsMonotone | tools/qualify_v2_release.py:260-272 | more passed gates never fail a packet |
| WorkPackets.DisorderLosesPackets | tools/qualify_v2_release.py:260-272 | a contract listed the other way round, in which an earned packet fails |
| WorkPackets.OrderedContractIsAcyclic | contracts/v2.0.1/validate_contract.py:174-192 | a contract with distinct packets listed after their dependencies has an acyclic combined dependency graph |
| PackageResolver.ReachedIsLeast | crates/habitat-packages/src/lib.rs:553-591 | the packages reached from the roots are the least set that contains them and is closed under first-provider choice |
| PackageResolver.Resolve | crates/habitat-packages/src/lib.rs:553-591 | the worklist terminates, on cyclic requirements too, succeeds exactly when every reached package exists, fits the host and has its requirements provided, returns the reached set in strictly ascending order, and otherwise names what is wrong with a reached package |
| PackageResolver.ResolutionIgnoresOrder | crates/habitat-packages/src/lib.rs:553-591 | roots in any order, or named twice, resolve or fail alike, and to the same list |

## Left out

- GuardObjective: in the source the reconciliation of an unknown outcome guards the objective before its checkpoint; here after it. Guards are kept in memory only, so no record or durable row depends on the order.
- ReconcileUnknown: the state service's chain of transitions before UNCERTAIN is one outcome, persisted or not; the individual writes of that chain are not modelled in this module.
- Submit: a refused request carries no reason. What it promises is of one pass on its own; other requests to authority between its PREPARE and its COMMIT are in the runs of `PreparedIsCommitted` and `EffectsAreAuthorized`.
- CheckpointEffect: a store that cannot be reached is a crash at that point, which is a restart in the runs; in the loop a checkpoint is refused only over a terminal record.
- Launched: that records and files of the provider are as stated assumes its one outcome, SUCCEEDED; it has no other.
- EffectServiceRuns.StepKeeps: the committed reservation agrees with the record in request id, activation, objective, capability, operation and target; a replay of the same proposal under another generation is a different authority request, so the stored request itself is not claimed to be the committed one.
- EffectsAreAuthorized: holds for the one provider that `main` registers.
- CrashRefinement: crash points lie between whole-file operations; a file that is half written is not modelled.
- FencesAreSequential: covers the operations that the state protocol exposes; the older calls that create, lease or transition activations and wakes directly are not part of this model.
- CompleteReadyObjective: takes any due wake; the query takes the first by due time and id that no other transaction has locked, so a first wake without a ready guard holds up the ticks behind it.
- ClaimActivation: of the request's form only the length of the lease is checked, not the prefixes of its identifiers.
- CheckpointRecord: attempts, reconciliations and versions of a checkpoint are in `DurableEffects`; here only the record.
- ProjectionAgreesWithLog: the constraint on `durable_effects` that does not list FAILED is not modelled.
- RestoreReproduces: restoring assigns entity rows in one transaction; digests of objects in the bucket are compared through their contents. Entity identifiers are numbers in place of UUIDs.
- CheckTransitions: a hand-made backup that lists one evidence item twice is outside the round trip.
- ExportRoundTrip: the length of the encoded backup is a parameter.
- PackageResolver.Resolve: packages are a list in ascending key order, which is what the source's sorted map iterates over; of several obstacles, which one is reported may depend on the order of the roots.
- Acyclic: the initial ready list is any ordering of the nodes without incoming edges, where the source sorts it; the verdict is proved for each.
- Sockets, peer credentials, frames, the clock and randomness: answers that arrive or not, and readings of the clock, are parameters.
- SHA-256, HMAC forwarding proofs and Ed25519 signatures: digests are injective by construction, and a proof that does not verify ends a request before the part modelled here.
- The authority's own file: the effect protocol uses an authority whose requests are atomic, so failures of `commit_authority` after a mutation are not modelled.
- Decision identifiers, issuer chains and the text of log entries.
- Overflow of usage sums and sequence numbers at 64 bits; only the revocation epoch's ceiling is modelled.
- `EffectLedger::cancel` and the non-durable `register_provider`: they change state outside the history and outside persistence.
- Proposing and compensating through `propose_authorized`: the service uses the runtime path only.
- Package staging, activation, rollback and `ChangeJournal`.
- Capability-set publication, authority snapshots, evidence reservation and envelopes, projections and their status.
- Qualification runners, scope classification, adapters and rendering.
