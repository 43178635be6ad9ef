# Offboard admissions, ownership and configuration snapshots: a verified model

This project models two linked protocols of the cloud API service and a few of its
self-contained algorithms, and proves what they promise.

**Offboard admissions.** An environment that is being cleaned up has one hold row in
this service. A second process, automation, owns the record of the cleanup itself. It
sends complete snapshots of its unfinished records, claims holds under a lease and
returns receipts; commands arrive at least once and in any order. While a hold exists
nobody may be given the environment.

- `Text`, `CanonicalJson`, `Commands`: trimming, ordering and numerals; canonical JSON
  and its unique readability; the three commands, their validation and hashes.
- `Admissions`: every transaction of the ledger as a function from tables to tables,
  and runs of such steps. `AdmissionLaws`, `SnapshotRuns`, `ClaimRuns`, `Delivery`: what
  each step keeps, when a snapshot is applied, exclusion of claims, exactly-once effect.
  `ClaimGrants`: which holds a claim hands out, and that an abandoned one comes back.
- `AdmissionLedger`: the ledger class, statement by statement with loops and rollback,
  proved against `Admissions`.
- `Ownership`, `OwnershipLaws`, `UserStore`: grants, registry, audit and holds under
  `setScope`, `updateUser`, customer offboarding and provisioning; the store class
  proved against the functions. `OwnershipOutcomes`: when each is accepted, what it
  answers otherwise and the whole store it leaves.
- `CrossProcess`, `CrossProcessRuns`: both processes together. From its admission until
  its record is purged, an offboard keeps its environment held and without a new owner,
  in every run in which the direct path does not give its row to another record before
  its own is created.
- `ReleaseHazards`: what fails without that condition and without either guard of the
  release, as runs from an empty ledger: the displaced offboard, the unguarded pass of
  the store with the exact condition of the loss, and the stale snapshot.

**Versions, cursors, checkpoints.** Config writes bump counters in their own
transaction; counters are folded into a cursor by Cantor pairing; snapshots carry cursor
and payload; consumers keep monotone checkpoints.

- `Cantor`, `ConfigVersions`, `SnapshotSource`: the fold, the version table, snapshots
  over whole histories of writes.
- `MirrorBump`: relayed bumps, an inbox and its pruning. `Checkpoint`: the conditional
  upsert. `Refresh`: the per-stream refresh as a state machine over promise steps.
- `Environments`, `Registrations`, `SlowStart`, `MirrorOutcomes`, `Bindings`:
  registrations with their write gate and what they leave, the slow-start mirror against
  the published projection, what each of them says of an account, and account bindings.

**Algorithms.** `Schedule` (week masks, ranges, current and next window),
`ConcurrentMap` (bounded-concurrency mapping), `RateLimiter` (login limiter).

Every transaction is one atomic step: the row locks and advisory locks of the source
serialise them. Failing transactions return the tables they began with. Identifiers
that the source draws at random are numbered draws that never repeat; hashes are the
hashed text itself, so equal hashes mean equal text.

## What the cross-process proof assumes

`CrossProcess.Enabled` states it in one place. Automation creates a record once, purges
it and never revives it. A snapshot comes from a read that lists exactly the unpurged
records of its target; a read is not stamped later than it was taken, and stamps of a
target do not go back from one read to the next. Users may be created and environments
registered during a run. A receipt that reports a
materialisation is not stamped earlier than the record's creation. The direct path
stamps this service's own clock, which is then not behind any creation. Nothing is
assumed about that clock when a snapshot adopts a hold, and this is where the rejection
of stale snapshots is needed: the stamp of an adopted hold may lie before its record's
creation (`ReleaseHazards.StaleSnapshotIsRefused`, `ReleaseHazards.StaleGuardIsNeeded`). The release guard is needed for
the other order, a record created and materialised after the read
(`ReleaseHazards.PassRaces`). Receipts carry whole milliseconds: a stamp that is
rounded down below a creation in the same millisecond breaks the assumption, and the
guard compares with `<=`.

## Where the code does less than it seems to promise

- A hold does not always outlast its cleanup. When the direct path is told of another
  record for the environment, the row names that one from then on; once that record is
  purged a snapshot releases the row, and a worker that claimed the hold before may
  still create the record the hold was taken for, which then has none
  (`ReleaseHazards.DisplacementHappens`). The hold survives every run without such a
  step (`CrossProcessRuns.CleanupKeepsOwnersOut`), and after any such step it can be lost
  (`ReleaseHazards.DisplacedHoldIsLost`).
- A newer, valid snapshot is not always applied: a date after the year 9999, a key or
  offboard id that contains U+0000, or two rows whose keys and offboard ids run together
  to the same text roll the whole snapshot back; nothing else does
  (`SnapshotRuns.AppliedIff`, `SnapshotRuns.IdsCanClash`).
- A revocation of an environment that is held already gets no cleanup of its own: it
  finds the row of the earlier one, and the next snapshot may release it
  (`OwnershipLaws.RevocationHolds`, `OwnershipLaws.LeftoverAbsorbs`). That happens only
  after a snapshot adopted a record for an environment somebody owns
  (`CrossProcessRuns.RevocationsGetOwnHolds`).
- An account id stored with blanks around it resolves through its environment and is
  not reachable under that id (`Bindings.ResolvedIsReachable`). Registrations never
  store one.
- The operation policy publishes two payloads under one cursor when a write falls
  between its two reads; its payload is still never older than its cursor. Reads that
  find the cursor unmoved agree (`SnapshotSource.SettledPoliciesAgree`). The other
  direction holds only where every bump changes the policy for good
  (`SnapshotSource.PoliciesAgreeIffSettled`).
- A registration without a binding bumps no version. It leaves the published projection
  alone but may change what a refreshed mirror holds: it does exactly when some account
  shows otherwise (`SlowStart.SameMirrorIff`), never when no item changes whether a bound,
  active environment counts as Facebook (`SlowStart.UnboundKeepsMirror`), and always when
  one item does so for an account with no two others mirrored (`SlowStart.FlipChangesMirror`).
- The login limiter lets through up to `2 * max - 1` failures per half-open window, not
  `max`; the bound is reached.

## Model

| member | source | states |
|---|---|---|
| CanonicalJson.CanonicalInjective | src/client-auth/offboard-admission-ledger.ts:73-81 | two JSON values print the same text only if they are the same value, objects compared without their member order |
| Text.TrimCuts | src/client-auth/client-user-store.ts:2690-2694 | trimming cuts off space at both ends and nothing else, and leaves none at either end |
| Text.BlankIsTrimmed | src/client-auth/offboard-admission-ledger.ts:99 | the validation's blank texts are exactly those of which trimming leaves nothing |
| Commands.PayloadHashFaithful | src/client-auth/offboard-admission-ledger.ts:73-85 | with a collision-free hash, equal payload hashes mean the same command in every field |
| Commands.DigestIsRowSet | src/client-auth/offboard-admission-ledger.ts:156-168 | with unique environment keys the digest stands for the set of rows: equal exactly when the sets are |
| Admissions.PicksAreFirst | src/client-auth/offboard-admission-ledger.ts:385-394 | a claim takes as many due rows as the limit allows, in order, and every due row left out comes after them |
| AdmissionLaws.AppliedSnapshotHolds | src/client-auth/offboard-admission-ledger.ts:290-323 | the holds after an applied snapshot, row by row: kept, adopted with their record's data, or released |
| AdmissionLaws.SnapshotConservesAndCovers | src/client-auth/offboard-admission-ledger.ts:252-347 | the receipt's counts account for every row gained and lost, both sets are disjoint, every listed environment has a hold, unmaterialised and other targets' holds stay, the cursor is strictly newer |
| AdmissionLaws.SnapshotReleases | src/client-auth/offboard-admission-ledger.ts:290-323 | an applied snapshot releases exactly the target's holds that were materialised by its time and are not listed, holds everything listed, and leaves every other row as it was |
| AdmissionLaws.AdoptedCarryTheirRow | src/client-auth/offboard-admission-ledger.ts:292-307 | an adopted hold has its record's offboard, reason and request time, is materialised from the start and claimed by nobody |
| AdmissionLaws.OtherReconcilesAreInert | src/client-auth/offboard-admission-ledger.ts:252-288 | a reconcile that does not apply its snapshot moves no hold and no cursor |
| AdmissionLaws.RunKeepsConsistency | src/client-auth/client-user-store.ts:951-976 | over any run primary keys stay unique, revisions positive and no undrawn id is in use |
| SnapshotRuns.AppliedIff | src/client-auth/offboard-admission-ledger.ts:290-323 | a valid, new and newer snapshot is applied exactly when its dates lie before the year 10000, its keys and offboard ids are without U+0000 and the derived ids do not clash |
| SnapshotRuns.SnapshotApplied | src/client-auth/offboard-admission-ledger.ts:194-288 | from the tables and the command alone: a new snapshot is applied exactly when it is complete, in range, without a repeated key, newer, storable and its ids free, and which error any other one that is refused gets |
| SnapshotRuns.IdsCanClash | src/client-auth/offboard-admission-ledger.ts:296-300 | two rows with different keys and offboards whose derived ids are equal, so that adoption fails |
| SnapshotRuns.AgainstState | src/client-auth/offboard-admission-ledger.ts:252-288 | against the state an earlier snapshot left: older is stale; same moment gets the earlier receipt if the row sets agree and a collision if not; newer is neither |
| SnapshotRuns.RunKeepsCursor | src/client-auth/offboard-admission-ledger.ts:329-345 | over any run a target's snapshot cursor never goes back and its digest and receipt stay while it does not move |
| SnapshotRuns.OlderIsStaleForGood | src/client-auth/offboard-admission-ledger.ts:261-266 | a snapshot older than one applied is refused whatever happened in between |
| ClaimRuns.GrantedHold | src/client-auth/offboard-admission-ledger.ts:384-412 | what a claim hands out was due and unlocked, and its row now carries exactly the token, revision and lease handed out |
| ClaimGrants.ClaimAccepted | src/client-auth/offboard-admission-ledger.ts:351-372 | a new claim is accepted exactly when its ids are texts of 1 to 200 units the database takes, its numbers are in range and every hold has a target |
| ClaimGrants.ClaimHandsOut | src/client-auth/offboard-admission-ledger.ts:384-429 | an accepted new claim lists a hold exactly when it is unmaterialised, of the target, unlocked, under no running lease, and fewer such holds than the limit come before it; listed in order, each row one revision on and leased for 30 seconds, every other row as it was |
| ClaimGrants.AbandonedIsGrantedAgain | src/client-auth/offboard-admission-ledger.ts:390-402 | 30 seconds after the last grant of a hold that nobody reported back on, a new claim with room for it gets it again, under a higher revision and another token |
| ClaimGrants.DirectOutcome | src/client-auth/client-user-store.ts:1010-1015 | the direct path writes record and time into the one row with the id and touches nothing else |
| ClaimGrants.DirectIsFinal | src/client-auth/client-user-store.ts:1010-1015 | after it, whatever happens, receipts for the hold are stale and no claim hands it out |
| ClaimRuns.ClaimsExclude | src/client-auth/offboard-admission-ledger.ts:384-412 | two claims are granted one hold only with an applied receipt in between or 30 seconds after the first, and at a higher revision |
| ClaimRuns.StaleAfterGrant | src/client-auth/offboard-admission-ledger.ts:484-493 | after a grant, receipts for lower revisions are stale for good |
| ClaimRuns.SupersededTokenIsStale | src/client-auth/offboard-admission-ledger.ts:397-493 | once a hold was granted again, a receipt with the earlier token is stale for good, whatever revision it expects |
| ClaimRuns.CurrentReceiptIsAnswered | src/client-auth/offboard-admission-ledger.ts:487-528 | a receipt with the current token and revision frees the hold, materialises it at the reported time, fails for a time the database does not take, or collides and changes nothing; no other row changes |
| ClaimRuns.OtherReceiptsAreStale | src/client-auth/offboard-admission-ledger.ts:476-493 | every other receipt is stale, with the revision its row is at or 0 for none, and moves no hold |
| ClaimRuns.ReceiptAccepted | src/client-auth/offboard-admission-ledger.ts:432-463 | a new receipt is accepted exactly when its parts are in range, unless it would materialise its hold at a time the database does not take |
| ClaimRuns.ReceiptAppliesOnce | src/client-auth/offboard-admission-ledger.ts:476-528 | over a whole run at most one materialised receipt is applied to a hold, and an applied receipt uses its revision up |
| ClaimRuns.TokenRevision | src/client-auth/offboard-admission-ledger.ts:397 | a claim token determines its revision, although its parts are run together |
| Delivery.AcceptedIsRecorded | src/client-auth/offboard-admission-ledger.ts:605-618 | a new command is recorded with its hash and receipt exactly when it is accepted; a rejected one leaves no trace |
| Delivery.FirstReceipt | src/client-auth/offboard-admission-ledger.ts:266-288 | a first delivery is marked a duplicate only for a snapshot already applied under another id; a result's receipt says applied exactly when it passes the compare-and-swap |
| Delivery.RepeatAfterRun | src/client-auth/offboard-admission-ledger.ts:230-241 | after any run the same command gets its first receipt back, marked as a duplicate unless it is a result that was not applied, which gets its first reply unchanged; another command under its id is refused; neither changes anything |
| Delivery.OnceIsEnough | src/client-auth/offboard-admission-ledger.ts:372-382 | any sequence of deliveries ends in the tables that its first accepted deliveries alone produce |
| AdmissionLedger.Ledger.CheckRows | src/client-auth/offboard-admission-ledger.ts:205-228 | the validation loop accepts exactly valid rows with distinct keys and collects those keys |
| AdmissionLedger.Ledger.Adopt | src/client-auth/offboard-admission-ledger.ts:290-310 | the insert skips held environments and fails as a whole on a primary key clash |
| AdmissionLedger.Ledger.ReconcileActiveOffboardSnapshot | src/client-auth/offboard-admission-ledger.ts:194-349 | the transaction leaves the tables and gives the answer of the specified step, or rolls back |
| AdmissionLedger.Ledger.PickDue | src/client-auth/offboard-admission-ledger.ts:385-394 | the selection loop takes the first due rows in order |
| AdmissionLedger.Ledger.ClaimPendingMaterializations | src/client-auth/offboard-admission-ledger.ts:351-430 | the claim transaction does what the specified step does, for any set of rows locked elsewhere |
| AdmissionLedger.Ledger.RecordMaterializationReceipt | src/client-auth/offboard-admission-ledger.ts:432-532 | the compare-and-swap transaction does what the specified step does |
| OwnershipLaws.EnqueueAllEffect | src/client-auth/client-user-store.ts:951-976 | admitting a list of cleanups holds exactly their environments, with pending rows under freshly drawn offboard ids, and changes no other row |
| OwnershipLaws.EnqueueAllIsARun | src/client-auth/client-user-store.ts:951-976 | the store's admissions are admission steps of the ledger's runs |
| OwnershipLaws.RevokedAreHeld | src/client-auth/client-user-store.ts:2596-2602 | everything revoked that needs cleanup has a hold, possibly an earlier one; every new hold is for a revoked environment and names its user, reason and actor |
| OwnershipLaws.RevocationHolds | src/client-auth/client-user-store.ts:960-976 | a revocation has a pending hold of its own, under a fresh offboard, exactly when the environment was not held; else it finds the row as it is |
| OwnershipLaws.LeftoverAbsorbs | src/client-auth/client-user-store.ts:964-967 | with a releasable row left over, the revocation is released by the next snapshot without a cleanup |
| OwnershipLaws.InsertAllEffect | src/client-auth/client-user-store.ts:3287-3301 | the insertion loop fails exactly when some environment is held or owned by another, and otherwise adds them all |
| OwnershipLaws.FirstTrip | src/client-auth/client-user-store.ts:3285-3318 | the first environment that cannot be inserted decides whether the hold trigger or the one-owner index fails the call |
| OwnershipLaws.SetScopeOutcome | src/client-auth/client-user-store.ts:3207-3302 | a call is accepted exactly when the user exists, every listed environment is registered, not held and not another's, and the cleanups can be admitted; and its whole result |
| OwnershipLaws.SetScopeReplaces | src/client-auth/client-user-store.ts:3276-3301 | after it the user owns exactly the listed environments and everybody else what they had |
| OwnershipOutcomes.ScopeOutcome | src/client-auth/client-user-store.ts:3207-3302 | when a call is accepted, which refusal it gets and which environment that names, and the store it leaves: grants with what the registry says, audit with the reason of each row, and a new cleanup for what is dropped |
| OwnershipOutcomes.UpdateUserOutcome | src/client-auth/client-user-store.ts:2544-2620 | when a patch is accepted, which refusal it gets, and the store it leaves: disabling an enabled user takes, audits and admits for cleanup everything it owns, any other patch changes the user's row alone |
| OwnershipOutcomes.OffboardOutcome | src/client-auth/client-user-store.ts:1021-1085 | when a customer may offboard an environment, which refusal it gets otherwise, and the store that leaves |
| OwnershipOutcomes.ProvisionOutcome | src/client-auth/client-user-store.ts:1927-2270 | of the granting part: when a pending intent is completed, which refusal it gets otherwise, and that nothing but grant, registry and intent changes |
| OwnershipOutcomes.CreateUserOutcome | src/client-auth/client-user-store.ts:2519-2541 | a user is created enabled exactly for a free trimmed name of 1 to 64 units |
| OwnershipLaws.OffboardRemovesAndHolds | src/client-auth/client-user-store.ts:1030-1085 | customer offboarding removes the owner, holds the environment for it and audits the grant in one step |
| OwnershipLaws.OperationLaws | src/client-auth/client-user-store.ts:345-359 | every store transaction keeps one owner per environment, gives no held environment away, leaves none it holds owned, audits every removed grant and holds what needs cleanup |
| OwnershipLaws.RegistryViewsAgree | src/client-auth/client-user-store.ts:2804-2814 | registrations change labels and platforms the same way in both views of the registry |
| UserStore.ClientUserStore.EnqueueAdmission | src/client-auth/client-user-store.ts:951-976 | one pending row per environment, the existing row of the same target, or failure |
| UserStore.ClientUserStore.SetScope | src/client-auth/client-user-store.ts:3192-3324 | the statements with their rollbacks have the specified outcome, refusals included |
| UserStore.ClientUserStore.UpdateUser | src/client-auth/client-user-store.ts:2544-2628 | renaming and disabling, with the revocation of everything owned, have the specified outcome |
| UserStore.ClientUserStore.BeginEnvironmentOffboard | src/client-auth/client-user-store.ts:1021-1093 | the customer's own offboarding has the specified outcome |
| CrossProcess.Start | src/client-auth/offboard-admission-ledger.ts:252-323 | any tables without outstanding reads and admissions satisfy the invariant |
| CrossProcess.SnapshotKeepsSecured | src/client-auth/offboard-admission-ledger.ts:312-323 | an applied snapshot keeps the hold of every admitted offboard that is neither purged nor displaced, created or not |
| CrossProcess.SnapshotCoversAdopted | src/client-auth/offboard-admission-ledger.ts:290-310 | a hold adopted from a snapshot is secured from then on, whatever this service's clock says |
| CrossProcess.DisplacesIff | src/client-auth/client-user-store.ts:1010-1015 | a direct step displaces an offboard still to be created exactly when the row taken for it then names another record |
| CrossProcess.DirectKeepsInv | src/client-auth/client-user-store.ts:989-1018 | materialising on the direct path secures the record it names and, given a common clock, every other obligation, except an offboard not created yet whose row it gives to another record |
| CrossProcess.StepKeepsInv | src/client-auth/offboard-admission-ledger.ts:252-323 | every step of either process keeps all obligations secured that are not displaced, and forgets none |
| CrossProcessRuns.CleanupKeepsOwnersOut | src/client-auth/client-user-store.ts:3236-3252 | in every run, from its admission until its record is purged, an offboard that no direct step displaces keeps its environment held, and the environment gains no owner |
| CrossProcessRuns.CleanupRefusesAssignment | src/client-auth/client-user-store.ts:3236-3252 | and all that time no setScope call by anybody can assign it |
| CrossProcessRuns.CreatedIsNeverDisplaced | src/client-auth/client-user-store.ts:1010-1015 | once its record is created no run displaces an offboard, so the two theorems hold for it without that condition |
| CrossProcessRuns.OwnershipThroughout | src/client-auth/client-user-store.ts:389-390 | over every run an environment never has two owners, and each grant is still there or in the audit |
| CrossProcessRuns.WaitsForCreation | src/client-auth/client-user-store.ts:960-976 | over any run that does not displace it, an offboard not yet created has a pending hold of its own |
| CrossProcessRuns.RevocationsGetOwnHolds | src/client-auth/client-user-store.ts:960-976 | over any run in which no snapshot adopts a record for an owned environment, every revocation that needs cleanup gets a pending hold of its own |
| ReleaseHazards.PassLosesTheLateOnes | src/client-auth/client-user-store.ts:3341-3380 | the unguarded pass drops the hold of a live record exactly when it is materialised and unlisted, and then the record was created after the read |
| ReleaseHazards.PassOnPresentRead | src/client-auth/client-user-store.ts:3341-3380 | with nothing in between read and delete the unguarded pass keeps every live hold |
| ReleaseHazards.PassRaces | src/client-auth/client-user-store.ts:3374-3380 | the run that loses a hold: read, create, materialise, delete; the guarded release keeps it |
| ReleaseHazards.StaleSnapshotIsRefused | src/client-auth/offboard-admission-ledger.ts:252-288 | a live hold that an older snapshot would release is saved by the staleness check alone |
| ReleaseHazards.StaleGuardIsNeeded | src/client-auth/offboard-admission-ledger.ts:261-266 | a run from an empty ledger to such a state: the older snapshot, applied all the same, would release a live record's hold |
| ReleaseHazards.DisplacedHoldIsLost | src/client-auth/client-user-store.ts:1010-1015 | any displacement can be followed by steps after which the offboard's record is live and its environment is not held |
| ReleaseHazards.DisplacementHappens | src/client-auth/client-user-store.ts:1010-1015 | such a run, from an empty ledger and a customer's own unbinding |
| Cantor.PairFormula | src/config/api-sync-read-source.ts:495-498 | numbering pairs diagonal by diagonal is what the source computes: half of sum times sum plus one, plus the second |
| Cantor.PairInjective | src/config/api-sync-read-source.ts:495-498 | no two pairs have one number |
| Cantor.FoldInjective | src/config/api-sync-read-source.ts:486-493 | the fold is injective on lists of one length |
| Cantor.FoldIncreasing | src/config/api-sync-read-source.ts:486-493 | the fold rises strictly in every component |
| ConfigVersions.CursorFaithful | src/config/api-sync-read-source.ts:472-493 | equal cursors mean equal counters, and with counters that only rise the cursor rises exactly when one of them does |
| ConfigVersions.BumpRaisesCursor | src/config/mirror-version-store.ts:134-142 | a bump of a listed key strictly raises the cursor, of any other key leaves it |
| SnapshotSource.CommitRaises | src/config/mirror-version-store.ts:100-110 | a write that bumps what it changes raises the cursor of every stream whose payload it changes |
| SnapshotSource.OnePayloadPerCursor | src/config/api-sync-read-source.ts:174-192 | over all histories, two snapshots of a stream with equal cursors have equal payloads |
| SnapshotSource.ChangeShows | src/config/api-sync-read-source.ts:194-434 | a payload that changed since has a larger cursor |
| SnapshotSource.PolicyIsNotStale | src/config/api-sync-read-source.ts:435-448 | as long as the owner's cursor equals the published one, the published policy is the current one |
| SnapshotSource.PolicyAgreesWhenRead | src/config/api-sync-read-source.ts:435-448 | any two published policies agree if the owner's cursor was the same when they were read, and only if, where no policy returns under another count |
| SnapshotSource.SettledPoliciesAgree | src/config/api-sync-read-source.ts:435-448 | policies published under one cursor agree when both reads found the cursor unmoved |
| SnapshotSource.PoliciesAgreeIffSettled | src/config/api-sync-read-source.ts:435-448 | and exactly then, for one settled read and any other, where no policy returns under another count |
| SnapshotSource.PolicyOrderMatters | src/config/api-sync-read-source.ts:435-448 | two policies under one cursor can be published, and the other order of reads would leave a stale one for good |
| MirrorBump.Sink.ApplyBump | src/config/mirror-bump-sink.ts:51-86 | inbox row and bump together or neither; refusals and repeats leave no trace |
| MirrorBump.DeliveryOutcome | src/config/mirror-bump-sink.ts:51-86 | a delivery of a new dedup key bumps its counter by one and leaves a row stamped with its time; any other delivery leaves everything |
| MirrorBump.BumpsAccountedFor | src/config/mirror-bump-sink.ts:51-104 | a counter rises by the dedup keys first delivered for it plus the redeliveries of pruned ones |
| MirrorBump.ExactlyOnce | src/config/mirror-bump-sink.ts:51-104 | exactly once for every key if and only if no pruned dedup key is redelivered |
| MirrorBump.RowsLastTheWindow | src/config/mirror-bump-sink.ts:88-97 | a dedup row survives every default pruning within its retention |
| MirrorBump.InTimeIsOnce | src/config/mirror-bump-sink.ts:51-97 | with default prunings, redeliveries within 30 days of a key's first delivery leave every counter at exactly one bump per new dedup key |
| Checkpoint.CheckpointTable.Store | src/config/api-sync-read-checkpoint-store.ts:39-108 | the upsert and its answers; a refused store changes nothing and returns the row in the way |
| Checkpoint.FirstStored | src/config/api-sync-read-checkpoint-store.ts:39-62 | a key's first checkpoint is stored exactly if it is all null or all set, with numbers and digest in range |
| Checkpoint.StoredNext | src/config/api-sync-read-checkpoint-store.ts:63-86 | a later one replaces it exactly with a larger cursor, or as a later sighting of the same snapshot, or as the same sighting with another state |
| Checkpoint.LatestSightingStays | src/config/api-sync-read-checkpoint-store.ts:63-86 | in whatever order sightings of one snapshot arrive, one with the latest source time stays |
| Checkpoint.CheckpointsAdvance | src/config/api-sync-read-checkpoint-store.ts:63-86 | a cursor never becomes null or falls, and at one cursor the digest is fixed and the source time does not go back |
| Checkpoint.FinalCursorIsMax | src/config/api-sync-read-checkpoint-store.ts:63-86 | in any order the final cursor is the largest delivered, in a row that was delivered |
| Checkpoint.OrderDoesNotMatter | src/config/api-sync-read-checkpoint-store.ts:45-87 | with one payload per cursor, final cursor and digest depend only on what was delivered |
| Refresh.OneAtATime | src/server.ts:508-525 | at any moment at most one refresh of a stream is running |
| Refresh.GenerationIsReached | src/server.ts:559-581 | a call with a generation that succeeds rests on a fetch of its own, begun after the call, that reached it |
| Refresh.WaitersGetTheAnswer | src/server.ts:508-581 | a fetch succeeds exactly if its cursor reaches the generation asked for and its snapshot is taken over; whoever led or joined it gets that answer, whoever queued goes on after a success only |
| Refresh.RunsEnd | src/server.ts:508-525 | without new calls the number of steps is bounded by a measure of the waiters |
| Refresh.CallsDrain | src/server.ts:508-525 | when nothing but new calls can happen every call has returned |
| Schedule.ActivityMask | src/client-auth/client-environment-schedule.ts:68-72 | an hour is active exactly when the stored mask has it, and always if that mask is not valid |
| Schedule.ContentMask | src/client-auth/client-environment-schedule.ts:68-76 | an hour is content exactly when both masks have it, and an invalid mask has none |
| Schedule.RangesForDay | src/client-auth/client-environment-schedule.ts:78-91 | the ranges are sorted, separated, maximal and cover exactly the set hours |
| Schedule.RangesUnique | src/client-auth/client-environment-schedule.ts:78-91 | only one list of ranges describes a day |
| Schedule.CurrentIsTheSetHour | src/client-auth/client-environment-schedule.ts:116-127 | a current window exists exactly when the hour is set, and is the maximal run around now |
| Schedule.NextOccurrence | src/client-auth/client-environment-schedule.ts:129-144 | the earliest start after now in all the future; none exactly when the mask is empty |
| Schedule.ProjectSchedule | src/client-auth/client-environment-schedule.ts:178-216 | for any stored masks: content falls inside activity, and a window is missing only for want of hours |
| ConcurrentMap.Limit | src/config/facebook-group-join-automation-view.ts:49-50 | one for a request below two or not finite, all items for a request of at least as many, the whole part of the request in between |
| ConcurrentMap.MapWithConcurrency | src/config/facebook-group-join-automation-view.ts:43-61 | under every interleaving indices are taken once each and in order, at most the limit is in flight, and the reply is every item's result or a failure |
| RateLimiter.LoginRateLimiter.RetryAfter | src/client-auth/rate-limiter.ts:31-40 | the loop computes the longest wait among the keys |
| RateLimiter.LoginRateLimiter.RecordFailure | src/client-auth/rate-limiter.ts:43-52 | counts a failure on every key, opening windows that are over |
| RateLimiter.LoginRateLimiter.Clear | src/client-auth/rate-limiter.ts:55-57 | forgets exactly the keys |
| RateLimiter.LoginRateLimiter.Sweep | src/client-auth/rate-limiter.ts:60-64 | drops exactly the windows that are over |
| RateLimiter.WaitIsExact | src/client-auth/rate-limiter.ts:31-40 | with no new failure all keys pass after the wait, and a second earlier one still blocks |
| RateLimiter.AttemptOutcome | src/client-auth/rate-limiter.ts:31-52 | an attempt changes buckets only if it fails and no key is blocked; then each key counts once per listing, in its open window or a new one, and no other key changes |
| RateLimiter.ClearForgets | src/client-auth/rate-limiter.ts:54-57 | after a clear none of its keys blocks at any time, and every other bucket is what it was |
| RateLimiter.SweepIsUnseen | src/client-auth/rate-limiter.ts:59-64 | a sweep changes no later answer and no count of a later failure |
| RateLimiter.FailuresPerWindow | src/client-auth/rate-limiter.ts:31-52 | without a clear at most 2 * max - 1 failures on a key pass in a half-open window and 2 * max in a closed one |
| RateLimiter.BoundIsReached | src/client-auth/rate-limiter.ts:43-52 | for every max, a run that lets 2 * max - 1 failures through in one window |
| Environments.EnvironmentStore.RegisterEnvironments | src/client-auth/client-user-store.ts:2685-2757 | the registry after a batch with its write gate; a version bump and a fresh mirror exactly when a binding was observed |
| Registrations.CleanTakesFirst | src/client-auth/client-user-store.ts:2689-2698 | of a batch exactly the first item of every key that is not blank is written, trimmed, and the retired account id is no observation |
| Registrations.RegistrationOutcome | src/client-auth/client-user-store.ts:2716-2736 | a new binding replaces the old one unless the account is taken elsewhere when its turn comes, given label and platform replace theirs, missing ones keep what was there, a new row is active, and no other environment changes |
| Environments.EnvironmentStore.RefreshMirror | src/client-auth/client-user-store.ts:1247-1324 | the five mirror fields, account by account: resolved, ambiguous or absent |
| Environments.GroupByAccount | src/config/api-sync-read-source.ts:583-604 | the grouping loop collects exactly the account's environments, in order |
| Environments.ProjectSnapshot | src/config/api-sync-read-source.ts:574-623 | blocked environments, and an anchor per account that is ambiguous exactly when it has several |
| MirrorOutcomes.ProjectionOutcome | src/config/api-sync-read-source.ts:574-623 | from the registry rows: the inactive environments in order, and per account its only environment with start and completion, or that there are several |
| MirrorOutcomes.MirrorOutcome | src/client-auth/client-user-store.ts:1247-1324 | from the registry rows: an account with one active Facebook environment is resolved, with the key unless several customers own it, and one with more is ambiguous in both sets |
| MirrorOutcomes.FacebookIff | src/client-auth/client-user-store.ts:1262-1275 | a platform counts exactly if it spells the name or its short form in letters of either case with any spaces around it |
| SlowStart.MirrorAndProjectionAgree | src/client-auth/client-user-store.ts:1297-1318 | whenever mirror and projection both resolve an account they name the same environment, start and completion |
| SlowStart.UnboundLeavesProjection | src/client-auth/client-user-store.ts:2700-2713 | the path that bumps nothing leaves the projection unchanged |
| SlowStart.SameMirrorIff | src/client-auth/client-user-store.ts:1297-1318 | a mirror of one registry is one of another exactly when every account shows the same: absent, ambiguous, or resolved with its start, completion and key |
| SlowStart.MirroredAfter | src/client-auth/client-user-store.ts:2700-2713 | an unbound batch moves an environment into or out of the mirrored ones exactly when an item changes whether a bound, active environment counts as Facebook |
| SlowStart.UnboundKeepsMirror | src/client-auth/client-user-store.ts:2700-2713 | a batch without such an item leaves every mirror a mirror |
| SlowStart.FlipChangesMirror | src/client-auth/client-user-store.ts:2700-2713 | one such item, to or from any platform, changes the mirror of an account with no two other environments mirrored |
| SlowStart.UnboundCanChangeMirror | src/client-auth/client-user-store.ts:2700-2713 | for one, filling in the platform of an account's only environment makes the mirror resolve it |
| SlowStart.RegistrationBumpsWhatItChanges | src/client-auth/client-user-store.ts:2737-2742 | a registration that changes the projection bumps a version of its stream |
| Bindings.OneCustomerPerAccount | src/client-auth/client-user-store.ts:171-177 | in any table state no account resolves for two customers |
| Bindings.ResolveOutcome | src/client-auth/client-user-store.ts:2848-2882 | each answer of the lookup by environment and exactly when it is given: bound, contended, unknown, not owned |
| Bindings.ReachableOutcome | src/client-auth/client-user-store.ts:2952-2972 | each answer of the lookup by account and exactly when it is given |
| Bindings.ResolvedIsReachable | src/client-auth/client-user-store.ts:2848-2882 | what resolves is reachable under its own id exactly when the id is trimmed and not empty |
| Bindings.ReachableResolves | src/client-auth/client-user-store.ts:2952-2972 | a reachable account is no other customer's, and resolves from an environment exactly when that is active and the account exists |
| Bindings.RegistrationsKeep | src/client-auth/client-user-store.ts:2780-2795 | registrations keep the environments of an account under one owner and the stored ids clean |
| Bindings.AfterRegistrations | src/client-auth/client-user-store.ts:2685-2757 | in states registrations lead to, resolving and reaching agree without conditions |

## Left out

- Concurrency inside a transaction: locks, isolation levels and deadlock order; each transaction is one step, and rows that `SKIP LOCKED` passes over are an arbitrary set.
- `clock_timestamp()` per row and `now()` per statement: one time per transaction, in microseconds; wire times are whole milliseconds.
- `claimPendingMaterializations` returns its rows in the order of the selection; SQL leaves the order of `RETURNING` open.
- `leaseMs` of a claim is validated and otherwise unused by the source; only whole numbers are modelled.
- Stored receipts and cursors that are not well formed (`offboard_admission_receipt_corrupt`), and an invalid execution target at construction.
- Text is a sequence of Unicode code points: lone surrogates are not modelled, and keys sort by code point where the source compares UTF-16 units.
- JSON numbers other than integers, negative zero, NaN and undefined members: no command has them once validated.
- Members of a command beyond the declared ones: the source hashes them too.
- A receipt whose `revocationId` is no UUID text makes the source's statement fail; ids here are texts, and such a receipt is stale.
- Text with U+0000 outside the ledger's commands: the database refuses it in the store's calls too, where the model compares it like any other.
- Collisions of SHA-256 and MD5, and repeated random UUIDs.
- `Environments.Conflicts`: owners are compared as sets; with the one-owner index they have at most one member, and states with several are where the source's own query fails.
- `Ownership.Environment` and `Environments.EnvRow` are two views of one table: the columns ownership looks at, and those bindings and slow start look at.
- `Ownership.RegisterTx`: registers labels and platforms only; bindings, their write gate and the version bump are in `Environments`.
- OwnershipOutcomes.ProvisionOutcome: states the granting part only, like `Ownership.ProvisionTx`; see the next line.
- `Ownership.ProvisionTx`: the granting part of `completeProvisioningIntent` only; proofs, expiry, replay of completed intents and the policy rows it writes are not modelled.
- `Admissions.RecordDirectly`: the call of the other process is not modelled, only the update after it answered; unreachable and missing-binding answers change nothing.
- The final phase of `reconcileCleanupAdmissions`, which sends pending holds on the direct path, is any number of direct steps.
- The in-memory group-comment field of the `content_schedule` payload, which no transaction covers.
- Payloads of streams are what their query returns; the field-by-field projections are not modelled except for the environment one.
- The order of the anchors in the environment projection, which a locale decides: they are a map by account.
- `Refresh`: the interleaving of promises is a state machine on values, with one stream per instance; the mirror's own acceptance rules and the timer are not part of it.
- `Schedule`: days have 24 hours, so changes of daylight saving time are not modelled, nor are labels and action views.
- `ConcurrentMap`: the mapper is a function of item and index; workers are counted, not named, since they differ in nothing.
- `RateLimiter`: checking and recording an attempt is one step; several attempts verified at the same time could pass the check together.
- `intersectFacebookGroupJoinAutomationMasks`: an intersection like the one in `Schedule.ContentMask`.
- `lower` on platforms folds ASCII letters only.
- HTTP routes, tokens, panels, ports and configuration reading; connection pools, DDL and schema probing; plain config stores, the publish queue and display names.
