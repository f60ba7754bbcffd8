# Verification of the durable job and commit kernel

The repository is an embedded control-plane store: one SQLite file in which a single atomic transaction
appends domain events, patches projections and moves durable jobs. This project models that kernel and
proves what it is for. Text is modelled as its UTF-8 bytes, an identifier as a number below 2^128 (whose
order is the order of its sixteen big-endian bytes), and a SQL table as a map or a sequence.

## How it is organised

| file | what it holds |
|---|---|
| `Types.dfy`, `ByteOrder.dfy`, `Messages.dfy` | machine integers, bytewise order, and the values callers hand in |
| `Sha256.dfy`, `Sha256Constants.dfy`, `Sha256Vectors.dfy` | FIPS 180-4 as a function, the buffered hasher proved equal to it, where its constants come from, and a published digest followed round by round |
| `Encoding.dfy`, `RequestDigest.dfy` | the canonical encoding with its parser, and the digest writers |
| `Projections.dfy` | patch validation, patch normal form, prefix bounds, ordered scans and paging |
| `Jobs.dfy`, `JobInvariant.dfy`, `JobOutcomes.dfy`, `JobHistory.dfy` | the job tables, each operation, the invariant, exact success conditions, and what may change between two moments |
| `Scheduler.dfy`, `Claims.dfy`, `ClaimPlan.dfy`, `Recovery.dfy` | the rotation over partitions, a claim as one step, the saved plans it is written from, and recovery |
| `Kernel.dfy` | the whole database, the effect of a batch, the invariant every step keeps, and the verify checks |
| `ClaimOutcomes.dfy`, `CommitOutcomes.dfy` | what a claim leases, repairs, writes and reports, and when a batch is accepted, column by column and without the functions that specify them |
| `Runs.dfy`, `Reconciliation.dfy`, `Progress.dfy`, `ReadModels.dfy`, `Delivery.dfy`, `RecoveryHistory.dfy` | theorems about whole runs |
| `Scenario.dfy` | a short run that reaches the inputs on which code and documentation differ |
| `Connection.dfy`, `Store.dfy` | the imperative code: statements run one after another on mutable tables, and the store with its poisonable writer |

The specification of an operation is a function on table values (`Jobs.Ack`, `Kernel.CommitEffect`,
`Claims.ClaimEffect`), and what that function means is stated apart from it, in terms of the rows before and
after (`JobOutcomes`, `ClaimOutcomes`, `CommitOutcomes`); the classes `Connection.Transaction` and `Store.ControlPlaneStore` run the code's
statements in the code's order and are proved to realise those functions. A claim is specified row by row
against the state before it, while the code plans from a snapshot, saves rows and writes them later one
by one; `ClaimPlan` and `Connection` prove the two agree. A commit is specified with the streams table
advanced at every append, while the code caches versions and writes the table at the end.

A `Run` is the sequence of databases and transactions from the empty store. A `Service` is the sequence
of calls, each with the fate of its COMMIT (reported, persisted but unreported, lost); its persisted
transactions form a run. Each method of `ControlPlaneStore` is proved to move the file as one call of a
`Service` does, and its ghost history is a run that ends in the file.

Declared table constraints (PRIMARY KEY, UNIQUE, CHECK) are preconditions of the methods of `Transaction`
that write rows, so the proofs show that no statement can trip one. The only constraint a validated batch
can violate, UNIQUE(event_id), is an explicit error.

Identifiers from `Id::new` are parameters, required to be nonzero, distinct and unused (`FreshIds`); the
clock is a parameter and may go backwards.

Where code and documentation differ the model follows the code:

- `docs/CONTRACT_TESTS.md:152-153` says that resolving a job that is not uncertain is an invalid
  transition. The code consults only the transition table, which also lets a Leased job go to Pending,
  Succeeded and Dead, and it asks for no token. `ResolveGoesThrough` states exactly when a resolution goes
  through, `ResolveRuleHoldsIff` that the documented rule holds of a job exactly when it is not leased, and
  `Scenario.ResolveOfLeasedJob` gives a run that does it. All other theorems hold with that exit included.
- `src/projection.rs:106-107` speaks of duplicate keys after the last Clear or Replace; the code rejects
  them in every stretch between boundaries. `DocumentedRuleAcceptedIff` states exactly when a patch within
  the documented rule is accepted, `ClearedDuplicateRejected` gives one that is not.
- `src/store/jobs.rs:1018-1030` takes any transaction without receipts for a claim that committed maintenance
  only, a batch included. `MaintenanceAnswerTrueIff` states exactly when that answer is true,
  `Scenario.BatchTakenForMaintenance` gives a batch of which it is not.

## Model

| member | source | states |
|---|---|---|
| Sha256.Hasher.Compress | src/sha256.rs:80-122 | in-place compression with the expanded schedule and eight rotated variables equals section 6.2.2 of FIPS 180-4 on one block |
| Sha256.Hasher.ExpandSchedule | src/sha256.rs:81-91 | the array filled by the loops is the message schedule |
| Sha256.Hasher.Update | src/sha256.rs:40-64 | for any way of cutting a message, state plus buffer are the block fold of everything fed so far |
| Sha256.Hasher.Finish | src/sha256.rs:66-78 | the digest is SHA-256 of everything fed, padding included, and the padding loop ends (messages below 2^61 bytes) |
| Sha256.HashAfterPrefix | src/sha256.rs:54-59 | the fold over n blocks depends on those blocks only, so later input never changes it |
| Sha256Constants.RoundConstants | src/sha256.rs:7-16 | the i-th round constant is the first 32 bits of the fractional part of the cube root of the i-th prime, for the first sixty-four primes |
| Sha256Constants.InitialValue | src/sha256.rs:18-20 | the initial words are those of the square roots of the first eight primes |
| Sha256Vectors.KnownAnswer | src/sha256.rs:154-159 | the specification gives the published digest of the two-block message of the tests |
| Sha256Vectors.DigestBytes | src/sha256.rs:66-78 | a digest is the words of the hash in order, each most significant byte first |
| Encoding.BatchRoundTrip | src/transaction.rs:178-302 | the parser recovers every batch content (all eight operations, nested mutations, options, lists) from its encoding, whatever follows it |
| Encoding.OperationRoundTrip | src/transaction.rs:196-302 | the same for one operation, so no operation's encoding is a prefix of another's |
| Encoding.MutationRoundTrip | src/transaction.rs:214-236 | the same for one projection mutation |
| Encoding.EncodingInjective | src/transaction.rs:172-193 | two batches have equal encodings if and only if they have equal contents |
| Encoding.EncodingIgnoresId | src/transaction.rs:172-193 | the transaction id is not part of the encoding |
| Encoding.OperationTags | src/transaction.rs:196-302 | the first byte of an operation is 1 to 8 and tells which of the eight it is |
| RequestDigest.EqualDigestsMeanEqualContent | src/transaction.rs:172-193 | for one transaction id, digests are equal exactly when contents are, given that SHA-256 does not collide on the two encodings |
| RequestDigest.Digest.WriteBytes | src/transaction.rs:332-335 | appends the length-prefixed bytes to what the hasher was fed |
| RequestDigest.Digest.DigestMutations | src/transaction.rs:213-236 | the loop appends the encoding of every mutation in order |
| RequestDigest.Digest.DigestOperation | src/transaction.rs:196-302 | appends exactly the encoding of the operation |
| RequestDigest.Digest.DigestOperations | src/transaction.rs:188-191 | the loop appends the encodings of all operations in order |
| RequestDigest.ComputeDigest | src/transaction.rs:178-193 | the streamed writers compute SHA-256 of the canonical encoding |
| Projections.ValidatePatch | src/projection.rs:108-146 | accepts a patch iff its version step is right and no Put, Delete or Replace names a key already fixed since the last Clear or Replace |
| Projections.DocumentedRuleAcceptedIff | src/projection.rs:106-144 | a patch within the documented rule (nothing contradictory from the last Clear or Replace on) is accepted iff nothing before that boundary is contradictory |
| Projections.ClearedDuplicateRejected | src/projection.rs:117-130 | a key put twice and then cleared away: within the documented rule, rejected |
| Projections.SeenMeans | src/projection.rs:117-144 | the tracked key set is exactly the keys fixed since the last Clear or Replace |
| Projections.SplitAtBaseline | src/store/projections.rs:35-65 | applying all mutations equals applying those after the last Clear or Replace to the contents it leaves |
| Projections.OverridePointwise | src/store/projections.rs:35-57 | mutations naming each key once determine each key's value independently of the others |
| Projections.PatchNormalForm | src/projection.rs:106-146 | an accepted patch is its last Clear/Replace baseline (or the old contents) overridden by the later Puts and Deletes in any order |
| Projections.LastTouchDecides | src/store/projections.rs:35-65 | after any mutations a key holds what the last mutation that touches it leaves for it |
| Projections.UntouchedKept | src/store/projections.rs:35-65 | a key that no mutation touches keeps what it held |
| Projections.PrefixUpperBound | src/store/projections.rs:110-123 | the computed bound: a key is at least the prefix and below the bound iff the prefix is a prefix of it; no bound means open above |
| Projections.PrefixRange | src/store/projections.rs:110-123 | the same about the bound as a function, for every prefix and key |
| Projections.Scan | src/store/projections.rs:169-209 | the rows returned are the page: the keys in range after the cursor, ascending, at most limit of them and all of them if fewer, with their values |
| Projections.PageMeans | src/store/projections.rs:169-209 | the page as a function is what PageOf says, directly on keys: in range, ascending, the least ones, full unless they are all |
| ByteOrder.LessMeans | src/store/projections.rs:177-186 | bytewise order: the first byte that differs decides, and a proper prefix comes first |
| Projections.ScanPrefixPage | src/store/projections.rs:139-154 | the rows are the page of the prefix range: entries with the prefix, after the cursor, ascending and each once, and all of them when the page is short |
| Projections.ResumeAfterPage | src/store/projections.rs:169-209 | resuming after the last key of a page gives exactly the rest of the scan |
| Projections.PagesConcatenate | src/store/projections.rs:139-209 | following cursors with any limit of at least 1 ends, and the pages concatenate to the full scan with no gap or repeat |
| Projections.PrefixPagesComplete | src/store/projections.rs:139-154 | those pages list, ascending, exactly the keys with the prefix |
| JobOutcomes.EnqueueGoesThrough | src/store/jobs.rs:273-317 | a job is enqueued iff its id is new, and refused as existing otherwise; its whole row: pending, unattempted, numbered one past every job before it; no other row changes |
| JobOutcomes.AckGoesThrough | src/store/jobs.rs:319-340 | in every reachable state an ack succeeds iff its token is the job's current lease; the whole resulting row, the index, and which error any other ack gets; an uncertain job passes the transition check and is refused for its token |
| JobOutcomes.FailGoesThrough | src/store/jobs.rs:342-389 | a failure succeeds iff it holds the lease and its retry time (given, or thirty seconds on) can be represented; the whole resulting row, Dead if out of attempts and RetryWait until that time otherwise, and the error of any other |
| JobOutcomes.CancelGoesThrough | src/store/jobs.rs:394-426 | a cancellation succeeds iff the job is pending and no token is given, or the token is its current lease; the whole resulting row, and the error of any other |
| JobOutcomes.ExtendGoesThrough | src/store/jobs.rs:862-922 | an extension succeeds iff it holds the lease, the lease has not expired and the new expiry is strictly later; the row and the receipt of that lease alone then carry it, and each refusal names its cause |
| JobOutcomes.ResolveGoesThrough | src/store/jobs.rs:428-481 | a resolution succeeds iff the job is leased or uncertain; the whole resulting row (a retry puts it back in line or, out of attempts, kills it), and the error of any other |
| JobOutcomes.ResolveRuleHoldsIff | docs/CONTRACT_TESTS.md:149-153 | the documented rule holds of a job exactly when it is not leased |
| Scenario.ResolveOfLeasedJob | src/jobs.rs:216-234 | a run from the empty store (a batch enqueues, a claim leases) in which a batch resolving the leased job without its token commits |
| Scenario.ClaimAfterExpiry | src/store/jobs.rs:510-664 | in the state that run reaches, one claim repairs the expired lease to Uncertain and leases the job of another partition |
| Scenario.BatchTakenForMaintenance | src/store/jobs.rs:1018-1036 | in that run claim recovery, asked about the batch, answers that maintenance was committed |
| JobInvariant.JobOpKeepsInv | src/store/jobs.rs:275-481 | every job operation keeps the row constraints, unique sequences, partition order, the exact partition index and the receipt bijection |
| JobInvariant.EnqueueKeepsInv | src/store/jobs.rs:275-317 | enqueueing keeps the invariant: the new job queues last in its partition and the index gains it |
| JobInvariant.ExtendKeepsInv | src/store/jobs.rs:862-922 | extending keeps it: the receipt follows the extended expiry |
| JobInvariant.WriteKeepsIndex | src/store/jobs.rs:206-249 | rewriting a row and draining its partition keeps the index exactly the partitions with unfinished jobs |
| JobInvariant.OneInFlight | src/store/jobs.rs:742-771 | at most one job of a partition is Leased, RetryWait or Uncertain |
| JobInvariant.ReceiptsCounted | src/store/jobs.rs:581-611 | a job has exactly as many receipts as attempts, one for each |
| JobInvariant.TokenNamesLatest | src/store/jobs.rs:900-915 | a leased row's token, worker, attempt and extended expiry are those of its latest receipt |
| JobHistory.JobOpOnward | src/store/jobs.rs:275-481 | no operation changes who a job is, lowers its attempts, touches a finished row, shortens a lease or revives a token |
| JobHistory.ClaimOnward | src/store/jobs.rs:510-664 | the same for a claim |
| JobHistory.OnwardTransitive | src/store/jobs.rs:275-664 | so the same between any two moments |
| JobHistory.TokenStaysDead | src/store/jobs.rs:196-202 | a token on record that does not lease a job never does again |
| JobHistory.DeadTokenRejected | src/store/jobs.rs:196-202 | ack, fail, cancel and extend refuse a token that does not lease the job |
| Scheduler.TouchedIsHead | src/store/jobs.rs:742-760 | a job past its first lease is the head of its partition |
| Scheduler.PlanMeans | src/store/jobs.rs:705-774 | a plan holds only ready heads, in cyclic order from the cursor, and leaves a ready head out only when the limit is reached by earlier ones |
| Scheduler.IndexIsEnough | src/store/jobs.rs:721-738 | planning over the partition index equals planning over any larger set of partitions |
| Scheduler.NaiveRotationAgrees | src/store/jobs.rs:721-738 | in particular over all partitions ever enqueued to |
| Scheduler.RotationCyclic | src/store/jobs.rs:732-738 | the chained slices visit every key once, in cyclic order from just after the cursor |
| Scheduler.PassedOver | src/store/jobs.rs:732-773 | a claim that passes over a ready partition leases a full limit of others strictly between the cursor and it |
| Claims.PlansDisjoint | src/store/jobs.rs:542-547 | the repair plan and the lease plan of one claim lie in different partitions |
| Claims.ClaimTransitionsAllowed | src/store/jobs.rs:563-611 | every planned transition is allowed, so a claim never ends in a Conflict, and no repaired job is leased in the same call |
| Claims.ClaimKeepsInv | src/store/jobs.rs:510-664 | a claim keeps the whole job invariant |
| Claims.ClaimKeepsFifo | src/store/jobs.rs:581-611 | behind the head of a partition nothing has ever been leased, still after a claim |
| Claims.ClaimKeepsReceipts | src/store/jobs.rs:598-611 | after a claim receipts and attempts are still in bijection and no token occurs twice |
| Claims.RepairsMean | src/store/jobs.rs:666-703 | an expired lease becomes Uncertain, Pending or Dead by its effect mode and attempts, unless 64 leases that expired no later were repaired instead |
| Claims.ClaimLowersBacklog | src/store/jobs.rs:549-633 | a claim that does anything lowers twice the expired leases plus the waiting jobs |
| Claims.NoopMeansDrained | src/store/jobs.rs:549-552 | nothing is planned iff no lease is expired and no head is ready |
| Claims.GrantedIsReadyHead | src/store/jobs.rs:742-771 | every planned job is the ready head of its partition with attempts left |
| ClaimPlan.RepairOne | src/store/jobs.rs:563-579 | a saved row to repair is still the row in the table when its turn comes |
| ClaimPlan.LeaseOne | src/store/jobs.rs:582-597 | a saved row to lease is untouched by every repair and lease written before it |
| ClaimPlan.LeaseWritten | src/store/jobs.rs:582-611 | writing one planned lease and its receipt adds exactly that lease to the claim |
| ClaimPlan.PlanClaimable | src/store/jobs.rs:542-561 | what was planned is a claim that can be committed, with fresh tokens |
| ClaimPlan.GrantsKeepIndex | src/store/jobs.rs:581-597 | leasing finishes no job, so the index after the repairs is the index after the claim |
| ClaimOutcomes.RequestAnswered | src/store/jobs.rs:512-536 | a claim request is refused for the first of its four faults; otherwise its leases run until now plus the duration |
| ClaimOutcomes.GrantsAreDue | src/store/jobs.rs:705-774 | a claim leases only jobs of its queue whose not_before and, in retry wait, retry time have come and that no earlier unfinished job of the partition precedes; it leaves such a job out only if it leased limit many |
| ClaimOutcomes.RepairsHaveRunOut | src/store/jobs.rs:666-685 | a claim repairs only leases of its queue whose expiry has passed, and every one of them unless 64 that expired no later |
| ClaimOutcomes.NoopIffIdle | src/store/jobs.rs:549-552 | nothing is done exactly when no lease of the queue has passed its expiry and, unless the limit is 0, no foremost job of the queue is due |
| ClaimOutcomes.ClaimWrites | src/store/jobs.rs:563-633 | every column of every row after a claim, repaired, leased or untouched; every receipt, new or old; and the cursor |
| ClaimOutcomes.OtherQueuesUntouched | src/store/jobs.rs:666-774 | a claim changes no job, index entry or cursor of another queue |
| ClaimOutcomes.ClaimsInRun | src/store/jobs.rs:510-664 | the same of every claim of every run |
| ClaimOutcomes.GrantTells | src/store/jobs.rs:612-623 | every grant handed out has the queue, partition, payload and idempotency key of its job, the token drawn for it, the next attempt, and the claim's worker and expiry |
| ClaimOutcomes.RecoveredTells | src/store/jobs.rs:925-1017 | every grant recovery rebuilds has those of its job and the lease it holds now; a job is stale iff it no longer holds, unexpired, the lease the claim gave it |
| ClaimOutcomes.GrantsInRun | src/store/jobs.rs:612-623 | in any run the columns of a grant are those of an enqueue operation committed before |
| ClaimOutcomes.RecoveredInRun | src/store/jobs.rs:989-1012 | and so are those of a grant that recovery rebuilds at any moment |
| ClaimOutcomes.CurrentUntilExpiry | src/store/jobs.rs:989-996 | straight after a claim each of its grants is executable exactly at the times up to now plus the duration |
| Recovery.RecoveredGrantIsTheLease | src/store/jobs.rs:989-1012 | a recovered executable grant is the lease the job holds now: token, worker, attempt and extended expiry, unexpired |
| Recovery.RepairableXorCurrent | src/store/jobs.rs:672-681 | at any time a held lease is exactly one of repairable by maintenance or current for extension and recovery |
| Recovery.ClaimRecoverable | src/store/jobs.rs:925-1017 | straight after a claim recovery rebuilds exactly the grants handed out, current until their expiry |
| Kernel.StreamVersionsAscend | src/store/migrations.rs:16-16 | two events of one stream never share a version: it strictly increases with global order |
| Kernel.AppendKeepsEvents | src/store/commit.rs:76-90 | an append keeps every stream's events at versions 1 to current, in global order |
| Kernel.ExpectationsChecked | src/store/commit.rs:39-50 | the expectations are accepted iff each is the stream's version before the batch; otherwise the refusal names the first that is not, with the actual version |
| Kernel.ExpectKeepsVersions | src/store/commit.rs:39-50 | accepted expectations are all true and change no stream version |
| Kernel.OperationsKeepInv | src/store/commit.rs:75-143 | the operations of a validated batch keep the database invariant |
| Kernel.CommitKeepsInv | src/store/commit.rs:11-175 | a committed batch keeps it and adds exactly its own transactions row |
| Kernel.StepKeepsInv | src/store/commit.rs:11-175 | every kind of transaction keeps the database invariant |
| Kernel.GreatestVersion | src/store/ops.rs:171-195 | the greatest event version of a stream is its current version |
| Kernel.InvariantPassesVerify | src/store/ops.rs:169-333 | of a database satisfying the invariant the semantic checks find nothing but migrations whose checksum no longer matches |
| Kernel.FindingsExact | src/store/ops.rs:169-333 | on any database, sound or not, a finding is reported iff what it says of the rows is so |
| CommitOutcomes.OperationValidated | src/store/commit.rs:251-333 | an operation passes validation iff its ids are nonzero, its parts within the limits, its patch consistent and its attempts at least 1; otherwise the error is the first fault the code comes to |
| CommitOutcomes.BatchValidated | src/store/commit.rs:235-333 | a batch passes iff its id is nonzero, its sizes are within the limits and each operation passes; otherwise the error is that of the first of these that fails, in order |
| CommitOutcomes.PatchGoesThrough | src/store/projections.rs:17-67 | a patch is applied iff it is consistent and expects the stored version, 0 when there is none; the conflict carries both versions; only that projection and its version change |
| CommitOutcomes.AppendGoesThrough | src/store/commit.rs:77-90 | an event is appended iff its id is new and its stream can be numbered further, at the next version and the end of the log |
| CommitOutcomes.OperationGoesThrough | src/store/commit.rs:75-143 | the exact condition on the database under which each of the eight operations is applied |
| CommitOutcomes.OperationsGoThrough | src/store/commit.rs:75-143 | a sequence of operations is applied iff each meets its condition in the database the ones before it leave |
| CommitOutcomes.BatchGoesThrough | src/store/commit.rs:39-151 | a valid batch under a new id commits iff every expectation is the version of its stream and every operation meets its condition |
| CommitOutcomes.BatchRefused | src/store/commit.rs:39-143 | a valid batch under a new id that does not commit is refused for its first false expectation or, if none is false, with the error of its first operation that does not meet its condition |
| CommitOutcomes.SubmitAnswers | src/store/commit.rs:11-175 | what submitting answers: the validation error; for an id on record its receipt or a refusal by digest; otherwise a receipt with the batch's own time, numbered one past all others |
| CommitOutcomes.PatchInRun | src/store/projections.rs:22-34 | in any run a consistent patch is applied iff it expects the number of patches committed to its projection; the first expects 0 |
| CommitOutcomes.PatchInBatch | src/store/projections.rs:22-34 | the same inside a batch, counting also the patches of the operations before it |
| Runs.RunInv | src/store/migrations.rs:12-40 | every reachable database satisfies the invariant |
| Runs.RunPassesVerify | src/store/ops.rs:169-333 | the same of every reachable database: no finding at all iff every migration checksum matches |
| Runs.AttemptBound | src/store/jobs.rs:349-354 | in every reachable state attempt <= max_attempts, strictly for Pending and RetryWait, and every row satisfies the version 2 CHECKs |
| Runs.OneInFlightAlways | src/store/jobs.rs:742-771 | in every reachable state at most one job of a partition is in flight |
| Runs.StreamsContiguous | src/store/commit.rs:145-151 | in every reachable state each stream holds versions 1 to current |
| Runs.RunLater | src/store/commit.rs:61-84 | over any stretch of a run events are only appended, transactions rows never change, no receipt is added to an old transaction |
| Runs.PartitionFifo | src/store/jobs.rs:742-771 | a job is leased only when every job of its partition enqueued earlier is finished; those never change again |
| Runs.TokenDeath | src/store/jobs.rs:196-202 | once a granted token no longer leases its job, no later transaction that presents it takes effect: no batch with such an operation at any place, and no standalone extension |
| Runs.OperationsRefuseToken | src/store/commit.rs:75-143 | the operations of a batch fail as a whole if any of them presents a token that is dead when the batch starts |
| Runs.TokenUsedUp | src/store/commit.rs:75-143 | and also if one acks, fails or cancels with a token that a later operation of the same batch presents |
| Runs.LeaseOnlyLengthens | src/store/jobs.rs:885-899 | while a token leases its job it is one uninterrupted lease whose expiry never moves back |
| Runs.ClaimRemembered | src/store/jobs.rs:925-987 | at any later moment the receipts of a claim name exactly the jobs it leased, under the tokens it granted |
| RecoveryHistory.LeasedIffGranted | src/store/jobs.rs:930-937 | at any moment a transaction id has receipts iff the history holds a claim with that id that granted something |
| RecoveryHistory.RecoveryMeans | src/store/jobs.rs:925-1038 | claim recovery is determined by the history: Committed, splitting exactly the granted jobs, for a claim that granted some; maintenance for any other transaction on record; Absent for the rest |
| RecoveryHistory.MaintenanceAnswerTrueIff | src/store/jobs.rs:1018-1036 | the maintenance answer is true (a claim that leased nothing) iff the id is not a batch's; every committed batch's id gets it |
| Reconciliation.NoSilentReexecution | src/store/jobs.rs:689-699 | between two leases of a job that requires reconciliation its worker failed it under the first token or an operator resolved it for retry |
| Reconciliation.StaysInDoubt | src/store/jobs.rs:342-481 | until then the job is leased under that token, uncertain or finished |
| Progress.BoundedBypass | src/store/jobs.rs:712-773 | while a ready partition is passed over, no other partition is served twice, and the claims are fewer than the partitions |
| Progress.ServedInTime | src/store/jobs.rs:625-633 | a partition ready at each of n claims, n the number of partitions of the queue, has its head leased by one of them |
| Progress.StretchApproaches | src/store/jobs.rs:732-773 | what is served over such a stretch goes strictly round towards the waiting partition, and the cursor is the last one served |
| Progress.DrainTerminates | src/store/jobs.rs:524-579 | claims at a fixed time: their number plus the final backlog is at most the initial backlog |
| Progress.DrainReachesNoop | src/store/jobs.rs:549-552 | after as many claims as the backlog counts nothing is expired and nothing can be planned |
| ReadModels.RunFolds | src/store/projections.rs:17-67 | after any run a projection is the replay of its patches and its version their number; the event log is the events committed, in order, each under its transaction; the jobs are those enqueued, each as enqueued and numbered in that order |
| ReadModels.JobWasEnqueued | src/store/jobs.rs:283-317 | every job of a run has the columns of an enqueue operation of its history and the transaction that committed it |
| Delivery.DurableIsFold | src/store/commit.rs:155-168 | whatever callers were told, the durable database is the fold of the transactions that persisted |
| Delivery.RunLedger | src/store/commit.rs:53-73 | transactions are numbered 1, 2, .. in the order they took effect, each id once |
| Delivery.ExactlyOnce | src/store/commit.rs:178-199 | with lost, unreported, repeated and interleaved calls, each transaction takes effect at most once, and recovery reports exactly those that did, with their place in the order |
| Delivery.ReceiptStands | src/store/commit.rs:25-37 | a receipt once given is what recovery and every resubmission report ever after, and resubmission changes nothing |
| Delivery.PersistedStands | src/store/commit.rs:153-199 | a batch that persisted is found by recovery at every later moment with the receipt of its own COMMIT, whatever is called in between |
| Delivery.RecoveredSince | src/store/commit.rs:178-199 | recovery finds an id iff it was on record before or a transaction with it persisted since |
| Delivery.IndeterminateRecovers | src/store/commit.rs:153-175 | after an indeterminate reply and any further calls: if that COMMIT persisted, recovery and every resubmission report its own receipt and resubmission changes nothing; if it was lost, nothing changed and recovery finds the id iff a later call with it persisted |
| Delivery.ReceiptsAgree | src/store/commit.rs:25-37 | any two receipts ever given for one transaction id are the same |
| Delivery.RowInRun | src/store/commit.rs:53-73 | at every later moment of a run the row of a transaction carries its place in the order, its own time (committedAt, or the claim's now) and what it recorded |
| Delivery.RecoveredTells | src/store/commit.rs:178-199 | recovery of any transaction of the history, batch or claim, reports its id, its place in the order and its own time |
| Delivery.ReceiptTells | src/store/commit.rs:153-175 | every receipt given carries the id, the place in the order and the committedAt of the batch in the history with that id and digest |
| Delivery.ContentDecides | src/store/commit.rs:25-37 | once a batch persisted, a valid batch under its id gets that receipt if it has the same content and DuplicateIdWithDifferentContent if it differs anywhere, unless SHA-256 collides on the two encodings |
| Delivery.ClaimIdRefused | src/store/jobs.rs:790-812 | the id of a claim transaction is refused for every batch: its checksum is no batch digest |
| Connection.Transaction.DrainPartitionIfEmpty | src/store/jobs.rs:204-221 | deletes the partition's index row exactly when it holds no unfinished job |
| Connection.Transaction.ApplyEnqueue | src/store/jobs.rs:273-317 | realises Enqueue with a new unique sequence |
| Connection.Transaction.ApplyAck | src/store/jobs.rs:319-340 | realises Ack, including its errors, changing nothing on error |
| Connection.Transaction.ApplyFail | src/store/jobs.rs:342-389 | realises Fail, retry or dead |
| Connection.Transaction.ApplyCancel | src/store/jobs.rs:394-426 | realises Cancel |
| Connection.Transaction.ApplyResolve | src/store/jobs.rs:428-481 | realises Resolve |
| Connection.Transaction.ApplyExtendLease | src/store/jobs.rs:862-922 | realises Extend on the row and its receipt, with the typed conflicts |
| Connection.Transaction.SelectExpired | src/store/jobs.rs:666-685 | a bounded page of the soonest expired leases, ties in any order |
| Connection.Transaction.PlanMaintenance | src/store/jobs.rs:666-703 | the saved rows of such a page with the state each moves to |
| Connection.Transaction.PlanLeases | src/store/jobs.rs:705-774 | the loop over the rotation saves the heads of exactly the planned partitions, in order, and the last one for the cursor |
| Connection.Transaction.RepairLeases | src/store/jobs.rs:563-579 | writing saved rows one by one repairs exactly the page and never meets a conflict |
| Connection.Transaction.GrantLeases | src/store/jobs.rs:581-623 | writing saved rows one by one leases exactly the planned jobs with a receipt each |
| Connection.Transaction.WriteClaim | src/store/jobs.rs:554-633 | all writes together are one claim step |
| Connection.Transaction.ClaimJobs | src/store/jobs.rs:510-664 | invalid requests are refused; otherwise the tables move by one claim the specification allows and its grants are reported, or nothing was expired and no head was planned; never a conflict |
| Connection.Transaction.RecoverClaim | src/store/jobs.rs:925-1038 | splits exactly the jobs a claim leased into executable and stale, each in id order; otherwise tells maintenance from absence |
| Connection.Transaction.ReplaceEntries | src/store/projections.rs:53-63 | clearing and inserting a duplicate-free list never hits a key already present |
| Connection.Transaction.ApplyProjectionPatch | src/store/projections.rs:17-67 | realises ApplyPatch with its version conflict |
| Connection.Transaction.AppendToStream | src/store/commit.rs:77-90 | appends at the cached version plus one, violating neither uniqueness constraint, or reports version overflow or the taken event id |
| Connection.Transaction.CheckExpected | src/store/commit.rs:39-50 | checks the expectations in order against the table and caches them |
| Connection.Transaction.ApplyBatch | src/store/commit.rs:75-143 | the operations applied with cached stream versions equal the operations applied with the table kept current |
| Connection.Transaction.WriteStreams | src/store/commit.rs:145-151 | the cache is written to the streams table |
| Connection.Transaction.Commit | src/store/commit.rs:11-175 | the whole pipeline realises Submit under the given limits: original receipt on resubmission, error on different content, otherwise the batch's effect and its receipt |
| Connection.Transaction.ValidateBatch | src/store/commit.rs:235-333 | reports the first violation in the code's order: zero ids, size limits, patches, attempts |
| Store.ControlPlaneStore.EndTransaction | src/store/mod.rs:191-199 | the file moves by one step of a run unless the COMMIT is lost; an unreported COMMIT poisons the writer |
| Store.ControlPlaneStore.Commit | src/store/mod.rs:191-199 | reply, durable state and history follow from the file and the fate of COMMIT; the writer is poisoned iff the reply is indeterminate |
| Store.ControlPlaneStore.ClaimJobs | src/store/mod.rs:318-326 | the same for a claim; an indeterminate reply names exactly the jobs it granted, each once |
| Store.ControlPlaneStore.ExtendLease | src/store/mod.rs:333-347 | the same for a lease extension |
| Store.ControlPlaneStore.RecoverTransaction | src/store/mod.rs:203-212 | reopens a poisoned writer and answers Committed exactly for the transactions in the history |
| Store.ControlPlaneStore.RecoverClaim | src/store/mod.rs:353-363 | reopens a poisoned writer and answers as the history determines (RecoveryMeans) |

## Left out

- SQLite itself (WAL, pragmas, locking, page I/O, busy handling, backup), the read pool and the mutex: a
  transaction is a working copy of the tables that becomes durable as a whole or not at all.
- I/O and storage errors other than the unknown outcome of COMMIT and a taken event id.
- Connection.Transaction.Commit: batches whose encoding would reach 2^61 bytes, where SHA-256's own length counter
  overflows, are outside its precondition.
- Connection.Transaction.ClaimJobs: the identifiers drawn and the FNV-1a checksum stored for a claim are
  parameters; the checksum is any 16 bytes.
- Enqueue and transaction sequences are unbounded naturals (SQLite's 64-bit MAX + 1, src/store/commit.rs:53-59 and
  src/store/jobs.rs:283-289, is not modelled). Timestamps, expiries, stream and projection versions have their machine
  ranges, with the checked additions modelled as errors.
- RequestDigest.EqualDigestsMeanEqualContent: collision resistance of SHA-256 is a hypothesis about the two
  encodings, not proved.
- Connection.Transaction.SelectExpired: the rows come from any order SQLite may choose among equal expiries.
- Kernel.InvariantPassesVerify: the findings are a set described by the queries; the loops that push rows of
  each query onto a list are left out, and so are the integrity and foreign-key checks that run before them.
- The events and jobs listings (`events_after`, `stream_events`, `last_events`, `list_jobs`,
  `list_jobs_page`): their paging is the same argument as for projection scans, over unique numbers.
- Migrations as a process: the schema's constraints are modelled, applying it is not.
- `Id::new`, hex formatting, stats, diagnostic export, JSON escaping, the command line tool, the Node bindings,
  examples and benchmarks.
- Error message texts, and the metadata and correlation columns in the state machine (they matter in the
  encoding, where they are modelled).
