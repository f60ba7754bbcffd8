/** A short run from the empty store. It reaches the inputs on which the code departs from its documentation, and a
    claim that repairs one lease and grants another. */
module Scenario {
  import opened Types
  import opened Messages
  import opened ByteOrder
  import opened Jobs
  import opened JobInvariant
  import opened Scheduler
  import opened Claims
  import opened JobHistory
  import opened JobOutcomes
  import opened Kernel
  import opened Recovery
  import opened Runs
  import opened Delivery
  import opened RecoveryHistory

  const FIRST: Place := Place([1], [1])
  const SECOND: Place := Place([1], [2])

  /** Job 7 is ready at once; job 8, in another partition of the same queue, from time 150 on. */
  const SPEC_7: JobSpec := JobSpec(7, FIRST.queue, FIRST.key, [], 0, 1, RequiresReconciliation, None)
  const SPEC_8: JobSpec := JobSpec(8, SECOND.queue, SECOND.key, [], 150, 1, ExplicitlyIdempotent, None)

  const ENQUEUE: CommitBatch := CommitBatch(1, 0, None, [], [], [EnqueueJob(SPEC_7), EnqueueJob(SPEC_8)])
  const LEASE: Claim := Claim(ClaimRequest([1], [5], 0, 100, 1), 2, 100, {}, map[7 := 9])
  const RESOLVE: CommitBatch := CommitBatch(3, 50, None, [], [], [ResolveJob(JobResolution(7, MarkSucceeded))])
  const REPAIR_AND_LEASE: Claim := Claim(ClaimRequest([1], [5], 200, 100, 1), 3, 300, {7}, map[8 := 10])

  const JOB_7: Job := NewJob(SPEC_7, 1, 1)
  const JOB_8: Job := NewJob(SPEC_8, 2, 1)

  /** After the enqueueing batch, and after the claim at time 0 that leases job 7. */
  const ENQUEUED: JobTables := JobTables(map[7 := JOB_7, 8 := JOB_8], map[FIRST := 1, SECOND := 2], map[], map[])
  const LEASED: JobTables :=
    JobTables(map[7 := LeasedRow(JOB_7, 9, [5], 100, 2), 8 := JOB_8], map[FIRST := 1, SECOND := 2], map[[1] := [1]],
              map[ReceiptKey(2, 7) := Receipt(9, 1, [5], 100)])

  // ----- the only ready partition is the one planned -----

  lemma SolePlan(t: JobTables, req: ClaimRequest, key: Text, id: Id)
    requires JobsInv(t) && req.limit >= 1
    requires forall k :: ReadyHead(t, req.queue, req.now, k) <==> k == key
    requires Head(t.jobs, Place(req.queue, key)) == Some(id)
    ensures PlannedKeys(t, req) == [key] && PlannedJobs(t, req) == {id}
  {
    hide JobsInv, ReadyHead, PlannedKeys, Cyclic;
    var plan := PlannedKeys(t, req);
    PlanMeans(t, req);
    CyclicDistinct(CursorOf(t, req.queue), plan);
    forall n | 0 <= n < |plan| ensures plan[n] == key {
      assert plan[n] in plan;
      assert ReadyHead(t, req.queue, req.now, plan[n]);
    }
    assert ReadyHead(t, req.queue, req.now, key);
    assert key in plan || |plan| == req.limit;
    DistinctFits(plan, {key});
    assert plan == [key];
    hide Head;
    assert PlannedJobs(t, req) == {id};
  }

  lemma SoleHead(jobs: map<Id, Job>, place: Place, id: Id)
    requires LiveAt(jobs, place) == {id}
    ensures Head(jobs, place) == Some(id)
  {}

  lemma Heads(jobs: map<Id, Job>)
    requires jobs.Keys == {7, 8} && jobs[7].spec == SPEC_7 && jobs[8].spec == SPEC_8 && Live(jobs[7]) && Live(jobs[8])
    ensures Head(jobs, FIRST) == Some(7) && Head(jobs, SECOND) == Some(8)
    ensures forall k :: k != FIRST.key && k != SECOND.key ==> Head(jobs, Place([1], k)).None?
  {
    assert LiveAt(jobs, FIRST) == {7};
    assert LiveAt(jobs, SECOND) == {8};
    SoleHead(jobs, FIRST, 7);
    SoleHead(jobs, SECOND, 8);
    forall k | k != FIRST.key && k != SECOND.key ensures Head(jobs, Place([1], k)).None? {
      assert LiveAt(jobs, Place([1], k)) == {};
    }
  }

  // ----- first step: the batch -----

  lemma SequencesCount()
    ensures NextSequence(map[]) == 1 && NextSequence(map[7 := JOB_7]) == 2
  {
    var jobs := map[7 := JOB_7];
    forall n ensures n in Sequences(jobs) <==> n == 1 {
      assert jobs[7].sequence in Sequences(jobs);
    }
    assert Sequences(map[]) == {};
  }

  lemma TwoOperations(db: Db, tx: Id, now: I64, x: Operation, y: Operation, next: Db, last: Db)
    requires ApplyOperation(db, tx, now, x) == Ok(next) && ApplyOperation(next, tx, now, y) == Ok(last)
    ensures ApplyOperations(db, tx, now, [x, y]) == Ok(last)
  {
    hide ApplyOperation;
    assert [x, y][1..] == [y] && [y][1..] == [];
    assert ApplyOperations(next, tx, now, [y]) == Ok(last);
  }

  lemma EnqueueBoth(db: Db)
    requires db.tables == EMPTY_DB.tables
    ensures ApplyOperations(db, 1, 0, ENQUEUE.operations) == Ok(db.(tables := ENQUEUED))
  {
    var one := JobTables(map[7 := JOB_7], map[FIRST := 1], map[], map[]);
    SequencesCount();
    hide NextSequence, ApplyOperations;
    assert Enqueue(EMPTY_DB.tables, 1, SPEC_7) == Ok(one);
    assert Enqueue(one, 1, SPEC_8) == Ok(ENQUEUED);
    hide Enqueue;
    TwoOperations(db, 1, 0, EnqueueJob(SPEC_7), EnqueueJob(SPEC_8), db.(tables := one), db.(tables := ENQUEUED));
  }

  lemma EnqueueValid()
    ensures Validate(DEFAULT_LIMITS, ENQUEUE).Ok?
  {
    var ops := ENQUEUE.operations;
    assert ops[1..] == [EnqueueJob(SPEC_8)] && ops[1..][1..] == [];
    assert ValidateOperations(DEFAULT_LIMITS, ops[1..]).Ok?;
  }

  lemma EnqueueStep(digest: Bytes)
    ensures var step := BatchStep(Submission(ENQUEUE, digest, DEFAULT_LIMITS));
            && Enabled(EMPTY_DB, step) && After(EMPTY_DB, step).tables == ENQUEUED
            && After(EMPTY_DB, step).transactions.Keys == {1}
  {
    hide ApplyOperations, Validate, NextTxSequence;
    EnqueueValid();
    EnqueueBoth(Opened(EMPTY_DB, Submission(ENQUEUE, digest, DEFAULT_LIMITS)));
  }

  // ----- second step: the claim at time 0 -----

  lemma NoneExpired()
    ensures ExpiredPage(ENQUEUED, LEASE.req, {})
  {
    assert ExpiredIds(ENQUEUED, LEASE.req) == {};
  }

  lemma FirstIsReady()
    requires JobsInv(ENQUEUED)
    ensures PlannedKeys(ENQUEUED, LEASE.req) == [FIRST.key] && PlannedJobs(ENQUEUED, LEASE.req) == {7}
  {
    hide JobsInv, PlannedKeys, PlannedJobs;
    Heads(ENQUEUED.jobs);
    SolePlan(ENQUEUED, LEASE.req, FIRST.key, 7);
  }

  lemma LeaseClaimable()
    requires JobsInv(ENQUEUED)
    ensures Claimable(ENQUEUED, LEASE)
  {
    hide JobsInv, ExpiredPage, PlannedKeys, PlannedJobs;
    NoneExpired();
    FirstIsReady();
    assert 7 in LEASE.grants;
  }

  lemma LeaseEffect()
    requires JobsInv(ENQUEUED)
    ensures ClaimEffect(ENQUEUED, LEASE) == LEASED
  {
    hide JobsInv, PlannedKeys, PlannedJobs, ClaimedJobs, NewReceipts, StillLive;
    FirstIsReady();
    LeasedRows();
    LeaseReceipts();
    LeaseIndex();
  }

  lemma LeasedRows()
    ensures ClaimedJobs(ENQUEUED.jobs, LEASE) == LEASED.jobs
  {}

  lemma LeaseReceipts()
    ensures ENQUEUED.receipts + NewReceipts(ENQUEUED.jobs, LEASE) == LEASED.receipts
  {
    hide NewReceipts;
    forall k { NewReceiptsHold(ENQUEUED.jobs, LEASE, k); }
  }

  lemma LeaseIndex()
    ensures StillLive(ENQUEUED.active, LEASED.jobs) == LEASED.active
  {
    hide LivePlaces;
    BothLive(LEASED.jobs);
  }

  lemma BothLive(jobs: map<Id, Job>)
    requires jobs.Keys == {7, 8} && jobs[7].spec == SPEC_7 && jobs[8].spec == SPEC_8 && Live(jobs[7]) && Live(jobs[8])
    ensures FIRST in LivePlaces(jobs) && SECOND in LivePlaces(jobs)
  {
    assert PlaceOf(jobs[7]) == FIRST && PlaceOf(jobs[8]) == SECOND;
  }

  lemma LeaseStep(db: Db, checksum: Bytes)
    requires DbInv(db) && db.tables == ENQUEUED && db.transactions.Keys == {1} && |checksum| == 16
    ensures var step := ClaimStep(LEASE, checksum);
            Enabled(db, step) && After(db, step).tables == LEASED && After(db, step).transactions.Keys == {1, 2}
  {
    hide DbInv, JobsInv, Claimable, ClaimEffect, CommitEffect, NextTxSequence;
    TablesInv(db);
    LeaseClaimable();
    LeaseEffect();
  }

  lemma EmptyRun()
    ensures IsRun(Run([EMPTY_DB], []))
  {}

  /** The run: jobs 7 and 8 enqueued by transaction 1, job 7 leased by transaction 2. */
  lemma LeaseReached(digest: Bytes, checksum: Bytes) returns (r: Run)
    requires |checksum| == 16
    ensures IsRun(r) && r.steps == [BatchStep(Submission(ENQUEUE, digest, DEFAULT_LIMITS)), ClaimStep(LEASE, checksum)]
    ensures |r.states| == 3 && r.states[2].tables == LEASED && r.states[2].transactions.Keys == {1, 2}
  {
    hide IsRun, Enabled, After, DbInv;
    var first, second := BatchStep(Submission(ENQUEUE, digest, DEFAULT_LIMITS)), ClaimStep(LEASE, checksum);
    EmptyRun();
    EmptyInv();
    EnqueueStep(digest);
    StepKeepsInv(EMPTY_DB, first);
    var one := After(EMPTY_DB, first);
    LeaseStep(one, checksum);
    ExtendRun(Run([EMPTY_DB], []), first, one);
    assert [EMPTY_DB] + [one] == [EMPTY_DB, one] && [] + [first] == [first];
    r := Run([EMPTY_DB, one] + [After(one, second)], [first] + [second]);
    ExtendRun(Run([EMPTY_DB, one], [first]), second, After(one, second));
  }

  // ----- what can follow -----

  /** A leased job resolved without its token: the resolution is committed, against the documented rule. */
  lemma ResolveOfLeasedJob(digest: Bytes, checksum: Bytes) returns (r: Run)
    requires |checksum| == 16
    ensures IsRun(r) && |r.states| == 3 && r.states[2].tables == LEASED && LEASED.jobs[7].state.Leased?
    ensures var step := BatchStep(Submission(RESOLVE, digest, DEFAULT_LIMITS));
            && Enabled(r.states[2], step)
            && 7 in After(r.states[2], step).tables.jobs && After(r.states[2], step).tables.jobs[7].state.Succeeded?
  {
    hide IsRun, CommitEffect, Validate;
    r := LeaseReached(digest, checksum);
    ResolveCommits(r.states[2], digest);
  }

  lemma ResolveCommits(db: Db, digest: Bytes)
    requires db.tables == LEASED
    ensures var s := Submission(RESOLVE, digest, DEFAULT_LIMITS);
            && Validate(s.limits, s.batch).Ok? && CommitEffect(db, s).Ok?
            && 7 in CommitEffect(db, s).value.tables.jobs && CommitEffect(db, s).value.tables.jobs[7].state.Succeeded?
  {
    hide Resolve, NextTxSequence, Unfinished, Ascii;
    assert RESOLVE.operations[1..] == [];
    ResolveGoesThrough(LEASED, 3, 50, JobResolution(7, MarkSucceeded));
  }

  lemma SeventhExpired()
    ensures ExpiredPage(LEASED, REPAIR_AND_LEASE.req, {7})
  {
    var expired := ExpiredIds(LEASED, REPAIR_AND_LEASE.req);
    forall id ensures id in expired <==> id == 7 {
      if id in expired { assert id in LEASED.jobs; }
    }
    assert expired == {7};
    assert |{7}| == 1;
  }

  lemma SecondIsReady()
    requires JobsInv(LEASED)
    ensures PlannedJobs(LEASED, REPAIR_AND_LEASE.req) == {8}
  {
    hide JobsInv, PlannedKeys, PlannedJobs;
    Heads(LEASED.jobs);
    SolePlan(LEASED, REPAIR_AND_LEASE.req, SECOND.key, 8);
  }

  lemma RepairClaimable()
    requires JobsInv(LEASED)
    ensures Claimable(LEASED, REPAIR_AND_LEASE)
  {
    hide JobsInv, ExpiredPage, PlannedJobs;
    SeventhExpired();
    SecondIsReady();
  }

  lemma RepairEffect()
    ensures var jobs := ClaimedJobs(LEASED.jobs, REPAIR_AND_LEASE);
            jobs.Keys == {7, 8} && jobs[7].state.Uncertain? && jobs[8].state.Leased? && jobs[8].leaseToken == Some(10)
  {
    hide Ascii;
  }

  /** After the lease of job 7 expired, one claim repairs it, to Uncertain, and leases job 8: the assumptions of the
      theorems about claims are met together in a state the store reaches. */
  lemma ClaimAfterExpiry(digest: Bytes, checksum: Bytes) returns (r: Run)
    requires |checksum| == 16
    ensures IsRun(r) && |r.states| == 3 && Enabled(r.states[2], ClaimStep(REPAIR_AND_LEASE, checksum))
    ensures var jobs := After(r.states[2], ClaimStep(REPAIR_AND_LEASE, checksum)).tables.jobs;
            jobs.Keys == {7, 8} && jobs[7].state.Uncertain? && jobs[8].state.Leased? && jobs[8].leaseToken == Some(10)
  {
    hide JobsInv, IsRun, Claimable, ClaimedJobs, NextTxSequence, StillLive, NewReceipts, AdvanceCursor, CommitEffect;
    r := LeaseReached(digest, checksum);
    StateInv(r, 2);
    RepairClaimable();
    RepairEffect();
  }

  lemma StateInv(r: Run, k: nat)
    requires IsRun(r) && k < |r.states|
    ensures JobsInv(r.states[k].tables)
  {
    hide DbInv, JobsInv;
    RunInv(r, k);
    TablesInv(r.states[k]);
  }

  /** Asked about transaction 1, a batch, claim recovery answers that maintenance was committed. */
  lemma BatchTakenForMaintenance(digest: Bytes, checksum: Bytes, now: I64) returns (r: Run)
    requires |checksum| == 16
    ensures IsRun(r) && |r.states| == 3 && BatchCommitted(r.steps, 1)
    ensures forall answer :: Recovers(r.states[2], 1, now, answer) <==> answer == MaintenanceCommitted
  {
    hide IsRun;
    r := LeaseReached(digest, checksum);
    assert BatchUnder(r.steps[0], 1);
    assert LeasedBy(LEASED, 1) == {};
  }
}
