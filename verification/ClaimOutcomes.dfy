/** What a claim does, stated on the rows before and after it: which jobs it leases and repairs, every column it writes, and
    what the grants it hands out and the ones recovery rebuilds say (src/store/jobs.rs). None of it mentions the functions
    that specify planning, repairing or granting. */
module ClaimOutcomes {
  import opened Types
  import opened Messages
  import opened ByteOrder
  import opened Jobs
  import opened JobInvariant
  import opened Scheduler
  import opened Claims
  import opened JobHistory
  import opened JobOutcomes
  import opened Kernel
  import opened Recovery
  import opened ClaimPlan
  import opened Runs
  import opened ReadModels

  // ----- the request -----

  /** A request is refused for the first of its faults; otherwise its leases run until now + leaseMs. */
  lemma RequestAnswered(req: ClaimRequest)
    ensures CheckRequest(req) ==
            if |req.queue| == 0 then Err(Validation(EmptyQueue))
            else if |req.worker| == 0 then Err(Validation(EmptyWorker))
            else if req.leaseMs < 1 then Err(Validation(LeaseNotPositive))
            else if req.now + req.leaseMs > 0x7FFF_FFFF_FFFF_FFFF then Err(Validation(ExpiryOverflow))
            else Ok(req.now + req.leaseMs)
  {}

  // ----- which jobs -----

  /** The job may run now. */
  predicate Due(j: Job, now: I64) {
    j.spec.notBefore <= now
    && (j.state.Pending? || (j.state.RetryWait? && j.retryAfter.Some? && j.retryAfter.value <= now))
  }

  /** No unfinished job of its partition was enqueued before it. */
  ghost predicate Foremost(jobs: map<Id, Job>, id: Id)
    requires id in jobs
  {
    forall x :: x in jobs && x != id && jobs[x].state in {Pending, Leased, RetryWait, Uncertain}
                && jobs[x].spec.queue == jobs[id].spec.queue && jobs[x].spec.partitionKey == jobs[id].spec.partitionKey
      ==> jobs[id].sequence < jobs[x].sequence
  }

  /** A lease of this queue that has run out. */
  predicate RunOut(j: Job, queue: Text, now: I64) {
    j.state.Leased? && j.spec.queue == queue && j.leaseExpires.Some? && j.leaseExpires.value < now
  }

  lemma ReadyIsDue(t: JobTables, id: Id, now: I64)
    requires JobsInv(t) && id in t.jobs
    ensures Ready(t.jobs[id], now) <==> Due(t.jobs[id], now)
  {
    RowChecks(t, id);
    hide JobsInv;
  }

  lemma HeadIsForemost(t: JobTables, id: Id)
    requires JobsInv(t) && id in t.jobs && Live(t.jobs[id])
    ensures Head(t.jobs, PlaceOf(t.jobs[id])) == Some(id) <==> Foremost(t.jobs, id)
  {
    hide RowsOk, Fifo, ReceiptsOk, LivePlaces;
    var place := PlaceOf(t.jobs[id]);
    forall x | x in t.jobs
      ensures x in LiveAt(t.jobs, place) <==>
              t.jobs[x].state in {Pending, Leased, RetryWait, Uncertain}
              && t.jobs[x].spec.queue == place.queue && t.jobs[x].spec.partitionKey == place.key
    {
      UnfinishedState(t.jobs[x].state);
    }
    assert id in LiveAt(t.jobs, place);
    var h := Head(t.jobs, place).value;
    assert h in LiveAt(t.jobs, place);
    if h == id {
      forall x | x in LiveAt(t.jobs, place) && x != id ensures t.jobs[id].sequence < t.jobs[x].sequence {
        assert t.jobs[x].sequence != t.jobs[id].sequence;
      }
    }
  }

  lemma PlanCounted(t: JobTables, req: ClaimRequest)
    requires JobsInv(t)
    ensures |PlannedJobs(t, req)| == |PlannedKeys(t, req)|
  {
    hide JobsInv, PlannedKeys, ReadyHead, CyclicAscending;
    var plan := PlannedKeys(t, req);
    PlanMeans(t, req);
    CyclicDistinct(CursorOf(t, req.queue), plan);
    forall n | 0 <= n < |plan| ensures HeadOf(t, req, plan[n]).Some? {
      assert plan[n] in plan;
      ReadyHasHead(t, req.queue, req.now, plan[n]);
    }
    var heads := seq(|plan|, n requires 0 <= n < |plan| => HeadOf(t, req, plan[n]).value);
    forall i, j | 0 <= i < j < |heads| ensures heads[i] != heads[j] {
      HeadsApart(t, req, plan[i], plan[j]);
    }
    forall id ensures id in heads <==> id in PlannedJobs(t, req) {
      if id in PlannedJobs(t, req) {
        var n := PlannedAt(t, req, id);
        assert heads[n] == id;
      }
      if id in heads {
        var n :| 0 <= n < |heads| && heads[n] == id;
        assert plan[n] in plan && HeadOf(t, req, plan[n]) == Some(id);
      }
    }
    DistinctCount(heads, PlannedJobs(t, req));
  }

  function HeadOf(t: JobTables, req: ClaimRequest, key: Text): Option<Id> { Head(t.jobs, Place(req.queue, key)) }

  lemma ReadyHasHead(t: JobTables, queue: Text, now: I64, key: Text)
    requires ReadyHead(t, queue, now, key)
    ensures Head(t.jobs, Place(queue, key)).Some?
  {}

  lemma HeadsApart(t: JobTables, req: ClaimRequest, a: Text, b: Text)
    requires a != b && HeadOf(t, req, a).Some? && HeadOf(t, req, b).Some?
    ensures HeadOf(t, req, a) != HeadOf(t, req, b)
  {
    var x, y := HeadOf(t, req, a).value, HeadOf(t, req, b).value;
    assert x in LiveAt(t.jobs, Place(req.queue, a)) && y in LiveAt(t.jobs, Place(req.queue, b));
  }

  lemma DueIsPlanned(t: JobTables, req: ClaimRequest, id: Id)
    requires JobsInv(t) && id in t.jobs && t.jobs[id].spec.queue == req.queue
    requires Due(t.jobs[id], req.now) && Foremost(t.jobs, id)
    ensures id in PlannedJobs(t, req) || |PlannedJobs(t, req)| == req.limit
  {
    hide JobsInv, PlannedKeys, Foremost, Ready;
    var key := t.jobs[id].spec.partitionKey;
    ReadyIsDue(t, id, req.now);
    HeadIsForemost(t, id);
    assert PlaceOf(t.jobs[id]) == Place(req.queue, key);
    assert ReadyHead(t, req.queue, req.now, key);
    PlanMeans(t, req);
    PlanCounted(t, req);
    if key in PlannedKeys(t, req) { assert Head(t.jobs, Place(req.queue, key)).value in PlannedJobs(t, req); }
  }

  lemma PlannedIsDue(t: JobTables, req: ClaimRequest, id: Id)
    requires JobsInv(t) && id in PlannedJobs(t, req)
    ensures id in t.jobs && t.jobs[id].spec.queue == req.queue && Due(t.jobs[id], req.now) && Foremost(t.jobs, id)
  {
    hide JobsInv, PlannedJobs, Foremost, Ready;
    GrantedIsReadyHead(t, req, id);
    ReadyIsDue(t, id, req.now);
    HeadIsForemost(t, id);
  }

  /** A claim leases only due jobs of its queue, each the foremost of its partition, and leaves such a job out only when it
      has leased as many as it may. */
  lemma GrantsAreDue(t: JobTables, c: Claim, id: Id)
    requires JobsInv(t) && Claimable(t, c)
    ensures |c.grants| <= c.req.limit
    ensures id in c.grants ==>
              id in t.jobs && t.jobs[id].spec.queue == c.req.queue && Due(t.jobs[id], c.req.now) && Foremost(t.jobs, id)
    ensures id in t.jobs && t.jobs[id].spec.queue == c.req.queue && Due(t.jobs[id], c.req.now) && Foremost(t.jobs, id) ==>
              id in c.grants || |c.grants| == c.req.limit
  {
    hide JobsInv, Claimable, PlannedJobs, PlannedKeys, Foremost, Due;
    GrantsArePlanned(t, c);
    PlanCounted(t, c.req);
    PlanMeans(t, c.req);
    if id in c.grants { PlannedIsDue(t, c.req, id); }
    if id in t.jobs && t.jobs[id].spec.queue == c.req.queue && Due(t.jobs[id], c.req.now) && Foremost(t.jobs, id) {
      DueIsPlanned(t, c.req, id);
    }
  }

  lemma GrantsArePlanned(t: JobTables, c: Claim)
    requires Claimable(t, c)
    ensures c.grants.Keys == PlannedJobs(t, c.req) && |c.grants| == |PlannedJobs(t, c.req)|
  {
    hide PlannedJobs, FreshTokens, ExpiredPage, CheckRequest;
    assert |c.grants| == |c.grants.Keys|;
  }

  /** A claim repairs only leases of its queue that have run out, all of them unless sixty-four that ran out no later. */
  lemma RepairsHaveRunOut(t: JobTables, c: Claim, id: Id)
    requires Claimable(t, c)
    ensures id in c.repairs ==> id in t.jobs && RunOut(t.jobs[id], c.req.queue, c.req.now)
    ensures id in t.jobs && RunOut(t.jobs[id], c.req.queue, c.req.now) && id !in c.repairs ==>
              && |c.repairs| == 64
              && forall x :: x in c.repairs ==>
                   x in t.jobs && t.jobs[x].leaseExpires.Some? && t.jobs[x].leaseExpires.value <= t.jobs[id].leaseExpires.value
  {
    hide PlannedJobs, FreshTokens, CheckRequest;
    if id in t.jobs && RunOut(t.jobs[id], c.req.queue, c.req.now) {
      assert id in ExpiredIds(t, c.req);
      if id !in c.repairs { BiggerSet(c.repairs, ExpiredIds(t, c.req), id); }
    }
  }

  /** There is nothing to do exactly when no lease of the queue has run out and, unless the limit is 0, no foremost job of
      the queue is due. */
  lemma NoopIffIdle(t: JobTables, req: ClaimRequest)
    requires JobsInv(t)
    ensures ExpiredIds(t, req) == {} && PlannedJobs(t, req) == {} <==>
            && (forall id :: id in t.jobs ==> !RunOut(t.jobs[id], req.queue, req.now))
            && (req.limit == 0 || forall id :: id in t.jobs && t.jobs[id].spec.queue == req.queue && Due(t.jobs[id], req.now)
                                     ==> !Foremost(t.jobs, id))
  {
    hide JobsInv, PlannedJobs, PlannedKeys, Foremost, Due;
    PlanCounted(t, req);
    PlanMeans(t, req);
    forall id | id in t.jobs ensures id in ExpiredIds(t, req) <==> RunOut(t.jobs[id], req.queue, req.now) {}
    assert ExpiredIds(t, req) == {} <==> forall id :: id in t.jobs ==> !RunOut(t.jobs[id], req.queue, req.now);
    hide ExpiredIds, RunOut;
    forall id | id in t.jobs && t.jobs[id].spec.queue == req.queue && Due(t.jobs[id], req.now) && Foremost(t.jobs, id)
      ensures PlannedJobs(t, req) != {} || req.limit == 0
    {
      DueIsPlanned(t, req, id);
    }
    forall id | id in PlannedJobs(t, req)
      ensures id in t.jobs && t.jobs[id].spec.queue == req.queue && Due(t.jobs[id], req.now) && Foremost(t.jobs, id)
    {
      PlannedIsDue(t, req, id);
    }
  }

  // ----- what is written -----

  /** The row a repaired lease leaves: the job must be reconciled, or may run again, or is out of attempts. */
  function AfterRunOut(j: Job, now: I64, tx: Id): Job {
    var released := j.(leaseToken := None, worker := None, leaseExpires := None, retryAfter := None, updatedTx := tx);
    if j.spec.effectMode.RequiresReconciliation? then released.(state := Uncertain)
    else if j.attempt < j.spec.maxAttempts then released.(state := Pending)
    else released.(state := Dead, terminalAt := Some(now), errorSummary := Some(Ascii("lease expired at final attempt")))
  }

  /** The row of a job leased for one more attempt, until leaseMs after the claim. */
  function AfterLease(j: Job, c: Claim, token: Id): Job
    requires FitsI64(c.req.now + c.req.leaseMs)
  {
    j.(state := Leased, attempt := j.attempt + 1, leaseToken := Some(token), worker := Some(c.req.worker),
       leaseExpires := Some(c.req.now + c.req.leaseMs), retryAfter := None, updatedTx := c.tx)
  }

  ghost predicate Leaves(j: Job, j': Job, id: Id, c: Claim)
    requires FitsI64(c.req.now + c.req.leaseMs)
  {
    j' == if id in c.repairs then AfterRunOut(j, c.req.now, c.tx)
          else if id in c.grants then AfterLease(j, c, c.grants[id])
          else j
  }

  lemma ClaimExpiry(t: JobTables, c: Claim)
    requires Claimable(t, c)
    ensures FitsI64(c.req.now + c.req.leaseMs) && c.expires == c.req.now + c.req.leaseMs
  {
    hide PlannedJobs, FreshTokens, ExpiredPage;
  }

  ghost predicate RowsLeft(t: JobTables, t': JobTables, c: Claim) {
    FitsI64(c.req.now + c.req.leaseMs) && t'.jobs.Keys == t.jobs.Keys
    && forall id :: id in t.jobs ==> Leaves(t.jobs[id], t'.jobs[id], id, c)
  }

  /** One new receipt for each grant, of one more attempt, until leaseMs after the claim; the earlier ones as they were. */
  ghost predicate ReceiptsAdded(t: JobTables, t': JobTables, c: Claim) {
    && (forall k :: k in t'.receipts <==> k in t.receipts || (k.tx == c.tx && k.job in c.grants))
    && (forall k :: k in t.receipts ==> t'.receipts[k] == t.receipts[k])
    && (forall k :: k in t'.receipts && k !in t.receipts && k.job in c.grants && k.job in t.jobs ==>
          && t'.receipts[k].token == c.grants[k.job] && t'.receipts[k].attempt == t.jobs[k.job].attempt + 1
          && t'.receipts[k].worker == c.req.worker && t'.receipts[k].expires == c.req.now + c.req.leaseMs)
    && (forall id :: id in c.grants ==> id in t.jobs)
  }

  lemma ClaimWritesReceipts(t: JobTables, c: Claim)
    requires JobsInv(t) && Claimable(t, c)
    ensures ReceiptsAdded(t, ClaimEffect(t, c), c)
  {
    hide JobsInv, Claimable, AdvanceCursor, StillLive, NewReceipts, ClaimedJobs, PlannedKeys;
    ClaimExpiry(t, c);
    ClaimTxIsNew(t, c);
    forall k { NewReceiptsHold(t.jobs, c, k); }
    forall id | id in c.grants ensures id in t.jobs { GrantIsLive(t, c, id); }
  }

  lemma ClaimWritesRows(t: JobTables, c: Claim)
    requires JobsInv(t) && Claimable(t, c)
    ensures RowsLeft(t, ClaimEffect(t, c), c)
  {
    hide JobsInv, Claimable, AdvanceCursor, StillLive, NewReceipts, Leaves, ClaimedRow, PlannedKeys;
    ClaimExpiry(t, c);
    forall id | id in t.jobs ensures Leaves(t.jobs[id], ClaimedRow(t.jobs[id], id, c), id, c) {
      RowLeaves(t.jobs[id], id, c);
    }
  }

  /** Every row of the jobs table after a claim, every receipt, and the cursor: it moves only if something was leased, to the
      partition of a granted job. */
  lemma ClaimWrites(t: JobTables, c: Claim)
    requires JobsInv(t) && Claimable(t, c)
    ensures RowsLeft(t, ClaimEffect(t, c), c) && ReceiptsAdded(t, ClaimEffect(t, c), c)
    ensures var cursors := ClaimEffect(t, c).cursors;
            if c.grants == map[] then cursors == t.cursors
            else exists id :: id in c.grants && id in t.jobs && cursors == t.cursors[c.req.queue := t.jobs[id].spec.partitionKey]
  {
    hide JobsInv, Claimable, StillLive, NewReceipts, ClaimedJobs, RowsLeft, ReceiptsAdded, PlannedKeys, PlannedJobs, Head;
    ClaimWritesRows(t, c);
    ClaimWritesReceipts(t, c);
    GrantsArePlanned(t, c);
    PlanCounted(t, c.req);
    var plan := PlannedKeys(t, c.req);
    if plan != [] {
      var last := plan[|plan| - 1];
      assert last in plan;
      var id := PlannedHeadOf(t, c.req, last);
    }
  }

  lemma PlannedHeadOf(t: JobTables, req: ClaimRequest, key: Text) returns (id: Id)
    requires JobsInv(t) && key in PlannedKeys(t, req)
    ensures id in PlannedJobs(t, req) && id in t.jobs && t.jobs[id].spec.partitionKey == key
  {
    hide JobsInv, PlannedKeys;
    PlanMeans(t, req);
    assert ReadyHead(t, req.queue, req.now, key);
    id := Head(t.jobs, Place(req.queue, key)).value;
    assert id in LiveAt(t.jobs, Place(req.queue, key));
  }

  lemma RowLeaves(j: Job, id: Id, c: Claim)
    requires FitsI64(c.req.now + c.req.leaseMs) && c.expires == c.req.now + c.req.leaseMs
    ensures Leaves(j, ClaimedRow(j, id, c), id, c)
  {
    hide Ascii;
  }

  /** A claim touches no row, receipt, index row or cursor of another queue. */
  lemma OtherQueuesUntouched(t: JobTables, c: Claim)
    requires JobsInv(t) && Claimable(t, c)
    ensures var t' := ClaimEffect(t, c);
            && (forall id :: id in t.jobs && t.jobs[id].spec.queue != c.req.queue ==> t'.jobs[id] == t.jobs[id])
            && (forall queue :: queue != c.req.queue ==>
                  (queue in t'.cursors <==> queue in t.cursors) && (queue in t.cursors ==> t'.cursors[queue] == t.cursors[queue]))
            && (forall p: Place :: p.queue != c.req.queue ==>
                  (p in t'.active <==> p in t.active) && (p in t.active ==> t'.active[p] == t.active[p]))
  {
    hide JobsInv, Claimable, NewReceipts, Leaves, ClaimedRow, RunOut, Due, Foremost, PlannedKeys, LivePlaces;
    forall id | id in t.jobs && t.jobs[id].spec.queue != c.req.queue ensures ClaimedRow(t.jobs[id], id, c) == t.jobs[id] {
      OtherRow(t, c, id);
    }
    forall p: Place | p.queue != c.req.queue && p in t.active ensures p in LivePlaces(ClaimedJobs(t.jobs, c)) {
      OtherPlace(t, c, p);
    }
  }

  lemma OtherRow(t: JobTables, c: Claim, id: Id)
    requires JobsInv(t) && Claimable(t, c) && id in t.jobs && t.jobs[id].spec.queue != c.req.queue
    ensures ClaimedRow(t.jobs[id], id, c) == t.jobs[id]
  {
    hide JobsInv, Claimable, Foremost, Due;
    RepairsHaveRunOut(t, c, id);
    GrantsAreDue(t, c, id);
  }

  lemma OtherPlace(t: JobTables, c: Claim, p: Place)
    requires JobsInv(t) && Claimable(t, c) && p in t.active && p.queue != c.req.queue
    ensures p in LivePlaces(ClaimedJobs(t.jobs, c))
  {
    hide JobsInv, Claimable, ClaimedRow;
    var x := LiveIn(t, p);
    OtherRow(t, c, x);
    var jobs := ClaimedJobs(t.jobs, c);
    assert x in jobs && jobs[x] == t.jobs[x] && Live(jobs[x]) && PlaceOf(jobs[x]) == p;
  }

  lemma LiveIn(t: JobTables, p: Place) returns (x: Id)
    requires JobsInv(t) && p in t.active
    ensures x in t.jobs && Live(t.jobs[x]) && PlaceOf(t.jobs[x]) == p
  {
    hide RowsOk, SequencesUnique, Fifo, ReceiptsOk;
    assert p in LivePlaces(t.jobs);
    x :| x in t.jobs && Live(t.jobs[x]) && PlaceOf(t.jobs[x]) == p;
  }

  // ----- over a run -----

  /** In any run, what a claim leases, repairs and leaves alone. */
  lemma ClaimsInRun(r: Run, i: nat, id: Id)
    requires IsRun(r) && i < |r.steps| && r.steps[i].ClaimStep?
    ensures i < |r.states| - 1
    ensures var c, jobs, jobs' := r.steps[i].claim, r.states[i].tables.jobs, r.states[i + 1].tables.jobs;
            && |c.grants| <= c.req.limit
            && (id in c.grants ==> id in jobs && jobs[id].spec.queue == c.req.queue && Due(jobs[id], c.req.now) && Foremost(jobs, id))
            && (id in c.repairs ==> id in jobs && RunOut(jobs[id], c.req.queue, c.req.now))
            && (id in jobs && jobs[id].spec.queue == c.req.queue && Due(jobs[id], c.req.now) && Foremost(jobs, id) ==>
                  id in c.grants || |c.grants| == c.req.limit)
            && (id in jobs && RunOut(jobs[id], c.req.queue, c.req.now) ==> id in c.repairs || |c.repairs| == 64)
            && (id in jobs ==> FitsI64(c.req.now + c.req.leaseMs) && id in jobs' && Leaves(jobs[id], jobs'[id], id, c))
  {
    hide DbInv, JobsInv, Claimable, Foremost, Due, RunOut, Leaves, ClaimEffect, CommitEffect, Extend, NextTxSequence;
    assert Follows(r, i);
    RunInv(r, i);
    ClaimEnabled(r.states[i], r.steps[i].claim, r.steps[i].digest);
    GrantsAreDue(r.states[i].tables, r.steps[i].claim, id);
    RepairsHaveRunOut(r.states[i].tables, r.steps[i].claim, id);
    ClaimWrites(r.states[i].tables, r.steps[i].claim);
  }

  // ----- what grants say -----

  /** The grant repeats, column by column, what was enqueued for the job. */
  predicate Repeats(g: Grant, spec: JobSpec) {
    && g.jobId == spec.jobId && g.queue == spec.queue && g.partitionKey == spec.partitionKey
    && g.payload == spec.payload && g.idempotencyKey == spec.idempotencyKey
  }

  /** Every grant handed out carries its job as enqueued, the claim's worker and expiry, the token drawn for it and the number
      of the attempt. */
  lemma GrantTells(t: JobTables, c: Claim, outcome: ClaimOutcome, n: nat)
    requires JobsInv(t) && Claimable(t, c) && Reports(t, c, outcome) && outcome.Claimed? && n < |outcome.grants|
    ensures var g := outcome.grants[n];
            && g.jobId in t.jobs && g.jobId in c.grants && Repeats(g, t.jobs[g.jobId].spec)
            && g.token == c.grants[g.jobId] && g.attempt == t.jobs[g.jobId].attempt + 1
            && g.worker == c.req.worker && g.expires == c.req.now + c.req.leaseMs
  {
    var g := outcome.grants[n];
    hide JobsInv, Claimable, PlannedKeys, Head;
    assert ReportsOne(t, c, PlannedKeys(t, c.req)[n], g);
    ClaimExpiry(t, c);
    RowChecks(t, g.jobId);
  }

  /** Every grant that recovery rebuilds carries its job as enqueued and the lease the job holds at that moment; a job is named
      stale exactly when it no longer holds, unexpired, the lease this transaction gave it. */
  lemma RecoveredTells(db: Db, tx: Id, now: I64, executable: seq<Grant>, stale: seq<Id>)
    requires DbInv(db) && Recovers(db, tx, now, ClaimRecovery.Committed(executable, stale))
    ensures forall n :: 0 <= n < |executable| ==> RecoveredOne(db.tables, tx, now, executable[n])
    ensures forall id ::
              id in stale <==>
              && id in db.tables.jobs && ReceiptKey(tx, id) in db.tables.receipts
              && var j, r := db.tables.jobs[id], db.tables.receipts[ReceiptKey(tx, id)];
                 !(j.state.Leased? && j.leaseToken == Some(r.token) && j.leaseExpires.Some? && now <= j.leaseExpires.value)
  {
    hide DbInv, JobsInv, LeasedBy, RecoveredOne, GrantOf;
    ReceiptsReferTo(db);
    var t := db.tables;
    var ids :| (forall id :: id in ids <==> id in LeasedBy(t, tx)) && Splits(t, tx, now, ids, executable, stale);
    forall n | 0 <= n < |executable| ensures RecoveredOne(t, tx, now, executable[n]) {
      assert Rebuilds(t, tx, now, executable[n]);
      RebuiltTells(t, tx, now, executable[n]);
    }
    forall id { LeasedByMeans(t, tx, id); }
  }

  ghost predicate RecoveredOne(t: JobTables, tx: Id, now: I64, g: Grant) {
    && ReceiptKey(tx, g.jobId) in t.receipts && g.jobId in t.jobs
    && var j := t.jobs[g.jobId];
       && Repeats(g, j.spec) && j.state.Leased?
       && j.leaseToken == Some(g.token) && t.receipts[ReceiptKey(tx, g.jobId)].token == g.token
       && j.worker == Some(g.worker) && j.attempt == g.attempt && j.leaseExpires == Some(g.expires) && now <= g.expires
  }

  lemma RebuiltTells(t: JobTables, tx: Id, now: I64, g: Grant)
    requires JobsInv(t) && Rebuilds(t, tx, now, g)
    ensures RecoveredOne(t, tx, now, g)
  {
    RowChecks(t, g.jobId);
    hide JobsInv;
    RecoveredGrantIsTheLease(t, ReceiptKey(tx, g.jobId), now);
  }

  /** Straight after a claim, and asked at any time, recovery has each of its grants executable exactly until its lease ends. */
  lemma CurrentUntilExpiry(t: JobTables, c: Claim, id: Id, at: I64)
    requires JobsInv(t) && Claimable(t, c) && id in c.grants
    ensures IsCurrent(ClaimEffect(t, c), c.tx, at, id) <==> at <= c.req.now + c.req.leaseMs
  {
    hide JobsInv, Claimable, ClaimEffect, IsCurrent, LeasedBy;
    ClaimExpiry(t, c);
    ClaimRecoverable(t, c, id, at);
  }

  /** In any run, every grant that a claim hands out repeats the enqueue operation of its job, committed earlier. */
  lemma GrantsInRun(r: Run, i: nat, outcome: ClaimOutcome, n: nat) returns (e: ReadModels.Committed)
    requires IsRun(r) && i < |r.steps| && r.steps[i].ClaimStep?
    requires Reports(r.states[i].tables, r.steps[i].claim, outcome) && outcome.Claimed? && n < |outcome.grants|
    ensures e in EnqueuesIn(History(r.steps[..i])) && e.op.EnqueueJob? && Repeats(outcome.grants[n], e.op.spec)
  {
    hide DbInv, JobsInv, Claimable, Reports, EnqueuesIn, History, Repeats, CommitEffect, Extend, NextTxSequence;
    assert Follows(r, i);
    RunInv(r, i);
    ClaimEnabled(r.states[i], r.steps[i].claim, r.steps[i].digest);
    GrantTells(r.states[i].tables, r.steps[i].claim, outcome, n);
    e := JobWasEnqueued(r, i, outcome.grants[n].jobId);
  }

  /** At any moment of a run, every grant that recovery rebuilds repeats the enqueue operation of its job. */
  lemma RecoveredInRun(r: Run, k: nat, tx: Id, now: I64, executable: seq<Grant>, stale: seq<Id>, n: nat) returns (e: ReadModels.Committed)
    requires IsRun(r) && k < |r.states| && n < |executable|
    requires Recovers(r.states[k], tx, now, ClaimRecovery.Committed(executable, stale))
    ensures e in EnqueuesIn(History(r.steps[..k])) && e.op.EnqueueJob? && Repeats(executable[n], e.op.spec)
  {
    hide IsRun, DbInv, JobsInv, Recovers, EnqueuesIn, History, Repeats;
    RunInv(r, k);
    RecoveredTells(r.states[k], tx, now, executable, stale);
    assert RecoveredOne(r.states[k].tables, tx, now, executable[n]);
    e := JobWasEnqueued(r, k, executable[n].jobId);
  }
}
