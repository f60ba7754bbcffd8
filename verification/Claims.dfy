/** One claim transaction as a whole: bounded repair of expired leases, lease grants, receipts and
    the cursor (src/store/jobs.rs). The effect is stated row by row against the state before the
    claim; that the code's row-by-row writes of saved rows add up to it is proved in modules ClaimPlan and Connection. */
module Claims {
  import opened Types
  import opened Messages
  import opened ByteOrder
  import opened Jobs
  import opened JobInvariant
  import opened Scheduler

  // ----- the request -----

  function CheckRequest(req: ClaimRequest): Result<I64, Error> {
    if req.queue == [] then Err(Validation(EmptyQueue))
    else if req.worker == [] then Err(Validation(EmptyWorker))
    else if req.leaseMs <= 0 then Err(Validation(LeaseNotPositive))
    else if !FitsI64(req.now + req.leaseMs) then Err(Validation(ExpiryOverflow))
    else Ok(req.now + req.leaseMs)
  }

  // ----- expired leases -----

  predicate IsExpired(j: Job, now: I64) {
    j.state.Leased? && j.leaseExpires.Some? && j.leaseExpires.value < now
  }

  function ExpiredIds(t: JobTables, req: ClaimRequest): set<Id> {
    set id | id in t.jobs && t.jobs[id].spec.queue == req.queue && IsExpired(t.jobs[id], req.now)
  }

  /** A result of SELECT .. ORDER BY lease_expires_at_ms LIMIT 64: among equal expiries any choice is allowed. */
  ghost predicate ExpiredPage(t: JobTables, req: ClaimRequest, page: set<Id>) {
    var expired := ExpiredIds(t, req);
    && page <= expired
    && |page| == (if |expired| <= MAINTENANCE_LIMIT then |expired| else MAINTENANCE_LIMIT)
    && forall a, b :: a in page && b in expired && b !in page ==>
         t.jobs[a].leaseExpires.value <= t.jobs[b].leaseExpires.value
  }

  function RepairState(j: Job): JobState {
    match j.spec.effectMode
    case RequiresReconciliation => Uncertain
    case ExplicitlyIdempotent => if j.attempt >= j.spec.maxAttempts then Dead else Pending
  }

  function RepairedRow(j: Job, now: I64, tx: Id): Job {
    if RepairState(j).Dead? then TerminalRow(j, Dead, now, tx, None, Some(Ascii("lease expired at final attempt")))
    else NonterminalRow(j, RepairState(j), None, tx)
  }

  // ----- grants -----

  function LeasedRow(j: Job, token: Id, worker: Text, expires: I64, tx: Id): Job {
    j.(state := Leased, attempt := j.attempt + 1, leaseToken := Some(token), worker := Some(worker),
       leaseExpires := Some(expires), retryAfter := None, updatedTx := tx)
  }

  /** The jobs a claim leases: the heads of the planned partitions. */
  function PlannedJobs(t: JobTables, req: ClaimRequest): set<Id> {
    set k | k in PlannedKeys(t, req) && Head(t.jobs, Place(req.queue, k)).Some? :: Head(t.jobs, Place(req.queue, k)).value
  }

  /** A claim transaction: the repaired jobs, and the granted jobs with their lease tokens. */
  datatype Claim = Claim(req: ClaimRequest, tx: Id, expires: I64, repairs: set<Id>, grants: map<Id, Id>)

  function ClaimedRow(j: Job, id: Id, c: Claim): Job {
    if id in c.repairs then RepairedRow(j, c.req.now, c.tx)
    else if id in c.grants then LeasedRow(j, c.grants[id], c.req.worker, c.expires, c.tx)
    else j
  }

  function ClaimedJobs(jobs: map<Id, Job>, c: Claim): map<Id, Job> {
    map id | id in jobs :: ClaimedRow(jobs[id], id, c)
  }

  function NewReceipts(jobs: map<Id, Job>, c: Claim): map<ReceiptKey, Receipt> {
    map id | id in c.grants && id in jobs ::
      ReceiptKey(c.tx, id) := Receipt(c.grants[id], jobs[id].attempt + 1, c.req.worker, c.expires)
  }

  lemma NewReceiptsHold(jobs: map<Id, Job>, c: Claim, k: ReceiptKey)
    ensures k in NewReceipts(jobs, c) <==> k.tx == c.tx && k.job in c.grants && k.job in jobs
    ensures k in NewReceipts(jobs, c) ==>
              NewReceipts(jobs, c)[k] == Receipt(c.grants[k.job], jobs[k.job].attempt + 1, c.req.worker, c.expires)
  {
    assert k.tx == c.tx ==> k == ReceiptKey(c.tx, k.job);
  }

  function StillLive(active: map<Place, nat>, jobs: map<Id, Job>): map<Place, nat> {
    map p | p in active && p in LivePlaces(jobs) :: active[p]
  }

  /** The cursor moves only when something was leased, to the last partition leased. */
  function AdvanceCursor(cursors: map<Text, Text>, queue: Text, planned: seq<Text>): map<Text, Text> {
    if planned == [] then cursors else cursors[queue := planned[|planned| - 1]]
  }

  function ClaimEffect(t: JobTables, c: Claim): JobTables {
    var jobs := ClaimedJobs(t.jobs, c);
    JobTables(jobs, StillLive(t.active, jobs), AdvanceCursor(t.cursors, c.req.queue, PlannedKeys(t, c.req)),
              t.receipts + NewReceipts(t.jobs, c))
  }

  /** The identifiers drawn for a claim are new: nonzero, unused as tokens, distinct. */
  ghost predicate FreshTokens(t: JobTables, grants: map<Id, Id>) {
    && (forall id :: id in grants ==> grants[id] != ZERO_ID)
    && (forall id, k :: id in grants && k in t.receipts ==> grants[id] != t.receipts[k].token)
    && (forall a, b :: a in grants && b in grants && grants[a] == grants[b] ==> a == b)
  }

  /** `c` is a claim that the code can commit from these tables. */
  ghost predicate Claimable(t: JobTables, c: Claim) {
    && CheckRequest(c.req) == Ok(c.expires)
    && ExpiredPage(t, c.req, c.repairs)
    && c.grants.Keys == PlannedJobs(t, c.req)
    && FreshTokens(t, c.grants)
    && (forall k :: k in t.receipts ==> k.tx != c.tx)
    && (c.repairs != {} || c.grants != map[])
  }

  // ----- the two plans of one claim never meet -----

  lemma GrantedIsReadyHead(t: JobTables, req: ClaimRequest, id: Id)
    requires JobsInv(t) && id in PlannedJobs(t, req)
    ensures id in t.jobs && t.jobs[id].spec.queue == req.queue
    ensures Head(t.jobs, PlaceOf(t.jobs[id])) == Some(id) && Ready(t.jobs[id], req.now)
    ensures t.jobs[id].state in {Pending, RetryWait} && t.jobs[id].attempt < t.jobs[id].spec.maxAttempts
    ensures t.jobs[id].spec.partitionKey in PlannedKeys(t, req)
  {
    hide PlannedKeys, Fifo, ReceiptsOk;
    PlanMeans(t, req);
    var k :| k in PlannedKeys(t, req) && Head(t.jobs, Place(req.queue, k)) == Some(id);
    assert RowOk(id, t.jobs[id]);
  }

  lemma GrantedIsPlanned(t: JobTables, c: Claim, id: Id)
    requires Claimable(t, c) && id in c.grants
    ensures id in PlannedJobs(t, c.req)
  {
    hide PlannedJobs, FreshTokens, ExpiredPage, CheckRequest;
  }

  lemma GrantIsLive(t: JobTables, c: Claim, id: Id)
    requires JobsInv(t) && Claimable(t, c) && id in c.grants
    ensures id in t.jobs && Live(t.jobs[id]) && id !in c.repairs
  {
    hide JobsInv, PlannedJobs, FreshTokens;
    GrantedIsReadyHead(t, c.req, id);
  }

  /** Repaired and leased jobs lie in different partitions, so neither plan disturbs the other. */
  lemma PlansDisjoint(t: JobTables, req: ClaimRequest, repaired: Id, granted: Id)
    requires JobsInv(t) && repaired in ExpiredIds(t, req) && granted in PlannedJobs(t, req)
    ensures repaired != granted && PlaceOf(t.jobs[repaired]) != PlaceOf(t.jobs[granted])
  {
    hide PlannedJobs, Fifo, ReceiptsOk;
    GrantedIsReadyHead(t, req, granted);
    TouchedIsHead(t, repaired);
  }

  /** Every planned transition is one the job state machine allows: a claim cannot end in a Conflict. */
  lemma ClaimTransitionsAllowed(t: JobTables, c: Claim, id: Id)
    requires JobsInv(t) && Claimable(t, c) && id in t.jobs && (id in c.repairs || id in c.grants)
    ensures t.jobs[id].state.CanTransitionTo(ClaimedJobs(t.jobs, c)[id].state)
    ensures id in c.repairs ==> id !in c.grants
  {
    hide ReceiptsOk, Fifo, PlannedJobs, FreshTokens;
    if id in c.grants { GrantedIsReadyHead(t, c.req, id); }
  }

  // ----- a claim keeps the invariant -----

  lemma RepairedRowOk(id: Id, j: Job, now: I64, tx: Id)
    requires RowOk(id, j) && j.state.Leased?
    ensures RowOk(id, RepairedRow(j, now, tx)) && Replaces(j, RepairedRow(j, now, tx))
  {
    hide Ascii;
  }

  lemma LeasedRowOk(id: Id, j: Job, token: Id, worker: Text, expires: I64, tx: Id)
    requires RowOk(id, j) && j.state in {Pending, RetryWait}
    ensures RowOk(id, LeasedRow(j, token, worker, expires, tx))
  {}

  lemma ClaimedRowOk(t: JobTables, c: Claim, id: Id)
    requires JobsInv(t) && Claimable(t, c) && id in t.jobs
    ensures RowOk(id, ClaimedRow(t.jobs[id], id, c))
  {
    hide ReceiptsOk, Fifo, SequencesUnique, PlannedJobs, FreshTokens, RepairedRow, LeasedRow, RowOk;
    assert RowOk(id, t.jobs[id]);
    if id in c.repairs {
      RepairedRowOk(id, t.jobs[id], c.req.now, c.tx);
    } else if id in c.grants {
      GrantedIsReadyHead(t, c.req, id);
      LeasedRowOk(id, t.jobs[id], c.grants[id], c.req.worker, c.expires, c.tx);
    }
  }

  lemma NothingBeforeHead(t: JobTables, before: Id, head: Id)
    requires before in t.jobs && head in t.jobs && Live(t.jobs[before])
    requires PlaceOf(t.jobs[before]) == PlaceOf(t.jobs[head]) && Head(t.jobs, PlaceOf(t.jobs[head])) == Some(head)
    ensures t.jobs[head].sequence <= t.jobs[before].sequence
  {
    assert before in LiveAt(t.jobs, PlaceOf(t.jobs[head]));
  }

  lemma ClaimKeepsFifo(t: JobTables, c: Claim)
    requires JobsInv(t) && Claimable(t, c)
    ensures Fifo(ClaimedJobs(t.jobs, c))
  {
    hide ReceiptsOk, PlannedJobs, FreshTokens, Ascii;
    var jobs' := ClaimedJobs(t.jobs, c);
    forall a, b | a in jobs' && b in jobs' && Live(jobs'[a]) && Live(jobs'[b])
                  && PlaceOf(jobs'[a]) == PlaceOf(jobs'[b]) && jobs'[a].sequence < jobs'[b].sequence
      ensures Untouched(jobs'[b])
    {
      LiveBefore(t, c, a);
      LiveBefore(t, c, b);
      if b in c.grants {
        GrantedIsReadyHead(t, c.req, b);
        NothingBeforeHead(t, a, b);
      }
    }
  }

  /** A claim changes neither who a job is nor where it queues, and revives nothing. */
  lemma LiveBefore(t: JobTables, c: Claim, id: Id)
    requires JobsInv(t) && Claimable(t, c) && id in t.jobs
    ensures var j' := ClaimedRow(t.jobs[id], id, c);
            j'.spec == t.jobs[id].spec && j'.sequence == t.jobs[id].sequence && (Live(j') ==> Live(t.jobs[id]))
  {
    hide ReceiptsOk, Fifo, PlannedJobs, FreshTokens, Ascii;
    if id in c.grants { GrantedIsReadyHead(t, c.req, id); }
  }

  lemma ClaimKeepsIndex(t: JobTables, c: Claim)
    requires JobsInv(t) && Claimable(t, c)
    ensures ClaimEffect(t, c).active.Keys == LivePlaces(ClaimEffect(t, c).jobs)
  {
    hide ReceiptsOk, Fifo, PlannedJobs, FreshTokens, Claimable, ClaimedRow, AdvanceCursor, NewReceipts;
    var jobs' := ClaimedJobs(t.jobs, c);
    forall p | p in LivePlaces(jobs') ensures p in t.active {
      var id :| id in jobs' && Live(jobs'[id]) && PlaceOf(jobs'[id]) == p;
      LiveBefore(t, c, id);
      assert id in t.jobs && Live(t.jobs[id]) && PlaceOf(t.jobs[id]) == p;
      assert p in LivePlaces(t.jobs);
    }
  }

  lemma GrantAttempt(t: JobTables, c: Claim, id: Id)
    requires JobsInv(t) && Claimable(t, c) && id in t.jobs
    ensures ClaimedRow(t.jobs[id], id, c).attempt == t.jobs[id].attempt + (if id in c.grants then 1 else 0)
    ensures id in c.grants ==> id !in c.repairs
    ensures id !in c.grants && ClaimedRow(t.jobs[id], id, c).state.Leased? ==> ClaimedRow(t.jobs[id], id, c) == t.jobs[id]
  {
    hide ReceiptsOk, Fifo, SequencesUnique, PlannedJobs, FreshTokens, Ascii;
    if id in c.grants { GrantedIsReadyHead(t, c.req, id); }
  }

  lemma GrantsAreJobs(t: JobTables, c: Claim)
    requires JobsInv(t) && Claimable(t, c)
    ensures forall id :: id in c.grants ==> id in t.jobs
  {
    hide ReceiptsOk, Fifo, SequencesUnique, PlannedJobs, FreshTokens;
    forall id | id in c.grants ensures id in t.jobs { GrantedIsReadyHead(t, c.req, id); }
  }

  lemma ClaimReceiptsAgree(t: JobTables, c: Claim)
    requires JobsInv(t) && Claimable(t, c)
    ensures ReceiptsBounded(ClaimedJobs(t.jobs, c), t.receipts + NewReceipts(t.jobs, c))
  {
    hide Fifo, SequencesUnique, PlannedJobs, Ascii, RowsOk, HasReceipt, FreshTokens, ExpiredPage, CheckRequest, RepairedRow;
    var jobs', receipts' := ClaimedJobs(t.jobs, c), t.receipts + NewReceipts(t.jobs, c);
    forall k | k in receipts'
      ensures k.job in jobs' && 1 <= receipts'[k].attempt <= jobs'[k.job].attempt && Agrees(jobs'[k.job], receipts'[k])
    {
      GrantAttempt(t, c, k.job);
      if k in t.receipts { assert Agrees(t.jobs[k.job], t.receipts[k]); }
    }
  }

  lemma ClaimReceiptsCover(t: JobTables, c: Claim)
    requires JobsInv(t) && Claimable(t, c)
    ensures ReceiptsCover(ClaimedJobs(t.jobs, c), t.receipts + NewReceipts(t.jobs, c))
  {
    hide Fifo, SequencesUnique, PlannedJobs, Ascii, RowsOk, Agrees, FreshTokens, ExpiredPage, CheckRequest, ClaimedRow;
    var jobs', receipts' := ClaimedJobs(t.jobs, c), t.receipts + NewReceipts(t.jobs, c);
    forall id, n | id in jobs' && 1 <= n <= jobs'[id].attempt ensures HasReceipt(receipts', id, n) {
      GrantAttempt(t, c, id);
      if n <= t.jobs[id].attempt {
        assert HasReceipt(t.receipts, id, n);
        var k :| k in t.receipts && k.job == id && t.receipts[k].attempt == n;
        assert k in receipts' && receipts'[k].attempt == n;
      } else {
        assert ReceiptKey(c.tx, id) in receipts';
      }
    }
  }

  lemma UniqueTogether(before: map<ReceiptKey, Receipt>, added: map<ReceiptKey, Receipt>)
    requires ReceiptsUnique(before) && ReceiptsUnique(added)
    requires forall k, l :: k in before && l in added ==>
               before[k].token != added[l].token && (k.job != l.job || before[k].attempt != added[l].attempt)
    ensures ReceiptsUnique(before + added)
  {}

  lemma ClaimReceiptsUnique(t: JobTables, c: Claim)
    requires JobsInv(t) && Claimable(t, c)
    ensures ReceiptsUnique(t.receipts + NewReceipts(t.jobs, c))
  {
    hide Fifo, SequencesUnique, PlannedJobs, RowsOk, Agrees, ReceiptsCover, ExpiredPage, CheckRequest, LivePlaces;
    var added := NewReceipts(t.jobs, c);
    assert forall k :: k in added ==>
        k.tx == c.tx && k.job in c.grants && k.job in t.jobs && added[k].token == c.grants[k.job]
        && added[k].attempt == t.jobs[k.job].attempt + 1;
    UniqueTogether(t.receipts, added);
  }

  lemma ClaimKeepsReceipts(t: JobTables, c: Claim)
    requires JobsInv(t) && Claimable(t, c)
    ensures ReceiptsOk(ClaimEffect(t, c).jobs, ClaimEffect(t, c).receipts)
  {
    ClaimReceiptsAgree(t, c);
    ClaimReceiptsCover(t, c);
    ClaimReceiptsUnique(t, c);
    hide Claimable, JobsInv, ReceiptsBounded, ReceiptsUnique, ReceiptsCover, ClaimedJobs, NewReceipts, AdvanceCursor, StillLive;
  }

  lemma ClaimKeepsInv(t: JobTables, c: Claim)
    requires JobsInv(t) && Claimable(t, c)
    ensures JobsInv(ClaimEffect(t, c))
  {
    hide Fifo, ReceiptsOk, Claimable, ClaimedRow, AdvanceCursor, NewReceipts, StillLive, RowOk;
    forall id | id in t.jobs
      ensures RowOk(id, ClaimedRow(t.jobs[id], id, c))
      ensures ClaimedRow(t.jobs[id], id, c).sequence == t.jobs[id].sequence
    {
      ClaimedRowOk(t, c, id);
      LiveBefore(t, c, id);
    }
    ClaimKeepsFifo(t, c);
    ClaimKeepsIndex(t, c);
    ClaimKeepsReceipts(t, c);
  }

  /** An expired lease is repaired, to the state its effect mode calls for, unless a full page of leases that expired
      no later was repaired instead. Lease expiry never makes a job that requires reconciliation leasable. */
  lemma RepairsMean(t: JobTables, c: Claim, id: Id)
    requires Claimable(t, c) && id in ExpiredIds(t, c.req)
    ensures var j, j' := t.jobs[id], ClaimEffect(t, c).jobs[id];
            if id in c.repairs then
              && j'.leaseToken.None? && j'.attempt == j.attempt
              && (j.spec.effectMode.RequiresReconciliation? ==> j'.state.Uncertain?)
              && (j.spec.effectMode.ExplicitlyIdempotent? ==>
                    if j.attempt < j.spec.maxAttempts then j'.state.Pending? else j'.state.Dead? && j'.terminalAt == Some(c.req.now))
            else
              |c.repairs| == MAINTENANCE_LIMIT
              && forall x :: x in c.repairs ==> t.jobs[x].leaseExpires.value <= t.jobs[id].leaseExpires.value
  {
    hide PlannedJobs, FreshTokens, AdvanceCursor, StillLive, NewReceipts, Ascii;
    if id !in c.repairs { BiggerSet(c.repairs, ExpiredIds(t, c.req), id); }
  }

  lemma BiggerSet<T>(a: set<T>, b: set<T>, x: T)
    requires a <= b && x in b && x !in a
    ensures |a| < |b|
  {
    Subsize(a, b - {x});
  }

  // ----- draining -----

  function Waiting(t: JobTables, queue: Text): set<Id> {
    set id | id in t.jobs && t.jobs[id].spec.queue == queue && IsWaiting(t.jobs[id])
  }

  /** Twice the expired leases of a queue plus its waiting jobs. */
  function Backlog(t: JobTables, req: ClaimRequest): nat {
    2 * |ExpiredIds(t, req)| + |Waiting(t, req.queue)|
  }

  predicate IsWaiting(j: Job) { j.state in {Pending, RetryWait} }

  lemma RepairedRowBacklog(j: Job, now: I64, tx: Id)
    ensures RepairedRow(j, now, tx).spec == j.spec
    ensures !IsExpired(RepairedRow(j, now, tx), now)
    ensures IsWaiting(RepairedRow(j, now, tx)) <==> RepairState(j).Pending?
  {
    hide Ascii;
  }

  lemma LeasedRowBacklog(j: Job, token: Id, worker: Text, expires: I64, tx: Id, now: I64)
    requires now <= expires
    ensures LeasedRow(j, token, worker, expires, tx).spec == j.spec
    ensures !IsExpired(LeasedRow(j, token, worker, expires, tx), now) && !IsWaiting(LeasedRow(j, token, worker, expires, tx))
  {}

  lemma BacklogRow(t: JobTables, c: Claim, id: Id)
    requires JobsInv(t) && Claimable(t, c) && id in t.jobs
    ensures var j, j' := t.jobs[id], ClaimedRow(t.jobs[id], id, c);
            && j'.spec == j.spec
            && (id in c.repairs ==> IsExpired(j, c.req.now))
            && (id in c.grants ==> j.spec.queue == c.req.queue && IsWaiting(j) && !IsExpired(j, c.req.now))
            && (IsExpired(j', c.req.now) <==> IsExpired(j, c.req.now) && id !in c.repairs)
            && (IsWaiting(j') <==> (IsWaiting(j) && id !in c.grants) || (id in c.repairs && RepairState(j).Pending?))
  {
    hide JobsInv, PlannedJobs, FreshTokens, RepairState, RepairedRow, LeasedRow;
    if id in c.grants {
      GrantedIsReadyHead(t, c.req, id);
      LeasedRowBacklog(t.jobs[id], c.grants[id], c.req.worker, c.expires, c.tx, c.req.now);
    } else {
      RepairedRowBacklog(t.jobs[id], c.req.now, c.tx);
    }
  }

  lemma BacklogSets(t: JobTables, c: Claim, requeued: set<Id>)
    requires JobsInv(t) && Claimable(t, c)
    requires requeued == set id | id in c.repairs && id in t.jobs && RepairState(t.jobs[id]).Pending?
    ensures ExpiredIds(ClaimEffect(t, c), c.req) == ExpiredIds(t, c.req) - c.repairs
    ensures Waiting(ClaimEffect(t, c), c.req.queue) == Waiting(t, c.req.queue) - c.grants.Keys + requeued
    ensures c.grants.Keys <= Waiting(t, c.req.queue)
  {
    hide JobsInv, PlannedJobs, AdvanceCursor, FreshTokens, StillLive, NewReceipts, ClaimedRow, IsExpired, RepairState;
    GrantsAreJobs(t, c);
    forall id | id in t.jobs { BacklogRow(t, c, id); }
  }

  /** A claim that does anything strictly lowers the backlog seen at the same time. */
  lemma ClaimLowersBacklog(t: JobTables, c: Claim)
    requires JobsInv(t) && Claimable(t, c)
    ensures Backlog(ClaimEffect(t, c), c.req) < Backlog(t, c.req)
  {
    hide JobsInv, ClaimEffect, RepairState, ExpiredIds, Waiting, FreshTokens;
    var requeued := set id | id in c.repairs && id in t.jobs && RepairState(t.jobs[id]).Pending?;
    BacklogSets(t, c, requeued);
    BacklogArithmetic(ExpiredIds(t, c.req), Waiting(t, c.req.queue), c.repairs, c.grants.Keys, requeued);
  }

  lemma BacklogArithmetic(expired: set<Id>, waiting: set<Id>, repairs: set<Id>, granted: set<Id>, requeued: set<Id>)
    requires repairs <= expired && granted <= waiting && requeued <= repairs
    requires repairs != {} || granted != {}
    ensures 2 * |expired - repairs| + |waiting - granted + requeued| < 2 * |expired| + |waiting|
  {
    assert |expired - repairs| == |expired| - |repairs| by { assert expired == (expired - repairs) + repairs; }
    assert |waiting - granted| == |waiting| - |granted| by { assert waiting == (waiting - granted) + granted; }
    Subsize(requeued, repairs);
    Unionsize(waiting - granted, requeued);
    assert repairs == {} <==> |repairs| == 0;
  }

  lemma Subsize<T>(a: set<T>, b: set<T>)
    requires a <= b
    ensures |a| <= |b|
  {
    assert a + (b - a) == b;
  }

  lemma Unionsize<T>(a: set<T>, b: set<T>)
    ensures |a + b| <= |a| + |b|
  {
    assert a + b == a + (b - a);
    Subsize(b - a, b);
  }

  /** Nothing planned (Noop), for a limit of at least one, means no expired lease and no ready head in the queue. */
  lemma NoopMeansDrained(t: JobTables, req: ClaimRequest, page: set<Id>)
    requires JobsInv(t) && req.limit >= 1 && ExpiredPage(t, req, page)
    ensures page == {} && PlannedJobs(t, req) == {} <==>
            ExpiredIds(t, req) == {} && forall k :: !ReadyHead(t, req.queue, req.now, k)
  {
    hide Fifo, SequencesUnique, ReceiptsOk, PlannedKeys;
    PlanMeans(t, req);
    var plan := PlannedKeys(t, req);
    forall k | k in plan ensures Head(t.jobs, Place(req.queue, k)).Some? && PlannedJobs(t, req) != {} {
      assert Head(t.jobs, Place(req.queue, k)).value in PlannedJobs(t, req);
    }
    assert plan == [] || plan[0] in plan;
    if id :| id in PlannedJobs(t, req) {
      var k :| k in plan && Head(t.jobs, Place(req.queue, k)) == Some(id);
      assert ReadyHead(t, req.queue, req.now, k);
    }
    assert page == {} <==> |page| == 0;
    assert ExpiredIds(t, req) == {} <==> |ExpiredIds(t, req)| == 0;
  }
}
