/** How the job tables may differ between an earlier and a later moment of a run. */
module JobHistory {
  import opened Types
  import opened Messages
  import opened Jobs
  import opened JobInvariant
  import opened Claims

  // ----- one row rewritten by a job operation -----

  /** A row rewritten by transaction `tx`: the same job, as often attempted, holding no lease. */
  predicate Rewritten(j: Job, j': Job, tx: Id) {
    && j'.spec == j.spec && j'.sequence == j.sequence && j'.attempt == j.attempt
    && j'.enqueueTx == j.enqueueTx && j'.updatedTx == tx
    && !j'.state.Leased? && j'.leaseToken.None?
  }

  ghost predicate WritesOneRow(t: JobTables, t': JobTables, tx: Id) {
    exists id, j' :: id in t.jobs && Live(t.jobs[id]) && Rewritten(t.jobs[id], j', tx) && t' == Write(t, id, j')
  }

  lemma WroteRow(t: JobTables, tx: Id, id: Id, j': Job)
    requires id in t.jobs && Live(t.jobs[id]) && Rewritten(t.jobs[id], j', tx)
    ensures WritesOneRow(t, Write(t, id, j'), tx)
  {}

  lemma AckWrites(t: JobTables, tx: Id, now: I64, ack: JobAck)
    requires Ack(t, tx, now, ack).Ok?
    ensures WritesOneRow(t, Ack(t, tx, now, ack).value, tx)
  {
    hide Write, WritesOneRow;
    WroteRow(t, tx, ack.jobId, TerminalRow(t.jobs[ack.jobId], Succeeded, now, tx, ack.resultDigest, None));
  }

  lemma FailWrites(t: JobTables, tx: Id, now: I64, f: JobFailure)
    requires Fail(t, tx, now, f).Ok?
    ensures WritesOneRow(t, Fail(t, tx, now, f).value, tx)
  {
    hide Write, WritesOneRow;
    var j := t.jobs[f.jobId];
    if j.attempt >= j.spec.maxAttempts {
      WroteRow(t, tx, f.jobId, TerminalRow(j, Dead, now, tx, None, Some(f.errorSummary)));
    } else {
      var at := RetryTime(now, f).value;
      WroteRow(t, tx, f.jobId, NonterminalRow(j, RetryWait, Some(at), tx).(errorSummary := Some(f.errorSummary)));
    }
  }

  lemma CancelWrites(t: JobTables, tx: Id, now: I64, c: JobCancellation)
    requires Cancel(t, tx, now, c).Ok?
    ensures WritesOneRow(t, Cancel(t, tx, now, c).value, tx)
  {
    hide Write, WritesOneRow;
    WroteRow(t, tx, c.jobId, TerminalRow(t.jobs[c.jobId], Cancelled, now, tx, None, None));
  }

  lemma ResolveWrites(t: JobTables, tx: Id, now: I64, r: JobResolution)
    requires Resolve(t, tx, now, r).Ok?
    ensures WritesOneRow(t, Resolve(t, tx, now, r).value, tx)
  {
    hide Write, WritesOneRow, Ascii;
    var j := t.jobs[r.jobId];
    match r.resolution
    case Retry =>
      if j.attempt >= j.spec.maxAttempts {
        WroteRow(t, tx, r.jobId, TerminalRow(j, Dead, now, tx, None, Some(Ascii("retry resolution exhausted max_attempts"))));
      } else {
        WroteRow(t, tx, r.jobId, NonterminalRow(j, Pending, None, tx));
      }
    case MarkSucceeded => WroteRow(t, tx, r.jobId, TerminalRow(j, Succeeded, now, tx, None, None));
    case MarkDead => WroteRow(t, tx, r.jobId, TerminalRow(j, Dead, now, tx, None, Some(Ascii("resolved as dead"))));
  }

  /** A job operation adds one row, extends one lease or rewrites one unfinished row. */
  lemma JobOpWrites(t: JobTables, tx: Id, now: I64, op: Operation)
    requires IsJobOp(op) && JobOp(t, tx, now, op).Ok?
    ensures op.EnqueueJob? || op.ExtendLease? || WritesOneRow(t, JobOp(t, tx, now, op).value, tx)
  {
    hide WritesOneRow, Enqueue, Ack, Fail, Cancel, Resolve, Extend;
    match op
    case AckJob(ack) => AckWrites(t, tx, now, ack);
    case FailJob(f) => FailWrites(t, tx, now, f);
    case CancelJob(c) => CancelWrites(t, tx, now, c);
    case ResolveJob(r) => ResolveWrites(t, tx, now, r);
    case _ =>
  }

  // ----- earlier and later tables -----

  function Tokens(receipts: map<ReceiptKey, Receipt>): set<Id> { set k | k in receipts :: receipts[k].token }

  /** Who a job is never changes, its attempts are never forgotten, and a finished row never changes again. */
  predicate RowOnward(j: Job, j': Job) {
    && j'.spec == j.spec && j'.sequence == j.sequence && j'.enqueueTx == j.enqueueTx
    && j.attempt <= j'.attempt && (Live(j) || j' == j)
  }

  predicate NotEarlier(a: Option<I64>, b: Option<I64>) { a.Some? && b.Some? && a.value <= b.value }

  /** The same lease held on, possibly extended. */
  predicate SameLease(j: Job, j': Job) {
    j'.leaseToken == j.leaseToken && j'.attempt == j.attempt && j'.worker == j.worker
    && NotEarlier(j.leaseExpires, j'.leaseExpires)
  }

  ghost predicate RowsOnward(t: JobTables, t': JobTables) {
    forall id :: id in t.jobs ==> id in t'.jobs && RowOnward(t.jobs[id], t'.jobs[id])
  }

  ghost predicate NewcomersLast(t: JobTables, t': JobTables) {
    forall id, x :: id in t'.jobs && id !in t.jobs && x in t.jobs ==> t.jobs[x].sequence < t'.jobs[id].sequence
  }

  /** A lease held later was already held earlier, or its token was unknown earlier. */
  ghost predicate LeasesOnward(t: JobTables, t': JobTables) {
    forall id :: (id in t'.jobs && t'.jobs[id].leaseToken.Some?) ==>
      (id in t.jobs && SameLease(t.jobs[id], t'.jobs[id])) || t'.jobs[id].leaseToken.value !in Tokens(t.receipts)
  }

  predicate ReceiptOnward(r: Receipt, r': Receipt) {
    r'.token == r.token && r'.attempt == r.attempt && r'.worker == r.worker && r.expires <= r'.expires
  }

  ghost predicate ReceiptsOnward(t: JobTables, t': JobTables) {
    forall k :: k in t.receipts ==> k in t'.receipts && ReceiptOnward(t.receipts[k], t'.receipts[k])
  }

  ghost predicate Onward(t: JobTables, t': JobTables) {
    RowsOnward(t, t') && NewcomersLast(t, t') && LeasesOnward(t, t') && ReceiptsOnward(t, t')
  }

  lemma OnwardSame(t: JobTables)
    requires JobsInv(t)
    ensures Onward(t, t)
  {
    hide Fifo, SequencesUnique, ReceiptsOk, LivePlaces;
    assert forall id :: id in t.jobs ==> RowOk(id, t.jobs[id]);
  }

  lemma OnwardTransitive(a: JobTables, b: JobTables, c: JobTables)
    requires Onward(a, b) && Onward(b, c)
    ensures Onward(a, c)
  {
    assert Tokens(a.receipts) <= Tokens(b.receipts) by { TokensKept(a, b); }
    hide Tokens;
    LeasesTransitive(a, b, c);
    hide LeasesOnward;
    assert RowsOnward(a, c);
    assert ReceiptsOnward(a, c);
    assert NewcomersLast(a, c);
  }

  lemma LeasesTransitive(a: JobTables, b: JobTables, c: JobTables)
    requires LeasesOnward(a, b) && LeasesOnward(b, c) && Tokens(a.receipts) <= Tokens(b.receipts)
    ensures LeasesOnward(a, c)
  {
    hide Tokens;
  }

  lemma TokensKept(t: JobTables, t': JobTables)
    requires ReceiptsOnward(t, t')
    ensures Tokens(t.receipts) <= Tokens(t'.receipts)
  {
    forall token | token in Tokens(t.receipts) ensures token in Tokens(t'.receipts) {
      var k :| k in t.receipts && t.receipts[k].token == token;
      assert k in t'.receipts && t'.receipts[k].token == token;
    }
  }

  /** The token of a leased row is on record. */
  lemma TokenOnRecord(t: JobTables, id: Id)
    requires JobsInv(t) && id in t.jobs && t.jobs[id].leaseToken.Some?
    ensures t.jobs[id].leaseToken.value in Tokens(t.receipts)
  {
    hide Fifo, SequencesUnique;
    assert RowOk(id, t.jobs[id]);
    assert HasReceipt(t.receipts, id, t.jobs[id].attempt);
    var k :| k in t.receipts && k.job == id && t.receipts[k].attempt == t.jobs[id].attempt;
    assert Agrees(t.jobs[id], t.receipts[k]);
  }

  // ----- every step moves the tables onward -----

  /** Replacing the jobs and receipts of tables that are onward of themselves, one row changed. */
  lemma OneRowOnward(t: JobTables, t': JobTables, id: Id, j: Job)
    requires Onward(t, t) && t'.jobs == t.jobs[id := j] && ReceiptsOnward(t, t')
    requires id in t.jobs ==> RowOnward(t.jobs[id], j)
    requires id !in t.jobs ==> forall x :: x in t.jobs ==> t.jobs[x].sequence < j.sequence
    requires j.leaseToken.Some? ==> id in t.jobs && SameLease(t.jobs[id], j)
    ensures Onward(t, t')
  {
    hide Tokens, RowOnward, SameLease, ReceiptsOnward;
  }

  lemma WriteOnward(t: JobTables, t': JobTables, tx: Id)
    requires JobsInv(t) && WritesOneRow(t, t', tx)
    ensures Onward(t, t')
  {
    OnwardSame(t);
    hide JobsInv, RowsOnward, NewcomersLast, LeasesOnward, Drain;
    var id, j' :| id in t.jobs && Live(t.jobs[id]) && Rewritten(t.jobs[id], j', tx) && t' == Write(t, id, j');
    OneRowOnward(t, t', id, j');
  }

  lemma EnqueueOnward(t: JobTables, tx: Id, spec: JobSpec)
    requires JobsInv(t) && Enqueue(t, tx, spec).Ok?
    ensures Onward(t, Enqueue(t, tx, spec).value)
  {
    OnwardSame(t);
    hide JobsInv, NextSequence, RowsOnward, NewcomersLast, LeasesOnward, RowOnward, SameLease, ReceiptOnward;
    forall x | x in t.jobs ensures t.jobs[x].sequence < NextSequence(t.jobs) { SequenceIsNew(t.jobs, x); }
    OneRowOnward(t, Enqueue(t, tx, spec).value, spec.jobId, NewJob(spec, NextSequence(t.jobs), tx));
  }

  lemma ExtendOnward(t: JobTables, now: I64, x: LeaseExtension)
    requires JobsInv(t) && Extend(t, now, x).Ok?
    ensures Onward(t, Extend(t, now, x).value)
  {
    OnwardSame(t);
    ExtendReceiptsOnward(t, now, x);
    assert RowOk(x.jobId, t.jobs[x.jobId]);
    hide JobsInv, Onward, ExtendReceipts, ReceiptsOnward;
    OneRowOnward(t, Extend(t, now, x).value, x.jobId, t.jobs[x.jobId].(leaseExpires := Some(x.newExpiry)));
  }

  lemma ExtendReceiptsOnward(t: JobTables, now: I64, x: LeaseExtension)
    requires JobsInv(t) && Extend(t, now, x).Ok?
    ensures ReceiptsOnward(t, Extend(t, now, x).value)
  {
    hide Fifo, SequencesUnique;
    forall k | k in t.receipts && k.job == x.jobId && t.receipts[k].token == x.leaseToken
      ensures t.receipts[k].expires <= x.newExpiry
    {
      TokenNamesLatest(t, k);
    }
  }

  lemma JobOpOnward(t: JobTables, tx: Id, now: I64, op: Operation)
    requires JobsInv(t) && IsJobOp(op) && JobOp(t, tx, now, op).Ok?
    ensures Onward(t, JobOp(t, tx, now, op).value)
  {
    JobOpWrites(t, tx, now, op);
    hide JobsInv, Onward, WritesOneRow, Enqueue, Ack, Fail, Cancel, Resolve, Extend;
    if op.EnqueueJob? {
      EnqueueOnward(t, tx, op.spec);
    } else if op.ExtendLease? {
      ExtendOnward(t, now, op.extension);
    } else {
      WriteOnward(t, JobOp(t, tx, now, op).value, tx);
    }
  }

  lemma ClaimedRowOnward(t: JobTables, c: Claim, id: Id)
    requires JobsInv(t) && Claimable(t, c) && id in t.jobs
    ensures RowOnward(t.jobs[id], ClaimedRow(t.jobs[id], id, c))
    ensures var j' := ClaimedRow(t.jobs[id], id, c);
            j'.leaseToken.Some? ==> SameLease(t.jobs[id], j') || (id in c.grants && j'.leaseToken == Some(c.grants[id]))
  {
    hide Fifo, SequencesUnique, ReceiptsOk, PlannedJobs, FreshTokens, Ascii;
    assert RowOk(id, t.jobs[id]);
    if id in c.grants { GrantedIsReadyHead(t, c.req, id); }
  }

  lemma ClaimLeasesOnward(t: JobTables, c: Claim)
    requires JobsInv(t) && Claimable(t, c)
    ensures LeasesOnward(t, ClaimEffect(t, c))
  {
    var t' := ClaimEffect(t, c);
    assert FreshTokens(t, c.grants);
    hide JobsInv, Claimable, PlannedJobs, AdvanceCursor, StillLive, ClaimedRow, NewReceipts, SameLease;
    forall id | id in t.jobs { ClaimedRowOnward(t, c, id); }
  }

  lemma ClaimReceiptsOnward(t: JobTables, c: Claim)
    requires Claimable(t, c)
    ensures ReceiptsOnward(t, ClaimEffect(t, c))
  {
    hide PlannedJobs, AdvanceCursor, StillLive, ClaimedJobs, ExpiredPage, FreshTokens, CheckRequest;
    var t' := ClaimEffect(t, c);
    assert forall k :: k in t.receipts ==> t'.receipts[k] == t.receipts[k];
  }

  lemma ClaimRowsOnward(t: JobTables, c: Claim)
    requires JobsInv(t) && Claimable(t, c)
    ensures RowsOnward(t, ClaimEffect(t, c)) && NewcomersLast(t, ClaimEffect(t, c))
  {
    hide JobsInv, Claimable, AdvanceCursor, StillLive, ClaimedRow, NewReceipts, RowOnward;
    forall id | id in t.jobs { ClaimedRowOnward(t, c, id); }
  }

  lemma ClaimOnward(t: JobTables, c: Claim)
    requires JobsInv(t) && Claimable(t, c)
    ensures Onward(t, ClaimEffect(t, c))
  {
    ClaimRowsOnward(t, c);
    ClaimLeasesOnward(t, c);
    ClaimReceiptsOnward(t, c);
    hide JobsInv, Claimable, RowsOnward, NewcomersLast, LeasesOnward, ReceiptsOnward, ClaimEffect;
  }

  // ----- what the relation means -----

  /** A token on record that no longer leases a job never does again. */
  lemma TokenStaysDead(t: JobTables, t': JobTables, id: Id, token: Id)
    requires Onward(t, t') && token in Tokens(t.receipts) && id in t.jobs
    requires t.jobs[id].leaseToken != Some(token)
    ensures t'.jobs[id].leaseToken != Some(token)
  {
    hide Tokens;
  }

  /** A lease held at both ends of a stretch was held in between. */
  lemma HeldThroughout(a: JobTables, b: JobTables, c: JobTables, id: Id)
    requires JobsInv(a) && JobsInv(b) && Onward(a, b) && Onward(b, c)
    requires id in a.jobs && id in c.jobs && a.jobs[id].leaseToken.Some?
    requires c.jobs[id].leaseToken == a.jobs[id].leaseToken
    ensures id in b.jobs && SameLease(a.jobs[id], b.jobs[id]) && SameLease(b.jobs[id], c.jobs[id])
  {
    TokenOnRecord(a, id);
    TokensKept(a, b);
    hide Tokens, JobsInv;
  }

  /** The operation presents this token for this job. */
  predicate UsesToken(op: Operation, id: Id, token: Id) {
    match op
    case AckJob(ack) => ack.jobId == id && ack.leaseToken == token
    case FailJob(f) => f.jobId == id && f.leaseToken == token
    case CancelJob(c) => c == JobCancellation(id, Some(token))
    case ExtendLease(x) => x.jobId == id && x.leaseToken == token
    case _ => false
  }

  /** No operation that needs a lease token accepts one that does not lease the job. */
  lemma DeadTokenRejected(t: JobTables, tx: Id, now: I64, op: Operation, id: Id, token: Id)
    requires id in t.jobs && t.jobs[id].leaseToken != Some(token) && UsesToken(op, id, token)
    ensures JobOp(t, tx, now, op).Err?
  {
    hide Write;
  }
}
