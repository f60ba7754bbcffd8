/** Jobs whose effects must be reconciled are never handed out again behind the operator's back. */
module Reconciliation {
  import opened Types
  import opened Messages
  import opened Jobs
  import opened JobInvariant
  import opened Claims
  import opened JobHistory
  import opened Kernel
  import opened Runs

  /** Leased under this token, waiting for a resolution, or finished. */
  predicate InDoubt(j: Job, token: Id) {
    (j.state.Leased? && j.leaseToken == Some(token)) || j.state.Uncertain? || j.state.IsTerminal()
  }

  /** The two operations that make an in-doubt job leasable again: its worker reports a failure, or an
      operator asks for a retry. */
  predicate Settles(op: Operation, id: Id, token: Id) {
    || (op.FailJob? && op.failure.jobId == id && op.failure.leaseToken == token)
    || op == ResolveJob(JobResolution(id, Retry))
  }

  ghost predicate SettledIn(ops: seq<Operation>, id: Id, token: Id) {
    exists n :: 0 <= n < |ops| && Settles(ops[n], id, token)
  }

  ghost predicate SettledBy(step: Step, id: Id, token: Id) {
    step.BatchStep? && SettledIn(step.submission.batch.operations, id, token)
  }

  predicate Doubtful(t: JobTables, id: Id, token: Id) {
    id in t.jobs && t.jobs[id].spec.effectMode.RequiresReconciliation? && InDoubt(t.jobs[id], token)
  }

  /** A row rewritten into a finished one, or another job's row. */
  lemma WriteKeepsDoubt(t: JobTables, other: Id, j': Job, id: Id, token: Id)
    requires Doubtful(t, id, token) && other in t.jobs && j'.spec == t.jobs[other].spec
    requires other == id ==> InDoubt(j', token)
    ensures Doubtful(Write(t, other, j'), id, token)
  {
    hide Drain;
  }

  lemma FailKeepsDoubt(t: JobTables, tx: Id, now: I64, f: JobFailure, id: Id, token: Id)
    requires Doubtful(t, id, token) && !Settles(FailJob(f), id, token) && Fail(t, tx, now, f).Ok?
    ensures Doubtful(Fail(t, tx, now, f).value, id, token)
  {
    hide Drain, Ascii, RetryTime;
  }

  lemma ResolveKeepsDoubt(t: JobTables, tx: Id, now: I64, r: JobResolution, id: Id, token: Id)
    requires Doubtful(t, id, token) && !Settles(ResolveJob(r), id, token) && Resolve(t, tx, now, r).Ok?
    ensures Doubtful(Resolve(t, tx, now, r).value, id, token)
  {
    hide Write, Ascii, Doubtful;
    var j := t.jobs[r.jobId];
    match r.resolution
    case Retry =>
      if j.attempt >= j.spec.maxAttempts {
        var summary := Ascii("retry resolution exhausted max_attempts");
        WriteKeepsDoubt(t, r.jobId, TerminalRow(j, Dead, now, tx, None, Some(summary)), id, token);
      } else {
        WriteKeepsDoubt(t, r.jobId, NonterminalRow(j, Pending, None, tx), id, token);
      }
    case MarkSucceeded => WriteKeepsDoubt(t, r.jobId, TerminalRow(j, Succeeded, now, tx, None, None), id, token);
    case MarkDead => WriteKeepsDoubt(t, r.jobId, TerminalRow(j, Dead, now, tx, None, Some(Ascii("resolved as dead"))), id, token);
  }

  lemma JobOpKeepsDoubt(t: JobTables, tx: Id, now: I64, op: Operation, id: Id, token: Id)
    requires Doubtful(t, id, token) && !Settles(op, id, token)
    requires IsJobOp(op) && JobOp(t, tx, now, op).Ok?
    ensures Doubtful(JobOp(t, tx, now, op).value, id, token)
  {
    hide Write, Fail, Resolve, Extend, NextSequence, Settles;
    match op
    case AckJob(a) => WriteKeepsDoubt(t, a.jobId, TerminalRow(t.jobs[a.jobId], Succeeded, now, tx, a.resultDigest, None), id, token);
    case CancelJob(c) => WriteKeepsDoubt(t, c.jobId, TerminalRow(t.jobs[c.jobId], Cancelled, now, tx, None, None), id, token);
    case FailJob(f) => FailKeepsDoubt(t, tx, now, f, id, token);
    case ResolveJob(r) => ResolveKeepsDoubt(t, tx, now, r, id, token);
    case ExtendLease(x) => ExtendKeepsDoubt(t, now, x, id, token);
    case EnqueueJob(_) =>
  }

  lemma RepairKeepsDoubt(j: Job, id: Id, c: Claim, token: Id)
    requires InDoubt(j, token) && j.spec.effectMode.RequiresReconciliation? && id !in c.grants
    ensures InDoubt(ClaimedRow(j, id, c), token) && ClaimedRow(j, id, c).spec == j.spec
  {
    hide Ascii;
  }

  lemma ClaimKeepsDoubt(t: JobTables, c: Claim, id: Id, token: Id)
    requires JobsInv(t) && Claimable(t, c) && Doubtful(t, id, token)
    ensures id !in c.grants && Doubtful(ClaimEffect(t, c), id, token)
  {
    assert id !in c.grants by {
      if id in c.grants { GrantedIsReadyHead(t, c.req, id); }
    }
    hide JobsInv, Claimable, AdvanceCursor, StillLive, NewReceipts, ClaimedRow, InDoubt;
    RepairKeepsDoubt(t.jobs[id], id, c, token);
  }

  lemma {:induction false} OperationsKeepDoubt(db: Db, tx: Id, now: I64, ops: seq<Operation>, id: Id, token: Id)
    requires Doubtful(db.tables, id, token) && !SettledIn(ops, id, token)
    requires ApplyOperations(db, tx, now, ops).Ok?
    ensures Doubtful(ApplyOperations(db, tx, now, ops).value.tables, id, token)
    decreases |ops|
  {
    hide Doubtful, Settles, JobOp, Append, ApplyPatch;
    if ops != [] {
      var next := ApplyOperation(db, tx, now, ops[0]).value;
      if IsJobOp(ops[0]) {
        JobOpKeepsDoubt(db.tables, tx, now, ops[0], id, token);
      } else {
        TablesUntouched(db, tx, now, ops[0]);
      }
      assert forall n :: 0 <= n < |ops[1..]| ==> ops[1..][n] == ops[n + 1];
      OperationsKeepDoubt(next, tx, now, ops[1..], id, token);
    }
  }

  lemma TablesUntouched(db: Db, tx: Id, now: I64, op: Operation)
    requires !IsJobOp(op) && ApplyOperation(db, tx, now, op).Ok?
    ensures ApplyOperation(db, tx, now, op).value.tables == db.tables
  {}

  lemma StepKeepsDoubt(db: Db, step: Step, id: Id, token: Id)
    requires DbInv(db) && Enabled(db, step) && Doubtful(db.tables, id, token) && !SettledBy(step, id, token)
    ensures Doubtful(After(db, step).tables, id, token)
    ensures step.ClaimStep? ==> id !in step.claim.grants
  {
    hide Doubtful, JobsInv, EventsInv, ReferencesKnown, ApplyOperations, ClaimEffect, Claimable, NextTxSequence;
    if step.BatchStep? {
      var s := step.submission;
      OpenedInv(db, s);
      OperationsKeepDoubt(Opened(db, s), s.batch.transactionId, s.batch.committedAt, s.batch.operations, id, token);
    } else if step.ClaimStep? {
      ClaimKeepsDoubt(db.tables, step.claim, id, token);
    } else {
      ExtendKeepsDoubt(db.tables, step.now, step.extension, id, token);
    }
  }

  lemma ExtendKeepsDoubt(t: JobTables, now: I64, x: LeaseExtension, id: Id, token: Id)
    requires Doubtful(t, id, token) && Extend(t, now, x).Ok?
    ensures Doubtful(Extend(t, now, x).value, id, token)
  {
    hide ExtendReceipts;
  }

  lemma GrantStartsDoubt(t: JobTables, c: Claim, id: Id)
    requires JobsInv(t) && Claimable(t, c) && id in c.grants
    requires id in t.jobs && t.jobs[id].spec.effectMode.RequiresReconciliation?
    ensures Doubtful(ClaimEffect(t, c), id, c.grants[id])
  {
    GrantAttempt(t, c, id);
    hide JobsInv, Claimable, Ascii, AdvanceCursor, StillLive, NewReceipts;
  }

  lemma GrantStepStartsDoubt(db: Db, step: Step, id: Id)
    requires DbInv(db) && Enabled(db, step) && step.ClaimStep? && id in step.claim.grants
    requires id in db.tables.jobs && db.tables.jobs[id].spec.effectMode.RequiresReconciliation?
    ensures Doubtful(After(db, step).tables, id, step.claim.grants[id])
  {
    JobsOfDb(db);
    hide DbInv, JobsInv, Doubtful, Claimable, ClaimEffect, CommitEffect;
    GrantStartsDoubt(db.tables, step.claim, id);
  }

  lemma {:induction false} StaysInDoubt(r: Run, i: nat, k: nat, id: Id)
    requires IsRun(r) && Leases(r, i, id) && i < k < |r.states|
    requires id in r.states[i].tables.jobs && r.states[i].tables.jobs[id].spec.effectMode.RequiresReconciliation?
    requires forall m :: i < m < k ==> !SettledBy(r.steps[m], id, r.steps[i].claim.grants[id])
    ensures Doubtful(r.states[k].tables, id, r.steps[i].claim.grants[id])
    decreases k
  {
    hide DbInv, Doubtful, SettledBy, Enabled, After;
    var last := k - 1;
    RunInv(r, last);
    assert Follows(r, last);
    if last == i {
      GrantStepStartsDoubt(r.states[i], r.steps[i], id);
    } else {
      StaysInDoubt(r, i, last, id);
      StepKeepsDoubt(r.states[last], r.steps[last], id, r.steps[i].claim.grants[id]);
    }
  }

  lemma JobsOfDb(db: Db)
    requires DbInv(db)
    ensures JobsInv(db.tables)
  {}

  /** Between two lease grants of a job that requires reconciliation, its first worker failed it under the
      first grant's token or an operator resolved it for retry. Lease expiry alone never suffices. */
  lemma NoSilentReexecution(r: Run, i: nat, k: nat, id: Id)
    requires IsRun(r) && i < k && Leases(r, i, id) && Leases(r, k, id)
    requires id in r.states[i].tables.jobs && r.states[i].tables.jobs[id].spec.effectMode.RequiresReconciliation?
    ensures exists m :: i < m < k && SettledBy(r.steps[m], id, r.steps[i].claim.grants[id])
  {
    hide DbInv, Enabled, After, Doubtful, SettledBy;
    var token := r.steps[i].claim.grants[id];
    if forall m :: i < m < k ==> !SettledBy(r.steps[m], id, token) {
      StaysInDoubt(r, i, k, id);
      RunInv(r, k);
      assert Follows(r, k);
      GrantEndsDoubt(r.states[k], r.steps[k], id, token);
    }
  }

  lemma GrantEndsDoubt(db: Db, step: Step, id: Id, token: Id)
    requires DbInv(db) && Enabled(db, step) && step.ClaimStep? && id in step.claim.grants
    ensures !Doubtful(db.tables, id, token)
  {
    hide JobsInv, EventsInv, ReferencesKnown, Doubtful, Claimable;
    if Doubtful(db.tables, id, token) {
      ClaimKeepsDoubt(db.tables, step.claim, id, token);
    }
  }
}
