/** Whole runs of the store: what holds at every state, and between any two moments of one run. */
module Runs {
  import opened Types
  import opened Messages
  import opened Projections
  import opened Jobs
  import opened JobInvariant
  import opened Scheduler
  import opened Claims
  import opened JobHistory
  import opened Kernel
  import opened Recovery

  /** The databases a store passes through from empty, and the transactions that lead from each to the next. */
  datatype Run = Run(states: seq<Db>, steps: seq<Step>)

  ghost predicate Follows(r: Run, i: nat) {
    i < |r.steps| && i + 1 < |r.states| && Enabled(r.states[i], r.steps[i]) && r.states[i + 1] == After(r.states[i], r.steps[i])
  }

  ghost predicate IsRun(r: Run) {
    && |r.states| == |r.steps| + 1 && r.states[0] == EMPTY_DB
    && forall i: nat :: i < |r.steps| ==> Follows(r, i)
  }

  lemma {:induction false} RunInv(r: Run, k: nat)
    requires IsRun(r) && k < |r.states|
    ensures DbInv(r.states[k])
  {
    hide DbInv, Enabled, After;
    if k == 0 {
      EmptyInv();
    } else {
      RunInv(r, k - 1);
      assert Follows(r, k - 1);
      StepKeepsInv(r.states[k - 1], r.steps[k - 1]);
    }
  }

  /** On every reachable database verify's semantic checks find nothing but changed migrations. */
  lemma RunPassesVerify(r: Run, k: nat, statuses: seq<MigrationStatus>)
    requires IsRun(r) && k < |r.states|
    ensures SemanticFindings(r.states[k], statuses) == MigrationFindings(statuses)
    ensures SemanticFindings(r.states[k], statuses) == {} <==> forall i :: 0 <= i < |statuses| ==> statuses[i].checksumOk
  {
    hide DbInv, SemanticFindings;
    RunInv(r, k);
    InvariantPassesVerify(r.states[k], statuses);
  }

  /** In every reachable state a job row satisfies its declared constraints and never exceeds its attempts; a
      job that can still be leased has attempts left. */
  lemma AttemptBound(r: Run, k: nat, id: Id)
    requires IsRun(r) && k < |r.states| && id in r.states[k].tables.jobs
    ensures var j := r.states[k].tables.jobs[id];
            && Checks(j) && j.attempt <= j.spec.maxAttempts
            && (j.state in {Pending, RetryWait} ==> j.attempt < j.spec.maxAttempts)
  {
    RunInv(r, k);
    hide IsRun, Fifo, SequencesUnique, ReceiptsOk, EventsInv, ReferencesKnown;
    assert RowOk(id, r.states[k].tables.jobs[id]);
  }

  /** In every reachable state at most one job of a partition is Leased, RetryWait or Uncertain. */
  lemma OneInFlightAlways(r: Run, k: nat, a: Id, b: Id)
    requires IsRun(r) && k < |r.states|
    requires var jobs := r.states[k].tables.jobs;
             a in jobs && b in jobs && PlaceOf(jobs[a]) == PlaceOf(jobs[b])
             && jobs[a].state in {Leased, RetryWait, Uncertain} && jobs[b].state in {Leased, RetryWait, Uncertain}
    ensures a == b
  {
    RunInv(r, k);
    hide IsRun, JobsInv, EventsInv, ReferencesKnown;
    OneInFlight(r.states[k].tables, a, b);
  }

  /** In every reachable state the events of a stream carry versions 1 .. current, in global order. */
  lemma StreamsContiguous(r: Run, k: nat, stream: Text)
    requires IsRun(r) && k < |r.states|
    ensures var s := StreamOf(r.states[k].events, stream);
            |s| == VersionIn(r.states[k].streams, stream) && forall n :: 0 <= n < |s| ==> s[n].version == n + 1
  {
    RunInv(r, k);
    hide IsRun, JobsInv, ReferencesKnown;
    assert StreamContiguous(r.states[k].events, r.states[k].streams, stream);
  }

  // ----- earlier and later databases -----

  /** No receipt is ever added to a transaction already on record. */
  ghost predicate ReceiptsClosed(db: Db, t': JobTables) {
    forall k :: k in t'.receipts && k.tx in db.transactions ==> k in db.tables.receipts
  }

  /** Events are only appended, transactions are never altered, and the job tables move onward. */
  ghost predicate Later(db: Db, db': Db) {
    && db.events <= db'.events
    && (forall id :: id in db.transactions ==> id in db'.transactions && db'.transactions[id] == db.transactions[id])
    && Onward(db.tables, db'.tables) && ReceiptsClosed(db, db'.tables)
  }

  lemma LaterTransitive(a: Db, b: Db, c: Db)
    requires Later(a, b) && Later(b, c)
    ensures Later(a, c)
  {
    OnwardTransitive(a.tables, b.tables, c.tables);
    hide Onward;
  }

  lemma LaterSame(db: Db)
    requires DbInv(db)
    ensures Later(db, db)
  {
    OnwardSame(db.tables);
  }

  lemma TablesLater(db: Db, transactions: map<Id, TxRow>, t': JobTables)
    requires Onward(db.tables, t') && ReceiptsClosed(db, t')
    requires forall id :: id in db.transactions ==> id in transactions && transactions[id] == db.transactions[id]
    ensures Later(db, db.(transactions := transactions, tables := t'))
  {
    hide Onward;
  }

  lemma JobOperationLater(db: Db, tx: Id, now: I64, op: Operation)
    requires DbInv(db) && IsJobOp(op) && JobOp(db.tables, tx, now, op).Ok?
    ensures Later(db, db.(tables := JobOp(db.tables, tx, now, op).value))
    ensures JobOp(db.tables, tx, now, op).value.cursors == db.tables.cursors
  {
    hide DbInv, JobsInv, Later, JobOp, Authored, Onward;
    TablesInv(db);
    JobOpOnward(db.tables, tx, now, op);
    JobOpAuthored(db.tables, tx, now, op);
    TablesLater(db, db.transactions, JobOp(db.tables, tx, now, op).value);
  }

  lemma TablesInv(db: Db)
    requires DbInv(db)
    ensures JobsInv(db.tables)
  {
    hide JobsInv, EventsInv, SequencesDistinct, ReferencesKnown;
  }

  lemma OperationLater(db: Db, tx: Id, now: I64, op: Operation)
    requires DbInv(db) && ApplyOperation(db, tx, now, op).Ok?
    ensures Later(db, ApplyOperation(db, tx, now, op).value)
    ensures ApplyOperation(db, tx, now, op).value.tables.cursors == db.tables.cursors
  {
    hide DbInv, JobsInv, Onward, JobOp, ValidPatch, ApplyAll, EventIdUsed;
    if IsJobOp(op) {
      JobOperationLater(db, tx, now, op);
    } else {
      TablesInv(db);
      OnwardSame(db.tables);
    }
  }

  lemma {:induction false} OperationsLater(db: Db, tx: Id, now: I64, ops: seq<Operation>)
    requires DbInv(db) && tx in db.transactions && Admissible(ops)
    requires ApplyOperations(db, tx, now, ops).Ok?
    ensures Later(db, ApplyOperations(db, tx, now, ops).value)
    ensures ApplyOperations(db, tx, now, ops).value.tables.cursors == db.tables.cursors
    decreases |ops|
  {
    hide DbInv, ApplyOperation, EnqueueAdmissible, Later;
    if ops == [] {
      LaterSame(db);
    } else {
      OperationLater(db, tx, now, ops[0]);
      OperationKeepsInv(db, tx, now, ops[0]);
      var next := ApplyOperation(db, tx, now, ops[0]).value;
      OperationsLater(next, tx, now, ops[1..]);
      LaterTransitive(db, next, ApplyOperations(db, tx, now, ops).value);
    }
  }

  lemma BatchLater(db: Db, s: Submission)
    requires DbInv(db) && Enabled(db, BatchStep(s))
    ensures Later(db, After(db, BatchStep(s)))
    ensures After(db, BatchStep(s)).tables.cursors == db.tables.cursors
  {
    hide DbInv, JobsInv, Later, Onward, ApplyOperations, NextTxSequence, Validate;
    var b := s.batch;
    OpenedInv(db, s);
    OpenedLater(db, s);
    OperationsLater(Opened(db, s), b.transactionId, b.committedAt, b.operations);
    LaterTransitive(db, Opened(db, s), After(db, BatchStep(s)));
  }

  lemma OpenedLater(db: Db, s: Submission)
    requires DbInv(db) && ExpectAll(db.streams, s.batch.expected).Ok? && s.batch.transactionId !in db.transactions
    ensures Later(db, Opened(db, s))
  {
    hide DbInv, JobsInv, Onward, NextTxSequence, ExpectAll;
    TablesInv(db);
    OnwardSame(db.tables);
  }

  lemma ClaimEnabled(db: Db, c: Claim, digest: Bytes)
    requires DbInv(db) && Enabled(db, ClaimStep(c, digest))
    ensures JobsInv(db.tables) && Claimable(db.tables, c) && c.tx !in db.transactions
    ensures ReceiptsClosed(db, ClaimEffect(db.tables, c))
  {
    hide JobsInv, EventsInv, SequencesDistinct, ReferencesKnown, Claimable, ClaimEffect, Authored;
    ClaimAuthored(db.tables, c);
  }

  lemma ClaimLater(db: Db, c: Claim, digest: Bytes)
    requires DbInv(db) && Enabled(db, ClaimStep(c, digest))
    ensures Later(db, After(db, ClaimStep(c, digest)))
  {
    hide DbInv, JobsInv, Onward, Later, Claimable, ClaimEffect, ClaimRow, Enabled;
    ClaimEnabled(db, c, digest);
    ClaimOnward(db.tables, c);
    TablesLater(db, db.transactions[c.tx := ClaimRow(db, c, digest)], ClaimEffect(db.tables, c));
  }

  lemma ExtendEnabled(db: Db, x: LeaseExtension, now: I64)
    requires DbInv(db) && Enabled(db, ExtendStep(x, now))
    ensures JobsInv(db.tables) && Extend(db.tables, now, x).Ok?
    ensures ReceiptsClosed(db, Extend(db.tables, now, x).value)
  {
    hide JobsInv, EventsInv, SequencesDistinct, ReferencesKnown, Extend, Authored;
    ExtendAuthored(db.tables, now, x, ZERO_ID);
  }

  lemma ExtendLater(db: Db, x: LeaseExtension, now: I64)
    requires DbInv(db) && Enabled(db, ExtendStep(x, now))
    ensures Later(db, After(db, ExtendStep(x, now)))
    ensures After(db, ExtendStep(x, now)).tables.cursors == db.tables.cursors
  {
    hide DbInv, JobsInv, Onward, Later, CheckExtension, ExtendReceipts, Enabled;
    ExtendEnabled(db, x, now);
    ExtendOnward(db.tables, now, x);
    TablesLater(db, db.transactions, Extend(db.tables, now, x).value);
  }

  lemma StepLater(db: Db, step: Step)
    requires DbInv(db) && Enabled(db, step)
    ensures Later(db, After(db, step))
    ensures step.ClaimStep? || After(db, step).tables.cursors == db.tables.cursors
  {
    hide DbInv, Later, Enabled, After;
    match step
    case BatchStep(s) => BatchLater(db, s);
    case ClaimStep(c, digest) => ClaimLater(db, c, digest);
    case ExtendStep(x, now) => ExtendLater(db, x, now);
  }

  lemma {:induction false} RunLater(r: Run, i: nat, k: nat)
    requires IsRun(r) && i <= k < |r.states|
    ensures Later(r.states[i], r.states[k])
    decreases k
  {
    hide DbInv, Enabled, After, Later;
    if i == k {
      RunInv(r, i);
      LaterSame(r.states[i]);
    } else {
      RunLater(r, i, k - 1);
      RunInv(r, k - 1);
      assert Follows(r, k - 1);
      StepLater(r.states[k - 1], r.steps[k - 1]);
      LaterTransitive(r.states[i], r.states[k - 1], r.states[k]);
    }
  }

  // ----- partition order -----

  /** At step i a claim leases this job. */
  ghost predicate Leases(r: Run, i: nat, id: Id) {
    i < |r.steps| && r.steps[i].ClaimStep? && id in r.steps[i].claim.grants
  }

  lemma NothingEarlierUnfinished(t: JobTables, t': JobTables, c: Claim, id: Id, earlier: Id)
    requires JobsInv(t) && Claimable(t, c) && id in c.grants && Onward(t, t')
    requires earlier in t'.jobs && id in t'.jobs && PlaceOf(t'.jobs[earlier]) == PlaceOf(t'.jobs[id])
    requires t'.jobs[earlier].sequence < t'.jobs[id].sequence
    ensures earlier in t.jobs && t.jobs[earlier].state.IsTerminal() && t'.jobs[earlier] == t.jobs[earlier]
  {
    hide JobsInv, Claimable, PlannedJobs, Ready, PlannedKeys, LeasesOnward, ReceiptsOnward;
    GrantedIsPlanned(t, c, id);
    GrantedIsReadyHead(t, c.req, id);
    if earlier in t.jobs && Live(t.jobs[earlier]) { NothingBeforeHead(t, earlier, id); }
  }

  /** A job is leased only when every job of its partition enqueued before it (at whatever moment k
      one looks) has finished; and those stay exactly as they finished. */
  lemma PartitionFifo(r: Run, i: nat, id: Id, k: nat, earlier: Id)
    requires IsRun(r) && Leases(r, i, id) && i <= k < |r.states|
    requires var jobs := r.states[k].tables.jobs;
             earlier in jobs && id in jobs && PlaceOf(jobs[earlier]) == PlaceOf(jobs[id]) && jobs[earlier].sequence < jobs[id].sequence
    ensures earlier in r.states[i].tables.jobs
    ensures r.states[i].tables.jobs[earlier].state.IsTerminal()
    ensures r.states[k].tables.jobs[earlier] == r.states[i].tables.jobs[earlier]
  {
    RunInv(r, i);
    RunLater(r, i, k);
    assert Follows(r, i);
    hide IsRun, Claimable, JobsInv, Onward, After;
    NothingEarlierUnfinished(r.states[i].tables, r.states[k].tables, r.steps[i].claim, id, earlier);
  }

  // ----- lease tokens -----

  /** The token is on record and does not lease this job. */
  ghost predicate Dead(t: JobTables, id: Id, token: Id) {
    id in t.jobs && token in Tokens(t.receipts) && t.jobs[id].leaseToken != Some(token)
  }

  lemma DeadLater(db: Db, db': Db, id: Id, token: Id)
    requires Later(db, db') && Dead(db.tables, id, token)
    ensures Dead(db'.tables, id, token)
  {
    hide Tokens, NewcomersLast;
    TokensKept(db.tables, db'.tables);
    TokenStaysDead(db.tables, db'.tables, id, token);
  }

  lemma DeadTokenRefused(db: Db, tx: Id, now: I64, op: Operation, id: Id, token: Id)
    requires id !in db.tables.jobs || db.tables.jobs[id].leaseToken != Some(token)
    requires UsesToken(op, id, token)
    ensures ApplyOperation(db, tx, now, op).Err?
  {
    hide Write;
  }

  /** No batch with an operation that presents a dead token goes through, whatever its other operations do. */
  lemma {:induction false} OperationsRefuseToken(db: Db, tx: Id, now: I64, ops: seq<Operation>, n: nat, id: Id, token: Id)
    requires DbInv(db) && tx in db.transactions && Admissible(ops)
    requires Dead(db.tables, id, token) && n < |ops| && UsesToken(ops[n], id, token)
    ensures ApplyOperations(db, tx, now, ops).Err?
    decreases n
  {
    hide DbInv, ApplyOperation, EnqueueAdmissible, Later, Tokens, UsesToken;
    if n == 0 {
      DeadTokenRefused(db, tx, now, ops[0], id, token);
    } else if ApplyOperation(db, tx, now, ops[0]).Ok? {
      var next := ApplyOperation(db, tx, now, ops[0]).value;
      OperationLater(db, tx, now, ops[0]);
      OperationKeepsInv(db, tx, now, ops[0]);
      DeadLater(db, next, id, token);
      OperationsRefuseToken(next, tx, now, ops[1..], n - 1, id, token);
    }
  }

  /** An ack, failure or cancellation uses its token up for the operations after it in the same batch too. */
  lemma {:induction false} TokenUsedUp(db: Db, tx: Id, now: I64, ops: seq<Operation>, m: nat, n: nat, id: Id, token: Id)
    requires DbInv(db) && tx in db.transactions && Admissible(ops)
    requires m < n < |ops| && UsesToken(ops[m], id, token) && !ops[m].ExtendLease? && UsesToken(ops[n], id, token)
    ensures ApplyOperations(db, tx, now, ops).Err?
    decreases m
  {
    hide DbInv, ApplyOperation, EnqueueAdmissible, Later, Dead, UsesToken;
    if ApplyOperation(db, tx, now, ops[0]).Ok? {
      var next := ApplyOperation(db, tx, now, ops[0]).value;
      OperationKeepsInv(db, tx, now, ops[0]);
      if m == 0 {
        UseKillsToken(db, tx, now, ops[0], id, token);
        OperationsRefuseToken(next, tx, now, ops[1..], n - 1, id, token);
      } else {
        TokenUsedUp(next, tx, now, ops[1..], m - 1, n - 1, id, token);
      }
    }
  }

  lemma UseKillsToken(db: Db, tx: Id, now: I64, op: Operation, id: Id, token: Id)
    requires DbInv(db) && UsesToken(op, id, token) && !op.ExtendLease? && ApplyOperation(db, tx, now, op).Ok?
    ensures Dead(ApplyOperation(db, tx, now, op).value.tables, id, token)
  {
    hide DbInv, JobsInv, Tokens, Drain, Later;
    TablesInv(db);
    if id !in db.tables.jobs || db.tables.jobs[id].leaseToken != Some(token) {
      DeadTokenRefused(db, tx, now, op, id, token);
    } else {
      TokenOnRecord(db.tables, id);
    }
  }

  /** The step carries an operation that presents this token for this job, at any place of a batch. */
  ghost predicate Presents(step: Step, id: Id, token: Id) {
    match step
    case BatchStep(s) => exists n :: 0 <= n < |s.batch.operations| && UsesToken(s.batch.operations[n], id, token)
    case ClaimStep(_, _) => false
    case ExtendStep(x, _) => x.jobId == id && x.leaseToken == token
  }

  lemma DeadTokenDisables(db: Db, step: Step, id: Id, token: Id)
    requires DbInv(db) && Dead(db.tables, id, token) && Presents(step, id, token)
    ensures !Enabled(db, step)
  {
    hide DbInv, Dead, UsesToken, Extend;
    if step.BatchStep? && Enabled(db, step) {
      var s := step.submission;
      var n :| 0 <= n < |s.batch.operations| && UsesToken(s.batch.operations[n], id, token);
      OpenedInv(db, s);
      DeadOpened(db, s, id, token);
      OperationsRefuseToken(Opened(db, s), s.batch.transactionId, s.batch.committedAt, s.batch.operations, n, id, token);
    }
    if step.ExtendStep? { DeadExtension(db.tables, step.now, step.extension); }
  }

  lemma DeadOpened(db: Db, s: Submission, id: Id, token: Id)
    requires Dead(db.tables, id, token) && ExpectAll(db.streams, s.batch.expected).Ok?
    ensures Dead(Opened(db, s).tables, id, token)
  {}

  lemma DeadExtension(t: JobTables, now: I64, x: LeaseExtension)
    ensures Dead(t, x.jobId, x.leaseToken) ==> Extend(t, now, x).Err?
  {
    hide Tokens;
  }

  /** Once a granted token no longer leases its job, no transaction that presents it anywhere takes effect, ever. */
  lemma TokenDeath(r: Run, i: nat, k: nat, step: Step, id: Id, token: Id)
    requires IsRun(r) && i <= k < |r.states|
    requires token in Tokens(r.states[i].tables.receipts)
    requires id in r.states[i].tables.jobs && r.states[i].tables.jobs[id].leaseToken != Some(token)
    requires Presents(step, id, token)
    ensures !Enabled(r.states[k], step)
  {
    assert Dead(r.states[i].tables, id, token);
    hide DbInv, Enabled, After, Later, Dead, Presents;
    RunLater(r, i, k);
    RunInv(r, k);
    DeadLater(r.states[i], r.states[k], id, token);
    DeadTokenDisables(r.states[k], step, id, token);
  }

  /** While a token leases its job the lease is never shortened, and it is the same lease throughout. */
  lemma LeaseOnlyLengthens(r: Run, i: nat, m: nat, k: nat, id: Id)
    requires IsRun(r) && i <= m <= k < |r.states| && id in r.states[i].tables.jobs
    requires r.states[i].tables.jobs[id].leaseToken.Some? && id in r.states[k].tables.jobs
    requires r.states[k].tables.jobs[id].leaseToken == r.states[i].tables.jobs[id].leaseToken
    ensures id in r.states[m].tables.jobs
    ensures SameLease(r.states[i].tables.jobs[id], r.states[m].tables.jobs[id])
    ensures SameLease(r.states[m].tables.jobs[id], r.states[k].tables.jobs[id])
  {
    RunLater(r, i, m);
    RunLater(r, m, k);
    RunInv(r, i);
    RunInv(r, m);
    hide IsRun, DbInv;
    HeldThroughout(r.states[i].tables, r.states[m].tables, r.states[k].tables, id);
  }

  // ----- honest claim recovery -----

  /** At any later moment the receipts of a claim transaction name exactly the jobs it leased, under the
      tokens it granted; so recovery splits exactly those. */
  lemma ClaimRemembered(r: Run, i: nat, k: nat, id: Id)
    requires IsRun(r) && i < k < |r.states| && i < |r.steps| && r.steps[i].ClaimStep?
    ensures var c, t := r.steps[i].claim, r.states[k].tables;
            && (id in LeasedBy(t, c.tx) <==> id in c.grants)
            && (id in c.grants ==> t.receipts[ReceiptKey(c.tx, id)].token == c.grants[id])
  {
    var next, c := i + 1, r.steps[i].claim;
    RunInv(r, i);
    RunInv(r, next);
    RunInv(r, k);
    RunLater(r, next, k);
    assert Follows(r, i);
    hide IsRun;
    ClaimStepRemembers(r.states[i], c, r.steps[i].digest, id);
    hide Enabled, After;
    RememberedLater(r.states[next], r.states[k], c.tx, id);
  }

  lemma ClaimStepRemembers(db: Db, c: Claim, digest: Bytes, id: Id)
    requires DbInv(db) && Enabled(db, ClaimStep(c, digest))
    ensures var db' := After(db, ClaimStep(c, digest));
            && c.tx in db'.transactions && (id in LeasedBy(db'.tables, c.tx) <==> id in c.grants)
            && (id in c.grants ==> db'.tables.receipts[ReceiptKey(c.tx, id)].token == c.grants[id])
  {
    hide DbInv, JobsInv, Claimable, ClaimEffect, Enabled, LeasedBy, NextTxSequence;
    ClaimEnabled(db, c, digest);
    ClaimRecoverable(db.tables, c, id, 0);
    LeasedByMeans(ClaimEffect(db.tables, c), c.tx, id);
  }

  lemma RememberedLater(db: Db, db': Db, tx: Id, id: Id)
    requires DbInv(db) && DbInv(db') && Later(db, db') && tx in db.transactions
    ensures id in LeasedBy(db'.tables, tx) <==> id in LeasedBy(db.tables, tx)
    ensures id in LeasedBy(db.tables, tx) ==>
              db'.tables.receipts[ReceiptKey(tx, id)].token == db.tables.receipts[ReceiptKey(tx, id)].token
  {
    hide DbInv, JobsInv, LeasedBy, NewcomersLast, LeasesOnward, RowOnward;
    TablesInv(db);
    TablesInv(db');
    LeasedByMeans(db.tables, tx, id);
    LeasedByMeans(db'.tables, tx, id);
    if ReceiptKey(tx, id) in db.tables.receipts { KnownJob(db.tables, ReceiptKey(tx, id)); }
  }
}
