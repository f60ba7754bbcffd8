/** What every reachable state of the job tables satisfies, and that each job operation keeps it. */
module JobInvariant {
  import opened Types
  import opened Messages
  import opened Jobs

  /** The row constraints declared by schema version 2, and the attempt bound. */
  predicate RowOk(id: Id, j: Job) {
    && j.spec.jobId == id && id != ZERO_ID && j.spec.maxAttempts > 0 && j.sequence > 0
    && (j.state.Leased? <==> j.leaseToken.Some?)
    && (j.state.Leased? <==> j.worker.Some?)
    && (j.state.Leased? <==> j.leaseExpires.Some?)
    && (j.state.RetryWait? ==> j.retryAfter.Some?)
    && (j.state.IsTerminal() <==> j.terminalAt.Some?)
    && j.attempt <= j.spec.maxAttempts
    && (j.state.Pending? || j.state.RetryWait? ==> j.attempt < j.spec.maxAttempts)
    && (j.state.Leased? || j.state.RetryWait? || j.state.Uncertain? ==> j.attempt > 0)
  }

  /** The CHECK constraints on a row of the jobs table. */
  predicate Checks(j: Job) {
    && j.spec.maxAttempts > 0
    && (j.state.Leased? <==> j.leaseToken.Some?)
    && (j.state.Leased? <==> j.worker.Some?)
    && (j.state.Leased? <==> j.leaseExpires.Some?)
    && (j.state.RetryWait? ==> j.retryAfter.Some?)
    && (j.state.IsTerminal() <==> j.terminalAt.Some?)
  }

  ghost predicate RowsOk(jobs: map<Id, Job>) { forall id :: id in jobs ==> RowOk(id, jobs[id]) }

  /** UNIQUE(enqueue_sequence). */
  ghost predicate SequencesUnique(jobs: map<Id, Job>) {
    forall a, b :: a in jobs && b in jobs && jobs[a].sequence == jobs[b].sequence ==> a == b
  }

  predicate Untouched(j: Job) { j.state.Pending? && j.attempt == 0 }

  /** Behind the head of a partition nothing has ever been leased. */
  ghost predicate Fifo(jobs: map<Id, Job>) {
    forall a, b ::
      (a in jobs && b in jobs && Live(jobs[a]) && Live(jobs[b]) && PlaceOf(jobs[a]) == PlaceOf(jobs[b])
       && jobs[a].sequence < jobs[b].sequence) ==> Untouched(jobs[b])
  }

  ghost predicate HasReceipt(receipts: map<ReceiptKey, Receipt>, id: Id, attempt: nat) {
    exists k :: k in receipts && k.job == id && receipts[k].attempt == attempt
  }

  /** A leased row repeats its latest receipt. */
  predicate Agrees(j: Job, r: Receipt) {
    j.state.Leased? && r.attempt == j.attempt ==>
      j.leaseToken == Some(r.token) && j.worker == Some(r.worker) && j.leaseExpires == Some(r.expires)
  }

  ghost predicate ReceiptsBounded(jobs: map<Id, Job>, receipts: map<ReceiptKey, Receipt>) {
    forall k :: k in receipts ==>
      k.job in jobs && 1 <= receipts[k].attempt <= jobs[k.job].attempt && Agrees(jobs[k.job], receipts[k])
  }

  ghost predicate ReceiptsUnique(receipts: map<ReceiptKey, Receipt>) {
    forall k, l :: k in receipts && l in receipts && k != l ==>
      receipts[k].token != receipts[l].token && (k.job != l.job || receipts[k].attempt != receipts[l].attempt)
  }

  ghost predicate ReceiptsCover(jobs: map<Id, Job>, receipts: map<ReceiptKey, Receipt>) {
    forall id, n :: id in jobs && 1 <= n <= jobs[id].attempt ==> HasReceipt(receipts, id, n)
  }

  /** The receipts of a job are in bijection with its attempts 1 .. attempt, and no token is granted twice. */
  ghost predicate ReceiptsOk(jobs: map<Id, Job>, receipts: map<ReceiptKey, Receipt>) {
    ReceiptsBounded(jobs, receipts) && ReceiptsUnique(receipts) && ReceiptsCover(jobs, receipts)
  }

  ghost predicate JobsInv(t: JobTables) {
    && RowsOk(t.jobs)
    && SequencesUnique(t.jobs)
    && Fifo(t.jobs)
    && t.active.Keys == LivePlaces(t.jobs)
    && ReceiptsOk(t.jobs, t.receipts)
  }

  lemma RowChecks(t: JobTables, id: Id)
    requires JobsInv(t) && id in t.jobs
    ensures Checks(t.jobs[id]) && t.jobs[id].spec.jobId == id
  {
    hide Fifo, SequencesUnique, ReceiptsOk;
    assert RowOk(id, t.jobs[id]);
  }

  /** The token in a leased row is the token of the job's latest receipt, and of no other. */
  lemma TokenNamesLatest(t: JobTables, k: ReceiptKey)
    requires JobsInv(t) && k in t.receipts && t.jobs[k.job].leaseToken == Some(t.receipts[k].token)
    ensures t.receipts[k].attempt == t.jobs[k.job].attempt
    ensures t.jobs[k.job].worker == Some(t.receipts[k].worker)
    ensures t.jobs[k.job].leaseExpires == Some(t.receipts[k].expires)
  {
    hide Fifo;
    var j := t.jobs[k.job];
    assert RowOk(k.job, j);
    assert HasReceipt(t.receipts, k.job, j.attempt);
    var l :| l in t.receipts && l.job == k.job && t.receipts[l].attempt == j.attempt;
    assert Agrees(j, t.receipts[l]);
  }

  function ReceiptsUpTo(receipts: map<ReceiptKey, Receipt>, id: Id, n: nat): set<ReceiptKey> {
    set k | k in receipts && k.job == id && receipts[k].attempt <= n
  }

  /** A job has exactly as many receipts as attempts, one for each. */
  lemma {:induction false} ReceiptsCounted(t: JobTables, id: Id, n: nat)
    requires JobsInv(t) && id in t.jobs && n <= t.jobs[id].attempt
    ensures |ReceiptsUpTo(t.receipts, id, n)| == n
    ensures n == t.jobs[id].attempt ==> ReceiptsUpTo(t.receipts, id, n) == set k | k in t.receipts && k.job == id
  {
    hide RowsOk, SequencesUnique, Fifo, LivePlaces, Agrees;
    if n == 0 {
      assert ReceiptsUpTo(t.receipts, id, 0) == {};
    } else {
      ReceiptsCounted(t, id, n - 1);
      assert HasReceipt(t.receipts, id, n);
      var k :| k in t.receipts && k.job == id && t.receipts[k].attempt == n;
      assert ReceiptsUpTo(t.receipts, id, n) == ReceiptsUpTo(t.receipts, id, n - 1) + {k};
    }
  }

  // ----- one row replaced -----

  /** A replacement that keeps who the job is and how often it ran, and gives up any lease. */
  predicate Replaces(j: Job, j': Job) {
    && j'.spec == j.spec && j'.sequence == j.sequence && j'.attempt == j.attempt
    && !j'.state.Leased?
    && (Untouched(j) ==> j'.state.IsTerminal())
  }

  lemma WriteKeepsFifo(jobs: map<Id, Job>, id: Id, j': Job)
    requires Fifo(jobs) && SequencesUnique(jobs)
    requires id in jobs && Live(jobs[id]) && Replaces(jobs[id], j')
    ensures Fifo(jobs[id := j'])
  {}

  lemma WriteKeepsReceipts(jobs: map<Id, Job>, receipts: map<ReceiptKey, Receipt>, id: Id, j': Job)
    requires ReceiptsOk(jobs, receipts)
    requires id in jobs && j'.attempt == jobs[id].attempt && !j'.state.Leased?
    ensures ReceiptsOk(jobs[id := j'], receipts)
  {
    var jobs' := jobs[id := j'];
    assert forall x :: x in jobs' ==> x in jobs && jobs'[x].attempt == jobs[x].attempt;
  }

  /** Rewriting one unfinished row can only take its own partition out of the live ones. */
  lemma PlacesAfter(jobs: map<Id, Job>, id: Id, j': Job)
    requires id in jobs && Live(jobs[id]) && PlaceOf(j') == PlaceOf(jobs[id])
    ensures forall p :: p in LivePlaces(jobs[id := j']) ==> p in LivePlaces(jobs)
    ensures forall p :: p in LivePlaces(jobs) && (p != PlaceOf(j') || Live(j')) ==> p in LivePlaces(jobs[id := j'])
  {
    var jobs' := jobs[id := j'];
    forall p | p in LivePlaces(jobs') ensures p in LivePlaces(jobs) {
      var x :| x in jobs' && Live(jobs'[x]) && PlaceOf(jobs'[x]) == p;
      assert x in jobs && Live(jobs[x]) && PlaceOf(jobs[x]) == p;
    }
    forall p | p in LivePlaces(jobs) && (p != PlaceOf(j') || Live(j')) ensures p in LivePlaces(jobs') {
      var x :| x in jobs && Live(jobs[x]) && PlaceOf(jobs[x]) == p;
      assert x in jobs' && Live(jobs'[x]) && PlaceOf(jobs'[x]) == p;
    }
  }

  lemma WriteKeepsIndex(t: JobTables, id: Id, j': Job)
    requires t.active.Keys == LivePlaces(t.jobs)
    requires id in t.jobs && Live(t.jobs[id]) && j'.spec == t.jobs[id].spec
    ensures Write(t, id, j').active.Keys == LivePlaces(Write(t, id, j').jobs)
  {
    PlacesAfter(t.jobs, id, j');
    hide LivePlaces;
  }

  lemma WriteKeepsInv(t: JobTables, id: Id, j': Job)
    requires JobsInv(t)
    requires id in t.jobs && Live(t.jobs[id]) && Replaces(t.jobs[id], j') && RowOk(id, j')
    ensures JobsInv(Write(t, id, j'))
  {
    hide Fifo, ReceiptsOk;
    WriteKeepsFifo(t.jobs, id, j');
    WriteKeepsReceipts(t.jobs, t.receipts, id, j');
    WriteKeepsIndex(t, id, j');
  }

  // ----- the operations -----

  lemma SequenceIsNew(jobs: map<Id, Job>, id: Id)
    requires id in jobs
    ensures jobs[id].sequence < NextSequence(jobs)
  {
    assert jobs[id].sequence in Sequences(jobs);
  }

  lemma EnqueueKeepsInv(t: JobTables, tx: Id, spec: JobSpec)
    requires JobsInv(t) && spec.jobId != ZERO_ID && spec.maxAttempts > 0
    requires Enqueue(t, tx, spec).Ok?
    ensures JobsInv(Enqueue(t, tx, spec).value)
  {
    hide Sequences, Fifo, ReceiptsOk, LivePlaces;
    var j := NewJob(spec, NextSequence(t.jobs), tx);
    forall x | x in t.jobs ensures t.jobs[x].sequence < j.sequence { SequenceIsNew(t.jobs, x); }
    NewRowKeepsFifo(t.jobs, spec.jobId, j);
    NewRowKeepsReceipts(t.jobs, t.receipts, spec.jobId, j);
    NewRowPlaces(t.jobs, spec.jobId, j);
  }

  lemma NewRowKeepsFifo(jobs: map<Id, Job>, id: Id, j: Job)
    requires Fifo(jobs) && id !in jobs && Untouched(j)
    requires forall x :: x in jobs ==> jobs[x].sequence < j.sequence
    ensures Fifo(jobs[id := j])
  {}

  lemma NewRowKeepsReceipts(jobs: map<Id, Job>, receipts: map<ReceiptKey, Receipt>, id: Id, j: Job)
    requires ReceiptsOk(jobs, receipts) && id !in jobs && j.attempt == 0
    ensures ReceiptsOk(jobs[id := j], receipts)
  {
    hide HasReceipt, Agrees;
  }

  lemma NewRowPlaces(jobs: map<Id, Job>, id: Id, j: Job)
    requires id !in jobs && Live(j)
    ensures LivePlaces(jobs[id := j]) == LivePlaces(jobs) + {PlaceOf(j)}
  {
    var jobs' := jobs[id := j];
    forall p ensures p in LivePlaces(jobs') <==> p in LivePlaces(jobs) + {PlaceOf(j)} {
      if p in LivePlaces(jobs) {
        var x :| x in jobs && Live(jobs[x]) && PlaceOf(jobs[x]) == p;
        assert jobs'[x] == jobs[x];
      }
      assert id in jobs' && Live(jobs'[id]);
    }
  }

  lemma SamePlaces(jobs: map<Id, Job>, id: Id, j: Job)
    requires id in jobs && Live(jobs[id]) && Live(j) && PlaceOf(j) == PlaceOf(jobs[id])
    ensures LivePlaces(jobs[id := j]) == LivePlaces(jobs)
  {
    PlacesAfter(jobs, id, j);
    hide LivePlaces;
  }

  lemma ExtendKeepsInv(t: JobTables, now: I64, x: LeaseExtension)
    requires JobsInv(t) && Extend(t, now, x).Ok?
    ensures JobsInv(Extend(t, now, x).value)
  {
    var j' := t.jobs[x.jobId].(leaseExpires := Some(x.newExpiry));
    ExtendKeepsFifo(t.jobs, x.jobId, j');
    ExtendKeepsReceipts(t, now, x);
    SamePlaces(t.jobs, x.jobId, j');
    hide Fifo, ReceiptsOk, LivePlaces, ExtendReceipts;
  }

  lemma ExtendKeepsFifo(jobs: map<Id, Job>, id: Id, j': Job)
    requires Fifo(jobs) && id in jobs && Live(jobs[id])
    requires j' == jobs[id].(leaseExpires := j'.leaseExpires)
    ensures Fifo(jobs[id := j'])
  {}

  lemma ExtendKeepsReceipts(t: JobTables, now: I64, x: LeaseExtension)
    requires ReceiptsOk(t.jobs, t.receipts) && Extend(t, now, x).Ok?
    ensures ReceiptsOk(Extend(t, now, x).value.jobs, Extend(t, now, x).value.receipts)
  {
    var t' := Extend(t, now, x).value;
    assert t'.receipts.Keys == t.receipts.Keys;
    assert forall k :: k in t'.receipts ==>
        t'.receipts[k] == t.receipts[k].(expires := t'.receipts[k].expires);
    forall id, n | id in t'.jobs && 1 <= n <= t'.jobs[id].attempt ensures HasReceipt(t'.receipts, id, n) {
      assert HasReceipt(t.receipts, id, n);
      var k :| k in t.receipts && k.job == id && t.receipts[k].attempt == n;
      assert k in t'.receipts && t'.receipts[k].attempt == n;
    }
    forall k | k in t'.receipts ensures Agrees(t'.jobs[k.job], t'.receipts[k]) {
      assert Agrees(t.jobs[k.job], t.receipts[k]);
    }
  }

  lemma AckKeepsInv(t: JobTables, tx: Id, now: I64, ack: JobAck)
    requires JobsInv(t) && Ack(t, tx, now, ack).Ok?
    ensures t.jobs[ack.jobId].state.Leased? && JobsInv(Ack(t, tx, now, ack).value)
  {
    hide Write, Fifo, ReceiptsOk;
    WriteKeepsInv(t, ack.jobId, TerminalRow(t.jobs[ack.jobId], Succeeded, now, tx, ack.resultDigest, None));
  }

  lemma FailKeepsInv(t: JobTables, tx: Id, now: I64, f: JobFailure)
    requires JobsInv(t) && Fail(t, tx, now, f).Ok?
    ensures t.jobs[f.jobId].state.Leased? && JobsInv(Fail(t, tx, now, f).value)
  {
    hide Write, Fifo, ReceiptsOk;
    var j := t.jobs[f.jobId];
    if j.attempt >= j.spec.maxAttempts {
      WriteKeepsInv(t, f.jobId, TerminalRow(j, Dead, now, tx, None, Some(f.errorSummary)));
    } else {
      var at := RetryTime(now, f).value;
      WriteKeepsInv(t, f.jobId, NonterminalRow(j, RetryWait, Some(at), tx).(errorSummary := Some(f.errorSummary)));
    }
  }

  lemma CancelKeepsInv(t: JobTables, tx: Id, now: I64, c: JobCancellation)
    requires JobsInv(t) && Cancel(t, tx, now, c).Ok?
    ensures JobsInv(Cancel(t, tx, now, c).value)
  {
    hide Write, Fifo, ReceiptsOk;
    WriteKeepsInv(t, c.jobId, TerminalRow(t.jobs[c.jobId], Cancelled, now, tx, None, None));
  }

  lemma ResolveKeepsInv(t: JobTables, tx: Id, now: I64, r: JobResolution)
    requires JobsInv(t) && Resolve(t, tx, now, r).Ok?
    ensures t.jobs[r.jobId].state in {Leased, Uncertain} && JobsInv(Resolve(t, tx, now, r).value)
  {
    hide Write, Fifo, ReceiptsOk, Ascii;
    var j := t.jobs[r.jobId];
    match r.resolution
    case Retry =>
      if j.attempt >= j.spec.maxAttempts {
        WriteKeepsInv(t, r.jobId, TerminalRow(j, Dead, now, tx, None, Some(Ascii("retry resolution exhausted max_attempts"))));
      } else {
        WriteKeepsInv(t, r.jobId, NonterminalRow(j, Pending, None, tx));
      }
    case MarkSucceeded => WriteKeepsInv(t, r.jobId, TerminalRow(j, Succeeded, now, tx, None, None));
    case MarkDead => WriteKeepsInv(t, r.jobId, TerminalRow(j, Dead, now, tx, None, Some(Ascii("resolved as dead"))));
  }

  predicate EnqueueAdmissible(op: Operation) {
    op.EnqueueJob? ==> op.spec.jobId != ZERO_ID && op.spec.maxAttempts > 0
  }

  /** Every job operation keeps the invariant. */
  lemma JobOpKeepsInv(t: JobTables, tx: Id, now: I64, op: Operation)
    requires JobsInv(t) && IsJobOp(op) && EnqueueAdmissible(op)
    requires JobOp(t, tx, now, op).Ok?
    ensures JobsInv(JobOp(t, tx, now, op).value)
  {
    hide JobsInv, Enqueue, Ack, Fail, Cancel, Resolve, Extend;
    match op
    case EnqueueJob(spec) => EnqueueKeepsInv(t, tx, spec);
    case AckJob(ack) => AckKeepsInv(t, tx, now, ack);
    case FailJob(f) => FailKeepsInv(t, tx, now, f);
    case CancelJob(c) => CancelKeepsInv(t, tx, now, c);
    case ResolveJob(r) => ResolveKeepsInv(t, tx, now, r);
    case ExtendLease(x) => ExtendKeepsInv(t, now, x);
  }

  /** At most one job of a partition is ever Leased, RetryWait or Uncertain. */
  lemma OneInFlight(t: JobTables, a: Id, b: Id)
    requires JobsInv(t) && a in t.jobs && b in t.jobs && PlaceOf(t.jobs[a]) == PlaceOf(t.jobs[b])
    requires t.jobs[a].state in {Leased, RetryWait, Uncertain} && t.jobs[b].state in {Leased, RetryWait, Uncertain}
    ensures a == b
  {
    hide ReceiptsOk;
    if t.jobs[a].sequence == t.jobs[b].sequence { assert a == b; }
  }
}
