/** Streams, projections and the job list as folds of a run's history. */
module ReadModels {
  import opened Types
  import opened Messages
  import opened Projections
  import opened Jobs
  import opened JobInvariant
  import opened Claims
  import opened JobHistory
  import opened JobOutcomes
  import opened Kernel
  import opened Runs

  // ----- the history -----

  /** An operation, and the transaction that committed it. */
  datatype Committed = Committed(tx: Id, op: Operation)

  function Tagged(tx: Id, ops: seq<Operation>): seq<Committed> { seq(|ops|, n requires 0 <= n < |ops| => Committed(tx, ops[n])) }

  function OperationsOf(step: Step): seq<Committed> {
    if step.BatchStep? then Tagged(step.submission.batch.transactionId, step.submission.batch.operations) else []
  }

  /** Every operation committed by these steps, in order. */
  function History(steps: seq<Step>): seq<Committed> {
    if steps == [] then [] else History(steps[..|steps| - 1]) + OperationsOf(steps[|steps| - 1])
  }

  function PatchesIn(h: seq<Committed>, name: Text): seq<Patch> {
    if h == [] then []
    else
      var last := h[|h| - 1].op;
      PatchesIn(h[..|h| - 1], name) + (if last.ProjectionPatch? && last.patch.projection == name then [last.patch] else [])
  }

  function AppendsIn(h: seq<Committed>): seq<Committed> {
    if h == [] then [] else AppendsIn(h[..|h| - 1]) + (if h[|h| - 1].op.AppendEvent? then [h[|h| - 1]] else [])
  }

  function EnqueuesIn(h: seq<Committed>): seq<Committed> {
    if h == [] then [] else EnqueuesIn(h[..|h| - 1]) + (if h[|h| - 1].op.EnqueueJob? then [h[|h| - 1]] else [])
  }

  function Replay(patches: seq<Patch>): Contents {
    if patches == [] then map[]
    else ApplyAll(patches[|patches| - 1].mutations, Replay(patches[..|patches| - 1]))
  }

  // ----- the folds -----

  /** The projection is at the version counting its patches, each applied in turn to the version before. */
  ghost predicate Projected(db: Db, h: seq<Committed>, name: Text) {
    var patches := PatchesIn(h, name);
    && VersionIn(db.versions, name) == |patches|
    && ContentsOf(db.entries, name) == Replay(patches)
    && forall i :: 0 <= i < |patches| ==> patches[i].expectedVersion == i
  }

  /** The event log is the events appended, in order, each under its transaction. */
  ghost predicate Logged(db: Db, h: seq<Committed>) {
    var appends := AppendsIn(h);
    && |db.events| == |appends|
    && forall i :: 0 <= i < |appends| ==>
         appends[i].op.AppendEvent? && db.events[i].event == appends[i].op.event && db.events[i].tx == appends[i].tx
  }

  /** The jobs are the ones enqueued, each once and as enqueued, numbered 1, 2, .. in that order. */
  ghost predicate Queued(db: Db, h: seq<Committed>) {
    var q, jobs := EnqueuesIn(h), db.tables.jobs;
    && (forall n :: 0 <= n < |q| ==> EnqueuedAs(jobs, q[n], n + 1))
    && (forall id :: id in jobs ==> EnqueuesAt(q, jobs[id].sequence, id))
  }

  predicate EnqueuesAt(q: seq<Committed>, n: nat, id: Id) {
    1 <= n <= |q| && q[n - 1].op.EnqueueJob? && q[n - 1].op.spec.jobId == id
  }

  predicate EnqueuedAs(jobs: map<Id, Job>, e: Committed, sequence: nat) {
    e.op.EnqueueJob? && e.op.spec.jobId in jobs
    && var j := jobs[e.op.spec.jobId]; j.spec == e.op.spec && j.sequence == sequence && j.enqueueTx == e.tx
  }

  ghost predicate Folds(db: Db, h: seq<Committed>, name: Text) { Projected(db, h, name) && Logged(db, h) && Queued(db, h) }

  // ----- projections -----

  lemma PatchesAfter(h: seq<Committed>, e: Committed, name: Text)
    ensures PatchesIn(h + [e], name) ==
            PatchesIn(h, name) + (if e.op.ProjectionPatch? && e.op.patch.projection == name then [e.op.patch] else [])
  {
    assert (h + [e])[..|h|] == h;
  }

  lemma ReplayAfter(patches: seq<Patch>, p: Patch)
    ensures Replay(patches + [p]) == ApplyAll(p.mutations, Replay(patches))
  {
    hide ApplyAll;
    assert (patches + [p])[..|patches|] == patches;
  }

  lemma PatchProjects(db: Db, h: seq<Committed>, tx: Id, p: Patch)
    requires Projected(db, h, p.projection) && ApplyPatch(db, p).Ok?
    ensures Projected(ApplyPatch(db, p).value, h + [Committed(tx, ProjectionPatch(p))], p.projection)
  {
    hide ApplyAll, SeenAfter, PatchesIn, Replay;
    PatchesAfter(h, Committed(tx, ProjectionPatch(p)), p.projection);
    ReplayAfter(PatchesIn(h, p.projection), p);
  }

  lemma OtherProjects(db: Db, db': Db, h: seq<Committed>, e: Committed, name: Text)
    requires Projected(db, h, name) && !(e.op.ProjectionPatch? && e.op.patch.projection == name)
    requires VersionIn(db'.versions, name) == VersionIn(db.versions, name)
    requires ContentsOf(db'.entries, name) == ContentsOf(db.entries, name)
    ensures Projected(db', h + [e], name)
  {
    hide PatchesIn, Replay, VersionIn, ContentsOf;
    PatchesAfter(h, e, name);
    assert PatchesIn(h, name) + [] == PatchesIn(h, name);
  }

  lemma OperationProjects(db: Db, tx: Id, now: I64, h: seq<Committed>, op: Operation, name: Text)
    requires Projected(db, h, name) && ApplyOperation(db, tx, now, op).Ok?
    ensures Projected(ApplyOperation(db, tx, now, op).value, h + [Committed(tx, op)], name)
  {
    hide JobOp, ApplyAll, ValidPatch, EventIdUsed, Projected;
    if op.ProjectionPatch? && op.patch.projection == name {
      PatchProjects(db, h, tx, op.patch);
    } else {
      OtherProjects(db, ApplyOperation(db, tx, now, op).value, h, Committed(tx, op), name);
    }
  }

  // ----- events -----

  lemma OperationLogs(db: Db, tx: Id, now: I64, h: seq<Committed>, op: Operation)
    requires Logged(db, h) && ApplyOperation(db, tx, now, op).Ok?
    ensures Logged(ApplyOperation(db, tx, now, op).value, h + [Committed(tx, op)])
  {
    hide JobOp, ApplyAll, SeenAfter, EventIdUsed;
    assert (h + [Committed(tx, op)])[..|h|] == h;
  }

  // ----- jobs -----

  lemma EnqueuesAfter(h: seq<Committed>, e: Committed)
    ensures EnqueuesIn(h + [e]) == EnqueuesIn(h) + (if e.op.EnqueueJob? then [e] else [])
  {
    assert (h + [e])[..|h|] == h;
  }

  /** The same jobs, each the same as enqueued. */
  ghost predicate SameJobs(t: JobTables, t': JobTables) {
    t'.jobs.Keys == t.jobs.Keys
    && forall id :: id in t.jobs ==>
         t'.jobs[id].spec == t.jobs[id].spec && t'.jobs[id].sequence == t.jobs[id].sequence && t'.jobs[id].enqueueTx == t.jobs[id].enqueueTx
  }

  lemma StillQueued(db: Db, db': Db, h: seq<Committed>)
    requires Queued(db, h) && SameJobs(db.tables, db'.tables)
    ensures Queued(db', h)
  {
    hide EnqueuesIn, EnqueuesAt;
    var q := EnqueuesIn(h);
    forall n | 0 <= n < |q| ensures EnqueuedAs(db'.tables.jobs, q[n], n + 1) {
      assert EnqueuedAs(db.tables.jobs, q[n], n + 1);
    }
  }

  lemma WriteSameJobs(t: JobTables, t': JobTables, tx: Id)
    requires WritesOneRow(t, t', tx)
    ensures SameJobs(t, t')
  {
    hide Drain;
  }

  lemma ExtendSameJobs(t: JobTables, now: I64, x: LeaseExtension)
    requires Extend(t, now, x).Ok?
    ensures SameJobs(t, Extend(t, now, x).value)
  {
    assert x.jobId in t.jobs;
    hide CheckExtension, ExtendReceipts;
  }

  lemma JobOpSameJobs(t: JobTables, tx: Id, now: I64, op: Operation)
    requires IsJobOp(op) && !op.EnqueueJob? && JobOp(t, tx, now, op).Ok?
    ensures SameJobs(t, JobOp(t, tx, now, op).value)
  {
    hide WritesOneRow, SameJobs, Ack, Fail, Cancel, Resolve, CheckExtension, ExtendReceipts;
    JobOpWrites(t, tx, now, op);
    if op.ExtendLease? {
      ExtendSameJobs(t, now, op.extension);
    } else {
      WriteSameJobs(t, JobOp(t, tx, now, op).value, tx);
    }
  }

  lemma EnqueueQueues(db: Db, tx: Id, h: seq<Committed>, spec: JobSpec)
    requires Queued(db, h) && Enqueue(db.tables, tx, spec).Ok?
    ensures Queued(db.(tables := Enqueue(db.tables, tx, spec).value), h + [Committed(tx, EnqueueJob(spec))])
  {
    hide Enqueue, EnqueuesIn;
    var t, q := db.tables, EnqueuesIn(h);
    var r := Enqueue(t, tx, spec);
    EnqueueGoesThrough(t, tx, spec);
    EnqueuesAfter(h, Committed(tx, EnqueueJob(spec)));
    var n: nat :|
      && (forall x :: x in t.jobs ==> t.jobs[x].sequence < n)
      && (n == 1 || exists x :: x in t.jobs && t.jobs[x].sequence == n - 1)
      && Enqueued(t, r, tx, spec, n);
    assert n == |q| + 1 by {
      if q != [] { assert EnqueuedAs(t.jobs, q[|q| - 1], |q|); }
      if n > 1 { var x :| x in t.jobs && t.jobs[x].sequence == n - 1; }
    }
    NewlyQueued(t, r, tx, spec, n, q);
  }

  lemma NewlyQueued(t: JobTables, r: Result<JobTables, Error>, tx: Id, spec: JobSpec, n: nat, q: seq<Committed>)
    requires Enqueued(t, r, tx, spec, n) && spec.jobId !in t.jobs && n == |q| + 1
    requires forall i :: 0 <= i < |q| ==> EnqueuedAs(t.jobs, q[i], i + 1)
    ensures forall i :: 0 <= i < n ==> EnqueuedAs(r.value.jobs, (q + [Committed(tx, EnqueueJob(spec))])[i], i + 1)
  {
    var all := q + [Committed(tx, EnqueueJob(spec))];
    forall i | 0 <= i < n ensures EnqueuedAs(r.value.jobs, all[i], i + 1) {
      if i < |q| { assert EnqueuedAs(t.jobs, q[i], i + 1); }
    }
  }

  lemma OperationQueues(db: Db, tx: Id, now: I64, h: seq<Committed>, op: Operation)
    requires Queued(db, h) && ApplyOperation(db, tx, now, op).Ok?
    ensures Queued(ApplyOperation(db, tx, now, op).value, h + [Committed(tx, op)])
  {
    hide Queued, SameJobs, Enqueue, Append, ApplyPatch;
    var db' := ApplyOperation(db, tx, now, op).value;
    if op.EnqueueJob? {
      EnqueueQueues(db, tx, h, op.spec);
    } else {
      hide JobOp;
      if IsJobOp(op) { JobOpSameJobs(db.tables, tx, now, op); } else { TablesAside(db, tx, now, op); }
      StillQueued(db, db', h);
      QueueUnmoved(db', h, Committed(tx, op));
    }
  }

  lemma QueueUnmoved(db: Db, h: seq<Committed>, e: Committed)
    requires Queued(db, h) && !e.op.EnqueueJob?
    ensures Queued(db, h + [e])
  {
    hide EnqueuesIn, EnqueuedAs, EnqueuesAt;
    EnqueuesAfter(h, e);
    assert EnqueuesIn(h) + [] == EnqueuesIn(h);
  }

  lemma TablesAside(db: Db, tx: Id, now: I64, op: Operation)
    requires !IsJobOp(op) && ApplyOperation(db, tx, now, op).Ok?
    ensures SameJobs(db.tables, ApplyOperation(db, tx, now, op).value.tables)
  {
    hide EventIdUsed, ValidPatch, ApplyAll;
  }

  lemma ClaimSameJobs(t: JobTables, c: Claim)
    ensures SameJobs(t, ClaimEffect(t, c))
  {
    hide AdvanceCursor, StillLive, NewReceipts, Ascii;
  }

  // ----- whole runs -----

  lemma {:induction false} OperationsFold(db: Db, tx: Id, now: I64, h: seq<Committed>, ops: seq<Operation>, name: Text)
    requires Folds(db, h, name) && ApplyOperations(db, tx, now, ops).Ok?
    ensures Folds(ApplyOperations(db, tx, now, ops).value, h + Tagged(tx, ops), name)
    decreases |ops|
  {
    hide Projected, Logged, Queued, ApplyOperation;
    if ops == [] {
      assert h + Tagged(tx, ops) == h;
    } else {
      OperationProjects(db, tx, now, h, ops[0], name);
      OperationLogs(db, tx, now, h, ops[0]);
      OperationQueues(db, tx, now, h, ops[0]);
      var first := [Committed(tx, ops[0])];
      OperationsFold(ApplyOperation(db, tx, now, ops[0]).value, tx, now, h + first, ops[1..], name);
      assert h + first + Tagged(tx, ops[1..]) == h + Tagged(tx, ops);
    }
  }

  lemma SameColumns(db: Db, db': Db, h: seq<Committed>, name: Text)
    requires Folds(db, h, name) && SameJobs(db.tables, db'.tables)
    requires db'.versions == db.versions && db'.entries == db.entries && db'.events == db.events
    ensures Folds(db', h, name)
  {
    hide Queued, SameJobs;
    StillQueued(db, db', h);
  }

  lemma StepFolds(db: Db, step: Step, h: seq<Committed>, name: Text)
    requires DbInv(db) && Enabled(db, step) && Folds(db, h, name)
    ensures Folds(After(db, step), h + OperationsOf(step), name)
  {
    hide DbInv, Folds, ApplyOperations, SameJobs, Extend, ClaimEffect, Claimable, Validate;
    if step.BatchStep? {
      var s := step.submission;
      OpenedInv(db, s);
      OpenedSame(db, s);
      SameColumns(db, Opened(db, s), h, name);
      OperationsFold(Opened(db, s), s.batch.transactionId, s.batch.committedAt, h, s.batch.operations, name);
    } else {
      assert h + [] == h;
      if step.ClaimStep? {
        ClaimSameJobs(db.tables, step.claim);
      } else {
        ExtendSameJobs(db.tables, step.now, step.extension);
      }
      SameColumns(db, After(db, step), h, name);
    }
  }

  lemma OpenedSame(db: Db, s: Submission)
    requires ExpectAll(db.streams, s.batch.expected).Ok?
    ensures SameJobs(db.tables, Opened(db, s).tables)
  {}

  /** After any run: a projection is the replay of the patches committed to it, its version their number; the event log is the
      events committed; the jobs are those enqueued, as enqueued and numbered in that order. */
  lemma {:induction false} RunFolds(r: Run, k: nat, name: Text)
    requires IsRun(r) && k < |r.states|
    ensures Folds(r.states[k], History(r.steps[..k]), name)
  {
    hide DbInv, Enabled, After, Folds;
    if k == 0 {
      EmptyFolds(name);
    } else {
      var last := k - 1;
      RunFolds(r, last, name);
      RunInv(r, last);
      assert Follows(r, last);
      StepFolds(r.states[last], r.steps[last], History(r.steps[..last]), name);
      assert r.steps[..k][..last] == r.steps[..last];
    }
  }

  lemma EmptyFolds(name: Text)
    ensures Folds(EMPTY_DB, [], name)
  {}

  /** Every job of a run was enqueued by an operation of its history, and is still as enqueued. */
  lemma JobWasEnqueued(r: Run, k: nat, id: Id) returns (e: Committed)
    requires IsRun(r) && k < |r.states| && id in r.states[k].tables.jobs
    ensures e in EnqueuesIn(History(r.steps[..k])) && e.op.EnqueueJob? && e.op.spec.jobId == id
    ensures r.states[k].tables.jobs[id].spec == e.op.spec && r.states[k].tables.jobs[id].enqueueTx == e.tx
  {
    assert |r.states| == |r.steps| + 1;
    hide IsRun, EnqueuesIn, History, Projected, Logged;
    RunFolds(r, k, []);
    var q, n := EnqueuesIn(History(r.steps[..k])), r.states[k].tables.jobs[id].sequence;
    e := q[n - 1];
    assert EnqueuedAs(r.states[k].tables.jobs, q[n - 1], n - 1 + 1);
  }
}
