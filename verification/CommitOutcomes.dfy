/** When a batch is accepted: what validation asks of it, when each of its operations goes through, when the whole does, and
    what submitting it answers (src/store/commit.rs). Stated without the functions that specify the pipeline. */
module CommitOutcomes {
  import opened Types
  import opened Messages
  import opened Projections
  import opened Jobs
  import opened JobInvariant
  import opened JobOutcomes
  import opened Claims
  import opened Kernel
  import opened Recovery
  import opened Runs
  import opened ReadModels

  // ----- validation -----

  predicate EntrySized(l: Limits, key: Bytes, value: Bytes) { |key| <= l.projectionKey && |value| <= l.projectionValue }

  predicate MutationSized(l: Limits, m: Mutation) {
    && (m.Put? ==> EntrySized(l, m.key, m.value))
    && (m.Delete? ==> |m.key| <= l.projectionKey)
    && (m.Replace? ==> |m.entries| <= l.replaceEntries && forall i :: 0 <= i < |m.entries| ==>
                         EntrySized(l, m.entries[i].key, m.entries[i].value))
  }

  /** The identifiers that must not be zero: the event's, the new job's, or the token presented. */
  predicate Named(op: Operation) {
    && (op.AppendEvent? ==> op.event.eventId != 0)
    && (op.EnqueueJob? ==> op.spec.jobId != 0)
    && (op.AckJob? ==> op.ack.leaseToken != 0)
    && (op.FailJob? ==> op.failure.leaseToken != 0)
    && (op.CancelJob? ==> op.cancellation.leaseToken != Some(0))
    && (op.ExtendLease? ==> op.extension.leaseToken != 0)
  }

  /** No part is larger than the limits allow. */
  predicate Sized(l: Limits, op: Operation) {
    && (op.AppendEvent? ==>
          |op.event.streamId| <= l.stringLength && |op.event.eventType| <= l.stringLength
          && |op.event.payload| <= l.eventPayload && |op.event.metadata| <= l.metadata)
    && (op.ProjectionPatch? ==>
          |op.patch.projection| <= l.stringLength
          && forall i :: 0 <= i < |op.patch.mutations| ==> MutationSized(l, op.patch.mutations[i]))
    && (op.EnqueueJob? ==>
          |op.spec.queue| <= l.stringLength && |op.spec.partitionKey| <= l.stringLength && |op.spec.payload| <= l.jobPayload
          && (op.spec.idempotencyKey.Some? ==> |op.spec.idempotencyKey.value| <= l.stringLength))
    && (op.FailJob? ==> |op.failure.errorSummary| <= l.summaryLength)
  }

  /** The patch raises the version by one and contradicts itself nowhere. */
  ghost predicate Consistent(p: Patch) {
    p.newVersion == p.expectedVersion + 1 && forall j: nat :: j < |p.mutations| ==> !Contradictory(p.mutations, j)
  }

  ghost predicate Sound(l: Limits, op: Operation) {
    && Named(op) && Sized(l, op)
    && (op.ProjectionPatch? ==> Consistent(op.patch))
    && (op.EnqueueJob? ==> op.spec.maxAttempts >= 1)
  }

  lemma PatchAccepted(p: Patch)
    ensures ValidPatch(p) <==> Consistent(p)
  {
    hide SeenAfter, Contradictory;
    SeenMeans(p.mutations);
  }

  lemma MutationFits(l: Limits, m: Mutation)
    ensures MutationWithin(l, m) <==> MutationSized(l, m)
  {
    if m.Replace? {
      assert forall i :: 0 <= i < |m.entries| ==> m.entries[i] in m.entries;
    }
  }

  /** The first fault that validation comes to in an operation that is not sound. */
  ghost function Fault(l: Limits, op: Operation): Error {
    if !Named(op) then Validation(ZeroId)
    else if op.EnqueueJob? && op.spec.maxAttempts == 0 then Validation(NoAttempts)
    else if op.ProjectionPatch? && |op.patch.projection| <= l.stringLength && !Consistent(op.patch) then Validation(BadPatch)
    else Validation(TooLarge)
  }

  /** An operation passes validation exactly when it is sound, and is refused for its first fault otherwise. */
  lemma OperationValidated(l: Limits, op: Operation)
    ensures ValidateOperation(l, op) == if Sound(l, op) then Ok(()) else Err(Fault(l, op))
  {
    hide ValidPatch, Consistent, MutationWithin, MutationSized;
    if op.ProjectionPatch? {
      PatchAccepted(op.patch);
      forall i | 0 <= i < |op.patch.mutations| ensures op.patch.mutations[i] in op.patch.mutations {}
      forall m { MutationFits(l, m); }
    }
  }

  /** The error is the fault of the first operation that is not sound. */
  ghost predicate FirstUnsound(l: Limits, ops: seq<Operation>, n: nat, error: Error) {
    n < |ops| && (forall m :: 0 <= m < n ==> Sound(l, ops[m])) && !Sound(l, ops[n]) && error == Fault(l, ops[n])
  }

  lemma {:induction false} OperationsValidated(l: Limits, ops: seq<Operation>) returns (at: nat)
    ensures ValidateOperations(l, ops).Ok? <==> forall n :: 0 <= n < |ops| ==> Sound(l, ops[n])
    ensures ValidateOperations(l, ops).Err? ==> FirstUnsound(l, ops, at, ValidateOperations(l, ops).error)
  {
    hide ValidateOperation, Sound, Fault;
    at := 0;
    if ops != [] {
      OperationValidated(l, ops[0]);
      var n := OperationsValidated(l, ops[1..]);
      assert forall n :: 0 < n < |ops| ==> ops[n] == ops[1..][n - 1];
      if Sound(l, ops[0]) { at := n + 1; }
    }
  }

  /** A batch passes validation exactly when it is named, within the limits, and every operation is sound. Otherwise the error is
      the first of these that fails. */
  lemma BatchValidated(l: Limits, b: CommitBatch) returns (at: nat)
    ensures Validate(l, b).Ok? <==>
            && b.transactionId != 0 && |b.operations| <= l.operationsPerCommit && |b.metadata| <= l.metadata
            && (forall n :: 0 <= n < |b.expected| ==> |b.expected[n].streamId| <= l.stringLength)
            && (forall n :: 0 <= n < |b.operations| ==> Sound(l, b.operations[n]))
    ensures Validate(l, b).Err? ==>
              var error := Validate(l, b).error;
              if b.transactionId == 0 then error == Validation(ZeroId)
              else if |b.operations| > l.operationsPerCommit || |b.metadata| > l.metadata
                      || exists n :: 0 <= n < |b.expected| && |b.expected[n].streamId| > l.stringLength then
                error == Validation(TooLarge)
              else FirstUnsound(l, b.operations, at, error)
  {
    hide ValidateOperations, Sound, FirstUnsound;
    at := OperationsValidated(l, b.operations);
    forall n | 0 <= n < |b.expected| ensures b.expected[n] in b.expected {}
  }

  // ----- one operation -----

  /** A stored version, 0 when there is none. */
  predicate AtVersion(versions: map<Text, nat>, name: Text, v: nat) {
    if name in versions then versions[name] == v else v == 0
  }

  /** A patch is applied exactly when it is consistent and expects the version the projection is at. The projection is then at
      its new version, under its name alone. */
  lemma PatchGoesThrough(db: Db, p: Patch)
    ensures ApplyPatch(db, p).Ok? <==> Consistent(p) && AtVersion(db.versions, p.projection, p.expectedVersion)
    ensures ApplyPatch(db, p).Err? ==>
              if !Consistent(p) then ApplyPatch(db, p).error == Validation(BadPatch)
              else exists actual :: AtVersion(db.versions, p.projection, actual)
                     && ApplyPatch(db, p).error == Conflicting(ProjectionVersion(p.projection, p.expectedVersion, actual))
    ensures ApplyPatch(db, p).Ok? ==>
              var before := if p.projection in db.entries then db.entries[p.projection] else map[];
              ApplyPatch(db, p).value ==
              db.(versions := db.versions[p.projection := p.newVersion],
                  entries := db.entries[p.projection := ApplyAll(p.mutations, before)])
  {
    hide ValidPatch, Consistent, ApplyAll;
    PatchAccepted(p);
    assert AtVersion(db.versions, p.projection, VersionIn(db.versions, p.projection));
  }

  /** An event is appended exactly when its id is new and its stream can be numbered further; it gets the next number. */
  lemma AppendGoesThrough(db: Db, tx: Id, e: Event)
    ensures forall v: nat :: AtVersion(db.streams, e.streamId, v) ==>
              && (Append(db, tx, e).Ok? <==> v < 0xFFFF_FFFF_FFFF_FFFF && NewEvent(db, e))
              && (Append(db, tx, e).Err? ==>
                    Append(db, tx, e).error ==
                    if v < 0xFFFF_FFFF_FFFF_FFFF then EventIdTaken(e.eventId) else Validation(VersionOverflow))
              && (Append(db, tx, e).Ok? ==>
                    Append(db, tx, e).value ==
                    db.(events := db.events + [EventRow(tx, v + 1, e)], streams := db.streams[e.streamId := v + 1]))
  {}

  ghost predicate NewEvent(db: Db, e: Event) {
    forall i :: 0 <= i < |db.events| ==> db.events[i].event.eventId != e.eventId
  }

  /** What each operation asks of the database it meets. */
  ghost predicate MayApply(db: Db, now: I64, op: Operation) {
    var jobs := db.tables.jobs;
    match op
    case AppendEvent(e) => NewEvent(db, e) && !AtVersion(db.streams, e.streamId, 0xFFFF_FFFF_FFFF_FFFF)
    case ProjectionPatch(p) => Consistent(p) && AtVersion(db.versions, p.projection, p.expectedVersion)
    case EnqueueJob(spec) => spec.jobId !in jobs
    case AckJob(ack) => Holds(db.tables, ack.jobId, ack.leaseToken)
    case FailJob(f) =>
      Holds(db.tables, f.jobId, f.leaseToken)
      && (jobs[f.jobId].attempt == jobs[f.jobId].spec.maxAttempts || f.retryAfter.Some? || now + 30_000 < TWO_TO_63)
    case CancelJob(c) =>
      c.jobId in jobs && (if c.leaseToken.None? then jobs[c.jobId].state.Pending? else Holds(db.tables, c.jobId, c.leaseToken.value))
    case ResolveJob(r) => r.jobId in jobs && jobs[r.jobId].state in {Leased, Uncertain}
    case ExtendLease(x) =>
      Holds(db.tables, x.jobId, x.leaseToken) && jobs[x.jobId].leaseExpires.Some?
      && now <= jobs[x.jobId].leaseExpires.value < x.newExpiry
  }

  /** Streams stay below the largest version. */
  ghost predicate Numbered(db: Db) { forall s :: s in db.streams ==> db.streams[s] <= 0xFFFF_FFFF_FFFF_FFFF }

  lemma JobGoesThrough(db: Db, tx: Id, now: I64, op: Operation)
    requires JobsInv(db.tables) && IsJobOp(op)
    ensures JobOp(db.tables, tx, now, op).Ok? <==> MayApply(db, now, op)
  {
    hide JobsInv, Enqueue, Ack, Fail, Cancel, Resolve, Extend, RowBecomes;
    match op
    case EnqueueJob(spec) => EnqueueGoesThrough(db.tables, tx, spec);
    case AckJob(ack) => AckGoesThrough(db.tables, tx, now, ack);
    case FailJob(f) => FailGoesThrough(db.tables, tx, now, f);
    case CancelJob(c) => CancelGoesThrough(db.tables, tx, now, c);
    case ResolveJob(r) => ResolveGoesThrough(db.tables, tx, now, r);
    case ExtendLease(x) => ExtendGoesThrough(db.tables, now, x);
  }

  lemma OperationGoesThrough(db: Db, tx: Id, now: I64, op: Operation)
    requires JobsInv(db.tables) && Numbered(db)
    ensures ApplyOperation(db, tx, now, op).Ok? <==> MayApply(db, now, op)
  {
    hide JobsInv, JobOp, Append, ApplyPatch, Consistent, Holds;
    if op.AppendEvent? {
      hide NewEvent;
      var v := VersionIn(db.streams, op.event.streamId);
      assert AtVersion(db.streams, op.event.streamId, v);
      AppendGoesThrough(db, tx, op.event);
    } else if op.ProjectionPatch? {
      PatchGoesThrough(db, op.patch);
    } else {
      JobGoesThrough(db, tx, now, op);
    }
  }

  // ----- a whole batch -----

  /** Each operation, met after the ones before it went through, may apply. */
  ghost predicate EachMayApply(db: Db, tx: Id, now: I64, ops: seq<Operation>) {
    forall n: nat :: n < |ops| && ApplyOperations(db, tx, now, ops[..n]).Ok? ==> MayApplyAt(db, tx, now, ops, n)
  }

  ghost predicate MayApplyAt(db: Db, tx: Id, now: I64, ops: seq<Operation>, n: nat)
    requires n < |ops| && ApplyOperations(db, tx, now, ops[..n]).Ok?
  {
    MayApply(ApplyOperations(db, tx, now, ops[..n]).value, now, ops[n])
  }

  lemma {:induction false} PrefixApplies(db: Db, tx: Id, now: I64, ops: seq<Operation>, n: nat)
    requires n <= |ops|
    ensures ApplyOperations(db, tx, now, ops) ==
            match ApplyOperations(db, tx, now, ops[..n])
            case Err(e) => Err(e)
            case Ok(next) => ApplyOperations(next, tx, now, ops[n..])
    decreases n
  {
    hide ApplyOperation;
    if n == 0 {
      assert ops[..0] == [] && ops[0..] == ops;
    } else {
      assert ops[..n][0] == ops[0] && ops[..n][1..] == ops[1..][..n - 1] && ops[1..][n - 1..] == ops[n..];
      if ApplyOperation(db, tx, now, ops[0]).Ok? {
        PrefixApplies(ApplyOperation(db, tx, now, ops[0]).value, tx, now, ops[1..], n - 1);
      }
    }
  }

  lemma NextApplies(db: Db, tx: Id, now: I64, ops: seq<Operation>, n: nat, next: nat)
    requires n < |ops| && next == n + 1 && ApplyOperations(db, tx, now, ops[..n]).Ok?
    ensures ApplyOperations(db, tx, now, ops[..next]) ==
            ApplyOperation(ApplyOperations(db, tx, now, ops[..n]).value, tx, now, ops[n])
  {
    hide ApplyOperation;
    var front := ops[..next];
    PrefixApplies(db, tx, now, front, n);
    assert front[..n] == ops[..n] && front[n..] == [ops[n]] && [ops[n]][1..] == [];
  }

  /** What the invariants need to hold along the way. */
  ghost predicate Ready(db: Db, tx: Id) { DbInv(db) && Numbered(db) && tx in db.transactions }

  lemma ReadyAfter(db: Db, tx: Id, now: I64, op: Operation)
    requires Ready(db, tx) && EnqueueAdmissible(op) && ApplyOperation(db, tx, now, op).Ok?
    ensures Ready(ApplyOperation(db, tx, now, op).value, tx)
  {
    hide DbInv, JobOp, ValidPatch, ApplyAll, EventIdUsed;
    OperationKeepsInv(db, tx, now, op);
  }

  lemma {:induction false} ReadyThroughout(db: Db, tx: Id, now: I64, ops: seq<Operation>)
    requires Ready(db, tx) && Admissible(ops) && ApplyOperations(db, tx, now, ops).Ok?
    ensures Ready(ApplyOperations(db, tx, now, ops).value, tx)
    decreases |ops|
  {
    hide Ready, ApplyOperation, EnqueueAdmissible;
    if ops != [] {
      ReadyAfter(db, tx, now, ops[0]);
      ReadyThroughout(ApplyOperation(db, tx, now, ops[0]).value, tx, now, ops[1..]);
    }
  }

  lemma {:induction false} AdmissiblePrefix(ops: seq<Operation>, n: nat)
    requires Admissible(ops) && n <= |ops|
    ensures Admissible(ops[..n])
  {
    hide EnqueueAdmissible;
    if n > 0 {
      AdmissiblePrefix(ops[1..], n - 1);
      assert ops[..n][1..] == ops[1..][..n - 1];
    }
  }

  lemma {:induction false} AdmissibleAt(ops: seq<Operation>, n: nat)
    requires Admissible(ops) && n < |ops|
    ensures EnqueueAdmissible(ops[n])
  {
    hide EnqueueAdmissible;
    if n > 0 { AdmissibleAt(ops[1..], n - 1); }
  }

  /** The operation at n is met by the database the ones before it leave, and goes through exactly if it may apply. */
  lemma StepGoesThrough(db: Db, tx: Id, now: I64, ops: seq<Operation>, n: nat, next: nat)
    requires Ready(db, tx) && Admissible(ops) && n < |ops| && next == n + 1 && ApplyOperations(db, tx, now, ops[..n]).Ok?
    ensures ApplyOperations(db, tx, now, ops[..next]).Ok? <==> MayApplyAt(db, tx, now, ops, n)
  {
    hide DbInv, JobsInv, ApplyOperation, ApplyOperations, MayApply, EnqueueAdmissible, Admissible;
    AdmissiblePrefix(ops, n);
    ReadyThroughout(db, tx, now, ops[..n]);
    NextApplies(db, tx, now, ops, n, next);
    var met := ApplyOperations(db, tx, now, ops[..n]).value;
    TablesInv(met);
    OperationGoesThrough(met, tx, now, ops[n]);
  }

  lemma {:induction false} PrefixesGoThrough(db: Db, tx: Id, now: I64, ops: seq<Operation>, n: nat)
    requires Ready(db, tx) && Admissible(ops) && n <= |ops| && EachMayApply(db, tx, now, ops)
    ensures ApplyOperations(db, tx, now, ops[..n]).Ok?
  {
    hide Ready, Admissible, MayApplyAt;
    if n == 0 {
      assert ops[..0] == [];
    } else {
      var m := n - 1;
      PrefixesGoThrough(db, tx, now, ops, m);
      hide ApplyOperations;
      StepGoesThrough(db, tx, now, ops, m, n);
    }
  }

  /** A sequence of operations goes through exactly when each of them, met after those before it, may apply. */
  lemma OperationsGoThrough(db: Db, tx: Id, now: I64, ops: seq<Operation>)
    requires Ready(db, tx) && Admissible(ops)
    ensures ApplyOperations(db, tx, now, ops).Ok? <==> EachMayApply(db, tx, now, ops)
  {
    hide Ready, Admissible, MayApplyAt, ApplyOperations;
    assert ops[..|ops|] == ops;
    if EachMayApply(db, tx, now, ops) { PrefixesGoThrough(db, tx, now, ops, |ops|); }
    if ApplyOperations(db, tx, now, ops).Ok? {
      forall n: nat | n < |ops| && ApplyOperations(db, tx, now, ops[..n]).Ok? ensures MayApplyAt(db, tx, now, ops, n) {
        var next := n + 1;
        PrefixApplies(db, tx, now, ops, next);
        StepGoesThrough(db, tx, now, ops, n, next);
      }
    }
  }

  /** A validated batch under a new id is committed exactly when every expectation is the version of its stream and every
      operation, met after those before it, may apply. */
  lemma BatchGoesThrough(db: Db, s: Submission)
    requires DbInv(db) && Numbered(db) && Validate(s.limits, s.batch).Ok? && s.batch.transactionId !in db.transactions
    ensures Enabled(db, BatchStep(s)) <==>
            && (forall n :: 0 <= n < |s.batch.expected| ==> AtVersion(db.streams, s.batch.expected[n].streamId, s.batch.expected[n].version))
            && (ExpectAll(db.streams, s.batch.expected).Ok? ==>
                  EachMayApply(Opened(db, s), s.batch.transactionId, s.batch.committedAt, s.batch.operations))
  {
    hide DbInv, Numbered, Validate, ApplyOperations, EachMayApply, ExpectAll, NextTxSequence, Admissible;
    var _ := ExpectationsChecked(db.streams, s.batch.expected);
    assert forall n :: 0 <= n < |s.batch.expected| ==> s.batch.expected[n] in s.batch.expected;
    if ExpectAll(db.streams, s.batch.expected).Ok? {
      OpenedInv(db, s);
      OpenedReady(db, s);
      OperationsGoThrough(Opened(db, s), s.batch.transactionId, s.batch.committedAt, s.batch.operations);
    }
  }

  /** The operation at n is the first that may not apply, and this is its error. */
  ghost predicate FirstRefused(db: Db, tx: Id, now: I64, ops: seq<Operation>, n: nat, error: Error) {
    && n < |ops| && ApplyOperations(db, tx, now, ops[..n]).Ok? && !MayApplyAt(db, tx, now, ops, n)
    && ApplyOperation(ApplyOperations(db, tx, now, ops[..n]).value, tx, now, ops[n]) == Err(error)
  }

  lemma {:induction false} RefusedAt(db: Db, tx: Id, now: I64, ops: seq<Operation>, n: nat) returns (at: nat)
    requires Ready(db, tx) && Admissible(ops) && n <= |ops|
    requires ApplyOperations(db, tx, now, ops[..n]).Err?
    ensures FirstRefused(db, tx, now, ops, at, ApplyOperations(db, tx, now, ops[..n]).error)
  {
    NoneRefused(db, tx, now, ops);
    assert n > 0;
    hide Ready, Admissible, ApplyOperation, ApplyOperations, MayApplyAt;
    var m := n - 1;
    if ApplyOperations(db, tx, now, ops[..m]).Ok? {
      at := m;
      NextApplies(db, tx, now, ops, m, n);
      StepGoesThrough(db, tx, now, ops, m, n);
    } else {
      at := RefusedAt(db, tx, now, ops, m);
      StaysRefused(db, tx, now, ops, m, n);
    }
  }

  lemma NoneRefused(db: Db, tx: Id, now: I64, ops: seq<Operation>)
    ensures ApplyOperations(db, tx, now, ops[..0]).Ok?
  {}

  lemma StaysRefused(db: Db, tx: Id, now: I64, ops: seq<Operation>, m: nat, n: nat)
    requires m <= n <= |ops| && ApplyOperations(db, tx, now, ops[..m]).Err?
    ensures ApplyOperations(db, tx, now, ops[..n]) == ApplyOperations(db, tx, now, ops[..m])
  {
    hide ApplyOperation;
    PrefixApplies(db, tx, now, ops[..n], m);
    assert ops[..n][..m] == ops[..m];
  }

  /** A validated batch under a new id that is not committed is refused for the first expectation that is not the version of its
      stream or, if there is none, with the error of the first operation that may not apply. */
  lemma BatchRefused(db: Db, s: Submission) returns (at: nat)
    requires DbInv(db) && Numbered(db) && Validate(s.limits, s.batch).Ok? && s.batch.transactionId !in db.transactions
    requires !Enabled(db, BatchStep(s))
    ensures Submit(db, s).Err?
    ensures var b, error := s.batch, Submit(db, s).error;
            if exists n :: 0 <= n < |b.expected| && !AtVersion(db.streams, b.expected[n].streamId, b.expected[n].version) then
              FirstMismatch(db.streams, b.expected, at, error)
            else
              ExpectAll(db.streams, b.expected).Ok? && FirstRefused(Opened(db, s), b.transactionId, b.committedAt, b.operations, at, error)
  {
    hide DbInv, Numbered, Validate, ApplyOperations, ExpectAll, NextTxSequence, Admissible, FirstRefused, FirstMismatch;
    var b := s.batch;
    at := ExpectationsChecked(db.streams, b.expected);
    assert forall n :: 0 <= n < |b.expected| ==> b.expected[n] in b.expected;
    if ExpectAll(db.streams, b.expected).Ok? {
      OpenedInv(db, s);
      OpenedReady(db, s);
      assert b.operations[..|b.operations|] == b.operations;
      at := RefusedAt(Opened(db, s), b.transactionId, b.committedAt, b.operations, |b.operations|);
    }
  }

  lemma OpenedReady(db: Db, s: Submission)
    requires Numbered(db) && ExpectAll(db.streams, s.batch.expected).Ok? && DbInv(Opened(db, s))
    ensures Ready(Opened(db, s), s.batch.transactionId)
  {
    hide DbInv, ExpectAll, NextTxSequence;
    ExpectKeepsVersions(db.streams, s.batch.expected);
    var streams := ExpectAll(db.streams, s.batch.expected).value;
    forall x | x in streams ensures streams[x] <= 0xFFFF_FFFF_FFFF_FFFF {
      assert VersionIn(streams, x) == VersionIn(db.streams, x);
    }
  }

  // ----- over a run -----

  lemma {:induction false} OperationsNumbered(db: Db, tx: Id, now: I64, ops: seq<Operation>)
    requires Numbered(db) && ApplyOperations(db, tx, now, ops).Ok?
    ensures Numbered(ApplyOperations(db, tx, now, ops).value)
    decreases |ops|
  {
    hide JobOp, ValidPatch, ApplyAll, EventIdUsed;
    if ops != [] { OperationsNumbered(ApplyOperation(db, tx, now, ops[0]).value, tx, now, ops[1..]); }
  }

  lemma StepNumbered(db: Db, step: Step)
    requires DbInv(db) && Enabled(db, step) && Numbered(db)
    ensures Numbered(After(db, step))
  {
    hide DbInv, ApplyOperations, Extend, ClaimEffect, Claimable, Validate, ExpectAll, NextTxSequence;
    if step.BatchStep? {
      var s := step.submission;
      OpenedInv(db, s);
      OpenedReady(db, s);
      OperationsNumbered(Opened(db, s), s.batch.transactionId, s.batch.committedAt, s.batch.operations);
    }
  }

  lemma {:induction false} RunNumbered(r: Run, k: nat)
    requires IsRun(r) && k < |r.states|
    ensures Numbered(r.states[k])
  {
    hide DbInv, Enabled, After;
    if k > 0 {
      var last := k - 1;
      RunNumbered(r, last);
      RunInv(r, last);
      assert Follows(r, last);
      hide Numbered;
      StepNumbered(r.states[last], r.steps[last]);
    }
  }

  /** In any run, a consistent patch goes through exactly when it expects the number of patches committed to its projection so
      far; the first one expects 0. */
  lemma PatchInRun(r: Run, k: nat, p: Patch)
    requires IsRun(r) && k < |r.states|
    ensures ApplyPatch(r.states[k], p).Ok? <==>
            Consistent(p) && p.expectedVersion == |PatchesIn(History(r.steps[..k]), p.projection)|
  {
    hide IsRun, Consistent, ApplyPatch, History, Logged, Queued, Replay;
    RunFolds(r, k, p.projection);
    PatchGoesThrough(r.states[k], p);
  }

  /** The same inside a batch, counting the patches of the operations before it. */
  lemma PatchInBatch(r: Run, k: nat, s: Submission, n: nat)
    requires IsRun(r) && k < |r.states| && ExpectAll(r.states[k].streams, s.batch.expected).Ok?
    requires n < |s.batch.operations| && s.batch.operations[n].ProjectionPatch?
    requires ApplyOperations(Opened(r.states[k], s), s.batch.transactionId, s.batch.committedAt, s.batch.operations[..n]).Ok?
    ensures var p, h := s.batch.operations[n].patch, History(r.steps[..k]);
            MayApplyAt(Opened(r.states[k], s), s.batch.transactionId, s.batch.committedAt, s.batch.operations, n) <==>
            Consistent(p) && p.expectedVersion == |PatchesIn(h + Tagged(s.batch.transactionId, s.batch.operations[..n]), p.projection)|
  {
    assert |r.states| == |r.steps| + 1;
    hide IsRun, Consistent, ApplyOperations, ExpectAll, NextTxSequence, History, Logged, Queued, Replay;
    var db, b, h, name := r.states[k], s.batch, History(r.steps[..k]), s.batch.operations[n].patch.projection;
    RunFolds(r, k, name);
    OpenedSame(db, s);
    hide Folds;
    SameColumns(db, Opened(db, s), h, name);
    OperationsFold(Opened(db, s), b.transactionId, b.committedAt, h, b.operations[..n], name);
    VersionCounts(ApplyOperations(Opened(db, s), b.transactionId, b.committedAt, b.operations[..n]).value,
                  h + Tagged(b.transactionId, b.operations[..n]), name);
  }

  lemma VersionCounts(db: Db, h: seq<Committed>, name: Text)
    requires Folds(db, h, name)
    ensures forall v :: AtVersion(db.versions, name, v) <==> v == |PatchesIn(h, name)|
  {
    hide PatchesIn, Logged, Queued, Replay;
  }

  /** What submitting a batch answers: refused if it fails validation; its first receipt again if it is on record under the same
      digest, refused under another; otherwise the receipt numbered one past every transaction before it. */
  lemma SubmitAnswers(db: Db, s: Submission)
    requires DbInv(db)
    ensures var id, known := s.batch.transactionId, s.batch.transactionId in db.transactions;
            if Validate(s.limits, s.batch).Err? then Submit(db, s) == Err(Validate(s.limits, s.batch).error)
            else if known then
              Submit(db, s) == (if db.transactions[id].digest != s.digest then Err(DuplicateIdWithDifferentContent)
                                else Ok((db, CommitReceipt(id, db.transactions[id].sequence, db.transactions[id].committedAt))))
            else
              && (Submit(db, s).Ok? <==> Enabled(db, BatchStep(s)))
              && (Submit(db, s).Ok? ==>
                    && Submit(db, s).value.0 == After(db, BatchStep(s))
                    && var receipt := Submit(db, s).value.1;
                       && receipt.transactionId == id && receipt.committedAt == s.batch.committedAt
                       && (forall x :: x in db.transactions ==> db.transactions[x].sequence < receipt.sequence)
                       && (receipt.sequence == 1 || exists x :: x in db.transactions && db.transactions[x].sequence == receipt.sequence - 1))
  {
    hide DbInv, CommitEffect, Validate;
    forall x | x in db.transactions ensures db.transactions[x].sequence < NextTxSequence(db.transactions) {
      TxSequenceIsNew(db.transactions, x);
    }
  }
}
