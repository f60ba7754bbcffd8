/** The whole database, what one commit batch does to it, and the steps by which it changes
    (src/store/commit.rs, src/store/events.rs, src/store/projections.rs). */
module Kernel {
  import opened Types
  import opened Messages
  import opened Projections
  import opened Jobs
  import opened JobInvariant
  import opened Claims
  import opened JobHistory

  datatype TxRow = TxRow(sequence: nat, committedAt: I64, digest: Bytes, operationCount: nat)

  /** A row of the events table; its global sequence is its position plus one. */
  datatype EventRow = EventRow(tx: Id, version: nat, event: Event)

  datatype Db = Db(
    transactions: map<Id, TxRow>,
    events: seq<EventRow>, streams: map<Text, nat>,
    versions: map<Text, nat>, entries: map<Text, Contents>,
    tables: JobTables)

  const EMPTY_DB: Db := Db(map[], [], map[], map[], map[], JobTables(map[], map[], map[], map[]))

  /** The size limits a store is configured with, in bytes, operations or entries. */
  datatype Limits = Limits(
    eventPayload: nat, metadata: nat, projectionKey: nat, projectionValue: nat, jobPayload: nat,
    operationsPerCommit: nat, stringLength: nat, summaryLength: nat, replaceEntries: nat)

  const DEFAULT_LIMITS: Limits := Limits(0x10_0000, 0x1_0000, 0x10_0000, 0x40_0000, 0x10_0000, 1024, 4096, 4096, 10_000)

  /** A batch together with the digest of its encoding and the limits of the store it is submitted to. */
  datatype Submission = Submission(batch: CommitBatch, digest: Bytes, limits: Limits)

  datatype CommitReceipt = CommitReceipt(transactionId: Id, sequence: nat, committedAt: I64)

  // ----- validation before anything is read -----

  function CheckSize(size: nat, limit: nat): Result<(), Error> {
    if size > limit then Err(Validation(TooLarge)) else Ok(())
  }

  predicate EntryWithin(l: Limits, e: Entry) { |e.key| <= l.projectionKey && |e.value| <= l.projectionValue }

  predicate MutationWithin(l: Limits, m: Mutation) {
    match m
    case Put(key, value) => EntryWithin(l, Entry(key, value))
    case Delete(key) => |key| <= l.projectionKey
    case Clear => true
    case Replace(entries) => |entries| <= l.replaceEntries && forall e :: e in entries ==> EntryWithin(l, e)
  }

  function ValidateOperation(l: Limits, op: Operation): Result<(), Error> {
    match op
    case AppendEvent(e) =>
      if e.eventId == ZERO_ID then Err(Validation(ZeroId))
      else
        var _ :- CheckSize(|e.streamId|, l.stringLength);
        var _ :- CheckSize(|e.eventType|, l.stringLength);
        var _ :- CheckSize(|e.payload|, l.eventPayload);
        CheckSize(|e.metadata|, l.metadata)
    case ProjectionPatch(p) =>
      var _ :- CheckSize(|p.projection|, l.stringLength);
      if !ValidPatch(p) then Err(Validation(BadPatch))
      else if forall m :: m in p.mutations ==> MutationWithin(l, m) then Ok(())
      else Err(Validation(TooLarge))
    case EnqueueJob(j) =>
      if j.jobId == ZERO_ID then Err(Validation(ZeroId))
      else if j.maxAttempts == 0 then Err(Validation(NoAttempts))
      else
        var _ :- CheckSize(|j.queue|, l.stringLength);
        var _ :- CheckSize(|j.partitionKey|, l.stringLength);
        var _ :- CheckSize(|j.payload|, l.jobPayload);
        if j.idempotencyKey.Some? then CheckSize(|j.idempotencyKey.value|, l.stringLength) else Ok(())
    case AckJob(a) => if a.leaseToken == ZERO_ID then Err(Validation(ZeroId)) else Ok(())
    case FailJob(f) =>
      if f.leaseToken == ZERO_ID then Err(Validation(ZeroId)) else CheckSize(|f.errorSummary|, l.summaryLength)
    case CancelJob(c) => if c.leaseToken == Some(ZERO_ID) then Err(Validation(ZeroId)) else Ok(())
    case ResolveJob(_) => Ok(())
    case ExtendLease(x) => if x.leaseToken == ZERO_ID then Err(Validation(ZeroId)) else Ok(())
  }

  function ValidateOperations(l: Limits, ops: seq<Operation>): Result<(), Error> {
    if ops == [] then Ok(())
    else
      var _ :- ValidateOperation(l, ops[0]);
      ValidateOperations(l, ops[1..])
  }

  function Validate(l: Limits, batch: CommitBatch): Result<(), Error> {
    if batch.transactionId == ZERO_ID then Err(Validation(ZeroId))
    else
      var _ :- CheckSize(|batch.operations|, l.operationsPerCommit);
      var _ :- CheckSize(|batch.metadata|, l.metadata);
      if exists e :: e in batch.expected && |e.streamId| > l.stringLength then Err(Validation(TooLarge))
      else ValidateOperations(l, batch.operations)
  }

  /** What the job tables need of a batch's operations. */
  predicate Admissible(ops: seq<Operation>) {
    ops == [] || (EnqueueAdmissible(ops[0]) && Admissible(ops[1..]))
  }

  lemma {:induction false} ValidatedAdmissible(l: Limits, ops: seq<Operation>)
    requires ValidateOperations(l, ops).Ok?
    ensures Admissible(ops)
  {
    if ops != [] { ValidatedAdmissible(l, ops[1..]); }
  }

  // ----- the effect of a batch -----

  function VersionIn(m: map<Text, nat>, name: Text): nat { if name in m then m[name] else 0 }

  predicate EventIdUsed(events: seq<EventRow>, id: Id) {
    exists i :: 0 <= i < |events| && events[i].event.eventId == id
  }

  function Append(db: Db, tx: Id, e: Event): Result<Db, Error> {
    var next := VersionIn(db.streams, e.streamId) + 1;
    if next >= TWO_TO_64 then Err(Validation(VersionOverflow))
    else if EventIdUsed(db.events, e.eventId) then Err(EventIdTaken(e.eventId))
    else Ok(db.(events := db.events + [EventRow(tx, next, e)], streams := db.streams[e.streamId := next]))
  }

  function ContentsOf(entries: map<Text, Contents>, name: Text): Contents {
    if name in entries then entries[name] else map[]
  }

  function ApplyPatch(db: Db, p: Patch): Result<Db, Error> {
    var actual := VersionIn(db.versions, p.projection);
    if !ValidPatch(p) then Err(Validation(BadPatch))
    else if actual != p.expectedVersion then Err(Conflicting(ProjectionVersion(p.projection, p.expectedVersion, actual)))
    else Ok(db.(versions := db.versions[p.projection := p.newVersion],
                entries := db.entries[p.projection := ApplyAll(p.mutations, ContentsOf(db.entries, p.projection))]))
  }

  function ApplyOperation(db: Db, tx: Id, now: I64, op: Operation): Result<Db, Error> {
    match op
    case AppendEvent(e) => Append(db, tx, e)
    case ProjectionPatch(p) => ApplyPatch(db, p)
    case _ =>
      var t :- JobOp(db.tables, tx, now, op);
      Ok(db.(tables := t))
  }

  function ApplyOperations(db: Db, tx: Id, now: I64, ops: seq<Operation>): Result<Db, Error>
    decreases |ops|
  {
    if ops == [] then Ok(db)
    else
      var next :- ApplyOperation(db, tx, now, ops[0]);
      ApplyOperations(next, tx, now, ops[1..])
  }

  /** Check the expected stream versions; each stream named is then on record, at its version. */
  function ExpectAll(streams: map<Text, nat>, expected: seq<ExpectedStreamVersion>): Result<map<Text, nat>, Error>
    decreases |expected|
  {
    if expected == [] then Ok(streams)
    else
      var e := expected[0];
      var actual := VersionIn(streams, e.streamId);
      if actual != e.version then Err(Conflicting(StreamVersion(e.streamId, e.version, actual)))
      else ExpectAll(streams[e.streamId := actual], expected[1..])
  }

  function TxSequences(transactions: map<Id, TxRow>): set<nat> { set id | id in transactions :: transactions[id].sequence }

  function NextTxSequence(transactions: map<Id, TxRow>): nat { MaxOrZero(TxSequences(transactions)) + 1 }

  /** The simple form of a commit: every append advances the streams table at once. */
  function CommitEffect(db: Db, s: Submission): Result<Db, Error> {
    var b := s.batch;
    var streams :- ExpectAll(db.streams, b.expected);
    var row := TxRow(NextTxSequence(db.transactions), b.committedAt, s.digest, |b.operations|);
    ApplyOperations(db.(streams := streams, transactions := db.transactions[b.transactionId := row]),
                    b.transactionId, b.committedAt, b.operations)
  }

  function ReceiptOf(id: Id, row: TxRow): CommitReceipt { CommitReceipt(id, row.sequence, row.committedAt) }

  /** What submitting a batch leads to when its COMMIT persists: the new database and the receipt. */
  function Submit(db: Db, s: Submission): Result<(Db, CommitReceipt), Error> {
    var id := s.batch.transactionId;
    var _ :- Validate(s.limits, s.batch);
    if id in db.transactions then
      if db.transactions[id].digest == s.digest then Ok((db, ReceiptOf(id, db.transactions[id])))
      else Err(DuplicateIdWithDifferentContent)
    else
      var db' :- CommitEffect(db, s);
      Ok((db', CommitReceipt(id, NextTxSequence(db.transactions), s.batch.committedAt)))
  }

  // ----- what every reachable database satisfies -----

  function StreamOf(events: seq<EventRow>, stream: Text): seq<EventRow> {
    if events == [] then []
    else
      var last := events[|events| - 1];
      StreamOf(events[..|events| - 1], stream) + (if last.event.streamId == stream then [last] else [])
  }

  /** Each stream holds versions 1 .. current_version, in global order. */
  ghost predicate StreamContiguous(events: seq<EventRow>, streams: map<Text, nat>, stream: Text) {
    var s := StreamOf(events, stream);
    |s| == VersionIn(streams, stream) && forall k :: 0 <= k < |s| ==> s[k].version == k + 1
  }

  ghost predicate EventsInv(events: seq<EventRow>, streams: map<Text, nat>) {
    && (forall stream :: StreamContiguous(events, streams, stream))
    && (forall i, j :: 0 <= i < j < |events| ==> events[i].event.eventId != events[j].event.eventId)
    && (forall i :: 0 <= i < |events| ==> events[i].event.streamId in streams)
  }

  ghost predicate SequencesDistinct(transactions: map<Id, TxRow>) {
    forall a, b :: a in transactions && b in transactions && transactions[a].sequence == transactions[b].sequence ==> a == b
  }

  /** REFERENCES transactions(transaction_id), from events, jobs and claim receipts. */
  ghost predicate ReferencesKnown(db: Db) {
    && (forall i :: 0 <= i < |db.events| ==> db.events[i].tx in db.transactions)
    && (forall id :: id in db.tables.jobs ==>
          db.tables.jobs[id].enqueueTx in db.transactions && db.tables.jobs[id].updatedTx in db.transactions)
    && (forall k :: k in db.tables.receipts ==> k.tx in db.transactions)
  }

  ghost predicate DbInv(db: Db) {
    && ZERO_ID !in db.transactions
    && SequencesDistinct(db.transactions)
    && EventsInv(db.events, db.streams)
    && db.entries.Keys == db.versions.Keys
    && JobsInv(db.tables)
    && ReferencesKnown(db)
  }

  // ----- every operation keeps it -----

  lemma {:induction false} StreamVersionsAscend(events: seq<EventRow>, streams: map<Text, nat>, i: nat, j: nat)
    requires EventsInv(events, streams) && i < j < |events| && events[i].event.streamId == events[j].event.streamId
    ensures events[i].version < events[j].version
  {
    var stream := events[i].event.streamId;
    assert StreamContiguous(events, streams, stream);
    var a, b := PositionInStream(events, i), PositionInStream(events, j);
    PositionsOrdered(events, i, j);
  }

  /** Where an event stands within its stream. */
  function PositionInStream(events: seq<EventRow>, i: nat): (k: nat)
    requires i < |events|
    ensures k < |StreamOf(events, events[i].event.streamId)| && StreamOf(events, events[i].event.streamId)[k] == events[i]
  {
    StreamOfPrefix(events, i + 1, events[i].event.streamId);
    assert events[..i + 1][..i] == events[..i];
    |StreamOf(events[..i], events[i].event.streamId)|
  }

  lemma {:induction false} StreamOfPrefix(events: seq<EventRow>, n: nat, stream: Text)
    requires n <= |events|
    ensures StreamOf(events[..n], stream) <= StreamOf(events, stream)
    decreases |events| - n
  {
    if n == |events| {
      assert events[..n] == events;
    } else {
      StreamOfPrefix(events, n + 1, stream);
      assert events[..n + 1][..n] == events[..n];
    }
  }

  lemma PositionsOrdered(events: seq<EventRow>, i: nat, j: nat)
    requires i < j < |events| && events[i].event.streamId == events[j].event.streamId
    ensures PositionInStream(events, i) < PositionInStream(events, j)
  {
    var stream := events[i].event.streamId;
    assert events[..i + 1][..i] == events[..i];
    assert events[..j][..i + 1] == events[..i + 1];
    StreamOfPrefix(events[..j], i + 1, stream);
  }

  lemma AppendKeepsStream(db: Db, tx: Id, e: Event, stream: Text)
    requires StreamContiguous(db.events, db.streams, stream) && Append(db, tx, e).Ok?
    ensures StreamContiguous(Append(db, tx, e).value.events, Append(db, tx, e).value.streams, stream)
  {
    hide EventIdUsed;
    var db' := Append(db, tx, e).value;
    assert db'.events[..|db'.events| - 1] == db.events;
  }

  lemma AppendKeepsEvents(db: Db, tx: Id, e: Event)
    requires EventsInv(db.events, db.streams) && Append(db, tx, e).Ok?
    ensures EventsInv(Append(db, tx, e).value.events, Append(db, tx, e).value.streams)
  {
    hide StreamContiguous, StreamOf;
    forall stream { AppendKeepsStream(db, tx, e, stream); }
  }

  /** The refusal names this expectation, the first that is not the stream's version before the batch. */
  ghost predicate FirstMismatch(streams: map<Text, nat>, expected: seq<ExpectedStreamVersion>, i: nat, error: Error) {
    && i < |expected|
    && (forall k :: 0 <= k < i ==> VersionIn(streams, expected[k].streamId) == expected[k].version)
    && VersionIn(streams, expected[i].streamId) != expected[i].version
    && error == Conflicting(StreamVersion(expected[i].streamId, expected[i].version, VersionIn(streams, expected[i].streamId)))
  }

  /** The expectations are accepted exactly when every one of them is the stream's version before the batch. */
  lemma {:induction false} ExpectationsChecked(streams: map<Text, nat>, expected: seq<ExpectedStreamVersion>) returns (at: nat)
    ensures ExpectAll(streams, expected).Ok? <==> forall e :: e in expected ==> VersionIn(streams, e.streamId) == e.version
    ensures ExpectAll(streams, expected).Err? ==> FirstMismatch(streams, expected, at, ExpectAll(streams, expected).error)
    decreases |expected|
  {
    at := 0;
    if expected != [] {
      var first := expected[0];
      var next := streams[first.streamId := VersionIn(streams, first.streamId)];
      assert forall s :: VersionIn(next, s) == VersionIn(streams, s);
      assert forall e :: e in expected <==> e == first || e in expected[1..];
      if VersionIn(streams, first.streamId) == first.version {
        var n := ExpectationsChecked(next, expected[1..]);
        at := n + 1;
      }
    }
  }

  lemma {:induction false} ExpectKeepsVersions(streams: map<Text, nat>, expected: seq<ExpectedStreamVersion>)
    requires ExpectAll(streams, expected).Ok?
    ensures forall s :: VersionIn(ExpectAll(streams, expected).value, s) == VersionIn(streams, s)
    ensures streams.Keys <= ExpectAll(streams, expected).value.Keys
    ensures forall e :: e in expected ==> VersionIn(streams, e.streamId) == e.version
    decreases |expected|
  {
    if expected != [] {
      var next := streams[expected[0].streamId := VersionIn(streams, expected[0].streamId)];
      ExpectKeepsVersions(next, expected[1..]);
      assert forall s :: VersionIn(next, s) == VersionIn(streams, s);
    }
  }

  /** Where the rows of the job tables say they come from. */
  predicate FromTx(j: Job, tx: Id, t: JobTables, id: Id) {
    && (j.updatedTx == tx || (id in t.jobs && j.updatedTx == t.jobs[id].updatedTx))
    && (j.enqueueTx == tx || (id in t.jobs && j.enqueueTx == t.jobs[id].enqueueTx))
  }

  ghost predicate Authored(t: JobTables, t': JobTables, tx: Id) {
    forall id :: id in t'.jobs ==> FromTx(t'.jobs[id], tx, t, id)
  }

  lemma WriteAuthored(t: JobTables, t': JobTables, tx: Id)
    requires WritesOneRow(t, t', tx)
    ensures Authored(t, t', tx) && t'.receipts == t.receipts && t'.cursors == t.cursors
  {
    hide Drain;
  }

  lemma EnqueueAuthored(t: JobTables, tx: Id, spec: JobSpec)
    requires Enqueue(t, tx, spec).Ok?
    ensures Authored(t, Enqueue(t, tx, spec).value, tx)
  {
    hide NextSequence;
  }

  lemma ExtendAuthored(t: JobTables, now: I64, x: LeaseExtension, tx: Id)
    requires Extend(t, now, x).Ok?
    ensures Authored(t, Extend(t, now, x).value, tx)
    ensures Extend(t, now, x).value.receipts.Keys == t.receipts.Keys
  {
    assert x.jobId in t.jobs;
    hide CheckExtension;
  }

  lemma JobOpAuthored(t: JobTables, tx: Id, now: I64, op: Operation)
    requires IsJobOp(op) && JobOp(t, tx, now, op).Ok?
    ensures var t' := JobOp(t, tx, now, op).value;
            Authored(t, t', tx) && t'.receipts.Keys == t.receipts.Keys && t'.cursors == t.cursors
  {
    JobOpWrites(t, tx, now, op);
    hide WritesOneRow, Authored, Ack, Fail, Cancel, Resolve, CheckExtension, ExtendReceipts, NextSequence;
    if op.EnqueueJob? {
      EnqueueAuthored(t, tx, op.spec);
    } else if op.ExtendLease? {
      ExtendAuthored(t, now, op.extension, tx);
    } else {
      WriteAuthored(t, JobOp(t, tx, now, op).value, tx);
    }
  }

  lemma AuthoredKnown(db: Db, t': JobTables, tx: Id)
    requires ReferencesKnown(db) && tx in db.transactions && Authored(db.tables, t', tx)
    requires forall k :: k in t'.receipts ==> k in db.tables.receipts || k.tx == tx
    ensures ReferencesKnown(db.(tables := t'))
  {}

  lemma JobOperationKeepsInv(db: Db, tx: Id, now: I64, op: Operation)
    requires DbInv(db) && tx in db.transactions && IsJobOp(op) && EnqueueAdmissible(op)
    requires JobOp(db.tables, tx, now, op).Ok?
    ensures DbInv(db.(tables := JobOp(db.tables, tx, now, op).value))
  {
    hide JobsInv, EventsInv, SequencesDistinct, ReferencesKnown, Authored, JobOp;
    JobOpKeepsInv(db.tables, tx, now, op);
    JobOpAuthored(db.tables, tx, now, op);
    AuthoredKnown(db, JobOp(db.tables, tx, now, op).value, tx);
  }

  lemma OperationKeepsInv(db: Db, tx: Id, now: I64, op: Operation)
    requires DbInv(db) && tx in db.transactions && EnqueueAdmissible(op)
    requires ApplyOperation(db, tx, now, op).Ok?
    ensures DbInv(ApplyOperation(db, tx, now, op).value)
    ensures ApplyOperation(db, tx, now, op).value.transactions == db.transactions
  {
    hide JobsInv, EventsInv, SequencesDistinct, JobOp, ValidPatch, ApplyAll;
    if op.AppendEvent? {
      AppendKeepsEvents(db, tx, op.event);
    } else if IsJobOp(op) {
      JobOperationKeepsInv(db, tx, now, op);
    }
  }

  lemma {:induction false} OperationsKeepInv(db: Db, tx: Id, now: I64, ops: seq<Operation>)
    requires DbInv(db) && tx in db.transactions && Admissible(ops)
    requires ApplyOperations(db, tx, now, ops).Ok?
    ensures DbInv(ApplyOperations(db, tx, now, ops).value)
    ensures ApplyOperations(db, tx, now, ops).value.transactions == db.transactions
    decreases |ops|
  {
    hide DbInv, ApplyOperation, EnqueueAdmissible;
    if ops != [] {
      OperationKeepsInv(db, tx, now, ops[0]);
      OperationsKeepInv(ApplyOperation(db, tx, now, ops[0]).value, tx, now, ops[1..]);
    }
  }

  lemma TxSequenceIsNew(transactions: map<Id, TxRow>, id: Id)
    requires id in transactions
    ensures transactions[id].sequence < NextTxSequence(transactions)
  {
    assert transactions[id].sequence in TxSequences(transactions);
  }

  lemma NewTransaction(db: Db, id: Id, row: TxRow)
    requires DbInv(db) && id !in db.transactions && id != ZERO_ID && row.sequence == NextTxSequence(db.transactions)
    ensures DbInv(db.(transactions := db.transactions[id := row]))
  {
    hide JobsInv, EventsInv, NextTxSequence;
    forall x | x in db.transactions ensures db.transactions[x].sequence < row.sequence {
      TxSequenceIsNew(db.transactions, x);
    }
  }

  lemma StreamsExpected(db: Db, expected: seq<ExpectedStreamVersion>)
    requires DbInv(db) && ExpectAll(db.streams, expected).Ok?
    ensures DbInv(db.(streams := ExpectAll(db.streams, expected).value))
  {
    hide JobsInv, SequencesDistinct, ReferencesKnown;
    var streams := ExpectAll(db.streams, expected).value;
    ExpectKeepsVersions(db.streams, expected);
    assert EventsInv(db.events, streams) by {
      forall stream ensures StreamContiguous(db.events, streams, stream) {
        assert StreamContiguous(db.events, db.streams, stream);
      }
    }
    KnownStill(db, streams);
  }

  /** The database a batch's operations start from: its transaction on record, its streams checked. */
  function Opened(db: Db, s: Submission): Db
    requires ExpectAll(db.streams, s.batch.expected).Ok?
  {
    db.(streams := ExpectAll(db.streams, s.batch.expected).value,
        transactions := db.transactions[s.batch.transactionId :=
          TxRow(NextTxSequence(db.transactions), s.batch.committedAt, s.digest, |s.batch.operations|)])
  }

  lemma OpenedInv(db: Db, s: Submission)
    requires DbInv(db) && Validate(s.limits, s.batch).Ok? && s.batch.transactionId !in db.transactions
    requires ExpectAll(db.streams, s.batch.expected).Ok?
    ensures DbInv(Opened(db, s)) && Admissible(s.batch.operations)
    ensures CommitEffect(db, s) == ApplyOperations(Opened(db, s), s.batch.transactionId, s.batch.committedAt, s.batch.operations)
  {
    hide ApplyOperations, ValidateOperations, NextTxSequence, DbInv;
    ValidatedAdmissible(s.limits, s.batch.operations);
    StreamsExpected(db, s.batch.expected);
    NewTransaction(db.(streams := ExpectAll(db.streams, s.batch.expected).value), s.batch.transactionId,
                   Opened(db, s).transactions[s.batch.transactionId]);
  }

  lemma CommitKeepsInv(db: Db, s: Submission)
    requires DbInv(db) && Validate(s.limits, s.batch).Ok? && s.batch.transactionId !in db.transactions
    requires CommitEffect(db, s).Ok?
    ensures DbInv(CommitEffect(db, s).value)
    ensures CommitEffect(db, s).value.transactions ==
            db.transactions[s.batch.transactionId :=
              TxRow(NextTxSequence(db.transactions), s.batch.committedAt, s.digest, |s.batch.operations|)]
  {
    hide DbInv, ApplyOperations, NextTxSequence, Validate;
    OpenedInv(db, s);
    OperationsKeepInv(Opened(db, s), s.batch.transactionId, s.batch.committedAt, s.batch.operations);
  }

  lemma KnownStill(db: Db, streams: map<Text, nat>)
    requires ReferencesKnown(db)
    ensures ReferencesKnown(db.(streams := streams))
  {}

  // ----- steps -----

  /** One committed transaction. A claim's row carries a 16-byte checksum in place of a batch's 32-byte digest;
      a standalone lease extension leaves no transactions row. */
  datatype Step =
    | BatchStep(submission: Submission)
    | ClaimStep(claim: Claim, digest: Bytes)
    | ExtendStep(extension: LeaseExtension, now: I64)

  ghost predicate Enabled(db: Db, step: Step) {
    match step
    case BatchStep(s) =>
      Validate(s.limits, s.batch).Ok? && s.batch.transactionId !in db.transactions && CommitEffect(db, s).Ok?
    case ClaimStep(c, digest) =>
      Claimable(db.tables, c) && c.tx !in db.transactions && c.tx != ZERO_ID && |digest| == 16
    case ExtendStep(x, now) => Extend(db.tables, now, x).Ok?
  }

  function ClaimRow(db: Db, c: Claim, digest: Bytes): TxRow {
    TxRow(NextTxSequence(db.transactions), c.req.now, digest, |c.repairs| + |c.grants|)
  }

  ghost function After(db: Db, step: Step): Db
    requires Enabled(db, step)
  {
    match step
    case BatchStep(s) => CommitEffect(db, s).value
    case ClaimStep(c, digest) =>
      db.(transactions := db.transactions[c.tx := ClaimRow(db, c, digest)], tables := ClaimEffect(db.tables, c))
    case ExtendStep(x, now) => db.(tables := Extend(db.tables, now, x).value)
  }

  lemma ClaimAuthored(t: JobTables, c: Claim)
    ensures Authored(t, ClaimEffect(t, c), c.tx)
    ensures forall k :: k in ClaimEffect(t, c).receipts ==> k in t.receipts || k.tx == c.tx
  {
    hide AdvanceCursor, StillLive, Ascii;
  }

  lemma ClaimStepKeepsInv(db: Db, c: Claim, digest: Bytes)
    requires DbInv(db) && Enabled(db, ClaimStep(c, digest))
    ensures DbInv(After(db, ClaimStep(c, digest)))
  {
    hide JobsInv, EventsInv, SequencesDistinct, ReferencesKnown, Authored, Claimable, ClaimEffect, NextTxSequence;
    NewTransaction(db, c.tx, ClaimRow(db, c, digest));
    ClaimKeepsInv(db.tables, c);
    ClaimAuthored(db.tables, c);
    AuthoredKnown(db.(transactions := db.transactions[c.tx := ClaimRow(db, c, digest)]), ClaimEffect(db.tables, c), c.tx);
  }

  lemma ExtendStepKeepsInv(db: Db, x: LeaseExtension, now: I64)
    requires DbInv(db) && Enabled(db, ExtendStep(x, now))
    ensures DbInv(After(db, ExtendStep(x, now)))
  {
    hide JobsInv, EventsInv, SequencesDistinct, ReferencesKnown, CheckExtension, ExtendReceipts;
    ExtendKeepsInv(db.tables, now, x);
    ExtendKeepsReferences(db, now, x);
  }

  lemma ExtendKeepsReferences(db: Db, now: I64, x: LeaseExtension)
    requires ReferencesKnown(db) && Extend(db.tables, now, x).Ok?
    ensures ReferencesKnown(db.(tables := Extend(db.tables, now, x).value))
  {
    assert x.jobId in db.tables.jobs;
    hide CheckExtension;
  }

  /** Every step keeps the invariant. */
  lemma StepKeepsInv(db: Db, step: Step)
    requires DbInv(db) && Enabled(db, step)
    ensures DbInv(After(db, step))
  {
    hide DbInv, CommitEffect, Validate;
    match step
    case BatchStep(s) => CommitKeepsInv(db, s);
    case ClaimStep(c, digest) => ClaimStepKeepsInv(db, c, digest);
    case ExtendStep(x, now) => ExtendStepKeepsInv(db, x, now);
  }

  lemma EmptyInv()
    ensures DbInv(EMPTY_DB)
  {
    forall stream ensures StreamContiguous([], map[], stream) {}
  }

  // ----- verify -----

  datatype Finding =
    | StreamVersionMismatch(stream: Text)
    | StreamRowMissing(eventStream: Text)
    | TerminalWithLease(terminalJob: Id)
    | IdlePartitionActive(place: Place)
    | LeaseIncomplete(leasedJob: Id)
    | ReceiptWithoutJob(orphan: ReceiptKey)
    | ReceiptWithoutTransaction(stray: ReceiptKey)
    | ChecksumMismatch(version: nat)

  /** A known migration, and whether the checksum recorded when it was applied is that of its text now. */
  datatype MigrationStatus = MigrationStatus(version: nat, checksumOk: bool)

  function MigrationFindings(statuses: seq<MigrationStatus>): set<Finding> {
    set i | 0 <= i < |statuses| && !statuses[i].checksumOk :: ChecksumMismatch(statuses[i].version)
  }

  function EventVersions(events: seq<EventRow>, stream: Text): set<nat> {
    set i | 0 <= i < |events| && events[i].event.streamId == stream :: events[i].version
  }

  function StreamFindings(events: seq<EventRow>, streams: map<Text, nat>): set<Finding> {
    (set s | s in streams && streams[s] != MaxOrZero(EventVersions(events, s)) :: StreamVersionMismatch(s))
    + (set i | 0 <= i < |events| && events[i].event.streamId !in streams :: StreamRowMissing(events[i].event.streamId))
  }

  function JobFindings(t: JobTables): set<Finding> {
    (set id | id in t.jobs && t.jobs[id].state.IsTerminal()
              && (t.jobs[id].leaseToken.Some? || t.jobs[id].worker.Some? || t.jobs[id].leaseExpires.Some?)
            :: TerminalWithLease(id))
    + (set p | p in t.active && p !in LivePlaces(t.jobs) :: IdlePartitionActive(p))
    + (set id | id in t.jobs && t.jobs[id].state.Leased?
                && (t.jobs[id].leaseToken.None? || t.jobs[id].worker.None? || t.jobs[id].leaseExpires.None?)
              :: LeaseIncomplete(id))
    + (set k | k in t.receipts && k.job !in t.jobs :: ReceiptWithoutJob(k))
  }

  /** The findings of the store-wide semantic checks. */
  function SemanticFindings(db: Db, statuses: seq<MigrationStatus>): set<Finding> {
    StreamFindings(db.events, db.streams) + JobFindings(db.tables) + MigrationFindings(statuses)
    + (set k | k in db.tables.receipts && k.tx !in db.transactions :: ReceiptWithoutTransaction(k))
  }

  /** Verify finds exactly the violations: each finding is reported if and only if what it says is so. */
  lemma FindingsExact(db: Db, statuses: seq<MigrationStatus>, f: Finding)
    ensures f in SemanticFindings(db, statuses) <==>
            match f
            case StreamVersionMismatch(s) =>
              s in db.streams
              && !(if exists i :: 0 <= i < |db.events| && db.events[i].event.streamId == s then
                     (exists i :: 0 <= i < |db.events| && db.events[i].event.streamId == s && db.events[i].version == db.streams[s])
                     && (forall i :: 0 <= i < |db.events| && db.events[i].event.streamId == s ==> db.events[i].version <= db.streams[s])
                   else db.streams[s] == 0)
            case StreamRowMissing(s) =>
              s !in db.streams && exists i :: 0 <= i < |db.events| && db.events[i].event.streamId == s
            case TerminalWithLease(id) =>
              id in db.tables.jobs && var j := db.tables.jobs[id];
              j.state in {Succeeded, Dead, Cancelled} && (j.leaseToken.Some? || j.worker.Some? || j.leaseExpires.Some?)
            case LeaseIncomplete(id) =>
              id in db.tables.jobs && var j := db.tables.jobs[id];
              j.state.Leased? && (j.leaseToken.None? || j.worker.None? || j.leaseExpires.None?)
            case IdlePartitionActive(p) =>
              p in db.tables.active
              && forall id :: id in db.tables.jobs && Place(db.tables.jobs[id].spec.queue, db.tables.jobs[id].spec.partitionKey) == p ==>
                   db.tables.jobs[id].state in {Succeeded, Dead, Cancelled}
            case ReceiptWithoutJob(r) => r in db.tables.receipts && r.job !in db.tables.jobs
            case ReceiptWithoutTransaction(r) => r in db.tables.receipts && r.tx !in db.transactions
            case ChecksumMismatch(v) => exists i :: 0 <= i < |statuses| && statuses[i].version == v && !statuses[i].checksumOk
  {
    match f
    case StreamVersionMismatch(s) => if s in db.streams { GreatestExact(db.events, s, db.streams[s]); }
    case IdlePartitionActive(p) => IdleExact(db.tables.jobs, p);
    case _ =>
  }

  lemma GreatestExact(events: seq<EventRow>, stream: Text, v: nat)
    ensures MaxOrZero(EventVersions(events, stream)) == v <==>
            if exists i :: 0 <= i < |events| && events[i].event.streamId == stream then
              (exists i :: 0 <= i < |events| && events[i].event.streamId == stream && events[i].version == v)
              && (forall i :: 0 <= i < |events| && events[i].event.streamId == stream ==> events[i].version <= v)
            else v == 0
  {
    var vs := EventVersions(events, stream);
    forall i | 0 <= i < |events| && events[i].event.streamId == stream ensures events[i].version in vs {}
    if vs != {} { assert IsGreatest(MaxOrZero(vs), vs); }
  }

  lemma IdleExact(jobs: map<Id, Job>, p: Place)
    ensures p !in LivePlaces(jobs) <==>
            forall id :: id in jobs && Place(jobs[id].spec.queue, jobs[id].spec.partitionKey) == p ==>
              jobs[id].state in {Succeeded, Dead, Cancelled}
  {
    forall id | id in jobs && Live(jobs[id]) ensures PlaceOf(jobs[id]) in LivePlaces(jobs) {}
  }

  lemma {:induction false} InStreamIffEvent(events: seq<EventRow>, stream: Text, row: EventRow)
    ensures row in StreamOf(events, stream) <==> row in events && row.event.streamId == stream
  {
    if events != [] {
      InStreamIffEvent(events[..|events| - 1], stream, row);
      assert events == events[..|events| - 1] + [events[|events| - 1]];
    }
  }

  lemma GreatestVersion(db: Db, stream: Text)
    requires EventsInv(db.events, db.streams)
    ensures MaxOrZero(EventVersions(db.events, stream)) == VersionIn(db.streams, stream)
  {
    var s := StreamOf(db.events, stream);
    var vs := EventVersions(db.events, stream);
    assert StreamContiguous(db.events, db.streams, stream);
    forall v | v in vs ensures 1 <= v <= |s| {
      var i :| 0 <= i < |db.events| && db.events[i].event.streamId == stream && db.events[i].version == v;
      InStreamIffEvent(db.events, stream, db.events[i]);
      var k :| 0 <= k < |s| && s[k] == db.events[i];
    }
    if s != [] {
      var last := s[|s| - 1];
      InStreamIffEvent(db.events, stream, last);
      var i :| 0 <= i < |db.events| && db.events[i] == last;
      assert last.version in vs;
    }
    if vs != {} {
      assert IsGreatest(MaxOrZero(vs), vs);
    }
  }

  lemma StreamsPassVerify(db: Db)
    requires EventsInv(db.events, db.streams)
    ensures StreamFindings(db.events, db.streams) == {}
  {
    hide MaxOrZero, EventVersions, StreamContiguous;
    forall s | s in db.streams ensures db.streams[s] == MaxOrZero(EventVersions(db.events, s)) {
      GreatestVersion(db, s);
    }
  }

  lemma JobsPassVerify(t: JobTables)
    requires JobsInv(t)
    ensures JobFindings(t) == {}
  {
    hide LivePlaces, Fifo, SequencesUnique, ReceiptsUnique, ReceiptsCover;
    assert forall id :: id in t.jobs ==> RowOk(id, t.jobs[id]);
  }

  /** Of a database that satisfies the invariant verify finds nothing but migrations whose text has changed. */
  lemma InvariantPassesVerify(db: Db, statuses: seq<MigrationStatus>)
    requires DbInv(db)
    ensures SemanticFindings(db, statuses) == MigrationFindings(statuses)
    ensures SemanticFindings(db, statuses) == {} <==> forall i :: 0 <= i < |statuses| ==> statuses[i].checksumOk
  {
    hide EventsInv, JobsInv, SequencesDistinct, StreamFindings, JobFindings;
    TablesSound(db);
    StreamsPassVerify(db);
    JobsPassVerify(db.tables);
    if i :| 0 <= i < |statuses| && !statuses[i].checksumOk {
      assert ChecksumMismatch(statuses[i].version) in MigrationFindings(statuses);
    }
  }

  lemma TablesSound(db: Db)
    requires DbInv(db)
    ensures EventsInv(db.events, db.streams) && JobsInv(db.tables)
  {
    hide EventsInv, JobsInv, SequencesDistinct, ReferencesKnown;
  }
}
