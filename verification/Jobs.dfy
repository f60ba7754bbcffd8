/** The job tables and what each job operation does to them (src/jobs.rs, src/store/jobs.rs). */
module Jobs {
  import opened Types
  import opened Messages

  datatype JobState = Pending | Leased | RetryWait | Uncertain | Succeeded | Dead | Cancelled {
    predicate IsTerminal() { this in {Succeeded, Dead, Cancelled} }

    predicate CanTransitionTo(to: JobState) {
      (this, to) in {
        (Pending, Leased), (Pending, Cancelled),
        (RetryWait, Leased),
        (Leased, Succeeded), (Leased, RetryWait), (Leased, Dead), (Leased, Cancelled),
        (Leased, Uncertain), (Leased, Pending), (Leased, Leased),
        (Uncertain, Pending), (Uncertain, Succeeded), (Uncertain, Dead)
      }
    }
  }

  /** A row of the jobs table. */
  datatype Job = Job(
    spec: JobSpec, sequence: nat, enqueueTx: Id, state: JobState, attempt: nat,
    leaseToken: Option<Id>, worker: Option<Text>, leaseExpires: Option<I64>, retryAfter: Option<I64>,
    terminalAt: Option<I64>, resultDigest: Option<Bytes>, errorSummary: Option<Text>, updatedTx: Id)

  datatype Place = Place(queue: Text, key: Text)

  datatype ReceiptKey = ReceiptKey(tx: Id, job: Id)

  datatype Receipt = Receipt(token: Id, attempt: nat, worker: Text, expires: I64)

  /** jobs, active_partitions (with first_active_sequence), queue_cursors, claim_receipts. */
  datatype JobTables = JobTables(
    jobs: map<Id, Job>, active: map<Place, nat>, cursors: map<Text, Text>, receipts: map<ReceiptKey, Receipt>)

  datatype LeaseConflict =
    | JobNotFound(job: Id)
    | NotLeased(job: Id, state: JobState)
    | InvalidToken(job: Id)
    | Expired(job: Id, expires: I64, now: I64)
    | ExpiryNotLater(job: Id, current: I64, requested: I64)

  datatype Conflict =
    | StreamVersion(streamId: Text, expected: U64, actual: nat)
    | ProjectionVersion(projection: Text, expected: U64, actual: nat)
    | JobTransition(job: Id, from: JobState, to: JobState)
    | Lease(conflict: LeaseConflict)

  datatype Reason =
    | ZeroId | NoAttempts | BadPatch | TooLarge | JobExists | JobMissing | StaleToken | TokenRequired
    | RetryOverflow | VersionOverflow | EmptyQueue | EmptyWorker | LeaseNotPositive | ExpiryOverflow

  datatype Error =
    | Validation(reason: Reason)
    | Conflicting(conflict: Conflict)
    | DuplicateIdWithDifferentContent
    /** The one declared table constraint that a validated batch can still violate. */
    | EventIdTaken(event: Id)

  const DEFAULT_RETRY_DELAY_MS: int := 30_000
  const MAINTENANCE_LIMIT: nat := 64

  predicate FitsI64(n: int) { -TWO_TO_63 <= n < TWO_TO_63 }

  predicate Live(j: Job) { !j.state.IsTerminal() }

  function PlaceOf(j: Job): Place { Place(j.spec.queue, j.spec.partitionKey) }

  /** The partitions that hold unfinished work. */
  function LivePlaces(jobs: map<Id, Job>): set<Place> {
    set id | id in jobs && Live(jobs[id]) :: PlaceOf(jobs[id])
  }

  // ----- row updates -----

  function Coalesce<T>(a: Option<T>, b: Option<T>): Option<T> { if a.Some? then a else b }

  function TerminalRow(j: Job, state: JobState, now: I64, tx: Id, digest: Option<Bytes>, summary: Option<Text>): Job {
    j.(state := state, leaseToken := None, worker := None, leaseExpires := None, retryAfter := None,
       terminalAt := Some(now), resultDigest := Coalesce(digest, j.resultDigest),
       errorSummary := Coalesce(summary, j.errorSummary), updatedTx := tx)
  }

  function NonterminalRow(j: Job, state: JobState, retryAfter: Option<I64>, tx: Id): Job {
    j.(state := state, leaseToken := None, worker := None, leaseExpires := None, retryAfter := retryAfter, updatedTx := tx)
  }

  /** DELETE the partition's index row unless it still holds unfinished work. */
  function Drain(active: map<Place, nat>, jobs: map<Id, Job>, place: Place): map<Place, nat> {
    if place in LivePlaces(jobs) then active else active - {place}
  }

  /** Replace one row; a row that has become terminal may empty its partition. */
  function Write(t: JobTables, id: Id, j: Job): JobTables {
    var jobs := t.jobs[id := j];
    t.(jobs := jobs, active := if Live(j) then t.active else Drain(t.active, jobs, PlaceOf(j)))
  }

  // ----- the job operations of a commit -----

  function Sequences(jobs: map<Id, Job>): set<nat> { set id | id in jobs :: jobs[id].sequence }

  /** SELECT COALESCE(MAX(enqueue_sequence), 0) + 1 FROM jobs */
  function NextSequence(jobs: map<Id, Job>): nat { MaxOrZero(Sequences(jobs)) + 1 }

  function NewJob(spec: JobSpec, sequence: nat, tx: Id): Job {
    Job(spec, sequence, tx, Pending, 0, None, None, None, None, None, None, None, tx)
  }

  function Enqueue(t: JobTables, tx: Id, spec: JobSpec): Result<JobTables, Error> {
    if spec.jobId in t.jobs then Err(Validation(JobExists))
    else
      var sequence := NextSequence(t.jobs);
      var place := Place(spec.queue, spec.partitionKey);
      Ok(t.(jobs := t.jobs[spec.jobId := NewJob(spec, sequence, tx)],
            active := if place in t.active then t.active else t.active[place := sequence]))
  }

  function CheckTransition(id: Id, j: Job, to: JobState): Result<(), Error> {
    if j.state.CanTransitionTo(to) then Ok(()) else Err(Conflicting(JobTransition(id, j.state, to)))
  }

  function CheckToken(j: Job, token: Id): Result<(), Error> {
    if j.leaseToken == Some(token) then Ok(()) else Err(Validation(StaleToken))
  }

  function Ack(t: JobTables, tx: Id, now: I64, ack: JobAck): Result<JobTables, Error> {
    if ack.jobId !in t.jobs then Err(Validation(JobMissing))
    else
      var j := t.jobs[ack.jobId];
      var _ :- CheckTransition(ack.jobId, j, Succeeded);
      var _ :- CheckToken(j, ack.leaseToken);
      Ok(Write(t, ack.jobId, TerminalRow(j, Succeeded, now, tx, ack.resultDigest, None)))
  }

  function RetryTime(now: I64, failure: JobFailure): Result<I64, Error> {
    match failure.retryAfter
    case Some(at) => Ok(at)
    case None => if FitsI64(now + DEFAULT_RETRY_DELAY_MS) then Ok(now + DEFAULT_RETRY_DELAY_MS)
                 else Err(Validation(RetryOverflow))
  }

  function Fail(t: JobTables, tx: Id, now: I64, failure: JobFailure): Result<JobTables, Error> {
    var id := failure.jobId;
    if id !in t.jobs then Err(Validation(JobMissing))
    else
      var j := t.jobs[id];
      var exhausted := j.attempt >= j.spec.maxAttempts;
      var _ :- CheckTransition(id, j, if exhausted then Dead else RetryWait);
      var _ :- CheckToken(j, failure.leaseToken);
      if exhausted then Ok(Write(t, id, TerminalRow(j, Dead, now, tx, None, Some(failure.errorSummary))))
      else
        var at :- RetryTime(now, failure);
        Ok(Write(t, id, NonterminalRow(j, RetryWait, Some(at), tx).(errorSummary := Some(failure.errorSummary))))
  }

  function Cancel(t: JobTables, tx: Id, now: I64, c: JobCancellation): Result<JobTables, Error> {
    if c.jobId !in t.jobs then Err(Validation(JobMissing))
    else
      var j := t.jobs[c.jobId];
      var _ :- CheckTransition(c.jobId, j, Cancelled);
      var _ :- match c.leaseToken
               case Some(token) => CheckToken(j, token)
               case None => if j.state.Pending? then Ok(()) else Err(Validation(TokenRequired));
      Ok(Write(t, c.jobId, TerminalRow(j, Cancelled, now, tx, None, None)))
  }

  /** Only the transition table is consulted: a job that is still Leased may be resolved too. */
  function Resolve(t: JobTables, tx: Id, now: I64, r: JobResolution): Result<JobTables, Error> {
    if r.jobId !in t.jobs then Err(Validation(JobMissing))
    else
      var j := t.jobs[r.jobId];
      match r.resolution
      case Retry =>
        if j.attempt >= j.spec.maxAttempts then
          var _ :- CheckTransition(r.jobId, j, Dead);
          Ok(Write(t, r.jobId, TerminalRow(j, Dead, now, tx, None, Some(Ascii("retry resolution exhausted max_attempts")))))
        else
          var _ :- CheckTransition(r.jobId, j, Pending);
          Ok(Write(t, r.jobId, NonterminalRow(j, Pending, None, tx)))
      case MarkSucceeded =>
        var _ :- CheckTransition(r.jobId, j, Succeeded);
        Ok(Write(t, r.jobId, TerminalRow(j, Succeeded, now, tx, None, None)))
      case MarkDead =>
        var _ :- CheckTransition(r.jobId, j, Dead);
        Ok(Write(t, r.jobId, TerminalRow(j, Dead, now, tx, None, Some(Ascii("resolved as dead")))))
  }

  /** UPDATE claim_receipts SET lease_expires_at_ms WHERE job and token match. */
  function ExtendReceipts(receipts: map<ReceiptKey, Receipt>, id: Id, token: Id, expires: I64): map<ReceiptKey, Receipt> {
    map k | k in receipts ::
      if k.job == id && receipts[k].token == token then receipts[k].(expires := expires) else receipts[k]
  }

  function CheckExtension(t: JobTables, now: I64, x: LeaseExtension): Result<(), LeaseConflict> {
    if x.jobId !in t.jobs then Err(JobNotFound(x.jobId))
    else
      var j := t.jobs[x.jobId];
      if !j.state.Leased? then Err(NotLeased(x.jobId, j.state))
      else if j.leaseToken != Some(x.leaseToken) then Err(InvalidToken(x.jobId))
      else
        var current := if j.leaseExpires.Some? then j.leaseExpires.value else -TWO_TO_63;
        if now > current then Err(Expired(x.jobId, current, now))
        else if x.newExpiry <= current then Err(ExpiryNotLater(x.jobId, current, x.newExpiry))
        else Ok(())
  }

  function Extend(t: JobTables, now: I64, x: LeaseExtension): Result<JobTables, LeaseConflict> {
    var _ :- CheckExtension(t, now, x);
    Ok(t.(jobs := t.jobs[x.jobId := t.jobs[x.jobId].(leaseExpires := Some(x.newExpiry))],
          receipts := ExtendReceipts(t.receipts, x.jobId, x.leaseToken, x.newExpiry)))
  }

  predicate IsJobOp(op: Operation) { !op.AppendEvent? && !op.ProjectionPatch? }

  function JobOp(t: JobTables, tx: Id, now: I64, op: Operation): Result<JobTables, Error>
    requires IsJobOp(op)
  {
    match op
    case EnqueueJob(spec) => Enqueue(t, tx, spec)
    case AckJob(ack) => Ack(t, tx, now, ack)
    case FailJob(failure) => Fail(t, tx, now, failure)
    case CancelJob(c) => Cancel(t, tx, now, c)
    case ResolveJob(r) => Resolve(t, tx, now, r)
    case ExtendLease(x) =>
      match Extend(t, now, x)
      case Ok(t') => Ok(t')
      case Err(c) => Err(Conflicting(Lease(c)))
  }
}
