/** Exactly when each job operation goes through, in any reachable state, which error it meets otherwise, and every column
    it then writes (src/store/jobs.rs). Stated on the rows themselves, without the functions that specify the operations. */
module JobOutcomes {
  import opened Types
  import opened Messages
  import opened Jobs
  import opened JobInvariant

  predicate Holds(t: JobTables, id: Id, token: Id) { id in t.jobs && t.jobs[id].leaseToken == Some(token) }

  /** Some job of the partition is not finished. */
  ghost predicate Unfinished(jobs: map<Id, Job>, p: Place) {
    exists x :: x in jobs && jobs[x].state in {Pending, Leased, RetryWait, Uncertain}
                && jobs[x].spec.queue == p.queue && jobs[x].spec.partitionKey == p.key
  }

  /** This row is replaced by j'; its partition stays in the index exactly if it still has unfinished jobs; nothing else changes. */
  ghost predicate RowBecomes(t: JobTables, t': JobTables, id: Id, j': Job) {
    && id in t.jobs && t'.jobs == t.jobs[id := j'] && t'.receipts == t.receipts && t'.cursors == t.cursors
    && (forall p :: p in t'.active <==> p in t.active && (p != Place(j'.spec.queue, j'.spec.partitionKey) || Unfinished(t'.jobs, p)))
    && (forall p :: p in t'.active ==> t'.active[p] == t.active[p])
  }

  lemma UnfinishedIsLive(jobs: map<Id, Job>, p: Place)
    ensures Unfinished(jobs, p) <==> p in LivePlaces(jobs)
  {
    if p in LivePlaces(jobs) {
      var x :| x in jobs && Live(jobs[x]) && PlaceOf(jobs[x]) == p;
      StillUnfinished(jobs, x);
    }
    if Unfinished(jobs, p) {
      var x :| x in jobs && jobs[x].state in {Pending, Leased, RetryWait, Uncertain}
               && jobs[x].spec.queue == p.queue && jobs[x].spec.partitionKey == p.key;
      assert Live(jobs[x]) && PlaceOf(jobs[x]) == p;
    }
  }

  lemma WriteBecomes(t: JobTables, id: Id, j': Job)
    requires id in t.jobs
    ensures RowBecomes(t, Write(t, id, j'), id, j')
  {
    hide LivePlaces, Unfinished;
    var jobs := t.jobs[id := j'];
    UnfinishedIsLive(jobs, PlaceOf(j'));
    if Live(j') { StillUnfinished(jobs, id); }
  }

  lemma StillUnfinished(jobs: map<Id, Job>, id: Id)
    requires id in jobs && Live(jobs[id])
    ensures Unfinished(jobs, PlaceOf(jobs[id]))
  {
    UnfinishedState(jobs[id].state);
  }

  lemma UnfinishedState(s: JobState)
    ensures s.IsTerminal() <==> s !in {Pending, Leased, RetryWait, Uncertain}
  {
    match s {
      case Pending =>
      case Leased =>
      case RetryWait =>
      case Uncertain =>
      case Succeeded =>
      case Dead =>
      case Cancelled =>
    }
  }

  /** A job is enqueued exactly when its id is new. It is then pending and unattempted, numbered one past every job
      enqueued before it, and the index gains its partition unless it is there. */
  lemma EnqueueGoesThrough(t: JobTables, tx: Id, spec: JobSpec)
    ensures spec.jobId in t.jobs ==> Enqueue(t, tx, spec) == Err(Validation(JobExists))
    ensures spec.jobId !in t.jobs ==>
              exists n: nat ::
                && (forall x :: x in t.jobs ==> t.jobs[x].sequence < n)
                && (n == 1 || exists x :: x in t.jobs && t.jobs[x].sequence == n - 1)
                && Enqueued(t, Enqueue(t, tx, spec), tx, spec, n)
  {
    hide NextSequence;
    if spec.jobId !in t.jobs {
      var n := NextSequence(t.jobs);
      forall x | x in t.jobs ensures t.jobs[x].sequence < n { SequenceIsNew(t.jobs, x); }
      NextIsAdjacent(t.jobs);
      assert Enqueued(t, Enqueue(t, tx, spec), tx, spec, n);
    }
  }

  ghost predicate Enqueued(t: JobTables, r: Result<JobTables, Error>, tx: Id, spec: JobSpec, n: nat) {
    var place := Place(spec.queue, spec.partitionKey);
    && r.Ok? && r.value.receipts == t.receipts && r.value.cursors == t.cursors
    && r.value.jobs ==
       t.jobs[spec.jobId := Job(spec, n, tx, Pending, 0, None, None, None, None, None, None, None, tx)]
    && r.value.active == if place in t.active then t.active else t.active[place := n]
  }

  lemma NextIsAdjacent(jobs: map<Id, Job>)
    ensures NextSequence(jobs) == 1 || exists x :: x in jobs && jobs[x].sequence == NextSequence(jobs) - 1
  {}

  /** Only the holder of the current lease can acknowledge. An uncertain job passes the transition check and is stopped
      by its missing token. */
  lemma AckGoesThrough(t: JobTables, tx: Id, now: I64, ack: JobAck)
    requires JobsInv(t)
    ensures Ack(t, tx, now, ack).Ok? <==> Holds(t, ack.jobId, ack.leaseToken)
    ensures Ack(t, tx, now, ack).Err? ==>
              Ack(t, tx, now, ack).error ==
              if ack.jobId !in t.jobs then Validation(JobMissing)
              else if t.jobs[ack.jobId].state in {Leased, Uncertain} then Validation(StaleToken)
              else Conflicting(JobTransition(ack.jobId, t.jobs[ack.jobId].state, Succeeded))
    ensures Ack(t, tx, now, ack).Ok? ==>
              var j := t.jobs[ack.jobId];
              RowBecomes(t, Ack(t, tx, now, ack).value, ack.jobId, j.(
                state := Succeeded, leaseToken := None, worker := None, leaseExpires := None, retryAfter := None,
                terminalAt := Some(now), updatedTx := tx,
                resultDigest := if ack.resultDigest.Some? then ack.resultDigest else j.resultDigest))
  {
    hide JobsInv, Write, RowBecomes;
    if ack.jobId in t.jobs {
      RowChecks(t, ack.jobId);
      WriteBecomes(t, ack.jobId, TerminalRow(t.jobs[ack.jobId], Succeeded, now, tx, ack.resultDigest, None));
    }
  }

  /** Only the holder of the lease can fail a job. Out of attempts it is dead; otherwise it waits until the time given,
      or for thirty seconds. */
  lemma FailGoesThrough(t: JobTables, tx: Id, now: I64, f: JobFailure)
    requires JobsInv(t)
    ensures Fail(t, tx, now, f).Ok? <==>
            Holds(t, f.jobId, f.leaseToken)
            && (t.jobs[f.jobId].attempt == t.jobs[f.jobId].spec.maxAttempts || f.retryAfter.Some? || now + 30_000 < TWO_TO_63)
    ensures Fail(t, tx, now, f).Err? ==>
              Fail(t, tx, now, f).error ==
              if f.jobId !in t.jobs then Validation(JobMissing)
              else
                var j := t.jobs[f.jobId];
                var exhausted := j.attempt == j.spec.maxAttempts;
                if !(j.state.Leased? || (exhausted && j.state.Uncertain?)) then
                  Conflicting(JobTransition(f.jobId, j.state, if exhausted then Dead else RetryWait))
                else if j.leaseToken != Some(f.leaseToken) then Validation(StaleToken)
                else Validation(RetryOverflow)
    ensures Fail(t, tx, now, f).Ok? ==>
              var j := t.jobs[f.jobId];
              var released := j.(leaseToken := None, worker := None, leaseExpires := None,
                                 errorSummary := Some(f.errorSummary), updatedTx := tx);
              RowBecomes(t, Fail(t, tx, now, f).value, f.jobId,
                if j.attempt == j.spec.maxAttempts then released.(state := Dead, retryAfter := None, terminalAt := Some(now))
                else released.(state := RetryWait, retryAfter := Some(if f.retryAfter.Some? then f.retryAfter.value else now + 30_000)))
  {
    hide JobsInv, Write, RowBecomes;
    if f.jobId in t.jobs {
      var j := t.jobs[f.jobId];
      AttemptsLeft(t, f.jobId);
      if j.attempt >= j.spec.maxAttempts {
        WriteBecomes(t, f.jobId, TerminalRow(j, Dead, now, tx, None, Some(f.errorSummary)));
      } else if RetryTime(now, f).Ok? {
        var at := RetryTime(now, f).value;
        WriteBecomes(t, f.jobId, NonterminalRow(j, RetryWait, Some(at), tx).(errorSummary := Some(f.errorSummary)));
      }
    }
  }

  lemma AttemptsLeft(t: JobTables, id: Id)
    requires JobsInv(t) && id in t.jobs
    ensures t.jobs[id].attempt <= t.jobs[id].spec.maxAttempts
    ensures Checks(t.jobs[id])
  {
    hide Fifo, SequencesUnique, ReceiptsOk;
    assert RowOk(id, t.jobs[id]);
  }

  /** A pending job can be cancelled without a token, a leased one by its holder, no other job at all. */
  lemma CancelGoesThrough(t: JobTables, tx: Id, now: I64, c: JobCancellation)
    requires JobsInv(t)
    ensures Cancel(t, tx, now, c).Ok? <==>
            c.jobId in t.jobs && match c.leaseToken
                                 case None => t.jobs[c.jobId].state.Pending?
                                 case Some(token) => Holds(t, c.jobId, token)
    ensures Cancel(t, tx, now, c).Err? ==>
              Cancel(t, tx, now, c).error ==
              if c.jobId !in t.jobs then Validation(JobMissing)
              else if t.jobs[c.jobId].state !in {Pending, Leased} then
                Conflicting(JobTransition(c.jobId, t.jobs[c.jobId].state, Cancelled))
              else Validation(if c.leaseToken.Some? then StaleToken else TokenRequired)
    ensures Cancel(t, tx, now, c).Ok? ==>
              RowBecomes(t, Cancel(t, tx, now, c).value, c.jobId, t.jobs[c.jobId].(
                state := Cancelled, leaseToken := None, worker := None, leaseExpires := None, retryAfter := None,
                terminalAt := Some(now), updatedTx := tx))
  {
    hide JobsInv, Write, RowBecomes;
    if c.jobId in t.jobs {
      RowChecks(t, c.jobId);
      WriteBecomes(t, c.jobId, TerminalRow(t.jobs[c.jobId], Cancelled, now, tx, None, None));
    }
  }

  /** Only the holder of an unexpired lease can extend it, and only to a later time; the row and the receipt of the
      lease then both carry the new expiry, and nothing else changes. */
  lemma ExtendGoesThrough(t: JobTables, now: I64, x: LeaseExtension)
    requires JobsInv(t)
    ensures Extend(t, now, x).Ok? <==>
            Holds(t, x.jobId, x.leaseToken) && t.jobs[x.jobId].leaseExpires.Some?
            && now <= t.jobs[x.jobId].leaseExpires.value < x.newExpiry
    ensures Extend(t, now, x).Err? ==>
              match Extend(t, now, x).error
              case JobNotFound(id) => id == x.jobId && id !in t.jobs
              case NotLeased(id, state) => id == x.jobId && id in t.jobs && state == t.jobs[id].state && !state.Leased?
              case InvalidToken(id) =>
                id == x.jobId && id in t.jobs && t.jobs[id].state.Leased? && t.jobs[id].leaseToken != Some(x.leaseToken)
              case Expired(id, expires, at) =>
                id == x.jobId && Holds(t, id, x.leaseToken) && t.jobs[id].leaseExpires == Some(expires) && at == now > expires
              case ExpiryNotLater(id, current, requested) =>
                id == x.jobId && Holds(t, id, x.leaseToken) && t.jobs[id].leaseExpires == Some(current)
                && requested == x.newExpiry <= current && now <= current
    ensures Extend(t, now, x).Ok? ==>
              var t' := Extend(t, now, x).value;
              && t'.jobs == t.jobs[x.jobId := t.jobs[x.jobId].(leaseExpires := Some(x.newExpiry))]
              && t'.active == t.active && t'.cursors == t.cursors && t'.receipts.Keys == t.receipts.Keys
              && forall k :: k in t.receipts ==>
                   t'.receipts[k] ==
                   if k.job == x.jobId && t.receipts[k].attempt == t.jobs[x.jobId].attempt then t.receipts[k].(expires := x.newExpiry)
                   else t.receipts[k]
  {
    if x.jobId in t.jobs { RowChecks(t, x.jobId); }
    hide JobsInv, RowsOk, Fifo, SequencesUnique;
    if Extend(t, now, x).Ok? {
      forall k | k in t.receipts && k.job == x.jobId
        ensures t.receipts[k].token == x.leaseToken <==> t.receipts[k].attempt == t.jobs[x.jobId].attempt
      {
        TokenIffLatest(t, k);
      }
    }
  }

  lemma TokenIffLatest(t: JobTables, k: ReceiptKey)
    requires JobsInv(t) && k in t.receipts && k.job in t.jobs && t.jobs[k.job].state.Leased?
    ensures t.jobs[k.job].leaseToken == Some(t.receipts[k].token) <==> t.receipts[k].attempt == t.jobs[k.job].attempt
  {
    if t.jobs[k.job].leaseToken == Some(t.receipts[k].token) { TokenNamesLatest(t, k); }
    hide Fifo, SequencesUnique, ReceiptsUnique, ReceiptsCover;
    assert Agrees(t.jobs[k.job], t.receipts[k]);
  }

  /** What a resolution makes of a job: a retry puts it back in line, unless it is out of attempts. */
  function ResolvedState(j: Job, r: Resolution): JobState {
    match r
    case Retry => if j.attempt >= j.spec.maxAttempts then Dead else Pending
    case MarkSucceeded => Succeeded
    case MarkDead => Dead
  }

  /** A resolution goes through for an uncertain job, and also for a leased one, of which it asks no token. */
  lemma ResolveGoesThrough(t: JobTables, tx: Id, now: I64, r: JobResolution)
    ensures Resolve(t, tx, now, r).Ok? <==> r.jobId in t.jobs && t.jobs[r.jobId].state in {Leased, Uncertain}
    ensures Resolve(t, tx, now, r).Err? ==>
              Resolve(t, tx, now, r).error ==
              if r.jobId !in t.jobs then Validation(JobMissing)
              else Conflicting(JobTransition(r.jobId, t.jobs[r.jobId].state, ResolvedState(t.jobs[r.jobId], r.resolution)))
    ensures Resolve(t, tx, now, r).Ok? ==>
              var j := t.jobs[r.jobId];
              var released := j.(state := ResolvedState(j, r.resolution), leaseToken := None, worker := None,
                                 leaseExpires := None, retryAfter := None, updatedTx := tx);
              RowBecomes(t, Resolve(t, tx, now, r).value, r.jobId,
                if released.state.Pending? then released
                else if released.state.Succeeded? then released.(terminalAt := Some(now))
                else released.(terminalAt := Some(now), errorSummary := Some(Ascii(
                  if r.resolution.Retry? then "retry resolution exhausted max_attempts" else "resolved as dead"))))
  {
    hide Write, Ascii, RowBecomes;
    if r.jobId in t.jobs {
      var j := t.jobs[r.jobId];
      match r.resolution
      case Retry =>
        if j.attempt >= j.spec.maxAttempts {
          WriteBecomes(t, r.jobId, TerminalRow(j, Dead, now, tx, None, Some(Ascii("retry resolution exhausted max_attempts"))));
        } else {
          WriteBecomes(t, r.jobId, NonterminalRow(j, Pending, None, tx));
        }
      case MarkSucceeded => WriteBecomes(t, r.jobId, TerminalRow(j, Succeeded, now, tx, None, None));
      case MarkDead => WriteBecomes(t, r.jobId, TerminalRow(j, Dead, now, tx, None, Some(Ascii("resolved as dead"))));
    }
  }

  /** The documented rule, that only an uncertain job can be resolved, holds of a job exactly when it is not leased. */
  lemma ResolveRuleHoldsIff(t: JobTables, tx: Id, now: I64, r: JobResolution)
    requires r.jobId in t.jobs
    ensures (Resolve(t, tx, now, r).Ok? ==> t.jobs[r.jobId].state.Uncertain?) <==> !t.jobs[r.jobId].state.Leased?
  {
    ResolveGoesThrough(t, tx, now, r);
    hide Resolve;
  }
}
