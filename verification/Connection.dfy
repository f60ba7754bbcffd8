/** The statements of an open write transaction, run one after another against the tables
    (src/store/jobs.rs, src/store/commit.rs, src/store/projections.rs, src/store/events.rs).
    The declared table constraints are preconditions of the methods that write rows, so no statement
    here can trip one; the one that a validated batch can violate is tested and reported. */
module Connection {
  import opened Types
  import opened Messages
  import opened ByteOrder
  import opened Projections
  import opened Jobs
  import opened JobInvariant
  import opened Scheduler
  import opened Claims
  import opened ClaimPlan
  import opened JobHistory
  import opened Kernel
  import opened Recovery
  import opened Encoding
  import opened RequestDigest

  /** A result against its specification: the specified tables on success, the old ones on the specified error. */
  ghost predicate Realizes(r: Result<(), Error>, spec: Result<JobTables, Error>, before: JobTables, after: JobTables) {
    match spec
    case Ok(t) => r == Ok(()) && after == t
    case Err(e) => r == Err(e) && after == before
  }

  // ----- cached stream versions -----

  /** The database as it will be once the cached stream versions are written. */
  function Overlay(db: Db, cache: map<Text, nat>): Db { db.(streams := db.streams + cache) }

  lemma OverlayInv(db: Db, cache: map<Text, nat>)
    requires DbInv(Overlay(db, cache))
    ensures EventsInv(db.events, db.streams + cache) && JobsInv(db.tables)
  {
    hide EventsInv, JobsInv, SequencesDistinct, ReferencesKnown;
  }

  lemma PatchUnderOverlay(db: Db, cache: map<Text, nat>, p: Patch)
    ensures match ApplyPatch(db, p)
            case Ok(db') => ApplyPatch(Overlay(db, cache), p) == Ok(Overlay(db', cache)) && db'.streams == db.streams
            case Err(e) => ApplyPatch(Overlay(db, cache), p) == Err(e)
  {
    hide ApplyAll, ValidPatch;
  }

  predicate EventIdTakenBy(events: seq<EventRow>, id: Id)
    ensures EventIdTakenBy(events, id) <==> EventIdUsed(events, id)
  {
    exists row :: row in events && row.event.eventId == id
  }

  /** No stored version of a stream exceeds its current one. */
  lemma VersionsUsed(events: seq<EventRow>, streams: map<Text, nat>, i: nat)
    requires EventsInv(events, streams) && i < |events|
    ensures events[i].version <= VersionIn(streams, events[i].event.streamId)
  {
    var stream := events[i].event.streamId;
    assert StreamContiguous(events, streams, stream);
    InStreamIffEvent(events, stream, events[i]);
    var k :| 0 <= k < |StreamOf(events, stream)| && StreamOf(events, stream)[k] == events[i];
  }

  lemma NextVersionFree(events: seq<EventRow>, streams: map<Text, nat>, stream: Text)
    requires EventsInv(events, streams)
    ensures forall i :: 0 <= i < |events| && events[i].event.streamId == stream ==> events[i].version != VersionIn(streams, stream) + 1
  {
    hide EventsInv;
    forall i | 0 <= i < |events| && events[i].event.streamId == stream ensures events[i].version != VersionIn(streams, stream) + 1 {
      VersionsUsed(events, streams, i);
    }
  }

  /** An append under cached versions is an append to the database they stand for. */
  lemma AppendUnderOverlay(db: Db, cache: map<Text, nat>, tx: Id, e: Event)
    ensures var next := VersionIn(db.streams + cache, e.streamId) + 1;
            Append(Overlay(db, cache), tx, e) ==
            if next >= TWO_TO_64 then Err(Validation(VersionOverflow))
            else if EventIdUsed(db.events, e.eventId) then Err(EventIdTaken(e.eventId))
            else Ok(Overlay(db.(events := db.events + [EventRow(tx, next, e)]), cache[e.streamId := next]))
  {
    hide EventIdUsed;
    var next := VersionIn(db.streams + cache, e.streamId) + 1;
    assert (db.streams + cache)[e.streamId := next] == db.streams + cache[e.streamId := next];
  }

  // ----- replacing a projection -----

  lemma NextEntry(entries: seq<Entry>, i: nat)
    requires DistinctKeys(entries) && i < |entries|
    ensures entries[i].key !in FromEntries(entries[..i])
    ensures FromEntries(entries[..i + 1]) == FromEntries(entries[..i])[entries[i].key := entries[i].value]
  {
    assert entries[..i + 1][..i] == entries[..i];
    FromEntriesKeys(entries[..i]);
  }

  lemma ReplaceIsDistinct(ms: seq<Mutation>, i: nat)
    requires SeenAfter(ms).Some? && i < |ms| && ms[i].Replace?
    ensures DistinctKeys(ms[i].entries)
  {
    SeenMeans(ms);
    assert !Contradictory(ms, i);
  }

  class Transaction {
    var transactions: map<Id, TxRow>
    var events: seq<EventRow>
    var streams: map<Text, nat>
    var versions: map<Text, nat>
    var entries: map<Text, Contents>
    var jobs: map<Id, Job>
    var active: map<Place, nat>
    var cursors: map<Text, Text>
    var receipts: map<ReceiptKey, Receipt>

    function Tables(): JobTables
      reads this`jobs, this`active, this`cursors, this`receipts
    {
      JobTables(jobs, active, cursors, receipts)
    }

    function View(): Db
      reads this
    {
      Db(transactions, events, streams, versions, entries, Tables())
    }

    /** BEGIN IMMEDIATE: work on the durable tables. */
    constructor (db: Db)
      ensures View() == db
    {
      transactions, events, streams, versions, entries := db.transactions, db.events, db.streams, db.versions, db.entries;
      jobs, active, cursors, receipts := db.tables.jobs, db.tables.active, db.tables.cursors, db.tables.receipts;
    }

    // ----- job rows -----

    method UpdateJob(id: Id, j: Job)
      requires id in jobs && Checks(j)
      modifies `jobs
      ensures jobs == old(jobs)[id := j]
    {
      jobs := jobs[id := j];
    }

    /** DELETE the index row of a partition without unfinished jobs. */
    method DrainPartitionIfEmpty(queue: Text, key: Text)
      modifies `active
      ensures active == Drain(old(active), jobs, Place(queue, key))
    {
      if forall id :: id in jobs ==> !(Live(jobs[id]) && jobs[id].spec.queue == queue && jobs[id].spec.partitionKey == key) {
        active := active - {Place(queue, key)};
      }
    }

    method SetTerminal(id: Id, saved: Job, state: JobState, now: I64, tx: Id, digest: Option<Bytes>, summary: Option<Text>)
      requires id in jobs && Checks(jobs[id]) && state.IsTerminal()
      modifies `jobs, `active
      ensures jobs == old(jobs)[id := TerminalRow(old(jobs)[id], state, now, tx, digest, summary)]
      ensures active == Drain(old(active), jobs, PlaceOf(saved))
    {
      UpdateJob(id, TerminalRow(jobs[id], state, now, tx, digest, summary));
      DrainPartitionIfEmpty(saved.spec.queue, saved.spec.partitionKey);
    }

    method SetNonterminal(id: Id, state: JobState, retryAfter: Option<I64>, tx: Id)
      requires id in jobs && Checks(jobs[id]) && Live(jobs[id])
      requires state in {Pending, RetryWait, Uncertain} && (state.RetryWait? ==> retryAfter.Some?)
      modifies `jobs
      ensures jobs == old(jobs)[id := NonterminalRow(old(jobs)[id], state, retryAfter, tx)]
    {
      UpdateJob(id, NonterminalRow(jobs[id], state, retryAfter, tx));
    }

    // ----- the job operations of a commit -----

    /** INSERT INTO jobs: the id and the enqueue sequence must be new. */
    method InsertJob(j: Job)
      requires j.spec.jobId !in jobs && j.sequence !in Sequences(jobs) && Checks(j)
      modifies `jobs
      ensures jobs == old(jobs)[j.spec.jobId := j]
    {
      jobs := jobs[j.spec.jobId := j];
    }

    method ApplyEnqueue(tx: Id, spec: JobSpec) returns (r: Result<(), Error>)
      requires spec.maxAttempts > 0
      modifies `jobs, `active
      ensures Realizes(r, Enqueue(old(Tables()), tx, spec), old(Tables()), Tables())
    {
      if spec.jobId in jobs { return Err(Validation(JobExists)); }
      var sequence := MaxOrZero(Sequences(jobs)) + 1;
      InsertJob(NewJob(spec, sequence, tx));
      var place := Place(spec.queue, spec.partitionKey);
      if place !in active { active := active[place := sequence]; }
      return Ok(());
    }

    method ApplyAck(tx: Id, now: I64, ack: JobAck) returns (r: Result<(), Error>)
      requires JobsInv(Tables())
      modifies `jobs, `active
      ensures Realizes(r, Ack(old(Tables()), tx, now, ack), old(Tables()), Tables())
    {
      hide JobsInv, Drain;
      if ack.jobId !in jobs { return Err(Validation(JobMissing)); }
      var job := jobs[ack.jobId];
      var _ :- CheckTransition(ack.jobId, job, Succeeded);
      var _ :- CheckToken(job, ack.leaseToken);
      RowChecks(Tables(), ack.jobId);
      SetTerminal(ack.jobId, job, Succeeded, now, tx, ack.resultDigest, None);
      return Ok(());
    }

    method ApplyFail(tx: Id, now: I64, failure: JobFailure) returns (r: Result<(), Error>)
      requires JobsInv(Tables())
      modifies `jobs, `active
      ensures Realizes(r, Fail(old(Tables()), tx, now, failure), old(Tables()), Tables())
    {
      hide JobsInv, Drain;
      var id := failure.jobId;
      if id !in jobs { return Err(Validation(JobMissing)); }
      var job := jobs[id];
      var exhausted := job.attempt >= job.spec.maxAttempts;
      var _ :- CheckTransition(id, job, if exhausted then Dead else RetryWait);
      var _ :- CheckToken(job, failure.leaseToken);
      RowChecks(Tables(), id);
      if exhausted {
        SetTerminal(id, job, Dead, now, tx, None, Some(failure.errorSummary));
      } else {
        var retryAfter :- RetryTime(now, failure);
        SetNonterminal(id, RetryWait, Some(retryAfter), tx);
        UpdateJob(id, jobs[id].(errorSummary := Some(failure.errorSummary)));
      }
      return Ok(());
    }

    method ApplyCancel(tx: Id, now: I64, c: JobCancellation) returns (r: Result<(), Error>)
      requires JobsInv(Tables())
      modifies `jobs, `active
      ensures Realizes(r, Cancel(old(Tables()), tx, now, c), old(Tables()), Tables())
    {
      hide JobsInv, Drain;
      if c.jobId !in jobs { return Err(Validation(JobMissing)); }
      var job := jobs[c.jobId];
      var _ :- CheckTransition(c.jobId, job, Cancelled);
      match c.leaseToken {
        case Some(token) => var _ :- CheckToken(job, token);
        case None => if !job.state.Pending? { return Err(Validation(TokenRequired)); }
      }
      RowChecks(Tables(), c.jobId);
      SetTerminal(c.jobId, job, Cancelled, now, tx, None, None);
      return Ok(());
    }

    method ApplyResolve(tx: Id, now: I64, x: JobResolution) returns (r: Result<(), Error>)
      requires JobsInv(Tables())
      modifies `jobs, `active
      ensures Realizes(r, Resolve(old(Tables()), tx, now, x), old(Tables()), Tables())
    {
      hide JobsInv, Drain, Ascii;
      var id := x.jobId;
      if id !in jobs { return Err(Validation(JobMissing)); }
      var job := jobs[id];
      RowChecks(Tables(), id);
      match x.resolution {
        case Retry =>
          if job.attempt >= job.spec.maxAttempts {
            var _ :- CheckTransition(id, job, Dead);
            SetTerminal(id, job, Dead, now, tx, None, Some(Ascii("retry resolution exhausted max_attempts")));
          } else {
            var _ :- CheckTransition(id, job, Pending);
            SetNonterminal(id, Pending, None, tx);
          }
        case MarkSucceeded =>
          var _ :- CheckTransition(id, job, Succeeded);
          SetTerminal(id, job, Succeeded, now, tx, None, None);
        case MarkDead =>
          var _ :- CheckTransition(id, job, Dead);
          SetTerminal(id, job, Dead, now, tx, None, Some(Ascii("resolved as dead")));
      }
      return Ok(());
    }

    method ApplyExtendLease(now: I64, x: LeaseExtension) returns (r: Result<(nat, I64), LeaseConflict>)
      requires JobsInv(Tables())
      modifies `jobs, `receipts
      ensures match Extend(old(Tables()), now, x)
              case Ok(t) => r == Ok((old(jobs)[x.jobId].attempt, x.newExpiry)) && Tables() == t
              case Err(e) => r == Err(e) && Tables() == old(Tables())
    {
      hide JobsInv;
      if x.jobId !in jobs { return Err(JobNotFound(x.jobId)); }
      var job := jobs[x.jobId];
      if !job.state.Leased? { return Err(NotLeased(x.jobId, job.state)); }
      if job.leaseToken != Some(x.leaseToken) { return Err(InvalidToken(x.jobId)); }
      var current := if job.leaseExpires.Some? then job.leaseExpires.value else -TWO_TO_63;
      if now > current { return Err(Expired(x.jobId, current, now)); }
      if x.newExpiry <= current { return Err(ExpiryNotLater(x.jobId, current, x.newExpiry)); }
      RowChecks(Tables(), x.jobId);
      UpdateJob(x.jobId, jobs[x.jobId].(leaseExpires := Some(x.newExpiry)));
      receipts := ExtendReceipts(receipts, x.jobId, x.leaseToken, x.newExpiry);
      return Ok((job.attempt, x.newExpiry));
    }

    // ----- planning a claim -----

    /** SELECT .. ORDER BY lease_expires_at_ms LIMIT 64: rows of equal expiry come in any order. */
    method SelectExpired(req: ClaimRequest) returns (rows: seq<Job>)
      requires JobsInv(Tables())
      ensures IsExpiredPage(Tables(), req, rows)
    {
      hide JobsInv;
      var remaining := ExpiredIds(Tables(), req);
      rows := [];
      while remaining != {} && |rows| < MAINTENANCE_LIMIT
        invariant remaining <= ExpiredIds(Tables(), req)
        invariant SavedRows(jobs, rows)
        invariant RowIds(rows) == ExpiredIds(Tables(), req) - remaining
        invariant forall a, b :: a in RowIds(rows) && b in remaining ==> ExpiresBy(jobs, a, b)
        invariant |rows| <= MAINTENANCE_LIMIT
      {
        SoonestExists(jobs, remaining);
        var id :| id in remaining && forall x :: x in remaining ==> ExpiresBy(jobs, id, x);
        RowChecks(Tables(), id);
        AnotherRow(jobs, rows, jobs[id]);
        rows := rows + [jobs[id]];
        remaining := remaining - {id};
      }
      PageSize(rows, jobs);
      PageFromRows(Tables(), req, rows, remaining);
    }

    method PlanMaintenance(req: ClaimRequest) returns (actions: seq<MaintenanceAction>)
      requires JobsInv(Tables())
      ensures MaintenancePlan(Tables(), req, actions)
    {
      hide JobsInv, IsExpiredPage, MaintenancePlan;
      var rows := SelectExpired(req);
      actions := [];
      for i := 0 to |rows|
        invariant |actions| == i
        invariant forall k :: 0 <= k < i ==> actions[k] == MaintenanceAction(rows[k], RepairState(rows[k]))
      {
        var job := rows[i];
        var to := match job.spec.effectMode
                  case RequiresReconciliation => Uncertain
                  case ExplicitlyIdempotent => if job.attempt >= job.spec.maxAttempts then Dead else Pending;
        actions := actions + [MaintenanceAction(job, to)];
      }
      PlanFromRows(Tables(), req, rows, actions);
    }

    /** The active partitions of a queue, starting just after its cursor. */
    method RotatePartitions(queue: Text) returns (rotation: seq<Text>)
      ensures rotation == Rotation(InOrder(ActiveKeys(Tables(), queue)), CursorOf(Tables(), queue))
      ensures |rotation| == |ActiveKeys(Tables(), queue)|
    {
      var cursor := if queue in cursors then Some(cursors[queue]) else None;
      var partitions := InOrder(ActiveKeys(Tables(), queue));
      var start := if cursor.Some? then PartitionPoint(partitions, cursor.value) else 0;
      rotation := partitions[start..] + partitions[..start];
    }

    method ReadyJob(queue: Text, partition: Text, now: I64) returns (r: Option<Job>)
      requires JobsInv(Tables())
      ensures r.Some? <==> ReadyHead(Tables(), queue, now, partition)
      ensures r.Some? ==> r.value == jobs[Head(jobs, Place(queue, partition)).value]
    {
      hide JobsInv;
      var head := Head(jobs, Place(queue, partition));
      if head.None? { return None; }
      var job := jobs[head.value];
      var ready :=
        match job.state
        case Pending => job.spec.notBefore <= now
        case RetryWait => job.spec.notBefore <= now && (if job.retryAfter.Some? then job.retryAfter.value else -TWO_TO_63) <= now
        case _ => false;
      return if ready then Some(job) else None;
    }

    /** Walk the active partitions round-robin from the cursor, taking the ready heads until the limit.
        `ids` are the identifiers the generator hands out. */
    method PlanLeases(req: ClaimRequest, ids: seq<Id>) returns (leases: seq<ProposedLease>, lastLeased: Option<Text>)
      requires JobsInv(Tables()) && |ids| >= |ActiveKeys(Tables(), req.queue)|
      ensures LeasePlan(Tables(), req, ids, leases) && |leases| <= |ActiveKeys(Tables(), req.queue)|
      ensures lastLeased == if leases == [] then None else Some(PlannedKeys(Tables(), req)[|leases| - 1])
    {
      hide JobsInv, ActiveKeys, ReadyHead, LeasesOver, Walked, PlannedKeys, Rotation, CursorOf, InOrder, Head;
      ghost var t := Tables();
      var rotation := RotatePartitions(req.queue);
      ghost var planned: seq<Text> := [];
      leases, lastLeased := [], None;
      WalkStart(t, req, rotation);
      NoLeases(t, req, ids);
      if req.limit == 0 {
        WalkEnd(t, req, rotation, 0, planned);
        return;
      }
      var i := 0;
      while i < |rotation| && |leases| < req.limit
        invariant i <= |rotation| && |leases| <= i && |leases| == |planned| <= req.limit
        invariant Walked(t, req, rotation, i, planned)
        invariant LeasesOver(t, req, planned, ids, leases)
        invariant lastLeased == if planned == [] then None else Some(planned[|planned| - 1])
      {
        WalkStep(t, req, rotation, i, planned);
        var ready := ReadyJob(req.queue, rotation[i], req.now);
        if ready.Some? {
          AnotherLease(t, req, planned, ids, leases, rotation[i]);
          lastLeased := Some(rotation[i]);
          leases := leases + [ProposedLease(ready.value, ids[|leases|])];
          planned := planned + [rotation[i]];
        }
        i := i + 1;
      }
      WalkEnd(t, req, rotation, i, planned);
    }

    // ----- a claim -----

    /** INSERT INTO transactions: the id and the sequence must be new. */
    method InsertTransaction(id: Id, row: TxRow)
      requires id !in transactions && row.sequence !in TxSequences(transactions)
      modifies `transactions
      ensures transactions == old(transactions)[id := row]
    {
      transactions := transactions[id := row];
    }

    method InsertReceipt(k: ReceiptKey, receipt: Receipt)
      requires k !in receipts
      modifies `receipts
      ensures receipts == old(receipts)[k := receipt]
    {
      receipts := receipts[k := receipt];
    }

    /** Write the planned repairs, from the rows saved when they were planned. */
    method RepairLeases(req: ClaimRequest, tx: Id, actions: seq<MaintenanceAction>, ghost expires: I64) returns (r: Result<(), Error>)
      requires JobsInv(Tables()) && MaintenancePlan(Tables(), req, actions)
      modifies `jobs, `active
      ensures r == Ok(())
      ensures jobs == ClaimedJobs(old(jobs), WrittenClaim(req, tx, expires, SavedJobs(actions), []))
      ensures active == StillLive(old(active), jobs)
    {
      hide JobsInv, IsExpiredPage, WrittenClaim, ClaimedJobs, StillLive, Drain, Ascii;
      ghost var t, rows := Tables(), SavedJobs(actions);
      NothingWritten(t, req, tx, expires);
      assert rows[..0] == [];
      for i := 0 to |actions|
        invariant jobs == ClaimedJobs(t.jobs, WrittenClaim(req, tx, expires, rows[..i], []))
        invariant active == StillLive(t.active, jobs)
      {
        var action := actions[i];
        var id := action.job.spec.jobId;
        RepairOne(t, req, tx, expires, rows, i);
        DrainOne(t.active, jobs, id, RepairedRow(action.job, req.now, tx));
        assert action.job == rows[i];
        r := CheckTransition(id, action.job, action.to);
        if r.Err? { return; }
        if action.to.Dead? {
          SetTerminal(id, action.job, Dead, req.now, tx, None, Some(Ascii("lease expired at final attempt")));
        } else {
          SetNonterminal(id, action.to, None, tx);
        }
      }
      assert rows[..|rows|] == rows;
      return Ok(());
    }

    /** Write the planned leases and their receipts, from the rows saved when they were planned. */
    method GrantLeases(req: ClaimRequest, tx: Id, expires: I64, leases: seq<ProposedLease>,
                       ghost t: JobTables, ghost rows: seq<Job>, ghost ids: seq<Id>) returns (claimed: seq<Grant>)
      requires JobsInv(t) && IsExpiredPage(t, req, rows) && LeasePlan(t, req, ids, leases)
      requires forall k :: k in t.receipts ==> k.tx != tx
      requires jobs == ClaimedJobs(t.jobs, WrittenClaim(req, tx, expires, rows, [])) && receipts == t.receipts
      modifies `jobs, `receipts
      ensures jobs == ClaimedJobs(t.jobs, WrittenClaim(req, tx, expires, rows, leases))
      ensures receipts == t.receipts + NewReceipts(t.jobs, WrittenClaim(req, tx, expires, rows, leases))
      ensures |claimed| == |leases| && forall n :: 0 <= n < |leases| ==> claimed[n] == GrantFor(leases[n], req.worker, expires)
    {
      hide JobsInv, IsExpiredPage, LeasePlan, WrittenClaim, ClaimedJobs, NewReceipts;
      assert leases[..0] == [];
      NoReceipts(t.jobs, req, tx, expires, rows);
      claimed := [];
      for i := 0 to |leases|
        invariant jobs == ClaimedJobs(t.jobs, WrittenClaim(req, tx, expires, rows, leases[..i]))
        invariant receipts == t.receipts + NewReceipts(t.jobs, WrittenClaim(req, tx, expires, rows, leases[..i]))
        invariant |claimed| == i && forall n :: 0 <= n < i ==> claimed[n] == GrantFor(leases[n], req.worker, expires)
      {
        var lease := leases[i];
        var id := lease.job.spec.jobId;
        LeaseWritten(t, req, tx, expires, rows, ids, leases, i);
        var attempt := lease.job.attempt + 1;
        UpdateJob(id, jobs[id].(state := Leased, attempt := attempt, leaseToken := Some(lease.token), worker := Some(req.worker),
                                leaseExpires := Some(expires), retryAfter := None, updatedTx := tx));
        InsertReceipt(ReceiptKey(tx, id), Receipt(lease.token, attempt, req.worker, expires));
        claimed := claimed + [Grant(lease.job.spec.jobId, lease.job.spec.queue, lease.job.spec.partitionKey, lease.job.spec.payload,
                                    req.worker, lease.token, attempt, expires, lease.job.spec.idempotencyKey)];
      }
      assert leases[..|leases|] == leases;
    }

    /** Record a claim as a transaction; `checksum` stands in for the digest of a batch. */
    method InsertClaimTransaction(tx: Id, req: ClaimRequest, count: nat, checksum: Bytes)
      requires tx !in transactions
      modifies `transactions
      ensures transactions == old(transactions)[tx := TxRow(NextTxSequence(old(transactions)), req.now, checksum, count)]
    {
      var sequence := MaxOrZero(TxSequences(transactions)) + 1;
      InsertTransaction(tx, TxRow(sequence, req.now, checksum, count));
    }

    /** Write a planned claim: its transaction, the repairs, the leases with their receipts, the cursor. */
    method WriteClaim(req: ClaimRequest, expires: I64, maintenance: seq<MaintenanceAction>, leases: seq<ProposedLease>,
                      lastLeased: Option<Text>, tx: Id, checksum: Bytes, ghost ids: seq<Id>)
      returns (claimed: seq<Grant>)
      requires DbInv(View()) && FreshIds(View(), ids) && tx in ids && CheckRequest(req) == Ok(expires) && |checksum| == 16
      requires MaintenancePlan(Tables(), req, maintenance) && LeasePlan(Tables(), req, ids, leases)
      requires lastLeased == if leases == [] then None else Some(PlannedKeys(Tables(), req)[|leases| - 1])
      requires maintenance != [] || leases != []
      modifies this
      ensures var claim := WrittenClaim(req, tx, expires, SavedJobs(maintenance), leases);
              Enabled(old(View()), ClaimStep(claim, checksum)) && View() == After(old(View()), ClaimStep(claim, checksum))
      ensures |claimed| == |leases| && forall n :: 0 <= n < |leases| ==> claimed[n] == GrantFor(leases[n], req.worker, expires)
    {
      hide DbInv, JobsInv, MaintenancePlan, IsExpiredPage, LeasePlan, ClaimedJobs, StillLive, NewReceipts, Enabled, After,
           Claimable, FreshIds, PlannedKeys, NextTxSequence, CheckRequest, RowIds, GrantsOf, SavedJobs, GrantFor;
      ghost var db, rows := View(), SavedJobs(maintenance);
      ghost var claim := WrittenClaim(req, tx, expires, rows, leases);
      PlansSaved(db.tables, req, maintenance, ids, leases);
      PlanClaimable(db, req, expires, rows, ids, leases, tx);
      ReceiptsReferTo(db);
      InsertClaimTransaction(tx, req, |maintenance| + |leases|, checksum);
      var repaired := RepairLeases(req, tx, maintenance, expires);
      assert claim.(grants := map[]) == WrittenClaim(req, tx, expires, rows, []) by { NoGrants(); }
      GrantsKeepIndex(db.tables, claim);
      claimed := GrantLeases(req, tx, expires, leases, db.tables, rows, ids);
      if lastLeased.Some? { cursors := cursors[req.queue := lastLeased.value]; }
      ClaimWritten(db, claim, checksum, View());
    }

    /** Plan repairs and leases from the state before any write, then write both. `ids` are the identifiers
        the generator hands out. The claim that takes effect is one the specification allows; there is no
        conflict, and nothing happens only when nothing is expired and no head is ready (or the limit is 0). */
    method ClaimJobs(req: ClaimRequest, ids: seq<Id>, checksum: Bytes) returns (r: Result<ClaimOutcome, Error>, ghost claim: Claim)
      requires DbInv(View()) && FreshIds(View(), ids) && |ids| > |ActiveKeys(Tables(), req.queue)| && |checksum| == 16
      modifies this
      ensures match CheckRequest(req)
              case Err(e) => r == Err(e) && View() == old(View())
              case Ok(_) => r.Ok? && ClaimDone(old(View()), View(), req, claim, checksum, r.value)
    {
      hide DbInv, JobsInv, MaintenancePlan, IsExpiredPage, LeasePlan, Enabled, After, Claimable, FreshIds, PlannedKeys, ActiveKeys,
           ExpiredIds, PlannedJobs, Reports, RowIds, GrantsOf, SavedJobs, GrantFor;
      claim := Claim(req, ZERO_ID, 0, {}, map[]);
      if req.queue == [] { return Err(Validation(EmptyQueue)), claim; }
      if req.worker == [] { return Err(Validation(EmptyWorker)), claim; }
      if req.leaseMs <= 0 { return Err(Validation(LeaseNotPositive)), claim; }
      if !FitsI64(req.now + req.leaseMs) { return Err(Validation(ExpiryOverflow)), claim; }
      var expires := req.now + req.leaseMs;
      ghost var t := Tables();
      ReceiptsReferTo(View());
      var maintenance := PlanMaintenance(req);
      var leases, lastLeased := PlanLeases(req, ids);
      PlansSaved(t, req, maintenance, ids, leases);
      if maintenance == [] && leases == [] {
        NothingPlanned(t, req, ids);
        return Ok(Noop), claim;
      }
      var tx := ids[|leases|];
      claim := WrittenClaim(req, tx, expires, SavedJobs(maintenance), leases);
      var claimed := WriteClaim(req, expires, maintenance, leases, lastLeased, tx, checksum, ids);
      PlanReported(t, req, tx, expires, SavedJobs(maintenance), ids, leases, claimed);
      return Ok(if claimed == [] then Maintained(tx) else Claimed(tx, claimed)), claim;
    }

    // ----- recovery -----

    /** SELECT .. FROM claim_receipts JOIN jobs .. ORDER BY job_id, split by whether each lease is still current. */
    method RecoverClaim(tx: Id, now: I64) returns (r: ClaimRecovery)
      requires JobsInv(Tables())
      ensures Recovers(View(), tx, now, r)
    {
      hide JobsInv, Splits;
      ghost var t := Tables();
      var rows := IdsInOrder(LeasedBy(Tables(), tx));
      var executable: seq<Grant>, stale: seq<Id> := [], [];
      assert rows[..0] == [];
      NothingSplit(t, tx, now);
      for i := 0 to |rows|
        invariant Splits(t, tx, now, rows[..i], executable, stale)
      {
        var id := rows[i];
        assert id in rows;
        LeasedByMeans(t, tx, id);
        var receipt, job := receipts[ReceiptKey(tx, id)], jobs[id];
        var stillCurrent := job.state.Leased? && job.leaseToken == Some(receipt.token)
          && job.leaseExpires.Some? && job.leaseExpires.value >= now;
        SplitOne(t, tx, now, rows, i, executable, stale);
        if stillCurrent {
          executable := executable + [GrantOf(job, receipt)];
        } else {
          stale := stale + [id];
        }
      }
      assert rows[..|rows|] == rows;
      if rows != [] { return Committed(executable, stale); }
      return if tx in transactions then MaintenanceCommitted else Absent;
    }

    // ----- projections -----

    /** INSERT INTO projection_entries: the key must be absent. */
    method InsertEntry(projection: Text, key: Bytes, value: Bytes)
      requires projection in entries && key !in entries[projection]
      modifies `entries
      ensures entries == old(entries)[projection := old(entries)[projection][key := value]]
    {
      entries := entries[projection := entries[projection][key := value]];
    }

    method ReplaceEntries(projection: Text, replacement: seq<Entry>)
      requires projection in entries && DistinctKeys(replacement)
      modifies `entries
      ensures entries == old(entries)[projection := FromEntries(replacement)]
    {
      entries := entries[projection := map[]];
      assert replacement[..0] == [];
      for i := 0 to |replacement|
        invariant entries == old(entries)[projection := FromEntries(replacement[..i])]
      {
        NextEntry(replacement, i);
        InsertEntry(projection, replacement[i].key, replacement[i].value);
      }
      assert replacement[..|replacement|] == replacement;
    }

    method ApplyMutations(projection: Text, ms: seq<Mutation>)
      requires projection in entries && SeenAfter(ms).Some?
      modifies `entries
      ensures entries == old(entries)[projection := ApplyAll(ms, old(entries)[projection])]
    {
      ghost var base := entries[projection];
      assert ms[..0] == [];
      for i := 0 to |ms|
        invariant entries == old(entries)[projection := ApplyAll(ms[..i], base)]
      {
        assert ms[..i + 1][..i] == ms[..i];
        match ms[i] {
          case Put(key, value) => entries := entries[projection := entries[projection][key := value]];
          case Delete(key) => entries := entries[projection := entries[projection] - {key}];
          case Clear => entries := entries[projection := map[]];
          case Replace(replacement) =>
            ReplaceIsDistinct(ms, i);
            ReplaceEntries(projection, replacement);
        }
      }
      assert ms[..|ms|] == ms;
    }

    method ApplyProjectionPatch(p: Patch) returns (r: Result<(), Error>)
      modifies `versions, `entries
      ensures match ApplyPatch(old(View()), p)
              case Ok(db) => r == Ok(()) && View() == db
              case Err(e) => r == Err(e) && View() == old(View())
    {
      hide SeenAfter, ApplyAll, Accepted;
      var valid := ValidatePatch(p);
      if !valid { return Err(Validation(BadPatch)); }
      var actual := VersionIn(versions, p.projection);
      if actual != p.expectedVersion {
        return Err(Conflicting(ProjectionVersion(p.projection, p.expectedVersion, actual)));
      }
      versions := versions[p.projection := p.newVersion];
      if p.projection !in entries { entries := entries[p.projection := map[]]; }
      ApplyMutations(p.projection, p.mutations);
      return Ok(());
    }

    // ----- events -----

    /** INSERT INTO events: UNIQUE(event_id) and UNIQUE(stream_id, stream_version). */
    method InsertEvent(row: EventRow)
      requires !EventIdUsed(events, row.event.eventId)
      requires forall i :: 0 <= i < |events| && events[i].event.streamId == row.event.streamId ==> events[i].version != row.version
      modifies `events
      ensures events == old(events) + [row]
    {
      events := events + [row];
    }

    /** Append at the version after the cached one; a stream not yet cached is read from its table row. */
    method AppendToStream(tx: Id, e: Event, cache: map<Text, nat>) returns (r: Result<map<Text, nat>, Error>)
      requires EventsInv(events, streams + cache)
      modifies `events
      ensures match Append(Overlay(old(View()), cache), tx, e)
              case Ok(db) => r.Ok? && Overlay(View(), r.value) == db
              case Err(x) => r == Err(x)
    {
      hide EventsInv, EventIdUsed, Append;
      AppendUnderOverlay(View(), cache, tx, e);
      var current := if e.streamId in cache then cache[e.streamId] else VersionIn(streams, e.streamId);
      var next := current + 1;
      if next >= TWO_TO_64 { return Err(Validation(VersionOverflow)); }
      if EventIdTakenBy(events, e.eventId) { return Err(EventIdTaken(e.eventId)); }
      NextVersionFree(events, streams + cache, e.streamId);
      InsertEvent(EventRow(tx, next, e));
      return Ok(cache[e.streamId := next]);
    }

    // ----- the commit pipeline -----

    method ValidateBatch(limits: Limits, batch: CommitBatch) returns (r: Result<(), Error>)
      ensures r == Validate(limits, batch)
    {
      if batch.transactionId == ZERO_ID { return Err(Validation(ZeroId)); }
      var _ :- CheckSize(|batch.operations|, limits.operationsPerCommit);
      var _ :- CheckSize(|batch.metadata|, limits.metadata);
      var expected, ops := batch.expected, batch.operations;
      for i := 0 to |expected|
        invariant forall j :: 0 <= j < i ==> |expected[j].streamId| <= limits.stringLength
      {
        if |expected[i].streamId| > limits.stringLength {
          assert expected[i] in expected;
          return Err(Validation(TooLarge));
        }
      }
      for i := 0 to |ops|
        invariant ValidateOperations(limits, ops) == ValidateOperations(limits, ops[i..])
      {
        assert ops[i..][1..] == ops[i + 1..];
        var _ :- ValidateOperation(limits, ops[i]);
      }
      return Ok(());
    }

    method ApplyJobOperation(tx: Id, now: I64, op: Operation) returns (r: Result<(), Error>)
      requires IsJobOp(op) && JobsInv(Tables()) && EnqueueAdmissible(op)
      modifies `jobs, `active, `receipts
      ensures Realizes(r, JobOp(old(Tables()), tx, now, op), old(Tables()), Tables())
    {
      hide JobsInv, Enqueue, Ack, Fail, Cancel, Resolve, Extend;
      match op {
        case EnqueueJob(spec) => r := ApplyEnqueue(tx, spec);
        case AckJob(ack) => r := ApplyAck(tx, now, ack);
        case FailJob(failure) => r := ApplyFail(tx, now, failure);
        case CancelJob(c) => r := ApplyCancel(tx, now, c);
        case ResolveJob(x) => r := ApplyResolve(tx, now, x);
        case ExtendLease(x) =>
          var extended := ApplyExtendLease(now, x);
          r := match extended
               case Ok(_) => Ok(())
               case Err(c) => Err(Conflicting(Lease(c)));
      }
    }

    /** One operation of a batch, with the stream versions cached so far. */
    method ApplyBatchOperation(tx: Id, now: I64, op: Operation, cache: map<Text, nat>) returns (r: Result<map<Text, nat>, Error>)
      requires DbInv(Overlay(View(), cache)) && EnqueueAdmissible(op)
      modifies this
      ensures match ApplyOperation(Overlay(old(View()), cache), tx, now, op)
              case Ok(db) => r.Ok? && Overlay(View(), r.value) == db && streams == old(streams)
              case Err(e) => r == Err(e)
    {
      hide DbInv, JobsInv, EventsInv, JobOp, Append, ApplyPatch;
      OverlayInv(View(), cache);
      if op.AppendEvent? {
        r := AppendToStream(tx, op.event, cache);
      } else if op.ProjectionPatch? {
        PatchUnderOverlay(View(), cache, op.patch);
        var _ :- ApplyProjectionPatch(op.patch);
        r := Ok(cache);
      } else {
        var _ :- ApplyJobOperation(tx, now, op);
        r := Ok(cache);
      }
    }

    /** Check the expected stream versions against the table, caching each. */
    method CheckExpected(expected: seq<ExpectedStreamVersion>) returns (r: Result<map<Text, nat>, Error>)
      ensures match ExpectAll(streams, expected)
              case Ok(all) => r.Ok? && streams + r.value == all
              case Err(e) => r == Err(e)
    {
      var cache: map<Text, nat> := map[];
      assert streams + cache == streams;
      for i := 0 to |expected|
        invariant ExpectAll(streams, expected) == ExpectAll(streams + cache, expected[i..])
        invariant forall s :: s in cache ==> cache[s] == VersionIn(streams, s)
      {
        var e := expected[i];
        assert expected[i..][1..] == expected[i + 1..];
        var actual := VersionIn(streams, e.streamId);
        assert VersionIn(streams + cache, e.streamId) == actual;
        if actual != e.version { return Err(Conflicting(StreamVersion(e.streamId, e.version, actual))); }
        assert (streams + cache)[e.streamId := actual] == streams + cache[e.streamId := actual];
        cache := cache[e.streamId := actual];
      }
      return Ok(cache);
    }

    /** Write every cached stream version to the table. */
    method WriteStreams(cache: map<Text, nat>)
      modifies `streams
      ensures streams == old(streams) + cache
    {
      var left := cache.Keys;
      while left != {}
        invariant left <= cache.Keys && streams + cache == old(streams) + cache
        invariant forall s :: s in cache && s !in left ==> s in streams && streams[s] == cache[s]
      {
        var s :| s in left;
        streams := streams[s := cache[s]];
        left := left - {s};
      }
      assert streams == streams + cache;
    }

    method ApplyBatch(tx: Id, now: I64, ops: seq<Operation>, versions0: map<Text, nat>) returns (r: Result<map<Text, nat>, Error>)
      requires DbInv(Overlay(View(), versions0)) && Admissible(ops) && tx in transactions
      modifies this
      ensures match ApplyOperations(Overlay(old(View()), versions0), tx, now, ops)
              case Ok(db) => r.Ok? && Overlay(View(), r.value) == db
              case Err(e) => r == Err(e)
    {
      hide DbInv, ApplyOperation, EnqueueAdmissible;
      ghost var start := Overlay(View(), versions0);
      var cache := versions0;
      assert ops[0..] == ops;
      for i := 0 to |ops|
        invariant DbInv(Overlay(View(), cache)) && tx in transactions
        invariant Admissible(ops[i..])
        invariant ApplyOperations(start, tx, now, ops) == ApplyOperations(Overlay(View(), cache), tx, now, ops[i..])
      {
        assert ops[i..][1..] == ops[i + 1..];
        ghost var before := Overlay(View(), cache);
        cache :- ApplyBatchOperation(tx, now, ops[i], cache);
        OperationKeepsInv(before, tx, now, ops[i]);
      }
      return Ok(cache);
    }

    /** The commit pipeline: idempotent resubmission, expected versions, the transactions row, every operation,
        and the streams table last. `pending` says whether there is anything to COMMIT. On an error the
        transaction is abandoned and its tables are of no account. */
    method Commit(limits: Limits, batch: CommitBatch) returns (r: Result<CommitReceipt, Error>, pending: bool)
      requires DbInv(View()) && |Encode(batch)| < 0x2000_0000_0000_0000
      modifies this
      ensures match Submit(old(View()), Submission(batch, DigestOf(batch), limits))
              case Ok((db, receipt)) => r == Ok(receipt) && View() == db && (pending <==> batch.transactionId !in old(transactions))
              case Err(e) => r == Err(e)
    {
      hide DbInv, Validate, Admissible, ApplyOperations, ExpectAll, NextTxSequence, DigestOf, Encode;
      ghost var db := View();
      pending := false;
      var valid := ValidateBatch(limits, batch);
      if valid.Err? { return Err(valid.error), false; }
      var digest := ComputeDigest(batch);
      var id := batch.transactionId;
      if id in transactions {
        if transactions[id].digest == digest {
          return Ok(CommitReceipt(id, transactions[id].sequence, transactions[id].committedAt)), false;
        }
        return Err(DuplicateIdWithDifferentContent), false;
      }
      var expected := CheckExpected(batch.expected);
      if expected.Err? { return Err(expected.error), false; }
      var sequence := InsertBatchTransaction(batch, digest);
      OpenedInv(db, Submission(batch, digest, limits));
      assert Overlay(View(), expected.value) == Opened(db, Submission(batch, digest, limits));
      var applied := ApplyBatch(id, batch.committedAt, batch.operations, expected.value);
      if applied.Err? { return Err(applied.error), false; }
      WriteStreams(applied.value);
      return Ok(CommitReceipt(id, sequence, batch.committedAt)), true;
    }

    method InsertBatchTransaction(batch: CommitBatch, digest: Bytes) returns (sequence: nat)
      requires batch.transactionId !in transactions
      modifies `transactions
      ensures sequence == NextTxSequence(old(transactions))
      ensures transactions ==
              old(transactions)[batch.transactionId := TxRow(sequence, batch.committedAt, digest, |batch.operations|)]
    {
      sequence := MaxOrZero(TxSequences(transactions)) + 1;
      InsertTransaction(batch.transactionId, TxRow(sequence, batch.committedAt, digest, |batch.operations|));
    }

    method RecoverTransaction(id: Id) returns (r: Option<CommitReceipt>)
      ensures r == Recovered(View(), id)
    {
      if id !in transactions { return None; }
      return Some(CommitReceipt(id, transactions[id].sequence, transactions[id].committedAt));
    }
  }
}
