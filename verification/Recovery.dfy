/** What recovery reports about a transaction whose outcome the caller was not told
    (src/store/commit.rs, src/store/jobs.rs). */
module Recovery {
  import opened Types
  import opened Messages
  import opened Jobs
  import opened JobInvariant
  import opened Claims
  import opened JobHistory
  import opened Kernel

  function Recovered(db: Db, id: Id): Option<CommitReceipt> {
    if id in db.transactions then Some(ReceiptOf(id, db.transactions[id])) else None
  }

  // ----- recovering an indeterminate claim -----

  /** A grant rebuilt from a durable receipt. */
  datatype Grant = Grant(
    jobId: Id, queue: Text, partitionKey: Text, payload: Bytes, worker: Text, token: Id,
    attempt: nat, expires: I64, idempotencyKey: Option<Text>)

  datatype ClaimRecovery =
    | Committed(executable: seq<Grant>, stale: seq<Id>)
    | MaintenanceCommitted
    | Absent

  function GrantOf(j: Job, r: Receipt): Grant {
    Grant(j.spec.jobId, j.spec.queue, j.spec.partitionKey, j.spec.payload, r.worker, r.token, r.attempt, r.expires,
          j.spec.idempotencyKey)
  }

  /** claim_receipts JOIN jobs, for one transaction. */
  function LeasedBy(t: JobTables, tx: Id): set<Id> {
    set k | k in t.receipts && k.tx == tx && k.job in t.jobs :: k.job
  }

  predicate StillCurrent(j: Job, r: Receipt, now: I64) {
    j.state.Leased? && j.leaseToken == Some(r.token) && j.leaseExpires.Some? && j.leaseExpires.value >= now
  }

  lemma LeasedByMeans(t: JobTables, tx: Id, id: Id)
    ensures id in LeasedBy(t, tx) <==> ReceiptKey(tx, id) in t.receipts && id in t.jobs
  {
    if ReceiptKey(tx, id) in t.receipts && id in t.jobs { assert ReceiptKey(tx, id).job in LeasedBy(t, tx); }
  }

  /** What recovery reports as executable is the lease the job holds now: token, worker, attempt and
      (extended) expiry, unexpired. */
  lemma RecoveredGrantIsTheLease(t: JobTables, k: ReceiptKey, now: I64)
    requires JobsInv(t) && k in t.receipts && StillCurrent(t.jobs[k.job], t.receipts[k], now)
    ensures var g, j := GrantOf(t.jobs[k.job], t.receipts[k]), t.jobs[k.job];
            && g.jobId == k.job && j.state.Leased? && g.attempt == j.attempt
            && j.leaseToken == Some(g.token) && j.worker == Some(g.worker) && j.leaseExpires == Some(g.expires)
            && g.expires >= now
  {
    hide Fifo, ReceiptsOk;
    assert k.job in t.jobs by { KnownJob(t, k); }
    TokenNamesLatest(t, k);
  }

  lemma KnownJob(t: JobTables, k: ReceiptKey)
    requires JobsInv(t) && k in t.receipts
    ensures k.job in t.jobs && RowOk(k.job, t.jobs[k.job])
  {}

  /** At any time a lease is either repairable by maintenance or current for extension and recovery, never both. */
  lemma RepairableXorCurrent(t: JobTables, k: ReceiptKey, now: I64)
    requires JobsInv(t) && k in t.receipts && t.jobs[k.job].leaseToken == Some(t.receipts[k].token)
    ensures IsExpired(t.jobs[k.job], now) <==> !StillCurrent(t.jobs[k.job], t.receipts[k], now)
    ensures forall newExpiry: I64 ::
              CheckExtension(t, now, LeaseExtension(k.job, t.receipts[k].token, newExpiry)).Ok? <==>
              StillCurrent(t.jobs[k.job], t.receipts[k], now) && newExpiry > t.receipts[k].expires
  {
    hide Fifo, ReceiptsOk;
    KnownJob(t, k);
    TokenNamesLatest(t, k);
  }

  // ----- splitting the leases of a claim -----

  predicate LeastId(m: Id, s: set<Id>) { m in s && forall x :: x in s ==> m <= x }

  lemma LeastIdExists(s: set<Id>)
    requires s != {}
    ensures exists m :: LeastId(m, s)
  {
    var x :| x in s;
    var rest := s - {x};
    assert forall y :: y in s ==> y == x || y in rest;
    if rest == {} {
      assert LeastId(x, s);
    } else {
      LeastIdExists(rest);
      var m :| LeastId(m, rest);
      assert LeastId(if m < x then m else x, s);
    }
  }

  ghost predicate IdsAscend(s: seq<Id>) { forall i, j :: 0 <= i < j < |s| ==> s[i] < s[j] }

  /** ORDER BY job_id */
  function IdsInOrder(s: set<Id>): (r: seq<Id>)
    ensures IdsAscend(r) && forall id :: id in r <==> id in s
  {
    if s == {} then []
    else
      LeastIdExists(s);
      var m :| LeastId(m, s);
      [m] + IdsInOrder(s - {m})
  }

  predicate IsCurrent(t: JobTables, tx: Id, now: I64, id: Id) {
    id in t.jobs && ReceiptKey(tx, id) in t.receipts && StillCurrent(t.jobs[id], t.receipts[ReceiptKey(tx, id)], now)
  }

  predicate Rebuilds(t: JobTables, tx: Id, now: I64, g: Grant) {
    IsCurrent(t, tx, now, g.jobId) && g == GrantOf(t.jobs[g.jobId], t.receipts[ReceiptKey(tx, g.jobId)])
  }

  /** The leases of these jobs, split: the current ones with their grants rebuilt, the others named; each in order. */
  ghost predicate Splits(t: JobTables, tx: Id, now: I64, ids: seq<Id>, executable: seq<Grant>, stale: seq<Id>) {
    && (forall n :: 0 <= n < |executable| ==> executable[n].jobId in ids && Rebuilds(t, tx, now, executable[n]))
    && (forall i, j :: 0 <= i < j < |executable| ==> executable[i].jobId < executable[j].jobId)
    && (forall id :: id in stale <==> id in ids && !IsCurrent(t, tx, now, id))
    && IdsAscend(stale)
    && (forall id :: id in ids && IsCurrent(t, tx, now, id) ==> exists n :: 0 <= n < |executable| && executable[n].jobId == id)
  }

  /** What recovery of a claim answers. */
  ghost predicate Recovers(db: Db, tx: Id, now: I64, r: ClaimRecovery) {
    match r
    case Committed(executable, stale) =>
      LeasedBy(db.tables, tx) != {} && exists ids ::
        (forall id :: id in ids <==> id in LeasedBy(db.tables, tx)) && Splits(db.tables, tx, now, ids, executable, stale)
    case MaintenanceCommitted => LeasedBy(db.tables, tx) == {} && tx in db.transactions
    case Absent => LeasedBy(db.tables, tx) == {} && tx !in db.transactions
  }

  lemma NothingSplit(t: JobTables, tx: Id, now: I64)
    ensures Splits(t, tx, now, [], [], [])
  {}

  lemma SplitCurrent(t: JobTables, tx: Id, now: I64, ids: seq<Id>, id: Id, executable: seq<Grant>, stale: seq<Id>)
    requires Splits(t, tx, now, ids, executable, stale) && forall x :: x in ids ==> x < id
    requires IsCurrent(t, tx, now, id) && t.jobs[id].spec.jobId == id
    ensures Splits(t, tx, now, ids + [id], executable + [GrantOf(t.jobs[id], t.receipts[ReceiptKey(tx, id)])], stale)
  {
    var g := GrantOf(t.jobs[id], t.receipts[ReceiptKey(tx, id)]);
    var all := executable + [g];
    assert Rebuilds(t, tx, now, g) && all[|executable|] == g;
    hide IsCurrent, Rebuilds;
    forall x | x in ids + [id] && IsCurrent(t, tx, now, x) ensures exists n :: 0 <= n < |all| && all[n].jobId == x {
      if x in ids {
        var n :| 0 <= n < |executable| && executable[n].jobId == x;
        assert all[n].jobId == x;
      }
    }
  }

  lemma SplitStale(t: JobTables, tx: Id, now: I64, ids: seq<Id>, id: Id, executable: seq<Grant>, stale: seq<Id>)
    requires Splits(t, tx, now, ids, executable, stale) && forall x :: x in ids ==> x < id
    requires !IsCurrent(t, tx, now, id)
    ensures Splits(t, tx, now, ids + [id], executable, stale + [id])
  {
    hide IsCurrent, Rebuilds;
    var all := stale + [id];
    forall x ensures x in all <==> x in ids + [id] && !IsCurrent(t, tx, now, x) {
      assert x in all <==> x in stale || x == id;
    }
    forall i, j | 0 <= i < j < |all| ensures all[i] < all[j] {
      assert all[i] in stale;
    }
  }

  /** The next job in order goes to one side or the other. */
  lemma SplitOne(t: JobTables, tx: Id, now: I64, ids: seq<Id>, i: nat, executable: seq<Grant>, stale: seq<Id>)
    requires JobsInv(t) && i < |ids| && IdsAscend(ids) && Splits(t, tx, now, ids[..i], executable, stale)
    requires ids[i] in t.jobs && ReceiptKey(tx, ids[i]) in t.receipts
    ensures var id := ids[i];
            if IsCurrent(t, tx, now, id)
            then Splits(t, tx, now, ids[..i + 1], executable + [GrantOf(t.jobs[id], t.receipts[ReceiptKey(tx, id)])], stale)
            else Splits(t, tx, now, ids[..i + 1], executable, stale + [id])
  {
    hide JobsInv, IsCurrent, Splits;
    var id := ids[i];
    RowChecks(t, id);
    assert ids[..i + 1] == ids[..i] + [id];
    if IsCurrent(t, tx, now, id) {
      SplitCurrent(t, tx, now, ids[..i], id, executable, stale);
    } else {
      SplitStale(t, tx, now, ids[..i], id, executable, stale);
    }
  }

  // ----- a claim and its recovery -----

  lemma ClaimTxIsNew(t: JobTables, c: Claim)
    requires Claimable(t, c)
    ensures forall k :: k in t.receipts ==> k.tx != c.tx
  {
    hide PlannedJobs, FreshTokens, ExpiredPage, CheckRequest;
  }

  lemma ClaimReceiptKeys(t: JobTables, c: Claim, id: Id)
    requires JobsInv(t) && Claimable(t, c)
    ensures var t', k := ClaimEffect(t, c), ReceiptKey(c.tx, id);
            && (k in t'.receipts <==> id in c.grants && id in t.jobs) && t'.jobs.Keys == t.jobs.Keys
            && (k in t'.receipts ==> t'.receipts[k] == Receipt(c.grants[id], t.jobs[id].attempt + 1, c.req.worker, c.expires))
    ensures id in c.grants ==> id in t.jobs && id !in c.repairs
  {
    hide JobsInv, Claimable, AdvanceCursor, StillLive, NewReceipts, ClaimedRow;
    ClaimTxIsNew(t, c);
    if id in c.grants { GrantIsLive(t, c, id); }
    NewReceiptsHold(t.jobs, c, ReceiptKey(c.tx, id));
  }

  /** Straight after a claim its receipts name exactly the jobs it granted; each is current until the lease
      expires, and the rebuilt grant is the one the claim hands out. */
  lemma ClaimRecoverable(t: JobTables, c: Claim, id: Id, now: I64)
    requires JobsInv(t) && Claimable(t, c)
    ensures var t' := ClaimEffect(t, c);
            && (id in LeasedBy(t', c.tx) <==> id in c.grants)
            && (id in c.grants ==>
                  && id in t.jobs && (IsCurrent(t', c.tx, now, id) <==> now <= c.expires)
                  && GrantOf(t'.jobs[id], t'.receipts[ReceiptKey(c.tx, id)])
                     == GrantOf(t.jobs[id], Receipt(c.grants[id], t.jobs[id].attempt + 1, c.req.worker, c.expires)))
  {
    hide JobsInv, Claimable, AdvanceCursor, StillLive, NewReceipts, LeasedBy, RepairedRow;
    ClaimReceiptKeys(t, c, id);
    LeasedByMeans(ClaimEffect(t, c), c.tx, id);
  }
}
