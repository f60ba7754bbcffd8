/** The plans a claim saves before it writes anything, and why writing the saved rows one after another
    adds up to the claim as specified (src/store/jobs.rs). */
module ClaimPlan {
  import opened Types
  import opened Messages
  import opened Jobs
  import opened JobInvariant
  import opened ByteOrder
  import opened Scheduler
  import opened Claims
  import opened JobHistory
  import opened Kernel
  import opened Recovery

  // ----- what planning saves for later -----

  /** A maintenance transition planned from the state before any write. */
  datatype MaintenanceAction = MaintenanceAction(job: Job, to: JobState)

  /** A lease planned from the state before any write. */
  datatype ProposedLease = ProposedLease(job: Job, token: Id)

  function RowIds(rows: seq<Job>): set<Id> { set i | 0 <= i < |rows| :: rows[i].spec.jobId }

  /** Rows as they stand in the table, each once. */
  ghost predicate SavedRows(jobs: map<Id, Job>, rows: seq<Job>) {
    && (forall i :: 0 <= i < |rows| ==> rows[i].spec.jobId in jobs && jobs[rows[i].spec.jobId] == rows[i])
    && (forall i, j :: 0 <= i < j < |rows| ==> rows[i].spec.jobId != rows[j].spec.jobId)
  }

  ghost predicate IsExpiredPage(t: JobTables, req: ClaimRequest, rows: seq<Job>) {
    SavedRows(t.jobs, rows) && ExpiredPage(t, req, RowIds(rows)) && |rows| == |RowIds(rows)|
  }

  function SavedJobs(actions: seq<MaintenanceAction>): seq<Job> { seq(|actions|, i requires 0 <= i < |actions| => actions[i].job) }

  ghost predicate MaintenancePlan(t: JobTables, req: ClaimRequest, actions: seq<MaintenanceAction>) {
    && IsExpiredPage(t, req, SavedJobs(actions))
    && forall i :: 0 <= i < |actions| ==> actions[i].to == RepairState(actions[i].job)
  }

  /** The n-th lease is of the head of the n-th partition, under the n-th identifier drawn. */
  ghost predicate LeasesOver(t: JobTables, req: ClaimRequest, planned: seq<Text>, ids: seq<Id>, leases: seq<ProposedLease>) {
    && |leases| == |planned| <= |ids|
    && forall n :: 0 <= n < |leases| ==>
         && ReadyHead(t, req.queue, req.now, planned[n])
         && leases[n] == ProposedLease(t.jobs[Head(t.jobs, Place(req.queue, planned[n])).value], ids[n])
  }

  ghost predicate LeasePlan(t: JobTables, req: ClaimRequest, ids: seq<Id>, leases: seq<ProposedLease>) {
    LeasesOver(t, req, PlannedKeys(t, req), ids, leases)
  }

  predicate ExpiresBy(jobs: map<Id, Job>, a: Id, b: Id) {
    a in jobs && b in jobs && jobs[a].leaseExpires.Some? && jobs[b].leaseExpires.Some?
    && jobs[a].leaseExpires.value <= jobs[b].leaseExpires.value
  }

  lemma SoonestExists(jobs: map<Id, Job>, s: set<Id>)
    requires s != {} && forall x :: x in s ==> x in jobs && jobs[x].leaseExpires.Some?
    ensures exists id :: id in s && forall x :: x in s ==> ExpiresBy(jobs, id, x)
  {
    var x :| x in s;
    var rest := s - {x};
    assert forall y :: y in s ==> y == x || y in rest;
    if rest == {} {
      assert ExpiresBy(jobs, x, x);
    } else {
      SoonestExists(jobs, rest);
      var id :| id in rest && forall y :: y in rest ==> ExpiresBy(jobs, id, y);
      var best := if jobs[x].leaseExpires.value < jobs[id].leaseExpires.value then x else id;
      forall y | y in s ensures ExpiresBy(jobs, best, y) {
        if y in rest { assert ExpiresBy(jobs, id, y); }
      }
    }
  }

  lemma AnotherRow(jobs: map<Id, Job>, rows: seq<Job>, row: Job)
    requires SavedRows(jobs, rows) && row.spec.jobId in jobs && jobs[row.spec.jobId] == row && row.spec.jobId !in RowIds(rows)
    ensures SavedRows(jobs, rows + [row]) && RowIds(rows + [row]) == RowIds(rows) + {row.spec.jobId}
  {
    var all := rows + [row];
    forall id ensures id in RowIds(all) <==> id in RowIds(rows) || id == row.spec.jobId {
      if id in RowIds(rows) {
        var i :| 0 <= i < |rows| && rows[i].spec.jobId == id;
        assert all[i].spec.jobId == id;
      }
      assert all[|rows|].spec.jobId == row.spec.jobId;
    }
    assert forall i :: 0 <= i < |rows| ==> rows[i].spec.jobId in RowIds(rows);
  }

  lemma {:induction false} PageSize(rows: seq<Job>, jobs: map<Id, Job>)
    requires SavedRows(jobs, rows)
    ensures |RowIds(rows)| == |rows|
  {
    if rows == [] {
      assert RowIds(rows) == {};
    } else {
      var last := |rows| - 1;
      PageSize(rows[..last], jobs);
      assert rows[last].spec.jobId !in RowIds(rows[..last]);
      AnotherRow(jobs, rows[..last], rows[last]);
      assert rows == rows[..last] + [rows[last]];
    }
  }

  lemma PageFromRows(t: JobTables, req: ClaimRequest, rows: seq<Job>, remaining: set<Id>)
    requires SavedRows(t.jobs, rows) && |RowIds(rows)| == |rows| <= MAINTENANCE_LIMIT
    requires remaining <= ExpiredIds(t, req) && RowIds(rows) == ExpiredIds(t, req) - remaining
    requires forall a, b :: a in RowIds(rows) && b in remaining ==> ExpiresBy(t.jobs, a, b)
    requires remaining == {} || |rows| == MAINTENANCE_LIMIT
    ensures IsExpiredPage(t, req, rows)
  {
    hide RowIds, SavedRows, ExpiredIds;
    var expired := ExpiredIds(t, req);
    assert |expired - remaining| == |expired| - |remaining| by { assert expired == (expired - remaining) + remaining; }
    forall a, b | a in RowIds(rows) && b in expired && b !in RowIds(rows)
      ensures t.jobs[a].leaseExpires.value <= t.jobs[b].leaseExpires.value
    {
      assert ExpiresBy(t.jobs, a, b);
    }
  }

  lemma PlanFromRows(t: JobTables, req: ClaimRequest, rows: seq<Job>, actions: seq<MaintenanceAction>)
    requires IsExpiredPage(t, req, rows) && |actions| == |rows|
    requires forall k :: 0 <= k < |rows| ==> actions[k] == MaintenanceAction(rows[k], RepairState(rows[k]))
    ensures MaintenancePlan(t, req, actions)
  {
    hide IsExpiredPage, RepairState;
    assert SavedJobs(actions) == rows;
  }

  /** The plan is what has been taken from the first i partitions, then what the rest will add. */
  ghost predicate Walked(t: JobTables, req: ClaimRequest, rotation: seq<Text>, i: nat, planned: seq<Text>) {
    && i <= |rotation| && |planned| <= req.limit
    && PlannedKeys(t, req) == planned + FirstOf(FilterReady(t, req.queue, req.now, rotation[i..]), req.limit - |planned|)
  }

  lemma WalkStart(t: JobTables, req: ClaimRequest, rotation: seq<Text>)
    requires rotation == Rotation(InOrder(ActiveKeys(t, req.queue)), CursorOf(t, req.queue))
    ensures Walked(t, req, rotation, 0, [])
  {
    hide ActiveKeys, ReadyHead, Rotation;
    assert rotation[0..] == rotation;
  }

  lemma FilterStep(t: JobTables, req: ClaimRequest, rotation: seq<Text>, i: nat, room: nat)
    requires i < |rotation| && room > 0
    ensures var onward := FilterReady(t, req.queue, req.now, rotation[i + 1..]);
            FirstOf(FilterReady(t, req.queue, req.now, rotation[i..]), room) ==
            if ReadyHead(t, req.queue, req.now, rotation[i]) then [rotation[i]] + FirstOf(onward, room - 1) else FirstOf(onward, room)
  {
    hide ReadyHead;
    assert rotation[i..][1..] == rotation[i + 1..];
  }

  lemma WalkStep(t: JobTables, req: ClaimRequest, rotation: seq<Text>, i: nat, planned: seq<Text>)
    requires Walked(t, req, rotation, i, planned) && i < |rotation| && |planned| < req.limit
    ensures Walked(t, req, rotation, i + 1, if ReadyHead(t, req.queue, req.now, rotation[i]) then planned + [rotation[i]] else planned)
  {
    hide ReadyHead, PlannedKeys, FilterReady, FirstOf;
    var room := req.limit - |planned|;
    FilterStep(t, req, rotation, i, room);
    if ReadyHead(t, req.queue, req.now, rotation[i]) {
      var later := FirstOf(FilterReady(t, req.queue, req.now, rotation[i + 1..]), room - 1);
      assert planned + ([rotation[i]] + later) == (planned + [rotation[i]]) + later;
    }
  }

  lemma WalkEnd(t: JobTables, req: ClaimRequest, rotation: seq<Text>, i: nat, planned: seq<Text>)
    requires Walked(t, req, rotation, i, planned) && (i == |rotation| || |planned| == req.limit)
    ensures planned == PlannedKeys(t, req)
  {
    hide ReadyHead, PlannedKeys;
    assert FirstOf(FilterReady(t, req.queue, req.now, rotation[i..]), req.limit - |planned|) == [];
  }

  lemma NoLeases(t: JobTables, req: ClaimRequest, ids: seq<Id>)
    ensures LeasesOver(t, req, [], ids, [])
  {}

  lemma AnotherLease(t: JobTables, req: ClaimRequest, planned: seq<Text>, ids: seq<Id>, leases: seq<ProposedLease>, key: Text)
    requires LeasesOver(t, req, planned, ids, leases) && |leases| < |ids| && ReadyHead(t, req.queue, req.now, key)
    ensures var job := t.jobs[Head(t.jobs, Place(req.queue, key)).value];
            LeasesOver(t, req, planned + [key], ids, leases + [ProposedLease(job, ids[|leases|])])
  {
    hide ReadyHead;
  }

  // ----- saved rows applied one by one -----

  /** The claim after the given repairs and leases have been written. */
  function WrittenClaim(req: ClaimRequest, tx: Id, expires: I64, rows: seq<Job>, leases: seq<ProposedLease>): Claim {
    Claim(req, tx, expires, RowIds(rows), GrantsOf(leases))
  }

  function GrantsOf(leases: seq<ProposedLease>): map<Id, Id> {
    if leases == [] then map[]
    else
      var last := leases[|leases| - 1];
      GrantsOf(leases[..|leases| - 1])[last.job.spec.jobId := last.token]
  }

  /** Saved leases name each job once. */
  ghost predicate JobsOnce(leases: seq<ProposedLease>) {
    forall i, j :: 0 <= i < j < |leases| ==> leases[i].job.spec.jobId != leases[j].job.spec.jobId
  }

  lemma {:induction false} LeaseOf(leases: seq<ProposedLease>, id: Id) returns (n: nat)
    requires id in GrantsOf(leases)
    ensures n < |leases| && leases[n].job.spec.jobId == id
  {
    n := |leases| - 1;
    if leases[n].job.spec.jobId != id { n := LeaseOf(leases[..n], id); }
  }

  lemma {:induction false} GrantOfLease(leases: seq<ProposedLease>, n: nat)
    requires JobsOnce(leases) && n < |leases|
    ensures leases[n].job.spec.jobId in GrantsOf(leases) && GrantsOf(leases)[leases[n].job.spec.jobId] == leases[n].token
  {
    var last := |leases| - 1;
    if n < last { GrantOfLease(leases[..last], n); }
  }

  lemma {:induction false} GrantsCounted(leases: seq<ProposedLease>)
    requires JobsOnce(leases)
    ensures |GrantsOf(leases)| == |leases|
  {
    if leases != [] {
      var last := |leases| - 1;
      GrantsCounted(leases[..last]);
      FirstGrants(leases, last);
      assert leases[..last + 1] == leases;
    }
  }

  lemma FirstGrants(leases: seq<ProposedLease>, i: nat)
    requires JobsOnce(leases) && i < |leases|
    ensures leases[i].job.spec.jobId !in GrantsOf(leases[..i])
    ensures GrantsOf(leases[..i + 1]) == GrantsOf(leases[..i])[leases[i].job.spec.jobId := leases[i].token]
  {
    assert leases[..i + 1][..i] == leases[..i];
    if leases[i].job.spec.jobId in GrantsOf(leases[..i]) {
      var n := LeaseOf(leases[..i], leases[i].job.spec.jobId);
    }
  }

  lemma PlannedHead(t: JobTables, req: ClaimRequest, ids: seq<Id>, leases: seq<ProposedLease>, n: nat)
    requires JobsInv(t) && LeasePlan(t, req, ids, leases) && n < |leases|
    ensures var id := leases[n].job.spec.jobId;
            && id in t.jobs && leases[n].job == t.jobs[id] && id in PlannedJobs(t, req)
            && PlaceOf(t.jobs[id]) == Place(req.queue, PlannedKeys(t, req)[n])
            && Head(t.jobs, Place(req.queue, PlannedKeys(t, req)[n])) == Some(id)
            && Live(t.jobs[id]) && !t.jobs[id].state.Leased?
  {
    hide JobsInv, PlannedKeys;
    var key := PlannedKeys(t, req)[n];
    assert key in PlannedKeys(t, req) && ReadyHead(t, req.queue, req.now, key);
    var head := Head(t.jobs, Place(req.queue, key)).value;
    RowChecks(t, head);
    assert head in PlannedJobs(t, req);
  }

  /** The planned leases are of the planned jobs, each once. */
  lemma PlanListsJobs(t: JobTables, req: ClaimRequest, ids: seq<Id>, leases: seq<ProposedLease>)
    requires JobsInv(t) && LeasePlan(t, req, ids, leases)
    ensures JobsOnce(leases) && GrantsOf(leases).Keys == PlannedJobs(t, req) && |GrantsOf(leases)| == |leases|
  {
    PlanMeans(t, req);
    CyclicDistinct(CursorOf(t, req.queue), PlannedKeys(t, req));
    hide JobsInv, PlannedKeys, ReadyHead, CyclicAscending;
    forall i, j | 0 <= i < j < |leases| ensures leases[i].job.spec.jobId != leases[j].job.spec.jobId {
      PlannedHead(t, req, ids, leases, i);
      PlannedHead(t, req, ids, leases, j);
    }
    GrantsCounted(leases);
    PlanGrantsAll(t, req, ids, leases);
  }

  lemma PlannedAt(t: JobTables, req: ClaimRequest, id: Id) returns (n: nat)
    requires id in PlannedJobs(t, req)
    ensures n < |PlannedKeys(t, req)| && Head(t.jobs, Place(req.queue, PlannedKeys(t, req)[n])) == Some(id)
  {
    hide PlannedKeys;
    var k :| k in PlannedKeys(t, req) && Head(t.jobs, Place(req.queue, k)) == Some(id);
    n :| 0 <= n < |PlannedKeys(t, req)| && PlannedKeys(t, req)[n] == k;
  }

  lemma PlanGrantsAll(t: JobTables, req: ClaimRequest, ids: seq<Id>, leases: seq<ProposedLease>)
    requires JobsInv(t) && LeasePlan(t, req, ids, leases) && JobsOnce(leases)
    ensures GrantsOf(leases).Keys == PlannedJobs(t, req)
  {
    assert |leases| == |PlannedKeys(t, req)|;
    hide JobsInv, PlannedKeys, PlannedJobs, Head, GrantsOf, LeasePlan, Live, PlaceOf;
    forall id | id in GrantsOf(leases) ensures id in PlannedJobs(t, req) {
      var n := LeaseOf(leases, id);
      PlannedHead(t, req, ids, leases, n);
    }
    forall id | id in PlannedJobs(t, req) ensures id in GrantsOf(leases) {
      var n := PlannedAt(t, req, id);
      PlannedHead(t, req, ids, leases, n);
      GrantOfLease(leases, n);
    }
  }

  lemma NothingWritten(t: JobTables, req: ClaimRequest, tx: Id, expires: I64)
    requires JobsInv(t)
    ensures ClaimedJobs(t.jobs, WrittenClaim(req, tx, expires, [], [])) == t.jobs
    ensures StillLive(t.active, t.jobs) == t.active
  {
    hide Fifo, ReceiptsOk, RowsOk, SequencesUnique, LivePlaces;
  }

  lemma RepairAdded(jobs: map<Id, Job>, c: Claim, id: Id)
    requires id in jobs && id !in c.repairs && id !in c.grants
    ensures var c' := c.(repairs := c.repairs + {id});
            ClaimedJobs(jobs, c') == ClaimedJobs(jobs, c)[id := RepairedRow(jobs[id], c.req.now, c.tx)]
  {
    hide RepairedRow, LeasedRow;
  }

  lemma FirstRows(jobs: map<Id, Job>, rows: seq<Job>, i: nat)
    requires SavedRows(jobs, rows) && i < |rows|
    ensures rows[i].spec.jobId !in RowIds(rows[..i]) && RowIds(rows[..i + 1]) == RowIds(rows[..i]) + {rows[i].spec.jobId}
  {
    assert rows[..i + 1] == rows[..i] + [rows[i]];
    AnotherRow(jobs, rows[..i], rows[i]);
  }

  /** A saved row to repair is still the row in the table when its turn comes. */
  lemma RepairOne(t: JobTables, req: ClaimRequest, tx: Id, expires: I64, rows: seq<Job>, i: nat)
    requires JobsInv(t) && IsExpiredPage(t, req, rows) && i < |rows|
    ensures var before, id := ClaimedJobs(t.jobs, WrittenClaim(req, tx, expires, rows[..i], [])), rows[i].spec.jobId;
            && id in before && before[id] == rows[i] && rows[i].state.Leased? && Checks(rows[i])
            && ClaimedJobs(t.jobs, WrittenClaim(req, tx, expires, rows[..i + 1], [])) == before[id := RepairedRow(rows[i], req.now, tx)]
  {
    var id := rows[i].spec.jobId;
    assert id in t.jobs && t.jobs[id] == rows[i];
    RowChecks(t, id);
    FirstRows(t.jobs, rows, i);
    assert rows[i].state.Leased? by { assert id in RowIds(rows); }
    hide JobsInv, IsExpiredPage, RowIds, RepairedRow;
    RepairAdded(t.jobs, WrittenClaim(req, tx, expires, rows[..i], []), id);
  }

  /** Rewriting one row and draining its partition when the row is finished leaves the index exact. */
  lemma DrainOne(active: map<Place, nat>, jobs: map<Id, Job>, id: Id, j': Job)
    requires id in jobs && Live(jobs[id]) && PlaceOf(j') == PlaceOf(jobs[id])
    ensures var next := StillLive(active, jobs[id := j']);
            if Live(j') then next == StillLive(active, jobs) else next == Drain(StillLive(active, jobs), jobs[id := j'], PlaceOf(j'))
  {
    PlacesAfter(jobs, id, j');
    hide LivePlaces;
  }

  lemma NotRepaired(t: JobTables, req: ClaimRequest, rows: seq<Job>, id: Id)
    requires IsExpiredPage(t, req, rows) && id in t.jobs && !t.jobs[id].state.Leased?
    ensures id !in RowIds(rows)
  {
    hide RowIds, SavedRows;
  }

  /** A job planned for lease is still its saved row when its turn comes: nothing repaired or leased before touches it. */
  lemma LeaseOne(t: JobTables, req: ClaimRequest, tx: Id, expires: I64, rows: seq<Job>,
                 ids: seq<Id>, leases: seq<ProposedLease>, i: nat)
    requires JobsInv(t) && IsExpiredPage(t, req, rows) && LeasePlan(t, req, ids, leases) && i < |leases|
    ensures var before, id := WrittenClaim(req, tx, expires, rows, leases[..i]), leases[i].job.spec.jobId;
            && id in t.jobs && t.jobs[id] == leases[i].job && Checks(leases[i].job) && leases[i].job.state in {Pending, RetryWait}
            && id !in before.grants && id !in before.repairs
            && WrittenClaim(req, tx, expires, rows, leases[..i + 1]) == before.(grants := before.grants[id := leases[i].token])
  {
    var id := leases[i].job.spec.jobId;
    PlannedHead(t, req, ids, leases, i);
    PlanListsJobs(t, req, ids, leases);
    RowChecks(t, id);
    GrantedIsReadyHead(t, req, id);
    NotRepaired(t, req, rows, id);
    hide JobsInv, LeasePlan, IsExpiredPage, RowIds, PlannedJobs, PlannedKeys, GrantsOf, Head, Ready;
    FirstGrants(leases, i);
  }

  lemma GrantAdded(jobs: map<Id, Job>, c: Claim, id: Id, token: Id)
    requires id in jobs && id !in c.grants && id !in c.repairs
    ensures var c' := c.(grants := c.grants[id := token]);
            ClaimedJobs(jobs, c') == ClaimedJobs(jobs, c)[id := LeasedRow(jobs[id], token, c.req.worker, c.expires, c.tx)]
    ensures id in ClaimedJobs(jobs, c) && ClaimedJobs(jobs, c)[id] == jobs[id]
  {
    hide RepairedRow, LeasedRow;
  }

  lemma ReceiptAdded(jobs: map<Id, Job>, c: Claim, id: Id, token: Id)
    requires id in jobs && id !in c.grants
    ensures var c' := c.(grants := c.grants[id := token]);
            && ReceiptKey(c.tx, id) !in NewReceipts(jobs, c)
            && NewReceipts(jobs, c') ==
               NewReceipts(jobs, c)[ReceiptKey(c.tx, id) := Receipt(token, jobs[id].attempt + 1, c.req.worker, c.expires)]
  {
    hide NewReceipts;
    var c' := c.(grants := c.grants[id := token]);
    NewReceiptsHold(jobs, c, ReceiptKey(c.tx, id));
    var b := NewReceipts(jobs, c)[ReceiptKey(c.tx, id) := Receipt(token, jobs[id].attempt + 1, c.req.worker, c.expires)];
    forall k ensures k in NewReceipts(jobs, c') <==> k in b
             ensures k in b ==> NewReceipts(jobs, c')[k] == b[k]
    {
      NewReceiptsHold(jobs, c, k);
      NewReceiptsHold(jobs, c', k);
    }
  }

  lemma NoReceipts(jobs: map<Id, Job>, req: ClaimRequest, tx: Id, expires: I64, rows: seq<Job>)
    ensures NewReceipts(jobs, WrittenClaim(req, tx, expires, rows, [])) == map[]
  {}

  /** The row and the receipt that one planned lease adds to what was written before it. */
  lemma LeaseWritten(t: JobTables, req: ClaimRequest, tx: Id, expires: I64, rows: seq<Job>,
                     ids: seq<Id>, leases: seq<ProposedLease>, i: nat)
    requires JobsInv(t) && IsExpiredPage(t, req, rows) && LeasePlan(t, req, ids, leases) && i < |leases|
    requires forall k :: k in t.receipts ==> k.tx != tx
    ensures var before := WrittenClaim(req, tx, expires, rows, leases[..i]);
            var next := WrittenClaim(req, tx, expires, rows, leases[..i + 1]);
            var jobs, id, lease := ClaimedJobs(t.jobs, before), leases[i].job.spec.jobId, leases[i];
            var k, receipt := ReceiptKey(tx, id), Receipt(lease.token, lease.job.attempt + 1, req.worker, expires);
            && id in jobs && jobs[id] == lease.job && Checks(LeasedRow(lease.job, lease.token, req.worker, expires, tx))
            && ClaimedJobs(t.jobs, next) == jobs[id := LeasedRow(lease.job, lease.token, req.worker, expires, tx)]
            && k !in t.receipts + NewReceipts(t.jobs, before)
            && t.receipts + NewReceipts(t.jobs, next) == (t.receipts + NewReceipts(t.jobs, before))[k := receipt]
  {
    hide JobsInv, IsExpiredPage, LeasePlan, ClaimedJobs, NewReceipts, GrantsOf, RowIds, LeasedRow, Checks;
    var before, id := WrittenClaim(req, tx, expires, rows, leases[..i]), leases[i].job.spec.jobId;
    LeaseOne(t, req, tx, expires, rows, ids, leases, i);
    LeasedRowChecks(leases[i].job, leases[i].token, req.worker, expires, tx);
    GrantAdded(t.jobs, before, id, leases[i].token);
    ReceiptAdded(t.jobs, before, id, leases[i].token);
  }

  lemma LeasedRowChecks(j: Job, token: Id, worker: Text, expires: I64, tx: Id)
    requires Checks(j) && Live(j)
    ensures Checks(LeasedRow(j, token, worker, expires, tx))
  {}

  // ----- the outcome of a claim -----

  datatype ClaimOutcome = Claimed(tx: Id, grants: seq<Grant>) | Maintained(tx: Id) | Noop

  /** The grant handed to the worker for a planned lease. */
  function GrantFor(lease: ProposedLease, worker: Text, expires: I64): Grant {
    GrantOf(lease.job, Receipt(lease.token, lease.job.attempt + 1, worker, expires))
  }

  /** The outcome reports the claim's grants, one for each planned partition, in order. */
  ghost predicate Reports(t: JobTables, claim: Claim, outcome: ClaimOutcome) {
    match outcome
    case Noop => false
    case Maintained(tx) => tx == claim.tx && claim.grants == map[]
    case Claimed(tx, grants) =>
      && tx == claim.tx && grants != [] && |grants| == |PlannedKeys(t, claim.req)| == |claim.grants|
      && forall n :: 0 <= n < |grants| ==> ReportsOne(t, claim, PlannedKeys(t, claim.req)[n], grants[n])
  }

  ghost predicate ReportsOne(t: JobTables, claim: Claim, key: Text, g: Grant) {
    && Head(t.jobs, Place(claim.req.queue, key)) == Some(g.jobId) && g.jobId in t.jobs && g.jobId in claim.grants
    && g == GrantOf(t.jobs[g.jobId], Receipt(claim.grants[g.jobId], t.jobs[g.jobId].attempt + 1, claim.req.worker, claim.expires))
  }

  /** Identifiers the generator has not handed out before. */
  ghost predicate FreshIds(db: Db, ids: seq<Id>) {
    Distinct(ids) && forall id :: id in ids ==> id != ZERO_ID && id !in Tokens(db.tables.receipts) && id !in db.transactions
  }

  /** Each granted token is the identifier drawn for its lease. */
  lemma TokenDrawn(t: JobTables, req: ClaimRequest, ids: seq<Id>, leases: seq<ProposedLease>, id: Id) returns (n: nat)
    requires JobsOnce(leases) && LeasePlan(t, req, ids, leases) && id in GrantsOf(leases)
    ensures n < |leases| <= |ids| && leases[n].job.spec.jobId == id && GrantsOf(leases)[id] == ids[n] && ids[n] in ids
  {
    hide PlannedKeys, ReadyHead, Head, GrantsOf;
    n := LeaseOf(leases, id);
    GrantOfLease(leases, n);
  }

  lemma TokensAreFresh(db: Db, req: ClaimRequest, ids: seq<Id>, leases: seq<ProposedLease>)
    requires JobsOnce(leases) && FreshIds(db, ids) && LeasePlan(db.tables, req, ids, leases)
    ensures FreshTokens(db.tables, GrantsOf(leases))
  {
    var t, grants := db.tables, GrantsOf(leases);
    hide LeasePlan, GrantsOf, JobsOnce;
    forall id | id in grants ensures grants[id] != ZERO_ID && grants[id] !in Tokens(t.receipts) {
      var n := TokenDrawn(t, req, ids, leases, id);
    }
    forall a, b | a in grants && b in grants && grants[a] == grants[b] ensures a == b {
      var m := TokenDrawn(t, req, ids, leases, a);
      var n := TokenDrawn(t, req, ids, leases, b);
    }
  }

  lemma ReceiptsReferTo(db: Db)
    requires DbInv(db)
    ensures JobsInv(db.tables) && forall k :: k in db.tables.receipts ==> k.tx in db.transactions
  {
    hide JobsInv, EventsInv, SequencesDistinct;
  }

  lemma SomeRow(rows: seq<Job>)
    requires rows != []
    ensures RowIds(rows) != {}
  {
    assert rows[0].spec.jobId in RowIds(rows);
  }

  /** The planned claim is one that can be committed. */
  lemma PlanClaimable(db: Db, req: ClaimRequest, expires: I64, rows: seq<Job>, ids: seq<Id>, leases: seq<ProposedLease>, tx: Id)
    requires DbInv(db) && CheckRequest(req) == Ok(expires) && FreshIds(db, ids) && tx in ids
    requires IsExpiredPage(db.tables, req, rows) && LeasePlan(db.tables, req, ids, leases)
    requires rows != [] || leases != []
    ensures Claimable(db.tables, WrittenClaim(req, tx, expires, rows, leases))
    ensures tx !in db.transactions && tx != ZERO_ID
    ensures |RowIds(rows)| == |rows| && |GrantsOf(leases)| == |leases|
  {
    hide DbInv, JobsInv, LeasePlan, PlannedJobs, FreshTokens, CheckRequest, SavedRows, RowIds, ExpiredPage, GrantsOf, JobsOnce, Tokens;
    ReceiptsReferTo(db);
    PlanListsJobs(db.tables, req, ids, leases);
    TokensAreFresh(db, req, ids, leases);
    if rows != [] { SomeRow(rows); }
  }

  lemma NothingPlanned(t: JobTables, req: ClaimRequest, ids: seq<Id>)
    requires JobsInv(t) && IsExpiredPage(t, req, []) && LeasePlan(t, req, ids, [])
    ensures ExpiredIds(t, req) == {} && PlannedJobs(t, req) == {}
  {
    PlanListsJobs(t, req, ids, []);
    hide JobsInv, PlannedJobs, LeasePlan, ExpiredIds;
    assert RowIds([]) == {};
  }

  lemma LeaseReported(t: JobTables, req: ClaimRequest, tx: Id, expires: I64, rows: seq<Job>,
                      ids: seq<Id>, leases: seq<ProposedLease>, n: nat)
    requires JobsInv(t) && LeasePlan(t, req, ids, leases) && JobsOnce(leases) && n < |leases| == |PlannedKeys(t, req)|
    ensures ReportsOne(t, WrittenClaim(req, tx, expires, rows, leases), PlannedKeys(t, req)[n],
                       GrantFor(leases[n], req.worker, expires))
  {
    hide JobsInv, LeasePlan, PlannedKeys, PlannedJobs, GrantsOf, RowIds, Head, Live, JobsOnce;
    PlannedHead(t, req, ids, leases, n);
    GrantOfLease(leases, n);
  }

  lemma NoGrants()
    ensures GrantsOf([]) == map[]
  {}

  lemma PlanReported(t: JobTables, req: ClaimRequest, tx: Id, expires: I64, rows: seq<Job>, ids: seq<Id>, leases: seq<ProposedLease>,
                     grants: seq<Grant>)
    requires JobsInv(t) && LeasePlan(t, req, ids, leases) && |grants| == |leases| == |PlannedKeys(t, req)|
    requires forall n :: 0 <= n < |leases| ==> grants[n] == GrantFor(leases[n], req.worker, expires)
    ensures Reports(t, WrittenClaim(req, tx, expires, rows, leases), if grants == [] then Maintained(tx) else Claimed(tx, grants))
  {
    hide JobsInv, LeasePlan, PlannedKeys, PlannedJobs, GrantsOf, RowIds, ReportsOne, JobsOnce, GrantFor;
    NoGrants();
    PlanListsJobs(t, req, ids, leases);
    forall n | 0 <= n < |grants|
      ensures ReportsOne(t, WrittenClaim(req, tx, expires, rows, leases), PlannedKeys(t, req)[n], grants[n])
    {
      LeaseReported(t, req, tx, expires, rows, ids, leases, n);
    }
  }

  /** What a claim leaves behind: nothing when there was nothing to do, otherwise one step of a run. */
  ghost predicate ClaimDone(db: Db, db': Db, req: ClaimRequest, claim: Claim, checksum: Bytes, outcome: ClaimOutcome) {
    if outcome.Noop? then
      db' == db && ExpiredIds(db.tables, req) == {} && PlannedJobs(db.tables, req) == {}
    else
      && claim.req == req && Enabled(db, ClaimStep(claim, checksum)) && db' == After(db, ClaimStep(claim, checksum))
      && Reports(db.tables, claim, outcome)
  }

  lemma PlansSaved(t: JobTables, req: ClaimRequest, actions: seq<MaintenanceAction>, ids: seq<Id>, leases: seq<ProposedLease>)
    requires MaintenancePlan(t, req, actions) && LeasePlan(t, req, ids, leases)
    ensures IsExpiredPage(t, req, SavedJobs(actions)) && |SavedJobs(actions)| == |actions|
    ensures |leases| == |PlannedKeys(t, req)| <= |ids|
  {
    hide IsExpiredPage, PlannedKeys;
  }

  lemma SameLivePlaces(jobs: map<Id, Job>, jobs': map<Id, Job>)
    requires jobs'.Keys == jobs.Keys
    requires forall id :: id in jobs ==> (Live(jobs'[id]) <==> Live(jobs[id])) && PlaceOf(jobs'[id]) == PlaceOf(jobs[id])
    ensures LivePlaces(jobs') == LivePlaces(jobs)
  {
    hide Live, PlaceOf;
    forall p ensures p in LivePlaces(jobs') <==> p in LivePlaces(jobs) {
      if p in LivePlaces(jobs') {
        var id :| id in jobs' && Live(jobs'[id]) && PlaceOf(jobs'[id]) == p;
        assert id in jobs && Live(jobs[id]) && PlaceOf(jobs[id]) == p;
      }
      if p in LivePlaces(jobs) {
        var id :| id in jobs && Live(jobs[id]) && PlaceOf(jobs[id]) == p;
        assert id in jobs' && Live(jobs'[id]) && PlaceOf(jobs'[id]) == p;
      }
    }
  }

  /** Leasing finishes no job, so the index after the repairs is the index after the whole claim. */
  lemma GrantsKeepIndex(t: JobTables, c: Claim)
    requires JobsInv(t) && Claimable(t, c)
    ensures StillLive(t.active, ClaimedJobs(t.jobs, c.(grants := map[]))) == StillLive(t.active, ClaimedJobs(t.jobs, c))
  {
    hide JobsInv, Claimable, RepairedRow, LivePlaces;
    forall id | id in t.jobs
      ensures var a, b := ClaimedRow(t.jobs[id], id, c.(grants := map[])), ClaimedRow(t.jobs[id], id, c);
              (Live(a) <==> Live(b)) && PlaceOf(a) == PlaceOf(b)
    {
      if id in c.grants { GrantIsLive(t, c, id); }
    }
    SameLivePlaces(ClaimedJobs(t.jobs, c.(grants := map[])), ClaimedJobs(t.jobs, c));
  }

  lemma ClaimWritten(db: Db, c: Claim, checksum: Bytes, db': Db)
    requires Claimable(db.tables, c) && c.tx !in db.transactions && c.tx != ZERO_ID && |checksum| == 16
    requires db'.tables.jobs == ClaimedJobs(db.tables.jobs, c)
    requires db'.tables.active == StillLive(db.tables.active, db'.tables.jobs)
    requires db'.tables.cursors == AdvanceCursor(db.tables.cursors, c.req.queue, PlannedKeys(db.tables, c.req))
    requires db'.tables.receipts == db.tables.receipts + NewReceipts(db.tables.jobs, c)
    requires db' == db.(transactions := db.transactions[c.tx := ClaimRow(db, c, checksum)], tables := db'.tables)
    ensures Enabled(db, ClaimStep(c, checksum)) && db' == After(db, ClaimStep(c, checksum))
  {
    hide Claimable, ClaimedJobs, StillLive, AdvanceCursor, NewReceipts, ClaimRow, CommitEffect;
  }
}
