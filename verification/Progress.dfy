/** Fairness between partitions and termination of draining, over stretches of a run. */
module Progress {
  import opened Types
  import opened Messages
  import opened ByteOrder
  import opened Jobs
  import opened JobInvariant
  import opened Scheduler
  import opened Claims
  import opened JobHistory
  import opened Kernel
  import opened Runs

  // ----- bounded bypass -----

  predicate ClaimsOn(step: Step, queue: Text) { step.ClaimStep? && step.claim.req.queue == queue }

  /** If this step claims from the queue, the partition is ready for it and has room, and is passed over. */
  predicate Bypasses(db: Db, step: Step, queue: Text, p: Text) {
    ClaimsOn(step, queue) ==>
      step.claim.req.limit >= 1 && ReadyHead(db.tables, queue, step.claim.req.now, p) && p !in PlannedKeys(db.tables, step.claim.req)
  }

  /** The partitions leased from a queue by one step, in order. */
  function ServedBy(db: Db, step: Step, queue: Text): seq<Text> {
    if ClaimsOn(step, queue) then PlannedKeys(db.tables, step.claim.req) else []
  }

  /** The partitions leased from a queue over steps a .. b, in order. */
  function Served(r: Run, queue: Text, a: nat, b: nat): seq<Text>
    requires a <= b <= |r.steps| && |r.states| == |r.steps| + 1
  {
    if a == b then [] else Served(r, queue, a, b - 1) + ServedBy(r.states[b - 1], r.steps[b - 1], queue)
  }

  /** How many of the steps a .. b claim from the queue. */
  function ClaimCount(r: Run, queue: Text, a: nat, b: nat): nat
    requires a <= b <= |r.steps|
  {
    if a == b then 0 else ClaimCount(r, queue, a, b - 1) + (if ClaimsOn(r.steps[b - 1], queue) then 1 else 0)
  }

  lemma ConcatenateCyclic(p: Text, a: seq<Text>, b: seq<Text>)
    requires CyclicAscending(Some(p), a) && CyclicAscending(Some(p), b)
    requires a != [] ==> forall x :: x in b ==> Cyclic(Some(p), a[|a| - 1], x)
    ensures CyclicAscending(Some(p), a + b)
  {
    hide Cyclic;
    var all := a + b;
    forall i, j | 0 <= i < j < |all| ensures Cyclic(Some(p), all[i], all[j]) {
      if i < |a| <= j {
        var last := |a| - 1;
        assert b[j - |a|] in b;
        if i < last { CyclicThrough(p, a[i], a[last], all[j]); }
      }
    }
  }

  /** While a ready partition is passed over, what is served goes strictly round towards it. */
  ghost predicate Approaching(t: JobTables, queue: Text, p: Text, served: seq<Text>) {
    && CyclicAscending(Some(p), served) && p !in served
    && (served != [] ==> CursorOf(t, queue) == Some(served[|served| - 1]))
  }

  lemma CursorAdvances(t: JobTables, c: Claim, queue: Text)
    ensures var planned := PlannedKeys(t, c.req);
            CursorOf(ClaimEffect(t, c), queue) ==
            if c.req.queue == queue && planned != [] then Some(planned[|planned| - 1]) else CursorOf(t, queue)
  {
    hide PlannedKeys, ClaimedJobs, StillLive, NewReceipts;
  }

  lemma ClaimApproaches(t: JobTables, c: Claim, p: Text, served: seq<Text>)
    requires JobsInv(t) && Approaching(t, c.req.queue, p, served)
    requires c.req.limit >= 1 && ReadyHead(t, c.req.queue, c.req.now, p) && p !in PlannedKeys(t, c.req)
    ensures Approaching(ClaimEffect(t, c), c.req.queue, p, served + PlannedKeys(t, c.req))
    ensures |PlannedKeys(t, c.req)| >= 1
  {
    hide JobsInv, PlannedKeys, ReadyHead, ClaimEffect, CyclicAscending, Cyclic, CursorOf;
    CursorAdvances(t, c, c.req.queue);
    PassedOver(t, c.req, p);
    assert served != [] ==> served[|served| - 1] in served;
    ConcatenateCyclic(p, served, PlannedKeys(t, c.req));
  }

  lemma CursorStays(db: Db, step: Step, queue: Text)
    requires DbInv(db) && Enabled(db, step) && !ClaimsOn(step, queue)
    ensures CursorOf(After(db, step).tables, queue) == CursorOf(db.tables, queue)
  {
    hide DbInv, Later, Enabled, After, ClaimEffect;
    StepLater(db, step);
    if step.ClaimStep? {
      ClaimStepTables(db, step);
      CursorAdvances(db.tables, step.claim, queue);
    }
  }

  lemma ClaimStepTables(db: Db, step: Step)
    requires Enabled(db, step) && step.ClaimStep?
    ensures After(db, step).tables == ClaimEffect(db.tables, step.claim)
  {
    hide Claimable, ClaimEffect, CommitEffect, Extend;
  }

  lemma CursorKept(t: JobTables, t': JobTables, queue: Text, p: Text, served: seq<Text>)
    requires Approaching(t, queue, p, served) && CursorOf(t', queue) == CursorOf(t, queue)
    ensures Approaching(t', queue, p, served + [])
  {
    hide CursorOf, CyclicAscending;
    assert served + [] == served;
  }

  lemma StepApproaches(db: Db, step: Step, queue: Text, p: Text, served: seq<Text>)
    requires DbInv(db) && Enabled(db, step) && Bypasses(db, step, queue, p) && Approaching(db.tables, queue, p, served)
    ensures Approaching(After(db, step).tables, queue, p, served + ServedBy(db, step, queue))
    ensures ClaimsOn(step, queue) ==> |ServedBy(db, step, queue)| >= 1
  {
    hide DbInv, JobsInv, PlannedKeys, ReadyHead, Enabled, After, ClaimEffect, Approaching, CursorOf;
    InvOfTables(db);
    if ClaimsOn(step, queue) {
      ClaimStepTables(db, step);
      ClaimApproaches(db.tables, step.claim, p, served);
    } else {
      CursorStays(db, step, queue);
      CursorKept(db.tables, After(db, step).tables, queue, p, served);
    }
  }

  lemma {:induction false} StretchApproaches(r: Run, queue: Text, p: Text, a: nat, b: nat)
    requires IsRun(r) && a <= b <= |r.steps|
    requires forall i :: a <= i < b ==> Bypasses(r.states[i], r.steps[i], queue, p)
    ensures Approaching(r.states[b].tables, queue, p, Served(r, queue, a, b))
    ensures ClaimCount(r, queue, a, b) <= |Served(r, queue, a, b)|
    decreases b
  {
    hide DbInv, Enabled, After, Bypasses, ClaimsOn, Cyclic, PlannedKeys;
    if a < b {
      var last := b - 1;
      StretchApproaches(r, queue, p, a, last);
      RunInv(r, last);
      assert Follows(r, last);
      hide Approaching, IsRun;
      StepApproaches(r.states[last], r.steps[last], queue, p, Served(r, queue, a, last));
    }
  }

  // ----- the bound -----

  lemma PlannedWereEnqueued(t: JobTables, t': JobTables, req: ClaimRequest, k: Text)
    requires JobsInv(t) && RowsOnward(t, t') && ReadyHead(t, req.queue, req.now, k)
    ensures k in KeysEverEnqueued(t', req.queue)
  {
    hide JobsInv;
    var id := Head(t.jobs, Place(req.queue, k)).value;
    assert id in t.jobs && PlaceOf(t.jobs[id]) == Place(req.queue, k);
    assert id in t'.jobs && t'.jobs[id].spec.queue == req.queue && t'.jobs[id].spec.partitionKey == k;
  }

  lemma {:induction false} ServedWereEnqueued(r: Run, queue: Text, a: nat, b: nat, k: Text, end: nat)
    requires IsRun(r) && a <= b <= |r.steps| && b <= end <= |r.steps| && k in Served(r, queue, a, b)
    ensures k in KeysEverEnqueued(r.states[end].tables, queue)
    decreases b
  {
    hide DbInv, Enabled, After, KeysEverEnqueued, PlannedKeys, ReadyHead;
    var last := b - 1;
    if k in Served(r, queue, a, last) {
      ServedWereEnqueued(r, queue, a, last, k, end);
    } else {
      RunInv(r, last);
      RunLater(r, last, end);
      assert JobsInv(r.states[last].tables) by { InvOfTables(r.states[last]); }
      PlanMeans(r.states[last].tables, r.steps[last].claim.req);
      hide JobsInv, IsRun;
      PlannedWereEnqueued(r.states[last].tables, r.states[end].tables, r.steps[last].claim.req, k);
    }
  }

  lemma InvOfTables(db: Db)
    requires DbInv(db)
    ensures JobsInv(db.tables)
  {}

  /** Bounded bypass. Over a stretch in which partition p of a queue is ready at every claim on the queue and
      never served, no other partition is served twice, and the claims number fewer than the partitions
      known by its end. */
  lemma BoundedBypass(r: Run, queue: Text, p: Text, a: nat, b: nat)
    requires IsRun(r) && a <= b <= |r.steps|
    requires forall i :: a <= i < b ==> Bypasses(r.states[i], r.steps[i], queue, p)
    ensures Distinct(Served(r, queue, a, b)) && p !in Served(r, queue, a, b)
    ensures ClaimCount(r, queue, a, b) <= |KeysEverEnqueued(r.states[b].tables, queue) - {p}|
  {
    var served := Served(r, queue, a, b);
    var keys := KeysEverEnqueued(r.states[b].tables, queue);
    StretchApproaches(r, queue, p, a, b);
    forall k | k in served ensures k in keys { ServedWereEnqueued(r, queue, a, b, k, b); }
    hide IsRun, Bypasses, Served, KeysEverEnqueued, Cyclic;
    CyclicDistinct(Some(p), served);
    DistinctFits(served, keys - {p});
  }

  /** Step i leases the head of this partition. */
  ghost predicate ServesHead(r: Run, i: nat, queue: Text, p: Text)
    requires i < |r.steps| && |r.states| == |r.steps| + 1
  {
    var head := Head(r.states[i].tables.jobs, Place(queue, p));
    ClaimsOn(r.steps[i], queue) && head.Some? && head.value in r.steps[i].claim.grants
  }

  lemma PlannedIsServed(r: Run, i: nat, queue: Text, p: Text)
    requires IsRun(r) && i < |r.steps| && ClaimsOn(r.steps[i], queue)
    requires p in PlannedKeys(r.states[i].tables, r.steps[i].claim.req)
    requires ReadyHead(r.states[i].tables, queue, r.steps[i].claim.req.now, p)
    ensures ServesHead(r, i, queue, p)
  {
    assert Follows(r, i);
    var c, t := r.steps[i].claim, r.states[i].tables;
    assert Claimable(t, c);
    hide IsRun, Enabled, After, PlannedKeys;
    assert Head(t.jobs, Place(queue, p)).value in PlannedJobs(t, c.req);
  }

  /** So a partition ready at each of as many claims as its queue has partitions is served by one of them. */
  lemma ServedInTime(r: Run, queue: Text, p: Text, a: nat, b: nat)
    requires IsRun(r) && a <= b <= |r.steps|
    requires forall i :: a <= i < b && ClaimsOn(r.steps[i], queue) ==>
               r.steps[i].claim.req.limit >= 1 && ReadyHead(r.states[i].tables, queue, r.steps[i].claim.req.now, p)
    requires ClaimCount(r, queue, a, b) >= |KeysEverEnqueued(r.states[b].tables, queue)|
    requires p in KeysEverEnqueued(r.states[b].tables, queue)
    ensures exists i :: a <= i < b && ServesHead(r, i, queue, p)
  {
    var keys := KeysEverEnqueued(r.states[b].tables, queue);
    assert |r.states| == |r.steps| + 1;
    assert |keys - {p}| == |keys| - 1;
    hide IsRun, ReadyHead, PlannedKeys, KeysEverEnqueued, ServesHead;
    if forall i :: a <= i < b ==> Bypasses(r.states[i], r.steps[i], queue, p) {
      BoundedBypass(r, queue, p, a, b);
    } else {
      var i :| a <= i < b && !Bypasses(r.states[i], r.steps[i], queue, p);
      PlannedIsServed(r, i, queue, p);
    }
  }

  // ----- draining -----

  /** Steps a .. b are claims on one queue, all made at the same time. */
  ghost predicate Drains(r: Run, req: ClaimRequest, a: nat, b: nat)
    requires a <= b <= |r.steps|
  {
    forall i :: a <= i < b ==>
      r.steps[i].ClaimStep? && r.steps[i].claim.req.queue == req.queue && r.steps[i].claim.req.now == req.now
  }

  lemma SameBacklog(t: JobTables, x: ClaimRequest, y: ClaimRequest)
    requires x.queue == y.queue && x.now == y.now
    ensures Backlog(t, x) == Backlog(t, y)
  {
    assert ExpiredIds(t, x) == ExpiredIds(t, y);
  }

  lemma ClaimStepLowersBacklog(db: Db, step: Step, req: ClaimRequest)
    requires DbInv(db) && Enabled(db, step) && step.ClaimStep?
    requires step.claim.req.queue == req.queue && step.claim.req.now == req.now
    ensures Backlog(After(db, step).tables, req) < Backlog(db.tables, req)
  {
    assert JobsInv(db.tables) && Claimable(db.tables, step.claim);
    hide DbInv, JobsInv, Claimable, Backlog, ClaimEffect, CommitEffect, Extend;
    ClaimLowersBacklog(db.tables, step.claim);
    SameBacklog(db.tables, step.claim.req, req);
    SameBacklog(ClaimEffect(db.tables, step.claim), step.claim.req, req);
  }

  /** Repeated claims at a fixed time: each lowers the backlog, so at most Backlog of them commit anything. */
  lemma {:induction false} DrainTerminates(r: Run, req: ClaimRequest, a: nat, b: nat)
    requires IsRun(r) && a <= b <= |r.steps| && Drains(r, req, a, b)
    ensures b - a + Backlog(r.states[b].tables, req) <= Backlog(r.states[a].tables, req)
    decreases b
  {
    hide DbInv, Enabled, After, Backlog;
    if a < b {
      var last := b - 1;
      DrainTerminates(r, req, a, last);
      RunInv(r, last);
      assert Follows(r, last);
      ClaimStepLowersBacklog(r.states[last], r.steps[last], req);
    }
  }

  lemma EmptyBacklog(t: JobTables, req: ClaimRequest)
    requires JobsInv(t) && Backlog(t, req) == 0
    ensures ExpiredIds(t, req) == {} && PlannedJobs(t, req) == {}
  {
    hide JobsInv, PlannedJobs, ExpiredIds;
    assert Waiting(t, req.queue) == {};
    forall id | id in PlannedJobs(t, req) ensures id in Waiting(t, req.queue) {
      GrantedIsReadyHead(t, req, id);
    }
  }

  /** So after as many claims as the backlog counts, the next one is a Noop. */
  lemma DrainReachesNoop(r: Run, req: ClaimRequest, a: nat, b: nat)
    requires IsRun(r) && a <= b <= |r.steps| && Drains(r, req, a, b) && b - a >= Backlog(r.states[a].tables, req)
    ensures ExpiredIds(r.states[b].tables, req) == {} && PlannedJobs(r.states[b].tables, req) == {}
  {
    hide DbInv, JobsInv, Backlog;
    DrainTerminates(r, req, a, b);
    RunInv(r, b);
    hide IsRun, Drains;
    InvOfTables(r.states[b]);
    EmptyBacklog(r.states[b].tables, req);
  }
}
