/** What claim recovery answers, told by the history of the run instead of by the tables. */
module RecoveryHistory {
  import opened Types
  import opened Messages
  import opened Jobs
  import opened JobInvariant
  import opened Claims
  import opened JobHistory
  import opened Kernel
  import opened Recovery
  import opened Runs
  import opened Delivery

  /** One of these steps is a claim with this transaction id that leased something. */
  ghost predicate ClaimGranted(steps: seq<Step>, id: Id) {
    exists i :: 0 <= i < |steps| && GrantsUnder(steps[i], id)
  }

  predicate GrantsUnder(step: Step, id: Id) { step.ClaimStep? && step.claim.tx == id && step.claim.grants != map[] }

  /** One of these steps is a batch with this transaction id. */
  ghost predicate BatchCommitted(steps: seq<Step>, id: Id) {
    exists i :: 0 <= i < |steps| && BatchUnder(steps[i], id)
  }

  predicate BatchUnder(step: Step, id: Id) { step.BatchStep? && step.submission.batch.transactionId == id }

  lemma StepAt(r: Run, i: nat)
    requires IsRun(r) && i < |r.steps|
    ensures |r.states| == |r.steps| + 1 && DbInv(r.states[i]) && Enabled(r.states[i], r.steps[i])
  {
    hide DbInv, Enabled, After;
    assert Follows(r, i);
    RunInv(r, i);
  }

  /** A transaction id is used by one step only. */
  lemma StepUnique(r: Run, i: nat, k: nat, id: Id)
    requires IsRun(r) && i < k < |r.steps| && TxOf(r.steps[i]) == Some(id)
    ensures TxOf(r.steps[k]) != Some(id)
  {
    hide IsRun, DbInv, Enabled, After, NextTxSequence, TxIds;
    StepAt(r, k);
    RowInRun(r, i, k);
    StepRecords(r.states[k], r.steps[k]);
  }

  /** A batch leases nothing: no receipt is ever written under its id. */
  lemma BatchLeasesNothing(db: Db, s: Submission)
    requires DbInv(db) && Enabled(db, BatchStep(s))
    ensures s.batch.transactionId in After(db, BatchStep(s)).transactions
    ensures LeasedBy(After(db, BatchStep(s)).tables, s.batch.transactionId) == {}
  {
    var id, b := s.batch.transactionId, s.batch;
    hide DbInv, Later, ApplyOperations, NextTxSequence, Validate, ExpectAll;
    OpenedInv(db, s);
    CommitKeepsInv(db, s);
    OperationsLater(Opened(db, s), id, b.committedAt, b.operations);
    NoReceiptsUnder(db, id);
    StillNoReceipts(db, s, After(db, BatchStep(s)));
  }

  lemma NoReceiptsUnder(db: Db, id: Id)
    requires DbInv(db) && id !in db.transactions
    ensures forall k :: k in db.tables.receipts ==> k.tx != id
  {
    hide JobsInv, EventsInv, SequencesDistinct;
  }

  lemma StillNoReceipts(db: Db, s: Submission, db': Db)
    requires ExpectAll(db.streams, s.batch.expected).Ok? && Later(Opened(db, s), db')
    requires forall k :: k in db.tables.receipts ==> k.tx != s.batch.transactionId
    ensures LeasedBy(db'.tables, s.batch.transactionId) == {}
  {
    hide Onward, NextTxSequence, ExpectAll;
  }

  lemma StepTaken(r: Run, i: nat, next: nat)
    requires IsRun(r) && i < |r.steps| && next == i + 1
    ensures next < |r.states| && Enabled(r.states[i], r.steps[i]) && r.states[next] == After(r.states[i], r.steps[i])
  {
    hide Enabled, After;
    assert Follows(r, i);
  }

  lemma BatchRemembered(r: Run, i: nat, k: nat, id: Id)
    requires IsRun(r) && i < k < |r.states| && i < |r.steps| && BatchUnder(r.steps[i], id)
    ensures LeasedBy(r.states[k].tables, id) == {}
  {
    hide IsRun, DbInv, Later, LeasedBy, Enabled, After;
    var next := i + 1;
    StepTaken(r, i, next);
    RunInv(r, i);
    RunInv(r, next);
    RunInv(r, k);
    RunLater(r, next, k);
    BatchLeasesNothing(r.states[i], r.steps[i].submission);
    forall x ensures x !in LeasedBy(r.states[k].tables, id) {
      RememberedLater(r.states[next], r.states[k], id, x);
    }
  }

  lemma LeasedWasGranted(r: Run, k: nat, id: Id, x: Id)
    requires IsRun(r) && k < |r.states| && x in LeasedBy(r.states[k].tables, id)
    ensures ClaimGranted(r.steps[..k], id)
  {
    hide Follows, DbInv, LeasedBy, Ledger;
    RunInv(r, k);
    OnRecordIffStep(r, k, id);
    LeasedIsOnRecord(r.states[k], id, x);
    var i :| 0 <= i < k && TxOf(r.steps[..k][i]) == Some(id);
    assert r.steps[..k][i] == r.steps[i];
    if r.steps[i].BatchStep? {
      BatchRemembered(r, i, k, id);
    } else {
      ClaimRemembered(r, i, k, x);
      assert GrantsUnder(r.steps[..k][i], id);
    }
  }

  lemma OnRecordIffStep(r: Run, k: nat, id: Id)
    requires IsRun(r) && k < |r.states|
    ensures id in r.states[k].transactions <==> id in TxIds(r.steps[..k])
    ensures id in r.states[k].transactions <==> exists i :: 0 <= i < k && TxOf(r.steps[..k][i]) == Some(id)
  {
    hide Follows, Distinct;
    RunLedger(r, k);
    StepOfTx(r.steps[..k], id);
  }

  /** A transaction leased jobs exactly when it is a claim of the history that granted some. */
  lemma LeasedIffGranted(r: Run, k: nat, id: Id)
    requires IsRun(r) && k < |r.states|
    ensures LeasedBy(r.states[k].tables, id) != {} <==> ClaimGranted(r.steps[..k], id)
  {
    hide Follows, LeasedBy;
    if x :| x in LeasedBy(r.states[k].tables, id) { LeasedWasGranted(r, k, id, x); }
    if i :| 0 <= i < k && GrantsUnder(r.steps[..k][i], id) {
      var x :| x in r.steps[i].claim.grants;
      ClaimRemembered(r, i, k, x);
    }
  }

  lemma LeasedIsOnRecord(db: Db, tx: Id, x: Id)
    requires DbInv(db) && x in LeasedBy(db.tables, tx)
    ensures tx in db.transactions
  {
    hide JobsInv, EventsInv, SequencesDistinct;
    LeasedByMeans(db.tables, tx, x);
  }

  /** What recovery must answer, by the history alone: a claim that leased jobs is committed and its jobs are split, all
      of them; any other transaction on record is taken for a maintenance claim; the rest are absent. */
  ghost predicate RecoversHistory(steps: seq<Step>, id: Id, r: ClaimRecovery) {
    match r
    case Committed(executable, stale) =>
      exists i :: 0 <= i < |steps| && GrantsUnder(steps[i], id) && SplitsGrants(steps[i].claim.grants, executable, stale)
    case MaintenanceCommitted => id in TxIds(steps) && !ClaimGranted(steps, id)
    case Absent => id !in TxIds(steps)
  }

  /** Every granted job is in exactly one of the two lists, executable under the token it was granted. */
  ghost predicate SplitsGrants(grants: map<Id, Id>, executable: seq<Grant>, stale: seq<Id>) {
    && (forall n :: 0 <= n < |executable| ==>
          executable[n].jobId in grants && executable[n].token == grants[executable[n].jobId] && executable[n].jobId !in stale)
    && (forall id :: id in stale ==> id in grants)
    && (forall id :: id in grants && id !in stale ==> exists n :: 0 <= n < |executable| && executable[n].jobId == id)
  }

  lemma SplitOfClaim(r: Run, k: nat, i: nat, now: I64, ids: seq<Id>, executable: seq<Grant>, stale: seq<Id>)
    requires IsRun(r) && i < k < |r.states| && i < |r.steps| && r.steps[i].ClaimStep?
    requires var c, t := r.steps[i].claim, r.states[k].tables;
             (forall id :: id in ids <==> id in LeasedBy(t, c.tx)) && Splits(t, c.tx, now, ids, executable, stale)
    ensures SplitsGrants(r.steps[i].claim.grants, executable, stale)
  {
    var c, t := r.steps[i].claim, r.states[k].tables;
    forall id ensures id in ids <==> id in c.grants
              ensures id in c.grants ==> ReceiptKey(c.tx, id) in t.receipts && t.receipts[ReceiptKey(c.tx, id)].token == c.grants[id]
    {
      ClaimRemembered(r, i, k, id);
      LeasedByMeans(t, c.tx, id);
    }
    hide IsRun, LeasedBy, StillCurrent;
  }

  /** Claim recovery is determined by the history: Committed with exactly the jobs the claim leased, MaintenanceCommitted
      for any other transaction on record, Absent for the rest. */
  lemma RecoveryMeans(r: Run, k: nat, id: Id, now: I64, answer: ClaimRecovery)
    requires IsRun(r) && k < |r.states| && Recovers(r.states[k], id, now, answer)
    ensures RecoversHistory(r.steps[..k], id, answer)
  {
    hide Follows, DbInv, LeasedBy, Splits, SplitsGrants;
    OnRecordIffStep(r, k, id);
    LeasedIffGranted(r, k, id);
    if answer.Committed? {
      var ids :| (forall x :: x in ids <==> x in LeasedBy(r.states[k].tables, id))
        && Splits(r.states[k].tables, id, now, ids, answer.executable, answer.stale);
      var i :| 0 <= i < k && GrantsUnder(r.steps[..k][i], id);
      assert r.steps[..k][i] == r.steps[i];
      SplitOfClaim(r, k, i, now, ids, answer.executable, answer.stale);
    }
  }

  /** The answer MaintenanceCommitted is true, a claim that committed maintenance only, exactly when the id is not a
      batch's. Of a batch that committed, it is what recovery answers, and it is wrong. */
  lemma MaintenanceAnswerTrueIff(r: Run, k: nat, id: Id, now: I64, answer: ClaimRecovery)
    requires IsRun(r) && k < |r.states| && Recovers(r.states[k], id, now, answer)
    ensures BatchCommitted(r.steps[..k], id) ==> answer.MaintenanceCommitted?
    ensures answer.MaintenanceCommitted? ==>
              ((exists i :: 0 <= i < k && r.steps[i].ClaimStep? && r.steps[i].claim.tx == id && r.steps[i].claim.grants == map[])
               <==> !BatchCommitted(r.steps[..k], id))
  {
    RecoveryMeans(r, k, id, now, answer);
    LeasedIffGranted(r, k, id);
    StepOfTx(r.steps[..k], id);
    hide Follows, DbInv, LeasedBy, SplitsGrants, Splits;
    if i :| 0 <= i < k && BatchUnder(r.steps[..k][i], id) {
      assert TxOf(r.steps[..k][i]) == Some(id);
      BatchRemembered(r, i, k, id);
      forall m | 0 <= m < k && m != i ensures TxOf(r.steps[m]) != Some(id) {
        if m < i { if TxOf(r.steps[m]) == Some(id) { StepUnique(r, m, i, id); } } else { StepUnique(r, i, m, id); }
      }
    } else if answer.MaintenanceCommitted? {
      var i :| 0 <= i < k && TxOf(r.steps[..k][i]) == Some(id);
      assert r.steps[..k][i] == r.steps[i];
    }
  }
}
