/** Calls whose COMMIT may be lost, or may persist without the caller being told, and the recovery
    that makes resubmission safe (src/store/commit.rs, src/store/mod.rs). */
module Delivery {
  import opened Types
  import opened Messages
  import opened Encoding
  import opened RequestDigest
  import Sha256
  import opened Jobs
  import opened Claims
  import opened JobHistory
  import opened Kernel
  import opened Recovery
  import opened Runs

  /** What becomes of a COMMIT: it persists and is reported, persists unreported, or is lost unreported. */
  datatype Fate = Reported | Unreported | Lost

  /** A call that ends in a COMMIT, if nothing refuses it first. */
  datatype Call = Call(step: Step, fate: Fate)

  datatype Reply = Done(receipt: CommitReceipt) | Refused(error: Error) | Indeterminate(transactionId: Id)

  ghost predicate Persists(db: Db, call: Call) { Enabled(db, call.step) && !call.fate.Lost? }

  ghost function Durable(db: Db, call: Call): Db {
    if Persists(db, call) then After(db, call.step) else db
  }

  /** The reply to submitting a batch: only a COMMIT that is reached can be indeterminate. */
  function CommitReply(db: Db, s: Submission, fate: Fate): Reply {
    match Submit(db, s)
    case Err(e) => Refused(e)
    case Ok((_, receipt)) =>
      if s.batch.transactionId in db.transactions || fate.Reported? then Done(receipt)
      else Indeterminate(s.batch.transactionId)
  }

  /** Submitting a batch that is not on record is one step of a run. */
  lemma SubmitIsStep(db: Db, s: Submission)
    ensures Enabled(db, BatchStep(s)) <==> Submit(db, s).Ok? && s.batch.transactionId !in db.transactions
    ensures Enabled(db, BatchStep(s)) ==> Submit(db, s).value.0 == After(db, BatchStep(s))
    ensures Submit(db, s).Ok? && s.batch.transactionId in db.transactions ==> Submit(db, s).value.0 == db
  {
    hide CommitEffect, Validate, NextTxSequence;
  }

  // ----- a store in service -----

  /** The durable databases between calls. */
  datatype Service = Service(dbs: seq<Db>, calls: seq<Call>)

  ghost predicate Serves(v: Service, i: nat) {
    i < |v.calls| && i + 1 < |v.dbs| && v.dbs[i + 1] == Durable(v.dbs[i], v.calls[i])
  }

  ghost predicate IsService(v: Service) {
    && |v.dbs| == |v.calls| + 1 && v.dbs[0] == EMPTY_DB
    && forall i: nat :: i < |v.calls| ==> Serves(v, i)
  }

  /** The transactions that persisted among the first k calls, with the databases between them. */
  ghost function RunTo(v: Service, k: nat): Run
    requires k <= |v.calls| < |v.dbs|
  {
    if k == 0 then Run([v.dbs[0]], [])
    else
      var r := RunTo(v, k - 1);
      if Persists(v.dbs[k - 1], v.calls[k - 1]) then Run(r.states + [v.dbs[k]], r.steps + [v.calls[k - 1].step]) else r
  }

  lemma ExtendRun(r: Run, step: Step, db: Db)
    requires IsRun(r) && Enabled(r.states[|r.steps|], step) && db == After(r.states[|r.steps|], step)
    ensures IsRun(Run(r.states + [db], r.steps + [step]))
  {
    hide Enabled, After;
    var r' := Run(r.states + [db], r.steps + [step]);
    forall i: nat | i < |r'.steps| ensures Follows(r', i) {
      if i < |r.steps| { assert Follows(r, i); }
    }
  }

  /** The durable state is the fold of the transactions that persisted, whatever callers were told. */
  lemma {:induction false} DurableIsFold(v: Service, k: nat)
    requires IsService(v) && k <= |v.calls|
    ensures IsRun(RunTo(v, k)) && RunTo(v, k).states[|RunTo(v, k).steps|] == v.dbs[k]
  {
    hide Enabled, After;
    if k > 0 {
      var last := k - 1;
      DurableIsFold(v, last);
      assert Serves(v, last);
      var r := RunTo(v, last);
      if Persists(v.dbs[last], v.calls[last]) { ExtendRun(r, v.calls[last].step, v.dbs[k]); }
    }
  }

  lemma ServiceInv(v: Service, k: nat)
    requires IsService(v) && k < |v.dbs|
    ensures DbInv(v.dbs[k])
  {
    hide DbInv, Serves;
    DurableIsFold(v, k);
    RunInv(RunTo(v, k), |RunTo(v, k).steps|);
  }

  lemma {:induction false} ServiceLater(v: Service, i: nat, k: nat)
    requires IsService(v) && i <= k < |v.dbs|
    ensures Later(v.dbs[i], v.dbs[k])
    decreases k
  {
    hide DbInv, Enabled, After, Later;
    if i == k {
      ServiceInv(v, i);
      LaterSame(v.dbs[i]);
    } else {
      var last := k - 1;
      ServiceLater(v, i, last);
      ServiceInv(v, last);
      assert Serves(v, last);
      if Persists(v.dbs[last], v.calls[last]) {
        StepLater(v.dbs[last], v.calls[last].step);
        LaterTransitive(v.dbs[i], v.dbs[last], v.dbs[k]);
      }
    }
  }

  // ----- the ledger of transactions -----

  function TxOf(step: Step): Option<Id> {
    match step
    case BatchStep(s) => Some(s.batch.transactionId)
    case ClaimStep(c, _) => Some(c.tx)
    case ExtendStep(_, _) => None
  }

  /** The transaction ids of these steps, in order. */
  function TxIds(steps: seq<Step>): seq<Id> {
    if steps == [] then []
    else
      var tx := TxOf(steps[|steps| - 1]);
      TxIds(steps[..|steps| - 1]) + (if tx.Some? then [tx.value] else [])
  }

  /** The transactions table lists exactly these ids, once each, numbered from 1 in this order. */
  ghost predicate Ledger(transactions: map<Id, TxRow>, ids: seq<Id>) {
    && Distinct(ids) && (forall id :: id in transactions <==> id in ids)
    && forall n :: 0 <= n < |ids| ==> ids[n] in transactions && transactions[ids[n]].sequence == n + 1
  }

  lemma LedgerNext(transactions: map<Id, TxRow>, ids: seq<Id>)
    requires Ledger(transactions, ids)
    ensures NextTxSequence(transactions) == |ids| + 1
  {
    hide Distinct;
    var s := TxSequences(transactions);
    if ids == [] {
      assert s == {};
    } else {
      var last := ids[|ids| - 1];
      assert transactions[last].sequence in s;
      forall n | n in s ensures n <= |ids| {
        var id :| id in transactions && transactions[id].sequence == n;
        assert id in ids;
        var i :| 0 <= i < |ids| && ids[i] == id;
      }
      assert IsGreatest(MaxOrZero(s), s);
    }
  }

  lemma LedgerAdd(transactions: map<Id, TxRow>, ids: seq<Id>, id: Id, row: TxRow)
    requires Ledger(transactions, ids) && id !in transactions && row.sequence == |ids| + 1
    ensures Ledger(transactions[id := row], ids + [id])
  {
    forall x ensures x in ids + [id] <==> x in ids || x == id {}
  }

  lemma {:induction false} StepOfTx(steps: seq<Step>, id: Id)
    ensures id in TxIds(steps) <==> exists i :: 0 <= i < |steps| && TxOf(steps[i]) == Some(id)
  {
    if steps != [] {
      var last := |steps| - 1;
      var init := steps[..last];
      StepOfTx(init, id);
      if i :| 0 <= i < |init| && TxOf(init[i]) == Some(id) { assert TxOf(steps[i]) == Some(id); }
      if i :| 0 <= i < |steps| && TxOf(steps[i]) == Some(id) {
        if i < last { assert TxOf(init[i]) == Some(id); }
      }
    }
  }

  /** The row a transaction leaves: its number, its time, what identifies its request, and how many operations it counts. */
  function RowOf(step: Step, sequence: nat): TxRow
    requires TxOf(step).Some?
  {
    match step
    case BatchStep(s) => TxRow(sequence, s.batch.committedAt, s.digest, |s.batch.operations|)
    case ClaimStep(c, checksum) => TxRow(sequence, c.req.now, checksum, |c.repairs| + |c.grants|)
  }

  lemma StepRecords(db: Db, step: Step)
    requires DbInv(db) && Enabled(db, step)
    ensures match TxOf(step)
            case None => After(db, step).transactions == db.transactions
            case Some(id) =>
              id !in db.transactions
              && After(db, step).transactions == db.transactions[id := RowOf(step, NextTxSequence(db.transactions))]
  {
    hide DbInv, CommitEffect, Validate, NextTxSequence, Claimable, ClaimEffect;
    if step.BatchStep? { CommitKeepsInv(db, step.submission); }
  }

  lemma {:induction false} RunLedger(r: Run, k: nat)
    requires IsRun(r) && k < |r.states|
    ensures Ledger(r.states[k].transactions, TxIds(r.steps[..k]))
  {
    hide DbInv, Enabled, After, Ledger, NextTxSequence;
    if k == 0 {
      EmptyLedger();
    } else {
      var last := k - 1;
      RunLedger(r, last);
      RunInv(r, last);
      assert Follows(r, last);
      var db, ids := r.states[last], TxIds(r.steps[..last]);
      assert r.steps[..k][..last] == r.steps[..last];
      StepRecords(db, r.steps[last]);
      LedgerNext(db.transactions, ids);
      match TxOf(r.steps[last])
      case None => assert ids + [] == ids;
      case Some(id) =>
        LedgerAdd(db.transactions, ids, id, RowOf(r.steps[last], |ids| + 1));
    }
  }

  lemma EmptyLedger()
    ensures Ledger(EMPTY_DB.transactions, [])
  {}

  /** Exactly once: however calls were lost, repeated or interleaved, the transactions that persisted have
      distinct ids, are numbered 1, 2, .. in the order they took effect, and recovery reports exactly them. */
  lemma ExactlyOnce(v: Service, k: nat, id: Id)
    requires IsService(v) && k <= |v.calls|
    ensures Distinct(TxIds(RunTo(v, k).steps))
    ensures Recovered(v.dbs[k], id).Some? <==> id in TxIds(RunTo(v, k).steps)
    ensures forall n :: 0 <= n < |TxIds(RunTo(v, k).steps)| && TxIds(RunTo(v, k).steps)[n] == id ==>
              Recovered(v.dbs[k], id).value.sequence == n + 1
  {
    hide Serves, Follows;
    var r := RunTo(v, k);
    DurableIsFold(v, k);
    RunLedger(r, |r.steps|);
    assert r.steps[..|r.steps|] == r.steps;
  }

  // ----- receipts -----

  lemma ReplyTrue(v: Service, i: nat)
    requires IsService(v) && i < |v.calls| && v.calls[i].step.BatchStep?
    requires CommitReply(v.dbs[i], v.calls[i].step.submission, v.calls[i].fate).Done?
    ensures var s := v.calls[i].step.submission;
            && Recovered(v.dbs[i + 1], s.batch.transactionId) == Some(CommitReply(v.dbs[i], s, v.calls[i].fate).receipt)
            && v.dbs[i + 1].transactions[s.batch.transactionId].digest == s.digest
  {
    assert Serves(v, i);
    ServiceInv(v, i);
    hide IsService, DbInv, CommitEffect, Validate, NextTxSequence;
    var db, s := v.dbs[i], v.calls[i].step.submission;
    if s.batch.transactionId !in db.transactions { CommitKeepsInv(db, s); }
  }

  /** A receipt, once given, is what recovery reports ever after, and what any later resubmission is given;
      the resubmission changes nothing. */
  lemma ReceiptStands(v: Service, i: nat, k: nat, s: Submission, fate: Fate)
    requires IsService(v) && i < k <= |v.calls| && v.calls[i].step == BatchStep(s)
    requires CommitReply(v.dbs[i], s, v.calls[i].fate).Done?
    ensures Recovered(v.dbs[k], s.batch.transactionId) == Some(CommitReply(v.dbs[i], s, v.calls[i].fate).receipt)
    ensures CommitReply(v.dbs[k], s, fate) == CommitReply(v.dbs[i], s, v.calls[i].fate)
    ensures Durable(v.dbs[k], Call(BatchStep(s), fate)) == v.dbs[k]
  {
    ReplyTrue(v, i);
    var next := i + 1;
    ServiceLater(v, next, k);
    assert Submit(v.dbs[i], s).Ok?;
    assert Validate(s.limits, s.batch).Ok?;
    hide IsService, DbInv, CommitEffect, Validate, NextTxSequence, Onward;
  }

  /** Any two receipts ever given for one transaction id are the same. */
  lemma ReceiptsAgree(v: Service, i: nat, k: nat, a: Submission, b: Submission)
    requires IsService(v) && i < k < |v.calls| && v.calls[i].step == BatchStep(a) && v.calls[k].step == BatchStep(b)
    requires a.batch.transactionId == b.batch.transactionId
    requires CommitReply(v.dbs[i], a, v.calls[i].fate).Done? && CommitReply(v.dbs[k], b, v.calls[k].fate).Done?
    ensures CommitReply(v.dbs[k], b, v.calls[k].fate).receipt == CommitReply(v.dbs[i], a, v.calls[i].fate).receipt
  {
    assert |v.dbs| == |v.calls| + 1;
    hide IsService, CommitReply, Later;
    ReplyTrue(v, i);
    ReplyTrue(v, k);
    var next, end := i + 1, k + 1;
    ServiceLater(v, next, end);
    RecoveredLater(v.dbs[next], v.dbs[end], a.batch.transactionId);
  }

  lemma RecoveredLater(db: Db, db': Db, id: Id)
    requires Later(db, db') && Recovered(db, id).Some?
    ensures Recovered(db', id) == Recovered(db, id)
  {
    hide Onward, ReceiptsClosed;
  }

  // ----- what persisted, whether or not the caller was told -----

  lemma PersistedRow(db: Db, s: Submission)
    requires DbInv(db) && Enabled(db, BatchStep(s))
    ensures var id, db' := s.batch.transactionId, After(db, BatchStep(s));
            && Submit(db, s).Ok? && Recovered(db', id) == Some(Submit(db, s).value.1)
            && db'.transactions[id].digest == s.digest
  {
    hide DbInv, CommitEffect, Validate, NextTxSequence;
    CommitKeepsInv(db, s);
  }

  /** A batch that persisted is found by recovery at every later moment, with the receipt of its own COMMIT. */
  lemma PersistedStands(v: Service, i: nat, k: nat, s: Submission)
    requires IsService(v) && i < k <= |v.calls| && v.calls[i].step == BatchStep(s) && Persists(v.dbs[i], v.calls[i])
    ensures Submit(v.dbs[i], s).Ok? && Recovered(v.dbs[k], s.batch.transactionId) == Some(Submit(v.dbs[i], s).value.1)
    ensures v.dbs[k].transactions[s.batch.transactionId].digest == s.digest
  {
    assert Serves(v, i);
    var next := i + 1;
    ServiceInv(v, i);
    ServiceLater(v, next, k);
    hide IsService, DbInv, Enabled, After, Submit, Onward;
    PersistedRow(v.dbs[i], s);
  }

  lemma RecoveredStep(db: Db, call: Call, id: Id)
    requires DbInv(db)
    ensures Recovered(Durable(db, call), id).Some? <==> Recovered(db, id).Some? || (Persists(db, call) && TxOf(call.step) == Some(id))
  {
    hide DbInv, Enabled, After, NextTxSequence;
    if Persists(db, call) { StepRecords(db, call.step); }
  }

  /** Recovery finds an id exactly when it was on record before or a transaction with it persisted since. */
  lemma {:induction false} RecoveredSince(v: Service, i: nat, k: nat, id: Id)
    requires IsService(v) && i <= k < |v.dbs|
    ensures Recovered(v.dbs[k], id).Some? <==>
            Recovered(v.dbs[i], id).Some?
            || exists j :: i <= j < k && Persists(v.dbs[j], v.calls[j]) && TxOf(v.calls[j].step) == Some(id)
    decreases k
  {
    hide DbInv, Persists, Recovered, Durable;
    if i < k {
      var last := k - 1;
      RecoveredSince(v, i, last, id);
      assert Serves(v, last);
      ServiceInv(v, last);
      RecoveredStep(v.dbs[last], v.calls[last], id);
    }
  }

  /** After an indeterminate reply, whatever is called in between: if that COMMIT persisted, recovery and every
      resubmission report the receipt of that very COMMIT, at every later moment, and resubmission changes nothing; if it
      was lost, nothing changed, and recovery finds the id only once a later call with it has persisted. */
  lemma IndeterminateRecovers(v: Service, i: nat, k: nat, s: Submission, fate: Fate)
    requires IsService(v) && i < k <= |v.calls| && v.calls[i].step == BatchStep(s)
    requires CommitReply(v.dbs[i], s, v.calls[i].fate).Indeterminate?
    ensures v.calls[i].fate.Unreported? ==>
              && Recovered(v.dbs[k], s.batch.transactionId) == Some(Submit(v.dbs[i], s).value.1)
              && CommitReply(v.dbs[k], s, fate) == Done(Submit(v.dbs[i], s).value.1)
              && Durable(v.dbs[k], Call(BatchStep(s), fate)) == v.dbs[k]
    ensures v.calls[i].fate.Lost? ==>
              && v.dbs[i + 1] == v.dbs[i]
              && (Recovered(v.dbs[k], s.batch.transactionId).Some? <==>
                    exists j :: i < j < k && Persists(v.dbs[j], v.calls[j]) && TxOf(v.calls[j].step) == Some(s.batch.transactionId))
  {
    assert Serves(v, i);
    SubmitIsStep(v.dbs[i], s);
    ResubmissionReply(v.dbs[k], s, fate);
    hide IsService, Enabled, After, Submit;
    var next := i + 1;
    if v.calls[i].fate.Unreported? {
      PersistedStands(v, i, k, s);
    } else {
      RecoveredSince(v, next, k, s.batch.transactionId);
    }
  }

  /** Resubmitting what is on record, under the digest on record, returns its receipt and does nothing. */
  lemma ResubmissionReply(db: Db, s: Submission, fate: Fate)
    requires Validate(s.limits, s.batch).Ok?
    ensures s.batch.transactionId in db.transactions ==>
              && CommitReply(db, s, fate) ==
                 (if db.transactions[s.batch.transactionId].digest == s.digest then Done(Recovered(db, s.batch.transactionId).value)
                  else Refused(DuplicateIdWithDifferentContent))
              && Durable(db, Call(BatchStep(s), fate)) == db
  {
    hide CommitEffect, Validate, NextTxSequence;
  }

  /** The digest decides content: once batch `a` has persisted, submitting a valid batch under its id is answered with the
      receipt of `a` if it is `a`, and refused if it differs anywhere, unless SHA-256 collides on the two encodings. */
  lemma ContentDecides(v: Service, i: nat, k: nat, a: CommitBatch, b: CommitBatch, la: Limits, lb: Limits, fate: Fate)
    requires |Encode(a)| < 0x2000_0000_0000_0000 && |Encode(b)| < 0x2000_0000_0000_0000 && Fits(a) && Fits(b)
    requires Sha256.Sum(Encode(a)) == Sha256.Sum(Encode(b)) ==> Encode(a) == Encode(b)
    requires IsService(v) && i < k <= |v.calls|
    requires v.calls[i].step == BatchStep(Submission(a, DigestOf(a), la)) && Persists(v.dbs[i], v.calls[i])
    requires b.transactionId == a.transactionId && Validate(lb, b).Ok?
    ensures CommitReply(v.dbs[k], Submission(b, DigestOf(b), lb), fate) ==
            if a == b then Done(Submit(v.dbs[i], Submission(a, DigestOf(a), la)).value.1)
            else Refused(DuplicateIdWithDifferentContent)
  {
    EqualDigestsMeanEqualContent(a, b);
    hide IsService, Persists, Submit, Encode, Fits, DigestOf, Validate;
    PersistedStands(v, i, k, Submission(a, DigestOf(a), la));
    ResubmissionReply(v.dbs[k], Submission(b, DigestOf(b), lb), fate);
  }

  // ----- what receipts say -----

  /** When a transaction took effect, as it says itself: a batch its committedAt, a claim its now. */
  function TimeOf(step: Step): I64
    requires TxOf(step).Some?
  {
    match step
    case BatchStep(s) => s.batch.committedAt
    case ClaimStep(c, _) => c.req.now
  }

  /** The receipt of the i-th step of a history: its own id and time, and its place among the transactions. */
  function ReceiptAt(steps: seq<Step>, i: nat): CommitReceipt
    requires i < |steps| && TxOf(steps[i]).Some?
  {
    CommitReceipt(TxOf(steps[i]).value, |TxIds(steps[..i])| + 1, TimeOf(steps[i]))
  }

  lemma RowInRun(r: Run, i: nat, k: nat)
    requires IsRun(r) && i < k < |r.states| && TxOf(r.steps[i]).Some?
    ensures var id := TxOf(r.steps[i]).value;
            id in r.states[k].transactions && r.states[k].transactions[id] == RowOf(r.steps[i], |TxIds(r.steps[..i])| + 1)
  {
    var next := i + 1;
    RunLedger(r, i);
    RunInv(r, i);
    RunLater(r, next, k);
    assert Follows(r, i);
    hide IsRun, DbInv, Enabled, After, NextTxSequence, Ledger, Onward, ReceiptsClosed;
    StepRecords(r.states[i], r.steps[i]);
    LedgerNext(r.states[i].transactions, TxIds(r.steps[..i]));
  }

  /** What recovery reports of a transaction in the history is its own id, its place and its own time. */
  lemma RecoveredTells(v: Service, k: nat, i: nat)
    requires IsService(v) && k <= |v.calls| && i < |RunTo(v, k).steps| && TxOf(RunTo(v, k).steps[i]).Some?
    ensures Recovered(v.dbs[k], TxOf(RunTo(v, k).steps[i]).value) == Some(ReceiptAt(RunTo(v, k).steps, i))
  {
    hide Serves, IsRun, TxIds;
    var r := RunTo(v, k);
    DurableIsFold(v, k);
    assert |r.states| == |r.steps| + 1 by { RunLength(r); }
    RowInRun(r, i, |r.steps|);
  }

  lemma RunLength(r: Run)
    requires IsRun(r)
    ensures |r.states| == |r.steps| + 1
  {}

  /** Every receipt ever given for a batch is the receipt of the transaction in the history that has its id and its digest:
      that transaction's id, its place among the transactions that took effect, and its own time. */
  lemma ReceiptTells(v: Service, k: nat, s: Submission) returns (i: nat)
    requires IsService(v) && k < |v.calls| && v.calls[k].step == BatchStep(s)
    requires CommitReply(v.dbs[k], s, v.calls[k].fate).Done?
    ensures var steps := RunTo(v, k + 1).steps;
            && i < |steps| && TxOf(steps[i]) == Some(s.batch.transactionId)
            && CommitReply(v.dbs[k], s, v.calls[k].fate) == Done(ReceiptAt(steps, i))
            && (steps[i].BatchStep? ==> steps[i].submission.digest == s.digest)
  {
    assert |v.dbs| == |v.calls| + 1;
    hide IsService, CommitReply, IsRun, TxIds;
    var end, id := k + 1, s.batch.transactionId;
    var r := RunTo(v, end);
    ReplyTrue(v, k);
    ExactlyOnce(v, end, id);
    StepOfTx(r.steps, id);
    i :| 0 <= i < |r.steps| && TxOf(r.steps[i]) == Some(id);
    RecoveredTells(v, end, i);
    DurableIsFold(v, end);
    RunLength(r);
    RowInRun(r, i, |r.steps|);
  }

  lemma ClaimRowKept(db: Db, step: Step)
    requires Enabled(db, step) && step.ClaimStep?
    ensures step.claim.tx in After(db, step).transactions && |After(db, step).transactions[step.claim.tx].digest| == 16
  {
    hide Claimable, ClaimEffect, CommitEffect, Extend, NextTxSequence;
  }

  /** The id of a claim transaction can never be used for a batch: the stored checksum is no batch digest. */
  lemma ClaimIdRefused(r: Run, i: nat, k: nat, s: Submission)
    requires IsRun(r) && i < k < |r.states| && r.steps[i].ClaimStep? && s.batch.transactionId == r.steps[i].claim.tx
    requires |s.digest| == 32 && Validate(s.limits, s.batch).Ok?
    ensures Submit(r.states[k], s) == Err(DuplicateIdWithDifferentContent)
  {
    assert Follows(r, i);
    var next := i + 1;
    RunLater(r, next, k);
    ClaimRowKept(r.states[i], r.steps[i]);
    hide IsRun, Enabled, After, Onward, Validate, CommitEffect;
  }
}
