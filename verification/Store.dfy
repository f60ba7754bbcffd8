/** The store itself: one writer connection, reopened after a COMMIT of unknown outcome (src/store/mod.rs). */
module Store {
  import opened Types
  import opened Messages
  import opened Encoding
  import opened RequestDigest
  import opened Jobs
  import opened JobInvariant
  import opened Scheduler
  import opened Claims
  import opened Kernel
  import opened Recovery
  import opened Runs
  import opened Delivery
  import opened RecoveryHistory
  import opened ClaimPlan
  import opened Connection

  /** The writer slot: a poisoned connection has been discarded and must be reopened. */
  datatype Writer = Open | Poisoned

  datatype ClaimReply =
    | Answered(outcome: ClaimOutcome)
    | Rejected(error: Error)
    | Unknown(tx: Id, proposed: seq<Id>)

  datatype ExtendReply = Extended(attempt: nat, expires: I64) | ExtendRefused(conflict: LeaseConflict) | ExtendIndeterminate(job: Id)

  class ControlPlaneStore {
    const limits: Limits

    /** What is durable. */
    var file: Db
    var writer: Writer

    /** Every transaction that persisted, and the databases between them. */
    ghost var history: Run

    ghost predicate Valid()
      reads this
    {
      IsRun(history) && history.states[|history.steps|] == file
    }

    constructor (limits: Limits)
      ensures Valid() && file == EMPTY_DB && this.limits == limits
    {
      this.limits := limits;
      file, writer := EMPTY_DB, Open;
      history := Run([EMPTY_DB], []);
    }

    method OpenWriter()
      modifies `writer
      ensures writer.Open?
    {
      if writer.Poisoned? { writer := Open; }
    }

    /** The end of a write transaction: the file takes the new tables unless the COMMIT is lost. */
    method EndTransaction(db: Db, fate: Fate, ghost step: Step)
      requires Valid() && Enabled(file, step) && db == After(file, step)
      modifies this
      ensures Valid() && file == Durable(old(file), Call(step, fate))
      ensures history.steps == old(history.steps) + (if fate.Lost? then [] else [step])
      ensures writer == if fate.Reported? then old(writer) else Poisoned
    {
      hide Enabled, After;
      if !fate.Lost? {
        ExtendRun(history, step, db);
        history := Run(history.states + [db], history.steps + [step]);
        file := db;
      }
      if !fate.Reported? { writer := Poisoned; }
    }

    /** Commit a batch. What is durable, the reply and the writer's fate follow from the file and the fate of COMMIT. */
    method Commit(batch: CommitBatch, fate: Fate) returns (r: Reply)
      requires Valid() && |Encode(batch)| < 0x2000_0000_0000_0000
      modifies this
      ensures Valid()
      ensures var call := Call(BatchStep(Submission(batch, DigestOf(batch), limits)), fate);
              && r == CommitReply(old(file), Submission(batch, DigestOf(batch), limits), fate)
              && file == Durable(old(file), call)
              && history.steps == old(history.steps) + (if Persists(old(file), call) then [call.step] else [])
      ensures writer.Poisoned? <==> r.Indeterminate?
    {
      hide DbInv, IsRun, Submit, DigestOf, Encode, Enabled, After;
      OpenWriter();
      ghost var s := Submission(batch, DigestOf(batch), limits);
      HistoryInv(history, file);
      SubmitIsStep(file, s);
      var tx := new Transaction(file);
      var result, pending := tx.Commit(limits, batch);
      if result.Err? { return Refused(result.error); }
      if !pending { return Done(result.value); }
      EndTransaction(tx.View(), fate, BatchStep(s));
      return if fate.Reported? then Done(result.value) else Indeterminate(batch.transactionId);
    }

    /** Claim ready jobs. The store moves by one claim step, or not at all. */
    method ClaimJobs(req: ClaimRequest, ids: seq<Id>, checksum: Bytes, fate: Fate) returns (r: ClaimReply, ghost claim: Claim)
      requires Valid() && FreshIds(file, ids) && |ids| > |ActiveKeys(file.tables, req.queue)| && |checksum| == 16
      modifies this
      ensures Valid()
      ensures match CheckRequest(req)
              case Err(e) => r == Rejected(e) && file == old(file) && history == old(history)
              case Ok(_) => ClaimMeets(old(file), file, req, claim, checksum, fate, r)
      ensures history.steps == old(history.steps)
              + (if r.Rejected? || r == Answered(Noop) || fate.Lost? then [] else [ClaimStep(claim, checksum)])
      ensures writer.Poisoned? <==> r.Unknown?
    {
      hide DbInv, IsRun, Enabled, After, ActiveKeys, FreshIds, CheckRequest, Reports, ExpiredIds, PlannedJobs;
      OpenWriter();
      HistoryInv(history, file);
      ghost var db := file;
      var tx := new Transaction(file);
      var result;
      result, claim := tx.ClaimJobs(req, ids, checksum);
      if result.Err? { return Rejected(result.error), claim; }
      var outcome := result.value;
      if outcome.Noop? { return Answered(Noop), claim; }
      EndTransaction(tx.View(), fate, ClaimStep(claim, checksum));
      if fate.Reported? { return Answered(outcome), claim; }
      ProposedAreGranted(db, claim, checksum, outcome);
      return Unknown(outcome.tx, ProposedJobs(outcome)), claim;
    }

    method ExtendLease(x: LeaseExtension, now: I64, fate: Fate) returns (r: ExtendReply)
      requires Valid()
      modifies this
      ensures Valid()
      ensures match CheckExtension(old(file).tables, now, x)
              case Err(c) => r == ExtendRefused(c) && file == old(file) && history == old(history)
              case Ok(_) =>
                && history.steps == old(history.steps) + (if fate.Lost? then [] else [ExtendStep(x, now)])
                && file == Durable(old(file), Call(ExtendStep(x, now), fate))
                && r == if fate.Reported? then Extended(old(file).tables.jobs[x.jobId].attempt, x.newExpiry)
                        else ExtendIndeterminate(x.jobId)
      ensures writer.Poisoned? <==> r.ExtendIndeterminate?
    {
      hide DbInv, JobsInv, IsRun, CheckExtension, ExtendReceipts;
      OpenWriter();
      HistoryInv(history, file);
      ReceiptsReferTo(file);
      var tx := new Transaction(file);
      var result := tx.ApplyExtendLease(now, x);
      if result.Err? { return ExtendRefused(result.error); }
      EndTransaction(tx.View(), fate, ExtendStep(x, now));
      return if fate.Reported? then Extended(result.value.0, result.value.1) else ExtendIndeterminate(x.jobId);
    }

    /** Recovery reads what is durable, through a reopened writer if the last COMMIT poisoned it: the answer is
        Committed exactly for the transactions in the history. */
    method RecoverTransaction(id: Id) returns (r: Option<CommitReceipt>)
      requires Valid()
      modifies `writer
      ensures writer.Open?
      ensures r == Recovered(file, id)
      ensures r.Some? <==> id in TxIds(history.steps)
    {
      hide DbInv, IsRun, Ledger;
      OpenWriter();
      HistoryLedger(history, id);
      var tx := new Transaction(file);
      r := tx.RecoverTransaction(id);
    }

    /** Recovery of a claim, from what is durable: it reports exactly the jobs that a claim of the history leased, takes any
        other transaction of the history for a maintenance claim, and says of the rest that they are absent. */
    method RecoverClaim(id: Id, now: I64) returns (r: ClaimRecovery)
      requires Valid()
      modifies `writer
      ensures writer.Open?
      ensures Recovers(file, id, now, r) && RecoversHistory(history.steps, id, r)
    {
      hide DbInv, JobsInv, IsRun, Recovers, RecoversHistory;
      OpenWriter();
      HistoryInv(history, file);
      ReceiptsReferTo(file);
      var tx := new Transaction(file);
      r := tx.RecoverClaim(id, now);
      HistoryRecovers(history, id, now, r);
    }
  }

  /** The answer to a claim, and what it leaves durable. */
  ghost predicate ClaimMeets(db: Db, db': Db, req: ClaimRequest, claim: Claim, checksum: Bytes, fate: Fate, r: ClaimReply) {
    match r
    case Rejected(_) => false
    case Answered(outcome) =>
      if outcome.Noop? then
        db' == db && ExpiredIds(db.tables, req) == {} && PlannedJobs(db.tables, req) == {}
      else
        fate.Reported? && claim.req == req && Enabled(db, ClaimStep(claim, checksum))
        && db' == After(db, ClaimStep(claim, checksum)) && Reports(db.tables, claim, outcome)
    case Unknown(tx, proposed) =>
      && !fate.Reported? && claim.req == req && tx == claim.tx && Enabled(db, ClaimStep(claim, checksum))
      && db' == Durable(db, Call(ClaimStep(claim, checksum), fate))
      && |proposed| == |claim.grants| && forall id :: id in proposed <==> id in claim.grants
  }

  /** The jobs an indeterminate claim may have leased. */
  function ProposedJobs(outcome: ClaimOutcome): seq<Id> {
    if outcome.Claimed? then seq(|outcome.grants|, i requires 0 <= i < |outcome.grants| => outcome.grants[i].jobId) else []
  }

  /** They are the jobs the claim grants, all of them. */
  lemma ProposedAreGranted(db: Db, claim: Claim, checksum: Bytes, outcome: ClaimOutcome)
    requires Reports(db.tables, claim, outcome) && Enabled(db, ClaimStep(claim, checksum))
    ensures !outcome.Noop? && outcome.tx == claim.tx && |ProposedJobs(outcome)| == |claim.grants|
    ensures forall id :: id in ProposedJobs(outcome) <==> id in claim.grants
  {
    hide PlannedKeys, Head, Enabled;
    if outcome.Claimed? {
      var t, proposed := db.tables, ProposedJobs(outcome);
      forall id | id in proposed ensures id in claim.grants {
        var n :| 0 <= n < |outcome.grants| && proposed[n] == id;
        assert ReportsOne(t, claim, PlannedKeys(t, claim.req)[n], outcome.grants[n]);
      }
      forall id | id in claim.grants ensures id in proposed {
        GrantIsPlanned(db, claim, checksum, id);
        var n := PlannedAt(t, claim.req, id);
        assert ReportsOne(t, claim, PlannedKeys(t, claim.req)[n], outcome.grants[n]);
        assert proposed[n] == id;
      }
    }
  }

  lemma GrantIsPlanned(db: Db, claim: Claim, checksum: Bytes, id: Id)
    requires Enabled(db, ClaimStep(claim, checksum)) && id in claim.grants
    ensures id in PlannedJobs(db.tables, claim.req)
  {
    hide Claimable, PlannedJobs;
    GrantedIsPlanned(db.tables, claim, id);
  }

  lemma HistoryInv(r: Run, db: Db)
    requires IsRun(r) && r.states[|r.steps|] == db
    ensures DbInv(db)
  {
    hide DbInv;
    RunInv(r, |r.steps|);
  }

  lemma HistoryLedger(r: Run, id: Id)
    requires IsRun(r)
    ensures id in r.states[|r.steps|].transactions <==> id in TxIds(r.steps)
  {
    hide Follows;
    RunLedger(r, |r.steps|);
    assert r.steps[..|r.steps|] == r.steps;
  }

  lemma HistoryRecovers(r: Run, id: Id, now: I64, answer: ClaimRecovery)
    requires IsRun(r) && Recovers(r.states[|r.steps|], id, now, answer)
    ensures RecoversHistory(r.steps, id, answer)
  {
    hide Follows, Recovers, RecoversHistory;
    RecoveryMeans(r, |r.steps|, id, now, answer);
    assert r.steps[..|r.steps|] == r.steps;
  }
}
