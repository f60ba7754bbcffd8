/** Computing the request digest: the writers feed the canonical encoding to the hasher
    piece by piece (src/transaction.rs). */
module RequestDigest {
  import opened Types
  import opened Messages
  import opened Encoding
  import Sha256

  /** The digest stored with a committed batch and compared on resubmission. */
  function DigestOf(b: CommitBatch): (digest: Bytes)
    requires |Encode(b)| < 0x2000_0000_0000_0000
    ensures |digest| == 32
  {
    Sha256.Sum(Encode(b))
  }

  /** Two contents of one transaction id with equal digests are equal, unless SHA-256 itself collides on them. */
  lemma EqualDigestsMeanEqualContent(a: CommitBatch, b: CommitBatch)
    requires Fits(a) && Fits(b) && a.transactionId == b.transactionId
    requires |Encode(a)| < 0x2000_0000_0000_0000 && |Encode(b)| < 0x2000_0000_0000_0000
    requires Sha256.Sum(Encode(a)) == Sha256.Sum(Encode(b)) ==> Encode(a) == Encode(b)
    ensures DigestOf(a) == DigestOf(b) <==> a == b
  {
    hide Encode, Sha256.Sum, Fits;
    EncodingInjective(a, b);
  }

  /** The incremental hasher over canonical input. */
  class Digest {
    const hasher: Sha256.Hasher

    ghost predicate Valid()
      reads hasher, hasher.state, hasher.buffer
    {
      hasher.Valid()
    }

    ghost function Fed(): Bytes
      reads hasher
    {
      hasher.fed
    }

    constructor ()
      ensures Valid() && Fed() == []
      ensures fresh(hasher) && fresh(hasher.state) && fresh(hasher.buffer)
    {
      hasher := new Sha256.Hasher();
    }

    method WriteRaw(bytes: seq<Byte>)
      requires Valid()
      modifies hasher, hasher.state, hasher.buffer
      ensures Valid() && forall rest: Bytes {:trigger Fed() + rest} :: Fed() + rest == old(Fed()) + (bytes + rest)
    {
      hasher.Update(bytes);
      forall rest: Bytes ensures Fed() + rest == old(Fed()) + (bytes + rest) {
        assert (old(Fed()) + bytes) + rest == old(Fed()) + (bytes + rest);
      }
    }

    method WriteU8(v: Byte)
      requires Valid()
      modifies hasher, hasher.state, hasher.buffer
      ensures Valid() && forall rest: Bytes {:trigger Fed() + rest} :: Fed() + rest == old(Fed()) + PutU8(v, rest)
    {
      WriteRaw([v]);
    }

    method WriteU64(v: U64)
      requires Valid()
      modifies hasher, hasher.state, hasher.buffer
      ensures Valid() && forall rest: Bytes {:trigger Fed() + rest} :: Fed() + rest == old(Fed()) + PutU64(v, rest)
    {
      hide BigEndian;
      WriteRaw(BigEndian(v, 8));
    }

    method WriteI64(v: I64)
      requires Valid()
      modifies hasher, hasher.state, hasher.buffer
      ensures Valid() && forall rest: Bytes {:trigger Fed() + rest} :: Fed() + rest == old(Fed()) + PutI64(v, rest)
    {
      hide PutU64;
      WriteU64(if v < 0 then v + TWO_TO_64 else v);
    }

    method WriteBytes(bytes: seq<Byte>)
      requires Valid()
      modifies hasher, hasher.state, hasher.buffer
      ensures Valid() && forall rest: Bytes {:trigger Fed() + rest} :: Fed() + rest == old(Fed()) + PutBytes(bytes, rest)
    {
      hide PutU64;
      WriteU64(|bytes| % TWO_TO_64);
      WriteRaw(bytes);
    }

    method WriteId(id: Id)
      requires Valid()
      modifies hasher, hasher.state, hasher.buffer
      ensures Valid() && forall rest: Bytes {:trigger Fed() + rest} :: Fed() + rest == old(Fed()) + PutId(id, rest)
    {
      hide BigEndian;
      WriteRaw(BigEndian(id, 16));
    }

    method WriteOptId(id: Option<Id>)
      requires Valid()
      modifies hasher, hasher.state, hasher.buffer
      ensures Valid() && forall rest: Bytes {:trigger Fed() + rest} :: Fed() + rest == old(Fed()) + PutOptId(id, rest)
    {
      hide PutU8, PutId;
      match id
      case Some(v) => WriteU8(1); WriteId(v);
      case None => WriteU8(0);
    }

    method WriteOptBytes(bytes: Option<seq<Byte>>)
      requires Valid()
      modifies hasher, hasher.state, hasher.buffer
      ensures Valid() && forall rest: Bytes {:trigger Fed() + rest} :: Fed() + rest == old(Fed()) + PutOptBytes(bytes, rest)
    {
      hide PutU8, PutBytes;
      match bytes
      case Some(v) => WriteU8(1); WriteBytes(v);
      case None => WriteU8(0);
    }

    method WriteOptI64(n: Option<I64>)
      requires Valid()
      modifies hasher, hasher.state, hasher.buffer
      ensures Valid() && forall rest: Bytes {:trigger Fed() + rest} :: Fed() + rest == old(Fed()) + PutOptI64(n, rest)
    {
      hide PutU8, PutI64;
      match n
      case Some(v) => WriteU8(1); WriteI64(v);
      case None => WriteU8(0);
    }

    method DigestEntry(e: Entry)
      requires Valid()
      modifies hasher, hasher.state, hasher.buffer
      ensures Valid() && forall rest: Bytes {:trigger Fed() + rest} :: Fed() + rest == old(Fed()) + PutEntry(e, rest)
    {
      hide PutBytes;
      WriteBytes(e.key);
      WriteBytes(e.value);
    }

    method DigestEntries(entries: seq<Entry>)
      requires Valid()
      modifies hasher, hasher.state, hasher.buffer
      ensures Valid() && forall rest: Bytes {:trigger Fed() + rest} :: Fed() + rest == old(Fed()) + PutEntries(entries, rest)
    {
      hide PutEntry;
      for i := 0 to |entries|
        invariant Valid()
        invariant forall rest: Bytes {:trigger PutEntries(entries[i..], rest)} ::
                    Fed() + PutEntries(entries[i..], rest) == old(Fed()) + PutEntries(entries, rest)
      {
        ghost var before := Fed();
        DigestEntry(entries[i]);
        forall rest: Bytes
          ensures Fed() + PutEntries(entries[i + 1..], rest) == old(Fed()) + PutEntries(entries, rest)
        {
          assert entries[i..][1..] == entries[i + 1..];
          assert before + PutEntries(entries[i..], rest) == old(Fed()) + PutEntries(entries, rest);
        }
      }
      forall rest: Bytes ensures Fed() + rest == old(Fed()) + PutEntries(entries, rest) {
        assert entries[|entries|..] == [];
        assert PutEntries(entries[|entries|..], rest) == rest;
      }
    }

    method DigestMutation(m: Mutation)
      requires Valid()
      modifies hasher, hasher.state, hasher.buffer
      ensures Valid() && forall rest: Bytes {:trigger Fed() + rest} :: Fed() + rest == old(Fed()) + PutMutation(m, rest)
    {
      hide PutU8, PutBytes, PutU64, PutEntries;
      match m
      case Put(key, value) => WriteU8(1); WriteBytes(key); WriteBytes(value);
      case Delete(key) => WriteU8(2); WriteBytes(key);
      case Clear => WriteU8(3);
      case Replace(entries) => WriteU8(4); WriteU64(|entries| % TWO_TO_64); DigestEntries(entries);
    }

    method DigestMutations(ms: seq<Mutation>)
      requires Valid()
      modifies hasher, hasher.state, hasher.buffer
      ensures Valid() && forall rest: Bytes {:trigger Fed() + rest} :: Fed() + rest == old(Fed()) + PutMutations(ms, rest)
    {
      hide PutMutation;
      for i := 0 to |ms|
        invariant Valid()
        invariant forall rest: Bytes {:trigger PutMutations(ms[i..], rest)} ::
                    Fed() + PutMutations(ms[i..], rest) == old(Fed()) + PutMutations(ms, rest)
      {
        ghost var before := Fed();
        DigestMutation(ms[i]);
        forall rest: Bytes
          ensures Fed() + PutMutations(ms[i + 1..], rest) == old(Fed()) + PutMutations(ms, rest)
        {
          assert ms[i..][1..] == ms[i + 1..];
          assert before + PutMutations(ms[i..], rest) == old(Fed()) + PutMutations(ms, rest);
        }
      }
      forall rest: Bytes ensures Fed() + rest == old(Fed()) + PutMutations(ms, rest) {
        assert ms[|ms|..] == [];
        assert PutMutations(ms[|ms|..], rest) == rest;
      }
    }

    method DigestEvent(e: Event)
      requires Valid()
      modifies hasher, hasher.state, hasher.buffer
      ensures Valid() && forall rest: Bytes {:trigger Fed() + rest} :: Fed() + rest == old(Fed()) + PutEvent(e, rest)
    {
      hide PutU64, PutI64, PutBytes, PutId, PutOptId;
      WriteId(e.eventId);
      WriteBytes(e.streamId);
      WriteBytes(e.eventType);
      WriteU64(e.schemaVersion);
      WriteI64(e.occurredAt);
      WriteOptId(e.causationId);
      WriteOptId(e.correlationId);
      WriteBytes(e.payload);
      WriteBytes(e.metadata);
    }

    method DigestSpec(j: JobSpec)
      requires Valid()
      modifies hasher, hasher.state, hasher.buffer
      ensures Valid() && forall rest: Bytes {:trigger Fed() + rest} :: Fed() + rest == old(Fed()) + PutSpec(j, rest)
    {
      hide PutU8, PutU64, PutI64, PutBytes, PutId, PutOptBytes;
      WriteId(j.jobId);
      WriteBytes(j.queue);
      WriteBytes(j.partitionKey);
      WriteBytes(j.payload);
      WriteI64(j.notBefore);
      WriteU64(j.maxAttempts);
      WriteU8(EffectCode(j.effectMode));
      WriteOptBytes(j.idempotencyKey);
    }

    method DigestPatch(p: Patch)
      requires Valid()
      modifies hasher, hasher.state, hasher.buffer
      ensures Valid() && forall rest: Bytes {:trigger Fed() + rest} :: Fed() + rest == old(Fed()) + PutPatch(p, rest)
    {
      hide PutU64, PutBytes, PutMutations;
      WriteBytes(p.projection);
      WriteU64(p.expectedVersion);
      WriteU64(p.newVersion);
      WriteU64(|p.mutations| % TWO_TO_64);
      DigestMutations(p.mutations);
    }

    method DigestOperation(op: Operation)
      requires Valid()
      modifies hasher, hasher.state, hasher.buffer
      ensures Valid() && forall rest: Bytes {:trigger Fed() + rest} :: Fed() + rest == old(Fed()) + PutOperation(op, rest)
    {
      hide PutU8, PutU64, PutI64, PutBytes, PutId, PutOptId, PutOptBytes, PutOptI64, PutEvent, PutPatch, PutSpec;
      match op
      case AppendEvent(e) => WriteU8(1); DigestEvent(e);
      case ProjectionPatch(p) => WriteU8(2); DigestPatch(p);
      case EnqueueJob(j) => WriteU8(3); DigestSpec(j);
      case AckJob(a) => WriteU8(4); WriteId(a.jobId); WriteId(a.leaseToken); WriteOptBytes(a.resultDigest);
      case FailJob(f) =>
        WriteU8(5);
        WriteId(f.jobId);
        WriteId(f.leaseToken);
        WriteBytes(f.errorSummary);
        WriteOptI64(f.retryAfter);
      case CancelJob(c) => WriteU8(6); WriteId(c.jobId); WriteOptId(c.leaseToken);
      case ResolveJob(r) => WriteU8(7); WriteId(r.jobId); WriteU8(ResolutionCode(r.resolution));
      case ExtendLease(x) => WriteU8(8); WriteId(x.jobId); WriteId(x.leaseToken); WriteI64(x.newExpiry);
    }

    method DigestExpectedVersion(e: ExpectedStreamVersion)
      requires Valid()
      modifies hasher, hasher.state, hasher.buffer
      ensures Valid() && forall rest: Bytes {:trigger Fed() + rest} :: Fed() + rest == old(Fed()) + PutExpectedVersion(e, rest)
    {
      hide PutBytes, PutU64;
      WriteBytes(e.streamId);
      WriteU64(e.version);
    }

    method DigestExpected(es: seq<ExpectedStreamVersion>)
      requires Valid()
      modifies hasher, hasher.state, hasher.buffer
      ensures Valid() && forall rest: Bytes {:trigger Fed() + rest} :: Fed() + rest == old(Fed()) + PutExpected(es, rest)
    {
      hide PutExpectedVersion;
      for i := 0 to |es|
        invariant Valid()
        invariant forall rest: Bytes {:trigger PutExpected(es[i..], rest)} ::
                    Fed() + PutExpected(es[i..], rest) == old(Fed()) + PutExpected(es, rest)
      {
        ghost var before := Fed();
        DigestExpectedVersion(es[i]);
        forall rest: Bytes
          ensures Fed() + PutExpected(es[i + 1..], rest) == old(Fed()) + PutExpected(es, rest)
        {
          assert es[i..][1..] == es[i + 1..];
          assert before + PutExpected(es[i..], rest) == old(Fed()) + PutExpected(es, rest);
        }
      }
      forall rest: Bytes ensures Fed() + rest == old(Fed()) + PutExpected(es, rest) {
        assert es[|es|..] == [];
        assert PutExpected(es[|es|..], rest) == rest;
      }
    }

    method DigestOperations(ops: seq<Operation>)
      requires Valid()
      modifies hasher, hasher.state, hasher.buffer
      ensures Valid() && forall rest: Bytes {:trigger Fed() + rest} :: Fed() + rest == old(Fed()) + PutOperations(ops, rest)
    {
      hide PutOperation;
      for i := 0 to |ops|
        invariant Valid()
        invariant forall rest: Bytes {:trigger PutOperations(ops[i..], rest)} ::
                    Fed() + PutOperations(ops[i..], rest) == old(Fed()) + PutOperations(ops, rest)
      {
        ghost var before := Fed();
        DigestOperation(ops[i]);
        forall rest: Bytes
          ensures Fed() + PutOperations(ops[i + 1..], rest) == old(Fed()) + PutOperations(ops, rest)
        {
          assert ops[i..][1..] == ops[i + 1..];
          assert before + PutOperations(ops[i..], rest) == old(Fed()) + PutOperations(ops, rest);
        }
      }
      forall rest: Bytes ensures Fed() + rest == old(Fed()) + PutOperations(ops, rest) {
        assert ops[|ops|..] == [];
        assert PutOperations(ops[|ops|..], rest) == rest;
      }
    }
  }

  /** Feed the whole batch and finish: SHA-256 of the canonical encoding. */
  method ComputeDigest(b: CommitBatch) returns (digest: seq<Byte>)
    requires |Encode(b)| < 0x2000_0000_0000_0000
    ensures digest == DigestOf(b)
  {
    hide PutI64, PutOptId, PutBytes, PutU64, PutExpected, PutOperations, Sha256.Sum;
    var d := new Digest();
    d.WriteI64(b.committedAt);
    d.WriteOptId(b.correlationId);
    d.WriteBytes(b.metadata);
    d.WriteU64(|b.expected| % TWO_TO_64);
    d.DigestExpected(b.expected);
    d.WriteU64(|b.operations| % TWO_TO_64);
    d.DigestOperations(b.operations);
    var none: Bytes := [];
    assert d.Fed() == d.Fed() + none;
    assert d.Fed() == none + Encode(b);
    assert none + Encode(b) == Encode(b);
    digest := d.hasher.Finish();
  }
}
