/** The canonical byte serialization behind the request digest (src/transaction.rs), and a
    parser for it. Every `Put` function writes one value in front of the bytes that follow. */
module Encoding {
  import opened Types
  import opened Messages

  // ----- fixed-width numbers -----

  function Pow256(width: nat): nat { if width == 0 then 1 else 256 * Pow256(width - 1) }

  function FromBigEndian(b: Bytes): nat {
    if b == [] then 0 else 256 * FromBigEndian(b[..|b| - 1]) + b[|b| - 1]
  }

  lemma {:induction false} BigEndianRoundTrip(n: nat, width: nat)
    requires n < Pow256(width)
    ensures FromBigEndian(BigEndian(n, width)) == n
  {
    if width > 0 {
      BigEndianRoundTrip(n / 256, width - 1);
      var b := BigEndian(n, width);
      assert b[..|b| - 1] == BigEndian(n / 256, width - 1);
    }
  }

  lemma {:induction false} FromBigEndianBound(b: Bytes)
    ensures FromBigEndian(b) < Pow256(|b|)
  {
    if b != [] { FromBigEndianBound(b[..|b| - 1]); }
  }

  lemma Widths()
    ensures Pow256(8) == 0x1_0000_0000_0000_0000
    ensures Pow256(16) == 0x1_0000_0000_0000_0000_0000_0000_0000_0000
  {
    assert Pow256(4) == 0x1_0000_0000;
    assert Pow256(8) == 0x1_0000_0000_0000_0000;
    assert Pow256(12) == 0x1_0000_0000_0000_0000_0000_0000;
  }

  // ----- the writers -----

  function PutU8(v: Byte, rest: Bytes): Bytes { [v] + rest }

  function PutU64(v: U64, rest: Bytes): Bytes { BigEndian(v, 8) + rest }

  /** Two's complement in eight bytes. */
  function PutI64(v: I64, rest: Bytes): Bytes { PutU64(if v < 0 then v + TWO_TO_64 else v, rest) }

  /** A length (as the 64-bit count it is cast to) and then the bytes. */
  function PutBytes(b: Bytes, rest: Bytes): Bytes { PutU64(|b| % TWO_TO_64, b + rest) }

  function PutId(id: Id, rest: Bytes): Bytes { BigEndian(id, 16) + rest }

  function PutOptId(id: Option<Id>, rest: Bytes): Bytes {
    match id
    case Some(v) => PutU8(1, PutId(v, rest))
    case None => PutU8(0, rest)
  }

  function PutOptBytes(b: Option<Bytes>, rest: Bytes): Bytes {
    match b
    case Some(v) => PutU8(1, PutBytes(v, rest))
    case None => PutU8(0, rest)
  }

  function PutOptI64(n: Option<I64>, rest: Bytes): Bytes {
    match n
    case Some(v) => PutU8(1, PutI64(v, rest))
    case None => PutU8(0, rest)
  }

  function EffectCode(mode: EffectMode): Byte {
    match mode
    case RequiresReconciliation => 0
    case ExplicitlyIdempotent => 1
  }

  function ResolutionCode(r: Resolution): Byte {
    match r
    case Retry => 1
    case MarkSucceeded => 2
    case MarkDead => 3
  }

  function PutEntry(e: Entry, rest: Bytes): Bytes { PutBytes(e.key, PutBytes(e.value, rest)) }

  function PutEntries(entries: seq<Entry>, rest: Bytes): Bytes {
    if entries == [] then rest
    else PutEntry(entries[0], PutEntries(entries[1..], rest))
  }

  function PutMutation(m: Mutation, rest: Bytes): Bytes {
    match m
    case Put(key, value) => PutU8(1, PutBytes(key, PutBytes(value, rest)))
    case Delete(key) => PutU8(2, PutBytes(key, rest))
    case Clear => PutU8(3, rest)
    case Replace(entries) => PutU8(4, PutU64(|entries| % TWO_TO_64, PutEntries(entries, rest)))
  }

  function PutMutations(ms: seq<Mutation>, rest: Bytes): Bytes {
    if ms == [] then rest else PutMutation(ms[0], PutMutations(ms[1..], rest))
  }

  function PutEvent(e: Event, rest: Bytes): Bytes {
    PutId(e.eventId, PutBytes(e.streamId, PutBytes(e.eventType, PutU64(e.schemaVersion,
      PutI64(e.occurredAt, PutOptId(e.causationId, PutOptId(e.correlationId,
        PutBytes(e.payload, PutBytes(e.metadata, rest)))))))))
  }

  function PutPatch(p: Patch, rest: Bytes): Bytes {
    PutBytes(p.projection, PutU64(p.expectedVersion, PutU64(p.newVersion,
      PutU64(|p.mutations| % TWO_TO_64, PutMutations(p.mutations, rest)))))
  }

  function PutSpec(j: JobSpec, rest: Bytes): Bytes {
    PutId(j.jobId, PutBytes(j.queue, PutBytes(j.partitionKey, PutBytes(j.payload,
      PutI64(j.notBefore, PutU64(j.maxAttempts, PutU8(EffectCode(j.effectMode),
        PutOptBytes(j.idempotencyKey, rest))))))))
  }

  function PutOperation(op: Operation, rest: Bytes): Bytes {
    match op
    case AppendEvent(e) => PutU8(1, PutEvent(e, rest))
    case ProjectionPatch(p) => PutU8(2, PutPatch(p, rest))
    case EnqueueJob(j) => PutU8(3, PutSpec(j, rest))
    case AckJob(a) => PutU8(4, PutId(a.jobId, PutId(a.leaseToken, PutOptBytes(a.resultDigest, rest))))
    case FailJob(f) =>
      PutU8(5, PutId(f.jobId, PutId(f.leaseToken, PutBytes(f.errorSummary, PutOptI64(f.retryAfter, rest)))))
    case CancelJob(c) => PutU8(6, PutId(c.jobId, PutOptId(c.leaseToken, rest)))
    case ResolveJob(r) => PutU8(7, PutId(r.jobId, PutU8(ResolutionCode(r.resolution), rest)))
    case ExtendLease(x) => PutU8(8, PutId(x.jobId, PutId(x.leaseToken, PutI64(x.newExpiry, rest))))
  }

  function PutOperations(ops: seq<Operation>, rest: Bytes): Bytes {
    if ops == [] then rest else PutOperation(ops[0], PutOperations(ops[1..], rest))
  }

  function PutExpectedVersion(e: ExpectedStreamVersion, rest: Bytes): Bytes {
    PutBytes(e.streamId, PutU64(e.version, rest))
  }

  function PutExpected(es: seq<ExpectedStreamVersion>, rest: Bytes): Bytes {
    if es == [] then rest
    else PutExpectedVersion(es[0], PutExpected(es[1..], rest))
  }

  function PutBatch(b: CommitBatch, rest: Bytes): Bytes {
    PutI64(b.committedAt, PutOptId(b.correlationId, PutBytes(b.metadata,
      PutU64(|b.expected| % TWO_TO_64, PutExpected(b.expected,
        PutU64(|b.operations| % TWO_TO_64, PutOperations(b.operations, rest)))))))
  }

  /** The byte string that the request digest hashes. The transaction id is not part of it. */
  function Encode(b: CommitBatch): Bytes { PutBatch(b, []) }

  // ----- the parser -----

  type Parsed<T> = Option<(T, Bytes)>

  function GetU8(s: Bytes): Parsed<Byte> {
    if s == [] then None else Some((s[0], s[1..]))
  }

  function GetU64(s: Bytes): Parsed<U64> {
    if |s| < 8 then None
    else
      FromBigEndianBound(s[..8]); Widths();
      Some((FromBigEndian(s[..8]), s[8..]))
  }

  function GetU32(s: Bytes): Parsed<U32> {
    var (v, s) :- GetU64(s);
    if v < TWO_TO_32 then Some((v, s)) else None
  }

  function GetI64(s: Bytes): Parsed<I64> {
    var (v, s) :- GetU64(s);
    Some((if v < TWO_TO_63 then v else v - TWO_TO_64, s))
  }

  function GetBytes(s: Bytes): Parsed<Bytes> {
    var (n, s) :- GetU64(s);
    if n <= |s| then Some((s[..n], s[n..])) else None
  }

  function GetId(s: Bytes): Parsed<Id> {
    if |s| < 16 then None
    else
      FromBigEndianBound(s[..16]); Widths();
      Some((FromBigEndian(s[..16]), s[16..]))
  }

  function GetOptId(s: Bytes): Parsed<Option<Id>> {
    var (tag, s) :- GetU8(s);
    if tag == 0 then Some((None, s))
    else var (v, s) :- GetId(s); Some((Some(v), s))
  }

  function GetOptBytes(s: Bytes): Parsed<Option<Bytes>> {
    var (tag, s) :- GetU8(s);
    if tag == 0 then Some((None, s))
    else var (v, s) :- GetBytes(s); Some((Some(v), s))
  }

  function GetOptI64(s: Bytes): Parsed<Option<I64>> {
    var (tag, s) :- GetU8(s);
    if tag == 0 then Some((None, s))
    else var (v, s) :- GetI64(s); Some((Some(v), s))
  }

  function GetEntries(n: nat, s: Bytes): Parsed<seq<Entry>> {
    if n == 0 then Some(([], s))
    else
      var (key, s) :- GetBytes(s);
      var (value, s) :- GetBytes(s);
      var (tail, s) :- GetEntries(n - 1, s);
      Some(([Entry(key, value)] + tail, s))
  }

  function GetMutation(s: Bytes): Parsed<Mutation> {
    var (tag, s) :- GetU8(s);
    if tag == 1 then
      var (key, s) :- GetBytes(s);
      var (value, s) :- GetBytes(s);
      Some((Put(key, value), s))
    else if tag == 2 then
      var (key, s) :- GetBytes(s);
      Some((Delete(key), s))
    else if tag == 3 then Some((Clear, s))
    else
      var (n, s) :- GetU64(s);
      var (entries, s) :- GetEntries(n, s);
      Some((Replace(entries), s))
  }

  function GetMutations(n: nat, s: Bytes): Parsed<seq<Mutation>> {
    if n == 0 then Some(([], s))
    else
      var (m, s) :- GetMutation(s);
      var (tail, s) :- GetMutations(n - 1, s);
      Some(([m] + tail, s))
  }

  function GetEvent(s: Bytes): Parsed<Event> {
    var (eventId, s) :- GetId(s);
    var (streamId, s) :- GetBytes(s);
    var (eventType, s) :- GetBytes(s);
    var (schemaVersion, s) :- GetU32(s);
    var (occurredAt, s) :- GetI64(s);
    var (causationId, s) :- GetOptId(s);
    var (correlationId, s) :- GetOptId(s);
    var (payload, s) :- GetBytes(s);
    var (metadata, s) :- GetBytes(s);
    Some((Event(eventId, streamId, eventType, schemaVersion, occurredAt, causationId, correlationId, payload, metadata), s))
  }

  function GetPatch(s: Bytes): Parsed<Patch> {
    var (projection, s) :- GetBytes(s);
    var (expectedVersion, s) :- GetU64(s);
    var (newVersion, s) :- GetU64(s);
    var (n, s) :- GetU64(s);
    var (mutations, s) :- GetMutations(n, s);
    Some((Patch(projection, expectedVersion, newVersion, mutations), s))
  }

  function GetSpec(s: Bytes): Parsed<JobSpec> {
    var (jobId, s) :- GetId(s);
    var (queue, s) :- GetBytes(s);
    var (partitionKey, s) :- GetBytes(s);
    var (payload, s) :- GetBytes(s);
    var (notBefore, s) :- GetI64(s);
    var (maxAttempts, s) :- GetU32(s);
    var (mode, s) :- GetU8(s);
    var (key, s) :- GetOptBytes(s);
    var effectMode := if mode == 0 then RequiresReconciliation else ExplicitlyIdempotent;
    Some((JobSpec(jobId, queue, partitionKey, payload, notBefore, maxAttempts, effectMode, key), s))
  }

  function GetResolution(s: Bytes): Parsed<Resolution> {
    var (code, s) :- GetU8(s);
    Some((if code == 1 then Retry else if code == 2 then MarkSucceeded else MarkDead, s))
  }

  function GetOperation(s: Bytes): Parsed<Operation> {
    var (tag, s) :- GetU8(s);
    if tag == 1 then var (e, s) :- GetEvent(s); Some((AppendEvent(e), s))
    else if tag == 2 then var (p, s) :- GetPatch(s); Some((ProjectionPatch(p), s))
    else if tag == 3 then var (j, s) :- GetSpec(s); Some((EnqueueJob(j), s))
    else
      var (jobId, s) :- GetId(s);
      if tag == 4 then
        var (token, s) :- GetId(s);
        var (digest, s) :- GetOptBytes(s);
        Some((AckJob(JobAck(jobId, token, digest)), s))
      else if tag == 5 then
        var (token, s) :- GetId(s);
        var (summary, s) :- GetBytes(s);
        var (retryAfter, s) :- GetOptI64(s);
        Some((FailJob(JobFailure(jobId, token, summary, retryAfter)), s))
      else if tag == 6 then
        var (token, s) :- GetOptId(s);
        Some((CancelJob(JobCancellation(jobId, token)), s))
      else if tag == 7 then
        var (r, s) :- GetResolution(s);
        Some((ResolveJob(JobResolution(jobId, r)), s))
      else
        var (token, s) :- GetId(s);
        var (expiry, s) :- GetI64(s);
        Some((ExtendLease(LeaseExtension(jobId, token, expiry)), s))
  }

  function GetOperations(n: nat, s: Bytes): Parsed<seq<Operation>> {
    if n == 0 then Some(([], s))
    else
      var (op, s) :- GetOperation(s);
      var (tail, s) :- GetOperations(n - 1, s);
      Some(([op] + tail, s))
  }

  function GetExpected(n: nat, s: Bytes): Parsed<seq<ExpectedStreamVersion>> {
    if n == 0 then Some(([], s))
    else
      var (streamId, s) :- GetBytes(s);
      var (version, s) :- GetU64(s);
      var (tail, s) :- GetExpected(n - 1, s);
      Some(([ExpectedStreamVersion(streamId, version)] + tail, s))
  }

  /** Read a batch back; the transaction id, which is not encoded, is supplied. */
  function GetBatch(transactionId: Id, s: Bytes): Parsed<CommitBatch> {
    var (committedAt, s) :- GetI64(s);
    var (correlationId, s) :- GetOptId(s);
    var (metadata, s) :- GetBytes(s);
    var (n, s) :- GetU64(s);
    var (expected, s) :- GetExpected(n, s);
    var (m, s) :- GetU64(s);
    var (operations, s) :- GetOperations(m, s);
    Some((CommitBatch(transactionId, committedAt, correlationId, metadata, expected, operations), s))
  }

  // ----- lengths that fit the 64-bit prefix -----

  predicate FitsLen(n: nat) { n < TWO_TO_64 }

  predicate FitsOpt(b: Option<Bytes>) { b.Some? ==> FitsLen(|b.value|) }

  predicate FitsMutation(m: Mutation) {
    match m
    case Put(key, value) => FitsLen(|key|) && FitsLen(|value|)
    case Delete(key) => FitsLen(|key|)
    case Clear => true
    case Replace(entries) => FitsLen(|entries|) && forall e :: e in entries ==> FitsLen(|e.key|) && FitsLen(|e.value|)
  }

  predicate FitsOperation(op: Operation) {
    match op
    case AppendEvent(e) =>
      FitsLen(|e.streamId|) && FitsLen(|e.eventType|) && FitsLen(|e.payload|) && FitsLen(|e.metadata|)
    case ProjectionPatch(p) =>
      FitsLen(|p.projection|) && FitsLen(|p.mutations|) && forall m :: m in p.mutations ==> FitsMutation(m)
    case EnqueueJob(j) =>
      FitsLen(|j.queue|) && FitsLen(|j.partitionKey|) && FitsLen(|j.payload|) && FitsOpt(j.idempotencyKey)
    case AckJob(a) => FitsOpt(a.resultDigest)
    case FailJob(f) => FitsLen(|f.errorSummary|)
    case CancelJob(_) => true
    case ResolveJob(_) => true
    case ExtendLease(_) => true
  }

  predicate Fits(b: CommitBatch) {
    && FitsLen(|b.metadata|) && FitsLen(|b.expected|) && FitsLen(|b.operations|)
    && (forall e :: e in b.expected ==> FitsLen(|e.streamId|))
    && (forall op :: op in b.operations ==> FitsOperation(op))
  }

  // ----- round trips, innermost first -----

  lemma SplitFront(a: Bytes, rest: Bytes)
    ensures (a + rest)[..|a|] == a && (a + rest)[|a|..] == rest
  {}

  lemma U8RoundTrip(v: Byte, rest: Bytes)
    ensures GetU8(PutU8(v, rest)) == Some((v, rest))
  {}

  lemma U64RoundTrip(v: U64, rest: Bytes)
    ensures GetU64(PutU64(v, rest)) == Some((v, rest))
  {
    Widths();
    BigEndianRoundTrip(v, 8);
    SplitFront(BigEndian(v, 8), rest);
  }

  lemma U32RoundTrip(v: U32, rest: Bytes)
    ensures GetU32(PutU64(v, rest)) == Some((v, rest))
  {
    hide PutU64, GetU64;
    U64RoundTrip(v, rest);
  }

  lemma I64RoundTrip(v: I64, rest: Bytes)
    ensures GetI64(PutI64(v, rest)) == Some((v, rest))
  {
    hide PutU64, GetU64;
    U64RoundTrip(if v < 0 then v + TWO_TO_64 else v, rest);
  }

  lemma BytesRoundTrip(b: Bytes, rest: Bytes)
    requires FitsLen(|b|)
    ensures GetBytes(PutBytes(b, rest)) == Some((b, rest))
  {
    hide PutU64, GetU64;
    U64RoundTrip(|b|, b + rest);
    SplitFront(b, rest);
  }

  lemma IdRoundTrip(id: Id, rest: Bytes)
    ensures GetId(PutId(id, rest)) == Some((id, rest))
  {
    Widths();
    BigEndianRoundTrip(id, 16);
    SplitFront(BigEndian(id, 16), rest);
  }

  lemma OptIdRoundTrip(id: Option<Id>, rest: Bytes)
    ensures GetOptId(PutOptId(id, rest)) == Some((id, rest))
  {
    hide PutId, GetId;
    if id.Some? { IdRoundTrip(id.value, rest); }
  }

  lemma OptBytesRoundTrip(b: Option<Bytes>, rest: Bytes)
    requires FitsOpt(b)
    ensures GetOptBytes(PutOptBytes(b, rest)) == Some((b, rest))
  {
    hide PutBytes, GetBytes;
    if b.Some? { BytesRoundTrip(b.value, rest); }
  }

  lemma OptI64RoundTrip(n: Option<I64>, rest: Bytes)
    ensures GetOptI64(PutOptI64(n, rest)) == Some((n, rest))
  {
    hide PutI64, GetI64;
    if n.Some? { I64RoundTrip(n.value, rest); }
  }

  lemma {:induction false} EntriesRoundTrip(entries: seq<Entry>, rest: Bytes)
    requires forall e :: e in entries ==> FitsLen(|e.key|) && FitsLen(|e.value|)
    ensures GetEntries(|entries|, PutEntries(entries, rest)) == Some((entries, rest))
  {
    hide PutBytes, GetBytes;
    if entries != [] {
      var tail := PutEntries(entries[1..], rest);
      EntriesRoundTrip(entries[1..], rest);
      BytesRoundTrip(entries[0].value, tail);
      BytesRoundTrip(entries[0].key, PutBytes(entries[0].value, tail));
      assert [entries[0]] + entries[1..] == entries;
    }
  }

  lemma MutationRoundTrip(m: Mutation, rest: Bytes)
    requires FitsMutation(m)
    ensures GetMutation(PutMutation(m, rest)) == Some((m, rest))
  {
    hide PutBytes, GetBytes, PutU64, GetU64, PutEntries, GetEntries;
    match m
    case Put(key, value) =>
      BytesRoundTrip(key, PutBytes(value, rest));
      BytesRoundTrip(value, rest);
    case Delete(key) => BytesRoundTrip(key, rest);
    case Clear =>
    case Replace(entries) =>
      U64RoundTrip(|entries|, PutEntries(entries, rest));
      EntriesRoundTrip(entries, rest);
  }

  lemma {:induction false} MutationsRoundTrip(ms: seq<Mutation>, rest: Bytes)
    requires forall m :: m in ms ==> FitsMutation(m)
    ensures GetMutations(|ms|, PutMutations(ms, rest)) == Some((ms, rest))
  {
    hide PutMutation, GetMutation;
    if ms != [] {
      MutationRoundTrip(ms[0], PutMutations(ms[1..], rest));
      MutationsRoundTrip(ms[1..], rest);
      assert [ms[0]] + ms[1..] == ms;
    }
  }

  lemma EventRoundTrip(e: Event, rest: Bytes)
    requires FitsOperation(AppendEvent(e))
    ensures GetEvent(PutEvent(e, rest)) == Some((e, rest))
  {
    hide PutBytes, GetBytes, PutU64, GetU32, PutI64, GetI64, PutId, GetId, PutOptId, GetOptId;
    var r9 := PutBytes(e.metadata, rest);
    var r8 := PutBytes(e.payload, r9);
    var r7 := PutOptId(e.correlationId, r8);
    var r6 := PutOptId(e.causationId, r7);
    var r5 := PutI64(e.occurredAt, r6);
    var r4 := PutU64(e.schemaVersion, r5);
    var r3 := PutBytes(e.eventType, r4);
    var r2 := PutBytes(e.streamId, r3);
    IdRoundTrip(e.eventId, r2);
    BytesRoundTrip(e.streamId, r3);
    BytesRoundTrip(e.eventType, r4);
    U32RoundTrip(e.schemaVersion, r5);
    I64RoundTrip(e.occurredAt, r6);
    OptIdRoundTrip(e.causationId, r7);
    OptIdRoundTrip(e.correlationId, r8);
    BytesRoundTrip(e.payload, r9);
    BytesRoundTrip(e.metadata, rest);
  }

  lemma PatchRoundTrip(p: Patch, rest: Bytes)
    requires FitsOperation(ProjectionPatch(p))
    ensures GetPatch(PutPatch(p, rest)) == Some((p, rest))
  {
    hide PutBytes, GetBytes, PutU64, GetU64, PutMutations, GetMutations, FitsMutation;
    var r4 := PutMutations(p.mutations, rest);
    var r3 := PutU64(|p.mutations| % TWO_TO_64, r4);
    var r2 := PutU64(p.newVersion, r3);
    BytesRoundTrip(p.projection, PutU64(p.expectedVersion, r2));
    U64RoundTrip(p.expectedVersion, r2);
    U64RoundTrip(p.newVersion, r3);
    U64RoundTrip(|p.mutations|, r4);
    MutationsRoundTrip(p.mutations, rest);
  }

  lemma SpecRoundTrip(j: JobSpec, rest: Bytes)
    requires FitsOperation(EnqueueJob(j))
    ensures GetSpec(PutSpec(j, rest)) == Some((j, rest))
  {
    hide PutBytes, GetBytes, PutU64, GetU32, PutI64, GetI64, PutId, GetId, PutOptBytes, GetOptBytes;
    var r7 := PutOptBytes(j.idempotencyKey, rest);
    var r6 := PutU8(EffectCode(j.effectMode), r7);
    var r5 := PutU64(j.maxAttempts, r6);
    var r4 := PutI64(j.notBefore, r5);
    var r3 := PutBytes(j.payload, r4);
    var r2 := PutBytes(j.partitionKey, r3);
    IdRoundTrip(j.jobId, PutBytes(j.queue, r2));
    BytesRoundTrip(j.queue, r2);
    BytesRoundTrip(j.partitionKey, r3);
    BytesRoundTrip(j.payload, r4);
    I64RoundTrip(j.notBefore, r5);
    U32RoundTrip(j.maxAttempts, r6);
    U8RoundTrip(EffectCode(j.effectMode), r7);
    OptBytesRoundTrip(j.idempotencyKey, rest);
  }

  lemma OperationRoundTrip(op: Operation, rest: Bytes)
    requires FitsOperation(op)
    ensures GetOperation(PutOperation(op, rest)) == Some((op, rest))
  {
    hide PutBytes, GetBytes, PutI64, GetI64, PutId, GetId, PutOptBytes, GetOptBytes, PutOptId, GetOptId,
         PutOptI64, GetOptI64, PutEvent, GetEvent, PutPatch, GetPatch, PutSpec, GetSpec;
    match op
    case AppendEvent(e) => EventRoundTrip(e, rest);
    case ProjectionPatch(p) => PatchRoundTrip(p, rest);
    case EnqueueJob(j) => SpecRoundTrip(j, rest);
    case AckJob(a) =>
      var r := PutOptBytes(a.resultDigest, rest);
      IdRoundTrip(a.jobId, PutId(a.leaseToken, r));
      IdRoundTrip(a.leaseToken, r);
      OptBytesRoundTrip(a.resultDigest, rest);
    case FailJob(f) =>
      var r := PutOptI64(f.retryAfter, rest);
      IdRoundTrip(f.jobId, PutId(f.leaseToken, PutBytes(f.errorSummary, r)));
      IdRoundTrip(f.leaseToken, PutBytes(f.errorSummary, r));
      BytesRoundTrip(f.errorSummary, r);
      OptI64RoundTrip(f.retryAfter, rest);
    case CancelJob(c) =>
      IdRoundTrip(c.jobId, PutOptId(c.leaseToken, rest));
      OptIdRoundTrip(c.leaseToken, rest);
    case ResolveJob(r) =>
      IdRoundTrip(r.jobId, PutU8(ResolutionCode(r.resolution), rest));
    case ExtendLease(x) =>
      var r := PutI64(x.newExpiry, rest);
      IdRoundTrip(x.jobId, PutId(x.leaseToken, r));
      IdRoundTrip(x.leaseToken, r);
      I64RoundTrip(x.newExpiry, rest);
  }

  lemma {:induction false} OperationsRoundTrip(ops: seq<Operation>, rest: Bytes)
    requires forall op :: op in ops ==> FitsOperation(op)
    ensures GetOperations(|ops|, PutOperations(ops, rest)) == Some((ops, rest))
  {
    hide PutOperation, GetOperation;
    if ops != [] {
      OperationRoundTrip(ops[0], PutOperations(ops[1..], rest));
      OperationsRoundTrip(ops[1..], rest);
      assert [ops[0]] + ops[1..] == ops;
    }
  }

  lemma {:induction false} ExpectedRoundTrip(es: seq<ExpectedStreamVersion>, rest: Bytes)
    requires forall e :: e in es ==> FitsLen(|e.streamId|)
    ensures GetExpected(|es|, PutExpected(es, rest)) == Some((es, rest))
  {
    hide PutBytes, GetBytes, PutU64, GetU64;
    if es != [] {
      var tail := PutExpected(es[1..], rest);
      ExpectedRoundTrip(es[1..], rest);
      U64RoundTrip(es[0].version, tail);
      BytesRoundTrip(es[0].streamId, PutU64(es[0].version, tail));
      assert [es[0]] + es[1..] == es;
    }
  }

  /** The parser inverts the encoder, for every batch and whatever bytes follow it. */
  lemma BatchRoundTrip(b: CommitBatch, rest: Bytes)
    requires Fits(b)
    ensures GetBatch(b.transactionId, PutBatch(b, rest)) == Some((b, rest))
  {
    hide PutBytes, GetBytes, PutU64, GetU64, PutI64, GetI64, PutOptId, GetOptId,
         PutExpected, GetExpected, PutOperations, GetOperations, FitsOperation;
    var r6 := PutOperations(b.operations, rest);
    var r5 := PutU64(|b.operations| % TWO_TO_64, r6);
    var r4 := PutExpected(b.expected, r5);
    var r3 := PutU64(|b.expected| % TWO_TO_64, r4);
    var r2 := PutBytes(b.metadata, r3);
    I64RoundTrip(b.committedAt, PutOptId(b.correlationId, r2));
    OptIdRoundTrip(b.correlationId, r2);
    BytesRoundTrip(b.metadata, r3);
    U64RoundTrip(|b.expected|, r4);
    ExpectedRoundTrip(b.expected, r5);
    U64RoundTrip(|b.operations|, r6);
    OperationsRoundTrip(b.operations, rest);
  }

  /** Equal encodings mean equal content: everything but the transaction id. */
  lemma EncodingInjective(a: CommitBatch, b: CommitBatch)
    requires Fits(a) && Fits(b)
    ensures Encode(a) == Encode(b) <==> a == b.(transactionId := a.transactionId)
  {
    hide PutBatch, GetBatch, FitsOperation;
    var c := b.(transactionId := a.transactionId);
    EncodingIgnoresId(b, a.transactionId);
    BatchRoundTrip(a, []);
    BatchRoundTrip(c, []);
  }

  lemma EncodingIgnoresId(b: CommitBatch, id: Id)
    ensures Encode(b) == Encode(b.(transactionId := id))
  {}

  /** The byte an operation starts with tells which of the eight it is. */
  lemma OperationTags(op: Operation, rest: Bytes)
    ensures var s := PutOperation(op, rest);
            && s != [] && 1 <= s[0] <= 8
            && (s[0] == 1 <==> op.AppendEvent?) && (s[0] == 2 <==> op.ProjectionPatch?)
            && (s[0] == 3 <==> op.EnqueueJob?) && (s[0] == 4 <==> op.AckJob?)
            && (s[0] == 5 <==> op.FailJob?) && (s[0] == 6 <==> op.CancelJob?)
            && (s[0] == 7 <==> op.ResolveJob?) && (s[0] == 8 <==> op.ExtendLease?)
  {
    hide PutEvent, PutPatch, PutSpec, PutId, PutOptId, PutOptBytes, PutBytes, PutOptI64, PutI64, ResolutionCode;
    match op
    case AppendEvent(_) =>
    case ProjectionPatch(_) =>
    case EnqueueJob(_) =>
    case AckJob(_) =>
    case FailJob(_) =>
    case CancelJob(_) =>
    case ResolveJob(_) =>
    case ExtendLease(_) =>
  }
}
