/** What callers hand to the store: events, projection patches, job operations and the
    commit batch that holds them (src/event.rs, src/projection.rs, src/jobs.rs, src/transaction.rs). */
module Messages {
  import opened Types

  datatype EffectMode = RequiresReconciliation | ExplicitlyIdempotent

  datatype Event = Event(
    eventId: Id, streamId: Text, eventType: Text, schemaVersion: U32, occurredAt: I64,
    causationId: Option<Id>, correlationId: Option<Id>, payload: Bytes, metadata: Bytes)

  datatype Entry = Entry(key: Bytes, value: Bytes)

  datatype Mutation =
    | Put(key: Bytes, value: Bytes)
    | Delete(key: Bytes)
    | Clear
    | Replace(entries: seq<Entry>)

  datatype Patch = Patch(projection: Text, expectedVersion: U64, newVersion: U64, mutations: seq<Mutation>)

  datatype JobSpec = JobSpec(
    jobId: Id, queue: Text, partitionKey: Text, payload: Bytes, notBefore: I64,
    maxAttempts: U32, effectMode: EffectMode, idempotencyKey: Option<Text>)

  datatype JobAck = JobAck(jobId: Id, leaseToken: Id, resultDigest: Option<Bytes>)

  datatype JobFailure = JobFailure(jobId: Id, leaseToken: Id, errorSummary: Text, retryAfter: Option<I64>)

  datatype JobCancellation = JobCancellation(jobId: Id, leaseToken: Option<Id>)

  datatype Resolution = Retry | MarkSucceeded | MarkDead

  datatype JobResolution = JobResolution(jobId: Id, resolution: Resolution)

  datatype LeaseExtension = LeaseExtension(jobId: Id, leaseToken: Id, newExpiry: I64)

  datatype Operation =
    | AppendEvent(event: Event)
    | ProjectionPatch(patch: Patch)
    | EnqueueJob(spec: JobSpec)
    | AckJob(ack: JobAck)
    | FailJob(failure: JobFailure)
    | CancelJob(cancellation: JobCancellation)
    | ResolveJob(resolution: JobResolution)
    | ExtendLease(extension: LeaseExtension)

  datatype ExpectedStreamVersion = ExpectedStreamVersion(streamId: Text, version: U64)

  datatype CommitBatch = CommitBatch(
    transactionId: Id, committedAt: I64, correlationId: Option<Id>, metadata: Bytes,
    expected: seq<ExpectedStreamVersion>, operations: seq<Operation>)

  datatype ClaimRequest = ClaimRequest(queue: Text, worker: Text, now: I64, leaseMs: I64, limit: nat)
}
