/** The entities of the center service and of the two streams: rows of its three tables
    and the events that travel between the center and the ingest consumer. */
module Domain {

  datatype Option<+T> = None | Some(value: T)

  /** SHA-256 digests, uuids, claim owners and clock readings are only compared,
      so they are numbers here. */
  type Hash = nat
  type IntentId = nat
  type WorkerId = nat
  type Time = int

  datatype FileInfo = FileInfo(permPath: string, fileName: string, size: nat)

  datatype DocumentStatus = Processing | Indexed | Failed

  datatype Document = Document(
    file: FileInfo, status: DocumentStatus, retries: nat, createdAt: Time, updatedAt: Time)

  /** What applying a FAILED report did to the document. */
  datatype FailedOutcome = Stale | Retried | Exhausted

  datatype IntentStatus =
    | Unknown | Waiting | Uploaded | Hashing | Hashed | Expired | IntentFailed

  datatype Intent = Intent(
    fileName: string, tempPath: Option<string>, hash: Option<Hash>,
    createdAt: Time, expiresAt: Time, uploadedAt: Option<Time>,
    status: IntentStatus, claimedBy: Option<WorkerId>, claimedAt: Option<Time>, retries: nat)

  datatype OutboxStatus = Pending | Claimed | Published | Blocked

  datatype OutboxRow = OutboxRow(
    hash: Hash, status: OutboxStatus, claimedBy: Option<WorkerId>, claimedAt: Option<Time>,
    retries: nat, createdAt: Time)

  /** Go -> Python: ingest this document, attempt number `attempts`. */
  datatype IngestEvent = IngestEvent(hash: Hash, attempts: nat)

  /** How one ingestion attempt ended. */
  datatype Report = ReportIndexed | ReportFailed(retryable: bool)

  /** Why an attempt failed. */
  datatype Reason =
    | UnsupportedType | EmptyText | CorruptFile | DependencyUnavailable | JobTimeout | PoisonMessage | Internal

  /** Python -> Go: attempt `attempts` of the document ended like this. */
  datatype StatusEvent = StatusEvent(hash: Hash, attempts: nat, report: Report)

  /** Reply of an external call. A call that reports an error may still have taken effect,
      for example when the reply was lost. */
  datatype Reply = Done | ErrorNotApplied | ErrorApplied {
    predicate Applied() { !ErrorNotApplied? }
  }

  /** Limits of the shared configuration file. */
  datatype Limits = Limits(
    hashRetries: nat, outboxRetries: nat, maxAttempts: nat, poisonThreshold: nat, minIdle: nat,
    statusPoison: nat, statusMinIdle: nat)
  {
    /** What Validate demands of both services before they start. */
    predicate Valid() {
      hashRetries >= 1 && outboxRetries >= 1 && maxAttempts >= 1 && poisonThreshold >= 1
      && statusPoison >= 1
    }
  }
}
