/** The center's database: one function per SQL statement or transaction, over the values of
    the three tables. `Exec` runs any of them, so a list of statements is any interleaving of
    any number of workers. */
module Tables {
  import opened Domain

  datatype Db = Db(
    intents: map<IntentId, Intent>, documents: map<Hash, Document>,
    outbox: map<nat, OutboxRow>, nextId: nat)

  function Empty(): Db { Db(map[], map[], map[], 0) }

  // ---- upload_intent

  function CreateIntent(db: Db, id: IntentId, fileName: string, tempPath: Option<string>, now: Time,
      expiresAt: Time): (Db, bool) {
    if id in db.intents then (db, false)
    else
      (db.(intents := db.intents[id :=
         Intent(fileName, tempPath, None, now, expiresAt, None, Waiting, None, None, 0)]), true)
  }

  function ToUploaded(db: Db, id: IntentId, at: Time): (Db, bool) {
    if id in db.intents && db.intents[id].status == Waiting && db.intents[id].expiresAt > at then
      (db.(intents := db.intents[id := db.intents[id].(status := Uploaded, uploadedAt := Some(at))]), true)
    else (db, false)
  }

  function ToExpired(db: Db, id: IntentId, now: Time): (Db, bool) {
    if id in db.intents && db.intents[id].status == Waiting && db.intents[id].expiresAt <= now then
      (db.(intents := db.intents[id := db.intents[id].(status := Expired)]), true)
    else (db, false)
  }

  function ToHashing(db: Db, id: IntentId, w: WorkerId, at: Time): (Db, bool) {
    if id in db.intents && db.intents[id].status == Uploaded then
      (db.(intents := db.intents[id :=
         db.intents[id].(status := Hashing, claimedBy := Some(w), claimedAt := Some(at))]), true)
    else (db, false)
  }

  /** The fence of every write after the claim: still HASHING, still claimed by this worker. */
  predicate OwnsIntent(db: Db, id: IntentId, w: WorkerId) {
    id in db.intents && db.intents[id].status == Hashing && db.intents[id].claimedBy == Some(w)
  }

  function MarkIntentFailed(db: Db, id: IntentId, w: WorkerId): (Db, bool) {
    if OwnsIntent(db, id, w) then
      (db.(intents := db.intents[id :=
         db.intents[id].(status := IntentFailed, claimedBy := None, claimedAt := None)]), true)
    else (db, false)
  }

  function Demoted(l: Limits, i: Intent): Intent {
    i.(status := if i.retries + 1 >= l.hashRetries then IntentFailed else Uploaded,
       retries := i.retries + 1, claimedBy := None, claimedAt := None)
  }

  function ReleaseIntentClaim(l: Limits, db: Db, id: IntentId, w: WorkerId): (Db, bool) {
    if OwnsIntent(db, id, w) then
      (db.(intents := db.intents[id := Demoted(l, db.intents[id])]), true)
    else (db, false)
  }

  predicate StaleIntent(i: Intent, cutoff: Time) {
    i.status == Hashing && i.claimedAt.Some? && i.claimedAt.value < cutoff
  }

  function RecoverStaleIntents(l: Limits, db: Db, cutoff: Time): Db {
    db.(intents := map id | id in db.intents ::
      if StaleIntent(db.intents[id], cutoff) then Demoted(l, db.intents[id]) else db.intents[id])
  }

  // ---- outbox

  function Queue(db: Db, h: Hash, now: Time): Db {
    db.(outbox := db.outbox[db.nextId := OutboxRow(h, Pending, None, None, 0, now)],
        nextId := db.nextId + 1)
  }

  function ClaimOutboxMessage(db: Db, id: nat, w: WorkerId, now: Time): (Db, bool) {
    if id in db.outbox && db.outbox[id].status == Pending then
      (db.(outbox := db.outbox[id :=
         db.outbox[id].(status := Claimed, claimedBy := Some(w), claimedAt := Some(now))]), true)
    else (db, false)
  }

  predicate OwnsRow(db: Db, id: nat, w: WorkerId) {
    id in db.outbox && db.outbox[id].status == Claimed && db.outbox[id].claimedBy == Some(w)
  }

  function MarkPublished(db: Db, id: nat, w: WorkerId): (Db, bool) {
    if OwnsRow(db, id, w) then
      (db.(outbox := db.outbox[id :=
         db.outbox[id].(status := Published, claimedBy := None, claimedAt := None)]), true)
    else (db, false)
  }

  function MarkBlocked(db: Db, id: nat, w: WorkerId): (Db, bool) {
    if OwnsRow(db, id, w) then
      (db.(outbox := db.outbox[id :=
         db.outbox[id].(status := Blocked, claimedBy := None, claimedAt := None)]), true)
    else (db, false)
  }

  function Requeued(l: Limits, r: OutboxRow): OutboxRow {
    r.(status := if r.retries + 1 >= l.outboxRetries then Blocked else Pending,
       retries := r.retries + 1, claimedBy := None, claimedAt := None)
  }

  function ReleaseClaim(l: Limits, db: Db, id: nat, w: WorkerId): (Db, bool) {
    if OwnsRow(db, id, w) then
      (db.(outbox := db.outbox[id := Requeued(l, db.outbox[id])]), true)
    else (db, false)
  }

  predicate StaleRow(r: OutboxRow, cutoff: Time) {
    r.status == Claimed && r.claimedAt.Some? && r.claimedAt.value < cutoff
  }

  function RecoverStaleOutbox(l: Limits, db: Db, cutoff: Time): Db {
    db.(outbox := map id | id in db.outbox ::
      if StaleRow(db.outbox[id], cutoff) then Requeued(l, db.outbox[id]) else db.outbox[id])
  }

  // ---- transactions over several tables

  /** Insert the document and its first outbox row when the hash is new, then move the intent
      to HASHED; refused as a whole when the worker lost its claim. */
  function StartIngestion(db: Db, h: Hash, file: FileInfo, id: IntentId, w: WorkerId, now: Time): (Db, bool) {
    var created :=
      if h in db.documents then db
      else Queue(db.(documents := db.documents[h := Document(file, Processing, 0, now, now)]), h, now);
    if OwnsIntent(db, id, w) then
      (created.(intents := db.intents[id := db.intents[id].(status := Hashed, hash := Some(h))]), true)
    else (db, false)
  }

  /** The compare-and-swap guard of both status transactions. */
  predicate Current(db: Db, h: Hash, attempts: nat) {
    h in db.documents && db.documents[h].retries == attempts && db.documents[h].status == Processing
  }

  function ApplyIndexed(db: Db, h: Hash, attempts: nat, now: Time): (Db, bool) {
    if Current(db, h, attempts) then
      (db.(documents := db.documents[h := db.documents[h].(status := Indexed, updatedAt := now)]), true)
    else (db, false)
  }

  function ApplyFailed(l: Limits, db: Db, h: Hash, attempts: nat, retryable: bool, now: Time): (Db, FailedOutcome) {
    if !Current(db, h, attempts) then (db, Stale)
    else if retryable && attempts + 1 < l.maxAttempts then
      (Queue(db.(documents := db.documents[h :=
               db.documents[h].(retries := attempts + 1, updatedAt := now)]), h, now), Retried)
    else
      (db.(documents := db.documents[h := db.documents[h].(status := Failed, updatedAt := now)]), Exhausted)
  }

  /** What the status handler runs for one decoded event. */
  function Apply(l: Limits, db: Db, e: StatusEvent, now: Time): Db {
    match e.report
    case ReportIndexed => ApplyIndexed(db, e.hash, e.attempts, now).0
    case ReportFailed(retryable) => ApplyFailed(l, db, e.hash, e.attempts, retryable, now).0
  }

  // ---- any statement, any sequence of statements

  datatype Stmt =
    | SCreate(id: IntentId, fileName: string, tempPath: Option<string>, now: Time, expiresAt: Time)
    | SUploaded(id: IntentId, now: Time)
    | SExpired(id: IntentId, now: Time)
    | SHashing(id: IntentId, w: WorkerId, now: Time)
    | SIntentFailed(id: IntentId, w: WorkerId)
    | SIntentRelease(id: IntentId, w: WorkerId)
    | SIntentRecover(cutoff: Time)
    | SStart(hash: Hash, file: FileInfo, id: IntentId, w: WorkerId, now: Time)
    | SClaim(row: nat, w: WorkerId, now: Time)
    | SPublished(row: nat, w: WorkerId)
    | SBlocked(row: nat, w: WorkerId)
    | SRelease(row: nat, w: WorkerId)
    | SRecover(cutoff: Time)
    | SApply(event: StatusEvent, now: Time)

  function Exec(l: Limits, db: Db, s: Stmt): Db {
    match s
    case SCreate(id, f, t, now, x) => CreateIntent(db, id, f, t, now, x).0
    case SUploaded(id, now) => ToUploaded(db, id, now).0
    case SExpired(id, now) => ToExpired(db, id, now).0
    case SHashing(id, w, now) => ToHashing(db, id, w, now).0
    case SIntentFailed(id, w) => MarkIntentFailed(db, id, w).0
    case SIntentRelease(id, w) => ReleaseIntentClaim(l, db, id, w).0
    case SIntentRecover(cutoff) => RecoverStaleIntents(l, db, cutoff)
    case SStart(h, f, id, w, now) => StartIngestion(db, h, f, id, w, now).0
    case SClaim(row, w, now) => ClaimOutboxMessage(db, row, w, now).0
    case SPublished(row, w) => MarkPublished(db, row, w).0
    case SBlocked(row, w) => MarkBlocked(db, row, w).0
    case SRelease(row, w) => ReleaseClaim(l, db, row, w).0
    case SRecover(cutoff) => RecoverStaleOutbox(l, db, cutoff)
    case SApply(e, now) => Apply(l, db, e, now)
  }

  function ExecAll(l: Limits, db: Db, ss: seq<Stmt>): Db
    decreases |ss|
  {
    if ss == [] then db else ExecAll(l, Exec(l, db, ss[0]), ss[1..])
  }
}
