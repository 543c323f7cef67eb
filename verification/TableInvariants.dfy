/** What every statement keeps, under every interleaving. */
module TableInvariants {
  import opened Domain
  import opened Tables

  /** The outbox rows of one document. */
  function RowsOf(outbox: map<nat, OutboxRow>, h: Hash): set<nat> {
    set id | id in outbox && outbox[id].hash == h
  }

  predicate IntentOk(l: Limits, documents: map<Hash, Document>, i: Intent) {
    && i.status != Unknown
    && (i.hash.Some? <==> i.status == Hashed)
    && (i.hash.Some? ==> i.hash.value in documents)
    && (i.status == Hashing ==> i.claimedBy.Some? && i.claimedAt.Some?)
    && (i.status == Waiting ==> i.retries == 0)
    && (i.status == Uploaded || i.status == Hashing ==> i.retries < l.hashRetries)
  }

  predicate RowOk(l: Limits, documents: map<Hash, Document>, r: OutboxRow) {
    && r.hash in documents
    && (r.status == Claimed <==> r.claimedBy.Some?)
    && (r.status == Claimed <==> r.claimedAt.Some?)
    && (r.status == Pending || r.status == Claimed ==> r.retries < l.outboxRetries)
  }

  /** Conservation: a document has one outbox row per attempt started. */
  predicate DocumentOk(l: Limits, outbox: map<nat, OutboxRow>, h: Hash, d: Document) {
    && |RowsOf(outbox, h)| == d.retries + 1
    && d.retries < l.maxAttempts
  }

  ghost predicate IntentsOk(l: Limits, documents: map<Hash, Document>, intents: map<IntentId, Intent>) {
    forall id :: id in intents ==> IntentOk(l, documents, intents[id])
  }

  ghost predicate OutboxOk(l: Limits, documents: map<Hash, Document>, outbox: map<nat, OutboxRow>, nextId: nat) {
    forall id :: id in outbox ==> id < nextId && RowOk(l, documents, outbox[id])
  }

  ghost predicate DocumentsOk(l: Limits, outbox: map<nat, OutboxRow>, documents: map<Hash, Document>) {
    forall h :: h in documents ==> DocumentOk(l, outbox, h, documents[h])
  }

  ghost predicate Inv(l: Limits, db: Db) {
    && IntentsOk(l, db.documents, db.intents)
    && OutboxOk(l, db.documents, db.outbox, db.nextId)
    && DocumentsOk(l, db.outbox, db.documents)
  }

  predicate Terminal(s: IntentStatus) { s == Hashed || s == Expired || s == IntentFailed }

  predicate IntentEvolves(i: Intent, j: Intent) {
    && i.expiresAt == j.expiresAt && i.createdAt == j.createdAt && i.fileName == j.fileName
    && (i.status != Waiting ==> j.status != Waiting)
    && (j.status == Expired || j.status == Unknown ==> i.status == Waiting || i == j)
    && (Terminal(i.status) ==> i == j)
    && i.retries <= j.retries
  }

  predicate DocumentEvolves(d: Document, e: Document) {
    && d.file == e.file && d.createdAt == e.createdAt
    && d.retries <= e.retries
    && (d.status != Processing ==> d == e)
  }

  predicate RowEvolves(r: OutboxRow, q: OutboxRow) {
    && r.hash == q.hash && r.createdAt == q.createdAt && r.retries <= q.retries
    && (r.status == Published || r.status == Blocked ==> r == q)
  }

  ghost predicate IntentsEvolve(a: map<IntentId, Intent>, b: map<IntentId, Intent>) {
    forall id :: id in a ==> id in b && IntentEvolves(a[id], b[id])
  }

  ghost predicate DocumentsEvolve(a: map<Hash, Document>, b: map<Hash, Document>) {
    forall h :: h in a ==> h in b && DocumentEvolves(a[h], b[h])
  }

  ghost predicate OutboxEvolves(a: map<nat, OutboxRow>, b: map<nat, OutboxRow>) {
    forall id :: id in a ==> id in b && RowEvolves(a[id], b[id])
  }

  /** How far a database may move: rows are never deleted, terminal rows never change. */
  ghost predicate Evolves(a: Db, b: Db) {
    && IntentsEvolve(a.intents, b.intents)
    && DocumentsEvolve(a.documents, b.documents)
    && OutboxEvolves(a.outbox, b.outbox)
    && a.nextId <= b.nextId
  }

  lemma EvolvesTransitive(a: Db, b: Db, c: Db)
    requires Evolves(a, b) && Evolves(b, c)
    ensures Evolves(a, c)
  {
  }

  lemma NothingEvolves(db: Db)
    ensures Evolves(db, db)
  {
  }

  // ---- one lemma per kind of change

  lemma IntentUpdate(l: Limits, db: Db, id: IntentId, j: Intent)
    requires Inv(l, db) && IntentOk(l, db.documents, j)
    requires id in db.intents ==> IntentEvolves(db.intents[id], j)
    ensures Inv(l, db.(intents := db.intents[id := j])) && Evolves(db, db.(intents := db.intents[id := j]))
  {
  }

  lemma IntentRecovery(l: Limits, db: Db, cutoff: Time)
    requires Inv(l, db)
    ensures Inv(l, RecoverStaleIntents(l, db, cutoff)) && Evolves(db, RecoverStaleIntents(l, db, cutoff))
  {
    var after := RecoverStaleIntents(l, db, cutoff).intents;
    forall id | id in after ensures IntentOk(l, db.documents, after[id]) && IntentEvolves(db.intents[id], after[id]) {
      assert IntentOk(l, db.documents, db.intents[id]);
    }
  }

  lemma IntentClaimStatement(l: Limits, db: Db, s: Stmt)
    requires l.Valid() && Inv(l, db)
    requires s.SHashing? || s.SIntentFailed? || s.SIntentRelease?
    ensures Inv(l, Exec(l, db, s)) && Evolves(db, Exec(l, db, s))
  {
    if s.id in db.intents {
      var i := db.intents[s.id];
      assert IntentOk(l, db.documents, i);
      if s.SHashing? && i.status == Uploaded {
        IntentUpdate(l, db, s.id, i.(status := Hashing, claimedBy := Some(s.w), claimedAt := Some(s.now)));
      } else if s.SIntentFailed? && OwnsIntent(db, s.id, s.w) {
        IntentUpdate(l, db, s.id, i.(status := IntentFailed, claimedBy := None, claimedAt := None));
      } else if s.SIntentRelease? && OwnsIntent(db, s.id, s.w) {
        IntentUpdate(l, db, s.id, Demoted(l, i));
      }
    }
  }

  lemma IntentUploadStatement(l: Limits, db: Db, s: Stmt)
    requires l.Valid() && Inv(l, db)
    requires s.SCreate? || s.SUploaded? || s.SExpired?
    ensures Inv(l, Exec(l, db, s)) && Evolves(db, Exec(l, db, s))
  {
    if s.id !in db.intents {
      if s.SCreate? {
        IntentUpdate(l, db, s.id,
          Intent(s.fileName, s.tempPath, None, s.now, s.expiresAt, None, Waiting, None, None, 0));
      }
    } else {
      var i := db.intents[s.id];
      assert IntentOk(l, db.documents, i);
      if s.SUploaded? && i.status == Waiting && i.expiresAt > s.now {
        IntentUpdate(l, db, s.id, i.(status := Uploaded, uploadedAt := Some(s.now)));
      } else if s.SExpired? && i.status == Waiting && i.expiresAt <= s.now {
        IntentUpdate(l, db, s.id, i.(status := Expired));
      }
    }
  }

  lemma SameHashesSameRows(a: map<nat, OutboxRow>, b: map<nat, OutboxRow>)
    requires a.Keys == b.Keys && forall id :: id in a ==> a[id].hash == b[id].hash
    ensures forall h :: RowsOf(a, h) == RowsOf(b, h)
  {
  }

  /** Rewriting outbox rows in place, without changing the hash they belong to. */
  lemma OutboxRewrite(l: Limits, db: Db, outbox: map<nat, OutboxRow>)
    requires Inv(l, db) && outbox.Keys == db.outbox.Keys
    requires forall id :: id in outbox ==> RowOk(l, db.documents, outbox[id]) && RowEvolves(db.outbox[id], outbox[id])
    ensures Inv(l, db.(outbox := outbox)) && Evolves(db, db.(outbox := outbox))
  {
    SameHashesSameRows(db.outbox, outbox);
    forall h | h in db.documents ensures DocumentOk(l, outbox, h, db.documents[h]) {
      assert DocumentOk(l, db.outbox, h, db.documents[h]);
    }
  }

  lemma OutboxRecovery(l: Limits, db: Db, cutoff: Time)
    requires Inv(l, db)
    ensures Inv(l, RecoverStaleOutbox(l, db, cutoff)) && Evolves(db, RecoverStaleOutbox(l, db, cutoff))
  {
    var after := RecoverStaleOutbox(l, db, cutoff).outbox;
    forall id | id in after ensures RowOk(l, db.documents, after[id]) && RowEvolves(db.outbox[id], after[id]) {
      assert RowOk(l, db.documents, db.outbox[id]);
    }
    OutboxRewrite(l, db, after);
  }

  /** The one row such a statement writes. */
  lemma RowWritten(l: Limits, db: Db, s: Stmt) returns (r: OutboxRow)
    requires s.SClaim? || s.SPublished? || s.SBlocked? || s.SRelease?
    requires Inv(l, db) && s.row in db.outbox
    ensures Exec(l, db, s) == db.(outbox := db.outbox[s.row := r])
    ensures RowOk(l, db.documents, r) && RowEvolves(db.outbox[s.row], r)
  {
    assert RowOk(l, db.documents, db.outbox[s.row]);
    hide Inv;
    r := Exec(l, db, s).outbox[s.row];
    assert Exec(l, db, s).outbox == db.outbox[s.row := r];
  }

  lemma OutboxStatement(l: Limits, db: Db, s: Stmt)
    requires Inv(l, db)
    requires s.SClaim? || s.SPublished? || s.SBlocked? || s.SRelease?
    ensures Inv(l, Exec(l, db, s)) && Evolves(db, Exec(l, db, s))
  {
    if s.row in db.outbox {
      hide Exec;
      var r := RowWritten(l, db, s);
      OutboxRewrite(l, db, db.outbox[s.row := r]);
    }
  }

  lemma QueuedRow(outbox: map<nat, OutboxRow>, id: nat, r: OutboxRow)
    requires id !in outbox
    ensures RowsOf(outbox[id := r], r.hash) == RowsOf(outbox, r.hash) + {id}
    ensures |RowsOf(outbox[id := r], r.hash)| == |RowsOf(outbox, r.hash)| + 1
    ensures forall g :: g != r.hash ==> RowsOf(outbox[id := r], g) == RowsOf(outbox, g)
  {
    assert RowsOf(outbox[id := r], r.hash) == RowsOf(outbox, r.hash) + {id};
  }

  /** Rows stay well formed when documents are only added or rewritten. */
  lemma MoreDocuments(l: Limits, db: Db, documents: map<Hash, Document>)
    requires Inv(l, db) && forall h :: h in db.documents ==> h in documents
    ensures IntentsOk(l, documents, db.intents)
    ensures OutboxOk(l, documents, db.outbox, db.nextId)
  {
    forall id | id in db.intents ensures IntentOk(l, documents, db.intents[id]) {
      assert IntentOk(l, db.documents, db.intents[id]);
    }
    forall id | id in db.outbox ensures id < db.nextId && RowOk(l, documents, db.outbox[id]) {
      assert RowOk(l, db.documents, db.outbox[id]);
    }
  }

  lemma QueuedDocuments(l: Limits, db: Db, h: Hash, d: Document, r: OutboxRow)
    requires Inv(l, db) && d.retries < l.maxAttempts && r.hash == h
    requires d.retries == |RowsOf(db.outbox, h)| && db.nextId !in db.outbox
    ensures DocumentsOk(l, db.outbox[db.nextId := r], db.documents[h := d])
  {
    QueuedRow(db.outbox, db.nextId, r);
    var after := db.documents[h := d];
    forall g | g in after ensures DocumentOk(l, db.outbox[db.nextId := r], g, after[g]) {
      if g != h { assert DocumentOk(l, db.outbox, g, db.documents[g]); }
    }
  }

  lemma QueuedOutbox(l: Limits, documents: map<Hash, Document>, db: Db, r: OutboxRow)
    requires OutboxOk(l, documents, db.outbox, db.nextId) && RowOk(l, documents, r)
    ensures OutboxOk(l, documents, db.outbox[db.nextId := r], db.nextId + 1)
    ensures db.nextId !in db.outbox && OutboxEvolves(db.outbox, db.outbox[db.nextId := r])
  {
    assert forall id :: id in db.outbox ==> RowEvolves(db.outbox[id], db.outbox[id]);
  }

  lemma DocumentWritten(db: Db, h: Hash, d: Document)
    requires h in db.documents ==> DocumentEvolves(db.documents[h], d)
    ensures DocumentsEvolve(db.documents, db.documents[h := d])
    ensures IntentsEvolve(db.intents, db.intents) && OutboxEvolves(db.outbox, db.outbox)
  {
  }

  lemma FreshRowId(l: Limits, db: Db)
    requires Inv(l, db)
    ensures db.nextId !in db.outbox
  {
  }

  /** Writing a document whose new attempt number is matched by one queued row. */
  lemma QueueAttempt(l: Limits, db: Db, h: Hash, d: Document, now: Time)
    requires l.Valid() && Inv(l, db) && d.retries < l.maxAttempts
    requires d.retries == |RowsOf(db.outbox, h)|
    requires h in db.documents ==> DocumentEvolves(db.documents[h], d)
    ensures Inv(l, Queue(db.(documents := db.documents[h := d]), h, now))
    ensures Evolves(db, Queue(db.(documents := db.documents[h := d]), h, now))
  {
    hide IntentsOk; hide OutboxOk; hide DocumentsOk; hide IntentsEvolve; hide DocumentsEvolve; hide OutboxEvolves;
    hide RowsOf; hide DocumentEvolves;
    var r := OutboxRow(h, Pending, None, None, 0, now);
    FreshRowId(l, db);
    QueuedDocuments(l, db, h, d, r);
    MoreDocuments(l, db, db.documents[h := d]);
    QueuedOutbox(l, db.documents[h := d], db, r);
    DocumentWritten(db, h, d);
  }

  /** Finishing a document: its attempt number stays. */
  lemma FinishDocument(l: Limits, db: Db, h: Hash, d: Document)
    requires Inv(l, db) && h in db.documents && DocumentEvolves(db.documents[h], d)
    requires d.retries == db.documents[h].retries
    ensures Inv(l, db.(documents := db.documents[h := d])) && Evolves(db, db.(documents := db.documents[h := d]))
  {
    var after := db.documents[h := d];
    forall g | g in after ensures DocumentOk(l, db.outbox, g, after[g]) {
      assert DocumentOk(l, db.outbox, g, db.documents[g]);
    }
    MoreDocuments(l, db, after);
    DocumentWritten(db, h, d);
  }

  lemma DocumentOf(l: Limits, db: Db, h: Hash)
    requires Inv(l, db) && h in db.documents
    ensures DocumentOk(l, db.outbox, h, db.documents[h])
  {
  }

  lemma NoRowsWithoutDocument(l: Limits, db: Db, h: Hash)
    requires Inv(l, db) && h !in db.documents
    ensures |RowsOf(db.outbox, h)| == 0
  {
    assert forall id :: id in db.outbox ==> RowOk(l, db.documents, db.outbox[id]);
    assert RowsOf(db.outbox, h) == {};
  }

  lemma StartKeepsInv(l: Limits, db: Db, h: Hash, file: FileInfo, id: IntentId, w: WorkerId, now: Time)
    requires l.Valid() && Inv(l, db)
    ensures Inv(l, StartIngestion(db, h, file, id, w, now).0)
    ensures Evolves(db, StartIngestion(db, h, file, id, w, now).0)
  {
    if OwnsIntent(db, id, w) {
      var d := Document(file, Processing, 0, now, now);
      var created := if h in db.documents then db else Queue(db.(documents := db.documents[h := d]), h, now);
      if h !in db.documents {
        NoRowsWithoutDocument(l, db, h);
        QueueAttempt(l, db, h, d, now);
      }
      assert IntentOk(l, db.documents, db.intents[id]);
      var j := db.intents[id].(status := Hashed, hash := Some(h));
      IntentUpdate(l, created, id, j);
      EvolvesTransitive(db, created, created.(intents := created.intents[id := j]));
    }
  }

  lemma ApplyKeepsInv(l: Limits, db: Db, e: StatusEvent, now: Time)
    requires l.Valid() && Inv(l, db)
    ensures Inv(l, Apply(l, db, e, now)) && Evolves(db, Apply(l, db, e, now))
  {
    hide Inv; hide Evolves; hide RowsOf; hide Queue;
    NothingEvolves(db);
    if Current(db, e.hash, e.attempts) {
      var d := db.documents[e.hash];
      DocumentOf(l, db, e.hash);
      if e.report.ReportIndexed? {
        FinishDocument(l, db, e.hash, d.(status := Indexed, updatedAt := now));
      } else if e.report.retryable && e.attempts + 1 < l.maxAttempts {
        QueueAttempt(l, db, e.hash, d.(retries := e.attempts + 1, updatedAt := now), now);
      } else {
        FinishDocument(l, db, e.hash, d.(status := Failed, updatedAt := now));
      }
    }
  }

  /** One statement, with any arguments, keeps conservation and every row invariant. */
  lemma ExecKeepsInv(l: Limits, db: Db, s: Stmt)
    requires l.Valid() && Inv(l, db)
    ensures Inv(l, Exec(l, db, s)) && Evolves(db, Exec(l, db, s))
  {
    match s {
      case SStart(h, f, id, w, now) => StartKeepsInv(l, db, h, f, id, w, now);
      case SApply(e, now) => ApplyKeepsInv(l, db, e, now);
      case SIntentRecover(cutoff) => IntentRecovery(l, db, cutoff);
      case SRecover(cutoff) => OutboxRecovery(l, db, cutoff);
      case SClaim(_, _, _) => OutboxStatement(l, db, s);
      case SPublished(_, _) => OutboxStatement(l, db, s);
      case SBlocked(_, _) => OutboxStatement(l, db, s);
      case SRelease(_, _) => OutboxStatement(l, db, s);
      case SHashing(_, _, _) => IntentClaimStatement(l, db, s);
      case SIntentFailed(_, _) => IntentClaimStatement(l, db, s);
      case SIntentRelease(_, _) => IntentClaimStatement(l, db, s);
      case _ => IntentUploadStatement(l, db, s);
    }
  }

  /** In every state any interleaving can reach, a document has exactly retries + 1 outbox rows,
      retries stays below max_attempts, every HASHED intent names an existing document, and
      nothing terminal has moved. */
  lemma {:induction false} Conservation(l: Limits, db: Db, ss: seq<Stmt>)
    requires l.Valid() && Inv(l, db)
    ensures Inv(l, ExecAll(l, db, ss)) && Evolves(db, ExecAll(l, db, ss))
    decreases |ss|
  {
    if ss != [] {
      var next := Exec(l, db, ss[0]);
      ExecKeepsInv(l, db, ss[0]);
      Conservation(l, next, ss[1..]);
      EvolvesTransitive(db, next, ExecAll(l, next, ss[1..]));
    }
  }

  lemma EmptyInv(l: Limits)
    ensures Inv(l, Empty())
  {
  }
}
