/** How much can still happen: claims are bounded by max_retries, and every row-changing
    statement uses up a natural-number measure. */
module Work {
  import opened Domain
  import opened Tables
  import opened TableInvariants

  // ---- claims

  /** Claims an intent may still be given. */
  function IntentClaimsLeft(l: Limits, db: Db, id: IntentId): nat {
    if id !in db.intents then l.hashRetries
    else
      var i := db.intents[id];
      if i.retries >= l.hashRetries then 0
      else match i.status
        case Waiting => l.hashRetries - i.retries
        case Uploaded => l.hashRetries - i.retries
        case Hashing => l.hashRetries - i.retries - 1
        case _ => 0
  }

  function RowClaimsLeft(l: Limits, db: Db, id: nat): nat {
    if id !in db.outbox then l.outboxRetries
    else
      var r := db.outbox[id];
      if r.retries >= l.outboxRetries then 0
      else match r.status
        case Pending => l.outboxRetries - r.retries
        case Claimed => l.outboxRetries - r.retries - 1
        case _ => 0
  }

  predicate ClaimsIntent(db: Db, s: Stmt, id: IntentId) {
    s.SHashing? && s.id == id && ToHashing(db, id, s.w, s.now).1
  }

  predicate ClaimsRow(db: Db, s: Stmt, id: nat) {
    s.SClaim? && s.row == id && ClaimOutboxMessage(db, id, s.w, s.now).1
  }

  function IntentClaims(l: Limits, db: Db, ss: seq<Stmt>, id: IntentId): nat
    decreases |ss|
  {
    if ss == [] then 0
    else (if ClaimsIntent(db, ss[0], id) then 1 else 0) + IntentClaims(l, Exec(l, db, ss[0]), ss[1..], id)
  }

  function RowClaims(l: Limits, db: Db, ss: seq<Stmt>, id: nat): nat
    decreases |ss|
  {
    if ss == [] then 0
    else (if ClaimsRow(db, ss[0], id) then 1 else 0) + RowClaims(l, Exec(l, db, ss[0]), ss[1..], id)
  }

  lemma IntentClaimStep(l: Limits, db: Db, s: Stmt, id: IntentId)
    requires l.Valid() && Inv(l, db)
    ensures IntentClaimsLeft(l, Exec(l, db, s), id) +
      (if ClaimsIntent(db, s, id) then 1 else 0) <= IntentClaimsLeft(l, db, id)
  {
    if id in db.intents { assert IntentOk(l, db.documents, db.intents[id]); }
    if s.SApply? { assert Exec(l, db, s).intents == db.intents; }
  }

  lemma RowClaimStep(l: Limits, db: Db, s: Stmt, id: nat)
    requires l.Valid() && Inv(l, db)
    ensures RowClaimsLeft(l, Exec(l, db, s), id) + (if ClaimsRow(db, s, id) then 1 else 0) <= RowClaimsLeft(l, db, id)
  {
    if id in db.outbox { assert RowOk(l, db.documents, db.outbox[id]); }
    if s.SApply? || s.SStart? {
      var after := Exec(l, db, s);
      assert id in db.outbox ==> id != db.nextId && after.outbox[id] == db.outbox[id];
    }
  }

  /** No interleaving claims an intent more often than max_retries. */
  lemma {:induction false} IntentClaimsBounded(l: Limits, db: Db, ss: seq<Stmt>, id: IntentId)
    requires l.Valid() && Inv(l, db)
    ensures IntentClaims(l, db, ss, id) <= IntentClaimsLeft(l, db, id) <= l.hashRetries
    decreases |ss|
  {
    if ss != [] {
      ExecKeepsInv(l, db, ss[0]);
      IntentClaimStep(l, db, ss[0], id);
      IntentClaimsBounded(l, Exec(l, db, ss[0]), ss[1..], id);
    }
  }

  /** No interleaving claims an outbox row more often than max_retries. */
  lemma {:induction false} RowClaimsBounded(l: Limits, db: Db, ss: seq<Stmt>, id: nat)
    requires l.Valid() && Inv(l, db)
    ensures RowClaims(l, db, ss, id) <= RowClaimsLeft(l, db, id) <= l.outboxRetries
    decreases |ss|
  {
    if ss != [] {
      ExecKeepsInv(l, db, ss[0]);
      RowClaimStep(l, db, ss[0], id);
      RowClaimsBounded(l, Exec(l, db, ss[0]), ss[1..], id);
    }
  }

  // ---- sums over tables

  ghost function Pick(s: set<nat>): (k: nat)
    requires s != {}
    ensures k in s
  {
    var k :| k in s; k
  }

  ghost function Sum(m: map<nat, nat>): nat
    decreases m.Keys
  {
    if m.Keys == {} then 0 else m[Pick(m.Keys)] + Sum(m - {Pick(m.Keys)})
  }

  lemma {:induction false} SumSplit(m: map<nat, nat>, k: nat)
    requires k in m
    ensures Sum(m) == m[k] + Sum(m - {k})
    decreases m.Keys
  {
    var j := Pick(m.Keys);
    if j != k {
      SumSplit(m - {j}, k);
      SumSplit(m - {k}, j);
      assert m - {j} - {k} == m - {k} - {j};
    }
  }

  lemma SumUpdate(m: map<nat, nat>, k: nat, v: nat)
    ensures Sum(m[k := v]) + (if k in m then m[k] else 0) == Sum(m) + v
  {
    SumSplit(m[k := v], k);
    assert m[k := v] - {k} == m - {k};
    if k in m { SumSplit(m, k); } else { assert m - {k} == m; }
  }

  lemma {:induction false} SumShrinks(a: map<nat, nat>, b: map<nat, nat>)
    requires a.Keys == b.Keys && forall k :: k in a ==> a[k] <= b[k]
    ensures Sum(a) <= Sum(b)
    ensures (exists k :: k in a && a[k] < b[k]) ==> Sum(a) < Sum(b)
    decreases a.Keys
  {
    if k :| k in a && a[k] < b[k] {
      SumSplit(a, k);
      SumSplit(b, k);
      SumShrinks(a - {k}, b - {k});
    } else {
      assert a == b;
    }
  }

  // ---- the measure

  /** Weights grow towards the start of the protocol, so each step may create what follows it. */
  function RowWeight(l: Limits, r: OutboxRow): nat {
    if r.retries >= l.outboxRetries then 0
    else match r.status
      case Pending => 2 * (l.outboxRetries - r.retries)
      case Claimed => 2 * (l.outboxRetries - r.retries) - 1
      case _ => 0
  }

  /** n * w, by addition. */
  function Times(n: nat, w: nat): nat { if n == 0 then 0 else Times(n - 1, w) + w }

  lemma {:induction false} TimesGrows(a: nat, b: nat, w: nat)
    requires a < b
    ensures Times(a, w) + w <= Times(b, w)
  {
    if a < b - 1 { TimesGrows(a, b - 1, w); }
  }

  /** One attempt pays for its queued row and for its own end. */
  function AttemptWeight(l: Limits): nat { 2 * l.outboxRetries + 1 }

  function DocumentWeight(l: Limits, d: Document): nat {
    if d.status != Processing || d.retries >= l.maxAttempts then 0
    else Times(l.maxAttempts - d.retries, AttemptWeight(l))
  }

  /** One hashing claim pays for a document with all its attempts and the first row. */
  function ClaimWeight(l: Limits): nat { Times(l.maxAttempts, AttemptWeight(l)) + 2 * l.outboxRetries + 1 }

  function IntentSteps(l: Limits, i: Intent): nat {
    if i.retries >= l.hashRetries then 0
    else match i.status
      case Waiting => 2 * l.hashRetries + 1
      case Uploaded => 2 * (l.hashRetries - i.retries)
      case Hashing => 2 * (l.hashRetries - i.retries) - 1
      case _ => 0
  }

  function IntentWeight(l: Limits, i: Intent): nat { Times(IntentSteps(l, i), ClaimWeight(l)) }

  function IntentWeights(l: Limits, m: map<IntentId, Intent>): map<nat, nat> { map k | k in m :: IntentWeight(l, m[k]) }
  function DocumentWeights(l: Limits, m: map<Hash, Document>): map<nat,
      nat> { map k | k in m :: DocumentWeight(l, m[k]) }
  function RowWeights(l: Limits, m: map<nat, OutboxRow>): map<nat, nat> { map k | k in m :: RowWeight(l, m[k]) }

  ghost function WorkLeft(l: Limits, db: Db): nat {
    Sum(IntentWeights(l, db.intents)) + Sum(DocumentWeights(l, db.documents)) + Sum(RowWeights(l, db.outbox))
  }

  lemma FewerSteps(l: Limits, i: Intent, j: Intent)
    requires IntentSteps(l, j) < IntentSteps(l, i)
    ensures IntentWeight(l, j) + ClaimWeight(l) <= IntentWeight(l, i)
  {
    TimesGrows(IntentSteps(l, j), IntentSteps(l, i), ClaimWeight(l));
  }

  lemma IntentStep(l: Limits, db: Db, id: IntentId, j: Intent)
    requires id in db.intents && IntentSteps(l, j) < IntentSteps(l, db.intents[id])
    ensures WorkLeft(l, db.(intents := db.intents[id := j])) + ClaimWeight(l) <= WorkLeft(l, db)
  {
    FewerSteps(l, db.intents[id], j);
    SumUpdate(IntentWeights(l, db.intents), id, IntentWeight(l, j));
    assert IntentWeights(l, db.intents[id := j]) == IntentWeights(l, db.intents)[id := IntentWeight(l, j)];
  }

  lemma RowStep(l: Limits, db: Db, id: nat, r: OutboxRow)
    requires id in db.outbox && RowWeight(l, r) < RowWeight(l, db.outbox[id])
    ensures WorkLeft(l, db.(outbox := db.outbox[id := r])) < WorkLeft(l, db)
  {
    SumUpdate(RowWeights(l, db.outbox), id, RowWeight(l, r));
    assert RowWeights(l, db.outbox[id := r]) == RowWeights(l, db.outbox)[id := RowWeight(l, r)];
  }

  lemma QueueWork(l: Limits, db: Db, h: Hash, now: Time)
    requires db.nextId !in db.outbox
    ensures WorkLeft(l, Queue(db, h, now)) <= WorkLeft(l, db) + 2 * l.outboxRetries
  {
    var r := OutboxRow(h, Pending, None, None, 0, now);
    SumUpdate(RowWeights(l, db.outbox), db.nextId, RowWeight(l, r));
    assert RowWeights(l, db.outbox[db.nextId := r]) == RowWeights(l, db.outbox)[db.nextId := RowWeight(l, r)];
  }

  lemma DocumentSum(l: Limits, documents: map<Hash, Document>, h: Hash, d: Document)
    ensures Sum(DocumentWeights(l, documents[h := d])) + (if h in documents then DocumentWeight(l, documents[h]) else 0)
      == Sum(DocumentWeights(l, documents)) + DocumentWeight(l, d)
  {
    SumUpdate(DocumentWeights(l, documents), h, DocumentWeight(l, d));
    assert DocumentWeights(l, documents[h := d]) == DocumentWeights(l, documents)[h := DocumentWeight(l, d)];
  }

  /** Ending an attempt releases at least what one attempt weighs. */
  lemma AttemptEnds(l: Limits, d: Document, e: Document)
    requires d.status == Processing && d.retries < l.maxAttempts
    requires e.status != Processing || e.retries == d.retries + 1
    ensures DocumentWeight(l, e) + AttemptWeight(l) <= DocumentWeight(l, d)
  {
    var left := l.maxAttempts - d.retries;
    TimesGrows(if e.status != Processing then 0 else left - 1, left, AttemptWeight(l));
  }

  lemma ApplyWork(l: Limits, db: Db, e: StatusEvent, now: Time)
    requires l.Valid() && Inv(l, db) && Current(db, e.hash, e.attempts)
    ensures WorkLeft(l, Apply(l, db, e, now)) < WorkLeft(l, db)
  {
    var d := db.documents[e.hash];
    assert DocumentOk(l, db.outbox, e.hash, d);
    if e.report.ReportFailed? && e.report.retryable && e.attempts + 1 < l.maxAttempts {
      var moved := d.(retries := e.attempts + 1, updatedAt := now);
      AttemptEnds(l, d, moved);
      DocumentSum(l, db.documents, e.hash, moved);
      QueueWork(l, db.(documents := db.documents[e.hash := moved]), e.hash, now);
    } else {
      var ended := d.(status := if e.report.ReportIndexed? then Indexed else Failed, updatedAt := now);
      AttemptEnds(l, d, ended);
      DocumentSum(l, db.documents, e.hash, ended);
    }
  }

  lemma NewDocumentWork(l: Limits, db: Db, h: Hash, d: Document, now: Time)
    requires h !in db.documents && d.status == Processing && d.retries == 0 && db.nextId !in db.outbox
    ensures WorkLeft(l, Queue(db.(documents := db.documents[h := d]), h, now)) < WorkLeft(l, db) + ClaimWeight(l)
  {
    DocumentSum(l, db.documents, h, d);
    QueueWork(l, db.(documents := db.documents[h := d]), h, now);
  }

  lemma StartWork(l: Limits, db: Db, h: Hash, file: FileInfo, id: IntentId, w: WorkerId, now: Time)
    requires l.Valid() && Inv(l, db) && OwnsIntent(db, id, w)
    ensures WorkLeft(l, StartIngestion(db, h, file, id, w, now).0) < WorkLeft(l, db)
  {
    assert IntentOk(l, db.documents, db.intents[id]);
    var j := db.intents[id].(status := Hashed, hash := Some(h));
    if h in db.documents {
      IntentStep(l, db, id, j);
    } else {
      var d := Document(file, Processing, 0, now, now);
      NewDocumentWork(l, db, h, d, now);
      IntentStep(l, Queue(db.(documents := db.documents[h := d]), h, now), id, j);
    }
  }

  lemma DemotedWeight(l: Limits, i: Intent)
    requires i.status == Hashing && i.retries < l.hashRetries
    ensures IntentWeight(l, Demoted(l, i)) < IntentWeight(l, i)
  {
    FewerSteps(l, i, Demoted(l, i));
  }

  lemma RecoverIntentWork(l: Limits, db: Db, cutoff: Time)
    requires l.Valid() && Inv(l, db) && RecoverStaleIntents(l, db, cutoff) != db
    ensures WorkLeft(l, RecoverStaleIntents(l, db, cutoff)) < WorkLeft(l, db)
  {
    var after := RecoverStaleIntents(l, db, cutoff).intents;
    var a, b := IntentWeights(l, after), IntentWeights(l, db.intents);
    forall id | id in after ensures a[id] <= b[id] && (after[id] != db.intents[id] ==> a[id] < b[id]) {
      assert IntentOk(l, db.documents, db.intents[id]);
      if StaleIntent(db.intents[id], cutoff) { DemotedWeight(l, db.intents[id]); }
    }
    assert after.Keys == db.intents.Keys;
    var id :| id in after && after[id] != db.intents[id];
    SumShrinks(a, b);
  }

  lemma RecoverRowWork(l: Limits, db: Db, cutoff: Time)
    requires l.Valid() && Inv(l, db) && RecoverStaleOutbox(l, db, cutoff) != db
    ensures WorkLeft(l, RecoverStaleOutbox(l, db, cutoff)) < WorkLeft(l, db)
  {
    var after := RecoverStaleOutbox(l, db, cutoff).outbox;
    var a, b := RowWeights(l, after), RowWeights(l, db.outbox);
    forall id | id in after ensures a[id] <= b[id] && (after[id] != db.outbox[id] ==> a[id] < b[id]) {
      assert RowOk(l, db.documents, db.outbox[id]);
    }
    assert after.Keys == db.outbox.Keys;
    var id :| id in after && after[id] != db.outbox[id];
    SumShrinks(a, b);
  }

  lemma RowStatementWork(l: Limits, db: Db, s: Stmt)
    requires l.Valid() && Inv(l, db) && Exec(l, db, s) != db
    requires s.SClaim? || s.SPublished? || s.SBlocked? || s.SRelease?
    ensures WorkLeft(l, Exec(l, db, s)) < WorkLeft(l, db)
  {
    assert RowOk(l, db.documents, db.outbox[s.row]);
    RowStep(l, db, s.row, Exec(l, db, s).outbox[s.row]);
  }

  lemma IntentStatementWork(l: Limits, db: Db, s: Stmt)
    requires l.Valid() && Inv(l, db) && Exec(l, db, s) != db
    requires s.SUploaded? || s.SExpired? || s.SHashing? || s.SIntentFailed? || s.SIntentRelease?
    ensures WorkLeft(l, Exec(l, db, s)) < WorkLeft(l, db)
  {
    assert IntentOk(l, db.documents, db.intents[s.id]);
    IntentStep(l, db, s.id, Exec(l, db, s).intents[s.id]);
  }

  /** Every statement that changes a row, other than creating an intent, uses up work. */
  lemma StatementUsesWork(l: Limits, db: Db, s: Stmt)
    requires l.Valid() && Inv(l, db) && Exec(l, db, s) != db && !s.SCreate?
    ensures WorkLeft(l, Exec(l, db, s)) < WorkLeft(l, db)
  {
    match s {
      case SApply(e, now) => ApplyWork(l, db, e, now);
      case SStart(h, f, id, w, now) => StartWork(l, db, h, f, id, w, now);
      case SIntentRecover(cutoff) => RecoverIntentWork(l, db, cutoff);
      case SRecover(cutoff) => RecoverRowWork(l, db, cutoff);
      case SClaim(_, _, _) => RowStatementWork(l, db, s);
      case SPublished(_, _) => RowStatementWork(l, db, s);
      case SBlocked(_, _) => RowStatementWork(l, db, s);
      case SRelease(_, _) => RowStatementWork(l, db, s);
      case _ => IntentStatementWork(l, db, s);
    }
  }

  /** Row-changing statements of a run. */
  function Changes(l: Limits, db: Db, ss: seq<Stmt>): nat
    decreases |ss|
  {
    if ss == [] then 0
    else (if Exec(l, db, ss[0]) != db then 1 else 0) + Changes(l, Exec(l, db, ss[0]), ss[1..])
  }

  /** Termination: with a fixed set of intents, however the workers, sweepers and status events
      interleave, a run changes rows at most WorkLeft times. */
  lemma {:induction false} RunsTerminate(l: Limits, db: Db, ss: seq<Stmt>)
    requires l.Valid() && Inv(l, db)
    requires forall i :: 0 <= i < |ss| ==> !ss[i].SCreate?
    ensures Changes(l, db, ss) + WorkLeft(l, ExecAll(l, db, ss)) <= WorkLeft(l, db)
    decreases |ss|
  {
    if ss != [] {
      ExecKeepsInv(l, db, ss[0]);
      if Exec(l, db, ss[0]) != db { StatementUsesWork(l, db, ss[0]); }
      RunsTerminate(l, Exec(l, db, ss[0]), ss[1..]);
    }
  }
}
