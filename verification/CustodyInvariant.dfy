/** The inductive invariant behind custody and replay safety of the whole protocol. */
module CustodyInvariant {
  import opened Domain
  import opened Tables
  import opened TableInvariants
  import opened Streams
  import opened System
  import Ladder
  import Projection

  // ---- the center side

  predicate StartedAt(documents: map<Hash, Document>, h: Hash, n: nat) {
    h in documents && n <= documents[h].retries
  }

  ghost predicate Distinct(outbox: map<nat, OutboxRow>, born: map<nat, nat>) {
    forall a, b | a in outbox && b in outbox && a != b && outbox[a].hash == outbox[b].hash
      :: a in born && b in born ==> born[a] != born[b]
  }

  /** Outbox rows of one document stand for distinct attempts, all started, and the newest row
      stands for the current attempt. */
  ghost predicate RowsBorn(outbox: map<nat, OutboxRow>, documents: map<Hash, Document>, born: map<nat, nat>,
      latest: map<Hash, nat>) {
    && (forall id :: id in outbox ==> id in born && StartedAt(documents, outbox[id].hash, born[id]))
    && (forall h :: h in documents ==>
          h in latest && latest[h] in outbox && outbox[latest[h]].hash == h
          && latest[h] in born && born[latest[h]] == documents[h].retries)
    && Distinct(outbox, born)
  }

  ghost predicate EventsStarted(documents: map<Hash, Document>, ingest: seq<IngestEvent>) {
    forall e :: 0 <= e < |ingest| ==> StartedAt(documents, ingest[e].hash, ingest[e].attempts)
  }

  /** The ingest entry published for a row is for its document, and not for an older attempt. */
  predicate CarriedOk(outbox: map<nat, OutboxRow>, born: map<nat, nat>, ingest: seq<IngestEvent>, id: nat, e: nat) {
    && id in outbox && id in born && e < |ingest|
    && ingest[e].hash == outbox[id].hash && born[id] <= ingest[e].attempts
  }

  ghost predicate Carried(outbox: map<nat, OutboxRow>, born: map<nat, nat>, carried: map<nat, nat>,
      ingest: seq<IngestEvent>) {
    && (forall id :: id in carried ==> CarriedOk(outbox, born, ingest, id, carried[id]))
    && (forall id :: id in outbox && outbox[id].status == Published ==> id in carried)
  }

  predicate RelayOk(outbox: map<nat, OutboxRow>, documents: map<Hash, Document>, born: map<nat, nat>,
      carried: map<nat, nat>, pc: RelayPc) {
    match pc
    case RClaimed(row, _) => row in outbox
    case RRead(row, _, event) =>
      row in outbox && row in born && event.hash == outbox[row].hash && born[row] <= event.attempts
      && StartedAt(documents, event.hash, event.attempts)
    case RSent(row, _) => row in carried
    case _ => true
  }

  ghost predicate RelaysOk(outbox: map<nat, OutboxRow>, documents: map<Hash, Document>, born: map<nat, nat>,
      carried: map<nat, nat>, relays: map<WorkerId, RelayPc>) {
    forall w :: w in relays ==> RelayOk(outbox, documents, born, carried, relays[w])
  }

  ghost predicate CenterInv(l: Limits, s: State) {
    && Inv(l, s.db)
    && RowsBorn(s.db.outbox, s.db.documents, s.born, s.latest)
    && EventsStarted(s.db.documents, s.ingest)
    && Carried(s.db.outbox, s.born, s.carried, s.ingest)
    && RelaysOk(s.db.outbox, s.db.documents, s.born, s.carried, s.relays)
  }

  // ---- the consumer side

  predicate Matches(ingest: seq<IngestEvent>, e: nat, event: StatusEvent) {
    e < |ingest| && event.hash == ingest[e].hash && event.attempts == ingest[e].attempts
  }

  ghost predicate StatusMatches(ingest: seq<IngestEvent>, status: seq<StatusEntry>) {
    forall t :: 0 <= t < |status| ==> Matches(ingest, status[t].origin, status[t].event)
  }

  ghost predicate Reported(status: seq<StatusEntry>, reported: map<nat, nat>) {
    forall e :: e in reported ==> reported[e] < |status| && status[reported[e]].origin == e
  }

  /** An ingest entry is acknowledged only after its own status was published. */
  ghost predicate AckedIsReported(ig: Group, length: nat, reported: map<nat, nat>) {
    && ig.WellFormed(length)
    && (forall e :: ig.Acked(e) ==> e in reported)
  }

  predicate ConsumerOk(ingest: seq<IngestEvent>, reported: map<nat, nat>, pc: ConsumerPc) {
    match pc
    case CClaimed(e, _, _) => e < |ingest|
    case CGot(e, _, _) => e < |ingest|
    case CReporting(e, event) => Matches(ingest, e, event)
    case CHeld(e, event) => Matches(ingest, e, event)
    case CAcking(e) => e in reported
    case _ => true
  }

  ghost predicate ConsumersOk(ingest: seq<IngestEvent>, reported: map<nat, nat>, consumers: map<WorkerId, ConsumerPc>) {
    forall w :: w in consumers ==> ConsumerOk(ingest, reported, consumers[w])
  }

  ghost predicate ConsumerInv(s: State) {
    && StatusMatches(s.ingest, s.status)
    && Reported(s.status, s.reported)
    && AckedIsReported(s.ig, |s.ingest|, s.reported)
    && ConsumersOk(s.ingest, s.reported, s.consumers)
  }

  // ---- the status side

  /** A handled report is behind its document for good. */
  ghost predicate HandledSettled(db: Db, status: seq<StatusEntry>, handled: set<nat>) {
    forall t :: t in handled ==> t < |status| && Ladder.Settled(db, status[t].event)
  }

  ghost predicate AckedIsHandled(sg: Group, length: nat, handled: set<nat>, dropped: set<nat>) {
    && sg.WellFormed(length)
    && (forall t :: sg.Acked(t) ==> t in handled + dropped)
  }

  predicate ApplierOk(length: nat, handled: set<nat>, dropped: set<nat>, pc: ApplierPc) {
    match pc
    case AWorking(todo, _, _) => forall t :: t in todo ==> t < length
    case AAcking(todo, _) => (forall t :: t in todo ==> t < length) && (todo != [] ==> todo[0] in handled + dropped)
    case _ => true
  }

  ghost predicate AppliersOk(length: nat, handled: set<nat>, dropped: set<nat>, appliers: map<WorkerId, ApplierPc>) {
    forall w :: w in appliers ==> ApplierOk(length, handled, dropped, appliers[w])
  }

  ghost predicate StatusInv(s: State) {
    && HandledSettled(s.db, s.status, s.handled)
    && AckedIsHandled(s.sg, |s.status|, s.handled, s.dropped)
    && AppliersOk(|s.status|, s.handled, s.dropped, s.appliers)
  }

  ghost predicate SysInv(l: Limits, s: State) {
    CenterInv(l, s) && ConsumerInv(s) && StatusInv(s)
  }

  // ---- database statements

  lemma BornOnceMore(outbox: map<nat, OutboxRow>, born: map<nat, nat>, n: nat, r: OutboxRow, k: nat)
    requires n !in outbox && Distinct(outbox, born)
    requires forall id :: id in outbox ==> id in born && (outbox[id].hash == r.hash ==> born[id] < k)
    ensures Distinct(outbox[n := r], born[n := k])
  {
  }

  lemma QueuedRowIsBorn(db: Db, born: map<nat, nat>, latest: map<Hash, nat>, h: Hash, d: Document, r: OutboxRow)
    requires RowsBorn(db.outbox, db.documents, born, latest)
    requires db.nextId !in db.outbox && r.hash == h
    requires h in db.documents ==> d.retries == db.documents[h].retries + 1
    requires h !in db.documents ==> d.retries == 0
    ensures RowsBorn(db.outbox[db.nextId := r], db.documents[h := d], born[db.nextId := d.retries],
      latest[h := db.nextId])
  {
    hide Distinct;
    var n := db.nextId;
    forall id | id in db.outbox
      ensures id in born && StartedAt(db.documents[h := d], db.outbox[id].hash, born[id])
      ensures db.outbox[id].hash == h ==> born[id] < d.retries
    {
      assert StartedAt(db.documents, db.outbox[id].hash, born[id]);
    }
    BornOnceMore(db.outbox, born, n, r, d.retries);
  }

  /** A statement that queues nothing: hashes of rows and attempts of documents stay. */
  lemma NothingQueued(a: Db, b: Db, born: map<nat, nat>, latest: map<Hash, nat>)
    requires RowsBorn(a.outbox, a.documents, born, latest)
    requires a.outbox.Keys == b.outbox.Keys && forall id :: id in a.outbox ==> a.outbox[id].hash == b.outbox[id].hash
    requires a.documents.Keys == b.documents.Keys && forall h :: h in a.documents ==>
      a.documents[h].retries == b.documents[h].retries
    ensures RowsBorn(b.outbox, b.documents, born, latest)
  {
    forall id | id in b.outbox ensures id in born && StartedAt(b.documents, b.outbox[id].hash, born[id]) {
      assert StartedAt(a.documents, a.outbox[id].hash, born[id]);
    }
  }

  /** The row a statement queues, if any, and the attempt it stands for. */
  predicate QueuesFor(l: Limits, db: Db, stmt: Stmt, h: Hash, d: Document, now: Time) {
    var after := Exec(l, db, stmt);
    && db.nextId !in db.outbox
    && after.outbox == db.outbox[db.nextId := OutboxRow(h, Pending, None, None, 0, now)]
    && after.documents == db.documents[h := d]
    && (if h in db.documents then d.retries == db.documents[h].retries + 1 else d.retries == 0)
  }

  predicate QueuesNothing(l: Limits, db: Db, stmt: Stmt) {
    var after := Exec(l, db, stmt);
    && after.outbox.Keys == db.outbox.Keys
    && (forall id :: id in db.outbox ==> after.outbox[id].hash == db.outbox[id].hash)
    && after.documents.Keys == db.documents.Keys
    && (forall h :: h in db.documents ==> after.documents[h].retries == db.documents[h].retries)
  }

  lemma ApplyQueues(l: Limits, db: Db, stmt: Stmt) returns (d: Document)
    requires Inv(l, db) && stmt.SApply?
    ensures QueuesNothing(l, db, stmt) || QueuesFor(l, db, stmt, stmt.event.hash, d, stmt.now)
  {
    var e := stmt.event;
    d := Document(FileInfo("", "", 0), Processing, 0, 0, 0);
    if Current(db, e.hash, e.attempts) {
      d := db.documents[e.hash].(retries := e.attempts + 1, updatedAt := stmt.now);
    }
  }

  lemma StartQueues(l: Limits, db: Db, stmt: Stmt) returns (d: Document)
    requires Inv(l, db) && stmt.SStart?
    ensures QueuesNothing(l, db, stmt) || QueuesFor(l, db, stmt, stmt.hash, d, stmt.now)
  {
    d := Document(stmt.file, Processing, 0, stmt.now, stmt.now);
  }

  lemma SqlQueues(l: Limits, s: State, stmt: Stmt, h: Hash, d: Document, now: Time)
    requires RowsBorn(s.db.outbox, s.db.documents, s.born, s.latest)
    requires QueuesFor(l, s.db, stmt, h, d, now)
    ensures var t := WithDb(s, Exec(l, s.db, stmt)); RowsBorn(t.db.outbox, t.db.documents, t.born, t.latest)
  {
    hide Exec;
    QueuedRowIsBorn(s.db, s.born, s.latest, h, d, OutboxRow(h, Pending, None, None, 0, now));
  }

  lemma SqlQueuesNothing(l: Limits, s: State, stmt: Stmt)
    requires RowsBorn(s.db.outbox, s.db.documents, s.born, s.latest) && QueuesNothing(l, s.db, stmt)
    ensures var t := WithDb(s, Exec(l, s.db, stmt)); RowsBorn(t.db.outbox, t.db.documents, t.born, t.latest)
  {
    hide Exec;
    NothingQueued(s.db, Exec(l, s.db, stmt), s.born, s.latest);
    hide RowsBorn;
  }

  lemma OthersQueueNothing(l: Limits, db: Db, stmt: Stmt)
    requires !stmt.SApply? && !stmt.SStart?
    ensures QueuesNothing(l, db, stmt)
  {
  }

  lemma SqlKeepsBorn(l: Limits, s: State, stmt: Stmt)
    requires l.Valid() && Inv(l, s.db) && RowsBorn(s.db.outbox, s.db.documents, s.born, s.latest)
    ensures var t := WithDb(s, Exec(l, s.db, stmt)); RowsBorn(t.db.outbox, t.db.documents, t.born, t.latest)
  {
    hide RowsBorn; hide Exec; hide Inv; hide WithDb; hide QueuesNothing; hide QueuesFor;
    if stmt.SApply? {
      var d := ApplyQueues(l, s.db, stmt);
      if QueuesNothing(l, s.db, stmt) {
        SqlQueuesNothing(l, s, stmt);
      } else {
        SqlQueues(l, s, stmt, stmt.event.hash, d, stmt.now);
      }
    } else if stmt.SStart? {
      var d := StartQueues(l, s.db, stmt);
      if QueuesNothing(l, s.db, stmt) {
        SqlQueuesNothing(l, s, stmt);
      } else {
        SqlQueues(l, s, stmt, stmt.hash, d, stmt.now);
      }
    } else {
      OthersQueueNothing(l, s.db, stmt);
      SqlQueuesNothing(l, s, stmt);
    }
  }

  /** Only MarkPublished makes a row PUBLISHED. */
  lemma PublishedOnlyByMark(l: Limits, db: Db, stmt: Stmt, id: nat)
    requires Inv(l, db)
    requires id in Exec(l, db, stmt).outbox && Exec(l, db, stmt).outbox[id].status == Published
    ensures id in db.outbox
    ensures db.outbox[id].status == Published || (stmt.SPublished? && stmt.row == id)
  {
    hide Inv;
    match stmt {
      case SApply(e, now) => hide CreateIntent; hide StartIngestion;
      case SStart(_, _, _, _, _) => hide Apply;
      case _ => hide Apply; hide StartIngestion;
    }
  }

  lemma StartedStays(a: map<Hash, Document>, b: map<Hash, Document>, h: Hash, n: nat)
    requires DocumentsEvolve(a, b) && StartedAt(a, h, n)
    ensures StartedAt(b, h, n)
  {
    assert DocumentEvolves(a[h], b[h]);
  }

  lemma EventsStay(a: map<Hash, Document>, b: map<Hash, Document>, ingest: seq<IngestEvent>)
    requires DocumentsEvolve(a, b) && EventsStarted(a, ingest)
    ensures EventsStarted(b, ingest)
  {
    forall e | 0 <= e < |ingest| ensures StartedAt(b, ingest[e].hash, ingest[e].attempts) {
      StartedStays(a, b, ingest[e].hash, ingest[e].attempts);
    }
  }

  lemma RelaysStay(a: Db, b: Db, born: map<nat, nat>, born': map<nat, nat>, carried: map<nat, nat>,
      relays: map<WorkerId, RelayPc>)
    requires Evolves(a, b) && RelaysOk(a.outbox, a.documents, born, carried, relays)
    requires forall id :: id in a.outbox && id in born ==> id in born' && born'[id] == born[id]
    ensures RelaysOk(b.outbox, b.documents, born', carried, relays)
  {
    forall w | w in relays ensures RelayOk(b.outbox, b.documents, born', carried, relays[w]) {
      assert RelayOk(a.outbox, a.documents, born, carried, relays[w]);
      var pc := relays[w];
      if pc.RRead? {
        assert RowEvolves(a.outbox[pc.row], b.outbox[pc.row]);
        StartedStays(a.documents, b.documents, pc.event.hash, pc.event.attempts);
      }
    }
  }

  lemma CarriedStays(l: Limits, a: Db, stmt: Stmt, born: map<nat, nat>, born': map<nat, nat>, carried: map<nat, nat>,
      ingest: seq<IngestEvent>)
    requires l.Valid() && Inv(l, a) && Carried(a.outbox, born, carried, ingest)
    requires stmt.SPublished? ==> stmt.row in carried
    requires forall id :: id in a.outbox && id in born ==> id in born' && born'[id] == born[id]
    ensures Carried(Exec(l, a, stmt).outbox, born', carried, ingest)
  {
    var b := Exec(l, a, stmt);
    ExecKeepsInv(l, a, stmt);
    forall id | id in carried ensures CarriedOk(b.outbox, born', ingest, id, carried[id]) {
      assert CarriedOk(a.outbox, born, ingest, id, carried[id]);
      assert RowEvolves(a.outbox[id], b.outbox[id]);
    }
    forall id | id in b.outbox && b.outbox[id].status == Published ensures id in carried {
      PublishedOnlyByMark(l, a, stmt, id);
    }
  }

  lemma HandledStays(a: Db, b: Db, status: seq<StatusEntry>, handled: set<nat>)
    requires Evolves(a, b) && HandledSettled(a, status, handled)
    ensures HandledSettled(b, status, handled)
  {
    forall t | t in handled ensures t < |status| && Ladder.Settled(b, status[t].event) {
      Ladder.SettledStays(a, b, status[t].event);
    }
  }

  lemma BornGrows(db: Db, after: Db, born: map<nat, nat>)
    ensures forall id :: id in db.outbox && id in born ==>
      id in BornAfter(db, after, born) && BornAfter(db, after, born)[id] == born[id]
  {
  }

  lemma StatementKeepsCenter(l: Limits, s: State, stmt: Stmt)
    requires l.Valid() && CenterInv(l, s)
    requires stmt.SPublished? ==> stmt.row in s.carried
    ensures CenterInv(l, WithDb(s, Exec(l, s.db, stmt)))
  {
    var db := Exec(l, s.db, stmt);
    var born := BornAfter(s.db, db, s.born);
    BornGrows(s.db, db, s.born);
    ExecKeepsInv(l, s.db, stmt);
    SqlKeepsBorn(l, s, stmt);
    EventsStay(s.db.documents, db.documents, s.ingest);
    hide Exec; hide RowsBorn; hide Inv; hide BornAfter; hide LatestAfter;
    hide EventsStarted; hide Carried; hide RelaysOk; hide DocumentsEvolve; hide OutboxEvolves; hide IntentsEvolve;
    CarriedStays(l, s.db, stmt, s.born, born, s.carried, s.ingest);
    RelaysStay(s.db, db, s.born, born, s.carried, s.relays);
  }

  lemma StatusSurvives(s: State, t: State)
    requires StatusInv(s) && Evolves(s.db, t.db)
    requires t.status == s.status && t.sg == s.sg && t.handled == s.handled && t.dropped == s.dropped
      && t.appliers == s.appliers
    ensures StatusInv(t)
  {
    hide Evolves; hide HandledSettled; hide AckedIsHandled; hide AppliersOk;
    HandledStays(s.db, t.db, s.status, s.handled);
  }

  lemma ConsumersSurvive(s: State, t: State)
    requires ConsumerInv(s)
    requires t.ingest == s.ingest && t.status == s.status && t.reported == s.reported && t.ig == s.ig
      && t.consumers == s.consumers
    ensures ConsumerInv(t)
  {
  }

  /** Any statement at all keeps the invariant, as long as only published rows are marked so. */
  lemma StatementKeeps(l: Limits, s: State, stmt: Stmt)
    requires l.Valid() && SysInv(l, s)
    requires stmt.SPublished? ==> stmt.row in s.carried
    ensures SysInv(l, WithDb(s, Exec(l, s.db, stmt))) && Evolves(s.db, Exec(l, s.db, stmt))
  {
    var t := WithDb(s, Exec(l, s.db, stmt));
    StatementKeepsCenter(l, s, stmt);
    InvEvolves(l, s, stmt);
    hide Exec; hide Evolves; hide CenterInv; hide ConsumerInv; hide StatusInv; hide BornAfter; hide LatestAfter;
    StatusSurvives(s, t);
    ConsumersSurvive(s, t);
  }

  lemma InvEvolves(l: Limits, s: State, stmt: Stmt)
    requires l.Valid() && CenterInv(l, s)
    ensures Evolves(s.db, Exec(l, s.db, stmt))
  {
    ExecKeepsInv(l, s.db, stmt);
  }

  lemma SqlKeeps(l: Limits, s: State, stmt: Stmt, reply: Reply)
    requires l.Valid() && SysInv(l, s)
    requires stmt.SPublished? ==> stmt.row in s.carried
    ensures SysInv(l, Sql(l, s, stmt, reply))
  {
    if reply.Applied() { StatementKeeps(l, s, stmt); } else { assert WithDb(s, s.db) == s; }
  }

  // ---- program counters

  lemma RelayMoves(l: Limits, s: State, w: WorkerId, pc: RelayPc)
    requires SysInv(l, s) && RelayOk(s.db.outbox, s.db.documents, s.born, s.carried, pc)
    ensures SysInv(l, SetRelay(s, w, pc))
  {
  }

  lemma ConsumerMoves(l: Limits, s: State, w: WorkerId, pc: ConsumerPc)
    requires SysInv(l, s) && ConsumerOk(s.ingest, s.reported, pc)
    ensures SysInv(l, SetConsumer(s, w, pc))
  {
  }

  lemma ApplierMoves(l: Limits, s: State, w: WorkerId, pc: ApplierPc)
    requires SysInv(l, s) && ApplierOk(|s.status|, s.handled, s.dropped, pc)
    ensures SysInv(l, SetApplier(s, w, pc))
  {
  }

  /** Hash workers and the run's own records do not occur in the invariant. */
  lemma Unmentioned(l: Limits, s: State, t: State)
    requires SysInv(l, s)
    requires t.db == s.db && t.born == s.born && t.latest == s.latest && t.carried == s.carried && t.relays == s.relays
    requires t.ingest == s.ingest && t.ig == s.ig && t.consumers == s.consumers && t.reported == s.reported
    requires t.status == s.status && t.sg == s.sg && t.appliers == s.appliers && t.handled == s.handled
      && t.dropped == s.dropped
    ensures SysInv(l, t)
  {
  }

  // ---- the actions

  lemma HashStep(l: Limits, s: State, w: WorkerId, a: HashAction)
    requires l.Valid() && SysInv(l, s) && HashEnabled(s.Hasher(w), a)
    ensures SysInv(l, DoHash(l, s, w, a))
  {
    hide SysInv; hide Evolves; hide Sql; hide ToHashing;
    var t := s;
    match a {
      case HClaim(id, now, reply) =>
        SqlKeeps(l, s, SHashing(id, w, now), reply);
        t := Sql(l, s, SHashing(id, w, now), reply);
      case HStart(h, file, now, reply) =>
        SqlKeeps(l, s, SStart(h, file, s.Hasher(w).id, w, now), reply);
        t := Sql(l, s, SStart(h, file, s.Hasher(w).id, w, now), reply);
      case HFail(reply) =>
        SqlKeeps(l, s, SIntentFailed(s.Hasher(w).id, w), reply);
        t := Sql(l, s, SIntentFailed(s.Hasher(w).id, w), reply);
      case HRelease(reply) =>
        SqlKeeps(l, s, SIntentRelease(s.Hasher(w).id, w), reply);
        t := Sql(l, s, SIntentRelease(s.Hasher(w).id, w), reply);
      case HCrash =>
    }
    Unmentioned(l, t, DoHash(l, s, w, a));
  }

  lemma WonRowExists(l: Limits, s: State, w: WorkerId, row: nat, now: Time, reply: Reply)
    ensures reply.Applied() && ClaimOutboxMessage(s.db, row, w, now).1 ==>
      row in Sql(l, s, SClaim(row, w, now), reply).db.outbox
  {
  }

  lemma RelayTakes(l: Limits, t: State, w: WorkerId, pc: RelayPc, takes: bool, claims: map<nat, nat>)
    requires SysInv(l, t) && (takes ==> RelayOk(t.db.outbox, t.db.documents, t.born, t.carried, pc))
    ensures SysInv(l, t.(rowClaims := claims, relays := if takes then t.relays[w := pc] else t.relays))
  {
    hide SysInv; hide RelayOk;
    if takes { RelayMoves(l, t, w, pc); }
    Unmentioned(l, if takes then SetRelay(t, w, pc) else t,
      t.(rowClaims := claims, relays := if takes then t.relays[w := pc] else t.relays));
  }

  lemma RelayClaimStep(l: Limits, s: State, w: WorkerId, row: nat, now: Time, reply: Reply)
    requires l.Valid() && SysInv(l, s)
    ensures SysInv(l, DoRelayClaim(l, s, w, row, now, reply))
  {
    hide SysInv; hide Evolves; hide Sql; hide ClaimOutboxMessage;
    var t := Sql(l, s, SClaim(row, w, now), reply);
    SqlKeeps(l, s, SClaim(row, w, now), reply);
    WonRowExists(l, s, w, row, now, reply);
    SqlLeavesTheRest(l, s, SClaim(row, w, now), reply);
    var won := reply.Applied() && ClaimOutboxMessage(s.db, row, w, now).1;
    var n := Count(s.rowClaims, row) + 1;
    RelayTakes(l, t, w, RClaimed(row, n), won && reply.Done?, if won then s.rowClaims[row := n] else s.rowClaims);
  }

  lemma SqlLeavesTheRest(l: Limits, s: State, stmt: Stmt, reply: Reply)
    ensures var t := Sql(l, s, stmt, reply); t.relays == s.relays && t.appliers == s.appliers && t.hashers == s.hashers
  {
    hide Exec;
  }

  lemma ReadIsOk(l: Limits, s: State, w: WorkerId, ok: bool)
    requires SysInv(l, s) && s.Relay(w).RClaimed?
    ensures RelayOk(s.db.outbox, s.db.documents, s.born, s.carried,
      AfterRead(s.db, s.Relay(w).row, s.Relay(w).claim, ok))
  {
    var row := s.Relay(w).row;
    assert RelayOk(s.db.outbox, s.db.documents, s.born, s.carried, s.Relay(w));
    assert StartedAt(s.db.documents, s.db.outbox[row].hash, s.born[row]);
  }

  lemma IngestGrowsCarried(s: State, row: nat, event: IngestEvent)
    requires Carried(s.db.outbox, s.born, s.carried, s.ingest)
    requires row in s.db.outbox && row in s.born && event.hash == s.db.outbox[row].hash && s.born[row] <= event.attempts
    ensures Carried(s.db.outbox, s.born, s.carried[row := |s.ingest|], s.ingest + [event])
  {
    var ingest', carried' := s.ingest + [event], s.carried[row := |s.ingest|];
    forall id | id in carried' ensures CarriedOk(s.db.outbox, s.born, ingest', id, carried'[id]) {
      if id != row { assert CarriedOk(s.db.outbox, s.born, s.ingest, id, s.carried[id]); }
    }
  }

  lemma MoreCarried(s: State, carried': map<nat, nat>)
    requires RelaysOk(s.db.outbox, s.db.documents, s.born, s.carried, s.relays) && s.carried.Keys <= carried'.Keys
    ensures RelaysOk(s.db.outbox, s.db.documents, s.born, carried', s.relays)
  {
    forall w | w in s.relays ensures RelayOk(s.db.outbox, s.db.documents, s.born, carried', s.relays[w]) {
      assert RelayOk(s.db.outbox, s.db.documents, s.born, s.carried, s.relays[w]);
    }
  }

  lemma OneMoreStarted(documents: map<Hash, Document>, ingest: seq<IngestEvent>, event: IngestEvent)
    requires EventsStarted(documents, ingest) && StartedAt(documents, event.hash, event.attempts)
    ensures EventsStarted(documents, ingest + [event])
  {
  }

  /** Appending one event of a started attempt to the ingest stream. */
  lemma IngestGrows(l: Limits, s: State, row: nat, event: IngestEvent)
    requires SysInv(l, s) && StartedAt(s.db.documents, event.hash, event.attempts)
    requires row in s.db.outbox && row in s.born && event.hash == s.db.outbox[row].hash && s.born[row] <= event.attempts
    ensures SysInv(l, s.(ingest := s.ingest + [event], carried := s.carried[row := |s.ingest|]))
  {
    var t := s.(ingest := s.ingest + [event], carried := s.carried[row := |s.ingest|]);
    IngestGrowsConsumers(s, t.ingest);
    hide ConsumerInv; hide StatusInv; hide Inv; hide RowsBorn; hide EventsStarted; hide Carried; hide RelaysOk;
    OneMoreStarted(s.db.documents, s.ingest, event);
    IngestGrowsCarried(s, row, event);
    MoreCarried(s, t.carried);
    ConsumersSurvive(s.(ingest := t.ingest), t);
    StatusReadsNoIngest(s, t);
  }

  lemma StatusReadsNoIngest(s: State, t: State)
    requires StatusInv(s) && t.db == s.db && t.status == s.status && t.sg == s.sg
    requires t.handled == s.handled && t.dropped == s.dropped && t.appliers == s.appliers
    ensures StatusInv(t)
  {
  }

  lemma IngestGrowsConsumers(s: State, ingest': seq<IngestEvent>)
    requires ConsumerInv(s) && |s.ingest| <= |ingest'| && forall e :: 0 <= e < |s.ingest| ==> ingest'[e] == s.ingest[e]
    ensures ConsumerInv(s.(ingest := ingest'))
  {
    forall t | 0 <= t < |s.status| ensures Matches(ingest', s.status[t].origin, s.status[t].event) {
      assert Matches(s.ingest, s.status[t].origin, s.status[t].event);
    }
    forall w | w in s.consumers ensures ConsumerOk(ingest', s.reported, s.consumers[w]) {
      assert ConsumerOk(s.ingest, s.reported, s.consumers[w]);
    }
  }

  lemma RelaySends(l: Limits, t: State, w: WorkerId, pc: RelayPc, sends: seq<Send>)
    requires SysInv(l, t) && RelayOk(t.db.outbox, t.db.documents, t.born, t.carried, pc)
    ensures SysInv(l, t.(relays := t.relays[w := pc], sends := sends))
  {
    hide SysInv; hide RelayOk;
    RelayMoves(l, t, w, pc);
    Unmentioned(l, SetRelay(t, w, pc), t.(relays := t.relays[w := pc], sends := sends));
  }

  lemma RelayIsOk(l: Limits, s: State, w: WorkerId)
    requires SysInv(l, s)
    ensures RelayOk(s.db.outbox, s.db.documents, s.born, s.carried, s.Relay(w))
  {
  }

  lemma RelayPublishStep(l: Limits, s: State, w: WorkerId, reply: Reply)
    requires SysInv(l, s) && s.Relay(w).RRead?
    ensures SysInv(l, DoRelayPublish(s, w, reply))
  {
    hide SysInv;
    var pc := s.Relay(w);
    RelayIsOk(l, s, w);
    var sends := s.sends + [Send(pc.row, pc.claim)];
    if reply.Applied() {
      var t := s.(ingest := s.ingest + [pc.event], carried := s.carried[pc.row := |s.ingest|]);
      IngestGrows(l, s, pc.row, pc.event);
      RelaySends(l, t, w, if reply.Done? then RSent(pc.row, pc.claim) else RReleasing(pc.row, pc.claim), sends);
    } else {
      RelaySends(l, s, w, RReleasing(pc.row, pc.claim), sends);
    }
  }

  lemma RelayRests(l: Limits, s: State, w: WorkerId)
    requires SysInv(l, s)
    ensures SysInv(l, SetRelay(s, w, RIdle)) && SysInv(l, SetRelay(s, w, RDead))
  {
    RelayMoves(l, s, w, RIdle);
    RelayMoves(l, s, w, RDead);
  }

  lemma RelayMarkStep(l: Limits, s: State, w: WorkerId, reply: Reply)
    requires l.Valid() && SysInv(l, s) && s.Relay(w).RSent?
    ensures SysInv(l, Sql(l, s, SPublished(s.Relay(w).row, w), reply))
  {
    assert RelayOk(s.db.outbox, s.db.documents, s.born, s.carried, s.Relay(w));
    SqlKeeps(l, s, SPublished(s.Relay(w).row, w), reply);
  }

  lemma RelayStep(l: Limits, s: State, w: WorkerId, a: RelayAction)
    requires l.Valid() && SysInv(l, s) && RelayEnabled(s.Relay(w), a)
    ensures SysInv(l, DoRelay(l, s, w, a))
  {
    hide SysInv; hide Evolves; hide Sql; hide DoRelayClaim; hide RelayOk; hide AfterRead; hide DoRelayPublish;
    match a {
      case RClaim(row, now, reply) => RelayClaimStep(l, s, w, row, now, reply);
      case RReadDocument(ok) =>
        ReadIsOk(l, s, w, ok);
        RelayMoves(l, s, w, AfterRead(s.db, s.Relay(w).row, s.Relay(w).claim, ok));
      case RPublish(reply) => RelayPublishStep(l, s, w, reply);
      case RMark(reply) =>
        RelayMarkStep(l, s, w, reply);
        RelayRests(l, Sql(l, s, SPublished(s.Relay(w).row, w), reply), w);
      case RRelease(reply) =>
        SqlKeeps(l, s, SRelease(s.Relay(w).row, w), reply);
        RelayRests(l, Sql(l, s, SRelease(s.Relay(w).row, w), reply), w);
      case RBlock(reply) =>
        SqlKeeps(l, s, SBlocked(s.Relay(w).row, w), reply);
        RelayRests(l, Sql(l, s, SBlocked(s.Relay(w).row, w), reply), w);
      case RCrash => RelayRests(l, s, w);
    }
  }

  lemma IngestGroupChanges(l: Limits, s: State, ig: Group)
    requires SysInv(l, s) && AckedIsReported(ig, |s.ingest|, s.reported)
    ensures SysInv(l, s.(ig := ig))
  {
  }

  lemma ConsumeReadStep(l: Limits, s: State, w: WorkerId, now: Time, reply: Reply)
    requires SysInv(l, s) && s.ig.alive && s.ig.delivered < |s.ingest|
    ensures SysInv(l, DoConsumeRead(s, w, now, reply))
  {
    var ig := s.ig.Read(1, w, now);
    forall e | ig.Acked(e) ensures e in s.reported {
      assert s.ig.InBatch(e, 1) ==> e in ig.pending;
      assert s.ig.Acked(e);
    }
    assert AckedIsReported(ig, |s.ingest|, s.reported);
    hide SysInv; hide AckedIsReported;
    IngestGroupChanges(l, s, ig);
    if reply.Applied() { ConsumerMoves(l, s.(ig := ig), w, CGot(s.ig.delivered, s.ig.lifetime, 1)); }
  }

  lemma ClaimKeepsAcked(g: Group, es: seq<nat>, w: WorkerId, now: Time)
    ensures g.Claim(es, w, now).pending.Keys == g.pending.Keys
    ensures forall e :: g.Claim(es, w, now).Acked(e) <==> g.Acked(e)
  {
  }

  lemma ConsumePublishStep(l: Limits, s: State, w: WorkerId, reply: Reply)
    requires SysInv(l, s) && (s.Consumer(w).CReporting? || s.Consumer(w).CHeld?)
    ensures SysInv(l, DoConsumePublish(s, w, reply))
  {
    var pc := s.Consumer(w);
    assert ConsumerOk(s.ingest, s.reported, pc);
    hide SysInv;
    if reply.Applied() {
      StatusGrows(l, s, pc.entry, pc.event);
      var t := s.(status := s.status + [StatusEntry(pc.event, pc.entry)],
        reported := s.reported[pc.entry := |s.status|]);
      ConsumerMoves(l, t, w, CAcking(pc.entry));
    }
  }

  /** Appending one report about an ingest entry to the status stream. */
  lemma StatusGrows(l: Limits, s: State, e: nat, event: StatusEvent)
    requires SysInv(l, s) && Matches(s.ingest, e, event)
    ensures SysInv(l, s.(status := s.status + [StatusEntry(event, e)], reported := s.reported[e := |s.status|]))
  {
    hide CenterInv;
    StatusGrowsConsumers(s, e, event);
    StatusGrowsAppliers(s, StatusEntry(event, e));
    hide ConsumerInv; hide StatusInv;
    var t := s.(status := s.status + [StatusEntry(event, e)], reported := s.reported[e := |s.status|]);
    assert ConsumerInv(t);
    CenterReadsNoReports(l, s, t);
    StatusReadsNoReports(s.(status := t.status), t);
  }

  lemma StatusGrowsConsumers(s: State, e: nat, event: StatusEvent)
    requires ConsumerInv(s) && Matches(s.ingest, e, event)
    ensures ConsumerInv(s.(status := s.status + [StatusEntry(event, e)], reported := s.reported[e := |s.status|]))
  {
    var reported' := s.reported[e := |s.status|];
    forall w | w in s.consumers ensures ConsumerOk(s.ingest, reported', s.consumers[w]) {
      assert ConsumerOk(s.ingest, s.reported, s.consumers[w]);
    }
  }

  lemma CenterReadsNoReports(l: Limits, s: State, t: State)
    requires CenterInv(l, s) && t == s.(status := t.status, reported := t.reported)
    ensures CenterInv(l, t)
  {
  }

  lemma StatusReadsNoReports(s: State, t: State)
    requires StatusInv(s) && t == s.(reported := t.reported)
    ensures StatusInv(t)
  {
  }

  lemma StatusGrowsAppliers(s: State, entry: StatusEntry)
    requires StatusInv(s)
    ensures StatusInv(s.(status := s.status + [entry]))
  {
    var status' := s.status + [entry];
    forall t | t in s.handled ensures t < |status'| && Ladder.Settled(s.db, status'[t].event) {
      assert Ladder.Settled(s.db, s.status[t].event);
    }
    forall w | w in s.appliers ensures ApplierOk(|status'|, s.handled, s.dropped, s.appliers[w]) {
      assert ApplierOk(|s.status|, s.handled, s.dropped, s.appliers[w]);
    }
  }

  lemma LookupIsOk(l: Limits, s: State, w: WorkerId, e: nat, ok: bool)
    ensures ConsumerOk(s.ingest, s.reported, AfterLookup(l, s.ig, s.ingest, w, e, ok))
  {
  }

  lemma ConsumerRecords(l: Limits, t: State, w: WorkerId, pc: ConsumerPc, runs: seq<Run>)
    requires SysInv(l, t) && ConsumerOk(t.ingest, t.reported, pc)
    ensures SysInv(l, t.(consumers := t.consumers[w := pc], runs := runs))
  {
    hide SysInv; hide ConsumerOk;
    ConsumerMoves(l, t, w, pc);
    Unmentioned(l, SetConsumer(t, w, pc), t.(consumers := t.consumers[w := pc], runs := runs));
  }

  lemma ConsumeRunStep(l: Limits, s: State, w: WorkerId, report: Report)
    requires SysInv(l, s) && s.Consumer(w).CGot? && s.Consumer(w).entry < |s.ingest|
    ensures SysInv(l, DoConsumeRun(s, w, report))
  {
    hide SysInv;
    var pc := s.Consumer(w);
    ConsumerRecords(l, s, w, CReporting(pc.entry, EventOf(s.ingest, pc.entry, report)),
      s.runs + [Run(pc.entry, pc.lifetime, pc.delivery)]);
  }

  lemma ClaimedIsReported(l: Limits, s: State, w: WorkerId, e: nat, now: Time)
    requires SysInv(l, s) && e in s.ig.pending
    ensures e < |s.ingest| && AckedIsReported(s.ig.Claim([e], w, now), |s.ingest|, s.reported)
  {
    ClaimKeepsAcked(s.ig, [e], w, now);
  }

  lemma ConsumeClaimStep(l: Limits, s: State, w: WorkerId, e: nat, now: Time, reply: Reply)
    requires SysInv(l, s) && e in s.ig.pending
    ensures SysInv(l, DoConsumeClaim(s, w, e, now, reply))
  {
    hide SysInv; hide AckedIsReported; hide s.ig.Claim;
    var ig := s.ig.Claim([e], w, now);
    ClaimedIsReported(l, s, w, e, now);
    IngestGroupChanges(l, s, ig);
    if reply.Applied() {
      ConsumerMoves(l, s.(ig := ig), w, CClaimed(e, s.ig.lifetime, s.ig.pending[e].deliveries + 1));
    }
  }

  lemma AckStep(l: Limits, s: State, w: WorkerId, reply: Reply)
    requires SysInv(l, s) && s.Consumer(w).CAcking?
    ensures SysInv(l, SetConsumer(s.(ig := if reply.Applied() then s.ig.Ack(s.Consumer(w).entry) else s.ig), w, CIdle))
  {
    var e := s.Consumer(w).entry;
    assert ConsumerOk(s.ingest, s.reported, s.Consumer(w));
    hide SysInv;
    AckOne(l, s, e);
    ConsumerRests(l, s, w);
    ConsumerRests(l, s.(ig := s.ig.Ack(e)), w);
  }

  lemma RenewStep(l: Limits, s: State, e: nat, w: WorkerId, now: Time)
    requires SysInv(l, s)
    ensures SysInv(l, s.(ig := s.ig.Renew(e, w, now)))
  {
    var ig := s.ig.Renew(e, w, now);
    assert ig.pending.Keys == s.ig.pending.Keys;
    assert forall x :: ig.Acked(x) <==> s.ig.Acked(x);
    IngestGroupChanges(l, s, ig);
  }

  lemma ConsumerRests(l: Limits, s: State, w: WorkerId)
    requires SysInv(l, s)
    ensures SysInv(l, SetConsumer(s, w, CIdle)) && SysInv(l, SetConsumer(s, w, CDead))
  {
    ConsumerMoves(l, s, w, CIdle);
    ConsumerMoves(l, s, w, CDead);
  }

  lemma ConsumerIsOk(l: Limits, s: State, w: WorkerId)
    requires SysInv(l, s)
    ensures var pc := s.Consumer(w);
      ConsumerOk(s.ingest, s.reported, pc)
        && (pc.CReporting? ==> ConsumerOk(s.ingest, s.reported, CHeld(pc.entry, pc.event)))
  {
  }

  lemma ConsumerCalls(l: Limits, s: State, w: WorkerId, a: ConsumerAction)
    requires SysInv(l, s) && ConsumerEnabled(l, s, s.Consumer(w), a)
    requires a.CRead? || a.CClaim? || a.CRun? || a.CPublish?
    ensures SysInv(l, DoConsumer(l, s, w, a))
  {
    hide SysInv; hide DoConsumeRead; hide DoConsumeClaim; hide DoConsumeRun; hide DoConsumePublish;
    match a {
      case CRead(now, reply) => ConsumeReadStep(l, s, w, now, reply);
      case CClaim(e, now, reply) => ConsumeClaimStep(l, s, w, e, now, reply);
      case CRun(report) => ConsumeRunStep(l, s, w, report);
      case CPublish(reply) => ConsumePublishStep(l, s, w, reply);
    }
  }

  lemma ConsumerMovesOn(l: Limits, s: State, w: WorkerId, a: ConsumerAction)
    requires SysInv(l, s) && ConsumerEnabled(l, s, s.Consumer(w), a)
    requires a.CLookup? || a.CHold? || a.CAbandon? || a.CCrash?
    ensures SysInv(l, DoConsumer(l, s, w, a))
  {
    var pc := s.Consumer(w);
    ConsumerIsOk(l, s, w);
    hide SysInv; hide ConsumerOk; hide AfterLookup;
    match a {
      case CLookup(ok) =>
        LookupIsOk(l, s, w, pc.entry, ok);
        ConsumerMoves(l, s, w, AfterLookup(l, s.ig, s.ingest, w, pc.entry, ok));
      case CHold => ConsumerMoves(l, s, w, CHeld(pc.entry, pc.event));
      case CAbandon => ConsumerRests(l, s, w);
      case CCrash => ConsumerRests(l, s, w);
    }
  }

  lemma ConsumerStep(l: Limits, s: State, w: WorkerId, a: ConsumerAction)
    requires SysInv(l, s) && ConsumerEnabled(l, s, s.Consumer(w), a)
    ensures SysInv(l, DoConsumer(l, s, w, a))
  {
    if a.CRenew? {
      hide SysInv;
      RenewStep(l, s, s.Consumer(w).entry, w, a.now);
    } else if a.CAck? {
      hide SysInv;
      AckStep(l, s, w, a.reply);
    } else {
      hide SysInv; hide DoConsumer; hide ConsumerEnabled;
      if a.CRead? || a.CClaim? || a.CRun? || a.CPublish? {
        ConsumerCalls(l, s, w, a);
      } else {
        ConsumerMovesOn(l, s, w, a);
      }
    }
  }

  lemma AckedOneMore(ig: Group, length: nat, reported: map<nat, nat>, e: nat)
    requires AckedIsReported(ig, length, reported) && e in reported
    ensures AckedIsReported(ig.Ack(e), length, reported)
  {
    forall x | ig.Ack(e).Acked(x) ensures x in reported {
      if x != e { assert ig.Acked(x); }
    }
  }

  lemma AckOne(l: Limits, s: State, e: nat)
    requires SysInv(l, s) && e in s.reported
    ensures SysInv(l, s.(ig := s.ig.Ack(e)))
  {
    AckedOneMore(s.ig, |s.ingest|, s.reported, e);
    hide AckedIsReported; hide SysInv;
    IngestGroupChanges(l, s, s.ig.Ack(e));
  }

  lemma StatusGroupChanges(l: Limits, s: State, sg: Group)
    requires SysInv(l, s) && AckedIsHandled(sg, |s.status|, s.handled, s.dropped)
    ensures SysInv(l, s.(sg := sg))
  {
  }

  lemma ApplyReadStep(l: Limits, s: State, w: WorkerId, count: nat, now: Time, reply: Reply)
    requires SysInv(l, s) && s.sg.alive
    ensures SysInv(l, DoApplyRead(s, w, count, now, reply))
  {
    var from := s.sg.delivered;
    var n := if count <= |s.status| - from then count else |s.status| - from;
    var sg := s.sg.Read(n, w, now);
    forall t | sg.Acked(t) ensures t in s.handled + s.dropped {
      assert s.sg.InBatch(t, n) ==> t in sg.pending;
      assert s.sg.Acked(t);
    }
    StatusGroupChanges(l, s, sg);
    var u := if reply.Applied() then s.(sg := sg) else s;
    ApplierMoves(l, u, w, AWorking(seq(n, i requires 0 <= i => from + i), false, false));
  }

  lemma ApplyClaimStep(l: Limits, s: State, w: WorkerId, es: seq<nat>, now: Time, reply: Reply)
    requires SysInv(l, s) && forall e :: e in es ==> s.sg.Stale(e, l.statusMinIdle, now)
    ensures SysInv(l, DoApplyClaim(s, w, es, now, reply))
  {
    var sg := s.sg.Claim(es, w, now);
    ClaimKeepsAcked(s.sg, es, w, now);
    assert AckedIsHandled(sg, |s.status|, s.handled, s.dropped);
    assert ApplierOk(|s.status|, s.handled, s.dropped, AWorking(es, true, false));
    hide SysInv; hide AckedIsHandled; hide ApplierOk;
    StatusGroupChanges(l, s, sg);
    if reply.Done? { ApplierMoves(l, s.(sg := sg), w, AWorking(es, true, false)); }
  }

  lemma MoreDone(l: Limits, s: State, handled: set<nat>, dropped: set<nat>)
    requires SysInv(l, s) && s.handled <= handled && s.dropped <= dropped
    requires HandledSettled(s.db, s.status, handled)
    ensures SysInv(l, s.(handled := handled, dropped := dropped))
  {
    forall w | w in s.appliers ensures ApplierOk(|s.status|, handled, dropped, s.appliers[w]) {
      assert ApplierOk(|s.status|, s.handled, s.dropped, s.appliers[w]);
    }
  }

  lemma StatusStarted(l: Limits, s: State, t: nat)
    requires SysInv(l, s) && t < |s.status|
    ensures Ladder.Started(s.db, s.status[t].event)
  {
    var origin := s.status[t].origin;
    assert Matches(s.ingest, origin, s.status[t].event);
    assert StartedAt(s.db.documents, s.ingest[origin].hash, s.ingest[origin].attempts);
  }

  lemma HandleKeeps(l: Limits, s: State, t: nat, now: Time, reply: Reply)
    requires l.Valid() && SysInv(l, s) && t < |s.status| && reply.Applied()
    ensures var u := Sql(l, s, SApply(s.status[t].event, now), reply);
      SysInv(l, u.(handled := u.handled + {t}))
  {
    var event := s.status[t].event;
    var u := Sql(l, s, SApply(event, now), reply);
    StatusStarted(l, s, t);
    ApplySettles(l, s.db, event, now);
    SqlKeeps(l, s, SApply(event, now), reply);
    OneMoreSettled(u, t);
    hide Sql; hide Evolves; hide Exec; hide HandledSettled;
    assert SysInv(l, u);
    MoreDone(l, u, u.handled + {t}, u.dropped);
  }

  lemma OneMoreSettled(s: State, t: nat)
    requires HandledSettled(s.db, s.status, s.handled) && t < |s.status| && Ladder.Settled(s.db, s.status[t].event)
    ensures HandledSettled(s.db, s.status, s.handled + {t})
  {
  }

  lemma ApplySettles(l: Limits, db: Db, event: StatusEvent, now: Time)
    requires Ladder.Started(db, event)
    ensures Ladder.Settled(Exec(l, db, SApply(event, now)), event)
  {
    Ladder.HandledIsSettled(l, db, event, now);
  }

  lemma ApplyHandleStep(l: Limits, s: State, w: WorkerId, e: nat, now: Time, reply: Reply)
    requires l.Valid() && SysInv(l, s) && ApplierEnabled(l, s, s.Applier(w), AHandle(e, now, reply))
    ensures SysInv(l, DoApplyHandle(l, s, w, now, reply))
  {
    var pc := s.Applier(w);
    var t := pc.todo[0];
    hide SysInv; hide Evolves; hide Exec;
    if reply.Applied() {
      HandleKeeps(l, s, t, now, reply);
      var u := Sql(l, s, SApply(s.status[t].event, now), reply);
      assert u.appliers == s.appliers;
      hide Sql;
      ApplierMovesToAck(l, u.(handled := u.handled + {t}), w, pc.todo, pc.claimed, pc.checked);
    } else {
      SqlKeeps(l, s, SApply(s.status[t].event, now), reply);
    }
  }

  lemma ApplierMovesToAck(l: Limits, s: State, w: WorkerId, todo: seq<nat>, claimed: bool, checked: bool)
    requires SysInv(l, s) && todo != [] && s.Applier(w) == AWorking(todo, claimed, checked)
      && todo[0] in s.handled + s.dropped
    ensures SysInv(l, SetApplier(s, w, AAcking(todo, claimed)))
  {
    assert ApplierOk(|s.status|, s.handled, s.dropped, s.Applier(w));
    ApplierMoves(l, s, w, AAcking(todo, claimed));
  }

  lemma NextOk(l: Limits, s: State, pc: ApplierPc)
    requires (pc.AWorking? || pc.AAcking?) && pc.todo != [] && ApplierOk(|s.status|, s.handled, s.dropped, pc)
    ensures ApplierOk(|s.status|, s.handled, s.dropped, Next(pc.todo, pc.claimed))
  {
    assert forall t :: t in pc.todo[1..] ==> t in pc.todo;
  }

  lemma DropStep(l: Limits, s: State, w: WorkerId)
    requires SysInv(l, s) && s.Applier(w).AWorking? && s.Applier(w).todo != []
    ensures var pc := s.Applier(w);
      SysInv(l, SetApplier(s.(dropped := s.dropped + {pc.todo[0]}), w, AAcking(pc.todo, pc.claimed)))
  {
    var pc := s.Applier(w);
    MoreDone(l, s, s.handled, s.dropped + {pc.todo[0]});
    hide SysInv;
    ApplierMovesToAck(l, s.(dropped := s.dropped + {pc.todo[0]}), w, pc.todo, pc.claimed, pc.checked);
  }

  lemma CheckStep(l: Limits, s: State, w: WorkerId)
    requires SysInv(l, s) && s.Applier(w).AWorking?
    ensures SysInv(l, SetApplier(s, w, s.Applier(w).(checked := true)))
  {
    assert ApplierOk(|s.status|, s.handled, s.dropped, s.Applier(w));
    ApplierMoves(l, s, w, s.Applier(w).(checked := true));
  }

  lemma ApplyLookupStep(l: Limits, s: State, w: WorkerId)
    requires SysInv(l, s) && s.Applier(w).AWorking? && s.Applier(w).todo != []
    ensures SysInv(l, DoApplyLookup(l, s, w))
  {
    hide SysInv;
    if Deliveries(s.sg, s.Applier(w).todo[0]) > l.statusPoison { DropStep(l, s, w); } else { CheckStep(l, s, w); }
  }

  lemma ApplyAckStep(l: Limits, s: State, w: WorkerId, reply: Reply)
    requires SysInv(l, s) && s.Applier(w).AAcking? && s.Applier(w).todo != []
    ensures var pc := s.Applier(w);
      SysInv(l, SetApplier(s.(sg := if reply.Applied() then s.sg.Ack(pc.todo[0]) else s.sg), w,
        Next(pc.todo, pc.claimed)))
  {
    var pc := s.Applier(w);
    assert ApplierOk(|s.status|, s.handled, s.dropped, pc);
    NextOk(l, s, pc);
    AckStatus(l, s, pc.todo[0]);
    hide SysInv; hide ApplierOk; hide Next;
    ApplierMoves(l, s, w, Next(pc.todo, pc.claimed));
    ApplierMoves(l, s.(sg := s.sg.Ack(pc.todo[0])), w, Next(pc.todo, pc.claimed));
  }

  lemma ApplierStep(l: Limits, s: State, w: WorkerId, a: ApplierAction)
    requires l.Valid() && SysInv(l, s) && ApplierEnabled(l, s, s.Applier(w), a)
    ensures SysInv(l, DoApplier(l, s, w, a))
  {
    var pc := s.Applier(w);
    assert ApplierOk(|s.status|, s.handled, s.dropped, pc);
    hide SysInv; hide Evolves; hide ApplierOk; hide DoApplyRead; hide DoApplyClaim; hide DoApplyHandle;
    hide DoApplyLookup; hide Next;
    match a {
      case ARead(count, now, reply) => ApplyReadStep(l, s, w, count, now, reply);
      case AClaim(es, now, reply) => ApplyClaimStep(l, s, w, es, now, reply);
      case AHandle(e, now, reply) => ApplyHandleStep(l, s, w, e, now, reply);
      case ALookup(_) => ApplyLookupStep(l, s, w);
      case ALeave(_) => NextOk(l, s, pc); ApplierMoves(l, s, w, Next(pc.todo, pc.claimed));
      case AAck(_, reply) => ApplyAckStep(l, s, w, reply);
      case ACrash => ApplierDies(l, s, w);
    }
  }

  lemma ApplierDies(l: Limits, s: State, w: WorkerId)
    requires SysInv(l, s)
    ensures SysInv(l, SetApplier(s, w, ADead))
  {
    ApplierMoves(l, s, w, ADead);
  }

  lemma AckStatus(l: Limits, s: State, t: nat)
    requires SysInv(l, s) && t in s.handled + s.dropped
    ensures SysInv(l, s.(sg := s.sg.Ack(t)))
  {
    forall x | s.sg.Ack(t).Acked(x) ensures x in s.handled + s.dropped {
      if x != t { assert s.sg.Acked(x); }
    }
  }

  lemma GroupStep(l: Limits, s: State, a: GroupAction)
    requires SysInv(l, s)
    ensures GroupEnabled(s.ig, a) ==> SysInv(l, s.(ig := DoGroup(s.ig, a)))
    ensures GroupEnabled(s.sg, a) ==> SysInv(l, s.(sg := DoGroup(s.sg, a)))
  {
    hide SysInv; hide GroupEnabled; hide DoGroup;
    if GroupEnabled(s.ig, a) { IngestGroupStep(l, s, a); }
    if GroupEnabled(s.sg, a) { StatusGroupStep(l, s, a); }
  }

  lemma IngestGroupStep(l: Limits, s: State, a: GroupAction)
    requires SysInv(l, s) && GroupEnabled(s.ig, a)
    ensures SysInv(l, s.(ig := DoGroup(s.ig, a)))
  {
    var ig := DoGroup(s.ig, a);
    assert a.Cleanup? ==> ig == s.ig;
    assert AckedIsReported(ig, |s.ingest|, s.reported);
    hide SysInv; hide AckedIsReported; hide DoGroup;
    IngestGroupChanges(l, s, ig);
  }

  lemma StatusGroupStep(l: Limits, s: State, a: GroupAction)
    requires SysInv(l, s) && GroupEnabled(s.sg, a)
    ensures SysInv(l, s.(sg := DoGroup(s.sg, a)))
  {
    var sg := DoGroup(s.sg, a);
    assert a.Cleanup? ==> sg == s.sg;
    assert AckedIsHandled(sg, |s.status|, s.handled, s.dropped);
    hide SysInv; hide AckedIsHandled; hide DoGroup;
    StatusGroupChanges(l, s, sg);
  }

  /** Whatever an action does to the tables is one statement, so rows only move forward. */
  lemma StepEvolves(l: Limits, s: State, a: Action)
    requires l.Valid() && Inv(l, s.db)
    ensures Evolves(s.db, Step(l, s, a).db)
  {
    hide Step; hide Inv; hide Evolves; hide Exec; hide Projection.StatementOf;
    Projection.StepDb(l, s, a);
    NothingEvolves(s.db);
    match Projection.StatementOf(l, s, a) {
      case None =>
      case Some(stmt) => ExecKeepsInv(l, s.db, stmt);
    }
  }

  lemma DbInv(l: Limits, s: State)
    requires SysInv(l, s)
    ensures Inv(l, s.db)
  {
  }

  /** Every action of every actor keeps the invariant. */
  lemma StepKeeps(l: Limits, s: State, a: Action)
    requires l.Valid() && SysInv(l, s)
    ensures SysInv(l, Step(l, s, a)) && Evolves(s.db, Step(l, s, a).db)
  {
    hide SysInv; hide Evolves; hide Sql;
    hide DoHash; hide DoRelay; hide DoConsumer; hide DoApplier; hide DoGroup;
    hide HashEnabled; hide RelayEnabled; hide ConsumerEnabled; hide ApplierEnabled; hide GroupEnabled;
    DbInv(l, s);
    StepEvolves(l, s, a);
    if Enabled(l, s, a) {
      match a {
        case Center(stmt, reply) => SqlKeeps(l, s, stmt, reply);
        case HashBy(w, h) => HashStep(l, s, w, h);
        case RelayBy(w, r) => RelayStep(l, s, w, r);
        case ConsumeBy(w, c) => ConsumerStep(l, s, w, c);
        case ApplyBy(w, p) => ApplierStep(l, s, w, p);
        case IngestGroup(g) => GroupStep(l, s, g);
        case StatusGroup(g) => GroupStep(l, s, g);
      }
    }
  }

  lemma {:induction false} RunKeeps(l: Limits, s: State, actions: seq<Action>)
    requires l.Valid() && SysInv(l, s)
    ensures SysInv(l, RunAll(l, s, actions)) && Evolves(s.db, RunAll(l, s, actions).db)
    decreases |actions|
  {
    if actions != [] {
      var next := Step(l, s, actions[0]);
      StepKeeps(l, s, actions[0]);
      RunKeeps(l, next, actions[1..]);
      EvolvesTransitive(s.db, next.db, RunAll(l, next, actions[1..]).db);
    }
  }

  lemma InitialInv(l: Limits)
    ensures SysInv(l, Initial())
  {
  }
}
