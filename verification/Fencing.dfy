/** Claims as fences, and what they bound: a worker whose claim was recovered changes no row, and
    publish calls per document are bounded by max_retries times max_attempts. */
module Fencing {
  import opened Domain
  import opened Tables
  import opened TableInvariants
  import opened Streams
  import opened System
  import opened Counting
  import Work

  // ---- hash workers

  predicate HashPcOk(intents: map<IntentId, Intent>, claims: map<nat, nat>, w: WorkerId, pc: HashPc) {
    (pc.HWorking? || pc.HReleasing?) ==>
      (pc.id in intents && intents[pc.id].status == Hashing && intents[pc.id].claimedBy == Some(w) ==>
        pc.claim == Count(claims, pc.id))
  }

  ghost predicate HashInv(intents: map<IntentId, Intent>, claims: map<nat, nat>, hashers: map<WorkerId, HashPc>) {
    forall w :: w in hashers ==> HashPcOk(intents, claims, w, hashers[w])
  }

  // ---- relays

  predicate Busy(pc: RelayPc) { !pc.RIdle? && !pc.RDead? }

  predicate RelayPcOk(outbox: map<nat, OutboxRow>, claims: map<nat, nat>, w: WorkerId, pc: RelayPc) {
    Busy(pc) ==>
      && pc.row in outbox
      && 1 <= pc.claim <= Count(claims, pc.row)
      && (outbox[pc.row].status == Claimed && outbox[pc.row].claimedBy == Some(w) ==> pc.claim == Count(claims, pc.row))
  }

  ghost predicate RelayPcsOk(outbox: map<nat, OutboxRow>, claims: map<nat, nat>, relays: map<WorkerId, RelayPc>) {
    forall w :: w in relays ==> RelayPcOk(outbox, claims, w, relays[w])
  }

  /** The claim a relay may still publish under. */
  function Licence(pc: RelayPc): Option<Send> {
    match pc
    case RClaimed(row, k) => Some(Send(row, k))
    case RRead(row, k, _) => Some(Send(row, k))
    case _ => None
  }

  ghost predicate LicencesDistinct(relays: map<WorkerId, RelayPc>) {
    forall v, w | v in relays && w in relays && v != w :: Licence(relays[v]).Some? ==>
      Licence(relays[v]) != Licence(relays[w])
  }

  ghost predicate LicencesUnused(relays: map<WorkerId, RelayPc>, sends: seq<Send>) {
    forall w, i | w in relays && 0 <= i < |sends| :: Licence(relays[w]) != Some(sends[i])
  }

  ghost predicate SendsOk(outbox: map<nat, OutboxRow>, claims: map<nat, nat>, sends: seq<Send>) {
    forall i :: 0 <= i < |sends| ==> sends[i].row in outbox && 1 <= sends[i].claim <= Count(claims, sends[i].row)
  }

  ghost predicate ClaimsFit(l: Limits, db: Db, claims: map<nat, nat>) {
    forall id: nat :: Count(claims, id) + Work.RowClaimsLeft(l, db, id) <= l.outboxRetries
  }

  ghost predicate SendInv(relays: map<WorkerId, RelayPc>, sends: seq<Send>) {
    LicencesDistinct(relays) && LicencesUnused(relays, sends) && NoDuplicates(sends)
  }

  ghost predicate FenceInv(l: Limits, s: State) {
    && Inv(l, s.db)
    && HashInv(s.db.intents, s.intentClaims, s.hashers)
    && RelayPcsOk(s.db.outbox, s.rowClaims, s.relays)
    && SendsOk(s.db.outbox, s.rowClaims, s.sends)
    && SendInv(s.relays, s.sends)
    && ClaimsFit(l, s.db, s.rowClaims)
  }

  // ---- statements that claim nothing

  lemma NoNewIntentOwner(l: Limits, db: Db, stmt: Stmt, id: IntentId, w: WorkerId)
    requires Inv(l, db) && !(stmt.SHashing? && stmt.id == id && stmt.w == w)
    requires OwnsIntent(Exec(l, db, stmt), id, w)
    ensures OwnsIntent(db, id, w)
  {
    if stmt.SApply? { assert Exec(l, db, stmt).intents == db.intents; }
  }

  lemma NoNewRowOwner(l: Limits, db: Db, stmt: Stmt, id: nat, w: WorkerId)
    requires Inv(l, db) && !(stmt.SClaim? && stmt.row == id && stmt.w == w)
    requires OwnsRow(Exec(l, db, stmt), id, w)
    ensures OwnsRow(db, id, w)
  {
  }

  lemma StatementKeepsFences(l: Limits, s: State, stmt: Stmt)
    requires l.Valid() && FenceInv(l, s) && !stmt.SHashing? && !stmt.SClaim?
    ensures FenceInv(l, WithDb(s, Exec(l, s.db, stmt)))
  {
    var db := Exec(l, s.db, stmt);
    ExecKeepsInv(l, s.db, stmt);
    forall w | w in s.hashers ensures HashPcOk(db.intents, s.intentClaims, w, s.hashers[w]) {
      HashFenceStays(l, s, stmt, w);
    }
    KeepsRelayFences(l, s, stmt);
    KeepsClaimsFit(l, s, stmt);
  }

  lemma HashFenceStays(l: Limits, s: State, stmt: Stmt, w: WorkerId)
    requires Inv(l, s.db) && HashInv(s.db.intents, s.intentClaims, s.hashers) && w in s.hashers
    requires stmt.SHashing? ==> s.hashers[w].HIdle? || stmt.w != w
    ensures HashPcOk(Exec(l, s.db, stmt).intents, s.intentClaims, w, s.hashers[w])
  {
    assert HashPcOk(s.db.intents, s.intentClaims, w, s.hashers[w]);
    var pc := s.hashers[w];
    if (pc.HWorking? || pc.HReleasing?) && OwnsIntent(Exec(l, s.db, stmt), pc.id, w) {
      NoNewIntentOwner(l, s.db, stmt, pc.id, w);
    }
    hide Exec;
  }

  lemma RelayFenceStays(l: Limits, s: State, stmt: Stmt, w: WorkerId)
    requires Inv(l, s.db) && Evolves(s.db, Exec(l, s.db, stmt)) && RelayPcsOk(s.db.outbox, s.rowClaims, s.relays)
      && w in s.relays
    requires stmt.SClaim? ==> s.relays[w].RIdle? || stmt.w != w
    ensures RelayPcOk(Exec(l, s.db, stmt).outbox, s.rowClaims, w, s.relays[w])
  {
    assert RelayPcOk(s.db.outbox, s.rowClaims, w, s.relays[w]);
    var pc := s.relays[w];
    if Busy(pc) && OwnsRow(Exec(l, s.db, stmt), pc.row, w) {
      NoNewRowOwner(l, s.db, stmt, pc.row, w);
    }
    hide Exec;
  }

  lemma KeepsRelayFences(l: Limits, s: State, stmt: Stmt)
    requires l.Valid() && Inv(l, s.db) && RelayPcsOk(s.db.outbox, s.rowClaims, s.relays)
      && SendsOk(s.db.outbox, s.rowClaims, s.sends)
    requires !stmt.SClaim?
    ensures RelayPcsOk(Exec(l, s.db, stmt).outbox, s.rowClaims, s.relays)
      && SendsOk(Exec(l, s.db, stmt).outbox, s.rowClaims, s.sends)
  {
    ExecKeepsInv(l, s.db, stmt);
    forall w | w in s.relays ensures RelayPcOk(Exec(l, s.db, stmt).outbox, s.rowClaims, w, s.relays[w]) {
      RelayFenceStays(l, s, stmt, w);
    }
    hide Exec;
  }

  lemma KeepsClaimsFit(l: Limits, s: State, stmt: Stmt)
    requires l.Valid() && Inv(l, s.db) && ClaimsFit(l, s.db, s.rowClaims)
    ensures ClaimsFit(l, Exec(l, s.db, stmt), s.rowClaims)
  {
    forall id: nat ensures Count(s.rowClaims, id) + Work.RowClaimsLeft(l, Exec(l, s.db, stmt), id) <= l.outboxRetries {
      Work.RowClaimStep(l, s.db, stmt, id);
    }
  }

  lemma SqlKeepsFences(l: Limits, s: State, stmt: Stmt, reply: Reply)
    requires l.Valid() && FenceInv(l, s) && !stmt.SHashing? && !stmt.SClaim?
    ensures FenceInv(l, Sql(l, s, stmt, reply))
  {
    if reply.Applied() { StatementKeepsFences(l, s, stmt); } else { assert WithDb(s, s.db) == s; }
  }

  // ---- hash workers

  lemma HashMoves(l: Limits, s: State, w: WorkerId, pc: HashPc)
    requires FenceInv(l, s) && HashPcOk(s.db.intents, s.intentClaims, w, pc)
    ensures FenceInv(l, SetHasher(s, w, pc))
  {
  }

  /** A won claim: no other worker owns the intent, and the count now names this claim. */
  lemma HashClaimed(l: Limits, s: State, w: WorkerId, id: IntentId, now: Time)
    requires l.Valid() && FenceInv(l, s) && s.Hasher(w).HIdle?
    ensures var won := ToHashing(s.db, id, w, now).1;
      var db := Exec(l, s.db, SHashing(id, w, now));
      HashInv(db.intents, if won then s.intentClaims[id := Count(s.intentClaims, id) + 1] else s.intentClaims,
        s.hashers)
  {
    var won := ToHashing(s.db, id, w, now).1;
    var db := Exec(l, s.db, SHashing(id, w, now));
    var claims := if won then s.intentClaims[id := Count(s.intentClaims, id) + 1] else s.intentClaims;
    forall v | v in s.hashers ensures HashPcOk(db.intents, claims, v, s.hashers[v]) {
      HashFenceStays(l, s, SHashing(id, w, now), v);
    }
  }

  /** The claim's effect on the tables and the counts. */
  lemma HashClaimCounts(l: Limits, s: State, w: WorkerId, id: IntentId, now: Time)
    requires l.Valid() && FenceInv(l, s) && s.Hasher(w).HIdle?
    ensures var won, n := ToHashing(s.db, id, w, now).1, Count(s.intentClaims, id) + 1;
      var t := Sql(l, s, SHashing(id, w, now), Done)
        .(intentClaims := if won then s.intentClaims[id := n] else s.intentClaims);
      FenceInv(l, t) && t.hashers == s.hashers && (won ==> HashPcOk(t.db.intents, t.intentClaims, w, HWorking(id, n)))
  {
    HashClaimed(l, s, w, id, now);
    ExecKeepsInv(l, s.db, SHashing(id, w, now));
    KeepsRelayFences(l, s, SHashing(id, w, now));
    KeepsClaimsFit(l, s, SHashing(id, w, now));
    hide Exec; hide ToHashing; hide HashInv; hide RelayPcsOk; hide SendsOk; hide ClaimsFit; hide SendInv; hide Inv;
    hide BornAfter; hide LatestAfter;
  }

  lemma HashTakes(l: Limits, t: State, w: WorkerId, id: IntentId, n: nat, takes: bool)
    requires FenceInv(l, t) && (takes ==> HashPcOk(t.db.intents, t.intentClaims, w, HWorking(id, n)))
    ensures FenceInv(l, t.(hashers := if takes then t.hashers[w := HWorking(id, n)] else t.hashers))
  {
    if takes { HashMoves(l, t, w, HWorking(id, n)); }
    hide FenceInv;
    assert t.(hashers := t.hashers) == t;
  }

  lemma HashClaimStep(l: Limits, s: State, w: WorkerId, id: IntentId, now: Time, reply: Reply)
    requires l.Valid() && FenceInv(l, s) && s.Hasher(w).HIdle?
    ensures FenceInv(l, DoHashClaim(l, s, w, id, now, reply))
  {
    hide FenceInv; hide ToHashing; hide HashPcOk; hide WithDb;
    if reply.Applied() {
      HashClaimCounts(l, s, w, id, now);
      var won, n := ToHashing(s.db, id, w, now).1, Count(s.intentClaims, id) + 1;
      var t := Sql(l, s, SHashing(id, w, now), Done)
        .(intentClaims := if won then s.intentClaims[id := n] else s.intentClaims);
      assert Sql(l, s, SHashing(id, w, now), Done) == Sql(l, s, SHashing(id, w, now), reply);
      hide Sql;
      HashTakes(l, t, w, id, n, won && reply.Done?);
    } else {
      NoEffect(s);
    }
  }

  lemma NoEffect(s: State)
    ensures WithDb(s, s.db) == s
  {
  }

  lemma HashRests(l: Limits, s: State, w: WorkerId)
    requires FenceInv(l, s)
    ensures FenceInv(l, SetHasher(s, w, HIdle)) && FenceInv(l, SetHasher(s, w, HDead))
  {
    HashMoves(l, s, w, HIdle);
    HashMoves(l, s, w, HDead);
  }

  lemma HashStartStep(l: Limits, s: State, w: WorkerId, h: Hash, file: FileInfo, now: Time, reply: Reply)
    requires l.Valid() && FenceInv(l, s) && s.Hasher(w).HWorking?
    ensures FenceInv(l, DoHashStart(l, s, w, h, file, now, reply))
  {
    var pc := s.Hasher(w);
    var stmt := SStart(h, file, pc.id, w, now);
    SqlKeepsFences(l, s, stmt, reply);
    var t := Sql(l, s, stmt, reply);
    assert t.hashers == s.hashers && t.intentClaims == s.intentClaims;
    assert HashPcOk(t.db.intents, t.intentClaims, w, pc);
    hide FenceInv; hide Sql;
    HashMoves(l, t, w, if reply.Done? then HIdle else HReleasing(pc.id, pc.claim));
  }

  lemma HashStep(l: Limits, s: State, w: WorkerId, a: HashAction)
    requires l.Valid() && FenceInv(l, s) && HashEnabled(s.Hasher(w), a)
    ensures FenceInv(l, DoHash(l, s, w, a))
  {
    hide FenceInv; hide Sql; hide DoHashClaim; hide DoHashStart;
    match a {
      case HClaim(id, now, reply) => HashClaimStep(l, s, w, id, now, reply);
      case HStart(h, file, now, reply) => HashStartStep(l, s, w, h, file, now, reply);
      case HFail(reply) =>
        SqlKeepsFences(l, s, SIntentFailed(s.Hasher(w).id, w), reply);
        HashRests(l, Sql(l, s, SIntentFailed(s.Hasher(w).id, w), reply), w);
      case HRelease(reply) =>
        SqlKeepsFences(l, s, SIntentRelease(s.Hasher(w).id, w), reply);
        HashRests(l, Sql(l, s, SIntentRelease(s.Hasher(w).id, w), reply), w);
      case HCrash => HashRests(l, s, w);
    }
  }

  // ---- relays

  /** A relay that keeps or gives up its licence. */
  lemma RelayMoves(l: Limits, s: State, w: WorkerId, pc: RelayPc)
    requires FenceInv(l, s) && RelayPcOk(s.db.outbox, s.rowClaims, w, pc)
    requires Licence(pc).None? || (w in s.relays && Licence(s.relays[w]) == Licence(pc))
    ensures FenceInv(l, SetRelay(s, w, pc))
  {
  }

  lemma RelayRests(l: Limits, s: State, w: WorkerId)
    requires FenceInv(l, s)
    ensures FenceInv(l, SetRelay(s, w, RIdle)) && FenceInv(l, SetRelay(s, w, RDead))
  {
    RelayMoves(l, s, w, RIdle);
    RelayMoves(l, s, w, RDead);
  }

  /** A won claim: no other relay owns the row, and the count now names this claim. */
  lemma RelayClaimedPcs(l: Limits, s: State, w: WorkerId, row: nat, now: Time)
    requires l.Valid() && FenceInv(l, s) && s.Relay(w).RIdle? && ClaimOutboxMessage(s.db, row, w, now).1
    ensures var n := Count(s.rowClaims, row) + 1;
      var outbox, claims := Exec(l, s.db, SClaim(row, w, now)).outbox, s.rowClaims[row := n];
      RelayPcsOk(outbox, claims, s.relays) && RelayPcOk(outbox, claims, w, RClaimed(row, n))
  {
    var db := Exec(l, s.db, SClaim(row, w, now));
    var claims := s.rowClaims[row := Count(s.rowClaims, row) + 1];
    ExecKeepsInv(l, s.db, SClaim(row, w, now));
    forall v | v in s.relays ensures RelayPcOk(db.outbox, claims, v, s.relays[v]) {
      RelayFenceStays(l, s, SClaim(row, w, now), v);
    }
  }

  lemma RelayClaimedCounts(l: Limits, s: State, w: WorkerId, row: nat, now: Time)
    requires l.Valid() && FenceInv(l, s) && ClaimOutboxMessage(s.db, row, w, now).1
    ensures var db, claims := Exec(l, s.db, SClaim(row, w, now)), s.rowClaims[row := Count(s.rowClaims, row) + 1];
      SendsOk(db.outbox, claims, s.sends) && ClaimsFit(l, db, claims)
  {
    var db, claims := Exec(l, s.db, SClaim(row, w, now)), s.rowClaims[row := Count(s.rowClaims, row) + 1];
    forall id: nat ensures Count(claims, id) + Work.RowClaimsLeft(l, db, id) <= l.outboxRetries {
      Work.RowClaimStep(l, s.db, SClaim(row, w, now), id);
    }
  }

  lemma ClaimLeavesIntents(l: Limits, db: Db, row: nat, w: WorkerId, now: Time)
    ensures Exec(l, db, SClaim(row, w, now)).intents == db.intents
  {
  }

  lemma RelayClaimed(l: Limits, s: State, w: WorkerId, row: nat, now: Time, reply: Reply)
    requires l.Valid() && FenceInv(l, s) && s.Relay(w).RIdle? && ClaimOutboxMessage(s.db, row, w, now).1
      && reply.Applied()
    ensures var n := Count(s.rowClaims, row) + 1;
      var t := Sql(l, s, SClaim(row, w, now), reply).(rowClaims := s.rowClaims[row := n]);
      FenceInv(l, t) && RelayPcOk(t.db.outbox, t.rowClaims, w, RClaimed(row, n)) && t.relays == s.relays
        && t.sends == s.sends
  {
    var db := Exec(l, s.db, SClaim(row, w, now));
    ExecKeepsInv(l, s.db, SClaim(row, w, now));
    RelayClaimedPcs(l, s, w, row, now);
    RelayClaimedCounts(l, s, w, row, now);
    ClaimLeavesIntents(l, s.db, row, w, now);
    hide ClaimOutboxMessage; hide Exec; hide Inv; hide RelayPcsOk; hide RelayPcOk; hide SendsOk; hide SendInv;
    hide ClaimsFit; hide HashInv; hide BornAfter; hide LatestAfter;
  }

  /** Nobody may publish, or has published, under this claim. */
  ghost predicate Fresh(relays: map<WorkerId, RelayPc>, sends: seq<Send>, send: Send) {
    && (forall v :: v in relays && Licence(relays[v]).Some? ==> Licence(relays[v]) != Some(send))
    && (forall i :: 0 <= i < |sends| ==> sends[i] != send)
  }

  lemma LicenceIsFresh(l: Limits, s: State, w: WorkerId, row: nat, n: nat)
    requires FenceInv(l, s) && RelayPcOk(s.db.outbox, s.rowClaims, w, RClaimed(row, n))
    requires Fresh(s.relays, s.sends, Send(row, n))
    ensures FenceInv(l, SetRelay(s, w, RClaimed(row, n)))
  {
  }

  lemma NobodyHolds(l: Limits, s: State, row: nat, n: nat)
    requires FenceInv(l, s) && n > Count(s.rowClaims, row)
    ensures Fresh(s.relays, s.sends, Send(row, n))
  {
    forall v | v in s.relays && Licence(s.relays[v]).Some? ensures Licence(s.relays[v]) != Some(Send(row, n)) {
      assert RelayPcOk(s.db.outbox, s.rowClaims, v, s.relays[v]);
    }
  }

  lemma ClaimLost(l: Limits, s: State, w: WorkerId, row: nat, now: Time, reply: Reply)
    requires !(reply.Applied() && ClaimOutboxMessage(s.db, row, w, now).1)
    ensures Sql(l, s, SClaim(row, w, now), reply) == s
  {
    assert reply.Applied() ==> Exec(l, s.db, SClaim(row, w, now)) == s.db;
    hide Exec;
  }

  lemma RelayTakes(l: Limits, t: State, w: WorkerId, row: nat, n: nat, takes: bool)
    requires FenceInv(l, t) && RelayPcOk(t.db.outbox, t.rowClaims, w, RClaimed(row, n))
      && Fresh(t.relays, t.sends, Send(row, n))
    ensures FenceInv(l, t.(relays := if takes then t.relays[w := RClaimed(row, n)] else t.relays))
  {
    if takes { LicenceIsFresh(l, t, w, row, n); }
    hide FenceInv;
    assert t.(relays := t.relays) == t;
  }

  /** A won claim counts, and takes the worker forward when its reply arrived. */
  lemma WonShape(l: Limits, s: State, w: WorkerId, row: nat, now: Time, reply: Reply)
    requires reply.Applied() && ClaimOutboxMessage(s.db, row, w, now).1
    ensures var n, t := Count(s.rowClaims, row) + 1, Sql(l, s, SClaim(row, w, now), reply);
      DoRelayClaim(l, s, w, row, now, reply) == t.(rowClaims := s.rowClaims[row := n],
        relays := if reply.Done? then s.relays[w := RClaimed(row, n)] else s.relays)
  {
    hide Sql; hide ClaimOutboxMessage;
  }

  lemma RelayWins(l: Limits, s: State, w: WorkerId, row: nat, now: Time, reply: Reply)
    requires l.Valid() && FenceInv(l, s) && s.Relay(w).RIdle?
    requires reply.Applied() && ClaimOutboxMessage(s.db, row, w, now).1
    ensures FenceInv(l, DoRelayClaim(l, s, w, row, now, reply))
  {
    var n := Count(s.rowClaims, row) + 1;
    NobodyHolds(l, s, row, n);
    hide Fresh; hide FenceInv; hide Sql; hide ClaimOutboxMessage; hide RelayPcOk; hide DoRelayClaim; hide Count;
    WonShape(l, s, w, row, now, reply);
    RelayClaimed(l, s, w, row, now, reply);
    RelayTakes(l, Sql(l, s, SClaim(row, w, now), reply).(rowClaims := s.rowClaims[row := n]), w, row, n, reply.Done?);
  }

  lemma RelayClaimStep(l: Limits, s: State, w: WorkerId, row: nat, now: Time, reply: Reply)
    requires l.Valid() && FenceInv(l, s) && s.Relay(w).RIdle?
    ensures FenceInv(l, DoRelayClaim(l, s, w, row, now, reply))
  {
    if reply.Applied() && ClaimOutboxMessage(s.db, row, w, now).1 {
      hide DoRelayClaim; hide FenceInv;
      RelayWins(l, s, w, row, now, reply);
    } else {
      hide FenceInv; hide ClaimOutboxMessage; hide WithDb; hide Sql;
      ClaimLost(l, s, w, row, now, reply);
    }
  }

  lemma PublishStep(l: Limits, s: State, w: WorkerId, reply: Reply)
    requires FenceInv(l, s) && s.Relay(w).RRead?
    ensures FenceInv(l, DoRelayPublish(s, w, reply))
  {
    var pc := s.Relay(w);
    var send := Send(pc.row, pc.claim);
    assert RelayPcOk(s.db.outbox, s.rowClaims, w, pc);
    var next := if reply.Done? then RSent(pc.row, pc.claim) else RReleasing(pc.row, pc.claim);
    var relays', sends' := s.relays[w := next], s.sends + [send];
    LicenceSpent(s.relays, s.sends, w, next, send);
    forall i | 0 <= i < |sends'|
      ensures sends'[i].row in s.db.outbox && 1 <= sends'[i].claim <= Count(s.rowClaims, sends'[i].row) {
    }
    forall v | v in relays' ensures RelayPcOk(s.db.outbox, s.rowClaims, v, relays'[v]) {
      if v != w { assert RelayPcOk(s.db.outbox, s.rowClaims, v, s.relays[v]); }
    }
    hide SendInv;
  }

  lemma LicenceSpent(relays: map<WorkerId, RelayPc>, sends: seq<Send>, w: WorkerId, next: RelayPc, send: Send)
    requires SendInv(relays, sends) && w in relays && Licence(relays[w]) == Some(send) && Licence(next).None?
    ensures SendInv(relays[w := next], sends + [send])
  {
    var relays', sends' := relays[w := next], sends + [send];
    forall v, i | v in relays' && 0 <= i < |sends'| ensures Licence(relays'[v]) != Some(sends'[i]) {
      if v != w && i == |sends| && Licence(relays[v]).Some? { assert Licence(relays[v]) != Licence(relays[w]); }
    }
    forall i, j | 0 <= i < j < |sends'| ensures sends'[i] != sends'[j] {
      if j == |sends| { assert Licence(relays[w]) != Some(sends[i]); }
    }
  }

  lemma ReadStep(l: Limits, s: State, w: WorkerId, ok: bool)
    requires FenceInv(l, s) && s.Relay(w).RClaimed?
    ensures FenceInv(l, SetRelay(s, w, AfterRead(s.db, s.Relay(w).row, s.Relay(w).claim, ok)))
  {
    var next := AfterRead(s.db, s.Relay(w).row, s.Relay(w).claim, ok);
    assert RelayPcOk(s.db.outbox, s.rowClaims, w, s.Relay(w));
    assert RelayPcOk(s.db.outbox, s.rowClaims, w, next);
    hide FenceInv; hide RelayPcOk;
    RelayMoves(l, s, w, next);
  }

  lemma RelayStep(l: Limits, s: State, w: WorkerId, a: RelayAction)
    requires l.Valid() && FenceInv(l, s) && RelayEnabled(s.Relay(w), a)
    ensures FenceInv(l, DoRelay(l, s, w, a))
  {
    hide FenceInv; hide Sql; hide DoRelayClaim; hide DoRelayPublish; hide AfterRead;
    match a {
      case RClaim(row, now, reply) => RelayClaimStep(l, s, w, row, now, reply);
      case RReadDocument(ok) => ReadStep(l, s, w, ok);
      case RPublish(reply) => PublishStep(l, s, w, reply);
      case RMark(reply) =>
        SqlKeepsFences(l, s, SPublished(s.Relay(w).row, w), reply);
        RelayRests(l, Sql(l, s, SPublished(s.Relay(w).row, w), reply), w);
      case RRelease(reply) =>
        SqlKeepsFences(l, s, SRelease(s.Relay(w).row, w), reply);
        RelayRests(l, Sql(l, s, SRelease(s.Relay(w).row, w), reply), w);
      case RBlock(reply) =>
        SqlKeepsFences(l, s, SBlocked(s.Relay(w).row, w), reply);
        RelayRests(l, Sql(l, s, SBlocked(s.Relay(w).row, w), reply), w);
      case RCrash => RelayRests(l, s, w);
    }
  }

  // ---- everyone else

  /** Consumers and groups touch neither tables nor claims; appliers only through statements. */
  lemma ConsumerLeaves(l: Limits, s: State, w: WorkerId, a: ConsumerAction)
    requires FenceInv(l, s) && ConsumerEnabled(l, s, s.Consumer(w), a)
    ensures FenceInv(l, DoConsumer(l, s, w, a))
  {
    hide Inv; hide HashInv; hide RelayPcsOk; hide SendsOk; hide SendInv; hide ClaimsFit; hide AfterLookup;
  }

  lemma ApplierStep(l: Limits, s: State, w: WorkerId, a: ApplierAction)
    requires l.Valid() && FenceInv(l, s) && ApplierEnabled(l, s, s.Applier(w), a)
    ensures FenceInv(l, DoApplier(l, s, w, a))
  {
    hide Inv; hide HashInv; hide RelayPcsOk; hide SendsOk; hide SendInv; hide ClaimsFit; hide Next; hide Sql;
    match a {
      case AHandle(_, now, reply) => SqlKeepsFences(l, s, SApply(s.status[s.Applier(w).todo[0]].event, now), reply);
      case _ =>
    }
  }

  lemma GroupsLeave(l: Limits, s: State, ig: Group, sg: Group)
    requires FenceInv(l, s)
    ensures FenceInv(l, s.(ig := ig)) && FenceInv(l, s.(sg := sg))
  {
  }

  lemma StepKeeps(l: Limits, s: State, a: Action)
    requires l.Valid() && FenceInv(l, s)
    ensures FenceInv(l, Step(l, s, a))
  {
    hide FenceInv; hide DoHash; hide DoRelay; hide DoConsumer; hide DoApplier; hide DoGroup; hide Sql;
    hide HashEnabled; hide RelayEnabled; hide ConsumerEnabled; hide ApplierEnabled; hide GroupEnabled;
    if Enabled(l, s, a) {
      match a {
        case Center(stmt, reply) => SqlKeepsFences(l, s, stmt, reply);
        case HashBy(w, h) => HashStep(l, s, w, h);
        case RelayBy(w, r) => RelayStep(l, s, w, r);
        case ConsumeBy(w, c) => ConsumerLeaves(l, s, w, c);
        case ApplyBy(w, p) => ApplierStep(l, s, w, p);
        case IngestGroup(g) => GroupsLeave(l, s, DoGroup(s.ig, g), s.sg);
        case StatusGroup(g) => GroupsLeave(l, s, s.ig, DoGroup(s.sg, g));
      }
    }
  }

  lemma {:induction false} RunKeeps(l: Limits, s: State, actions: seq<Action>)
    requires l.Valid() && FenceInv(l, s)
    ensures FenceInv(l, RunAll(l, s, actions))
    decreases |actions|
  {
    hide FenceInv; hide Step;
    if actions != [] {
      StepKeeps(l, s, actions[0]);
      RunKeeps(l, Step(l, s, actions[0]), actions[1..]);
    }
  }

  lemma InitialFences(l: Limits)
    ensures FenceInv(l, Initial())
  {
  }

  // ---- the results

  /** A hash worker whose claim is over (recovered, and possibly re-claimed by others) changes
      nothing with any of its fenced writes; a refused StartIngestion writes no document, no
      outbox row and no intent. */
  lemma LostHashClaimWritesNothing(l: Limits, actions: seq<Action>, w: WorkerId, h: Hash, file: FileInfo, now: Time)
    requires l.Valid()
    requires var s := RunAll(l, Initial(), actions); var pc := s.Hasher(w);
      (pc.HWorking? || pc.HReleasing?)
      && (pc.claim != Count(s.intentClaims, pc.id) || pc.id !in s.db.intents || s.db.intents[pc.id].status != Hashing)
    ensures var s := RunAll(l, Initial(), actions); var id := s.Hasher(w).id;
      && StartIngestion(s.db, h, file, id, w, now) == (s.db, false)
      && ReleaseIntentClaim(l, s.db, id, w) == (s.db, false)
      && MarkIntentFailed(s.db, id, w) == (s.db, false)
  {
    var s := RunAll(l, Initial(), actions);
    InitialFences(l);
    RunKeeps(l, Initial(), actions);
    assert HashPcOk(s.db.intents, s.intentClaims, w, s.Hasher(w));
  }

  /** The same for a relay: after its claim was recovered it can neither mark, block nor release. */
  lemma LostRowClaimWritesNothing(l: Limits, actions: seq<Action>, w: WorkerId)
    requires l.Valid()
    requires var s := RunAll(l, Initial(), actions); var pc := s.Relay(w);
      Busy(pc)
      && (pc.claim != Count(s.rowClaims, pc.row) || pc.row !in s.db.outbox || s.db.outbox[pc.row].status != Claimed)
    ensures var s := RunAll(l, Initial(), actions); var row := s.Relay(w).row;
      && MarkPublished(s.db, row, w) == (s.db, false)
      && ReleaseClaim(l, s.db, row, w) == (s.db, false)
      && MarkBlocked(s.db, row, w) == (s.db, false)
  {
    var s := RunAll(l, Initial(), actions);
    InitialFences(l);
    RunKeeps(l, Initial(), actions);
    assert RelayPcOk(s.db.outbox, s.rowClaims, w, s.Relay(w));
  }

  /** The publish calls made for one document, as pairs of row and claim. */
  function PublishCalls(outbox: map<nat, OutboxRow>, sends: seq<Send>, h: Hash): seq<(nat, nat)>
    decreases |sends|
  {
    if sends == [] then []
    else
      var last := sends[|sends| - 1];
      PublishCalls(outbox, sends[..|sends| - 1], h)
        + (if last.row in outbox && outbox[last.row].hash == h then [(last.row, last.claim)] else [])
  }

  lemma {:induction false} CallsComeFromSends(outbox: map<nat, OutboxRow>, sends: seq<Send>, h: Hash, c: (nat, nat))
    ensures c in PublishCalls(outbox, sends, h) ==> Send(c.0, c.1) in sends && c.0 in outbox && outbox[c.0].hash == h
    decreases |sends|
  {
    if sends != [] {
      CallsComeFromSends(outbox, sends[..|sends| - 1], h, c);
      assert sends == sends[..|sends| - 1] + [sends[|sends| - 1]];
    }
  }

  lemma {:induction false} CallsDistinct(outbox: map<nat, OutboxRow>, sends: seq<Send>, h: Hash)
    requires NoDuplicates(sends)
    ensures NoDuplicates(PublishCalls(outbox, sends, h))
    decreases |sends|
  {
    if sends != [] {
      var rest, last := sends[..|sends| - 1], sends[|sends| - 1];
      CallsDistinct(outbox, rest, h);
      CallsComeFromSends(outbox, rest, h, (last.row, last.claim));
      assert last !in rest;
    }
  }

  lemma CallsBounded(l: Limits, s: State, h: Hash)
    requires FenceInv(l, s) && h in s.db.documents
    ensures |PublishCalls(s.db.outbox, s.sends, h)| <= |RowsOf(s.db.outbox, h)| * l.outboxRetries
  {
    var rows, calls := RowsOf(s.db.outbox, h), PublishCalls(s.db.outbox, s.sends, h);
    CallsDistinct(s.db.outbox, s.sends, h);
    forall i | 0 <= i < |calls| ensures calls[i] in Pairs(rows, l.outboxRetries) {
      CallsComeFromSends(s.db.outbox, s.sends, h, calls[i]);
      assert Count(s.rowClaims, calls[i].0) + Work.RowClaimsLeft(l, s.db, calls[i].0) <= l.outboxRetries;
      InPairs(rows, l.outboxRetries, calls[i].0, calls[i].1);
    }
    DistinctFit(calls, Pairs(rows, l.outboxRetries));
    PairsSize(rows, l.outboxRetries);
  }

  /** However relays crash, time out and lose claims, one document costs at most outbox max_retries
      times max_attempts publish calls over the whole run. */
  lemma PublishCallsBounded(l: Limits, actions: seq<Action>, h: Hash)
    requires l.Valid() && h in RunAll(l, Initial(), actions).db.documents
    ensures var s := RunAll(l, Initial(), actions);
      |PublishCalls(s.db.outbox, s.sends, h)| <= l.outboxRetries * l.maxAttempts
  {
    var s := RunAll(l, Initial(), actions);
    InitialFences(l);
    RunKeeps(l, Initial(), actions);
    assert DocumentOk(l, s.db.outbox, h, s.db.documents[h]);
    CallsBounded(l, s, h);
    hide FenceInv; hide PublishCalls; hide RowsOf;
    MoreRows(|RowsOf(s.db.outbox, h)|, l.maxAttempts, l.outboxRetries);
  }

  lemma MoreRows(a: nat, b: nat, m: nat)
    requires a <= b
    ensures a * m <= m * b
  {
  }
}
