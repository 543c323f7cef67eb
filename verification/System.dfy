/** The whole ingest protocol as one step system: the database, both streams with their consumer
    groups, and any number of hash workers, outbox relays, ingest consumers and status appliers.
    Every external call may fail before or after taking effect, every worker may die between any
    two calls, and each group may vanish at any time.

    A list of actions is a run; `Step` ignores an action that its actor is not ready for, so every
    list denotes some interleaving. */
module System {
  import opened Domain
  import opened Tables
  import opened Streams

  // ---- program counters

  datatype HashPc =
    | HIdle
    | HWorking(id: IntentId, claim: nat)
    | HReleasing(id: IntentId, claim: nat)
    | HDead

  datatype RelayPc =
    | RIdle
    | RClaimed(row: nat, claim: nat)
    | RRead(row: nat, claim: nat, event: IngestEvent)
    | RSent(row: nat, claim: nat)
    | RReleasing(row: nat, claim: nat)
    | RBlocking(row: nat, claim: nat)
    | RDead

  datatype ConsumerPc =
    | CIdle
    | CClaimed(entry: nat, lifetime: nat, delivery: nat)
    | CGot(entry: nat, lifetime: nat, delivery: nat)
    | CReporting(entry: nat, event: StatusEvent)
    | CHeld(entry: nat, event: StatusEvent)
    | CAcking(entry: nat)
    | CDead

  datatype ApplierPc =
    | AIdle
    | AWorking(todo: seq<nat>, claimed: bool, checked: bool)
    | AAcking(todo: seq<nat>, claimed: bool)
    | ADead

  // ---- what the run leaves behind

  /** An entry of the status stream and the ingest entry its publisher was working on. */
  datatype StatusEntry = StatusEntry(event: StatusEvent, origin: nat)

  /** One publish call of a relay: the row, and which claim of that row it was made under. */
  datatype Send = Send(row: nat, claim: nat)

  /** One execution of the job of an entry: under which delivery of which group lifetime. */
  datatype Run = Run(entry: nat, lifetime: nat, delivery: nat)

  /** born: the attempt an outbox row was queued for; latest: the newest row of a document;
      carried: an ingest entry a relay published for the row; reported: a status entry published
      for an ingest entry; handled and dropped: what happened to status entries. */
  datatype State = State(
    db: Db, ingest: seq<IngestEvent>, ig: Group, status: seq<StatusEntry>, sg: Group,
    hashers: map<WorkerId, HashPc>, relays: map<WorkerId, RelayPc>,
    consumers: map<WorkerId, ConsumerPc>, appliers: map<WorkerId, ApplierPc>,
    born: map<nat, nat>, latest: map<Hash, nat>, carried: map<nat, nat>, reported: map<nat, nat>,
    handled: set<nat>, dropped: set<nat>,
    intentClaims: map<IntentId, nat>, rowClaims: map<nat, nat>, sends: seq<Send>, runs: seq<Run>)
  {
    function Hasher(w: WorkerId): HashPc { if w in hashers then hashers[w] else HIdle }
    function Relay(w: WorkerId): RelayPc { if w in relays then relays[w] else RIdle }
    function Consumer(w: WorkerId): ConsumerPc { if w in consumers then consumers[w] else CIdle }
    function Applier(w: WorkerId): ApplierPc { if w in appliers then appliers[w] else AIdle }
  }

  function Initial(): State {
    State(Empty(), [], NoGroup(), [], NoGroup(), map[], map[], map[], map[],
          map[], map[], map[], map[], {}, {}, map[], map[], [], [])
  }

  function Count(m: map<nat, nat>, k: nat): nat { if k in m then m[k] else 0 }

  // ---- actions

  datatype HashAction =
    | HClaim(id: IntentId, now: Time, reply: Reply)
    | HStart(hash: Hash, file: FileInfo, now: Time, reply: Reply)
    | HFail(reply: Reply)
    | HRelease(reply: Reply)
    | HCrash

  datatype RelayAction =
    | RClaim(row: nat, now: Time, reply: Reply)
    | RReadDocument(ok: bool)
    | RPublish(reply: Reply)
    | RMark(reply: Reply)
    | RRelease(reply: Reply)
    | RBlock(reply: Reply)
    | RCrash

  datatype ConsumerAction =
    | CRead(now: Time, reply: Reply)
    | CClaim(entry: nat, now: Time, reply: Reply)
    | CLookup(ok: bool)
    | CRun(report: Report)
    | CPublish(reply: Reply)
    | CHold
    | CRenew(now: Time, reply: Reply)
    | CAck(reply: Reply)
    | CAbandon
    | CCrash

  datatype ApplierAction =
    | ARead(count: nat, now: Time, reply: Reply)
    | AClaim(entries: seq<nat>, now: Time, reply: Reply)
    | ALookup(entry: nat)
    | AHandle(entry: nat, now: Time, reply: Reply)
    | ALeave(entry: nat)
    | AAck(entry: nat, reply: Reply)
    | ACrash

  /** What happens to a group from outside its reads, claims and acks. */
  datatype GroupAction = Lost | Created | Cleanup(other: WorkerId)

  datatype Action =
    | Center(stmt: Stmt, reply: Reply)        // upload requests and the two sweepers
    | HashBy(w: WorkerId, hash: HashAction)
    | RelayBy(w: WorkerId, relay: RelayAction)
    | ConsumeBy(w: WorkerId, consume: ConsumerAction)
    | ApplyBy(w: WorkerId, apply: ApplierAction)
    | IngestGroup(group: GroupAction)
    | StatusGroup(group: GroupAction)

  // ---- database statements, with the rows they queue on record

  /** The row queued between two versions of the database, if any. */
  predicate Queued(db: Db, after: Db) {
    db.nextId !in db.outbox && db.nextId in after.outbox && after.outbox[db.nextId].hash in after.documents
  }

  function BornAfter(db: Db, after: Db, born: map<nat, nat>): map<nat, nat> {
    if Queued(db, after) then born[db.nextId := after.documents[after.outbox[db.nextId].hash].retries] else born
  }

  function LatestAfter(db: Db, after: Db, latest: map<Hash, nat>): map<Hash, nat> {
    if Queued(db, after) then latest[after.outbox[db.nextId].hash := db.nextId] else latest
  }

  function WithDb(s: State, db: Db): State {
    s.(db := db, born := BornAfter(s.db, db, s.born), latest := LatestAfter(s.db, db, s.latest))
  }

  /** A statement that took effect unless its reply says otherwise. */
  function Sql(l: Limits, s: State, stmt: Stmt, reply: Reply): State {
    WithDb(s, if reply.Applied() then Exec(l, s.db, stmt) else s.db)
  }

  // ---- one function per group of actions

  predicate FreeStatement(stmt: Stmt) {
    stmt.SCreate? || stmt.SUploaded? || stmt.SExpired? || stmt.SIntentRecover? || stmt.SRecover?
  }

  function SetHasher(s: State, w: WorkerId, pc: HashPc): State { s.(hashers := s.hashers[w := pc]) }
  function SetRelay(s: State, w: WorkerId, pc: RelayPc): State { s.(relays := s.relays[w := pc]) }
  function SetConsumer(s: State, w: WorkerId, pc: ConsumerPc): State { s.(consumers := s.consumers[w := pc]) }
  function SetApplier(s: State, w: WorkerId, pc: ApplierPc): State { s.(appliers := s.appliers[w := pc]) }

  function DoHashClaim(l: Limits, s: State, w: WorkerId, id: IntentId, now: Time, reply: Reply): State {
    var won := reply.Applied() && ToHashing(s.db, id, w, now).1;
    var n := Count(s.intentClaims, id) + 1;
    Sql(l, s, SHashing(id, w, now), reply)
      .(intentClaims := if won then s.intentClaims[id := n] else s.intentClaims,
        hashers := if won && reply.Done? then s.hashers[w := HWorking(id, n)] else s.hashers)
  }

  function DoHashStart(l: Limits, s: State, w: WorkerId, h: Hash, file: FileInfo, now: Time, reply: Reply): State
    requires s.Hasher(w).HWorking?
  {
    var pc := s.Hasher(w);
    SetHasher(Sql(l, s, SStart(h, file, pc.id, w, now), reply), w,
      if reply.Done? then HIdle else HReleasing(pc.id, pc.claim))
  }

  function DoRelayClaim(l: Limits, s: State, w: WorkerId, row: nat, now: Time, reply: Reply): State {
    var won := reply.Applied() && ClaimOutboxMessage(s.db, row, w, now).1;
    var n := Count(s.rowClaims, row) + 1;
    Sql(l, s, SClaim(row, w, now), reply)
      .(rowClaims := if won then s.rowClaims[row := n] else s.rowClaims,
        relays := if won && reply.Done? then s.relays[w := RClaimed(row, n)] else s.relays)
  }

  /** The document is read after the claim, and its current retries become the attempt number. */
  function AfterRead(db: Db, row: nat, claim: nat, ok: bool): RelayPc {
    if !ok || row !in db.outbox then RReleasing(row, claim)
    else if db.outbox[row].hash !in db.documents then RBlocking(row, claim)
    else RRead(row, claim, IngestEvent(db.outbox[row].hash, db.documents[db.outbox[row].hash].retries))
  }

  function DoRelayPublish(s: State, w: WorkerId, reply: Reply): State
    requires s.Relay(w).RRead?
  {
    var pc := s.Relay(w);
    s.(ingest := if reply.Applied() then s.ingest + [pc.event] else s.ingest,
       carried := if reply.Applied() then s.carried[pc.row := |s.ingest|] else s.carried,
       relays := s.relays[w := if reply.Done? then RSent(pc.row, pc.claim) else RReleasing(pc.row, pc.claim)],
       sends := s.sends + [Send(pc.row, pc.claim)])
  }

  function DoConsumeRead(s: State, w: WorkerId, now: Time, reply: Reply): State {
    s.(ig := if reply.Applied() then s.ig.Read(1, w, now) else s.ig,
       consumers := if reply.Done? then s.consumers[w := CGot(s.ig.delivered, s.ig.lifetime, 1)] else s.consumers)
  }

  function DoConsumeClaim(s: State, w: WorkerId, e: nat, now: Time, reply: Reply): State
    requires e in s.ig.pending
  {
    s.(ig := if reply.Applied() then s.ig.Claim([e], w, now) else s.ig,
       consumers := if reply.Done? then s.consumers[w := CClaimed(e, s.ig.lifetime, s.ig.pending[e].deliveries + 1)]
                    else s.consumers)
  }

  function EventOf(ingest: seq<IngestEvent>, e: nat, report: Report): StatusEvent
    requires e < |ingest|
  {
    StatusEvent(ingest[e].hash, ingest[e].attempts, report)
  }

  /** The owner and poison checks after a claim. */
  function AfterLookup(l: Limits, ig: Group, ingest: seq<IngestEvent>, w: WorkerId, e: nat, ok: bool): ConsumerPc {
    if !ok || e !in ig.pending || ig.pending[e].owner != w || e >= |ingest| then CIdle
    else if ig.pending[e].deliveries > l.poisonThreshold then CReporting(e, EventOf(ingest, e, ReportFailed(false)))
    else CGot(e, ig.lifetime, ig.pending[e].deliveries)
  }

  function DoConsumeRun(s: State, w: WorkerId, report: Report): State
    requires s.Consumer(w).CGot? && s.Consumer(w).entry < |s.ingest|
  {
    var pc := s.Consumer(w);
    s.(consumers := s.consumers[w := CReporting(pc.entry, EventOf(s.ingest, pc.entry, report))],
       runs := s.runs + [Run(pc.entry, pc.lifetime, pc.delivery)])
  }

  function DoConsumePublish(s: State, w: WorkerId, reply: Reply): State
    requires s.Consumer(w).CReporting? || s.Consumer(w).CHeld?
  {
    var pc := s.Consumer(w);
    s.(status := if reply.Applied() then s.status + [StatusEntry(pc.event, pc.entry)] else s.status,
       reported := if reply.Applied() then s.reported[pc.entry := |s.status|] else s.reported,
       consumers := if reply.Done? then s.consumers[w := CAcking(pc.entry)] else s.consumers)
  }

  function Next(todo: seq<nat>, claimed: bool): ApplierPc
    requires todo != []
  {
    if |todo| == 1 then AIdle else AWorking(todo[1..], claimed, false)
  }

  /** How many of `count` entries are left to read. */
  function BatchSize(s: State, count: nat): nat
    requires s.sg.delivered <= |s.status|
  {
    if count <= |s.status| - s.sg.delivered then count else |s.status| - s.sg.delivered
  }

  function DoApplyRead(s: State, w: WorkerId, count: nat, now: Time, reply: Reply): State
    requires s.sg.delivered <= |s.status|
  {
    var n := BatchSize(s, count);
    s.(sg := if reply.Applied() then s.sg.Read(n, w, now) else s.sg,
       appliers := if reply.Done? && n > 0
                   then s.appliers[w := AWorking(seq(n, i requires 0 <= i => s.sg.delivered + i), false, false)]
                   else s.appliers)
  }

  function DoApplyClaim(s: State, w: WorkerId, es: seq<nat>, now: Time, reply: Reply): State {
    s.(sg := if reply.Applied() then s.sg.Claim(es, w, now) else s.sg,
       appliers := if reply.Done? && es != [] then s.appliers[w := AWorking(es, true, false)] else s.appliers)
  }

  /** The delivery count of an entry; 0 when it is not pending. */
  function Deliveries(g: Group, e: nat): nat { if e in g.pending then g.pending[e].deliveries else 0 }

  /** The delivery count of a claimed entry decides between handling it and dropping it. */
  function DoApplyLookup(l: Limits, s: State, w: WorkerId): State
    requires s.Applier(w).AWorking? && s.Applier(w).todo != []
  {
    var pc := s.Applier(w);
    var poison := Deliveries(s.sg, pc.todo[0]) > l.statusPoison;
    s.(dropped := if poison then s.dropped + {pc.todo[0]} else s.dropped,
       appliers := s.appliers[w := if poison then AAcking(pc.todo, pc.claimed) else pc.(checked := true)])
  }

  function DoApplyHandle(l: Limits, s: State, w: WorkerId, now: Time, reply: Reply): State
    requires s.Applier(w).AWorking? && s.Applier(w).todo != [] && s.Applier(w).todo[0] < |s.status|
  {
    var pc := s.Applier(w);
    Sql(l, s, SApply(s.status[pc.todo[0]].event, now), reply)
      .(handled := if reply.Applied() then s.handled + {pc.todo[0]} else s.handled,
        appliers := if reply.Done? then s.appliers[w := AAcking(pc.todo, pc.claimed)] else s.appliers)
  }

  // ---- when an actor is ready for an action, and what the action does

  predicate HashEnabled(pc: HashPc, a: HashAction) {
    match a
    case HClaim(_, _, _) => pc.HIdle?
    case HStart(_, _, _, _) => pc.HWorking?
    case HFail(_) => pc.HWorking?
    case HRelease(_) => pc.HWorking? || pc.HReleasing?
    case HCrash => true
  }

  function DoHash(l: Limits, s: State, w: WorkerId, a: HashAction): State
    requires HashEnabled(s.Hasher(w), a)
  {
    match a
    case HClaim(id, now, reply) => DoHashClaim(l, s, w, id, now, reply)
    case HStart(h, file, now, reply) => DoHashStart(l, s, w, h, file, now, reply)
    case HFail(reply) => SetHasher(Sql(l, s, SIntentFailed(s.Hasher(w).id, w), reply), w, HIdle)
    case HRelease(reply) => SetHasher(Sql(l, s, SIntentRelease(s.Hasher(w).id, w), reply), w, HIdle)
    case HCrash => SetHasher(s, w, HDead)
  }

  predicate RelayEnabled(pc: RelayPc, a: RelayAction) {
    match a
    case RClaim(_, _, _) => pc.RIdle?
    case RReadDocument(_) => pc.RClaimed?
    case RPublish(_) => pc.RRead?
    case RMark(_) => pc.RSent?
    case RRelease(_) => pc.RReleasing?
    case RBlock(_) => pc.RBlocking?
    case RCrash => true
  }

  function DoRelay(l: Limits, s: State, w: WorkerId, a: RelayAction): State
    requires RelayEnabled(s.Relay(w), a)
  {
    match a
    case RClaim(row, now, reply) => DoRelayClaim(l, s, w, row, now, reply)
    case RReadDocument(ok) => SetRelay(s, w, AfterRead(s.db, s.Relay(w).row, s.Relay(w).claim, ok))
    case RPublish(reply) => DoRelayPublish(s, w, reply)
    case RMark(reply) => SetRelay(Sql(l, s, SPublished(s.Relay(w).row, w), reply), w, RIdle)
    case RRelease(reply) => SetRelay(Sql(l, s, SRelease(s.Relay(w).row, w), reply), w, RIdle)
    case RBlock(reply) => SetRelay(Sql(l, s, SBlocked(s.Relay(w).row, w), reply), w, RIdle)
    case RCrash => SetRelay(s, w, RDead)
  }

  /** New entries and claims need a live group; a claim also needs an idle entry. */
  predicate ConsumerEnabled(l: Limits, s: State, pc: ConsumerPc, a: ConsumerAction) {
    match a
    case CRead(_, _) => pc.CIdle? && s.ig.alive && s.ig.delivered < |s.ingest|
    case CClaim(e, now, _) => pc.CIdle? && s.ig.alive && s.ig.Stale(e, l.minIdle, now)
    case CLookup(_) => pc.CClaimed?
    case CRun(_) => pc.CGot? && pc.entry < |s.ingest|
    case CPublish(_) => pc.CReporting? || pc.CHeld?
    case CHold => pc.CReporting?
    case CRenew(_, _) => pc.CHeld?
    case CAck(_) => pc.CAcking?
    case CAbandon => pc.CClaimed? || pc.CGot? || pc.CReporting? || pc.CAcking?
    case CCrash => true
  }

  function DoConsumer(l: Limits, s: State, w: WorkerId, a: ConsumerAction): State
    requires ConsumerEnabled(l, s, s.Consumer(w), a)
  {
    var pc := s.Consumer(w);
    match a
    case CRead(now, reply) => DoConsumeRead(s, w, now, reply)
    case CClaim(e, now, reply) => DoConsumeClaim(s, w, e, now, reply)
    case CLookup(ok) => SetConsumer(s, w, AfterLookup(l, s.ig, s.ingest, w, pc.entry, ok))
    case CRun(report) => DoConsumeRun(s, w, report)
    case CPublish(reply) => DoConsumePublish(s, w, reply)
    case CHold => SetConsumer(s, w, CHeld(pc.entry, pc.event))
    case CRenew(now, reply) => s.(ig := if reply.Applied() then s.ig.Renew(pc.entry, w, now) else s.ig)
    case CAck(reply) =>
      s.(ig := if reply.Applied() then s.ig.Ack(pc.entry) else s.ig, consumers := s.consumers[w := CIdle])
    case CAbandon => SetConsumer(s, w, CIdle)
    case CCrash => SetConsumer(s, w, CDead)
  }

  predicate ApplierEnabled(l: Limits, s: State, pc: ApplierPc, a: ApplierAction) {
    match a
    case ARead(_, _, _) => pc.AIdle? && s.sg.alive && s.sg.delivered <= |s.status|
    case AClaim(es, now, _) => pc.AIdle? && s.sg.alive && forall e :: e in es ==> s.sg.Stale(e, l.statusMinIdle, now)
    case ALookup(e) => pc.AWorking? && pc.todo != [] && pc.todo[0] == e && pc.claimed && !pc.checked
    case AHandle(e, _, _) => pc.AWorking? && pc.todo != [] && pc.todo[0] == e < |s.status|
      && (pc.claimed ==> pc.checked)
    case ALeave(e) => pc.AWorking? && pc.todo != [] && pc.todo[0] == e
    case AAck(e, _) => pc.AAcking? && pc.todo != [] && pc.todo[0] == e
    case ACrash => true
  }

  function DoApplier(l: Limits, s: State, w: WorkerId, a: ApplierAction): State
    requires ApplierEnabled(l, s, s.Applier(w), a)
  {
    var pc := s.Applier(w);
    match a
    case ARead(count, now, reply) => DoApplyRead(s, w, count, now, reply)
    case AClaim(es, now, reply) => DoApplyClaim(s, w, es, now, reply)
    case ALookup(_) => DoApplyLookup(l, s, w)
    case AHandle(_, now, reply) => DoApplyHandle(l, s, w, now, reply)
    case ALeave(_) => SetApplier(s, w, Next(pc.todo, pc.claimed))
    case AAck(_, reply) =>
      s.(sg := if reply.Applied() then s.sg.Ack(pc.todo[0]) else s.sg,
         appliers := s.appliers[w := Next(pc.todo, pc.claimed)])
    case ACrash => SetApplier(s, w, ADead)
  }

  /** Cleanup deletes only consumers without pending entries. */
  predicate GroupEnabled(g: Group, a: GroupAction) {
    a.Cleanup? ==> forall e :: e in g.pending ==> g.pending[e].owner != a.other
  }

  function DoGroup(g: Group, a: GroupAction): Group {
    match a
    case Lost => g.Lose()
    case Created => g.Create()
    case Cleanup(other) => g.DeleteConsumer(other)
  }

  predicate Enabled(l: Limits, s: State, a: Action) {
    match a
    case Center(stmt, _) => FreeStatement(stmt)
    case HashBy(w, h) => HashEnabled(s.Hasher(w), h)
    case RelayBy(w, r) => RelayEnabled(s.Relay(w), r)
    case ConsumeBy(w, c) => ConsumerEnabled(l, s, s.Consumer(w), c)
    case ApplyBy(w, p) => ApplierEnabled(l, s, s.Applier(w), p)
    case IngestGroup(g) => GroupEnabled(s.ig, g)
    case StatusGroup(g) => GroupEnabled(s.sg, g)
  }

  function Do(l: Limits, s: State, a: Action): State
    requires Enabled(l, s, a)
  {
    match a
    case Center(stmt, reply) => Sql(l, s, stmt, reply)
    case HashBy(w, h) => DoHash(l, s, w, h)
    case RelayBy(w, r) => DoRelay(l, s, w, r)
    case ConsumeBy(w, c) => DoConsumer(l, s, w, c)
    case ApplyBy(w, p) => DoApplier(l, s, w, p)
    case IngestGroup(g) => s.(ig := DoGroup(s.ig, g))
    case StatusGroup(g) => s.(sg := DoGroup(s.sg, g))
  }

  function Step(l: Limits, s: State, a: Action): State { if Enabled(l, s, a) then Do(l, s, a) else s }

  function RunAll(l: Limits, s: State, actions: seq<Action>): State
    decreases |actions|
  {
    if actions == [] then s else RunAll(l, Step(l, s, actions[0]), actions[1..])
  }
}
