/** Every run of the whole system is, as far as the database can tell, a list of statements; so the
    results about statement lists hold for the system under all its interleavings, crashes and
    redeliveries. */
module Projection {
  import opened Domain
  import opened Tables
  import opened TableInvariants
  import opened System
  import Ladder
  import Work

  function HashStatement(w: WorkerId, pc: HashPc, a: HashAction): Option<Stmt>
    requires HashEnabled(pc, a)
  {
    match a
    case HClaim(id, now, reply) => if reply.Applied() then Some(SHashing(id, w, now)) else None
    case HStart(h, file, now, reply) => if reply.Applied() then Some(SStart(h, file, pc.id, w, now)) else None
    case HFail(reply) => if reply.Applied() then Some(SIntentFailed(pc.id, w)) else None
    case HRelease(reply) => if reply.Applied() then Some(SIntentRelease(pc.id, w)) else None
    case HCrash => None
  }

  function RelayStatement(w: WorkerId, pc: RelayPc, a: RelayAction): Option<Stmt>
    requires RelayEnabled(pc, a)
  {
    match a
    case RClaim(row, now, reply) => if reply.Applied() then Some(SClaim(row, w, now)) else None
    case RMark(reply) => if reply.Applied() then Some(SPublished(pc.row, w)) else None
    case RRelease(reply) => if reply.Applied() then Some(SRelease(pc.row, w)) else None
    case RBlock(reply) => if reply.Applied() then Some(SBlocked(pc.row, w)) else None
    case _ => None
  }

  /** The statement that took effect in this action, if any. */
  function StatementOf(l: Limits, s: State, a: Action): Option<Stmt> {
    if !Enabled(l, s, a) then None
    else match a
      case Center(stmt, reply) => if reply.Applied() then Some(stmt) else None
      case HashBy(w, h) => HashStatement(w, s.Hasher(w), h)
      case RelayBy(w, r) => RelayStatement(w, s.Relay(w), r)
      case ApplyBy(w, p) =>
        if p.AHandle? && p.reply.Applied() then Some(SApply(s.status[s.Applier(w).todo[0]].event, p.now)) else None
      case _ => None
  }

  function After(l: Limits, db: Db, stmt: Option<Stmt>): Db {
    match stmt case None => db case Some(x) => Exec(l, db, x)
  }

  lemma HashDb(l: Limits, s: State, w: WorkerId, a: HashAction)
    requires HashEnabled(s.Hasher(w), a)
    ensures DoHash(l, s, w, a).db == After(l, s.db, HashStatement(w, s.Hasher(w), a))
  {
    hide Exec;
  }

  lemma RelayDb(l: Limits, s: State, w: WorkerId, a: RelayAction)
    requires RelayEnabled(s.Relay(w), a)
    ensures DoRelay(l, s, w, a).db == After(l, s.db, RelayStatement(w, s.Relay(w), a))
  {
    hide Exec; hide AfterRead;
  }

  lemma ApplierDb(l: Limits, s: State, w: WorkerId, a: ApplierAction)
    requires ApplierEnabled(l, s, s.Applier(w), a)
    ensures DoApplier(l, s, w, a).db == After(l, s.db, StatementOf(l, s, ApplyBy(w, a)))
  {
    hide Exec; hide Next;
  }

  lemma ConsumerDb(l: Limits, s: State, w: WorkerId, a: ConsumerAction)
    requires ConsumerEnabled(l, s, s.Consumer(w), a)
    ensures DoConsumer(l, s, w, a).db == s.db
  {
    hide AfterLookup;
  }

  lemma StepDb(l: Limits, s: State, a: Action)
    ensures Step(l, s, a).db == After(l, s.db, StatementOf(l, s, a))
  {
    hide Exec; hide DoHash; hide DoRelay; hide DoConsumer; hide DoApplier; hide DoGroup;
    if Enabled(l, s, a) {
      match a {
        case Center(_, _) =>
        case HashBy(w, h) => HashDb(l, s, w, h);
        case RelayBy(w, r) => RelayDb(l, s, w, r);
        case ConsumeBy(w, c) => ConsumerDb(l, s, w, c);
        case ApplyBy(w, p) => ApplierDb(l, s, w, p);
        case _ =>
      }
    }
  }

  /** The statements that took effect in a run, in order. */
  function Script(l: Limits, s: State, actions: seq<Action>): seq<Stmt>
    decreases |actions|
  {
    if actions == [] then []
    else
      (match StatementOf(l, s, actions[0]) case None => [] case Some(x) => [x])
        + Script(l, Step(l, s, actions[0]), actions[1..])
  }

  lemma {:induction false} RunIsScript(l: Limits, s: State, actions: seq<Action>)
    ensures RunAll(l, s, actions).db == ExecAll(l, s.db, Script(l, s, actions))
    decreases |actions|
  {
    hide Exec; hide Step; hide StatementOf;
    if actions != [] {
      var next := Step(l, s, actions[0]);
      var rest := Script(l, next, actions[1..]);
      StepDb(l, s, actions[0]);
      RunIsScript(l, next, actions[1..]);
      match StatementOf(l, s, actions[0]) {
        case None => assert [] + rest == rest;
        case Some(x) => assert ([x] + rest)[1..] == rest;
      }
    }
  }

  /** Over any run of the system: a document climbs the sequential ladder, its accepted reports carry
      attempts 0, 1, 2, ... each once, and no intent or outbox row is claimed more often than its
      retry limit. */
  lemma SystemRefinesLadder(l: Limits, actions: seq<Action>, h: Hash, id: IntentId, row: nat)
    requires l.Valid()
    ensures var db, ss := RunAll(l, Initial(), actions).db, Script(l, Initial(), actions);
      var accepted := Ladder.Accepted(l, Empty(), ss, h);
      && Ladder.RungOf(db, h) == Ladder.ClimbAll(l, Ladder.Trying(0), accepted)
      && Ladder.Consecutive(l, 0, accepted) && |accepted| <= l.maxAttempts
      && Work.IntentClaims(l, Empty(), ss, id) <= l.hashRetries
      && Work.RowClaims(l, Empty(), ss, row) <= l.outboxRetries
  {
    var ss := Script(l, Initial(), actions);
    EmptyInv(l);
    RunIsScript(l, Initial(), actions);
    Ladder.StoreRefinesLadder(l, Empty(), ss, h);
    Ladder.AttemptsBounded(l, Empty(), ss, h);
    Work.IntentClaimsBounded(l, Empty(), ss, id);
    Work.RowClaimsBounded(l, Empty(), ss, row);
  }

  /** Steps of a run that changed a row. */
  function DbChanges(l: Limits, s: State, actions: seq<Action>): nat
    decreases |actions|
  {
    if actions == [] then 0
    else
      var next := Step(l, s, actions[0]);
      (if next.db != s.db then 1 else 0) + DbChanges(l, next, actions[1..])
  }

  lemma {:induction false} ChangesAreScripted(l: Limits, s: State, actions: seq<Action>)
    ensures DbChanges(l, s, actions) == Work.Changes(l, s.db, Script(l, s, actions))
    decreases |actions|
  {
    hide Exec; hide Step; hide StatementOf;
    if actions != [] {
      var next := Step(l, s, actions[0]);
      var rest := Script(l, next, actions[1..]);
      StepDb(l, s, actions[0]);
      ChangesAreScripted(l, next, actions[1..]);
      match StatementOf(l, s, actions[0]) {
        case None => assert [] + rest == rest;
        case Some(x) => assert ([x] + rest)[1..] == rest && ([x] + rest)[0] == x;
      }
    }
  }

  /** No new upload is created. */
  predicate NoNewIntents(actions: seq<Action>) {
    forall i :: 0 <= i < |actions| ==> !(actions[i].Center? && actions[i].stmt.SCreate?)
  }

  lemma {:induction false} ScriptCreatesNothing(l: Limits, s: State, actions: seq<Action>)
    requires NoNewIntents(actions)
    ensures forall i :: 0 <= i < |Script(l, s, actions)| ==> !Script(l, s, actions)[i].SCreate?
    decreases |actions|
  {
    hide Step; hide Enabled;
    if actions != [] { ScriptCreatesNothing(l, Step(l, s, actions[0]), actions[1..]); }
  }

  /** Termination of the whole system: from any state with sound tables, and with no new uploads, a run of
      any length changes rows at most WorkLeft times, however its actors interleave, crash and retry. */
  lemma SystemTerminates(l: Limits, s: State, actions: seq<Action>)
    requires l.Valid() && Inv(l, s.db) && NoNewIntents(actions)
    ensures DbChanges(l, s, actions) + Work.WorkLeft(l, RunAll(l, s, actions).db) <= Work.WorkLeft(l, s.db)
  {
    var ss := Script(l, s, actions);
    RunIsScript(l, s, actions);
    ChangesAreScripted(l, s, actions);
    ScriptCreatesNothing(l, s, actions);
    Work.RunsTerminate(l, s.db, ss);
  }
}
