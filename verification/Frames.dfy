/** What each kind of actor leaves alone. */
module Frames {
  import opened Domain
  import opened Tables
  import opened System

  lemma SqlFrame(l: Limits, s: State, stmt: Stmt, reply: Reply)
    ensures var t := Sql(l, s, stmt, reply);
      && t.hashers == s.hashers && t.relays == s.relays && t.consumers == s.consumers && t.appliers == s.appliers
      && t.ig == s.ig && t.sg == s.sg && t.runs == s.runs && t.ingest == s.ingest && t.status == s.status
        && t.dropped == s.dropped && t.handled == s.handled
  {
    hide Exec;
  }

  lemma HashFrame(l: Limits, s: State, w: WorkerId, a: HashAction)
    requires HashEnabled(s.Hasher(w), a)
    ensures var t := DoHash(l, s, w, a);
      && t.relays == s.relays && t.consumers == s.consumers && t.appliers == s.appliers
      && t.ig == s.ig && t.sg == s.sg && t.runs == s.runs && t.ingest == s.ingest && t.status == s.status
        && t.dropped == s.dropped && t.handled == s.handled
      && (forall v :: v != w ==> t.Hasher(v) == s.Hasher(v))
  {
    hide Sql; hide ToHashing;
    match a {
      case HClaim(id, now, reply) => SqlFrame(l, s, SHashing(id, w, now), reply);
      case HStart(h, file, now, reply) => SqlFrame(l, s, SStart(h, file, s.Hasher(w).id, w, now), reply);
      case HFail(reply) => SqlFrame(l, s, SIntentFailed(s.Hasher(w).id, w), reply);
      case HRelease(reply) => SqlFrame(l, s, SIntentRelease(s.Hasher(w).id, w), reply);
      case HCrash =>
    }
  }

  lemma RelayFrame(l: Limits, s: State, w: WorkerId, a: RelayAction)
    requires RelayEnabled(s.Relay(w), a)
    ensures var t := DoRelay(l, s, w, a);
      && t.hashers == s.hashers && t.consumers == s.consumers && t.appliers == s.appliers
      && t.ig == s.ig && t.sg == s.sg && t.runs == s.runs && t.status == s.status && s.ingest <= t.ingest
        && t.dropped == s.dropped && t.handled == s.handled
      && (forall v :: v != w ==> t.Relay(v) == s.Relay(v))
  {
    hide Sql; hide ClaimOutboxMessage; hide AfterRead;
    match a {
      case RClaim(row, now, reply) => SqlFrame(l, s, SClaim(row, w, now), reply);
      case RMark(reply) => SqlFrame(l, s, SPublished(s.Relay(w).row, w), reply);
      case RRelease(reply) => SqlFrame(l, s, SRelease(s.Relay(w).row, w), reply);
      case RBlock(reply) => SqlFrame(l, s, SBlocked(s.Relay(w).row, w), reply);
      case _ =>
    }
  }

  lemma ConsumerFrame(l: Limits, s: State, w: WorkerId, a: ConsumerAction)
    requires ConsumerEnabled(l, s, s.Consumer(w), a)
    ensures var t := DoConsumer(l, s, w, a);
      && t.hashers == s.hashers && t.relays == s.relays && t.appliers == s.appliers
      && t.sg == s.sg && t.ingest == s.ingest && s.status <= t.status && t.dropped == s.dropped
        && t.handled == s.handled
      && (forall v :: v != w ==> t.Consumer(v) == s.Consumer(v))
  {
    hide AfterLookup;
  }

  lemma ApplierFrame(l: Limits, s: State, w: WorkerId, a: ApplierAction)
    requires ApplierEnabled(l, s, s.Applier(w), a)
    ensures var t := DoApplier(l, s, w, a);
      && t.hashers == s.hashers && t.relays == s.relays && t.consumers == s.consumers
      && t.ig == s.ig && t.runs == s.runs && t.ingest == s.ingest && t.status == s.status
      && s.handled <= t.handled && s.dropped <= t.dropped
      && (forall v :: v != w ==> t.Applier(v) == s.Applier(v))
  {
    hide Sql; hide Next;
    match a {
      case AHandle(_, now, reply) => SqlFrame(l, s, SApply(s.status[s.Applier(w).todo[0]].event, now), reply);
      case _ =>
    }
  }

  lemma GroupFrame(l: Limits, s: State, g: GroupAction)
    ensures Enabled(l, s, IngestGroup(g)) <==> GroupEnabled(s.ig, g)
    ensures GroupEnabled(s.ig, g) ==>
      var t := Do(l, s, IngestGroup(g));
      t.ig == DoGroup(s.ig, g) && t.consumers == s.consumers
  {
    hide DoHash; hide DoRelay; hide DoConsumer; hide DoApplier; hide DoGroup; hide GroupEnabled;
    hide HashEnabled; hide RelayEnabled; hide ConsumerEnabled; hide ApplierEnabled; hide Sql;
  }

  // ---- one worker among the others

  datatype Actor =
    | TheHasher(w: WorkerId) | TheRelay(w: WorkerId) | TheConsumer(w: WorkerId) | TheApplier(w: WorkerId) | Nobody

  predicate By(a: Action, me: Actor) {
    match me
    case TheHasher(w) => a.HashBy? && a.w == w
    case TheRelay(w) => a.RelayBy? && a.w == w
    case TheConsumer(w) => a.ConsumeBy? && a.w == w
    case TheApplier(w) => a.ApplyBy? && a.w == w
    case Nobody => false
  }

  predicate SamePc(me: Actor, s: State, t: State) {
    match me
    case TheHasher(w) => t.Hasher(w) == s.Hasher(w)
    case TheRelay(w) => t.Relay(w) == s.Relay(w)
    case TheConsumer(w) => t.Consumer(w) == s.Consumer(w)
    case TheApplier(w) => t.Applier(w) == s.Applier(w)
    case Nobody => true
  }

  /** Nobody else moves a worker's program counter, streams only grow, and nobody takes back that a
      status entry was handled or dropped. */
  lemma OthersKeepPc(l: Limits, s: State, a: Action, me: Actor)
    ensures !By(a, me) ==> SamePc(me, s, Step(l, s, a))
    ensures s.handled <= Step(l, s, a).handled && s.dropped <= Step(l, s, a).dropped
    ensures s.ingest <= Step(l, s, a).ingest && s.status <= Step(l, s, a).status
  {
    hide DoHash; hide DoRelay; hide DoConsumer; hide DoApplier; hide DoGroup; hide Sql;
    hide HashEnabled; hide RelayEnabled; hide ConsumerEnabled; hide ApplierEnabled; hide GroupEnabled;
    if Enabled(l, s, a) {
      match a {
        case Center(stmt, reply) => SqlFrame(l, s, stmt, reply);
        case HashBy(w, h) => HashFrame(l, s, w, h);
        case RelayBy(w, r) => RelayFrame(l, s, w, r);
        case ConsumeBy(w, c) => ConsumerFrame(l, s, w, c);
        case ApplyBy(w, p) => ApplierFrame(l, s, w, p);
        case _ =>
      }
    }
  }
}
