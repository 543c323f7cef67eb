/** Where every outcome comes from: a status entry carries the report of a job that really ran on its
    ingest entry, or of its poison branch, and a document is only ever finished, or moved on to its next
    attempt, by such a report. */
module Provenance {
  import opened Domain
  import opened Tables
  import opened System
  import opened Frames
  import W = World

  function After(l: Limits, actions: seq<Action>, n: nat): State
    requires n <= |actions|
  {
    RunAll(l, Initial(), actions[..n])
  }

  /** Step k of the run is where consumer w came to its report on entry e: the job ran under w and ended
      with this report, or the entry had been delivered too often to run it again. */
  ghost predicate Source(l: Limits, actions: seq<Action>, k: nat, w: WorkerId, e: nat, event: StatusEvent) {
    && k < |actions|
    && var s := After(l, actions, k);
      && e < |s.ingest| && event.hash == s.ingest[e].hash && event.attempts == s.ingest[e].attempts
      && (JobRan(s, actions[k], w, e, event.report) || PoisonFound(l, s, actions[k], w, e, event.report))
  }

  predicate JobRan(s: State, a: Action, w: WorkerId, e: nat, report: Report) {
    a == ConsumeBy(w, CRun(report)) && s.Consumer(w).CGot? && s.Consumer(w).entry == e
  }

  predicate PoisonFound(l: Limits, s: State, a: Action, w: WorkerId, e: nat, report: Report) {
    && a == ConsumeBy(w, CLookup(true)) && s.Consumer(w).CClaimed? && s.Consumer(w).entry == e
    && e in s.ig.pending && s.ig.pending[e].owner == w && s.ig.pending[e].deliveries > l.poisonThreshold
    && report == ReportFailed(false)
  }

  predicate Carrying(pc: ConsumerPc) { pc.CReporting? || pc.CHeld? }

  ghost predicate Sourced(l: Limits, actions: seq<Action>, e: nat, event: StatusEvent) {
    exists k: nat, w: WorkerId :: Source(l, actions, k, w, e, event)
  }

  ghost predicate PcsSourced(l: Limits, actions: seq<Action>, s: State) {
    forall w :: Carrying(s.Consumer(w)) ==> Sourced(l, actions, s.Consumer(w).entry, s.Consumer(w).event)
  }

  ghost predicate StatusSourced(l: Limits, actions: seq<Action>, s: State) {
    forall i :: 0 <= i < |s.status| ==> Sourced(l, actions, s.status[i].origin, s.status[i].event)
  }

  lemma SourceStays(l: Limits, actions: seq<Action>, a: Action, e: nat, event: StatusEvent)
    requires Sourced(l, actions, e, event)
    ensures Sourced(l, actions + [a], e, event)
  {
    var k: nat, w: WorkerId :| Source(l, actions, k, w, e, event);
    assert (actions + [a])[..k] == actions[..k];
    assert Source(l, actions + [a], k, w, e, event);
  }

  /** What one action of a consumer does to its own event and to the status stream. */
  lemma ConsumerStep(l: Limits, s: State, w: WorkerId, a: ConsumerAction)
    requires ConsumerEnabled(l, s, s.Consumer(w), a)
    ensures var t, pc := DoConsumer(l, s, w, a), s.Consumer(w);
      && (Carrying(t.Consumer(w)) ==>
        || (Carrying(pc) && t.Consumer(w).entry == pc.entry && t.Consumer(w).event == pc.event)
        || (t.Consumer(w).entry < |s.ingest| && t.Consumer(w).event.hash == s.ingest[t.Consumer(w).entry].hash
            && t.Consumer(w).event.attempts == s.ingest[t.Consumer(w).entry].attempts
            && (JobRan(s, ConsumeBy(w, a), w, t.Consumer(w).entry, t.Consumer(w).event.report)
                || PoisonFound(l, s, ConsumeBy(w, a), w, t.Consumer(w).entry, t.Consumer(w).event.report))))
      && (t.status == s.status || (Carrying(pc) && t.status == s.status + [StatusEntry(pc.event, pc.entry)]))
  {
  }

  lemma StepKeepsSources(l: Limits, actions: seq<Action>, a: Action)
    requires var s := After(l, actions, |actions|); PcsSourced(l, actions, s) && StatusSourced(l, actions, s)
    ensures var t := After(l, actions + [a], |actions| + 1);
      PcsSourced(l, actions + [a], t) && StatusSourced(l, actions + [a], t)
  {
    var all := actions + [a];
    var s, t := After(l, actions, |actions|), After(l, all, |all|);
    assert actions[..|actions|] == actions && all[..|all|] == all && all[..|actions|] == actions;
    W.RunAppend(l, Initial(), actions, a);
    hide Step; hide RunAll;
    forall w | Carrying(t.Consumer(w)) ensures Sourced(l, all, t.Consumer(w).entry, t.Consumer(w).event) {
      if By(a, TheConsumer(w)) {
        OwnStep(l, actions, a, w, s, t);
      } else {
        OthersKeepPc(l, s, a, TheConsumer(w));
        SourceStays(l, actions, a, s.Consumer(w).entry, s.Consumer(w).event);
      }
    }
    StatusGrowth(l, s, a);
    forall i | 0 <= i < |t.status| ensures Sourced(l, all, t.status[i].origin, t.status[i].event) {
      if i < |s.status| {
        SourceStays(l, actions, a, s.status[i].origin, s.status[i].event);
      } else {
        SourceStays(l, actions, a, s.Consumer(a.w).entry, s.Consumer(a.w).event);
      }
    }
  }

  lemma OwnStep(l: Limits, actions: seq<Action>, a: Action, w: WorkerId, s: State, t: State)
    requires s == After(l, actions, |actions|) && t == Step(l, s, a) && By(a, TheConsumer(w))
    requires PcsSourced(l, actions, s) && Carrying(t.Consumer(w))
    ensures Sourced(l, actions + [a], t.Consumer(w).entry, t.Consumer(w).event)
  {
    if Enabled(l, s, a) {
      ConsumerStep(l, s, w, a.consume);
    }
    hide DoConsumer; hide ConsumerEnabled; hide RunAll;
    if Carrying(s.Consumer(w)) && t.Consumer(w).entry == s.Consumer(w).entry
       && t.Consumer(w).event == s.Consumer(w).event {
      SourceStays(l, actions, a, s.Consumer(w).entry, s.Consumer(w).event);
    } else {
      assert (actions + [a])[..|actions|] == actions[..|actions|];
      assert Source(l, actions + [a], |actions|, w, t.Consumer(w).entry, t.Consumer(w).event);
    }
  }

  /** Only a publish appends to the status stream, and only the event its consumer carries. */
  lemma StatusGrowth(l: Limits, s: State, a: Action)
    ensures var t := Step(l, s, a);
      || t.status == s.status
      || (a.ConsumeBy? && Carrying(s.Consumer(a.w))
          && t.status == s.status + [StatusEntry(s.Consumer(a.w).event, s.Consumer(a.w).entry)])
  {
    hide DoHash; hide DoRelay; hide DoConsumer; hide DoApplier; hide DoGroup; hide Sql;
    hide HashEnabled; hide RelayEnabled; hide ConsumerEnabled; hide ApplierEnabled; hide GroupEnabled;
    if Enabled(l, s, a) {
      match a {
        case Center(stmt, reply) => SqlFrame(l, s, stmt, reply);
        case HashBy(w, h) => HashFrame(l, s, w, h);
        case RelayBy(w, r) => RelayFrame(l, s, w, r);
        case ConsumeBy(w, c) => ConsumerStep(l, s, w, c);
        case ApplyBy(w, p) => ApplierFrame(l, s, w, p);
        case _ =>
      }
    }
  }

  lemma {:induction false} AllSourced(l: Limits, actions: seq<Action>)
    ensures var s := After(l, actions, |actions|); PcsSourced(l, actions, s) && StatusSourced(l, actions, s)
  {
    if actions != [] {
      var n := |actions| - 1;
      AllSourced(l, actions[..n]);
      StepKeepsSources(l, actions[..n], actions[n]);
      assert actions == actions[..n] + [actions[n]];
    }
  }

  // ---- documents

  /** A status entry that was handled reports this on the attempt. */
  predicate ToldBy(s: State, i: nat, h: Hash, attempt: nat, report: Report) {
    i < |s.status| && i in s.handled && s.status[i].event == StatusEvent(h, attempt, report)
  }

  ghost predicate Told(s: State, h: Hash, attempt: nat, report: Report) {
    exists i: nat :: ToldBy(s, i, h, attempt, report)
  }

  /** Every attempt before the current one was reported as a retryable failure with attempts left, and a
      finished document has the report that finished it. */
  ghost predicate Earned(l: Limits, s: State, h: Hash)
    requires h in s.db.documents
  {
    var d := s.db.documents[h];
    Climbed(l, s, h, d.retries) && Finished(l, s, h, d.retries, d.status)
  }

  ghost predicate Climbed(l: Limits, s: State, h: Hash, n: nat) {
    forall a: nat :: a < n ==> Retried(l, s, h, a)
  }

  ghost predicate Retried(l: Limits, s: State, h: Hash, a: nat) {
    Told(s, h, a, ReportFailed(true)) && a + 1 < l.maxAttempts
  }

  ghost predicate Finished(l: Limits, s: State, h: Hash, n: nat, status: DocumentStatus) {
    match status
    case Processing => true
    case Indexed => Told(s, h, n, ReportIndexed)
    case Failed =>
      Told(s, h, n, ReportFailed(false)) || (Told(s, h, n, ReportFailed(true)) && n + 1 >= l.maxAttempts)
  }

  /** What one report may do to its document. */
  predicate MovedBy(l: Limits, before: Document, after: Document, report: Report) {
    match report
    case ReportIndexed => after.status == Indexed && after.retries == before.retries
    case ReportFailed(retryable) =>
      if retryable && before.retries + 1 < l.maxAttempts then
        after.status == Processing && after.retries == before.retries + 1
      else after.status == Failed && after.retries == before.retries
  }

  predicate SameProgress(before: Db, after: Db, h: Hash)
    requires h in after.documents
  {
    if h in before.documents then
      && after.documents[h].status == before.documents[h].status
      && after.documents[h].retries == before.documents[h].retries
    else after.documents[h].status == Processing && after.documents[h].retries == 0
  }

  predicate AppliedTo(l: Limits, before: Db, after: Db, event: StatusEvent) {
    && event.hash in before.documents && event.hash in after.documents
    && event.attempts == before.documents[event.hash].retries && before.documents[event.hash].status == Processing
    && MovedBy(l, before.documents[event.hash], after.documents[event.hash], event.report)
  }

  lemma StatementMoves(l: Limits, db: Db, stmt: Stmt, h: Hash)
    requires h in Exec(l, db, stmt).documents
    ensures var after := Exec(l, db, stmt);
      SameProgress(db, after, h) || (stmt.SApply? && stmt.event.hash == h && AppliedTo(l, db, after, stmt.event))
  {
  }

  /** A document moves only when a status entry on its current attempt is handled. */
  ghost predicate Handles(l: Limits, s: State, t: State, h: Hash) {
    exists i: nat :: i < |s.status| && i in t.handled && s.status[i].event.hash == h
      && AppliedTo(l, s.db, t.db, s.status[i].event)
  }

  lemma SqlMoves(l: Limits, s: State, stmt: Stmt, reply: Reply, h: Hash)
    requires h in Sql(l, s, stmt, reply).db.documents
    ensures var t := Sql(l, s, stmt, reply);
      || SameProgress(s.db, t.db, h)
      || (reply.Applied() && stmt.SApply? && stmt.event.hash == h && AppliedTo(l, s.db, t.db, stmt.event))
  {
    if reply.Applied() { StatementMoves(l, s.db, stmt, h); }
    hide Exec;
  }

  lemma ApplierMoves(l: Limits, s: State, w: WorkerId, a: ApplierAction, h: Hash)
    requires ApplierEnabled(l, s, s.Applier(w), a) && h in DoApplier(l, s, w, a).db.documents
    ensures var t := DoApplier(l, s, w, a); SameProgress(s.db, t.db, h) || Handles(l, s, t, h)
  {
    if a.AHandle? {
      var i := s.Applier(w).todo[0];
      SqlMoves(l, s, SApply(s.status[i].event, a.now), a.reply, h);
      hide Sql;
      assert a.reply.Applied() ==> i in DoApplier(l, s, w, a).handled;
    }
  }

  lemma RelayMoves(l: Limits, s: State, w: WorkerId, a: RelayAction, h: Hash)
    requires RelayEnabled(s.Relay(w), a) && h in DoRelay(l, s, w, a).db.documents
    ensures SameProgress(s.db, DoRelay(l, s, w, a).db, h)
  {
    match a {
      case RClaim(row, now, reply) => SqlMoves(l, s, SClaim(row, w, now), reply, h);
      case RMark(reply) => SqlMoves(l, s, SPublished(s.Relay(w).row, w), reply, h);
      case RRelease(reply) => SqlMoves(l, s, SRelease(s.Relay(w).row, w), reply, h);
      case RBlock(reply) => SqlMoves(l, s, SBlocked(s.Relay(w).row, w), reply, h);
      case _ =>
    }
    hide Sql;
  }

  lemma HashMoves(l: Limits, s: State, w: WorkerId, a: HashAction, h: Hash)
    requires HashEnabled(s.Hasher(w), a) && h in DoHash(l, s, w, a).db.documents
    ensures SameProgress(s.db, DoHash(l, s, w, a).db, h)
  {
    match a {
      case HClaim(id, now, reply) => SqlMoves(l, s, SHashing(id, w, now), reply, h);
      case HStart(hash, file, now, reply) => SqlMoves(l, s, SStart(hash, file, s.Hasher(w).id, w, now), reply, h);
      case HFail(reply) => SqlMoves(l, s, SIntentFailed(s.Hasher(w).id, w), reply, h);
      case HRelease(reply) => SqlMoves(l, s, SIntentRelease(s.Hasher(w).id, w), reply, h);
      case HCrash =>
    }
    hide Sql;
  }

  lemma StepMoves(l: Limits, s: State, a: Action, h: Hash)
    requires h in Step(l, s, a).db.documents
    ensures var t := Step(l, s, a); SameProgress(s.db, t.db, h) || Handles(l, s, t, h)
  {
    hide DoHash; hide DoRelay; hide DoConsumer; hide DoApplier; hide DoGroup; hide Sql; hide Handles;
    hide HashEnabled; hide RelayEnabled; hide ConsumerEnabled; hide ApplierEnabled; hide GroupEnabled;
    if Enabled(l, s, a) {
      match a {
        case Center(stmt, reply) => SqlMoves(l, s, stmt, reply, h);
        case HashBy(w, x) => HashMoves(l, s, w, x, h);
        case RelayBy(w, r) => RelayMoves(l, s, w, r, h);
        case ConsumeBy(w, c) => ConsumerKeepsDb(l, s, w, c);
        case ApplyBy(w, p) => ApplierMoves(l, s, w, p, h);
        case _ =>
      }
    }
  }

  lemma ConsumerKeepsDb(l: Limits, s: State, w: WorkerId, a: ConsumerAction)
    requires ConsumerEnabled(l, s, s.Consumer(w), a)
    ensures DoConsumer(l, s, w, a).db == s.db
  {
  }

  lemma ToldStays(l: Limits, s: State, a: Action, h: Hash, attempt: nat, report: Report)
    requires Told(s, h, attempt, report)
    ensures Told(Step(l, s, a), h, attempt, report)
  {
    OthersKeepPc(l, s, a, Nobody);
    hide Step;
    var i: nat :| ToldBy(s, i, h, attempt, report);
    assert ToldBy(Step(l, s, a), i, h, attempt, report);
  }

  lemma ClimbedStays(l: Limits, s: State, a: Action, h: Hash, n: nat)
    requires Climbed(l, s, h, n)
    ensures Climbed(l, Step(l, s, a), h, n)
  {
    hide Step; hide Told;
    forall k: nat | k < n ensures Retried(l, Step(l, s, a), h, k) {
      assert Retried(l, s, h, k);
      ToldStays(l, s, a, h, k, ReportFailed(true));
    }
  }

  lemma FinishedStays(l: Limits, s: State, a: Action, h: Hash, n: nat, status: DocumentStatus)
    requires Finished(l, s, h, n, status)
    ensures Finished(l, Step(l, s, a), h, n, status)
  {
    hide Step; hide Told;
    match status {
      case Processing =>
      case Indexed => ToldStays(l, s, a, h, n, ReportIndexed);
      case Failed =>
        if Told(s, h, n, ReportFailed(false)) {
          ToldStays(l, s, a, h, n, ReportFailed(false));
        } else {
          ToldStays(l, s, a, h, n, ReportFailed(true));
        }
    }
  }

  lemma MovedIsEarned(l: Limits, t: State, h: Hash, before: Document, after: Document, report: Report)
    requires MovedBy(l, before, after, report) && Climbed(l, t, h, before.retries)
    requires Told(t, h, before.retries, report)
    ensures Climbed(l, t, h, after.retries) && Finished(l, t, h, after.retries, after.status)
  {
    hide Told;
    match report {
      case ReportIndexed =>
      case ReportFailed(retryable) => assert retryable ==> Told(t, h, before.retries, ReportFailed(true));
    }
  }

  lemma ToldNow(t: State, i: nat, h: Hash, attempt: nat, report: Report)
    requires ToldBy(t, i, h, attempt, report)
    ensures Told(t, h, attempt, report)
  {
  }

  lemma StepKeepsEarned(l: Limits, s: State, a: Action, h: Hash)
    requires h in s.db.documents ==> Earned(l, s, h)
    requires h in Step(l, s, a).db.documents
    ensures Earned(l, Step(l, s, a), h)
  {
    var t := Step(l, s, a);
    StepMoves(l, s, a, h);
    if h in s.db.documents {
      ClimbedStays(l, s, a, h, s.db.documents[h].retries);
      FinishedStays(l, s, a, h, s.db.documents[h].retries, s.db.documents[h].status);
    }
    OthersKeepPc(l, s, a, Nobody);
    hide Step; hide Told; hide Retried; hide MovedBy;
    if !SameProgress(s.db, t.db, h) {
      var i: nat :| i < |s.status| && i in t.handled && s.status[i].event.hash == h
        && AppliedTo(l, s.db, t.db, s.status[i].event);
      ToldNow(t, i, h, s.status[i].event.attempts, s.status[i].event.report);
      MovedIsEarned(l, t, h, s.db.documents[h], t.db.documents[h], s.status[i].event.report);
    }
  }

  lemma {:induction false} AllEarned(l: Limits, s: State, actions: seq<Action>, h: Hash)
    requires h in s.db.documents ==> Earned(l, s, h)
    requires h in RunAll(l, s, actions).db.documents
    ensures Earned(l, RunAll(l, s, actions), h)
    decreases |actions|
  {
    hide Step; hide Earned;
    if actions != [] {
      var t := Step(l, s, actions[0]);
      if h in t.db.documents { StepKeepsEarned(l, s, actions[0], h); }
      AllEarned(l, t, actions[1..], h);
    }
  }

  // ---- over whole runs

  /** Over every run: every status entry carries the report that a job run of its ingest entry ended with,
      or the permanent failure of the poison branch, for the entry's own document and attempt. */
  lemma ReportsComeFromJobs(l: Limits, actions: seq<Action>, i: nat)
    requires i < |RunAll(l, Initial(), actions).status|
    ensures var entry := RunAll(l, Initial(), actions).status[i];
      exists k: nat, w: WorkerId :: Source(l, actions, k, w, entry.origin, entry.event)
  {
    AllSourced(l, actions);
    assert actions[..|actions|] == actions;
  }

  /** Over every run: no document is finished, and none moves on to its next attempt, without a handled
      status entry that says so: INDEXED only after an INDEXED report on the current attempt, FAILED only
      after a permanent one or a retryable one on the last attempt, and one retryable failure for each
      earlier attempt. */
  lemma OutcomesAreEarned(l: Limits, actions: seq<Action>, h: Hash)
    requires h in RunAll(l, Initial(), actions).db.documents
    ensures Earned(l, RunAll(l, Initial(), actions), h)
  {
    AllEarned(l, Initial(), actions, h);
  }

  /** End to end: a document that the center shows as INDEXED had a job run, of an ingest entry for its
      current attempt, that ended INDEXED. */
  lemma IndexedByAJob(l: Limits, actions: seq<Action>, h: Hash)
    requires var s := RunAll(l, Initial(), actions); h in s.db.documents && s.db.documents[h].status == Indexed
    ensures var n := RunAll(l, Initial(), actions).db.documents[h].retries;
      exists k: nat, w: WorkerId, e: nat :: k < |actions|
        && JobRan(After(l, actions, k), actions[k], w, e, ReportIndexed)
        && e < |After(l, actions, k).ingest| && After(l, actions, k).ingest[e] == IngestEvent(h, n)
  {
    OutcomesAreEarned(l, actions, h);
    var s := RunAll(l, Initial(), actions);
    var n := s.db.documents[h].retries;
    var i: nat :| ToldBy(s, i, h, n, ReportIndexed);
    ReportsComeFromJobs(l, actions, i);
    var k: nat, w: WorkerId :| Source(l, actions, k, w, s.status[i].origin, s.status[i].event);
    assert JobRan(After(l, actions, k), actions[k], w, s.status[i].origin, ReportIndexed);
  }
}
