/** Attempts of one document, over whole runs: the store refines a sequential ladder, and
    redelivered reports change nothing. */
module Ladder {
  import opened Domain
  import opened Tables
  import opened TableInvariants
  import opened Counting

  /** The sequential automaton one document goes through. */
  datatype Rung = Trying(attempt: nat) | Finished(attempt: nat, status: DocumentStatus)

  function Climb(l: Limits, r: Rung, report: Report): Rung {
    match r
    case Finished(_, _) => r
    case Trying(n) =>
      match report
      case ReportIndexed => Finished(n, Indexed)
      case ReportFailed(retryable) => if retryable && n + 1 < l.maxAttempts then Trying(n + 1) else Finished(n, Failed)
  }

  function ClimbAll(l: Limits, r: Rung, events: seq<StatusEvent>): Rung
    decreases |events|
  {
    if events == [] then r else ClimbAll(l, Climb(l, r, events[0].report), events[1..])
  }

  /** The rung a document is on; a document not created yet will start at attempt 0. */
  function RungOf(db: Db, h: Hash): Rung {
    if h !in db.documents then Trying(0)
    else if db.documents[h].status == Processing then Trying(db.documents[h].retries)
    else Finished(db.documents[h].retries, db.documents[h].status)
  }

  /** Does this statement change the attempt or the status of document h? */
  predicate Moves(db: Db, s: Stmt, h: Hash) {
    s.SApply? && s.event.hash == h && Current(db, h, s.event.attempts)
  }

  /** The reports that changed document h during a run, in order. */
  function Accepted(l: Limits, db: Db, ss: seq<Stmt>, h: Hash): seq<StatusEvent>
    decreases |ss|
  {
    if ss == [] then []
    else (if Moves(db, ss[0], h) then [ss[0].event] else []) + Accepted(l, Exec(l, db, ss[0]), ss[1..], h)
  }

  /** Consecutive attempts from `start`; all but possibly the last are retryable failures with
      attempts left. */
  ghost predicate Consecutive(l: Limits, start: nat, events: seq<StatusEvent>) {
    && (forall i :: 0 <= i < |events| ==> events[i].attempts == start + i)
    && (forall i :: 0 <= i < |events| - 1 ==>
          events[i].report == ReportFailed(true) && start + i + 1 < l.maxAttempts)
  }

  lemma RungAfterStatement(l: Limits, db: Db, s: Stmt, h: Hash)
    requires Inv(l, db)
    ensures RungOf(Exec(l, db, s), h) == if Moves(db, s, h) then Climb(l, RungOf(db, h), s.event.report)
      else RungOf(db, h)
    ensures Moves(db, s, h) ==> RungOf(db, h) == Trying(s.event.attempts)
  {
    if s.SApply? {
      ApplyTouchesOneDocument(l, db, s.event, s.now, h);
    } else if s.SStart? {
      StartTouchesNoOldDocument(db, s, h);
    } else {
      assert Exec(l, db, s).documents == db.documents;
    }
  }

  lemma ApplyTouchesOneDocument(l: Limits, db: Db, e: StatusEvent, now: Time, h: Hash)
    ensures h in Apply(l, db, e, now).documents <==> h in db.documents
    ensures h in db.documents && !(e.hash == h && Current(db, h, e.attempts)) ==>
      Apply(l, db, e, now).documents[h] == db.documents[h]
  {
  }

  lemma StartTouchesNoOldDocument(db: Db, s: Stmt, h: Hash)
    requires s.SStart?
    ensures var after := StartIngestion(db, s.hash, s.file, s.id, s.w, s.now).0.documents;
      if h in db.documents then h in after && after[h] == db.documents[h]
      else h in after ==> after[h].status == Processing && after[h].retries == 0
  {
  }

  /** One accepted report in front of those that follow it. */
  lemma LadderCons(l: Limits, r: Rung, e: StatusEvent, rest: seq<StatusEvent>)
    requires r == Trying(e.attempts)
    requires var next := Climb(l, r, e.report);
      (next.Trying? ==> Consecutive(l, next.attempt, rest)) && (next.Finished? ==> rest == [])
    ensures ClimbAll(l, r, [e] + rest) == ClimbAll(l, Climb(l, r, e.report), rest)
    ensures Consecutive(l, r.attempt, [e] + rest)
  {
    var events := [e] + rest;
    assert events[1..] == rest;
    forall i | 0 <= i < |events|
      ensures events[i].attempts == r.attempt + i
      ensures i < |events| - 1 ==> events[i].report == ReportFailed(true) && r.attempt + i + 1 < l.maxAttempts
    {
      if i > 0 { assert events[i] == rest[i - 1]; }
    }
  }

  /** Ladder refinement: over any interleaving, the reports that change a document carry
      consecutive attempt numbers, each accepted once; all but the last are retryable failures,
      and the document ends exactly where the sequential automaton ends. */
  lemma {:induction false} StoreRefinesLadder(l: Limits, db: Db, ss: seq<Stmt>, h: Hash)
    requires l.Valid() && Inv(l, db)
    ensures RungOf(ExecAll(l, db, ss), h) == ClimbAll(l, RungOf(db, h), Accepted(l, db, ss, h))
    ensures RungOf(db, h).Trying? ==> Consecutive(l, RungOf(db, h).attempt, Accepted(l, db, ss, h))
    ensures RungOf(db, h).Finished? ==> Accepted(l, db, ss, h) == []
    decreases |ss|
  {
    if ss != [] {
      var next := Exec(l, db, ss[0]);
      ExecKeepsInv(l, db, ss[0]);
      RungAfterStatement(l, db, ss[0], h);
      StoreRefinesLadder(l, next, ss[1..], h);
      hide Exec; hide Inv; hide RungOf; hide Consecutive; hide Climb;
      var rest := Accepted(l, next, ss[1..], h);
      if Moves(db, ss[0], h) {
        hide Moves;
        LadderCons(l, RungOf(db, h), ss[0].event, rest);
      } else {
        hide Moves;
        assert [] + rest == rest;
      }
    }
  }

  /** Attempt numbers are never accepted twice, and there are at most max_attempts of them. */
  lemma AttemptsBounded(l: Limits, db: Db, ss: seq<Stmt>, h: Hash)
    requires l.Valid() && Inv(l, db)
    ensures |Accepted(l, db, ss, h)| <= l.maxAttempts
  {
    StoreRefinesLadder(l, db, ss, h);
    var events := Accepted(l, db, ss, h);
    if h in db.documents { assert DocumentOk(l, db.outbox, h, db.documents[h]); }
    if |events| > 1 {
      assert events[|events| - 2].report == ReportFailed(true);
    }
  }

  // ---- replay

  /** The document has moved past this report. */
  predicate Settled(db: Db, e: StatusEvent) {
    e.hash in db.documents
    && (e.attempts < db.documents[e.hash].retries || db.documents[e.hash].status != Processing)
  }

  /** The report belongs to an attempt the document has already started. */
  predicate Started(db: Db, e: StatusEvent) {
    e.hash in db.documents && e.attempts <= db.documents[e.hash].retries
  }

  lemma HandledIsSettled(l: Limits, db: Db, e: StatusEvent, now: Time)
    requires Started(db, e)
    ensures Settled(Apply(l, db, e, now), e)
  {
  }

  lemma SettledIsNoOp(l: Limits, db: Db, e: StatusEvent, now: Time)
    requires Settled(db, e)
    ensures Apply(l, db, e, now) == db
  {
  }

  lemma SettledStays(a: Db, b: Db, e: StatusEvent)
    requires Settled(a, e) && Evolves(a, b)
    ensures Settled(b, e)
  {
    assert DocumentEvolves(a.documents[e.hash], b.documents[e.hash]);
  }

  /** Every report of the run is handled after its attempt was started. */
  ghost predicate AllStarted(l: Limits, db: Db, ss: seq<Stmt>)
    decreases |ss|
  {
    ss == [] || ((ss[0].SApply? ==> Started(db, ss[0].event)) && AllStarted(l, Exec(l, db, ss[0]), ss[1..]))
  }

  ghost predicate OnlyReplays(again: seq<Stmt>, ss: seq<Stmt>) {
    forall i :: 0 <= i < |again| ==>
      again[i].SApply? && exists j :: 0 <= j < |ss| && ss[j].SApply? && ss[j].event == again[i].event
  }

  lemma SettledAfterRun(l: Limits, db: Db, ss: seq<Stmt>, e: StatusEvent)
    requires l.Valid() && Inv(l, db) && Settled(db, e)
    ensures Settled(ExecAll(l, db, ss), e)
  {
    Conservation(l, db, ss);
    SettledStays(db, ExecAll(l, db, ss), e);
  }

  lemma HandleSettles(l: Limits, db: Db, s: Stmt)
    requires s.SApply? && Started(db, s.event)
    ensures Settled(Exec(l, db, s), s.event)
  {
    HandledIsSettled(l, db, s.event, s.now);
  }

  lemma {:induction false} RunSettlesReports(l: Limits, db: Db, ss: seq<Stmt>, j: nat)
    requires l.Valid() && Inv(l, db) && AllStarted(l, db, ss)
    requires j < |ss| && ss[j].SApply?
    ensures Settled(ExecAll(l, db, ss), ss[j].event)
    decreases |ss|
  {
    ExecKeepsInv(l, db, ss[0]);
    hide Inv; hide Settled; hide Started; hide Exec; hide Evolves;
    if j == 0 {
      HandleSettles(l, db, ss[0]);
      SettledAfterRun(l, Exec(l, db, ss[0]), ss[1..], ss[0].event);
    } else {
      assert ss[1..][j - 1] == ss[j];
      RunSettlesReports(l, Exec(l, db, ss[0]), ss[1..], j - 1);
    }
  }

  lemma {:induction false} SettledReplays(l: Limits, db: Db, again: seq<Stmt>)
    requires forall i :: 0 <= i < |again| ==> again[i].SApply? && Settled(db, again[i].event)
    ensures ExecAll(l, db, again) == db
    decreases |again|
  {
    if again != [] {
      SettledIsNoOp(l, db, again[0].event, again[0].now);
      forall i | 0 <= i < |again[1..]| ensures again[1..][i].SApply? && Settled(db, again[1..][i].event) {
        assert again[1..][i] == again[i + 1];
      }
      SettledReplays(l, db, again[1..]);
    }
  }

  /** Replay safety: after any run, interleaved with anything, in which reports were handled
      after their attempt started, redelivering any sequence drawn from its reports (a full
      replay from ID 0 included) leaves all three tables exactly as they were. */
  lemma ReplayChangesNothing(l: Limits, db: Db, ss: seq<Stmt>, again: seq<Stmt>)
    requires l.Valid() && Inv(l, db) && AllStarted(l, db, ss) && OnlyReplays(again, ss)
    ensures ExecAll(l, ExecAll(l, db, ss), again) == ExecAll(l, db, ss)
  {
    var done := ExecAll(l, db, ss);
    forall i | 0 <= i < |again| ensures again[i].SApply? && Settled(done, again[i].event) {
      var j :| 0 <= j < |ss| && ss[j].SApply? && ss[j].event == again[i].event;
      RunSettlesReports(l, db, ss, j);
    }
    SettledReplays(l, done, again);
  }

  /** Handling e once more, after any later run, never changes the database. */
  ghost predicate ReplayIsNoOp(l: Limits, db: Db, e: StatusEvent) {
    forall ss, later :: Apply(l, ExecAll(l, db, ss), e, later) == ExecAll(l, db, ss)
  }

  /** The report's attempt has been reached, its document is finished, or the attempt can never come. */
  predicate ReplaySafe(l: Limits, db: Db, e: StatusEvent) {
    || Started(db, e)
    || (e.hash in db.documents && db.documents[e.hash].status != Processing)
    || e.attempts >= l.maxAttempts
  }

  lemma SafeReplay(l: Limits, db: Db, e: StatusEvent, now: Time, ss: seq<Stmt>, later: Time)
    requires l.Valid() && Inv(l, db) && ReplaySafe(l, db, e)
    ensures var done := ExecAll(l, Apply(l, db, e, now), ss); Apply(l, done, e, later) == done
  {
    var handled := Apply(l, db, e, now);
    ApplyKeepsInv(l, db, e, now);
    var done := ExecAll(l, handled, ss);
    if e.attempts >= l.maxAttempts {
      Conservation(l, handled, ss);
      if e.hash in done.documents { assert DocumentOk(l, done.outbox, e.hash, done.documents[e.hash]); }
    } else {
      if Started(db, e) { HandledIsSettled(l, db, e, now); }
      SettledAfterRun(l, handled, ss, e);
      SettledIsNoOp(l, done, e, later);
    }
  }

  lemma {:induction false} ExecAppend(l: Limits, db: Db, a: seq<Stmt>, b: seq<Stmt>)
    ensures ExecAll(l, db, a + b) == ExecAll(l, ExecAll(l, db, a), b)
    decreases |a|
  {
    hide Exec;
    if a == [] {
      assert a + b == b;
    } else {
      ExecAppend(l, Exec(l, db, a[0]), a[1..], b);
      assert (a + b)[1..] == a[1..] + b;
    }
  }

  /** An upload of these bytes, from the first request to its document. */
  lemma NewDocument(l: Limits, db: Db, h: Hash, now: Time) returns (ss: seq<Stmt>)
    requires h !in db.documents
    ensures var d := ExecAll(l, db, ss).documents; h in d && d[h].status == Processing && d[h].retries == 0
  {
    var id := FreshNumber(db.intents.Keys);
    var file := FileInfo("", "", 0);
    var created, uploaded := SCreate(id, "", None, now, now + 1), SUploaded(id, now);
    var claimed, started := SHashing(id, 0, now), SStart(h, file, id, 0, now);
    ss := [created, uploaded, claimed, started];
    var db1 := Exec(l, db, created);
    var db2 := Exec(l, db1, uploaded);
    var db3 := Exec(l, db2, claimed);
    var db4 := Exec(l, db3, started);
    assert [started][1..] == [] && ExecAll(l, db3, [started]) == db4;
    assert [claimed, started][1..] == [started] && ExecAll(l, db2, [claimed, started]) == db4;
    assert [uploaded, claimed, started][1..] == [claimed, started]
      && ExecAll(l, db1, [uploaded, claimed, started]) == db4;
    assert ss[1..] == [uploaded, claimed, started];
  }

  /** A report handled too early is handled again when its attempt has come, and changes the document. */
  lemma EarlyReplayChanges(l: Limits, db: Db, e: StatusEvent, now: Time) returns (ss: seq<Stmt>)
    requires l.Valid() && !ReplaySafe(l, db, e)
    ensures var done := ExecAll(l, Apply(l, db, e, now), ss); Apply(l, done, e, now) != done
  {
    var handled := Apply(l, db, e, now);
    assert handled == db;
    var upload := [];
    if e.hash !in db.documents { upload := NewDocument(l, db, e.hash, now); }
    var failures := FailUpTo(l, ExecAll(l, db, upload), e.hash, e.attempts, now);
    ss := upload + failures;
    ExecAppend(l, db, upload, failures);
    HandledIsSettled(l, ExecAll(l, db, ss), e, now);
  }

  /** For one report the guard is exact: once handled, handling it again after any later run is a no-op
      if and only if its attempt had been started, its document was finished, or it can never start. */
  lemma ReplaySafeExactly(l: Limits, db: Db, e: StatusEvent, now: Time)
    requires l.Valid() && Inv(l, db)
    ensures ReplayIsNoOp(l, Apply(l, db, e, now), e) <==> ReplaySafe(l, db, e)
  {
    var handled := Apply(l, db, e, now);
    if ReplaySafe(l, db, e) {
      forall ss, later ensures Apply(l, ExecAll(l, handled, ss), e, later) == ExecAll(l, handled, ss) {
        SafeReplay(l, db, e, now, ss, later);
      }
    } else {
      var ss := EarlyReplayChanges(l, db, e, now);
      hide Apply; hide ExecAll;
      assert Apply(l, ExecAll(l, handled, ss), e, now) != ExecAll(l, handled, ss);
    }
  }

  /** Retryable failures that bring a PROCESSING document to attempt n. */
  lemma FailUpTo(l: Limits, db: Db, h: Hash, n: nat, now: Time) returns (ss: seq<Stmt>)
    requires h in db.documents && db.documents[h].status == Processing
    requires db.documents[h].retries <= n < l.maxAttempts
    ensures Current(ExecAll(l, db, ss), h, n)
    decreases n - db.documents[h].retries
  {
    if db.documents[h].retries == n {
      ss := [];
    } else {
      var s := SApply(StatusEvent(h, db.documents[h].retries, ReportFailed(true)), now);
      var rest := FailUpTo(l, Exec(l, db, s), h, n, now);
      ss := [s] + rest;
      assert ss[1..] == rest;
    }
  }
}
