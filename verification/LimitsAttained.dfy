/** The retry limits are reached, not only kept: runs in which an intent and an outbox row are claimed
    exactly as often as the configuration allows. */
module LimitsAttained {
  import opened Domain
  import opened Tables
  import opened Streams
  import opened System

  lemma {:induction false} RunConcat(l: Limits, s: State, a: seq<Action>, b: seq<Action>)
    ensures RunAll(l, s, a + b) == RunAll(l, RunAll(l, s, a), b)
    decreases |a|
  {
    hide Step;
    if a == [] {
      assert a + b == b;
    } else {
      RunConcat(l, Step(l, s, a[0]), a[1..], b);
      assert (a + b)[1..] == a[1..] + b;
    }
  }

  lemma RunTwo(l: Limits, s: State, a: Action, b: Action)
    ensures RunAll(l, s, [a, b]) == Step(l, Step(l, s, a), b)
  {
    hide Step;
    assert [a, b][1..] == [b] && [b][1..] == [];
    assert RunAll(l, Step(l, s, a), [b]) == RunAll(l, Step(l, Step(l, s, a), b), []);
  }

  // ---- outbox rows

  /** One claim of a row whose publish fails, so that the claim is given back. */
  function FailedPublish(w: WorkerId, row: nat): seq<Action> {
    [RelayBy(w, RClaim(row, 0, Done)), RelayBy(w, RReadDocument(true)), RelayBy(w, RPublish(ErrorNotApplied)),
     RelayBy(w, RRelease(Done))]
  }

  function FailedPublishes(w: WorkerId, row: nat, n: nat): seq<Action> {
    if n == 0 then [] else FailedPublish(w, row) + FailedPublishes(w, row, n - 1)
  }

  /** The row can be claimed by an idle relay, and its document can be read. */
  predicate Claimable(s: State, w: WorkerId, row: nat) {
    && s.Relay(w).RIdle? && row in s.db.outbox && s.db.outbox[row].status == Pending
    && s.db.outbox[row].hash in s.db.documents
  }

  /** Everything a failing relay leaves as it was. */
  predicate SameOutside(s: State, t: State) {
    && t.consumers == s.consumers && t.appliers == s.appliers && t.ig == s.ig && t.sg == s.sg
    && t.ingest == s.ingest && t.status == s.status && t.runs == s.runs && t.db.documents == s.db.documents
      && t.db.nextId == s.db.nextId
  }

  /** The relay has read the document under the newest claim of the row. */
  predicate Read(s: State, w: WorkerId, row: nat) {
    && s.Relay(w).RRead? && s.Relay(w).row == row && OwnsRow(s.db, row, w)
    && s.db.outbox[row].hash in s.db.documents
  }

  lemma ReadyToPublish(l: Limits, s: State, w: WorkerId, row: nat)
    requires Claimable(s, w, row)
    ensures var t := Step(l, Step(l, s, RelayBy(w, RClaim(row, 0, Done))), RelayBy(w, RReadDocument(true)));
      && Read(t, w, row) && SameOutside(s, t) && t.sends == s.sends
      && t.db.outbox[row].hash == s.db.outbox[row].hash && t.db.outbox[row].retries == s.db.outbox[row].retries
      && Count(t.rowClaims, row) == Count(s.rowClaims, row) + 1
  {
    var t := Step(l, s, RelayBy(w, RClaim(row, 0, Done)));
    assert t.Relay(w) == RClaimed(row, Count(s.rowClaims, row) + 1) && OwnsRow(t.db, row, w);
    hide Sql;
  }

  lemma PublishGivenBack(l: Limits, s: State, w: WorkerId, row: nat)
    requires Read(s, w, row)
    ensures var r := s.db.outbox[row];
      var t := Step(l, Step(l, s, RelayBy(w, RPublish(ErrorNotApplied))), RelayBy(w, RRelease(Done)));
      && t.Relay(w).RIdle? && SameOutside(s, t) && |t.sends| == |s.sends| + 1
      && row in t.db.outbox && t.db.outbox[row].hash == r.hash && t.db.outbox[row].retries == r.retries + 1
      && t.db.outbox[row].status == (if r.retries + 1 < l.outboxRetries then Pending else Blocked)
      && t.rowClaims == s.rowClaims
  {
    var t := Step(l, s, RelayBy(w, RPublish(ErrorNotApplied)));
    assert t.Relay(w).RReleasing? && t.Relay(w).row == row && t.db == s.db;
  }

  lemma OneFailedPublish(l: Limits, s: State, w: WorkerId, row: nat)
    requires Claimable(s, w, row)
    ensures var t, r := RunAll(l, s, FailedPublish(w, row)), s.db.outbox[row];
      && t.Relay(w).RIdle? && SameOutside(s, t) && |t.sends| == |s.sends| + 1
      && row in t.db.outbox && t.db.outbox[row].hash == r.hash && t.db.outbox[row].retries == r.retries + 1
      && t.db.outbox[row].status == (if r.retries + 1 < l.outboxRetries then Pending else Blocked)
      && Count(t.rowClaims, row) == Count(s.rowClaims, row) + 1
  {
    var claim, read := RelayBy(w, RClaim(row, 0, Done)), RelayBy(w, RReadDocument(true));
    var publish, release := RelayBy(w, RPublish(ErrorNotApplied)), RelayBy(w, RRelease(Done));
    ReadyToPublish(l, s, w, row);
    var t := Step(l, Step(l, s, claim), read);
    PublishGivenBack(l, t, w, row);
    hide Step;
    RunTwo(l, s, claim, read);
    RunTwo(l, t, publish, release);
    RunConcat(l, s, [claim, read], [publish, release]);
    assert FailedPublish(w, row) == [claim, read] + [publish, release];
  }

  lemma {:induction false} PublishesFail(l: Limits, s: State, w: WorkerId, row: nat, n: nat)
    requires Claimable(s, w, row) && s.db.outbox[row].retries + n <= l.outboxRetries
    requires s.db.outbox[row].retries < l.outboxRetries
    ensures var t, r := RunAll(l, s, FailedPublishes(w, row, n)), s.db.outbox[row];
      && t.Relay(w).RIdle? && SameOutside(s, t) && |t.sends| == |s.sends| + n
      && Count(t.rowClaims, row) == Count(s.rowClaims, row) + n
      && row in t.db.outbox && t.db.outbox[row].hash == r.hash && t.db.outbox[row].retries == r.retries + n
      && t.db.outbox[row].status == (if r.retries + n < l.outboxRetries then Pending else Blocked)
    decreases n
  {
    hide Step;
    if n > 0 {
      OneFailedPublish(l, s, w, row);
      var t := RunAll(l, s, FailedPublish(w, row));
      RunConcat(l, s, FailedPublish(w, row), FailedPublishes(w, row, n - 1));
      if n > 1 {
        PublishesFail(l, t, w, row, n - 1);
      } else {
        assert FailedPublish(w, row) + [] == FailedPublish(w, row);
      }
    }
  }

  // ---- intents

  function FailedHashing(w: WorkerId, id: IntentId): seq<Action> {
    [HashBy(w, HClaim(id, 0, Done)), HashBy(w, HRelease(Done))]
  }

  function FailedHashings(w: WorkerId, id: IntentId, n: nat): seq<Action> {
    if n == 0 then [] else FailedHashing(w, id) + FailedHashings(w, id, n - 1)
  }

  predicate Hashable(s: State, w: WorkerId, id: IntentId) {
    s.Hasher(w).HIdle? && id in s.db.intents && s.db.intents[id].status == Uploaded
  }

  lemma OneFailedHashing(l: Limits, s: State, w: WorkerId, id: IntentId)
    requires Hashable(s, w, id)
    ensures var t, i := RunAll(l, s, FailedHashing(w, id)), s.db.intents[id];
      && t.Hasher(w).HIdle? && id in t.db.intents && t.db.intents[id].retries == i.retries + 1
      && t.db.intents[id].status == (if i.retries + 1 < l.hashRetries then Uploaded else IntentFailed)
      && Count(t.intentClaims, id) == Count(s.intentClaims, id) + 1
  {
    var acts := FailedHashing(w, id);
    var s1 := Step(l, s, acts[0]);
    var s2 := Step(l, s1, acts[1]);
    RunTwo(l, s, acts[0], acts[1]);
    assert s1.Hasher(w) == HWorking(id, Count(s.intentClaims, id) + 1) && OwnsIntent(s1.db, id, w);
  }

  lemma {:induction false} HashingsFail(l: Limits, s: State, w: WorkerId, id: IntentId, n: nat)
    requires Hashable(s, w, id) && 0 < n && s.db.intents[id].retries + n <= l.hashRetries
    ensures var t, i := RunAll(l, s, FailedHashings(w, id, n)), s.db.intents[id];
      && Count(t.intentClaims, id) == Count(s.intentClaims, id) + n
      && id in t.db.intents && t.db.intents[id].retries == i.retries + n
      && t.db.intents[id].status == (if i.retries + n < l.hashRetries then Uploaded else IntentFailed)
    decreases n
  {
    hide Step;
    OneFailedHashing(l, s, w, id);
    var t := RunAll(l, s, FailedHashing(w, id));
    RunConcat(l, s, FailedHashing(w, id), FailedHashings(w, id, n - 1));
    if n > 1 { HashingsFail(l, t, w, id, n - 1); }
  }

  // ---- whole attempts

  /** The newest row waits for the relay with attempt n of the document; everybody is idle, and both
      streams are read to their ends. */
  predicate Waits(s: State, w: WorkerId, h: Hash, n: nat) {
    && Quiet(s, w) && s.db.nextId > 0 && Claimable(s, w, s.db.nextId - 1)
    && s.db.outbox[s.db.nextId - 1].hash == h && s.db.outbox[s.db.nextId - 1].retries == 0
    && s.db.documents[h].status == Processing && s.db.documents[h].retries == n
  }

  predicate Quiet(s: State, w: WorkerId) {
    && s.Consumer(w).CIdle? && s.Applier(w).AIdle? && s.ig.alive && s.sg.alive
    && s.ig.delivered == |s.ingest| && s.sg.delivered == |s.status|
  }

  function Delivering(w: WorkerId, row: nat): seq<Action> {
    [RelayBy(w, RClaim(row, 0, Done)), RelayBy(w, RReadDocument(true))]
    + [RelayBy(w, RPublish(Done)), RelayBy(w, RMark(Done))]
  }

  function Consuming(w: WorkerId, report: Report): seq<Action> {
    [ConsumeBy(w, CRead(0, Done)), ConsumeBy(w, CRun(report))] +
      [ConsumeBy(w, CPublish(Done)), ConsumeBy(w, CAck(Done))]
  }

  function Applying(w: WorkerId, t: nat): seq<Action> {
    [ApplyBy(w, ARead(1, 0, Done)), ApplyBy(w, AHandle(t, 0, Done))] + [ApplyBy(w, AAck(t, Done))]
  }

  lemma Published(l: Limits, s: State, w: WorkerId, row: nat)
    requires Read(s, w, row)
    ensures var t := Step(l, Step(l, s, RelayBy(w, RPublish(Done))), RelayBy(w, RMark(Done)));
      && t.Relay(w).RIdle? && t.ingest == s.ingest + [s.Relay(w).event] && |t.sends| == |s.sends| + 1
      && t.consumers == s.consumers && t.appliers == s.appliers && t.ig == s.ig && t.sg == s.sg && t.runs == s.runs
      && t.status == s.status && t.db.documents == s.db.documents && t.db.nextId == s.db.nextId
  {
    var t := Step(l, s, RelayBy(w, RPublish(Done)));
    assert t.Relay(w).RSent? && t.Relay(w).row == row && t.db == s.db;
  }

  lemma Delivers(l: Limits, s: State, w: WorkerId, row: nat)
    requires Claimable(s, w, row)
    ensures var t := RunAll(l, s, Delivering(w, row));
      && t.Relay(w).RIdle? && |t.ingest| == |s.ingest| + 1 && |t.sends| == |s.sends| + 1
      && t.ingest[|s.ingest|] == IngestEvent(s.db.outbox[row].hash, s.db.documents[s.db.outbox[row].hash].retries)
      && t.consumers == s.consumers && t.appliers == s.appliers && t.ig == s.ig && t.sg == s.sg && t.runs == s.runs
      && t.status == s.status && t.db.documents == s.db.documents && t.db.nextId == s.db.nextId
  {
    var claim, read := RelayBy(w, RClaim(row, 0, Done)), RelayBy(w, RReadDocument(true));
    ReadyToPublish(l, s, w, row);
    var t := Step(l, Step(l, s, claim), read);
    Published(l, t, w, row);
    hide Step;
    RunTwo(l, s, claim, read);
    RunTwo(l, t, RelayBy(w, RPublish(Done)), RelayBy(w, RMark(Done)));
    RunConcat(l, s, [claim, read], [RelayBy(w, RPublish(Done)), RelayBy(w, RMark(Done))]);
  }

  lemma JobRuns(l: Limits, s: State, w: WorkerId, report: Report)
    requires s.Consumer(w).CIdle? && s.ig.alive && s.ig.delivered < |s.ingest|
    ensures var e := s.ig.delivered;
      var t := Step(l, Step(l, s, ConsumeBy(w, CRead(0, Done))), ConsumeBy(w, CRun(report)));
      && t.Consumer(w) == CReporting(e, StatusEvent(s.ingest[e].hash, s.ingest[e].attempts, report))
      && t.ig.alive && t.ig.delivered == e + 1
      && t == s.(ig := t.ig, consumers := t.consumers, runs := t.runs)
  {
    var t := Step(l, s, ConsumeBy(w, CRead(0, Done)));
    assert t.Consumer(w).CGot?;
  }

  lemma Reports(l: Limits, s: State, w: WorkerId)
    requires s.Consumer(w).CReporting?
    ensures var t := Step(l, Step(l, s, ConsumeBy(w, CPublish(Done))), ConsumeBy(w, CAck(Done)));
      && t.Consumer(w).CIdle? && t.status == s.status + [StatusEntry(s.Consumer(w).event, s.Consumer(w).entry)]
      && t.ig.alive == s.ig.alive && t.ig.delivered == s.ig.delivered
      && t == s.(ig := t.ig, consumers := t.consumers, status := t.status, reported := t.reported)
  {
    var t := Step(l, s, ConsumeBy(w, CPublish(Done)));
    assert t.Consumer(w).CAcking?;
  }

  lemma Consumes(l: Limits, s: State, w: WorkerId, report: Report)
    requires s.Consumer(w).CIdle? && s.ig.alive && s.ig.delivered + 1 == |s.ingest|
    ensures var t, e := RunAll(l, s, Consuming(w, report)), s.ig.delivered;
      && t.Consumer(w).CIdle? && |t.status| == |s.status| + 1
      && t.status[|s.status|].event == StatusEvent(s.ingest[e].hash, s.ingest[e].attempts, report)
      && t.ig.alive && t.ig.delivered == |s.ingest|
      && t == s.(ig := t.ig, consumers := t.consumers, status := t.status, reported := t.reported, runs := t.runs)
  {
    var read, run := ConsumeBy(w, CRead(0, Done)), ConsumeBy(w, CRun(report));
    JobRuns(l, s, w, report);
    var t := Step(l, Step(l, s, read), run);
    Reports(l, t, w);
    hide Step;
    RunTwo(l, s, read, run);
    RunTwo(l, t, ConsumeBy(w, CPublish(Done)), ConsumeBy(w, CAck(Done)));
    RunConcat(l, s, [read, run], [ConsumeBy(w, CPublish(Done)), ConsumeBy(w, CAck(Done))]);
  }

  lemma Reads(l: Limits, s: State, w: WorkerId)
    requires s.Applier(w).AIdle? && s.sg.alive && s.sg.delivered + 1 == |s.status|
    ensures var t := Step(l, s, ApplyBy(w, ARead(1, 0, Done)));
      && t.Applier(w) == AWorking([s.sg.delivered], false, false) && t.sg.alive && t.sg.delivered == |s.status|
      && t == s.(sg := t.sg, appliers := t.appliers)
  {
    assert seq(1, i requires 0 <= i => s.sg.delivered + i) == [s.sg.delivered];
  }

  lemma HandlesAndAcks(l: Limits, s: State, w: WorkerId, i: nat)
    requires i < |s.status| && s.Applier(w) == AWorking([i], false, false)
    ensures var t := Step(l, Step(l, s, ApplyBy(w, AHandle(i, 0, Done))), ApplyBy(w, AAck(i, Done)));
      && t.Applier(w).AIdle? && t.db == Apply(l, s.db, s.status[i].event, 0) && t.status == s.status
      && t.sg.alive == s.sg.alive && t.sg.delivered == s.sg.delivered && t.relays == s.relays
      && t.consumers == s.consumers && t.ig == s.ig && t.ingest == s.ingest && t.sends == s.sends
  {
    hide Apply; hide BornAfter; hide LatestAfter;
    var t := Step(l, s, ApplyBy(w, AHandle(i, 0, Done)));
    assert t.Applier(w) == AAcking([i], false);
  }

  lemma Applies(l: Limits, s: State, w: WorkerId)
    requires s.Applier(w).AIdle? && s.sg.alive && s.sg.delivered + 1 == |s.status|
    ensures var t, i := RunAll(l, s, Applying(w, s.sg.delivered)), s.sg.delivered;
      && t.Applier(w).AIdle? && t.db == Apply(l, s.db, s.status[i].event, 0) && t.status == s.status
      && t.sg.alive && t.sg.delivered == |s.status| && t.relays == s.relays
      && t.consumers == s.consumers && t.ig == s.ig && t.ingest == s.ingest && t.sends == s.sends
  {
    var i := s.sg.delivered;
    var read, handle, ack := ApplyBy(w, ARead(1, 0, Done)), ApplyBy(w, AHandle(i, 0, Done)), ApplyBy(w, AAck(i, Done));
    Reads(l, s, w);
    var t := Step(l, s, read);
    HandlesAndAcks(l, t, w, i);
    hide Step; hide Apply;
    RunTwo(l, s, read, handle);
    RunConcat(l, s, [read, handle], [ack]);
    assert RunAll(l, Step(l, t, handle), [ack]) == Step(l, Step(l, t, handle), ack) by {
      RunAppendOne(l, Step(l, t, handle), ack);
    }
  }

  lemma RunAppendOne(l: Limits, s: State, a: Action)
    ensures RunAll(l, s, [a]) == Step(l, s, a)
  {
    hide Step;
    assert [a][1..] == [];
  }

  /** One whole attempt in which every publish but the last fails and the job ends with `report`. */
  function Attempt(w: WorkerId, row: nat, t: nat, failures: nat, report: Report): seq<Action> {
    FailedPublishes(w, row, failures) + (Delivering(w, row) + (Consuming(w, report) + Applying(w, t)))
  }

  lemma AppliedAttempt(l: Limits, s: State, w: WorkerId, h: Hash, n: nat, report: Report, t: State)
    requires h in s.db.documents && s.db.documents[h].status == Processing && s.db.documents[h].retries == n
    requires t.db == Apply(l, s.db, StatusEvent(h, n, report), 0) && Quiet(t, w) && t.Relay(w).RIdle?
    ensures Ends(l, t, w, h, n, report)
    ensures Waits(t, w, h, n + 1) ==> t.db.nextId == s.db.nextId + 1
  {
  }

  /** What the attempt leaves: a finished document, or the next attempt waiting. */
  predicate Ends(l: Limits, t: State, w: WorkerId, h: Hash, n: nat, report: Report) {
    && h in t.db.documents
    && match report
       case ReportIndexed => t.db.documents[h].status == Indexed && t.db.documents[h].retries == n
       case ReportFailed(retryable) =>
         if retryable && n + 1 < l.maxAttempts then Waits(t, w, h, n + 1)
         else t.db.documents[h].status == Failed && t.db.documents[h].retries == n
  }

  lemma OneAttempt(l: Limits, s: State, w: WorkerId, h: Hash, n: nat, report: Report)
    requires l.Valid() && Waits(s, w, h, n)
    ensures var t := RunAll(l, s, Attempt(w, s.db.nextId - 1, |s.status|, l.outboxRetries - 1, report));
      && Ends(l, t, w, h, n, report) && |t.sends| == |s.sends| + l.outboxRetries && |t.status| == |s.status| + 1
      && (Waits(t, w, h, n + 1) ==> t.db.nextId == s.db.nextId + 1)
  {
    hide Step;
    var row, tries := s.db.nextId - 1, l.outboxRetries - 1;
    PublishesFail(l, s, w, row, tries);
    var s1 := RunAll(l, s, FailedPublishes(w, row, tries));
    Delivers(l, s1, w, row);
    var s2 := RunAll(l, s1, Delivering(w, row));
    Consumes(l, s2, w, report);
    var s3 := RunAll(l, s2, Consuming(w, report));
    Applies(l, s3, w);
    var s4 := RunAll(l, s3, Applying(w, |s.status|));
    RunConcat(l, s2, Consuming(w, report), Applying(w, |s.status|));
    RunConcat(l, s1, Delivering(w, row), Consuming(w, report) + Applying(w, |s.status|));
    RunConcat(l, s, FailedPublishes(w, row, tries),
      Delivering(w, row) + (Consuming(w, report) + Applying(w, |s.status|)));
    hide RunAll; hide Apply;
    AppliedAttempt(l, s3, w, h, n, report, s4);
  }

  function RetriedAttempts(l: Limits, w: WorkerId, row: nat, t: nat, k: nat): seq<Action>
    requires l.Valid()
    decreases k
  {
    if k == 0 then []
    else Attempt(w, row, t, l.outboxRetries - 1, ReportFailed(true)) + RetriedAttempts(l, w, row + 1, t + 1, k - 1)
  }

  /** k attempts in a row that fail, each after as many publish calls as the limit allows. */
  lemma {:induction false} AttemptsFail(l: Limits, s: State, w: WorkerId, h: Hash, n: nat, k: nat)
    requires l.Valid() && Waits(s, w, h, n) && 0 < k && n + k == l.maxAttempts
    ensures var t := RunAll(l, s, RetriedAttempts(l, w, s.db.nextId - 1, |s.status|, k));
      && |t.sends| == |s.sends| + k * l.outboxRetries && h in t.db.documents
      && t.db.documents[h].status == Failed && t.db.documents[h].retries == l.maxAttempts - 1
    decreases k
  {
    hide Step; hide Attempt;
    var row, t := s.db.nextId - 1, |s.status|;
    var first := Attempt(w, row, t, l.outboxRetries - 1, ReportFailed(true));
    OneAttempt(l, s, w, h, n, ReportFailed(true));
    var s1 := RunAll(l, s, first);
    RunConcat(l, s, first, RetriedAttempts(l, w, row + 1, t + 1, k - 1));
    if k > 1 {
      AttemptsFail(l, s1, w, h, n + 1, k - 1);
      assert (k - 1) * l.outboxRetries + l.outboxRetries == k * l.outboxRetries;
    }
  }

  // ---- from the first state on

  function Uploading(id: IntentId): seq<Action> {
    [Center(SCreate(id, "report.pdf", Some("temp"), 0, 7200), Done), Center(SUploaded(id, 0), Done)]
  }

  function Recording(w: WorkerId, id: IntentId, h: Hash): seq<Action> {
    [HashBy(w, HClaim(id, 0, Done)), HashBy(w, HStart(h, FileInfo("perm", "report.pdf", 1), 0, Done))]
  }

  lemma Uploads(l: Limits, w: WorkerId, id: IntentId)
    ensures var s := RunAll(l, Initial(), Uploading(id));
      Hashable(s, w, id) && s.db.intents[id].retries == 0 && s.intentClaims == map[]
      && s == Initial().(db := s.db) && s.db.documents == map[] && s.db.outbox == map[] && s.db.nextId == 0
  {
    var acts := Uploading(id);
    var s1 := Step(l, Initial(), acts[0]);
    var s2 := Step(l, s1, acts[1]);
    RunTwo(l, Initial(), acts[0], acts[1]);
  }

  lemma ClaimsIntent(l: Limits, s: State, w: WorkerId, id: IntentId)
    requires Hashable(s, w, id)
    ensures var t := Step(l, s, HashBy(w, HClaim(id, 0, Done)));
      && t.Hasher(w).HWorking? && t.Hasher(w).id == id && OwnsIntent(t.db, id, w) && t.rowClaims == s.rowClaims
      && t == s.(db := s.db.(intents := t.db.intents), hashers := t.hashers, intentClaims := t.intentClaims)
  {
  }

  lemma Records(l: Limits, w: WorkerId, id: IntentId, h: Hash)
    ensures var s := RunAll(l, Initial(), Uploading(id) + Recording(w, id, h));
      && Claimable(s, w, 0) && s.db.outbox[0].hash == h && s.db.outbox[0].retries == 0 && s.db.nextId == 1
      && s.db.documents[h].status == Processing && s.db.documents[h].retries == 0
      && s == Initial().(db := s.db, hashers := s.hashers, intentClaims := s.intentClaims, born := s.born,
                         latest := s.latest)
  {
    Uploads(l, w, id);
    RunConcat(l, Initial(), Uploading(id), Recording(w, id, h));
    var acts, s := Recording(w, id, h), RunAll(l, Initial(), Uploading(id));
    ClaimsIntent(l, s, w, id);
    var s1 := Step(l, s, acts[0]);
    RunTwo(l, s, acts[0], acts[1]);
    hide RunAll; hide ToHashing;
  }

  /** A run of the whole system that claims one outbox row, and calls publish under it, exactly
      max_retries times; only then is the row BLOCKED. */
  lemma RowClaimsAttained(l: Limits, w: WorkerId, id: IntentId, h: Hash)
    requires l.Valid()
    ensures var s := RunAll(l, Initial(), Uploading(id) + Recording(w, id, h) + FailedPublishes(w, 0, l.outboxRetries));
      Count(s.rowClaims, 0) == |s.sends| == l.outboxRetries && 0 in s.db.outbox && s.db.outbox[0].status == Blocked
  {
    Records(l, w, id, h);
    hide Step;
    var start := Uploading(id) + Recording(w, id, h);
    RunConcat(l, Initial(), start, FailedPublishes(w, 0, l.outboxRetries));
    PublishesFail(l, RunAll(l, Initial(), start), w, 0, l.outboxRetries);
  }

  /** A run of the whole system that claims one intent exactly max_retries times; only then is it FAILED. */
  lemma IntentClaimsAttained(l: Limits, w: WorkerId, id: IntentId)
    requires l.Valid()
    ensures var s := RunAll(l, Initial(), Uploading(id) + FailedHashings(w, id, l.hashRetries));
      Count(s.intentClaims, id) == l.hashRetries && id in s.db.intents && s.db.intents[id].status == IntentFailed
  {
    Uploads(l, w, id);
    hide Step;
    RunConcat(l, Initial(), Uploading(id), FailedHashings(w, id, l.hashRetries));
    HashingsFail(l, RunAll(l, Initial(), Uploading(id)), w, id, l.hashRetries);
  }

  function Upload(w: WorkerId, id: IntentId, h: Hash): seq<Action> {
    Uploading(id) + Recording(w, id, h) + [IngestGroup(Created), StatusGroup(Created)]
  }

  lemma UploadWaits(l: Limits, w: WorkerId, id: IntentId, h: Hash)
    ensures var s := RunAll(l, Initial(), Upload(w, id, h));
      && Waits(s, w, h, 0) && s.sends == [] && s.status == [] && s.db.nextId == 1
      && s.ingest == [] && s.runs == [] && s.ig == Group(true, 0, 0, map[])
  {
    Records(l, w, id, h);
    var start := Uploading(id) + Recording(w, id, h);
    RunConcat(l, Initial(), start, [IngestGroup(Created), StatusGroup(Created)]);
    RunTwo(l, RunAll(l, Initial(), start), IngestGroup(Created), StatusGroup(Created));
    hide RunAll;
  }

  /** A run of the whole system in which a document uses up all its attempts: its event is published
      exactly max_retries times max_attempts times, and then it is FAILED. */
  lemma PublishCallsAttained(l: Limits, w: WorkerId, id: IntentId, h: Hash)
    requires l.Valid()
    ensures var s := RunAll(l, Initial(), Upload(w, id, h) + RetriedAttempts(l, w, 0, 0, l.maxAttempts));
      && |s.sends| == l.maxAttempts * l.outboxRetries && h in s.db.documents
      && s.db.documents[h].status == Failed && s.db.documents[h].retries == l.maxAttempts - 1
  {
    UploadWaits(l, w, id, h);
    hide Step;
    RunConcat(l, Initial(), Upload(w, id, h), RetriedAttempts(l, w, 0, 0, l.maxAttempts));
    AttemptsFail(l, RunAll(l, Initial(), Upload(w, id, h)), w, h, 0, l.maxAttempts);
  }

  /** A run of the whole system from the upload to INDEXED. */
  lemma UploadIsIndexed(l: Limits, w: WorkerId, id: IntentId, h: Hash)
    requires l.Valid()
    ensures var s := RunAll(l, Initial(), Upload(w, id, h) + Attempt(w, 0, 0, l.outboxRetries - 1, ReportIndexed));
      h in s.db.documents && s.db.documents[h].status == Indexed && s.db.documents[h].retries == 0
  {
    UploadWaits(l, w, id, h);
    hide Step;
    RunConcat(l, Initial(), Upload(w, id, h), Attempt(w, 0, 0, l.outboxRetries - 1, ReportIndexed));
    OneAttempt(l, RunAll(l, Initial(), Upload(w, id, h)), w, h, 0, ReportIndexed);
  }

  // ---- job runs

  /** The entry was left pending after its `deliveries`-th delivery. */
  predicate LeftPending(s: State, w: WorkerId, e: nat, deliveries: nat, time: Time) {
    && s.Consumer(w).CIdle? && s.ig.alive && e < |s.ingest| && e in s.ig.pending
    && s.ig.pending[e].deliveries == deliveries && s.ig.pending[e].deliveredAt == time
  }

  function FirstRun(w: WorkerId): seq<Action> {
    [ConsumeBy(w, CRead(0, Done)), ConsumeBy(w, CRun(ReportIndexed))] + [ConsumeBy(w, CAbandon)]
  }

  function Takeover(w: WorkerId, e: nat, now: Time): seq<Action> {
    [ConsumeBy(w, CClaim(e, now, Done)), ConsumeBy(w, CLookup(true))]
  }

  function Reruns(l: Limits, w: WorkerId, e: nat, time: Time, k: nat): seq<Action>
    decreases k
  {
    if k == 0 then []
    else
      (Takeover(w, e, time + l.minIdle) + [ConsumeBy(w, CRun(ReportIndexed)), ConsumeBy(w, CAbandon)])
      + Reruns(l, w, e, time + l.minIdle, k - 1)
  }

  lemma RunsFirst(l: Limits, s: State, w: WorkerId)
    requires s.Consumer(w).CIdle? && s.ig.alive && s.ig.delivered < |s.ingest|
    ensures var t, e := RunAll(l, s, FirstRun(w)), s.ig.delivered;
      && LeftPending(t, w, e, 1, 0) && t.runs == s.runs + [Run(e, s.ig.lifetime, 1)] && t.ingest == s.ingest
      && t.ig.lifetime == s.ig.lifetime
  {
    var read, run := ConsumeBy(w, CRead(0, Done)), ConsumeBy(w, CRun(ReportIndexed));
    JobRuns(l, s, w, ReportIndexed);
    var s1 := Step(l, s, read);
    assert s1.Consumer(w) == CGot(s.ig.delivered, s.ig.lifetime, 1);
    var s2 := Step(l, s1, run);
    RunTwo(l, s, read, run);
    RunConcat(l, s, [read, run], [ConsumeBy(w, CAbandon)]);
    RunAppendOne(l, s2, ConsumeBy(w, CAbandon));
    hide RunAll;
  }

  /** A takeover counts a delivery, and the count decides between the job and the permanent failure. */
  lemma TakesOver(l: Limits, s: State, w: WorkerId, e: nat, d: nat, time: Time)
    requires LeftPending(s, w, e, d, time)
    ensures var t := RunAll(l, s, Takeover(w, e, time + l.minIdle));
      && t.runs == s.runs && t.ingest == s.ingest && t.ig.alive && t.ig.lifetime == s.ig.lifetime
      && e in t.ig.pending && t.ig.pending[e].deliveries == d + 1 && t.ig.pending[e].deliveredAt == time + l.minIdle
      && t.Consumer(w) ==
           if d + 1 > l.poisonThreshold then
             CReporting(e, StatusEvent(s.ingest[e].hash, s.ingest[e].attempts, ReportFailed(false)))
           else CGot(e, s.ig.lifetime, d + 1)
  {
    var claim, lookup := ConsumeBy(w, CClaim(e, time + l.minIdle, Done)), ConsumeBy(w, CLookup(true));
    RunTwo(l, s, claim, lookup);
    var s1 := Step(l, s, claim);
    assert s1.Consumer(w) == CClaimed(e, s.ig.lifetime, d + 1) && s1.ig.pending[e].owner == w;
    hide RunAll;
  }

  lemma RunsAndDies(l: Limits, s: State, w: WorkerId)
    requires s.Consumer(w).CGot? && s.Consumer(w).entry < |s.ingest|
    ensures var pc := s.Consumer(w);
      var t := RunAll(l, s, [ConsumeBy(w, CRun(ReportIndexed)), ConsumeBy(w, CAbandon)]);
      && t.Consumer(w).CIdle? && t.ig == s.ig && t.ingest == s.ingest
      && t.runs == s.runs + [Run(pc.entry, pc.lifetime, pc.delivery)]
  {
    RunTwo(l, s, ConsumeBy(w, CRun(ReportIndexed)), ConsumeBy(w, CAbandon));
    hide RunAll;
  }

  lemma {:induction false} RunsAgain(l: Limits, s: State, w: WorkerId, e: nat, d: nat, time: Time, k: nat)
    requires LeftPending(s, w, e, d, time) && d + k <= l.poisonThreshold
    ensures var t := RunAll(l, s, Reruns(l, w, e, time, k));
      && LeftPending(t, w, e, d + k, time + k * l.minIdle) && t.ingest == s.ingest
      && t.runs == s.runs + seq(k, i requires 0 <= i => Run(e, s.ig.lifetime, d + 1 + i))
    decreases k
  {
    hide Step;
    if k > 0 {
      var now := time + l.minIdle;
      TakesOver(l, s, w, e, d, time);
      var s1 := RunAll(l, s, Takeover(w, e, now));
      RunsAndDies(l, s1, w);
      var dies := [ConsumeBy(w, CRun(ReportIndexed)), ConsumeBy(w, CAbandon)];
      var s2 := RunAll(l, s1, dies);
      RunConcat(l, s, Takeover(w, e, now), dies);
      RunConcat(l, s, Takeover(w, e, now) + dies, Reruns(l, w, e, now, k - 1));
      RunsAgain(l, s2, w, e, d + 1, now, k - 1);
      assert now + (k - 1) * l.minIdle == time + k * l.minIdle;
    }
  }

  /** A run of the whole system in which the job of one entry dies poison_threshold times in one lifetime of
      the group; the takeover after that reports the permanent failure and runs no job. */
  lemma JobRunsAttained(l: Limits, w: WorkerId, id: IntentId, h: Hash)
    requires l.Valid()
    ensures var s := RunAll(l, Initial(), (Upload(w, id, h) + Delivering(w, 0)) + FirstRun(w)
        + Reruns(l, w, 0, 0, l.poisonThreshold - 1) + Takeover(w, 0, l.poisonThreshold * l.minIdle));
      && s.runs == seq(l.poisonThreshold, i requires 0 <= i => Run(0, 0, 1 + i))
      && s.Consumer(w) == CReporting(0, StatusEvent(h, 0, ReportFailed(false)))
  {
    hide Step;
    UploadWaits(l, w, id, h);
    var s0 := RunAll(l, Initial(), Upload(w, id, h));
    Delivers(l, s0, w, 0);
    var s1 := RunAll(l, s0, Delivering(w, 0));
    RunsFirst(l, s1, w);
    var s2 := RunAll(l, s1, FirstRun(w));
    var k := l.poisonThreshold - 1;
    RunsAgain(l, s2, w, 0, 1, 0, k);
    var s3 := RunAll(l, s2, Reruns(l, w, 0, 0, k));
    TakesOver(l, s3, w, 0, l.poisonThreshold, k * l.minIdle);
    assert k * l.minIdle + l.minIdle == l.poisonThreshold * l.minIdle;
    RunConcat(l, Initial(), Upload(w, id, h), Delivering(w, 0));
    var start := Upload(w, id, h) + Delivering(w, 0);
    RunConcat(l, Initial(), start, FirstRun(w));
    RunConcat(l, Initial(), start + FirstRun(w), Reruns(l, w, 0, 0, k));
    RunConcat(l, Initial(), start + FirstRun(w) + Reruns(l, w, 0, 0, k), Takeover(w, 0, l.poisonThreshold * l.minIdle));
  }
}
