/** What the invariant means: nothing is lost, nothing is applied twice, and every attempt has
    exactly one outbox row. */
module Custody {
  import opened Domain
  import opened Tables
  import opened TableInvariants
  import opened System
  import opened CustodyInvariant
  import opened Counting

  // ---- custody

  predicate WaitingRow(s: State, h: Hash, n: nat, id: nat) {
    id in s.db.outbox && s.db.outbox[id].hash == h && s.db.outbox[id].status != Published && id in s.born
      && s.born[id] == n
  }

  predicate WaitingIngest(s: State, h: Hash, n: nat, e: nat) {
    e < |s.ingest| && s.ingest[e] == IngestEvent(h, n) && !s.ig.Acked(e)
  }

  predicate StatusFor(s: State, h: Hash, n: nat, t: nat) {
    t < |s.status| && s.status[t].event.hash == h && s.status[t].event.attempts == n
  }

  /** What is on record for attempt n of the document: its own outbox row, not yet published; an ingest
      entry or an unhandled status entry that its group has not acknowledged; or an unhandled status
      entry that the poison branch dropped. Blocked rows and dropped entries count, though nothing
      moves them further: they are what a repair can start from. */
  ghost predicate InCustody(s: State, h: Hash, n: nat) {
    || (exists id :: WaitingRow(s, h, n, id))
    || (exists e :: WaitingIngest(s, h, n, e))
    || (exists t :: StatusFor(s, h, n, t) && t !in s.handled && (!s.sg.Acked(t) || t in s.dropped))
  }

  lemma InvariantMeansCustody(l: Limits, s: State, h: Hash)
    requires SysInv(l, s) && h in s.db.documents && s.db.documents[h].status == Processing
    ensures InCustody(s, h, s.db.documents[h].retries)
  {
    var n := s.db.documents[h].retries;
    var id := s.latest[h];
    if s.db.outbox[id].status != Published {
      assert WaitingRow(s, h, n, id);
    } else {
      var e := s.carried[id];
      assert CarriedOk(s.db.outbox, s.born, s.ingest, id, e);
      assert StartedAt(s.db.documents, s.ingest[e].hash, s.ingest[e].attempts);
      if !s.ig.Acked(e) {
        assert WaitingIngest(s, h, n, e);
      } else {
        var t := s.reported[e];
        assert Matches(s.ingest, s.status[t].origin, s.status[t].event);
        assert StatusFor(s, h, n, t);
        assert t !in s.handled;
        assert !s.sg.Acked(t) || t in s.dropped;
      }
    }
  }

  /** Custody: whatever was interleaved, crashed, failed, stolen or re-created, a document that is
      PROCESSING at attempt n always has something on record for attempt n. */
  lemma NothingIsLost(l: Limits, actions: seq<Action>, h: Hash)
    requires l.Valid()
    requires var s := RunAll(l, Initial(), actions); h in s.db.documents && s.db.documents[h].status == Processing
    ensures var s := RunAll(l, Initial(), actions); InCustody(s, h, s.db.documents[h].retries)
  {
    InitialInv(l);
    RunKeeps(l, Initial(), actions);
    InvariantMeansCustody(l, RunAll(l, Initial(), actions), h);
  }

  // ---- replay

  predicate HandledAs(s: State, t: nat, event: StatusEvent) {
    t in s.handled && t < |s.status| && s.status[t].event == event
  }

  /** Reports taken from status entries that were handled before. */
  ghost predicate Redelivered(s: State, again: seq<Stmt>) {
    forall i :: 0 <= i < |again| ==> again[i].SApply? && exists t: nat :: HandledAs(s, t, again[i].event)
  }

  lemma RedeliveryIsNoOp(l: Limits, s: State, again: seq<Stmt>)
    requires SysInv(l, s) && Redelivered(s, again)
    ensures ExecAll(l, s.db, again) == s.db
  {
    forall i | 0 <= i < |again| ensures again[i].SApply? && Ladder.Settled(s.db, again[i].event) {
      var t: nat :| HandledAs(s, t, again[i].event);
    }
    Ladder.SettledReplays(l, s.db, again);
  }

  /** No event in flight is ahead of its document, and in every reachable state any redelivery of
      handled reports, in any order and number, leaves the database as it is. */
  lemma NothingAppliesTwice(l: Limits, actions: seq<Action>, again: seq<Stmt>)
    requires l.Valid() && Redelivered(RunAll(l, Initial(), actions), again)
    ensures var s := RunAll(l, Initial(), actions);
      && (forall e :: 0 <= e < |s.ingest| ==> StartedAt(s.db.documents, s.ingest[e].hash, s.ingest[e].attempts))
      && (forall t :: 0 <= t < |s.status| ==> Ladder.Started(s.db, s.status[t].event))
      && ExecAll(l, s.db, again) == s.db
  {
    var s := RunAll(l, Initial(), actions);
    InitialInv(l);
    RunKeeps(l, Initial(), actions);
    forall t | 0 <= t < |s.status| ensures Ladder.Started(s.db, s.status[t].event) { StatusStarted(l, s, t); }
    RedeliveryIsNoOp(l, s, again);
  }

  // ---- acknowledgement

  /** An ingest entry is acknowledged only after a status for exactly its document and attempt was
      published by a consumer working on it; a status entry only after it was handled or dropped. */
  lemma AckedAfterPublish(l: Limits, actions: seq<Action>)
    requires l.Valid()
    ensures var s := RunAll(l, Initial(), actions);
      && (forall e :: s.ig.Acked(e) ==>
        exists t :: 0 <= t < |s.status| && s.status[t].origin == e && Matches(s.ingest, e, s.status[t].event))
      && (forall t :: s.sg.Acked(t) ==> t in s.handled + s.dropped)
  {
    var s := RunAll(l, Initial(), actions);
    InitialInv(l);
    RunKeeps(l, Initial(), actions);
    forall e | s.ig.Acked(e)
      ensures exists t :: 0 <= t < |s.status| && s.status[t].origin == e && Matches(s.ingest, e, s.status[t].event) {
      var t := s.reported[e];
      assert Matches(s.ingest, s.status[t].origin, s.status[t].event);
    }
  }

  // ---- one row per attempt

  predicate RowFor(s: State, h: Hash, n: nat, id: nat) {
    id in s.db.outbox && s.db.outbox[id].hash == h && id in s.born && s.born[id] == n
  }

  lemma BornInRange(l: Limits, s: State, h: Hash)
    requires SysInv(l, s) && h in s.db.documents
    ensures |RowsOf(s.db.outbox, h)| == s.db.documents[h].retries + 1 <= l.maxAttempts
    ensures forall id :: id in RowsOf(s.db.outbox, h) ==> id in s.born && s.born[id] < s.db.documents[h].retries + 1
    ensures Distinct(s.db.outbox, s.born)
  {
    assert DocumentOk(l, s.db.outbox, h, s.db.documents[h]);
    forall id | id in RowsOf(s.db.outbox, h) ensures id in s.born && s.born[id] < s.db.documents[h].retries + 1 {
      assert StartedAt(s.db.documents, s.db.outbox[id].hash, s.born[id]);
    }
  }

  /** Deduplication and conservation: however many workers hash identical bytes, a document has
      exactly one outbox row for each attempt 0..retries, and no others. */
  lemma OneRowPerAttempt(l: Limits, actions: seq<Action>, h: Hash, n: nat)
    requires l.Valid()
    requires h in RunAll(l, Initial(), actions).db.documents
    ensures var s := RunAll(l, Initial(), actions);
      && |RowsOf(s.db.outbox, h)| == s.db.documents[h].retries + 1 <= l.maxAttempts
      && (n <= s.db.documents[h].retries <==> exists id :: RowFor(s, h, n, id))
      && (forall a, b :: RowFor(s, h, n, a) && RowFor(s, h, n, b) ==> a == b)
  {
    var s := RunAll(l, Initial(), actions);
    InitialInv(l);
    RunKeeps(l, Initial(), actions);
    BornInRange(l, s, h);
    hide SysInv;
    var rows := RowsOf(s.db.outbox, h);
    if n <= s.db.documents[h].retries {
      InjectiveFills(rows, s.born, s.db.documents[h].retries + 1, n);
      var id :| id in rows && s.born[id] == n;
      assert RowFor(s, h, n, id);
    }
    if id :| RowFor(s, h, n, id) { assert id in rows; }
  }
}
