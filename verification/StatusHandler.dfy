/** Decides what one status stream entry does to the store, and whether it may be acknowledged. */
module StatusHandler {
  import opened Domain
  import opened JsonText
  import SE = StatusEvent
  import D = DecodeStatus
  import A = PayloadAgreement
  import IS = IngestService
  import S = SqlStore
  import T = Tables

  const STATUS_EVENT_TYPE := "IngestionStatus"

  /** A payload that is not text, one that is not a JSON object, or the object's members. */
  datatype Payload = NotText | NotAnObject | Members(fields: map<string, Json>)

  datatype StreamEntry = StreamEntry(eventType: Option<string>, payload: Payload)

  /** An entry that reports on an attempt. */
  ghost predicate Reports(entry: StreamEntry) {
    entry.eventType == Some(STATUS_EVENT_TYPE) && entry.payload.Members? && D.Acceptable(entry.payload.fields)
  }

  /** The report in such an entry. `hashOf` gives the number that stands for a hash text. */
  ghost function EventOf(entry: StreamEntry, hashOf: Text -> Hash): StatusEvent
    requires Reports(entry)
  {
    var fields := entry.payload.fields;
    StatusEvent(hashOf(D.TextAt(fields, "hash")), D.IntegerAt(fields, "attempts").value,
      if D.IsIndexed(D.TextAt(fields, "status")) then ReportIndexed
      else ReportFailed(D.BoolAt(fields, "retryable").value))
  }

  class Handler {
    const store: S.Store
    const hashOf: Text -> Hash
    const parseTime: Text -> Option<Time>

    constructor (store: S.Store, hashOf: Text -> Hash, parseTime: Text -> Option<Time>)
      ensures this.store == store && this.hashOf == hashOf && this.parseTime == parseTime
    {
      this.store, this.hashOf, this.parseTime := store, hashOf, parseTime;
    }

    /** Everything is finished and acknowledged, malformed and stale entries too, except an entry whose
        report met a database error: that one changed nothing and is left pending. */
    method Handle(entry: StreamEntry, now: Time, fault: S.Fault) returns (ack: bool)
      modifies store
      ensures !Reports(entry) ==> ack && store.Db() == old(store.Db())
      ensures Reports(entry) && ack ==>
        store.Db() == T.Apply(store.limits, old(store.Db()), EventOf(entry, hashOf), now)
      ensures !ack ==> Reports(entry) && store.Db() == old(store.Db()) && fault != S.NoFault
    {
      if entry.eventType != Some(STATUS_EVENT_TYPE) { return true; }
      if !entry.payload.Members? { return true; }
      var decoded := D.Decode(entry.payload.fields, parseTime);
      if decoded.Err? { return true; }
      var ev := decoded.value;
      if D.IsIndexed(ev.status) {
        var applied := store.ApplyIndexed(hashOf(ev.hash), ev.attempts, now, fault);
        return applied.Ok?;
      }
      var outcome := store.ApplyFailed(hashOf(ev.hash), ev.attempts, ev.retryable.value, now, fault);
      return outcome.Ok?;
    }

    /** A write probe of the store. */
    method Healthy(fault: S.Fault) returns (healthy: bool)
      ensures healthy <==> fault == S.NoFault
    {
      healthy := fault == S.NoFault;
    }
  }

  /** The entry Python publishes for an event it accepted is a report on that event's own attempt. */
  lemma PublishedIsReport(arguments: SE.Arguments, hashOf: Text -> Hash)
    requires arguments.WellTyped() && arguments.AsEvent().Valid() && Unicode(arguments.AsEvent().hash)
    ensures var e := arguments.AsEvent();
      var entry := StreamEntry(Some(STATUS_EVENT_TYPE), Members(e.Dict()));
      && Reports(entry) && EventOf(entry, hashOf).hash == hashOf(e.hash)
        && EventOf(entry, hashOf).attempts == e.attempts
      && EventOf(entry, hashOf).report ==
           if e.status == SE.StatusIndexed then ReportIndexed else ReportFailed(e.retryable.value)
  {
    A.ReportArrives(arguments);
    hide D.Acceptable; hide D.IsIndexed;
  }

  /** From the job's outcome to the store: whatever ingest payload Python accepted, and however its job
      ended, the entry it publishes makes the handler apply exactly that outcome to the document and
      attempt the payload named. */
  lemma OutcomeIsApplied(fields: map<string, Json>, validTime: Text -> bool, id: Text, outcome: IS.Outcome,
      detail: Option<Text>, now: Text, hashOf: Text -> Hash)
    requires SE.Parse(fields, validTime).Some? && id != []
    requires outcome.Indexed? && outcome.chunkCount.Some? ==> outcome.chunkCount.value <= SE.MAX_INTEGER
    ensures var event := SE.Parse(fields, validTime).value;
      var entry := StreamEntry(Some(STATUS_EVENT_TYPE), Members(A.ReportOn(event, id, outcome, detail, now).Dict()));
      && Reports(entry)
      && EventOf(entry, hashOf).hash == hashOf(PythonReads(fields["hash"].units))
      && JInt(EventOf(entry, hashOf).attempts) == fields["attempts"]
      && EventOf(entry, hashOf).report ==
           match outcome {
             case Indexed(_) => ReportIndexed
             case Failure(retryable, _) => ReportFailed(retryable)
           }
  {
    A.ReportNamesItsAttempt(fields, validTime, id, outcome, detail, now);
    var d := A.ReportOn(SE.Parse(fields, validTime).value, id, outcome, detail, now).Dict();
    NotBoth(D.TextAt(d, "status"));
    hide D.Acceptable; hide SE.Parse; hide A.ReportOn; hide D.IsIndexed; hide D.IsFailed;
  }

  lemma NotBoth(status: Text)
    ensures !(D.IsIndexed(status) && D.IsFailed(status))
  {
    assert |Ascii("INDEXED")| == 7 && |Ascii("FAILED")| == 6;
  }
}
