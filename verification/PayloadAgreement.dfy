/** Python's constructor and Go's decoder were written independently; what one sends, the other must
    accept and read alike. */
module PayloadAgreement {
  import opened Domain
  import opened JsonText
  import opened StatusEvent
  import Go = DecodeStatus
  import IS = IngestService

  function Look(d: map<string, Json>, key: string): Option<Json> { if key in d then Some(d[key]) else None }

  lemma PutLook(d: map<string, Json>, key: string, v: Option<Json>, k: string)
    ensures Look(Put(d, key, v), k) == if k == key && v.Some? then v else Look(d, k)
  {
  }

  lemma KeysDiffer()
    ensures "status"[0] == 's' && "reason"[0] == 'r' && "detail"[0] == 'd'
    ensures "id" != "hash" && "status" != "reason" && "status" != "detail" && "reason" != "detail"
  {
  }

  function Required(e: Event): map<string, Json> {
    map["id" := JString(Written(e.id)), "hash" := JString(Written(e.hash)),
        "status" := JString(Written(StatusText(e.status))), "attempts" := JInt(e.attempts)]
  }

  lemma RequiredLooks(e: Event)
    ensures var d := Required(e);
      && Look(d, "id") == Some(JString(Written(e.id))) && Look(d, "hash") == Some(JString(Written(e.hash)))
      && Look(d, "status") == Some(JString(Written(StatusText(e.status))))
        && Look(d, "attempts") == Some(JInt(e.attempts))
      && Look(d, "reason").None? && Look(d, "detail").None? && Look(d, "retryable").None?
      && Look(d, "chunk_count").None? && Look(d, "schema_version").None?
  {
    hide Written; hide StatusText;
    KeysDiffer();
    assert |"id"| == 2 && |"hash"| == 4 && |"attempts"| == 8 && |"retryable"| == 9;
    assert |"chunk_count"| == 11 && |"schema_version"| == 14;
  }

  /** One key of the dictionary. */
  lemma DictLook(e: Event, k: string)
    ensures Look(e.Dict(), k) ==
      if k == "schema_version" then Some(JInt(SCHEMA_VERSION))
      else if k == "created_at" then Some(JString(Written(e.createdAt)))
      else if k == "chunk_count" && e.chunkCount.Some? then Number(e.chunkCount)
      else if k == "detail" && e.detail.Some? then TextJson(e.detail)
      else if k == "reason" && e.reason.Some? then ReasonJson(e.reason)
      else if k == "retryable" && e.retryable.Some? then Flag(e.retryable)
      else Look(Required(e), k)
  {
    hide Written; hide StatusText; hide ReasonText;
    var d1 := Put(Required(e), "retryable", Flag(e.retryable));
    var d2 := Put(d1, "reason", ReasonJson(e.reason));
    var d3 := Put(d2, "detail", TextJson(e.detail));
    PutLook(d3, "chunk_count", Number(e.chunkCount), k);
    PutLook(d2, "detail", TextJson(e.detail), k);
    PutLook(d1, "reason", ReasonJson(e.reason), k);
    PutLook(Required(e), "retryable", Flag(e.retryable), k);
  }

  /** Every key Go asks for. */
  lemma DictLooks(e: Event)
    ensures var d := e.Dict();
      && Look(d, "id") == Some(JString(Written(e.id))) && Look(d, "hash") == Some(JString(Written(e.hash)))
      && Look(d, "status") == Some(JString(Written(StatusText(e.status))))
        && Look(d, "attempts") == Some(JInt(e.attempts))
      && Look(d, "schema_version") == Some(JInt(SCHEMA_VERSION))
    ensures var d := e.Dict();
      && Look(d, "retryable") == Flag(e.retryable) && Look(d, "reason") == ReasonJson(e.reason)
      && Look(d, "detail") == TextJson(e.detail) && Look(d, "chunk_count") == Number(e.chunkCount)
  {
    RequiredLooks(e);
    hide Written; hide StatusText; hide ReasonText; hide Required; hide Look; hide e.Dict;
    KeysDiffer();
    assert |"id"| == 2 && |"hash"| == 4 && |"attempts"| == 8 && |"retryable"| == 9;
    assert |"chunk_count"| == 11 && |"created_at"| == 10 && |"schema_version"| == 14;
    forall k {
      DictLook(e, k);
    }
  }

  /** What Go reads out of the dictionary, field by field. */
  lemma GoReadsDict(e: Event)
    ensures var d := e.Dict();
      && Go.TextAt(d, "hash") == GoReads(Written(e.hash)) && Go.TextAt(d, "status") == StatusText(e.status)
      && Go.TextAt(d, "reason") == (if e.reason.Some? then ReasonText(e.reason.value) else [])
      && Go.BoolAt(d, "retryable") == e.retryable
      && Go.IntegerAt(d, "schema_version") == Some(1)
      && Go.IntegerAt(d, "attempts") == Go.AsInteger(JInt(e.attempts))
      && Go.IntegerAt(d, "chunk_count") == (if e.chunkCount.Some? then Go.AsInteger(JInt(e.chunkCount.value)) else None)
  {
    var d := e.Dict();
    DictLooks(e);
    hide e.Dict; hide Written; hide StatusText; hide ReasonText; hide GoReads;
    NamesRoundTrip(e.status, if e.reason.Some? then e.reason.value else Internal);
    UnicodeArrives(StatusText(e.status));
    if e.reason.Some? { UnicodeArrives(ReasonText(e.reason.value)); }
    assert forall k :: k in d <==> Look(d, k).Some?;
  }

  lemma DictTypes(e: Event)
    ensures Go.WellTyped(e.Dict()) <==>
      Go.AsInteger(JInt(e.attempts)).Some? && (e.chunkCount.Some? ==> Go.AsInteger(JInt(e.chunkCount.value)).Some?)
  {
    var d := e.Dict();
    DictLooks(e);
    hide e.Dict; hide Written; hide StatusText; hide ReasonText;
    assert forall k :: k in d <==> Look(d, k).Some?;
    Go.FirstBadIsNone(d, Go.READ_ORDER);
    Go.FirstBadInOrder(d);
  }

  /** Go's own lists of names know every status and reason Python writes. */
  lemma NamesAgree(s: Status, r: Reason)
    ensures Go.IsIndexed(StatusText(s)) == s.StatusIndexed? && Go.IsFailed(StatusText(s)) == s.StatusFailed?
    ensures Go.KnownReason(ReasonText(r))
  {
    NamesRoundTrip(s, r);
    assert |StatusText(StatusIndexed)| == 7 && |StatusText(StatusFailed)| == 6;
  }

  /** The two validators agree: Go accepts what Python's to_dict writes if and only if Python's own
      constructor does, except that Go would also take an empty id. */
  lemma ValidatorsAgree(e: Event)
    requires e.id != []
    ensures Go.Acceptable(e.Dict()) <==> e.Valid()
  {
    GoReadsDict(e);
    DictTypes(e);
    NamesRoundTrip(e.status, if e.reason.Some? then e.reason.value else Internal);
    NamesAgree(e.status, if e.reason.Some? then e.reason.value else Internal);
    WrittenEmpty(e.hash);
    GoReadsUnicode(Written(e.hash));
    hide e.Dict; hide Written; hide StatusText; hide ReasonText; hide GoReads; hide Go.WellTyped; hide StatusOf;
    hide ReasonOf; hide Go.TextAt; hide Go.BoolAt; hide Go.IntegerAt; hide Unicode; hide Go.IsIndexed;
      hide Go.IsFailed; hide Go.KnownReason;
  }

  /** The same report on both sides: status, attempt, retryable, reason and chunk count. */
  predicate SameReport(e: Event, g: Go.Decoded) {
    && Go.IsIndexed(g.status) == e.status.StatusIndexed? && Go.IsFailed(g.status) == e.status.StatusFailed?
    && g.attempts == e.attempts && g.retryable == e.retryable
    && g.reason == (if e.reason.Some? then ReasonText(e.reason.value) else []) && g.chunkCount == e.chunkCount
  }

  /** What Go reads is what the constructor was called with. */
  predicate AsGiven(a: Arguments, g: Go.Decoded)
    requires a.WellTyped()
  {
    && g.status == a.status.text && g.attempts == a.attempts.n && g.hash == GoReads(Written(a.hash.text))
    && g.retryable == (if a.retryable.PyNone? then None else Some(a.retryable.flag))
    && g.reason == (if a.reason.PyNone? then [] else a.reason.text)
    && g.chunkCount == (if a.chunkCount.PyNone? then None else Some(a.chunkCount.n))
  }

  lemma CoercedNames(t: Text)
    ensures StatusOf(t).Some? ==> StatusText(StatusOf(t).value) == t
    ensures ReasonOf(t).Some? ==> ReasonText(ReasonOf(t).value) == t
  {
  }

  lemma GivenArrives(a: Arguments)
    requires a.WellTyped() && a.AsEvent().Valid()
    ensures Go.IntegerAt(a.AsEvent().Dict(), "attempts").Some? && AsGiven(a, Go.ValueOf(a.AsEvent().Dict()))
  {
    GoReadsDict(a.AsEvent());
    CoercedNames(a.status.text);
    if a.reason.PyStr? { CoercedNames(a.reason.text); }
    hide Event.Dict; hide Written; hide StatusText; hide ReasonText; hide GoReads; hide StatusOf; hide ReasonOf;
    hide Clipped; hide Go.TextAt; hide Go.BoolAt;
  }

  /** No legitimate report is discarded or read differently, and its hash is read as it was exactly
      when it holds no surrogate. */
  lemma ReportArrives(arguments: Arguments)
    requires arguments.WellTyped() && arguments.AsEvent().Valid()
    ensures var e := arguments.AsEvent();
      && Go.Acceptable(e.Dict()) && Go.IntegerAt(e.Dict(), "attempts").Some?
      && SameReport(e, Go.ValueOf(e.Dict())) && AsGiven(arguments, Go.ValueOf(e.Dict()))
      && (Go.ValueOf(e.Dict()).hash == e.hash <==> Unicode(e.hash))
  {
    var e := arguments.AsEvent();
    ValidatorsAgree(e);
    GoReadsDict(e);
    TextArrivesExactly(e.hash);
    NamesAgree(e.status, Internal);
    GivenArrives(arguments);
    hide AsGiven; hide Arguments.AsEvent;
    hide e.Dict; hide Written; hide StatusText; hide ReasonText; hide GoReads; hide Go.Acceptable;
  }

  /** A constructor call that Python accepts and whose hash Go reads as another one. */
  lemma HashCanChange()
    ensures var e := Event([49], [0xD800], StatusIndexed, 0, None, None, None, None, [49]);
      e.Valid() && Go.TextAt(e.Dict(), "hash") == [REPLACEMENT] != e.hash
  {
    GoReadsDict(Event([49], [0xD800], StatusIndexed, 0, None, None, None, None, [49]));
    LoneSurrogateChanges();
  }

  // ---- there and back

  /** The report the consumer builds for a job's outcome; hash and attempt are echoed. */
  function ReportOn(event: Ingest, id: Text, outcome: IS.Outcome, detail: Option<Text>, now: Text): Event {
    match outcome
    case Indexed(chunkCount) =>
      Event(id, event.hash, StatusIndexed, event.attempts, None, None, None, chunkCount, now)
    case Failure(retryable, reason) =>
      Event(id, event.hash, StatusFailed, event.attempts, Some(retryable), Some(reason),
        if detail.Some? then Some(Clipped(detail.value)) else None, None, now)
  }

  /** What Go reads of an outcome: INDEXED with its count, or FAILED with its flag and reason. */
  predicate ReadAs(d: map<string, Json>, outcome: IS.Outcome) {
    match outcome
    case Indexed(count) =>
      && Go.IsIndexed(Go.TextAt(d, "status")) && Go.IntegerAt(d, "chunk_count") == count
      && Go.BoolAt(d, "retryable").None? && Go.TextAt(d, "reason") == []
    case Failure(retryable, reason) =>
      && Go.IsFailed(Go.TextAt(d, "status")) && Go.BoolAt(d, "retryable") == Some(retryable)
      && ReasonOf(Go.TextAt(d, "reason")) == Some(reason) && Go.IntegerAt(d, "chunk_count").None?
  }

  lemma OutcomeArrives(event: Ingest, id: Text, outcome: IS.Outcome, detail: Option<Text>, now: Text)
    requires outcome.Indexed? && outcome.chunkCount.Some? ==> outcome.chunkCount.value <= MAX_INTEGER
    ensures ReadAs(ReportOn(event, id, outcome, detail, now).Dict(), outcome)
  {
    var e := ReportOn(event, id, outcome, detail, now);
    GoReadsDict(e);
    NamesRoundTrip(e.status, if e.reason.Some? then e.reason.value else Internal);
    NamesAgree(e.status, Internal);
    hide Event.Dict; hide Written; hide StatusText; hide ReasonText; hide GoReads; hide ReasonOf; hide StatusOf;
    hide Go.IsIndexed; hide Go.IsFailed; hide Go.TextAt; hide Go.BoolAt; hide Clipped;
  }

  /** Whatever ingest payload Python accepts, and however its job ends, Go applies the report to the very
      document and attempt the payload named, and reads the very outcome. */
  lemma ReportNamesItsAttempt(fields: map<string, Json>, validTime: Text -> bool, id: Text, outcome: IS.Outcome,
      detail: Option<Text>, now: Text)
    requires Parse(fields, validTime).Some? && id != []
    requires outcome.Indexed? && outcome.chunkCount.Some? ==> outcome.chunkCount.value <= MAX_INTEGER
    ensures var event := Parse(fields, validTime).value;
      var d := ReportOn(event, id, outcome, detail, now).Dict();
      && Go.Acceptable(d) && ReadAs(d, outcome)
      && Go.TextAt(d, "hash") == event.hash == PythonReads(fields["hash"].units)
      && Go.IntegerAt(d, "attempts") == Some(event.attempts) && fields["attempts"] == JInt(event.attempts)
  {
    var event := Parse(fields, validTime).value;
    var e := ReportOn(event, id, outcome, detail, now);
    PythonReadsEmpty(fields["hash"].units);
    ValidatorsAgree(e);
    GoReadsDict(e);
    OutcomeArrives(event, id, outcome, detail, now);
    TextArrivesExactly(event.hash);
    hide Event.Dict; hide Written; hide StatusText; hide ReasonText; hide GoReads; hide PythonReads; hide Go.Acceptable;
    hide ReadAs;
  }

  lemma PythonReadsEmpty(u: seq<Unit>)
    ensures PythonReads(u) == [] <==> u == []
  {
  }

  /** Go's own hash, published and echoed, comes back unchanged. */
  lemma HashComesBack(hash: Text)
    requires Unicode(hash)
    ensures GoReads(Written(PythonReads(Written(hash)))) == hash
  {
    UnicodeArrives(hash);
  }
}
