/** The Python side of both events: parsing an ingest event and building a status event. */
module StatusEvent {
  import opened Domain
  import opened JsonText

  const MAX_INTEGER := 0x7FFF_FFFF
  const MAX_DETAIL_LENGTH := 500
  const SCHEMA_VERSION := 1

  datatype Status = StatusIndexed | StatusFailed

  function StatusText(s: Status): Text {
    match s case StatusIndexed => Ascii("INDEXED") case StatusFailed => Ascii("FAILED")
  }

  function ReasonText(r: Reason): Text {
    match r
    case UnsupportedType => Ascii("UNSUPPORTED_TYPE")
    case EmptyText => Ascii("EMPTY_TEXT")
    case CorruptFile => Ascii("CORRUPT_FILE")
    case DependencyUnavailable => Ascii("DEPENDENCY_UNAVAILABLE")
    case JobTimeout => Ascii("JOB_TIMEOUT")
    case PoisonMessage => Ascii("POISON_MESSAGE")
    case Internal => Ascii("INTERNAL")
  }

  function StatusOf(t: Text): Option<Status> {
    if t == StatusText(StatusIndexed) then Some(StatusIndexed)
    else if t == StatusText(StatusFailed) then Some(StatusFailed)
    else None
  }

  function ReasonOf(t: Text): Option<Reason> {
    if t == ReasonText(UnsupportedType) then Some(UnsupportedType)
    else if t == ReasonText(EmptyText) then Some(EmptyText)
    else if t == ReasonText(CorruptFile) then Some(CorruptFile)
    else if t == ReasonText(DependencyUnavailable) then Some(DependencyUnavailable)
    else if t == ReasonText(JobTimeout) then Some(JobTimeout)
    else if t == ReasonText(PoisonMessage) then Some(PoisonMessage)
    else if t == ReasonText(Internal) then Some(Internal)
    else None
  }

  /** The texts are told apart, and none is lost on the way. */
  lemma NamesRoundTrip(s: Status, r: Reason)
    ensures StatusOf(StatusText(s)) == Some(s) && ReasonOf(ReasonText(r)) == Some(r)
    ensures Unicode(StatusText(s)) && Unicode(ReasonText(r)) && StatusText(s) != [] && ReasonText(r) != []
  {
    assert |ReasonText(UnsupportedType)| == 16 && |ReasonText(EmptyText)| == 10 && |ReasonText(CorruptFile)| == 12;
    assert |ReasonText(DependencyUnavailable)| == 22 && |ReasonText(JobTimeout)| == 11;
    assert |ReasonText(PoisonMessage)| == 14 && |ReasonText(Internal)| == 8;
    assert |StatusText(StatusIndexed)| == 7 && |StatusText(StatusFailed)| == 6;
  }

  /** What a caller may pass to the constructor. A datetime is None when it is naive or cannot be
      moved to UTC, and otherwise its RFC 3339 text. */
  datatype Value =
    | PyNone
    | PyBool(flag: bool)
    | PyInt(n: int)
    | PyStr(text: Text)
    | PyDatetime(utc: Option<Text>)
    | PyOther

  predicate InRange(v: Value) { v.PyInt? && 0 <= v.n <= MAX_INTEGER }

  predicate NonEmpty(v: Value) { v.PyStr? && v.text != [] }

  /** A status event's fields once their types are right. */
  datatype Event = Event(
    id: Text, hash: Text, status: Status, attempts: int, retryable: Option<bool>, reason: Option<Reason>,
    detail: Option<Text>, chunkCount: Option<int>, createdAt: Text)
  {
    /** What Python's constructor promises about the event. */
    predicate Valid() {
      && id != [] && hash != [] && 0 <= attempts <= MAX_INTEGER
      && (chunkCount.Some? ==> 0 <= chunkCount.value <= MAX_INTEGER)
      && (status == StatusFailed ==> retryable.Some? && reason.Some?)
    }

    /** The dictionary that goes into the stream; absent fields have no key. */
    function Dict(): map<string, Json> {
      var required := map["id" := JString(Written(id)), "hash" := JString(Written(hash)),
          "status" := JString(Written(StatusText(status))), "attempts" := JInt(attempts)];
      var optional := Put(Put(Put(Put(required,
        "retryable", Flag(retryable)), "reason", ReasonJson(reason)), "detail", TextJson(detail)), "chunk_count",
          Number(chunkCount));
      optional["created_at" := JString(Written(createdAt))]["schema_version" := JInt(SCHEMA_VERSION)]
    }
  }

  function Put(d: map<string, Json>, key: string, v: Option<Json>): map<string, Json> {
    if v.Some? then d[key := v.value] else d
  }

  function Flag(b: Option<bool>): Option<Json> { if b.Some? then Some(JBool(b.value)) else None }
  function Number(n: Option<int>): Option<Json> { if n.Some? then Some(JInt(n.value)) else None }
  function TextJson(t: Option<Text>): Option<Json> { if t.Some? then Some(JString(Written(t.value))) else None }
  function ReasonJson(r: Option<Reason>): Option<Json> {
    if r.Some? then Some(JString(Written(ReasonText(r.value)))) else None
  }

  /** The arguments of the constructor, as given. */
  datatype Arguments = Arguments(
    id: Value, hash: Value, status: Value, attempts: Value, retryable: Value, reason: Value,
    detail: Value, chunkCount: Value, createdAt: Value)
  {
    predicate WellTyped() {
      && id.PyStr? && hash.PyStr? && attempts.PyInt? && (retryable.PyNone? || retryable.PyBool?)
      && status.PyStr? && StatusOf(status.text).Some?
      && (reason.PyNone? || (reason.PyStr? && ReasonOf(reason.text).Some?))
      && (detail.PyNone? || detail.PyStr?) && (chunkCount.PyNone? || chunkCount.PyInt?)
      && createdAt.PyDatetime? && createdAt.utc.Some?
    }

    function AsEvent(): Event
      requires WellTyped()
    {
      Event(id.text, hash.text, StatusOf(status.text).value, attempts.n,
        if retryable.PyNone? then None else Some(retryable.flag),
        if reason.PyNone? then None else ReasonOf(reason.text),
        if detail.PyNone? then None else Some(Clipped(detail.text)),
        if chunkCount.PyNone? then None else Some(chunkCount.n),
        createdAt.utc.value)
    }
  }

  /** The longest prefix that fits. */
  function Clipped(t: Text): (r: Text)
    ensures r <= t && |r| == if |t| <= 500 then |t| else 500
  {
    if |t| > MAX_DETAIL_LENGTH then t[..MAX_DETAIL_LENGTH] else t
  }

  /** The dataclass: its fields hold whatever was passed, until __post_init__ has checked them. */
  class PyStatusEvent {
    var fields: Arguments
    var status: Option<Status>
    var reason: Option<Reason>
    var detail: Option<Text>

    constructor (fields: Arguments)
      ensures this.fields == fields && status.None? && reason.None? && detail.None?
    {
      this.fields, status, reason, detail := fields, None, None, None;
    }

    /** The event this object stands for once it was accepted. */
    function Value(): Event
      reads this
      requires status.Some? && fields.id.PyStr? && fields.hash.PyStr? && fields.attempts.PyInt?
      requires fields.retryable.PyNone? || fields.retryable.PyBool?
      requires fields.chunkCount.PyNone? || fields.chunkCount.PyInt?
      requires fields.createdAt.PyDatetime? && fields.createdAt.utc.Some?
    {
      Event(fields.id.text, fields.hash.text, status.value, fields.attempts.n,
        if fields.retryable.PyNone? then None else Some(fields.retryable.flag), reason, detail,
        if fields.chunkCount.PyNone? then None else Some(fields.chunkCount.n), fields.createdAt.utc.value)
    }

    /** Accepts exactly the arguments that make a valid event, and coerces them to it. */
    method PostInit() returns (ok: bool)
      requires status.None? && reason.None? && detail.None?
      modifies this
      ensures fields == old(fields)
      ensures ok <==> fields.WellTyped() && fields.AsEvent().Valid()
      ensures ok ==> status.Some? && Value() == fields.AsEvent()
    {
      if !NonEmpty(fields.hash) { return false; }
      if !fields.status.PyStr? { return false; }
      status := StatusOf(fields.status.text);
      if status.None? { return false; }
      if !fields.reason.PyNone? {
        if !fields.reason.PyStr? { return false; }
        reason := ReasonOf(fields.reason.text);
        if reason.None? { return false; }
      }
      if !InRange(fields.attempts) { return false; }
      if !NonEmpty(fields.id) { return false; }
      if !fields.createdAt.PyDatetime? || fields.createdAt.utc.None? { return false; }
      if !fields.retryable.PyNone? && !fields.retryable.PyBool? { return false; }
      if !fields.detail.PyNone? {
        if !fields.detail.PyStr? { return false; }
        detail := Some(Clipped(fields.detail.text));
      }
      if !fields.chunkCount.PyNone? && !InRange(fields.chunkCount) { return false; }
      if status == Some(StatusFailed) {
        if fields.retryable.PyNone? { return false; }
        if reason.None? { return false; }
      }
      return true;
    }

    method ToDict() returns (document: map<string, Json>)
      requires status.Some? && fields.WellTyped() && Value() == fields.AsEvent()
      ensures document == fields.AsEvent().Dict()
    {
      hide Written; hide StatusText; hide ReasonText; hide StatusOf; hide ReasonOf;
      document := map["id" := JString(Written(fields.id.text)), "hash" := JString(Written(fields.hash.text)),
        "status" := JString(Written(StatusText(status.value))), "attempts" := JInt(fields.attempts.n)];
      if !fields.retryable.PyNone? { document := document["retryable" := JBool(fields.retryable.flag)]; }
      if reason.Some? { document := document["reason" := JString(Written(ReasonText(reason.value)))]; }
      if detail.Some? { document := document["detail" := JString(Written(detail.value))]; }
      if !fields.chunkCount.PyNone? { document := document["chunk_count" := JInt(fields.chunkCount.n)]; }
      document := document["created_at" := JString(Written(fields.createdAt.utc.value))];
      document := document["schema_version" := JInt(SCHEMA_VERSION)];
    }
  }

  // ---- ingest events

  datatype Ingest = Ingest(id: Text, hash: Text, filename: Text, bucketPath: Text, size: nat, attempts: nat)

  /** A required, non-empty string of valid unicode text. */
  function TextField(fields: map<string, Json>, key: string): Option<Text> {
    if key in fields && fields[key].JString? && fields[key].units != [] && AllUnicode(PythonReads(fields[key].units))
    then Some(PythonReads(fields[key].units))
    else None
  }

  predicate AllUnicode(t: Text) { forall i :: 0 <= i < |t| ==> !Surrogate(t[i]) }

  /** Integers must be integer literals. */
  function IntField(fields: map<string, Json>, key: string, max: int): Option<nat> {
    if key in fields && fields[key].JInt? && 0 <= fields[key].n <= max then Some(fields[key].n) else None
  }

  /** `validTime` recognises the RFC 3339 UTC timestamps. */
  function Parse(fields: map<string, Json>, validTime: Text -> bool): Option<Ingest> {
    var id, hash, filename, path := TextField(fields, "id"), TextField(fields, "hash"), TextField(fields, "filename"),
      TextField(fields, "bucket_path");
    var attempts := IntField(fields, "attempts", MAX_INTEGER);
    if "schema_version" !in fields || fields["schema_version"] != JInt(SCHEMA_VERSION) then None
    else if "size" !in fields || !fields["size"].JInt? || fields["size"].n < 0 then None
    else if id.None? || hash.None? || filename.None? || path.None? || attempts.None? then None
    else if "created_at" !in fields || !fields["created_at"].JString?
            || !validTime(PythonReads(fields["created_at"].units)) then None
    else Some(Ingest(id.value, hash.value, filename.value, path.value, fields["size"].n, attempts.value))
  }
}
