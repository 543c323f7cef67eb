/** The Go side of the status event. */
module DecodeStatus {
  import opened Domain
  import opened JsonText

  const MAX_INTEGER := 0x7FFF_FFFF
  const STATUS_SCHEMA_VERSION := 1

  datatype Error =
    | BadField(key: string) | UnsupportedVersion | HashRequired | StatusRequired | BadAttempts | BadChunkCount
    | UnknownReason | RetryableRequired | ReasonRequired | UnknownStatus

  datatype Result<+T> = Ok(value: T) | Err(error: Error)

  datatype Decoded = Decoded(
    id: Text, hash: Text, status: Text, attempts: int, retryable: Option<bool>, reason: Text, detail: Text,
    chunkCount: Option<int>)

  datatype Kind = KText | KBool | KInteger

  // ---- what a field says

  /** Present: there is a key, and its value is not null. */
  predicate Present(fields: map<string, Json>, key: string) { key in fields && !fields[key].JNull? }

  /** 1, 1.0 and 1e0 are the same integer. */
  function AsInteger(v: Json): Option<int> {
    match v
    case JInt(n) => if -MAX_INTEGER <= n <= MAX_INTEGER then Some(n) else None
    case JFloat(x) =>
      if x == x.Floor as real && -MAX_INTEGER as real <= x <= MAX_INTEGER as real then Some(x.Floor) else None
    case _ => None
  }

  predicate Fits(v: Json, kind: Kind) {
    match kind
    case KText => v.JString?
    case KBool => v.JBool?
    case KInteger => AsInteger(v).Some?
  }

  predicate Good(fields: map<string, Json>, key: string, kind: Kind) {
    Present(fields, key) ==> Fits(fields[key], kind)
  }

  /** The value of a field; absent, null and ill-typed ones are empty. */
  function TextAt(fields: map<string, Json>, key: string): Text {
    if Present(fields, key) && fields[key].JString? then GoReads(fields[key].units) else []
  }

  function BoolAt(fields: map<string, Json>, key: string): Option<bool> {
    if Present(fields, key) && fields[key].JBool? then Some(fields[key].flag) else None
  }

  function IntegerAt(fields: map<string, Json>, key: string): Option<int> {
    if Present(fields, key) then AsInteger(fields[key]) else None
  }

  /** The fields in the order they are read; created_at is read too, but never an error. */
  const READ_ORDER: seq<(string, Kind)> :=
    [("id", KText), ("hash", KText), ("status", KText), ("reason", KText), ("detail", KText), ("retryable", KBool),
     ("chunk_count", KInteger), ("attempts", KInteger), ("schema_version", KInteger)]

  /** The first ill-typed field in this order. */
  function FirstBad(fields: map<string, Json>, order: seq<(string, Kind)>): Option<Error> {
    if order == [] then None
    else if !Good(fields, order[0].0, order[0].1) then Some(BadField(order[0].0))
    else FirstBad(fields, order[1..])
  }

  // ---- the names Go knows

  predicate IsIndexed(status: Text) { status == Ascii("INDEXED") }
  predicate IsFailed(status: Text) { status == Ascii("FAILED") }

  predicate KnownReason(reason: Text) {
    || reason == Ascii("UNSUPPORTED_TYPE") || reason == Ascii("EMPTY_TEXT") || reason == Ascii("CORRUPT_FILE")
    || reason == Ascii("DEPENDENCY_UNAVAILABLE") || reason == Ascii("JOB_TIMEOUT")
    || reason == Ascii("POISON_MESSAGE") || reason == Ascii("INTERNAL")
  }

  // ---- what is accepted

  ghost predicate WellTyped(fields: map<string, Json>) {
    forall i :: 0 <= i < |READ_ORDER| ==> Good(fields, READ_ORDER[i].0, READ_ORDER[i].1)
  }

  /** A payload Go applies rather than discards. */
  ghost predicate Acceptable(fields: map<string, Json>) {
    && WellTyped(fields)
    && IntegerAt(fields, "schema_version") == Some(STATUS_SCHEMA_VERSION)
    && TextAt(fields, "hash") != []
    && IntegerAt(fields, "attempts").Some? && IntegerAt(fields, "attempts").value >= 0
    && (IntegerAt(fields, "chunk_count").Some? ==> IntegerAt(fields, "chunk_count").value >= 0)
    && (TextAt(fields, "reason") != [] ==> KnownReason(TextAt(fields, "reason")))
    && (IsIndexed(TextAt(fields, "status"))
        || (IsFailed(TextAt(fields, "status")) && BoolAt(fields, "retryable").Some? && TextAt(fields, "reason") != []))
  }

  function ValueOf(fields: map<string, Json>): Decoded
    requires IntegerAt(fields, "attempts").Some?
  {
    Decoded(TextAt(fields, "id"), TextAt(fields, "hash"), TextAt(fields, "status"), IntegerAt(fields, "attempts").value,
      BoolAt(fields, "retryable"), TextAt(fields, "reason"), TextAt(fields, "detail"), IntegerAt(fields, "chunk_count"))
  }

  // ---- reading

  /** Reads typed values and keeps the first error. */
  class FieldReader {
    const fields: map<string, Json>
    var err: Option<Error>

    constructor (fields: map<string, Json>)
      ensures this.fields == fields && err.None?
    {
      this.fields, err := fields, None;
    }

    method Fail(key: string)
      modifies this
      ensures err == if old(err).None? then Some(BadField(key)) else old(err)
    {
      if err.None? { err := Some(BadField(key)); }
    }

    method Str(key: string) returns (text: Text)
      modifies this
      ensures text == TextAt(fields, key)
      ensures err == if old(err).None? && !Good(fields, key, KText) then Some(BadField(key)) else old(err)
    {
      text := [];
      if Present(fields, key) {
        if fields[key].JString? { text := GoReads(fields[key].units); } else { Fail(key); }
      }
    }

    method Boolean(key: string) returns (flag: Option<bool>)
      modifies this
      ensures flag == BoolAt(fields, key)
      ensures err == if old(err).None? && !Good(fields, key, KBool) then Some(BadField(key)) else old(err)
    {
      flag := None;
      if Present(fields, key) {
        if fields[key].JBool? { flag := Some(fields[key].flag); } else { Fail(key); }
      }
    }

    method Integer(key: string) returns (n: Option<int>)
      modifies this
      ensures n == IntegerAt(fields, key)
      ensures err == if old(err).None? && !Good(fields, key, KInteger) then Some(BadField(key)) else old(err)
    {
      n := None;
      if Present(fields, key) {
        n := AsInteger(fields[key]);
        if n.None? { Fail(key); }
      }
    }

    /** An unparsable created_at counts as absent. */
    method Timestamp(key: string, parse: Text -> Option<Time>) returns (time: Option<Time>)
      ensures time.Some? ==> Present(fields, key) && fields[key].JString?
    {
      time := if Present(fields, key) && fields[key].JString? then parse(GoReads(fields[key].units)) else None;
    }
  }

  lemma {:induction false} FirstBadIsNone(fields: map<string, Json>, order: seq<(string, Kind)>)
    ensures FirstBad(fields, order).None? <==> forall i :: 0 <= i < |order| ==> Good(fields, order[i].0, order[i].1)
  {
    if order != [] {
      FirstBadIsNone(fields, order[1..]);
      assert forall i :: 1 <= i < |order| ==> order[i] == order[1..][i - 1];
    }
  }

  /** Accepts exactly the acceptable payloads, with the values their fields say; an ill-typed field is
      reported before anything else, the first one in reading order. */
  method Decode(fields: map<string, Json>, parse: Text -> Option<Time>) returns (r: Result<Decoded>)
    ensures r.Ok? <==> Acceptable(fields)
    ensures r.Ok? ==> r.value == ValueOf(fields)
    ensures FirstBad(fields, READ_ORDER).Some? ==> r == Err(FirstBad(fields, READ_ORDER).value)
  {
    var d := new FieldReader(fields);
    var id := d.Str("id");
    var hash := d.Str("hash");
    var status := d.Str("status");
    var reason := d.Str("reason");
    var detail := d.Str("detail");
    var retryable := d.Boolean("retryable");
    var chunkCount := d.Integer("chunk_count");
    var createdAt := d.Timestamp("created_at", parse);
    var attempts := d.Integer("attempts");
    var version := d.Integer("schema_version");
    FirstBadInOrder(fields);
    FirstBadIsNone(fields, READ_ORDER);
    if d.err.Some? { return Err(d.err.value); }
    if version != Some(STATUS_SCHEMA_VERSION) { return Err(UnsupportedVersion); }
    if hash == [] { return Err(HashRequired); }
    if status == [] { return Err(StatusRequired); }
    if attempts.None? || attempts.value < 0 { return Err(BadAttempts); }
    if chunkCount.Some? && chunkCount.value < 0 { return Err(BadChunkCount); }
    if reason != [] && !KnownReason(reason) { return Err(UnknownReason); }
    if IsFailed(status) {
      if retryable.None? { return Err(RetryableRequired); }
      if reason == [] { return Err(ReasonRequired); }
    } else if !IsIndexed(status) {
      return Err(UnknownStatus);
    }
    return Ok(Decoded(id, hash, status, attempts.value, retryable, reason, detail, chunkCount));
  }

  /** The first ill-typed field, spelled out over the nine fields. */
  lemma FirstBadInOrder(fields: map<string, Json>)
    ensures FirstBad(fields, READ_ORDER) ==
      if !Good(fields, "id", KText) then Some(BadField("id"))
      else if !Good(fields, "hash", KText) then Some(BadField("hash"))
      else if !Good(fields, "status", KText) then Some(BadField("status"))
      else if !Good(fields, "reason", KText) then Some(BadField("reason"))
      else if !Good(fields, "detail", KText) then Some(BadField("detail"))
      else if !Good(fields, "retryable", KBool) then Some(BadField("retryable"))
      else if !Good(fields, "chunk_count", KInteger) then Some(BadField("chunk_count"))
      else if !Good(fields, "attempts", KInteger) then Some(BadField("attempts"))
      else if !Good(fields, "schema_version", KInteger) then Some(BadField("schema_version"))
      else None
  {
    hide Good;
    var f := fields;
    FirstBadCons(f, "id", KText, READ_ORDER[1..]);
    FirstBadCons(f, "hash", KText, READ_ORDER[2..]);
    FirstBadCons(f, "status", KText, READ_ORDER[3..]);
    FirstBadCons(f, "reason", KText, READ_ORDER[4..]);
    FirstBadCons(f, "detail", KText, READ_ORDER[5..]);
    FirstBadCons(f, "retryable", KBool, READ_ORDER[6..]);
    FirstBadCons(f, "chunk_count", KInteger, READ_ORDER[7..]);
    FirstBadCons(f, "attempts", KInteger, READ_ORDER[8..]);
    FirstBadCons(f, "schema_version", KInteger, []);
    assert READ_ORDER[8..] == [("schema_version", KInteger)] + [];
    assert READ_ORDER[7..] == [("attempts", KInteger)] + READ_ORDER[8..];
    assert READ_ORDER[6..] == [("chunk_count", KInteger)] + READ_ORDER[7..];
    assert READ_ORDER[5..] == [("retryable", KBool)] + READ_ORDER[6..];
    assert READ_ORDER[4..] == [("detail", KText)] + READ_ORDER[5..];
    assert READ_ORDER[3..] == [("reason", KText)] + READ_ORDER[4..];
    assert READ_ORDER[2..] == [("status", KText)] + READ_ORDER[3..];
    assert READ_ORDER[1..] == [("hash", KText)] + READ_ORDER[2..];
    assert READ_ORDER == [("id", KText)] + READ_ORDER[1..];
  }

  lemma FirstBadCons(fields: map<string, Json>, key: string, kind: Kind, rest: seq<(string, Kind)>)
    ensures FirstBad(fields, [(key, kind)] + rest) == if !Good(fields, key, kind) then Some(BadField(key))
      else FirstBad(fields, rest)
  {
    assert ([(key, kind)] + rest)[1..] == rest;
  }
}
