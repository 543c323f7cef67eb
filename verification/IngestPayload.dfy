/** The ingest event on its way from Go to Python: what the relay writes about a document is what the
    consumer reads, or the payload is refused for a reason that can be named. */
module IngestPayload {
  import opened Domain
  import opened JsonText
  import opened StatusEvent

  /** The document row an event is built from. */
  datatype Row = Row(hash: Text, permPath: Text, fileName: Text, size: int, retries: int)

  /** The members of the event the relay publishes for a row; `version` comes from its configuration. */
  function Payload(id: Text, d: Row, createdAt: Text, version: int): map<string, Json> {
    map["id" := JString(Written(id)), "hash" := JString(Written(d.hash)),
        "filename" := JString(Written(d.fileName)), "bucket_path" := JString(Written(d.permPath)),
        "size" := JInt(d.size), "attempts" := JInt(d.retries), "created_at" := JString(Written(createdAt)),
        "schema_version" := JInt(version)]
  }

  lemma Members(id: Text, d: Row, createdAt: Text, version: int)
    ensures var m := Payload(id, d, createdAt, version);
      && "id" in m && m["id"] == JString(Written(id)) && "hash" in m && m["hash"] == JString(Written(d.hash))
      && "filename" in m && m["filename"] == JString(Written(d.fileName))
      && "bucket_path" in m && m["bucket_path"] == JString(Written(d.permPath))
      && "size" in m && m["size"] == JInt(d.size) && "attempts" in m && m["attempts"] == JInt(d.retries)
      && "created_at" in m && m["created_at"] == JString(Written(createdAt))
      && "schema_version" in m && m["schema_version"] == JInt(version)
  {
    hide Written;
    assert |"id"| == 2 && |"hash"| == 4 && |"filename"| == 8 && |"bucket_path"| == 11 && |"size"| == 4;
    assert |"attempts"| == 8 && |"created_at"| == 10 && |"schema_version"| == 14;
    assert "hash"[0] == 'h' && "size"[0] == 's' && "filename"[0] == 'f' && "attempts"[0] == 'a';
  }

  /** Text without surrogates is read as it was written, and accepted unless it is empty. */
  lemma TextMember(m: map<string, Json>, key: string, t: Text)
    requires key in m && m[key] == JString(Written(t)) && Unicode(t)
    ensures TextField(m, key) == if t == [] then None else Some(t)
  {
    UnicodeArrives(t);
    WrittenEmpty(t);
  }

  /** Python accepts exactly the events of the right version whose texts are not empty and whose numbers
      are in range, and then reads each field as the row has it. Go's own strings hold no surrogates. */
  lemma PayloadArrives(id: Text, d: Row, createdAt: Text, version: int, validTime: Text -> bool)
    requires Unicode(id) && Unicode(d.hash) && Unicode(d.permPath) && Unicode(d.fileName) && Unicode(createdAt)
    ensures Parse(Payload(id, d, createdAt, version), validTime) ==
      if version == 1 && id != [] && d.hash != [] && d.fileName != [] && d.permPath != [] && validTime(createdAt)
         && d.size >= 0 && 0 <= d.retries <= 0x7FFF_FFFF then
        Some(Ingest(id, d.hash, d.fileName, d.permPath, d.size, d.retries))
      else None
  {
    var m := Payload(id, d, createdAt, version);
    Members(id, d, createdAt, version);
    TextMember(m, "id", id);
    TextMember(m, "hash", d.hash);
    TextMember(m, "filename", d.fileName);
    TextMember(m, "bucket_path", d.permPath);
    UnicodeArrives(createdAt);
    hide Payload; hide TextField; hide Written; hide PythonReads;
  }
}
