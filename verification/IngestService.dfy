/** The ingest pipeline: skip what is registered, parse, split, embed in batches, replace the
    document's points, register. */
module IngestService {
  import opened Domain
  import opened PointNames
  import opened IndexRuns
  import Q = QdrantIndex

  datatype Outcome = Indexed(chunkCount: Option<nat>) | Failure(retryable: bool, reason: Reason)

  datatype Request = Request(hash: string, filename: string, bucketPath: string, size: nat)

  datatype Settings = Settings(embedBatchSize: nat, maxFileBytes: nat)

  /** The latest time a job may still be working, against a clock that only moves forward. */
  class Deadline {
    const expiresAt: Time
    var now: Time
    ghost var verdicts: seq<bool>

    constructor (now: Time, seconds: Time)
      ensures expiresAt == now + seconds && this.now == now && verdicts == []
    {
      expiresAt, this.now := now + seconds, now;
      verdicts := [];
    }

    predicate Expired()
      reads this
    {
      now >= expiresAt
    }

    method Check() returns (inTime: bool)
      modifies this
      ensures inTime <==> !Expired()
      ensures old(Expired()) ==> !inTime
      ensures verdicts == old(verdicts) + [inTime]
    {
      var reading: Time := *;
      if reading > now { now := reading; }
      inTime := now < expiresAt;
      verdicts := verdicts + [inTime];
    }
  }

  /** The points of a document: its chunks in order, each with its own vector. */
  function PointsFor(r: Request, chunks: seq<string>, vectors: seq<Vector>): (points: seq<Point>)
    requires |chunks| == |vectors|
    ensures |points| == |chunks| && Numbered(points, r.hash)
    ensures forall i :: 0 <= i < |points| ==>
      points[i] == Point(r.hash, r.filename, i, chunks[i], vectors[i])
  {
    seq(|chunks|, i requires 0 <= i < |chunks| => Point(r.hash, r.filename, i, chunks[i], vectors[i]))
  }

  /** The stored points of the document are exactly these chunks, each with its own vector. */
  ghost predicate Stores(points: map<string, Point>, r: Request, chunks: seq<string>, embed: string -> Vector) {
    && (forall i: nat :: i < |chunks| ==> StoresChunk(points, r, i, chunks[i], embed))
    && (forall k :: k in points && points[k].hash == r.hash ==> points[k].chunkIndex < |chunks|)
  }

  predicate StoresChunk(points: map<string, Point>, r: Request, i: nat, chunk: string, embed: string -> Vector) {
    Name(r.hash, i) in points && points[Name(r.hash, i)] == Point(r.hash, r.filename, i, chunk, embed(chunk))
  }

  /** How reading an object can go: not there, broken off after some parts, or complete. */
  datatype BlobReply = Missing | Broken(parts: seq<seq<bv8>>) | Object(parts: seq<seq<bv8>>)

  /** What the services a job calls answer: whether the registry can be read, how the object arrives,
      which embedding and upsert requests are answered, and the delete and the registration. */
  datatype Answers = Answers(
    lookup: bool, blob: BlobReply, embeds: nat -> bool, deletes: bool, upserts: nat -> bool, registers: bool)

  function Joined(parts: seq<seq<bv8>>): seq<bv8> {
    if parts == [] then [] else Joined(parts[..|parts| - 1]) + parts[|parts| - 1]
  }

  lemma {:induction false} JoinedGrows(parts: seq<seq<bv8>>, i: nat)
    requires i <= |parts|
    ensures |Joined(parts[..i])| <= |Joined(parts)|
    decreases |parts| - i
  {
    if i == |parts| {
      assert parts[..i] == parts;
    } else {
      JoinedGrows(parts, i + 1);
      assert parts[..i + 1][..i] == parts[..i];
    }
  }

  /** `embed` gives one text's vector; `parse` is None for a file that cannot be read, `split` cuts a
      text into its non-blank chunks. */
  class Service {
    const id: nat
    const index: Q.Index
    const settings: Settings
    const supported: string -> bool
    const parse: seq<bv8> -> Option<string>
    const blank: string -> bool
    const split: (string, string) -> seq<string>
    const embed: string -> Vector

    constructor (id: nat, index: Q.Index, settings: Settings, supported: string -> bool,
        parse: seq<bv8> -> Option<string>, blank: string -> bool, split: (string, string) -> seq<string>,
        embed: string -> Vector)
      requires settings.embedBatchSize > 0 && index.upsertBatch > 0
      ensures this.id == id && this.index == index && this.settings == settings && Valid()
      ensures this.supported == supported && this.parse == parse && this.blank == blank
      ensures this.split == split && this.embed == embed
    {
      this.id, this.index, this.settings, this.supported, this.parse := id, index, settings, supported, parse;
      this.blank, this.split, this.embed := blank, split, embed;
    }

    predicate Valid() { settings.embedBatchSize > 0 && index.upsertBatch > 0 }

    // ---- what a job needs of its file

    /** Checked before anything is fetched. */
    predicate Admits(r: Request) { supported(r.filename) && r.size <= settings.maxFileBytes }

    predicate Oversized(blob: BlobReply) { !blob.Missing? && |Joined(blob.parts)| > settings.maxFileBytes }

    predicate Whole(blob: BlobReply) { blob.Object? && |Joined(blob.parts)| <= settings.maxFileBytes }

    /** The text of the object, if there is one to parse. */
    function TextIn(blob: BlobReply): Option<string> { if Whole(blob) then parse(Joined(blob.parts)) else None }

    predicate Empty(text: string, filename: string) { blank(text) || split(text, filename) == [] }

    /** A file that can be indexed. */
    predicate Readable(r: Request, blob: BlobReply) {
      Admits(r) && TextIn(blob).Some? && !Empty(TextIn(blob).value, r.filename)
    }

    /** The reasons for which no retry can help, each with its only cause. */
    ghost predicate PermanentCauses(r: Request, blob: BlobReply, late: bool, failure: Option<(bool, Reason)>) {
      && (failure == Some((false, UnsupportedType)) <==> !Admits(r) || (!late && Oversized(blob)))
      && (failure == Some((false, CorruptFile)) <==> Admits(r) && !late && Whole(blob) && TextIn(blob).None?)
      && (failure == Some((false, EmptyText)) <==>
            Admits(r) && !late && TextIn(blob).Some? && Empty(TextIn(blob).value, r.filename))
      && (failure.Some? && !failure.value.0 ==> failure.value.1 in {UnsupportedType, CorruptFile, EmptyText})
    }

    // ---- the steps of a job

    /** The adapter answers with one vector per text, or fails. */
    method EmbedDocuments(texts: seq<string>, answered: bool) returns (vectors: Option<seq<Vector>>)
      ensures vectors.Some? <==> answered
      ensures vectors.Some? ==> |vectors.value| == |texts| && forall i :: 0 <= i < |texts| ==>
        vectors.value[i] == embed(texts[i])
    {
      if !answered { return None; }
      vectors := Some(seq(|texts|, i requires 0 <= i < |texts| => embed(texts[i])));
    }

    /** Whatever the batch size, exactly the vector of each chunk, in order, with one look at the clock
        before each of the `rounds` requests. The first request that is late or not answered is the
        cause of a failure. */
    method EmbedAll(chunks: seq<string>, deadline: Deadline, answered: nat -> bool)
      returns (vectors: seq<Vector>, failure: Option<Reason>, ghost rounds: nat)
      requires Valid() && chunks != []
      modifies deadline
      ensures failure.None? ==>
        |vectors| == |chunks| && forall i :: 0 <= i < |chunks| ==> vectors[i] == embed(chunks[i])
      ensures rounds > 0 && |deadline.verdicts| == |old(deadline.verdicts)| + rounds
      ensures forall k :: 0 <= k < rounds - 1 ==> answered(k)
      ensures failure == Some(JobTimeout) <==> deadline.Expired()
      ensures failure == Some(DependencyUnavailable) <==> !deadline.Expired() && !answered(rounds - 1)
      ensures failure.Some? ==> failure.value in {JobTimeout, DependencyUnavailable}
    {
      vectors, failure, rounds := [], None, 0;
      var start, requests := 0, 0;
      while start < |chunks|
        invariant 0 <= start && rounds == requests
        invariant |vectors| == if start <= |chunks| then start else |chunks|
        invariant forall i :: 0 <= i < |vectors| ==> vectors[i] == embed(chunks[i])
        invariant |deadline.verdicts| == |old(deadline.verdicts)| + rounds
        invariant forall k :: 0 <= k < rounds ==> answered(k)
        invariant rounds > 0 ==> !deadline.Expired()
        invariant rounds == 0 ==> start == 0
        decreases |chunks| - start
      {
        rounds := rounds + 1;
        var inTime := deadline.Check();
        if !inTime { return vectors, Some(JobTimeout), rounds; }
        var end := if start + settings.embedBatchSize <= |chunks| then start + settings.embedBatchSize else |chunks|;
        var batch := EmbedDocuments(chunks[start..end], answered(requests));
        if batch.None? { return vectors, Some(DependencyUnavailable), rounds; }
        vectors := vectors + batch.value;
        start, requests := start + settings.embedBatchSize, requests + 1;
      }
    }

    /** Drops the job after an error; its exception becomes the outcome. */
    method Raise(retryable: bool, reason: Reason) returns (r: Outcome)
      requires index.world.Valid() && id in index.world.s.jobs
      modifies index.world
      ensures index.world.Valid() && id !in index.world.s.jobs && r == Failure(retryable, reason)
      ensures index.world.Sound() ==> old(index.world.Sound())
    {
      index.world.Interfere(Q.Process(id));
      index.world.Act(Stop(id));
      r := Failure(retryable, reason);
    }

    /** Reads an object part by part, never holding more than the limit: the size in the event is only
        a claim. An object comes back whole exactly when it could be read and fits. */
    method GetBlob(reply: BlobReply) returns (data: seq<bv8>, failure: Option<(bool, Reason)>)
      ensures failure.None? <==> reply.Object? && |Joined(reply.parts)| <= settings.maxFileBytes
      ensures failure.None? ==> data == Joined(reply.parts)
      ensures reply.Missing? ==> failure == Some((true, Internal))
      ensures failure != Some((true, JobTimeout))
      ensures !reply.Missing? && |Joined(reply.parts)| > settings.maxFileBytes ==>
        failure == Some((false, UnsupportedType))
      ensures reply.Broken? && |Joined(reply.parts)| <= settings.maxFileBytes ==>
        failure == Some((true, DependencyUnavailable))
    {
      data, failure := [], None;
      if reply.Missing? { return [], Some((true, Internal)); }
      var i := 0;
      while i < |reply.parts|
        invariant 0 <= i <= |reply.parts| && data == Joined(reply.parts[..i]) && |data| <= settings.maxFileBytes
      {
        assert reply.parts[..i + 1][..i] == reply.parts[..i];
        JoinedGrows(reply.parts, i + 1);
        if |data| + |reply.parts[i]| > settings.maxFileBytes { return [], Some((false, UnsupportedType)); }
        data := data + reply.parts[i];
        i := i + 1;
      }
      assert reply.parts[..i] == reply.parts;
      if reply.Broken? { return [], Some((true, DependencyUnavailable)); }
    }

    /** The chunks of the request's file, or why there are none. They are what `split` makes of the text
        in the whole object, exactly when the file is readable and both looks at the clock are in time. */
    method Chunks(r: Request, blob: BlobReply, deadline: Deadline)
      returns (chunks: seq<string>, failure: Option<(bool, Reason)>)
      modifies deadline
      ensures failure.None? <==> Readable(r, blob) && !deadline.Expired()
      ensures failure.None? ==> chunks == split(TextIn(blob).value, r.filename) != []
      ensures PermanentCauses(r, blob, deadline.Expired(), failure)
      ensures failure == Some((true, JobTimeout)) <==> Admits(r) && deadline.Expired()
      ensures failure == Some((true, Internal)) <==> Admits(r) && !deadline.Expired() && blob.Missing?
      ensures failure == Some((true, DependencyUnavailable)) <==>
        Admits(r) && !deadline.Expired() && blob.Broken? && !Oversized(blob)
      ensures !Admits(r) ==> deadline.verdicts == old(deadline.verdicts)
      ensures Admits(r) && Whole(blob) && !deadline.Expired() ==>
        deadline.verdicts == old(deadline.verdicts) + [true, true]
    {
      chunks, failure := [], None;
      if !supported(r.filename) || r.size > settings.maxFileBytes { return [], Some((false, UnsupportedType)); }
      var inTime := deadline.Check();
      if !inTime { return [], Some((true, JobTimeout)); }
      var data;
      data, failure := GetBlob(blob);
      if failure.Some? { return [], failure; }
      inTime := deadline.Check();
      if !inTime { return [], Some((true, JobTimeout)); }
      match parse(data) {
        case None => return [], Some((false, CorruptFile));
        case Some(text) =>
          if blank(text) { return [], Some((false, EmptyText)); }
          chunks := split(text, r.filename);
          if chunks == [] { return [], Some((false, EmptyText)); }
      }
    }

    /** Everything before the index is touched: chunks, vectors, points. */
    method Prepare(r: Request, blob: BlobReply, embeds: nat -> bool, deadline: Deadline)
      returns (chunks: seq<string>, points: seq<Point>, failure: Option<(bool, Reason)>)
      requires Valid()
      modifies deadline
      ensures failure.None? ==> Readable(r, blob) && !deadline.Expired()
      ensures failure.None? ==> chunks == split(TextIn(blob).value, r.filename) != [] && |points| == |chunks|
      ensures failure.None? ==> Numbered(points, r.hash) && forall i :: 0 <= i < |points| ==>
        points[i] == Point(r.hash, r.filename, i, chunks[i], embed(chunks[i]))
      ensures Readable(r, blob) && !deadline.Expired() && (forall k: nat :: embeds(k)) ==> failure.None?
      ensures PermanentCauses(r, blob, deadline.Expired(), failure)
      ensures failure == Some((true, JobTimeout)) <==> Admits(r) && deadline.Expired()
      ensures failure == Some((true, Internal)) <==> Admits(r) && !deadline.Expired() && blob.Missing?
      ensures Admits(r) && !deadline.Expired() && blob.Broken? && !Oversized(blob) ==>
        failure == Some((true, DependencyUnavailable))
      ensures failure.Some? && failure.value.0 ==> failure.value.1 in {JobTimeout, Internal, DependencyUnavailable}
    {
      points := [];
      chunks, failure := Chunks(r, blob, deadline);
      if failure.Some? { return; }
      var vectors, cause;
      ghost var rounds;
      vectors, cause, rounds := EmbedAll(chunks, deadline, embeds);
      if cause.Some? { return chunks, [], Some((true, cause.value)); }
      var inTime := deadline.Check();
      if !inTime { return chunks, [], Some((true, JobTimeout)); }
      points := PointsFor(r, chunks, vectors);
    }

    /** One job, whatever other jobs and resets do meanwhile. INDEXED without a count means that the
        document was registered before. A new document is INDEXED with the count of its chunks whenever
        its file is readable, the deadline kept and every call answered, and never otherwise; it fails
        for good only for what no retry can help. As long as no harmful overlap happened, a count n also
        means that the index holds exactly chunks 0..n-1 of this job's own split, each with its own
        vector, and the registry says n. */
    method Process(r: Request, answers: Answers, deadline: Deadline) returns (outcome: Outcome)
      requires Valid() && index.world.Valid() && id !in index.world.s.jobs
      modifies index.world, deadline
      ensures index.world.Valid() && id !in index.world.s.jobs
      ensures index.world.Sound() ==> Inv(index.world.s) && Agreement(index.world.s)
      ensures !answers.lookup ==> outcome == Failure(true, Internal)
      ensures outcome == Outcome.Indexed(None) <==> answers.lookup && r.hash in old(index.world.s.rows)
      ensures outcome == Outcome.Indexed(None) ==> r.hash in index.world.s.rows
      ensures answers.lookup && r.hash !in old(index.world.s.rows) ==>
        NewOutcome(r, answers, deadline.Expired(), outcome)
      ensures outcome.Indexed? && outcome.chunkCount.Some? ==> r.hash in index.world.s.rows
      ensures outcome.Indexed? && outcome.chunkCount.Some? && index.world.Sound() ==>
        && TextIn(answers.blob).Some?
        && var chunks := split(TextIn(answers.blob).value, r.filename);
           index.world.s.rows[r.hash].chunkCount == |chunks| && Stores(index.world.s.points, r, chunks, embed)
    {
      hide Inv; hide Agreement; hide SafeRun;
      var world := index.world;
      if world.Sound() { world.Reachable(); }
      if !answers.lookup { return Failure(true, Internal); }
      if r.hash in world.s.rows { return Outcome.Indexed(None); }
      world.Act(Begin(id, r.hash));
      outcome := ProcessNew(r, answers, deadline);
      if world.Sound() { world.Reachable(); }
    }

    /** The job of a document that is not registered. */
    method ProcessNew(r: Request, answers: Answers, deadline: Deadline) returns (outcome: Outcome)
      requires Valid() && index.At(id, r.hash, Checked)
      modifies index.world, deadline
      ensures index.world.Valid() && id !in index.world.s.jobs
      ensures index.world.Sound() ==> old(index.world.Sound())
      ensures NewOutcome(r, answers, deadline.Expired(), outcome)
      ensures outcome.Indexed? ==> r.hash in index.world.s.rows
      ensures outcome.Indexed? && index.world.Sound() ==>
        && TextIn(answers.blob).Some?
        && var chunks := split(TextIn(answers.blob).value, r.filename);
           index.world.s.rows[r.hash].chunkCount == |chunks| && Stores(index.world.s.points, r, chunks, embed)
    {
      hide Inv; hide Agreement; hide SafeRun; hide TextIn; hide Empty; hide Oversized;
      var chunks, points, failure := Prepare(r, answers.blob, answers.embeds, deadline);
      if failure.Some? {
        outcome := Raise(failure.value.0, failure.value.1);
        return;
      }
      index.world.Interfere(Q.Process(id));
      index.world.Act(Embed(id, points));
      outcome := Replace(r, points, answers);
    }

    ghost predicate AllAnswered(a: Answers) {
      (forall k: nat :: a.embeds(k)) && a.deletes && (forall k: nat :: a.upserts(k)) && a.registers
    }

    /** The outcome of a job whose document was not registered before. */
    ghost predicate NewOutcome(r: Request, a: Answers, late: bool, outcome: Outcome) {
      var failure := if outcome.Failure? then Some((outcome.retryable, outcome.reason)) else None;
      && PermanentCauses(r, a.blob, late, failure)
      && (failure == Some((true, JobTimeout)) <==> Admits(r) && late)
      && (failure.None? ==>
            && Readable(r, a.blob) && !late && a.deletes && a.registers
            && outcome.chunkCount == Some(|split(TextIn(a.blob).value, r.filename)|))
      && (Readable(r, a.blob) && !late && AllAnswered(a) ==> failure.None?)
      && (failure == Some((true, Internal)) ==> !late && (a.blob.Missing? || (Readable(r, a.blob) && !a.registers)))
      && (Admits(r) && !late && a.blob.Missing? ==> failure == Some((true, Internal)))
      && (Admits(r) && !late && a.blob.Broken? && !Oversized(a.blob) ==>
            failure == Some((true, DependencyUnavailable)))
      && (failure.Some? && failure.value.0 ==> failure.value.1 in {JobTimeout, Internal, DependencyUnavailable})
    }

    /** Delete, upsert, register. */
    method Replace(r: Request, points: seq<Point>, answers: Answers) returns (outcome: Outcome)
      requires Valid() && index.At(id, r.hash, Prepared(points))
      modifies index.world
      ensures index.world.Valid() && id !in index.world.s.jobs
      ensures index.world.Sound() ==> old(index.world.Sound())
      ensures outcome in {Outcome.Indexed(Some(|points|)), Failure(true, DependencyUnavailable),
        Failure(true, Internal)}
      ensures outcome.Indexed? ==> answers.deletes && answers.registers && r.hash in index.world.s.rows
      ensures answers.deletes && (forall k: nat :: answers.upserts(k)) && answers.registers ==> outcome.Indexed?
      ensures outcome == Failure(true, Internal) ==> answers.deletes && !answers.registers
      ensures outcome.Indexed? && index.world.Sound() ==>
        index.world.s.rows[r.hash].chunkCount == |points| && Exact(index.world.s.points, r.hash, points)
    {
      hide Inv; hide SafeRun; hide Exact;
      var world := index.world;
      var deleted := index.DeleteByHash(id, r.hash, points, answers.deletes);
      if !deleted { return Failure(true, DependencyUnavailable); }
      var upserted, batches := index.Upsert(id, r.hash, points, answers.upserts);
      if !upserted { return Failure(true, DependencyUnavailable); }
      world.Interfere(Q.Process(id));
      var applied: bool := *;
      if world.Sound() {
        world.Reachable();
        CompletedJobReplaces(world.s, id);
      }
      world.Act(Register(id, answers.registers || applied));
      if !answers.registers { return Failure(true, Internal); }
      outcome := Outcome.Indexed(Some(|points|));
    }
  }

  /** The reset tool: the registry is emptied before the index, and anything may happen in between. */
  class ResetTool {
    const world: Q.IndexWorld

    constructor (world: Q.IndexWorld)
      ensures this.world == world
    {
      this.world := world;
    }

    /** Unconfirmed it only counts. It may die, or its second call may fail, between the two clears; as
        long as no harmful overlap happened, index and registry agree at every such point. */
    method Run(confirmed: bool) returns (done: bool)
      requires world.Valid()
      modifies world
      ensures world.Valid() && (world.Sound() ==> Agreement(world.s))
      ensures !confirmed ==> !done && world.s == old(world.s) && world.trace == old(world.trace)
      ensures done ==> world.s.points == map[] && (world.Sound() ==> world.s.rows == map[])
    {
      hide SafeRun; hide Agreement;
      if !confirmed {
        if world.Sound() { world.Reachable(); }
        return false;
      }
      world.Act(ClearRows);
      var dies: bool := *;
      if dies {
        if world.Sound() { world.Reachable(); }
        return false;
      }
      world.Interfere(Q.Tool);
      done := *;
      var kept: set<string> := *;
      world.Act(ClearPoints(if done then {} else kept));
      if world.Sound() { world.Reachable(); }
    }
  }
}
