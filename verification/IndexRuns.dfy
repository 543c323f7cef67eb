/** The vector index and the registry of fully indexed documents, as a step system: the calls of any
    number of jobs interleave; each job may fail or die between any two calls, and a failed call may
    have taken effect in part. The reset tool empties the registry and then the index. Nothing keeps
    two jobs of one document, or a job and a reset, apart; which overlaps do harm is proved below. */
module IndexRuns {
  import opened PointNames

  type Vector = seq<real>

  /** One stored chunk. */
  datatype Point = Point(hash: string, filename: string, chunkIndex: nat, text: string, vector: Vector)

  /** A row of indexed_documents; `content` is history: what the job that wrote the row had indexed. */
  datatype Row = Row(chunkCount: nat, content: seq<Point>)

  /** After the registry check; with its points computed; after the delete, `done` points upserted. */
  datatype Phase = Checked | Prepared(points: seq<Point>) | Upserting(points: seq<Point>, done: nat)

  datatype Job = Job(hash: string, phase: Phase)

  /** `jobs` maps each process with a job under way to that job. */
  datatype State = State(points: map<string, Point>, rows: map<string, Row>, jobs: map<nat, Job>)

  function Initial(): State { State(map[], map[], map[]) }

  // ---- the two stores

  /** One upsert request: each point under its id, the last one winning. */
  function Upserted(points: map<string, Point>, batch: seq<Point>): map<string, Point> {
    if batch == [] then points
    else
      var p := batch[|batch| - 1];
      Upserted(points, batch[..|batch| - 1])[Name(p.hash, p.chunkIndex) := p]
  }

  /** The stored points of one document. */
  function PointsOf(points: map<string, Point>, hash: string): map<string, Point> {
    map k | k in points && points[k].hash == hash :: points[k]
  }

  /** Delete by payload hash; a failed call may have deleted only some of them. */
  function WithoutHash(points: map<string, Point>, hash: string, kept: set<string>): map<string, Point> {
    map k | k in points && (points[k].hash != hash || k in kept) :: points[k]
  }

  /** INSERT ... ON CONFLICT DO NOTHING. */
  function Registered(rows: map<string, Row>, hash: string, row: Row): map<string, Row> {
    if hash in rows then rows else rows[hash := row]
  }

  // ---- steps

  /** `kept` are points that survived a delete or a clear that failed half-way. */
  datatype Action =
    | Begin(w: nat, hash: string)
    | Embed(w: nat, points: seq<Point>)
    | Delete(w: nat, ok: bool, kept: set<string>)
    | Upsert(w: nat, count: nat, ok: bool, written: seq<Point>)
    | Register(w: nat, applied: bool)
    | Stop(w: nat)                       // the job raised, or its process died
    | ClearRows
    | ClearPoints(kept: set<string>)

  /** Chunks 0, 1, 2, ... of this document. */
  predicate Numbered(points: seq<Point>, hash: string) {
    forall i :: 0 <= i < |points| ==> points[i].hash == hash && points[i].chunkIndex == i
  }

  predicate Subset(written: seq<Point>, batch: seq<Point>) {
    forall p :: p in written ==> p in batch
  }

  predicate Enabled(s: State, a: Action) {
    match a
    case Begin(w, h) => w !in s.jobs && h !in s.rows
    case Embed(w, points) => w in s.jobs && s.jobs[w].phase.Checked? && points != [] && Numbered(points, s.jobs[w].hash)
    case Delete(w, ok, kept) => w in s.jobs && s.jobs[w].phase.Prepared? && (ok ==> kept == {})
    case Upsert(w, count, ok, written) =>
      w in s.jobs && s.jobs[w].phase.Upserting? && s.jobs[w].phase.done + count <= |s.jobs[w].phase.points|
      && var batch := s.jobs[w].phase.points[s.jobs[w].phase.done..s.jobs[w].phase.done + count];
      if ok then written == batch else Subset(written, batch)
    case Register(w, _) =>
      w in s.jobs && s.jobs[w].phase.Upserting? && s.jobs[w].phase.done == |s.jobs[w].phase.points|
    case Stop(w) => w in s.jobs
    case ClearRows => true
    case ClearPoints(_) => true
  }

  function SetPhase(s: State, w: nat, phase: Phase): map<nat, Job>
    requires w in s.jobs
  {
    s.jobs[w := Job(s.jobs[w].hash, phase)]
  }

  function Do(s: State, a: Action): State
    requires Enabled(s, a)
  {
    match a
    case Begin(w, h) => s.(jobs := s.jobs[w := Job(h, Checked)])
    case Embed(w, points) => s.(jobs := SetPhase(s, w, Prepared(points)))
    case Delete(w, ok, kept) =>
      s.(points := WithoutHash(s.points, s.jobs[w].hash, kept),
         jobs := if ok then SetPhase(s, w, Upserting(s.jobs[w].phase.points, 0)) else s.jobs - {w})
    case Upsert(w, count, ok, written) =>
      var phase := s.jobs[w].phase;
      s.(points := Upserted(s.points, written),
         jobs := if ok then SetPhase(s, w, Upserting(phase.points, phase.done + count)) else s.jobs - {w})
    case Register(w, applied) =>
      var row := Row(|s.jobs[w].phase.points|, s.jobs[w].phase.points);
      s.(rows := if applied then Registered(s.rows, s.jobs[w].hash, row) else s.rows, jobs := s.jobs - {w})
    case Stop(w) => s.(jobs := s.jobs - {w})
    case ClearRows => s.(rows := map[])
    case ClearPoints(kept) => s.(points := map k | k in s.points && k in kept :: s.points[k])
  }

  function Step(s: State, a: Action): State { if Enabled(s, a) then Do(s, a) else s }

  function RunAll(s: State, actions: seq<Action>): State
    decreases |actions|
  {
    if actions == [] then s else Step(RunAll(s, actions[..|actions| - 1]), actions[|actions| - 1])
  }

  // ---- which overlaps are harmless

  /** No job of this document is under way. */
  predicate NoJobFor(s: State, hash: string) {
    forall w :: w in s.jobs ==> s.jobs[w].hash != hash
  }

  /** Nothing is registered, and no job has upserted anything yet. */
  predicate Clearable(s: State) {
    && s.rows == map[]
    && forall w :: w in s.jobs && s.jobs[w].phase.Upserting? ==> s.jobs[w].phase.done == 0
  }

  predicate Safe(s: State, a: Action) {
    match a
    case Begin(_, h) => NoJobFor(s, h)
    case ClearPoints(_) => Clearable(s)
    case _ => true
  }

  /** Every action of the run that took place was safe where it did. */
  predicate SafeRun(s: State, actions: seq<Action>)
    decreases |actions|
  {
    if actions == [] then true
    else
      var before, a := actions[..|actions| - 1], actions[|actions| - 1];
      SafeRun(s, before) && (Enabled(RunAll(s, before), a) ==> Safe(RunAll(s, before), a))
  }

  // ---- invariant

  ghost predicate WellKeyed(points: map<string, Point>) {
    forall k :: k in points ==> k == Name(points[k].hash, points[k].chunkIndex)
  }

  /** The points of a document are exactly these chunks: all of them, and no others. */
  ghost predicate Exact(points: map<string, Point>, hash: string, chunks: seq<Point>) {
    && (forall i: nat :: i < |chunks| ==> Name(hash, i) in points && points[Name(hash, i)] == chunks[i])
    && (forall k :: k in points && points[k].hash == hash ==> points[k].chunkIndex < |chunks|)
  }

  ghost predicate RowOk(points: map<string, Point>, hash: string, row: Row) {
    row.chunkCount == |row.content| > 0 && Numbered(row.content, hash) && Exact(points, hash, row.content)
  }

  /** Agreement: a registered document is indexed completely, and nothing else is stored for it. */
  ghost predicate Agreement(s: State) {
    forall h :: h in s.rows ==> RowOk(s.points, h, s.rows[h])
  }

  ghost predicate JobOk(points: map<string, Point>, job: Job) {
    match job.phase
    case Checked => true
    case Prepared(ps) => ps != [] && Numbered(ps, job.hash)
    case Upserting(ps, done) =>
      ps != [] && Numbered(ps, job.hash) && done <= |ps| && Exact(points, job.hash, ps[..done])
  }

  ghost predicate JobsOk(s: State) {
    forall w :: w in s.jobs ==> s.jobs[w].hash !in s.rows && JobOk(s.points, s.jobs[w])
  }

  predicate Apart(jobs: map<nat, Job>) {
    forall v, w :: v in jobs && w in jobs && v != w ==> jobs[v].hash != jobs[w].hash
  }

  ghost predicate Inv(s: State) {
    WellKeyed(s.points) && Agreement(s) && JobsOk(s) && Apart(s.jobs)
  }

  // ---- what one document's calls leave alone

  lemma {:induction false} UpsertKeepsOthers(points: map<string, Point>, batch: seq<Point>, hash: string, other: string)
    requires WellKeyed(points) && hash != other
    requires forall p :: p in batch ==> p.hash == hash
    ensures WellKeyed(Upserted(points, batch))
    ensures PointsOf(Upserted(points, batch), other) == PointsOf(points, other)
  {
    if batch != [] {
      var n := |batch| - 1;
      UpsertKeepsOthers(points, batch[..n], hash, other);
      var before := Upserted(points, batch[..n]);
      var key := Name(batch[n].hash, batch[n].chunkIndex);
      if key in before && before[key].hash == other {
        NameInjective(other, before[key].chunkIndex, hash, batch[n].chunkIndex);
      }
      assert PointsOf(before[key := batch[n]], other) == PointsOf(before, other);
    }
  }

  /** Exactness only depends on the document's own points. */
  lemma ExactByOwnPoints(a: map<string, Point>, b: map<string, Point>, hash: string, chunks: seq<Point>)
    requires PointsOf(a, hash) == PointsOf(b, hash) && Exact(a, hash, chunks) && Numbered(chunks, hash)
    ensures Exact(b, hash, chunks)
  {
    forall i: nat | i < |chunks| ensures Name(hash, i) in b && b[Name(hash, i)] == chunks[i] {
      assert Name(hash, i) in PointsOf(a, hash);
      assert Name(hash, i) in PointsOf(b, hash);
    }
    forall k | k in b && b[k].hash == hash ensures b[k].chunkIndex < |chunks| {
      assert k in PointsOf(b, hash);
      assert k in a && a[k] == b[k];
    }
  }

  lemma OnePointExtends(points: map<string, Point>, hash: string, chunks: seq<Point>, last: nat)
    requires WellKeyed(points) && Numbered(chunks, hash) && last < |chunks| && Exact(points, hash, chunks[..last])
    ensures Exact(points[Name(hash, last) := chunks[last]], hash, chunks[..last + 1])
    ensures WellKeyed(points[Name(hash, last) := chunks[last]])
  {
    var after := points[Name(hash, last) := chunks[last]];
    forall i: nat | i < last + 1 ensures Name(hash, i) in after && after[Name(hash, i)] == chunks[i] {
      if i < last {
        assert chunks[..last][i] == chunks[i];
        if Name(hash, i) == Name(hash, last) { NameInjective(hash, i, hash, last); }
      }
    }
  }

  /** A batch written after its predecessors extends the exact prefix. */
  lemma {:induction false} UpsertExtends(
      points: map<string, Point>, hash: string, chunks: seq<Point>, done: nat, count: nat)
    requires WellKeyed(points) && Numbered(chunks, hash) && done + count <= |chunks|
    requires Exact(points, hash, chunks[..done])
    ensures Exact(Upserted(points, chunks[done..done + count]), hash, chunks[..done + count])
    ensures WellKeyed(Upserted(points, chunks[done..done + count]))
    decreases count
  {
    hide Exact; hide WellKeyed; hide Name;
    var batch := chunks[done..done + count];
    if count > 0 {
      assert batch[..count - 1] == chunks[done..done + count - 1];
      UpsertExtends(points, hash, chunks, done, count - 1);
      OnePointExtends(Upserted(points, batch[..count - 1]), hash, chunks, done + count - 1);
      assert batch[count - 1] == chunks[done + count - 1];
    }
  }

  /** A call made by some job, rather than by the reset tool. */
  predicate ByJob(a: Action) { a.Begin? || a.Embed? || a.Delete? || a.Upsert? || a.Register? || a.Stop? }

  /** The document a job's call is about. */
  function HashOf(s: State, a: Action): string
    requires ByJob(a) && Enabled(s, a)
  {
    if a.Begin? then a.hash else s.jobs[a.w].hash
  }

  lemma WrittenIsOwn(s: State, a: Action)
    requires JobsOk(s) && a.Upsert? && Enabled(s, a)
    ensures forall p :: p in a.written ==> p.hash == HashOf(s, a)
  {
    var job := s.jobs[a.w];
    assert JobOk(s.points, job);
    var batch := job.phase.points[job.phase.done..job.phase.done + a.count];
    forall p | p in a.written ensures p.hash == job.hash {
      assert p in batch;
      var i :| 0 <= i < |batch| && batch[i] == p;
      assert job.phase.points[job.phase.done + i] == p;
    }
  }

  /** A job's calls leave every other document's points and row, and every other job, as they were. */
  lemma TouchesOneDocument(s: State, a: Action, other: string)
    requires Inv(s) && ByJob(a) && Enabled(s, a) && other != HashOf(s, a)
    ensures var t := Do(s, a);
      && PointsOf(t.points, other) == PointsOf(s.points, other) && WellKeyed(t.points)
      && (other in t.rows <==> other in s.rows) && (other in s.rows ==> t.rows[other] == s.rows[other])
      && (forall v :: v != a.w ==> (v in t.jobs <==> v in s.jobs) && (v in s.jobs ==> t.jobs[v] == s.jobs[v]))
  {
    if a.Upsert? {
      WrittenIsOwn(s, a);
      UpsertKeepsOthers(s.points, a.written, HashOf(s, a), other);
    }
  }

  // ---- every safe step keeps the invariant

  ghost predicate OwnOk(t: State, w: nat, hash: string) {
    && WellKeyed(t.points)
    && (w in t.jobs ==> t.jobs[w].hash == hash && hash !in t.rows && JobOk(t.points, t.jobs[w]))
    && (hash in t.rows ==> RowOk(t.points, hash, t.rows[hash]))
  }

  lemma OwnUpsertOk(s: State, a: Action)
    requires Inv(s) && a.Upsert? && Enabled(s, a)
    ensures OwnOk(Do(s, a), a.w, HashOf(s, a))
  {
    var job := s.jobs[a.w];
    assert JobOk(s.points, job) && job.hash !in s.rows;
    WrittenIsOwn(s, a);
    hide Inv; hide JobsOk; hide Agreement; hide Apart;
    UpsertKeepsOthers(s.points, a.written, job.hash, job.hash + "x");
    if a.ok { UpsertExtends(s.points, job.hash, job.phase.points, job.phase.done, a.count); }
    hide WellKeyed; hide Exact; hide Upserted;
  }

  lemma OwnDeleteOk(s: State, a: Action)
    requires Inv(s) && a.Delete? && Enabled(s, a)
    ensures OwnOk(Do(s, a), a.w, HashOf(s, a))
  {
    var job := s.jobs[a.w];
    assert JobOk(s.points, job) && job.hash !in s.rows;
    assert job.phase.points[..0] == [];
    hide Inv; hide JobsOk; hide Agreement; hide Apart;
  }

  lemma OwnRegisterOk(s: State, a: Action)
    requires Inv(s) && a.Register? && Enabled(s, a)
    ensures OwnOk(Do(s, a), a.w, HashOf(s, a))
  {
    var job := s.jobs[a.w];
    assert JobOk(s.points, job) && job.hash !in s.rows;
    assert job.phase.points[..|job.phase.points|] == job.phase.points;
    hide JobsOk; hide Agreement; hide Apart; hide Exact; hide WellKeyed;
  }

  /** The calling job itself, and the row of its document. */
  lemma OwnJobOk(s: State, a: Action)
    requires Inv(s) && ByJob(a) && Enabled(s, a)
    ensures OwnOk(Do(s, a), a.w, HashOf(s, a))
  {
    if a.Upsert? {
      OwnUpsertOk(s, a);
    } else if a.Delete? {
      OwnDeleteOk(s, a);
    } else if a.Register? {
      OwnRegisterOk(s, a);
    } else {
      if a.w in s.jobs { assert JobOk(s.points, s.jobs[a.w]); }
      hide Exact; hide WellKeyed; hide Apart;
    }
  }

  lemma OtherRowOk(s: State, a: Action, other: string)
    requires Inv(s) && ByJob(a) && Enabled(s, a) && other != HashOf(s, a) && other in Do(s, a).rows
    ensures RowOk(Do(s, a).points, other, Do(s, a).rows[other])
  {
    TouchesOneDocument(s, a, other);
    ExactByOwnPoints(s.points, Do(s, a).points, other, s.rows[other].content);
  }

  lemma OtherJobOk(s: State, a: Action, v: nat)
    requires Inv(s) && ByJob(a) && Enabled(s, a) && Safe(s, a) && v != a.w && v in Do(s, a).jobs
    ensures var t := Do(s, a);
      v in s.jobs && t.jobs[v] == s.jobs[v] && t.jobs[v].hash != HashOf(s, a) && t.jobs[v].hash !in t.rows
      && JobOk(t.points, t.jobs[v])
  {
    var t, job := Do(s, a), s.jobs[v];
    assert JobOk(s.points, job) && job.hash != HashOf(s, a);
    TouchesOneDocument(s, a, job.hash);
    if job.phase.Upserting? { ExactByOwnPoints(s.points, t.points, job.hash, job.phase.points[..job.phase.done]); }
  }

  lemma JobStepKeeps(s: State, a: Action)
    requires Inv(s) && ByJob(a) && Enabled(s, a) && Safe(s, a)
    ensures Inv(Do(s, a))
  {
    var t, h := Do(s, a), HashOf(s, a);
    OwnJobOk(s, a);
    forall other | other in t.rows && other != h ensures RowOk(t.points, other, t.rows[other]) {
      OtherRowOk(s, a, other);
    }
    forall v | v in t.jobs && v != a.w
      ensures v in s.jobs && t.jobs[v] == s.jobs[v] && t.jobs[v].hash != h && t.jobs[v].hash !in t.rows
      ensures JobOk(t.points, t.jobs[v])
    {
      OtherJobOk(s, a, v);
    }
    hide Do; hide RowOk; hide JobOk; hide WellKeyed; hide HashOf;
  }

  lemma ResetStepKeeps(s: State, a: Action)
    requires Inv(s) && !ByJob(a) && Safe(s, a)
    ensures Inv(Do(s, a))
  {
    var t := Do(s, a);
    forall w | w in t.jobs ensures JobOk(t.points, t.jobs[w]) {
      assert JobOk(s.points, s.jobs[w]);
    }
  }

  lemma StepKeeps(s: State, a: Action)
    requires Inv(s) && Safe(s, a)
    ensures Inv(Step(s, a))
  {
    hide Do; hide Inv; hide Safe;
    if Enabled(s, a) {
      if ByJob(a) { JobStepKeeps(s, a); } else { ResetStepKeeps(s, a); }
    }
  }

  lemma {:induction false} RunKeeps(s: State, actions: seq<Action>)
    requires Inv(s) && SafeRun(s, actions)
    ensures Inv(RunAll(s, actions))
    decreases |actions|
  {
    hide Inv; hide Safe; hide Enabled;
    if actions != [] {
      var before := actions[..|actions| - 1];
      RunKeeps(s, before);
      if Enabled(RunAll(s, before), actions[|actions| - 1]) {
        StepKeeps(RunAll(s, before), actions[|actions| - 1]);
      }
    }
  }

  // ---- main results

  lemma InitialInv()
    ensures Inv(Initial())
  {
  }

  /** Over every run without a harmful overlap: a registry row means that the points of its document
      are exactly its chunks 0..chunk_count-1, as one job wrote them; whatever crashed, failed half-way
      or was reset. */
  lemma IndexAgreesWithRegistry(actions: seq<Action>)
    requires SafeRun(Initial(), actions)
    ensures Inv(RunAll(Initial(), actions)) && Agreement(RunAll(Initial(), actions))
  {
    InitialInv();
    RunKeeps(Initial(), actions);
  }

  /** A job that reaches its end leaves exactly its own chunks, whatever an earlier attempt with other
      chunk settings had left behind. */
  lemma CompletedJobReplaces(s: State, w: nat)
    requires Inv(s) && Enabled(s, Register(w, true))
    ensures var t, points := Do(s, Register(w, true)), s.jobs[w].phase.points;
      && s.jobs[w].hash in t.rows && t.rows[s.jobs[w].hash] == Row(|points|, points)
      && Exact(t.points, s.jobs[w].hash, points)
  {
    assert JobOk(s.points, s.jobs[w]);
    assert s.jobs[w].phase.points[..|s.jobs[w].phase.points|] == s.jobs[w].phase.points;
  }

  // ---- exactly when an overlap is harmless

  /** However things go on without a harmful overlap, index and registry agree. */
  ghost predicate AlwaysAgrees(s: State) {
    forall actions :: SafeRun(s, actions) ==> Agreement(RunAll(s, actions))
  }

  lemma InvAlwaysAgrees(s: State)
    requires Inv(s)
    ensures AlwaysAgrees(s)
  {
    forall actions | SafeRun(s, actions) ensures Agreement(RunAll(s, actions)) {
      RunKeeps(s, actions);
    }
  }

  /** A run of job calls after the registry check. */
  predicate Proceeds(actions: seq<Action>) {
    forall i :: 0 <= i < |actions| ==>
      actions[i].Embed? || actions[i].Delete? || actions[i].Upsert? || actions[i].Register?
  }

  lemma {:induction false} ProceedingIsSafe(s: State, actions: seq<Action>)
    requires Proceeds(actions)
    ensures SafeRun(s, actions)
  {
    if actions != [] { ProceedingIsSafe(s, actions[..|actions| - 1]); }
  }

  lemma {:induction false} RunFrom(s: State, a: Action, actions: seq<Action>)
    ensures RunAll(s, [a] + actions) == RunAll(Step(s, a), actions)
    decreases |actions|
  {
    if actions == [] {
      assert [a] + actions == [a] && [a][..0] == [];
    } else {
      RunFrom(s, a, actions[..|actions| - 1]);
      assert ([a] + actions)[..|actions|] == [a] + actions[..|actions| - 1];
    }
  }

  function Rank(p: Phase): nat {
    match p case Checked => 3 case Prepared(_) => 2 case Upserting(ps, done) => if done < |ps| then 1 else 0
  }

  /** What a job does next when nothing fails. */
  function NextCall(s: State, w: nat): Action
    requires w in s.jobs && (s.jobs[w].phase.Upserting? ==> s.jobs[w].phase.done <= |s.jobs[w].phase.points|)
  {
    match s.jobs[w].phase
    case Checked => Embed(w, [Point(s.jobs[w].hash, "", 0, "", [])])
    case Prepared(_) => Delete(w, true, {})
    case Upserting(ps, done) =>
      if done < |ps| then Upsert(w, |ps| - done, true, ps[done..]) else Register(w, true)
  }

  /** From any phase a job can reach its end; its document is registered then, and the other jobs are
      where they were. */
  lemma {:induction false} CanFinish(s: State, w: nat) returns (actions: seq<Action>)
    requires w in s.jobs && (s.jobs[w].phase.Upserting? ==> s.jobs[w].phase.done <= |s.jobs[w].phase.points|)
    ensures Proceeds(actions)
    ensures var t := RunAll(s, actions);
      && s.jobs[w].hash in t.rows && forall v :: v in s.jobs && v != w ==> v in t.jobs && t.jobs[v] == s.jobs[v]
    decreases Rank(s.jobs[w].phase)
  {
    var a := NextCall(s, w);
    if a.Upsert? {
      var phase := s.jobs[w].phase;
      assert phase.points[phase.done..phase.done + a.count] == phase.points[phase.done..];
    }
    assert Enabled(s, a);
    var t := Step(s, a);
    var rest := [];
    if !a.Register? {
      assert Rank(t.jobs[w].phase) < Rank(s.jobs[w].phase);
      rest := CanFinish(t, w);
    }
    actions := [a] + rest;
    RunFrom(s, a, rest);
  }

  /** Ids in the index after an upsert: those before, and those of the points written. */
  lemma {:induction false} UpsertedIds(points: map<string, Point>, batch: seq<Point>, k: string)
    requires k in Upserted(points, batch)
    ensures k in points || exists p :: p in batch && k == Name(p.hash, p.chunkIndex)
  {
    if batch != [] {
      var p := batch[|batch| - 1];
      assert p in batch;
      if k != Name(p.hash, p.chunkIndex) {
        UpsertedIds(points, batch[..|batch| - 1], k);
        if k !in points {
          var q :| q in batch[..|batch| - 1] && k == Name(q.hash, q.chunkIndex);
          assert q in batch;
        }
      }
    }
  }

  /** A job that had upserted something before the index was cleared goes on, registers, and its first
      chunk is missing. */
  lemma UpsertedThenCleared(s: State, w: nat) returns (actions: seq<Action>)
    requires Inv(s) && s.rows == map[] && w in s.jobs && s.jobs[w].phase.Upserting? && s.jobs[w].phase.done > 0
    ensures var cleared := s.(points := map[]);
      SafeRun(cleared, actions) && !Agreement(RunAll(cleared, actions))
  {
    var cleared, job := s.(points := map[]), s.jobs[w];
    var ps, done := job.phase.points, job.phase.done;
    assert JobOk(s.points, job);
    hide Inv; hide JobsOk; hide Apart; hide WellKeyed; hide Exact; hide Upserted; hide SafeRun;
    var write, register := Upsert(w, |ps| - done, true, ps[done..]), Register(w, true);
    assert ps[done..done + (|ps| - done)] == ps[done..];
    actions := [write] + [register];
    RunFrom(cleared, write, [register]);
    assert [register][..0] == [];
    var t := RunAll(cleared, actions);
    assert t == Step(Step(cleared, write), register);
    ProceedingIsSafe(cleared, actions);
    assert job.hash in t.rows && t.rows[job.hash].content == ps && t.points == Upserted(map[], ps[done..]);
    FirstChunkMissing(job.hash, ps, done);
    NotExact(t.points, job.hash, ps);
  }

  lemma FirstChunkMissing(hash: string, ps: seq<Point>, done: nat)
    requires Numbered(ps, hash) && 0 < done <= |ps|
    ensures Name(hash, 0) !in Upserted(map[], ps[done..])
  {
    if Name(hash, 0) in Upserted(map[], ps[done..]) {
      UpsertedIds(map[], ps[done..], Name(hash, 0));
      var p :| p in ps[done..] && Name(hash, 0) == Name(p.hash, p.chunkIndex);
      var i :| done <= i < |ps| && ps[i] == p;
      NameInjective(hash, 0, p.hash, p.chunkIndex);
    }
  }

  lemma NotExact(points: map<string, Point>, hash: string, chunks: seq<Point>)
    requires chunks != [] && Name(hash, 0) !in points
    ensures !Exact(points, hash, chunks)
  {
  }

  /** The reset's second clear is harmless, whatever follows, if and only if nothing is registered and
      no job has upserted anything: why the rows go first, and why a reset must not overlap a job. */
  lemma ClearPointsSafeExactly(s: State)
    requires Inv(s)
    ensures AlwaysAgrees(Do(s, ClearPoints({}))) <==> Clearable(s)
  {
    var cleared := Do(s, ClearPoints({}));
    assert cleared == s.(points := map[]);
    if Clearable(s) {
      ResetStepKeeps(s, ClearPoints({}));
      InvAlwaysAgrees(cleared);
    } else if s.rows != map[] {
      var h :| h in s.rows;
      assert RowOk(s.points, h, s.rows[h]);
      assert Name(h, 0) !in cleared.points;
      assert !RowOk(cleared.points, h, s.rows[h]);
      assert SafeRun(cleared, []) && RunAll(cleared, []) == cleared;
    } else {
      var w :| w in s.jobs && s.jobs[w].phase.Upserting? && s.jobs[w].phase.done > 0;
      var actions := UpsertedThenCleared(s, w);
    }
  }

  /** A job that starts while another one of its document is under way: the other one registers, and
      then the points it registered are deleted. */
  lemma SecondJobDeletes(s: State, w: nat, v: nat) returns (actions: seq<Action>)
    requires Inv(s) && v in s.jobs && Enabled(s, Begin(w, s.jobs[v].hash))
    ensures var t := Do(s, Begin(w, s.jobs[v].hash));
      SafeRun(t, actions) && !Agreement(RunAll(t, actions))
  {
    var h := s.jobs[v].hash;
    var t := Do(s, Begin(w, h));
    assert JobOk(s.points, s.jobs[v]);
    var prepare := NextCall(t, w);
    var first := Step(t, prepare);
    var finish := CanFinish(first, v);
    var delete := Delete(w, true, {});
    actions := [prepare] + (finish + [delete]);
    RunFrom(t, prepare, finish + [delete]);
    assert (finish + [delete])[..|finish|] == finish;
    var end := RunAll(t, actions);
    assert end == Step(RunAll(first, finish), delete);
    ProceedingIsSafe(t, actions);
    assert h in end.rows && PointsOf(end.points, h) == map[];
    NoPointsNoRow(end, h);
  }

  lemma NoPointsNoRow(s: State, h: string)
    requires h in s.rows && PointsOf(s.points, h) == map[]
    ensures !Agreement(s)
  {
    assert Name(h, 0) !in PointsOf(s.points, h);
  }

  /** Starting a job is harmless, whatever follows, if and only if no other job of its document is
      under way. */
  lemma BeginSafeExactly(s: State, w: nat, hash: string)
    requires Inv(s) && Enabled(s, Begin(w, hash))
    ensures AlwaysAgrees(Do(s, Begin(w, hash))) <==> NoJobFor(s, hash)
  {
    if NoJobFor(s, hash) {
      JobStepKeeps(s, Begin(w, hash));
      InvAlwaysAgrees(Do(s, Begin(w, hash)));
    } else {
      var v :| v in s.jobs && s.jobs[v].hash == hash;
      var actions := SecondJobDeletes(s, w, v);
    }
  }

  /** The overlap in small: a job has upserted its only point, both clears of a reset happen, the job
      registers. */
  lemma ResetDuringJob(hash: string, p: Point)
    requires p.hash == hash && p.chunkIndex == 0
    ensures var s := State(Upserted(map[], [p]), map[], map[7 := Job(hash, Upserting([p], 1))]);
      var reset := Do(Do(s, ClearRows), ClearPoints({}));
      Inv(s) && Agreement(reset) && Enabled(reset, Register(7, true)) && !Agreement(Do(reset, Register(7, true)))
  {
    assert [p][..0] == [] && [p][..1] == [p];
    assert Upserted(map[], [p]) == map[Name(hash, 0) := p];
    var s := State(Upserted(map[], [p]), map[], map[7 := Job(hash, Upserting([p], 1))]);
    var t := Do(Do(Do(s, ClearRows), ClearPoints({})), Register(7, true));
    assert hash in t.rows && t.points == map[];
    NoPointsNoRow(t, hash);
  }
}
