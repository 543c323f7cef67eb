/** The hash worker: claim an uploaded intent, hash and move its object, record the result. */
module HashWorker {
  import opened Domain
  import opened Tables
  import opened Queries
  import opened System
  import opened Frames
  import W = World

  datatype HashError = NoError | LostClaim | NoTempObject | OtherError

  /** What object storage answers to a call. */
  datatype BlobReply<T> = Answer(value: T) | Unavailable

  /** What the three storage calls of one job answer, any of which may fail: whether the temporary
      object is there, its hash and size, and where it was moved to. */
  datatype Storage = Storage(found: BlobReply<bool>, hashed: BlobReply<(Hash, nat)>, moved: BlobReply<string>)

  /** A fetched intent. */
  datatype Candidate = Candidate(intent: IntentId, tempPath: Option<string>, fileName: string)

  /** Every claimed intent ends in exactly one of these ways, and each write is under the claim. */
  predicate Job(w: WorkerId, job: seq<Action>) {
    && (forall i :: 0 <= i < |job| ==> job[i].HashBy? && job[i].w == w)
    && match |job| {
         case 1 => job[0].hash.HFail? || job[0].hash.HRelease? || (job[0].hash.HStart? && job[0].hash.reply.Done?)
         case 2 => job[0].hash.HStart? && !job[0].hash.reply.Done? && job[1].hash.HRelease?
         case _ => false
       }
  }

  /** The job is the one that fits the storage's answers. */
  predicate Fits(c: Candidate, replies: Storage, job: seq<Action>) {
    if c.tempPath.None? || (replies.found.Answer? && !replies.found.value) then
      |job| == 1 && job[0].HashBy? && job[0].hash.HFail?
    else if replies.found.Unavailable? || replies.hashed.Unavailable? || replies.moved.Unavailable? then
      |job| == 1 && job[0].HashBy? && job[0].hash.HRelease?
    else
      && |job| > 0 && job[0].HashBy? && job[0].hash.HStart? && job[0].hash.hash == replies.hashed.value.0
      && job[0].hash.file == FileInfo(replies.moved.value, c.fileName, replies.hashed.value.1)
  }

  /** One fetched intent: a claim, and its job if the claim was won. */
  ghost predicate Visit(w: WorkerId, c: Candidate, visit: seq<Action>) {
    && |visit| > 0 && visit[0].HashBy? && visit[0].w == w && visit[0].hash.HClaim? && visit[0].hash.id == c.intent
    && (visit[1..] == []
        || (visit[0].hash.reply.Done? && Job(w, visit[1..]) && exists replies :: Fits(c, replies, visit[1..])))
  }

  class Worker {
    const id: WorkerId
    const world: W.World
    const batchSize: nat

    constructor (id: WorkerId, world: W.World, batchSize: nat)
      ensures this.id == id && this.world == world && this.batchSize == batchSize
    {
      this.id, this.world, this.batchSize := id, world, batchSize;
    }

    function Own(trace: seq<Action>): seq<Action> { W.OwnActions(trace, TheHasher(id)) }

    ghost predicate Idle()
      reads world
    {
      world.Valid() && world.s.Hasher(id).HIdle?
    }

    ghost predicate Claimed()
      reads world
    {
      world.Valid() && world.s.Hasher(id).HWorking?
    }

    /** One action of this worker, after any steps of the others: `at` is the database it met. */
    method Call(a: HashAction) returns (ghost at: Db)
      requires world.Valid() && HashEnabled(world.s.Hasher(id), a) && !a.HStart?
      modifies world
      ensures world.Valid() && Own(world.trace) == Own(old(world.trace)) + [HashBy(id, a)]
      ensures a.HFail? || a.HRelease? ==> world.s.Hasher(id).HIdle?
      ensures a.HClaim? ==>
        if a.reply.Done? && ToHashing(at, a.id, id, a.now).1 then
          world.s.Hasher(id).HWorking? && world.s.Hasher(id).id == a.id
        else world.s.Hasher(id).HIdle?
      ensures var pc := old(world.s.Hasher(id));
        match a
        case HClaim(i, now, reply) => world.s.db == if reply.Applied() then ToHashing(at, i, id, now).0 else at
        case HFail(reply) => world.s.db == if reply.Applied() then MarkIntentFailed(at, pc.id, id).0 else at
        case HRelease(reply) =>
          world.s.db == if reply.Applied() then Tables.ReleaseIntentClaim(world.limits, at, pc.id, id).0 else at
        case _ => true
    {
      world.Others(TheHasher(id));
      at := world.s.db;
      ghost var s := world.s;
      ClaimFrame(world.limits, s, a);
      world.Act(HashBy(id, a));
    }

    lemma ClaimFrame(l: Limits, s: State, a: HashAction)
      requires HashEnabled(s.Hasher(id), a)
      ensures a.HClaim? ==> Sql(l, s, SHashing(a.id, id, a.now), a.reply).hashers == s.hashers
    {
      if a.HClaim? { SqlFrame(l, s, SHashing(a.id, id, a.now), a.reply); }
    }

    method MarkFailed() returns (reply: Reply, ghost at: Db)
      requires Claimed()
      modifies world
      ensures Idle() && Own(world.trace) == Own(old(world.trace)) + [HashBy(id, HFail(reply))]
      ensures world.s.db == if reply.Applied() then MarkIntentFailed(at, old(world.s.Hasher(id).id), id).0 else at
    {
      reply := *;
      at := Call(HFail(reply));
    }

    method ReleaseClaim() returns (reply: Reply, ghost at: Db)
      requires world.Valid() && (world.s.Hasher(id).HWorking? || world.s.Hasher(id).HReleasing?)
      modifies world
      ensures Idle() && Own(world.trace) == Own(old(world.trace)) + [HashBy(id, HRelease(reply))]
      ensures world.s.db ==
        if reply.Applied() then ReleaseIntentClaim(world.limits, at, old(world.s.Hasher(id).id), id).0 else at
    {
      reply := *;
      at := Call(HRelease(reply));
    }

    /** Hash, move, record; the error tells `Process` what to do with the claim. The temporary object is
        reported missing only when there never was one or the storage says so, not when the storage
        cannot be reached; and what is recorded is what the storage answered. */
    method HashAndRecord(tempPath: Option<string>, fileName: string, replies: Storage)
      returns (err: HashError, ghost done: seq<Action>)
      requires Claimed()
      modifies world
      ensures world.Valid() && Own(world.trace) == Own(old(world.trace)) + done
      ensures err.NoTempObject? <==> tempPath.None? || (replies.found.Answer? && !replies.found.value)
      ensures done != [] <==>
        tempPath.Some? && replies.found.Answer? && replies.found.value && replies.hashed.Answer?
          && replies.moved.Answer?
      ensures done == [] ==> Claimed() && (err.NoTempObject? || err.OtherError?)
      ensures done != [] ==>
        && |done| == 1 && done[0].HashBy? && done[0].w == id && done[0].hash.HStart?
        && done[0].hash.hash == replies.hashed.value.0
        && done[0].hash.file.permPath == replies.moved.value && done[0].hash.file.fileName == fileName
        && done[0].hash.file.size == replies.hashed.value.1
      ensures done != [] ==>
        if done[0].hash.reply.Done? then Idle() && (err.NoError? || err.LostClaim?)
        else world.s.Hasher(id).HReleasing? && err.OtherError?
    {
      done := [];
      if tempPath.None? { return NoTempObject, done; }
      match replies.found {
        case Unavailable => return OtherError, done;
        case Answer(there) => if !there { return NoTempObject, done; }
      }
      match replies.hashed {
        case Unavailable => return OtherError, done;
        case Answer(digest) =>
          match replies.moved {
            case Unavailable => return OtherError, done;
            case Answer(permPath) =>
              var now: Time := *;
              var reply: Reply := *;
              var file := FileInfo(permPath, fileName, digest.1);
              var started;
              ghost var at;
              started, at := StartIngestion(digest.0, file, now, reply);
              done := [HashBy(id, HStart(digest.0, file, now, reply))];
              if started.None? { return OtherError, done; }
              return if started.value then NoError else LostClaim, done;
          }
      }
    }

    /** None is a database error. Otherwise `at` is the database the transaction met: Some(true) means
        that the claim still held there and everything was written. The intent is HASHED with this hash;
        a new hash has its document at attempt 0, recorded with exactly this file, and one PENDING row; a
        known one keeps document and rows. Some(false): the claim was lost and nothing was written. */
    method StartIngestion(h: Hash, file: FileInfo, now: Time, reply: Reply)
      returns (started: Option<bool>, ghost at: Db)
      requires Claimed()
      modifies world
      ensures world.Valid() && Own(world.trace) == Own(old(world.trace)) + [HashBy(id, HStart(h, file, now, reply))]
      ensures started.Some? <==> reply.Done?
      ensures if reply.Done? then world.s.Hasher(id).HIdle? else world.s.Hasher(id).HReleasing?
      ensures var i := old(world.s.Hasher(id).id);
        started.Some? ==>
          started.value == (i in at.intents && at.intents[i].status == Hashing && at.intents[i].claimedBy == Some(id))
      ensures started == Some(false) ==> world.s.db == at
      ensures started == Some(true) ==>
        var i, after := old(world.s.Hasher(id).id), world.s.db;
        after.intents == at.intents[i := at.intents[i].(status := Hashed, hash := Some(h))]
      ensures started == Some(true) && h !in at.documents ==>
        && world.s.db.documents == at.documents[h := Document(file, Processing, 0, now, now)]
        && world.s.db.outbox == at.outbox[at.nextId := OutboxRow(h, Pending, None, None, 0, now)]
      ensures started == Some(true) && h in at.documents ==>
        world.s.db.documents == at.documents && world.s.db.outbox == at.outbox
    {
      world.Others(TheHasher(id));
      var intent := world.s.Hasher(id).id;
      at := world.s.db;
      var owned := OwnsIntent(world.s.db, intent, id);
      HashFrame(world.limits, world.s, id, HStart(h, file, now, reply));
      world.Act(HashBy(id, HStart(h, file, now, reply)));
      started := if reply.Done? then Some(owned) else None;
    }

    /** The upload is given up for good exactly when there is no temporary object, and the claim goes
        back for another try exactly when the storage could not be reached; otherwise what it answered
        is recorded. */
    method Process(c: Candidate, replies: Storage) returns (ghost job: seq<Action>)
      requires Claimed()
      modifies world
      ensures Idle() && Job(id, job) && Own(world.trace) == Own(old(world.trace)) + job && Fits(c, replies, job)
    {
      var err;
      err, job := HashAndRecord(c.tempPath, c.fileName, replies);
      match err {
        case NoError =>
        case LostClaim =>
        case NoTempObject =>
          var reply, at := MarkFailed();
          job := job + [HashBy(id, HFail(reply))];
        case OtherError =>
          var reply, at := ReleaseClaim();
          job := job + [HashBy(id, HRelease(reply))];
      }
    }

    /** The oldest UPLOADED intents, up to a batch, with their temporary objects and file names; None is a
        failed query. */
    method FetchCandidates() returns (intents: Option<seq<Candidate>>)
      requires Idle()
      modifies world
      ensures Idle() && Own(world.trace) == Own(old(world.trace))
      ensures intents.Some? ==>
        && |intents.value| <= batchSize && Oldest(UploadedTimes(world.s.db.intents), batchSize, Ids(intents.value))
        && forall c :: c in intents.value ==>
             && c.intent in world.s.db.intents && c.tempPath == world.s.db.intents[c.intent].tempPath
             && c.fileName == world.s.db.intents[c.intent].fileName
    {
      world.Others(TheHasher(id));
      var failed: bool := *;
      if failed { return None; }
      var ids := OldestFirst(UploadedTimes(world.s.db.intents), batchSize);
      var rows := world.s.db.intents;
      assert forall i :: 0 <= i < |ids| ==> ids[i] in rows;
      var found := seq(|ids|, i requires 0 <= i < |ids| && ids[i] in rows =>
        Candidate(ids[i], rows[ids[i]].tempPath, rows[ids[i]].fileName));
      assert Ids(found) == ids;
      intents := Some(found);
    }

    function Ids(candidates: seq<Candidate>): seq<IntentId> {
      seq(|candidates|, i requires 0 <= i < |candidates| => candidates[i].intent)
    }

    /** Any answers at all. */
    method Answers() returns (replies: Storage) {
      replies := *;
    }

    method VisitIntent(c: Candidate) returns (ghost visit: seq<Action>)
      requires Idle()
      modifies world
      ensures Idle() && Own(world.trace) == Own(old(world.trace)) + visit && Visit(id, c, visit)
    {
      hide Job; hide Fits;
      var now: Time := *;
      var reply: Reply := *;
      ghost var at := Call(HClaim(c.intent, now, reply));
      visit := [HashBy(id, HClaim(c.intent, now, reply))];
      if world.s.Hasher(id).HWorking? {
        var replies := Answers();
        ghost var job := Process(c, replies);
        visit := visit + job;
        assert visit[1..] == job;
      }
    }

    /** One pass over a batch, intent by intent: each is visited in turn, whatever happened to the ones
        before it, and the pass only ends early when the context is cancelled. */
    method Pass(ctx: W.Context)
      returns (intents: Option<seq<Candidate>>, ghost visits: seq<seq<Action>>)
      requires Idle()
      modifies world, ctx
      ensures Idle() && Own(world.trace) == Own(old(world.trace)) + W.Concat(visits)
      ensures intents.None? ==> visits == []
      ensures intents.Some? ==>
        |visits| <= |intents.value| <= batchSize && (!ctx.cancelled ==> |visits| == |intents.value|)
      ensures intents.Some? ==> forall i :: 0 <= i < |visits| ==> Visit(id, intents.value[i], visits[i])
    {
      hide Visit; hide Own; hide Oldest; hide UploadedTimes; hide Ids; hide W.World.Valid;
      visits := [];
      intents := FetchCandidates();
      if intents.None? { return; }
      var i := 0;
      while i < |intents.value|
        invariant 0 <= i <= |intents.value| && |visits| == i && Idle()
        invariant Own(world.trace) == Own(old(world.trace)) + W.Concat(visits)
        invariant forall k :: 0 <= k < |visits| ==> Visit(id, intents.value[k], visits[k])
      {
        var stop := ctx.Err();
        if stop { return; }
        ghost var visit := VisitIntent(intents.value[i]);
        W.ConcatSnoc(visits, visit);
        visits := visits + [visit];
        i := i + 1;
      }
    }
  }
}
