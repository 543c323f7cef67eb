/** The relay from the outbox to the ingest stream: claim, read the document, publish, mark. */
module OutboxWorker {
  import opened Domain
  import opened Tables
  import opened System
  import opened Frames
  import opened Queries
  import W = World
  import CustodyInvariant

  /** What one claimed message makes the worker do: a row is marked only after a publish whose
      reply was a success, and every other ending gives the claim back or blocks the row. */
  predicate Job(w: WorkerId, job: seq<Action>) {
    && (forall i :: 0 <= i < |job| ==> job[i].RelayBy? && job[i].w == w)
    && |job| >= 2 && job[0].relay.RReadDocument?
    && match |job| {
         case 2 => (!job[0].relay.ok && job[1].relay.RRelease?) || (job[0].relay.ok && job[1].relay.RBlock?)
         case 3 => job[0].relay.ok && job[1].relay.RPublish?
           && (if job[1].relay.reply.Done? then job[2].relay.RMark? else job[2].relay.RRelease?)
         case _ => false
       }
  }

  /** One fetched row: a claim, and the job if the claim was won. */
  predicate Visit(w: WorkerId, row: nat, visit: seq<Action>) {
    && |visit| > 0 && visit[0].RelayBy? && visit[0].w == w && visit[0].relay.RClaim? && visit[0].relay.row == row
    && (visit[1..] == [] || (visit[0].relay.reply.Done? && Job(w, visit[1..])))
  }

  class Worker {
    const id: WorkerId
    const world: W.World
    const batchSize: nat

    constructor (id: WorkerId, world: W.World, batchSize: nat)
      ensures this.id == id && this.world == world && this.batchSize == batchSize
    {
      this.id, this.world, this.batchSize := id, world, batchSize;
    }

    function Own(trace: seq<Action>): seq<Action> { W.OwnActions(trace, TheRelay(id)) }

    ghost predicate Idle()
      reads world
    {
      world.Valid() && world.s.Relay(id).RIdle?
    }

    /** One action of this worker, after any steps of the others: `at` is the state it met. */
    method Call(a: RelayAction) returns (ghost at: State)
      requires world.Valid() && RelayEnabled(world.s.Relay(id), a) && !a.RReadDocument? && !a.RPublish?
      modifies world
      ensures world.Valid() && Own(world.trace) == Own(old(world.trace)) + [RelayBy(id, a)]
      ensures a.RMark? || a.RRelease? || a.RBlock? ==> world.s.Relay(id).RIdle?
      ensures a.RClaim? ==>
        if a.reply.Done? && Tables.ClaimOutboxMessage(at.db, a.row, id, a.now).1 then
          world.s.Relay(id).RClaimed? && world.s.Relay(id).row == a.row
        else world.s.Relay(id).RIdle?
      ensures var pc, db := old(world.s.Relay(id)), at.db;
        match a
        case RClaim(row, now, reply) =>
          world.s.db == if reply.Applied() then Tables.ClaimOutboxMessage(db, row, id, now).0 else db
        case RMark(reply) => world.s.db == if reply.Applied() then MarkPublished(db, pc.row, id).0 else db
        case RRelease(reply) =>
          world.s.db == if reply.Applied() then Tables.ReleaseClaim(world.limits, db, pc.row, id).0 else db
        case RBlock(reply) => world.s.db == if reply.Applied() then Tables.MarkBlocked(db, pc.row, id).0 else db
        case _ => true
    {
      world.Others(TheRelay(id));
      at := world.s;
      Effect(world.limits, at, a);
      NextPc(world.limits, at, a);
      hide DoRelay; hide Tables.ClaimOutboxMessage; hide MarkPublished; hide Tables.ReleaseClaim;
      hide Tables.MarkBlocked;
      world.Act(RelayBy(id, a));
    }

    lemma Effect(l: Limits, s: State, a: RelayAction)
      requires RelayEnabled(s.Relay(id), a)
      ensures var pc, db, after := s.Relay(id), s.db, DoRelay(l, s, id, a).db;
        match a
        case RClaim(row, now, reply) =>
          after == if reply.Applied() then Tables.ClaimOutboxMessage(db, row, id, now).0 else db
        case RMark(reply) => after == if reply.Applied() then MarkPublished(db, pc.row, id).0 else db
        case RRelease(reply) => after == if reply.Applied() then Tables.ReleaseClaim(l, db, pc.row, id).0 else db
        case RBlock(reply) => after == if reply.Applied() then Tables.MarkBlocked(db, pc.row, id).0 else db
        case _ => true
    {
    }

    lemma NextPc(l: Limits, s: State, a: RelayAction)
      requires RelayEnabled(s.Relay(id), a)
      ensures var pc := DoRelay(l, s, id, a).Relay(id);
        match a
        case RClaim(row, now, reply) =>
          if reply.Done? && Tables.ClaimOutboxMessage(s.db, row, id, now).1 then pc.RClaimed? && pc.row == row
          else pc.RIdle?
        case RReadDocument(_) => true
        case RPublish(_) => true
        case RCrash => true
        case _ => pc.RIdle?
    {
      if a.RClaim? { SqlFrame(l, s, SClaim(a.row, id, a.now), a.reply); }
      hide Sql;
    }

    /** The oldest PENDING rows, up to a batch; None is a failed query. */
    method FetchCandidates() returns (rows: Option<seq<nat>>)
      requires Idle()
      modifies world
      ensures Idle() && Own(world.trace) == Own(old(world.trace))
      ensures rows.Some? ==> |rows.value| <= batchSize && Oldest(PendingTimes(world.s.db.outbox), batchSize, rows.value)
    {
      world.Others(TheRelay(id));
      var failed: bool := *;
      if failed { return None; }
      var ids := OldestFirst(PendingTimes(world.s.db.outbox), batchSize);
      rows := Some(ids);
    }

    /** None is a failed call; Some(false) means another worker claimed the row. */
    method ClaimOutboxMessage(row: nat) returns (claimed: Option<bool>, ghost a: Action)
      requires Idle()
      modifies world
      ensures Own(world.trace) == Own(old(world.trace)) + [a]
      ensures a.RelayBy? && a.w == id && a.relay.RClaim? && a.relay.row == row
        && (claimed.Some? <==> a.relay.reply.Done?)
      ensures world.Valid() && (claimed == Some(true) <==> world.s.Relay(id).RClaimed?)
      ensures claimed != Some(true) ==> world.s.Relay(id).RIdle?
    {
      var now: Time := *;
      var reply: Reply := *;
      ghost var at := Call(RClaim(row, now, reply));
      claimed := if reply.Done? then Some(world.s.Relay(id).RClaimed?) else None;
      a := RelayBy(id, RClaim(row, now, reply));
    }

    method ReleaseClaim() returns (reply: Reply)
      requires world.Valid() && world.s.Relay(id).RReleasing?
      modifies world
      ensures Idle() && Own(world.trace) == Own(old(world.trace)) + [RelayBy(id, RRelease(reply))]
    {
      reply := *;
      ghost var at := Call(RRelease(reply));
    }

    method MarkBlocked() returns (reply: Reply)
      requires world.Valid() && world.s.Relay(id).RBlocking?
      modifies world
      ensures Idle() && Own(world.trace) == Own(old(world.trace)) + [RelayBy(id, RBlock(reply))]
    {
      reply := *;
      ghost var at := Call(RBlock(reply));
    }

    /** Reads the document of the claimed row from the database `at`; None is a failed query, Some(false) a
        missing document. The event to publish names the row's hash and the document's retries of that
        moment. */
    method GetDocument() returns (found: Option<bool>, ghost at: Db)
      requires world.Valid() && world.s.Relay(id).RClaimed?
      modifies world
      ensures world.Valid() && Own(world.trace) == Own(old(world.trace)) + [RelayBy(id, RReadDocument(found.Some?))]
      ensures var row := old(world.s.Relay(id).row);
        && row in at.outbox && (found.Some? ==> found.value == (at.outbox[row].hash in at.documents))
      ensures var pc := world.s.Relay(id);
        match found
        case None => pc.RReleasing? && pc.row == old(world.s.Relay(id).row)
        case Some(false) => pc.RBlocking? && pc.row == old(world.s.Relay(id).row)
        case Some(true) =>
          && pc.RRead? && pc.row == old(world.s.Relay(id).row) && pc.event.hash == at.outbox[pc.row].hash
          && pc.event.attempts == at.documents[pc.event.hash].retries
    {
      world.Others(TheRelay(id));
      world.Reachable();
      assert CustodyInvariant.RelayOk(world.s.db.outbox, world.s.db.documents, world.s.born, world.s.carried,
        world.s.Relay(id));
      hide CustodyInvariant.SysInv;
      at := world.s.db;
      var ok: bool := *;
      found := if ok then Some(world.s.db.outbox[world.s.Relay(id).row].hash in world.s.db.documents) else None;
      world.Act(RelayBy(id, RReadDocument(ok)));
    }

    /** Appends exactly that event to the stream, unless the call fails before it takes effect. */
    method PublishMessage() returns (reply: Reply, ghost at: State)
      requires world.Valid() && world.s.Relay(id).RRead?
      modifies world
      ensures world.Valid() && Own(world.trace) == Own(old(world.trace)) + [RelayBy(id, RPublish(reply))]
      ensures if reply.Done? then world.s.Relay(id).RSent? else world.s.Relay(id).RReleasing?
      ensures world.s.Relay(id).row == old(world.s.Relay(id).row) && world.s.db == at.db
      ensures world.s.ingest == if reply.Applied() then at.ingest + [old(world.s.Relay(id).event)] else at.ingest
    {
      world.Others(TheRelay(id));
      at := world.s;
      reply := *;
      world.Act(RelayBy(id, RPublish(reply)));
    }

    /** The row is marked only after a publish that answered; otherwise its claim goes back. */
    method PublishAndMark() returns (ghost job: seq<Action>)
      requires world.Valid() && world.s.Relay(id).RRead?
      modifies world
      ensures Idle() && Own(world.trace) == Own(old(world.trace)) + job
      ensures |job| == 2 && forall i :: 0 <= i < |job| ==> job[i].RelayBy? && job[i].w == id
      ensures job[0].relay.RPublish?
        && if job[0].relay.reply.Done? then job[1].relay.RMark? else job[1].relay.RRelease?
    {
      var published, sent := PublishMessage();
      job := [RelayBy(id, RPublish(published))];
      if !published.Done? {
        var released := ReleaseClaim();
        job := job + [RelayBy(id, RRelease(released))];
        return;
      }
      var marked: Reply := *;
      ghost var at := Call(RMark(marked));
      job := job + [RelayBy(id, RMark(marked))];
    }

    /** Runs one claimed message to one of its endings. */
    method ProcessMessage() returns (ghost job: seq<Action>)
      requires world.Valid() && world.s.Relay(id).RClaimed?
      modifies world
      ensures Idle() && Job(id, job) && Own(world.trace) == Own(old(world.trace)) + job
    {
      var found, read := GetDocument();
      job := [RelayBy(id, RReadDocument(found.Some?))];
      if found.None? {
        var released := ReleaseClaim();
        job := job + [RelayBy(id, RRelease(released))];
        return;
      }
      if !found.value {
        var blocked := MarkBlocked();
        job := job + [RelayBy(id, RBlock(blocked))];
        return;
      }
      ghost var rest := PublishAndMark();
      job := job + rest;
    }

    method VisitRow(row: nat) returns (ghost visit: seq<Action>)
      requires Idle()
      modifies world
      ensures Idle() && Own(world.trace) == Own(old(world.trace)) + visit && Visit(id, row, visit)
    {
      hide Job;
      var claimed;
      ghost var a;
      claimed, a := ClaimOutboxMessage(row);
      visit := [a];
      if claimed == Some(true) {
        ghost var job := ProcessMessage();
        visit := visit + job;
        assert visit[1..] == job;
      }
    }

    /** One pass over a batch, row by row: each is visited in turn, whatever happened to the ones before
        it, and the pass only ends early when the context is cancelled. */
    method Pass(ctx: W.Context) returns (rows: Option<seq<nat>>, ghost visits: seq<seq<Action>>)
      requires Idle()
      modifies world, ctx
      ensures Idle() && Own(world.trace) == Own(old(world.trace)) + W.Concat(visits)
      ensures rows.None? ==> visits == []
      ensures rows.Some? ==> |visits| <= |rows.value| <= batchSize && (!ctx.cancelled ==> |visits| == |rows.value|)
      ensures rows.Some? ==> forall i :: 0 <= i < |visits| ==> Visit(id, rows.value[i], visits[i])
    {
      hide Visit; hide Own; hide Oldest; hide PendingTimes; hide W.World.Valid;
      visits := [];
      rows := FetchCandidates();
      if rows.None? { return; }
      var i := 0;
      while i < |rows.value|
        invariant 0 <= i <= |rows.value| && |visits| == i && Idle()
        invariant Own(world.trace) == Own(old(world.trace)) + W.Concat(visits)
        invariant forall k :: 0 <= k < |visits| ==> Visit(id, rows.value[k], visits[k])
      {
        var stop := ctx.Err();
        if stop { return; }
        ghost var visit := VisitRow(rows.value[i]);
        W.ConcatSnoc(visits, visit);
        visits := visits + [visit];
        i := i + 1;
      }
    }
  }
}
