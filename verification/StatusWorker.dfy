/** The center's status worker: reads batches of the status stream, applies each entry, and decides
    which entries to acknowledge, retry in place, or leave pending. */
module StatusWorker {
  import opened Domain
  import opened System
  import opened Frames
  import W = World
  import CustodyInvariant
  import StatusDrops

  const MAX_RECOVERY_ROUNDS := 10

  datatype ReadResult = AllFinished | EntriesFailed | ReadFailed | NoGroupError

  function Trues(probes: seq<bool>): nat {
    if probes == [] then 0 else Trues(probes[..|probes| - 1]) + (if probes[|probes| - 1] then 1 else 0)
  }

  lemma TruesSnoc(probes: seq<bool>, b: bool)
    ensures Trues(probes + [b]) == Trues(probes) + (if b then 1 else 0)
  {
    assert (probes + [b])[..|probes|] == probes;
  }

  lemma {:induction false} TruesFit(probes: seq<bool>)
    ensures Trues(probes) <= |probes|
  {
    if probes != [] { TruesFit(probes[..|probes| - 1]); }
  }

  // ---- what one entry makes the worker do

  predicate HandlesWith(w: WorkerId, e: nat, a: Action, ok: bool) {
    a.ApplyBy? && a.w == w && a.apply.AHandle? && a.apply.entry == e && (a.apply.reply.Done? <==> ok)
  }

  predicate Acks(w: WorkerId, e: nat, a: Action) {
    a.ApplyBy? && a.w == w && a.apply.AAck? && a.apply.entry == e
  }

  /** Handles of this entry that ended in a database error. */
  predicate AllFailed(w: WorkerId, e: nat, fails: seq<Action>) {
    forall i :: 0 <= i < |fails| ==> HandlesWith(w, e, fails[i], false)
  }

  /** Failed handles, then one successful handle and one ack. */
  predicate Finished(w: WorkerId, e: nat, job: seq<Action>) {
    && |job| >= 2 && AllFailed(w, e, job[..|job| - 2])
    && HandlesWith(w, e, job[|job| - 2], true) && Acks(w, e, job[|job| - 1])
  }

  /** At least two failed handles, then the decision to leave the entry pending. */
  predicate GivenUp(w: WorkerId, e: nat, job: seq<Action>) {
    |job| >= 3 && AllFailed(w, e, job[..|job| - 1]) && job[|job| - 1] == ApplyBy(w, ALeave(e))
  }

  /** Failed handles, cut short by cancellation. */
  predicate CutShort(w: WorkerId, e: nat, job: seq<Action>) { |job| >= 1 && AllFailed(w, e, job) }

  predicate EntryJob(w: WorkerId, e: nat, job: seq<Action>, finished: bool) {
    if finished then Finished(w, e, job) else GivenUp(w, e, job) || CutShort(w, e, job)
  }

  /** So far every handle failed, with one probe after each, and a store that was found healthy at most
      once. */
  predicate InProgress(w: WorkerId, e: nat, job: seq<Action>, probes: seq<bool>, retried: bool) {
    AllFailed(w, e, job) && |job| == |probes| && Trues(probes) == if retried then 1 else 0
  }

  /** True means that exactly one handle succeeded, the last, and one ack was sent. False means that every
      handle failed: without cancellation the entry was left after exactly two failures whose probe found
      the store healthy, the last one included. */
  predicate JobEnded(w: WorkerId, e: nat, job: seq<Action>, probes: seq<bool>, finished: bool, cancelled: bool) {
    if finished then Finished(w, e, job) && |job| == |probes| + 2 && Trues(probes) <= 1
    else if !cancelled then
      GivenUp(w, e, job) && |job| == |probes| + 1 && Trues(probes) == 2 && probes[|probes| - 1]
    else CutShort(w, e, job) && |probes| <= |job|
  }

  lemma JobSucceeds(w: WorkerId, e: nat, fails: seq<Action>, probes: seq<bool>, retried: bool, h: Action, k: Action,
      cancelled: bool)
    requires InProgress(w, e, fails, probes, retried) && HandlesWith(w, e, h, true) && Acks(w, e, k)
    ensures JobEnded(w, e, fails + [h] + [k], probes, true, cancelled)
  {
    assert (fails + [h] + [k])[..|fails|] == fails;
  }

  lemma JobCut(w: WorkerId, e: nat, fails: seq<Action>, probes: seq<bool>, retried: bool, h: Action)
    requires InProgress(w, e, fails, probes, retried) && HandlesWith(w, e, h, false)
    ensures JobEnded(w, e, fails + [h], probes, false, true)
  {
  }

  lemma JobGoesOn(w: WorkerId, e: nat, fails: seq<Action>, probes: seq<bool>, retried: bool, h: Action, probe: bool)
    requires InProgress(w, e, fails, probes, retried) && HandlesWith(w, e, h, false) && !(probe && retried)
    ensures InProgress(w, e, fails + [h], probes + [probe], retried || probe)
    ensures JobEnded(w, e, fails + [h], probes + [probe], false, true)
  {
    TruesSnoc(probes, probe);
  }

  lemma JobGivesUp(w: WorkerId, e: nat, fails: seq<Action>, probes: seq<bool>, h: Action)
    requires InProgress(w, e, fails, probes, true) && HandlesWith(w, e, h, false)
    ensures JobEnded(w, e, fails + [h] + [ApplyBy(w, ALeave(e))], probes + [true], false, false)
  {
    TruesSnoc(probes, true);
    TruesFit(probes);
    assert (fails + [h] + [ApplyBy(w, ALeave(e))])[..|fails| + 1] == fails + [h];
  }

  // ---- what a batch makes it do

  /** One job and one result for each entry so far, in order: a finished entry was handled, and only the
      last one can have been cut short. */
  predicate BatchOk(w: WorkerId, s: State, entries: seq<nat>, results: seq<bool>, jobs: seq<seq<Action>>, cut: bool) {
    && |results| == |jobs| <= |entries|
    && (forall i :: 0 <= i < |jobs| ==> EntryJob(w, entries[i], jobs[i], results[i]))
    && (forall i :: 0 <= i < |jobs| && results[i] ==> entries[i] in s.handled)
    && (forall i :: 0 <= i < |jobs| && !results[i] && (i < |jobs| - 1 || !cut) ==> GivenUp(w, entries[i], jobs[i]))
  }

  lemma BatchSnoc(w: WorkerId, s: State, t: State, entries: seq<nat>, results: seq<bool>, jobs: seq<seq<Action>>,
      finished: bool, job: seq<Action>, cut: bool)
    requires BatchOk(w, s, entries, results, jobs, false) && |jobs| < |entries| && s.handled <= t.handled
    requires var e := entries[|jobs|];
      && EntryJob(w, e, job, finished) && (finished ==> e in t.handled)
      && (!finished && !cut ==> GivenUp(w, e, job))
    ensures BatchOk(w, t, entries, results + [finished], jobs + [job], cut)
  {
    hide EntryJob; hide GivenUp;
  }

  // ---- what a recovery pass makes it do

  /** What became of a claimed entry. */
  datatype Fate = Left | Dropped | Handled | Unhandled

  /** Left because its delivery count is unknown; dropped; or handled like a new one. */
  predicate ClaimedJob(w: WorkerId, e: nat, job: seq<Action>, fate: Fate) {
    match fate
    case Left => job == [ApplyBy(w, ALeave(e))]
    case Dropped => |job| == 2 && job[0] == ApplyBy(w, ALookup(e)) && Acks(w, e, job[1])
    case _ => |job| >= 1 && job[0] == ApplyBy(w, ALookup(e)) && EntryJob(w, e, job[1..], fate.Handled?)
  }

  predicate Recorded(s: State, e: nat, fate: Fate) {
    (fate.Dropped? ==> e in s.dropped) && (fate.Handled? ==> e in s.handled)
  }

  /** A claim, the entries it returned, and one job and fate for each of them in order. */
  datatype Round = Round(claim: seq<Action>, entries: seq<nat>, fates: seq<Fate>, jobs: seq<seq<Action>>)

  predicate ClaimOf(w: WorkerId, claim: seq<Action>, entries: seq<nat>) {
    && |claim| <= 1 && (forall i :: 0 <= i < |claim| ==> claim[i].ApplyBy? && claim[i].w == w && claim[i].apply.AClaim?)
    && (entries != [] ==> |claim| == 1 && claim[0].apply.entries == entries && claim[0].apply.reply.Done?)
  }

  predicate RoundOk(w: WorkerId, batchSize: nat, s: State, r: Round) {
    && ClaimOf(w, r.claim, r.entries) && |r.fates| == |r.jobs| <= |r.entries| <= batchSize
    && (forall i :: 0 <= i < |r.jobs| ==> ClaimedJob(w, r.entries[i], r.jobs[i], r.fates[i]))
    && (forall i :: 0 <= i < |r.jobs| ==> Recorded(s, r.entries[i], r.fates[i]))
  }

  /** Bounded many rounds; each but the last came back with a full batch. */
  predicate RoundsOk(w: WorkerId, batchSize: nat, s: State, rounds: seq<Round>) {
    && |rounds| <= MAX_RECOVERY_ROUNDS
    && (forall i :: 0 <= i < |rounds| ==> RoundOk(w, batchSize, s, rounds[i]))
    && (forall i :: 0 <= i < |rounds| - 1 ==> |rounds[i].jobs| == batchSize)
  }

  predicate AllFull(batchSize: nat, rounds: seq<Round>) {
    forall i :: 0 <= i < |rounds| ==> |rounds[i].jobs| == batchSize
  }

  lemma RoundStays(w: WorkerId, batchSize: nat, s: State, t: State, r: Round)
    requires RoundOk(w, batchSize, s, r) && Keeps(s, t)
    ensures RoundOk(w, batchSize, t, r)
  {
    hide ClaimedJob; hide ClaimOf;
  }

  lemma RoundsStay(w: WorkerId, batchSize: nat, s: State, t: State, rounds: seq<Round>)
    requires RoundsOk(w, batchSize, s, rounds) && Keeps(s, t)
    ensures RoundsOk(w, batchSize, t, rounds)
  {
    hide RoundOk;
    forall i | 0 <= i < |rounds| ensures RoundOk(w, batchSize, t, rounds[i]) {
      RoundStays(w, batchSize, s, t, rounds[i]);
    }
  }

  lemma OneMoreRound(w: WorkerId, batchSize: nat, s: State, rounds: seq<Round>, r: Round)
    requires RoundsOk(w, batchSize, s, rounds) && AllFull(batchSize, rounds) && |rounds| < MAX_RECOVERY_ROUNDS
    requires RoundOk(w, batchSize, s, r)
    ensures RoundsOk(w, batchSize, s, rounds + [r])
    ensures |r.jobs| == batchSize ==> AllFull(batchSize, rounds + [r])
  {
    hide RoundOk;
  }

  function Rounds(rounds: seq<Round>): seq<Action> {
    if rounds == [] then []
    else Rounds(rounds[..|rounds| - 1]) + rounds[|rounds| - 1].claim + W.Concat(rounds[|rounds| - 1].jobs)
  }

  lemma RoundsSnoc(rounds: seq<Round>, r: Round)
    ensures Rounds(rounds + [r]) == Rounds(rounds) + r.claim + W.Concat(r.jobs)
  {
    assert (rounds + [r])[..|rounds|] == rounds;
  }

  /** Nothing on record as handled or dropped was taken back. */
  predicate Keeps(s: State, t: State) { s.handled <= t.handled && s.dropped <= t.dropped }

  predicate OwnedBy(g: Streams.Group, e: nat, w: WorkerId) { e in g.pending && g.pending[e].owner == w }

  lemma KeepsTransitive(s: State, t: State, u: State)
    requires Keeps(s, t) && Keeps(t, u)
    ensures Keeps(s, u)
  {
  }

  lemma KeepsItself(s: State)
    ensures Keeps(s, s)
  {
  }

  class Worker {
    const id: WorkerId
    const world: W.World
    const batchSize: nat

    constructor (id: WorkerId, world: W.World, batchSize: nat)
      requires batchSize > 0
      ensures this.id == id && this.world == world && this.batchSize == batchSize
    {
      this.id, this.world, this.batchSize := id, world, batchSize;
    }

    function Own(trace: seq<Action>): seq<Action> { W.OwnActions(trace, TheApplier(id)) }

    function Pc(): ApplierPc
      reads world
    {
      world.s.Applier(id)
    }

    ghost predicate Idle()
      reads world
    {
      world.Valid() && Pc().AIdle?
    }

    /** Entries left of the current batch; the next one is ready to be handled. */
    ghost predicate AtEntry(todo: seq<nat>, claimed: bool)
      reads world
    {
      world.Valid() && todo != [] && Pc() == AWorking(todo, claimed, claimed)
    }

    /** One action of this worker on its current entry, after any steps of the others. */
    method Call(a: ApplierAction)
      requires world.Valid() && (a.ALookup? || a.ALeave? || a.AAck?)
      requires ApplierEnabled(world.limits, world.s, Pc(), a)
      modifies world
      ensures world.Valid() && Own(world.trace) == Own(old(world.trace)) + [ApplyBy(id, a)]
      ensures Keeps(old(world.s), world.s)
      ensures var pc := old(Pc());
        match a
        case ALookup(e) =>
          if Deliveries(world.s.sg, e) > world.limits.statusPoison
          then Pc() == AAcking(pc.todo, pc.claimed) && e in world.s.dropped
          else Pc() == pc.(checked := true)
        case ALeave(_) => Pc() == Next(pc.todo, pc.claimed)
        case AAck(_, _) => Pc() == Next(pc.todo, pc.claimed)
        case _ => true
    {
      world.Others(TheApplier(id));
      ApplierFrame(world.limits, world.s, id, a);
      world.Act(ApplyBy(id, a));
    }

    lemma HandleEffect(l: Limits, s: State, e: nat, now: Time, reply: Reply)
      requires ApplierEnabled(l, s, s.Applier(id), AHandle(e, now, reply))
      ensures var t, pc := DoApplier(l, s, id, AHandle(e, now, reply)), s.Applier(id);
        && t.status == s.status && Keeps(s, t)
        && t.db == (if reply.Applied() then Tables.Apply(l, s.db, s.status[e].event, now) else s.db)
        && t.Applier(id) == (if reply.Done? then AAcking(pc.todo, pc.claimed) else pc)
        && (reply.Applied() ==> e in t.handled)
    {
      SqlFrame(l, s, Tables.SApply(s.status[e].event, now), reply);
      ApplierFrame(l, s, id, AHandle(e, now, reply));
      hide Tables.Apply;
    }

    /** Every entry on record as dropped had been delivered more often than the threshold. */
    lemma DroppedWasPoison(e: nat)
      requires world.Valid() && e in world.s.dropped
      ensures StatusDrops.DeliveredTooOften(world.limits, world.trace, e)
    {
      StatusDrops.DroppedIsPoison(world.limits, world.trace, e);
    }

    lemma ReadEffect(l: Limits, s: State, now: Time, reply: Reply)
      requires s.Applier(id).AIdle? && s.sg.delivered <= |s.status|
      ensures var t := DoApplyRead(s, id, batchSize, now, reply);
        if t.Applier(id).AIdle? then reply.Done? ==> BatchSize(s, batchSize) == 0
        else
          && reply.Done? && t.Applier(id).AWorking? && !t.Applier(id).claimed && !t.Applier(id).checked
          && var todo := t.Applier(id).todo;
             && 0 < |todo| == BatchSize(s, batchSize) <= batchSize && todo[|todo| - 1] + 1 == t.sg.delivered
             && forall i :: 0 <= i < |todo| ==> todo[i] == todo[0] + i && OwnedBy(t.sg, todo[i], id)
    {
    }

    /** The next entries, none when the wait timed out: in stream order, and now pending under this
        worker; as many as there are, up to the batch size. `at` is the state the read met. */
    method ReadNew() returns (err: ReadResult, entries: seq<nat>, ghost read: seq<Action>, ghost at: State)
      requires Idle()
      modifies world
      ensures Own(world.trace) == Own(old(world.trace)) + read && |read| <= 1
      ensures world.Valid() && |entries| <= batchSize && !err.EntriesFailed?
      ensures if entries == [] then Pc().AIdle? else err.AllFinished? && Pc() == AWorking(entries, false, false)
      ensures read == [] <==> !at.sg.alive
      ensures |read| == 1 ==> read[0].ApplyBy? && read[0].w == id && read[0].apply.ARead?
      ensures |read| == 1 && read[0].apply.reply.Done? ==>
        var left := |at.status| - at.sg.delivered; |entries| == if batchSize <= left then batchSize else left
      ensures entries != [] ==> entries[|entries| - 1] + 1 == world.s.sg.delivered
      ensures forall i :: 0 <= i < |entries| ==> entries[i] == entries[0] + i && OwnedBy(world.s.sg, entries[i], id)
    {
      world.Others(TheApplier(id));
      world.Reachable();
      hide CustodyInvariant.CenterInv; hide CustodyInvariant.ConsumerInv;
      entries, read := [], [];
      at := world.s;
      if !world.s.sg.alive { return NoGroupError, [], read, at; }
      var now: Time := *;
      var reply: Reply := *;
      ReadEffect(world.limits, world.s, now, reply);
      hide DoApplier;
      world.Act(ApplyBy(id, ARead(batchSize, now, reply)));
      read := [ApplyBy(id, ARead(batchSize, now, reply))];
      if !reply.Done? { return ReadFailed, [], read, at; }
      err := AllFinished;
      if Pc().AWorking? { entries := Pc().todo; }
    }

    /** Up to batchSize entries that have been idle long enough; each claim counts a delivery. */
    method ClaimStale() returns (err: ReadResult, entries: seq<nat>, ghost claim: seq<Action>, ghost at: State)
      requires Idle()
      modifies world
      ensures Own(world.trace) == Own(old(world.trace)) + claim && ClaimOf(id, claim, entries)
      ensures Keeps(old(world.s), world.s)
      ensures world.Valid() && |entries| <= batchSize && !err.EntriesFailed?
      ensures if entries == [] then Pc().AIdle? else err.AllFinished? && Pc() == AWorking(entries, true, false)
      ensures forall i :: 0 <= i < |entries| ==> OwnedBy(world.s.sg, entries[i], id)
      ensures |claim| == 1 ==> forall e :: e in entries ==>
        && e in at.sg.pending && claim[0].apply.now - at.sg.pending[e].deliveredAt >= world.limits.statusMinIdle
        && e in world.s.sg.pending && world.s.sg.pending[e].deliveries == at.sg.pending[e].deliveries + 1
    {
      world.Others(TheApplier(id));
      entries, claim, at := [], [], world.s;
      if !world.s.sg.alive { return NoGroupError, [], claim, at; }
      var now: Time := *;
      var reply: Reply := *;
      var es: seq<nat> := *;
      if |es| > batchSize
         || !(forall i :: 0 <= i < |es| ==> world.s.sg.Stale(es[i], world.limits.statusMinIdle, now)) {
        return ReadFailed, [], claim, at;
      }
      world.Act(ApplyBy(id, AClaim(es, now, reply)));
      claim := [ApplyBy(id, AClaim(es, now, reply))];
      if !reply.Done? { return ReadFailed, [], claim, at; }
      err := AllFinished;
      if es != [] { entries := es; }
    }

    /** Whether the store took the event, or ignored it as stale; false only on a database error. What is
        applied to the database `at` that the handler meets is the event of this very entry. */
    method Handle(e: nat) returns (ok: bool, ghost a: Action, ghost at: Tables.Db)
      requires world.Valid() && Pc().AWorking? && Pc().todo != [] && Pc().todo[0] == e
        && (Pc().claimed ==> Pc().checked)
      modifies world
      ensures world.Valid() && Own(world.trace) == Own(old(world.trace)) + [a] && Keeps(old(world.s), world.s)
      ensures Pc() == if ok then AAcking(old(Pc().todo), old(Pc().claimed)) else old(Pc())
      ensures HandlesWith(id, e, a, ok) && (ok ==> e in world.s.handled)
      ensures e < |world.s.status|
      ensures world.s.db ==
        if a.apply.reply.Applied() then Tables.Apply(world.limits, at, world.s.status[e].event, a.apply.now) else at
    {
      world.Others(TheApplier(id));
      world.Reachable();
      assert CustodyInvariant.ApplierOk(|world.s.status|, world.s.handled, world.s.dropped, Pc());
      assert Pc().todo[0] in Pc().todo;
      hide CustodyInvariant.SysInv; hide DoApplier; hide Tables.Apply;
      var now: Time := *;
      var reply: Reply := *;
      at := world.s.db;
      HandleEffect(world.limits, world.s, e, now, reply);
      world.Act(ApplyBy(id, AHandle(e, now, reply)));
      ok := reply.Done?;
      a := ApplyBy(id, AHandle(e, now, reply));
    }

    method Ack(e: nat) returns (ghost a: Action)
      requires world.Valid() && Pc().AAcking? && Pc().todo != [] && Pc().todo[0] == e
      modifies world
      ensures world.Valid() && Own(world.trace) == Own(old(world.trace)) + [a] && Keeps(old(world.s), world.s)
      ensures Pc() == Next(old(Pc().todo), old(Pc().claimed)) && Acks(id, e, a)
    {
      var reply: Reply := *;
      Call(AAck(e, reply));
      a := ApplyBy(id, AAck(e, reply));
    }

    /** One handle, and the ack if it succeeded. */
    method HandleAndAck(e: nat, ghost todo: seq<nat>, ghost claimed: bool)
      returns (ok: bool, ghost h: Action, ghost k: Action)
      requires AtEntry(todo, claimed) && todo[0] == e
      modifies world
      ensures world.Valid() && HandlesWith(id, e, h, ok) && Keeps(old(world.s), world.s)
      ensures ok ==> Own(world.trace) == Own(old(world.trace)) + [h] + [k] && Acks(id, e, k)
      ensures ok ==> e in world.s.handled && Pc() == Next(todo, claimed)
      ensures !ok ==> Own(world.trace) == Own(old(world.trace)) + [h] && AtEntry(todo, claimed)
    {
      ghost var at;
      ok, h, at := Handle(e);
      k := h;
      if ok { k := Ack(e); }
    }

    /** A write probe of the store. */
    method Healthy() returns (ok: bool) { ok := *; }

    /** Probes until the store is healthy: only the last probe found it so, unless it was cancelled. */
    method WaitUntilHealthy(ctx: W.Context) returns (probes: seq<bool>)
      modifies ctx
      ensures ctx.patience <= old(ctx.patience) && (old(ctx.cancelled) ==> ctx.cancelled)
      ensures !ctx.cancelled ==> |probes| > 0 && probes[|probes| - 1]
      ensures forall i :: 0 <= i < |probes| - 1 ==> !probes[i]
    {
      probes := [];
      var stop := ctx.Err();
      while !stop
        invariant stop == ctx.cancelled && ctx.patience <= old(ctx.patience) && (old(ctx.cancelled) ==> ctx.cancelled)
        invariant forall i :: 0 <= i < |probes| ==> !probes[i]
        decreases ctx.patience, !stop
      {
        var ok := Healthy();
        probes := probes + [ok];
        if ok { return; }
        var full := ctx.Sleep();
        stop := ctx.Err();
      }
    }

    /** Goes on to the next entry without an ack. */
    method Leave(e: nat, ghost todo: seq<nat>, ghost claimed: bool)
      requires AtEntry(todo, claimed) && todo[0] == e
      modifies world
      ensures world.Valid() && Own(world.trace) == Own(old(world.trace)) + [ApplyBy(id, ALeave(e))]
      ensures Keeps(old(world.s), world.s) && Pc() == Next(todo, claimed)
    {
      Call(ALeave(e));
    }

    /** After a failed handle: one probe unless cancelled, and then a wait, for the store if it was not
        healthy; no wait before an entry is left. */
    method ProbeAndWait(ctx: W.Context, retried: bool) returns (probe: Option<bool>, again: bool)
      modifies ctx
      ensures old(ctx.cancelled) ==> ctx.cancelled
      ensures probe.None? ==> ctx.cancelled
      ensures again ==> ctx.patience < old(ctx.patience)
      ensures probe.Some? ==> if probe.value && retried then !ctx.cancelled else again == !ctx.cancelled
    {
      var stop := ctx.Err();
      if stop { return None, false; }
      var healthy := Healthy();
      if healthy && retried { return Some(healthy), false; }
      if !healthy {
        var waited := WaitUntilHealthy(ctx);
      }
      var full := ctx.Sleep();
      return Some(healthy), full;
    }

    /** Applies one entry, in place again where that may help, and acks it on success. `probes` are the
        health checks after failed handles, one after each. */
    method Process(ctx: W.Context, e: nat, ghost todo: seq<nat>, ghost claimed: bool)
      returns (finished: bool, probes: seq<bool>, ghost job: seq<Action>)
      requires AtEntry(todo, claimed) && todo[0] == e
      modifies world, ctx
      ensures world.Valid() && (old(ctx.cancelled) ==> ctx.cancelled) && Keeps(old(world.s), world.s)
      ensures Own(world.trace) == Own(old(world.trace)) + job
      ensures JobEnded(id, e, job, probes, finished, ctx.cancelled) && (finished ==> e in world.s.handled)
      ensures finished || !ctx.cancelled ==> Pc() == Next(todo, claimed)
    {
      ghost var start := world.s;
      KeepsItself(start);
      var retriedWhileHealthy := false;
      probes, job := [], [];
      assert InProgress(id, e, job, probes, false);
      hide InProgress; hide JobEnded; hide HandlesWith; hide Acks; hide Own; hide Keeps; hide W.World.Valid; hide Next;
      while true
        invariant AtEntry(todo, claimed) && (old(ctx.cancelled) ==> ctx.cancelled) && Keeps(start, world.s)
        invariant InProgress(id, e, job, probes, retriedWhileHealthy)
        invariant Own(world.trace) == Own(old(world.trace)) + job
        decreases ctx.patience
      {
        ghost var before := world.s;
        var ok;
        ghost var h, k;
        ok, h, k := HandleAndAck(e, todo, claimed);
        KeepsTransitive(start, before, world.s);
        if ok {
          JobSucceeds(id, e, job, probes, retriedWhileHealthy, h, k, ctx.cancelled);
          return true, probes, job + [h] + [k];
        }
        var probe, again := ProbeAndWait(ctx, retriedWhileHealthy);
        if probe.None? {
          JobCut(id, e, job, probes, retriedWhileHealthy, h);
          return false, probes, job + [h];
        }
        if probe.value && retriedWhileHealthy {
          before := world.s;
          Leave(e, todo, claimed);
          KeepsTransitive(start, before, world.s);
          JobGivesUp(id, e, job, probes, h);
          return false, probes + [true], job + [h] + [ApplyBy(id, ALeave(e))];
        }
        JobGoesOn(id, e, job, probes, retriedWhileHealthy, h, probe.value);
        probes, job := probes + [probe.value], job + [h];
        retriedWhileHealthy := retriedWhileHealthy || probe.value;
        if !again { return false, probes, job; }
      }
    }

    /** One batch of new entries, in order. Each entry gets its own result whatever happened to its
        neighbours, and the batch fails exactly when some entry could not be finished. */
    method ReadOnce(ctx: W.Context)
      returns (r: ReadResult, entries: seq<nat>, ghost results: seq<bool>, ghost read: seq<Action>,
        ghost jobs: seq<seq<Action>>)
      requires Idle()
      modifies world, ctx
      ensures world.Valid() && (!ctx.cancelled ==> Pc().AIdle?) && |entries| <= batchSize && |read| <= 1
      ensures BatchOk(id, world.s, entries, results, jobs, ctx.cancelled)
      ensures !ctx.cancelled ==> |results| == |entries| && (r.EntriesFailed? <==> false in results)
      ensures Own(world.trace) == Own(old(world.trace)) + read + W.Concat(jobs)
    {
      var err;
      ghost var at;
      err, entries, read, at := ReadNew();
      hide EntryJob; hide GivenUp; hide Own;
      results, jobs := [], [];
      if !err.AllFinished? { return err, entries, results, read, jobs; }
      AtStart(entries);
      hide BatchOk;
      r, results, jobs := ProcessBatch(ctx, entries);
    }

    method ProcessBatch(ctx: W.Context, entries: seq<nat>)
      returns (r: ReadResult, ghost results: seq<bool>, ghost jobs: seq<seq<Action>>)
      requires At(entries, 0)
      modifies world, ctx
      ensures world.Valid() && (!ctx.cancelled ==> Pc().AIdle?)
      ensures BatchOk(id, world.s, entries, results, jobs, ctx.cancelled)
      ensures !ctx.cancelled ==> |results| == |entries| && (r.EntriesFailed? <==> false in results)
      ensures Own(world.trace) == Own(old(world.trace)) + W.Concat(jobs)
    {
      results, jobs := [], [];
      BatchStart(entries);
      hide EntryJob; hide GivenUp; hide Own; hide At; hide Idle; hide BatchOk;
      var failed := 0;
      var i := 0;
      while i < |entries|
        invariant 0 <= i <= |entries| && |results| == |jobs| == i && At(entries, i)
        invariant failed > 0 <==> false in results
        invariant BatchOk(id, world.s, entries, results, jobs, false)
        invariant Own(world.trace) == Own(old(world.trace)) + W.Concat(jobs)
      {
        AtMeans(entries, i);
        var stop := ctx.Err();
        if stop {
          WhenCut(entries, results, jobs);
          return AllFinished, results, jobs;
        }
        var finished;
        ghost var job, before := *, world.s;
        finished, job := ProcessAt(ctx, entries, i);
        if !finished { failed := failed + 1; }
        W.ConcatSnoc(jobs, job);
        BatchSnoc(id, before, world.s, entries, results, jobs, finished, job, !finished && ctx.cancelled);
        results, jobs := results + [finished], jobs + [job];
        if !finished && ctx.cancelled { return EntriesFailed, results, jobs; }
        i := i + 1;
      }
      AtMeans(entries, i);
      WhenCut(entries, results, jobs);
      r := if failed > 0 then EntriesFailed else AllFinished;
    }

    lemma BatchStart(entries: seq<nat>)
      ensures BatchOk(id, world.s, entries, [], [], false)
    {
    }

    lemma WhenCut(entries: seq<nat>, results: seq<bool>, jobs: seq<seq<Action>>)
      requires BatchOk(id, world.s, entries, results, jobs, false)
      ensures BatchOk(id, world.s, entries, results, jobs, true)
    {
      hide EntryJob; hide GivenUp;
    }

    /** Before entry i of a batch, or after its last entry. */
    ghost predicate At(entries: seq<nat>, i: nat)
      requires i <= |entries|
      reads world
    {
      if i < |entries| then AtEntry(entries[i..], false) else Idle()
    }

    lemma AtStart(entries: seq<nat>)
      requires world.Valid() && (if entries == [] then Pc().AIdle? else Pc() == AWorking(entries, false, false))
      ensures At(entries, 0)
    {
      assert entries[0..] == entries;
    }

    lemma AtMeans(entries: seq<nat>, i: nat)
      requires i <= |entries| && At(entries, i)
      ensures world.Valid() && (i == |entries| ==> Pc().AIdle?)
    {
    }

    method ProcessAt(ctx: W.Context, entries: seq<nat>, i: nat) returns (finished: bool, ghost job: seq<Action>)
      requires i < |entries| && At(entries, i)
      modifies world, ctx
      ensures world.Valid() && (old(ctx.cancelled) ==> ctx.cancelled) && world.s.handled >= old(world.s.handled)
      ensures finished || !ctx.cancelled ==> At(entries, i + 1)
      ensures Own(world.trace) == Own(old(world.trace)) + job && EntryJob(id, entries[i], job, finished)
      ensures finished ==> entries[i] in world.s.handled
      ensures !finished && !ctx.cancelled ==> GivenUp(id, entries[i], job)
    {
      hide Finished; hide GivenUp; hide CutShort; hide Own; hide W.World.Valid;
      var probes;
      finished, probes, job := Process(ctx, entries[i], entries[i..], false);
      assert i + 1 < |entries| ==> entries[i..][1..] == entries[i + 1..];
    }

    /** One claimed entry: dropped exactly when its delivery count is above the threshold, processed
        otherwise, or left pending when the count cannot be read. */
    method ProcessClaimed(ctx: W.Context, e: nat, ghost todo: seq<nat>)
      returns (ghost job: seq<Action>, ghost fate: Fate, ghost deliveries: Option<nat>)
      requires world.Valid() && todo != [] && todo[0] == e && Pc() == AWorking(todo, true, false)
      modifies world, ctx
      ensures world.Valid() && (old(ctx.cancelled) ==> ctx.cancelled) && Keeps(old(world.s), world.s)
      ensures !ctx.cancelled ==> Pc() == Next(todo, true)
      ensures Own(world.trace) == Own(old(world.trace)) + job && ClaimedJob(id, e, job, fate)
      ensures Recorded(world.s, e, fate)
      ensures fate.Left? <==> deliveries.None?
      ensures deliveries.Some? ==> (fate.Dropped? <==> deliveries.value > world.limits.statusPoison)
    {
      hide Finished; hide GivenUp; hide CutShort;
      var counted: bool := *;
      if !counted {
        Call(ALeave(e));
        return [ApplyBy(id, ALeave(e))], Left, None;
      }
      Call(ALookup(e));
      job := [ApplyBy(id, ALookup(e))];
      deliveries := Some(Deliveries(world.s.sg, e));
      if Pc().AAcking? {
        ghost var k := Ack(e);
        job, fate := job + [k], Dropped;
      } else {
        var finished, probes;
        ghost var handling;
        finished, probes, handling := Process(ctx, e, todo, true);
        job, fate := job + handling, if finished then Handled else Unhandled;
        assert job[1..] == handling;
      }
    }

    /** Before entry i of a claimed batch, or after its last entry. */
    ghost predicate AtClaimed(entries: seq<nat>, i: nat)
      requires i <= |entries|
      reads world
    {
      world.Valid() && if i < |entries| then Pc() == AWorking(entries[i..], true, false) else Pc().AIdle?
    }

    method ClaimedAt(ctx: W.Context, entries: seq<nat>, i: nat) returns (ghost job: seq<Action>, ghost fate: Fate)
      requires i < |entries| && AtClaimed(entries, i)
      modifies world, ctx
      ensures world.Valid() && (old(ctx.cancelled) ==> ctx.cancelled) && Keeps(old(world.s), world.s)
      ensures !ctx.cancelled ==> AtClaimed(entries, i + 1)
      ensures Own(world.trace) == Own(old(world.trace)) + job
      ensures ClaimedJob(id, entries[i], job, fate) && Recorded(world.s, entries[i], fate)
    {
      hide ClaimedJob; hide Own; hide W.World.Valid;
      ghost var deliveries;
      job, fate, deliveries := ProcessClaimed(ctx, entries[i], entries[i..]);
      assert i + 1 < |entries| ==> entries[i..][1..] == entries[i + 1..];
    }

    lemma RoundSnoc(s: State, t: State, r: Round, job: seq<Action>, fate: Fate)
      requires RoundOk(id, batchSize, s, r) && Keeps(s, t) && |r.jobs| < |r.entries|
      requires ClaimedJob(id, r.entries[|r.jobs|], job, fate) && Recorded(t, r.entries[|r.jobs|], fate)
      ensures RoundOk(id, batchSize, t, r.(fates := r.fates + [fate], jobs := r.jobs + [job]))
    {
      hide ClaimedJob; hide ClaimOf;
    }

    lemma RoundStart(claim: seq<Action>, entries: seq<nat>)
      requires ClaimOf(id, claim, entries) && |entries| <= batchSize
      ensures RoundOk(id, batchSize, world.s, Round(claim, entries, [], [])) && entries[0..] == entries
    {
    }

    /** One claim, and every entry it returned in turn, unless cancelled. `full` asks for another round. */
    method ClaimRound(ctx: W.Context) returns (err: ReadResult, full: bool, ghost r: Round)
      requires Idle()
      modifies world, ctx
      ensures world.Valid() && (!ctx.cancelled ==> Pc().AIdle?) && (full ==> Pc().AIdle?)
      ensures Own(world.trace) == Own(old(world.trace)) + r.claim + W.Concat(r.jobs)
      ensures RoundOk(id, batchSize, world.s, r) && (!ctx.cancelled ==> |r.jobs| == |r.entries|)
      ensures Keeps(old(world.s), world.s) && (full ==> |r.jobs| == batchSize && err.AllFinished?)
    {
      hide Own; hide RoundOk; hide ClaimOf; hide Keeps;
      var entries;
      ghost var claim;
      ghost var at;
      err, entries, claim, at := ClaimStale();
      ghost var before := world.s;
      RoundStart(claim, entries);
      r := Round(claim, entries, [], []);
      KeepsItself(before);
      full := false;
      if err.AllFinished? {
        r := ProcessRound(ctx, entries, r);
        full := |entries| == batchSize && Pc().AIdle? && !ctx.cancelled;
      }
      KeepsTransitive(old(world.s), before, world.s);
    }

    method ProcessRound(ctx: W.Context, entries: seq<nat>, ghost claimed: Round) returns (ghost r: Round)
      requires AtClaimed(entries, 0) && claimed == Round(claimed.claim, entries, [], [])
      requires RoundOk(id, batchSize, world.s, claimed)
      modifies world, ctx
      ensures world.Valid() && (!ctx.cancelled ==> Pc().AIdle?) && Keeps(old(world.s), world.s)
      ensures Own(world.trace) == Own(old(world.trace)) + W.Concat(r.jobs)
      ensures r.claim == claimed.claim && r.entries == entries && RoundOk(id, batchSize, world.s, r)
      ensures !ctx.cancelled ==> |r.jobs| == |entries|
    {
      hide ClaimedJob; hide Own; hide RoundOk; hide Recorded; hide Keeps;
      r := claimed;
      ghost var start := world.s;
      KeepsItself(start);
      var i := 0;
      while i < |entries|
        invariant 0 <= i <= |entries| && |r.jobs| == |r.fates| == i && AtClaimed(entries, i)
        invariant r.entries == entries && r.claim == claimed.claim && RoundOk(id, batchSize, world.s, r)
        invariant Keeps(start, world.s) && Own(world.trace) == Own(old(world.trace)) + W.Concat(r.jobs)
      {
        var stop := ctx.Err();
        if stop { return; }
        ghost var before := world.s;
        ghost var job, fate := ClaimedAt(ctx, entries, i);
        W.ConcatSnoc(r.jobs, job);
        RoundSnoc(before, world.s, r, job, fate);
        KeepsTransitive(start, before, world.s);
        r := r.(fates := r.fates + [fate], jobs := r.jobs + [job]);
        if ctx.cancelled { return; }
        i := i + 1;
      }
    }

    /** Another claim follows each full batch, up to MAX_RECOVERY_ROUNDS of them. */
    method ClaimAndProcess(ctx: W.Context) returns (err: ReadResult, ghost rounds: seq<Round>)
      requires Idle()
      modifies world, ctx
      ensures world.Valid() && (!ctx.cancelled ==> Pc().AIdle?)
      ensures Own(world.trace) == Own(old(world.trace)) + Rounds(rounds) && RoundsOk(id, batchSize, world.s, rounds)
    {
      rounds := [];
      NoRounds();
      hide Own; hide Rounds; hide RoundsOk; hide AllFull; hide W.World.Valid;
      err := AllFinished;
      var n, full := 0, true;
      while n < MAX_RECOVERY_ROUNDS && full
        invariant 0 <= n <= MAX_RECOVERY_ROUNDS && |rounds| == n && world.Valid()
        invariant (!ctx.cancelled || full ==> Pc().AIdle?) && (full ==> AllFull(batchSize, rounds) && err.AllFinished?)
        invariant Own(world.trace) == Own(old(world.trace)) + Rounds(rounds)
        invariant RoundsOk(id, batchSize, world.s, rounds)
        decreases MAX_RECOVERY_ROUNDS - n
      {
        ghost var r;
        err, full, r := AnotherRound(ctx, rounds);
        RoundsSnoc(rounds, r);
        rounds := rounds + [r];
        n := n + 1;
      }
    }

    method AnotherRound(ctx: W.Context, ghost rounds: seq<Round>)
      returns (err: ReadResult, full: bool, ghost r: Round)
      requires Idle() && RoundsOk(id, batchSize, world.s, rounds) && AllFull(batchSize, rounds)
      requires |rounds| < MAX_RECOVERY_ROUNDS
      modifies world, ctx
      ensures world.Valid() && (!ctx.cancelled || full ==> Pc().AIdle?) && (full ==> err.AllFinished?)
      ensures Own(world.trace) == Own(old(world.trace)) + r.claim + W.Concat(r.jobs)
      ensures RoundsOk(id, batchSize, world.s, rounds + [r]) && (full ==> AllFull(batchSize, rounds + [r]))
    {
      hide RoundOk; hide Own; hide RoundsOk; hide AllFull; hide Keeps; hide W.Concat;
      ghost var before := world.s;
      err, full, r := ClaimRound(ctx);
      RoundsStay(id, batchSize, before, world.s, rounds);
      OneMoreRound(id, batchSize, world.s, rounds, r);
    }

    lemma NoRounds()
      ensures Rounds([]) == [] && RoundsOk(id, batchSize, world.s, []) && AllFull(batchSize, [])
    {
    }

    /** Deletes idle consumers other than this one; one with pending entries is never deleted. */
    method CleanupConsumers(candidates: seq<WorkerId>) returns (deleted: seq<WorkerId>)
      requires Idle()
      modifies world
      ensures Idle() && Own(world.trace) == Own(old(world.trace)) && Keeps(old(world.s), world.s)
      ensures id !in deleted && forall d :: d in deleted ==> d in candidates
    {
      deleted := [];
      var i := 0;
      while i < |candidates|
        invariant 0 <= i <= |candidates| && Idle() && Keeps(old(world.s), world.s)
        invariant Own(world.trace) == Own(old(world.trace))
        invariant id !in deleted && forall d :: d in deleted ==> d in candidates
      {
        world.Others(TheApplier(id));
        var other := candidates[i];
        if other != id && forall e <- world.s.sg.pending.Keys :: world.s.sg.pending[e].owner != other {
          world.Act(StatusGroup(Cleanup(other)));
          deleted := deleted + [other];
        }
        i := i + 1;
      }
    }

    /** A claim bumps delivery counts, so it is skipped while the store takes no writes. */
    method RecoverOnce(ctx: W.Context) returns (err: ReadResult, healthy: bool, ghost rounds: seq<Round>)
      requires Idle()
      modifies world, ctx
      ensures world.Valid() && (!ctx.cancelled ==> Pc().AIdle?)
      ensures Own(world.trace) == Own(old(world.trace)) + Rounds(rounds) && RoundsOk(id, batchSize, world.s, rounds)
      ensures !healthy ==> rounds == []
    {
      err, rounds := AllFinished, [];
      healthy := Healthy();
      if healthy {
        err, rounds := ClaimAndProcess(ctx);
      }
      hide Own;
      if Pc().AIdle? {
        ghost var before := world.s;
        var candidates: seq<WorkerId> := *;
        var deleted := CleanupConsumers(candidates);
        RoundsStay(id, batchSize, before, world.s, rounds);
      }
    }

    method EnsureGroup(ctx: W.Context) returns (ready: bool)
      requires Idle()
      modifies world, ctx
      ensures Idle() && if ready then world.s.sg.alive else ctx.cancelled
    {
      while true
        invariant Idle()
        decreases ctx.patience
      {
        world.Others(TheApplier(id));
        var created: bool := *;
        if created {
          world.Act(StatusGroup(Created));
          return true;
        }
        var full := ctx.Sleep();
        if !full { return false; }
      }
    }

    /** Recovery when it is due, then one read, until the context is cancelled. */
    method Run(ctx: W.Context, rounds: nat)
      requires Idle()
      modifies world, ctx
      ensures world.Valid()
    {
      var ready := EnsureGroup(ctx);
      if !ready { return; }
      var n := 0;
      while n < rounds
        invariant 0 <= n <= rounds && Idle()
      {
        var stop := ctx.Err();
        if stop { return; }
        var due: bool := *;
        if due {
          ghost var recovered;
          var err, healthy;
          err, healthy, recovered := RecoverOnce(ctx);
          if ctx.cancelled { return; }
          if err.NoGroupError? {
            ready := EnsureGroup(ctx);
            if !ready { return; }
          }
        }
        var r, entries;
        ghost var results, read, jobs;
        r, entries, results, read, jobs := ReadOnce(ctx);
        if ctx.cancelled { return; }
        match r {
          case AllFinished =>
          case NoGroupError =>
            ready := EnsureGroup(ctx);
            if !ready { return; }
          case _ => var full := ctx.Sleep();
        }
        n := n + 1;
      }
    }
  }
}
