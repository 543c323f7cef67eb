/** The ingest consumer: one entry at a time, publish before acknowledging, and hold a status that
    cannot be published. Its calls run in the shared world, so every call must be one the step
    system allows at that point. Entries are taken to be well-formed ingest events. */
module StreamConsumer {
  import opened Domain
  import opened System
  import opened Frames
  import opened Streams
  import Dog = Watchdog
  import W = World
  import CustodyInvariant
  import HD = HoldDiscipline

  const MAX_CLAIM_PAGES := 100

  datatype Settings = Settings(publishAttempts: nat, callTimeout: nat, maxRecoveryJobs: nat)

  /** How a step of the loop ended: normally, or with one of the errors `Guarded` tells apart. */
  datatype Outcome = Fine | NoGroupFailure | RedisFailure | UnexpectedFailure

  /** Start times of the attempts: after the first, one starts only while a whole call still fits
      before the entry becomes reclaimable. */
  predicate WithinBudget(starts: seq<Time>, settings: Settings, reclaimableAt: Time) {
    |starts| <= settings.publishAttempts
    && forall i :: 1 <= i < |starts| ==> starts[i] + settings.callTimeout < reclaimableAt
  }

  /** Exactly the last attempt may have succeeded. */
  predicate OnlyLastSucceeds(replies: seq<Reply>, ok: bool) {
    && (forall i :: 0 <= i < |replies| - 1 ==> !replies[i].Done?)
    && (ok <==> |replies| > 0 && replies[|replies| - 1].Done?)
  }

  /** The end of one entry: publishes of which exactly the last may succeed, then the
      acknowledgement if one did, the hold if none did, or nothing more after an unexpected error. */
  predicate Reporting(w: WorkerId, job: seq<Action>, finished: bool, failure: Outcome) {
    && |job| > 0 && (forall i :: 0 <= i < |job| ==> job[i].ConsumeBy? && job[i].w == w)
    && (forall i :: 0 <= i < |job| - 1 ==>
          job[i].consume.CPublish? && (job[i].consume.reply.Done? <==> finished && i == |job| - 2))
    && var last := job[|job| - 1].consume;
       if finished then |job| >= 2 && last.CAck? else if failure.Fine? then last.CHold? else last.CAbandon?
  }

  /** A job run, then its report. */
  predicate Handling(w: WorkerId, job: seq<Action>, finished: bool, failure: Outcome) {
    |job| > 0 && job[0].ConsumeBy? && job[0].w == w && job[0].consume.CRun? && Reporting(w, job[1..], finished, failure)
  }

  /** A read, and the handling of the entry it delivered, if it did. */
  predicate Reading(w: WorkerId, job: seq<Action>, failure: Outcome) {
    || job == []
    || (job[0].ConsumeBy? && job[0].w == w && job[0].consume.CRead?
        && if job[0].consume.reply.Done? then exists finished :: Handling(w, job[1..], finished, failure)
           else job[1..] == [] && failure == RedisFailure)
  }

  /** One claimed entry: its delivery count is looked up, and then it is skipped, reported or handled;
      `holds` when that left its status held. */
  ghost predicate Takeover(w: WorkerId, visit: seq<Action>, holds: bool) {
    && |visit| >= 2 && visit[0].ConsumeBy? && visit[0].w == w && visit[0].consume.CClaim?
      && visit[0].consume.reply.Done?
    && visit[1].ConsumeBy? && visit[1].w == w && visit[1].consume.CLookup?
    && ((visit[2..] == [] && !holds) || exists finished, failure :: Ended(w, visit[2..], finished, failure, holds))
  }

  ghost predicate Ended(w: WorkerId, job: seq<Action>, finished: bool, failure: Outcome, holds: bool) {
    (Reporting(w, job, finished, failure) || Handling(w, job, finished, failure))
      && (holds <==> !finished && failure.Fine?)
  }

  /** How many jobs were run. */
  function Jobs(acts: seq<Action>): nat {
    if acts == [] then 0
    else Jobs(acts[..|acts| - 1]) + (if acts[|acts| - 1].ConsumeBy? && acts[|acts| - 1].consume.CRun? then 1 else 0)
  }

  lemma {:induction false} JobsAppend(a: seq<Action>, b: seq<Action>)
    ensures Jobs(a + b) == Jobs(a) + Jobs(b)
  {
    if b == [] {
      assert a + b == a;
    } else {
      JobsAppend(a, b[..|b| - 1]);
      assert (a + b)[..|a + b| - 1] == a + b[..|b| - 1];
    }
  }

  lemma {:induction false} ReportRunsNothing(w: WorkerId, job: seq<Action>, finished: bool, failure: Outcome)
    requires Reporting(w, job, finished, failure)
    ensures Jobs(job) == 0
  {
    NoRuns(job);
  }

  lemma TakeoverRunsOnce(w: WorkerId, visit: seq<Action>, holds: bool)
    requires Takeover(w, visit, holds)
    ensures Jobs(visit) <= 1
  {
    NoRuns(visit[..2]);
    JobsAppend(visit[..2], visit[2..]);
    assert visit == visit[..2] + visit[2..];
    if visit[2..] != [] {
      var finished, failure :| Ended(w, visit[2..], finished, failure, holds);
      var job := visit[2..];
      if Reporting(w, job, finished, failure) {
        ReportRunsNothing(w, job, finished, failure);
      } else {
        ReportRunsNothing(w, job[1..], finished, failure);
        JobsAppend(job[..1], job[1..]);
        assert job == job[..1] + job[1..] && job[..1][..0] == [];
      }
    }
  }

  /** A recovery pass runs at most one job per takeover. */
  lemma {:induction false} TakeoversRunOnce(w: WorkerId, visits: seq<seq<Action>>, holds: seq<bool>)
    requires |holds| == |visits| && forall i :: 0 <= i < |visits| ==> Takeover(w, visits[i], holds[i])
    ensures Jobs(W.Concat(visits)) <= |visits|
  {
    hide Takeover;
    if visits != [] {
      var n := |visits| - 1;
      TakeoversRunOnce(w, visits[..n], holds[..n]);
      TakeoverRunsOnce(w, visits[n], holds[n]);
      JobsAppend(W.Concat(visits[..n]), visits[n]);
    }
  }

  lemma {:induction false} NoRuns(acts: seq<Action>)
    requires forall i :: 0 <= i < |acts| ==> acts[i].ConsumeBy? && !acts[i].consume.CRun?
    ensures Jobs(acts) == 0
  {
    if acts != [] { NoRuns(acts[..|acts| - 1]); }
  }

  class Consumer {
    const name: WorkerId
    const world: W.World
    const watchdog: Dog.Watchdog
    const settings: Settings
    var held: Option<(nat, StatusEvent)>
    var heldFailures: nat

    constructor (name: WorkerId, world: W.World, watchdog: Dog.Watchdog, settings: Settings)
      ensures this.name == name && this.world == world && this.watchdog == watchdog && this.settings == settings
      ensures held.None? && heldFailures == 0
    {
      this.name, this.world, this.watchdog, this.settings := name, world, watchdog, settings;
      held, heldFailures := None, 0;
    }

    function Pc(): ConsumerPc
      reads world
    {
      world.s.Consumer(name)
    }

    /** What this consumer has done so far. */
    ghost function Own(): seq<Action>
      reads world
    {
      W.OwnActions(world.trace, TheConsumer(name))
    }

    /** The held field says exactly whether, and which, status is held. */
    ghost predicate Valid()
      reads this, world, watchdog
    {
      && world.Valid() && watchdog.Valid() && !watchdog.Armed()
      && held == if Pc().CHeld? then Some((Pc().entry, Pc().event)) else None
    }

    /** Between two iterations of the loop: idle, or holding. */
    ghost predicate Ready()
      reads this, world, watchdog
    {
      Valid() && (Pc().CIdle? || Pc().CHeld?)
    }

    /** One action of this consumer, after any steps of the others: `at` is the state it met. */
    method Call(a: ConsumerAction) returns (ghost at: State)
      requires world.Valid() && !a.CRead? && !a.CClaim? && !a.CLookup? && !a.CRun? && !a.CCrash?
      requires ConsumerEnabled(world.limits, world.s, Pc(), a)
      modifies world
      ensures world.Valid() && Own() == old(Own()) + [ConsumeBy(name, a)]
      ensures old(world.s).status <= at.status <= world.s.status && old(world.s).ingest <= at.ingest == world.s.ingest
      ensures var pc := old(Pc());
        match a
        case CPublish(reply) => Pc() == if reply.Done? then CAcking(pc.entry) else pc
        case CHold => Pc() == CHeld(pc.entry, pc.event)
        case CRenew(_, _) => Pc() == pc
        case _ => Pc().CIdle?
      ensures Does(at, world.s, old(Pc()), a)
    {
      world.Others(TheConsumer(name));
      at := world.s;
      Effect(world.limits, at, a);
      hide Does;
      world.Act(ConsumeBy(name, a));
    }

    /** What an action does to the streams: a publish that took effect appends exactly the event, an
        acknowledgement drops exactly the entry, and a renewal changes no delivery count. */
    ghost predicate Does(s: State, t: State, pc: ConsumerPc, a: ConsumerAction) {
      match a
      case CPublish(reply) => (pc.CReporting? || pc.CHeld?)
        && t.status == s.status + (if reply.Applied() then [StatusEntry(pc.event, pc.entry)] else []) && t.ig == s.ig
      case CAck(reply) => pc.CAcking? && t.status == s.status
        && t.ig.pending == s.ig.pending - (if reply.Applied() then {pc.entry} else {})
      case CRenew(now, reply) => pc.CHeld? && t.status == s.status && t.ig.pending.Keys == s.ig.pending.Keys
        && forall e :: e in s.ig.pending ==>
             if e == pc.entry && reply.Applied() then
               t.ig.pending[e].owner == name && t.ig.pending[e].deliveredAt == now
               && t.ig.pending[e].deliveries == s.ig.pending[e].deliveries
             else t.ig.pending[e] == s.ig.pending[e]
      case _ => t.status == s.status && t.ig == s.ig
    }

    lemma Effect(l: Limits, s: State, a: ConsumerAction)
      requires !a.CRead? && !a.CClaim? && ConsumerEnabled(l, s, s.Consumer(name), a)
      ensures Does(s, DoConsumer(l, s, name, a), s.Consumer(name), a)
      ensures s.status <= DoConsumer(l, s, name, a).status
    {
    }

    /** A status for the entry is in the stream: the entry's own document and attempt, and this report. */
    ghost predicate Published(e: nat, report: Report)
      reads world
    {
      && e < |world.s.ingest|
      && StatusEntry(StatusEvent(world.s.ingest[e].hash, world.s.ingest[e].attempts, report), e) in world.s.status
    }

    /** The consumer holds, or is about to publish, exactly this report on the entry. */
    ghost predicate Carries(e: nat, report: Report)
      reads world
    {
      && (Pc().CReporting? || Pc().CHeld?) && Pc().entry == e < |world.s.ingest|
      && Pc().event.hash == world.s.ingest[e].hash && Pc().event.attempts == world.s.ingest[e].attempts
      && Pc().event.report == report
    }

    // ---- group

    /** XGROUP CREATE at ID 0; an existing group is fine. */
    method EnsureGroup() returns (created: bool)
      requires Ready()
      modifies world
      ensures Ready() && held == old(held) && Own() == old(Own()) && (created ==> world.s.ig.alive)
    {
      world.Others(TheConsumer(name));
      GroupFrame(world.limits, world.s, Created);
      hide Do; hide Enabled;
      created := *;
      if created { world.Act(IngestGroup(Created)); }
    }

    method EnsureGroupUntilReady(ctx: W.Context) returns (ready: bool)
      requires Ready()
      modifies world, ctx
      ensures Ready() && held == old(held) && Own() == old(Own()) && if ready then world.s.ig.alive else ctx.cancelled
    {
      while true
        invariant Ready() && held == old(held) && Own() == old(Own())
        decreases ctx.patience
      {
        var stop := ctx.Err();
        if stop { return false; }
        var created := EnsureGroup();
        if created { return true; }
        var full := ctx.Sleep();
        if !full { return false; }
      }
    }

    // ---- loop

    /** While a status is held nothing else happens; otherwise recovery when it is due, then a read. All
        this consumer ever performed is disciplined: acknowledgements follow their publish, jobs follow
        their delivery, and nothing is read, claimed or run while a status is held. */
    method Run(ctx: W.Context, rounds: nat)
      requires Ready()
      modifies this, world, watchdog, ctx
      ensures Ready() && HD.Disciplined(HD.Performed(world.limits, world.trace, name))
    {
      Rounds(ctx, rounds);
      HD.ConsumersAreDisciplined(world.limits, world.trace, name);
    }

    method Rounds(ctx: W.Context, rounds: nat)
      requires Ready()
      modifies this, world, watchdog, ctx
      ensures Ready()
    {
      var ready := EnsureGroupUntilReady(ctx);
      if !ready { return; }
      var n := 0;
      while n < rounds
        invariant 0 <= n <= rounds && Ready()
      {
        n := n + 1;
        var stop := ctx.Err();
        if stop { return; }
        if held.Some? {
          var published, failure, job := RetryHeld();
          Guarded(ctx, failure);
          if held.Some? { var full := ctx.Sleep(); }
          continue;
        }
        var due: bool := *;
        if due {
          var failure, visits, rest := RecoverOnce(ctx);
          Guarded(ctx, failure);
          if held.Some? { continue; }
        }
        var failure, job, at := ReadOnce(ctx);
        Guarded(ctx, failure);
      }
    }

    /** Creates a vanished group again; backs off after any other failure. */
    method Guarded(ctx: W.Context, failure: Outcome)
      requires Ready()
      modifies world, ctx
      ensures Ready() && held == old(held) && Own() == old(Own())
    {
      match failure {
        case Fine =>
        case NoGroupFailure => var ready := EnsureGroupUntilReady(ctx);
        case _ => var full := ctx.Sleep();
      }
    }

    // ---- new entries

    /** XREADGROUP for one new entry; `got` when the next one was delivered to this consumer, its first
        delivery in this lifetime of the group. Nothing is asked for only when `at` has no group or no
        new entry. */
    method ReadGroup()
      returns (failure: Outcome, got: bool, started: Time, ghost job: seq<Action>, ghost at: State)
      requires Ready() && held.None?
      modifies world
      ensures Valid() && held.None? && Own() == old(Own()) + job && (if got then Pc().CGot? else Pc().CIdle?)
      ensures if got then |job| == 1 && job[0].ConsumeBy? && job[0].w == name && job[0].consume.CRead?
        && job[0].consume.reply.Done?
              else Reading(name, job, failure)
      ensures got ==> var e, g := Pc().entry, world.s.ig;
        e + 1 == g.delivered && e in g.pending && g.pending[e] == PendingEntry(name, 1, started)
      ensures job == [] <==> !at.ig.alive || at.ig.delivered >= |at.ingest|
    {
      world.Others(TheConsumer(name));
      at := world.s;
      if !world.s.ig.alive { return NoGroupFailure, false, 0, [], at; }
      if world.s.ig.delivered >= |world.s.ingest| { return Fine, false, 0, [], at; }
      started := *;
      var reply: Reply := *;
      world.Act(ConsumeBy(name, CRead(started, reply)));
      job := [ConsumeBy(name, CRead(started, reply))];
      if !reply.Done? { return RedisFailure, false, 0, job, at; }
      return Fine, true, started, job, at;
    }

    /** Reads at most one new entry and handles it. */
    method ReadOnce(ctx: W.Context) returns (failure: Outcome, ghost job: seq<Action>, ghost at: State)
      requires Ready() && held.None?
      modifies this, world, watchdog, ctx
      ensures Ready() && Own() == old(Own()) + job && Reading(name, job, failure)
      ensures job == [] <==> !at.ig.alive || at.ig.delivered >= |at.ingest|
    {
      var got, started;
      failure, got, started, job, at := ReadGroup();
      if !got { return; }
      var finished;
      ghost var handling;
      finished, failure, handling := Handle(ctx, started);
      job := job + handling;
      assert job[1..] == handling;
    }

    // ---- recovery

    method RecoverOnce(ctx: W.Context)
      returns (failure: Outcome, ghost visits: seq<seq<Action>>, ghost rest: seq<Action>)
      requires Ready() && held.None?
      modifies this, world, watchdog, ctx
      ensures Ready() && Own() == old(Own()) + W.Concat(visits) + rest && Recovered(visits, rest)
    {
      failure, visits, rest := ClaimAndProcess(ctx);
      var candidates: seq<WorkerId> := *;
      var deleted := CleanupConsumers(candidates);
    }

    /** A recovery pass: a bounded number of takeovers, none after one that left a status held, and at
        most one claim that failed. */
    ghost predicate Recovered(visits: seq<seq<Action>>, rest: seq<Action>)
      reads this
    {
      && |visits| <= settings.maxRecoveryJobs
      && (forall i :: 0 <= i < |visits| ==> Takeover(name, visits[i], i == |visits| - 1 && held.Some?))
      && (rest == [] || (ClaimJob(rest, false) && held.None?))
    }

    predicate ClaimJob(job: seq<Action>, got: bool) {
      |job| == 1 && job[0].ConsumeBy? && job[0].w == name && job[0].consume.CClaim?
        && (job[0].consume.reply.Done? <==> got)
    }

    /** One claimed entry at a time, and none once a status is held. */
    method ClaimAndProcess(ctx: W.Context)
      returns (failure: Outcome, ghost visits: seq<seq<Action>>, ghost rest: seq<Action>)
      requires Ready() && held.None?
      modifies this, world, watchdog, ctx
      ensures Ready() && Own() == old(Own()) + W.Concat(visits) + rest && Recovered(visits, rest)
    {
      hide Takeover; hide ClaimJob; hide Own; hide Verdict; hide W.World.Valid;
      visits, rest := [], [];
      var jobs := 0;
      while jobs < settings.maxRecoveryJobs
        invariant 0 <= jobs <= settings.maxRecoveryJobs && |visits| == jobs && Ready() && held.None? && rest == []
        invariant Own() == old(Own()) + W.Concat(visits)
        invariant forall i :: 0 <= i < |visits| ==> Takeover(name, visits[i], false)
      {
        var claimed: Option<nat>;
        ghost var claim, visit;
        failure, claimed, claim := ClaimOne();
        if !failure.Fine? || claimed.None? { return failure, visits, claim; }
        jobs := jobs + 1;
        ghost var answer;
        failure, visit, answer := TakeOver(ctx, claim);
        W.ConcatSnoc(visits, claim + visit);
        visits := visits + [claim + visit];
        if !failure.Fine? || held.Some? { return; }
      }
      return Fine, visits, rest;
    }

    /** The lookup's answer decides: nothing when it failed or the entry is not pending under this
        consumer any more; a report and no job when its delivery count is above the threshold; a job
        otherwise. */
    ghost predicate Verdict(answer: Option<Option<(nat, WorkerId)>>, rest: seq<Action>, failure: Outcome)
    {
      if Skips(answer) then rest == []
      else if answer.value.value.0 > world.limits.poisonThreshold then exists ok :: Reporting(name, rest, ok, failure)
      else exists ok :: Handling(name, rest, ok, failure)
    }

    predicate Skips(answer: Option<Option<(nat, WorkerId)>>) {
      answer.None? || answer.value.None? || answer.value.value.1 != name
    }

    lemma Skipped(claim: seq<Action>, known: bool, answer: Option<Option<(nat, WorkerId)>>)
      requires ClaimJob(claim, true) && Skips(answer)
      ensures var visit := [ConsumeBy(name, CLookup(known))];
        visit[1..] == [] && Takeover(name, claim + visit, false) && Verdict(answer, [], Fine)
    {
      assert (claim + [ConsumeBy(name, CLookup(known))])[2..] == [];
    }

    lemma Taken(claim: seq<Action>, known: bool, answer: Option<Option<(nat, WorkerId)>>, job: seq<Action>,
        finished: bool, failure: Outcome, holds: bool)
      requires ClaimJob(claim, true) && !Skips(answer) && (holds <==> !finished && failure.Fine?)
      requires if answer.value.value.0 > world.limits.poisonThreshold then Reporting(name, job, finished, failure)
               else Handling(name, job, finished, failure)
      ensures var visit := [ConsumeBy(name, CLookup(known))] + job;
        visit[1..] == job && Takeover(name, claim + visit, holds) && Verdict(answer, job, failure)
    {
      hide Reporting; hide Handling;
      assert (claim + ([ConsumeBy(name, CLookup(known))] + job))[2..] == job;
      assert Ended(name, job, finished, failure, holds);
    }

    /** Skips a claimed entry that is not pending here any more, reports a poison one, handles the rest. */
    method TakeOver(ctx: W.Context, ghost claim: seq<Action>)
      returns (failure: Outcome, ghost visit: seq<Action>, ghost answer: Option<Option<(nat, WorkerId)>>)
      requires Valid() && held.None? && Pc().CClaimed? && ClaimJob(claim, true)
      modifies this, world, watchdog, ctx
      ensures Ready() && Own() == old(Own()) + visit && Takeover(name, claim + visit, held.Some?)
      ensures |visit| > 0 && Verdict(answer, visit[1..], failure)
    {
      var known, info, lookup := PendingInfo();
      hide Reporting; hide Handling; hide Takeover; hide Verdict; hide ClaimJob; hide Own;
      hide W.World.Valid; hide Carries; hide Published;
      visit, failure := lookup, Fine;
      answer := if known then Some(info) else None;
      if !known || info.None? || info.value.1 != name {
        Skipped(claim, known, answer);
        return;
      }
      var finished;
      ghost var job;
      finished, failure, job := ReportOrHandle(ctx, info.value.0);
      visit := lookup + job;
      Taken(claim, known, answer, job, finished, failure, held.Some?);
    }

    /** More deliveries than the threshold are reported, and the job is not run again. */
    method ReportOrHandle(ctx: W.Context, deliveries: nat)
      returns (finished: bool, failure: Outcome, ghost job: seq<Action>)
      requires Valid()
      requires if deliveries > world.limits.poisonThreshold then
                 Pc().CReporting? && Carries(Pc().entry, ReportFailed(false))
               else Pc().CGot?
      modifies this, world, watchdog, ctx
      ensures Ready() && (held.Some? <==> !finished && failure.Fine?) && Own() == old(Own()) + job
      ensures if deliveries > world.limits.poisonThreshold then Reporting(name, job, finished, failure)
              else Handling(name, job, finished, failure)
    {
      hide Reporting; hide Handling; hide Own; hide Carries; hide Published;
      var started: Time := *;
      if deliveries > world.limits.poisonThreshold {
        finished, failure, job := ReportPoison(ctx, started);
      } else {
        finished, failure, job := Handle(ctx, started);
      }
    }

    /** XAUTOCLAIM with count 1 from a cursor: an entry that had been idle for min_idle and is
        now ours, with one more delivery, or where to go on. */
    method AutoClaim(cursor: nat)
      returns (failure: Outcome, next: nat, entry: Option<nat>, ghost job: seq<Action>, ghost at: Group)
      requires Ready() && held.None?
      modifies world
      ensures Valid() && held.None? && Own() == old(Own()) + job
      ensures if failure.Fine? && entry.Some? then ClaimJob(job, true)
              else job == [] || (ClaimJob(job, false) && failure.RedisFailure?)
      ensures if failure.Fine? && entry.Some? then Pc().CClaimed? && Pc().entry == entry.value else Pc().CIdle?
      ensures failure.Fine? && entry.Some? ==> var e, pending := entry.value, world.s.ig.pending;
        && e in pending && e in at.pending && pending[e].owner == name
        && pending[e].deliveries == at.pending[e].deliveries + 1 == Pc().delivery
        && pending[e].deliveredAt == job[0].consume.now >= at.pending[e].deliveredAt + world.limits.minIdle
    {
      next, entry, job := 0, None, [];
      world.Others(TheConsumer(name));
      at := world.s.ig;
      if !world.s.ig.alive { return NoGroupFailure, 0, None, [], at; }
      var now: Time := *;
      var reply: Reply := *;
      var e: nat := *;
      var more: nat := *;
      if e < cursor || !world.s.ig.Stale(e, world.limits.minIdle, now) { return Fine, more, None, [], at; }
      world.Act(ConsumeBy(name, CClaim(e, now, reply)));
      job := [ConsumeBy(name, CClaim(e, now, reply))];
      if !reply.Done? { return RedisFailure, 0, None, job, at; }
      return Fine, more, Some(e), job, at;
    }

    /** Follows the cursor, a bounded number of pages, to the first entry it can claim. */
    method ClaimOne() returns (failure: Outcome, entry: Option<nat>, ghost job: seq<Action>)
      requires Ready() && held.None?
      modifies world
      ensures Valid() && held.None? && Own() == old(Own()) + job
      ensures if failure.Fine? && entry.Some? then ClaimJob(job, true)
              else job == [] || (ClaimJob(job, false) && failure.RedisFailure?)
      ensures if failure.Fine? && entry.Some? then Pc().CClaimed? && Pc().entry == entry.value else Pc().CIdle?
    {
      var cursor := 0;
      var page := 0;
      while page < MAX_CLAIM_PAGES
        invariant 0 <= page <= MAX_CLAIM_PAGES && Ready() && held.None? && Own() == old(Own())
      {
        var next;
        ghost var at;
        failure, next, entry, job, at := AutoClaim(cursor);
        if !failure.Fine? || entry.Some? { return; }
        if next == 0 { return Fine, None, []; }
        cursor := next;
        page := page + 1;
      }
      return Fine, None, [];
    }

    lemma LookupEffect(l: Limits, s: State, ok: bool)
      requires s.Consumer(name).CClaimed? && s.Consumer(name).entry < |s.ingest|
      ensures var t, e, pending := DoConsumer(l, s, name, CLookup(ok)), s.Consumer(name).entry, s.ig.pending;
        && t.ingest == s.ingest && t.ig == s.ig
        && var pc := t.Consumer(name);
           if !ok || e !in pending || pending[e].owner != name then pc.CIdle?
           else if pending[e].deliveries > l.poisonThreshold then
             && pc.CReporting? && pc.entry == e && pc.event.hash == s.ingest[e].hash
             && pc.event.attempts == s.ingest[e].attempts && pc.event.report == ReportFailed(false)
           else pc.CGot? && pc.entry == e
    {
    }

    /** Delivery count and owner of the claimed entry; None when it is not pending any more. The
        step system then stands where the caller's own checks will send it. */
    method PendingInfo() returns (known: bool, info: Option<(nat, WorkerId)>, ghost lookup: seq<Action>)
      requires Valid() && Pc().CClaimed?
      modifies world
      ensures Valid() && held.None? && Own() == old(Own()) + lookup && lookup == [ConsumeBy(name, CLookup(known))]
      ensures var e, pending := old(Pc()).entry, world.s.ig.pending;
        info == if e in pending then Some((pending[e].deliveries, pending[e].owner)) else None
      ensures var e := old(Pc()).entry;
        if !known || info.None? || info.value.1 != name then Pc().CIdle?
        else if info.value.0 > world.limits.poisonThreshold then
          Pc().CReporting? && Pc().entry == e && Carries(e, ReportFailed(false))
        else Pc().CGot? && Pc().entry == e && Pc().entry < |world.s.ingest|
    {
      world.Others(TheConsumer(name));
      world.Reachable();
      assert CustodyInvariant.ConsumerOk(world.s.ingest, world.s.reported, Pc());
      hide CustodyInvariant.SysInv;
      var e := Pc().entry;
      known := *;
      LookupEffect(world.limits, world.s, known);
      hide DoConsumer; hide AfterLookup;
      info := if e in world.s.ig.pending then Some((world.s.ig.pending[e].deliveries, world.s.ig.pending[e].owner))
        else None;
      world.Act(ConsumeBy(name, CLookup(known)));
      lookup := [ConsumeBy(name, CLookup(known))];
    }

    /** A poison entry is reported as a permanent failure, and acknowledged only once that went out. */
    method ReportPoison(ctx: W.Context, started: Time)
      returns (finished: bool, failure: Outcome, ghost job: seq<Action>)
      requires Valid() && Pc().CReporting? && Carries(Pc().entry, ReportFailed(false))
      modifies this, world, ctx
      ensures Ready() && (held.Some? <==> !finished && failure.Fine?)
      ensures Own() == old(Own()) + job && Reporting(name, job, finished, failure)
      ensures var e := old(Pc()).entry;
        (finished ==> Published(e, ReportFailed(false))) && (held.Some? ==> Carries(e, ReportFailed(false)))
    {
      finished, failure, job := Finish(ctx, started);
    }

    /** Deletes idle consumers other than this one; one with pending entries is never deleted. */
    method CleanupConsumers(candidates: seq<WorkerId>) returns (deleted: seq<WorkerId>)
      requires Ready()
      modifies world
      ensures Ready() && held == old(held) && Own() == old(Own())
      ensures name !in deleted && forall d :: d in deleted ==> d in candidates
    {
      deleted := [];
      var i := 0;
      while i < |candidates|
        invariant 0 <= i <= |candidates| && Ready() && held == old(held) && Own() == old(Own())
        invariant name !in deleted && forall d :: d in deleted ==> d in candidates
      {
        world.Others(TheConsumer(name));
        var other := candidates[i];
        if other != name && forall e <- world.s.ig.pending.Keys :: world.s.ig.pending[e].owner != other {
          world.Act(IngestGroup(Cleanup(other)));
          deleted := deleted + [other];
        }
        i := i + 1;
      }
    }

    // ---- one entry

    /** Run the job under the watchdog, publish its status, acknowledge. What is published, or held, is the
        report this very run of the job ended with, under the hash and attempt of the entry. */
    method Handle(ctx: W.Context, started: Time) returns (finished: bool, failure: Outcome, ghost job: seq<Action>)
      requires Valid() && Pc().CGot?
      modifies this, world, watchdog, ctx
      ensures Ready() && (held.Some? <==> !finished && failure.Fine?)
      ensures Own() == old(Own()) + job && Handling(name, job, finished, failure)
      ensures var e, report := old(Pc()).entry, job[0].consume.report;
        (finished ==> Published(e, report)) && (held.Some? ==> Carries(e, report))
    {
      var g := watchdog.ArmTimer();
      var report := RunJob();
      watchdog.DisarmTimer();
      finished, failure, job := Finish(ctx, started);
      job := [ConsumeBy(name, CRun(report))] + job;
    }

    /** The job itself may end in any report; it only ever runs under an armed watchdog. */
    method RunJob() returns (report: Report)
      requires world.Valid() && Pc().CGot? && watchdog.Valid() && watchdog.Armed()
      modifies world
      ensures world.Valid() && Pc().CReporting? && Own() == old(Own()) + [ConsumeBy(name, CRun(report))]
      ensures Carries(old(Pc()).entry, report)
    {
      world.Others(TheConsumer(name));
      world.Reachable();
      assert CustodyInvariant.ConsumerOk(world.s.ingest, world.s.reported, Pc());
      hide CustodyInvariant.SysInv;
      report := *;
      world.Act(ConsumeBy(name, CRun(report)));
    }

    /** Publish, then acknowledge; or hold the entry with its status. An error that is not a Redis
        error leaves the entry pending, neither acknowledged nor held. */
    method Finish(ctx: W.Context, started: Time) returns (finished: bool, failure: Outcome, ghost job: seq<Action>)
      requires Valid() && Pc().CReporting?
      modifies this, world, ctx
      ensures Own() == old(Own()) + job && Reporting(name, job, finished, failure)
      ensures Ready() && (held.Some? <==> !finished && failure.Fine?)
      ensures held.Some? ==> held.value == (old(Pc()).entry, old(Pc()).event) && heldFailures == 0
      ensures var e, report := old(Pc()).entry, old(Pc()).event.report;
        (finished ==> Published(e, report)) && (held.Some? ==> Carries(e, report))
    {
      ghost var e, report := Pc().entry, Pc().event.report;
      var ok, starts, replies;
      ok, failure, starts, replies := Publish(ctx, started);
      hide Reporting; hide OnlyLastSucceeds; hide Publishes; hide Does; hide WithinBudget;
      hide Carries; hide Published;
      job := Publishes(replies);
      if ok {
        var reply := Ack(e, report);
        Reports(replies, ok, failure, CAck(reply));
        return true, Fine, job + [ConsumeBy(name, CAck(reply))];
      }
      if !failure.Fine? {
        ghost var at := Call(CAbandon);
        Reports(replies, ok, failure, CAbandon);
        return false, failure, job + [ConsumeBy(name, CAbandon)];
      }
      Hold();
      Reports(replies, ok, failure, CHold);
      return false, Fine, job + [ConsumeBy(name, CHold)];
    }

    /** From now on nothing but this status is worked on. */
    method Hold()
      requires world.Valid() && watchdog.Valid() && !watchdog.Armed() && Pc().CReporting?
      modifies this, world
      ensures Valid() && held == Some((old(Pc()).entry, old(Pc()).event)) && heldFailures == 0
      ensures Own() == old(Own()) + [ConsumeBy(name, CHold)] && Carries(old(Pc()).entry, old(Pc()).event.report)
    {
      held, heldFailures := Some((Pc().entry, Pc().event)), 0;
      ghost var at := Call(CHold);
      EventNamesEntry();
    }

    function Publishes(replies: seq<Reply>): seq<Action> {
      seq(|replies|, i requires 0 <= i < |replies| => ConsumeBy(name, CPublish(replies[i])))
    }

    lemma Reports(replies: seq<Reply>, ok: bool, failure: Outcome, last: ConsumerAction)
      requires OnlyLastSucceeds(replies, ok)
      requires if ok then last.CAck? else if failure.Fine? then last.CHold? else last.CAbandon?
      ensures Reporting(name, Publishes(replies) + [ConsumeBy(name, last)], ok, failure)
    {
    }

    /** A few quick retries. At most `publishAttempts` attempts are made, every one after the first
        starts while a whole call still fits before the entry becomes reclaimable, and the result is
        true if and only if one attempt, the last, succeeded. */
    method Publish(ctx: W.Context, started: Time)
      returns (ok: bool, failure: Outcome, starts: seq<Time>, replies: seq<Reply>)
      requires world.Valid() && Pc().CReporting?
      modifies world, ctx
      ensures world.Valid() && |starts| == |replies| && (ok ==> failure.Fine?)
      ensures Own() == old(Own()) + Publishes(replies)
      ensures Pc() == if ok then CAcking(old(Pc()).entry) else old(Pc())
      ensures ok ==> Published(old(Pc()).entry, old(Pc()).event.report)
      ensures WithinBudget(starts, settings, started + world.limits.minIdle) && OnlyLastSucceeds(replies, ok)
    {
      var reclaimableAt := started + world.limits.minIdle;
      var clock: Time := *;
      failure, starts, replies := Fine, [], [];
      var attempt := 0;
      while attempt < settings.publishAttempts
        invariant 0 <= attempt <= settings.publishAttempts && |starts| == |replies| == attempt
        invariant world.Valid() && Pc() == old(Pc()) && failure.Fine? && Own() == old(Own()) + Publishes(replies)
        invariant attempt > 0 ==> clock + settings.callTimeout < reclaimableAt
        invariant forall i :: 1 <= i < |starts| ==> starts[i] + settings.callTimeout < reclaimableAt
        invariant forall i :: 0 <= i < |replies| ==> !replies[i].Done?
      {
        starts := starts + [clock];
        var reply := TryPublish();
        replies := replies + [reply];
        if reply.Done? { return true, Fine, starts, replies; }
        var unexpected: bool := *;
        if unexpected { return false, UnexpectedFailure, starts, replies; }
        if attempt + 1 >= settings.publishAttempts { break; }
        var full := ctx.Sleep();
        if !full { break; }
        clock := *;
        if clock + settings.callTimeout >= reclaimableAt { break; }
        attempt := attempt + 1;
      }
      ok := false;
    }

    /** One publish of the status at hand; a success means that exactly it is in the stream, for the
        document and attempt of its entry. */
    method TryPublish() returns (reply: Reply)
      requires world.Valid() && (Pc().CReporting? || Pc().CHeld?)
      modifies world
      ensures world.Valid() && Own() == old(Own()) + [ConsumeBy(name, CPublish(reply))]
      ensures Pc() == if reply.Done? then CAcking(old(Pc()).entry) else old(Pc())
      ensures reply.Done? ==> Published(old(Pc()).entry, old(Pc()).event.report)
    {
      EventNamesEntry();
      reply := *;
      ghost var at := Call(CPublish(reply));
      if reply.Done? {
        assert world.s.status[|at.status|] == StatusEntry(old(Pc()).event, old(Pc()).entry);
      }
    }

    /** What is carried always names its entry's document and attempt. */
    lemma EventNamesEntry()
      requires world.Valid() && (Pc().CReporting? || Pc().CHeld?)
      ensures Carries(Pc().entry, Pc().event.report)
    {
      world.Reachable();
      assert CustodyInvariant.ConsumerOk(world.s.ingest, world.s.reported, Pc());
    }

    method Ack(ghost e: nat, ghost report: Report) returns (reply: Reply)
      requires world.Valid() && Pc().CAcking? && Published(e, report)
      modifies world
      ensures world.Valid() && Pc().CIdle? && Own() == old(Own()) + [ConsumeBy(name, CAck(reply))]
      ensures Published(e, report)
    {
      reply := *;
      ghost var at := Call(CAck(reply));
    }

    /** A retry of the held publish. Without running the job a second time, the status goes out once more;
        only its success ends the hold, and then the entry is acknowledged. */
    method RetryHeld() returns (published: bool, failure: Outcome, ghost job: seq<Action>)
      requires Ready() && held.Some?
      modifies this, world
      ensures Own() == old(Own()) + job && |job| == (if published then 3 else 2)
      ensures job[0].ConsumeBy? && job[0].consume.CRenew? && job[1].ConsumeBy? && job[1].consume.CPublish?
      ensures published <==> job[1].consume.reply.Done?
      ensures published ==> job[2].ConsumeBy? && job[2].consume.CAck?
      ensures Ready()
      ensures published ==> Published(old(held).value.0, old(held).value.1.report)
      ensures if published then held.None? && heldFailures == 0
              else held == old(held) && heldFailures == old(heldFailures) + if failure.Fine? then 1 else 0
    {
      ghost var e, report := held.value.0, held.value.1.report;
      ghost var renewed;
      job, renewed := Renew();
      var reply := TryPublish();
      job := job + [ConsumeBy(name, CPublish(reply))];
      if !reply.Done? {
        var unexpected: bool := *;
        if unexpected { return false, UnexpectedFailure, job; }
        heldFailures := heldFailures + 1;
        return false, Fine, job;
      }
      held, heldFailures := None, 0;
      var acked := Ack(e, report);
      return true, Fine, job + [ConsumeBy(name, CAck(acked))];
    }

    /** Keeps the held entry from becoming reclaimable, without counting a delivery: `at` is the state the
        call met. */
    method Renew() returns (ghost job: seq<Action>, ghost at: State)
      requires Ready() && held.Some?
      modifies world
      ensures Ready() && held.Some? && Pc() == old(Pc())
      ensures Own() == old(Own()) + job && |job| == 1 && job[0].ConsumeBy? && job[0].consume.CRenew?
      ensures forall e :: e in at.ig.pending ==>
        e in world.s.ig.pending && world.s.ig.pending[e].deliveries == at.ig.pending[e].deliveries
      ensures Pc().entry in at.ig.pending && job[0].consume.reply.Applied() ==>
        var renewed := world.s.ig.pending[Pc().entry];
        renewed.owner == name && renewed.deliveredAt == job[0].consume.now
    {
      var now: Time := *;
      var reply: Reply := *;
      at := Call(CRenew(now, reply));
      job := [ConsumeBy(name, CRenew(now, reply))];
    }
  }
}
