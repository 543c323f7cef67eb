/** The index shared by all jobs, and the adapter calls one job makes on it. Between two calls every
    other job may take any number of steps. */
module QdrantIndex {
  import opened IndexRuns

  /** The points a list of upsert requests writes, in order. */
  function Flatten(batches: seq<seq<Point>>): seq<Point> {
    if batches == [] then [] else Flatten(batches[..|batches| - 1]) + batches[|batches| - 1]
  }

  lemma FlattenSnoc(batches: seq<seq<Point>>, points: seq<Point>, start: nat, count: nat)
    requires start + count <= |points| && Flatten(batches) == points[..start]
    ensures Flatten(batches + [points[start..start + count]]) == points[..start + count]
  {
    var batch := points[start..start + count];
    assert (batches + [batch])[..|batches|] == batches;
  }

  function UpsertAll(points: map<string, Point>, batches: seq<seq<Point>>): map<string, Point> {
    if batches == [] then points else Upserted(UpsertAll(points, batches[..|batches| - 1]), batches[|batches| - 1])
  }

  lemma {:induction false} UpsertedAppend(points: map<string, Point>, a: seq<Point>, b: seq<Point>)
    ensures Upserted(Upserted(points, a), b) == Upserted(points, a + b)
  {
    if b == [] {
      assert a + b == a;
    } else {
      UpsertedAppend(points, a, b[..|b| - 1]);
      assert (a + b)[..|a + b| - 1] == a + b[..|b| - 1];
    }
  }

  /** Any way of cutting the points into requests stores what one request with all of them would. */
  lemma {:induction false} BatchedEqualsUnbatched(points: map<string, Point>, batches: seq<seq<Point>>)
    ensures UpsertAll(points, batches) == Upserted(points, Flatten(batches))
  {
    if batches != [] {
      var n := |batches| - 1;
      BatchedEqualsUnbatched(points, batches[..n]);
      UpsertedAppend(points, Flatten(batches[..n]), batches[n]);
    }
  }

  /** Who makes a call. */
  datatype Caller = Process(w: nat) | Tool

  predicate By(a: Action, me: Caller) { me.Process? && ByJob(a) && a.w == me.w }

  /** The caller's job, if it has one, is as it was. */
  predicate Untouched(me: Caller, s: State, t: State) {
    me.Process? ==>
      (me.w in s.jobs <==> me.w in t.jobs) && (me.w in s.jobs ==> t.jobs[me.w] == s.jobs[me.w])
  }

  lemma OthersLeaveAlone(s: State, a: Action, me: Caller)
    requires Enabled(s, a) && !By(a, me)
    ensures Untouched(me, s, Do(s, a))
  {
  }

  lemma RunAppend(trace: seq<Action>, a: Action)
    requires Enabled(RunAll(Initial(), trace), a)
    ensures var s := RunAll(Initial(), trace);
      && RunAll(Initial(), trace + [a]) == Do(s, a)
      && (SafeRun(Initial(), trace + [a]) <==> SafeRun(Initial(), trace) && Safe(s, a))
  {
    assert (trace + [a])[..|trace|] == trace;
  }

  /** The state all jobs share; it is always one the step system reaches. */
  class IndexWorld {
    var s: State
    ghost var trace: seq<Action>

    ghost predicate Valid()
      reads this
    {
      s == RunAll(Initial(), trace)
    }

    /** No harmful overlap so far. */
    ghost predicate Sound()
      reads this
    {
      SafeRun(Initial(), trace)
    }

    constructor ()
      ensures Valid() && trace == []
    {
      s, trace := Initial(), [];
    }

    lemma Reachable()
      requires Valid() && Sound()
      ensures Inv(s) && Agreement(s)
    {
      IndexAgreesWithRegistry(trace);
    }

    method Act(a: Action)
      requires Valid() && Enabled(s, a)
      modifies this
      ensures Valid() && s == Do(old(s), a) && trace == old(trace) + [a]
      ensures Sound() <==> old(Sound()) && Safe(old(s), a)
    {
      RunAppend(trace, a);
      s := Do(s, a);
      trace := trace + [a];
    }

    /** Anybody else takes any number of steps, resets and jobs of the same document included. */
    method Interfere(me: Caller)
      requires Valid()
      modifies this
      ensures Valid() && Untouched(me, old(s), s) && (Sound() ==> old(Sound()))
    {
      var script: seq<Action> := *;
      var i := 0;
      while i < |script|
        invariant 0 <= i <= |script| && Valid() && Untouched(me, old(s), s) && (Sound() ==> old(Sound()))
      {
        if Enabled(s, script[i]) && !By(script[i], me) {
          OthersLeaveAlone(s, script[i], me);
          Act(script[i]);
        }
        i := i + 1;
      }
    }
  }

  class Index {
    const world: IndexWorld
    const upsertBatch: nat

    constructor (world: IndexWorld, upsertBatch: nat)
      requires upsertBatch > 0
      ensures this.world == world && this.upsertBatch == upsertBatch
    {
      this.world, this.upsertBatch := world, upsertBatch;
    }

    ghost predicate At(w: nat, hash: string, phase: Phase)
      reads world
    {
      world.Valid() && w in world.s.jobs && world.s.jobs[w] == Job(hash, phase)
    }

    /** After a success no point of the document is left; a call that is not answered ends the job. */
    method DeleteByHash(w: nat, hash: string, ghost points: seq<Point>, answered: bool) returns (ok: bool)
      requires At(w, hash, Prepared(points))
      modifies world
      ensures world.Valid() && (world.Sound() ==> old(world.Sound())) && (ok <==> answered)
      ensures if ok then At(w, hash, Upserting(points, 0)) && PointsOf(world.s.points, hash) == map[]
              else w !in world.s.jobs
    {
      world.Interfere(Process(w));
      ok := answered;
      var kept: set<string> := *;
      world.Act(Delete(w, ok, if ok then {} else kept));
    }

    /** One request; without an answer some of its points may have been written. */
    method Request(w: nat, hash: string, points: seq<Point>, start: nat, count: nat, done: bool)
      requires 0 < count && start + count <= |points| && At(w, hash, Upserting(points, start))
      modifies world
      ensures world.Valid() && (world.Sound() ==> old(world.Sound()))
      ensures if done then At(w, hash, Upserting(points, start + count)) else w !in world.s.jobs
    {
      world.Interfere(Process(w));
      var batch := points[start..start + count];
      var written: seq<Point> := *;
      if done {
        written := batch;
      } else if !Subset(written, batch) {
        written := [];
      }
      world.Act(IndexRuns.Upsert(w, count, done, written));
    }

    /** Requests of at most `upsertBatch` points that together hold every point once, in order; the first
        one that is not answered ends the job. */
    method Upsert(w: nat, hash: string, points: seq<Point>, answered: nat -> bool)
      returns (ok: bool, ghost batches: seq<seq<Point>>)
      requires upsertBatch > 0 && At(w, hash, Upserting(points, 0))
      modifies world
      ensures world.Valid() && (world.Sound() ==> old(world.Sound()))
      ensures if ok then Flatten(batches) == points && At(w, hash, Upserting(points, |points|))
              else Flatten(batches) <= points && w !in world.s.jobs
      ensures forall i :: 0 <= i < |batches| ==> 0 < |batches[i]| <= upsertBatch
      ensures (forall i :: 0 <= i < |batches| ==> answered(i)) && (!ok ==> !answered(|batches|))
    {
      assert world.Valid() && Flatten([]) == points[..0];
      hide At; hide IndexWorld.Valid; hide IndexWorld.Sound; hide Flatten;
      var start, requests := 0, 0;
      batches := [];
      while start < |points|
        invariant start <= |points| && At(w, hash, Upserting(points, start)) && world.Valid()
        invariant world.Sound() ==> old(world.Sound())
        invariant Flatten(batches) == points[..start]
        invariant requests == |batches|
        invariant forall i :: 0 <= i < |batches| ==> 0 < |batches[i]| <= upsertBatch
        invariant forall i :: 0 <= i < requests ==> answered(i)
      {
        var count := if start + upsertBatch <= |points| then upsertBatch else |points| - start;
        var batch := points[start..start + count];
        var done := answered(requests);
        requests := requests + 1;
        Request(w, hash, points, start, count, done);
        if !done { return false, batches; }
        FlattenSnoc(batches, points, start, count);
        batches := batches + [batch];
        start := start + count;
      }
      ok := true;
    }
  }
}
