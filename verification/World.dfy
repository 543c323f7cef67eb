/** The shared world the workers run in. Each external call of a worker is one action of the step
    system; before it, everybody else may have taken any number of steps. The state is therefore
    always one the step system reaches, so everything proved about its runs holds for the workers. */
module World {
  import opened Domain
  import opened TableInvariants
  import opened System
  import opened Frames
  import CustodyInvariant

  /** The actions of one worker within a run. */
  function OwnActions(trace: seq<Action>, me: Actor): seq<Action>
    decreases |trace|
  {
    if trace == [] then []
    else OwnActions(trace[..|trace| - 1], me) + (if By(trace[|trace| - 1], me) then [trace[|trace| - 1]] else [])
  }

  /** Several stretches of actions, one after the other. */
  function Concat(parts: seq<seq<Action>>): seq<Action> {
    if parts == [] then [] else Concat(parts[..|parts| - 1]) + parts[|parts| - 1]
  }

  lemma ConcatSnoc(parts: seq<seq<Action>>, last: seq<Action>)
    ensures Concat(parts + [last]) == Concat(parts) + last
  {
    assert (parts + [last])[..|parts|] == parts;
  }

  lemma {:induction false} RunAppend(l: Limits, s: State, actions: seq<Action>, a: Action)
    ensures RunAll(l, s, actions + [a]) == Step(l, RunAll(l, s, actions), a)
    decreases |actions|
  {
    hide Step;
    if actions == [] {
      assert ([] + [a])[1..] == [];
    } else {
      RunAppend(l, Step(l, s, actions[0]), actions[1..], a);
      assert (actions + [a])[1..] == actions[1..] + [a];
    }
  }

  /** Cancellation of a worker's context: it may come at any time, and comes at the latest after
      `patience` more full sleeps, for an arbitrary patience. */
  class Context {
    var patience: nat
    var cancelled: bool

    constructor (patience: nat)
      ensures this.patience == patience && !cancelled
    {
      this.patience, cancelled := patience, false;
    }

    method Err() returns (stop: bool)
      modifies this
      ensures stop == cancelled && patience == old(patience)
      ensures old(cancelled) ==> cancelled
    {
      var now: bool := *;
      cancelled := cancelled || now;
      stop := cancelled;
    }

    /** Reports whether the full wait happened. */
    method Sleep() returns (full: bool)
      modifies this
      ensures full <==> !cancelled
      ensures full ==> patience < old(patience)
      ensures patience <= old(patience) && (old(cancelled) ==> cancelled)
    {
      if patience == 0 {
        cancelled := true;
      } else {
        var now: bool := *;
        cancelled := cancelled || now;
        patience := patience - 1;
      }
      full := !cancelled;
    }
  }

  class World {
    const limits: Limits
    var s: State
    ghost var trace: seq<Action>

    ghost predicate Valid()
      reads this
    {
      limits.Valid() && s == RunAll(limits, Initial(), trace)
    }

    constructor (limits: Limits)
      requires limits.Valid()
      ensures Valid() && trace == [] && this.limits == limits
    {
      this.limits := limits;
      s := Initial();
      trace := [];
    }

    /** Every state of the world satisfies the invariant of the step system. */
    lemma Reachable()
      requires Valid()
      ensures CustodyInvariant.SysInv(limits, s)
    {
      CustodyInvariant.InitialInv(limits);
      CustodyInvariant.RunKeeps(limits, Initial(), trace);
    }

    method Act(a: Action)
      requires Valid() && Enabled(limits, s, a)
      modifies this
      ensures Valid() && s == Do(limits, old(s), a)
      ensures trace == old(trace) + [a] && trace[..|trace| - 1] == old(trace)
    {
      RunAppend(limits, Initial(), trace, a);
      s := Do(limits, s, a);
      trace := trace + [a];
      assert trace[..|trace| - 1] == old(trace);
    }

    /** Everybody but `me` takes any number of steps. */
    method Others(me: Actor)
      requires Valid()
      modifies this
      ensures Valid() && SamePc(me, old(s), s) && OwnActions(trace, me) == OwnActions(old(trace), me)
      ensures Evolves(old(s).db, s.db) && old(s).handled <= s.handled && old(s).dropped <= s.dropped
      ensures old(s).ingest <= s.ingest && old(s).status <= s.status
    {
      var script: seq<Action> := *;
      var i := 0;
      NothingEvolves(s.db);
      while i < |script|
        invariant 0 <= i <= |script|
        invariant Valid() && SamePc(me, old(s), s) && OwnActions(trace, me) == OwnActions(old(trace), me)
        invariant Evolves(old(s).db, s.db) && old(s).handled <= s.handled && old(s).dropped <= s.dropped
        invariant old(s).ingest <= s.ingest && old(s).status <= s.status
      {
        if !By(script[i], me) {
          OneOther(me, script[i], old(s));
        }
        i := i + 1;
      }
    }

    method OneOther(me: Actor, a: Action, ghost start: State)
      requires Valid() && !By(a, me) && SamePc(me, start, s) && Evolves(start.db, s.db)
      requires start.handled <= s.handled && start.dropped <= s.dropped
      requires start.ingest <= s.ingest && start.status <= s.status
      modifies this
      ensures Valid() && SamePc(me, start, s) && Evolves(start.db, s.db)
      ensures start.handled <= s.handled && start.dropped <= s.dropped
      ensures start.ingest <= s.ingest && start.status <= s.status
      ensures OwnActions(trace, me) == OwnActions(old(trace), me)
    {
      hide Evolves; hide Step; hide CustodyInvariant.SysInv; hide RunAll;
      Reachable();
      OthersKeepPc(limits, s, a, me);
      CustodyInvariant.StepKeeps(limits, s, a);
      EvolvesTransitive(start.db, s.db, Step(limits, s, a).db);
      RunAppend(limits, Initial(), trace, a);
      s := Step(limits, s, a);
      trace := trace + [a];
      assert trace[..|trace| - 1] == old(trace);
    }
  }
}
