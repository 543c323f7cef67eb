/** The order of one consumer's own actions, over whole runs: when it may acknowledge, when it may
    run a job, and what it may do while a status is held. */
module HoldDiscipline {
  import opened Domain
  import opened System
  import opened Frames
  import W = World

  /** The actions of consumer w that took place, in order. */
  function Performed(l: Limits, actions: seq<Action>, w: WorkerId): seq<ConsumerAction>
    decreases |actions|
  {
    if actions == [] then []
    else
      var before, a := actions[..|actions| - 1], actions[|actions| - 1];
      Performed(l, before, w)
        + (if By(a, TheConsumer(w)) && Enabled(l, RunAll(l, Initial(), before), a) then [a.consume] else [])
  }

  /** Since its last hold, no publish has succeeded. */
  ghost predicate Holding(acts: seq<ConsumerAction>) {
    exists i: nat :: HeldSince(acts, i)
  }

  predicate HeldSince(acts: seq<ConsumerAction>, i: nat) {
    i < |acts| && acts[i] == CHold && forall k :: i < k < |acts| ==> acts[k] != CPublish(Done)
  }

  predicate Fetches(a: ConsumerAction) { (a.CRead? && a.reply.Done?) || a == CLookup(true) }

  /** While holding only renewals and further publishes (or death) follow; an acknowledgement
      directly follows a successful publish; a job run directly follows its own delivery. */
  ghost predicate Disciplined(acts: seq<ConsumerAction>) {
    && (forall j :: 0 <= j < |acts| && Holding(acts[..j]) ==> acts[j].CRenew? || acts[j].CPublish? || acts[j].CCrash?)
    && (forall j :: 0 <= j < |acts| && acts[j].CAck? ==> j > 0 && acts[j - 1] == CPublish(Done))
    && (forall j :: 0 <= j < |acts| && acts[j].CRun? ==> j > 0 && Fetches(acts[j - 1]))
  }

  /** What the performed actions say about the consumer's program counter. */
  ghost predicate Linked(acts: seq<ConsumerAction>, pc: ConsumerPc) {
    && (Holding(acts) ==> pc.CHeld? || pc.CDead?)
    && (pc.CAcking? ==> acts != [] && acts[|acts| - 1] == CPublish(Done))
    && (pc.CGot? ==> acts != [] && Fetches(acts[|acts| - 1]))
  }

  lemma StillHolding(acts: seq<ConsumerAction>, a: ConsumerAction)
    requires Holding(acts + [a]) && a != CHold
    ensures Holding(acts) && a != CPublish(Done)
  {
    var i: nat :| HeldSince(acts + [a], i);
    assert (acts + [a])[|acts|] == a;
    assert forall k :: i < k < |acts| ==> (acts + [a])[k] == acts[k];
    assert HeldSince(acts, i);
  }

  lemma PcAfter(l: Limits, s: State, w: WorkerId, a: ConsumerAction)
    requires ConsumerEnabled(l, s, s.Consumer(w), a)
    ensures var pc, next := s.Consumer(w), DoConsumer(l, s, w, a).Consumer(w);
      && (next.CAcking? ==> a == CPublish(Done))
      && (next.CGot? ==> Fetches(a))
      && (a == CHold ==> next.CHeld?)
      && (pc.CHeld? && a != CPublish(Done) ==> next == pc || next.CDead?)
      && (pc.CDead? ==> next.CDead?)
  {
  }

  lemma OneMore(l: Limits, s: State, acts: seq<ConsumerAction>, w: WorkerId, a: ConsumerAction)
    requires Disciplined(acts) && Linked(acts, s.Consumer(w)) && ConsumerEnabled(l, s, s.Consumer(w), a)
    ensures Disciplined(acts + [a]) && Linked(acts + [a], DoConsumer(l, s, w, a).Consumer(w))
  {
    var more := acts + [a];
    PcAfter(l, s, w, a);
    hide DoConsumer;
    if Holding(more) && a != CHold { StillHolding(acts, a); }
    forall j | 0 <= j < |more| && Holding(more[..j]) ensures more[j].CRenew? || more[j].CPublish? || more[j].CCrash? {
      if j < |acts| { assert more[..j] == acts[..j]; } else { assert more[..j] == acts; }
    }
  }

  /** One more action of the run: performed by w, or not. */
  lemma PerformedSnoc(l: Limits, before: seq<Action>, a: Action, w: WorkerId)
    ensures Performed(l, before + [a], w) ==
      if By(a, TheConsumer(w)) && Enabled(l, RunAll(l, Initial(), before), a) then Performed(l, before, w) + [a.consume]
      else Performed(l, before, w)
  {
    hide Enabled; hide RunAll;
    assert (before + [a])[..|before|] == before;
  }

  lemma StepIsDisciplined(l: Limits, s: State, acts: seq<ConsumerAction>, a: Action, w: WorkerId)
    requires Disciplined(acts) && Linked(acts, s.Consumer(w))
    ensures var more := if By(a, TheConsumer(w)) && Enabled(l, s, a) then acts + [a.consume] else acts;
      Disciplined(more) && Linked(more, Step(l, s, a).Consumer(w))
  {
    hide Disciplined; hide Linked; hide DoConsumer; hide ConsumerEnabled;
    if By(a, TheConsumer(w)) {
      if Enabled(l, s, a) { OneMore(l, s, acts, w, a.consume); }
    } else {
      OthersKeepPc(l, s, a, TheConsumer(w));
    }
  }

  lemma DisciplineSnoc(l: Limits, before: seq<Action>, a: Action, w: WorkerId)
    requires Disciplined(Performed(l, before, w))
      && Linked(Performed(l, before, w), RunAll(l, Initial(), before).Consumer(w))
    ensures Disciplined(Performed(l, before + [a], w))
    ensures Linked(Performed(l, before + [a], w), RunAll(l, Initial(), before + [a]).Consumer(w))
  {
    hide Disciplined; hide Linked; hide Step; hide Enabled; hide RunAll; hide Performed;
    W.RunAppend(l, Initial(), before, a);
    PerformedSnoc(l, before, a, w);
    StepIsDisciplined(l, RunAll(l, Initial(), before), Performed(l, before, w), a, w);
  }

  lemma {:induction false} RunIsDisciplined(l: Limits, actions: seq<Action>, w: WorkerId)
    ensures Disciplined(Performed(l, actions, w))
      && Linked(Performed(l, actions, w), RunAll(l, Initial(), actions).Consumer(w))
    decreases |actions|
  {
    hide Step; hide Enabled;
    if actions == [] {
      assert Performed(l, [], w) == [] && RunAll(l, Initial(), []) == Initial();
    } else {
      hide Disciplined; hide Linked; hide RunAll; hide Performed;
      var before, a := actions[..|actions| - 1], actions[|actions| - 1];
      RunIsDisciplined(l, before, w);
      assert actions == before + [a];
      DisciplineSnoc(l, before, a, w);
    }
  }

  /** Hold discipline: in every run, whatever Redis does, a consumer acknowledges only right after a
      successful publish, runs a job only right after its own delivery, and from a hold until the
      publish succeeds it neither reads, claims, runs, acknowledges nor gives up. */
  lemma ConsumersAreDisciplined(l: Limits, actions: seq<Action>, w: WorkerId)
    ensures Disciplined(Performed(l, actions, w))
  {
    RunIsDisciplined(l, actions, w);
  }

  /** And the held status itself is neither replaced nor dropped until it was published. */
  lemma {:induction false} HeldStatusStays(l: Limits, s: State, actions: seq<Action>, w: WorkerId)
    requires s.Consumer(w).CHeld?
    requires forall i :: 0 <= i < |actions| ==>
      actions[i] != ConsumeBy(w, CPublish(Done)) && actions[i] != ConsumeBy(w, CCrash)
    ensures RunAll(l, s, actions).Consumer(w) == s.Consumer(w)
    decreases |actions|
  {
    if actions != [] {
      var a := actions[0];
      if By(a, TheConsumer(w)) {
        if Enabled(l, s, a) { PcAfter(l, s, w, a.consume); HeldSteps(l, s, w, a.consume); }
      } else {
        OthersKeepPc(l, s, a, TheConsumer(w));
      }
      HeldStatusStays(l, Step(l, s, a), actions[1..], w);
    }
  }

  lemma HeldSteps(l: Limits, s: State, w: WorkerId, a: ConsumerAction)
    requires s.Consumer(w).CHeld? && ConsumerEnabled(l, s, s.Consumer(w), a) && !a.CCrash? && a != CPublish(Done)
    ensures DoConsumer(l, s, w, a).Consumer(w) == s.Consumer(w)
  {
  }
}
