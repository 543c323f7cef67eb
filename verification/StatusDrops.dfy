/** The only way a status entry leaves the status stream unhandled is the poison branch, and that
    branch is taken only for an entry that was delivered too often. */
module StatusDrops {
  import opened Domain
  import opened System
  import opened Frames
  import W = World
  import CustodyInvariant

  lemma ApplierDrops(l: Limits, s: State, w: WorkerId, a: ApplierAction, t: nat)
    requires ApplierEnabled(l, s, s.Applier(w), a)
    requires t in DoApplier(l, s, w, a).dropped && t !in s.dropped
    ensures Deliveries(s.sg, t) > l.statusPoison
  {
    hide Sql; hide Next;
    if a.AHandle? {
      hide DoApplyLookup;
      SqlFrame(l, s, SApplyOf(s, w, a.now), a.reply);
    }
  }

  function SApplyOf(s: State, w: WorkerId, now: Time): Tables.Stmt
    requires s.Applier(w).AWorking? && s.Applier(w).todo != [] && s.Applier(w).todo[0] < |s.status|
  {
    Tables.SApply(s.status[s.Applier(w).todo[0]].event, now)
  }

  lemma StepDrops(l: Limits, s: State, a: Action, t: nat)
    requires t in Step(l, s, a).dropped && t !in s.dropped
    ensures Deliveries(s.sg, t) > l.statusPoison
  {
    hide DoHash; hide DoRelay; hide DoConsumer; hide DoApplier; hide DoGroup; hide Sql; hide Deliveries;
    hide HashEnabled; hide RelayEnabled; hide ConsumerEnabled; hide ApplierEnabled; hide GroupEnabled;
    match a {
      case Center(stmt, reply) => SqlFrame(l, s, stmt, reply);
      case HashBy(w, h) => HashFrame(l, s, w, h);
      case RelayBy(w, r) => RelayFrame(l, s, w, r);
      case ConsumeBy(w, c) => ConsumerFrame(l, s, w, c);
      case ApplyBy(w, p) => ApplierDrops(l, s, w, p, t);
      case _ =>
    }
  }

  ghost predicate DeliveredTooOften(l: Limits, actions: seq<Action>, t: nat) {
    exists i :: 0 <= i < |actions| && Deliveries(RunAll(l, Initial(), actions[..i]).sg, t) > l.statusPoison
  }

  lemma {:induction false} DroppedIsPoison(l: Limits, actions: seq<Action>, t: nat)
    requires t in RunAll(l, Initial(), actions).dropped
    ensures DeliveredTooOften(l, actions, t)
    decreases |actions|
  {
    hide Step; hide Deliveries;
    if actions != [] {
      var n := |actions| - 1;
      var before := RunAll(l, Initial(), actions[..n]);
      assert actions == actions[..n] + [actions[n]];
      W.RunAppend(l, Initial(), actions[..n], actions[n]);
      if t in before.dropped {
        DroppedIsPoison(l, actions[..n], t);
        var i :| 0 <= i < n && Deliveries(RunAll(l, Initial(), actions[..n][..i]).sg, t) > l.statusPoison;
        assert actions[..n][..i] == actions[..i];
      } else {
        StepDrops(l, before, actions[n], t);
      }
    }
  }

  /** Over any run: an acknowledged status entry was handled, or had been delivered more often than
      the poison threshold allows. */
  lemma UnhandledAckIsPoison(l: Limits, actions: seq<Action>, t: nat)
    requires l.Valid()
    ensures var s := RunAll(l, Initial(), actions);
      t < |s.status| && s.sg.Acked(t) ==> t in s.handled || DeliveredTooOften(l, actions, t)
  {
    var s := RunAll(l, Initial(), actions);
    CustodyInvariant.InitialInv(l);
    CustodyInvariant.RunKeeps(l, Initial(), actions);
    if t in s.dropped { DroppedIsPoison(l, actions, t); }
  }
}
