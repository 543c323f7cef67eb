/** A clocked view of deliveries: when can two live processes run the job of one entry at once?
    `delay` bounds the time from a delivery to arming the watchdog, `limit` is job_timeout plus
    watchdog_grace, after which the watchdog ends the process, and `minIdle` is the idle time that
    makes an entry claimable for others. */
module TimedExclusion {

  datatype Timing = Timing(delay: nat, limit: nat, minIdle: nat)

  /** deliveredAt: when this process got the entry; armedAt: when its job and watchdog started. */
  datatype Process = Off | Fetched(entry: nat, deliveredAt: nat) | Running(entry: nat, deliveredAt: nat, armedAt: nat)

  /** idleSince: the last delivery or renewal of a pending entry. */
  datatype State = State(now: nat, next: nat, idleSince: map<nat, nat>, processes: map<nat, Process>) {
    function At(w: nat): Process { if w in processes then processes[w] else Off }
    function With(w: nat, p: Process): State { this.(processes := processes[w := p]) }
  }

  datatype Action =
    | Tick(d: nat)
    | Deliver(w: nat)
    | Claim(w: nat, e: nat)
    | ArmJob(w: nat)
    | EndJob(w: nat)
    | Die(w: nat)
    | Renew(e: nat)
    | Ack(e: nat)
    | LoseGroup

  function Initial(): State { State(0, 0, map[], map[]) }

  /** A process is armed in time, and is ended by its watchdog at the latest at armedAt + limit. */
  predicate InTime(t: Timing, now: nat, p: Process) {
    match p
    case Off => true
    case Fetched(_, at) => now <= at + t.delay
    case Running(_, _, armed) => now <= armed + t.limit
  }

  predicate Enabled(t: Timing, s: State, a: Action) {
    match a
    case Tick(d) => forall w :: w in s.processes ==> InTime(t, s.now + d, s.processes[w])
    case Deliver(w) => s.At(w).Off?
    case Claim(w, e) => s.At(w).Off? && e in s.idleSince && s.now - s.idleSince[e] >= t.minIdle
    case ArmJob(w) => s.At(w).Fetched?
    case EndJob(w) => s.At(w).Running?
    case _ => true
  }

  function Step(t: Timing, s: State, a: Action): State {
    if !Enabled(t, s, a) then s
    else match a
      case Tick(d) => s.(now := s.now + d)
      case Deliver(w) => s.With(w, Fetched(s.next, s.now)).(next := s.next + 1,
        idleSince := s.idleSince[s.next := s.now])
      case Claim(w, e) => s.With(w, Fetched(e, s.now)).(idleSince := s.idleSince[e := s.now])
      case ArmJob(w) => s.With(w, Running(s.At(w).entry, s.At(w).deliveredAt, s.now))
      case EndJob(w) => s.With(w, Off)
      case Die(w) => s.With(w, Off)
      case Renew(e) => if e in s.idleSince then s.(idleSince := s.idleSince[e := s.now]) else s
      case Ack(e) => s.(idleSince := s.idleSince - {e})
      case LoseGroup => s.(next := 0, idleSince := map[])
  }

  function Run(t: Timing, s: State, actions: seq<Action>): State
    decreases |actions|
  {
    if actions == [] then s else Run(t, Step(t, s, actions[0]), actions[1..])
  }

  predicate BothRun(s: State, v: nat, w: nat) {
    v != w && s.At(v).Running? && s.At(w).Running? && s.At(v).entry == s.At(w).entry
  }

  ghost predicate Exclusive(s: State) { forall v, w :: !BothRun(s, v, w) }

  ghost predicate OneGroup(actions: seq<Action>) { forall i :: 0 <= i < |actions| ==> !actions[i].LoseGroup? }

  // ---- safe when delay + limit < minIdle

  /** An active process is in time, and its entry has not been idle since before it was delivered. */
  predicate ActiveOk(t: Timing, s: State, p: Process) {
    !p.Off? ==>
      && p.entry < s.next && p.deliveredAt <= s.now
      && InTime(t, s.now, p)
      && (p.Running? ==> p.deliveredAt <= p.armedAt <= p.deliveredAt + t.delay)
      && (p.entry in s.idleSince ==> p.deliveredAt <= s.idleSince[p.entry] <= s.now)
  }

  ghost predicate Inv(t: Timing, s: State) {
    && (forall w :: w in s.processes ==> ActiveOk(t, s, s.processes[w]))
    && (forall v, w | v in s.processes && w in s.processes && v != w ::
          !s.processes[v].Off? && !s.processes[w].Off? ==> s.processes[v].entry != s.processes[w].entry)
    && (forall e :: e in s.idleSince ==> e < s.next && s.idleSince[e] <= s.now)
  }

  lemma ClaimIsAlone(t: Timing, s: State, e: nat)
    requires t.delay + t.limit < t.minIdle && Inv(t, s) && e in s.idleSince && s.now - s.idleSince[e] >= t.minIdle
    ensures forall w :: w in s.processes && !s.processes[w].Off? ==> s.processes[w].entry != e
  {
    forall w | w in s.processes && !s.processes[w].Off? ensures s.processes[w].entry != e {
      assert ActiveOk(t, s, s.processes[w]);
    }
  }

  lemma StepKeeps(t: Timing, s: State, a: Action)
    requires t.delay + t.limit < t.minIdle && Inv(t, s) && !a.LoseGroup?
    ensures Inv(t, Step(t, s, a))
  {
    var u := Step(t, s, a);
    if a.Claim? && Enabled(t, s, a) { ClaimIsAlone(t, s, a.e); }
    forall w | w in u.processes ensures ActiveOk(t, u, u.processes[w]) {
      if w in s.processes { assert ActiveOk(t, s, s.processes[w]); }
    }
  }

  lemma {:induction false} RunKeeps(t: Timing, s: State, actions: seq<Action>)
    requires t.delay + t.limit < t.minIdle && Inv(t, s) && OneGroup(actions)
    ensures Inv(t, Run(t, s, actions))
    decreases |actions|
  {
    if actions != [] {
      StepKeeps(t, s, actions[0]);
      assert forall i :: 0 <= i < |actions[1..]| ==> actions[1..][i] == actions[i + 1];
      RunKeeps(t, Step(t, s, actions[0]), actions[1..]);
    }
  }

  // ---- and only then

  /** Two processes on entry 0 when the first is slow: it arms at delay and is still running, or
      not even armed, when the second may claim. */
  function Overlap(t: Timing): seq<Action> {
    if t.minIdle <= t.delay then [Deliver(1), Tick(t.minIdle), Claim(2, 0), ArmJob(1), ArmJob(2)]
    else [Deliver(1), Tick(t.delay), ArmJob(1), Tick(t.minIdle - t.delay), Claim(2, 0), ArmJob(2)]
  }

  lemma OverlapOverlaps(t: Timing)
    requires t.delay + t.limit >= t.minIdle
    ensures OneGroup(Overlap(t)) && BothRun(Run(t, Initial(), Overlap(t)), 1, 2)
  {
    var s0 := Initial();
    var s1 := Step(t, s0, Deliver(1));
    assert s1.processes == map[1 := Fetched(0, 0)];
    if t.minIdle <= t.delay {
      var s2 := Step(t, s1, Tick(t.minIdle));
      var s3 := Step(t, s2, Claim(2, 0));
      var s4 := Step(t, s3, ArmJob(1));
      var s5 := Step(t, s4, ArmJob(2));
      assert Run(t, s0, Overlap(t)) == s5 by {
        RunFive(t, s0, Deliver(1), Tick(t.minIdle), Claim(2, 0), ArmJob(1), ArmJob(2));
      }
    } else {
      var s2 := Step(t, s1, Tick(t.delay));
      var s3 := Step(t, s2, ArmJob(1));
      assert s3.processes == map[1 := Running(0, 0, t.delay)];
      var s4 := Step(t, s3, Tick(t.minIdle - t.delay));
      var s5 := Step(t, s4, Claim(2, 0));
      var s6 := Step(t, s5, ArmJob(2));
      assert Run(t, s0, Overlap(t)) == s6 by {
        assert Overlap(t)[1..] == [Tick(t.delay), ArmJob(1), Tick(t.minIdle - t.delay), Claim(2, 0), ArmJob(2)];
        RunFive(t, s1, Tick(t.delay), ArmJob(1), Tick(t.minIdle - t.delay), Claim(2, 0), ArmJob(2));
      }
    }
  }

  lemma RunOne(t: Timing, s: State, a: Action, rest: seq<Action>)
    ensures Run(t, s, [a] + rest) == Run(t, Step(t, s, a), rest)
  {
    assert ([a] + rest)[1..] == rest;
  }

  lemma RunFive(t: Timing, s: State, a: Action, b: Action, c: Action, d: Action, e: Action)
    ensures Run(t, s, [a, b, c, d, e]) == Step(t, Step(t, Step(t, Step(t, Step(t, s, a), b), c), d), e)
  {
    hide Step; hide Run;
    var s1 := Step(t, s, a);
    var s2 := Step(t, s1, b);
    var s3 := Step(t, s2, c);
    var s4 := Step(t, s3, d);
    RunOne(t, s, a, [b, c, d, e]);
    RunOne(t, s1, b, [c, d, e]);
    RunOne(t, s2, c, [d, e]);
    RunOne(t, s3, d, [e]);
    RunOne(t, s4, e, []);
    RunNone(t, Step(t, s4, e));
    assert [a, b, c, d, e] == [a] + [b, c, d, e] && [b, c, d, e] == [b] + [c, d, e];
    assert [c, d, e] == [c] + [d, e] && [d, e] == [d] + [e] && [e] == [e] + [];
  }

  lemma RunNone(t: Timing, s: State)
    ensures Run(t, s, []) == s
  {
  }

  ghost predicate AlwaysExclusive(t: Timing) {
    forall actions :: OneGroup(actions) ==> Exclusive(Run(t, Initial(), actions))
  }

  /** Within one group lifetime no two live processes ever run the job of one entry if and only if
      delay + job_timeout + watchdog_grace < min_idle. The configuration check compares only
      job_timeout + watchdog_grace with min_idle. */
  lemma ExclusiveExactly(t: Timing)
    ensures AlwaysExclusive(t) <==> t.delay + t.limit < t.minIdle
  {
    if t.delay + t.limit < t.minIdle {
      forall actions | OneGroup(actions) ensures Exclusive(Run(t, Initial(), actions)) {
        RunKeeps(t, Initial(), actions);
      }
    } else {
      OverlapOverlaps(t);
      assert !Exclusive(Run(t, Initial(), Overlap(t)));
    }
  }

  /** Losing the group voids the guarantee for every timing: the re-created group hands the entry
      out again at once. */
  lemma GroupLossOverlaps(t: Timing)
    ensures BothRun(Run(t, Initial(), [Deliver(1), ArmJob(1), LoseGroup, Deliver(2), ArmJob(2)]), 1, 2)
  {
    RunFive(t, Initial(), Deliver(1), ArmJob(1), LoseGroup, Deliver(2), ArmJob(2));
  }
}
