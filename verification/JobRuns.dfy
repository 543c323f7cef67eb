/** How often the job of one ingest entry runs: at most poison_threshold times per lifetime of the
    consumer group, because each run uses up a delivery that only one consumer can own. */
module JobRuns {
  import opened Domain
  import opened Streams
  import opened System
  import opened Counting
  import opened Frames

  /** The delivery a consumer is working under. */
  function Token(pc: ConsumerPc): Option<Run> {
    match pc
    case CClaimed(e, g, k) => Some(Run(e, g, k))
    case CGot(e, g, k) => Some(Run(e, g, k))
    case _ => None
  }

  /** A delivery that really happened: of an earlier lifetime, or not newer than the pending count. */
  predicate Delivered(ig: Group, r: Run) {
    && r.delivery >= 1
    && r.lifetime <= ig.lifetime
    && (r.lifetime == ig.lifetime ==>
          r.entry < ig.delivered && (r.entry in ig.pending ==> r.delivery <= ig.pending[r.entry].deliveries))
  }

  ghost predicate GroupOk(ig: Group) {
    forall e :: e in ig.pending ==> e < ig.delivered && ig.pending[e].deliveries >= 1
  }

  ghost predicate TokensDelivered(ig: Group, consumers: map<WorkerId, ConsumerPc>) {
    forall w :: w in consumers && Token(consumers[w]).Some? ==> Delivered(ig, Token(consumers[w]).value)
  }

  ghost predicate TokensDistinct(consumers: map<WorkerId, ConsumerPc>) {
    forall v, w | v in consumers && w in consumers && v != w
      :: Token(consumers[v]).Some? ==> Token(consumers[v]) != Token(consumers[w])
  }

  ghost predicate RunsDelivered(l: Limits, ig: Group, runs: seq<Run>) {
    forall i :: 0 <= i < |runs| ==> Delivered(ig, runs[i]) && runs[i].delivery <= l.poisonThreshold
  }

  ghost predicate TokensUnused(consumers: map<WorkerId, ConsumerPc>, runs: seq<Run>) {
    forall w, i | w in consumers && 0 <= i < |runs| :: Token(consumers[w]) != Some(runs[i])
  }

  /** A passed lookup never lets a poison entry through, and a claim whose owner is still its
      claimer has not been followed by any other delivery. */
  predicate PcOk(l: Limits, ig: Group, w: WorkerId, pc: ConsumerPc) {
    match pc
    case CGot(_, _, k) => k <= l.poisonThreshold
    case CClaimed(e, g, k) =>
      e in ig.pending && ig.pending[e].owner == w ==> g == ig.lifetime && k == ig.pending[e].deliveries
    case _ => true
  }

  ghost predicate PcsOk(l: Limits, ig: Group, consumers: map<WorkerId, ConsumerPc>) {
    forall w :: w in consumers ==> PcOk(l, ig, w, consumers[w])
  }

  ghost predicate RunInv(l: Limits, ig: Group, consumers: map<WorkerId, ConsumerPc>, runs: seq<Run>) {
    && GroupOk(ig)
    && TokensDelivered(ig, consumers)
    && TokensDistinct(consumers)
    && RunsDelivered(l, ig, runs)
    && TokensUnused(consumers, runs)
    && NoDuplicates(runs)
    && PcsOk(l, ig, consumers)
  }

  // ---- a consumer that gives up its delivery, or keeps the same one

  lemma SameToken(l: Limits, ig: Group, consumers: map<WorkerId, ConsumerPc>, runs: seq<Run>, w: WorkerId,
      pc: ConsumerPc)
    requires RunInv(l, ig, consumers, runs) && PcOk(l, ig, w, pc)
    requires Token(pc).None? || (w in consumers && Token(consumers[w]) == Token(pc))
    ensures RunInv(l, ig, consumers[w := pc], runs)
  {
  }

  /** A fresh delivery: not held by anyone, not used by any run. */
  lemma FreshToken(l: Limits, ig: Group, consumers: map<WorkerId, ConsumerPc>, runs: seq<Run>, w: WorkerId,
      pc: ConsumerPc)
    requires RunInv(l, ig, consumers, runs) && PcOk(l, ig, w, pc)
    requires Token(pc).Some? && Delivered(ig, Token(pc).value)
    requires forall v :: v in consumers ==> Token(consumers[v]) != Token(pc)
    requires forall i :: 0 <= i < |runs| ==> Some(runs[i]) != Token(pc)
    ensures RunInv(l, ig, consumers[w := pc], runs)
  {
  }

  // ---- changes of the group

  /** Deliveries stay delivered when positions and counts only grow within a lifetime. */
  predicate Later(a: Group, b: Group) {
    || a.lifetime < b.lifetime
    || (a.lifetime == b.lifetime && a.delivered <= b.delivered
        && forall e :: e in b.pending && e < a.delivered ==>
          e in a.pending && a.pending[e].deliveries <= b.pending[e].deliveries)
  }

  lemma DeliveredLater(a: Group, b: Group, r: Run)
    requires Delivered(a, r) && Later(a, b)
    ensures Delivered(b, r)
  {
  }

  lemma GroupMoves(l: Limits, a: Group, b: Group, consumers: map<WorkerId, ConsumerPc>, runs: seq<Run>)
    requires RunInv(l, a, consumers, runs) && Later(a, b) && GroupOk(b) && PcsOk(l, b, consumers)
    ensures RunInv(l, b, consumers, runs)
  {
    forall w | w in consumers && Token(consumers[w]).Some? ensures Delivered(b, Token(consumers[w]).value) {
      DeliveredLater(a, b, Token(consumers[w]).value);
    }
    forall i | 0 <= i < |runs| ensures Delivered(b, runs[i]) && runs[i].delivery <= l.poisonThreshold {
      DeliveredLater(a, b, runs[i]);
    }
  }

  /** Owners change only to v; nobody else's claim check can start to pass. */
  lemma OwnersMove(l: Limits, a: Group, b: Group, consumers: map<WorkerId, ConsumerPc>, v: WorkerId)
    requires PcsOk(l, a, consumers) && a.lifetime == b.lifetime
    requires v in consumers ==> !consumers[v].CClaimed?
    requires forall e :: e in b.pending && b.pending[e].owner != v ==> e in a.pending && b.pending[e] == a.pending[e]
    ensures PcsOk(l, b, consumers)
  {
    forall w | w in consumers ensures PcOk(l, b, w, consumers[w]) {
      assert PcOk(l, a, w, consumers[w]);
    }
  }

  // ---- the actions

  lemma ReadStep(l: Limits, s: State, w: WorkerId, now: Time, reply: Reply)
    requires l.Valid() && RunInv(l, s.ig, s.consumers, s.runs) && s.Consumer(w).CIdle?
    ensures var t := DoConsumeRead(s, w, now, reply); RunInv(l, t.ig, t.consumers, t.runs)
  {
    var ig, n := s.ig.Read(1, w, now), s.ig.delivered;
    assert forall e :: e in ig.pending <==> e in s.ig.pending || e == n by {
      assert forall e :: s.ig.InBatch(e, 1) <==> e == n;
    }
    OwnersMove(l, s.ig, ig, s.consumers, w);
    GroupMoves(l, s.ig, ig, s.consumers, s.runs);
    var pc := CGot(n, s.ig.lifetime, 1);
    forall v | v in s.consumers ensures Token(s.consumers[v]) != Token(pc) {
      if Token(s.consumers[v]).Some? { assert Delivered(s.ig, Token(s.consumers[v]).value); }
    }
    forall i | 0 <= i < |s.runs| ensures Some(s.runs[i]) != Token(pc) { assert Delivered(s.ig, s.runs[i]); }
    hide RunInv;
    if reply.Done? { FreshToken(l, ig, s.consumers, s.runs, w, pc); }
  }

  lemma ClaimOne(ig: Group, e: nat, w: WorkerId, now: Time)
    requires e in ig.pending
    ensures ig.Claim([e], w, now) == ig.(pending := ig.pending[e := PendingEntry(w, ig.pending[e].deliveries + 1, now)])
  {
    assert ig.Claim([e], w, now).pending == ig.pending[e := PendingEntry(w, ig.pending[e].deliveries + 1, now)];
  }

  /** The next delivery of a pending entry is nobody's yet. */
  lemma NextDeliveryIsFresh(l: Limits, s: State, e: nat)
    requires RunInv(l, s.ig, s.consumers, s.runs) && e in s.ig.pending
    ensures var token := Token(CClaimed(e, s.ig.lifetime, s.ig.pending[e].deliveries + 1));
      && (forall v :: v in s.consumers ==> Token(s.consumers[v]) != token)
      && (forall i :: 0 <= i < |s.runs| ==> Some(s.runs[i]) != token)
  {
    var token := Token(CClaimed(e, s.ig.lifetime, s.ig.pending[e].deliveries + 1));
    forall v | v in s.consumers ensures Token(s.consumers[v]) != token {
      if Token(s.consumers[v]).Some? { assert Delivered(s.ig, Token(s.consumers[v]).value); }
    }
    forall i | 0 <= i < |s.runs| ensures Some(s.runs[i]) != token { assert Delivered(s.ig, s.runs[i]); }
  }

  lemma ClaimStep(l: Limits, s: State, w: WorkerId, e: nat, now: Time, reply: Reply)
    requires RunInv(l, s.ig, s.consumers, s.runs) && s.Consumer(w).CIdle? && e in s.ig.pending
    ensures var t := DoConsumeClaim(s, w, e, now, reply); RunInv(l, t.ig, t.consumers, t.runs)
  {
    var ig, k := s.ig.Claim([e], w, now), s.ig.pending[e].deliveries + 1;
    ClaimOne(s.ig, e, w, now);
    OwnersMove(l, s.ig, ig, s.consumers, w);
    GroupMoves(l, s.ig, ig, s.consumers, s.runs);
    var pc := CClaimed(e, s.ig.lifetime, k);
    NextDeliveryIsFresh(l, s, e);
    hide RunInv;
    if reply.Done? { FreshToken(l, ig, s.consumers, s.runs, w, pc); }
  }

  lemma LookupStep(l: Limits, s: State, w: WorkerId, ok: bool)
    requires RunInv(l, s.ig, s.consumers, s.runs) && s.Consumer(w).CClaimed?
    ensures RunInv(l, s.ig, s.consumers[w := AfterLookup(l, s.ig, s.ingest, w, s.Consumer(w).entry, ok)], s.runs)
  {
    assert PcOk(l, s.ig, w, s.Consumer(w));
    SameToken(l, s.ig, s.consumers, s.runs, w, AfterLookup(l, s.ig, s.ingest, w, s.Consumer(w).entry, ok));
  }

  lemma RunStep(l: Limits, s: State, w: WorkerId, report: Report)
    requires RunInv(l, s.ig, s.consumers, s.runs) && s.Consumer(w).CGot? && s.Consumer(w).entry < |s.ingest|
    ensures var t := DoConsumeRun(s, w, report); RunInv(l, t.ig, t.consumers, t.runs)
  {
    var pc := s.Consumer(w);
    var r := Run(pc.entry, pc.lifetime, pc.delivery);
    var next := DoConsumeRun(s, w, report).Consumer(w);
    assert Token(pc) == Some(r) && PcOk(l, s.ig, w, pc);
    TokenSpent(l, s.ig, s.consumers, s.runs, w, next, r);
  }

  /** Running the job moves the delivery from the consumer to the record of runs. */
  lemma TokenSpent(l: Limits, ig: Group, consumers: map<WorkerId, ConsumerPc>, runs: seq<Run>, w: WorkerId,
      next: ConsumerPc, r: Run)
    requires RunInv(l, ig, consumers, runs) && w in consumers && Token(consumers[w]) == Some(r)
    requires Token(next).None? && PcOk(l, ig, w, next) && r.delivery <= l.poisonThreshold
    ensures RunInv(l, ig, consumers[w := next], runs + [r])
  {
    SameToken(l, ig, consumers, runs, w, next);
    var runs', consumers' := runs + [r], consumers[w := next];
    forall v, i | v in consumers' && 0 <= i < |runs'| ensures Token(consumers'[v]) != Some(runs'[i]) {
      if v != w && i == |runs| && Token(consumers[v]).Some? { assert Token(consumers[v]) != Token(consumers[w]); }
    }
    assert NoDuplicates(runs') by {
      forall i, j | 0 <= i < j < |runs'| ensures runs'[i] != runs'[j] {
        if j == |runs| { assert Token(consumers[w]) != Some(runs[i]); }
      }
    }
  }

  lemma RenewStep(l: Limits, s: State, w: WorkerId, now: Time)
    requires RunInv(l, s.ig, s.consumers, s.runs) && s.Consumer(w).CHeld?
    ensures RunInv(l, s.ig.Renew(s.Consumer(w).entry, w, now), s.consumers, s.runs)
  {
    var ig := s.ig.Renew(s.Consumer(w).entry, w, now);
    OwnersMove(l, s.ig, ig, s.consumers, w);
    GroupMoves(l, s.ig, ig, s.consumers, s.runs);
  }

  lemma AckStep(l: Limits, s: State, e: nat)
    requires RunInv(l, s.ig, s.consumers, s.runs)
    ensures RunInv(l, s.ig.Ack(e), s.consumers, s.runs)
  {
    var ig := s.ig.Ack(e);
    forall w | w in s.consumers ensures PcOk(l, ig, w, s.consumers[w]) { assert PcOk(l, s.ig, w, s.consumers[w]); }
    GroupMoves(l, s.ig, ig, s.consumers, s.runs);
  }

  lemma GroupStep(l: Limits, s: State, a: GroupAction)
    requires RunInv(l, s.ig, s.consumers, s.runs) && GroupEnabled(s.ig, a)
    ensures RunInv(l, DoGroup(s.ig, a), s.consumers, s.runs)
  {
    var ig := DoGroup(s.ig, a);
    if a.Cleanup? { assert ig.pending == s.ig.pending; }
    forall w | w in s.consumers ensures PcOk(l, ig, w, s.consumers[w]) { assert PcOk(l, s.ig, w, s.consumers[w]); }
    GroupMoves(l, s.ig, ig, s.consumers, s.runs);
  }

  lemma ConsumerStep(l: Limits, s: State, w: WorkerId, a: ConsumerAction)
    requires l.Valid() && RunInv(l, s.ig, s.consumers, s.runs) && ConsumerEnabled(l, s, s.Consumer(w), a)
    ensures var t := DoConsumer(l, s, w, a); RunInv(l, t.ig, t.consumers, t.runs)
  {
    hide RunInv;
    match a {
      case CRead(now, reply) => ReadStep(l, s, w, now, reply);
      case CClaim(e, now, reply) => ClaimStep(l, s, w, e, now, reply);
      case CLookup(ok) => LookupStep(l, s, w, ok);
      case CRun(report) => RunStep(l, s, w, report);
      case CPublish(_) => SameToken(l, s.ig, s.consumers, s.runs, w, CAcking(s.Consumer(w).entry));
      case CHold => SameToken(l, s.ig, s.consumers, s.runs, w, CHeld(s.Consumer(w).entry, s.Consumer(w).event));
      case CRenew(now, _) => RenewStep(l, s, w, now);
      case CAck(_) =>
        AckStep(l, s, s.Consumer(w).entry);
        SameToken(l, s.ig, s.consumers, s.runs, w, CIdle);
        SameToken(l, s.ig.Ack(s.Consumer(w).entry), s.consumers, s.runs, w, CIdle);
      case CAbandon => SameToken(l, s.ig, s.consumers, s.runs, w, CIdle);
      case CCrash => SameToken(l, s.ig, s.consumers, s.runs, w, CDead);
    }
  }

  lemma StepKeeps(l: Limits, s: State, a: Action)
    requires l.Valid() && RunInv(l, s.ig, s.consumers, s.runs)
    ensures var t := Step(l, s, a); RunInv(l, t.ig, t.consumers, t.runs)
  {
    hide RunInv; hide DoHash; hide DoRelay; hide DoConsumer; hide DoApplier; hide DoGroup; hide Sql;
    hide HashEnabled; hide RelayEnabled; hide ConsumerEnabled; hide ApplierEnabled; hide GroupEnabled;
    if Enabled(l, s, a) {
      if a.ConsumeBy? { ConsumerStep(l, s, a.w, a.consume); }
      else if a.IngestGroup? { GroupStep(l, s, a.group); }
      else if a.Center? { SqlFrame(l, s, a.stmt, a.reply); }
      else if a.HashBy? { HashFrame(l, s, a.w, a.hash); }
      else if a.RelayBy? { RelayFrame(l, s, a.w, a.relay); }
      else if a.ApplyBy? { ApplierFrame(l, s, a.w, a.apply); }
    }
  }

  lemma {:induction false} RunKeeps(l: Limits, s: State, actions: seq<Action>)
    requires l.Valid() && RunInv(l, s.ig, s.consumers, s.runs)
    ensures var t := RunAll(l, s, actions); RunInv(l, t.ig, t.consumers, t.runs)
    decreases |actions|
  {
    hide RunInv; hide Step;
    if actions != [] {
      StepKeeps(l, s, actions[0]);
      RunKeeps(l, Step(l, s, actions[0]), actions[1..]);
    }
  }

  // ---- the bound

  /** The delivery numbers under which the job of entry e ran in one group lifetime. */
  function DeliveriesRun(runs: seq<Run>, e: nat, g: nat): seq<nat>
    decreases |runs|
  {
    if runs == [] then []
    else
      var last := runs[|runs| - 1];
      DeliveriesRun(runs[..|runs| - 1], e, g) + (if last.entry == e && last.lifetime == g then [last.delivery] else [])
  }

  lemma {:induction false} DeliveriesComeFromRuns(runs: seq<Run>, e: nat, g: nat, k: nat)
    ensures k in DeliveriesRun(runs, e, g) <==> Run(e, g, k) in runs
    decreases |runs|
  {
    if runs != [] {
      DeliveriesComeFromRuns(runs[..|runs| - 1], e, g, k);
      assert runs == runs[..|runs| - 1] + [runs[|runs| - 1]];
    }
  }

  lemma {:induction false} DeliveriesDistinct(runs: seq<Run>, e: nat, g: nat)
    requires NoDuplicates(runs)
    ensures NoDuplicates(DeliveriesRun(runs, e, g))
    decreases |runs|
  {
    if runs != [] {
      var rest, last := runs[..|runs| - 1], runs[|runs| - 1];
      DeliveriesDistinct(rest, e, g);
      DeliveriesComeFromRuns(rest, e, g, last.delivery);
      assert last !in rest;
    }
  }

  /** Over any run of the whole system, with any number of consumers, crashes and restarts, the job
      of one entry is executed at most poison_threshold times per group lifetime. */
  lemma JobRunsBounded(l: Limits, actions: seq<Action>, e: nat, g: nat)
    requires l.Valid()
    ensures |DeliveriesRun(RunAll(l, Initial(), actions).runs, e, g)| <= l.poisonThreshold
  {
    var s := RunAll(l, Initial(), actions);
    RunKeeps(l, Initial(), actions);
    var ks := DeliveriesRun(s.runs, e, g);
    DeliveriesDistinct(s.runs, e, g);
    forall i | 0 <= i < |ks| ensures ks[i] in Below(l.poisonThreshold + 1) - {0} {
      DeliveriesComeFromRuns(s.runs, e, g, ks[i]);
      assert Run(e, g, ks[i]) in s.runs;
    }
    DistinctFit(ks, Below(l.poisonThreshold + 1) - {0});
  }
}
