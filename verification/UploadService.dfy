/** The upload requests of the center: confirming an upload, and polling how far it got. Between two
    database calls of a request everybody else may take any number of steps. */
module UploadService {
  import opened Domain
  import opened Tables
  import opened TableInvariants
  import opened System
  import opened Frames
  import W = World
  import CustodyInvariant

  datatype ConfirmResult =
    | Confirmed(intent: Intent)
    | ErrIntentExpired
    | ErrIntentUnknown
    | ErrIntentFailed
    | ErrIntentNotFound
    | DatabaseError

  /** What a poll shows: the text of the intent's status or of the document's. */
  datatype UploadStatus = ShowsWaiting | ShowsUploaded | ShowsExpired | ShowsFailed | ShowsProcessing | ShowsIndexed

  datatype PollResult = Shows(status: UploadStatus) | PollNotFound | PollUnknown | MissingDocument | PollFailed

  function IntentText(s: IntentStatus): PollResult {
    match s
    case Waiting => Shows(ShowsWaiting)
    case Uploaded => Shows(ShowsUploaded)
    case Hashing => Shows(ShowsProcessing)
    case Hashed => Shows(ShowsProcessing)
    case Expired => Shows(ShowsExpired)
    case IntentFailed => Shows(ShowsFailed)
    case Unknown => PollUnknown
  }

  function DocumentText(s: DocumentStatus): PollResult {
    match s
    case Processing => Shows(ShowsProcessing)
    case Indexed => Shows(ShowsIndexed)
    case Failed => Shows(ShowsFailed)
  }

  /** The answer to a poll that read the intent in `a` and the document in `b`. */
  function PollOf(a: Db, b: Db, id: IntentId, now: Time): PollResult {
    if id !in a.intents then PollNotFound
    else
      var i := a.intents[id];
      if i.status == Waiting && now >= i.expiresAt then Shows(ShowsExpired)
      else if i.hash.None? then IntentText(i.status)
      else if i.hash.value !in b.documents then MissingDocument
      else DocumentText(b.documents[i.hash.value].status)
  }

  /** What an answer promises about the intent from then on. */
  predicate Promised(r: ConfirmResult, db: Db, id: IntentId) {
    match r
    case Confirmed(_) => id in db.intents && db.intents[id].status !in {Waiting, Expired, Unknown}
    case ErrIntentExpired => id in db.intents && db.intents[id].status == Expired
    case ErrIntentFailed => id in db.intents && db.intents[id].status == IntentFailed
    case ErrIntentUnknown => false
    case _ => true
  }

  // ---- confirming, alone

  /** `rounds` rounds of the lost-gate loop while nobody else writes: whether it came to an answer. */
  predicate Settles(db: Db, id: IntentId, now: Time, rounds: nat) {
    rounds > 0
    && (id !in db.intents || db.intents[id].status != Waiting || ToExpired(db, id, now).1
        || Settles(db, id, now, rounds - 1))
  }

  /** The loop ends at once or never: it spins exactly on a waiting intent that has not expired at the
      clock reading of the request, as one created after the request's first update can be. */
  lemma {:induction false} LostGateSpinsExactly(db: Db, id: IntentId, now: Time, rounds: nat)
    requires rounds > 0
    ensures Settles(db, id, now, rounds)
      <==> !(id in db.intents && db.intents[id].status == Waiting && db.intents[id].expiresAt > now)
  {
    if rounds > 1 { LostGateSpinsExactly(db, id, now, rounds - 1); }
  }

  /** An intent created between the two updates of a request that already lost the first one. */
  lemma LateIntentSpins(id: IntentId, now: Time, rounds: nat)
    ensures !ToUploaded(Empty(), id, now).1
    ensures var late := CreateIntent(Empty(), id, "late.txt", None, now, now + 7200).0;
      !Settles(late, id, now, rounds)
  {
    var late := CreateIntent(Empty(), id, "late.txt", None, now, now + 7200).0;
    if rounds > 0 { LostGateSpinsExactly(late, id, now, rounds); }
  }

  class Service {
    const world: W.World

    constructor (world: W.World)
      ensures this.world == world
    {
      this.world := world;
    }

    /** One statement of a request, after any steps of the others. `changed` is the number of rows it
        reports, None on an error, after which nobody knows whether it took effect. */
    method Execute(stmt: Stmt, reply: Reply) returns (changed: Option<bool>, ghost at: Db)
      requires world.Valid() && (stmt.SUploaded? || stmt.SExpired?)
      modifies world
      ensures world.Valid() && Evolves(old(world.s.db), at) && Evolves(at, world.s.db)
      ensures Evolves(old(world.s.db), world.s.db) && (changed.Some? <==> reply.Done?)
      ensures changed.Some? ==>
        var after := if stmt.SUploaded? then ToUploaded(at, stmt.id, stmt.now) else ToExpired(at, stmt.id, stmt.now);
        world.s.db == after.0 && changed.value == after.1
    {
      world.Others(Nobody);
      world.Reachable();
      hide CustodyInvariant.SysInv; hide Evolves; hide BornAfter; hide LatestAfter;
      at := world.s.db;
      CustodyInvariant.StepKeeps(world.limits, world.s, Center(stmt, reply));
      changed := if !reply.Done? then None
        else Some(match stmt
                  case SUploaded(id, now) => ToUploaded(world.s.db, id, now).1
                  case SExpired(id, now) => ToExpired(world.s.db, id, now).1
                  case _ => false);
      world.Act(Center(stmt, reply));
      EvolvesTransitive(old(world.s.db), at, world.s.db);
    }

    /** What a later version of the database still says about an intent. */
    lemma LaterIntent(a: Db, b: Db, id: IntentId)
      requires Evolves(a, b) && id in a.intents
      ensures id in b.intents && IntentEvolves(a.intents[id], b.intents[id])
    {
    }

    /** None is a failed query; Some(None) means there is no such intent. */
    method GetIntent(id: IntentId, answered: bool) returns (intent: Option<Option<Intent>>, ghost at: Db)
      requires world.Valid()
      modifies world
      ensures world.Valid() && world.s.db == at && Evolves(old(world.s.db), at) && Inv(world.limits, at)
      ensures intent.Some? <==> answered
      ensures intent.Some? ==> intent.value == if id in at.intents then Some(at.intents[id]) else None
    {
      world.Others(Nobody);
      world.Reachable();
      at := world.s.db;
      assert Inv(world.limits, at);
      intent := if !answered then None
        else Some(if id in world.s.db.intents then Some(world.s.db.intents[id]) else None);
    }

    /** Moves a waiting, unexpired upload to UPLOADED, whenever the database answers. At most one row is
        ever written, and only over WAITING, so a concurrent winner is never overwritten; an intent that
        exists is read at most twice. `first` is the database the update met, `seen` the one the answer
        was read from; an error is reported only when a call failed or the request was cancelled. */
    method ConfirmUpload(ctx: W.Context, id: IntentId, now: Time, replies: nat -> Reply)
      returns (r: ConfirmResult, ghost lookups: nat, ghost overwritten: seq<IntentStatus>, ghost first: Db,
        ghost seen: Db)
      requires world.Valid()
      modifies world, ctx
      ensures world.Valid() && Evolves(old(world.s.db), world.s.db) && Promised(r, world.s.db, id)
      ensures Evolves(old(world.s.db), first) && Evolves(old(world.s.db), seen) && Evolves(seen, world.s.db)
      ensures id in old(world.s.db).intents ==> lookups <= 2 && !r.ErrIntentNotFound?
      ensures overwritten == [] || overwritten == [Waiting]
      ensures r.Confirmed? && overwritten != [] ==>
        r.intent.status == Uploaded && r.intent.uploadedAt == Some(now) && r.intent.expiresAt > now
      ensures (forall k: nat :: replies(k).Done?) && !ctx.cancelled ==> !r.DatabaseError?
      ensures replies(0).Done? ==>
        if id in first.intents && first.intents[id].status == Waiting && now < first.intents[id].expiresAt then
          overwritten == [Waiting] && (replies(1).Done? ==> r.Confirmed?)
        else r.DatabaseError? || AnswersWith(r, seen, id, overwritten)
    {
      hide Evolves; hide Inv; hide AnswersWith;
      NothingEvolves(world.s.db);
      var changed, at := Execute(SUploaded(id, now), replies(0));
      first, seen := at, at;
      ghost var next := world.s.db;
      if id in old(world.s.db).intents {
        LaterIntent(old(world.s.db), at, id);
        LaterIntent(at, next, id);
      }
      if changed.None? { return DatabaseError, 0, [], at, at; }
      if !changed.value {
        r, lookups, overwritten, seen := ResolveLostGate(ctx, id, now, k requires 0 <= k => replies(k + 1));
        EvolvesTransitive(old(world.s.db), next, seen);
        EvolvesTransitive(old(world.s.db), next, world.s.db);
        return;
      }
      var intent;
      intent, seen := GetIntent(id, replies(1).Done?);
      NothingEvolves(seen);
      lookups, overwritten := 1, [at.intents[id].status];
      EvolvesTransitive(old(world.s.db), next, seen);
      LaterIntent(next, seen, id);
      if intent.None? { return DatabaseError, lookups, overwritten, first, seen; }
      if intent.value.None? { return ErrIntentNotFound, lookups, overwritten, first, seen; }
      return Confirmed(intent.value.value.(status := Uploaded, uploadedAt := Some(now))), lookups, overwritten, first,
        seen;
    }

    /** The answer of a request that lost the gate, status by status of the intent it read last. */
    predicate AnswersWith(r: ConfirmResult, seen: Db, id: IntentId, overwritten: seq<IntentStatus>) {
      if id !in seen.intents then r.ErrIntentNotFound? && overwritten == []
      else match seen.intents[id].status
        case Waiting => r.ErrIntentExpired? && overwritten == [Waiting]
        case Expired => r.ErrIntentExpired? && overwritten == []
        case IntentFailed => r.ErrIntentFailed? && overwritten == []
        case Unknown => r.ErrIntentUnknown? && overwritten == []
        case _ => r == Confirmed(seen.intents[id]) && overwritten == []
    }

    lemma KnownStatus(l: Limits, db: Db, id: IntentId)
      requires Inv(l, db) && id in db.intents
      ensures db.intents[id].status != Unknown
    {
      assert IntentOk(l, db.documents, db.intents[id]);
    }

    /** The winner of the gate is read back; a request whose second update loses too reads again. Its
        context allows only finitely many calls. */
    method ResolveLostGate(ctx: W.Context, id: IntentId, now: Time, replies: nat -> Reply)
      returns (r: ConfirmResult, ghost lookups: nat, ghost overwritten: seq<IntentStatus>, ghost seen: Db)
      requires world.Valid()
      modifies world, ctx
      ensures world.Valid() && Evolves(old(world.s.db), world.s.db) && Promised(r, world.s.db, id)
      ensures Evolves(old(world.s.db), seen) && Evolves(seen, world.s.db)
      ensures id in old(world.s.db).intents ==> !r.ErrIntentNotFound?
      ensures id in old(world.s.db).intents && old(world.s.db).intents[id].status != Waiting ==> lookups <= 1
      ensures id in old(world.s.db).intents && old(world.s.db).intents[id].expiresAt <= now ==> lookups <= 2
      ensures overwritten == [] || overwritten == [Waiting]
      ensures r.Confirmed? ==> overwritten == []
      ensures r.DatabaseError? || AnswersWith(r, seen, id, overwritten)
      ensures (forall k: nat :: replies(k).Done?) && !ctx.cancelled ==> !r.DatabaseError?
      decreases ctx.patience, 1
    {
      hide Evolves; hide Inv;
      var intent;
      intent, seen := GetIntent(id, replies(0).Done?);
      NothingEvolves(seen);
      if id in old(world.s.db).intents { LaterIntent(old(world.s.db), seen, id); }
      if id in seen.intents { KnownStatus(world.limits, seen, id); }
      lookups, overwritten := 1, [];
      if intent.None? { return DatabaseError, lookups, overwritten, seen; }
      if intent.value.None? { return ErrIntentNotFound, lookups, overwritten, seen; }
      match intent.value.value.status {
        case Expired => r := ErrIntentExpired;
        case Unknown => r := ErrIntentUnknown;
        case IntentFailed => r := ErrIntentFailed;
        case Hashed => r := Confirmed(intent.value.value);
        case Hashing => r := Confirmed(intent.value.value);
        case Uploaded => r := Confirmed(intent.value.value);
        case Waiting =>
          ghost var before, more := seen, 0;
          r, more, overwritten, seen := ExpireWaiting(ctx, id, now, replies);
          lookups := lookups + more;
          EvolvesTransitive(old(world.s.db), before, seen);
          EvolvesTransitive(old(world.s.db), before, world.s.db);
      }
    }

    /** The second update, for an intent that was read as WAITING. */
    method ExpireWaiting(ctx: W.Context, id: IntentId, now: Time, replies: nat -> Reply)
      returns (r: ConfirmResult, ghost lookups: nat, ghost overwritten: seq<IntentStatus>, ghost seen: Db)
      requires world.Valid() && id in world.s.db.intents && world.s.db.intents[id].status == Waiting
      modifies world, ctx
      ensures world.Valid() && Evolves(old(world.s.db), world.s.db) && Promised(r, world.s.db, id)
      ensures Evolves(old(world.s.db), seen) && Evolves(seen, world.s.db)
      ensures !r.ErrIntentNotFound?
      ensures old(world.s.db).intents[id].expiresAt <= now ==> lookups <= 1
      ensures overwritten == [] || overwritten == [Waiting]
      ensures r.Confirmed? ==> overwritten == []
      ensures r.DatabaseError? || AnswersWith(r, seen, id, overwritten)
      ensures (forall k: nat :: replies(k).Done?) && !ctx.cancelled ==> !r.DatabaseError?
      decreases ctx.patience, 0
    {
      hide Evolves; hide Inv;
      seen, lookups, overwritten := world.s.db, 0, [];
      NothingEvolves(seen);
      var full := ctx.Sleep();
      if !full { return DatabaseError, lookups, overwritten, seen; }
      var changed, at := Execute(SExpired(id, now), replies(1));
      ghost var next := world.s.db;
      LaterIntent(old(world.s.db), at, id);
      LaterIntent(at, next, id);
      if changed.None? { return DatabaseError, lookups, overwritten, seen; }
      if changed.value { return ErrIntentExpired, lookups, [at.intents[id].status], seen; }
      r, lookups, overwritten, seen := ResolveLostGate(ctx, id, now, k requires 0 <= k => replies(k + 2));
      EvolvesTransitive(old(world.s.db), next, seen);
      EvolvesTransitive(old(world.s.db), next, world.s.db);
    }

    /** Polls the intent and then, once it names one, its document: `a` and `b` are the databases the two
        queries met. An error is reported only when a query failed. */
    method GetUploadStatus(id: IntentId, intentAnswers: bool, documentAnswers: bool)
      returns (r: PollResult, ghost a: Db, ghost b: Db, ghost now: Time)
      requires world.Valid()
      modifies world
      ensures world.Valid() && Evolves(old(world.s.db), a) && Evolves(a, b) && Evolves(b, world.s.db)
      ensures r.PollFailed? || r == PollOf(a, b, id, now)
      ensures !r.MissingDocument? && !r.PollUnknown?
      ensures intentAnswers && documentAnswers ==> !r.PollFailed?
      ensures !intentAnswers ==> r.PollFailed?
      ensures r.PollFailed? || (r.PollNotFound? <==> id !in a.intents)
      ensures id in a.intents && a.intents[id].hash.None? ==> r.PollFailed? || ShowsIntent(r, a.intents[id], now)
      ensures id in a.intents && a.intents[id].hash.Some? && a.intents[id].status != Waiting ==>
        r.PollFailed? || ShowsDocument(r, b, a.intents[id].hash.value)
    {
      hide Evolves; hide Inv;
      var intent;
      intent, a := GetIntent(id, intentAnswers);
      var clock: Time := *;
      b, now := a, clock;
      NothingEvolves(b);
      if intent.None? { return PollFailed, a, b, now; }
      if intent.value.None? { return PollNotFound, a, b, now; }
      var i := intent.value.value;
      KnownStatus(world.limits, a, id);
      if i.status == Waiting && clock >= i.expiresAt { return Shows(ShowsExpired), a, b, now; }
      if i.hash.Some? {
        world.Others(Nobody);
        b := world.s.db;
        NothingEvolves(b);
        NeverMissing(world.limits, a, b, id, now);
        if !documentAnswers { return PollFailed, a, b, now; }
        if i.hash.value !in world.s.db.documents { return MissingDocument, a, b, now; }
        return DocumentText(world.s.db.documents[i.hash.value].status), a, b, now;
      }
      return IntentText(i.status), a, b, now;
    }

    /** What a poll of an intent without a hash shows. */
    predicate ShowsIntent(r: PollResult, i: Intent, now: Time) {
      match i.status
      case Waiting => r == Shows(if now < i.expiresAt then ShowsWaiting else ShowsExpired)
      case Uploaded => r == Shows(ShowsUploaded)
      case Hashing => r == Shows(ShowsProcessing)
      case Hashed => r == Shows(ShowsProcessing)
      case Expired => r == Shows(ShowsExpired)
      case IntentFailed => r == Shows(ShowsFailed)
      case Unknown => false
    }

    /** Once the intent names a document, the poll shows that document's status. */
    predicate ShowsDocument(r: PollResult, b: Db, h: Hash) {
      && h in b.documents
      && match b.documents[h].status
         case Processing => r == Shows(ShowsProcessing)
         case Indexed => r == Shows(ShowsIndexed)
         case Failed => r == Shows(ShowsFailed)
    }
  }

  // ---- answers over whole runs

  /** INDEXED and FAILED are final: any later poll says the same. */
  lemma StableAnswer(l: Limits, a: Db, b: Db, c: Db, d: Db, id: IntentId, now: Time, later: Time)
    requires Inv(l, a) && Evolves(a, b) && Evolves(b, c) && Evolves(c, d)
    requires PollOf(a, b, id, now) in {Shows(ShowsIndexed), Shows(ShowsFailed)}
    ensures PollOf(c, d, id, later) == PollOf(a, b, id, now)
  {
    hide OutboxEvolves; hide OutboxOk; hide DocumentsOk;
    var i := a.intents[id];
    assert IntentOk(l, a.documents, i);
    assert IntentEvolves(i, b.intents[id]) && IntentEvolves(b.intents[id], c.intents[id]);
    if i.hash.Some? {
      assert DocumentEvolves(b.documents[i.hash.value], c.documents[i.hash.value]);
      assert DocumentEvolves(c.documents[i.hash.value], d.documents[i.hash.value]);
    }
  }

  lemma {:induction false} RunSplit(l: Limits, s: State, actions: seq<Action>, i: nat)
    requires i <= |actions|
    ensures RunAll(l, s, actions) == RunAll(l, RunAll(l, s, actions[..i]), actions[i..])
    decreases i
  {
    hide Step;
    if i == 0 {
      assert actions[0..] == actions;
    } else {
      RunSplit(l, Step(l, s, actions[0]), actions[1..], i - 1);
      assert actions[..i][1..] == actions[1..][..i - 1];
      assert actions[i..] == actions[1..][i - 1..];
    }
  }

  function DbAfter(l: Limits, actions: seq<Action>, n: nat): Db
    requires n <= |actions|
  {
    RunAll(l, Initial(), actions[..n]).db
  }

  lemma DbEvolves(l: Limits, actions: seq<Action>, i: nat, j: nat)
    requires l.Valid() && i <= j <= |actions|
    ensures Inv(l, DbAfter(l, actions, i)) && Evolves(DbAfter(l, actions, i), DbAfter(l, actions, j))
  {
    hide Step; hide Evolves; hide Inv;
    CustodyInvariant.InitialInv(l);
    CustodyInvariant.RunKeeps(l, Initial(), actions[..i]);
    assert Inv(l, DbAfter(l, actions, i));
    CustodyInvariant.RunKeeps(l, RunAll(l, Initial(), actions[..i]), actions[i..j]);
    RunSplit(l, Initial(), actions[..j], i);
    assert actions[..j][..i] == actions[..i] && actions[..j][i..] == actions[i..j];
  }

  /** Over a whole run of the system: a poll that reads its rows after i and j steps, and a later one
      that reads them after k and m. Once INDEXED or FAILED was shown, it stays; and no poll ever finds
      an intent that names a missing document. */
  lemma StablePolls(l: Limits, actions: seq<Action>, i: nat, j: nat, k: nat, m: nat, id: IntentId, now: Time,
      later: Time)
    requires l.Valid() && i <= j <= k <= m <= |actions|
    ensures var first, second :=
        PollOf(DbAfter(l, actions, i), DbAfter(l, actions, j), id, now),
        PollOf(DbAfter(l, actions, k), DbAfter(l, actions, m), id, later);
      && (first in {Shows(ShowsIndexed), Shows(ShowsFailed)} ==> second == first)
      && !first.MissingDocument? && !second.MissingDocument?
  {
    var a, b, c, d := DbAfter(l, actions, i), DbAfter(l, actions, j), DbAfter(l, actions, k), DbAfter(l, actions, m);
    DbEvolves(l, actions, i, j);
    DbEvolves(l, actions, j, k);
    DbEvolves(l, actions, k, m);
    NeverMissing(l, a, b, id, now);
    NeverMissing(l, c, d, id, later);
    hide PollOf; hide Inv; hide Evolves; hide DbAfter;
    if PollOf(a, b, id, now) in {Shows(ShowsIndexed), Shows(ShowsFailed)} {
      StableAnswer(l, a, b, c, d, id, now, later);
    }
  }

  lemma NeverMissing(l: Limits, a: Db, b: Db, id: IntentId, now: Time)
    requires Inv(l, a) && Evolves(a, b)
    ensures !PollOf(a, b, id, now).MissingDocument?
  {
    if id in a.intents {
      assert IntentOk(l, a.documents, a.intents[id]);
    }
  }
}
