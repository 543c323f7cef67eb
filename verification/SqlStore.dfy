/** The SQLite store: rows are written in place, one statement at a time; the two transactions that
    span several statements undo everything when any statement, or the commit, fails. Every method
    is proved against the function of the same name in Tables. */
module SqlStore {
  import opened Domain
  import T = Tables

  /** Where the database reports an error; None is a call without one. */
  datatype Fault = NoFault | AtBegin | AtFirst | AtSecond | AtThird | AtCommit

  datatype Outcome<T> = Ok(value: T) | DbError

  class Store {
    const limits: Limits
    var intents: map<IntentId, Intent>
    var documents: map<Hash, Document>
    var outbox: map<nat, OutboxRow>
    var nextId: nat

    constructor (limits: Limits)
      ensures this.limits == limits && Db() == T.Empty()
    {
      this.limits := limits;
      intents, documents, outbox, nextId := map[], map[], map[], 0;
    }

    /** The three tables as one value. */
    function Db(): T.Db
      reads this
    {
      T.Db(intents, documents, outbox, nextId)
    }

    method Rollback(saved: T.Db)
      modifies this
      ensures Db() == saved
    {
      intents, documents, outbox, nextId := saved.intents, saved.documents, saved.outbox, saved.nextId;
    }

    method InsertDocument(h: Hash, file: FileInfo, now: Time) returns (created: bool)
      modifies this`documents
      ensures created <==> h !in old(documents)
      ensures documents == if created then old(documents)[h := Document(file, Processing, 0, now, now)]
        else old(documents)
    {
      created := h !in documents;
      if created {
        documents := documents[h := Document(file, Processing, 0, now, now)];
      }
    }

    method InsertOutbox(h: Hash, now: Time)
      modifies this`outbox, this`nextId
      ensures Db() == T.Queue(old(Db()), h, now)
    {
      outbox := outbox[nextId := OutboxRow(h, Pending, None, None, 0, now)];
      nextId := nextId + 1;
    }

    /** The first worker to get here creates the document and queues attempt 0. Ok(false) is the
        lost claim: everything written before the fence failed is rolled back. */
    method StartIngestion(h: Hash, file: FileInfo, id: IntentId, w: WorkerId, now: Time, fault: Fault)
      returns (r: Outcome<bool>)
      modifies this
      ensures r.DbError? ==> Db() == old(Db()) && fault != NoFault
      ensures r.Ok? ==> (Db(), r.value) == T.StartIngestion(old(Db()), h, file, id, w, now)
      ensures r.Ok? ==>
        (r.value <==> id in old(intents) && old(intents)[id].status == Hashing && old(intents)[id].claimedBy == Some(w))
      ensures r.Ok? && !r.value ==> Db() == old(Db())
      ensures r.Ok? && r.value ==>
        && intents == old(intents)[id := intents[id]] && intents[id].status == Hashed && intents[id].hash == Some(h)
        && intents[id].tempPath == old(intents)[id].tempPath && intents[id].retries == old(intents)[id].retries
      ensures r.Ok? && r.value && h !in old(documents) ==>
        && documents == old(documents)[h := Document(file, Processing, 0, now, now)]
        && outbox == old(outbox)[old(nextId) := OutboxRow(h, Pending, None, None, 0, now)]
      ensures r.Ok? && r.value && h in old(documents) ==> documents == old(documents) && outbox == old(outbox)
      ensures fault == NoFault || (fault == AtSecond && h in old(documents)) ==> r.Ok?
      ensures fault == AtCommit && T.OwnsIntent(old(Db()), id, w) ==> r.DbError?
    {
      if fault == AtBegin { return DbError; }
      var saved := Db();
      if fault == AtFirst { return DbError; }
      var created := InsertDocument(h, file, now);
      if created {
        if fault == AtSecond { Rollback(saved); return DbError; }
        InsertOutbox(h, now);
      }
      if fault == AtThird { Rollback(saved); return DbError; }
      if id !in intents || intents[id].status != Hashing || intents[id].claimedBy != Some(w) {
        Rollback(saved);
        return Ok(false);
      }
      intents := intents[id := intents[id].(status := Hashed, hash := Some(h))];
      if fault == AtCommit { Rollback(saved); return DbError; }
      return Ok(true);
    }

    method ApplyIndexed(h: Hash, attempts: nat, now: Time, fault: Fault) returns (r: Outcome<bool>)
      modifies this
      ensures r.DbError? <==> fault != NoFault
      ensures r.DbError? ==> Db() == old(Db())
      ensures r.Ok? ==> (Db(), r.value) == T.ApplyIndexed(old(Db()), h, attempts, now)
      ensures intents == old(intents) && outbox == old(outbox)
      ensures r.Ok? ==>
        r.value == (h in old(documents) && old(documents)[h].status == Processing
                    && old(documents)[h].retries == attempts)
      ensures r.Ok? && !r.value ==> documents == old(documents)
      ensures r.Ok? && r.value ==>
        && documents == old(documents)[h := documents[h]] && documents[h].status == Indexed
        && documents[h].updatedAt == now && documents[h].retries == attempts
        && documents[h].file == old(documents)[h].file && documents[h].createdAt == old(documents)[h].createdAt
    {
      if fault != NoFault { return DbError; }
      if h in documents && documents[h].retries == attempts && documents[h].status == Processing {
        documents := documents[h := documents[h].(status := Indexed, updatedAt := now)];
        return Ok(true);
      }
      return Ok(false);
    }

    /** The retry decision, the compare-and-swap and the queued row stand or fall together. */
    method ApplyFailed(h: Hash, attempts: nat, retryable: bool, now: Time, fault: Fault)
      returns (r: Outcome<FailedOutcome>)
      modifies this
      ensures r.DbError? ==> Db() == old(Db()) && fault != NoFault
      ensures r.Ok? ==> (Db(), r.value) == T.ApplyFailed(limits, old(Db()), h, attempts, retryable, now)
      ensures intents == old(intents)
      ensures r.Ok? ==>
        r.value.Stale? == !(h in old(documents) && old(documents)[h].status == Processing
                            && old(documents)[h].retries == attempts)
      ensures r.Ok? && !r.value.Stale? ==> (r.value.Retried? <==> retryable && attempts + 1 < limits.maxAttempts)
      ensures r.Ok? && r.value.Stale? ==> Db() == old(Db())
      ensures r.Ok? && !r.value.Stale? ==>
        && documents == old(documents)[h := documents[h]] && documents[h].updatedAt == now
        && documents[h].file == old(documents)[h].file && documents[h].createdAt == old(documents)[h].createdAt
      ensures r.Ok? && r.value.Retried? ==>
        && documents[h].status == Processing && documents[h].retries == attempts + 1
        && outbox == old(outbox)[old(nextId) := OutboxRow(h, Pending, None, None, 0, now)]
      ensures r.Ok? && r.value.Exhausted? ==>
        documents[h].status == Failed && documents[h].retries == attempts && outbox == old(outbox)
      ensures fault == NoFault ==> r.Ok?
      ensures fault == AtCommit && T.Current(old(Db()), h, attempts) ==> r.DbError?
    {
      if fault == AtBegin { return DbError; }
      var saved := Db();
      var retry := retryable && attempts + 1 < limits.maxAttempts;
      if fault == AtFirst { return DbError; }
      if h !in documents || documents[h].retries != attempts || documents[h].status != Processing {
        Rollback(saved);
        return Ok(Stale);
      }
      if retry {
        documents := documents[h := documents[h].(retries := attempts + 1, updatedAt := now)];
      } else {
        documents := documents[h := documents[h].(status := Failed, updatedAt := now)];
      }
      if retry {
        if fault == AtSecond { Rollback(saved); return DbError; }
        InsertOutbox(h, now);
      }
      if fault == AtCommit { Rollback(saved); return DbError; }
      return Ok(if retry then Retried else Exhausted);
    }

    method CreateIntent(id: IntentId, fileName: string, tempPath: Option<string>, now: Time, expiresAt: Time)
      returns (ok: bool)
      modifies this`intents
      ensures (Db(), ok) == T.CreateIntent(old(Db()), id, fileName, tempPath, now, expiresAt)
      ensures ok <==> id !in old(intents)
      ensures intents == if ok then old(intents)[id := intents[id]] else old(intents)
      ensures ok ==>
        && intents[id].status == Waiting && intents[id].fileName == fileName && intents[id].tempPath == tempPath
        && intents[id].createdAt == now && intents[id].expiresAt == expiresAt && intents[id].hash.None?
        && intents[id].uploadedAt.None? && intents[id].claimedBy.None? && intents[id].claimedAt.None?
        && intents[id].retries == 0
    {
      if id in intents { return false; }
      intents := intents[id := Intent(fileName, tempPath, None, now, expiresAt, None, Waiting, None, None, 0)];
      return true;
    }

    method UpdateIntentToUploaded(id: IntentId, uploadedAt: Time) returns (changed: bool)
      modifies this`intents
      ensures (Db(), changed) == T.ToUploaded(old(Db()), id, uploadedAt)
      ensures changed <==>
        id in old(intents) && old(intents)[id].status == Waiting && uploadedAt < old(intents)[id].expiresAt
      ensures intents ==
        if changed then old(intents)[id := old(intents)[id].(status := Uploaded, uploadedAt := Some(uploadedAt))]
        else old(intents)
    {
      if id in intents && intents[id].status == Waiting && intents[id].expiresAt > uploadedAt {
        intents := intents[id := intents[id].(status := Uploaded, uploadedAt := Some(uploadedAt))];
        return true;
      }
      return false;
    }

    method UpdateIntentToExpired(id: IntentId, now: Time) returns (changed: bool)
      modifies this`intents
      ensures (Db(), changed) == T.ToExpired(old(Db()), id, now)
      ensures changed <==>
        id in old(intents) && old(intents)[id].status == Waiting && now >= old(intents)[id].expiresAt
      ensures intents == if changed then old(intents)[id := old(intents)[id].(status := Expired)] else old(intents)
    {
      if id in intents && intents[id].status == Waiting && intents[id].expiresAt <= now {
        intents := intents[id := intents[id].(status := Expired)];
        return true;
      }
      return false;
    }

    method UpdateIntentToHashing(id: IntentId, w: WorkerId, at: Time) returns (changed: bool)
      modifies this`intents
      ensures (Db(), changed) == T.ToHashing(old(Db()), id, w, at)
      ensures changed <==> id in old(intents) && old(intents)[id].status == Uploaded
      ensures intents ==
        if changed then
          old(intents)[id := old(intents)[id].(status := Hashing, claimedBy := Some(w), claimedAt := Some(at))]
        else old(intents)
    {
      if id in intents && intents[id].status == Uploaded {
        intents := intents[id := intents[id].(status := Hashing, claimedBy := Some(w), claimedAt := Some(at))];
        return true;
      }
      return false;
    }

    method MarkIntentFailed(id: IntentId, w: WorkerId) returns (changed: bool)
      modifies this`intents
      ensures (Db(), changed) == T.MarkIntentFailed(old(Db()), id, w)
      ensures changed <==>
        id in old(intents) && old(intents)[id].status == Hashing && old(intents)[id].claimedBy == Some(w)
      ensures intents ==
        if changed then
          old(intents)[id := old(intents)[id].(status := IntentFailed, claimedBy := None, claimedAt := None)]
        else old(intents)
    {
      if id in intents && intents[id].status == Hashing && intents[id].claimedBy == Some(w) {
        intents := intents[id := intents[id].(status := IntentFailed, claimedBy := None, claimedAt := None)];
        return true;
      }
      return false;
    }

    /** Under the own claim the intent can be claimed again, until its retries reach the limit. */
    method ReleaseIntentClaim(id: IntentId, w: WorkerId) returns (changed: bool)
      modifies this`intents
      ensures (Db(), changed) == T.ReleaseIntentClaim(limits, old(Db()), id, w)
      ensures changed <==>
        id in old(intents) && old(intents)[id].status == Hashing && old(intents)[id].claimedBy == Some(w)
      ensures intents ==
        if !changed then old(intents)
        else
          var i := old(intents)[id];
          old(intents)[id := i.(
            status := if i.retries + 1 < limits.hashRetries then Uploaded else IntentFailed,
            retries := i.retries + 1, claimedBy := None, claimedAt := None)]
    {
      if id in intents && intents[id].status == Hashing && intents[id].claimedBy == Some(w) {
        var i := intents[id];
        var next := if i.retries + 1 >= limits.hashRetries then IntentFailed else Uploaded;
        intents := intents[id := i.(status := next, retries := i.retries + 1, claimedBy := None, claimedAt := None)];
        return true;
      }
      return false;
    }

    /** One UPDATE over the whole table, row by row: exactly the intents whose claim is older than the
        cutoff are given back, each counting a retry; every other intent stays as it is. */
    method RecoverStaleIntents(cutoff: Time)
      modifies this`intents
      ensures Db() == T.RecoverStaleIntents(limits, old(Db()), cutoff)
      ensures intents.Keys == old(intents).Keys
      ensures forall id :: id in intents ==>
        var i := old(intents)[id];
        intents[id] ==
          if i.status == Hashing && i.claimedAt.Some? && i.claimedAt.value < cutoff then i.(
            status := if i.retries + 1 < limits.hashRetries then Uploaded else IntentFailed,
            retries := i.retries + 1, claimedBy := None, claimedAt := None)
          else i
    {
      var todo := intents.Keys;
      while todo != {}
        invariant todo <= intents.Keys == old(intents).Keys
        invariant forall id :: id in intents && id in todo ==> intents[id] == old(intents)[id]
        invariant forall id :: id in intents && id !in todo ==>
          intents[id] == (if T.StaleIntent(old(intents)[id], cutoff) then T.Demoted(limits, old(intents)[id])
            else old(intents)[id])
        decreases todo
      {
        var id :| id in todo;
        todo := todo - {id};
        var i := intents[id];
        if i.status == Hashing && i.claimedAt.Some? && i.claimedAt.value < cutoff {
          var next := if i.retries + 1 >= limits.hashRetries then IntentFailed else Uploaded;
          intents := intents[id := i.(status := next, retries := i.retries + 1, claimedBy := None, claimedAt := None)];
        }
      }
      assert intents == T.RecoverStaleIntents(limits, old(Db()), cutoff).intents;
    }

    method ClaimOutboxMessage(id: nat, w: WorkerId, now: Time) returns (changed: bool)
      modifies this`outbox
      ensures (Db(), changed) == T.ClaimOutboxMessage(old(Db()), id, w, now)
      ensures changed <==> id in old(outbox) && old(outbox)[id].status == Pending
      ensures outbox ==
        if changed then
          old(outbox)[id := old(outbox)[id].(status := Claimed, claimedBy := Some(w), claimedAt := Some(now))]
        else old(outbox)
    {
      if id in outbox && outbox[id].status == Pending {
        outbox := outbox[id := outbox[id].(status := Claimed, claimedBy := Some(w), claimedAt := Some(now))];
        return true;
      }
      return false;
    }

    method MarkPublished(id: nat, w: WorkerId) returns (changed: bool)
      modifies this`outbox
      ensures (Db(), changed) == T.MarkPublished(old(Db()), id, w)
      ensures changed <==>
        id in old(outbox) && old(outbox)[id].status == Claimed && old(outbox)[id].claimedBy == Some(w)
      ensures outbox ==
        if changed then old(outbox)[id := old(outbox)[id].(status := Published, claimedBy := None, claimedAt := None)]
        else old(outbox)
    {
      if id in outbox && outbox[id].status == Claimed && outbox[id].claimedBy == Some(w) {
        outbox := outbox[id := outbox[id].(status := Published, claimedBy := None, claimedAt := None)];
        return true;
      }
      return false;
    }

    method MarkBlocked(id: nat, w: WorkerId) returns (changed: bool)
      modifies this`outbox
      ensures (Db(), changed) == T.MarkBlocked(old(Db()), id, w)
      ensures changed <==>
        id in old(outbox) && old(outbox)[id].status == Claimed && old(outbox)[id].claimedBy == Some(w)
      ensures outbox ==
        if changed then old(outbox)[id := old(outbox)[id].(status := Blocked, claimedBy := None, claimedAt := None)]
        else old(outbox)
    {
      if id in outbox && outbox[id].status == Claimed && outbox[id].claimedBy == Some(w) {
        outbox := outbox[id := outbox[id].(status := Blocked, claimedBy := None, claimedAt := None)];
        return true;
      }
      return false;
    }

    /** Under the own claim the row can be claimed again, until its retries reach the limit. */
    method ReleaseClaim(id: nat, w: WorkerId) returns (changed: bool)
      modifies this`outbox
      ensures (Db(), changed) == T.ReleaseClaim(limits, old(Db()), id, w)
      ensures changed <==>
        id in old(outbox) && old(outbox)[id].status == Claimed && old(outbox)[id].claimedBy == Some(w)
      ensures outbox ==
        if !changed then old(outbox)
        else
          var r := old(outbox)[id];
          old(outbox)[id := r.(
            status := if r.retries + 1 < limits.outboxRetries then Pending else Blocked,
            retries := r.retries + 1, claimedBy := None, claimedAt := None)]
    {
      if id in outbox && outbox[id].status == Claimed && outbox[id].claimedBy == Some(w) {
        var r := outbox[id];
        var next := if r.retries + 1 >= limits.outboxRetries then Blocked else Pending;
        outbox := outbox[id := r.(status := next, retries := r.retries + 1, claimedBy := None, claimedAt := None)];
        return true;
      }
      return false;
    }

    /** Exactly the rows whose claim is older than the cutoff are given back, each counting a retry;
        every other row stays as it is. */
    method RecoverStaleOutbox(cutoff: Time)
      modifies this`outbox
      ensures Db() == T.RecoverStaleOutbox(limits, old(Db()), cutoff)
      ensures outbox.Keys == old(outbox).Keys
      ensures forall id :: id in outbox ==>
        var r := old(outbox)[id];
        outbox[id] ==
          if r.status == Claimed && r.claimedAt.Some? && r.claimedAt.value < cutoff then r.(
            status := if r.retries + 1 < limits.outboxRetries then Pending else Blocked,
            retries := r.retries + 1, claimedBy := None, claimedAt := None)
          else r
    {
      var todo := outbox.Keys;
      while todo != {}
        invariant todo <= outbox.Keys == old(outbox).Keys
        invariant forall id :: id in outbox && id in todo ==> outbox[id] == old(outbox)[id]
        invariant forall id :: id in outbox && id !in todo ==>
          outbox[id] == (if T.StaleRow(old(outbox)[id], cutoff) then T.Requeued(limits, old(outbox)[id])
            else old(outbox)[id])
        decreases todo
      {
        var id :| id in todo;
        todo := todo - {id};
        var r := outbox[id];
        if r.status == Claimed && r.claimedAt.Some? && r.claimedAt.value < cutoff {
          var next := if r.retries + 1 >= limits.outboxRetries then Blocked else Pending;
          outbox := outbox[id := r.(status := next, retries := r.retries + 1, claimedBy := None, claimedAt := None)];
        }
      }
      assert outbox == T.RecoverStaleOutbox(limits, old(Db()), cutoff).outbox;
    }

    /** GetDocumentByHash and GetIntent only read. */
    method GetDocumentByHash(h: Hash) returns (d: Option<Document>)
      ensures d.Some? <==> h in documents
      ensures d.Some? ==> d.value == documents[h]
    {
      d := if h in documents then Some(documents[h]) else None;
    }
  }
}
