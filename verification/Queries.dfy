/** What the two candidate queries select: the oldest rows in one status, up to a limit. */
module Queries {
  import opened Domain
  import opened Counting

  /** Creation times of the rows waiting to be relayed. */
  function PendingTimes(outbox: map<nat, OutboxRow>): map<nat, Time> {
    map id | id in outbox && outbox[id].status == Pending :: outbox[id].createdAt
  }

  /** Creation times of the intents waiting to be hashed. */
  function UploadedTimes(intents: map<IntentId, Intent>): map<IntentId, Time> {
    map id | id in intents && intents[id].status == Uploaded :: intents[id].createdAt
  }

  /** As many as there are up to the limit, each once, oldest first; none left out is older than one
      that was taken. Ties are in any order. */
  ghost predicate Oldest(times: map<nat, Time>, limit: nat, ids: seq<nat>) {
    && |ids| == (if limit <= |times| then limit else |times|)
    && NoDuplicates(ids) && (forall i :: 0 <= i < |ids| ==> ids[i] in times)
    && (forall i, j :: 0 <= i < j < |ids| ==> times[ids[i]] <= times[ids[j]])
    && (forall i, k :: 0 <= i < |ids| && k in times && k !in ids ==> times[ids[i]] <= times[k])
  }

  method Earliest(times: map<nat, Time>, among: set<nat>) returns (first: nat)
    requires among != {} && among <= times.Keys
    ensures first in among && forall k :: k in among ==> times[first] <= times[k]
  {
    first :| first in among;
    var left := among - {first};
    while left != {}
      invariant left <= among && first in among
      invariant forall k :: k in among - left ==> times[first] <= times[k]
      decreases left
    {
      var k :| k in left;
      if times[k] < times[first] { first := k; }
      left := left - {k};
    }
  }

  /** SELECT ... ORDER BY created_at ASC LIMIT. */
  method OldestFirst(times: map<nat, Time>, limit: nat) returns (ids: seq<nat>)
    ensures Oldest(times, limit, ids)
  {
    ids := [];
    var left := times.Keys;
    while |ids| < limit && left != {}
      invariant |ids| <= limit && |ids| + |left| == |times| && left <= times.Keys
      invariant forall k :: k in times ==> (k in left <==> k !in ids)
      invariant NoDuplicates(ids) && forall i :: 0 <= i < |ids| ==> ids[i] in times
      invariant forall i, j :: 0 <= i < j < |ids| ==> times[ids[i]] <= times[ids[j]]
      invariant forall i, k :: 0 <= i < |ids| && k in left ==> times[ids[i]] <= times[k]
      decreases left
    {
      var next := Earliest(times, left);
      ids := ids + [next];
      left := left - {next};
    }
  }
}
