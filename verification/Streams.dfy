/** A Redis stream's consumer group. The stream itself is an append-only sequence and an entry's
    id is its index, so the group only keeps the last-delivered position and the pending list. */
module Streams {
  import opened Domain

  datatype PendingEntry = PendingEntry(owner: WorkerId, deliveries: nat, deliveredAt: Time)

  /** `lifetime` numbers the group's re-creations; a lost group has nothing delivered. */
  datatype Group = Group(alive: bool, lifetime: nat, delivered: nat, pending: map<nat, PendingEntry>) {

    /** Entries that the group has delivered and that were acknowledged since. */
    predicate Acked(e: nat) { e < delivered && e !in pending }

    predicate WellFormed(length: nat) {
      && delivered <= length
      && (forall e :: e in pending ==> e < delivered)
      && (!alive ==> delivered == 0)
    }

    predicate Stale(e: nat, minIdle: nat, now: Time) {
      e in pending && now - pending[e].deliveredAt >= minIdle
    }

    predicate InBatch(e: nat, n: nat) { delivered <= e < delivered + n }

    /** XREADGROUP with ">": the next n entries, all pending under w with one delivery. */
    function Read(n: nat, w: WorkerId, now: Time): Group {
      this.(delivered := delivered + n,
            pending := pending + map e | delivered <= e < delivered + n && InBatch(e, n) :: PendingEntry(w, 1, now))
    }

    /** XAUTOCLAIM or XCLAIM without JUSTID: ownership moves and a delivery is counted. */
    function Claim(es: seq<nat>, w: WorkerId, now: Time): Group {
      this.(pending := map e | e in pending ::
        if e in es then PendingEntry(w, pending[e].deliveries + 1, now) else pending[e])
    }

    /** XCLAIM with JUSTID: ownership and idle time move, the delivery count does not. */
    function Renew(e: nat, w: WorkerId, now: Time): Group {
      if e in pending then this.(pending := pending[e := PendingEntry(w, pending[e].deliveries, now)]) else this
    }

    function Ack(e: nat): Group { this.(pending := pending - {e}) }

    /** XGROUP DELCONSUMER drops the consumer's pending entries. */
    function DeleteConsumer(w: WorkerId): Group {
      this.(pending := map e | e in pending && pending[e].owner != w :: pending[e])
    }

    /** Redis restarted without the group. */
    function Lose(): Group { Group(false, lifetime + 1, 0, map[]) }

    /** XGROUP CREATE at ID 0; an existing group is fine. */
    function Create(): Group { this.(alive := true) }
  }

  function NoGroup(): Group { Group(false, 0, 0, map[]) }
}
