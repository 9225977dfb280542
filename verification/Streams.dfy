/** The Redis side as a value: one stream with one consumer group, and the
    dead-letter stream. Stream ids are positions, so a larger id is a newer entry. */
module Streams {
  import opened Domain

  /** Why an entry was added. Redis does not store this; it is kept here so that the
      lineage of a message can be stated. */
  datatype Origin = FromSubmitter | FromRetry(parent: EntryId) | FromRecovery(parent: EntryId)

  datatype Message = Message(job: JobId, attempt: nat, origin: Origin)
  datatype Lease = Lease(consumer: ActorId, since: int)
  datatype DeadLetter = DeadLetter(job: JobId, attempt: nat, attemptCount: nat)

  /** Ids below the cursor have been delivered through ">". A delivered entry is
      pending until it is acknowledged. */
  datatype Queue = Queue(
    entries: seq<Message>, cursor: nat, pending: map<EntryId, Lease>, dlq: seq<DeadLetter>)

  const EMPTY_QUEUE := Queue([], 0, map[], [])

  datatype QueueOp =
    | NoOp
    | PublishOp(m: Message)
    | LeaseOp(consumer: ActorId, now: int)
    | AckOp(e: EntryId)
    | RenewOp(e: EntryId, consumer: ActorId, now: int)
    | DeadLetterOp(letter: DeadLetter)

  function ApplyQ(q: Queue, op: QueueOp): Queue {
    match op
    case NoOp => q
    case PublishOp(m) => q.(entries := q.entries + [m])
    case LeaseOp(c, now) =>
      if q.cursor < |q.entries| then
        q.(cursor := q.cursor + 1, pending := q.pending[q.cursor := Lease(c, now)])
      else q
    case AckOp(e) => q.(pending := q.pending - {e})
    case RenewOp(e, c, now) =>
      // XCLAIM without FORCE ignores an id that is not pending
      if e in q.pending then q.(pending := q.pending[e := Lease(c, now)]) else q
    case DeadLetterOp(d) => q.(dlq := q.dlq + [d])
  }

  ghost predicate QueueInv(q: Queue) {
    q.cursor <= |q.entries| && forall e :: e in q.pending ==> e < q.cursor
  }

  predicate Acked(q: Queue, e: EntryId) {
    e < q.cursor && e !in q.pending
  }

  predicate Unacked(q: Queue, e: EntryId) {
    e < |q.entries| && !Acked(q, e)
  }

  predicate Stale(q: Queue, e: EntryId, now: int, staleAfter: int) {
    e in q.pending && now - q.pending[e].since >= staleAfter
  }

  /** XPENDING - + count with IDLE, read in id order from id `from` on. */
  function StaleFrom(q: Queue, from: nat, now: int, staleAfter: int, count: nat): (ids: seq<EntryId>)
    ensures |ids| <= count
    ensures forall k :: 0 <= k < |ids| ==> from <= ids[k] < q.cursor && Stale(q, ids[k], now, staleAfter)
    decreases q.cursor - from
  {
    if from >= q.cursor || count == 0 then []
    else if Stale(q, from, now, staleAfter) then [from] + StaleFrom(q, from + 1, now, staleAfter, count - 1)
    else StaleFrom(q, from + 1, now, staleAfter, count)
  }

  /** The list is ascending, and complete when it is shorter than the count. */
  lemma {:induction false} StaleFromIsScan(q: Queue, from: nat, now: int, staleAfter: int, count: nat)
    ensures var ids := StaleFrom(q, from, now, staleAfter, count);
            && (forall k, l :: 0 <= k < l < |ids| ==> ids[k] < ids[l])
            && (|ids| < count ==> forall e :: from <= e < q.cursor && Stale(q, e, now, staleAfter) ==> e in ids)
    decreases q.cursor - from
  {
    if from < q.cursor && count > 0 {
      StaleFromIsScan(q, from + 1, now, staleAfter, if Stale(q, from, now, staleAfter) then count - 1 else count);
    }
  }

  /** How many ids from one on and below another are stale. */
  ghost function StaleCount(q: Queue, from: nat, to: nat, now: int, staleAfter: int): nat
    decreases if from < to then to - from else 0
  {
    if from >= to then 0
    else (if Stale(q, from, now, staleAfter) then 1 else 0) + StaleCount(q, from + 1, to, now, staleAfter)
  }

  /** A scan finds a stale entry exactly if fewer than count stale ones come before it. */
  lemma {:induction false} StaleFromFinds(q: Queue, from: nat, now: int, staleAfter: int, count: nat, e: EntryId)
    requires QueueInv(q)
    ensures e in StaleFrom(q, from, now, staleAfter, count)
       <==> from <= e && Stale(q, e, now, staleAfter) && StaleCount(q, from, e, now, staleAfter) < count
    decreases q.cursor - from
  {
    if from < q.cursor && count > 0 {
      var stale := Stale(q, from, now, staleAfter);
      StaleFromFinds(q, from + 1, now, staleAfter, if stale then count - 1 else count, e);
    }
  }

  lemma {:induction false} StaleCountFits(q: Queue, from: nat, to: nat, now: int, staleAfter: int, ids: set<EntryId>)
    requires forall e: EntryId :: from <= e < to && Stale(q, e, now, staleAfter) ==> e in ids
    ensures StaleCount(q, from, to, now, staleAfter) <= |ids|
    decreases if from < to then to - from else 0
  {
    if from < to {
      StaleCountFits(q, from + 1, to, now, staleAfter, ids - {from});
    }
  }

  /** A count of at least the number of pending entries has room for each of them. */
  lemma RoomForAll(q: Queue, e: EntryId, now: int, staleAfter: int, count: nat)
    requires e in q.pending && count >= |q.pending|
    ensures StaleCount(q, 0, e, now, staleAfter) < count
  {
    StaleCountFits(q, 0, e, now, staleAfter, q.pending.Keys - {e});
    assert |q.pending| == |q.pending.Keys|;
  }

  lemma StaleFromUnfolds(q: Queue, done: seq<EntryId>, from: nat, now: int, staleAfter: int, count: nat)
    requires from < q.cursor && count > 0
    ensures done + StaleFrom(q, from, now, staleAfter, count)
         == if Stale(q, from, now, staleAfter) then (done + [from]) + StaleFrom(q, from + 1, now, staleAfter, count - 1)
            else done + StaleFrom(q, from + 1, now, staleAfter, count)
  {
  }

  lemma StaleFromEnds(q: Queue, done: seq<EntryId>, from: nat, now: int, staleAfter: int, count: nat)
    requires from >= q.cursor || count == 0
    ensures done + StaleFrom(q, from, now, staleAfter, count) == done
  {
  }

  lemma ApplyKeepsQueueInv(q: Queue, op: QueueOp)
    requires QueueInv(q)
    ensures QueueInv(ApplyQ(q, op))
    ensures q.entries <= ApplyQ(q, op).entries && q.cursor <= ApplyQ(q, op).cursor
    ensures q.dlq <= ApplyQ(q, op).dlq
  {
  }

  /** Once acknowledged, an entry is never pending again, whatever runs next. */
  lemma AckIsForever(q: Queue, op: QueueOp, e: EntryId)
    requires QueueInv(q) && Acked(q, e)
    ensures Acked(ApplyQ(q, op), e)
  {
  }
}
