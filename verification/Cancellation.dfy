/** Cooperative cancellation: the registry of events and the polling sleep of the stub runner. */
module Cancellation {
  class CancellationRegistry {
    /** Events by job id; true once set. */
    var events: map<string, bool>

    /** Requested, for a job with or without an event. */
    ghost predicate Requested(id: string)
      reads this
    {
      id in events && events[id]
    }

    constructor ()
      ensures events == map[]
    {
      events := map[];
    }

    /** setdefault: the event of the job, created unset. */
    method EventFor(id: string) returns (isSet: bool)
      modifies this
      ensures isSet == Requested(id) && id in events
      ensures forall j :: Requested(j) == old(Requested(j))
      ensures events.Keys == old(events.Keys) + {id}
    {
      if id !in events {
        events := events[id := false];
      }
      isSet := events[id];
    }

    method RequestCancel(id: string)
      modifies this
      ensures forall j :: Requested(j) <==> j == id || old(Requested(j))
    {
      var _ := EventFor(id);
      events := events[id := true];
    }

    method IsCancelled(id: string) returns (cancelled: bool)
      modifies this
      ensures cancelled == old(Requested(id))
      ensures forall j :: Requested(j) == old(Requested(j))
    {
      cancelled := EventFor(id);
    }
  }

  /** Milliseconds between two looks at the event. */
  const POLL: nat := 50

  /** An event stays set. */
  ghost predicate Sticky(isSet: nat -> bool) {
    forall t: nat, u: nat :: t <= u && isSet(t) ==> isSet(u)
  }

  /** The time of the last poll before the deadline. */
  function LastPoll(duration: nat): nat
    requires duration > 0
  {
    (duration - 1) / POLL * POLL
  }

  /** _sleep with an exact clock: it looks at the event at every poll before the deadline and
      raises JobCancelledError as soon as it is set. With an event that stays set this comes
      down to the last poll. */
  method Sleep(duration: nat, isSet: nat -> bool) returns (cancelled: bool, at: nat)
    requires Sticky(isSet)
    ensures cancelled <==> duration > 0 && isSet(LastPoll(duration))
    ensures cancelled ==> at < duration && at % POLL == 0 && isSet(at)
    ensures cancelled && at >= POLL ==> !isSet(at - POLL)
    ensures !cancelled ==> at == duration
  {
    at := 0;
    while at < duration
      invariant at <= duration && (at < duration ==> at % POLL == 0)
      invariant at > 0 ==> !isSet(if at < duration then at - POLL else LastPoll(duration))
      invariant 0 < at < duration ==> at >= POLL
    {
      if isSet(at) {
        PollsReachLast(duration, at);
        return true, at;
      }
      if at + POLL >= duration {
        FinalPoll(duration, at);
      }
      at := at + if POLL < duration - at then POLL else duration - at;
    }
    return false, at;
  }

  lemma PollsReachLast(duration: nat, at: nat)
    requires at < duration && at % POLL == 0
    ensures at <= LastPoll(duration)
  {
  }

  lemma FinalPoll(duration: nat, at: nat)
    requires at < duration <= at + POLL && at % POLL == 0
    ensures at == LastPoll(duration)
  {
  }
}
