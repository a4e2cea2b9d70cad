/** Idempotency of Lark events: the processed_events table and the purge of the expiry loop. */
module LarkEvents {
  import opened Options
  import opened TimeWindow

  /** 24 hours, in seconds. */
  const DAY: nat := 86400

  class EventTable {
    var processedAt: map<string, int>

    constructor ()
      ensures processedAt == map[]
    {
      processedAt := map[];
    }

    /** INSERT OR IGNORE; firstTime says whether a row went in. */
    method MarkEventProcessed(eventId: string, now: int) returns (firstTime: bool)
      modifies this
      ensures firstTime <==> Takes(DAY, old(processedAt), eventId, None)
      ensures firstTime <==> eventId !in old(processedAt)
      ensures processedAt == if firstTime then old(processedAt)[eventId := now] else old(processedAt)
      ensures processedAt == Next(DAY, old(processedAt), Offer(eventId, None, now))
    {
      firstTime := eventId !in processedAt;
      if firstTime {
        processedAt := processedAt[eventId := now];
      }
    }

    method PurgeOldEvents(olderThan: int) returns (purged: nat)
      modifies this
      ensures processedAt == Swept(old(processedAt), olderThan)
      ensures forall id :: id in processedAt <==> id in old(processedAt) && old(processedAt)[id] >= olderThan
      ensures forall id :: id in processedAt ==> processedAt[id] == old(processedAt)[id]
      ensures purged == |old(processedAt)| - |processedAt|
    {
      var kept := map id | id in processedAt && !(processedAt[id] < olderThan) :: processedAt[id];
      assert kept.Keys <= processedAt.Keys;
      SubsetSize(kept.Keys, processedAt.Keys);
      assert |kept| == |kept.Keys| && |processedAt| == |processedAt.Keys|;
      purged := |processedAt| - |kept|;
      processedAt := kept;
    }

    /** The pipeline's housekeeping tick. */
    method HousekeepingTick(now: int) returns (purged: nat)
      modifies this
      ensures processedAt == Next(DAY, old(processedAt), Sweep(now))
      ensures forall id :: id in processedAt <==> id in old(processedAt) && old(processedAt)[id] >= now - 24 * 60 * 60
    {
      purged := PurgeOldEvents(now - DAY);
    }
  }

  lemma SubsetSize(a: set<string>, b: set<string>)
    requires a <= b
    ensures |a| <= |b|
  {
    assert b == a + (b - a);
  }

  /** Two deliveries of one event that both pass as first-time are more than 24 hours apart. */
  lemma ClaimsMoreThanADayApart(seen: Seen, events: seq<Event>, i: nat, j: nat, eventId: string)
    requires Monotone(events) && i < j
    requires forall k :: 0 <= k < |events| && events[k].Offer? ==> events[k].reference.None?
    requires TakenAt(DAY, seen, events, i, eventId) && TakenAt(DAY, seen, events, j, eventId)
    ensures events[j].now - events[i].now > 24 * 60 * 60
  {
    TakingsApart(DAY, seen, events, i, j, eventId);
  }
}
