/**
 The duplicate filter for Lark events (lark.service.ts): a map from event id to the
 time it last occurred, pruned on every call that carries an id.
 */
module LarkDedupe {
  import opened Common

  const EVENT_ID_TTL_MS: int := 300000

  datatype Call = Call(eventId: Option<string>, now: int)

  type Seen = map<string, int>

  /** The call carries an event id; an absent or empty one is ignored. */
  predicate Counts(c: Call) {
    c.eventId.Some? && c.eventId.value != ""
  }

  predicate Expired(timestamp: int, now: int) {
    now - timestamp > EVENT_ID_TTL_MS
  }

  function Pruned(seen: Seen, now: int): Seen {
    map id | id in seen && !Expired(seen[id], now) :: seen[id]
  }

  function After(seen: Seen, c: Call): Seen {
    if Counts(c) then Pruned(seen, c.now)[c.eventId.value := c.now] else seen
  }

  function Run(calls: seq<Call>): Seen {
    if calls == [] then map[] else After(Run(calls[..|calls| - 1]), calls[|calls| - 1])
  }

  /** What `isDuplicateEvent` answers. */
  predicate Answer(seen: Seen, c: Call) {
    Counts(c) && c.eventId.value in Pruned(seen, c.now)
  }

  class LarkService {
    var processedEventIds: Seen
    /** Every call so far. */
    ghost var calls: seq<Call>

    ghost predicate Valid()
      reads this
    {
      processedEventIds == Run(calls)
    }

    constructor ()
      ensures Valid() && calls == []
    {
      processedEventIds, calls := map[], [];
    }

    method IsDuplicateEvent(eventId: Option<string>, now: int) returns (duplicate: bool)
      requires Valid()
      modifies this
      ensures Valid() && calls == old(calls) + [Call(eventId, now)]
      ensures duplicate == Answer(Run(old(calls)), Call(eventId, now))
    {
      assert (calls + [Call(eventId, now)])[..|calls|] == calls;
      calls := calls + [Call(eventId, now)];
      if eventId.None? || eventId.value == "" {
        return false;
      }
      CleanupExpiredEventIds(now);
      duplicate := eventId.value in processedEventIds;
      processedEventIds := processedEventIds[eventId.value := now];
    }

    method CleanupExpiredEventIds(now: int)
      modifies this`processedEventIds
      ensures processedEventIds == Pruned(old(processedEventIds), now)
    {
      var ids := processedEventIds.Keys;
      while ids != {}
        invariant ids <= old(processedEventIds).Keys
        invariant forall id :: id in ids ==> id in processedEventIds
        invariant forall id :: id in processedEventIds ==>
                    id in old(processedEventIds) && processedEventIds[id] == old(processedEventIds)[id]
        invariant forall id :: id in old(processedEventIds) && id !in ids ==>
                    (id in processedEventIds <==> !Expired(old(processedEventIds)[id], now))
        decreases |ids|
      {
        var id :| id in ids;
        if Expired(processedEventIds[id], now) {
          processedEventIds := processedEventIds - {id};
        }
        ids := ids - {id};
      }
    }
  }

  // ---- The history ----

  /** The `i`-th call is the last one with this id. */
  ghost predicate LastOccurs(calls: seq<Call>, id: string, i: int) {
    && 0 <= i < |calls| && id != "" && calls[i].eventId == Some(id)
    && forall j :: i < j < |calls| ==> calls[j].eventId != Some(id)
  }

  /** The call has an event id that is not empty. */
  ghost predicate Carries(c: Call) {
    c.eventId != None && c.eventId != Some("")
  }

  /** No later call with an id is more than five minutes after the `i`-th one. */
  ghost predicate StaysFresh(calls: seq<Call>, i: int) {
    0 <= i < |calls| && forall j :: i < j < |calls| && Carries(calls[j]) ==> calls[j].now - calls[i].now <= 300000
  }

  lemma LastOccursAppend(calls: seq<Call>, c: Call, id: string, i: int)
    requires 0 <= i < |calls|
    ensures LastOccurs(calls + [c], id, i) <==> LastOccurs(calls, id, i) && c.eventId != Some(id)
    ensures StaysFresh(calls + [c], i) <==> StaysFresh(calls, i) && (Carries(c) ==> c.now - calls[i].now <= 300000)
  {
    var more := calls + [c];
    assert more[|calls|] == c && forall j :: 0 <= j < |calls| ==> more[j] == calls[j];
  }

  ghost predicate Remembers(calls: seq<Call>, id: string, timestamp: int) {
    exists i :: LastOccurs(calls, id, i) && StaysFresh(calls, i) && calls[i].now == timestamp
  }

  /**
   Whatever the clock does: an id is in the map, with the time of its last occurrence,
   exactly as long as no call since was more than the window later.
   */
  lemma {:induction false} MapIsTheRememberedIds(calls: seq<Call>, id: string, timestamp: int)
    ensures id in Run(calls) && Run(calls)[id] == timestamp <==> Remembers(calls, id, timestamp)
  {
    if calls != [] {
      var n := |calls| - 1;
      var before, c := calls[..n], calls[n];
      assert before + [c] == calls;
      MapIsTheRememberedIds(before, id, timestamp);
      if Counts(c) && c.eventId.value == id {
        assert LastOccurs(calls, id, n) && StaysFresh(calls, n);
      }
      if Remembers(before, id, timestamp) {
        var i :| LastOccurs(before, id, i) && StaysFresh(before, i) && before[i].now == timestamp;
        LastOccursAppend(before, c, id, i);
      }
      if Remembers(calls, id, timestamp) {
        var i :| LastOccurs(calls, id, i) && StaysFresh(calls, i) && calls[i].now == timestamp;
        if i < n {
          LastOccursAppend(before, c, id, i);
        }
      }
    }
  }

  ghost predicate Monotone(calls: seq<Call>) {
    forall i, j :: 0 <= i <= j < |calls| ==> calls[i].now <= calls[j].now
  }

  /** The id last occurred no more than five minutes before `now`. */
  ghost predicate SeenWithin(calls: seq<Call>, id: string, now: int) {
    exists i :: LastOccurs(calls, id, i) && now - calls[i].now <= 300000
  }

  /** On a monotone clock a call is a duplicate exactly when its id last occurred within the window. */
  lemma DuplicateIffSeenWithin(calls: seq<Call>, c: Call)
    requires Monotone(calls + [c])
    ensures Answer(Run(calls), c) <==> Carries(c) && SeenWithin(calls, c.eventId.value, c.now)
  {
    if Counts(c) {
      var id, seen := c.eventId.value, Run(calls);
      if id in seen {
        MapIsTheRememberedIds(calls, id, seen[id]);
      }
      if SeenWithin(calls, id, c.now) {
        var i :| LastOccurs(calls, id, i) && c.now - calls[i].now <= 300000;
        forall j | i < j < |calls| ensures calls[j].now - calls[i].now <= 300000 {
          assert (calls + [c])[j] == calls[j] && (calls + [c])[|calls|] == c;
        }
        assert Remembers(calls, id, calls[i].now);
        MapIsTheRememberedIds(calls, id, calls[i].now);
      }
      if id in seen && !Expired(seen[id], c.now) {
        var i :| LastOccurs(calls, id, i) && StaysFresh(calls, i) && calls[i].now == seen[id];
      }
      forall i, k | LastOccurs(calls, id, i) && LastOccurs(calls, id, k) ensures i == k {
      }
    }
  }

  /** The latest call that carries an id. */
  ghost predicate LastCounted(calls: seq<Call>, k: int) {
    0 <= k < |calls| && Carries(calls[k]) && forall j :: k < j < |calls| ==> !Carries(calls[j])
  }

  /** On a monotone clock the map holds exactly the ids last seen within the window of the latest call with an id. */
  lemma MapHoldsTheWindow(calls: seq<Call>, id: string, k: int)
    requires Monotone(calls) && LastCounted(calls, k)
    ensures id in Run(calls) <==> SeenWithin(calls, id, calls[k].now)
  {
    if id in Run(calls) {
      MapIsTheRememberedIds(calls, id, Run(calls)[id]);
      var i :| LastOccurs(calls, id, i) && StaysFresh(calls, i) && calls[i].now == Run(calls)[id];
      assert i == k || !Expired(calls[i].now, calls[k].now);
    }
    if SeenWithin(calls, id, calls[k].now) {
      var i :| LastOccurs(calls, id, i) && calls[k].now - calls[i].now <= 300000;
      forall j | i < j < |calls| && Carries(calls[j]) ensures calls[j].now - calls[i].now <= 300000 {
        assert j <= k;
      }
      assert Remembers(calls, id, calls[i].now);
      MapIsTheRememberedIds(calls, id, calls[i].now);
    }
  }
}
