/**
 The bounded cache of SDK clients (aws-secrets-manager.service.ts). The entries are in
 insertion order, as a JavaScript Map iterates; a client is numbered by its creation.
 */
module ClientCache {
  import opened Common

  const CLIENT_CACHE_TTL_MS: nat := 300000
  const CLIENT_CACHE_MAX_ENTRIES: nat := 100

  datatype Entry = Entry(key: string, client: nat, expiresAt: nat)

  /** `created` logs every client ever made; `destroyed` every client disposed of. */
  datatype State = State(entries: seq<Entry>, created: seq<Entry>, destroyed: seq<nat>)

  const EMPTY: State := State([], [], [])

  function Find(entries: seq<Entry>, key: string): Option<Entry> {
    if entries == [] then None else if entries[0].key == key then Some(entries[0]) else Find(entries[1..], key)
  }

  function Without(entries: seq<Entry>, key: string): seq<Entry> {
    if entries == [] then []
    else (if entries[0].key == key then [] else [entries[0]]) + Without(entries[1..], key)
  }

  predicate Fresh(found: Option<Entry>, now: nat) {
    found.Some? && found.value.expiresAt > now
  }

  /** The state after dropping the stale entry of a key, if there is one. */
  function Expire(s: State, key: string): State {
    var found := Find(s.entries, key);
    if found.None? then s else s.(entries := Without(s.entries, key), destroyed := s.destroyed + [found.value.client])
  }

  /** The state after making room for one more entry. */
  function Evict(s: State): State {
    if |s.entries| < CLIENT_CACHE_MAX_ENTRIES then s
    else s.(entries := s.entries[1..], destroyed := s.destroyed + [s.entries[0].client])
  }

  function Create(s: State, key: string, now: nat): State {
    var entry := Entry(key, |s.created|, now + CLIENT_CACHE_TTL_MS);
    s.(entries := s.entries + [entry], created := s.created + [entry])
  }

  /** The state after `getProjectContext`. */
  function Get(s: State, key: string, now: nat): State {
    if Fresh(Find(s.entries, key), now) then s else Create(Evict(Expire(s, key)), key, now)
  }

  datatype Call = Call(key: string, now: nat)

  function Run(calls: seq<Call>): State {
    if calls == [] then EMPTY
    else Get(Run(calls[..|calls| - 1]), calls[|calls| - 1].key, calls[|calls| - 1].now)
  }

  ghost predicate Monotone(calls: seq<Call>) {
    forall i, j :: 0 <= i <= j < |calls| ==> calls[i].now <= calls[j].now
  }

  // ---- What the cache holds ----

  /** The creations that no later creation of the same key supersedes, oldest first. */
  function Latest(created: seq<Entry>): seq<Entry> {
    if created == [] then []
    else Without(Latest(created[..|created| - 1]), created[|created| - 1].key) + [created[|created| - 1]]
  }

  function LastN(entries: seq<Entry>, n: nat): seq<Entry> {
    if |entries| <= n then entries else entries[|entries| - n..]
  }

  function Clients(entries: seq<Entry>): (clients: seq<nat>)
    ensures |clients| == |entries| && forall i :: 0 <= i < |entries| ==> clients[i] == entries[i].client
  {
    seq(|entries|, i requires 0 <= i < |entries| => entries[i].client)
  }

  ghost predicate DistinctKeys(entries: seq<Entry>) {
    forall i, j :: 0 <= i < j < |entries| ==> entries[i].key != entries[j].key
  }

  /** Insertion order is expiry order. */
  ghost predicate ByExpiry(entries: seq<Entry>) {
    forall i, j :: 0 <= i < j < |entries| ==> entries[i].expiresAt <= entries[j].expiresAt
  }

  ghost predicate Inv(s: State) {
    && |s.entries| <= CLIENT_CACHE_MAX_ENTRIES
    && DistinctKeys(s.entries)
    && multiset(Clients(s.entries)) + multiset(s.destroyed) == multiset(Clients(s.created))
    && (forall i :: 0 <= i < |s.created| ==> s.created[i].client == i)
  }

  // ---- Removing one key ----

  lemma {:induction false} WithoutConcat(a: seq<Entry>, b: seq<Entry>, key: string)
    ensures Without(a + b, key) == Without(a, key) + Without(b, key)
  {
    if a == [] {
      assert a + b == b;
    } else {
      assert (a + b)[1..] == a[1..] + b;
      WithoutConcat(a[1..], b, key);
    }
  }

  lemma {:induction false} WithoutAbsent(entries: seq<Entry>, key: string)
    ensures Find(entries, key).None? <==> forall e :: e in entries ==> e.key != key
    ensures Find(entries, key).None? ==> Without(entries, key) == entries
  {
    if entries != [] {
      WithoutAbsent(entries[1..], key);
      assert entries == [entries[0]] + entries[1..];
    }
  }

  /** Among distinct keys at most one entry goes. */
  lemma {:induction false} WithoutOne(entries: seq<Entry>, key: string)
    requires DistinctKeys(entries) && Find(entries, key).Some?
    ensures var i := Position(entries, key);
            i < |entries| && entries[i] == Find(entries, key).value && entries[i].key == key
            && Without(entries, key) == entries[..i] + entries[i + 1..]
  {
    if entries[0].key == key {
      assert forall e :: e in entries[1..] ==> e.key != key;
      WithoutAbsent(entries[1..], key);
    } else {
      WithoutOne(entries[1..], key);
      var i := Position(entries[1..], key);
      assert entries[..i + 1] == [entries[0]] + entries[1..][..i];
    }
  }

  function Position(entries: seq<Entry>, key: string): nat {
    if entries == [] || entries[0].key == key then 0 else 1 + Position(entries[1..], key)
  }

  function DropAt(entries: seq<Entry>, i: nat): seq<Entry>
    requires i < |entries|
  {
    entries[..i] + entries[i + 1..]
  }

  lemma DropKeepsDistinct(entries: seq<Entry>, i: nat)
    requires DistinctKeys(entries) && i < |entries|
    ensures DistinctKeys(DropAt(entries, i)) && forall e :: e in DropAt(entries, i) ==> e in entries && e.key != entries[i].key
  {
  }

  lemma DropKeepsOrder(entries: seq<Entry>, i: nat)
    requires ByExpiry(entries) && i < |entries|
    ensures ByExpiry(DropAt(entries, i))
  {
  }

  lemma ClientsWithout(entries: seq<Entry>, i: nat)
    requires i < |entries|
    ensures multiset(Clients(entries)) == multiset(Clients(DropAt(entries, i))) + multiset{entries[i].client}
  {
    var c := Clients(entries);
    assert c == c[..i] + [c[i]] + c[i + 1..];
    assert Clients(DropAt(entries, i)) == c[..i] + c[i + 1..];
  }

  // ---- The invariant over any calls ----

  lemma ExpireKeepsInv(s: State, key: string)
    requires Inv(s)
    ensures Inv(Expire(s, key)) && Find(Expire(s, key).entries, key).None?
  {
    if Find(s.entries, key).Some? {
      var i := Position(s.entries, key);
      WithoutOne(s.entries, key);
      DropKeepsDistinct(s.entries, i);
      ClientsWithout(s.entries, i);
      WithoutAbsent(DropAt(s.entries, i), key);
    }
  }

  lemma EvictKeepsInv(s: State)
    requires Inv(s)
    ensures Inv(Evict(s)) && |Evict(s).entries| < CLIENT_CACHE_MAX_ENTRIES
  {
    if |s.entries| == CLIENT_CACHE_MAX_ENTRIES {
      ClientsWithout(s.entries, 0);
      assert DropAt(s.entries, 0) == s.entries[1..];
    }
  }

  lemma CreateKeepsInv(s: State, key: string, now: nat)
    requires Inv(s) && |s.entries| < CLIENT_CACHE_MAX_ENTRIES && forall e :: e in s.entries ==> e.key != key
    ensures Inv(Create(s, key, now))
  {
    var s' := Create(s, key, now);
    assert Clients(s'.entries) == Clients(s.entries) + [|s.created|];
    assert Clients(s'.created) == Clients(s.created) + [|s.created|];
  }

  lemma GetKeepsInv(s: State, key: string, now: nat)
    requires Inv(s)
    ensures Inv(Get(s, key, now))
  {
    if !Fresh(Find(s.entries, key), now) {
      ExpireKeepsInv(s, key);
      var s1 := Expire(s, key);
      WithoutAbsent(s1.entries, key);
      EvictKeepsInv(s1);
      CreateKeepsInv(Evict(s1), key, now);
    }
  }

  /**
   After any calls, whatever the clock does: at most a hundred entries, at most one per
   key, and every client ever created is either cached or was destroyed exactly once.
   */
  lemma {:induction false} CacheConservesClients(calls: seq<Call>)
    ensures Inv(Run(calls)) && |Run(calls).entries| <= 100
  {
    if calls != [] {
      CacheConservesClients(calls[..|calls| - 1]);
      GetKeepsInv(Run(calls[..|calls| - 1]), calls[|calls| - 1].key, calls[|calls| - 1].now);
    }
  }

  /** Conservation, client by client. */
  lemma CachedOrDestroyedOnce(calls: seq<Call>, client: nat)
    ensures var s := Run(calls);
            multiset(Clients(s.entries))[client] + multiset(s.destroyed)[client] == if client < |s.created| then 1 else 0
  {
    CacheConservesClients(calls);
    CountOnce(Run(calls).created, client);
  }

  lemma {:induction false} CountOnce(created: seq<Entry>, client: nat)
    requires forall i :: 0 <= i < |created| ==> created[i].client == i
    ensures multiset(Clients(created))[client] == if client < |created| then 1 else 0
  {
    if created != [] {
      var n := |created| - 1;
      CountOnce(created[..n], client);
      assert Clients(created) == Clients(created[..n]) + [n];
    }
  }

  // ---- Expiry order ----

  ghost predicate Timely(s: State, now: nat) {
    ByExpiry(s.entries) && forall e :: e in s.entries ==> e.expiresAt <= now + CLIENT_CACHE_TTL_MS
  }

  lemma ExpireKeepsTimely(s: State, key: string, now: nat)
    requires Inv(s) && Timely(s, now)
    ensures Timely(Expire(s, key), now)
  {
    if Find(s.entries, key).Some? {
      WithoutOne(s.entries, key);
      DropKeepsOrder(s.entries, Position(s.entries, key));
      DropKeepsDistinct(s.entries, Position(s.entries, key));
    }
  }

  lemma EvictKeepsTimely(s: State, now: nat)
    requires Timely(s, now)
    ensures Timely(Evict(s), now)
  {
  }

  lemma CreateKeepsTimely(s: State, key: string, now: nat)
    requires Timely(s, now)
    ensures Timely(Create(s, key, now), now)
  {
  }

  lemma GetKeepsOrder(s: State, key: string, before: nat, now: nat)
    requires Inv(s) && Timely(s, before) && before <= now
    ensures Timely(Get(s, key, now), now)
  {
    assert Timely(s, now);
    ExpireKeepsTimely(s, key, now);
    EvictKeepsTimely(Expire(s, key), now);
    CreateKeepsTimely(Evict(Expire(s, key)), key, now);
  }

  /** On a monotone clock insertion order is expiry order, so eviction takes an entry that expires first. */
  lemma {:induction false} InsertionOrderIsExpiryOrder(calls: seq<Call>)
    requires Monotone(calls)
    ensures Timely(Run(calls), if calls == [] then 0 else calls[|calls| - 1].now)
  {
    if calls != [] {
      var n := |calls| - 1;
      InsertionOrderIsExpiryOrder(calls[..n]);
      CacheConservesClients(calls[..n]);
      GetKeepsOrder(Run(calls[..n]), calls[n].key, if n == 0 then 0 else calls[n - 1].now, calls[n].now);
    }
  }

  // ---- What exactly is cached ----

  /** No later creation has the same key. */
  ghost predicate IsLatest(created: seq<Entry>, i: nat) {
    i < |created| && forall j :: i < j < |created| ==> created[j].key != created[i].key
  }

  lemma {:induction false} WithoutMembers(entries: seq<Entry>, key: string, e: Entry)
    ensures e in Without(entries, key) <==> e in entries && e.key != key
  {
    if entries != [] {
      WithoutMembers(entries[1..], key, e);
    }
  }

  lemma WithoutDistinct(entries: seq<Entry>, key: string)
    requires DistinctKeys(entries)
    ensures DistinctKeys(Without(entries, key)) && forall e :: e in Without(entries, key) ==> e in entries && e.key != key
  {
    WithoutAbsent(entries, key);
    if Find(entries, key).Some? {
      WithoutOne(entries, key);
      DropKeepsDistinct(entries, Position(entries, key));
    }
  }

  lemma {:induction false} LatestIsDistinct(created: seq<Entry>)
    ensures DistinctKeys(Latest(created))
  {
    if created != [] {
      LatestIsDistinct(created[..|created| - 1]);
      WithoutDistinct(Latest(created[..|created| - 1]), created[|created| - 1].key);
    }
  }

  /** `Latest` means what it says. */
  lemma {:induction false} LatestAre(created: seq<Entry>, i: nat)
    requires i < |created| && forall k :: 0 <= k < |created| ==> created[k].client == k
    ensures created[i] in Latest(created) <==> IsLatest(created, i)
  {
    var n := |created| - 1;
    WithoutMembers(Latest(created[..n]), created[n].key, created[i]);
    if i < n {
      LatestAre(created[..n], i);
      assert IsLatest(created, i) <==> IsLatest(created[..n], i) && created[n].key != created[i].key;
    }
  }

  lemma LastOfConcat(a: seq<Entry>, b: seq<Entry>, n: nat)
    ensures |b| >= n ==> LastN(a + b, n) == b[|b| - n..]
    ensures a == [] && |b| <= n ==> LastN(a + b, n) == b
  {
  }

  lemma RecentWithout(past: seq<Entry>, recent: seq<Entry>, key: string)
    requires DistinctKeys(past + recent)
    ensures Find(recent, key).Some? ==> Without(past, key) == past && |Without(recent, key)| == |recent| - 1
    ensures Find(recent, key).None? ==> Without(recent, key) == recent
  {
    WithoutAbsent(past, key);
    WithoutAbsent(recent, key);
    if Find(recent, key).Some? {
      SuffixIsDistinct(past, recent);
      WithoutOne(recent, key);
      var i := Position(recent, key);
      assert (past + recent)[|past| + i].key == key;
      forall j | 0 <= j < |past| ensures past[j].key != key {
        assert (past + recent)[j] == past[j];
      }
    }
  }

  lemma SuffixIsDistinct(past: seq<Entry>, recent: seq<Entry>)
    requires DistinctKeys(past + recent)
    ensures DistinctKeys(recent)
  {
    assert forall i :: 0 <= i < |recent| ==> recent[i] == (past + recent)[|past| + i];
  }

  /** What is left of the last hundred, and of everything, once a key is removed. */
  lemma SplitRenewal(past: seq<Entry>, recent: seq<Entry>, key: string)
    requires DistinctKeys(past + recent) && |recent| <= CLIENT_CACHE_MAX_ENTRIES
    requires past != [] ==> |recent| == CLIENT_CACHE_MAX_ENTRIES
    ensures Roomy(Without(recent, key)) == LastN(Without(past, key) + Without(recent, key), CLIENT_CACHE_MAX_ENTRIES - 1)
  {
    RecentWithout(past, recent, key);
    LastOfConcat(Without(past, key), Without(recent, key), CLIENT_CACHE_MAX_ENTRIES - 1);
  }

  /** Taking the last hundred before or after a key is renewed comes to the same. */
  lemma RenewCommutes(latest: seq<Entry>, key: string)
    requires DistinctKeys(latest)
    ensures Roomy(Without(LastN(latest, CLIENT_CACHE_MAX_ENTRIES), key))
         == LastN(Without(latest, key), CLIENT_CACHE_MAX_ENTRIES - 1)
  {
    var cut := if |latest| <= CLIENT_CACHE_MAX_ENTRIES then 0 else |latest| - CLIENT_CACHE_MAX_ENTRIES;
    var past, recent := latest[..cut], latest[cut..];
    assert latest == past + recent;
    assert LastN(latest, CLIENT_CACHE_MAX_ENTRIES) == recent;
    WithoutConcat(past, recent, key);
    SplitRenewal(past, recent, key);
  }

  /** The entries with room for one more. */
  function Roomy(entries: seq<Entry>): seq<Entry> {
    if |entries| < CLIENT_CACHE_MAX_ENTRIES then entries else entries[1..]
  }

  lemma RoomMade(s: State, key: string)
    ensures Evict(Expire(s, key)).entries == Roomy(Without(s.entries, key)) && Evict(Expire(s, key)).created == s.created
  {
    WithoutAbsent(s.entries, key);
  }

  /**
   The cache holds exactly the hundred most recent of the clients that no later client
   of the same key superseded: renewing a key moves it to the end, and what falls off
   the front is gone until it is asked for again.
   */
  lemma {:induction false} CachedAreTheLatest(calls: seq<Call>)
    ensures var s := Run(calls); s.entries == LastN(Latest(s.created), 100)
  {
    if calls != [] {
      var n := |calls| - 1;
      var s, key, now := Run(calls[..n]), calls[n].key, calls[n].now;
      CachedAreTheLatest(calls[..n]);
      if !Fresh(Find(s.entries, key), now) {
        CreatedIsLatest(s, key, now);
      }
    }
  }

  lemma CreatedIsLatest(s: State, key: string, now: nat)
    requires s.entries == LastN(Latest(s.created), CLIENT_CACHE_MAX_ENTRIES)
    ensures var s' := Create(Evict(Expire(s, key)), key, now);
            s'.entries == LastN(Latest(s'.created), CLIENT_CACHE_MAX_ENTRIES)
  {
    var entry := Entry(key, |s.created|, now + CLIENT_CACHE_TTL_MS);
    RoomMade(s, key);
    LatestIsDistinct(s.created);
    RenewCommutes(Latest(s.created), key);
    AppendToLast(Without(Latest(s.created), key), entry);
    LatestAppend(s.created, entry);
  }

  lemma LatestAppend(created: seq<Entry>, entry: Entry)
    ensures Latest(created + [entry]) == Without(Latest(created), entry.key) + [entry]
  {
    assert (created + [entry])[..|created|] == created;
  }

  lemma AppendToLast(entries: seq<Entry>, entry: Entry)
    ensures LastN(entries, CLIENT_CACHE_MAX_ENTRIES - 1) + [entry] == LastN(entries + [entry], CLIENT_CACHE_MAX_ENTRIES)
  {
  }

  /** Every client was made by one of the calls, for the key of that call, and expires five minutes after it. */
  lemma {:induction false} ClientsExpireAfterFiveMinutes(calls: seq<Call>, k: nat) returns (i: nat)
    requires k < |Run(calls).created|
    ensures i < |calls| && Run(calls).created[k].key == calls[i].key && Run(calls).created[k].expiresAt == calls[i].now + 300000
  {
    var before := calls[..|calls| - 1];
    if k < |Run(before).created| {
      i := ClientsExpireAfterFiveMinutes(before, k);
      CreatedGrows(Run(before), calls[|calls| - 1].key, calls[|calls| - 1].now);
    } else {
      i := |calls| - 1;
      CreatedGrows(Run(before), calls[i].key, calls[i].now);
    }
  }

  lemma CreatedGrows(s: State, key: string, now: nat)
    ensures var s' := Get(s, key, now);
            s'.created == if Fresh(Find(s.entries, key), now) then s.created
                          else s.created + [Entry(key, |s.created|, now + 300000)]
  {
  }

  /** A call makes a client exactly if none that is younger than five minutes is cached under its key. */
  lemma MadeIff(s: State, key: string, now: nat)
    requires DistinctKeys(s.entries)
    ensures Get(s, key, now) == s <==> exists e :: e in s.entries && e.key == key && e.expiresAt > now
  {
    WithoutAbsent(s.entries, key);
    FoundIsCached(s.entries, key);
    CreatedGrows(s, key, now);
    if e :| e in s.entries && e.key == key && e.expiresAt > now {
      assert Find(s.entries, key).Some?;
      var found := Find(s.entries, key).value;
      var i :| 0 <= i < |s.entries| && s.entries[i] == e;
      var j :| 0 <= j < |s.entries| && s.entries[j] == found;
      assert i == j;
    }
  }

  lemma {:induction false} FoundIsCached(entries: seq<Entry>, key: string)
    ensures Find(entries, key).Some? ==> Find(entries, key).value in entries && Find(entries, key).value.key == key
  {
    if entries != [] && entries[0].key != key {
      FoundIsCached(entries[1..], key);
    }
  }

  // ---- The service ----

  class SecretsManagerClients {
    var entries: seq<Entry>
    var created: seq<Entry>
    var destroyed: seq<nat>
    /** Every call so far. */
    ghost var calls: seq<Call>

    ghost function Current(): State
      reads this
    {
      State(entries, created, destroyed)
    }

    ghost predicate Valid()
      reads this
    {
      Current() == Run(calls)
    }

    constructor ()
      ensures Valid() && calls == []
    {
      entries, created, destroyed, calls := [], [], [], [];
    }

    /**
     Returns a cached client that has not expired, or a new one; either way the client
     is cached under the key, unexpired and not destroyed.
     */
    method Context(key: string, now: nat) returns (client: nat)
      requires Valid()
      modifies this
      ensures Valid() && calls == old(calls) + [Call(key, now)]
      ensures Fresh(Find(entries, key), now) && Find(entries, key).value.client == client
      ensures client !in destroyed
    {
      RunAppend(calls, Call(key, now));
      CacheConservesClients(calls);
      GetKeepsInv(Current(), key, now);
      client := GetProjectContext(key, now);
      CachedIsAlive(Current(), key);
      calls := calls + [Call(key, now)];
    }

    method GetProjectContext(key: string, now: nat) returns (client: nat)
      modifies this
      ensures Current() == Get(old(Current()), key, now) && calls == old(calls)
      ensures Inv(Current()) ==> Fresh(Find(entries, key), now) && Find(entries, key).value.client == client
    {
      var cached := Find(entries, key);
      if cached.Some? {
        if cached.value.expiresAt > now {
          return cached.value.client;
        }
        entries := Without(entries, key);
        DisposeClient(cached.value.client);
      }
      client := |created|;
      if |entries| >= CLIENT_CACHE_MAX_ENTRIES {
        var oldest := entries[0];
        entries := entries[1..];
        DisposeClient(oldest.client);
      }
      created := created + [Entry(key, client, now + CLIENT_CACHE_TTL_MS)];
      entries := entries + [Entry(key, client, now + CLIENT_CACHE_TTL_MS)];
      if Inv(Current()) {
        LastIsFound(Current(), key);
      }
    }

    method DisposeClient(client: nat)
      modifies this`destroyed
      ensures destroyed == old(destroyed) + [client]
    {
      destroyed := destroyed + [client];
    }
  }

  lemma RunAppend(calls: seq<Call>, c: Call)
    ensures Run(calls + [c]) == Get(Run(calls), c.key, c.now)
  {
    assert (calls + [c])[..|calls|] == calls;
  }

  lemma CachedIsAlive(s: State, key: string)
    requires Inv(s) && Find(s.entries, key).Some?
    ensures Find(s.entries, key).value.client !in s.destroyed
  {
    WithoutOne(s.entries, key);
    var i := Position(s.entries, key);
    var client := s.entries[i].client;
    CountOnce(s.created, client);
    assert Clients(s.entries)[i] == client;
    assert client in multiset(Clients(s.entries));
  }

  lemma LastIsFound(s: State, key: string)
    requires DistinctKeys(s.entries) && s.entries != [] && s.entries[|s.entries| - 1].key == key
    ensures Find(s.entries, key) == Some(s.entries[|s.entries| - 1])
  {
    assert s.entries[|s.entries| - 1] in s.entries;
    WithoutAbsent(s.entries, key);
    WithoutOne(s.entries, key);
  }
}
