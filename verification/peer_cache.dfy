/**
 The bounded cache of discovered peers, and what it may forget: it refines the unbounded map from each
 DeviceID to its last announcement.
 */
module PeerCaches {
  import opened Octets
  import opened Discovery
  import opened ReplayWindow

  /** Instants and durations are counted in nanoseconds. */
  const SECOND: nat := 1_000_000_000
  const PEER_MAX_AGE: nat := 90 * SECOND
  const PEER_CACHE_LIMIT: nat := 128

  /** An announcement, where it came from, and when it was cached. */
  datatype CachedPeer = CachedPeer(discovery: VerifiedDiscovery, address: Bytes, seen: nat)

  type Cache = map<Bytes, CachedPeer>

  /** `elapsed() <= PEER_MAX_AGE`; a clock behind the entry counts as no time elapsed. */
  predicate Current(peer: CachedPeer, now: nat) {
    now <= peer.seen + PEER_MAX_AGE
  }

  function Retain(c: Cache, now: nat): Cache {
    map id | id in c && Current(c[id], now) :: c[id]
  }

  predicate Oldest(c: Cache, id: Bytes) {
    id in c && forall other :: other in c ==> c[id].seen <= c[other].seen
  }

  /** The entries a put may leave behind before it inserts: full caches lose one of their oldest. */
  ghost predicate MakesRoom(c: Cache, id: Bytes, room: Cache) {
    if |c| >= PEER_CACHE_LIMIT && id !in c then exists victim :: Oldest(c, victim) && room == c - {victim}
    else room == c
  }

  ghost predicate MayPut(c: Cache, id: Bytes, peer: CachedPeer, now: nat, after: Cache) {
    exists room :: MakesRoom(Retain(c, now), id, room) && after == room[id := peer]
  }

  class PeerCache {
    var entries: Cache

    constructor ()
      ensures entries == map[]
    {
      entries := map[];
    }

    method DropStale(now: nat)
      modifies this
      ensures entries == Retain(old(entries), now)
    {
      entries := Retain(entries, now);
    }

    /** The clock is read again, as `stamp`, when the entry is inserted. */
    method Put(discovery: VerifiedDiscovery, address: Bytes, now: nat, stamp: nat)
      modifies this
      ensures MayPut(old(entries), discovery.deviceId, CachedPeer(discovery, address, stamp), now, entries)
    {
      var id := discovery.deviceId;
      DropStale(now);
      ghost var current := entries;
      if |entries| >= PEER_CACHE_LIMIT && id !in entries {
        var oldest := FindOldest();
        entries := entries - {oldest};
      }
      assert MakesRoom(current, id, entries);
      entries := entries[id := CachedPeer(discovery, address, stamp)];
    }

    /** `min_by_key` over an arbitrary order of the entries. */
    method FindOldest() returns (oldest: Bytes)
      requires entries.Keys != {}
      ensures Oldest(entries, oldest)
    {
      oldest :| oldest in entries;
      var todo := entries.Keys - {oldest};
      while todo != {}
        invariant todo <= entries.Keys && oldest in entries
        invariant forall id :: id in entries && id !in todo ==> entries[oldest].seen <= entries[id].seen
      {
        var id :| id in todo;
        todo := todo - {id};
        if entries[id].seen < entries[oldest].seen {
          oldest := id;
        }
      }
    }

    method ById(id: Bytes, now: nat) returns (r: Option<CachedPeer>)
      modifies this
      ensures entries == Retain(old(entries), now)
      ensures r == if id in entries then Some(entries[id]) else None
    {
      DropStale(now);
      return if id in entries then Some(entries[id]) else None;
    }
  }

  // ---- The unbounded map it refines ----

  datatype Announced = Announced(id: Bytes, peer: CachedPeer)

  /** The last announcement of a DeviceID. */
  function Last(log: seq<Announced>, id: Bytes): Option<CachedPeer> {
    if |log| == 0 then None
    else if log[|log| - 1].id == id then Some(log[|log| - 1].peer)
    else Last(log[..|log| - 1], id)
  }

  /** The other DeviceIDs announced no earlier than a time. */
  function Rivals(log: seq<Announced>, id: Bytes, since: nat): set<Bytes> {
    set j | 0 <= j < |log| && log[j].id != id && since <= log[j].peer.seen :: log[j].id
  }

  /** Why an announced peer may be missing: it aged out, or a cache full of others came no earlier. */
  predicate Forgettable(log: seq<Announced>, id: Bytes, peer: CachedPeer, now: nat) {
    !Current(peer, now) || |Rivals(log, id, peer.seen)| >= PEER_CACHE_LIMIT
  }

  ghost predicate Refines(c: Cache, log: seq<Announced>, now: nat) {
    && |c| <= PEER_CACHE_LIMIT
    && (forall id :: id in c ==> Last(log, id) == Some(c[id]))
    && (forall id :: Last(log, id).Some? && id !in c ==> Forgettable(log, id, Last(log, id).value, now))
  }

  // ---- Events ----

  datatype Event = Putting(peer: CachedPeer, now: nat) | Looking(id: Bytes, now: nat)

  ghost predicate Happens(c: Cache, e: Event, after: Cache) {
    match e
    case Putting(peer, now) => MayPut(c, peer.discovery.deviceId, peer, now, after)
    case Looking(_, now) => after == Retain(c, now)
  }

  function Logged(log: seq<Announced>, e: Event): seq<Announced> {
    if e.Putting? then log + [Announced(e.peer.discovery.deviceId, e.peer)] else log
  }

  lemma LastOfLonger(log: seq<Announced>, x: Announced, id: Bytes)
    ensures Last(log + [x], id) == if x.id == id then Some(x.peer) else Last(log, id)
  {
    assert (log + [x])[..|log|] == log;
  }

  lemma {:induction false} LastIsLogged(log: seq<Announced>, id: Bytes)
    requires Last(log, id).Some?
    ensures Announced(id, Last(log, id).value) in log
  {
    if log[|log| - 1].id != id {
      LastIsLogged(log[..|log| - 1], id);
    }
  }

  lemma RivalsGrow(log: seq<Announced>, x: Announced, id: Bytes, since: nat)
    ensures Rivals(log, id, since) <= Rivals(log + [x], id, since)
    ensures |Rivals(log, id, since)| <= |Rivals(log + [x], id, since)|
  {
    var longer := log + [x];
    forall other | other in Rivals(log, id, since)
      ensures other in Rivals(longer, id, since)
    {
      var j :| 0 <= j < |log| && log[j].id == other && other != id && since <= log[j].peer.seen;
      assert longer[j] == log[j];
    }
    SubsetSize(Rivals(log, id, since), Rivals(longer, id, since));
  }

  lemma RetainRefines(c: Cache, log: seq<Announced>, now: nat, later: nat)
    requires Refines(c, log, now) && now <= later
    ensures Refines(Retain(c, later), log, later)
  {
    SubsetSize(Retain(c, later).Keys, c.Keys);
  }

  /** Everything cached besides the victim, and the newcomer, are rivals of the victim. */
  lemma VictimHasRivals(c: Cache, log: seq<Announced>, now: nat, id: Bytes, peer: CachedPeer, victim: Bytes)
    requires Refines(c, log, now) && |c| >= PEER_CACHE_LIMIT && id !in c && Oldest(c, victim)
    requires c[victim].seen <= peer.seen
    ensures |Rivals(log + [Announced(id, peer)], victim, c[victim].seen)| >= PEER_CACHE_LIMIT
  {
    var longer, since := log + [Announced(id, peer)], c[victim].seen;
    var rivals := c.Keys - {victim} + {id};
    forall other | other in rivals
      ensures other in Rivals(longer, victim, since)
    {
      if other == id {
        assert longer[|log|].id == id;
      } else {
        LastIsLogged(log, other);
        var j :| 0 <= j < |log| && log[j] == Announced(other, c[other]);
        assert longer[j] == log[j];
      }
    }
    assert |c.Keys - {victim}| == |c| - 1;
    assert |rivals| == |c|;
    SubsetSize(rivals, Rivals(longer, victim, since));
  }

  /** The cache after making room still forgets only what the longer log excuses. */
  lemma RoomForgets(c: Cache, log: seq<Announced>, now: nat, id: Bytes, peer: CachedPeer, room: Cache, other: Bytes)
    requires Refines(c, log, now) && MakesRoom(c, id, room) && now <= peer.seen
    requires forall x :: x in c ==> c[x].seen <= now
    requires Last(log, other).Some? && other !in room && other != id
    ensures Forgettable(log + [Announced(id, peer)], other, Last(log, other).value, now)
  {
    if other in c {
      VictimHasRivals(c, log, now, id, peer, other);
    } else {
      RivalsGrow(log, Announced(id, peer), other, Last(log, other).value.seen);
    }
  }

  predicate Stamped(c: Cache, now: nat) {
    forall id :: id in c ==> c[id].seen <= now
  }

  lemma PutRefines(c: Cache, log: seq<Announced>, now: nat, id: Bytes, peer: CachedPeer, after: Cache)
    requires Refines(c, log, now) && Stamped(c, now) && now <= peer.seen
    requires exists room :: MakesRoom(c, id, room) && after == room[id := peer]
    ensures Refines(after, log + [Announced(id, peer)], peer.seen) && Stamped(after, peer.seen)
  {
    var room :| MakesRoom(c, id, room) && after == room[id := peer];
    var longer := log + [Announced(id, peer)];
    forall other
      ensures Last(longer, other) == if other == id then Some(peer) else Last(log, other)
    {
      LastOfLonger(log, Announced(id, peer), other);
    }
    forall other | Last(longer, other).Some? && other !in after
      ensures Forgettable(longer, other, Last(longer, other).value, peer.seen)
    {
      RoomForgets(c, log, now, id, peer, room, other);
    }
    RoomIsBounded(c, id, room, peer);
  }

  lemma RoomIsBounded(c: Cache, id: Bytes, room: Cache, peer: CachedPeer)
    requires |c| <= PEER_CACHE_LIMIT && MakesRoom(c, id, room)
    ensures |room[id := peer]| <= PEER_CACHE_LIMIT
  {
    assert room[id := peer].Keys == room.Keys + {id};
    if |c| >= PEER_CACHE_LIMIT && id !in c {
      var victim :| Oldest(c, victim) && room == c - {victim};
      assert room.Keys == c.Keys - {victim};
      assert |room.Keys| == |c.Keys| - 1;
    } else if id in c {
      assert room.Keys + {id} == c.Keys;
    }
  }

  // ---- Whole histories ----

  function LogOf(events: seq<Event>): seq<Announced> {
    if |events| == 0 then [] else Logged(LogOf(events[..|events| - 1]), events[|events| - 1])
  }

  /** The clock reading an event ends with: a put stamps its entry after it has dropped the stale ones. */
  function Clock(e: Event): nat {
    if e.Putting? then e.peer.seen else e.now
  }

  /** A history of the cache under a clock that never goes back. */
  ghost predicate History(states: seq<Cache>, events: seq<Event>) {
    && |states| == |events| + 1
    && states[0] == map[]
    && (forall i :: 0 <= i < |events| ==> Happens(states[i], events[i], states[i + 1]) && events[i].now <= Clock(events[i]))
    && (forall i :: 0 < i < |events| ==> Clock(events[i - 1]) <= events[i].now)
  }

  function TimeAt(events: seq<Event>, i: nat): nat
    requires i <= |events|
  {
    if i == 0 then 0 else Clock(events[i - 1])
  }

  /** In every state of every history the cache refines the unbounded map of last announcements. */
  lemma {:induction false} CacheRefinesLastAnnouncements(states: seq<Cache>, events: seq<Event>, i: nat)
    requires History(states, events) && i < |states|
    ensures Refines(states[i], LogOf(events[..i]), TimeAt(events, i)) && Stamped(states[i], TimeAt(events, i))
  {
    if i > 0 {
      CacheRefinesLastAnnouncements(states, events, i - 1);
      var e, c, log := events[i - 1], states[i - 1], LogOf(events[..i - 1]);
      assert events[..i][..i - 1] == events[..i - 1];
      assert TimeAt(events, i - 1) <= e.now;
      RetainRefines(c, log, TimeAt(events, i - 1), e.now);
      if e.Putting? {
        PutRefines(Retain(c, e.now), log, e.now, e.peer.discovery.deviceId, e.peer, states[i]);
      }
    }
  }

  /**
   A lookup returns exactly the latest announcement of that DeviceID, at most 90 seconds old; and it comes
   back empty only if there is none, it aged out, or at least 128 other devices announced no earlier.
   */
  lemma LookupIsLatestOrExcused(states: seq<Cache>, events: seq<Event>, i: nat, id: Bytes, now: nat)
    requires History(states, events) && i < |states| && TimeAt(events, i) <= now
    ensures var found, last := Retain(states[i], now), Last(LogOf(events[..i]), id);
            && |states[i]| <= PEER_CACHE_LIMIT
            && (id in found ==> last == Some(found[id]) && now <= found[id].seen + PEER_MAX_AGE)
            && (id !in found && last.Some? ==>
                  || last.value.seen + PEER_MAX_AGE < now
                  || |Rivals(LogOf(events[..i]), id, last.value.seen)| >= PEER_CACHE_LIMIT)
  {
    CacheRefinesLastAnnouncements(states, events, i);
    RetainRefines(states[i], LogOf(events[..i]), TimeAt(events, i), now);
  }
}
