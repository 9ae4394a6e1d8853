/**
 The pruned, bounded replay window of the discovery verifier, for packets whose other checks have
 already been made.  Keys are (DeviceID, nonce); all arithmetic saturates at u64.
 */
module ReplayWindow {
  import opened Octets

  datatype Window = Window(maxAge: u64, maxFuture: u64, limit: nat)

  type ReplayKey = (Bytes, Bytes32)

  datatype ReplayEntry = ReplayEntry(acceptedAt: u64, announcementTimestamp: u64)

  type Seen = map<ReplayKey, ReplayEntry>

  /** What an authentic packet claims. */
  datatype Claim = Claim(key: ReplayKey, timestamp: u64)

  /** One `verify` call: the claim of its packet if that is authentic and fresh, and the clock. */
  datatype Attempt = Attempt(claim: Option<Claim>, now: u64)

  predicate Fresh(w: Window, timestamp: u64, now: u64) {
    timestamp <= SaturatingAdd(now, w.maxFuture) && SaturatingSub(now, timestamp) <= w.maxAge
  }

  predicate Retained(w: Window, e: ReplayEntry, now: u64) {
    && SaturatingSub(now, e.acceptedAt) <= SaturatingAdd(w.maxAge, w.maxFuture)
    && SaturatingSub(now, e.announcementTimestamp) <= w.maxAge
  }

  function Prune(w: Window, seen: Seen, now: u64): Seen {
    map k | k in seen && Retained(w, seen[k], now) :: seen[k]
  }

  predicate Admits(w: Window, seen: Seen, a: Attempt) {
    var pruned := Prune(w, seen, a.now);
    a.claim.Some? && a.claim.value.key !in pruned && |pruned| < w.limit
  }

  function Update(w: Window, seen: Seen, a: Attempt): Seen {
    var pruned := Prune(w, seen, a.now);
    if Admits(w, seen, a) then pruned[a.claim.value.key := ReplayEntry(a.now, a.claim.value.timestamp)]
    else pruned
  }

  // ---- Whole runs ----

  /** The clock never runs backwards, and every claim was fresh when it was made. */
  predicate WellTimed(w: Window, run: seq<Attempt>) {
    && (forall i, j :: 0 <= i < j < |run| ==> run[i].now <= run[j].now)
    && (forall i :: 0 <= i < |run| && run[i].claim.Some? ==> Fresh(w, run[i].claim.value.timestamp, run[i].now))
  }

  function SeenAfter(w: Window, run: seq<Attempt>): Seen {
    if |run| == 0 then map[]
    else Update(w, SeenAfter(w, run[..|run| - 1]), run[|run| - 1])
  }

  predicate Accepted(w: Window, run: seq<Attempt>, i: nat)
    requires i < |run|
  {
    Admits(w, SeenAfter(w, run[..i]), run[i])
  }

  /** The entry that attempt i would leave. */
  function EntryOf(a: Attempt): ReplayEntry
    requires a.claim.Some?
  {
    ReplayEntry(a.now, a.claim.value.timestamp)
  }

  /** Attempt i was accepted and is still inside the retention horizon at `now`. */
  predicate LiveAt(w: Window, run: seq<Attempt>, i: nat, now: u64)
    requires i < |run|
  {
    Accepted(w, run, i) && Retained(w, EntryOf(run[i]), now)
  }

  /** The keys an unbounded log of every acceptance would still hold live. */
  ghost predicate LiveKey(w: Window, run: seq<Attempt>, now: u64, k: ReplayKey) {
    exists i: nat :: i < |run| && LiveAt(w, run, i, now) && run[i].claim.value.key == k
  }

  lemma AcceptedInPrefix(w: Window, run: seq<Attempt>, n: nat, i: nat)
    requires i < n <= |run|
    ensures Accepted(w, run[..n], i) == Accepted(w, run, i)
  {
    assert run[..n][..i] == run[..i];
  }

  /** Whatever has aged out of the cache already fails the freshness test. */
  lemma DroppedIsStale(w: Window, e: ReplayEntry, now: u64)
    requires Fresh(w, e.announcementTimestamp, e.acceptedAt)
    requires !Retained(w, e, now)
    ensures !Fresh(w, e.announcementTimestamp, now)
  {
  }

  lemma ExpiryIsPermanent(w: Window, e: ReplayEntry, now: u64, later: u64)
    requires now <= later && Retained(w, e, later)
    ensures Retained(w, e, now)
  {
  }

  /** Every live acceptance is in the cache, under its own entry. */
  lemma {:induction false} LiveIsCached(w: Window, run: seq<Attempt>, i: nat, now: u64)
    requires WellTimed(w, run) && i < |run| && run[|run| - 1].now <= now
    requires LiveAt(w, run, i, now)
    ensures var k := run[i].claim.value.key;
            k in SeenAfter(w, run) && SeenAfter(w, run)[k] == EntryOf(run[i])
  {
    var n := |run| - 1;
    if i < n {
      AcceptedInPrefix(w, run, n, i);
      ExpiryIsPermanent(w, EntryOf(run[i]), run[n].now, now);
      ExpiryIsPermanent(w, EntryOf(run[i]), run[n - 1].now, now);
      LiveIsCached(w, run[..n], i, run[n].now);
    }
  }

  /** Every cached entry was left by an acceptance. */
  lemma {:induction false} CachedWasAccepted(w: Window, run: seq<Attempt>, k: ReplayKey) returns (i: nat)
    requires k in SeenAfter(w, run)
    ensures i < |run| && Accepted(w, run, i)
    ensures run[i].claim.value.key == k && SeenAfter(w, run)[k] == EntryOf(run[i])
  {
    var n := |run| - 1;
    if Accepted(w, run, n) && run[n].claim.value.key == k {
      i := n;
    } else {
      i := CachedWasAccepted(w, run[..n], k);
      AcceptedInPrefix(w, run, n, i);
    }
  }

  /**
   The pruned cache decides exactly as an unbounded log of every acceptance would: an attempt is
   accepted if and only if it is authentic, no live acceptance carries its key, and fewer than
   `limit` keys are live.
   */
  lemma CacheRefinesUnboundedLog(w: Window, run: seq<Attempt>, j: nat, live: set<ReplayKey>)
    requires WellTimed(w, run) && j < |run|
    requires forall k :: k in live <==> LiveKey(w, run[..j], run[j].now, k)
    ensures Accepted(w, run, j) <==> run[j].claim.Some? && run[j].claim.value.key !in live && |live| < w.limit
  {
    var prefix, now := run[..j], run[j].now;
    var pruned := Prune(w, SeenAfter(w, prefix), now);
    forall k
      ensures k in pruned <==> LiveKey(w, prefix, now, k)
    {
      if k in pruned {
        var i := CachedWasAccepted(w, prefix, k);
        assert LiveAt(w, prefix, i, now);
      }
      if LiveKey(w, prefix, now, k) {
        var i: nat :| i < |prefix| && LiveAt(w, prefix, i, now) && prefix[i].claim.value.key == k;
        LiveIsCached(w, prefix, i, now);
      }
    }
    assert pruned.Keys == live;
    assert |pruned| == |pruned.Keys|;
  }

  /** No (DeviceID, nonce, timestamp) is ever accepted twice, however much is pruned in between. */
  lemma NeverAcceptedTwice(w: Window, run: seq<Attempt>, i: nat, j: nat)
    requires WellTimed(w, run) && i < j < |run|
    requires Accepted(w, run, i) && Accepted(w, run, j)
    ensures run[i].claim != run[j].claim
  {
    if run[i].claim == run[j].claim {
      AcceptedInPrefix(w, run, j, i);
      if Retained(w, EntryOf(run[i]), run[j].now) {
        LiveIsCached(w, run[..j], i, run[j].now);
      } else {
        DroppedIsStale(w, EntryOf(run[i]), run[j].now);
      }
    }
  }

  /** The cache never outgrows its limit. */
  lemma {:induction false} CacheIsBounded(w: Window, run: seq<Attempt>)
    ensures |SeenAfter(w, run)| <= w.limit
  {
    if |run| > 0 {
      var n := |run| - 1;
      CacheIsBounded(w, run[..n]);
      var before := SeenAfter(w, run[..n]);
      var pruned := Prune(w, before, run[n].now);
      SubsetSize(pruned.Keys, before.Keys);
      assert |pruned| == |pruned.Keys| && |before| == |before.Keys|;
    }
  }

  lemma {:induction false} SubsetSize<T>(a: set<T>, b: set<T>)
    requires a <= b
    ensures |a| <= |b|
  {
    if a != {} {
      var x :| x in a;
      SubsetSize(a - {x}, b - {x});
    }
  }
}
