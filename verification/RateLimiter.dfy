/** The Redis sliding-window rate limiter: one sorted set per client key, trimmed on every hit. */
module RateLimiter {
  type Key = nat

  /** `<now>-<random>`: a member names the instant of its hit. */
  datatype Member = Member(at: int, nonce: nat)

  datatype SortedSet = SortedSet(scores: map<Member, int>, expiresAt: int)

  const EMPTY := SortedSet(map[], 0)

  datatype HitResult = HitResult(allowed: bool, remaining: nat, resetMs: int)

  // ----- the Redis commands -----

  /** What a command finds: an expired key is an empty set. */
  function Live(z: SortedSet, now: int): SortedSet {
    if now < z.expiresAt then z else EMPTY
  }

  function ZRemRangeByScore(z: SortedSet, low: int, high: int): SortedSet {
    z.(scores := map m | m in z.scores && !(low <= z.scores[m] <= high) :: z.scores[m])
  }

  function ZAdd(z: SortedSet, score: int, m: Member): SortedSet {
    z.(scores := z.scores[m := score])
  }

  function PExpire(z: SortedSet, now: int, ttl: int): SortedSet {
    z.(expiresAt := now + ttl)
  }

  /** The four commands of one hit. */
  function AfterHit(z: SortedSet, window: int, m: Member): SortedSet {
    PExpire(ZAdd(ZRemRangeByScore(Live(z, m.at), 0, m.at - window), m.at, m), m.at, window)
  }

  class RedisSlidingWindowStore {
    var sets: map<Key, SortedSet>

    constructor ()
      ensures sets == map[]
    {
      sets := map[];
    }

    function Stored(key: Key): SortedSet
      reads this
    {
      if key in sets then sets[key] else EMPTY
    }

    method Hit(key: Key, window: int, limit: nat, now: int, nonce: nat) returns (result: HitResult)
      modifies this
      ensures Stored(key) == AfterHit(old(Stored(key)), window, Member(now, nonce))
      ensures forall other :: other != key ==> Stored(other) == old(Stored(other))
      ensures result.allowed <==> |Stored(key).scores| <= limit
      ensures result.remaining == if result.allowed then limit - |Stored(key).scores| else 0
      ensures result.resetMs == window
    {
      var member := Member(now, nonce);
      var z := Live(Stored(key), now);
      z := ZRemRangeByScore(z, 0, now - window);
      z := ZAdd(z, now, member);
      var count := |z.scores|;
      z := PExpire(z, now, window);
      sets := sets[key := z];
      return HitResult(count <= limit, if limit >= count then limit - count else 0, window);
    }
  }

  // ----- one client's hits, in order -----

  function AfterHits(window: int, hits: seq<Member>): SortedSet {
    if hits == [] then EMPTY else AfterHit(AfterHits(window, hits[..|hits| - 1]), window, hits[|hits| - 1])
  }

  /** The decision on the `i`-th hit. */
  predicate Allowed(window: int, limit: nat, hits: seq<Member>, i: nat)
    requires i < |hits|
  {
    |AfterHits(window, hits[..i + 1]).scores| <= limit
  }

  predicate Ordered(hits: seq<Member>) {
    && (forall i :: 0 <= i < |hits| ==> hits[i].at >= 0)
    && forall i, j :: 0 <= i < j < |hits| ==> hits[i].at <= hits[j].at
  }

  predicate Distinct(hits: seq<Member>) {
    forall i, j :: 0 <= i < j < |hits| ==> hits[i] != hits[j]
  }

  /** The hits of the full history after the instant `since`. */
  function Since(hits: seq<Member>, since: int): set<Member> {
    set m | m in hits && m.at > since
  }

  function CountSince(hits: seq<Member>, since: int): nat {
    if hits == [] then 0 else CountSince(hits[..|hits| - 1], since) + if hits[|hits| - 1].at > since then 1 else 0
  }

  /** What is stored after `hits`: those newer than the window, scored with their instants. */
  predicate Stores(z: SortedSet, window: int, hits: seq<Member>)
    requires hits != []
  {
    var now := hits[|hits| - 1].at;
    && z.scores.Keys == Since(hits, now - window)
    && (forall m :: m in z.scores ==> z.scores[m] == m.at)
    && z.expiresAt == now + window
  }

  lemma FirstHitStores(window: int, m: Member)
    requires window > 0
    ensures Stores(AfterHit(EMPTY, window, m), window, [m])
  {
  }

  lemma NextHitStores(z: SortedSet, window: int, hits: seq<Member>, m: Member)
    requires window > 0 && hits != [] && Stores(z, window, hits) && Ordered(hits + [m])
    ensures Stores(AfterHit(z, window, m), window, hits + [m])
  {
    var last := hits[|hits| - 1];
    assert (hits + [m])[|hits| - 1] == last && (hits + [m])[|hits|] == m;
    forall h | h in hits
      ensures 0 <= h.at <= last.at <= m.at
    {
      var i :| 0 <= i < |hits| && hits[i] == h;
      assert (hits + [m])[i] == h;
    }
  }

  /** The stored set is the full history's hits newer than the window, key expiry included. */
  lemma {:induction false} StoredIsRecent(window: int, hits: seq<Member>)
    requires window > 0 && Ordered(hits) && hits != []
    ensures Stores(AfterHits(window, hits), window, hits)
    decreases |hits|
  {
    var n := |hits| - 1;
    assert hits == hits[..n] + [hits[n]];
    if n == 0 {
      assert hits == [hits[0]];
      FirstHitStores(window, hits[0]);
    } else {
      StoredIsRecent(window, hits[..n]);
      NextHitStores(AfterHits(window, hits[..n]), window, hits[..n], hits[n]);
    }
  }

  lemma MapSize(scores: map<Member, int>)
    ensures |scores| == |scores.Keys|
  {
  }

  lemma StoredSize(z: SortedSet, window: int, hits: seq<Member>)
    requires hits != [] && Stores(z, window, hits)
    ensures |z.scores| == |Since(hits, hits[|hits| - 1].at - window)|
  {
    MapSize(z.scores);
  }

  lemma {:induction false} DistinctCount(hits: seq<Member>, since: int)
    requires Distinct(hits)
    ensures |Since(hits, since)| == CountSince(hits, since)
    decreases |hits|
  {
    if hits == [] {
      assert Since(hits, since) == {};
    } else {
      var n := |hits| - 1;
      var last := hits[n];
      DistinctCount(hits[..n], since);
      assert hits == hits[..n] + [last];
      assert last !in hits[..n];
      assert Since(hits, since) == Since(hits[..n], since) + if last.at > since then {last} else {};
    }
  }

  lemma HitCount(window: int, hits: seq<Member>)
    requires window > 0 && Ordered(hits) && hits != []
    ensures |AfterHits(window, hits).scores| == |Since(hits, hits[|hits| - 1].at - window)|
  {
    StoredIsRecent(window, hits);
    StoredSize(AfterHits(window, hits), window, hits);
  }

  /**
   The decision is that of a counter over the full history: allowed if and only if at most `limit`
   hits, this one included, fall in its window.
   */
  lemma AllowedIsExact(window: int, limit: nat, hits: seq<Member>, i: nat)
    requires window > 0 && Ordered(hits) && Distinct(hits) && i < |hits|
    ensures Allowed(window, limit, hits, i) <==> CountSince(hits[..i + 1], hits[i].at - window) <= limit
  {
    HitCount(window, hits[..i + 1]);
    DistinctCount(hits[..i + 1], hits[i].at - window);
  }

  // ----- the limit -----

  /** How many of the first `n` hits were allowed in the half-open interval from `t` on. */
  function AllowedIn(window: int, limit: nat, hits: seq<Member>, t: int, n: nat): nat
    requires n <= |hits|
  {
    if n == 0 then 0
    else AllowedIn(window, limit, hits, t, n - 1) + if t <= hits[n - 1].at < t + window
        && Allowed(window, limit, hits, n - 1) then 1 else 0
  }

  lemma {:induction false} AllowedAreSome(window: int, limit: nat, hits: seq<Member>, t: int, n: nat)
    requires n <= |hits|
    ensures AllowedIn(window, limit, hits, t, n) <= CountSince(hits[..n], t - 1)
    decreases n
  {
    if n > 0 {
      AllowedAreSome(window, limit, hits, t, n - 1);
      assert hits[..n][..n - 1] == hits[..n - 1];
    }
  }

  lemma {:induction false} CountShrinks(hits: seq<Member>, since: int, later: int)
    requires since <= later
    ensures CountSince(hits, later) <= CountSince(hits, since)
    decreases |hits|
  {
    if hits != [] {
      CountShrinks(hits[..|hits| - 1], since, later);
    }
  }

  /** At most `limit` hits are allowed in any half-open interval as long as the window. */
  lemma {:induction false} LimitHolds(window: int, limit: nat, hits: seq<Member>, t: int, n: nat)
    requires window > 0 && Ordered(hits) && Distinct(hits) && n <= |hits|
    ensures AllowedIn(window, limit, hits, t, n) <= limit
    decreases n
  {
    if n > 0 {
      LimitHolds(window, limit, hits, t, n - 1);
      if t <= hits[n - 1].at < t + window && Allowed(window, limit, hits, n - 1) {
        AllowedIsExact(window, limit, hits, n - 1);
        AllowedAreSome(window, limit, hits, t, n);
        CountShrinks(hits[..n], hits[n - 1].at - window, t - 1);
      }
    }
  }

  lemma AllowedByCount(window: int, limit: nat, hits: seq<Member>, i: nat, since: int)
    requires window > 0 && Ordered(hits) && i < |hits| && since == hits[i].at - window
             && |Since(hits[..i + 1], since)| <= limit
    ensures Allowed(window, limit, hits, i)
  {
    HitCount(window, hits[..i + 1]);
  }

  /** Distinct members are needed: two hits of one instant that draw the same random number count once. */
  lemma CollidingHitsCountOnce(window: int, m: Member)
    requires window > 0 && m.at >= 0
    ensures AllowedIn(window, 1, [m, m], m.at, 2) == 2
  {
    var hits := [m, m];
    assert Since(hits[..1], m.at - window) == {m} == Since(hits[..2], m.at - window);
    AllowedByCount(window, 1, hits, 0, m.at - window);
    AllowedByCount(window, 1, hits, 1, m.at - window);
    assert AllowedIn(window, 1, hits, m.at, 1) == 1;
  }
}
