/** The sliding-window limiter: internal/httpapi/middleware/rate_limit.go. */
module RateLimiter {
  import opened Common

  const MAX_TRACKED_CLIENTS: nat := 10_000
  const CLEANUP_EVERY: nat := 256

  // ------------------------------------------------------- lists of instants

  predicate Sorted(ts: seq<Time>) { forall i, j :: 0 <= i < j < |ts| ==> ts[i] <= ts[j] }

  /** The instants no more than `window` before `now`. */
  function Recent(ts: seq<Time>, now: Time, window: Time): seq<Time> {
    if ts == [] then []
    else (if now - ts[0] <= window then [ts[0]] else []) + Recent(ts[1..], now, window)
  }

  /** Any `limit + 1` consecutive instants span more than `window`. */
  predicate Spaced(ts: seq<Time>, limit: nat, window: Time) {
    forall i :: 0 <= i < |ts| - limit ==> ts[i + limit] - ts[i] > window
  }

  lemma {:induction false} RecentConcat(a: seq<Time>, b: seq<Time>, now: Time, window: Time)
    ensures Recent(a + b, now, window) == Recent(a, now, window) + Recent(b, now, window)
  {
    if a == [] {
      assert a + b == b;
    } else {
      assert (a + b)[1..] == a[1..] + b;
      RecentConcat(a[1..], b, now, window);
    }
  }

  /** Pruning early loses nothing that a later look would have counted. */
  lemma {:induction false} PruningIsHarmless(ts: seq<Time>, now: Time, later: Time, window: Time)
    requires now <= later
    ensures Recent(Recent(ts, now, window), later, window) == Recent(ts, later, window)
  {
    if ts != [] {
      PruningIsHarmless(ts[1..], now, later, window);
      RecentConcat(if now - ts[0] <= window then [ts[0]] else [], Recent(ts[1..], now, window), later, window);
    }
  }

  lemma {:induction false} RecentBasics(ts: seq<Time>, now: Time, window: Time)
    ensures |Recent(ts, now, window)| <= |ts|
    ensures forall t :: t in Recent(ts, now, window) ==> t in ts
    ensures Sorted(ts) ==> Sorted(Recent(ts, now, window))
  {
    if ts != [] {
      RecentBasics(ts[1..], now, window);
      var rest := Recent(ts[1..], now, window);
      if Sorted(ts) {
        forall k | 0 <= k < |rest| ensures ts[0] <= rest[k] {
          assert rest[k] in rest;
          var i :| 0 <= i < |ts[1..]| && ts[1..][i] == rest[k];
          assert ts[i + 1] == rest[k];
        }
      }
    }
  }

  lemma {:induction false} AllRecent(ts: seq<Time>, now: Time, window: Time)
    requires forall i :: 0 <= i < |ts| ==> now - ts[i] <= window
    ensures Recent(ts, now, window) == ts
  {
    if ts != [] { AllRecent(ts[1..], now, window); }
  }

  /** If one instant of a sorted list is recent, so is everything after it. */
  lemma RecentSuffix(ts: seq<Time>, i: nat, now: Time, window: Time)
    requires Sorted(ts) && i < |ts| && now - ts[i] <= window
    ensures |Recent(ts, now, window)| >= |ts| - i
  {
    assert ts == ts[..i] + ts[i..];
    RecentConcat(ts[..i], ts[i..], now, window);
    AllRecent(ts[i..], now, window);
  }

  function Latest(ts: seq<Time>): Time
    requires ts != []
  {
    ts[|ts| - 1]
  }

  /** Pruning a sorted list drops from the front, so what is left still ends in the latest instant. */
  lemma {:induction false} RecentKeepsLatest(ts: seq<Time>, now: Time, window: Time)
    requires Sorted(ts) && Recent(ts, now, window) != []
    ensures ts != [] && Latest(Recent(ts, now, window)) == Latest(ts)
  {
    if |ts| > 1 {
      if Recent(ts[1..], now, window) != [] {
        RecentKeepsLatest(ts[1..], now, window);
      }
    }
  }

  /** Accepting when fewer than `limit` are recent keeps the list sorted and spaced. */
  lemma AcceptKeepsSpacing(ts: seq<Time>, limit: nat, now: Time, window: Time)
    requires limit > 0 && Sorted(ts) && Spaced(ts, limit, window) && (forall i :: 0 <= i < |ts| ==> ts[i] <= now)
    requires |Recent(ts, now, window)| < limit
    ensures Sorted(ts + [now]) && Spaced(ts + [now], limit, window)
  {
    if |ts| >= limit && now - ts[|ts| - limit] <= window {
      RecentSuffix(ts, |ts| - limit, now, window);
    }
  }

  /** The instants that fall into the closed interval from `a` to `b`. */
  function Within(ts: seq<Time>, a: Time, b: Time): seq<Time> {
    if ts == [] then [] else (if a <= ts[0] <= b then [ts[0]] else []) + Within(ts[1..], a, b)
  }

  lemma {:induction false} WithinPrefix(ts: seq<Time>, n: nat, a: Time, b: Time)
    requires n <= |ts| && forall i :: n <= i < |ts| ==> ts[i] > b
    ensures |Within(ts, a, b)| <= n
    decreases |ts|
  {
    if ts != [] { WithinPrefix(ts[1..], if n == 0 then 0 else n - 1, a, b); }
  }

  /** No closed interval of length `window` holds more than `limit` of the instants. */
  lemma {:induction false} IntervalHoldsAtMostLimit(ts: seq<Time>, limit: nat, window: Time, a: Time)
    requires limit > 0 && window >= 0 && Sorted(ts) && Spaced(ts, limit, window)
    ensures |Within(ts, a, a + window)| <= limit
  {
    if ts != [] {
      if ts[0] < a {
        assert Spaced(ts[1..], limit, window) by {
          forall i | 0 <= i < |ts[1..]| - limit ensures ts[1..][i + limit] - ts[1..][i] > window {
            assert ts[(i + 1) + limit] - ts[i + 1] > window;
          }
        }
        IntervalHoldsAtMostLimit(ts[1..], limit, window, a);
      } else if |ts| <= limit {
        WithinPrefix(ts, |ts|, a, a + window);
      } else {
        assert ts[0 + limit] - ts[0] > window;
        WithinPrefix(ts, limit, a, a + window);
      }
    }
  }

  // -------------------------------------------------------------- the limiter

  function Times(m: map<string, seq<Time>>, ip: string): seq<Time> { if ip in m then m[ip] else [] }

  function Without(m: map<string, seq<Time>>, evicted: Option<string>): map<string, seq<Time>> {
    if evicted.Some? then m - {evicted.value} else m
  }

  /** The map after every list has been pruned and empty ones dropped. */
  ghost predicate PrunedTo(m: map<string, seq<Time>>, m': map<string, seq<Time>>, now: Time, window: Time) {
    && m'.Keys <= m.Keys
    && forall ip {:trigger PrunedAt(m, m', ip, now, window)} :: ip in m ==> PrunedAt(m, m', ip, now, window)
  }

  /** One client's list has been pruned, or dropped because nothing was left of it. */
  predicate PrunedAt(m: map<string, seq<Time>>, m': map<string, seq<Time>>, ip: string, now: Time, window: Time)
    requires ip in m
  {
    var valid := Recent(m[ip], now, window);
    if valid == [] then ip !in m' else ip in m' && m'[ip] == valid
  }

  /** What is stored for one client between requests. */
  predicate ClientOk(m: map<string, seq<Time>>, ip: string, limit: nat, clock: Time) {
    ip in m ==> m[ip] != [] && |m[ip]| <= limit && Sorted(m[ip]) && forall t :: t in m[ip] ==> t <= clock
  }

  ghost predicate TableOk(m: map<string, seq<Time>>, limit: nat, clock: Time) {
    forall ip {:trigger ClientOk(m, ip, limit, clock)} :: ClientOk(m, ip, limit, clock)
  }

  /** From `clock` on, the stored list and the full one count the same recent instants and end in the same one. */
  predicate SameRecent(m: map<string, seq<Time>>, full: map<string, seq<Time>>, ip: string, clock: Time, window: Time) {
    && Recent(Times(m, ip), clock, window) == Recent(Times(full, ip), clock, window)
    && (Times(m, ip) != [] ==> Times(full, ip) != [] && Latest(Times(m, ip)) == Latest(Times(full, ip)))
  }

  ghost predicate Equivalent(m: map<string, seq<Time>>, full: map<string, seq<Time>>, clock: Time, window: Time) {
    forall ip {:trigger SameRecent(m, full, ip, clock, window)} :: SameRecent(m, full, ip, clock, window)
  }

  predicate HistoryOk(full: map<string, seq<Time>>, ip: string, limit: nat, window: Time, clock: Time) {
    && Sorted(Times(full, ip)) && Spaced(Times(full, ip), limit, window)
    && forall i :: 0 <= i < |Times(full, ip)| ==> Times(full, ip)[i] <= clock
  }

  ghost predicate FullOk(full: map<string, seq<Time>>, limit: nat, window: Time, clock: Time) {
    forall ip {:trigger HistoryOk(full, ip, limit, window, clock)} :: HistoryOk(full, ip, limit, window, clock)
  }

  lemma TableOkLater(m: map<string, seq<Time>>, full: map<string, seq<Time>>, limit: nat, window: Time, clock: Time,
                     later: Time)
    requires TableOk(m, limit, clock) && FullOk(full, limit, window, clock) && Equivalent(m, full, clock, window)
    requires clock <= later
    ensures TableOk(m, limit, later) && FullOk(full, limit, window, later) && Equivalent(m, full, later, window)
  {
    EquivalentLater(m, full, clock, later, window);
    assert forall ip :: ClientOk(m, ip, limit, clock) ==> ClientOk(m, ip, limit, later);
    assert forall ip :: HistoryOk(full, ip, limit, window, clock) ==> HistoryOk(full, ip, limit, window, later);
  }

  /** A rejected client's list is replaced by its recent part. */
  lemma StorePrunedOk(m: map<string, seq<Time>>, full: map<string, seq<Time>>, client: string, limit: nat, now: Time,
                      window: Time)
    requires TableOk(m, limit, now) && Equivalent(m, full, now, window)
    requires Recent(Times(m, client), now, window) != []
    ensures var m' := m[client := Recent(Times(m, client), now, window)];
            && client in m && |m'| == |m| && TableOk(m', limit, now) && Equivalent(m', full, now, window)
  {
    var m' := m[client := Recent(Times(m, client), now, window)];
    RecentBasics(m[client], now, window);
    assert m'.Keys == m.Keys;
    forall ip ensures SameRecent(m', full, ip, now, window) && ClientOk(m', ip, limit, now) {
      PruningIsHarmless(Times(m, client), now, now, window);
      assert SameRecent(m, full, ip, now, window) && ClientOk(m, ip, limit, now);
      if ip == client { RecentKeepsLatest(m[client], now, window); }
    }
  }

  /** Forgetting a client in both memories keeps them equivalent. */
  lemma EvictOk(m: map<string, seq<Time>>, full: map<string, seq<Time>>, victim: string, limit: nat, now: Time,
                window: Time)
    requires TableOk(m, limit, now) && FullOk(full, limit, window, now) && Equivalent(m, full, now, window)
    requires victim in m
    ensures |m - {victim}| == |m| - 1
    ensures TableOk(m - {victim}, limit, now) && FullOk(full - {victim}, limit, window, now)
    ensures Equivalent(m - {victim}, full - {victim}, now, window)
  {
    assert (m - {victim}).Keys == m.Keys - {victim};
    forall ip
      ensures SameRecent(m - {victim}, full - {victim}, ip, now, window)
      ensures ClientOk(m - {victim}, ip, limit, now) && HistoryOk(full - {victim}, ip, limit, window, now)
    {
      assert SameRecent(m, full, ip, now, window);
      assert ClientOk(m, ip, limit, now) && HistoryOk(full, ip, limit, window, now);
    }
  }

  lemma AcceptedTableOk(m: map<string, seq<Time>>, client: string, limit: nat, now: Time, window: Time)
    requires TableOk(m, limit, now) && |Recent(Times(m, client), now, window)| < limit
    ensures TableOk(m[client := Recent(Times(m, client), now, window) + [now]], limit, now)
  {
    var valid := Recent(Times(m, client), now, window);
    RecentBasics(Times(m, client), now, window);
    assert ClientOk(m, client, limit, now);
    assert forall i :: 0 <= i < |valid| ==> valid[i] in valid && valid[i] <= now;
    var m' := m[client := valid + [now]];
    forall ip ensures ClientOk(m', ip, limit, now) {
      assert ClientOk(m, ip, limit, now);
    }
  }

  lemma AcceptedFullOk(full: map<string, seq<Time>>, client: string, limit: nat, now: Time, window: Time)
    requires limit > 0 && FullOk(full, limit, window, now)
    requires |Recent(Times(full, client), now, window)| < limit
    ensures FullOk(full[client := Times(full, client) + [now]], limit, window, now)
  {
    assert HistoryOk(full, client, limit, window, now);
    AcceptKeepsSpacing(Times(full, client), limit, now, window);
    var full' := full[client := Times(full, client) + [now]];
    forall ip ensures HistoryOk(full', ip, limit, window, now) {
      assert HistoryOk(full, ip, limit, window, now);
    }
  }

  lemma AcceptedEquivalent(m: map<string, seq<Time>>, full: map<string, seq<Time>>, client: string, now: Time,
                           window: Time)
    requires Equivalent(m, full, now, window)
    ensures Equivalent(m[client := Recent(Times(m, client), now, window) + [now]],
                       full[client := Times(full, client) + [now]], now, window)
  {
    var valid := Recent(Times(m, client), now, window);
    var m' := m[client := valid + [now]];
    var full' := full[client := Times(full, client) + [now]];
    forall ip ensures SameRecent(m', full', ip, now, window) {
      assert SameRecent(m, full, ip, now, window);
      if ip == client {
        RecentConcat(valid, [now], now, window);
        PruningIsHarmless(Times(m, client), now, now, window);
        RecentConcat(Times(full, client), [now], now, window);
      }
    }
  }

  /** An accepted request joins both memories. */
  lemma AcceptOk(m: map<string, seq<Time>>, full: map<string, seq<Time>>, client: string, limit: nat, now: Time,
                 window: Time)
    requires limit > 0 && window > 0
    requires TableOk(m, limit, now) && FullOk(full, limit, window, now) && Equivalent(m, full, now, window)
    requires |Recent(Times(m, client), now, window)| < limit
    ensures var m' := m[client := Recent(Times(m, client), now, window) + [now]];
            var full' := full[client := Times(full, client) + [now]];
            TableOk(m', limit, now) && FullOk(full', limit, window, now) && Equivalent(m', full', now, window)
  {
    AcceptedTableOk(m, client, limit, now, window);
    assert SameRecent(m, full, client, now, window);
    AcceptedFullOk(full, client, limit, now, window);
    AcceptedEquivalent(m, full, client, now, window);
  }

  lemma EquivalentLater(m: map<string, seq<Time>>, full: map<string, seq<Time>>, clock: Time, later: Time, window: Time)
    requires Equivalent(m, full, clock, window) && clock <= later
    ensures Equivalent(m, full, later, window)
  {
    forall ip ensures SameRecent(m, full, ip, later, window) {
      assert SameRecent(m, full, ip, clock, window);
      PruningIsHarmless(Times(m, ip), clock, later, window);
      PruningIsHarmless(Times(full, ip), clock, later, window);
    }
  }

  lemma SmallerKeys(a: set<string>, b: set<string>)
    requires a <= b
    ensures |a| <= |b|
  {
    assert |b| == |a| + |b - a| by { assert b == a + (b - a); }
  }

  lemma PrunedStaysOk(m: map<string, seq<Time>>, m': map<string, seq<Time>>, full: map<string, seq<Time>>,
                      limit: nat, now: Time, window: Time)
    requires TableOk(m, limit, now) && Equivalent(m, full, now, window) && PrunedTo(m, m', now, window)
    ensures |m'| <= |m| && TableOk(m', limit, now) && Equivalent(m', full, now, window)
  {
    SmallerKeys(m'.Keys, m.Keys);
    forall ip ensures ClientOk(m', ip, limit, now) {
      if ip in m' {
        assert PrunedAt(m, m', ip, now, window) && ClientOk(m, ip, limit, now);
        RecentBasics(m[ip], now, window);
      }
    }
    forall ip ensures SameRecent(m', full, ip, now, window) {
      assert SameRecent(m, full, ip, now, window);
      if ip in m { assert PrunedAt(m, m', ip, now, window) && ClientOk(m, ip, limit, now); }
      if ip in m' { RecentKeepsLatest(m[ip], now, window); }
      PruningIsHarmless(Times(m, ip), now, now, window);
    }
  }

  /** No client in `ips` made its latest accepted request before `victim` did. */
  ghost predicate LeastRecent(full: map<string, seq<Time>>, ips: set<string>, victim: string) {
    && Times(full, victim) != []
    && forall ip :: ip in ips ==> Times(full, ip) != [] && Latest(Times(full, victim)) <= Latest(Times(full, ip))
  }

  /** What the stored lists say about who is least recent is true of everything ever accepted. */
  lemma LeastStoredIsLeastRecent(m: map<string, seq<Time>>, full: map<string, seq<Time>>, victim: string, limit: nat,
                                 now: Time, window: Time)
    requires TableOk(m, limit, now) && Equivalent(m, full, now, window) && victim in m
    requires forall ip :: ip in m ==> m[victim] != [] && m[ip] != [] && Latest(m[victim]) <= Latest(m[ip])
    ensures LeastRecent(full, m.Keys, victim)
  {
    assert SameRecent(m, full, victim, now, window);
    forall ip | ip in m ensures Times(full, ip) != [] && Latest(Times(full, victim)) <= Latest(Times(full, ip)) {
      assert SameRecent(m, full, ip, now, window);
    }
  }

  method Prune(times: seq<Time>, now: Time, window: Time) returns (valid: seq<Time>)
    ensures valid == Recent(times, now, window)
  {
    valid := [];
    for i := 0 to |times|
      invariant valid == Recent(times[..i], now, window)
    {
      assert times[..i + 1] == times[..i] + [times[i]];
      RecentConcat(times[..i], [times[i]], now, window);
      if now - times[i] <= window {
        valid := valid + [times[i]];
      }
    }
    assert times[..|times|] == times;
  }

  class Limiter {
    var requests: map<string, seq<Time>>
    const limit: nat
    const window: Time
    var cleanupAfter: nat
    /** Every instant accepted from a client since it was last evicted; the reference limiter's memory. */
    ghost var accepted: map<string, seq<Time>>
    ghost var clock: Time

    ghost predicate Valid()
      reads this
    {
      && limit > 0 && window > 0
      && cleanupAfter < CLEANUP_EVERY
      && |requests| <= 10_000
      && TableOk(requests, limit, clock)
      && FullOk(accepted, limit, window, clock)
      && Equivalent(requests, accepted, clock, window)
    }

    /** No closed interval of length `window` holds more than `limit` accepted requests of one client. */
    lemma WindowBound(client: string, a: Time)
      requires Valid()
      ensures |Within(Times(accepted, client), a, a + window)| <= limit
    {
      assert HistoryOk(accepted, client, limit, window, clock);
      IntervalHoldsAtMostLimit(Times(accepted, client), limit, window, a);
    }

    /** The last stored instant of a tracked client is its latest accepted request. */
    lemma StoredLatestIsLatestAccepted(client: string)
      requires Valid() && client in requests
      ensures requests[client] != [] && Times(accepted, client) != []
      ensures Latest(requests[client]) == Latest(Times(accepted, client))
    {
      assert ClientOk(requests, client, limit, clock) && SameRecent(requests, accepted, client, clock, window);
    }

    constructor (limit: nat, window: Time, ghost start: Time)
      requires limit > 0 && window > 0
      ensures Valid() && requests == map[] && accepted == map[] && this.limit == limit && this.window == window
    {
      this.limit := limit;
      this.window := window;
      requests := map[];
      cleanupAfter := 0;
      accepted := map[];
      clock := start;
    }

    method CleanupExpired(now: Time)
      modifies this`requests
      ensures PrunedTo(old(requests), requests, now, window)
    {
      var todo := requests.Keys;
      while todo != {}
        invariant todo <= requests.Keys <= old(requests).Keys
        invariant forall ip :: ip in todo ==> requests[ip] == old(requests)[ip]
        invariant forall ip :: ip in old(requests) && ip !in todo ==> PrunedAt(old(requests), requests, ip, now, window)
        decreases |todo|
      {
        var ip :| ip in todo;
        var valid := Prune(requests[ip], now, window);
        todo := todo - {ip};
        if |valid| == 0 {
          requests := requests - {ip};
        } else {
          requests := requests[ip := valid];
        }
      }
    }

    /** Forget a client whose latest accepted request is the oldest of all. */
    method EvictLeastRecent() returns (victim: string)
      requires requests != map[] && TableOk(requests, limit, clock)
      modifies this`requests
      ensures victim in old(requests) && requests == old(requests) - {victim}
      ensures forall ip :: ip in old(requests) ==>
                && old(requests)[victim] != [] && old(requests)[ip] != []
                && Latest(old(requests)[victim]) <= Latest(old(requests)[ip])
    {
      assert forall ip :: ip in requests ==> ClientOk(requests, ip, limit, clock) && requests[ip] != [];
      var todo := requests.Keys;
      victim :| victim in todo;
      todo := todo - {victim};
      var oldest := Latest(requests[victim]);
      while todo != {}
        invariant todo <= requests.Keys && victim in requests && requests == old(requests)
        invariant oldest == Latest(requests[victim])
        invariant forall ip :: ip in requests && ip !in todo ==> oldest <= Latest(requests[ip])
        decreases |todo|
      {
        var ip :| ip in todo;
        todo := todo - {ip};
        var mostRecent := Latest(requests[ip]);
        if mostRecent < oldest {
          victim, oldest := ip, mostRecent;
        }
      }
      requests := requests - {victim};
    }

    /**
     * One request. The answer is the reference limiter's: accept exactly when fewer than `limit` of
     * the instants ever accepted from this client, since it was last evicted, lie within `window`.
     */
    method Handle(client: string, now: Time) returns (allowed: bool, evicted: Option<string>)
      requires Valid() && clock <= now
      modifies this
      ensures Valid() && clock == now
      ensures allowed <==> |Recent(Times(old(accepted), client), now, window)| < limit
      ensures !allowed ==> evicted.None? && accepted == old(accepted)
      ensures allowed ==>
                accepted == Without(old(accepted), evicted)[client := Times(old(accepted), client) + [now]]
      ensures evicted.Some? ==>
                |old(requests)| == 10_000 && evicted.value != client && evicted.value in old(requests)
      ensures evicted.Some? ==> LeastRecent(old(accepted), requests.Keys - {client}, evicted.value)
    {
      evicted := None;
      Tick(now);
      SmallerKeys(requests.Keys, old(requests).Keys);
      var times := if client in requests then requests[client] else [];
      var valid := Prune(times, now, window);
      assert SameRecent(requests, accepted, client, now, window) && ClientOk(requests, client, limit, now);
      allowed := |valid| < limit;
      if !allowed {
        StorePrunedOk(requests, accepted, client, limit, now, window);
        requests := requests[client := valid];
        return;
      }
      if |times| == 0 && |requests| >= MAX_TRACKED_CLIENTS {
        evicted := MakeRoom(client, now);
        assert Times(accepted, client) == Times(old(accepted), client);
      }
      AcceptOk(requests, accepted, client, limit, now, window);
      requests := requests[client := valid + [now]];
      accepted := accepted[client := Times(accepted, client) + [now]];
    }

    /** Count the request; every so often prune every list. */
    method Tick(now: Time)
      requires Valid() && clock <= now
      modifies this`requests, this`cleanupAfter, this`clock
      ensures Valid() && clock == now && requests.Keys <= old(requests).Keys
    {
      TableOkLater(requests, accepted, limit, window, clock, now);
      clock := now;
      cleanupAfter := cleanupAfter + 1;
      if cleanupAfter >= CLEANUP_EVERY {
        CleanupExpired(now);
        PrunedStaysOk(old(requests), requests, accepted, limit, now, window);
        cleanupAfter := 0;
      }
    }

    /** A new client at capacity: prune everything, and if that is not enough, evict. */
    method MakeRoom(client: string, now: Time) returns (evicted: Option<string>)
      requires |requests| <= MAX_TRACKED_CLIENTS && client !in requests && clock == now
      requires TableOk(requests, limit, now) && FullOk(accepted, limit, window, now)
      requires Equivalent(requests, accepted, now, window)
      modifies this`requests, this`accepted
      ensures |requests| < MAX_TRACKED_CLIENTS && client !in requests
      ensures TableOk(requests, limit, now) && FullOk(accepted, limit, window, now)
      ensures Equivalent(requests, accepted, now, window)
      ensures evicted.Some? ==>
                evicted.value in old(requests) && LeastRecent(old(accepted), requests.Keys, evicted.value)
      ensures accepted == Without(old(accepted), evicted)
    {
      evicted := None;
      CleanupExpired(now);
      PrunedStaysOk(old(requests), requests, accepted, limit, now, window);
      if |requests| >= MAX_TRACKED_CLIENTS {
        ghost var before := requests;
        var victim := EvictLeastRecent();
        LeastStoredIsLeastRecent(before, accepted, victim, limit, now, window);
        EvictOk(before, accepted, victim, limit, now, window);
        accepted := accepted - {victim};
        evicted := Some(victim);
      }
    }
  }
}
