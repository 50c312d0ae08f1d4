/**
 * The fixed-window rate limiter of the agent endpoint (`rate_limit` in mpc-server/app.py).
 * Redis is replaced by a map from client key to a counter with an absolute expiry
 * time; time is whole seconds, and a counter whose expiry has passed reads as absent,
 * as Redis `GET` does once a key's TTL has elapsed.
 */
module RateLimit {

  /** `setex(key, 60, 1)`: a window lasts sixty seconds from its first request. */
  const WindowSeconds: int := 60

  datatype Counter = Counter(count: int, expiry: int)

  type Store = map<string, Counter>

  /** Admitted: the wrapped view runs. Denied: 429 "Rate limit exceeded". */
  datatype Decision = Admitted | Denied

  datatype Step = Step(decision: Decision, store: Store)

  /** The counter for `key` has not expired at `now`. */
  predicate Live(s: Store, key: string, now: int)
  {
    key in s && now < s[key].expiry
  }

  function Max(a: int, b: int): int { if a < b then b else a }
  function Min(a: int, b: int): int { if a < b then a else b }

  /** Every stored count lies between 1 and the larger of 1 and the limit. */
  ghost predicate Bounded(s: Store, limit: int)
  {
    forall k :: k in s ==> 1 <= s[k].count <= Max(1, limit)
  }

  /**
   * One request from `key` at time `now`: a missing or expired counter is restarted
   * at 1 for a fresh window; a count at or above `limit` is refused and left as it
   * is; any other count goes up by one. No other key's counter changes.
   */
  function Admit(s: Store, key: string, now: int, limit: int): (r: Step)
    ensures forall k :: k != key ==> (k in r.store <==> k in s)
    ensures forall k :: k != key && k in s ==> r.store[k] == s[k]
    ensures !Live(s, key, now) ==>
      r.decision == Admitted && key in r.store && r.store[key] == Counter(1, now + WindowSeconds)
    ensures r.decision == Denied <==> Live(s, key, now) && s[key].count >= limit
    ensures r.decision == Denied ==> r.store == s
    ensures Live(s, key, now) && r.decision == Admitted ==>
      key in r.store && r.store[key] == Counter(s[key].count + 1, s[key].expiry)
    ensures Bounded(s, limit) ==> Bounded(r.store, limit)
    ensures r.decision == Admitted ==> key in r.store
  {
    if !Live(s, key, now) then
      Step(Admitted, s[key := Counter(1, now + WindowSeconds)])
    else if s[key].count >= limit then
      Step(Denied, s)
    else
      Step(Admitted, s[key := Counter(s[key].count + 1, s[key].expiry)])
  }

  /** The decisions for a run of requests from one key, and the store they leave. */
  function Replay(s: Store, key: string, times: seq<int>, limit: int): (r: (Store, seq<Decision>))
    ensures |r.1| == |times|
    decreases |times|
  {
    if times == [] then (s, [])
    else
      var first := Admit(s, key, times[0], limit);
      var rest := Replay(first.store, key, times[1..], limit);
      (rest.0, [first.decision] + rest.1)
  }

  function AdmittedCount(ds: seq<Decision>): nat
  {
    if ds == [] then 0 else (if ds[0] == Admitted then 1 else 0) + AdmittedCount(ds[1..])
  }

  /**
   * Inside a live window that already holds `c` admissions, the i-th further request is
   * admitted exactly when c + i is still below the limit; the expiry never moves.
   */
  lemma {:induction false} ReplayInLiveWindow(s: Store, key: string, times: seq<int>, limit: int)
    requires key in s && 1 <= s[key].count
    requires forall i :: 0 <= i < |times| ==> times[i] < s[key].expiry
    ensures var r := Replay(s, key, times, limit);
      && (forall i :: 0 <= i < |times| ==> (r.1[i] == Admitted <==> s[key].count + i < limit))
      && AdmittedCount(r.1) == Min(|times|, Max(0, limit - s[key].count))
      && key in r.0 && r.0[key].expiry == s[key].expiry
      && r.0[key].count == s[key].count + AdmittedCount(r.1)
  {
    if times != [] {
      var first := Admit(s, key, times[0], limit);
      var c := s[key].count;
      assert Live(s, key, times[0]);
      ReplayInLiveWindow(first.store, key, times[1..], limit);
      var rest := Replay(first.store, key, times[1..], limit);
      var r := Replay(s, key, times, limit);
      assert r.1 == [first.decision] + rest.1;
      assert r.1[1..] == rest.1;
      if c < limit {
        assert first.store[key].count == c + 1;
        forall i | 0 <= i < |times| ensures r.1[i] == Admitted <==> c + i < limit {
          if i > 0 { assert r.1[i] == rest.1[i - 1]; }
        }
      } else {
        assert first.store == s;
        forall i | 0 <= i < |times| ensures r.1[i] == Admitted <==> c + i < limit {
          if i > 0 { assert r.1[i] == rest.1[i - 1]; }
        }
      }
    }
  }

  /**
   * A burst of n requests from one key, all inside the sixty seconds after the first
   * of them found no live counter: exactly the first max(1, limit) are admitted and the
   * rest are denied, so with limit >= 1 at most `limit` requests pass per window.
   */
  lemma WindowAdmitsAtMostLimit(s: Store, key: string, times: seq<int>, limit: int)
    requires times != [] && !Live(s, key, times[0])
    requires forall i :: 0 <= i < |times| ==> times[i] < times[0] + WindowSeconds
    ensures var r := Replay(s, key, times, limit);
      && (forall i :: 0 <= i < |times| ==> (r.1[i] == Admitted <==> i < Max(1, limit)))
      && AdmittedCount(r.1) == Min(|times|, Max(1, limit))
  {
    var first := Admit(s, key, times[0], limit);
    ReplayInLiveWindow(first.store, key, times[1..], limit);
    var rest := Replay(first.store, key, times[1..], limit);
    var r := Replay(s, key, times, limit);
    assert r.1 == [Admitted] + rest.1;
    assert r.1[1..] == rest.1;
    forall i | 0 <= i < |times| ensures r.1[i] == Admitted <==> i < Max(1, limit) {
      if i > 0 { assert r.1[i] == rest.1[i - 1]; }
    }
  }

  /**
   * The limiter of one process. `connected` is false when no Redis client could be
   * created; every request is then let through and nothing is recorded.
   */
  class RateLimiter {
    const connected: bool
    /** `config.RATE_LIMIT_PER_MINUTE`. */
    const limit: int
    var store: Store

    ghost predicate Valid()
      reads this
    {
      Bounded(store, limit)
    }

    constructor (connected: bool, limit: int)
      ensures Valid()
      ensures this.connected == connected && this.limit == limit && store == map[]
    {
      this.connected := connected;
      this.limit := limit;
      store := map[];
    }

    /** Admission check for one request whose key function returned `key`. */
    method Check(key: string, now: int) returns (d: Decision)
      requires Valid()
      modifies this
      ensures Valid()
      ensures !connected ==> d == Admitted && store == old(store)
      ensures connected ==> Step(d, store) == Admit(old(store), key, now, limit)
    {
      if !connected {
        return Admitted;
      }
      if !(key in store && now < store[key].expiry) {
        store := store[key := Counter(1, now + WindowSeconds)];
        d := Admitted;
      } else if store[key].count >= limit {
        d := Denied;
      } else {
        store := store[key := Counter(store[key].count + 1, store[key].expiry)];
        d := Admitted;
      }
    }
  }
}
