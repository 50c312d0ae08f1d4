/**
 * The live-monitoring buffer of mpc-server/dashboard.py: `broadcast_event` appends to the
 * module-level `recent_events` list and drops the oldest entry once it holds more than
 * 1000, and a connecting client is sent the statistics record and the last 50 events.
 * Timestamps (`datetime.utcnow().isoformat()`) are passed in; the SocketIO pushes and
 * the background statistics thread are not part of this model.
 */
module Dashboard {
  import Json

  const MaxEvents: nat := 1000

  /** `recent_events[-50:]`. */
  const SnapshotSize: nat := 50

  datatype Event = Event(timestamp: string, eventType: string, data: Json.Value)

  datatype SystemStats = SystemStats(
    totalRequests: int,
    activeAgents: int,
    avgResponseTime: real,
    cacheHitRate: real,
    errorRate: real)

  const InitialStats: SystemStats := SystemStats(0, 3, 0.0, 0.0, 0.0)

  /** Python's `s[-n:]` for n >= 0 (the whole list when it is shorter than n). */
  function Last<T>(s: seq<T>, n: nat): seq<T>
  {
    if |s| <= n then s else s[|s| - n..]
  }

  /**
   * Appending to a window of the last n elements and then dropping the oldest when it
   * has grown past n gives the last n elements of the longer history.
   */
  lemma {:induction false} LastAppend<T>(s: seq<T>, x: T, n: nat)
    requires n > 0
    ensures var w := Last(s, n) + [x];
      Last(s + [x], n) == (if |w| > n then w[1..] else w)
  {
    var w := Last(s, n) + [x];
    if |s| < n {
      assert Last(s, n) == s;
    } else {
      assert Last(s, n) == s[|s| - n..];
      assert (s + [x])[|s| + 1 - n..] == s[|s| - n..][1..] + [x];
    }
  }

  /** A snapshot of the buffer is the same as a snapshot of the whole history. */
  lemma {:induction false} LastOfLast<T>(s: seq<T>, m: nat, n: nat)
    requires m <= n
    ensures Last(Last(s, n), m) == Last(s, m)
  {
    if |s| > n {
      assert |Last(s, n)| == n;
      assert Last(s, n)[n - m..] == s[|s| - m..];
    }
  }

  class EventBoard {
    var recentEvents: seq<Event>
    var systemStats: SystemStats
    /** Every event ever broadcast, oldest first. */
    ghost var history: seq<Event>

    ghost predicate Valid()
      reads this
    {
      recentEvents == Last(history, MaxEvents)
    }

    constructor ()
      ensures Valid()
      ensures recentEvents == [] && history == [] && systemStats == InitialStats
    {
      recentEvents := [];
      systemStats := InitialStats;
      history := [];
    }

    /**
     * `broadcast_event`: the new event goes last; when the list then holds more than 1000
     * events exactly the oldest one is removed. The buffer stays the latest (at most)
     * 1000 events of the history, in arrival order.
     */
    method BroadcastEvent(eventType: string, data: Json.Value, timestamp: string)
      requires Valid()
      modifies this
      ensures Valid()
      ensures history == old(history) + [Event(timestamp, eventType, data)]
      ensures |recentEvents| <= MaxEvents
      ensures recentEvents[|recentEvents| - 1] == Event(timestamp, eventType, data)
      ensures |old(recentEvents)| < MaxEvents ==>
        recentEvents == old(recentEvents) + [Event(timestamp, eventType, data)]
      ensures |old(recentEvents)| == MaxEvents ==>
        recentEvents == old(recentEvents)[1..] + [Event(timestamp, eventType, data)]
      ensures systemStats == old(systemStats)
    {
      var event := Event(timestamp, eventType, data);
      LastAppend(history, event, MaxEvents);
      recentEvents := recentEvents + [event];
      if |recentEvents| > MaxEvents {
        recentEvents := recentEvents[1..];
      }
      history := history + [event];
    }

    /**
     * `handle_connect`: the statistics record as it stands and the last (at most) 50
     * events in arrival order, which are also the last 50 of the whole history.
     */
    method HandleConnect() returns (stats: SystemStats, events: seq<Event>)
      requires Valid()
      ensures stats == systemStats
      ensures |events| == if |recentEvents| < SnapshotSize then |recentEvents| else SnapshotSize
      ensures events == recentEvents[|recentEvents| - |events|..]
      ensures events == Last(history, SnapshotSize)
    {
      LastOfLast(history, SnapshotSize, MaxEvents);
      stats := systemStats;
      events := Last(recentEvents, SnapshotSize);
    }
  }
}
