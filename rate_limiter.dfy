/**
 * The mock external service's sliding-window rate limiter: a list of request
 * timestamps, pruned to the last 60 seconds on every call, and a per-minute
 * limit. Timestamps are whole seconds.
 */
module RateLimiter {

  const Window := 60

  /** `[ts for ts in timestamps if ts > cutoff]`. */
  function Prune(ts: seq<int>, cutoff: int): (r: seq<int>)
    ensures |r| <= |ts|
    ensures forall i :: 0 <= i < |r| ==> r[i] > cutoff
    decreases |ts|
  {
    if |ts| == 0 then []
    else if ts[|ts| - 1] > cutoff then Prune(ts[..|ts| - 1], cutoff) + [ts[|ts| - 1]]
    else Prune(ts[..|ts| - 1], cutoff)
  }

  /** Pruning keeps exactly the timestamps newer than the cutoff. */
  lemma {:induction false} PruneMembers(ts: seq<int>, cutoff: int, x: int)
    ensures x in Prune(ts, cutoff) <==> x in ts && x > cutoff
    decreases |ts|
  {
    if |ts| > 0 {
      PruneMembers(ts[..|ts| - 1], cutoff, x);
      assert ts == ts[..|ts| - 1] + [ts[|ts| - 1]];
    }
  }

  /** Pruning keeps the original order: it distributes over concatenation. */
  lemma {:induction false} PruneDistributes(a: seq<int>, b: seq<int>, cutoff: int)
    ensures Prune(a + b, cutoff) == Prune(a, cutoff) + Prune(b, cutoff)
    decreases |b|
  {
    if |b| == 0 {
      assert a + b == a;
    } else {
      var b' := b[..|b| - 1];
      assert (a + b)[..|a + b| - 1] == a + b';
      PruneDistributes(a, b', cutoff);
    }
  }

  /** Pruning with the same cutoff twice is pruning once. */
  lemma {:induction false} PruneIdempotent(ts: seq<int>, cutoff: int)
    ensures Prune(Prune(ts, cutoff), cutoff) == Prune(ts, cutoff)
    decreases |ts|
  {
    if |ts| > 0 {
      var init := ts[..|ts| - 1];
      PruneIdempotent(init, cutoff);
      if ts[|ts| - 1] > cutoff {
        PruneDistributes(Prune(init, cutoff), [ts[|ts| - 1]], cutoff);
        assert Prune([ts[|ts| - 1]], cutoff) == [ts[|ts| - 1]] by {
          assert [ts[|ts| - 1]][..0] == [];
        }
      }
    }
  }

  class Limiter {
    /** `SIMULATE_RATE_LIMIT_ENABLED`. */
    const enabled: bool
    /** `RATE_LIMIT_PER_MINUTE`. */
    const limit: int
    /** `request_timestamps`. */
    var timestamps: seq<int>

    constructor(enabled: bool, limit: int)
      ensures this.enabled == enabled && this.limit == limit && timestamps == []
    {
      this.enabled := enabled;
      this.limit := limit;
      timestamps := [];
    }

    /** `check_rate_limit` at time `now`. */
    method CheckRateLimit(now: int) returns (allowed: bool)
      modifies this
      ensures !enabled ==> allowed && timestamps == old(timestamps)
      ensures enabled ==> (allowed <==> |Prune(old(timestamps), now - Window)| < limit)
      ensures enabled && allowed ==> timestamps == Prune(old(timestamps), now - Window) + [now]
      ensures enabled && !allowed ==> timestamps == Prune(old(timestamps), now - Window)
      ensures |old(timestamps)| <= limit ==> |timestamps| <= limit
    {
      if !enabled {
        return true;
      }
      var cutoff := now - Window;
      timestamps := Prune(timestamps, cutoff);
      if |timestamps| >= limit {
        return false;
      }
      timestamps := timestamps + [now];
      allowed := true;
    }
  }

  /** Oldest first. */
  predicate Ascending(s: seq<int>) {
    forall i, j :: 0 <= i < j < |s| ==> s[i] <= s[j]
  }

  /** The window `check_rate_limit` leaves when enabled. */
  function NextWindow(ts: seq<int>, now: int, limit: int): seq<int> {
    var p := Prune(ts, now - Window);
    if |p| >= limit then p else p + [now]
  }

  /**
   * With a clock that does not run backwards, the window only ever holds
   * timestamps of the last 60 seconds, oldest first, and never more than
   * the limit once it starts within it.
   */
  lemma WindowStaysRecentAndBounded(ts: seq<int>, now: int, limit: int)
    requires forall i :: 0 <= i < |ts| ==> ts[i] <= now
    requires Ascending(ts)
    ensures forall i :: 0 <= i < |NextWindow(ts, now, limit)| ==>
      now - Window < NextWindow(ts, now, limit)[i] <= now
    ensures Ascending(NextWindow(ts, now, limit))
    ensures |ts| <= limit ==> |NextWindow(ts, now, limit)| <= limit
  {
    var p := Prune(ts, now - Window);
    PruneSorted(ts, now - Window);
    assert forall i :: 0 <= i < |p| ==> p[i] <= now by {
      forall i | 0 <= i < |p| ensures p[i] <= now {
        assert p[i] in ts;
      }
    }
    if |p| < limit {
      var w := p + [now];
      forall i, j | 0 <= i < j < |w| ensures w[i] <= w[j] {
        if j < |p| {
          assert w[i] == p[i] && w[j] == p[j];
        }
      }
    }
  }

  /** Pruned timestamps are sorted when the input is. */
  lemma {:induction false} PruneSorted(ts: seq<int>, cutoff: int)
    requires Ascending(ts)
    ensures Ascending(Prune(ts, cutoff))
    ensures forall x :: x in Prune(ts, cutoff) ==> x in ts
    decreases |ts|
  {
    if |ts| > 0 {
      var init := ts[..|ts| - 1];
      PruneSorted(init, cutoff);
      var last := ts[|ts| - 1];
      assert ts == init + [last];
      if last > cutoff {
        var q := Prune(init, cutoff);
        forall i | 0 <= i < |q| ensures q[i] <= last {
          assert q[i] in init;
          var k :| 0 <= k < |init| && init[k] == q[i];
          assert ts[k] <= ts[|ts| - 1];
        }
        var p := q + [last];
        assert Prune(ts, cutoff) == p;
        forall i, j | 0 <= i < j < |p| ensures p[i] <= p[j] {
          if j < |q| {
            assert p[i] == q[i] && p[j] == q[j];
          } else {
            assert p[i] == q[i] && p[j] == last;
          }
        }
      }
    }
  }

  /** Pruning at a later cutoff absorbs an earlier pruning. */
  lemma {:induction false} PruneLaterCutoff(ts: seq<int>, c1: int, c2: int)
    requires c1 <= c2
    ensures Prune(Prune(ts, c1), c2) == Prune(ts, c2)
    decreases |ts|
  {
    if |ts| > 0 {
      var init := ts[..|ts| - 1];
      var last := ts[|ts| - 1];
      PruneLaterCutoff(init, c1, c2);
      if last > c1 {
        PruneDistributes(Prune(init, c1), [last], c2);
        assert [last][..0] == [];
      }
    }
  }

  /** The enabled limiter's window and the requests it let through, after a series of calls. */
  datatype History = History(window: seq<int>, accepted: seq<int>)

  /** One enabled call at time `now`. */
  function Step(h: History, now: int, limit: int): (r: History)
    ensures r.window == NextWindow(h.window, now, limit)
  {
    var p := Prune(h.window, now - Window);
    if |p| >= limit then History(p, h.accepted)
    else History(p + [now], h.accepted + [now])
  }

  /** The calls at `times`, in order, from history `h`. */
  function Replay(h: History, limit: int, times: seq<int>): History
    decreases |times|
  {
    if |times| == 0 then h else Replay(Step(h, times[0], limit), limit, times[1..])
  }

  /** A call keeps the window equal to the accepted requests of the last 60 seconds. */
  lemma StepKeepsRecentAccepted(h: History, before: int, now: int, limit: int)
    requires before <= now
    requires h.window == Prune(h.accepted, before - Window)
    requires limit >= 0 ==> |h.window| <= limit
    ensures Step(h, now, limit).window == Prune(Step(h, now, limit).accepted, now - Window)
    ensures limit >= 0 ==> |Step(h, now, limit).window| <= limit
  {
    var p := Prune(h.window, now - Window);
    PruneLaterCutoff(h.accepted, before - Window, now - Window);
    if |p| < limit {
      PruneDistributes(h.accepted, [now], now - Window);
      assert [now][..0] == [];
    }
  }

  /** From a history that keeps the invariant at time `before`, every later series of calls keeps it. */
  lemma {:induction false} ReplayKeepsRecentAccepted(h: History, before: int, limit: int, times: seq<int>)
    requires h.window == Prune(h.accepted, before - Window)
    requires limit >= 0 ==> |h.window| <= limit
    requires Ascending(times) && (|times| > 0 ==> before <= times[0])
    ensures var last := if |times| == 0 then before else times[|times| - 1];
      var r := Replay(h, limit, times);
      r.window == Prune(r.accepted, last - Window) && (limit >= 0 ==> |r.window| <= limit)
    decreases |times|
  {
    if |times| > 0 {
      var now := times[0];
      var rest := times[1..];
      var h' := Step(h, now, limit);
      StepKeepsRecentAccepted(h, before, now, limit);
      assert Ascending(rest) && (|rest| > 0 ==> now <= rest[0] && rest[|rest| - 1] == times[|times| - 1]) by {
        AscendingSuffix(times);
      }
      ReplayKeepsRecentAccepted(h', now, limit, rest);
    }
  }

  /**
   * With a clock that does not run backwards, the window after each call is
   * exactly the accepted requests of the last 60 seconds, so no 60-second
   * window ending at a call ever holds more accepted requests than the limit.
   */
  lemma ReplayWindowIsRecentAccepted(limit: int, times: seq<int>)
    requires |times| > 0
    requires Ascending(times)
    ensures var r := Replay(History([], []), limit, times);
      r.window == Prune(r.accepted, times[|times| - 1] - Window)
      && (limit >= 0 ==> |Prune(r.accepted, times[|times| - 1] - Window)| <= limit)
  {
    ReplayKeepsRecentAccepted(History([], []), times[0], limit, times);
  }

  lemma AscendingSuffix(times: seq<int>)
    requires |times| > 0 && Ascending(times)
    ensures Ascending(times[1..])
    ensures |times| > 1 ==> times[0] <= times[1..][0] && times[1..][|times| - 2] == times[|times| - 1]
  {
    var rest := times[1..];
    forall i, j | 0 <= i < j < |rest| ensures rest[i] <= rest[j] {
      assert rest[i] == times[i + 1] && rest[j] == times[j + 1];
    }
  }
}
