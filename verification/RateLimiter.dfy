/** The sliding-window limiter (server/app/auth.py). */
module RateLimiter {
  import opened Common

  /** The stamps still inside the window that ends now. */
  function Recent(stamps: seq<real>, now: real, window: real): (r: seq<real>)
    ensures |r| <= |stamps|
  {
    if stamps == [] then []
    else
      var last := stamps[|stamps| - 1];
      Recent(stamps[..|stamps| - 1], now, window) + if now - last < window then [last] else []
  }

  class SlidingWindowLimiter {
    var events: map<string, seq<real>>

    constructor ()
      ensures events == map[]
    {
      events := map[];
    }

    function Hits(key: string): seq<real>
      reads this
    {
      if key in events then events[key] else []
    }

    /** `allow`: prunes the key's list, then answers and records. */
    method Allow(key: string, limit: nat, window: real, now: real) returns (allowed: bool)
      modifies this
      ensures allowed == (|Recent(old(Hits(key)), now, window)| < limit)
      ensures Hits(key) == Recent(old(Hits(key)), now, window) + if allowed then [now] else []
      ensures forall k :: k != key ==> Hits(k) == old(Hits(k))
    {
      var stamps := Hits(key);
      var hits: seq<real> := [];
      for i := 0 to |stamps|
        invariant hits == Recent(stamps[..i], now, window)
      {
        assert stamps[..i + 1][..i] == stamps[..i] && stamps[..i + 1][i] == stamps[i];
        if now - stamps[i] < window {
          hits := hits + [stamps[i]];
        }
      }
      assert stamps[..|stamps|] == stamps;
      if |hits| >= limit {
        events := events[key := hits];
        return false;
      }
      hits := hits + [now];
      events := events[key := hits];
      allowed := true;
    }
  }

  // ------------------------------------------------------------ every run of one key

  /** The pruned list the limiter keeps, and all accepted stamps ever. */
  datatype Run = Run(hits: seq<real>, accepted: seq<real>)

  predicate Allows(run: Run, limit: nat, window: real, now: real) {
    |Recent(run.hits, now, window)| < limit
  }

  function Next(run: Run, limit: nat, window: real, now: real): Run {
    var recent := Recent(run.hits, now, window);
    if Allows(run, limit, window, now) then Run(recent + [now], run.accepted + [now]) else run.(hits := recent)
  }

  function After(calls: seq<real>, limit: nat, window: real): Run {
    if calls == [] then Run([], [])
    else Next(After(calls[..|calls| - 1], limit, window), limit, window, calls[|calls| - 1])
  }

  predicate ClockRuns(calls: seq<real>) {
    forall i, j :: 0 <= i < j < |calls| ==> calls[i] <= calls[j]
  }

  lemma RecentAppend(stamps: seq<real>, x: real, now: real, window: real)
    ensures Recent(stamps + [x], now, window) == Recent(stamps, now, window) + if now - x < window then [x] else []
  {
    assert (stamps + [x])[..|stamps|] == stamps;
  }

  /** Pruning at an earlier time changes nothing later. */
  lemma {:induction false} PruneTwice(stamps: seq<real>, earlier: real, now: real, window: real)
    requires earlier <= now
    ensures Recent(Recent(stamps, earlier, window), now, window) == Recent(stamps, now, window)
  {
    if stamps == [] {
      assert Recent(stamps, earlier, window) == [];
    } else {
      var front, last := stamps[..|stamps| - 1], stamps[|stamps| - 1];
      assert stamps == front + [last];
      PruneTwice(front, earlier, now, window);
      RecentAppend(front, last, earlier, window);
      RecentAppend(front, last, now, window);
      RecentAppend(Recent(front, earlier, window), last, now, window);
      hide Recent;
      if earlier - last < window {
        assert Recent(stamps, earlier, window) == Recent(front, earlier, window) + [last];
      } else {
        assert Recent(stamps, earlier, window) == Recent(front, earlier, window);
        assert now - last >= window;
      }
    }
  }

  /** From the last call on, the pruned list and the full history agree on what is recent. */
  lemma {:induction false} PrunedIsEnough(calls: seq<real>, limit: nat, window: real, now: real)
    requires ClockRuns(calls) && (calls != [] ==> calls[|calls| - 1] <= now)
    ensures var run := After(calls, limit, window);
      Recent(run.hits, now, window) == Recent(run.accepted, now, window)
  {
    if calls != [] {
      var front, last := calls[..|calls| - 1], calls[|calls| - 1];
      var before := After(front, limit, window);
      PrunedIsEnough(front, limit, window, last);
      PrunedIsEnough(front, limit, window, now);
      PruneTwice(before.hits, last, now, window);
      RecentAppend(Recent(before.hits, last, window), last, now, window);
      RecentAppend(before.accepted, last, now, window);
    }
  }

  /** The limiter decides exactly as if it had kept every accepted call. */
  lemma DecidesAsFullHistory(calls: seq<real>, limit: nat, window: real, now: real)
    requires ClockRuns(calls) && (calls != [] ==> calls[|calls| - 1] <= now)
    ensures var run := After(calls, limit, window);
      Allows(run, limit, window, now) <==> |Recent(run.accepted, now, window)| < limit
  {
    PrunedIsEnough(calls, limit, window, now);
  }

  /** How many stamps fall into [from, from + window). */
  function CountFrom(stamps: seq<real>, from: real, window: real): (n: nat) {
    if stamps == [] then 0
    else
      var last := stamps[|stamps| - 1];
      CountFrom(stamps[..|stamps| - 1], from, window) + if from <= last < from + window then 1 else 0
  }

  /** A stamp inside the window has every stamp of the window among its recent ones. */
  lemma {:induction false} WindowIsRecent(stamps: seq<real>, from: real, window: real, now: real)
    requires now < from + window
    ensures CountFrom(stamps, from, window) <= |Recent(stamps, now, window)|
  {
    if stamps != [] {
      WindowIsRecent(stamps[..|stamps| - 1], from, window, now);
    }
  }

  /** Every half-open window of this length holds at most `limit` accepted calls. */
  lemma {:induction false} NoWindowIsOverfull(calls: seq<real>, limit: nat, window: real, from: real)
    requires ClockRuns(calls)
    ensures CountFrom(After(calls, limit, window).accepted, from, window) <= limit
  {
    if calls != [] {
      var front, now := calls[..|calls| - 1], calls[|calls| - 1];
      NoWindowIsOverfull(front, limit, window, from);
      var before := After(front, limit, window);
      DecidesAsFullHistory(front, limit, window, now);
      if now < from + window {
        WindowIsRecent(before.accepted, from, window, now);
      }
      assert (before.accepted + [now])[..|before.accepted|] == before.accepted;
    }
  }
}
