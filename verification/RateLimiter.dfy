/** The sliding-window limiter: at most `limit` admissions per key in any stretch shorter than the
    window. */
module RateLimiter {

  type Time = real

  function Count(log: seq<Time>, during: Time -> bool): nat {
    if log == [] then 0 else Count(log[..|log| - 1], during) + if during(log[|log| - 1]) then 1 else 0
  }

  /** Counting counts places. */
  lemma {:induction false} CountIs(log: seq<Time>, during: Time -> bool)
    ensures Count(log, during) == |set i | 0 <= i < |log| && during(log[i])|
  {
    if log != [] {
      var n := |log| - 1;
      CountIs(log[..n], during);
      var before := set i | 0 <= i < n && during(log[..n][i]);
      assert (set i | 0 <= i < |log| && during(log[i])) == if during(log[n]) then before + {n} else before;
    }
  }

  ghost predicate Sorted(log: seq<Time>) {
    forall i, j | 0 <= i < j < |log| :: log[i] <= log[j]
  }

  /** The window that ends at `now`: later than `now - window`, up to and including `now`. */
  function Window(now: Time, window: Time): Time -> bool {
    t => now - window < t <= now
  }

  /** Every admission found fewer than `limit` earlier ones in the window that ended with it. */
  ghost predicate Lawful(log: seq<Time>, window: Time, limit: int) {
    forall i | 0 <= i < |log| :: Count(log[..i], Window(log[i], window)) < limit
  }

  lemma {:induction false} CountWithin(log: seq<Time>, p: Time -> bool, q: Time -> bool)
    requires forall i | 0 <= i < |log| && p(log[i]) :: q(log[i])
    ensures Count(log, p) <= Count(log, q)
  {
    if log != [] {
      CountWithin(log[..|log| - 1], p, q);
    }
  }

  lemma {:induction false} CountSplit(log: seq<Time>, cut: nat, p: Time -> bool)
    requires cut <= |log|
    requires (forall i | 0 <= i < cut :: !p(log[i])) && forall i | cut <= i < |log| :: p(log[i])
    ensures Count(log, p) == |log| - cut
  {
    if log != [] {
      CountSplit(log[..|log| - 1], if cut == |log| then cut - 1 else cut, p);
    }
  }

  /** However a stretch of time is chosen, if its moments are less than a window apart it holds at most
      `limit` admissions. */
  lemma {:induction false} AtMostLimit(log: seq<Time>, window: Time, limit: int, during: Time -> bool)
    requires Sorted(log) && Lawful(log, window, limit) && limit >= 0
    requires forall s, t | during(s) && during(t) :: t - s < window
    ensures Count(log, during) <= limit
  {
    if log != [] {
      var front, last := log[..|log| - 1], log[|log| - 1];
      forall i | 0 <= i < |front| ensures Count(front[..i], Window(front[i], window)) < limit {
        assert front[..i] == log[..i];
      }
      AtMostLimit(front, window, limit, during);
      if during(last) {
        CountWithin(front, during, Window(last, window));
      }
    }
  }

  /** In particular every half-open interval of the window's length, open at either end. */
  lemma HalfOpenWindows(log: seq<Time>, window: Time, limit: int, start: Time)
    requires Sorted(log) && Lawful(log, window, limit) && limit >= 0
    ensures Count(log, t => start < t <= start + window) <= limit
    ensures Count(log, t => start <= t < start + window) <= limit
    ensures |set i | 0 <= i < |log| && start < log[i] <= start + window| <= limit
    ensures |set i | 0 <= i < |log| && start <= log[i] < start + window| <= limit
  {
    CountIs(log, t => start < t <= start + window);
    CountIs(log, t => start <= t < start + window);
    assert (set i | 0 <= i < |log| && start < log[i] <= start + window)
        == set i | 0 <= i < |log| && (t => start < t <= start + window)(log[i]);
    assert (set i | 0 <= i < |log| && start <= log[i] < start + window)
        == set i | 0 <= i < |log| && (t => start <= t < start + window)(log[i]);
    AtMostLimit(log, window, limit, t => start < t <= start + window);
    AtMostLimit(log, window, limit, t => start <= t < start + window);
  }

  /** The queue is the log without its first entries, all of them no later than `horizon`. */
  ghost predicate Remembers(queue: seq<Time>, log: seq<Time>, horizon: Time) {
    exists cut :: IsCut(queue, log, horizon, cut)
  }

  ghost predicate IsCut(queue: seq<Time>, log: seq<Time>, horizon: Time, cut: nat) {
    cut <= |log| && queue == log[cut..] && forall i | 0 <= i < cut :: log[i] <= horizon
  }

  /** Dropping what has left the window counts what is in it. */
  method Prune(attempts: seq<Time>, now: Time, window: Time, ghost log: seq<Time>) returns (queue: seq<Time>)
    requires Sorted(log) && Remembers(attempts, log, now - window) && forall i | 0 <= i < |log| :: log[i] <= now
    ensures Remembers(queue, log, now - window) && |queue| == Count(log, Window(now, window))
  {
    queue := attempts;
    ghost var cut: nat :| IsCut(queue, log, now - window, cut);
    while queue != [] && queue[0] <= now - window
      invariant IsCut(queue, log, now - window, cut)
      decreases |queue|
    {
      assert queue[0] == log[cut];
      queue := queue[1..];
      cut := cut + 1;
    }
    assert queue != [] ==> queue[0] == log[cut];
    CountSplit(log, cut, Window(now, window));
  }

  lemma RemembersMore(queue: seq<Time>, log: seq<Time>, now: Time, horizon: Time)
    requires Remembers(queue, log, horizon)
    ensures Remembers(queue + [now], log + [now], horizon)
  {
    var cut :| IsCut(queue, log, horizon, cut);
    assert IsCut(queue + [now], log + [now], horizon, cut);
  }

  lemma RemembersLater(queue: seq<Time>, log: seq<Time>, earlier: Time, later: Time)
    requires Remembers(queue, log, earlier) && earlier <= later
    ensures Remembers(queue, log, later)
  {
    var cut :| IsCut(queue, log, earlier, cut);
    assert IsCut(queue, log, later, cut);
  }

  lemma AdmitLawful(log: seq<Time>, now: Time, window: Time, limit: int)
    requires Sorted(log) && Lawful(log, window, limit) && forall i | 0 <= i < |log| :: log[i] <= now
    requires Count(log, Window(now, window)) < limit
    ensures Sorted(log + [now]) && Lawful(log + [now], window, limit)
  {
    var more := log + [now];
    forall i | 0 <= i < |more| ensures Count(more[..i], Window(more[i], window)) < limit {
      assert more[..i] == log[..i];
      assert log[..|log|] == log;
    }
  }

  /** The admissions of the last `window`, the present moment included. */
  ghost function Recent(log: seq<Time>, now: Time, window: Time): set<int> {
    set i | 0 <= i < |log| && now - window < log[i] && log[i] <= now
  }

  lemma RecentIs(log: seq<Time>, now: Time, window: Time)
    ensures Count(log, Window(now, window)) == |Recent(log, now, window)|
  {
    CountIs(log, Window(now, window));
    assert Recent(log, now, window) == set i | 0 <= i < |log| && Window(now, window)(log[i]);
  }

  class InMemoryRateLimiter {
    const limit: int
    const window: Time
    var attempts: map<string, seq<Time>>
    /** All admissions ever, and the time of the latest call. */
    ghost var admitted: map<string, seq<Time>>
    ghost var clock: Time

    ghost function Log(key: string): seq<Time>
      reads this
    {
      if key in admitted then admitted[key] else []
    }

    ghost predicate Valid()
      reads this
    {
      && (forall key | key in attempts :: Remembers(attempts[key], Log(key), clock - window))
      && (forall key | key in admitted :: key in attempts)
      && forall key | key in admitted ::
           Sorted(admitted[key]) && Lawful(admitted[key], window, limit)
           && forall i | 0 <= i < |admitted[key]| :: admitted[key][i] <= clock
    }

    constructor (limit: int, window: Time, clock: Time)
      ensures Valid() && this.limit == limit && this.window == window && this.clock == clock
      ensures forall key :: Log(key) == []
    {
      this.limit, this.window, this.clock := limit, window, clock;
      attempts, admitted := map[], map[];
    }

    /** For call times that do not run backwards the answer is that of counting all admissions there
        have ever been in the window that ends now. */
    method Allow(key: string, now: Time) returns (allowed: bool)
      requires Valid() && clock <= now
      modifies this
      ensures Valid() && clock == now
      ensures allowed <==> |Recent(old(Log(key)), now, window)| < limit
      ensures Log(key) == if allowed then old(Log(key)) + [now] else old(Log(key))
      ensures forall k | k != key :: Log(k) == old(Log(k))
    {
      hide Remembers, Sorted, Lawful, Count, Recent, Window;
      ghost var log := Log(key);
      RecentIs(log, now, window);
      EmptyLog(now, window, limit);
      forall k | k in attempts ensures Remembers(attempts[k], Log(k), now - window) {
        RemembersLater(attempts[k], Log(k), clock - window, now - window);
      }
      var queue := Prune(if key in attempts then attempts[key] else [], now, window, log);
      clock := now;
      attempts := attempts[key := queue];
      if |queue| >= limit {
        return false;
      }
      AdmitLawful(log, now, window, limit);
      RemembersMore(queue, log, now, now - window);
      attempts := attempts[key := queue + [now]];
      admitted := admitted[key := log + [now]];
      allowed := true;
    }
  }

  lemma EmptyLog(now: Time, window: Time, limit: int)
    ensures Remembers([], [], now - window) && Sorted([]) && Lawful([], window, limit)
  {
    assert IsCut([], [], now - window, 0);
  }
}
