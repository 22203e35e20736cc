/** The gateway's in-memory sliding-window limiter. The clock is a real number of seconds. */
module RateLimiter {
  type Key = string

  /** cleanup() drops a key idle for longer than this. */
  const IDLE: real := 120.0

  datatype Policy = Policy(limit: int, window: real)

  datatype Verdict = Admitted(remaining: int) | Rejected(retryAfter: int)

  type Requests = map<Key, seq<real>>

  /** The defaultdict reads a missing key as the empty list. */
  function LogOf(requests: Requests, key: Key): seq<real> {
    if key in requests then requests[key] else []
  }

  /** The timestamps after `start`, in order. */
  function After(ts: seq<real>, start: real): seq<real> {
    if ts == [] then []
    else
      var most, last := After(ts[..|ts| - 1], start), ts[|ts| - 1];
      if last > start then most + [last] else most
  }

  /** int(): truncation toward zero. */
  function Truncate(x: real): int {
    if x >= 0.0 then x.Floor else -(-x).Floor
  }

  function Max(a: int, b: int): int {
    if a >= b then a else b
  }

  function Checked(log: seq<real>, p: Policy, now: real): (seq<real>, Verdict) {
    var kept := After(log, now - p.window);
    if |kept| + 1 > p.limit then (kept, Rejected(Max(1, Truncate((kept + [now])[0] + p.window - now))))
    else (kept + [now], Admitted(Max(p.limit - |kept| - 1, 0)))
  }

  predicate Stale(log: seq<real>, now: real) {
    log == [] || log[|log| - 1] < now - IDLE
  }

  class InMemoryRateLimiter {
    var requests: Requests

    constructor ()
      ensures requests == map[]
    {
      requests := map[];
    }

    method Check(key: Key, p: Policy, now: real) returns (verdict: Verdict)
      modifies this
      ensures requests == old(requests)[key := Checked(LogOf(old(requests), key), p, now).0]
      ensures verdict == Checked(LogOf(old(requests), key), p, now).1
    {
      var start, log := now - p.window, if key in requests then requests[key] else [];
      var timestamps: seq<real> := [];
      for i := 0 to |log|
        invariant timestamps == After(log[..i], start)
      {
        assert log[..i + 1][..i] == log[..i];
        if log[i] > start {
          timestamps := timestamps + [log[i]];
        }
      }
      assert log[..|log|] == log;
      timestamps := timestamps + [now];
      requests := requests[key := timestamps];
      if |timestamps| > p.limit {
        assert timestamps[..|timestamps| - 1] == After(log, start);
        requests := requests[key := timestamps[..|timestamps| - 1]];
        return Rejected(Max(1, Truncate(timestamps[0] + p.window - now)));
      }
      return Admitted(Max(p.limit - |timestamps|, 0));
    }

    method Cleanup(now: real)
      modifies this
      ensures requests == map key | key in old(requests) && !Stale(old(requests)[key], now) :: old(requests)[key]
    {
      var stale := set key | key in requests && Stale(requests[key], now);
      ghost var all := stale;
      while stale != {}
        invariant stale <= all
        invariant requests == map key | key in old(requests) && key !in all - stale :: old(requests)[key]
        decreases stale
      {
        var key :| key in stale;
        requests := requests - {key};
        stale := stale - {key};
      }
    }
  }

  // --- Histories ---

  /** What happens to one key: its requests, under the key's own limit and window, and the cleanups. */
  datatype Event = Request(now: real) | Cleanup(now: real)

  predicate InOrder(events: seq<Event>) {
    forall i, j | 0 <= i <= j < |events| :: events[i].now <= events[j].now
  }

  /** The key's list after the events, [] standing for no entry. */
  function LogAfter(events: seq<Event>, p: Policy): seq<real> {
    if events == [] then []
    else
      var log, e := LogAfter(events[..|events| - 1], p), events[|events| - 1];
      match e
      case Request(now) => Checked(log, p, now).0
      case Cleanup(now) => if Stale(log, now) then [] else log
  }

  predicate Admits(events: seq<Event>, p: Policy, now: real) {
    Checked(LogAfter(events, p), p, now).1.Admitted?
  }

  /** The times of the admitted requests. */
  function AdmittedIn(events: seq<Event>, p: Policy): seq<real> {
    if events == [] then []
    else
      var earlier, e := events[..|events| - 1], events[|events| - 1];
      if e.Request? && Admits(earlier, p, e.now) then AdmittedIn(earlier, p) + [e.now] else AdmittedIn(earlier, p)
  }

  lemma OneMore(events: seq<Event>, p: Policy, now: real)
    ensures LogAfter(events + [Request(now)], p) == Checked(LogAfter(events, p), p, now).0
    ensures AdmittedIn(events + [Request(now)], p)
        == AdmittedIn(events, p) + (if Admits(events, p, now) then [now] else [])
  {
    assert (events + [Request(now)])[..|events|] == events;
  }

  /** How many times fall in (a, b]. */
  function CountIn(ts: seq<real>, a: real, b: real): nat {
    if ts == [] then 0 else CountIn(ts[..|ts| - 1], a, b) + (if a < ts[|ts| - 1] <= b then 1 else 0)
  }

  predicate Sorted(ts: seq<real>) {
    forall i, j | 0 <= i <= j < |ts| :: ts[i] <= ts[j]
  }

  predicate UpTo(ts: seq<real>, now: real) {
    forall i | 0 <= i < |ts| :: ts[i] <= now
  }

  /** The list is the end of the admitted times, and what it dropped has left the window. */
  predicate Remembers(log: seq<real>, times: seq<real>, now: real, window: real) {
    && |log| <= |times| && log == times[|times| - |log|..]
    && forall i | 0 <= i < |times| - |log| :: times[i] <= now - window
  }

  /** Requests further apart than the limit are a window apart. */
  predicate Spaced(times: seq<real>, p: Policy) {
    forall i, j | 0 <= j <= i < |times| && i - j >= p.limit :: times[i] - times[j] >= p.window
  }

  lemma AfterUpTo(ts: seq<real>, start: real)
    requires UpTo(ts, start)
    ensures After(ts, start) == []
  {
  }

  lemma {:induction false} AfterIsSuffix(ts: seq<real>, start: real)
    requires Sorted(ts)
    ensures |After(ts, start)| <= |ts| && After(ts, start) == ts[|ts| - |After(ts, start)|..]
    ensures forall i | 0 <= i < |ts| - |After(ts, start)| :: ts[i] <= start
    ensures forall i | |ts| - |After(ts, start)| <= i < |ts| :: ts[i] > start
    decreases |ts|
  {
    if ts != [] {
      var most, last := ts[..|ts| - 1], ts[|ts| - 1];
      if last <= start {
        AfterUpTo(ts, start);
      } else {
        AfterIsSuffix(most, start);
        assert ts == most + [last];
      }
    }
  }

  lemma SuffixOfSuffix(log: seq<real>, times: seq<real>, before: real, start: real, window: real)
    requires Remembers(log, times, before, window) && Sorted(times) && before - window <= start
    ensures |After(log, start)| <= |times| && After(log, start) == times[|times| - |After(log, start)|..]
    ensures forall i | 0 <= i < |times| - |After(log, start)| :: times[i] <= start
    ensures forall i | |times| - |After(log, start)| <= i < |times| :: times[i] > start
  {
    var k := |times| - |log|;
    assert forall i | 0 <= i < |log| :: log[i] == times[k + i];
    AfterIsSuffix(log, start);
    assert forall i | k <= i < |times| :: times[i] == log[i - k];
  }

  /** A check at `now` keeps exactly the admitted times of (now - window, now]. */
  lemma KeptExactly(log: seq<real>, times: seq<real>, before: real, now: real, p: Policy)
    requires Remembers(log, times, before, p.window) && Sorted(times) && UpTo(times, now) && before <= now
    ensures Remembers(After(log, now - p.window), times, now, p.window)
    ensures |After(log, now - p.window)| == CountIn(times, now - p.window, now)
  {
    SuffixOfSuffix(log, times, before, now - p.window, p.window);
    CountSuffix(times, |times| - |After(log, now - p.window)|, now - p.window, now);
  }

  lemma {:induction false} CountSuffix(ts: seq<real>, k: nat, a: real, b: real)
    requires k <= |ts|
    requires forall i | 0 <= i < k :: !(a < ts[i] <= b)
    requires forall i | k <= i < |ts| :: a < ts[i] <= b
    ensures CountIn(ts, a, b) == |ts| - k
    decreases |ts|
  {
    if |ts| > k {
      CountSuffix(ts[..|ts| - 1], k, a, b);
    } else if ts != [] {
      CountSuffix(ts[..|ts| - 1], k - 1, a, b);
    }
  }

  predicate Sound(log: seq<real>, times: seq<real>, now: real, p: Policy) {
    Sorted(times) && UpTo(times, now) && Remembers(log, times, now, p.window) && Spaced(times, p)
  }

  lemma SpacedGrows(kept: seq<real>, times: seq<real>, now: real, p: Policy)
    requires Spaced(times, p) && Remembers(kept, times, now, p.window) && |kept| + 1 <= p.limit
    ensures Spaced(times + [now], p)
  {
    var times' := times + [now];
    forall i, j | 0 <= j <= i < |times'| && i - j >= p.limit
      ensures times'[i] - times'[j] >= p.window
    {
      if i < |times| {
        assert times[i] - times[j] >= p.window;
      }
    }
  }

  lemma RequestKeepsSound(log: seq<real>, times: seq<real>, before: real, now: real, p: Policy)
    requires Sound(log, times, before, p) && before <= now && p.window > 0.0
    ensures if Checked(log, p, now).1.Admitted? then Sound(Checked(log, p, now).0, times + [now], now, p)
            else Sound(Checked(log, p, now).0, times, now, p)
  {
    KeptExactly(log, times, before, now, p);
    AddKeepsSound(After(log, now - p.window), times, now, p);
  }

  lemma AddKeepsSound(kept: seq<real>, times: seq<real>, now: real, p: Policy)
    requires Sorted(times) && UpTo(times, now) && Remembers(kept, times, now, p.window) && Spaced(times, p)
        && p.window > 0.0
    ensures |kept| + 1 <= p.limit ==> Sound(kept + [now], times + [now], now, p)
  {
    if |kept| + 1 <= p.limit {
      SpacedGrows(kept, times, now, p);
      assert kept + [now] == (times + [now])[|times| - |kept|..];
    }
  }

  /** A cleanup drops a key exactly when its last request was more than 120 seconds ago. */
  lemma CleanupDropsExactly(log: seq<real>, now: real)
    requires Sorted(log)
    ensures Stale(log, now) <==> forall i | 0 <= i < |log| :: now - log[i] > 120.0
  {
    if log != [] && Stale(log, now) {
      assert forall i | 0 <= i < |log| :: log[i] <= log[|log| - 1];
    }
  }

  lemma CleanupKeepsSound(log: seq<real>, times: seq<real>, before: real, now: real, p: Policy)
    requires Sound(log, times, before, p) && before <= now && p.window <= IDLE
    ensures Sound(if Stale(log, now) then [] else log, times, now, p)
  {
    if Stale(log, now) && log != [] {
      assert times[|times| - 1] == log[|log| - 1];
    }
  }

  lemma SoundLater(log: seq<real>, times: seq<real>, before: real, now: real, p: Policy)
    requires Sound(log, times, before, p) && before <= now
    ensures Sound(log, times, now, p)
  {
  }

  lemma {:induction false} HistoryIsSound(events: seq<Event>, p: Policy, now: real)
    requires InOrder(events) && 0.0 < p.window <= IDLE
    requires forall i | 0 <= i < |events| :: events[i].now <= now
    ensures Sound(LogAfter(events, p), AdmittedIn(events, p), now, p)
    decreases |events|
  {
    if events != [] {
      var earlier, e := events[..|events| - 1], events[|events| - 1];
      HistoryIsSound(earlier, p, e.now);
      if e.Request? {
        RequestKeepsSound(LogAfter(earlier, p), AdmittedIn(earlier, p), e.now, e.now, p);
      } else {
        CleanupKeepsSound(LogAfter(earlier, p), AdmittedIn(earlier, p), e.now, e.now, p);
      }
      SoundLater(LogAfter(events, p), AdmittedIn(events, p), e.now, now, p);
    }
  }

  lemma {:induction false} SpacedBoundsWindows(times: seq<real>, p: Policy, a: real)
    requires Sorted(times) && Spaced(times, p) && p.limit >= 0
    ensures CountIn(times, a, a + p.window) <= p.limit
    decreases |times|
  {
    if times != [] {
      var n, most := |times| - 1, times[..|times| - 1];
      if a < times[n] <= a + p.window {
        LastWindow(times, p, a);
      } else {
        SpacedBoundsWindows(most, p, a);
      }
    }
  }

  /** Times in the window that end with the last one number at most the limit. */
  lemma LastWindow(times: seq<real>, p: Policy, a: real)
    requires Sorted(times) && Spaced(times, p) && p.limit >= 0
    requires times != [] && a < times[|times| - 1] <= a + p.window
    ensures CountIn(times, a, a + p.window) <= p.limit
  {
    var kept := After(times, a);
    AfterIsSuffix(times, a);
    CountSuffix(times, |times| - |kept|, a, a + p.window);
    if kept != [] {
      assert times[|times| - 1] - times[|times| - |kept|] < p.window;
      assert |kept| - 1 < p.limit;
    }
  }

  /** With a clock that does not go back and a window of at most 120 seconds, whatever the requests and cleanups,
      every window (a, a + w] holds at most `limit` admitted requests. */
  lemma AtMostLimitPerWindow(events: seq<Event>, p: Policy, a: real)
    requires InOrder(events) && 0.0 < p.window <= IDLE && p.limit >= 0
    ensures CountIn(AdmittedIn(events, p), a, a + p.window) <= p.limit
  {
    HistoryIsSound(events, p, if events == [] then 0.0 else events[|events| - 1].now);
    SpacedBoundsWindows(AdmittedIn(events, p), p, a);
  }

  /** And no request is turned away needlessly: one is admitted if and only if fewer than `limit` were admitted in the
      window that ends with it. */
  lemma AdmitsExactly(events: seq<Event>, p: Policy, now: real)
    requires InOrder(events) && 0.0 < p.window <= IDLE
    requires forall i | 0 <= i < |events| :: events[i].now <= now
    ensures Admits(events, p, now) <==> CountIn(AdmittedIn(events, p), now - p.window, now) < p.limit
  {
    HistoryIsSound(events, p, now);
    CheckedExactly(LogAfter(events, p), AdmittedIn(events, p), now, p);
  }

  /** An admitted request is told what is left of the limit in the window that ends with it, itself counted. */
  lemma RemainingExactly(events: seq<Event>, p: Policy, now: real)
    requires InOrder(events) && 0.0 < p.window <= IDLE && Admits(events, p, now)
    requires forall i | 0 <= i < |events| :: events[i].now <= now
    ensures Checked(LogAfter(events, p), p, now).1
        == Admitted(p.limit - CountIn(AdmittedIn(events + [Request(now)], p), now - p.window, now))
  {
    HistoryIsSound(events, p, now);
    OneMore(events, p, now);
    RemainingCounts(LogAfter(events, p), AdmittedIn(events, p), now, p);
  }

  lemma RemainingCounts(log: seq<real>, times: seq<real>, now: real, p: Policy)
    requires Sound(log, times, now, p) && p.window > 0.0 && Checked(log, p, now).1.Admitted?
    ensures Checked(log, p, now).1 == Admitted(p.limit - CountIn(times + [now], now - p.window, now))
  {
    KeptExactly(log, times, now, now, p);
    CountOneMore(times, now - p.window, now);
  }

  lemma CountOneMore(times: seq<real>, a: real, now: real)
    requires a < now
    ensures CountIn(times + [now], a, now) == CountIn(times, a, now) + 1
  {
    assert (times + [now])[..|times|] == times;
  }

  lemma CheckedExactly(log: seq<real>, times: seq<real>, now: real, p: Policy)
    requires Sound(log, times, now, p)
    ensures Checked(log, p, now).1.Admitted? <==> CountIn(times, now - p.window, now) < p.limit
  {
    KeptExactly(log, times, now, now, p);
  }

  /** A rejected key that stays quiet is admitted again exactly from the moment its oldest counted request leaves the
      window. */
  lemma RetryExactly(events: seq<Event>, p: Policy, now: real, later: real, kept: seq<real>)
    requires InOrder(events) && 0.0 < p.window <= IDLE && p.limit > 0
    requires forall i | 0 <= i < |events| :: events[i].now <= now
    requires !Admits(events, p, now) && now <= later && kept == After(LogAfter(events, p), now - p.window)
    ensures kept != [] && (Admits(events + [Request(now)], p, later) <==> kept[0] + p.window <= later)
  {
    HistoryIsSound(events, p, now);
    AdmitsAfter(events, p, now, later);
    RetryFrom(LogAfter(events, p), AdmittedIn(events, p), p, now, later);
  }

  lemma AdmitsAfter(events: seq<Event>, p: Policy, now: real, later: real)
    ensures Admits(events + [Request(now)], p, later)
        == Checked(Checked(LogAfter(events, p), p, now).0, p, later).1.Admitted?
  {
    OneMore(events, p, now);
  }

  /** A rejection finds `limit` requests in the window; its retry_after is the wait for the oldest of them to leave
      it, rounded down to whole seconds and at least one. */
  lemma RetryFrom(log: seq<real>, times: seq<real>, p: Policy, now: real, later: real)
    requires Sound(log, times, now, p) && !Checked(log, p, now).1.Admitted? && p.limit > 0 && now <= later
    ensures var kept := After(log, now - p.window);
            && kept != [] && |kept| == p.limit && Checked(log, p, now).0 == kept
            && (Checked(kept, p, later).1.Admitted? <==> kept[0] + p.window <= later)
            && Checked(log, p, now).1 == Rejected(Max(1, (kept[0] + p.window - now).Floor))
  {
    KeptIsFull(log, times, now, p);
    RetryDecides(After(log, now - p.window), times, p, later);
    RejectionWaits(log, p, now);
  }

  lemma RetryDecides(kept: seq<real>, times: seq<real>, p: Policy, later: real)
    requires Sorted(times) && 0 < |kept| <= |times| && kept == times[|times| - |kept|..] && |kept| == p.limit
    ensures Checked(kept, p, later).1.Admitted? <==> kept[0] + p.window <= later
  {
    OldestDecides(kept, times, later - p.window);
  }

  /** A rejection finds exactly `limit` admitted requests in the window. */
  lemma KeptIsFull(log: seq<real>, times: seq<real>, now: real, p: Policy)
    requires Sound(log, times, now, p) && !Checked(log, p, now).1.Admitted? && p.limit > 0
    ensures var kept := After(log, now - p.window);
            |kept| == p.limit <= |times| && kept == times[|times| - |kept|..] && kept[0] > now - p.window
  {
    SuffixOfSuffix(log, times, now, now - p.window, p.window);
    KeptExactly(log, times, now, now, p);
    SpacedBoundsWindows(times, p, now - p.window);
    assert now - p.window + p.window == now;
  }

  lemma RejectionWaits(log: seq<real>, p: Policy, now: real)
    requires var kept := After(log, now - p.window); kept != [] && |kept| + 1 > p.limit && kept[0] > now - p.window
    ensures var kept := After(log, now - p.window);
            Checked(log, p, now) == (kept, Rejected(Max(1, (kept[0] + p.window - now).Floor)))
  {
    var kept := After(log, now - p.window);
    assert (kept + [now])[0] == kept[0];
    assert Truncate(kept[0] + p.window - now) == (kept[0] + p.window - now).Floor;
  }

  lemma OldestDecides(kept: seq<real>, times: seq<real>, start: real)
    requires Sorted(times) && 0 < |kept| <= |times| && kept == times[|times| - |kept|..]
    ensures |After(kept, start)| <= |kept|
    ensures |After(kept, start)| < |kept| <==> kept[0] <= start
  {
    assert forall i | 0 <= i < |kept| :: kept[i] == times[|times| - |kept| + i];
    AfterIsSuffix(kept, start);
  }

  // --- Where the bound stops ---

  /** n requests at time t. */
  function Burst(n: nat, t: real): (events: seq<Event>)
    ensures |events| == n && forall i | 0 <= i < n :: events[i] == Request(t)
  {
    if n == 0 then [] else Burst(n - 1, t) + [Request(t)]
  }

  function Repeated(n: nat, t: real): (ts: seq<real>)
    ensures |ts| == n && forall i | 0 <= i < n :: ts[i] == t
  {
    if n == 0 then [] else Repeated(n - 1, t) + [t]
  }

  lemma {:induction false} RepeatedStay(n: nat, t: real, start: real)
    requires start < t
    ensures After(Repeated(n, t), start) == Repeated(n, t)
  {
    if n > 0 {
      RepeatedStay(n - 1, t, start);
      assert Repeated(n, t)[..n - 1] == Repeated(n - 1, t);
    }
  }

  lemma OneMoreRepeated(n: nat, t: real, p: Policy)
    requires n + 1 <= p.limit && p.window > 0.0
    ensures Checked(Repeated(n, t), p, t).0 == Repeated(n + 1, t) && Checked(Repeated(n, t), p, t).1.Admitted?
  {
    RepeatedStay(n, t, t - p.window);
  }

  lemma RepeatedFollows(events: seq<Event>, n: nat, t: real, p: Policy)
    requires n + 1 <= p.limit && p.window > 0.0 && LogAfter(events, p) == Repeated(n, t)
    ensures LogAfter(events + [Request(t)], p) == Repeated(n + 1, t)
    ensures AdmittedIn(events + [Request(t)], p) == AdmittedIn(events, p) + [t]
  {
    OneMore(events, p, t);
    OneMoreRepeated(n, t, p);
  }

  lemma {:induction false} BurstIsAdmitted(n: nat, t: real, p: Policy)
    requires n <= p.limit && p.window > 0.0
    ensures LogAfter(Burst(n, t), p) == Repeated(n, t) && AdmittedIn(Burst(n, t), p) == Repeated(n, t)
  {
    if n > 0 {
      BurstIsAdmitted(n - 1, t, p);
      RepeatedFollows(Burst(n - 1, t), n - 1, t, p);
    }
  }

  predicate Bounded(events: seq<Event>, p: Policy, a: real) {
    CountIn(AdmittedIn(events, p), a, a + p.window) <= p.limit
  }

  /** The bound holds in every history if and only if the window is at most 120 seconds or nothing is ever admitted:
      a longer window outlives the list that a cleanup drops. */
  lemma BoundHoldsExactly(p: Policy)
    requires p.limit >= 0 && p.window > 0.0
    ensures (forall events: seq<Event>, a: real | InOrder(events) :: Bounded(events, p, a)) <==>
        p.window <= IDLE || p.limit == 0
  {
    if p.window > IDLE && p.limit > 0 {
      var events, a := CleanupForgets(p);
      assert !Bounded(events, p, a);
    } else {
      forall events: seq<Event>, a: real | InOrder(events)
        ensures Bounded(events, p, a)
      {
        if p.limit == 0 {
          NothingAdmitted(events, p);
        } else {
          AtMostLimitPerWindow(events, p, a);
        }
      }
    }
  }

  lemma {:induction false} NothingAdmitted(events: seq<Event>, p: Policy)
    requires p.limit == 0
    ensures AdmittedIn(events, p) == []
    decreases |events|
  {
    if events != [] {
      NothingAdmitted(events[..|events| - 1], p);
    }
  }

  lemma CleanupForgets(p: Policy) returns (events: seq<Event>, a: real)
    requires p.window > IDLE && p.limit > 0
    ensures InOrder(events) && CountIn(AdmittedIn(events, p), a, a + p.window) > p.limit
  {
    var at := (IDLE + p.window) / 2.0;
    var cleaned := Burst(p.limit, 0.0) + [Cleanup(at)];
    events, a := cleaned + [Request(at)], at - p.window;
    CleanupEmpties(p.limit, p, at);
    OneMore(cleaned, p, at);
    CountBurst(p.limit, at, p);
    BurstInOrder(p.limit, at);
  }

  lemma CleanupEmpties(n: nat, p: Policy, at: real)
    requires 0 < n <= p.limit && p.window > 0.0 && at > IDLE
    ensures LogAfter(Burst(n, 0.0) + [Cleanup(at)], p) == []
        && AdmittedIn(Burst(n, 0.0) + [Cleanup(at)], p) == Repeated(n, 0.0)
  {
    BurstIsAdmitted(n, 0.0, p);
    assert (Burst(n, 0.0) + [Cleanup(at)])[..n] == Burst(n, 0.0);
    assert Repeated(n, 0.0)[n - 1] == 0.0;
  }

  lemma CountBurst(n: nat, at: real, p: Policy)
    requires 0.0 < at < p.window
    ensures CountIn(Repeated(n, 0.0) + [at], at - p.window, at - p.window + p.window) == n + 1
  {
    CountSuffix(Repeated(n, 0.0) + [at], 0, at - p.window, at - p.window + p.window);
  }

  lemma BurstInOrder(n: nat, at: real)
    requires at >= 0.0
    ensures InOrder(Burst(n, 0.0) + [Cleanup(at)] + [Request(at)])
  {
    var events := Burst(n, 0.0) + [Cleanup(at)] + [Request(at)];
    forall i | 0 <= i < |events|
      ensures events[i].now == if i < n then 0.0 else at
    {
    }
  }

  // --- A window closed at both ends ---

  /** How many times fall in [a, b]. */
  function CountWithin(ts: seq<real>, a: real, b: real): nat {
    if ts == [] then 0 else CountWithin(ts[..|ts| - 1], a, b) + (if a <= ts[|ts| - 1] <= b then 1 else 0)
  }

  lemma {:induction false} SplitClosed(ts: seq<real>, a: real, b: real, earlier: real)
    requires earlier < a <= b
    ensures CountWithin(ts, a, b) <= CountIn(ts, earlier, a) + CountIn(ts, a, b)
  {
    if ts != [] {
      SplitClosed(ts[..|ts| - 1], a, b, earlier);
    }
  }

  /** It can hold twice the limit, and never more. */
  lemma ClosedWindowHoldsTwice(events: seq<Event>, p: Policy, a: real)
    requires InOrder(events) && 0.0 < p.window <= IDLE && p.limit >= 0
    ensures CountWithin(AdmittedIn(events, p), a, a + p.window) <= 2 * p.limit
  {
    AtMostLimitPerWindow(events, p, a);
    AtMostLimitPerWindow(events, p, a - p.window);
    assert a - p.window + p.window == a;
    SplitClosed(AdmittedIn(events, p), a, a + p.window, a - p.window);
  }

  /** n requests at time 0 and k more at time w, the length of the window. */
  function TwoBursts(n: nat, k: nat, w: real): seq<Event> {
    Burst(n, 0.0) + Burst(k, w)
  }

  lemma {:induction false} SecondBurstIsAdmitted(k: nat, p: Policy)
    requires k <= p.limit && p.window > 0.0
    ensures AdmittedIn(TwoBursts(p.limit, k, p.window), p) == Repeated(p.limit, 0.0) + Repeated(k, p.window)
    ensures LogAfter(TwoBursts(p.limit, k, p.window), p) == if k == 0 then Repeated(p.limit, 0.0)
        else Repeated(k, p.window)
  {
    if k == 0 {
      BurstIsAdmitted(p.limit, 0.0, p);
      assert TwoBursts(p.limit, 0, p.window) == Burst(p.limit, 0.0);
    } else {
      var events := TwoBursts(p.limit, k - 1, p.window);
      SecondBurstIsAdmitted(k - 1, p);
      assert TwoBursts(p.limit, k, p.window) == events + [Request(p.window)];
      if k == 1 {
        AfterUpTo(Repeated(p.limit, 0.0), p.window - p.window);
        OneMore(events, p, p.window);
      } else {
        RepeatedFollows(events, k - 1, p.window, p);
      }
      assert Repeated(p.limit, 0.0) + Repeated(k, p.window)
        == Repeated(p.limit, 0.0) + Repeated(k - 1, p.window) + [p.window];
    }
  }

  lemma {:induction false} AllWithin(ts: seq<real>, a: real, b: real)
    requires forall i | 0 <= i < |ts| :: a <= ts[i] <= b
    ensures CountWithin(ts, a, b) == |ts|
  {
    if ts != [] {
      AllWithin(ts[..|ts| - 1], a, b);
    }
  }

  /** For every limit the window [0, w] of this history holds exactly twice as many. */
  lemma TwiceIsReached(p: Policy)
    requires p.limit >= 0 && p.window > 0.0
    ensures InOrder(TwoBursts(p.limit, p.limit, p.window))
    ensures CountWithin(AdmittedIn(TwoBursts(p.limit, p.limit, p.window), p), 0.0, p.window) == 2 * p.limit
  {
    SecondBurstIsAdmitted(p.limit, p);
    AllWithin(Repeated(p.limit, 0.0) + Repeated(p.limit, p.window), 0.0, p.window);
  }
}
