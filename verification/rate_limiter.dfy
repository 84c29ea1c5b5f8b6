/** The outbound rate limiter: a sliding window of call timestamps (in
    milliseconds) over the trailing minute. */
module RateLimiting {

  /** Length of the window, in milliseconds. */
  const WindowMs: int := 60000

  /** The configured calls-per-minute ceiling when the environment sets none. */
  const DefaultRequestsPerMinute: int := 45

  /** `requests.filter(t => now - t < 60000)` */
  function Prune(requests: seq<int>, now: int): (r: seq<int>)
    ensures |r| <= |requests|
  {
    if requests == [] then []
    else if now - requests[0] < WindowMs then [requests[0]] + Prune(requests[1..], now)
    else Prune(requests[1..], now)
  }

  /** Pruning is a filter: it works entry by entry, keeping those it keeps
      in their order and with their repetitions. */
  lemma {:induction false} PruneAppend(a: seq<int>, b: seq<int>, now: int)
    ensures Prune(a + b, now) == Prune(a, now) + Prune(b, now)
  {
    if a == [] {
      assert a + b == b;
    } else {
      PruneAppend(a[1..], b, now);
      assert (a + b)[0] == a[0] && (a + b)[1..] == a[1..] + b;
      if now - a[0] < WindowMs {
        assert Prune(a + b, now) == [a[0]] + (Prune(a[1..], now) + Prune(b, now));
      }
    }
  }

  /** Pruning keeps exactly the timestamps less than a minute old. */
  lemma {:induction false} PruneKeeps(requests: seq<int>, now: int)
    ensures forall t :: t in Prune(requests, now) <==> t in requests && now - t < WindowMs
  {
    if requests != [] {
      PruneKeeps(requests[1..], now);
      assert requests == [requests[0]] + requests[1..];
    }
  }

  predicate Sorted(s: seq<int>) {
    forall i, j :: 0 <= i < j < |s| ==> s[i] <= s[j]
  }

  /** Pruning later never brings back what pruning earlier dropped. */
  lemma {:induction false} PruneTwice(requests: seq<int>, earlier: int, later: int)
    requires earlier <= later
    ensures Prune(Prune(requests, earlier), later) == Prune(requests, later)
  {
    if requests != [] {
      PruneTwice(requests[1..], earlier, later);
    }
  }

  /** A timestamp that has aged out is dropped, so the window shrinks. */
  lemma {:induction false} PruneDrops(requests: seq<int>, now: int, k: nat)
    requires k < |requests| && now - requests[k] >= WindowMs
    ensures |Prune(requests, now)| < |requests|
  {
    if k > 0 {
      PruneDrops(requests[1..], now, k - 1);
    }
  }

  /** The head of a sorted sequence is at most everything after it. */
  lemma SortedHeadLeast(s: seq<int>)
    requires Sorted(s) && s != []
    ensures forall t :: t in s[1..] ==> s[0] <= t
  {
    forall t | t in s[1..] ensures s[0] <= t {
      var j :| 0 <= j < |s[1..]| && s[1..][j] == t;
      assert s[j + 1] == t;
    }
  }

  /** A sorted sequence stays sorted under a new head that is at most all of it. */
  lemma SortedCons(x: int, rest: seq<int>)
    requires Sorted(rest) && forall t :: t in rest ==> x <= t
    ensures Sorted([x] + rest)
  {
    var r := [x] + rest;
    forall i, j | 0 <= i < j < |r| ensures r[i] <= r[j] {
      assert r[j] == rest[j - 1] && rest[j - 1] in rest;
      if i > 0 {
        assert r[i] == rest[i - 1];
      }
    }
  }

  /** A sorted sequence stays sorted under a new last entry that is at least all of it. */
  lemma SortedSnoc(s: seq<int>, x: int)
    requires Sorted(s) && forall t :: t in s ==> t <= x
    ensures Sorted(s + [x])
  {
    var r := s + [x];
    forall i, j | 0 <= i < j < |r| ensures r[i] <= r[j] {
      assert r[i] == s[i] && s[i] in s;
      if j < |s| {
        assert r[j] == s[j];
      }
    }
  }

  /** Pruning keeps the order of what it keeps. */
  lemma {:induction false} PruneSorted(requests: seq<int>, now: int)
    requires Sorted(requests)
    ensures Sorted(Prune(requests, now))
  {
    if requests != [] {
      PruneSorted(requests[1..], now);
      if now - requests[0] < WindowMs {
        PruneKeeps(requests[1..], now);
        SortedHeadLeast(requests);
        SortedCons(requests[0], Prune(requests[1..], now));
      }
    }
  }

  /** What `throttle` does when it starts at `now` with window `requests`:
      when the pruned window is full it waits until its first entry has aged
      out and looks again. The result is the time at which the call is let
      through and the waits made before that. */
  function Admit(requests: seq<int>, now: int, requestsPerMinute: int): (r: (int, seq<int>))
    requires requestsPerMinute > 0
    decreases |Prune(requests, now)|
  {
    var window := Prune(requests, now);
    if |window| < requestsPerMinute then (now, [])
    else
      var wait := WindowMs - (now - window[0]);
      assert wait > 0 by { PruneKeeps(requests, now); assert window[0] in window; }
      PruneTwice(requests, now, now + wait);
      PruneDrops(window, now + wait, 0);
      var next := Admit(window, now + wait, requestsPerMinute);
      (next.0, [wait] + next.1)
  }

  /** Admission looks only at the pruned window. */
  lemma AdmitPruned(requests: seq<int>, now: int, requestsPerMinute: int)
    requires requestsPerMinute > 0
    ensures Admit(Prune(requests, now), now, requestsPerMinute) == Admit(requests, now, requestsPerMinute)
  {
    PruneTwice(requests, now, now);
  }

  function Sum(s: seq<int>): int {
    if s == [] then 0 else s[0] + Sum(s[1..])
  }

  /** Every wait is positive and they add up to the delay; the call is let
      through at a moment when fewer than `requestsPerMinute` earlier calls
      lie in the trailing minute. With room in the window it goes through at
      once; otherwise the first wait lasts until the oldest call in the
      window is a minute old. */
  lemma {:induction false} AdmitProperties(requests: seq<int>, now: int, requestsPerMinute: int)
    requires requestsPerMinute > 0
    ensures var (at, waits) := Admit(requests, now, requestsPerMinute);
      && at == now + Sum(waits)
      && (forall w :: w in waits ==> w > 0)
      && |Prune(requests, at)| < requestsPerMinute
      && (|Prune(requests, now)| < requestsPerMinute ==> at == now && waits == [])
      && (|Prune(requests, now)| >= requestsPerMinute ==>
            waits != [] && waits[0] == WindowMs - (now - Prune(requests, now)[0]))
    decreases |Prune(requests, now)|
  {
    var window := Prune(requests, now);
    if |window| >= requestsPerMinute {
      var wait := WindowMs - (now - window[0]);
      assert wait > 0 by { PruneKeeps(requests, now); assert window[0] in window; }
      PruneTwice(requests, now, now + wait);
      PruneDrops(window, now + wait, 0);
      AdmitProperties(window, now + wait, requestsPerMinute);
      var (at, waits) := Admit(window, now + wait, requestsPerMinute);
      assert at >= now + wait by { SumPositive(waits); }
      PruneTwice(requests, now, at);
    }
  }

  lemma {:induction false} SumPositive(s: seq<int>)
    requires forall w :: w in s ==> w > 0
    ensures Sum(s) >= 0
  {
    if s != [] {
      assert forall w :: w in s[1..] ==> w in s;
      SumPositive(s[1..]);
      assert s[0] in s;
    }
  }

  /** The state of `throttle`'s waiting loop, started at `now` on `original`:
      the window is the original pruned at the clock, it is sorted and no
      later than `now`, and the waits made so far followed by those still to
      come from here are the waits of the whole admission. */
  ghost predicate AdmitLoop(original: seq<int>, now: int, requestsPerMinute: int,
                            window: seq<int>, clock: int, done: seq<int>)
  {
    && requestsPerMinute > 0
    && clock >= now
    && window == Prune(original, clock)
    && Sorted(window)
    && (forall t :: t in window ==> t <= now)
    && Admit(original, now, requestsPerMinute)
       == (Admit(window, clock, requestsPerMinute).0, done + Admit(window, clock, requestsPerMinute).1)
  }

  lemma AdmitLoopStart(original: seq<int>, now: int, requestsPerMinute: int)
    requires requestsPerMinute > 0 && Sorted(original) && forall t :: t in original ==> t <= now
    ensures AdmitLoop(original, now, requestsPerMinute, Prune(original, now), now, [])
  {
    PruneSorted(original, now);
    PruneKeeps(original, now);
    AdmitPruned(original, now, requestsPerMinute);
    assert [] + Admit(original, now, requestsPerMinute).1 == Admit(original, now, requestsPerMinute).1;
  }

  /** One wait of the loop: it lasts until the oldest entry has aged out,
      which shrinks the window, and the loop state is kept. */
  lemma AdmitLoopStep(original: seq<int>, now: int, requestsPerMinute: int,
                      window: seq<int>, clock: int, done: seq<int>)
    requires AdmitLoop(original, now, requestsPerMinute, window, clock, done)
    requires |window| >= requestsPerMinute
    ensures var wait := WindowMs - (clock - window[0]);
      && wait > 0
      && |Prune(window, clock + wait)| < |window|
      && AdmitLoop(original, now, requestsPerMinute, Prune(window, clock + wait), clock + wait, done + [wait])
  {
    var wait := WindowMs - (clock - window[0]);
    WindowStep(original, now, window, clock, wait);
    var step := Admit(window, clock, requestsPerMinute);
    var rest := Admit(Prune(window, clock + wait), clock + wait, requestsPerMinute);
    assert step == (rest.0, [wait] + rest.1) by {
      PruneTwice(original, clock, clock);
      AdmitWaits(window, clock, requestsPerMinute, wait);
    }
    assert done + step.1 == (done + [wait]) + rest.1;
  }

  /** Waiting until the oldest entry of a non-empty pruned window has aged
      out moves the clock forward and shrinks the window, which stays the
      original pruned at the new clock, sorted and no later than `now`. */
  lemma WindowStep(original: seq<int>, now: int, window: seq<int>, clock: int, wait: int)
    requires window == Prune(original, clock) && window != [] && wait == WindowMs - (clock - window[0])
    requires Sorted(window) && forall t :: t in window ==> t <= now
    ensures wait > 0
    ensures var next := Prune(window, clock + wait);
      && next == Prune(original, clock + wait)
      && |next| < |window|
      && Sorted(next)
      && forall t :: t in next ==> t <= now
  {
    assert wait > 0 by { PruneKeeps(original, clock); assert window[0] in window; }
    PruneTwice(original, clock, clock + wait);
    PruneDrops(window, clock + wait, 0);
    PruneSorted(window, clock + wait);
    PruneKeeps(window, clock + wait);
  }

  /** On a full window that is already pruned, admission waits until the
      oldest entry has aged out and carries on from there. */
  lemma AdmitWaits(window: seq<int>, clock: int, requestsPerMinute: int, wait: int)
    requires requestsPerMinute > 0 && |window| >= requestsPerMinute && Prune(window, clock) == window
    requires wait == WindowMs - (clock - window[0])
    ensures var rest := Admit(Prune(window, clock + wait), clock + wait, requestsPerMinute);
      Admit(window, clock, requestsPerMinute) == (rest.0, [wait] + rest.1)
  {
    AdmitPruned(window, clock + wait, requestsPerMinute);
  }

  /** When the window has room the loop ends with the whole admission. */
  lemma AdmitLoopDone(original: seq<int>, now: int, requestsPerMinute: int,
                      window: seq<int>, clock: int, done: seq<int>)
    requires AdmitLoop(original, now, requestsPerMinute, window, clock, done)
    requires |window| < requestsPerMinute
    ensures Admit(original, now, requestsPerMinute) == (clock, done)
    ensures window == Prune(original, clock) && Sorted(window) && forall t :: t in window ==> t <= clock
  {
    PruneTwice(original, clock, clock);
    assert Admit(window, clock, requestsPerMinute) == (clock, []);
    assert done + [] == done;
  }

  datatype Stats = Stats(requestsPerMinute: int, currentRequests: nat, availableRequests: int, nextReset: int)

  class RateLimiter {
    const requestsPerMinute: int
    var requests: seq<int>

    /** The window never holds more than the ceiling and stays in time order. */
    ghost predicate Valid()
      reads this
    {
      requestsPerMinute > 0 && |requests| <= requestsPerMinute && Sorted(requests)
    }

    constructor (requestsPerMinute: int)
      requires requestsPerMinute > 0
      ensures Valid() && this.requestsPerMinute == requestsPerMinute && requests == []
    {
      this.requestsPerMinute := requestsPerMinute;
      requests := [];
    }

    /** `throttle`, started at clock reading `now`. Sleeping advances the clock
        by exactly the wait; the waits are returned instead of slept. The clock
        never reads earlier than the last recorded call. */
    method Throttle(now: int) returns (at: int, waits: seq<int>)
      requires Valid()
      requires forall t :: t in requests ==> t <= now
      modifies this
      ensures Valid()
      ensures (at, waits) == Admit(old(requests), now, requestsPerMinute)
      ensures requests == Prune(old(requests), at) + [at]
      ensures at == now + Sum(waits) && forall w :: w in waits ==> w > 0
    {
      ghost var original := requests;
      var clock := now;
      requests := Prune(requests, clock);
      var done: seq<int> := [];
      AdmitLoopStart(original, now, requestsPerMinute);
      while |requests| >= requestsPerMinute
        invariant AdmitLoop(original, now, requestsPerMinute, requests, clock, done)
        decreases |requests|
      {
        var wait := WindowMs - (clock - requests[0]);
        AdmitLoopStep(original, now, requestsPerMinute, requests, clock, done);
        done := done + [wait];
        clock := clock + wait;
        requests := Prune(requests, clock);
      }
      AdmitLoopDone(original, now, requestsPerMinute, requests, clock, done);
      at := clock;
      waits := done;
      assert at == now + Sum(waits) && forall w :: w in waits ==> w > 0 by {
        AdmitProperties(original, now, requestsPerMinute);
      }
      SortedSnoc(requests, at);
      requests := requests + [at];
    }

    /** `getStats` at clock reading `now`. */
    method GetStats(now: int) returns (s: Stats)
      ensures s.requestsPerMinute == requestsPerMinute
      ensures s.currentRequests == |Prune(requests, now)|
      ensures s.availableRequests == requestsPerMinute - s.currentRequests
      ensures s.currentRequests > 0 ==> s.nextReset == Prune(requests, now)[0] + WindowMs
      ensures s.currentRequests == 0 ==> s.nextReset == now
    {
      var recent := Prune(requests, now);
      s := Stats(requestsPerMinute, |recent|, requestsPerMinute - |recent|,
                 if |recent| > 0 then recent[0] + WindowMs else now);
    }
  }
}
