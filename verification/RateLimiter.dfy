/** The fixed-window limiter: a Redis counter that is created with an expiry and counts up. */
module RateLimiter {
  import opened CommandPolicy

  /** A counter key: its value and the time at which Redis drops it. */
  datatype Counter = Counter(count: nat, expireAt: int)

  /** INCR, and EXPIRE when the counter is new. A key is gone from its expiry time on. */
  function Increment(c: Option<Counter>, window: nat, now: int): Counter {
    if c.Some? && now < c.value.expireAt then Counter(c.value.count + 1, c.value.expireAt)
    else Counter(1, now + window)
  }

  class FixedWindowRateLimiter {
    var counters: map<string, Counter>

    constructor ()
      ensures counters == map[]
    {
      counters := map[];
    }

    function Stored(key: string): Option<Counter>
      reads this
    {
      if key in counters then Some(counters[key]) else None
    }

    method Consume(key: string, limit: int, window: nat, now: int) returns (allowed: bool)
      modifies this
      ensures counters == old(counters)[key := Increment(old(Stored(key)), window, now)]
      ensures var live := key in old(counters) && now < old(counters)[key].expireAt;
        counters == old(counters)[key := if live then Counter(old(counters)[key].count + 1, old(counters)[key].expireAt)
                                         else Counter(1, now + window)]
      ensures allowed <==> counters[key].count <= limit
    {
      if key in counters && now < counters[key].expireAt {
        counters := counters[key := counters[key].(count := counters[key].count + 1)];
      } else {
        counters := counters[key := Counter(1, now + window)];
      }
      allowed := counters[key].count <= limit;
    }
  }

  // ---------------------------------------------------------------- a trace of calls on one key

  ghost predicate Ordered(times: seq<int>) {
    forall i, j :: 0 <= i <= j < |times| ==> times[i] <= times[j]
  }

  /** The counter after the first n calls. */
  function After(times: seq<int>, window: nat, n: nat): Option<Counter>
    requires n <= |times|
  {
    if n == 0 then None else Some(Increment(After(times, window, n - 1), window, times[n - 1]))
  }

  predicate Allowed(times: seq<int>, limit: int, window: nat, i: nat)
    requires i < |times|
  {
    After(times, window, i + 1).value.count <= limit
  }

  /** Calls allowed among those numbered from p up to q. */
  function AllowedCount(times: seq<int>, limit: int, window: nat, p: nat, q: nat): nat
    requires p <= q <= |times|
  {
    if p == q then 0
    else AllowedCount(times, limit, window, p, q - 1) + if Allowed(times, limit, window, q - 1) then 1 else 0
  }

  /** Call i opens a window: it finds no live counter. */
  predicate Opens(times: seq<int>, window: nat, i: nat)
    requires i < |times|
  {
    After(times, window, i + 1).value.count == 1
  }

  function AtMost(n: nat, limit: nat): nat {
    if n <= limit then n else limit
  }

  /** From call p on, either its window is still the current one, or p did not open its window and one
      further window has opened, which cannot end before the interval does. */
  lemma {:induction false} IntervalInvariant(times: seq<int>, limit: nat, window: nat, p: nat, q: nat)
    requires Ordered(times) && p < q <= |times| && times[q - 1] < times[p] + window
    ensures var first, c := After(times, window, p + 1).value, After(times, window, q).value;
      var spent := AtMost(first.count - 1, limit);
      || (c.expireAt == first.expireAt && c.count >= first.count
          && AllowedCount(times, limit, window, p, q) + spent <= AtMost(c.count, limit))
      || (c.expireAt >= times[p] + window && first.count >= 2
          && AllowedCount(times, limit, window, p, q) + spent <= limit + AtMost(c.count, limit))
  {
    if q == p + 1 {
      assert AllowedCount(times, limit, window, p, p) == 0;
    } else {
      IntervalInvariant(times, limit, window, p, q - 1);
    }
  }

  /** No interval of one window length, wherever it lies, sees twice the limit allowed: calls of two
      windows can fall into it, but then not the call that opened the first. */
  lemma LessThanTwiceTheLimit(times: seq<int>, limit: nat, window: nat, p: nat, q: nat)
    requires Ordered(times) && p <= q <= |times|
    requires p < q ==> times[q - 1] < times[p] + window
    ensures AllowedCount(times, limit, window, p, q) <= if limit == 0 then 0 else 2 * limit - 1
  {
    if p < q {
      IntervalInvariant(times, limit, window, p, q);
    }
  }

  /** One window sees at most the limit, and the calls it allows are its first ones. */
  lemma {:induction false} WindowBound(times: seq<int>, limit: nat, window: nat, p: nat, q: nat)
    requires p < q <= |times| && Opens(times, window, p)
    requires forall i :: p < i < q ==> !Opens(times, window, i)
    ensures After(times, window, q).value.count == q - p
    ensures AllowedCount(times, limit, window, p, q) == AtMost(q - p, limit)
    ensures Allowed(times, limit, window, q - 1) <==> q - p <= limit
  {
    if q == p + 1 {
      assert AllowedCount(times, limit, window, p, p) == 0;
    } else {
      WindowBound(times, limit, window, p, q - 1);
      assert !Opens(times, window, q - 1);
    }
  }

  /** A call opens a window at 0; the others of that window come at its last instant, and a whole
      window's worth follows at the next. */
  function Burst(limit: nat, window: nat, n: nat): seq<int>
    requires n <= 2 * limit
    ensures |Burst(limit, window, n)| == n
  {
    if n == 0 then [] else Burst(limit, window, n - 1) + [if n == 1 then 0 else if n <= limit then window - 1 else window]
  }

  lemma {:induction false} BurstAt(limit: nat, window: nat, n: nat, i: nat)
    requires i < n <= 2 * limit
    ensures Burst(limit, window, n)[i] == if i == 0 then 0 else if i < limit then window - 1 else window
  {
    if i < n - 1 {
      BurstAt(limit, window, n - 1, i);
    }
  }

  lemma {:induction false} BurstCounter(limit: nat, window: nat, n: nat)
    requires window >= 1 && 0 < n <= 2 * limit
    ensures var times := Burst(limit, window, 2 * limit);
      After(times, window, n) == Some(if n <= limit then Counter(n, window) else Counter(n - limit, 2 * window))
  {
    BurstAt(limit, window, 2 * limit, n - 1);
    if n > 1 {
      BurstCounter(limit, window, n - 1);
    }
  }

  lemma {:induction false} BurstAllowed(limit: nat, window: nat, n: nat)
    requires window >= 1 && 0 < n <= 2 * limit
    ensures AllowedCount(Burst(limit, window, 2 * limit), limit, window, 1, n) == n - 1
  {
    if n > 1 {
      BurstAllowed(limit, window, n - 1);
      BurstCounter(limit, window, n);
    }
  }

  /** The bound is reached for every limit: the calls after the first of such a burst lie in less than
      one window and are all allowed. */
  lemma BoundIsReached(limit: nat, window: nat)
    requires limit >= 1 && window >= 2
    ensures var times := Burst(limit, window, 2 * limit);
      && Ordered(times)
      && times[2 * limit - 1] < times[1] + window
      && AllowedCount(times, limit, window, 1, 2 * limit) == 2 * limit - 1
  {
    var times := Burst(limit, window, 2 * limit);
    forall i, j | 0 <= i <= j < |times|
      ensures times[i] <= times[j]
    {
      BurstAt(limit, window, 2 * limit, i);
      BurstAt(limit, window, 2 * limit, j);
    }
    BurstAt(limit, window, 2 * limit, 1);
    BurstAt(limit, window, 2 * limit, 2 * limit - 1);
    BurstAllowed(limit, window, 2 * limit);
  }
}
