/** The reconnect delay, over exact reals: `random` is the number the random source returned. */
module Backoff {
  import opened CommandPolicy

  function Power2(n: nat): int {
    if n == 0 then 1 else 2 * Power2(n - 1)
  }

  /** `Math.round`: ties go up. */
  function Round(x: real): int {
    (x + 0.5).Floor
  }

  predicate ValidOptions(attempt: int, baseMs: real, maxMs: real, jitterRatio: real) {
    attempt >= 0 && baseMs > 0.0 && maxMs >= baseMs && 0.0 <= jitterRatio <= 1.0
  }

  function Uncapped(attempt: nat, baseMs: real): real {
    baseMs * (Power2(attempt) as real)
  }

  function Min(x: real, y: real): real {
    if x < y then x else y
  }

  function Capped(attempt: nat, baseMs: real, maxMs: real): real {
    Min(maxMs, Uncapped(attempt, baseMs))
  }

  function Mid(capped: real, jitterRatio: real, random: real): real {
    capped + capped * jitterRatio * (random * 2.0 - 1.0)
  }

  /** The rounded delay once the jitter is added. */
  function Jittered(capped: real, jitterRatio: real, random: real): int {
    Round(Mid(capped, jitterRatio, random))
  }

  /** Nothing stands for the thrown error. */
  function ExponentialBackoff(attempt: int, baseMs: real, maxMs: real, jitterRatio: real, random: real): Option<int> {
    if !ValidOptions(attempt, baseMs, maxMs, jitterRatio) then None
    else
      var delay := Jittered(Capped(attempt, baseMs, maxMs), jitterRatio, random);
      Some(if delay >= 0 then delay else 0)
  }

  lemma {:induction false} PowerExceeds(n: nat)
    ensures Power2(n) > n
  {
    if n > 0 {
      PowerExceeds(n - 1);
    }
  }

  lemma Scale(c: real, x: real, y: real)
    requires c >= 0.0 && x <= y
    ensures c * x <= c * y
  {
  }

  lemma UncappedGrows(attempt: nat, baseMs: real)
    requires baseMs > 0.0
    ensures 0.0 < Uncapped(attempt, baseMs) <= Uncapped(attempt + 1, baseMs)
  {
    PowerExceeds(attempt);
    var p, q := Power2(attempt) as real, Power2(attempt + 1) as real;
    assert 1.0 <= p <= q;
    Scale(baseMs, 1.0, p);
    Scale(baseMs, p, q);
  }

  /** The delay without jitter never shrinks from one attempt to a later one. */
  lemma {:induction false} CappedMonotone(m: nat, n: nat, baseMs: real, maxMs: real)
    requires baseMs > 0.0 && m <= n
    ensures Capped(m, baseMs, maxMs) <= Capped(n, baseMs, maxMs)
  {
    if m < n {
      CappedMonotone(m, n - 1, baseMs, maxMs);
      UncappedGrows(n - 1, baseMs);
    }
  }

  lemma EventuallyAbove(baseMs: real, maxMs: real, n: nat)
    requires baseMs > 0.0 && maxMs / baseMs < (n + 1) as real
    ensures Uncapped(n + 1, baseMs) >= maxMs
  {
    PowerExceeds(n + 1);
    var q, p := maxMs / baseMs, Power2(n + 1) as real;
    assert q <= p;
    Scale(baseMs, q, p);
    assert baseMs * q == maxMs;
  }

  ghost predicate AtCapFrom(n: nat, baseMs: real, maxMs: real) {
    forall m: nat :: m >= n ==> Capped(m, baseMs, maxMs) == maxMs
  }

  /** It reaches the cap after finitely many attempts and stays there. */
  lemma CapIsReached(baseMs: real, maxMs: real)
    requires baseMs > 0.0 && maxMs >= baseMs
    ensures exists n: nat :: AtCapFrom(n, baseMs, maxMs)
  {
    var ratio := maxMs / baseMs;
    assert ratio >= 0.0;
    var n: nat := ratio.Floor;
    EventuallyAbove(baseMs, maxMs, n);
    forall m: nat | m >= n + 1
      ensures Capped(m, baseMs, maxMs) == maxMs
    {
      CappedMonotone(n + 1, m, baseMs, maxMs);
    }
    assert AtCapFrom(n + 1, baseMs, maxMs);
  }

  function Low(capped: real, jitterRatio: real): real {
    capped * (1.0 - jitterRatio)
  }

  function High(capped: real, jitterRatio: real): real {
    capped * (1.0 + jitterRatio)
  }

  lemma JitterBounds(c: real, j: real, random: real)
    requires c >= 0.0 && j >= 0.0 && 0.0 <= random <= 1.0
    ensures -(c * j) <= c * j * (random * 2.0 - 1.0) <= c * j
  {
    assert c * j >= 0.0;
    Scale(c * j, -1.0, random * 2.0 - 1.0);
    Scale(c * j, random * 2.0 - 1.0, 1.0);
  }

  lemma RoundMonotone(x: real, y: real)
    requires x <= y
    ensures Round(x) <= Round(y)
    ensures x >= 0.0 ==> Round(x) >= 0
  {
  }

  lemma JitterSpan(c: real, j: real, random: real)
    requires c >= 0.0 && 0.0 <= j <= 1.0 && 0.0 <= random <= 1.0
    ensures 0.0 <= Low(c, j) <= Mid(c, j, random) <= High(c, j)
  {
    JitterBounds(c, j, random);
    Scale(c, 0.0, 1.0 - j);
  }

  lemma RoundedSpan(c: real, j: real, random: real)
    requires c >= 0.0 && 0.0 <= j <= 1.0 && 0.0 <= random <= 1.0
    ensures 0 <= Round(Low(c, j)) <= Jittered(c, j, random) <= Round(High(c, j))
  {
    JitterSpan(c, j, random);
    RoundMonotone(0.0, Low(c, j));
    RoundMonotone(Low(c, j), Mid(c, j, random));
    RoundMonotone(Mid(c, j, random), High(c, j));
  }

  /** Without the cap the delay starts at the base and doubles with every attempt; the cap is the lesser
      of the two. */
  lemma DelayDoubles(attempt: nat, baseMs: real, maxMs: real)
    ensures Uncapped(0, baseMs) == baseMs && Uncapped(attempt + 1, baseMs) == 2.0 * Uncapped(attempt, baseMs)
    ensures Capped(attempt, baseMs, maxMs) <= maxMs && Capped(attempt, baseMs, maxMs) <= Uncapped(attempt, baseMs)
    ensures Capped(attempt, baseMs, maxMs) == maxMs || Capped(attempt, baseMs, maxMs) == Uncapped(attempt, baseMs)
  {
    assert Power2(attempt + 1) as real == 2.0 * (Power2(attempt) as real);
  }

  /** The options are refused exactly when one of the three guards throws. The ends of the jitter range
      are reached when the source of randomness gives 0 and 1, and the middle is the delay without jitter. */
  lemma JitterEnds(attempt: int, baseMs: real, maxMs: real, jitterRatio: real)
    ensures forall random :: ExponentialBackoff(attempt, baseMs, maxMs, jitterRatio, random) == None <==>
      attempt < 0 || baseMs <= 0.0 || maxMs < baseMs || jitterRatio < 0.0 || jitterRatio > 1.0
    ensures ValidOptions(attempt, baseMs, maxMs, jitterRatio) ==>
      var capped := Capped(attempt, baseMs, maxMs);
      && ExponentialBackoff(attempt, baseMs, maxMs, jitterRatio, 0.0) == Some(Round(capped * (1.0 - jitterRatio)))
      && ExponentialBackoff(attempt, baseMs, maxMs, jitterRatio, 1.0) == Some(Round(capped * (1.0 + jitterRatio)))
      && ExponentialBackoff(attempt, baseMs, maxMs, jitterRatio, 0.5) == Some(Round(capped))
  {
    if ValidOptions(attempt, baseMs, maxMs, jitterRatio) {
      var capped := Capped(attempt, baseMs, maxMs);
      UncappedGrows(attempt, baseMs);
      RoundedSpan(capped, jitterRatio, 0.0);
      RoundedSpan(capped, jitterRatio, 0.5);
      RoundedSpan(capped, jitterRatio, 1.0);
    }
  }

  /** `Math.round` takes the nearest integer, and the greater of two. */
  lemma RoundIsNearest(x: real, n: int)
    ensures Round(x) == n <==> n as real - 0.5 <= x < n as real + 0.5
  {
  }

  /** With valid options every delay lies between the two rounded ends of the jitter range. */
  lemma DelayBounds(attempt: int, baseMs: real, maxMs: real, jitterRatio: real, random: real)
    requires ValidOptions(attempt, baseMs, maxMs, jitterRatio) && 0.0 <= random <= 1.0
    ensures ExponentialBackoff(attempt, baseMs, maxMs, jitterRatio, random).Some?
    ensures var capped := Capped(attempt, baseMs, maxMs);
      Round(Low(capped, jitterRatio))
      <= ExponentialBackoff(attempt, baseMs, maxMs, jitterRatio, random).value
      <= Round(High(capped, jitterRatio))
  {
    var capped := Capped(attempt, baseMs, maxMs);
    UncappedGrows(attempt, baseMs);
    RoundedSpan(capped, jitterRatio, random);
  }
}
