/** The adaptive wait: a plain spin loop, the chunked form that replaces it, and the limit both
    adapt. What a waiter sees is a sequence of observations of its condition; reading number k sees
    `seen(k)`. */
module SpinWait {
  const MIN_SPIN: nat := 100
  const MAX_SPIN: nat := 50000
  const INC_STEP: nat := 5000
  const DEC_STEP: nat := 1000
  const CHUNK: nat := 4096

  /** The first reading from k on, below `end`, that sees the condition; `end` if none does. */
  function FirstHit(seen: nat -> bool, k: nat, end: nat): (h: nat)
    requires k <= end
    ensures k <= h <= end && (forall i :: k <= i < h ==> !seen(i)) && (h < end ==> seen(h))
    decreases end - k
  {
    if k == end || seen(k) then k else FirstHit(seen, k + 1, end)
  }

  /** The limit after a wait that did or did not resolve in its window. */
  function Adapted(limit: nat, hit: bool): nat {
    if hit then
      if limit >= MAX_SPIN then limit else if limit + INC_STEP > MAX_SPIN then MAX_SPIN else limit + INC_STEP
    else if limit <= MIN_SPIN then limit
    else if limit < MIN_SPIN + DEC_STEP then MIN_SPIN else limit - DEC_STEP
  }

  /** Skipping a prefix that saw nothing does not move the first hit. */
  lemma {:induction false} SkipMisses(seen: nat -> bool, k: nat, m: nat, end: nat)
    requires k <= m <= end && FirstHit(seen, k, m) == m
    ensures FirstHit(seen, k, end) == FirstHit(seen, m, end)
    decreases m - k
  {
    if k < m { SkipMisses(seen, k + 1, m, end); }
  }

  /** A hit inside a shorter window is the hit of the longer one. */
  lemma {:induction false} EarlyHit(seen: nat -> bool, k: nat, m: nat, end: nat)
    requires k <= m <= end && FirstHit(seen, k, m) < m
    ensures FirstHit(seen, k, end) == FirstHit(seen, k, m)
    decreases m - k
  {
    if k < m && !seen(k) { EarlyHit(seen, k + 1, m, end); }
  }

  /** Any sequence of waits keeps the limit between its bounds. */
  lemma {:induction false} LimitStaysBounded(limit: nat, hits: seq<bool>)
    requires MIN_SPIN <= limit <= MAX_SPIN
    ensures MIN_SPIN <= AfterAll(limit, hits) <= MAX_SPIN
  {
    if hits != [] { LimitStaysBounded(limit, hits[..|hits| - 1]); }
  }

  function AfterAll(limit: nat, hits: seq<bool>): nat {
    if hits == [] then limit else Adapted(AfterAll(limit, hits[..|hits| - 1]), hits[|hits| - 1])
  }

  /** A hit widens the window, a miss narrows it, each up to its bound. */
  lemma AdaptedMoves(limit: nat)
    requires MIN_SPIN <= limit <= MAX_SPIN
    ensures Adapted(limit, true) == (if limit + 5000 < 50000 then limit + 5000 else 50000) >= limit
    ensures Adapted(limit, false) == (if limit > 1100 then limit - 1000 else 100) <= limit
  {
  }

  function Repeat(hit: bool, n: nat): seq<bool> { seq(n, _ => hit) }

  /** A run of n hits adds 5000 each up to 50000, and a run of n misses takes 1000 each down to 100:
      ten hits in a row reach the top from anywhere, and fifty misses the bottom. */
  lemma {:induction false} RunsOfOutcomes(limit: nat, n: nat)
    requires MIN_SPIN <= limit <= MAX_SPIN
    ensures AfterAll(limit, Repeat(true, n)) == if limit + 5000 * n < 50000 then limit + 5000 * n else 50000
    ensures AfterAll(limit, Repeat(false, n)) == if limit > 1000 * n + 100 then limit - 1000 * n else 100
  {
    if n > 0 {
      RunsOfOutcomes(limit, n - 1);
      assert Repeat(true, n)[..n - 1] == Repeat(true, n - 1) && Repeat(false, n)[..n - 1] == Repeat(false, n - 1);
    }
  }

  class WaitStrategy {
    var currentLimit: nat

    constructor ()
      ensures currentLimit == MAX_SPIN
    {
      currentLimit := MAX_SPIN;
    }

    /** With one waiter at a time the compare-and-swap succeeds at once. */
    method RecordOutcome(hit: bool)
      modifies this
      ensures currentLimit == Adapted(old(currentLimit), hit)
    {
      if hit {
        if currentLimit >= MAX_SPIN { return; }
        var newLimit := currentLimit + INC_STEP;
        if newLimit > MAX_SPIN { newLimit := MAX_SPIN; }
        currentLimit := newLimit;
      } else {
        if currentLimit <= MIN_SPIN { return; }
        var newLimit: int := currentLimit - DEC_STEP;
        if newLimit < MIN_SPIN { newLimit := MIN_SPIN; }
        currentLimit := newLimit;
      }
    }

    /** The plain form: one reading per turn, and one more after the sleep. */
    method Wait(seen: nat -> bool) returns (ready: bool, readings: nat)
      modifies this
      ensures Resolved(seen, old(currentLimit), ready, readings, currentLimit)
    {
      var limit, i := currentLimit, 0;
      ready := false;
      while i < limit && !ready
        invariant 0 <= i <= limit && currentLimit == limit == old(currentLimit)
        invariant FirstHit(seen, 0, limit) == if ready then i else FirstHit(seen, i, limit)
        invariant ready ==> i < limit
        decreases limit - i, !ready
      {
        if seen(i) { ready := true; } else { i := i + 1; }
      }
      readings := if ready then i + 1 else limit;
      RecordOutcome(ready);
      if !ready {
        ready := seen(readings);
        readings := readings + 1;
      }
    }

    /** The chunked form: bursts of at most CHUNK readings. */
    method WaitState(seen: nat -> bool) returns (ready: bool, readings: nat)
      modifies this
      ensures Resolved(seen, old(currentLimit), ready, readings, currentLimit)
    {
      hide FirstHit;
      var limit, total := currentLimit, 0;
      ready := false;
      while total < limit && !ready
        invariant 0 <= total <= limit && currentLimit == limit == old(currentLimit)
        invariant FirstHit(seen, 0, limit) == if ready then total else FirstHit(seen, total, limit)
        invariant ready ==> total < limit
        decreases limit - total, !ready
      {
        var chunk := limit - total;
        if chunk > CHUNK { chunk := CHUNK; }
        var iters, ok := SpinUntil(seen, total, chunk);
        if ok { EarlyHit(seen, total, total + chunk, limit); } else { SkipMisses(seen, total, total + chunk, limit); }
        total := total + iters;
        ready := ok;
      }
      readings := if ready then total + 1 else limit;
      RecordOutcome(ready);
      if !ready {
        ready := seen(readings);
        readings := readings + 1;
      }
    }
  }

  /** One burst: how many readings missed, and whether one hit. */
  method SpinUntil(seen: nat -> bool, from: nat, max: nat) returns (iters: nat, ok: bool)
    ensures iters <= max && FirstHit(seen, from, from + max) == from + iters && ok == (iters < max)
  {
    iters, ok := 0, false;
    while iters < max && !ok
      invariant iters <= max && (ok ==> iters < max)
      invariant FirstHit(seen, from, from + max) == if ok then from + iters else FirstHit(seen, from + iters, from + max)
      decreases max - iters, !ok
    {
      if seen(from + iters) { ok := true; } else { iters := iters + 1; }
    }
  }

  /** What a wait comes to: the answer, how many readings it took, and the limit it leaves. Both
      forms meet this, and it fixes all three. */
  ghost predicate Resolved(seen: nat -> bool, limit: nat, ready: bool, readings: nat, after: nat) {
    var h := FirstHit(seen, 0, limit);
    && after == Adapted(limit, h < limit)
    && readings == h + 1
    && ready == (h < limit || seen(limit))
  }

  /** The result is whether any of the readings taken saw the condition, and only the last can. */
  lemma ReadyIffSeen(seen: nat -> bool, limit: nat, ready: bool, readings: nat, after: nat)
    requires Resolved(seen, limit, ready, readings, after)
    ensures ready <==> exists i :: 0 <= i < readings && seen(i)
    ensures forall i :: 0 <= i < readings - 1 ==> !seen(i)
  {
    assert ready ==> seen(readings - 1);
  }
}
