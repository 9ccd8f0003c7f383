/** The per-token bucket of the rate limiter, over exact real time. */
module RateLimit {

  datatype State = State(tokens: real, lastRefill: real)

  /** The bucket's fixed parameters. */
  datatype Limits = Limits(capacity: real, refill: real)

  function Max(a: real, b: real): real { if a < b then b else a }

  function Min(a: real, b: real): real { if a < b then a else b }

  function Refilled(l: Limits, s: State, now: real): real {
    Min(l.capacity, s.tokens + Max(0.0, now - s.lastRefill) * l.refill)
  }

  predicate Admits(l: Limits, s: State, now: real) { Refilled(l, s, now) >= 1.0 }

  function Consumed(l: Limits, s: State, now: real): State {
    State(Refilled(l, s, now) - if Admits(l, s, now) then 1.0 else 0.0, now)
  }

  function RetryAfter(l: Limits, s: State, now: real): real {
    if Admits(l, s, now) then 0.0
    else if l.refill > 0.0 then (1.0 - Refilled(l, s, now)) / l.refill
    else 60.0
  }

  class TokenBucket {
    const capacity: real
    const refillPerSec: real
    var tokens: real
    var lastRefill: real

    function Params(): Limits { Limits(capacity, refillPerSec) }

    function View(): State
      reads this
    {
      State(tokens, lastRefill)
    }

    /** Buckets are created full. */
    constructor (capacity: real, refillPerSec: real, now: real)
      ensures Params() == Limits(capacity, refillPerSec) && View() == State(capacity, now)
    {
      this.capacity, this.refillPerSec := capacity, refillPerSec;
      tokens, lastRefill := capacity, now;
    }

    method Consume(now: real) returns (allowed: bool, retryAfter: real)
      modifies this
      ensures View() == Consumed(Params(), old(View()), now)
      ensures allowed == Admits(Params(), old(View()), now)
      ensures retryAfter == RetryAfter(Params(), old(View()), now)
    {
      var elapsed := Max(0.0, now - lastRefill);
      tokens := Min(capacity, tokens + elapsed * refillPerSec);
      lastRefill := now;
      if tokens >= 1.0 {
        tokens := tokens - 1.0;
        return true, 0.0;
      }
      var deficit := 1.0 - tokens;
      return false, if refillPerSec > 0.0 then deficit / refillPerSec else 60.0;
    }
  }

  ghost predicate Bounded(l: Limits, s: State) {
    l.capacity >= 1.0 && l.refill >= 0.0 && 0.0 <= s.tokens <= l.capacity
  }

  // ---- runs at non-decreasing times ----

  ghost predicate Ordered(times: seq<real>, from: real) {
    (forall i :: 0 <= i < |times| ==> from <= times[i])
    && forall i, j :: 0 <= i <= j < |times| ==> times[i] <= times[j]
  }

  function After(l: Limits, s: State, times: seq<real>): State {
    if times == [] then s else Consumed(l, After(l, s, times[..|times| - 1]), times[|times| - 1])
  }

  /** Requests let through among those from position `from` on. */
  function Admitted(l: Limits, s: State, times: seq<real>, from: nat): nat
    decreases |times|
  {
    if |times| <= from then 0
    else
      var n := |times| - 1;
      Admitted(l, s, times[..n], from) + if Admits(l, After(l, s, times[..n]), times[n]) then 1 else 0
  }

  lemma {:induction false} TokensStayBounded(l: Limits, s: State, times: seq<real>)
    requires Bounded(l, s) && Ordered(times, s.lastRefill)
    ensures Bounded(l, After(l, s, times))
    ensures After(l, s, times).lastRefill == if times == [] then s.lastRefill else times[|times| - 1]
  {
    if times != [] {
      TokensStayBounded(l, s, times[..|times| - 1]);
    }
  }

  lemma Distribute(r: real, a: real, b: real)
    ensures r * a + r * b == r * (a + b)
  {
  }

  /** What a bucket can give out in `time`: its capacity and the refill. */
  function Allowance(l: Limits, time: real): real { l.capacity + l.refill * time }

  lemma AllowanceGrows(l: Limits, time: real, more: real)
    ensures Allowance(l, time + more) == Allowance(l, time) + l.refill * more
    ensures l.refill >= 0.0 && more >= 0.0 ==> Allowance(l, time) <= Allowance(l, time + more)
  {
    Distribute(l.refill, time, more);
    if l.refill >= 0.0 && more >= 0.0 { assert l.refill * more >= 0.0; }
  }

  lemma RefillIsElapsedTime(l: Limits, s: State, now: real)
    requires now >= s.lastRefill
    ensures Refilled(l, s, now) <= l.capacity && Refilled(l, s, now) <= s.tokens + l.refill * (now - s.lastRefill)
  {
  }

  /** An interval of refilling stays within the allowance, whatever was admitted before. */
  lemma RefillFitsAllowance(l: Limits, s: State, now: real, admitted: real, start: real)
    requires l.refill >= 0.0 && now >= s.lastRefill
    requires s.tokens + admitted <= Allowance(l, s.lastRefill - start)
    ensures Refilled(l, s, now) + admitted <= Allowance(l, now - start)
  {
    RefillIsElapsedTime(l, s, now);
    AllowanceGrows(l, s.lastRefill - start, now - s.lastRefill);
    assert (s.lastRefill - start) + (now - s.lastRefill) == now - start;
  }

  /** One more request: the refill pays for at most what it adds. */
  lemma BudgetStep(l: Limits, s: State, times: seq<real>, from: nat)
    requires from < |times|
    ensures var n := |times| - 1;
            After(l, s, times).tokens + Admitted(l, s, times, from) as real
            == Refilled(l, After(l, s, times[..n]), times[n]) + Admitted(l, s, times[..n], from) as real
  {
  }

  lemma FirstRequestFits(l: Limits, s: State, now: real)
    ensures Refilled(l, s, now) <= Allowance(l, now - now)
  {
    assert l.refill * (now - now) == 0.0;
  }

  /** Tokens left plus requests admitted never exceed the allowance of the time passed. */
  lemma {:induction false} BudgetHolds(l: Limits, s: State, times: seq<real>, from: nat)
    requires Bounded(l, s) && Ordered(times, s.lastRefill) && from < |times|
    ensures After(l, s, times).tokens + Admitted(l, s, times, from) as real
            <= Allowance(l, times[|times| - 1] - times[from])
  {
    var n := |times| - 1;
    TokensStayBounded(l, s, times[..n]);
    BudgetStep(l, s, times, from);
    var before := After(l, s, times[..n]);
    if from < n {
      BudgetHolds(l, s, times[..n], from);
      RefillFitsAllowance(l, before, times[n], Admitted(l, s, times[..n], from) as real, times[from]);
    } else {
      FirstRequestFits(l, before, times[n]);
    }
  }

  /**
   In any window of length T of any run the bucket admits at most capacity plus refill times T
   requests; the window is given by the positions of its first and last request.
   */
  lemma WindowBound(l: Limits, s: State, times: seq<real>, first: nat, last: nat, length: real)
    requires Bounded(l, s) && Ordered(times, s.lastRefill)
    requires first <= last < |times| && times[last] - times[first] <= length
    ensures Admitted(l, s, times[..last + 1], first) as real <= Allowance(l, length)
  {
    var window := times[..last + 1];
    BudgetHolds(l, s, window, first);
    TokensStayBounded(l, s, window);
    var span := times[last] - times[first];
    AllowanceGrows(l, span, length - span);
    assert span + (length - span) == length;
  }

  /** After a refusal the answered delay is exactly the earliest at which a next request is admitted. */
  lemma RetryAfterIsExact(l: Limits, s: State, now: real, delay: real)
    requires Bounded(l, s) && l.refill > 0.0 && !Admits(l, s, now) && delay >= 0.0
    ensures Admits(l, Consumed(l, s, now), now + delay) <==> delay >= RetryAfter(l, s, now)
  {
    var t := Consumed(l, s, now).tokens;
    assert Max(0.0, (now + delay) - now) == delay;
    var need := (1.0 - t) / l.refill;
    assert need * l.refill == 1.0 - t;
    if delay >= need {
      Distribute(l.refill, need, delay - need);
      assert l.refill * (delay - need) >= 0.0;
    } else {
      Distribute(l.refill, delay, need - delay);
      assert l.refill * (need - delay) > 0.0;
    }
  }

  // ---- what is let through ----

  /** A request is let through exactly when, with what has come back since, a whole token is there; it takes one. */
  lemma OneTokenPerRequest(l: Limits, s: State, now: real)
    requires Bounded(l, s) && s.lastRefill <= now
    ensures var back := s.tokens + (now - s.lastRefill) * l.refill;
            var full := if back < l.capacity then back else l.capacity;
            && (Admits(l, s, now) <==> full >= 1.0)
            && Consumed(l, s, now) == State(if full >= 1.0 then full - 1.0 else full, now)
  {
  }

  /** A burst: a bucket holding n tokens lets n simultaneous requests through. */
  lemma {:induction false} BurstIsAdmitted(l: Limits, s: State, n: nat)
    requires Bounded(l, s) && s.tokens >= n as real
    ensures Admitted(l, s, seq(n, i => s.lastRefill), 0) == n
    ensures After(l, s, seq(n, i => s.lastRefill)) == State(s.tokens - n as real, s.lastRefill)
    decreases n
  {
    var times := seq(n, i => s.lastRefill);
    if n > 0 {
      BurstIsAdmitted(l, s, n - 1);
      assert times[..n - 1] == seq(n - 1, i => s.lastRefill);
      OneTokenPerRequest(l, After(l, s, times[..n - 1]), s.lastRefill);
    }
  }

  /** Without refill a refusal answers a minute, and nothing ever comes back. */
  lemma NoRefillAnswersAMinute(l: Limits, s: State, now: real, later: real)
    requires Bounded(l, s) && l.refill == 0.0 && !Admits(l, s, now)
    ensures RetryAfter(l, s, now) == 60.0 && !Admits(l, Consumed(l, s, now), later)
  {
  }
}
