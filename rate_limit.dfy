/**
 * `RateLimitedLLM` (f_agent.py:36-61): the wrapper that spaces calls to the
 * language model at least `REQUEST_DELAY` apart and, once its call counter
 * has reached `MAX_REQUESTS_PER_MINUTE`, waits a minute and restarts the
 * counter. Wall-clock time is an integer number of milliseconds held by a
 * shared `Clock`; `time.sleep(d)` advances it by `d`.
 */
module RateLimit {
  import opened Wrappers
  import opened Messages

  /** `Config.REQUEST_DELAY` (6.0 seconds) in milliseconds. */
  const RequestDelay := 6000
  /** `Config.MAX_REQUESTS_PER_MINUTE`. */
  const MaxRequestsPerMinute := 10
  /** The `time.sleep(60)` taken when the counter has reached the cap. */
  const CapWait := 60000
  /** One minute in milliseconds, the window of the quota. */
  const Minute := 60000

  /** What `time.time()` reads; `time.sleep` is the only thing that moves it
      inside the model. */
  class Clock {
    var now: int

    constructor (start: int)
      ensures now == start
    {
      now := start;
    }

    method Sleep(d: int)
      requires d >= 0
      modifies this
      ensures now == old(now) + d
    {
      now := now + d;
    }
  }

  /** Consecutive admitted calls are at least `RequestDelay` apart. */
  ghost predicate Spaced(times: seq<int>) {
    forall i :: 0 < i < |times| ==> times[i - 1] + RequestDelay <= times[i]
  }

  class RateLimitedLLM {
    /** The clock `time.time()` and `time.sleep` act on. */
    const clock: Clock
    /** The remote `self.llm.invoke`; `None` when it raises. */
    const service: seq<Message> -> Option<Message>
    var lastCallTime: int
    var callCount: nat
    /** The times at which calls were let through, oldest first. */
    ghost var Admitted: seq<int>
    /** The message lists handed to the remote model, one per admitted call. */
    ghost var Forwarded: seq<seq<Message>>

    ghost predicate Valid()
      reads this
    {
      && callCount <= MaxRequestsPerMinute
      && Spaced(Admitted)
      && (Admitted != [] ==> Admitted[|Admitted| - 1] == lastCallTime)
      && |Forwarded| == |Admitted|
    }

    constructor (clock: Clock, service: seq<Message> -> Option<Message>)
      ensures Valid()
      ensures this.clock == clock && this.service == service
      ensures lastCallTime == 0 && callCount == 0
      ensures Admitted == [] && Forwarded == []
    {
      this.clock := clock;
      this.service := service;
      lastCallTime := 0;
      callCount := 0;
      Admitted := [];
      Forwarded := [];
    }

    /** `invoke`: never refuses a call; sleeps until the spacing is met, waits
        a minute more when the counter has reached the cap (restarting it),
        records the call, then forwards the messages exactly once. */
    method Invoke(messages: seq<Message>) returns (r: Option<Message>)
      requires Valid()
      modifies this, clock
      ensures Valid()
      ensures r == service(messages)
      ensures Forwarded == old(Forwarded) + [messages]
      ensures Admitted == old(Admitted) + [lastCallTime]
      ensures lastCallTime == clock.now >= old(clock.now)
      ensures lastCallTime >= old(lastCallTime) + RequestDelay
      ensures 1 <= callCount <= MaxRequestsPerMinute
      ensures old(callCount) < MaxRequestsPerMinute ==> callCount == old(callCount) + 1
      ensures old(callCount) >= MaxRequestsPerMinute ==>
                callCount == 1 && lastCallTime >= old(lastCallTime) + RequestDelay + CapWait
      ensures clock.now == (if old(clock.now) - old(lastCallTime) < RequestDelay
                            then old(lastCallTime) + RequestDelay else old(clock.now))
                           + (if old(callCount) >= MaxRequestsPerMinute then CapWait else 0)
    {
      var currentTime := clock.now;
      var elapsed := currentTime - lastCallTime;
      if elapsed < RequestDelay {
        clock.Sleep(RequestDelay - elapsed);
      }
      if callCount >= MaxRequestsPerMinute {
        clock.Sleep(CapWait);
        callCount := 0;
      }
      lastCallTime := clock.now;
      callCount := callCount + 1;
      Admitted := Admitted + [lastCallTime];
      Forwarded := Forwarded + [messages];
      r := service(messages);
    }
  }

  /** How many of `times` fall in the minute `[lo, lo + Minute)`. */
  function CallsIn(times: seq<int>, lo: int): (n: nat)
    ensures n <= |times|
  {
    if times == [] then 0
    else CallsIn(times[..|times| - 1], lo) + (if lo <= times[|times| - 1] < lo + Minute then 1 else 0)
  }

  /** The most calls spaced `RequestDelay` apart, the last at `x`, that fit in `[lo, lo + Minute)`. */
  function Capacity(x: int, lo: int): nat {
    if x < lo then 0
    else if x < lo + Minute then (x - lo) / RequestDelay + 1
    else (Minute - 1) / RequestDelay + 1
  }

  lemma {:induction false} CallsInCapacity(times: seq<int>, lo: int)
    requires times != [] && Spaced(times)
    ensures CallsIn(times, lo) <= Capacity(times[|times| - 1], lo)
  {
    var n := |times|;
    var x := times[n - 1];
    var prefix := times[..n - 1];
    if n > 1 {
      var y := prefix[n - 2];
      assert y + RequestDelay <= x;
      assert Spaced(prefix);
      CallsInCapacity(prefix, lo);
      if lo <= y && lo <= x < lo + Minute {
        assert (y - lo) / RequestDelay + 1 <= (x - lo) / RequestDelay;
      }
    }
  }

  /** The per-minute quota: whatever minute one looks at, calls let through
      with the spacing `Invoke` enforces number at most `MAX_REQUESTS_PER_MINUTE`. */
  lemma AtMostQuotaPerMinute(times: seq<int>, lo: int)
    requires Spaced(times)
    ensures CallsIn(times, lo) <= MaxRequestsPerMinute
  {
    if times != [] {
      CallsInCapacity(times, lo);
    }
  }

  /** The quota for the calls a limiter has admitted so far. */
  lemma LimiterKeepsQuota(limiter: RateLimitedLLM, lo: int)
    requires limiter.Valid()
    ensures CallsIn(limiter.Admitted, lo) <= MaxRequestsPerMinute
  {
    AtMostQuotaPerMinute(limiter.Admitted, lo);
  }
}
