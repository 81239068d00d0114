/** `RateLimiter`: a per-minute request window and a cool-down between
    requests. The clock is the argument `now`; a sleep of `w` seconds moves it
    forward by exactly `w`. */
module RateLimit {

  class RateLimiter {
    const requestsPerMinute: int
    const cooldownSeconds: int
    var lastRequestTime: int
    var requestCount: int
    var minuteStart: int

    /** The counter never exceeds the per-minute limit (when the limit is at least 1). */
    predicate Valid()
      reads this
    {
      0 <= requestCount && (requestsPerMinute >= 1 ==> requestCount <= requestsPerMinute)
    }

    constructor (requestsPerMinute: int, cooldownSeconds: int, now: int)
      ensures this.requestsPerMinute == requestsPerMinute && this.cooldownSeconds == cooldownSeconds
      ensures lastRequestTime == 0 && requestCount == 0 && minuteStart == now
      ensures Valid()
    {
      this.requestsPerMinute := requestsPerMinute;
      this.cooldownSeconds := cooldownSeconds;
      lastRequestTime := 0;
      requestCount := 0;
      minuteStart := now;
    }

    /** `wait_if_needed()` called at time `now`; `sleeps` are the `time.sleep`
        calls it makes, in order. */
    method WaitIfNeeded(now: int) returns (sleeps: seq<int>)
      requires Valid()
      modifies this
      ensures Valid()
      ensures requestCount >= 1
      ensures forall i :: 0 <= i < |sleeps| ==> sleeps[i] > 0
      // the window after the reset of a window 60 seconds old or older
      ensures var (count, start) := Window(now, old(requestCount), old(minuteStart));
        && sleeps == (if count >= requestsPerMinute then [60 - (now - start)] else [])
                     + (if now - old(lastRequestTime) < cooldownSeconds
                        then [cooldownSeconds - (now - old(lastRequestTime))] else [])
        && requestCount == (if count >= requestsPerMinute then 1 else count + 1)
        && minuteStart == (if count >= requestsPerMinute then start + 60 else start)
      // the last request time is the clock after every sleep
      ensures lastRequestTime == now + Sum(sleeps)
    {
      var clock;
      sleeps, clock := WaitForWindow(now);
      var timeSinceLast := now - lastRequestTime;
      if timeSinceLast < cooldownSeconds {
        var waitTime := cooldownSeconds - timeSinceLast;
        SumAppend(sleeps, waitTime);
        sleeps := sleeps + [waitTime];
        clock := clock + waitTime;
      }
      requestCount := requestCount + 1;
      lastRequestTime := clock;
    }

    /** The first half of `wait_if_needed()`: the window is restarted once it is
        60 seconds old, and a full window sleeps until its minute is over and
        starts a new one at the clock. */
    method WaitForWindow(now: int) returns (sleeps: seq<int>, clock: int)
      requires Valid()
      modifies this
      ensures Valid() && lastRequestTime == old(lastRequestTime)
      ensures forall i :: 0 <= i < |sleeps| ==> sleeps[i] > 0
      ensures var (count, start) := Window(now, old(requestCount), old(minuteStart));
        && sleeps == (if count >= requestsPerMinute then [60 - (now - start)] else [])
        && requestCount == (if count >= requestsPerMinute then 0 else count)
        && minuteStart == (if count >= requestsPerMinute then start + 60 else start)
      ensures clock == now + Sum(sleeps)
    {
      sleeps := [];
      clock := now;
      if now - minuteStart >= 60 {
        requestCount := 0;
        minuteStart := now;
      }
      if requestCount >= requestsPerMinute {
        var waitTime := 60 - (now - minuteStart);
        if waitTime > 0 {
          SumAppend(sleeps, waitTime);
          sleeps := sleeps + [waitTime];
          clock := clock + waitTime;
          requestCount := 0;
          minuteStart := clock;
        }
      }
    }
  }

  /** The request count and window start once a window 60 seconds old or
      older has been restarted at `now`. */
  function Window(now: int, count: int, start: int): (int, int) {
    if now - start >= 60 then (0, now) else (count, start)
  }

  function Sum(s: seq<int>): int {
    if s == [] then 0 else Sum(s[..|s| - 1]) + s[|s| - 1]
  }

  lemma SumAppend(s: seq<int>, x: int)
    ensures Sum(s + [x]) == Sum(s) + x
  {
    assert (s + [x])[..|s|] == s;
  }
}
