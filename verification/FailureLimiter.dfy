/** The sliding-window failure limiter of `_record_failure` and the bound it gives on crash storms. */
module FailureLimiter {

  datatype Limits = Limits(restartLimit: nat, restartWindow: real, cooldown: real) {
    /** What the constructor of ManagedRuntime checks. */
    predicate Valid() {
      restartLimit >= 1 && restartWindow > 0.0 && cooldown > 0.0
    }
  }

  /** The deque after the popleft loop. */
  function DropOld(failures: seq<real>, now: real, window: real): seq<real> {
    if |failures| > 0 && now - failures[0] >= window then DropOld(failures[1..], now, window) else failures
  }

  function Power2(n: nat): real {
    if n == 0 then 1.0 else 2.0 * Power2(n - 1)
  }

  function Delay(count: nat, limits: Limits): real
    requires count >= 1
  {
    if count >= limits.restartLimit then limits.cooldown
    else var backoff := 0.25 * Power2(count - 1); if backoff < 5.0 then backoff else 5.0
  }

  /** The new deque and the time before which no launch starts; `jitter` is the random part. */
  function Record(failures: seq<real>, now: real, jitter: real, limits: Limits): (seq<real>, real) {
    var kept := DropOld(failures, now, limits.restartWindow) + [now];
    (kept, now + Delay(|kept|, limits) + jitter)
  }

  // ---- the schedule ------------------------------------------------------------------------------

  /** The waiting time after the failure that makes `count` in the window, in seconds. */
  function Backoff(count: nat, limits: Limits): real
    requires count >= 1
  {
    if count >= limits.restartLimit then limits.cooldown
    else if count <= 5 then [0.25, 0.5, 1.0, 2.0, 4.0][count - 1]
    else 5.0
  }

  lemma {:induction false} Power2From5(n: nat)
    requires n >= 5
    ensures Power2(n) >= 32.0
  {
    if n == 5 {
      assert Power2(3) == 2.0 * Power2(2);
      assert Power2(5) == 2.0 * Power2(4) && Power2(4) == 2.0 * Power2(3);
    } else {
      Power2From5(n - 1);
    }
  }

  /** The capped doubling of the source is this schedule. */
  lemma DelayIsSchedule(count: nat, limits: Limits)
    requires count >= 1
    ensures Delay(count, limits) == Backoff(count, limits)
  {
    if count <= 5 {
      assert Power2(3) == 2.0 * Power2(2);
      assert Power2(4) == 2.0 * Power2(3);
    } else {
      Power2From5(count - 1);
    }
  }

  /** The last `count` of the failures up to the `i`th lie in the window that ends with it, and no
      earlier one does. */
  predicate InWindow(times: seq<real>, i: nat, window: real, count: nat)
    requires i < |times|
  {
    && 1 <= count <= i + 1
    && (forall j :: i - count < j <= i ==> times[i] - times[j] < window)
    && forall j :: 0 <= j <= i - count ==> times[i] - times[j] >= window
  }

  /** The retry time set by the `i`th failure: the schedule for the failures in its window, plus a jitter. */
  ghost predicate ScheduledAt(times: seq<real>, retryAt: seq<real>, i: nat, limits: Limits)
    requires i < |times| && i < |retryAt|
  {
    exists count: nat ::
      && InWindow(times, i, limits.restartWindow, count)
      && times[i] + Backoff(count, limits) <= retryAt[i] < times[i] + Backoff(count, limits) + 0.05
  }

  ghost predicate Scheduled(times: seq<real>, retryAt: seq<real>, limits: Limits) {
    |retryAt| == |times| && forall i :: 0 <= i < |times| ==> ScheduledAt(times, retryAt, i, limits)
  }

  lemma NothingScheduled(limits: Limits)
    ensures Scheduled([], [], limits)
  {
  }

  /** What the loop keeps is in the window. */
  lemma {:induction false} DropsAll(failures: seq<real>, now: real, window: real)
    ensures var kept := DropOld(failures, now, window); kept != [] ==> now - kept[0] < window
  {
    if |failures| > 0 && now - failures[0] >= window {
      DropsAll(failures[1..], now, window);
    }
  }

  /** The deque holds exactly the failures in the window. */
  lemma KeptInWindow(failures: seq<real>, times: seq<real>, now: real, window: real)
    requires IsTail(failures, times, window) && NonDecreasing(times + [now]) && window > 0.0
    ensures InWindow(times + [now], |times|, window, |DropOld(failures, now, window)| + 1)
  {
    DropsAll(failures, now, window);
    DropsOnly(failures, now, window);
    DropOldTail(failures, times, now, window);
    var kept, all := DropOld(failures, now, window), times + [now];
    hide DropOld;
    forall j | |times| - |kept| - 1 < j <= |times|
      ensures now - all[j] < window
    {
      if j < |times| {
        assert kept[0] == all[|times| - |kept|] <= all[j];
      }
    }
  }

  /** One more failure follows the schedule. */
  lemma ScheduledStep(failures: seq<real>, times: seq<real>, retryAt: seq<real>, now: real, jitter: real, limits: Limits)
    requires limits.Valid() && Scheduled(times, retryAt, limits) && IsTail(failures, times, limits.restartWindow)
    requires NonDecreasing(times + [now]) && 0.0 <= jitter < 0.05
    ensures Scheduled(times + [now], retryAt + [Record(failures, now, jitter, limits).1], limits)
  {
    var kept, retry := Record(failures, now, jitter, limits).0, Record(failures, now, jitter, limits).1;
    var all, allRetry := times + [now], retryAt + [retry];
    KeptInWindow(failures, times, now, limits.restartWindow);
    DelayIsSchedule(|kept|, limits);
    assert retry == now + Backoff(|kept|, limits) + jitter;
    hide Record, DropOld, IsTail, Backoff, NonDecreasing, Delay;
    forall i | 0 <= i < |all|
      ensures ScheduledAt(all, allRetry, i, limits)
    {
      if i < |times| {
        assert ScheduledAt(times, retryAt, i, limits);
        var count: nat :| InWindow(times, i, limits.restartWindow, count)
                          && times[i] + Backoff(count, limits) <= retryAt[i] < times[i] + Backoff(count, limits) + 0.05;
        assert InWindow(all, i, limits.restartWindow, count);
      } else {
        assert InWindow(all, i, limits.restartWindow, |kept|);
      }
    }
  }

  // ---- the history of all failures ---------------------------------------------------------------

  predicate NonDecreasing(times: seq<real>) {
    forall i, j :: 0 <= i < j < |times| ==> times[i] <= times[j]
  }

  /** The deque is a suffix of the history, and what it lacks is out of the window. */
  predicate IsTail(failures: seq<real>, times: seq<real>, window: real) {
    && |failures| <= |times|
    && failures == times[|times| - |failures|..]
    && forall j :: 0 <= j < |times| - |failures| ==> times[|times| - 1] - times[j] >= window
  }

  lemma {:induction false} DropOldTail(failures: seq<real>, times: seq<real>, now: real, window: real)
    requires IsTail(failures, times, window) && NonDecreasing(times + [now]) && window > 0.0
    ensures IsTail(DropOld(failures, now, window) + [now], times + [now], window)
  {
    DropsOnly(failures, now, window);
    var kept := DropOld(failures, now, window);
    var all := times + [now];
    assert kept + [now] == all[|all| - |kept| - 1..];
    forall j | 0 <= j < |all| - |kept| - 1
      ensures now - all[j] >= window
    {
      if j < |times| - |failures| {
        assert all[|times| - 1] <= all[|times|];
      } else {
        var k := j - (|times| - |failures|);
        assert failures[k] == all[j] && k < |failures| - |kept|;
      }
    }
  }

  lemma {:induction false} DropsOnly(failures: seq<real>, now: real, window: real)
    ensures var kept := DropOld(failures, now, window);
            && |kept| <= |failures| && kept == failures[|failures| - |kept|..]
            && forall k :: 0 <= k < |failures| - |kept| ==> now - failures[k] >= window
    decreases |failures|
  {
    if |failures| > 0 && now - failures[0] >= window {
      DropsOnly(failures[1..], now, window);
      var kept := DropOld(failures, now, window);
      forall k | 0 <= k < |failures| - |kept|
        ensures now - failures[k] >= window
      {
        assert k > 0 ==> failures[1..][k - 1] == failures[k];
      }
    }
  }

  /** The failures of a window are all in the deque, so enough of them mean a cooldown. */
  lemma DelayInWindow(failures: seq<real>, times: seq<real>, limits: Limits, j: nat)
    requires limits.Valid() && IsTail(failures, times, limits.restartWindow) && j < |times|
    requires times[|times| - 1] - times[j] < limits.restartWindow && |times| - j >= limits.restartLimit
    ensures |failures| >= |times| - j && Delay(|failures|, limits) == limits.cooldown
  {
  }

  /** What the supervisor keeps about its failures: they are ordered; each is recorded no earlier than
      the retry time set by the one before; and a full window sets a retry time after the cooldown.
      Only the first `counted` failures, those before shutdown, are covered. */
  predicate Paced(times: seq<real>, retryAt: seq<real>, counted: nat, limits: Limits) {
    && NonDecreasing(times) && |retryAt| == |times| && counted <= |times|
    && (forall i :: 0 < i < counted ==> times[i] >= retryAt[i - 1])
    && forall i, j :: 0 <= j <= i < |times| && i - j + 1 >= limits.restartLimit && times[i] - times[j] < limits.restartWindow ==>
         retryAt[i] >= times[i] + limits.cooldown
  }

  /** k times x. */
  function Times(k: int, x: real): real {
    k as real * x
  }

  lemma {:induction false} Spread(times: seq<real>, retryAt: seq<real>, counted: nat, limits: Limits, a: nat, b: nat)
    requires limits.Valid() && Paced(times, retryAt, counted, limits) && a <= b < counted
    requires times[b] - times[a] < limits.restartWindow && b - a + 1 >= limits.restartLimit
    ensures times[b] - times[a] >= Times(b - a + 1 - limits.restartLimit, limits.cooldown)
    decreases b
  {
    hide Times;
    OneMore(b - a + 1 - limits.restartLimit, limits.cooldown);
    if b - a + 1 == limits.restartLimit {
      assert times[a] <= times[b];
    } else {
      assert times[b - 1] <= times[b] && times[b] >= retryAt[b - 1] >= times[b - 1] + limits.cooldown;
      Spread(times, retryAt, counted, limits, a, b - 1);
    }
  }

  lemma OneMore(k: int, x: real)
    ensures Times(k, x) == Times(k - 1, x) + x && Times(0, x) == 0.0
  {
    assert k as real == (k - 1) as real + 1.0;
  }

  /** Crash storms are bounded: k failures less than a window apart satisfy
      (k - restart_limit) * cooldown < restart_window. */
  lemma CrashStormBound(times: seq<real>, retryAt: seq<real>, counted: nat, limits: Limits, a: nat, b: nat)
    requires limits.Valid() && Paced(times, retryAt, counted, limits) && a <= b < counted
    requires times[b] - times[a] < limits.restartWindow
    ensures Times(b - a + 1 - limits.restartLimit, limits.cooldown) < limits.restartWindow
  {
    if b - a + 1 >= limits.restartLimit {
      Spread(times, retryAt, counted, limits, a, b);
    } else {
      NegativeProduct(b - a + 1 - limits.restartLimit, limits.cooldown);
    }
  }

  lemma NegativeProduct(n: int, x: real)
    requires n < 0 && x > 0.0
    ensures Times(n, x) < 0.0
  {
  }

  /** A failure whose retry time respects the cooldown extends a paced history. */
  lemma PacedMore(times: seq<real>, retryAt: seq<real>, counted: nat, now: real, retry: real, limits: Limits, early: bool)
    requires Paced(times, retryAt, counted, limits) && NonDecreasing(times + [now])
    requires early || counted == |times|
    requires !early && |times| > 0 ==> now >= retryAt[|times| - 1]
    requires forall j :: 0 <= j <= |times| && |times| - j + 1 >= limits.restartLimit && now - (times + [now])[j] < limits.restartWindow ==>
               retry >= now + limits.cooldown
    ensures Paced(times + [now], retryAt + [retry], if early then counted else counted + 1, limits)
  {
    hide NonDecreasing;
    var all, allRetry := times + [now], retryAt + [retry];
    forall i, j | 0 <= j <= i < |all| && i - j + 1 >= limits.restartLimit && all[i] - all[j] < limits.restartWindow
      ensures allRetry[i] >= all[i] + limits.cooldown
    {
      if i < |times| {
        assert all[i] == times[i] && all[j] == times[j] && allRetry[i] == retryAt[i];
      } else {
        assert all[i] == now && allRetry[i] == retry;
      }
    }
  }

  /** One more failure keeps the pace: it comes no earlier than the last retry time allowed. */
  lemma PacedStep(failures: seq<real>, times: seq<real>, retryAt: seq<real>, counted: nat, now: real, jitter: real,
                  limits: Limits, early: bool)
    requires limits.Valid() && Paced(times, retryAt, counted, limits) && IsTail(failures, times, limits.restartWindow)
    requires NonDecreasing(times + [now]) && jitter >= 0.0
    requires early || counted == |times|
    requires !early && |times| > 0 ==> now >= retryAt[|times| - 1]
    ensures var (kept, retry) := Record(failures, now, jitter, limits);
            && IsTail(kept, times + [now], limits.restartWindow)
            && Paced(times + [now], retryAt + [retry], if early then counted else counted + 1, limits)
            && retry >= now
  {
    DropOldTail(failures, times, now, limits.restartWindow);
    var kept := DropOld(failures, now, limits.restartWindow) + [now];
    RetryTime(kept, times, now, jitter, limits);
    assert |times| == |retryAt|;
    hide Delay, IsTail, Paced, NonDecreasing;
    PacedMore(times, retryAt, counted, now, now + Delay(|kept|, limits) + jitter, limits, early);
  }

  /** The retry time lies after the failure, and after the cooldown if the window is full. */
  lemma RetryTime(kept: seq<real>, times: seq<real>, now: real, jitter: real, limits: Limits)
    requires limits.Valid() && IsTail(kept, times + [now], limits.restartWindow) && |kept| >= 1 && jitter >= 0.0
    ensures var retry := now + Delay(|kept|, limits) + jitter;
            && retry >= now
            && forall j :: 0 <= j <= |times| && |times| - j + 1 >= limits.restartLimit && now - (times + [now])[j] < limits.restartWindow ==>
                 retry >= now + limits.cooldown
  {
    DelayPositive(|kept|, limits);
    hide Delay, IsTail;
    forall j | 0 <= j <= |times| && |times| - j + 1 >= limits.restartLimit && now - (times + [now])[j] < limits.restartWindow
      ensures now + Delay(|kept|, limits) + jitter >= now + limits.cooldown
    {
      DelayInWindow(kept, times + [now], limits, j);
    }
  }

  lemma DelayPositive(count: nat, limits: Limits)
    requires count >= 1 && limits.Valid()
    ensures Delay(count, limits) > 0.0
  {
    if count >= 1 {
      Power2Positive(count - 1);
    }
  }

  lemma {:induction false} Power2Positive(n: nat)
    ensures Power2(n) > 0.0
  {
    if n > 0 {
      Power2Positive(n - 1);
    }
  }
}
