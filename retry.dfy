/** `RetryUtility`: run an asynchronous action, and while it throws and the
    attempt budget is not spent, log a warning, wait the retry interval and
    run it again; once the budget is spent, log an error and rethrow.

    The action is given as the outcome of each attempt by attempt number
    (1, 2, …); the log calls and delays are returned as a trace. */
module Retry {
  import opened Common

  /** `RetrySettings`. */
  datatype RetrySettings = RetrySettings(maxAttempts: int, retryIntervalSeconds: int)

  /** `new RetrySettings()`: three attempts, one second apart. */
  const DefaultSettings: RetrySettings := RetrySettings(3, 1)

  /** What one run of the loop does, in order. */
  datatype RetryEvent =
    | Invoked(attempt: nat)
    | WarningLogged(attempt: nat, maxAttempts: int, intervalSeconds: int, error: Exception)
    | ErrorLogged(attempts: nat, error: Exception)
    | Delayed(seconds: int)

  /** The number of attempts an always-failing action gets: the loop checks
      `attempts >= MaxAttempts` only after an attempt, so at least one. */
  function Budget(s: RetrySettings): (n: nat)
    ensures n >= 1 && n >= s.maxAttempts
    ensures s.maxAttempts >= 1 ==> n == s.maxAttempts
  {
    if s.maxAttempts < 1 then 1 else s.maxAttempts
  }

  /** `Task.Delay(TimeSpan.FromSeconds(s))` accepts a delay of -1 ms or of 0
      to 4294967294 ms; in whole seconds that is 0 to 4294967. Any other
      interval throws when the first retry waits. */
  predicate DelayAccepted(s: RetrySettings)
  {
    0 <= s.retryIntervalSeconds <= 4294967
  }

  /** The exception `Task.Delay` throws for an interval it refuses. */
  const DelayRangeFault: Exception := Exception(ArgumentOutOfRange, "delay", "")

  /** The last attempt a run can reach: the budget, or the first attempt
      when the first wait already throws. */
  function Reach(s: RetrySettings): (n: nat)
    ensures 1 <= n <= Budget(s)
    ensures DelayAccepted(s) ==> n == Budget(s)
    ensures !DelayAccepted(s) ==> n == 1
  {
    if DelayAccepted(s) then Budget(s) else 1
  }

  /** What a run stopping after attempt `n` returns: the attempt's own
      outcome when it succeeded or was the last one allowed, otherwise the
      refused delay's exception. */
  function Outcome<T>(action: nat -> Result<T>, s: RetrySettings, n: nat): Result<T>
  {
    if action(n).Ok? || n >= s.maxAttempts then action(n) else Err(DelayRangeFault)
  }

  /** The attempt at which the loop stops when it has reached attempt `k`:
      the first success from `k` on, or the last attempt of the budget. */
  function StopAt<T>(action: nat -> Result<T>, budget: nat, k: nat): (n: nat)
    requires 1 <= k <= budget
    ensures k <= n <= budget
    ensures forall j :: k <= j < n ==> action(j).Err?
    ensures action(n).Ok? || n == budget
    decreases budget - k
  {
    if action(k).Ok? || k == budget then k else StopAt(action, budget, k + 1)
  }

  /** What attempt `k` contributes to the trace. */
  function AttemptEvents<T>(action: nat -> Result<T>, s: RetrySettings, hasLogger: bool, k: nat): seq<RetryEvent>
  {
    match action(k)
    case Ok(_) => [Invoked(k)]
    case Err(e) =>
      if k >= s.maxAttempts then
        [Invoked(k)] + (if hasLogger then [ErrorLogged(k, e)] else [])
      else
        [Invoked(k)] + (if hasLogger then [WarningLogged(k, s.maxAttempts, s.retryIntervalSeconds, e)] else [])
        + (if DelayAccepted(s) then [Delayed(s.retryIntervalSeconds)] else [])
  }

  /** The trace of attempts 1 through `n`. */
  function RunEvents<T>(action: nat -> Result<T>, s: RetrySettings, hasLogger: bool, n: nat): seq<RetryEvent>
  {
    if n == 0 then [] else RunEvents(action, s, hasLogger, n - 1) + AttemptEvents(action, s, hasLogger, n)
  }

  /** `RetryAsync<T>(action, settings, logger)`: returns the first successful
      attempt's value, or rethrows the last attempt's exception once the
      budget is spent; an interval `Task.Delay` refuses makes the first
      retry's wait throw instead. */
  method RetryAsync<T>(action: nat -> Result<T>, settings: RetrySettings, hasLogger: bool)
    returns (r: Result<T>, invocations: nat, events: seq<RetryEvent>)
    ensures invocations == StopAt(action, Reach(settings), 1)
    ensures 1 <= invocations <= Reach(settings)
    ensures forall j :: 1 <= j < invocations ==> action(j).Err?
    ensures r == Outcome(action, settings, invocations)
    ensures DelayAccepted(settings) ==> r == action(invocations)
    ensures DelayAccepted(settings) && r.Err? ==> invocations == Budget(settings)
    ensures !DelayAccepted(settings) && action(1).Err? && settings.maxAttempts > 1 ==> r == Err(DelayRangeFault)
    ensures events == RunEvents(action, settings, hasLogger, invocations)
  {
    var attempts: nat := 0;
    events := [];
    while true
      invariant attempts < Reach(settings)
      invariant forall j :: 1 <= j <= attempts ==> action(j).Err?
      invariant events == RunEvents(action, settings, hasLogger, attempts)
      decreases Reach(settings) - attempts
    {
      attempts := attempts + 1;
      events := events + [Invoked(attempts)];
      var outcome := action(attempts);
      match outcome {
        case Ok(_) =>
          StopAtFirstSuccess(action, Reach(settings), attempts);
          return outcome, attempts, events;
        case Err(e) =>
          if attempts >= settings.maxAttempts {
            if hasLogger {
              events := events + [ErrorLogged(attempts, e)];
            }
            StopAtFirstSuccess(action, Reach(settings), attempts);
            return outcome, attempts, events;
          }
          if hasLogger {
            events := events + [WarningLogged(attempts, settings.maxAttempts, settings.retryIntervalSeconds, e)];
          }
          if !DelayAccepted(settings) {
            StopAtFirstSuccess(action, Reach(settings), attempts);
            return Err(DelayRangeFault), attempts, events;
          }
          events := events + [Delayed(settings.retryIntervalSeconds)];
      }
    }
  }

  /** `RetryAsync(Func<Task> action, settings, logger)`: the same loop for an
      action without a value; the result is the rethrown exception, if any. */
  method RetryVoidAsync(action: nat -> Option<Exception>, settings: RetrySettings, hasLogger: bool)
    returns (thrown: Option<Exception>, invocations: nat, events: seq<RetryEvent>)
    ensures invocations == StopAt(Lift(action), Reach(settings), 1)
    ensures 1 <= invocations <= Reach(settings)
    ensures forall j :: 1 <= j < invocations ==> action(j).Some?
    ensures DelayAccepted(settings) ==> thrown == action(invocations)
    ensures DelayAccepted(settings) && thrown.Some? ==> invocations == Budget(settings)
    ensures !DelayAccepted(settings) && action(1).Some? ==>
      thrown == if settings.maxAttempts > 1 then Some(DelayRangeFault) else action(1)
    ensures events == RunEvents(Lift(action), settings, hasLogger, invocations)
  {
    var r;
    r, invocations, events := RetryAsync(Lift(action), settings, hasLogger);
    thrown := if r.Err? then Some(r.error) else None;
    assert forall j: nat :: Lift(action)(j).Err? <==> action(j).Some?;
  }

  /** A value-less action seen as one returning `()`. */
  function Lift(action: nat -> Option<Exception>): nat -> Result<()>
  {
    (k: nat) => match action(k) case None => Ok(()) case Some(e) => Err(e)
  }

  /** `RetryAsync<T>(action, maxAttempts, retryInterval)`: both arguments are
      ignored; the default settings are used, without a logger. */
  method RetryWithDefaultsAsync<T>(action: nat -> Result<T>, maxAttempts: int, retryInterval: Option<int>)
    returns (r: Result<T>, invocations: nat, events: seq<RetryEvent>)
    ensures 1 <= invocations <= 3
    ensures invocations == StopAt(action, 3, 1)
    ensures r == action(invocations)
    ensures events == RunEvents(action, DefaultSettings, false, invocations)
  {
    r, invocations, events := RetryAsync(action, DefaultSettings, false);
  }

  /** `RetryAsync(Func<Task> action, maxAttempts, retryInterval)`: the same
      for an action without a value. */
  method RetryVoidWithDefaultsAsync(action: nat -> Option<Exception>, maxAttempts: int, retryInterval: Option<int>)
    returns (thrown: Option<Exception>, invocations: nat, events: seq<RetryEvent>)
    ensures 1 <= invocations <= 3
    ensures invocations == StopAt(Lift(action), 3, 1)
    ensures forall j :: 1 <= j < invocations ==> action(j).Some?
    ensures thrown == action(invocations)
    ensures thrown.Some? ==> invocations == 3
    ensures events == RunEvents(Lift(action), DefaultSettings, false, invocations)
  {
    thrown, invocations, events := RetryVoidAsync(action, DefaultSettings, false);
  }

  /** When attempts before `k` failed and `k` ends the run, the loop stops at `k`. */
  lemma {:induction false} StopAtFirstSuccess<T>(action: nat -> Result<T>, budget: nat, k: nat)
    requires 1 <= k <= budget
    requires forall j :: 1 <= j < k ==> action(j).Err?
    requires action(k).Ok? || k == budget
    ensures StopAt(action, budget, 1) == k
  {
    StopAtFrom(action, budget, 1, k);
  }

  lemma {:induction false} StopAtFrom<T>(action: nat -> Result<T>, budget: nat, i: nat, k: nat)
    requires 1 <= i <= k <= budget
    requires forall j :: i <= j < k ==> action(j).Err?
    requires action(k).Ok? || k == budget
    ensures StopAt(action, budget, i) == k
    decreases k - i
  {
    if i < k {
      StopAtFrom(action, budget, i + 1, k);
    }
  }

  /** Number of delays in a trace. */
  function Delays(events: seq<RetryEvent>): nat
  {
    CountWhere(events, (e: RetryEvent) => e.Delayed?)
  }

  /** Number of invocations in a trace. */
  function Invocations(events: seq<RetryEvent>): nat
  {
    CountWhere(events, (e: RetryEvent) => e.Invoked?)
  }

  /** A run that stops after `n` attempts invokes the action `n` times and
      waits exactly once between consecutive attempts, each time for the
      configured interval; the rethrow is not preceded by a delay. */
  lemma {:induction false} DelaysBetweenAttempts<T>(action: nat -> Result<T>, s: RetrySettings, hasLogger: bool, n: nat)
    requires 1 <= n <= Reach(s)
    requires forall j :: 1 <= j < n ==> action(j).Err?
    requires action(n).Ok? || n == Reach(s)
    ensures Invocations(RunEvents(action, s, hasLogger, n)) == n
    ensures Delays(RunEvents(action, s, hasLogger, n)) == n - 1
    ensures forall e :: e in RunEvents(action, s, hasLogger, n) && e.Delayed? ==> e.seconds == s.retryIntervalSeconds
  {
    assert FailedBelowBudget(action, s, n - 1) by {
      forall j | 1 <= j <= n - 1
        ensures action(j).Err? && j < s.maxAttempts
      {
        assert j < n <= Budget(s);
      }
    }
    assert n >= s.maxAttempts || action(n).Ok? || !DelayAccepted(s);
    LastAttemptCounts(action, s, hasLogger, n);
    LastAttemptDelays(action, s, hasLogger, n);
  }

  /** The counts of a run whose earlier attempts each delayed once and whose
      last attempt does not. */
  lemma LastAttemptCounts<T>(action: nat -> Result<T>, s: RetrySettings, hasLogger: bool, n: nat)
    requires 1 <= n && FailedBelowBudget(action, s, n - 1) && (n == 1 || DelayAccepted(s))
    requires n >= s.maxAttempts || action(n).Ok? || !DelayAccepted(s)
    ensures Invocations(RunEvents(action, s, hasLogger, n)) == n
    ensures Delays(RunEvents(action, s, hasLogger, n)) == n - 1
  {
    EarlierAttemptsDelayOnce(action, s, hasLogger, n - 1);
    var pre := RunEvents(action, s, hasLogger, n - 1);
    var last := AttemptEvents(action, s, hasLogger, n);
    CountWhereAppend(pre, last, (e: RetryEvent) => e.Delayed?);
    CountWhereAppend(pre, last, (e: RetryEvent) => e.Invoked?);
    OneInvocation(action, s, hasLogger, n);
  }

  /** Every delay of such a run lasts the retry interval. */
  lemma LastAttemptDelays<T>(action: nat -> Result<T>, s: RetrySettings, hasLogger: bool, n: nat)
    requires 1 <= n && FailedBelowBudget(action, s, n - 1) && (n == 1 || DelayAccepted(s))
    requires n >= s.maxAttempts || action(n).Ok? || !DelayAccepted(s)
    ensures forall e :: e in RunEvents(action, s, hasLogger, n) && e.Delayed? ==> e.seconds == s.retryIntervalSeconds
  {
    EarlierAttemptsDelayOnce(action, s, hasLogger, n - 1);
    var pre := RunEvents(action, s, hasLogger, n - 1);
    var last := AttemptEvents(action, s, hasLogger, n);
    assert RunEvents(action, s, hasLogger, n) == pre + last;
    forall e | e in last
      ensures !e.Delayed?
    {
    }
  }

  /** Attempts 1 to `m` all failed, and each was below `MaxAttempts`. */
  predicate FailedBelowBudget<T>(action: nat -> Result<T>, s: RetrySettings, m: nat)
  {
    forall j :: 1 <= j <= m ==> action(j).Err? && j < s.maxAttempts
  }

  /** Each failed attempt below `MaxAttempts` invokes once and, when the
      interval is one `Task.Delay` accepts, delays once. */
  lemma {:induction false} EarlierAttemptsDelayOnce<T>(action: nat -> Result<T>, s: RetrySettings, hasLogger: bool, m: nat)
    requires FailedBelowBudget(action, s, m) && (m == 0 || DelayAccepted(s))
    ensures Invocations(RunEvents(action, s, hasLogger, m)) == m
    ensures Delays(RunEvents(action, s, hasLogger, m)) == m
    ensures forall e :: e in RunEvents(action, s, hasLogger, m) && e.Delayed? ==> e.seconds == s.retryIntervalSeconds
  {
    if m > 0 {
      var k: nat := m - 1;
      assert FailedBelowBudget(action, s, k) by {
        forall j | 1 <= j <= k
          ensures action(j).Err? && j < s.maxAttempts
        {
          assert 1 <= j <= m;
        }
      }
      EarlierAttemptsDelayOnce(action, s, hasLogger, k);
      var pre := RunEvents(action, s, hasLogger, m - 1);
      var last := AttemptEvents(action, s, hasLogger, m);
      CountWhereAppend(pre, last, (e: RetryEvent) => e.Delayed?);
      CountWhereAppend(pre, last, (e: RetryEvent) => e.Invoked?);
      FailedAttemptDelaysOnce(action, s, hasLogger, m);
    }
  }

  /** A failed attempt below `MaxAttempts` invokes once and delays once, by
      the retry interval, when `Task.Delay` accepts it. */
  lemma FailedAttemptDelaysOnce<T>(action: nat -> Result<T>, s: RetrySettings, hasLogger: bool, m: nat)
    requires action(m).Err? && m < s.maxAttempts && DelayAccepted(s)
    ensures Invocations(AttemptEvents(action, s, hasLogger, m)) == 1
    ensures Delays(AttemptEvents(action, s, hasLogger, m)) == 1
    ensures forall e :: e in AttemptEvents(action, s, hasLogger, m) && e.Delayed? ==> e.seconds == s.retryIntervalSeconds
  {
    var last := AttemptEvents(action, s, hasLogger, m);
    var e := action(m).error;
    var warn: seq<RetryEvent> := if hasLogger then [WarningLogged(m, s.maxAttempts, s.retryIntervalSeconds, e)] else [];
    assert last == [Invoked(m)] + warn + [Delayed(s.retryIntervalSeconds)];
    CountWhereAppend([Invoked(m)] + warn, [Delayed(s.retryIntervalSeconds)], (e: RetryEvent) => e.Delayed?);
    CountWhereAppend([Invoked(m)] + warn, [Delayed(s.retryIntervalSeconds)], (e: RetryEvent) => e.Invoked?);
    CountWhereAppend([Invoked(m)], warn, (e: RetryEvent) => e.Delayed?);
    CountWhereAppend([Invoked(m)], warn, (e: RetryEvent) => e.Invoked?);
  }

  /** The final attempt invokes once and does not delay: it succeeded, it
      was the last one allowed, or its wait was refused. */
  lemma OneInvocation<T>(action: nat -> Result<T>, s: RetrySettings, hasLogger: bool, n: nat)
    requires action(n).Ok? || n >= s.maxAttempts || !DelayAccepted(s)
    ensures Invocations(AttemptEvents(action, s, hasLogger, n)) == 1
    ensures Delays(AttemptEvents(action, s, hasLogger, n)) == 0
  {
    var last := AttemptEvents(action, s, hasLogger, n);
    if action(n).Err? {
      var e := action(n).error;
      var tail: seq<RetryEvent> :=
        if n >= s.maxAttempts then (if hasLogger then [ErrorLogged(n, e)] else [])
        else if hasLogger then [WarningLogged(n, s.maxAttempts, s.retryIntervalSeconds, e)] else [];
      assert last == [Invoked(n)] + tail;
      CountWhereAppend([Invoked(n)], tail, (e: RetryEvent) => e.Delayed?);
      CountWhereAppend([Invoked(n)], tail, (e: RetryEvent) => e.Invoked?);
    }
  }

  /** With `MaxAttempts <= 1` a failing action is tried once and the
      exception is rethrown without any delay. */
  lemma SingleAttemptNoDelay<T>(action: nat -> Result<T>, s: RetrySettings, hasLogger: bool)
    requires s.maxAttempts <= 1
    ensures Reach(s) == 1 && StopAt(action, Reach(s), 1) == 1
    ensures Delays(RunEvents(action, s, hasLogger, 1)) == 0
  {
    assert RunEvents(action, s, hasLogger, 1) == AttemptEvents(action, s, hasLogger, 1);
    OneInvocation(action, s, hasLogger, 1);
  }
}
