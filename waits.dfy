/** `WaitHelper`: page-level waits. Two of them retry a visibility or
    condition check once a second through the retry loop, with as many
    attempts as the timeout has seconds; the URL wait polls the clock. */
module Waits {
  import opened Common
  import opened Text
  import opened World
  import opened Retry
  import opened Polling

  /** `TimeSpan` ticks in one second. */
  const TicksPerSecond: int := 10_000_000

  /** The value of C#'s unchecked 32-bit `int` arithmetic: `x` brought into
      the `int` range modulo 2^32. */
  function Wrap32(x: int): (r: int)
    ensures -0x8000_0000 <= r < 0x8000_0000
    ensures (x - r) % 0x1_0000_0000 == 0
    ensures -0x8000_0000 <= x < 0x8000_0000 ==> r == x
  {
    (x + 0x8000_0000) % 0x1_0000_0000 - 0x8000_0000
  }

  /** `timeoutSeconds * 1000` as the `int` product the source computes. */
  function TimeoutMilliseconds(timeoutSeconds: int): int
  {
    Wrap32(timeoutSeconds * 1000)
  }

  /** `WaitForElementVisibleAsync`: one Playwright wait for the visible state
      with the timeout converted to milliseconds in 32-bit arithmetic;
      Playwright's outcome is `outcome`. */
  method WaitForElementVisibleAsync(world: World, selector: string, timeoutSeconds: int, outcome: Option<Exception>)
    returns (thrown: Option<Exception>)
    modifies world
    ensures world.log == old(world.log) + [SelectorWaited(selector, Visible, TimeoutMilliseconds(timeoutSeconds))]
    ensures thrown == outcome
  {
    world.log := world.log + [SelectorWaited(selector, Visible, TimeoutMilliseconds(timeoutSeconds))];
    thrown := outcome;
  }

  /** Up to 2147483 seconds the conversion to milliseconds is exact. */
  lemma TimeoutExactUpToLimit(timeoutSeconds: int)
    requires 0 <= timeoutSeconds <= 2147483
    ensures TimeoutMilliseconds(timeoutSeconds) == timeoutSeconds * 1000
  {
  }

  /** One second more and the product wraps to a negative timeout. */
  lemma TimeoutWrapsPastLimit()
    ensures TimeoutMilliseconds(2147484) == -2147483296
  {
  }

  /** The retry settings both retrying waits build: one attempt per second of
      the timeout. */
  function WaitSettings(timeoutSeconds: int): (s: RetrySettings)
    ensures Budget(s) == if timeoutSeconds < 1 then 1 else timeoutSeconds
    ensures s.retryIntervalSeconds == 1
  {
    RetrySettings(timeoutSeconds, 1)
  }

  function StillVisibleError(selector: string): Exception
  {
    Exception(General, "Element with selector '" + selector + "' is still visible", "")
  }

  function ConditionError(description: string): Exception
  {
    Exception(General, "Condition not met: " + description, "")
  }

  /** One attempt of the not-visible wait: throws while the element is visible
      (or when the visibility check itself throws). */
  function NotVisibleAttempt(selector: string, visible: nat -> Result<bool>): nat -> Option<Exception>
  {
    (k: nat) => match visible(k)
      case Err(e) => Some(e)
      case Ok(v) => if v then Some(StillVisibleError(selector)) else None
  }

  /** `WaitForElementNotVisibleAsync`: `visible(k)` is the outcome of the
      `k`-th visibility check. Returns at the first check that finds the
      element hidden. A check that finds it visible, or that throws, is
      retried; after `max(timeoutSeconds, 1)` checks the last one's
      exception escapes. */
  method WaitForElementNotVisibleAsync(selector: string, timeoutSeconds: int, visible: nat -> Result<bool>)
    returns (thrown: Option<Exception>, checks: nat, events: seq<RetryEvent>)
    ensures 1 <= checks <= Budget(WaitSettings(timeoutSeconds))
    ensures forall j :: 1 <= j < checks ==> visible(j) != Ok(false)
    ensures checks == StopAt(Lift(NotVisibleAttempt(selector, visible)), Budget(WaitSettings(timeoutSeconds)), 1)
    ensures thrown == NotVisibleAttempt(selector, visible)(checks)
    ensures thrown.None? <==> visible(checks) == Ok(false)
    ensures thrown.Some? ==> checks == Budget(WaitSettings(timeoutSeconds))
    ensures visible(checks) == Ok(true) ==> thrown == Some(StillVisibleError(selector))
    ensures visible(checks).Err? ==> thrown == Some(visible(checks).error)
    ensures events == RunEvents(Lift(NotVisibleAttempt(selector, visible)), WaitSettings(timeoutSeconds), false, checks)
  {
    thrown, checks, events := RetryVoidAsync(NotVisibleAttempt(selector, visible), WaitSettings(timeoutSeconds), false);
    assert NotVisibleAttempt(selector, visible)(checks) == thrown;
    assert forall j: nat :: NotVisibleAttempt(selector, visible)(j).Some? <==> visible(j) != Ok(false);
  }

  /** One attempt of the condition wait: throws when the condition is false
      (or when evaluating it throws). */
  function ConditionAttempt(description: string, condition: nat -> Result<bool>): nat -> Option<Exception>
  {
    (k: nat) => match condition(k)
      case Err(e) => Some(e)
      case Ok(b) => if b then None else Some(ConditionError(description))
  }

  /** `WaitHelper.WaitForConditionAsync`: the same budget as the not-visible
      wait; returns at the first true evaluation. A false or throwing
      evaluation is retried; when the budget is spent, a false one throws
      "Condition not met: {description}" and a throwing one rethrows. */
  method WaitForConditionAsync(condition: nat -> Result<bool>, description: string, timeoutSeconds: int)
    returns (thrown: Option<Exception>, evaluations: nat, events: seq<RetryEvent>)
    ensures 1 <= evaluations <= Budget(WaitSettings(timeoutSeconds))
    ensures forall j :: 1 <= j < evaluations ==> condition(j) != Ok(true)
    ensures evaluations == StopAt(Lift(ConditionAttempt(description, condition)), Budget(WaitSettings(timeoutSeconds)), 1)
    ensures thrown == ConditionAttempt(description, condition)(evaluations)
    ensures thrown.None? <==> condition(evaluations) == Ok(true)
    ensures thrown.Some? ==> evaluations == Budget(WaitSettings(timeoutSeconds))
    ensures condition(evaluations) == Ok(false) ==> thrown == Some(ConditionError(description))
    ensures condition(evaluations).Err? ==> thrown == Some(condition(evaluations).error)
    ensures events == RunEvents(Lift(ConditionAttempt(description, condition)), WaitSettings(timeoutSeconds), false, evaluations)
  {
    thrown, evaluations, events := RetryVoidAsync(ConditionAttempt(description, condition), WaitSettings(timeoutSeconds), false);
    assert ConditionAttempt(description, condition)(evaluations) == thrown;
    assert forall j: nat :: ConditionAttempt(description, condition)(j).Some? <==> condition(j) != Ok(true);
  }

  function UrlTimeoutError(timeoutSeconds: int): Exception
  {
    Exception(ExceptionKind.Timeout, "URL condition not met within " + IntToString(timeoutSeconds) + " seconds", "")
  }

  /** `WaitForUrlAsync`: `elapsedTicks(j)` is the time since the start read
      before the `j`-th evaluation of the predicate on the page URL. Returns
      at the first evaluation that holds before the timeout, otherwise throws
      a `TimeoutException`; a predicate exception propagates. */
  method WaitForUrlAsync(urlHolds: nat -> Result<bool>, elapsedTicks: nat -> int, timeoutSeconds: int, ghost bound: nat)
    returns (thrown: Option<Exception>, evaluations: nat)
    requires timeoutSeconds * TicksPerSecond <= elapsedTicks(bound)
    ensures forall j :: 0 <= j < evaluations ==> elapsedTicks(j) < timeoutSeconds * TicksPerSecond
    ensures forall j :: 0 <= j < evaluations - 1 ==> urlHolds(j) == Ok(false)
    ensures thrown.None? ==> evaluations >= 1 && urlHolds(evaluations - 1) == Ok(true)
    ensures thrown.Some? ==>
              (evaluations >= 1 && urlHolds(evaluations - 1) == Err(thrown.value)) ||
              (thrown.value == UrlTimeoutError(timeoutSeconds) &&
               elapsedTicks(evaluations) >= timeoutSeconds * TicksPerSecond &&
               forall j :: 0 <= j < evaluations ==> urlHolds(j) == Ok(false))
    ensures timeoutSeconds <= 0 && elapsedTicks(0) >= 0 ==>
              evaluations == 0 && thrown == Some(UrlTimeoutError(timeoutSeconds))
  {
    var r;
    r, evaluations := PollUntil(urlHolds, elapsedTicks, timeoutSeconds * TicksPerSecond, bound);
    match r {
      case Ok(met) =>
        thrown := if met then None else Some(UrlTimeoutError(timeoutSeconds));
      case Err(e) =>
        thrown := Some(e);
    }
  }
}
