/** The clock-polling loop shared by the URL wait and the element wait:
    while the time elapsed since the start is below a limit, evaluate a
    check, return when it holds, otherwise pause and read the clock again.

    Clock readings are a parameter: `elapsed(j)` is the reading taken before
    the `j`-th evaluation (counting from 0); `check(j)` is that evaluation's
    outcome, which may be an exception. */
module Polling {
  import opened Common

  /** Returns `Ok(true)` at the first evaluation that holds, the exception of
      the first evaluation that throws, or `Ok(false)` once a clock reading
      reaches `limit`; `polls` is the number of evaluations made. The ghost
      `bound` is a reading at which the clock has passed the limit, so the
      loop ends. */
  method PollUntil(check: nat -> Result<bool>, elapsed: nat -> int, limit: int, ghost bound: nat)
    returns (r: Result<bool>, polls: nat)
    requires limit <= elapsed(bound)
    ensures polls <= bound
    ensures forall j :: 0 <= j < polls ==> elapsed(j) < limit
    ensures forall j :: 0 <= j < polls - 1 ==> check(j) == Ok(false)
    ensures r != Ok(false) ==> polls >= 1 && check(polls - 1) == r
    ensures r == Ok(false) ==> elapsed(polls) >= limit && forall j :: 0 <= j < polls ==> check(j) == Ok(false)
  {
    polls := 0;
    while elapsed(polls) < limit
      invariant polls <= bound
      invariant forall j :: 0 <= j < polls ==> elapsed(j) < limit && check(j) == Ok(false)
      decreases bound - polls
    {
      var c := check(polls);
      polls := polls + 1;
      if c != Ok(false) {
        return c, polls;
      }
    }
    r := Ok(false);
  }
}
