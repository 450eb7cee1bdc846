/** The request-budget policy, as pure functions of numbers and ages (request_budget.py). */
module RequestBudget {
  import opened Scaling

  datatype Option<+T> = None | Some(value: T)

  const DAY := 86400
  const DAILY_RESET_MARGIN := 5

  function Max(a: int, b: int): int { if a < b then b else a }

  function Min(a: int, b: int): int { if a < b then a else b }

  /** math.ceil(n / d) */
  function CeilDiv(n: int, d: Pos): int {
    -((-n) / d)
  }

  /** budget_paced_interval */
  function BudgetPacedInterval(base: int, spent: int, perCycle: int, secondsLeft: int, budget: int, max: int): int {
    if perCycle <= 0 || base <= 0 then base
    else
      var untilReset := Max(base, Max(secondsLeft, 0) + DAILY_RESET_MARGIN);
      var remaining := budget - spent;
      if remaining <= 0 || remaining < perCycle then Min(untilReset, max)
      else Max(base, Min(CeilDiv(Mul(Max(secondsLeft, 0), perCycle), remaining), max))
  }

  /** local_reading_is_fresh */
  predicate LocalReadingIsFresh(age: Option<real>, window: real, skips: nat, maxSkips: nat) {
    age.Some? && skips < maxSkips && 0.0 <= age.value < window
  }

  /** cloud_poll_divisor */
  function CloudPollDivisor(isOff: bool, sinceChange: Option<real>, sinceCommand: Option<real>,
                            idleAfter: real, commandWindow: real, idleDivisor: int): int {
    if sinceCommand.Some? && 0.0 <= sinceCommand.value < commandWindow then 1
    else if !isOff then 1
    else if sinceChange.None? || sinceChange.value < idleAfter then 1
    else Max(1, idleDivisor)
  }

  /** header_backoff_interval */
  function HeaderBackoffInterval(remaining: int, resetIn: int, perCycle: int, base: int, max: int): Option<int> {
    if perCycle <= 0 || resetIn <= 0 then None
    else if remaining >= perCycle then None
    else Some(Max(base, Min(resetIn, max)))
  }

  /** poll_exceeds_budget */
  predicate PollExceedsBudget(perCycle: int, base: int, budget: int) {
    perCycle > 0 && base > 0 && perCycle * DAY > Mul(budget, base)
  }

  lemma CeilIs(n: int, d: Pos)
    ensures Mul(CeilDiv(n, d), d) - d < n <= Mul(CeilDiv(n, d), d)
  {
    FloorParts(-n, d);
    assert Mul(CeilDiv(n, d), d) == -Mul((-n) / d, d);
  }

  /** Pacing only ever slows the poll down, and never past its ceiling. */
  lemma PacingBounds(base: int, spent: int, perCycle: int, secondsLeft: int, budget: int, max: int)
    requires 0 < base <= max
    ensures base <= BudgetPacedInterval(base, spent, perCycle, secondsLeft, budget, max) <= max
  {
  }

  /** The interval pacing asks for before its ceiling. */
  function Required(spent: int, perCycle: int, secondsLeft: nat, budget: int): int
    requires budget - spent >= perCycle > 0
  {
    CeilDiv(Mul(secondsLeft, perCycle), budget - spent)
  }

  /** Unless the ceiling binds, the polls the rest of the day holds at the paced interval cost no more than
      what is left of the budget. */
  lemma PacedSpendFits(base: int, spent: int, perCycle: int, secondsLeft: nat, budget: int, max: int)
    requires 0 < base <= max && budget - spent >= perCycle > 0
    requires Required(spent, perCycle, secondsLeft, budget) <= max
    ensures var interval := BudgetPacedInterval(base, spent, perCycle, secondsLeft, budget, max);
      interval > 0 && Mul(perCycle, secondsLeft / interval) <= budget - spent
  {
    var remaining := budget - spent;
    var required := Required(spent, perCycle, secondsLeft, budget);
    var interval := BudgetPacedInterval(base, spent, perCycle, secondsLeft, budget, max);
    CeilIs(Mul(secondsLeft, perCycle), remaining);
    var cycles := secondsLeft / interval;
    FloorParts(secondsLeft, interval);
    hide CeilDiv;
    CyclesFit(perCycle, cycles, interval, secondsLeft, required, remaining);
  }

  lemma CyclesFit(perCycle: Pos, cycles: int, interval: Pos, seconds: nat, required: int, remaining: Pos)
    requires Mul(cycles, interval) <= seconds
    requires Mul(seconds, perCycle) <= Mul(required, remaining) && required <= interval
    ensures Mul(perCycle, cycles) <= remaining
  {
    // cycles * interval * perCycle <= seconds * perCycle <= interval * remaining
    MulLe(Mul(cycles, interval), seconds, perCycle);
    MulLe(required, interval, remaining);
    assert Mul(Mul(cycles, interval), perCycle) == Mul(Mul(perCycle, cycles), interval);
    assert Mul(interval, remaining) == Mul(remaining, interval);
    MulLe(remaining + 1, Mul(perCycle, cycles), interval);
    MulLe(remaining, remaining, interval);
    hide Mul;
  }

  /** When the ceiling binds, the polls the rest of the day holds at it cost more than the budget left exactly
      when the day has room for one poll more than the budget pays for; one poll more always does. */
  lemma CeilingOverspendsIff(base: int, spent: int, perCycle: int, secondsLeft: nat, budget: int, max: int)
    requires 0 < base <= max && budget - spent >= perCycle > 0
    requires Required(spent, perCycle, secondsLeft, budget) > max
    ensures BudgetPacedInterval(base, spent, perCycle, secondsLeft, budget, max) == max
    ensures var polls, paid := secondsLeft / max, (budget - spent) / perCycle;
      && (Mul(polls, perCycle) > budget - spent <==> Mul(paid + 1, max) <= secondsLeft)
      && Mul(polls + 1, perCycle) > budget - spent
  {
    var remaining := budget - spent;
    var required := Required(spent, perCycle, secondsLeft, budget);
    CeilIs(Mul(secondsLeft, perCycle), remaining);
    MulLe(max, required - 1, remaining);
    MulLe(required - 1, required - 1, remaining);
    PollsAgainstBudget(secondsLeft, max, perCycle, remaining);
    OneMoreOverspends(secondsLeft, max, perCycle, remaining);
    hide CeilDiv, Required;
  }

  /** Whole polls cost more than what remains exactly when there are more of them than it pays for. */
  lemma PollsAgainstBudget(seconds: nat, spacing: Pos, perCycle: Pos, remaining: int)
    ensures var polls, paid := seconds / spacing, remaining / perCycle;
      Mul(polls, perCycle) > remaining <==> Mul(paid + 1, spacing) <= seconds
  {
    var polls, paid := seconds / spacing, remaining / perCycle;
    FloorParts(seconds, spacing);
    FloorParts(remaining, perCycle);
    MulLe(polls, paid, perCycle);
    MulLe(paid + 1, polls, perCycle);
    MulLe(paid, paid, perCycle);
    MulLe(paid + 1, polls, spacing);
    MulLe(polls + 1, paid + 1, spacing);
    MulLe(polls, polls, spacing);
    hide Mul;
  }

  /** At the average rate the day costs more than what remains, so one poll past its end does. */
  lemma OneMoreOverspends(seconds: nat, spacing: Pos, perCycle: Pos, remaining: int)
    requires Mul(seconds, perCycle) > Mul(spacing, remaining)
    ensures Mul(seconds / spacing + 1, perCycle) > remaining
  {
    var polls := seconds / spacing;
    FloorParts(seconds, spacing);
    MulLe(polls, polls, spacing);
    // (polls + 1) * spacing * perCycle > seconds * perCycle > remaining * spacing
    MulLe(seconds, Mul(polls + 1, spacing), perCycle);
    assert Mul(Mul(polls + 1, spacing), perCycle) == Mul(Mul(polls + 1, perCycle), spacing);
    assert Mul(spacing, remaining) == Mul(remaining, spacing);
    MulLe(Mul(polls + 1, perCycle), remaining, spacing);
    hide Mul;
  }

  /** While the budget left covers a poll, the paced interval is the least one between base and ceiling at which the
      rest of the day costs no more than it, or the ceiling; once it does not, the poll waits for the reset, five
      seconds past it, within the same bounds. A negative number of seconds counts as none. */
  lemma PacedIsLeast(base: int, spent: int, perCycle: int, secondsLeft: int, budget: int, max: int)
    requires 0 < base <= max && perCycle > 0
    ensures var interval := BudgetPacedInterval(base, spent, perCycle, secondsLeft, budget, max);
      var remaining, seconds := budget - spent, if secondsLeft < 0 then 0 else secondsLeft;
      if remaining < perCycle then
        interval == if seconds + 5 < base then base else if seconds + 5 > max then max else seconds + 5
      else
        && base <= interval <= max
        && (interval < max ==> Mul(seconds, perCycle) <= Mul(interval, remaining))
        && (base < interval ==> Mul(interval - 1, remaining) < Mul(seconds, perCycle))
  {
    var remaining, seconds := budget - spent, if secondsLeft < 0 then 0 else secondsLeft;
    if remaining >= perCycle {
      var interval := BudgetPacedInterval(base, spent, perCycle, secondsLeft, budget, max);
      var required := CeilDiv(Mul(seconds, perCycle), remaining);
      CeilIs(Mul(seconds, perCycle), remaining);
      MulLe(required, interval, remaining);
      MulLe(interval - 1, required - 1, remaining);
      MulLe(required - 1, required - 1, remaining);
      hide CeilDiv;
      LessOne(required, remaining);
      hide Mul;
    }
  }

  lemma LessOne(n: int, d: int)
    ensures Mul(n - 1, d) == Mul(n, d) - d
  {
  }

  /** Polling a day through at the base interval fits the budget when poll_exceeds_budget says no; when it says
      yes, one poll more than the day holds does not fit. */
  lemma ExceedsMeans(perCycle: Pos, base: Pos, budget: int)
    ensures var polls := DAY / base;
      if PollExceedsBudget(perCycle, base, budget) then Mul(polls + 1, perCycle) > budget else Mul(polls, perCycle) <= budget
  {
    assert DAY == 86400;
    var polls := DAY / base;
    assert perCycle * DAY == Mul(DAY, perCycle);
    assert Mul(budget, base) == Mul(base, budget);
    if PollExceedsBudget(perCycle, base, budget) {
      hide Mul;
      OneMoreOverspends(DAY, base, perCycle, budget);
    } else {
      hide Mul;
      CyclesWithin(perCycle, polls, base, budget);
    }
  }

  lemma CyclesWithin(perCycle: Pos, polls: int, base: Pos, budget: int)
    requires polls == DAY / base && Mul(DAY, perCycle) <= Mul(base, budget)
    ensures Mul(polls, perCycle) <= budget
  {
    FloorParts(DAY, base);
    MulLe(Mul(polls, base), DAY, perCycle);
    assert Mul(Mul(polls, base), perCycle) == Mul(Mul(polls, perCycle), base);
    assert Mul(base, budget) == Mul(budget, base);
    MulLe(budget + 1, Mul(polls, perCycle), base);
    MulLe(budget, budget, base);
    hide Mul;
  }
}
