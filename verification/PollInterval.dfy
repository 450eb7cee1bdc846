/** Who owns the poll interval over whole runs: the user, the budget, the headers or a 429. */
module PollInterval {
  import opened PollScheduler
  import opened RequestBudget

  // ---------- bounds ----------

  predicate InBounds(c: Config, s: State) {
    c.base <= s.interval && (!s.rateLimited ==> s.interval <= MAX_PACED_INTERVAL)
  }

  lemma StepInBounds(c: Config, s: State, e: Event)
    requires c.Valid() && InBounds(c, s)
    ensures InBounds(c, Step(c, s, e))
  {
    hide Candidates, NextSkips, NextCounts, BudgetPacedInterval;
    if e.FinishCycle? && s.phase.Gathering? && e.spent.Some? {
      PacingBounds(c.base, e.spent.value, s.phase.devices, e.secondsLeft, c.budget, MAX_PACED_INTERVAL);
    }
  }

  /** Over every run the interval is never shorter than the user's, and never longer than 900 seconds unless a
      429 back-off is in force. */
  lemma {:induction false} IntervalBounds(c: Config, events: seq<Event>)
    requires c.Valid()
    ensures InBounds(c, Run(c, events))
  {
    hide Step;
    if events != [] {
      IntervalBounds(c, events[..|events| - 1]);
      StepInBounds(c, Run(c, events[..|events| - 1]), events[|events| - 1]);
    }
  }

  // ---------- a 429 owns the interval ----------

  /** The refusal that sets a back-off never shortens the interval; the others leave it alone. */
  lemma RefusalNeverSpeedsUp(c: Config, s: State, e: Event)
    ensures !s.rateLimited && Step(c, s, e).rateLimited ==>
      e.Refused? && Step(c, s, e).interval >= s.interval
      && (e.retryAfter.Some? && e.retryAfter.value > 0 ==> Step(c, s, e).interval >= e.retryAfter.value)
    ensures s.rateLimited && Step(c, s, e).rateLimited ==> Step(c, s, e).interval == s.interval
  {
    hide Candidates, NextSkips, NextCounts, BudgetPacedInterval, HeaderBackoff;
  }

  predicate StaysLimited(c: Config, events: seq<Event>, more: seq<Event>) {
    && Run(c, events + more).rateLimited
    && (more != [] ==> StaysLimited(c, events, more[..|more| - 1]))
  }

  /** Over every run: while a back-off is in force nothing moves the interval, neither the headers nor the
      budget nor further refusals. */
  lemma {:induction false} BackoffHoldsInterval(c: Config, events: seq<Event>, more: seq<Event>)
    requires StaysLimited(c, events, more)
    ensures Run(c, events + more).interval == Run(c, events).interval
  {
    hide Step;
    if more == [] {
      assert events + more == events;
    } else {
      var rest, last := more[..|more| - 1], more[|more| - 1];
      BackoffHoldsInterval(c, events, rest);
      assert (events + more)[..|events + more| - 1] == events + rest;
      assert StaysLimited(c, events, rest);
      RefusalNeverSpeedsUp(c, Run(c, events + rest), last);
    }
  }

  /** From the refusal that sets a back-off for as long as it lasts, the interval is the one set then: not below
      what it was before, nor below the wait the refusal asked for. */
  lemma BackoffFromRefusal(c: Config, events: seq<Event>, e: Event, more: seq<Event>)
    requires !Run(c, events).rateLimited && StaysLimited(c, events + [e], more)
    ensures e.Refused?
    ensures var interval := Run(c, events + [e] + more).interval;
      && interval == Run(c, events + [e]).interval >= Run(c, events).interval
      && (e.retryAfter.Some? && e.retryAfter.value > 0 ==> interval >= e.retryAfter.value)
  {
    BackoffHoldsInterval(c, events + [e], more);
    SetLimited(c, events + [e], more);
    assert (events + [e])[..|events|] == events;
    hide Step;
    RefusalNeverSpeedsUp(c, Run(c, events), e);
  }

  lemma {:induction false} SetLimited(c: Config, events: seq<Event>, more: seq<Event>)
    requires StaysLimited(c, events, more)
    ensures Run(c, events).rateLimited
  {
    hide Run;
    if more == [] { assert events + more == events; } else { SetLimited(c, events, more[..|more| - 1]); }
  }

  /** A refusal came after the current cycle began. */
  function RefusedSinceStart(c: Config, events: seq<Event>): bool {
    if events == [] then false
    else
      var prefix, e := events[..|events| - 1], events[|events| - 1];
      if e.Refused? then true
      else if e.StartCycle? && Run(c, prefix).phase.Between? then false
      else RefusedSinceStart(c, prefix)
  }

  lemma StepCycleLimited(c: Config, s: State, e: Event)
    ensures Step(c, s, e).cycleLimited ==
      if e.Refused? then true else if e.StartCycle? && s.phase.Between? then false else s.cycleLimited
  {
    hide Candidates, NextSkips, NextCounts, BudgetPacedInterval, Defers;
  }

  lemma {:induction false} CycleLimitedIs(c: Config, events: seq<Event>)
    ensures Run(c, events).cycleLimited == RefusedSinceStart(c, events)
  {
    hide Step;
    if events != [] {
      CycleLimitedIs(c, events[..|events| - 1]);
      StepCycleLimited(c, Run(c, events[..|events| - 1]), events[|events| - 1]);
    }
  }

  lemma StepClears(c: Config, s: State, e: Event)
    ensures s.rateLimited && !Step(c, s, e).rateLimited <==>
      e.FinishCycle? && s.phase.Gathering? && e.successes <= |s.phase.handed| && Clears(s, e.successes)
  {
    hide Candidates, NextSkips, NextCounts, BudgetPacedInterval, Defers;
  }

  /** Over every run: a back-off clears exactly at the end of a cycle in which nothing was refused and either a
      device handed to the fetch was really read or no device that reads from the cloud is left. */
  lemma ClearsExactly(c: Config, events: seq<Event>, e: Event)
    requires Run(c, events).rateLimited
    ensures var s := Run(c, events);
      !Run(c, events + [e]).rateLimited <==>
        && e.FinishCycle? && s.phase.Gathering? && e.successes <= |s.phase.handed|
        && !RefusedSinceStart(c, events)
        && ((e.successes > 0 && s.phase.handed != {}) || !s.phase.readable)
  {
    assert (events + [e])[..|events|] == events;
    CycleLimitedIs(c, events);
    hide Step;
    StepClears(c, Run(c, events), e);
  }

  // ---------- header deferrals ----------

  predicate PollsSomeone(entry: Entry) {
    entry.Polled? && entry.handed != {}
  }

  /** The last deferral still has no polling cycle after it. */
  function Owed(log: seq<Entry>): bool {
    if log == [] then false
    else
      var last := log[|log| - 1];
      last.Deferred? || (!PollsSomeone(last) && Owed(log[..|log| - 1]))
  }

  /** No deferral while one is owed. */
  predicate Spaced(log: seq<Entry>) {
    log != [] ==>
      && Spaced(log[..|log| - 1])
      && (log[|log| - 1].Deferred? ==> !Owed(log[..|log| - 1]))
  }

  predicate DeferralOk(s: State) {
    (Owed(s.log) ==> s.headerDeferred) && Spaced(s.log)
  }

  lemma LogAdd(log: seq<Entry>, entry: Entry)
    ensures Owed(log + [entry]) == (entry.Deferred? || (!PollsSomeone(entry) && Owed(log)))
    ensures Spaced(log + [entry]) <==> Spaced(log) && (entry.Deferred? ==> !Owed(log))
  {
    assert (log + [entry])[..|log|] == log;
  }

  /** What a step adds to the log, and what it does to the flag. */
  lemma StepEntry(c: Config, s: State, e: Event) returns (added: seq<Entry>)
    ensures Step(c, s, e).log == s.log + added && |added| <= 1
    ensures added == [] ==> Step(c, s, e).headerDeferred == s.headerDeferred
    ensures |added| == 1 ==>
      if added[0].Deferred? then !s.headerDeferred && Step(c, s, e).headerDeferred
      else if PollsSomeone(added[0]) then true
      else Step(c, s, e).headerDeferred == s.headerDeferred
  {
    hide Candidates, NextSkips, NextCounts, BudgetPacedInterval, HeaderBackoff;
    var next := Step(c, s, e);
    added := if |next.log| > |s.log| then [next.log[|s.log|]] else [];
  }

  lemma StepDeferralOk(c: Config, s: State, e: Event)
    requires DeferralOk(s)
    ensures DeferralOk(Step(c, s, e))
  {
    var added := StepEntry(c, s, e);
    hide Step, Owed, Spaced;
    if added == [] {
      assert s.log + [] == s.log;
    } else {
      LogAdd(s.log, added[0]);
      assert added == [added[0]];
    }
  }

  lemma {:induction false} DeferralsOk(c: Config, events: seq<Event>)
    ensures DeferralOk(Run(c, events))
  {
    hide Step;
    if events != [] {
      DeferralsOk(c, events[..|events| - 1]);
      StepDeferralOk(c, Run(c, events[..|events| - 1]), events[|events| - 1]);
    }
  }

  lemma {:induction false} SpacedAt(log: seq<Entry>, i: nat, j: nat)
    requires Spaced(log) && i < j < |log| && log[i].Deferred? && log[j].Deferred?
    ensures exists k :: i < k < j && PollsSomeone(log[k])
    decreases |log|
  {
    var prefix := log[..|log| - 1];
    if j < |log| - 1 {
      SpacedAt(prefix, i, j);
      var k :| i < k < j && PollsSomeone(prefix[k]);
      assert PollsSomeone(log[k]);
    } else {
      PaidSince(prefix, i);
      var k :| i < k < |prefix| && PollsSomeone(prefix[k]);
      assert PollsSomeone(log[k]);
    }
  }

  lemma {:induction false} PaidSince(log: seq<Entry>, i: nat)
    requires i < |log| && log[i].Deferred? && !Owed(log)
    ensures exists k :: i < k < |log| && PollsSomeone(log[k])
  {
    var prefix, last := log[..|log| - 1], log[|log| - 1];
    if PollsSomeone(last) {
      assert PollsSomeone(log[|log| - 1]);
    } else {
      PaidSince(prefix, i);
      var k :| i < k < |prefix| && PollsSomeone(prefix[k]);
      assert PollsSomeone(log[k]);
    }
  }

  /** Over every run: between two header deferrals some cycle hands a non-empty set of devices to the fetch. */
  lemma PollBetweenDeferrals(c: Config, events: seq<Event>, i: nat, j: nat)
    requires var log := Run(c, events).log; i < j < |log| && log[i].Deferred? && log[j].Deferred?
    ensures exists k :: i < k < j && PollsSomeone(Run(c, events).log[k])
  {
    DeferralsOk(c, events);
    SpacedAt(Run(c, events).log, i, j);
  }

  /** And the very next cycle with a candidate after a deferral is such a cycle, with every candidate in it. */
  lemma NextCyclePolls(c: Config, events: seq<Event>, facts: map<DeviceId, Facts>, readable: bool, headers: Option<Headers>)
    requires Owed(Run(c, events).log) && Run(c, events).phase.Between?
    requires Candidates(c, Run(c, events), facts) != {}
    ensures var s := Run(c, events);
      Step(c, s, StartCycle(facts, readable, headers)).log == s.log + [Polled(Candidates(c, s, facts))]
  {
    DeferralsOk(c, events);
  }
}
