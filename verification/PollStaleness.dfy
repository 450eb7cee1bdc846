/** How stale the composed scheduler can leave a device. */
module PollStaleness {
  import opened PollScheduler
  import opened RequestBudget

  // ---------- one device's potential ----------

  /** Cycles until the idle counter next falls due. */
  function Rest(count: nat): nat {
    (IDLE_DIVISOR - count % IDLE_DIVISOR) % IDLE_DIVISOR
  }

  /** How many cycles in a row the device can still be passed over: five fresh skips around each idle one. */
  function Potential(t: Track): int {
    MAX_LOCAL_FRESH_SKIPS - (if t.skips.Some? then t.skips.value else 0)
    + (MAX_LOCAL_FRESH_SKIPS + 1) * (if t.count.Some? then Rest(t.count.value) else IDLE_DIVISOR - 1)
  }

  /** The fresh skips left on their own. */
  function FreshPotential(t: Track): int {
    MAX_LOCAL_FRESH_SKIPS - if t.skips.Some? then t.skips.value else 0
  }

  predicate TrackOk(t: Track) {
    t.skips.Some? ==> t.skips.value <= MAX_LOCAL_FRESH_SKIPS
  }

  lemma RestStep(count: nat)
    requires count % IDLE_DIVISOR != 0
    ensures Rest(count + 1) == Rest(count) - 1
  {
  }

  /** Being passed over always costs potential, over budget and under. */
  lemma PassedOverCosts(t: Track, f: Facts, window: real, over: bool)
    requires TrackOk(t)
    ensures var next := AfterCycle(t, f, window, over);
      && TrackOk(next)
      && 0 <= Potential(next) <= 23 && 0 <= FreshPotential(next) <= 5
      && (!Candidate(t, f, window, over) ==> Potential(next) < Potential(t))
      && (!Candidate(t, f, window, false) ==> FreshPotential(next) < FreshPotential(t))
  {
    if Idle(t, f) {
      assert Divisor(f) == IDLE_DIVISOR;
      RestStep(CountOf(t, f));
    }
  }

  // ---------- runs ----------

  predicate Starts(s: State, e: Event) {
    e.StartCycle? && s.phase.Between?
  }

  /** The device was enabled in a cycle, deferred or not, and was no candidate for the fetch. */
  predicate PassesOver(c: Config, s: State, e: Event, d: DeviceId) {
    Starts(s, e) && d in e.facts && d !in Candidates(c, s, e.facts)
  }

  /** The device was enabled in a cycle that did not defer, and was not handed to the fetch. */
  predicate Misses(c: Config, s: State, e: Event, d: DeviceId) {
    PassesOver(c, s, e, d) && !Defers(c, s, Candidates(c, s, e.facts), e.headers)
  }

  /** A cycle hands an enabled device to the fetch exactly when it is a candidate and the cycle is not deferred. */
  lemma HandedIff(c: Config, s: State, e: Event, d: DeviceId)
    requires Starts(s, e) && d in e.facts
    ensures d in Step(c, s, e).phase.handed <==>
      !PassesOver(c, s, e, d) && !Defers(c, s, Candidates(c, s, e.facts), e.headers)
  {
    hide Candidates, Defers, HeaderBackoff, NextSkips, NextCounts;
  }

  /** Cycles in a row, up to now, that had the device enabled and passed it over, counting deferred ones too. */
  function PassedOver(c: Config, events: seq<Event>, d: DeviceId): nat {
    if events == [] then 0
    else
      var prefix, e := events[..|events| - 1], events[|events| - 1];
      if PassesOver(c, Run(c, prefix), e, d) then PassedOver(c, prefix, d) + 1
      else if Starts(Run(c, prefix), e) then 0
      else PassedOver(c, prefix, d)
  }

  /** Cycles in a row, up to now, that were not deferred, had the device enabled and passed it over. */
  function Missed(c: Config, events: seq<Event>, d: DeviceId): nat {
    if events == [] then 0
    else
      var prefix, e := events[..|events| - 1], events[|events| - 1];
      if Misses(c, Run(c, prefix), e, d) then Missed(c, prefix, d) + 1
      else if Starts(Run(c, prefix), e) then 0
      else Missed(c, prefix, d)
  }

  /** The same, counting only cycles in which the install was under budget. */
  function MissedUnderBudget(c: Config, events: seq<Event>, d: DeviceId): nat {
    if events == [] then 0
    else
      var prefix, e := events[..|events| - 1], events[|events| - 1];
      if Misses(c, Run(c, prefix), e, d) && !Over(c, e.facts) then MissedUnderBudget(c, prefix, d) + 1
      else if Starts(Run(c, prefix), e) then 0
      else MissedUnderBudget(c, prefix, d)
  }

  /** The counters of the whole cycle are each device's own. */
  lemma CycleTrack(c: Config, s: State, facts: map<DeviceId, Facts>, d: DeviceId)
    ensures TrackIn(NextSkips(s, facts), NextCounts(c, s, facts), d) ==
      if d in facts then AfterCycle(TrackOf(s, d), facts[d], Window(s), Over(c, facts)) else TrackOf(s, d)
  {
    hide Over, SkipsOf, CountOf, Window, LocalReadingIsFresh;
  }

  /** Which of a step's effects reach a device's counters. */
  lemma StepTrack(c: Config, s: State, e: Event, d: DeviceId)
    ensures TrackOf(Step(c, s, e), d) ==
      if Starts(s, e) && d in e.facts then AfterCycle(TrackOf(s, d), e.facts[d], Window(s), Over(c, e.facts)) else TrackOf(s, d)
  {
    if e.StartCycle? { CycleTrack(c, s, e.facts, d); }
    StepCounters(c, s, e);
    hide Step, AfterCycle, Over, NextSkips, NextCounts;
  }

  lemma StepCounters(c: Config, s: State, e: Event)
    ensures Step(c, s, e).skips == (if Starts(s, e) then NextSkips(s, e.facts) else s.skips)
    ensures Step(c, s, e).counts == (if Starts(s, e) then NextCounts(c, s, e.facts) else s.counts)
  {
    hide Candidates, Defers, Consults, HeaderBackoff, BudgetPacedInterval, NextSkips, NextCounts;
  }

  lemma {:induction false} MissedBounded(c: Config, events: seq<Event>, d: DeviceId)
    ensures TrackOk(TrackOf(Run(c, events), d))
    ensures Missed(c, events, d) <= PassedOver(c, events, d)
    ensures 0 <= Potential(TrackOf(Run(c, events), d)) <= 23 - PassedOver(c, events, d)
    ensures 0 <= FreshPotential(TrackOf(Run(c, events), d)) <= 5 - MissedUnderBudget(c, events, d)
  {
    hide Step, AfterCycle, Candidate, Potential, FreshPotential, Defers, TrackOk;
    if events == [] {
      FreshTrack();
    } else {
      var prefix, e := events[..|events| - 1], events[|events| - 1];
      var s := Run(c, prefix);
      MissedBounded(c, prefix, d);
      StepTrack(c, s, e, d);
      if Starts(s, e) && d in e.facts {
        PassedOverCosts(TrackOf(s, d), e.facts[d], Window(s), Over(c, e.facts));
      }
    }
  }

  lemma FreshTrack()
    ensures TrackOk(NO_TRACK) && Potential(NO_TRACK) == 23 && FreshPotential(NO_TRACK) == 5
  {
  }

  /** Over every run, whatever the readings, states, commands and configuration: among any 24 cycles in a row a
      device enabled throughout is a candidate at least once, so among any 24 without a header deferral it is
      handed to the cloud fetch; among any 6 such cycles while the install is under budget. */
  lemma BoundedStaleness(c: Config, events: seq<Event>, d: DeviceId)
    ensures PassedOver(c, events, d) <= 23
    ensures Missed(c, events, d) <= 23
    ensures MissedUnderBudget(c, events, d) <= 5
  {
    MissedBounded(c, events, d);
  }
}
