/** Who is polled, who defers and who sets the interval: each decision of a cycle read off the log of any run. */
module PollDecisions {
  import opened PollScheduler
  import opened RequestBudget
  import opened Scaling

  // ---------- reading the log ----------

  /** A 429 back-off is in force. */
  predicate BackingOff(log: seq<Entry>) {
    log != [] && (log[|log| - 1].BackedOff? || (!log[|log| - 1].Cleared? && BackingOff(log[..|log| - 1])))
  }

  /** A header deferral is not paid back: no cycle outside a back-off has polled anyone since. */
  predicate Unpaid(log: seq<Entry>) {
    log != [] &&
      var before := log[..|log| - 1];
      match log[|log| - 1]
      case Deferred(_) => true
      case Polled(handed) => Unpaid(before) && (handed == {} || BackingOff(before))
      case _ => Unpaid(before)
  }

  predicate Reads(s: State) {
    s.rateLimited == BackingOff(s.log) && s.headerDeferred == Unpaid(s.log)
  }

  predicate UnpaidAfter(before: bool, limited: bool, entry: Entry) {
    match entry
    case Deferred(_) => true
    case Polled(handed) => before && (handed == {} || limited)
    case _ => before
  }

  lemma ReadsAppend(log: seq<Entry>, entry: Entry)
    ensures BackingOff(log + [entry]) == (entry.BackedOff? || (!entry.Cleared? && BackingOff(log)))
    ensures Unpaid(log + [entry]) == UnpaidAfter(Unpaid(log), BackingOff(log), entry)
  {
    assert (log + [entry])[..|log|] == log;
  }

  /** A step logs one entry at most, and the flags move as the entry says. */
  lemma StepEntry(c: Config, s: State, e: Event)
    ensures var next := Step(c, s, e);
      if next.log == s.log then next.rateLimited == s.rateLimited && next.headerDeferred == s.headerDeferred
      else
        && |next.log| == |s.log| + 1 && next.log == s.log + [next.log[|s.log|]]
        && next.rateLimited == (next.log[|s.log|].BackedOff? || (!next.log[|s.log|].Cleared? && s.rateLimited))
        && next.headerDeferred == UnpaidAfter(s.headerDeferred, s.rateLimited, next.log[|s.log|])
  {
    hide Candidates, NextSkips, NextCounts, BudgetPacedInterval, HeaderBackoff;
  }

  lemma StepReads(c: Config, s: State, e: Event)
    requires Reads(s)
    ensures Reads(Step(c, s, e))
  {
    StepEntry(c, s, e);
    var next := Step(c, s, e);
    if next.log != s.log { ReadsAppend(s.log, next.log[|s.log|]); }
    hide Step, BackingOff, Unpaid;
  }

  lemma {:induction false} RunReads(c: Config, events: seq<Event>)
    ensures Reads(Run(c, events))
  {
    hide Step;
    if events != [] {
      RunReads(c, events[..|events| - 1]);
      StepReads(c, Run(c, events[..|events| - 1]), events[|events| - 1]);
    }
  }

  // ---------- deferring and polling ----------

  /** The headers say the polls do not fit before the reset. */
  predicate TooFew(headers: Option<Headers>, requests: nat) {
    headers.Some? && headers.value.remaining < requests && headers.value.resetIn > 0
  }

  /** The wait for the reset, within the user's interval and 900 seconds. */
  function UntilReset(c: Config, headers: Headers): int {
    if headers.resetIn < c.base then c.base else if headers.resetIn > 900 then 900 else headers.resetIn
  }

  /** Over every run: a cycle is deferred exactly when it has candidates, no back-off is in force, no earlier
      deferral is unpaid, and the headers leave too few requests before a reset still to come; the interval is then
      the wait for that reset. Otherwise every candidate is handed over and the interval stays. */
  lemma DefersIff(c: Config, events: seq<Event>, facts: map<DeviceId, Facts>, readable: bool, headers: Option<Headers>)
    requires c.Valid() && Run(c, events).phase.Between?
    ensures var s := Run(c, events);
      var next, candidates := Step(c, s, StartCycle(facts, readable, headers)), Candidates(c, s, facts);
      var defers := candidates != {} && !BackingOff(s.log) && !Unpaid(s.log) && TooFew(headers, |candidates|);
      && next.interval == (if defers then UntilReset(c, headers.value) else s.interval)
      && next.log == s.log + [if defers then Deferred(next.interval) else Polled(candidates)]
      && next.phase == Gathering(|facts|, if defers then {} else candidates, defers, readable)
  {
    RunReads(c, events);
    hide Run, Candidates, NextSkips, NextCounts, BackingOff, Unpaid;
    var candidates := Candidates(c, Run(c, events), facts);
    assert MAX_PACED_INTERVAL == 900;
    assert candidates != {} ==> |candidates| > 0;
  }

  // ---------- candidates ----------

  /** A kettle whose temperature only the cloud can tell: its unit is unknown, or it is on and heating and the
      budget is not tight. */
  predicate NeedsCloud(f: Facts) {
    f.kettle.Some? && (f.kettle.value.unitKnown ==> f.hasState && !f.isOff && f.kettle.value.heats && !f.kettle.value.budgetTight)
  }

  /** Covered by a local reading: known, not a kettle that must be polled, read within one and a half intervals,
      and not for a sixth time in a row. */
  predicate CoveredLocally(t: Track, f: Facts, interval: int) {
    f.hasState && !NeedsCloud(f) && f.localAge.Some? && 0.0 <= f.localAge.value < interval as real * 1.5 && SkipsOf(t, f) < 5
  }

  /** Held back as idle: known to be off without a change for half an hour, no command to it in five minutes, and
      not its turn of every four. */
  predicate HeldBackIdle(t: Track, f: Facts) {
    && f.hasState && f.isOff
    && f.sinceChange.Some? && f.sinceChange.value >= 1800.0
    && !(f.sinceCommand.Some? && 0.0 <= f.sinceCommand.value < 300.0)
    && CountOf(t, f) % 4 != 0
  }

  predicate DayTooDear(c: Config, devices: nat) {
    devices * 86400 > Mul(c.budget, c.base)
  }

  /** Over every run: an enabled device is no candidate exactly when a local reading covers it, or it is idle while
      polling every enabled device all day would exceed the budget. Being covered counts one skip more, being
      looked at otherwise ends the row; the idle count advances exactly over budget. */
  lemma CandidateIff(c: Config, events: seq<Event>, facts: map<DeviceId, Facts>, d: DeviceId, readable: bool, headers: Option<Headers>)
    requires c.Valid() && d in facts && Run(c, events).phase.Between?
    ensures var s := Run(c, events);
      var next := Step(c, s, StartCycle(facts, readable, headers));
      var t, f, u := TrackOf(s, d), facts[d], TrackOf(next, d);
      var covered, over := CoveredLocally(t, f, s.interval), DayTooDear(c, |facts|);
      && (d in Candidates(c, s, facts) <==> !covered && !(over && HeldBackIdle(t, f)))
      && u.skips == (if covered then Some(SkipsOf(t, f) + 1) else if !f.hasState || NeedsCloud(f) then t.skips else Some(0))
      && u.count == (if over && !covered then Some(CountOf(t, f) + 1) else t.count)
  {
    hide Run, HeaderBackoff;
    var s := Run(c, events);
    assert d in facts.Keys;
    assert |facts.Keys| > 0;
    TrackAfter(c, s, facts, d);
    DeviceIff(c, TrackOf(s, d), facts[d], s.interval, |facts|);
    hide NextSkips, NextCounts, NeedsCloud, CoveredLocally, HeldBackIdle, DayTooDear, Candidate, AfterCycle, TrackIn;
  }

  /** The decision about one device, and its counters after it. */
  lemma DeviceIff(c: Config, t: Track, f: Facts, interval: int, devices: nat)
    requires c.Valid() && devices > 0
    ensures var window := interval as real * FRESHNESS_FACTOR;
      var covered, over, u := CoveredLocally(t, f, interval), DayTooDear(c, devices), AfterCycle(t, f, window, DayTooDear(c, devices));
      && over == PollExceedsBudget(devices, c.base, c.budget)
      && (Candidate(t, f, window, over) <==> !covered && !(over && HeldBackIdle(t, f)))
      && u.skips == (if covered then Some(SkipsOf(t, f) + 1) else if !f.hasState || NeedsCloud(f) then t.skips else Some(0))
      && u.count == (if over && !covered then Some(CountOf(t, f) + 1) else t.count)
  {
    assert NeedsCloud(f) <==> MustPoll(f);
    hide NeedsCloud, MustPoll, SkipsOf, CountOf;
  }

  lemma TrackAfter(c: Config, s: State, facts: map<DeviceId, Facts>, d: DeviceId)
    requires d in facts
    ensures var t, f := TrackOf(s, d), facts[d];
      var skips, counts := NextSkips(s, facts), NextCounts(c, s, facts);
      TrackIn(skips, counts, d) == AfterCycle(t, f, Window(s), Over(c, facts))
  {
    hide Over, MustPoll;
  }

  // ---------- the interval ----------

  /** What the end of a cycle makes of a back-off: nothing was refused in it, and a device was read or none that
      reads from the cloud is left. */
  predicate EndsBackoff(s: State, successes: nat) {
    s.phase.Gathering? && !s.cycleLimited && (successes > 0 || !s.phase.readable)
  }

  /** Over every run: the first refusal sets the interval to the wait it asks for, 120 seconds when it asks for
      none, unless it was longer already; later refusals leave it. */
  lemma RefusalSets(c: Config, events: seq<Event>, retryAfter: Option<int>)
    ensures var s := Run(c, events);
      var next := Step(c, s, Refused(retryAfter));
      var wait := if retryAfter.None? || retryAfter.value == 0 then 120 else retryAfter.value;
      if BackingOff(s.log) then next.interval == s.interval && next.log == s.log
      else next.interval == (if wait > s.interval then wait else s.interval) && BackingOff(next.log)
  {
    RunReads(c, events);
    StepReads(c, Run(c, events), Refused(retryAfter));
    hide Run, BackingOff, Unpaid;
  }

  /** Over every run: at the end of a cycle, a back-off that goes on keeps the interval. One that ends gives it back:
      to the user's value, and then, as in every cycle that did not defer and has readable counters, to the paced
      one for the devices of the cycle. */
  lemma FinishSets(c: Config, events: seq<Event>, successes: nat, spent: Option<int>, secondsLeft: int)
    requires var s := Run(c, events); s.phase.Gathering? && successes <= |s.phase.handed|
    ensures var s := Run(c, events);
      var next := Step(c, s, FinishCycle(successes, spent, secondsLeft));
      var limited, ends := BackingOff(s.log), EndsBackoff(s, successes);
      && next.phase.Between?
      && (limited && !ends ==> next.interval == s.interval && BackingOff(next.log))
      && (!limited || ends ==> !BackingOff(next.log))
      && ((!limited || ends) && spent.Some? && !s.phase.deferred ==>
            next.interval == BudgetPacedInterval(c.base, spent.value, s.phase.devices, secondsLeft, c.budget, 900))
      && ((!limited || ends) && (spent.None? || s.phase.deferred) ==>
            next.interval == if limited then c.base else s.interval)
  {
    RunReads(c, events);
    StepReads(c, Run(c, events), FinishCycle(successes, spent, secondsLeft));
    hide Run, BackingOff, Unpaid, BudgetPacedInterval;
    assert MAX_PACED_INTERVAL == 900;
  }

  /** A back-off that ends while the rest of the day at the user's interval costs no more than what is left of the
      budget gives the poll back its very interval. */
  lemma BackToTheUsers(c: Config, events: seq<Event>, successes: nat, spent: Option<int>, secondsLeft: int)
    requires c.Valid()
    requires var s := Run(c, events); s.phase.Gathering? && successes <= |s.phase.handed|
    requires var s := Run(c, events); BackingOff(s.log) && EndsBackoff(s, successes)
    requires spent.Some? ==>
      var s := Run(c, events);
      s.phase.devices <= c.budget - spent.value && Mul(secondsLeft, s.phase.devices) <= Mul(c.base, c.budget - spent.value)
    ensures Step(c, Run(c, events), FinishCycle(successes, spent, secondsLeft)).interval == c.base
  {
    FinishSets(c, events, successes, spent, secondsLeft);
    var s := Run(c, events);
    hide Run, Step, BackingOff, EndsBackoff, BudgetPacedInterval;
    if spent.Some? { PacedAtBase(c.base, spent.value, s.phase.devices, secondsLeft, c.budget, 900); }
  }

  lemma PacedAtBase(base: int, spent: int, devices: nat, secondsLeft: int, budget: int, max: int)
    requires 0 < base <= max && devices <= budget - spent && Mul(secondsLeft, devices) <= Mul(base, budget - spent)
    ensures BudgetPacedInterval(base, spent, devices, secondsLeft, budget, max) == base
  {
    if devices > 0 {
      PacedIsLeast(base, spent, devices, secondsLeft, budget, max);
      var interval := BudgetPacedInterval(base, spent, devices, secondsLeft, budget, max);
      assert Mul(0, devices) == 0 && Mul(base, budget - spent) >= 0;
      MulLe(base, interval - 1, budget - spent);
      hide BudgetPacedInterval, Mul;
    }
  }

  /** Nothing else touches the interval. */
  lemma NothingElseSets(c: Config, s: State, e: Event)
    requires !e.Refused? && !(e.StartCycle? && s.phase.Between?) && !(e.FinishCycle? && s.phase.Gathering?)
    ensures Step(c, s, e).interval == s.interval && Step(c, s, e).log == s.log
  {
  }
}
