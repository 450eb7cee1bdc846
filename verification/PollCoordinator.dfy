/** The coordinator's poll fields, updated in place by a cycle's steps (coordinator.py). */
module PollCoordinatorClass {
  import opened PollScheduler
  import opened RequestBudget

  class PollCoordinator {
    const config: Config
    var localFreshSkips: map<DeviceId, nat>
    var pollCycleCounts: map<DeviceId, nat>
    var updateInterval: int
    var rateLimited: bool
    var headerDeferred: bool
    var cycleRateLimited: bool
    ghost var phase: Phase
    ghost var log: seq<Entry>

    ghost function View(): State
      reads this
    {
      State.State(localFreshSkips, pollCycleCounts, updateInterval, rateLimited, headerDeferred, cycleRateLimited, phase, log)
    }

    constructor (config: Config)
      ensures this.config == config && View() == Init(config)
    {
      this.config := config;
      localFreshSkips, pollCycleCounts, updateInterval := map[], map[], config.base;
      rateLimited, headerDeferred, cycleRateLimited := false, false, false;
      phase, log := Between, [];
    }

    /** The body of _locally_fresh_devices' loop. */
    method CheckFresh(d: DeviceId, f: Facts) returns (isFresh: bool)
      modifies `localFreshSkips
      ensures var t := old(TrackIn(localFreshSkips, pollCycleCounts, d));
        && (isFresh <==> Fresh(t, f, old(Window(View()))))
        && localFreshSkips == if Passed(f) then old(localFreshSkips) else old(localFreshSkips)[d := if isFresh then SkipsOf(t, f) + 1 else 0]
    {
      if !f.hasState {
        return false;
      }
      if MustPoll(f) {
        return false;
      }
      if d !in localFreshSkips {
        localFreshSkips := localFreshSkips[d := f.crc % MAX_LOCAL_FRESH_SKIPS];
      }
      if LocalReadingIsFresh(f.localAge, updateInterval as real * FRESHNESS_FACTOR, localFreshSkips[d], MAX_LOCAL_FRESH_SKIPS) {
        localFreshSkips := localFreshSkips[d := localFreshSkips[d] + 1];
        return true;
      }
      localFreshSkips := localFreshSkips[d := 0];
      return false;
    }

    /** _locally_fresh_devices */
    method LocallyFreshDevices(facts: map<DeviceId, Facts>) returns (covered: set<DeviceId>)
      modifies `localFreshSkips
      ensures covered == FreshDevices(old(View()), facts)
      ensures localFreshSkips == NextSkips(old(View()), facts)
    {
      hide SkipsAt, FreshAt, Fresh, SkipsOf, Passed, FreshDevices, NextSkips;
      ghost var s := View();
      covered := {};
      var left := facts.Keys;
      NoneSkipped(s, facts);
      while left != {}
        invariant left <= facts.Keys
        invariant localFreshSkips == SkipsAt(s, facts, left) && covered == FreshAt(s, facts, left)
        decreases |left|
      {
        var d :| d in left;
        OneMoreSkipped(s, facts, left, d);
        left := left - {d};
        var isFresh := CheckFresh(d, facts[d]);
        if isFresh {
          covered := covered + {d};
        }
      }
      AllSkipped(s, facts);
    }

    /** The body of _idle_devices_to_skip's loop. */
    method CheckIdle(d: DeviceId, f: Facts) returns (idle: bool)
      modifies `pollCycleCounts
      ensures var t := old(TrackIn(localFreshSkips, pollCycleCounts, d));
        && (idle <==> Idle(t, f))
        && pollCycleCounts == old(pollCycleCounts)[d := CountOf(t, f) + 1]
    {
      if d !in pollCycleCounts {
        pollCycleCounts := pollCycleCounts[d := f.crc % IDLE_DIVISOR];
      }
      var count := pollCycleCounts[d];
      pollCycleCounts := pollCycleCounts[d := count + 1];
      if !f.hasState {
        return false;
      }
      var divisor := CloudPollDivisor(f.isOff, f.sinceChange, f.sinceCommand, IDLE_AFTER, COMMAND_WINDOW, IDLE_DIVISOR);
      return divisor > 1 && count % divisor != 0;
    }

    /** _idle_devices_to_skip */
    method IdleDevicesToSkip(facts: map<DeviceId, Facts>) returns (skipped: set<DeviceId>)
      modifies `pollCycleCounts
      ensures skipped == IdleAt(old(View()), facts, {})
      ensures pollCycleCounts == CountsAt(old(View()), facts, {})
    {
      hide CountsAt, IdleAt, Idle, CountOf;
      ghost var s := View();
      skipped := {};
      var left := facts.Keys;
      NoneCounted(s, facts);
      while left != {}
        invariant left <= facts.Keys
        invariant pollCycleCounts == CountsAt(s, facts, left) && skipped == IdleAt(s, facts, left)
        decreases |left|
      {
        var d :| d in left;
        OneMoreCounted(s, facts, left, d);
        left := left - {d};
        var idle := CheckIdle(d, facts[d]);
        if idle {
          skipped := skipped + {d};
        }
      }
    }

    /** _defer_for_rate_limit_headers */
    method DeferForRateLimitHeaders(requests: nat, headers: Option<Headers>) returns (deferred: bool)
      modifies `headerDeferred, `updateInterval
      ensures deferred <==> !old(headerDeferred) && HeaderBackoff(config, headers, requests).Some?
      ensures headerDeferred == deferred
      ensures updateInterval == if deferred then HeaderBackoff(config, headers, requests).value else old(updateInterval)
    {
      if headerDeferred {
        headerDeferred := false;
        return false;
      }
      if headers.None? {
        return false;
      }
      var interval := HeaderBackoffInterval(headers.value.remaining, headers.value.resetIn, requests, config.base, MAX_PACED_INTERVAL);
      if interval.None? {
        return false;
      }
      updateInterval := interval.value;
      headerDeferred := true;
      return true;
    }

    /** The part of _async_poll_all that picks the devices a fetch would be made for. */
    method PickCandidates(facts: map<DeviceId, Facts>) returns (pollable: set<DeviceId>)
      modifies `localFreshSkips, `pollCycleCounts
      ensures pollable == Candidates(config, old(View()), facts)
      ensures localFreshSkips == NextSkips(old(View()), facts)
      ensures pollCycleCounts == NextCounts(config, old(View()), facts)
    {
      hide NextSkips, FreshDevices, PollExceedsBudget, CountsAt, IdleAt;
      ghost var s := View();
      var covered := LocallyFreshDevices(facts);
      var rest := facts - covered;
      if PollExceedsBudget(|facts|, config.base, config.budget) {
        ghost var mid := View();
        var idle := IdleDevicesToSkip(rest);
        CountsMatch(config, s, mid, facts, rest);
        CandidatesOver(config, s, mid, facts);
        hide Candidates, NextCounts;
        rest := rest - idle;
      } else {
        CandidatesUnder(config, s, facts);
        hide Candidates;
      }
      pollable := rest.Keys;
    }

    /** _async_poll_all up to the gather; handed is what it fetches. */
    method StartPoll(facts: map<DeviceId, Facts>, readable: bool, headers: Option<Headers>)
      returns (handed: set<DeviceId>, deferred: bool)
      requires phase.Between?
      modifies this
      ensures View() == Step(config, old(View()), StartCycle(facts, readable, headers))
      ensures handed == phase.handed && deferred == phase.deferred
    {
      hide Candidates, NextSkips, NextCounts, HeaderBackoff;
      var pollable := PickCandidates(facts);
      deferred := false;
      if pollable != {} && !rateLimited {
        deferred := DeferForRateLimitHeaders(|pollable|, headers);
      }
      handed := if deferred then {} else pollable;
      cycleRateLimited := false;
      phase := Gathering(|facts|, handed, deferred, readable);
      log := log + [if deferred then Deferred(updateInterval) else Polled(handed)];
    }

    /** The 429 branch of a device's fetch. */
    method OnRateLimited(retryAfter: Option<int>)
      modifies this
      ensures View() == Step(config, old(View()), Refused(retryAfter))
    {
      cycleRateLimited := true;
      if !rateLimited {
        rateLimited := true;
        var backoff := if retryAfter.Some? && retryAfter.value != 0 then retryAfter.value else DEFAULT_BACKOFF;
        backoff := Max(backoff, updateInterval);
        updateInterval := backoff;
        log := log + [BackedOff(backoff)];
      }
    }

    /** _apply_budget_pacing */
    method ApplyBudgetPacing(devices: nat, spent: Option<int>, secondsLeft: int)
      modifies `updateInterval
      ensures View() == Paced(config, old(View()), devices, spent, secondsLeft)
    {
      if rateLimited {
        return;
      }
      if spent.None? {
        return;
      }
      var paced := BudgetPacedInterval(config.base, spent.value, devices, secondsLeft, config.budget, MAX_PACED_INTERVAL);
      if paced != updateInterval {
        updateInterval := paced;
      }
    }

    /** _async_poll_all after the gather. */
    method FinishPoll(devices: nat, deferred: bool, readable: bool, successes: nat, spent: Option<int>, secondsLeft: int)
      requires phase.Gathering? && phase.devices == devices && phase.deferred == deferred && phase.readable == readable
      requires successes <= |phase.handed|
      modifies this
      ensures View() == Step(config, old(View()), FinishCycle(successes, spent, secondsLeft))
    {
      if rateLimited && !cycleRateLimited && (successes > 0 || !readable) {
        rateLimited := false;
        updateInterval := config.base;
        log := log + [Cleared];
      }
      if !deferred {
        ApplyBudgetPacing(devices, spent, secondsLeft);
      }
      phase := Between;
    }
  }

  // The two loops, part way: what is left is still to do.

  function SkipsAt(s: State, facts: map<DeviceId, Facts>, left: set<DeviceId>): map<DeviceId, nat> {
    s.skips + map d | d in facts && d !in left && !Passed(facts[d]) ::
      if Fresh(TrackOf(s, d), facts[d], Window(s)) then SkipsOf(TrackOf(s, d), facts[d]) + 1 else 0
  }

  function FreshAt(s: State, facts: map<DeviceId, Facts>, left: set<DeviceId>): set<DeviceId> {
    set d | d in facts && d !in left && Fresh(TrackOf(s, d), facts[d], Window(s))
  }

  lemma NoneSkipped(s: State, facts: map<DeviceId, Facts>)
    ensures SkipsAt(s, facts, facts.Keys) == s.skips && FreshAt(s, facts, facts.Keys) == {}
  {
    hide Fresh, SkipsOf;
  }

  lemma AllSkipped(s: State, facts: map<DeviceId, Facts>)
    ensures SkipsAt(s, facts, {}) == NextSkips(s, facts) && FreshAt(s, facts, {}) == FreshDevices(s, facts)
  {
    hide Fresh, SkipsOf;
  }

  lemma OneMoreSkipped(s: State, facts: map<DeviceId, Facts>, left: set<DeviceId>, d: DeviceId)
    requires d in left && left <= facts.Keys
    ensures var f, t, skips := facts[d], TrackOf(s, d), SkipsAt(s, facts, left);
      && TrackIn(skips, s.counts, d) == t
      && SkipsAt(s, facts, left - {d}) ==
         (if Passed(f) then skips else skips[d := if Fresh(t, f, Window(s)) then SkipsOf(t, f) + 1 else 0])
    ensures FreshAt(s, facts, left - {d}) == FreshAt(s, facts, left) + if Fresh(TrackOf(s, d), facts[d], Window(s)) then {d} else {}
  {
    hide Fresh, SkipsOf, Window, Passed, FreshAt;
    OneMoreFresh(s, facts, left, d);
    NotYetSkipped(s, facts, left, d);
    hide TrackOf;
  }

  lemma NotYetSkipped(s: State, facts: map<DeviceId, Facts>, left: set<DeviceId>, d: DeviceId)
    requires d in left
    ensures TrackIn(SkipsAt(s, facts, left), s.counts, d) == TrackOf(s, d)
  {
    hide Fresh, SkipsOf, Window, Passed;
  }

  lemma OneMoreFresh(s: State, facts: map<DeviceId, Facts>, left: set<DeviceId>, d: DeviceId)
    requires d in left && left <= facts.Keys
    ensures FreshAt(s, facts, left - {d}) == FreshAt(s, facts, left) + if Fresh(TrackOf(s, d), facts[d], Window(s)) then {d} else {}
  {
    hide Fresh, Window, TrackOf;
  }

  function CountsAt(s: State, facts: map<DeviceId, Facts>, left: set<DeviceId>): map<DeviceId, nat> {
    s.counts + map d | d in facts && d !in left :: CountOf(TrackOf(s, d), facts[d]) + 1
  }

  function IdleAt(s: State, facts: map<DeviceId, Facts>, left: set<DeviceId>): set<DeviceId> {
    set d | d in facts && d !in left && Idle(TrackOf(s, d), facts[d])
  }

  lemma NoneCounted(s: State, facts: map<DeviceId, Facts>)
    ensures CountsAt(s, facts, facts.Keys) == s.counts && IdleAt(s, facts, facts.Keys) == {}
  {
    hide CountOf, Idle;
  }

  lemma OneMoreCounted(s: State, facts: map<DeviceId, Facts>, left: set<DeviceId>, d: DeviceId)
    requires d in left && left <= facts.Keys
    ensures var f, t, counts := facts[d], TrackOf(s, d), CountsAt(s, facts, left);
      && TrackIn(s.skips, counts, d) == t
      && CountsAt(s, facts, left - {d}) == counts[d := CountOf(t, f) + 1]
    ensures IdleAt(s, facts, left - {d}) == IdleAt(s, facts, left) + if Idle(TrackOf(s, d), facts[d]) then {d} else {}
  {
    hide CountOf, Idle;
    OneMoreIdle(s, facts, left, d);
    hide IdleAt;
  }

  lemma OneMoreIdle(s: State, facts: map<DeviceId, Facts>, left: set<DeviceId>, d: DeviceId)
    requires d in left && left <= facts.Keys
    ensures IdleAt(s, facts, left - {d}) == IdleAt(s, facts, left) + if Idle(TrackOf(s, d), facts[d]) then {d} else {}
  {
    hide Idle, TrackOf;
  }

  /** The freshness check moved only the skip counters. */
  predicate AfterFreshness(s: State, mid: State, facts: map<DeviceId, Facts>) {
    mid == s.(skips := NextSkips(s, facts))
  }

  lemma SameIdle(s: State, mid: State, facts: map<DeviceId, Facts>, d: DeviceId)
    requires AfterFreshness(s, mid, facts) && d in facts
    ensures CountOf(TrackOf(mid, d), facts[d]) == CountOf(TrackOf(s, d), facts[d])
    ensures Idle(TrackOf(mid, d), facts[d]) == Idle(TrackOf(s, d), facts[d])
  {
    hide NextSkips, Divisor;
  }

  /** Counting only what freshness left over is what the whole cycle counts. */
  lemma CountsMatch(c: Config, s: State, mid: State, facts: map<DeviceId, Facts>, rest: map<DeviceId, Facts>)
    requires AfterFreshness(s, mid, facts) && Over(c, facts) && rest == facts - FreshDevices(s, facts)
    ensures CountsAt(mid, rest, {}) == NextCounts(c, s, facts)
  {
    hide CountOf, TrackOf, FreshDevices, Over, NextSkips;
    forall d | d in facts ensures CountOf(TrackOf(mid, d), facts[d]) == CountOf(TrackOf(s, d), facts[d]) {
      SameIdle(s, mid, facts, d);
    }
  }

  /** Dropping the covered devices and then the idle ones leaves the candidates. */
  lemma CandidatesOver(c: Config, s: State, mid: State, facts: map<DeviceId, Facts>)
    requires AfterFreshness(s, mid, facts) && Over(c, facts)
    ensures var rest := facts - FreshDevices(s, facts);
      (rest - IdleAt(mid, rest, {})).Keys == Candidates(c, s, facts)
  {
    hide TrackOf, Fresh, Over, Idle, NextSkips;
    forall d | d in facts ensures Idle(TrackOf(mid, d), facts[d]) == Idle(TrackOf(s, d), facts[d]) {
      SameIdle(s, mid, facts, d);
    }
  }

  lemma CandidatesUnder(c: Config, s: State, facts: map<DeviceId, Facts>)
    requires !Over(c, facts)
    ensures (facts - FreshDevices(s, facts)).Keys == Candidates(c, s, facts)
  {
    hide TrackOf, Fresh, Over, Idle;
  }
}
