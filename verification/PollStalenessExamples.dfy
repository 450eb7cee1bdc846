/** The staleness bound is tight, and header deferrals can defeat it. */
module PollStalenessExamples {
  import opened PollScheduler
  import opened PollStaleness
  import opened RequestBudget

  const C := Config(30, 500)
  const HELD := "held"
  const BUSY := "busy"

  /** Off and unchanged for long, so idle; with or without a fresh local reading. */
  function Quiet(crc: nat, age: Option<real>): Facts {
    Facts(crc, true, None, age, true, Some(2000.0), None)
  }

  const FRESH := Quiet(5, Some(1.0))
  const STALE := Quiet(5, None)

  lemma After(events: seq<Event>, e: Event) returns (more: seq<Event>)
    ensures more == events + [e] && Run(C, more) == Step(C, Run(C, events), e)
    ensures more[..|more| - 1] == events && more[|more| - 1] == e
  {
    more := events + [e];
    assert more[..|events|] == events;
  }

  // ---------- the bound is reached ----------

  predicate Ready(s: State, skips: nat, count: nat) {
    s.phase.Between? && s.interval == 30 && SkipsOf(TrackOf(s, HELD), FRESH) == skips && CountOf(TrackOf(s, HELD), FRESH) == count
  }

  lemma OverAlone(f: Facts)
    ensures Over(C, map[HELD := f])
  {
    assert |map[HELD := f]| == 1;
  }

  /** A cycle whose headers say nothing neither defers nor moves the interval. */
  lemma QuietCycle(s: State, facts: map<DeviceId, Facts>, headers: Option<Headers>)
    requires s.phase.Between? && !s.rateLimited
    ensures var e := StartCycle(facts, true, headers);
      var mid := Step(C, s, e);
      var next := Step(C, mid, FinishCycle(0, None, 0));
      && mid.phase.Gathering? && next.phase.Between? && !next.rateLimited && next.log == mid.log && next.skips == mid.skips && next.counts == mid.counts
      && next.headerDeferred == mid.headerDeferred
      && (if Defers(C, s, Candidates(C, s, facts), headers)
          then mid.log == s.log + [Deferred(next.interval)] && next.headerDeferred
          else mid.log == s.log + [Polled(Candidates(C, s, facts))] && next.interval == s.interval
               && next.headerDeferred == (s.headerDeferred && Candidates(C, s, facts) == {}))
  {
    hide Candidates, NextSkips, NextCounts, HeaderBackoff, BudgetPacedInterval;
  }

  lemma HeldPassed(s: State, f: Facts, skips: nat, count: nat)
    requires Ready(s, skips, count) && (f == FRESH || f == STALE)
    requires (f == FRESH && skips < 5) || (f == STALE && count % 4 != 0)
    ensures !Candidate(TrackOf(s, HELD), f, Window(s), true)
    ensures var t := AfterCycle(TrackOf(s, HELD), f, Window(s), true);
      SkipsOf(t, FRESH) == (if f == FRESH then skips + 1 else 0) && CountOf(t, FRESH) == if f == FRESH then count else count + 1
  {
  }

  /** A cycle of the one device that passes it over. */
  lemma PassOver(events: seq<Event>, f: Facts, skips: nat, count: nat) returns (more: seq<Event>)
    requires Ready(Run(C, events), skips, count) && !Run(C, events).rateLimited
    requires (f == FRESH && skips < 5) || (f == STALE && count % 4 != 0)
    ensures Ready(Run(C, more), if f == FRESH then skips + 1 else 0, if f == FRESH then count else count + 1)
    ensures !Run(C, more).rateLimited
    ensures Missed(C, more, HELD) == Missed(C, events, HELD) + 1
  {
    var s, facts := Run(C, events), map[HELD := f];
    var start, finish := StartCycle(facts, true, None), FinishCycle(0, None, 0);
    OverAlone(f);
    HeldPassed(s, f, skips, count);
    assert HELD !in Candidates(C, s, facts);
    QuietCycle(s, facts, None);
    NoHeaders(s, Candidates(C, s, facts));
    var started := After(events, start);
    StepTrack(C, s, start, HELD);
    more := After(started, finish);
    StepTrack(C, Run(C, started), finish, HELD);
    hide Candidates, Candidate, AfterCycle, Defers, Step, NextSkips, NextCounts, SkipsOf, CountOf, Over, FRESH, STALE;
    assert Misses(C, s, start, HELD);
    assert !Starts(Run(C, started), finish);
  }

  lemma NoHeaders(s: State, candidates: set<DeviceId>)
    ensures !Defers(C, s, candidates, None)
  {
  }

  lemma {:induction false} PassOverFresh(events: seq<Event>, count: nat, n: nat) returns (more: seq<Event>)
    requires Ready(Run(C, events), 0, count) && !Run(C, events).rateLimited && n <= 5
    ensures Ready(Run(C, more), n, count) && !Run(C, more).rateLimited
    ensures Missed(C, more, HELD) == Missed(C, events, HELD) + n
  {
    hide Run, Ready, Missed;
    if n == 0 {
      more := events;
    } else {
      more := PassOverFresh(events, count, n - 1);
      more := PassOver(more, FRESH, n - 1, count);
    }
  }

  /** Twenty-three cycles in a row can pass a device over: five covered by local readings around each of three
      idle ones. */
  lemma TwentyThreeIsReached() returns (events: seq<Event>)
    ensures Missed(C, events, HELD) == 23
  {
    Beginning();
    hide Run, Missed, Ready;
    events := PassOverFresh([], 1, 5);
    events := PassOver(events, STALE, 5, 1);
    events := PassOverFresh(events, 2, 5);
    events := PassOver(events, STALE, 5, 2);
    events := PassOverFresh(events, 3, 5);
    events := PassOver(events, STALE, 5, 3);
    events := PassOverFresh(events, 4, 5);
  }

  lemma Beginning()
    ensures Ready(Run(C, []), 0, 1) && !Run(C, []).rateLimited && Missed(C, [], HELD) == 0
  {
  }

  // ---------- deferrals starve an idle device ----------

  const ON := Facts(0, true, None, None, false, None, None)
  const BOTH := map[HELD := Quiet(0, None), BUSY := ON]
  const SPENT := Some(Headers(0, 60))

  /** Before a cycle: HELD's idle counter, and whether the last consulted cycle deferred. */
  predicate At(s: State, count: nat, deferred: bool) {
    && s.phase.Between? && !s.rateLimited && s.headerDeferred == deferred
    && CountOf(TrackOf(s, HELD), Quiet(0, None)) == count
    && (forall entry <- s.log :: entry.Polled? ==> HELD !in entry.handed)
  }

  lemma OverBoth()
    ensures Over(C, BOTH)
  {
    assert BOTH.Keys == {HELD, BUSY};
    assert |BOTH| == |BOTH.Keys| == 2;
  }

  /** Both devices enabled, the headers reporting nothing left: a cycle either defers or does not hand HELD over. */
  lemma StarvingCycle(events: seq<Event>, count: nat, deferred: bool) returns (more: seq<Event>)
    requires At(Run(C, events), count, deferred)
    requires deferred ==> count % 4 != 0
    ensures At(Run(C, more), count + 1, !deferred)
    ensures Cycles(C, more, HELD) == Cycles(C, events, HELD) + 1
  {
    hide Step, Candidates, Candidate, AfterCycle, Over, SkipsOf, CountOf, Defers, NextSkips, NextCounts, TrackOf;
    var s := Run(C, events);
    var start, finish := StartCycle(BOTH, true, SPENT), FinishCycle(0, None, 0);
    StarvingStart(s, count);
    QuietCycle(s, BOTH, SPENT);
    var started := After(events, start);
    StepTrack(C, s, start, HELD);
    more := After(started, finish);
    StepTrack(C, Run(C, started), finish, HELD);
    assert Starts(s, start) && !Starts(Run(C, started), finish);
  }

  lemma StarvingStart(s: State, count: nat)
    requires s.phase.Between? && !s.rateLimited && CountOf(TrackOf(s, HELD), Quiet(0, None)) == count
    ensures var candidates := Candidates(C, s, BOTH);
      && candidates != {} && (HELD in candidates <==> count % 4 == 0)
      && (Defers(C, s, candidates, SPENT) <==> !s.headerDeferred)
    ensures Over(C, BOTH)
    ensures CountOf(AfterCycle(TrackOf(s, HELD), Quiet(0, None), Window(s), true), Quiet(0, None)) == count + 1
  {
    OverBoth();
    var candidates := Candidates(C, s, BOTH);
    assert BUSY in candidates;
    assert |candidates| > 0;
    hide Over;
  }

  /** Poll cycles in which a device was enabled. */
  function Cycles(c: Config, events: seq<Event>, d: DeviceId): nat {
    if events == [] then 0
    else
      var prefix, e := events[..|events| - 1], events[|events| - 1];
      Cycles(c, prefix, d) + if Starts(Run(c, prefix), e) && d in e.facts then 1 else 0
  }

  lemma {:induction false} Starving(n: nat) returns (events: seq<Event>)
    ensures At(Run(C, events), 4 * n, false) && Cycles(C, events, HELD) == 4 * n
  {
    hide Run, At, Cycles;
    if n == 0 {
      events := [];
      StarvingBeginning();
    } else {
      events := Starving(n - 1);
      events := StarvingCycle(events, 4 * n - 4, false);
      events := StarvingCycle(events, 4 * n - 3, true);
      events := StarvingCycle(events, 4 * n - 2, false);
      events := StarvingCycle(events, 4 * n - 1, true);
    }
  }

  lemma StarvingBeginning()
    ensures At(Run(C, []), 0, false) && Cycles(C, [], HELD) == 0
  {
  }

  /** For any number of cycles there is a run of that many and more in which an enabled device is never
      handed to the fetch: every cycle its idle counter falls due is one the headers defer. */
  lemma DeferralsCanStarve(n: nat) returns (events: seq<Event>)
    ensures Cycles(C, events, HELD) >= n
    ensures forall entry <- Run(C, events).log :: entry.Polled? ==> HELD !in entry.handed
  {
    events := Starving(n);
  }
}
