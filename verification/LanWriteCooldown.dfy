/** What write suppression buys over whole runs: a quiet cooldown and a bounded rate of futile sends. */
module LanWriteCooldown {
  import opened LanWrites
  import T = LanTier

  type DeviceId = T.DeviceId

  function SendTimes(log: seq<Entry>, d: DeviceId): seq<real> {
    if log == [] then []
    else
      var rest, last := SendTimes(log[..|log| - 1], d), log[|log| - 1];
      if last.Sent? && last.device == d then rest + [last.at] else rest
  }

  lemma SendTimesOne(log: seq<Entry>, entry: Entry, d: DeviceId)
    ensures SendTimes(log + [entry], d) == SendTimes(log, d) + if entry.Sent? && entry.device == d then [entry.at] else []
  {
    assert (log + [entry])[..|log|] == log;
  }

  /** The time at which a step sends to d, if it does. */
  function NewSends(s: State, e: Event, d: DeviceId): seq<real> {
    if e.Try? && e.attempt.device == d && Sends(s, e.attempt) && e.attempt.sendOk then [s.clock] else []
  }

  lemma StepSends(s: State, e: Event, d: DeviceId)
    ensures SendTimes(Step(s, e).log, d) == SendTimes(s.log, d) + NewSends(s, e, d)
  {
    StepLog(s, e);
    hide Step, Sends, SendTimes;
    var added := Added(s, e);
    assert s.log + [] == s.log;
    if |added| == 1 { SendTimesOne(s.log, added[0], d); assert added == [added[0]]; }
    if |added| == 2 {
      SendTimesOne(s.log, added[0], d);
      SendTimesOne(s.log + [added[0]], added[1], d);
      assert s.log + added == s.log + [added[0]] + [added[1]];
    }
    if |added| == 3 {
      SendTimesOne(s.log, added[0], d);
      SendTimesOne(s.log + [added[0]], added[1], d);
      SendTimesOne(s.log + [added[0]] + [added[1]], added[2], d);
      assert s.log + added == s.log + [added[0]] + [added[1]] + [added[2]];
    }
  }

  // ---------- the deadline over runs ----------

  predicate DeadlineOk(s: State, d: DeviceId) {
    && T.DeadlineIffStreak(s.tier, d)
    && (d in s.tier.suppressedUntil ==> s.tier.suppressedUntil[d] <= s.clock + T.WRITE_SUPPRESS_SECONDS)
  }

  /** An event that ends d's cooldown early: a confirmed write, or d leaving the map. */
  predicate Clears(s: State, e: Event, d: DeviceId) {
    || (e.ReadBack? && e.reply.Match? && InPhase(s, e.task) && s.tasks[e.task].phase.Reading? && s.tasks[e.task].device == d)
    || (e.Map? && d in s.tier.devices && d !in Step(s, e).tier.devices)
  }

  /** The part of a map change that matters here: it leaves d's counters alone or takes d off the map. */
  lemma MapStep(tier: T.State, e: T.Event, d: DeviceId)
    requires e.Merge? || e.Refresh?
    ensures d !in tier.devices || d in T.Step(tier, e).devices ==>
      && T.WriteMisses(T.Step(tier, e), d) == T.WriteMisses(tier, d)
      && (d in T.Step(tier, e).suppressedUntil <==> d in tier.suppressedUntil)
      && (d in tier.suppressedUntil ==> T.Step(tier, e).suppressedUntil[d] == tier.suppressedUntil[d])
    ensures T.WriteMisses(T.Step(tier, e), d) in {0, T.WriteMisses(tier, d)}
    ensures d in T.Step(tier, e).suppressedUntil ==>
      d in tier.suppressedUntil && T.Step(tier, e).suppressedUntil[d] == tier.suppressedUntil[d]
  {
    hide T.PollOf, T.NewMisses;
    if e.Refresh? { T.RefreshOnlyRemoves(tier, e.polled, e.answered, d); }
  }

  lemma MapKeepsDeadlineOk(s: State, e: T.Event, d: DeviceId)
    requires DeadlineOk(s, d) && (e.Merge? || e.Refresh?)
    ensures DeadlineOk(s.(tier := T.Step(s.tier, e)), d)
  {
    T.DeadlineStep(s.tier, e, d);
    MapStep(s.tier, e, d);
    hide T.Step;
  }

  lemma TryKeepsDeadlineOk(s: State, a: Attempt, d: DeviceId)
    requires DeadlineOk(s, d)
    ensures DeadlineOk(DoTry(s, a), d)
  {
    hide Sends, Reaches, SetPhase;
  }

  lemma ReadBackKeepsDeadlineOk(s: State, id: nat, reply: Reply, d: DeviceId)
    requires DeadlineOk(s, d) && id < |s.tasks|
    ensures DeadlineOk(DoReadBack(s, id, reply), d)
  {
    hide CountsAsMiss;
  }

  lemma StepKeepsDeadlineOk(s: State, e: Event, d: DeviceId)
    requires DeadlineOk(s, d)
    ensures DeadlineOk(Step(s, e), d)
  {
    hide T.Step, Settle, DoTry, DoReadBack, T.WriteMisses;
    match e
    case Try(a) => TryKeepsDeadlineOk(s, a, d);
    case ReadBack(id, reply) => if InPhase(s, id) && s.tasks[id].phase.Reading? { ReadBackKeepsDeadlineOk(s, id, reply, d); }
    case Map(change) => if change.Merge? || change.Refresh? { MapKeepsDeadlineOk(s, change, d); }
    case _ =>
  }

  lemma {:induction false} DeadlinesOk(writeOnly: set<DeviceId>, events: seq<Event>, d: DeviceId)
    ensures DeadlineOk(Run(writeOnly, events), d)
  {
    hide Step;
    if events != [] {
      DeadlinesOk(writeOnly, events[..|events| - 1], d);
      StepKeepsDeadlineOk(Run(writeOnly, events[..|events| - 1]), events[|events| - 1], d);
    }
  }

  /** d is suppressed until some later moment at least. */
  predicate Cooling(s: State, d: DeviceId, until: real) {
    d in s.tier.suppressedUntil && s.tier.suppressedUntil[d] >= until && until <= s.clock + T.WRITE_SUPPRESS_SECONDS
  }

  lemma CoolingStep(s: State, e: Event, d: DeviceId, until: real)
    requires DeadlineOk(s, d) && Cooling(s, d, until) && s.clock < until && !Clears(s, e, d)
    ensures Cooling(Step(s, e), d, until)
    ensures NewSends(s, e, d) == []
  {
    if e.Map? && (e.change.Merge? || e.change.Refresh?) { MapStep(s.tier, e.change, d); }
    hide T.Step;
  }

  predicate NeverClears(writeOnly: set<DeviceId>, events: seq<Event>, more: seq<Event>, d: DeviceId) {
    more != [] ==>
      && NeverClears(writeOnly, events, more[..|more| - 1], d)
      && !Clears(Run(writeOnly, events + more[..|more| - 1]), more[|more| - 1], d)
  }

  /** Over every run: from the miss that sets a deadline, as long as no write of the device confirms and it
      stays on the map, not one datagram is sent to it before that deadline, whatever is attempted. */
  lemma {:induction false} NoSendBeforeDeadline(writeOnly: set<DeviceId>, events: seq<Event>, more: seq<Event>, d: DeviceId)
    requires d in Run(writeOnly, events).tier.suppressedUntil
    requires NeverClears(writeOnly, events, more, d)
    requires Run(writeOnly, events + more).clock < Run(writeOnly, events).tier.suppressedUntil[d]
    ensures SendTimes(Run(writeOnly, events + more).log, d) == SendTimes(Run(writeOnly, events).log, d)
    ensures Cooling(Run(writeOnly, events + more), d, Run(writeOnly, events).tier.suppressedUntil[d])
  {
    hide SendTimes;
    var until := Run(writeOnly, events).tier.suppressedUntil[d];
    DeadlinesOk(writeOnly, events, d);
    if more == [] {
      assert events + more == events;
    } else {
      var prefix, last := events + more[..|more| - 1], more[|more| - 1];
      assert (events + more)[..|events + more| - 1] == prefix;
      ClockMoves(Run(writeOnly, prefix), last);
      hide Step;
      NoSendBeforeDeadline(writeOnly, events, more[..|more| - 1], d);
      DeadlinesOk(writeOnly, prefix, d);
      CoolingStep(Run(writeOnly, prefix), last, d, until);
      StepSends(Run(writeOnly, prefix), last, d);
    }
  }

  lemma ClockMoves(s: State, e: Event)
    ensures s.clock <= Step(s, e).clock
    ensures Step(s, e).writeOnly == s.writeOnly
  {
  }

  // ---------- writes that never confirm ----------

  predicate LiveTask(s: State, d: DeviceId, id: nat) {
    InPhase(s, id) && s.tasks[id].device == d
  }

  ghost predicate Live(s: State, d: DeviceId) {
    exists id :: LiveTask(s, d, id)
  }

  /** The device's writes go one at a time, none of them confirms, and it stays on the map. */
  ghost predicate Futile(s: State, e: Event, d: DeviceId) {
    && d !in s.writeOnly
    && (NewSends(s, e, d) != [] ==> !Live(s, d))
    && (e.ReadBack? && LiveTask(s, d, e.task) ==> e.reply.NoReply? || e.reply.Mismatch?)
    && (e.Abort? ==> !LiveTask(s, d, e.task))
    && (e.StartConfirm? && !e.clientUp ==> !LiveTask(s, d, e.task))
    && (e.Map? && d in s.tier.devices ==> d in Step(s, e).tier.devices)
  }

  ghost predicate AllFutile(writeOnly: set<DeviceId>, events: seq<Event>, d: DeviceId) {
    events != [] ==>
      && AllFutile(writeOnly, events[..|events| - 1], d)
      && Futile(Run(writeOnly, events[..|events| - 1]), events[|events| - 1], d)
  }

  /** Any four sends in a row span a whole cooldown. */
  predicate Spaced(times: seq<real>) {
    && (forall i, j | 0 <= i <= j < |times| :: times[i] <= times[j])
    && (forall i {:trigger times[i]} | 3 <= i < |times| :: times[i] >= times[i - 3] + T.WRITE_SUPPRESS_SECONDS)
  }

  /** What the sends to d so far, its miss streak and its deadline keep in step: with k sends since the
      streak last started over, the send before those lies a whole cooldown before the first of them. */
  predicate Pace(times: seq<real>, misses: nat, live: bool, deadline: T.Option<real>, clock: real) {
    var n, k := |times|, misses + if live then 1 else 0;
    && Spaced(times)
    && k <= 3 && k <= n
    && (n > 0 ==> times[n - 1] <= clock)
    && (k < n ==> (if k == 0 then clock else times[n - k]) >= times[n - k - 1] + T.WRITE_SUPPRESS_SECONDS)
    && (misses == 3 <==> deadline.Some?)
    && (misses == 3 ==> deadline.value >= times[n - 1] + T.WRITE_SUPPRESS_SECONDS)
  }

  function Deadline(tier: T.State, d: DeviceId): T.Option<real> {
    if d in tier.suppressedUntil then T.Some(tier.suppressedUntil[d]) else T.None
  }

  ghost predicate AtPace(s: State, d: DeviceId) {
    && Pace(SendTimes(s.log, d), T.WriteMisses(s.tier, d), Live(s, d), Deadline(s.tier, d), s.clock)
    && OneLive(s, d)
  }

  lemma PaceSend(times: seq<real>, misses: nat, clock: real)
    requires misses < 3 && Pace(times, misses, false, T.None, clock)
    ensures Pace(times + [clock], misses, true, T.None, clock)
  {
    var next, n := times + [clock], |times|;
    assert forall i | 0 <= i < n :: next[i] == times[i];
    if n >= 3 {
      assert times[n - misses - 1] >= times[n - 3];
      assert next[n] >= times[n - misses - 1] + T.WRITE_SUPPRESS_SECONDS;
    }
  }

  lemma PaceMiss(times: seq<real>, misses: nat, deadline: T.Option<real>, clock: real)
    requires Pace(times, misses, true, deadline, clock)
    ensures misses < 3
    ensures Pace(times, misses + 1, false,
                 if misses + 1 >= 3 then T.Some(clock + T.WRITE_SUPPRESS_SECONDS) else deadline, clock)
  {
  }

  lemma PaceExpiry(times: seq<real>, misses: nat, live: bool, deadline: T.Option<real>, clock: real)
    requires Pace(times, misses, live, deadline, clock) && deadline.Some? && deadline.value <= clock
    ensures !live && Pace(times, 0, false, T.None, clock)
  {
  }

  lemma PaceWait(times: seq<real>, misses: nat, live: bool, deadline: T.Option<real>, clock: real, later: real)
    requires Pace(times, misses, live, deadline, clock) && clock <= later
    ensures Pace(times, misses, live, deadline, later)
  {
  }

  /** A step that touches none of d's sends, tasks and counters. */
  ghost predicate Aside(s: State, next: State, d: DeviceId) {
    && SendTimes(next.log, d) == SendTimes(s.log, d)
    && T.WriteMisses(next.tier, d) == T.WriteMisses(s.tier, d)
    && Deadline(next.tier, d) == Deadline(s.tier, d)
    && (forall id :: LiveTask(next, d, id) <==> LiveTask(s, d, id))
    && s.clock <= next.clock
  }

  lemma AsidePace(s: State, next: State, d: DeviceId)
    requires AtPace(s, d) && Aside(s, next, d)
    ensures AtPace(next, d)
  {
    PaceWait(SendTimes(s.log, d), T.WriteMisses(s.tier, d), Live(s, d), Deadline(s.tier, d), s.clock, next.clock);
    hide Pace, SendTimes, LiveTask;
    assert Live(s, d) == Live(next, d);
  }

  /** The gate's look at the deadline. */
  lemma CheckPace(s: State, a: Attempt, d: DeviceId)
    requires AtPace(s, d)
    ensures AtPace(s.(tier := T.DoCheck(s.tier, a.device, s.clock)), d)
    ensures a.device == d && !T.Suppressed(s.tier, d, s.clock) ==>
      T.WriteMisses(T.DoCheck(s.tier, d, s.clock), d) < 3 && Deadline(T.DoCheck(s.tier, d, s.clock), d).None?
  {
    var next := s.(tier := T.DoCheck(s.tier, a.device, s.clock));
    if a.device == d && d in s.tier.suppressedUntil && s.clock >= s.tier.suppressedUntil[d] {
      PaceExpiry(SendTimes(s.log, d), T.WriteMisses(s.tier, d), Live(s, d), Deadline(s.tier, d), s.clock);
      hide Pace, SendTimes, LiveTask;
      SameTasks(s, next, d);
    } else {
      SameTasks(s, next, d);
      AsidePace(s, next, d);
    }
  }

  lemma SameTasks(s: State, next: State, d: DeviceId)
    requires next.tasks == s.tasks
    ensures forall id :: LiveTask(next, d, id) <==> LiveTask(s, d, id)
    ensures Live(next, d) == Live(s, d)
  {
    forall id ensures LiveTask(next, d, id) <==> LiveTask(s, d, id) {
    }
  }

  ghost predicate OneLive(s: State, d: DeviceId) {
    forall i, j | LiveTask(s, d, i) && LiveTask(s, d, j) :: i == j
  }

  lemma LiveAfterSend(s: State, a: Attempt, d: DeviceId)
    requires NewSends(s, Try(a), d) != [] && d !in s.writeOnly && !Live(s, d)
    ensures Live(DoTry(s, a), d) && OneLive(DoTry(s, a), d)
  {
    assert Reaches(s, a);
    hide Sends, T.DoCheck;
    var next := DoTry(s, a);
    assert LiveTask(next, d, |s.tasks|);
    assert forall id: nat | id < |s.tasks| :: LiveTask(next, d, id) ==> LiveTask(s, d, id);
  }

  lemma LiveAfterOtherTry(s: State, a: Attempt, d: DeviceId)
    requires NewSends(s, Try(a), d) == []
    ensures forall id :: LiveTask(DoTry(s, a), d, id) <==> LiveTask(s, d, id)
  {
    hide Sends, T.DoCheck;
    forall id ensures LiveTask(DoTry(s, a), d, id) <==> LiveTask(s, d, id) {
    }
  }

  lemma LiveAfterReadBack(s: State, id: nat, reply: Reply, d: DeviceId)
    requires InPhase(s, id) && OneLive(s, d)
    ensures LiveTask(s, d, id) ==> !Live(DoReadBack(s, id, reply), d)
    ensures !LiveTask(s, d, id) ==> forall other :: LiveTask(DoReadBack(s, id, reply), d, other) <==> LiveTask(s, d, other)
    ensures OneLive(DoReadBack(s, id, reply), d)
  {
    hide CountMiss, T.ClearMisses;
    var next := DoReadBack(s, id, reply);
    forall other ensures LiveTask(next, d, other) <==> LiveTask(s, d, other) && other != id {
    }
  }

  lemma TryPace(s: State, a: Attempt, d: DeviceId)
    requires AtPace(s, d) && Futile(s, Try(a), d)
    ensures AtPace(DoTry(s, a), d)
  {
    var next := DoTry(s, a);
    StepSends(s, Try(a), d);
    if Reaches(s, a) {
      CheckPace(s, a, d);
      var checked := s.(tier := T.DoCheck(s.tier, a.device, s.clock));
      SameTasks(s, checked, d);
      if NewSends(s, Try(a), d) != [] {
        LiveAfterSend(s, a, d);
        SentPace(s, a, d);
      } else {
        LiveAfterOtherTry(s, a, d);
        UnsentTier(s, a, d);
        hide Pace, SendTimes, LiveTask, DoTry, T.DoCheck, Sends;
        AsidePace(checked, next, d);
      }
    }
  }

  lemma UnsentTier(s: State, a: Attempt, d: DeviceId)
    requires Reaches(s, a)
    ensures DoTry(s, a).tier == T.DoCheck(s.tier, a.device, s.clock) && DoTry(s, a).clock == s.clock
  {
    hide Sends, T.DoCheck;
  }

  lemma SentPace(s: State, a: Attempt, d: DeviceId)
    requires var checked := s.(tier := T.DoCheck(s.tier, a.device, s.clock));
      AtPace(checked, d) && Live(checked, d) == Live(s, d)
    requires NewSends(s, Try(a), d) != [] && !Live(s, d)
    requires T.WriteMisses(T.DoCheck(s.tier, d, s.clock), d) < 3 && Deadline(T.DoCheck(s.tier, d, s.clock), d).None?
    requires Live(DoTry(s, a), d) && OneLive(DoTry(s, a), d)
    ensures AtPace(DoTry(s, a), d)
  {
    StepSends(s, Try(a), d);
    UnsentTier(s, a, d);
    hide SendTimes, LiveTask, DoTry, T.DoCheck, Live;
    PaceSend(SendTimes(s.log, d), T.WriteMisses(T.DoCheck(s.tier, d, s.clock), d), s.clock);
    hide Pace;
  }

  lemma ReadBackTier(s: State, id: nat, reply: Reply, d: DeviceId)
    requires InPhase(s, id) && s.tasks[id].phase.Reading? && TaskOk(s, id) && (reply.NoReply? || reply.Mismatch?)
    ensures DoReadBack(s, id, reply).tier == T.NoteMiss(s.tier, s.tasks[id].device, s.clock)
    ensures DoReadBack(s, id, reply).clock == s.clock
  {
    hide T.NoteMiss;
  }

  lemma ReadBackPace(s: State, id: nat, reply: Reply, d: DeviceId)
    requires AtPace(s, d) && Futile(s, ReadBack(id, reply), d)
    requires InPhase(s, id) && s.tasks[id].phase.Reading? && TaskOk(s, id)
    ensures AtPace(DoReadBack(s, id, reply), d)
  {
    StepSends(s, ReadBack(id, reply), d);
    LiveAfterReadBack(s, id, reply, d);
    if s.tasks[id].device == d {
      assert LiveTask(s, d, id);
      ReadBackTier(s, id, reply, d);
      PaceMiss(SendTimes(s.log, d), T.WriteMisses(s.tier, d), Deadline(s.tier, d), s.clock);
      hide Pace, SendTimes, LiveTask, Live, DoReadBack;
    } else {
      ReadBackAside(s, id, reply, d);
      hide SendTimes, Pace, LiveTask, DoReadBack;
      AsidePace(s, DoReadBack(s, id, reply), d);
    }
  }

  lemma ReadBackAside(s: State, id: nat, reply: Reply, d: DeviceId)
    requires InPhase(s, id) && s.tasks[id].phase.Reading? && s.tasks[id].device != d
    requires forall other :: LiveTask(DoReadBack(s, id, reply), d, other) <==> LiveTask(s, d, other)
    ensures Aside(s, DoReadBack(s, id, reply), d)
  {
    StepSends(s, ReadBack(id, reply), d);
    hide SendTimes, LiveTask;
  }

  lemma SettlePace(s: State, e: Event, d: DeviceId)
    requires AtPace(s, d) && Futile(s, e, d) && (e.Wait? || e.StartConfirm? || e.Wake? || e.Abort?)
    ensures AtPace(Step(s, e), d)
  {
    var next := Step(s, e);
    StepSends(s, e, d);
    hide SendTimes, Pace, Sends, Settle;
    assert next.tier == s.tier;
    forall id ensures LiveTask(next, d, id) <==> LiveTask(s, d, id) {
    }
    hide LiveTask, Step, AtPace;
    AsidePace(s, next, d);
  }

  lemma MapPace(s: State, e: Event, d: DeviceId)
    requires AtPace(s, d) && Futile(s, e, d) && e.Map?
    ensures AtPace(Step(s, e), d)
  {
    hide T.Step, SendTimes, Pace, LiveTask;
    var next := Step(s, e);
    StepSends(s, e, d);
    SameTasks(s, next, d);
    if e.change.Merge? || e.change.Refresh? { MapStep(s.tier, e.change, d); }
    hide AtPace;
    AsidePace(s, next, d);
  }

  lemma OtherPace(s: State, e: Event, d: DeviceId)
    requires AtPace(s, d) && Futile(s, e, d) && !e.Try? && !e.ReadBack?
    ensures AtPace(Step(s, e), d)
  {
    hide AtPace, Futile, Step;
    if e.Map? { MapPace(s, e, d); } else { SettlePace(s, e, d); }
  }

  /** Over every run in which a device's writes go one at a time and none confirms, while it stays on the
      map: any four datagrams in a row to it span at least 300 seconds. */
  lemma {:induction false} FourSendsSpanACooldown(writeOnly: set<DeviceId>, events: seq<Event>, d: DeviceId)
    requires AllFutile(writeOnly, events, d)
    ensures AtPace(Run(writeOnly, events), d)
    ensures Spaced(SendTimes(Run(writeOnly, events).log, d))
  {
    if events == [] {
      assert forall id :: !LiveTask(Run(writeOnly, []), d, id);
    } else {
      hide Step, AtPace;
      var prefix, last := events[..|events| - 1], events[|events| - 1];
      FourSendsSpanACooldown(writeOnly, prefix, d);
      if last.ReadBack? && last.task < |Run(writeOnly, prefix).tasks| { TasksOk(writeOnly, prefix, last.task); }
      PaceStep(Run(writeOnly, prefix), last, d);
      PaceIsSpaced(Run(writeOnly, events), d);
    }
  }

  lemma PaceIsSpaced(s: State, d: DeviceId)
    requires AtPace(s, d)
    ensures Spaced(SendTimes(s.log, d))
  {
  }

  lemma PaceStep(s: State, e: Event, d: DeviceId)
    requires AtPace(s, d) && Futile(s, e, d)
    requires e.ReadBack? && e.task < |s.tasks| ==> TaskOk(s, e.task)
    ensures AtPace(Step(s, e), d)
  {
    hide AtPace, DoTry, DoReadBack, Futile;
    match e
    case Try(a) => TryPace(s, a, d);
    case ReadBack(id, reply) => if InPhase(s, id) && s.tasks[id].phase.Reading? { ReadBackPace(s, id, reply, d); }
    case _ => OtherPace(s, e, d);
  }
}
