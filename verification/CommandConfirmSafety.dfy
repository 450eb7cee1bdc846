/** Conservation and resend safety of the confirm-and-resend machine, for every run. */
module CommandConfirmSafety {
  import opened ConfirmValues
  import opened CommandConfirm

  // ---------- accounting ----------

  function Hit(task: Task, device: DeviceId, outcome: Outcome): nat {
    if task.key.0 == device && task.outcome == outcome then 1 else 0
  }

  /** How many tasks of a device have this outcome. */
  function Tally(tasks: seq<Task>, device: DeviceId, outcome: Outcome): nat {
    if tasks == [] then 0
    else Tally(tasks[..|tasks| - 1], device, outcome) + Hit(tasks[|tasks| - 1], device, outcome)
  }

  lemma {:induction false} TallyUpdate(tasks: seq<Task>, t: nat, x: Task, device: DeviceId, outcome: Outcome)
    requires t < |tasks|
    ensures Tally(tasks[t := x], device, outcome) + Hit(tasks[t], device, outcome)
         == Tally(tasks, device, outcome) + Hit(x, device, outcome)
  {
    var n := |tasks| - 1;
    if t == n {
      assert tasks[t := x][..n] == tasks[..n];
    } else {
      TallyUpdate(tasks[..n], t, x, device, outcome);
      assert tasks[t := x][..n] == tasks[..n][t := x];
    }
  }

  lemma {:induction false} TallySame(a: seq<Task>, b: seq<Task>, device: DeviceId, outcome: Outcome)
    requires |a| == |b|
    requires forall t | 0 <= t < |a| :: Hit(a[t], device, outcome) == Hit(b[t], device, outcome)
    ensures Tally(a, device, outcome) == Tally(b, device, outcome)
  {
    if a != [] {
      var n := |a| - 1;
      TallySame(a[..n], b[..n], device, outcome);
    }
  }

  ghost predicate KeyBooked(s: State, k: Key)
    requires WellFormed(s)
  {
    k in s.table ==> s.tasks[s.table[k]].outcome.Open?
  }

  ghost predicate TaskBooked(s: State, t: nat)
    requires WellFormed(s)
  {
    t < |s.tasks| ==>
      && (Live(s.tasks[t].phase) ==> s.tasks[t].outcome.Open?)
      && (s.tasks[t].phase.Finished? && s.tasks[t].outcome.Open? ==> InTable(s, t))
      && (s.tasks[t].outcome.Counted? && !s.tasks[t].outcome.counter.Superseded? ==> s.tasks[t].phase.Finished?)
  }

  /** Each task is in one bucket: under a counter, still open, or dropped. */
  ghost predicate Booked(s: State) {
    WellFormed(s) && (forall k :: KeyBooked(s, k)) && (forall t: nat :: TaskBooked(s, t))
  }

  /** Counter c of a device says how many of its tasks ended that way. */
  ghost predicate Truthful(s: State, device: DeviceId, c: Counter) {
    CountOf(s, device, c) == Tally(s.tasks, device, Counted(c))
  }

  // Every operation keeps the buckets ...

  lemma SetTaskBooked(s: State, t: nat, phase: Phase)
    requires Booked(s) && t < |s.tasks| && s.tasks[t].outcome.Open? && !phase.Finished?
    ensures Booked(SetTask(s, t, phase, Open))
  {
    var s' := SetTask(s, t, phase, Open);
    forall k ensures KeyBooked(s', k) { assert KeyBooked(s, k); }
    forall u: nat ensures TaskBooked(s', u) { assert TaskBooked(s, u); }
  }

  lemma CancelKeyBooked(s: State, key: Key, count: bool)
    requires Booked(s)
    ensures Booked(CancelKey(s, key, count))
  {
    var s' := CancelKey(s, key, count);
    assert KeyBooked(s, key);
    forall k ensures KeyBooked(s', k) { assert KeyBooked(s, k); }
    forall u: nat ensures TaskBooked(s', u) { assert TaskBooked(s, u); }
  }

  lemma ReleaseBooked(s: State, t: nat)
    requires WellFormed(s) && t < |s.tasks|
    requires s.tasks[t].phase.Finished? && !s.tasks[t].outcome.Open?
    requires forall k :: (k in s.table ==> s.table[k] != t) ==> KeyBooked(s, k)
    requires forall u: nat :: TaskBooked(s, u)
    ensures Booked(Release(s, t))
  {
    var s' := Release(s, t);
    forall k ensures KeyBooked(s', k) { if k in s.table && s.table[k] != t { assert KeyBooked(s, k); } }
    forall u: nat ensures TaskBooked(s', u) { assert TaskBooked(s, u); }
  }

  lemma FinishBooked(s: State, t: nat, outcome: Outcome)
    requires Booked(s) && t < |s.tasks| && s.tasks[t].outcome.Open? && !outcome.Open?
    ensures Booked(Finish(s, t, outcome))
  {
    var s1 := SetTask(s, t, Finished, outcome);
    var s2 := if outcome.Counted? then Count(s1, s.tasks[t].key.0, outcome.counter) else s1;
    forall k | k in s.table ==> s.table[k] != t ensures KeyBooked(s2, k) { assert KeyBooked(s, k); }
    forall u: nat ensures TaskBooked(s2, u) { assert TaskBooked(s, u); }
    ReleaseBooked(s2, t);
  }

  lemma UnwindBooked(s: State, t: nat)
    requires Booked(s) && At(s, t, Unwinding)
    ensures Booked(DoUnwind(s, t))
  {
    var outcome := if s.tasks[t].outcome.Open? then Dropped else s.tasks[t].outcome;
    var s1 := SetTask(s, t, Finished, outcome);
    assert TaskBooked(s, t);
    forall k | k in s.table ==> s.table[k] != t ensures KeyBooked(s1, k) { assert KeyBooked(s, k); }
    forall u: nat ensures TaskBooked(s1, u) { assert TaskBooked(s, u); }
    ReleaseBooked(s1, t);
  }

  lemma DropAllBooked(s: State)
    requires Booked(s)
    ensures Booked(DropAll(s))
  {
    var s' := DropAll(s);
    forall u: nat ensures TaskBooked(s', u) { assert TaskBooked(s, u); }
  }

  lemma StartBooked(s: State, p: nat)
    requires Booked(s) && p < |s.confirms|
    ensures Booked(DoStart(s, p))
  {
    var key := s.confirms[p].Key();
    CancelKeyBooked(s, key, true);
    var s1 := CancelKey(s, key, true);
    var s' := DoStart(s, p);
    forall k ensures KeyBooked(s', k) { assert KeyBooked(s1, k); }
    forall u: nat ensures TaskBooked(s', u) { assert TaskBooked(s1, u); }
  }

  lemma KillBooked(s: State, t: nat)
    requires Booked(s) && t < |s.tasks| && Live(s.tasks[t].phase)
    ensures Booked(DoKill(s, t))
  {
    var s' := DoKill(s, t);
    assert TaskBooked(s, t);
    forall k ensures KeyBooked(s', k) { assert KeyBooked(s, k); }
    forall u: nat ensures TaskBooked(s', u) { assert TaskBooked(s, u); }
  }

  // ... and the counters true.

  lemma CancelKeyTruthful(s: State, key: Key, count: bool, device: DeviceId, c: Counter)
    requires Booked(s) && Truthful(s, device, c)
    ensures Truthful(CancelKey(s, key, count), device, c)
  {
    if key in s.table {
      var t := s.table[key];
      assert KeyBooked(s, key);
      var x := s.tasks[t].(phase := CancelledPhase(s.tasks[t].phase),
                           outcome := if count then Counted(Superseded) else Dropped);
      TallyUpdate(s.tasks, t, x, device, Counted(c));
    }
  }

  lemma ReleaseTruthful(s: State, t: nat, device: DeviceId, c: Counter)
    requires WellFormed(s) && t < |s.tasks| && Truthful(s, device, c)
    ensures Truthful(Release(s, t), device, c)
  {
    var key := s.tasks[t].key;
    if key in s.table {
      var u := s.table[key];
      if s.tasks[u].phase.Finished? && s.tasks[u].outcome.Open? {
        TallyUpdate(s.tasks, u, s.tasks[u].(phase := Finished, outcome := Dropped), device, Counted(c));
      }
    }
  }

  lemma FinishTruthful(s: State, t: nat, outcome: Outcome, device: DeviceId, c: Counter)
    requires Truthful(s, device, c) && WellFormed(s)
    requires t < |s.tasks| && s.tasks[t].outcome.Open? && !outcome.Open?
    ensures Truthful(Finish(s, t, outcome), device, c)
  {
    var s1 := SetTask(s, t, Finished, outcome);
    var s2 := if outcome.Counted? then Count(s1, s.tasks[t].key.0, outcome.counter) else s1;
    TallyUpdate(s.tasks, t, s.tasks[t].(phase := Finished, outcome := outcome), device, Counted(c));
    ReleaseTruthful(s2, t, device, c);
  }

  lemma UnwindTruthful(s: State, t: nat, device: DeviceId, c: Counter)
    requires Truthful(s, device, c) && WellFormed(s) && At(s, t, Unwinding)
    ensures Truthful(DoUnwind(s, t), device, c)
  {
    var outcome := if s.tasks[t].outcome.Open? then Dropped else s.tasks[t].outcome;
    TallyUpdate(s.tasks, t, s.tasks[t].(phase := Finished, outcome := outcome), device, Counted(c));
    ReleaseTruthful(SetTask(s, t, Finished, outcome), t, device, c);
  }

  lemma DropAllTruthful(s: State, device: DeviceId, c: Counter)
    requires Booked(s) && Truthful(s, device, c)
    ensures Truthful(DropAll(s), device, c)
  {
    var s' := DropAll(s);
    forall t: nat | t < |s.tasks| ensures Hit(s.tasks[t], device, Counted(c)) == Hit(s'.tasks[t], device, Counted(c)) {
      assert KeyBooked(s, s.tasks[t].key);
    }
    TallySame(s.tasks, s'.tasks, device, Counted(c));
  }

  lemma StartTruthful(s: State, p: nat, device: DeviceId, c: Counter)
    requires Booked(s) && p < |s.confirms| && Truthful(s, device, c)
    ensures Truthful(DoStart(s, p), device, c)
  {
    var key := s.confirms[p].Key();
    CancelKeyTruthful(s, key, true, device, c);
    assert DoStart(s, p).tasks[..|s.tasks|] == CancelKey(s, key, true).tasks;
  }

  lemma SetOpenTruthful(s: State, t: nat, phase: Phase, outcome: Outcome, device: DeviceId, c: Counter)
    requires t < |s.tasks| && !s.tasks[t].outcome.Counted? && !outcome.Counted? && Truthful(s, device, c)
    ensures Truthful(SetTask(s, t, phase, outcome), device, c)
  {
    TallyUpdate(s.tasks, t, s.tasks[t].(phase := phase, outcome := outcome), device, Counted(c));
  }

  // The same for whole steps.

  ghost predicate Accounts(s: State, device: DeviceId, c: Counter) {
    Booked(s) && Truthful(s, device, c)
  }

  lemma FinishAccounts(s: State, t: nat, outcome: Outcome, device: DeviceId, c: Counter)
    requires Accounts(s, device, c) && t < |s.tasks| && Live(s.tasks[t].phase) && !outcome.Open?
    ensures Accounts(Finish(s, t, outcome), device, c)
  {
    assert TaskBooked(s, t);
    FinishBooked(s, t, outcome);
    FinishTruthful(s, t, outcome, device, c);
  }

  lemma SuspendAccounts(s: State, t: nat, phase: Phase, device: DeviceId, c: Counter)
    requires Accounts(s, device, c) && t < |s.tasks| && Live(s.tasks[t].phase) && !phase.Finished?
    ensures Accounts(SetTask(s, t, phase, s.tasks[t].outcome), device, c)
  {
    assert TaskBooked(s, t);
    SetTaskBooked(s, t, phase);
    SetOpenTruthful(s, t, phase, Open, device, c);
  }

  /** The books do not depend on the confirms' mutable fields or the log. */
  lemma BooksFrame(s: State, s': State, device: DeviceId, c: Counter)
    requires Accounts(s, device, c) && WellFormed(s')
    requires s'.table == s.table && s'.tasks == s.tasks && s'.counters == s.counters
    ensures Accounts(s', device, c)
  {
    forall k ensures KeyBooked(s', k) { assert KeyBooked(s, k); }
    forall t: nat ensures TaskBooked(s', t) { assert TaskBooked(s, t); }
  }

  lemma SettleAccounts(s: State, t: nat, budget: Answer, device: DeviceId, c: Counter)
    requires Accounts(s, device, c) && t < |s.tasks| && Live(s.tasks[t].phase)
    ensures Accounts(Settle(s, t, budget), device, c)
  {
    var p := s.confirms[s.tasks[t].confirm];
    if p.hasReport && !Matches(p.reported, p.wanted) && Matches(p.reported, p.previous) && budget.Yes? {
      SuspendAccounts(s, t, Resending, device, c);
      BooksFrame(SetTask(s, t, Resending, s.tasks[t].outcome), Settle(s, t, budget), device, c);
    } else {
      FinishAccounts(s, t, Counted(Unverified), device, c);
      FinishAccounts(s, t, Counted(Confirmed), device, c);
      FinishAccounts(s, t, Counted(SkippedBudget), device, c);
      FinishAccounts(s, t, Dropped, device, c);
    }
  }

  lemma AfterQueryAccounts(cfg: Config, s: State, t: nat, budget: Answer, device: DeviceId, c: Counter)
    requires Accounts(s, device, c) && t < |s.tasks| && Live(s.tasks[t].phase)
    ensures Accounts(AfterQuery(cfg, s, t, budget), device, c)
  {
    var p := s.tasks[t].confirm;
    var s1 := s.(confirms := s.confirms[p := s.confirms[p].(eventSet := false)]);
    BooksFrame(s, s1, device, c);
    SettleAccounts(s1, t, budget, device, c);
    SuspendAccounts(s1, t, SecondWait, device, c);
  }

  lemma AfterFirstWaitAccounts(cfg: Config, s: State, t: nat, budget: Answer, device: DeviceId, c: Counter)
    requires Accounts(s, device, c) && t < |s.tasks| && Live(s.tasks[t].phase)
    ensures Accounts(AfterFirstWait(cfg, s, t, budget), device, c)
  {
    var p := s.confirms[s.tasks[t].confirm];
    if p.hasReport {
      SettleAccounts(s, t, budget, device, c);
      AfterQueryAccounts(cfg, s, t, budget, device, c);
    } else {
      SuspendAccounts(s, t, Querying, device, c);
      BooksFrame(SetTask(s, t, Querying, s.tasks[t].outcome), AfterFirstWait(cfg, s, t, budget), device, c);
    }
  }

  lemma {:induction false} PrepareAccounts(s: State, device: DeviceId, fields: seq<Field>, dev: DeviceId, c: Counter)
    requires Accounts(s, dev, c)
    ensures Accounts(CancelFields(s, device, fields), dev, c)
    decreases fields
  {
    if fields != [] {
      CancelKeyBooked(s, (device, fields[0]), true);
      CancelKeyTruthful(s, (device, fields[0]), true, dev, c);
      PrepareAccounts(CancelKey(s, (device, fields[0]), true), device, fields[1..], dev, c);
    }
  }

  lemma KillAccounts(s: State, t: nat, device: DeviceId, c: Counter)
    requires Accounts(s, device, c) && t < |s.tasks| && Live(s.tasks[t].phase)
    ensures Accounts(DoKill(s, t), device, c)
  {
    assert TaskBooked(s, t);
    KillBooked(s, t);
    var phase := CancelledPhase(s.tasks[t].phase);
    SetOpenTruthful(s, t, phase, if phase.Finished? && !InTable(s, t) then Dropped else Open, device, c);
  }

  lemma BeginAccounts(cfg: Config, s: State, t: nat, budget: Answer, device: DeviceId, c: Counter)
    requires WellFormed(s) && Accounts(s, device, c) && At(s, t, Created)
    ensures Accounts(DoBegin(cfg, s, t, budget), device, c)
  {
    hide Accounts, AfterFirstWait;
    if cfg.FirstWaitSeconds() <= 0.0 || s.confirms[s.tasks[t].confirm].eventSet {
      AfterFirstWaitAccounts(cfg, s, t, budget, device, c);
    } else {
      SuspendAccounts(s, t, FirstWait, device, c);
    }
  }

  lemma ResendAccounts(cfg: Config, s: State, t: nat, answer: Answer, device: DeviceId, c: Counter)
    requires Accounts(s, device, c)
    ensures Accounts(Step(cfg, s, ResendReturned(t, answer)), device, c)
  {
    hide Accounts, Finish;
    if At(s, t, Resending) {
      match answer {
        case Yes => FinishAccounts(s, t, Counted(Resent), device, c);
        case No => FinishAccounts(s, t, Counted(Unconfirmed), device, c);
        case Raised => FinishAccounts(s, t, Dropped, device, c);
      }
    }
  }

  /** A step of a confirm task. */
  lemma TaskStepAccounts(cfg: Config, s: State, e: Event, device: DeviceId, c: Counter)
    requires Accounts(s, device, c) && (e.Begin? || e.Wake? || e.QueryReturned? || e.ResendReturned?)
    ensures Accounts(Step(cfg, s, e), device, c)
  {
    assert WellFormed(s);
    hide Accounts, DoBegin, AfterFirstWait, AfterQuery, Settle, Finish;
    match e
    case Begin(t, budget) => if At(s, t, Created) { BeginAccounts(cfg, s, t, budget, device, c); }
    case Wake(t, budget) =>
      if At(s, t, FirstWait) {
        AfterFirstWaitAccounts(cfg, s, t, budget, device, c);
      } else if At(s, t, SecondWait) {
        SettleAccounts(s, t, budget, device, c);
      }
    case QueryReturned(t, raised, budget) =>
      if At(s, t, Querying) {
        if raised { FinishAccounts(s, t, Dropped, device, c); } else { AfterQueryAccounts(cfg, s, t, budget, device, c); }
      }
    case ResendReturned(t, answer) => ResendAccounts(cfg, s, t, answer, device, c);
  }

  lemma StepAccounts(cfg: Config, s: State, e: Event, device: DeviceId, c: Counter)
    requires Accounts(s, device, c)
    ensures Accounts(Step(cfg, s, e), device, c)
  {
    hide AfterFirstWait, AfterQuery, Settle, Finish, DoUnwind, DoStart, CancelFields;
    match e
    case Prepare(dev, command, view) =>
      if CommandField(command).Some? {
        var fields := SupersedesInOrder(CommandField(command).value.0);
        PrepareAccounts(s, dev, fields, device, c);
        BooksFrame(CancelFields(s, dev, fields), DoPrepare(s, dev, command, view), device, c);
      }
    case Start(p) =>
      if p < |s.confirms| {
        StartBooked(s, p);
        StartTruthful(s, p, device, c);
      }
    case Report(dev, data) => BooksFrame(s, Step(cfg, s, e), device, c);
    case CancelAll =>
      DropAllBooked(s);
      DropAllTruthful(s, device, c);
    case Unwind(t) =>
      if At(s, t, Unwinding) {
        UnwindBooked(s, t);
        UnwindTruthful(s, t, device, c);
      }
    case Kill(t) => if t < |s.tasks| && Live(s.tasks[t].phase) { KillAccounts(s, t, device, c); }
    case _ => TaskStepAccounts(cfg, s, e, device, c);
  }

  lemma {:induction false} RunAccounts(cfg: Config, events: seq<Event>, device: DeviceId, c: Counter)
    ensures Accounts(Run(cfg, events), device, c)
  {
    if events != [] {
      RunAccounts(cfg, events[..|events| - 1], device, c);
      StepAccounts(cfg, Run(cfg, events[..|events| - 1]), events[|events| - 1], device, c);
    }
  }

  function StartedFor(tasks: seq<Task>, device: DeviceId): nat {
    if tasks == [] then 0
    else StartedFor(tasks[..|tasks| - 1], device) + if tasks[|tasks| - 1].key.0 == device then 1 else 0
  }

  lemma {:induction false} Buckets(tasks: seq<Task>, device: DeviceId)
    ensures StartedFor(tasks, device)
         == Tally(tasks, device, Counted(Confirmed)) + Tally(tasks, device, Counted(Resent))
          + Tally(tasks, device, Counted(Unconfirmed)) + Tally(tasks, device, Counted(Unverified))
          + Tally(tasks, device, Counted(SkippedBudget)) + Tally(tasks, device, Counted(Superseded))
          + Tally(tasks, device, Open) + Tally(tasks, device, Dropped)
  {
    if tasks != [] {
      Buckets(tasks[..|tasks| - 1], device);
      match tasks[|tasks| - 1].outcome {
        case Open =>
        case Dropped =>
        case Counted(c) => assert c.Confirmed? || c.Resent? || c.Unconfirmed? || c.Unverified? || c.SkippedBudget? || c.Superseded?;
      }
    }
  }

  /** Conservation, in every reachable state: each counter is the number of confirms with that outcome, and per
      device the confirms started are the sum of the six counters, the confirms still pending and those dropped
      uncounted (unload or a raised hook). A pending one is suspended in its task, or its entry is still in the table. */
  lemma Conservation(cfg: Config, events: seq<Event>, device: DeviceId)
    ensures var s := Run(cfg, events);
      && (forall c :: CountOf(s, device, c) == Tally(s.tasks, device, Counted(c)))
      && StartedFor(s.tasks, device)
         == CountOf(s, device, Confirmed) + CountOf(s, device, Resent) + CountOf(s, device, Unconfirmed)
          + CountOf(s, device, Unverified) + CountOf(s, device, SkippedBudget) + CountOf(s, device, Superseded)
          + Tally(s.tasks, device, Open) + Tally(s.tasks, device, Dropped)
      && forall t: nat | t < |s.tasks| && s.tasks[t].outcome.Open? :: !s.tasks[t].phase.Finished? || InTable(s, t)
  {
    var s := Run(cfg, events);
    forall c ensures Booked(s) && CountOf(s, device, c) == Tally(s.tasks, device, Counted(c)) {
      RunAccounts(cfg, events, device, c);
    }
    forall t: nat | t < |s.tasks| && s.tasks[t].outcome.Open? ensures !s.tasks[t].phase.Finished? || InTable(s, t) {
      RunAccounts(cfg, events, device, Confirmed);
      assert TaskBooked(s, t);
    }
    Buckets(s.tasks, device);
  }
}
