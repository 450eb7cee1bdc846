/** Newer commands and pending confirms: which resends can be stale. */
module CommandConfirmOrder {
  import opened ConfirmValues
  import opened CommandConfirm
  import opened CommandConfirmResend
  import CommandConfirmSafety

  predicate Unstarted(s: State, p: nat) {
    forall t | 0 <= t < |s.tasks| :: s.tasks[t].confirm != p
  }

  /** The coordinator's discipline: what one prepare returned is started at most once. */
  predicate StartsOnce(cfg: Config, events: seq<Event>) {
    events == [] ||
      var last := events[|events| - 1];
      && StartsOnce(cfg, events[..|events| - 1])
      && (last.Start? ==> Unstarted(Run(cfg, events[..|events| - 1]), last.confirm))
  }

  predicate OnlyTaskOf(s: State, t: nat) {
    t < |s.tasks| ==> forall u: nat | u < |s.tasks| && s.tasks[u].confirm == s.tasks[t].confirm :: u == t
  }

  function Heard(c: Pending): Option<Value> {
    if c.hasReport then Some(c.reported) else None
  }

  /** A task still open is in the table, knows the last report since it started (and, before its first
      step, has its event set by it), and no newer command for its field has been prepared since. */
  predicate Current(s: State, t: nat)
    requires WellFormed(s)
  {
    t < |s.tasks| && s.tasks[t].outcome.Open? ==>
      && InTable(s, t)
      && LastReport(s.log, t, s.tasks[t].key) == Heard(s.confirms[s.tasks[t].confirm])
      && !Overtaken(s.log, t, s.tasks[t].key)
      && (s.tasks[t].phase.Created? ==> EventKept(s.confirms[s.tasks[t].confirm]))
  }

  predicate EventKept(c: Pending) {
    c.hasReport ==> c.eventSet
  }

  /** Before it is started, a confirm has heard nothing. */
  predicate Deaf(s: State, p: nat) {
    p < |s.confirms| && Unstarted(s, p) ==> !s.confirms[p].hasReport
  }

  /** A task step as seen by task t: it either ends, or stays as it was. */
  predicate Undisturbed(s: State, s': State, t: nat)
    requires WellFormed(s) && WellFormed(s')
  {
    && t < |s.tasks| == |s'.tasks|
    && s'.tasks[t].confirm == s.tasks[t].confirm && s'.tasks[t].key == s.tasks[t].key
    && (s'.tasks[t].outcome.Open? ==>
          && s.tasks[t].outcome.Open?
          && (InTable(s, t) ==> InTable(s', t))
          && Heard(s'.confirms[s.tasks[t].confirm]) == Heard(s.confirms[s.tasks[t].confirm])
          && (s'.tasks[t].phase.Created? ==>
                s.tasks[t].phase.Created? && s'.confirms[s.tasks[t].confirm] == s.confirms[s.tasks[t].confirm])
          && (s'.log == s.log || (s'.log != [] && s'.log[..|s'.log| - 1] == s.log
              && (s'.log[|s.log|].Queried? || s'.log[|s.log|].SentAgain?))))
  }

  lemma SuspendUndisturbed(s: State, t: nat, phase: Phase, u: nat)
    requires WellFormed(s) && u < |s.tasks| && t < |s.tasks| && !phase.Created?
    ensures Undisturbed(s, SetTask(s, t, phase, s.tasks[t].outcome), u)
  {
  }

  lemma FinishUndisturbed(s: State, t: nat, outcome: Outcome, u: nat)
    requires WellFormed(s) && t < |s.tasks| && u < |s.tasks| && OnlyTaskOf(s, u) && !outcome.Open?
    ensures Undisturbed(s, Finish(s, t, outcome), u)
    ensures Finish(s, t, outcome).tasks[t].outcome == outcome
  {
  }

  lemma UnwindUndisturbed(s: State, t: nat, u: nat)
    requires WellFormed(s) && t < |s.tasks| && u < |s.tasks| && OnlyTaskOf(s, u)
    ensures Undisturbed(s, DoUnwind(s, t), u)
  {
  }

  lemma SettleUndisturbed(s: State, t: nat, budget: Answer, u: nat)
    requires WellFormed(s) && t < |s.tasks| && u < |s.tasks| && OnlyTaskOf(s, u)
    ensures Undisturbed(s, Settle(s, t, budget), u)
    ensures Settle(s, t, budget).tasks[t].outcome.Open? ==> !Settle(s, t, budget).tasks[t].phase.Created?
  {
    hide Finish;
    FinishUndisturbed(s, t, Counted(Unverified), u);
    FinishUndisturbed(s, t, Counted(Confirmed), u);
    FinishUndisturbed(s, t, Counted(SkippedBudget), u);
    FinishUndisturbed(s, t, Dropped, u);
  }

  lemma AfterQueryUndisturbed(cfg: Config, s: State, t: nat, budget: Answer, u: nat)
    requires WellFormed(s) && t < |s.tasks| && u < |s.tasks| && OnlyTaskOf(s, u)
    ensures Undisturbed(s, AfterQuery(cfg, s, t, budget), u)
  {
    hide Settle;
    var p := s.tasks[t].confirm;
    SettleUndisturbed(s.(confirms := s.confirms[p := s.confirms[p].(eventSet := false)]), t, budget, u);
  }

  lemma AfterFirstWaitUndisturbed(cfg: Config, s: State, t: nat, budget: Answer, u: nat)
    requires WellFormed(s) && t < |s.tasks| && u < |s.tasks| && OnlyTaskOf(s, u)
    ensures Undisturbed(s, AfterFirstWait(cfg, s, t, budget), u)
  {
    hide Settle, AfterQuery;
    SettleUndisturbed(s, t, budget, u);
    AfterQueryUndisturbed(cfg, s, t, budget, u);
  }

  lemma WakeUndisturbed(cfg: Config, s: State, e: Event, u: nat)
    requires WellFormed(s) && u < |s.tasks| && OnlyTaskOf(s, u) && (e.Begin? || e.Wake? || e.QueryReturned?)
    ensures Undisturbed(s, Step(cfg, s, e), u)
  {
    hide AfterFirstWait, AfterQuery, Settle, Finish;
    match e
    case Begin(t, budget) =>
      if At(s, t, Created) {
        AfterFirstWaitUndisturbed(cfg, s, t, budget, u);
        SuspendUndisturbed(s, t, FirstWait, u);
      }
    case Wake(t, budget) =>
      if At(s, t, FirstWait) {
        AfterFirstWaitUndisturbed(cfg, s, t, budget, u);
      } else if At(s, t, SecondWait) {
        SettleUndisturbed(s, t, budget, u);
      }
    case QueryReturned(t, raised, budget) =>
      if At(s, t, Querying) {
        if raised { FinishUndisturbed(s, t, Dropped, u); } else { AfterQueryUndisturbed(cfg, s, t, budget, u); }
      }
  }

  lemma EndUndisturbed(cfg: Config, s: State, e: Event, u: nat)
    requires WellFormed(s) && u < |s.tasks| && OnlyTaskOf(s, u) && (e.ResendReturned? || e.Unwind? || e.Kill?)
    ensures Undisturbed(s, Step(cfg, s, e), u)
  {
    hide AfterFirstWait, AfterQuery, Settle, Finish, DoUnwind;
    match e
    case ResendReturned(t, answer) =>
      if At(s, t, Resending) {
        match answer {
          case Yes => FinishUndisturbed(s, t, Counted(Resent), u);
          case No => FinishUndisturbed(s, t, Counted(Unconfirmed), u);
          case Raised => FinishUndisturbed(s, t, Dropped, u);
        }
      }
    case Unwind(t) => if At(s, t, Unwinding) { UnwindUndisturbed(s, t, u); }
    case Kill(_) =>
  }

  lemma TaskStepUndisturbed(cfg: Config, s: State, e: Event, u: nat)
    requires WellFormed(s) && u < |s.tasks| && OnlyTaskOf(s, u)
    requires e.Begin? || e.Wake? || e.QueryReturned? || e.ResendReturned? || e.Unwind? || e.Kill?
    ensures Undisturbed(s, Step(cfg, s, e), u)
  {
    hide Step, Undisturbed;
    if e.Begin? || e.Wake? || e.QueryReturned? {
      WakeUndisturbed(cfg, s, e, u);
    } else {
      EndUndisturbed(cfg, s, e, u);
    }
  }

  lemma UndisturbedCurrent(s: State, s': State, t: nat)
    requires WellFormed(s) && WellFormed(s') && Undisturbed(s, s', t) && Current(s, t)
    ensures Current(s', t)
  {
  }

  // ---------- the coordinator's calls ----------

  /** prepare closes exactly the entries it lists and touches nothing else. */
  lemma {:induction false} CancelFieldsEffect(s: State, device: DeviceId, fields: seq<Field>, t: nat)
    requires WellFormed(s) && t < |s.tasks|
    ensures var s' := CancelFields(s, device, fields);
      && s'.confirms == s.confirms && |s'.tasks| == |s.tasks| && s'.log == s.log
      && s'.tasks[t].confirm == s.tasks[t].confirm && s'.tasks[t].key == s.tasks[t].key
      && (s'.tasks[t].outcome.Open? ==> s'.tasks[t] == s.tasks[t])
      && (InTable(s', t) ==> InTable(s, t))
      && (s.tasks[t].key.0 == device && s.tasks[t].key.1 in fields ==> !InTable(s', t))
      && (s'.tasks[t].outcome.Open? && InTable(s, t) ==>
            InTable(s', t) && !(s.tasks[t].key.0 == device && s.tasks[t].key.1 in fields))
      && (InTable(s, t) && s.tasks[t].key.0 == device && s.tasks[t].key.1 in fields ==>
            s'.tasks[t].outcome == Counted(Superseded))
      && (!(InTable(s, t) && s.tasks[t].key.0 == device && s.tasks[t].key.1 in fields) ==> s'.tasks[t] == s.tasks[t])
    decreases fields
  {
    if fields != [] {
      CancelFieldsEffect(CancelKey(s, (device, fields[0]), true), device, fields[1..], t);
    }
  }

  lemma PrepareCurrent(s: State, device: DeviceId, command: Command, view: View, t: nat)
    requires WellFormed(s) && t < |s.tasks| && Current(s, t)
    ensures Current(DoPrepare(s, device, command, view), t)
  {
    hide LastReport, Overtaken, CancelFields;
    if CommandField(command).Some? {
      var fields := SupersedesInOrder(CommandField(command).value.0);
      CancelFieldsEffect(s, device, fields, t);
      var s' := DoPrepare(s, device, command, view);
      assert s'.log == s.log + [s'.log[|s.log|]];
      PreparedReads(s.log, s'.log[|s.log|], t, s.tasks[t].key);
    }
  }

  lemma PreparedReads(log: seq<Entry>, entry: Entry, t: nat, key: Key)
    requires entry.Prepared?
    ensures LastReport(log + [entry], t, key) == LastReport(log, t, key)
    ensures Overtaken(log + [entry], t, key) <==> Overtakes(entry, key) || Overtaken(log, t, key)
  {
    assert (log + [entry])[..|log|] == log;
  }

  lemma StartedReads(log: seq<Entry>, n: nat, t: nat, key: Key)
    ensures LastReport(log + [Started(n)], t, key) == if t == n then None else LastReport(log, t, key)
    ensures Overtaken(log + [Started(n)], t, key) <==> t != n && Overtaken(log, t, key)
  {
    assert (log + [Started(n)])[..|log|] == log;
  }

  lemma StartCurrent(s: State, p: nat, t: nat)
    requires WellFormed(s) && p < |s.confirms| && Current(s, t) && OnlyTaskOf(s, t)
    requires Unstarted(s, p) && Deaf(s, p) && t <= |s.tasks|
    ensures Current(DoStart(s, p), t) && OnlyTaskOf(DoStart(s, p), t)
  {
    hide DoStart, Current, OnlyTaskOf, Deaf, Unstarted;
    if t < |s.tasks| {
      StartKeeps(s, p, t);
    } else {
      StartMakes(s, p);
    }
  }

  lemma StartMakes(s: State, p: nat)
    requires WellFormed(s) && p < |s.confirms| && Unstarted(s, p) && Deaf(s, p)
    ensures Current(DoStart(s, p), |s.tasks|) && OnlyTaskOf(DoStart(s, p), |s.tasks|)
  {
    StartedReads(s.log, |s.tasks|, |s.tasks|, s.confirms[p].Key());
    hide LastReport, Overtaken, DoStart;
    StartEffect(s, p);
  }

  /** start appends one task, whose entry it puts in the table, and leaves the other tasks' confirms alone. */
  lemma StartEffect(s: State, p: nat)
    requires WellFormed(s) && p < |s.confirms|
    ensures var s', n := DoStart(s, p), |s.tasks|;
      && |s'.tasks| == n + 1 && s'.tasks[n].confirm == p && s'.tasks[n].key == s.confirms[p].Key()
      && InTable(s', n) && s'.confirms == s.confirms && s'.log == s.log + [Started(n)]
      && (forall t | 0 <= t < n :: s'.tasks[t].confirm == s.tasks[t].confirm)
  {
  }

  lemma StartKeeps(s: State, p: nat, t: nat)
    requires WellFormed(s) && p < |s.confirms| && Current(s, t) && OnlyTaskOf(s, t)
    requires Unstarted(s, p) && t < |s.tasks|
    ensures Current(DoStart(s, p), t) && OnlyTaskOf(DoStart(s, p), t)
  {
    hide LastReport, Overtaken;
    var s' := DoStart(s, p);
    StartedReads(s.log, |s.tasks|, t, s.tasks[t].key);
    assert s'.tasks[t].confirm == s.tasks[t].confirm && s'.tasks[t].confirm != p;
  }

  lemma ReportCurrent(s: State, device: DeviceId, values: map<Field, Value>, t: nat)
    requires WellFormed(s) && Current(s, t)
    ensures Current(DoReport(s, device, values), t)
  {
  }

  // ---------- every run ----------

  lemma StepDeaf(cfg: Config, s: State, e: Event, p: nat)
    requires WellFormed(s) && Deaf(s, p)
    ensures Deaf(Step(cfg, s, e), p)
  {
    hide Step;
    var s' := Step(cfg, s, e);
    StepMoves(cfg, s, e, p, 0);
    if p < |s.confirms| && Unstarted(s', p) {
      forall t | 0 <= t < |s.tasks| ensures s.tasks[t].confirm != p {
        StepMoves(cfg, s, e, p, t);
        assert s'.tasks[t].confirm != p;
      }
    }
  }

  lemma {:induction false} RunDeaf(cfg: Config, events: seq<Event>, p: nat)
    ensures Deaf(Run(cfg, events), p)
  {
    if events != [] {
      RunDeaf(cfg, events[..|events| - 1], p);
      StepDeaf(cfg, Run(cfg, events[..|events| - 1]), events[|events| - 1], p);
    }
  }

  /** With every confirm started at most once, a task stays the only one of its confirm. */
  lemma StepKeepsOnlyTask(cfg: Config, s: State, e: Event, t: nat)
    requires WellFormed(s) && OnlyTaskOf(s, t) && t < |s.tasks|
    requires e.Start? ==> Unstarted(s, e.confirm)
    ensures OnlyTaskOf(Step(cfg, s, e), t)
  {
    hide Step;
    var s' := Step(cfg, s, e);
    StepMoves(cfg, s, e, 0, t);
    forall u: nat | u < |s'.tasks| && s'.tasks[u].confirm == s'.tasks[t].confirm ensures u == t {
      StepMoves(cfg, s, e, 0, u);
      if u >= |s.tasks| { OnlyStartCreatesTasks(cfg, s, e); }
    }
  }

  lemma StepCurrent(cfg: Config, s: State, e: Event, t: nat)
    requires WellFormed(s) && Current(s, t) && OnlyTaskOf(s, t)
    requires e.Start? ==> Unstarted(s, e.confirm) && Deaf(s, e.confirm)
    ensures Current(Step(cfg, s, e), t) && OnlyTaskOf(Step(cfg, s, e), t)
  {
    hide DoPrepare, DoStart, DoReport, DoUnwind, DoBegin, AfterFirstWait, AfterQuery, Settle, Finish;
    OnlyStartCreatesTasks(cfg, s, e);
    if t < |s.tasks| {
      StepKeepsOnlyTask(cfg, s, e, t);
      match e {
        case Prepare(device, command, view) => PrepareCurrent(s, device, command, view, t);
        case Start(p) => if p < |s.confirms| { StartCurrent(s, p, t); }
        case Report(device, data) => ReportCurrent(s, device, ReportValues(data), t);
        case CancelAll =>
        case _ =>
          TaskStepUndisturbed(cfg, s, e, t);
          UndisturbedCurrent(s, Step(cfg, s, e), t);
      }
    } else if t == |s.tasks| && e.Start? && e.confirm < |s.confirms| {
      StartCurrent(s, e.confirm, t);
    }
  }

  lemma {:induction false} RunCurrent(cfg: Config, events: seq<Event>, t: nat)
    requires StartsOnce(cfg, events)
    ensures Current(Run(cfg, events), t) && OnlyTaskOf(Run(cfg, events), t)
  {
    if events != [] {
      var s := Run(cfg, events[..|events| - 1]);
      var e := events[|events| - 1];
      RunCurrent(cfg, events[..|events| - 1], t);
      if e.Start? { RunDeaf(cfg, events[..|events| - 1], e.confirm); }
      StepCurrent(cfg, s, e, t);
    }
  }

  /** Over every run in which each confirm is started at most once: an open confirm is in the table under its
      key, so no older task's finally block, nor any other step, ever evicts it while it is pending. */
  lemma OpenStaysInTable(cfg: Config, events: seq<Event>, t: nat)
    requires StartsOnce(cfg, events)
    ensures var s := Run(cfg, events); t < |s.tasks| && s.tasks[t].outcome.Open? ==> InTable(s, t)
  {
    hide Run;
    RunCurrent(cfg, events, t);
  }

  /** What was known when an entry says a resend went out. */
  predicate UpToDate(s: State, j: nat)
    requires j < |s.log|
  {
    s.log[j].SentAgain? && s.log[j].task < |s.tasks| ==>
      var t := s.log[j].task;
      && LastReport(s.log[..j], t, s.tasks[t].key) == Some(s.log[j].reported)
      && !Overtaken(s.log[..j], t, s.tasks[t].key)
  }

  /** Resend safety over every run in which each confirm is started at most once: the report a resend
      rests on is the last one for its field since the confirm started, and no command superseding
      the field has been prepared since then. */
  lemma {:induction false} ResendIsUpToDate(cfg: Config, events: seq<Event>, j: nat)
    requires StartsOnce(cfg, events)
    ensures var s := Run(cfg, events); j < |s.log| ==> UpToDate(s, j)
  {
    hide Step;
    if events != [] {
      var before := events[..|events| - 1];
      var s, e, s' := Run(cfg, before), events[|events| - 1], Run(cfg, events);
      ResendIsUpToDate(cfg, before, j);
      StepMoves(cfg, s, e, 0, 0);
      if j < |s'.log| && s'.log[j].SentAgain? {
        var t := s'.log[j].task;
        StepMoves(cfg, s, e, 0, t);
        ResendShowsOldValue(cfg, before, j);
        if j < |s.log| {
          assert s'.log[..j] == s.log[..j];
        } else {
          assert s'.log[..j] == s.log;
          RunCurrent(cfg, before, t);
          CommandConfirmSafety.RunAccounts(cfg, before, "", Resent);
          assert CommandConfirmSafety.TaskBooked(s, t);
        }
      }
    }
  }

  // ---------- a command prepared while an older one is still being dispatched ----------

  /** What a log says about confirm p and its key. */
  predicate OwnEntries(log: seq<Entry>, p: nat, key: Key) {
    forall i | 0 <= i < |log| && log[i].Prepared? && log[i].confirm == Some(p) ::
      (log[i].device, log[i].field) == key
  }

  /** Past the start of its task, a confirm becomes outdated exactly when it is overtaken. */
  lemma {:induction false} OutdatedAfterStart(log: seq<Entry>, i: nat, t: nat, p: nat, key: Key)
    requires i < |log| && log[i] == Started(t) && OwnEntries(log, p, key)
    requires !Overtaken(log, t, key) && Times(log, Starts, t) == 1
    ensures Outdated(log, p, key) == Outdated(log[..i], p, key)
    decreases |log|
  {
    var n := |log| - 1;
    StartsSplit(log, i, t);
    if i < n {
      assert log[..n][..i] == log[..i];
      assert key.1 in Supersedes(key.1);
      OutdatedAfterStart(log[..n], i, t, p, key);
    }
  }

  lemma {:induction false} StartsSplit(log: seq<Entry>, i: nat, t: nat)
    requires i < |log| && log[i] == Started(t)
    ensures Times(log, Starts, t) >= 1
    ensures i < |log| - 1 && Times(log, Starts, t) == 1 ==> log[|log| - 1] != Started(t)
    decreases |log|
  {
    if i < |log| - 1 {
      StartsSplit(log[..|log| - 1], i, t);
    }
  }

  lemma {:induction false} FindStart(log: seq<Entry>, t: nat) returns (i: nat)
    requires Times(log, Starts, t) >= 1
    ensures i < |log| && log[i] == Started(t)
  {
    i := |log| - 1;
    if log[i] != Started(t) {
      i := FindStart(log[..i], t);
    }
  }

  lemma {:induction false} RunOwnEntries(cfg: Config, events: seq<Event>, p: nat)
    ensures var s := Run(cfg, events);
      if p < |s.confirms| then OwnEntries(s.log, p, s.confirms[p].Key())
      else forall entry <- s.log :: entry.Prepared? ==> entry.confirm != Some(p)
  {
    hide Step;
    if events != [] {
      RunOwnEntries(cfg, events[..|events| - 1], p);
      var s, s' := Run(cfg, events[..|events| - 1]), Run(cfg, events);
      StepMoves(cfg, s, events[|events| - 1], p, 0);
      if s'.log != s.log {
        assert s'.log == s.log + [s'.log[|s.log|]];
      }
    }
  }

  /** A resend can go out although a newer command for the field has been prepared since its own:
      exactly when that newer one was prepared before the confirm started, while the older command
      was still being dispatched. */
  lemma {:induction false} StaleResendIff(cfg: Config, events: seq<Event>, j: nat)
    requires StartsOnce(cfg, events)
    ensures var s := Run(cfg, events);
      j < |s.log| && s.log[j].SentAgain? && s.log[j].task < |s.tasks| ==>
        var t := s.log[j].task;
        var p := s.tasks[t].confirm;
        exists i: nat :: i < j && s.log[i] == Started(t)
          && (Outdated(s.log[..j], p, s.tasks[t].key) <==> Outdated(s.log[..i], p, s.tasks[t].key))
  {
    hide Step;
    if events != [] {
      var before := events[..|events| - 1];
      var s, e, s' := Run(cfg, before), events[|events| - 1], Run(cfg, events);
      StaleResendIff(cfg, before, j);
      if j < |s'.log| && s'.log[j].SentAgain? {
        var t := s'.log[j].task;
        StepMoves(cfg, s, e, 0, t);
        ResendShowsOldValue(cfg, before, j);
        if j < |s.log| {
          var p := s.tasks[t].confirm;
          var i: nat :| i < j && s.log[i] == Started(t)
            && (Outdated(s.log[..j], p, s.tasks[t].key) <==> Outdated(s.log[..i], p, s.tasks[t].key));
          assert s'.log[..j] == s.log[..j] && s'.log[..i] == s.log[..i] && s'.log[i] == Started(t);
        } else {
          StaleAtSend(cfg, before, t);
          assert s'.log[..j] == s.log;
          var p := s.tasks[t].confirm;
          var i: nat :| i < |s.log| && s.log[i] == Started(t)
            && (Outdated(s.log, p, s.tasks[t].key) <==> Outdated(s.log[..i], p, s.tasks[t].key));
          assert s'.log[..i] == s.log[..i] && s'.log[i] == Started(t);
        }
      }
    }
  }

  lemma StaleAtSend(cfg: Config, events: seq<Event>, t: nat)
    requires StartsOnce(cfg, events)
    requires var s := Run(cfg, events); t < |s.tasks| && ResendCap(s.tasks[t].phase) == 0
    ensures var s := Run(cfg, events);
      exists i: nat :: i < |s.log| && s.log[i] == Started(t)
        && (Outdated(s.log, s.tasks[t].confirm, s.tasks[t].key) <==> Outdated(s.log[..i], s.tasks[t].confirm, s.tasks[t].key))
  {
    hide Run, Step;
    var s := Run(cfg, events);
    var p := s.tasks[t].confirm;
    RunCurrent(cfg, events, t);
    RunCounts(cfg, events, t);
    RunOwnEntries(cfg, events, p);
    CommandConfirmSafety.RunAccounts(cfg, events, "", Resent);
    assert CommandConfirmSafety.TaskBooked(s, t);
    var i := FindStart(s.log, t);
    OutdatedAfterStart(s.log, i, t, p, s.tasks[t].key);
  }
}
