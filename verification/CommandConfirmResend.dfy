/** When the confirm-and-resend machine queries and resends, for every run. */
module CommandConfirmResend {
  import opened ConfirmValues
  import opened CommandConfirm

  // ---------- reading the log ----------

  datatype What = Starts | Queries | Resends

  predicate Is(entry: Entry, what: What, t: nat) {
    match what
    case Starts => entry == Started(t)
    case Queries => entry == Queried(t)
    case Resends => entry.SentAgain? && entry.task == t
  }

  /** How often task t started, queried or resent. */
  function Times(log: seq<Entry>, what: What, t: nat): nat {
    if log == [] then 0
    else Times(log[..|log| - 1], what, t) + if Is(log[|log| - 1], what, t) then 1 else 0
  }

  /** The last value reported for a key since task t started. */
  function LastReport(log: seq<Entry>, t: nat, key: Key): Option<Value> {
    if log == [] then None
    else
      var last := log[|log| - 1];
      if last == Started(t) then None
      else if last.Reported? && last.device == key.0 && key.1 in last.values then Some(last.values[key.1])
      else LastReport(log[..|log| - 1], t, key)
  }

  predicate Overtakes(entry: Entry, key: Key) {
    entry.Prepared? && entry.device == key.0 && key.1 in Supersedes(entry.field)
  }

  /** Whether a command superseding the key was prepared since task t started. */
  predicate Overtaken(log: seq<Entry>, t: nat, key: Key) {
    if log == [] then false
    else
      var last := log[|log| - 1];
      if last == Started(t) then false
      else Overtakes(last, key) || Overtaken(log[..|log| - 1], t, key)
  }

  /** Whether one was prepared since confirm p itself was. */
  predicate Outdated(log: seq<Entry>, p: nat, key: Key) {
    if log == [] then false
    else
      var last := log[|log| - 1];
      if last.Prepared? && last.confirm == Some(p) then false
      else Overtakes(last, key) || Outdated(log[..|log| - 1], p, key)
  }

  // ---------- what one step can do ----------

  function QueryCap(phase: Phase): nat {
    if phase.Created? || phase.FirstWait? then 0 else 1
  }

  function ResendCap(phase: Phase): nat {
    if phase.Created? || phase.FirstWait? || phase.Querying? || phase.SecondWait? then 0 else 1
  }

  /** A confirm only changes by hearing reports, and never hears None. */
  predicate Hears(c: Pending, d: Pending) {
    && d == c.(reported := d.reported, hasReport := d.hasReport, eventSet := d.eventSet)
    && (d.hasReport ==> !d.reported.Missing? || (c.hasReport && d.reported == c.reported))
    && (c.hasReport ==> d.hasReport)
    && (d.eventSet ==> c.eventSet || d.hasReport)
  }

  /** What prepare establishes and every step keeps. */
  predicate ConfirmOk(c: Pending) {
    && (c.hasReport ==> !c.reported.Missing?)
    && (c.eventSet ==> c.hasReport)
    && CommandField(c.command) == Some((c.field, c.wanted))
    && !Matches(c.previous, c.wanted)
    && c.command != PowerCommand(true)
  }

  /** The report shows the value from before the command and not the wanted one. */
  predicate ShowsOldValue(c: Pending, reported: Value) {
    && !c.previous.Missing?
    && Matches(reported, c.previous)
    && !Matches(reported, c.wanted)
  }

  predicate Appended(s: State, s': State, entry: Entry) {
    && (entry.Started? || |s'.tasks| == |s.tasks|)
    && ((entry.Prepared? && entry.confirm.Some?) || |s'.confirms| == |s.confirms|)
    && match entry
       case Started(t) => t == |s.tasks| && |s'.tasks| == |s.tasks| + 1
       case Queried(t) => t < |s.tasks| && QueryCap(s.tasks[t].phase) == 0 && s'.tasks[t].phase.Querying?
       case SentAgain(t, reported) =>
         && t < |s.tasks| && ResendCap(s.tasks[t].phase) == 0 && s'.tasks[t].phase.Resending?
         && s.tasks[t].outcome == s'.tasks[t].outcome
         && s.tasks[t].confirm < |s.confirms|
         && var c := s.confirms[s.tasks[t].confirm];
         && c.hasReport && c.reported == reported && Matches(reported, c.previous) && !Matches(reported, c.wanted)
       case Prepared(device, field, Some(p)) =>
         && p == |s.confirms| && |s'.confirms| == p + 1
         && s'.confirms[p].Key() == (device, field) && ConfirmOk(s'.confirms[p]) && !s'.confirms[p].hasReport
       case _ => true
  }

  predicate TaskMoves(a: Task, b: Task) {
    && b.confirm == a.confirm && b.key == a.key
    && QueryCap(a.phase) <= QueryCap(b.phase) && ResendCap(a.phase) <= ResendCap(b.phase)
  }

  /** A report for confirm q's field reaches it: the table holds a task of it. */
  predicate Reaches(s: State, q: nat)
    requires q < |s.confirms|
  {
    var key := s.confirms[q].Key();
    key in s.table && s.table[key] < |s.tasks| && s.tasks[s.table[key]].confirm == q
  }

  /** One step as confirm q and task u see it: both keep their identity and their immutable fields;
      at most one entry is logged, and what it says is so. */
  predicate Moves(s: State, s': State, q: nat, u: nat) {
    && |s.confirms| <= |s'.confirms| && |s.tasks| <= |s'.tasks|
    && (q < |s.confirms| ==>
          && Hears(s.confirms[q], s'.confirms[q])
          && (s'.confirms[q].hasReport ==> s.confirms[q].hasReport || Reaches(s, q)))
    && (u < |s.tasks| ==> TaskMoves(s.tasks[u], s'.tasks[u]))
    && (s'.log == s.log ==> |s.tasks| == |s'.tasks| && |s.confirms| == |s'.confirms|)
    && (s'.log != s.log ==>
          && s'.log != [] && s'.log[..|s'.log| - 1] == s.log
          && Appended(s, s', s'.log[|s'.log| - 1]))
  }

  lemma ReleaseMoves(s: State, t: nat, u: nat)
    requires WellFormed(s) && t < |s.tasks|
    ensures var s' := Release(s, t);
      && s'.confirms == s.confirms && |s'.tasks| == |s.tasks| && s'.log == s.log
      && (u < |s.tasks| ==> TaskMoves(s.tasks[u], s'.tasks[u]))
  {
  }

  lemma FinishMoves(s: State, t: nat, outcome: Outcome, q: nat, u: nat)
    requires WellFormed(s) && t < |s.tasks|
    ensures Moves(s, Finish(s, t, outcome), q, u)
  {
    var s1 := SetTask(s, t, Finished, outcome);
    var s2 := if outcome.Counted? then Count(s1, s.tasks[t].key.0, outcome.counter) else s1;
    assert s2.log == s.log && s2.confirms == s.confirms;
    ReleaseMoves(s2, t, u);
  }

  lemma SettleMoves(s: State, t: nat, budget: Answer, q: nat, u: nat)
    requires WellFormed(s) && t < |s.tasks| && ResendCap(s.tasks[t].phase) == 0
    ensures Moves(s, Settle(s, t, budget), q, u)
  {
    hide Finish;
    var c := s.confirms[s.tasks[t].confirm];
    if c.hasReport && !Matches(c.reported, c.wanted) && Matches(c.reported, c.previous) && budget.Yes? {
    } else {
      FinishMoves(s, t, Counted(Unverified), q, u);
      FinishMoves(s, t, Counted(Confirmed), q, u);
      FinishMoves(s, t, Counted(SkippedBudget), q, u);
      FinishMoves(s, t, Dropped, q, u);
    }
  }

  /** Clearing an event first makes no difference. */
  lemma ClearMoves(s: State, p: nat, s1: State, s': State, q: nat, u: nat)
    requires p < |s.confirms| && s1 == s.(confirms := s.confirms[p := s.confirms[p].(eventSet := false)])
    requires Moves(s1, s', q, u)
    ensures Moves(s, s', q, u)
  {
  }

  lemma AfterQueryMoves(cfg: Config, s: State, t: nat, budget: Answer, q: nat, u: nat)
    requires WellFormed(s) && t < |s.tasks| && ResendCap(s.tasks[t].phase) == 0
    ensures Moves(s, AfterQuery(cfg, s, t, budget), q, u)
  {
    hide Settle;
    var p := s.tasks[t].confirm;
    var s1 := s.(confirms := s.confirms[p := s.confirms[p].(eventSet := false)]);
    if cfg.window - cfg.FirstWaitSeconds() <= 0.0 {
      SettleMoves(s1, t, budget, q, u);
      ClearMoves(s, p, s1, Settle(s1, t, budget), q, u);
    }
  }

  lemma AfterFirstWaitMoves(cfg: Config, s: State, t: nat, budget: Answer, q: nat, u: nat)
    requires WellFormed(s) && t < |s.tasks| && QueryCap(s.tasks[t].phase) == 0
    ensures Moves(s, AfterFirstWait(cfg, s, t, budget), q, u)
  {
    SettleMoves(s, t, budget, q, u);
    AfterQueryMoves(cfg, s, t, budget, q, u);
  }

  lemma WakeMoves(cfg: Config, s: State, e: Event, q: nat, u: nat)
    requires WellFormed(s) && (e.Begin? || e.Wake? || e.QueryReturned?)
    ensures Moves(s, Step(cfg, s, e), q, u)
  {
    hide AfterFirstWait, AfterQuery, Settle, Finish, DoUnwind;
    match e
    case Begin(t, budget) => if At(s, t, Created) { AfterFirstWaitMoves(cfg, s, t, budget, q, u); }
    case Wake(t, budget) =>
      if At(s, t, FirstWait) {
        AfterFirstWaitMoves(cfg, s, t, budget, q, u);
      } else if At(s, t, SecondWait) {
        SettleMoves(s, t, budget, q, u);
      }
    case QueryReturned(t, raised, budget) =>
      if At(s, t, Querying) {
        if raised { FinishMoves(s, t, Dropped, q, u); } else { AfterQueryMoves(cfg, s, t, budget, q, u); }
      }
  }

  lemma EndMoves(cfg: Config, s: State, e: Event, q: nat, u: nat)
    requires WellFormed(s) && (e.ResendReturned? || e.Unwind? || e.Kill?)
    ensures Moves(s, Step(cfg, s, e), q, u)
  {
    hide AfterFirstWait, AfterQuery, Settle, Finish, DoUnwind;
    match e
    case ResendReturned(t, answer) =>
      if At(s, t, Resending) {
        match answer {
          case Yes => FinishMoves(s, t, Counted(Resent), q, u);
          case No => FinishMoves(s, t, Counted(Unconfirmed), q, u);
          case Raised => FinishMoves(s, t, Dropped, q, u);
        }
      }
    case Unwind(t) => if At(s, t, Unwinding) { UnwindMoves(s, t, q, u); }
    case Kill(_) =>
  }

  lemma TaskStepMoves(cfg: Config, s: State, e: Event, q: nat, u: nat)
    requires WellFormed(s)
    requires e.Begin? || e.Wake? || e.QueryReturned? || e.ResendReturned? || e.Unwind? || e.Kill?
    ensures Moves(s, Step(cfg, s, e), q, u)
  {
    hide Step, Moves;
    if e.Begin? || e.Wake? || e.QueryReturned? {
      WakeMoves(cfg, s, e, q, u);
    } else {
      EndMoves(cfg, s, e, q, u);
    }
  }

  lemma {:induction false} CancelFieldsMoves(s: State, device: DeviceId, fields: seq<Field>, u: nat)
    requires WellFormed(s)
    ensures var s' := CancelFields(s, device, fields);
      && s'.confirms == s.confirms && |s'.tasks| == |s.tasks| && s'.log == s.log
      && (u < |s.tasks| ==> TaskMoves(s.tasks[u], s'.tasks[u]))
    decreases fields
  {
    if fields != [] {
      CancelFieldsMoves(CancelKey(s, (device, fields[0]), true), device, fields[1..], u);
    }
  }

  lemma PrepareMoves(s: State, device: DeviceId, command: Command, view: View, q: nat, u: nat)
    requires WellFormed(s)
    ensures Moves(s, DoPrepare(s, device, command, view), q, u)
    ensures |DoPrepare(s, device, command, view).tasks| == |s.tasks|
  {
    if CommandField(command).Some? {
      CancelFieldsMoves(s, device, SupersedesInOrder(CommandField(command).value.0), u);
    }
  }

  lemma StartMoves(s: State, p: nat, q: nat, u: nat)
    requires WellFormed(s) && p < |s.confirms|
    ensures Moves(s, DoStart(s, p), q, u)
  {
  }

  lemma ReportMoves(s: State, device: DeviceId, values: map<Field, Value>, q: nat, u: nat)
    requires WellFormed(s) && (forall f <- values :: !values[f].Missing?)
    ensures Moves(s, DoReport(s, device, values), q, u)
  {
  }

  lemma UnwindMoves(s: State, t: nat, q: nat, u: nat)
    requires WellFormed(s) && At(s, t, Unwinding)
    ensures Moves(s, DoUnwind(s, t), q, u)
  {
  }

  lemma StepMoves(cfg: Config, s: State, e: Event, q: nat, u: nat)
    requires WellFormed(s)
    ensures Moves(s, Step(cfg, s, e), q, u)
  {
    hide DoPrepare, DoStart, DoReport, DoUnwind, DoBegin, AfterFirstWait, AfterQuery, Settle, Finish;
    match e
    case Prepare(device, command, view) => PrepareMoves(s, device, command, view, q, u);
    case Start(p) => if p < |s.confirms| { StartMoves(s, p, q, u); }
    case Report(device, data) => ReportMoves(s, device, ReportValues(data), q, u);
    case CancelAll =>
    case _ => TaskStepMoves(cfg, s, e, q, u);
  }

  // ---------- once per started confirm ----------

  predicate CountsOk(s: State, t: nat) {
    if t < |s.tasks| then
      && Times(s.log, Starts, t) == 1
      && Times(s.log, Queries, t) <= QueryCap(s.tasks[t].phase)
      && Times(s.log, Resends, t) <= ResendCap(s.tasks[t].phase)
    else
      forall what :: Times(s.log, what, t) == 0
  }

  lemma StepCounts(s: State, s': State, t: nat)
    requires CountsOk(s, t) && Moves(s, s', 0, t)
    ensures CountsOk(s', t)
  {
  }

  lemma {:induction false} RunCounts(cfg: Config, events: seq<Event>, t: nat)
    ensures CountsOk(Run(cfg, events), t)
  {
    if events != [] {
      RunCounts(cfg, events[..|events| - 1], t);
      var s := Run(cfg, events[..|events| - 1]);
      StepMoves(cfg, s, events[|events| - 1], 0, t);
      StepCounts(s, Run(cfg, events), t);
    }
  }

  /** Over every run, a started confirm causes at most one status query and at most one resend. */
  lemma AtMostOneQueryAndResend(cfg: Config, events: seq<Event>, t: nat)
    ensures Times(Run(cfg, events).log, Queries, t) <= 1
    ensures Times(Run(cfg, events).log, Resends, t) <= 1
  {
    RunCounts(cfg, events, t);
  }

  /** Only start creates a task, so a resend is never itself confirmed. */
  lemma OnlyStartCreatesTasks(cfg: Config, s: State, e: Event)
    requires WellFormed(s)
    ensures var s' := Step(cfg, s, e);
      |s'.tasks| != |s.tasks| ==> e.Start? && |s'.tasks| == |s.tasks| + 1 && s'.tasks[|s.tasks|].confirm == e.confirm
  {
    hide Finish, CancelFields;
    if e.Prepare? { PrepareMoves(s, e.device, e.command, e.view, 0, 0); }
  }

  // ---------- why a resend happens ----------

  lemma StepConfirmOk(s: State, s': State, p: nat)
    requires Moves(s, s', p, 0) && (p < |s.confirms| ==> ConfirmOk(s.confirms[p]))
    ensures p < |s'.confirms| ==> ConfirmOk(s'.confirms[p])
  {
  }

  lemma {:induction false} RunConfirmOk(cfg: Config, events: seq<Event>, p: nat)
    ensures p < |Run(cfg, events).confirms| ==> ConfirmOk(Run(cfg, events).confirms[p])
  {
    if events != [] {
      RunConfirmOk(cfg, events[..|events| - 1], p);
      var s := Run(cfg, events[..|events| - 1]);
      StepMoves(cfg, s, events[|events| - 1], p, 0);
      StepConfirmOk(s, Run(cfg, events), p);
    }
  }

  predicate EntryJustified(s: State, entry: Entry) {
    entry.SentAgain? ==>
      && entry.task < |s.tasks| && s.tasks[entry.task].confirm < |s.confirms|
      && var c := s.confirms[s.tasks[entry.task].confirm];
      && ShowsOldValue(c, entry.reported)
      && c.command != PowerCommand(true)
  }

  /** Over every run: a resend follows a report that matches the value before the command, which was
      known, and not the wanted one; and never re-sends a power-on. */
  lemma {:induction false} ResendShowsOldValue(cfg: Config, events: seq<Event>, j: nat)
    ensures var s := Run(cfg, events); j < |s.log| ==> EntryJustified(s, s.log[j])
  {
    hide Step;
    if events != [] {
      var s := Run(cfg, events[..|events| - 1]);
      var e := events[|events| - 1];
      var s' := Run(cfg, events);
      ResendShowsOldValue(cfg, events[..|events| - 1], j);
      if j < |s'.log| && s'.log[j].SentAgain? {
        var t := s'.log[j].task;
        if t < |s.tasks| {
          var p := s.tasks[t].confirm;
          StepMoves(cfg, s, e, p, t);
          RunConfirmOk(cfg, events[..|events| - 1], p);
        } else {
          StepMoves(cfg, s, e, 0, t);
        }
      }
    }
  }
}
