/** How each confirm ends: what the reports since its start, the budget and newer commands decide, for every run. */
module CommandConfirmVerdict {
  import opened ConfirmValues
  import opened CommandConfirm
  import opened CommandConfirmResend
  import opened CommandConfirmOrder
  import CommandConfirmSafety

  // ---------- reading a run ----------

  /** What the last report since a task started says about its command. */
  datatype Showing = Nothing | Wanted | OldValue | SomethingElse

  function Reading(last: Option<Value>, c: Pending): Showing {
    match last
    case None => Nothing
    case Some(v) => if Matches(v, c.wanted) then Wanted else if Matches(v, c.previous) then OldValue else SomethingElse
  }

  function Shows(s: State, t: nat): Showing
    requires WellFormed(s) && t < |s.tasks|
  {
    Reading(LastReport(s.log, t, s.tasks[t].key), s.confirms[s.tasks[t].confirm])
  }

  /** The step ends the first wait of task t: it timed out, there was none to make, or a report is there. */
  predicate FirstWaitOver(cfg: Config, s: State, e: Event, t: nat)
    requires WellFormed(s) && t < |s.tasks|
  {
    match s.tasks[t].phase
    case Created => e.Begin? && e.task == t && (cfg.window <= 0.0 || cfg.queryWait <= 0.0 || !Shows(s, t).Nothing?)
    case FirstWait => e.Wake? && e.task == t
    case _ => false
  }

  /** The step is the one in which task t decides: its command showed during the first wait, or the rest of the
      window (none when the first wait took it all) is over. */
  predicate Decides(cfg: Config, s: State, e: Event, t: nat)
    requires WellFormed(s) && t < |s.tasks|
  {
    match s.tasks[t].phase
    case Created => FirstWaitOver(cfg, s, e, t) && (Shows(s, t).Wanted? || (!Shows(s, t).Nothing? && cfg.window <= cfg.queryWait))
    case FirstWait => FirstWaitOver(cfg, s, e, t) && (Shows(s, t).Wanted? || (!Shows(s, t).Nothing? && cfg.window <= cfg.queryWait))
    case Querying => e.QueryReturned? && e.task == t && !e.raised && cfg.window <= cfg.queryWait
    case SecondWait => e.Wake? && e.task == t
    case _ => false
  }

  /** Every verdict: only the old value with a budget that says yes leaves the task open, to resend. */
  function Verdict(shows: Showing, budget: Answer): Outcome {
    match (shows, budget)
    case (Wanted, _) => Counted(Confirmed)
    case (Nothing, _) => Counted(Unverified)
    case (SomethingElse, _) => Counted(Unverified)
    case (OldValue, Yes) => Open
    case (OldValue, No) => Counted(SkippedBudget)
    case (OldValue, Raised) => Dropped
  }

  /** The event is a step that task t can take, and the budget it is answered with, if any. */
  predicate Turn(s: State, e: Event, t: nat) {
    match e
    case Begin(u, _) => u == t && At(s, t, Created)
    case Wake(u, _) => u == t && (At(s, t, FirstWait) || At(s, t, SecondWait))
    case QueryReturned(u, _, _) => u == t && At(s, t, Querying)
    case ResendReturned(u, _) => u == t && At(s, t, Resending)
    case _ => false
  }

  // ---------- what one turn does ----------

  /** An open task knows what the log knows. */
  predicate Informed(s: State, t: nat)
    requires WellFormed(s) && t < |s.tasks|
  {
    var c := s.confirms[s.tasks[t].confirm];
    && s.tasks[t].outcome.Open?
    && LastReport(s.log, t, s.tasks[t].key) == Heard(c)
    && (c.eventSet ==> c.hasReport)
    && (s.tasks[t].phase.Created? ==> EventKept(c))
  }

  lemma FinishEnds(s: State, t: nat, outcome: Outcome)
    requires WellFormed(s) && t < |s.tasks| && !outcome.Open?
    ensures var s' := Finish(s, t, outcome);
      && s'.tasks[t].outcome == outcome && s'.tasks[t].phase == Finished && s'.log == s.log
  {
  }

  /** Task t gets this outcome, moves to this phase, and logs these entries. */
  predicate Lands(s: State, s': State, t: nat, outcome: Outcome, phase: Phase, logged: seq<Entry>) {
    && t < |s'.tasks| && s'.tasks[t].outcome == outcome && s'.tasks[t].phase == phase
    && s'.log == s.log + logged
  }

  predicate Settled(s: State, s': State, t: nat, shows: Showing, reported: Value, budget: Answer) {
    if shows.OldValue? && budget.Yes?
    then Lands(s, s', t, Open, Resending, [SentAgain(t, reported)])
    else Lands(s, s', t, Verdict(shows, budget), Finished, [])
  }

  lemma SettleEnds(s: State, t: nat, budget: Answer)
    requires WellFormed(s) && t < |s.tasks| && s.tasks[t].outcome.Open?
    ensures var c := s.confirms[s.tasks[t].confirm];
      Settled(s, Settle(s, t, budget), t, Reading(Heard(c), c), c.reported, budget)
  {
    hide Finish;
    FinishEnds(s, t, Counted(Unverified));
    FinishEnds(s, t, Counted(Confirmed));
    FinishEnds(s, t, Counted(SkippedBudget));
    FinishEnds(s, t, Dropped);
  }

  lemma AfterQueryEnds(cfg: Config, s: State, t: nat, budget: Answer)
    requires WellFormed(s) && t < |s.tasks| && s.tasks[t].outcome.Open?
    ensures var c := s.confirms[s.tasks[t].confirm];
      if cfg.window <= cfg.queryWait
      then Settled(s, AfterQuery(cfg, s, t, budget), t, Reading(Heard(c), c), c.reported, budget)
      else Lands(s, AfterQuery(cfg, s, t, budget), t, Open, SecondWait, [])
  {
    hide Settle;
    var p := s.tasks[t].confirm;
    SettleEnds(s.(confirms := s.confirms[p := s.confirms[p].(eventSet := false)]), t, budget);
  }

  lemma AfterFirstWaitEnds(cfg: Config, s: State, t: nat, budget: Answer)
    requires WellFormed(s) && t < |s.tasks| && s.tasks[t].outcome.Open?
    ensures var c := s.confirms[s.tasks[t].confirm];
      var shows := Reading(Heard(c), c);
      var s' := AfterFirstWait(cfg, s, t, budget);
      if shows.Nothing? then Lands(s, s', t, Open, Querying, [Queried(t)])
      else if shows.Wanted? || cfg.window <= cfg.queryWait then Settled(s, s', t, shows, c.reported, budget)
      else Lands(s, s', t, Open, SecondWait, [])
  {
    hide Settle, AfterQuery;
    SettleEnds(s, t, budget);
    AfterQueryEnds(cfg, s, t, budget);
  }

  function BudgetOf(e: Event): Answer {
    if e.Begin? || e.Wake? || e.QueryReturned? then e.budget else Raised
  }

  /** A turn of an open task: it asks exactly when its first wait ends without a report, decides in exactly one
      step, and otherwise goes on waiting, unless a hook raised. */
  predicate TurnIs(cfg: Config, s: State, s': State, e: Event, t: nat)
    requires WellFormed(s) && t < |s.tasks|
  {
    var shows := Shows(s, t);
    var last := LastReport(s.log, t, s.tasks[t].key);
    if Decides(cfg, s, e, t) then Settled(s, s', t, shows, if last.Some? then last.value else Missing, BudgetOf(e))
    else if FirstWaitOver(cfg, s, e, t) && shows.Nothing? then Lands(s, s', t, Open, Querying, [Queried(t)])
    else match e
      case ResendReturned(_, Yes) => Lands(s, s', t, Counted(Resent), Finished, [])
      case ResendReturned(_, No) => Lands(s, s', t, Counted(Unconfirmed), Finished, [])
      case ResendReturned(_, Raised) => Lands(s, s', t, Dropped, Finished, [])
      case QueryReturned(_, true, _) => Lands(s, s', t, Dropped, Finished, [])
      case Begin(_, _) => Lands(s, s', t, Open, if shows.Nothing? then FirstWait else SecondWait, [])
      case _ => Lands(s, s', t, Open, SecondWait, [])
  }

  lemma BeginTurn(cfg: Config, s: State, t: nat, budget: Answer)
    requires WellFormed(s) && At(s, t, Created) && Informed(s, t)
    ensures TurnIs(cfg, s, Step(cfg, s, Begin(t, budget)), Begin(t, budget), t)
  {
    hide AfterFirstWait, LastReport;
    AfterFirstWaitEnds(cfg, s, t, budget);
  }

  lemma WakeTurn(cfg: Config, s: State, t: nat, budget: Answer)
    requires WellFormed(s) && (At(s, t, FirstWait) || At(s, t, SecondWait)) && Informed(s, t)
    ensures TurnIs(cfg, s, Step(cfg, s, Wake(t, budget)), Wake(t, budget), t)
  {
    hide AfterFirstWait, Settle, LastReport;
    AfterFirstWaitEnds(cfg, s, t, budget);
    SettleEnds(s, t, budget);
  }

  lemma QueryTurn(cfg: Config, s: State, t: nat, raised: bool, budget: Answer)
    requires WellFormed(s) && At(s, t, Querying) && Informed(s, t)
    ensures TurnIs(cfg, s, Step(cfg, s, QueryReturned(t, raised, budget)), QueryReturned(t, raised, budget), t)
  {
    hide AfterQuery, Finish, LastReport;
    AfterQueryEnds(cfg, s, t, budget);
    FinishEnds(s, t, Dropped);
  }

  lemma ResendTurn(cfg: Config, s: State, t: nat, answer: Answer)
    requires WellFormed(s) && At(s, t, Resending) && Informed(s, t)
    ensures TurnIs(cfg, s, Step(cfg, s, ResendReturned(t, answer)), ResendReturned(t, answer), t)
  {
    hide Finish, LastReport;
    FinishEnds(s, t, Counted(Resent));
    FinishEnds(s, t, Counted(Unconfirmed));
    FinishEnds(s, t, Dropped);
  }

  /** Over every run in which each confirm is started at most once: an open task that has not been
      cancelled knows exactly what the log says. */
  lemma RunInformed(cfg: Config, events: seq<Event>, t: nat)
    requires StartsOnce(cfg, events)
    ensures var s := Run(cfg, events); t < |s.tasks| && Live(s.tasks[t].phase) ==> Informed(s, t)
  {
    hide Run, LastReport;
    var s := Run(cfg, events);
    RunCurrent(cfg, events, t);
    if t < |s.tasks| {
      RunConfirmOk(cfg, events, s.tasks[t].confirm);
      CommandConfirmSafety.RunAccounts(cfg, events, "", Resent);
      assert CommandConfirmSafety.TaskBooked(s, t);
    }
  }

  /** The verdict, over every run in which each confirm is started at most once. What a task does with its turn
      follows from the last report for its field since it started, the budget's answer and the two waits: it is
      counted confirmed exactly when that report shows the wanted value, unverified exactly when there is none or
      it shows neither value, skipped exactly when it shows the old value and the budget says no; it resends
      exactly when it shows the old value and the budget says yes; and it queries exactly when its first wait
      ends without a report. */
  lemma TurnFollowsReports(cfg: Config, events: seq<Event>, e: Event, t: nat)
    requires StartsOnce(cfg, events) && Turn(Run(cfg, events), e, t)
    ensures TurnIs(cfg, Run(cfg, events), Step(cfg, Run(cfg, events), e), e, t)
  {
    hide Run, Step, TurnIs, Informed;
    var s := Run(cfg, events);
    RunInformed(cfg, events, t);
    match e
    case Begin(_, budget) => BeginTurn(cfg, s, t, budget);
    case Wake(_, budget) => WakeTurn(cfg, s, t, budget);
    case QueryReturned(_, raised, budget) => QueryTurn(cfg, s, t, raised, budget);
    case ResendReturned(_, answer) => ResendTurn(cfg, s, t, answer);
  }

  // ---------- what ends a task that does not decide ----------

  predicate Shade(field: Field) {
    field.Color? || field.ColorTemp?
  }

  /** A command for a field makes stale what is pending for that field; power does so for every field, and colour
      and colour temperature for each other. */
  predicate MakesStale(field: Field, pending: Field) {
    field == pending || field.Power? || (Shade(field) && Shade(pending))
  }

  lemma StaleFields(field: Field, pending: Field)
    ensures pending in SupersedesInOrder(field) <==> MakesStale(field, pending)
  {
  }

  /** The event prepares a command superseding the field of task t, or starts another confirm of its key. */
  predicate Displaces(s: State, e: Event, t: nat)
    requires WellFormed(s) && t < |s.tasks|
  {
    match e
    case Prepare(device, command, _) =>
      var found := CommandField(command);
      found.Some? && device == s.tasks[t].key.0 && MakesStale(found.value.0, s.tasks[t].key.1)
    case Start(p) => p < |s.confirms| && s.confirms[p].Key() == s.tasks[t].key
    case _ => false
  }

  lemma FinishElsewhere(s: State, u: nat, outcome: Outcome, t: nat)
    requires WellFormed(s) && u < |s.tasks| && t < |s.tasks| && u != t && OnlyTaskOf(s, t)
    ensures Finish(s, u, outcome).tasks[t] == s.tasks[t]
  {
  }

  lemma SettleElsewhere(s: State, u: nat, budget: Answer, t: nat)
    requires WellFormed(s) && u < |s.tasks| && t < |s.tasks| && u != t && OnlyTaskOf(s, t)
    ensures Settle(s, u, budget).tasks[t] == s.tasks[t]
  {
    hide Finish;
    FinishElsewhere(s, u, Counted(Unverified), t);
    FinishElsewhere(s, u, Counted(Confirmed), t);
    FinishElsewhere(s, u, Counted(SkippedBudget), t);
    FinishElsewhere(s, u, Dropped, t);
  }

  lemma WaitElsewhere(cfg: Config, s: State, u: nat, budget: Answer, t: nat)
    requires WellFormed(s) && u < |s.tasks| && t < |s.tasks| && u != t && OnlyTaskOf(s, t)
    ensures AfterQuery(cfg, s, u, budget).tasks[t] == s.tasks[t]
    ensures AfterFirstWait(cfg, s, u, budget).tasks[t] == s.tasks[t]
  {
    hide Settle;
    var p := s.tasks[u].confirm;
    SettleElsewhere(s, u, budget, t);
    SettleElsewhere(s.(confirms := s.confirms[p := s.confirms[p].(eventSet := false)]), u, budget, t);
  }

  lemma UnwindElsewhere(s: State, u: nat, t: nat)
    requires WellFormed(s) && u < |s.tasks| && t < |s.tasks| && u != t && OnlyTaskOf(s, t)
    ensures DoUnwind(s, u).tasks[t] == s.tasks[t]
  {
  }

  /** Another task's step leaves a task alone. */
  lemma OtherStep(cfg: Config, s: State, e: Event, t: nat)
    requires WellFormed(s) && t < |s.tasks| && OnlyTaskOf(s, t)
    requires e.Begin? || e.Wake? || e.QueryReturned? || e.ResendReturned? || e.Unwind? || e.Kill?
    requires e.task != t
    ensures t < |Step(cfg, s, e).tasks| && Step(cfg, s, e).tasks[t] == s.tasks[t]
  {
    hide AfterFirstWait, AfterQuery, Settle, Finish, DoUnwind;
    var u := e.task;
    if u < |s.tasks| {
      FinishElsewhere(s, u, Dropped, t);
      match e {
        case Begin(_, budget) => WaitElsewhere(cfg, s, u, budget, t);
        case Wake(_, budget) =>
          WaitElsewhere(cfg, s, u, budget, t);
          SettleElsewhere(s, u, budget, t);
        case QueryReturned(_, _, budget) => WaitElsewhere(cfg, s, u, budget, t);
        case ResendReturned(_, _) =>
          FinishElsewhere(s, u, Counted(Resent), t);
          FinishElsewhere(s, u, Counted(Unconfirmed), t);
        case Unwind(_) => UnwindElsewhere(s, u, t);
        case Kill(_) =>
      }
    }
  }

  predicate Gets(s': State, t: nat, outcome: Outcome) {
    t < |s'.tasks| && s'.tasks[t].outcome == outcome
  }

  /** The outcome a step that is not its turn gives an open task. */
  function OutcomeAside(s: State, e: Event, t: nat): Outcome
    requires WellFormed(s) && t < |s.tasks|
  {
    if Displaces(s, e, t) then Counted(Superseded)
    else if e.CancelAll? || (e == Unwind(t) && s.tasks[t].phase.Unwinding?) then Dropped
    else Open
  }

  lemma StartAside(s: State, p: nat, t: nat)
    requires WellFormed(s) && t < |s.tasks| && p < |s.confirms| && InTable(s, t) && s.tasks[t].outcome.Open?
    ensures Gets(DoStart(s, p), t, OutcomeAside(s, Start(p), t))
  {
  }

  lemma PrepareAside(s: State, device: DeviceId, command: Command, view: View, t: nat)
    requires WellFormed(s) && t < |s.tasks| && InTable(s, t) && s.tasks[t].outcome.Open?
    ensures Gets(DoPrepare(s, device, command, view), t, OutcomeAside(s, Prepare(device, command, view), t))
  {
    hide CancelFields;
    if CommandField(command).Some? {
      var field := CommandField(command).value.0;
      StaleFields(field, s.tasks[t].key.1);
      hide SupersedesInOrder, MakesStale, Snapshot;
      CancelFieldsEffect(s, device, SupersedesInOrder(field), t);
    }
  }

  lemma StepAside(cfg: Config, s: State, e: Event, t: nat)
    requires WellFormed(s) && t < |s.tasks| && OnlyTaskOf(s, t) && InTable(s, t) && s.tasks[t].outcome.Open?
    requires !Turn(s, e, t)
    ensures Gets(Step(cfg, s, e), t, OutcomeAside(s, e, t))
  {
    hide DoPrepare, DoStart, Release, MakesStale;
    match e
    case Prepare(device, command, view) => PrepareAside(s, device, command, view, t);
    case Start(p) => if p < |s.confirms| { StartAside(s, p, t); }
    case Report(_, _) =>
    case CancelAll =>
    case _ =>
      hide Step;
      if e.task != t { OtherStep(cfg, s, e, t); } else { OwnAside(cfg, s, e, t); }
  }

  lemma OwnAside(cfg: Config, s: State, e: Event, t: nat)
    requires WellFormed(s) && t < |s.tasks| && InTable(s, t) && s.tasks[t].outcome.Open? && !Turn(s, e, t)
    requires e.Begin? || e.Wake? || e.QueryReturned? || e.ResendReturned? || e.Unwind? || e.Kill?
    requires e.task == t
    ensures Gets(Step(cfg, s, e), t, OutcomeAside(s, e, t))
  {
    hide DoBegin, AfterFirstWait, AfterQuery, Settle, Finish;
  }

  /** Over every run in which each confirm is started at most once: aside from its own turns, an open task ends
      superseded exactly when a superseding command for its device is prepared or another confirm of its key is
      started, and is dropped exactly by the unload or by unwinding after it was killed. */
  lemma EndsAside(cfg: Config, events: seq<Event>, e: Event, t: nat)
    requires StartsOnce(cfg, events)
    requires var s := Run(cfg, events); t < |s.tasks| && s.tasks[t].outcome.Open? && !Turn(s, e, t)
    ensures var s := Run(cfg, events); Gets(Step(cfg, s, e), t, OutcomeAside(s, e, t))
  {
    hide Run, Step;
    RunCurrent(cfg, events, t);
    StepAside(cfg, Run(cfg, events), e, t);
  }

  // ---------- the verdicts one by one ----------

  /** The step logs that task t queried, or resent. */
  predicate Logs(s: State, s': State, what: What, t: nat) {
    |s'.log| > |s.log| && Is(s'.log[|s.log|], what, t)
  }

  lemma QuietUnlessTurn(cfg: Config, events: seq<Event>, e: Event, t: nat)
    requires StartsOnce(cfg, events)
    ensures var s := Run(cfg, events);
      !Turn(s, e, t) ==> !Logs(s, Step(cfg, s, e), Queries, t) && !Logs(s, Step(cfg, s, e), Resends, t)
  {
    hide Run, AfterFirstWait, AfterQuery, Settle, Finish, CancelFields, WellFormed;
    var s := Run(cfg, events);
    if e.Begin? || e.Wake? || e.QueryReturned? || e.ResendReturned? {
      var u := e.task;
      hide Step;
      if Turn(s, e, u) { TurnFollowsReports(cfg, events, e, u); } else { IdleStep(cfg, s, e); }
    } else {
      AsideLogs(cfg, s, e);
    }
  }

  lemma IdleStep(cfg: Config, s: State, e: Event)
    requires WellFormed(s) && (e.Begin? || e.Wake? || e.QueryReturned? || e.ResendReturned?) && !Turn(s, e, e.task)
    ensures Step(cfg, s, e) == s
  {
  }

  lemma AsideLogs(cfg: Config, s: State, e: Event)
    requires WellFormed(s) && !(e.Begin? || e.Wake? || e.QueryReturned? || e.ResendReturned?)
    ensures var s' := Step(cfg, s, e);
      s'.log == s.log
      || (s'.log != [] && s'.log[..|s'.log| - 1] == s.log && !s'.log[|s.log|].Queried? && !s'.log[|s.log|].SentAgain?)
  {
    hide Finish, CancelFields;
    if e.Prepare? && CommandField(e.command).Some? {
      CancelFieldsMoves(s, e.device, SupersedesInOrder(CommandField(e.command).value.0), 0);
    }
  }

  /** The verdicts as equivalences, for any step of any run in which each confirm is started at most once and any
      task of it still open. */
  lemma VerdictIff(cfg: Config, events: seq<Event>, e: Event, t: nat)
    requires StartsOnce(cfg, events)
    requires var s := Run(cfg, events); t < |s.tasks| && s.tasks[t].outcome.Open?
    ensures var s := Run(cfg, events);
      var s', decides, shows := Step(cfg, s, e), Decides(cfg, s, e, t), Shows(s, t);
      && (Gets(s', t, Counted(Confirmed)) <==> decides && shows.Wanted?)
      && (Gets(s', t, Counted(Unverified)) <==> decides && (shows.Nothing? || shows.SomethingElse?))
      && (Gets(s', t, Counted(SkippedBudget)) <==> decides && shows.OldValue? && BudgetOf(e) == No)
      && (Logs(s, s', Resends, t) <==> decides && shows.OldValue? && BudgetOf(e) == Yes)
      && (Logs(s, s', Queries, t) <==> FirstWaitOver(cfg, s, e, t) && shows.Nothing?)
      && (Gets(s', t, Counted(Resent)) <==> s.tasks[t].phase.Resending? && e == ResendReturned(t, Yes))
      && (Gets(s', t, Counted(Unconfirmed)) <==> s.tasks[t].phase.Resending? && e == ResendReturned(t, No))
  {
    hide Run, Step, Shows;
    var s := Run(cfg, events);
    if Turn(s, e, t) {
      TurnFollowsReports(cfg, events, e, t);
    } else {
      EndsAside(cfg, events, e, t);
      QuietUnlessTurn(cfg, events, e, t);
    }
  }

  // ---------- which commands are confirmed ----------

  /** The state already shows what the command asks for: the same power, a brightness within 2, a colour with
      every channel within 2, a temperature within 150 K. */
  predicate AlreadyShown(state: DeviceState, command: Command) {
    match command
    case PowerCommand(on) => state.power == on
    case BrightnessCommand(level) => -2 <= state.brightness - level <= 2
    case ColorCommand(rgb) =>
      && state.color.Some?
      && -2 <= state.color.value.r - rgb.r <= 2
      && -2 <= state.color.value.g - rgb.g <= 2
      && -2 <= state.color.value.b - rgb.b <= 2
    case ColorTempCommand(kelvin) => state.kelvin.Some? && -150 <= state.kelvin.value - kelvin <= 150
    case OtherCommand => true
  }

  predicate Plain(device: Device) {
    device.isLight && !device.isGroup && !device.decodesKettleFrames
  }

  /** A known plain light heard over MQTT, whose known state does not already show the command, unless it is a
      power-on. */
  predicate Confirmable(command: Command, view: View) {
    && command != PowerCommand(true)
    && view.device.Some? && Plain(view.device.value)
    && view.heardOverMqtt
    && view.state.Some? && !AlreadyShown(view.state.value, command)
  }

  predicate Holds(c: Pending, device: DeviceId, command: Command) {
    c.device == device && c.command == command && !c.hasReport && !c.eventSet
  }

  /** prepare hands out a confirm exactly for a confirmable command; it holds that command, has heard nothing,
      and remembers the field's value in the state before. Nothing else can make one. */
  lemma PreparesIff(cfg: Config, s: State, device: DeviceId, command: Command, view: View)
    requires WellFormed(s)
    ensures var s', n := Step(cfg, s, Prepare(device, command, view)), |s.confirms|;
      if Confirmable(command, view) then
        && |s'.confirms| == n + 1 && s'.confirms[..n] == s.confirms
        && Holds(s'.confirms[n], device, command)
        && s'.confirms[n].previous == StateValue(view.state.value, s'.confirms[n].field)
        && s'.log == s.log + [Prepared(device, s'.confirms[n].field, Some(n))]
      else
        && s'.confirms == s.confirms
        && (if command.OtherCommand? then s' == s
            else s'.log == s.log + [Prepared(device, CommandField(command).value.0, None)])
  {
    hide CancelFields;
    if CommandField(command).Some? {
      CancelFieldsMoves(s, device, SupersedesInOrder(CommandField(command).value.0), 0);
    }
  }
}
