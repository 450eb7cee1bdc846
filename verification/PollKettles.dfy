/** A kettle's history as the scheduler sees it: pushes, commands and cloud reads, and what they make of the
    poll that must not be skipped (coordinator.py, kettle/manager.py). */
module PollKettles {
  import opened PollScheduler
  import opened RequestBudget

  /** The fields a change is judged by: power, and the others as one number. */
  datatype Look = Look(on: bool, other: int)

  /** The state held for the kettle; unit says whether a cloud read has declared its unit. */
  datatype Held = Held(look: Look, unit: bool)

  datatype Entry = Read(changed: bool, declared: bool, at: real) | Commanded(at: real)

  datatype State = State(
    now: real,
    held: Option<Held>,
    changedAt: Option<real>,
    commandAt: Option<real>,
    log: seq<Entry>)

  datatype Event =
    | Wait(seconds: real)
    | Push(look: Look)
    | Command(look: Look)
    | CommitRead(look: Look, declares: bool)
    | CommitEmpty

  const INIT: State := State.State(0.0, None, None, None, [])
  const EMPTY := Look(false, 0)

  predicate Unit(s: State) {
    s.held.Some? && s.held.value.unit
  }

  /** A committed cloud read: stamped as a change when it differs from the state held before (_note_state_change). */
  function DoRead(s: State, look: Look, declares: bool): State {
    var changed := s.held.Some? && s.held.value.look != look;
    s.(held := Some(Held(look, declares || Unit(s))),
       changedAt := if changed then Some(s.now) else s.changedAt,
       log := s.log + [Read(changed, declares, s.now)])
  }

  /** A push or a command changes the state in place and stamps no change; a push can create it. A refused
      first fetch commits an empty state. */
  function Step(s: State, e: Event): State {
    match e
    case Wait(seconds) => if seconds >= 0.0 then s.(now := s.now + seconds) else s
    case Push(look) => s.(held := Some(Held(look, Unit(s))))
    case Command(look) =>
      s.(held := if s.held.Some? then Some(Held(look, Unit(s))) else None, commandAt := Some(s.now), log := s.log + [Commanded(s.now)])
    case CommitRead(look, declares) => DoRead(s, look, declares)
    case CommitEmpty => if s.held.None? then s.(held := Some(Held(EMPTY, false))) else s
  }

  function Run(events: seq<Event>): State {
    if events == [] then INIT else Step(Run(events[..|events| - 1]), events[|events| - 1])
  }

  function Since(s: State, at: Option<real>): Option<real> {
    if at.Some? then Some(s.now - at.value) else None
  }

  /** What a cycle finds out about the kettle now; evidence is what else may tell its unit (an option, the
      account, its model). */
  function FactsOf(s: State, crc: nat, evidence: bool, heats: bool, budgetTight: bool, localAge: Option<real>): Facts {
    Facts(crc, s.held.Some?, Some(Kettle(evidence || Unit(s), heats, budgetTight)), localAge,
          s.held.Some? && !s.held.value.look.on, Since(s, s.changedAt), Since(s, s.commandAt))
  }

  // ---------- reading the log ----------

  /** When a cloud read last differed from the state held before it. */
  function LastChange(log: seq<Entry>): Option<real> {
    if log == [] then None
    else
      var last := log[|log| - 1];
      if last.Read? && last.changed then Some(last.at) else LastChange(log[..|log| - 1])
  }

  function LastCommand(log: seq<Entry>): Option<real> {
    if log == [] then None
    else if log[|log| - 1].Commanded? then Some(log[|log| - 1].at)
    else LastCommand(log[..|log| - 1])
  }

  /** Some cloud read declared the unit. */
  predicate Declared(log: seq<Entry>) {
    exists entry <- log :: entry.Read? && entry.declared
  }

  predicate NoReads(log: seq<Entry>) {
    forall entry <- log :: !entry.Read?
  }

  predicate Agrees(s: State) {
    && s.changedAt == LastChange(s.log) && s.commandAt == LastCommand(s.log)
    && (Unit(s) <==> Declared(s.log))
    && (s.commandAt.Some? ==> s.commandAt.value <= s.now)
  }

  lemma LogAdd(log: seq<Entry>, entry: Entry)
    ensures LastChange(log + [entry]) == if entry.Read? && entry.changed then Some(entry.at) else LastChange(log)
    ensures LastCommand(log + [entry]) == if entry.Commanded? then Some(entry.at) else LastCommand(log)
    ensures Declared(log + [entry]) <==> Declared(log) || (entry.Read? && entry.declared)
  {
    assert (log + [entry])[..|log|] == log;
    if entry.Read? && entry.declared { assert entry in log + [entry]; }
    if Declared(log) {
      var e :| e in log && e.Read? && e.declared;
      assert e in log + [entry];
    }
  }

  lemma StepAgrees(s: State, e: Event)
    requires Agrees(s)
    ensures Agrees(Step(s, e))
  {
    hide LastChange, LastCommand, Declared;
    var next := Step(s, e);
    if |next.log| > |s.log| { LogAdd(s.log, next.log[|s.log|]); }
  }

  lemma {:induction false} RunAgrees(events: seq<Event>)
    ensures Agrees(Run(events))
  {
    hide Step;
    if events != [] {
      RunAgrees(events[..|events| - 1]);
      StepAgrees(Run(events[..|events| - 1]), events[|events| - 1]);
    }
  }

  lemma {:induction false} NoReadsNoChange(log: seq<Entry>)
    requires NoReads(log)
    ensures LastChange(log).None? && !Declared(log)
  {
    if log != [] {
      assert log[|log| - 1] in log;
      NoReadsNoChange(log[..|log| - 1]);
    }
  }

  predicate Shows(e: Event) {
    e.Push? || e.CommitRead? || e.CommitEmpty?
  }

  predicate EverShown(events: seq<Event>) {
    exists e <- events :: Shows(e)
  }

  /** Over every history: a state is held from the first push or committed read on, an empty one too; a command
      makes none. */
  lemma {:induction false} HeldIff(events: seq<Event>)
    ensures Run(events).held.Some? <==> EverShown(events)
  {
    if events != [] {
      var before, last := events[..|events| - 1], events[|events| - 1];
      HeldIff(before);
      assert events == before + [last];
      assert last in events;
      assert Run(events).held.Some? <==> Run(before).held.Some? || Shows(last);
      if EverShown(before) {
        var e :| e in before && Shows(e);
        assert e in events;
      }
    }
  }

  // ---------- the poll that must not be skipped ----------

  /** Idle by its history: off, a changed read at least half an hour ago and none since, no recent command. */
  predicate LongQuiet(s: State) {
    && s.held.Some? && !s.held.value.look.on
    && LastChange(s.log).Some? && s.now - LastChange(s.log).value >= IDLE_AFTER
    && !(LastCommand(s.log).Some? && s.now - LastCommand(s.log).value < COMMAND_WINDOW)
  }

  /** Over every history: a kettle that must be polled is never covered by a local reading; it is held back
      exactly when the install is over budget, its idle counter is not due, it is long quiet and nothing, no
      cloud read either, has told its unit. */
  lemma MustPollHeldBackIff(events: seq<Event>, t: Track, crc: nat, evidence: bool, heats: bool, budgetTight: bool,
                            localAge: Option<real>, window: real, over: bool)
    requires MustPoll(FactsOf(Run(events), crc, evidence, heats, budgetTight, localAge))
    ensures var s := Run(events);
      var f := FactsOf(s, crc, evidence, heats, budgetTight, localAge);
      && !Fresh(t, f, window)
      && (!Candidate(t, f, window, over) <==>
            over && CountOf(t, f) % IDLE_DIVISOR != 0 && LongQuiet(s) && !evidence && !Declared(s.log))
  {
    RunAgrees(events);
    hide Run, LastChange, LastCommand, Declared, CountOf, LocalReadingIsFresh;
  }

  /** So a heating kettle the budget can afford is always a candidate, and so is any that has not been read yet. */
  lemma HeatingOrUnreadIsCandidate(events: seq<Event>, t: Track, crc: nat, evidence: bool, heats: bool, budgetTight: bool,
                                   localAge: Option<real>, window: real, over: bool)
    requires MustPoll(FactsOf(Run(events), crc, evidence, heats, budgetTight, localAge))
    requires evidence || Declared(Run(events).log) || NoReads(Run(events).log)
    ensures Candidate(t, FactsOf(Run(events), crc, evidence, heats, budgetTight, localAge), window, over)
  {
    if NoReads(Run(events).log) { NoReadsNoChange(Run(events).log); }
    MustPollHeldBackIff(events, t, crc, evidence, heats, budgetTight, localAge, window, over);
    hide Run, Candidate, FactsOf, LastChange, LastCommand, Declared;
  }

  // ---------- a history that reaches the case ----------

  const C := Config(30, 500)
  const KETTLE := "kettle"

  lemma After(events: seq<Event>, e: Event) returns (more: seq<Event>)
    ensures more == events + [e] && Run(more) == Step(Run(events), e)
  {
    more := events + [e];
    assert more[..|events|] == events;
  }

  lemma RunNothing()
    ensures Run([]) == INIT
  {
  }

  /** A push makes the kettle known and on; its first cloud read says off and declares no unit; half an hour
      later the poll that should tell its unit is due, and over budget the first cycle holds it back. */
  lemma HeldBackRun() returns (events: seq<Event>)
    ensures var f := FactsOf(Run(events), 1, false, false, true, None);
      MustPoll(f) && KETTLE !in Candidates(C, Init(C), map[KETTLE := f])
  {
    RunNothing();
    hide Run;
    events := After([], Push(Look(true, 0)));
    events := After(events, CommitRead(Look(false, 0), false));
    events := After(events, Wait(1800.0));
    var facts := map[KETTLE := FactsOf(Run(events), 1, false, false, true, None)];
    assert |facts| == 1;
    assert Over(C, facts);
  }
}
