/** The confirm-and-resend protocol as a step machine (the CommandConfirmer of command_confirm.py).
    One step is the code between two awaits; the environment picks every interleaving. */
module CommandConfirm {
  import opened ConfirmValues

  type Key = (DeviceId, Field)

  datatype Counter = Confirmed | Resent | Unconfirmed | Unverified | SkippedBudget | Superseded

  /** How a task is accounted for: not yet, under one counter, or never. */
  datatype Outcome = Open | Counted(counter: Counter) | Dropped

  /** Where a task is suspended. Unwinding: cancelled at an await, its finally block still to run. */
  datatype Phase = Created | FirstWait | Querying | SecondWait | Resending | Unwinding | Finished

  /** A PendingConfirm object; its position in State.confirms is its identity. */
  datatype Pending = Pending(
    device: DeviceId, command: Command, field: Field, wanted: Value, previous: Value,
    reported: Value, hasReport: bool, eventSet: bool)
  {
    function Key(): Key { (device, field) }
  }

  datatype Task = Task(confirm: nat, key: Key, phase: Phase, outcome: Outcome)

  /** What the confirmer was told and what it sent, in order. */
  datatype Entry =
    | Prepared(device: DeviceId, field: Field, confirm: Option<nat>)
    | Started(task: nat)
    | Reported(device: DeviceId, values: map<Field, Value>)
    | Queried(task: nat)
    | SentAgain(task: nat, reported: Value)

  /** The table maps a key to the running task of the PendingConfirm stored under it. */
  datatype State = State(
    table: map<Key, nat>,
    confirms: seq<Pending>,
    tasks: seq<Task>,
    counters: map<(DeviceId, Counter), nat>,
    log: seq<Entry>)

  /** window and query_wait of the constructor. */
  datatype Config = Config(window: real, queryWait: real) {
    function FirstWaitSeconds(): real {
      if queryWait < window then queryWait else window
    }
  }

  /** What the coordinator's hooks answer: yes, no, or an exception. */
  datatype Answer = Yes | No | Raised

  /** What prepare reads from the coordinator. */
  datatype View = View(device: Option<Device>, heardOverMqtt: bool, state: Option<DeviceState>)

  datatype Event =
    | Prepare(device: DeviceId, command: Command, view: View)
    | Start(confirm: nat)
    | Report(device: DeviceId, data: Push)
    | CancelAll
    | Begin(task: nat, budget: Answer)
    | Wake(task: nat, budget: Answer)
    | QueryReturned(task: nat, raised: bool, budget: Answer)
    | ResendReturned(task: nat, answer: Answer)
    | Unwind(task: nat)
    | Kill(task: nat)

  const INIT := State(map[], [], [], map[], [])

  predicate Live(phase: Phase) {
    !phase.Unwinding? && !phase.Finished?
  }

  /** Every reference in the state resolves. */
  ghost predicate WellFormed(s: State) {
    && (forall k <- s.table :: s.table[k] < |s.tasks| && s.tasks[s.table[k]].key == k)
    && (forall t: nat | t < |s.tasks| ::
          s.tasks[t].confirm < |s.confirms| && s.tasks[t].key == s.confirms[s.tasks[t].confirm].Key())
  }

  // ---------- cancelling, counting, finishing ----------

  function CountOf(s: State, device: DeviceId, c: Counter): nat {
    if (device, c) in s.counters then s.counters[(device, c)] else 0
  }

  function Count(s: State, device: DeviceId, c: Counter): State {
    s.(counters := s.counters[(device, c) := CountOf(s, device, c) + 1])
  }

  function SetTask(s: State, t: nat, phase: Phase, outcome: Outcome): State
    requires t < |s.tasks|
  {
    s.(tasks := s.tasks[t := s.tasks[t].(phase := phase, outcome := outcome)])
  }

  function CancelledPhase(phase: Phase): Phase {
    if phase.Created? || phase.Finished? then Finished else Unwinding
  }

  function CancelKey(s: State, key: Key, count: bool): (s': State)
    requires WellFormed(s)
    ensures WellFormed(s')
  {
    if key !in s.table then s
    else
      var t := s.table[key];
      var s1 := SetTask(s.(table := s.table - {key}), t, CancelledPhase(s.tasks[t].phase),
                        if count then Counted(Superseded) else Dropped);
      if count then Count(s1, key.0, Superseded) else s1
  }

  function CancelFields(s: State, device: DeviceId, fields: seq<Field>): (s': State)
    requires WellFormed(s)
    ensures WellFormed(s')
    decreases fields
  {
    if fields == [] then s
    else CancelFields(CancelKey(s, (device, fields[0]), true), device, fields[1..])
  }

  predicate InTable(s: State, t: nat)
    requires t < |s.tasks|
  {
    s.tasks[t].key in s.table && s.table[s.tasks[t].key] == t
  }

  /** The entries of some keys go, and nothing is counted. */
  function DropKeys(s: State, keys: set<Key>): (s': State)
    requires WellFormed(s)
    ensures WellFormed(s')
  {
    s.(table := s.table - keys,
       tasks := seq(|s.tasks|, t requires 0 <= t < |s.tasks| =>
         if InTable(s, t) && s.tasks[t].key in keys
         then s.tasks[t].(phase := CancelledPhase(s.tasks[t].phase), outcome := Dropped)
         else s.tasks[t]))
  }

  /** Entry unload: every entry goes. */
  function DropAll(s: State): (s': State)
    requires WellFormed(s)
    ensures WellFormed(s') && s'.table == map[]
  {
    DropKeys(s, s.table.Keys)
  }

  /** The finally block: delete the table entry when it still holds this PendingConfirm. An
      entry whose own task was killed before it ran leaves the books here. */
  function Release(s: State, t: nat): (s': State)
    requires WellFormed(s) && t < |s.tasks|
    ensures WellFormed(s') && |s'.tasks| == |s.tasks|
  {
    var key := s.tasks[t].key;
    if key in s.table && s.tasks[s.table[key]].confirm == s.tasks[t].confirm then
      var u := s.table[key];
      var s1 := s.(table := s.table - {key});
      if s.tasks[u].phase.Finished? && s.tasks[u].outcome.Open? then SetTask(s1, u, Finished, Dropped) else s1
    else s
  }

  function Finish(s: State, t: nat, outcome: Outcome): (s': State)
    requires WellFormed(s) && t < |s.tasks|
    ensures WellFormed(s') && |s'.tasks| == |s.tasks|
  {
    var s1 := SetTask(s, t, Finished, outcome);
    var s2 := if outcome.Counted? then Count(s1, s.tasks[t].key.0, outcome.counter) else s1;
    Release(s2, t)
  }

  // ---------- what the coordinator calls ----------

  /** prepare: cancel what the command makes stale, then snapshot the value before it. */
  function Snapshot(device: DeviceId, command: Command, view: View): Option<Pending> {
    if !Eligible(view.device, command) || !view.heardOverMqtt || view.state.None? then None
    else
      var (field, wanted) := CommandField(command).value;
      var previous := StateValue(view.state.value, field);
      if Matches(previous, wanted) then None
      else Some(Pending(device, command, field, wanted, previous, Missing, false, false))
  }

  function DoPrepare(s: State, device: DeviceId, command: Command, view: View): (s': State)
    requires WellFormed(s)
    ensures WellFormed(s')
  {
    match CommandField(command)
    case None => s
    case Some((field, _)) =>
      var s1 := CancelFields(s, device, SupersedesInOrder(field));
      match Snapshot(device, command, view)
      case None => s1.(log := s1.log + [Prepared(device, field, None)])
      case Some(c) =>
        s1.(confirms := s1.confirms + [c], log := s1.log + [Prepared(device, field, Some(|s1.confirms|))])
  }

  function DoStart(s: State, p: nat): (s': State)
    requires WellFormed(s) && p < |s.confirms|
    ensures WellFormed(s')
  {
    var key := s.confirms[p].Key();
    var s1 := CancelKey(s, key, true);
    s1.(table := s1.table[key := |s1.tasks|],
        tasks := s1.tasks + [Task(p, key, Created, Open)],
        log := s1.log + [Started(|s1.tasks|)])
  }

  /** Whether confirm p is the one a report for its field reaches. */
  predicate Listening(s: State, p: nat)
    requires WellFormed(s) && p < |s.confirms|
  {
    var key := s.confirms[p].Key();
    key in s.table && s.tasks[s.table[key]].confirm == p
  }

  function DoReport(s: State, device: DeviceId, values: map<Field, Value>): (s': State)
    requires WellFormed(s)
    ensures WellFormed(s')
  {
    s.(confirms := seq(|s.confirms|, p requires 0 <= p < |s.confirms| =>
         var c := s.confirms[p];
         if c.device == device && c.field in values && Listening(s, p)
         then c.(reported := values[c.field], hasReport := true, eventSet := true)
         else c),
       log := s.log + [Reported(device, values)])
  }

  // ---------- the steps of one _async_confirm task ----------

  /** _settle up to its await. */
  function Settle(s: State, t: nat, budget: Answer): (s': State)
    requires WellFormed(s) && t < |s.tasks|
    ensures WellFormed(s') && |s'.tasks| == |s.tasks|
  {
    var c := s.confirms[s.tasks[t].confirm];
    if !c.hasReport then Finish(s, t, Counted(Unverified))
    else if Matches(c.reported, c.wanted) then Finish(s, t, Counted(Confirmed))
    else if !Matches(c.reported, c.previous) then Finish(s, t, Counted(Unverified))
    else match budget
      case Raised => Finish(s, t, Dropped)
      case No => Finish(s, t, Counted(SkippedBudget))
      case Yes => SetTask(s, t, Resending, s.tasks[t].outcome).(log := s.log + [SentAgain(t, c.reported)])
  }

  /** The report event is cleared and the rest of the window waited out. */
  function AfterQuery(cfg: Config, s: State, t: nat, budget: Answer): (s': State)
    requires WellFormed(s) && t < |s.tasks|
    ensures WellFormed(s') && |s'.tasks| == |s.tasks|
  {
    var p := s.tasks[t].confirm;
    var s1 := s.(confirms := s.confirms[p := s.confirms[p].(eventSet := false)]);
    if cfg.window - cfg.FirstWaitSeconds() <= 0.0 then Settle(s1, t, budget)
    else SetTask(s1, t, SecondWait, s.tasks[t].outcome)
  }

  function AfterFirstWait(cfg: Config, s: State, t: nat, budget: Answer): (s': State)
    requires WellFormed(s) && t < |s.tasks|
    ensures WellFormed(s') && |s'.tasks| == |s.tasks|
  {
    var c := s.confirms[s.tasks[t].confirm];
    if c.hasReport && Matches(c.reported, c.wanted) then Settle(s, t, budget)
    else if !c.hasReport then SetTask(s, t, Querying, s.tasks[t].outcome).(log := s.log + [Queried(t)])
    else AfterQuery(cfg, s, t, budget)
  }

  function DoBegin(cfg: Config, s: State, t: nat, budget: Answer): (s': State)
    requires WellFormed(s) && t < |s.tasks|
    ensures WellFormed(s') && |s'.tasks| == |s.tasks|
  {
    if cfg.FirstWaitSeconds() <= 0.0 || s.confirms[s.tasks[t].confirm].eventSet then AfterFirstWait(cfg, s, t, budget)
    else SetTask(s, t, FirstWait, s.tasks[t].outcome)
  }

  function DoUnwind(s: State, t: nat): (s': State)
    requires WellFormed(s) && t < |s.tasks|
    ensures WellFormed(s') && |s'.tasks| == |s.tasks|
  {
    var outcome := if s.tasks[t].outcome.Open? then Dropped else s.tasks[t].outcome;
    Release(SetTask(s, t, Finished, outcome), t)
  }

  /** Cancelled from outside. A task that never ran leaves its table entry behind, so the entry
      (when there is one) still stands for it. */
  function DoKill(s: State, t: nat): (s': State)
    requires WellFormed(s) && t < |s.tasks|
    ensures WellFormed(s') && |s'.tasks| == |s.tasks|
  {
    var phase := CancelledPhase(s.tasks[t].phase);
    SetTask(s, t, phase, if phase.Finished? && !InTable(s, t) then Dropped else s.tasks[t].outcome)
  }

  predicate At(s: State, t: nat, phase: Phase) {
    t < |s.tasks| && s.tasks[t].phase == phase
  }

  /** One step of the machine; an event that cannot happen in this state changes nothing. */
  function Step(cfg: Config, s: State, e: Event): (s': State)
    requires WellFormed(s)
    ensures WellFormed(s')
  {
    match e
    case Prepare(device, command, view) => DoPrepare(s, device, command, view)
    case Start(p) => if p < |s.confirms| then DoStart(s, p) else s
    case Report(device, data) => DoReport(s, device, ReportValues(data))
    case CancelAll => DropAll(s)
    case Begin(t, budget) => if At(s, t, Created) then DoBegin(cfg, s, t, budget) else s
    case Wake(t, budget) =>
      if At(s, t, FirstWait) then AfterFirstWait(cfg, s, t, budget)
      else if At(s, t, SecondWait) then Settle(s, t, budget)
      else s
    case QueryReturned(t, raised, budget) =>
      if !At(s, t, Querying) then s
      else if raised then Finish(s, t, Dropped)
      else AfterQuery(cfg, s, t, budget)
    case ResendReturned(t, answer) =>
      if !At(s, t, Resending) then s
      else Finish(s, t, match answer
                        case Yes => Counted(Resent)
                        case No => Counted(Unconfirmed)
                        case Raised => Dropped)
    case Unwind(t) => if At(s, t, Unwinding) then DoUnwind(s, t) else s
    case Kill(t) => if t < |s.tasks| && Live(s.tasks[t].phase) then DoKill(s, t) else s
  }

  function Run(cfg: Config, events: seq<Event>): (s: State)
    ensures WellFormed(s)
  {
    if events == [] then INIT
    else Step(cfg, Run(cfg, events[..|events| - 1]), events[|events| - 1])
  }
}
