/** Control calls, their deferred LAN confirms and the power-off flag, interleaved (coordinator.py). */
module DeferredConfirm {

  type DeviceId = string
  type Kind = string

  datatype Command = Command(device: DeviceId, kind: Kind, powerOff: bool)

  /** What the LAN tier does with a command: nothing, a send that is its own confirmation, or a send to confirm. */
  datatype LanOutcome = NotSent | SentWriteOnly | Sent

  datatype CallPhase = AwaitsBle | AwaitsConfirm | AwaitsCloud | Returned

  /** A running control call; stamp is the generation it was issued under, issued its place in the log. */
  datatype Call = Call(command: Command, defer: bool, stamp: nat, issued: nat, phase: CallPhase)

  datatype Outcome = Confirmed | Overtaken | FellBack | Cut

  datatype TaskPhase = Confirming | InCloud | Ended(outcome: Outcome)

  /** A deferred confirm; captured is the generation read when it was created. */
  datatype Task = Task(command: Command, stamp: nat, issued: nat, captured: nat, created: nat, phase: TaskPhase)

  datatype Entry =
    | Issued(device: DeviceId, kind: Kind)
    | LanSend(call: nat)
    | Created(task: nat)
    | Superseded(task: nat)
    | EntersCloud(task: nat)

  datatype State = State(
    generations: map<(DeviceId, Kind), nat>,
    pending: set<DeviceId>,
    deferred: set<DeviceId>,
    calls: seq<Call>,
    tasks: seq<Task>,
    log: seq<Entry>)

  datatype Event =
    | Issue(command: Command, defer: bool, ble: bool, lan: LanOutcome)
    | BleDone(call: nat, sent: bool, lan: LanOutcome)
    | InlineConfirmDone(call: nat, confirmed: bool)
    | CallCloudDone(call: nat)
    | AbortCall(call: nat)
    | TaskConfirmDone(task: nat, confirmed: bool)
    | TaskCloudDone(task: nat)
    | AbortTask(task: nat)

  const INIT := State(map[], {}, {}, [], [], [])

  function Generation(s: State, d: DeviceId, k: Kind): nat {
    if (d, k) in s.generations then s.generations[(d, k)] else 0
  }

  function SetCall(s: State, id: nat, phase: CallPhase): State
    requires id < |s.calls|
  {
    s.(calls := s.calls[id := s.calls[id].(phase := phase)])
  }

  /** The call returns: its finally drops the flag unless a deferred confirm owns it. */
  function EndCall(s: State, id: nat): State
    requires id < |s.calls|
  {
    var command := s.calls[id].command;
    var ended := SetCall(s, id, Returned);
    if command.powerOff && command.device !in s.deferred then ended.(pending := s.pending - {command.device}) else ended
  }

  /** Hand the write over to a deferred confirm. */
  function CreateTask(s: State, id: nat): State
    requires id < |s.calls|
  {
    var c := s.calls[id];
    var d := c.command.device;
    s.(deferred := if c.command.powerOff then s.deferred + {d} else s.deferred,
       tasks := s.tasks + [Task(c.command, c.stamp, c.issued, Generation(s, d, c.command.kind), |s.log|, Confirming)],
       log := s.log + [Created(|s.tasks|)])
  }

  /** The LAN tier and what follows it, up to the next await. */
  function Dispatch(s: State, id: nat, lan: LanOutcome): State
    requires id < |s.calls|
  {
    if lan.NotSent? then SetCall(s, id, AwaitsCloud)
    else
      var sent := s.(log := s.log + [LanSend(id)]);
      if lan.SentWriteOnly? then EndCall(sent, id)
      else if s.calls[id].defer then EndCall(CreateTask(sent, id), id)
      else SetCall(sent, id, AwaitsConfirm)
  }

  /** _async_control_device up to its first await. */
  function DoIssue(s: State, command: Command, defer: bool, ble: bool, lan: LanOutcome): State {
    var d, stamp := command.device, Generation(s, command.device, command.kind) + 1;
    var issued := s.(
      pending := if command.powerOff then s.pending + {d} else s.pending,
      generations := s.generations[(d, command.kind) := stamp],
      calls := s.calls + [Call(command, defer, stamp, |s.log|, AwaitsBle)],
      log := s.log + [Issued(d, command.kind)]);
    if ble then issued else Dispatch(issued, |s.calls|, lan)
  }

  function SetTask(s: State, id: nat, phase: TaskPhase): State
    requires id < |s.tasks|
  {
    s.(tasks := s.tasks[id := s.tasks[id].(phase := phase)])
  }

  /** The finally of a deferred confirm: whoever ends while the device is marked deferred takes mark and flag away. */
  function EndTask(s: State, id: nat, outcome: Outcome): State
    requires id < |s.tasks|
  {
    var d := s.tasks[id].command.device;
    var ended := SetTask(s, id, Ended(outcome));
    if d in s.deferred then ended.(deferred := s.deferred - {d}, pending := s.pending - {d}) else ended
  }

  /** _async_confirm_lan_write_deferred, once its confirm is over. */
  function DoTaskConfirm(s: State, id: nat, confirmed: bool): State
    requires id < |s.tasks|
  {
    var t := s.tasks[id];
    if confirmed then EndTask(s, id, Confirmed)
    else if Generation(s, t.command.device, t.command.kind) != t.captured then
      EndTask(s.(log := s.log + [Superseded(id)]), id, Overtaken)
    else SetTask(s.(log := s.log + [EntersCloud(id)]), id, InCloud)
  }

  predicate LiveCall(s: State, id: nat) {
    id < |s.calls| && !s.calls[id].phase.Returned?
  }

  predicate LiveTask(s: State, id: nat) {
    id < |s.tasks| && !s.tasks[id].phase.Ended?
  }

  function Step(s: State, e: Event): State {
    match e
    case Issue(command, defer, ble, lan) => DoIssue(s, command, defer, ble, lan)
    case BleDone(id, sent, lan) =>
      if !LiveCall(s, id) || !s.calls[id].phase.AwaitsBle? then s
      else if sent then EndCall(s, id)
      else Dispatch(s, id, lan)
    case InlineConfirmDone(id, confirmed) =>
      if !LiveCall(s, id) || !s.calls[id].phase.AwaitsConfirm? then s
      else if confirmed then EndCall(s, id)
      else SetCall(s, id, AwaitsCloud)
    case CallCloudDone(id) => if LiveCall(s, id) && s.calls[id].phase.AwaitsCloud? then EndCall(s, id) else s
    case AbortCall(id) => if LiveCall(s, id) then EndCall(s, id) else s
    case TaskConfirmDone(id, confirmed) =>
      if LiveTask(s, id) && s.tasks[id].phase.Confirming? then DoTaskConfirm(s, id, confirmed) else s
    case TaskCloudDone(id) => if LiveTask(s, id) && s.tasks[id].phase.InCloud? then EndTask(s, id, FellBack) else s
    case AbortTask(id) => if LiveTask(s, id) then EndTask(s, id, Cut) else s
  }

  function Run(events: seq<Event>): State {
    if events == [] then INIT else Step(Run(events[..|events| - 1]), events[|events| - 1])
  }

  // ---------- the log ----------

  /** Commands of a kind issued for a device. */
  function Issues(log: seq<Entry>, d: DeviceId, k: Kind): nat {
    if log == [] then 0
    else Issues(log[..|log| - 1], d, k) + if log[|log| - 1] == Issued(d, k) then 1 else 0
  }

  lemma IssuesAdd(log: seq<Entry>, entry: Entry, d: DeviceId, k: Kind)
    ensures Issues(log + [entry], d, k) == Issues(log, d, k) + if entry == Issued(d, k) then 1 else 0
  {
    assert (log + [entry])[..|log|] == log;
  }

  predicate IssuedBetween(log: seq<Entry>, d: DeviceId, k: Kind, i: nat, j: nat)
    requires i <= j <= |log|
  {
    exists n | i <= n < j :: log[n] == Issued(d, k)
  }

  /** The count tells whether a command of the kind was issued in between. */
  lemma {:induction false} CountMoves(log: seq<Entry>, d: DeviceId, k: Kind, i: nat, j: nat)
    requires i <= j <= |log|
    ensures Issues(log[..i], d, k) <= Issues(log[..j], d, k)
    ensures Issues(log[..i], d, k) != Issues(log[..j], d, k) <==> IssuedBetween(log, d, k, i, j)
    decreases j - i
  {
    if i < j {
      CountMoves(log, d, k, i, j - 1);
      assert log[..j][..j - 1] == log[..j - 1];
      if IssuedBetween(log, d, k, i, j - 1) {
        var n :| i <= n < j - 1 && log[n] == Issued(d, k);
      }
    }
  }

  // ---------- what holds in every reachable state ----------

  predicate CallOk(log: seq<Entry>, c: Call) {
    var d, k := c.command.device, c.command.kind;
    && c.issued < |log| && log[c.issued] == Issued(d, k)
    && c.stamp == Issues(log[..c.issued + 1], d, k)
  }

  predicate TaskOk(log: seq<Entry>, id: nat, t: Task) {
    var d, k := t.command.device, t.command.kind;
    && t.issued < t.created < |log|
    && log[t.issued] == Issued(d, k) && log[t.created] == Created(id)
    && t.stamp == Issues(log[..t.issued + 1], d, k)
    && t.captured == Issues(log[..t.created], d, k)
  }

  /** A task's verdict compared the count at that moment with the captured one. */
  predicate EntryOk(log: seq<Entry>, tasks: seq<Task>, j: nat)
    requires j < |log|
  {
    match log[j]
    case EntersCloud(id) => id < |tasks| && tasks[id].created < j && Count(log, tasks[id], j) == tasks[id].captured
    case Superseded(id) => id < |tasks| && tasks[id].created < j && Count(log, tasks[id], j) != tasks[id].captured
    case _ => true
  }

  function Count(log: seq<Entry>, t: Task, j: nat): nat
    requires j <= |log|
  {
    Issues(log[..j], t.command.device, t.command.kind)
  }

  ghost predicate Sound(s: State) {
    && (forall d, k :: Generation(s, d, k) == Issues(s.log, d, k))
    && (forall id | 0 <= id < |s.calls| :: CallOk(s.log, s.calls[id]))
    && (forall id | 0 <= id < |s.tasks| :: TaskOk(s.log, id, s.tasks[id]))
    && (forall j | 0 <= j < |s.log| :: EntryOk(s.log, s.tasks, j))
  }

  /** Appending an entry keeps what was known of the older ones. */
  lemma LogGrows(s: State, entry: Entry)
    requires Sound(s)
    ensures var log := s.log + [entry];
      && (forall id | 0 <= id < |s.calls| :: CallOk(log, s.calls[id]))
      && (forall id | 0 <= id < |s.tasks| :: TaskOk(log, id, s.tasks[id]))
      && (forall j | 0 <= j < |s.log| :: EntryOk(log, s.tasks, j))
  {
    hide Issues, Generation;
    var log := s.log + [entry];
    forall id | 0 <= id < |s.calls| ensures CallOk(log, s.calls[id]) {
      assert CallOk(s.log, s.calls[id]);
      assert log[..s.calls[id].issued + 1] == s.log[..s.calls[id].issued + 1];
    }
    forall id | 0 <= id < |s.tasks| ensures TaskOk(log, id, s.tasks[id]) {
      assert TaskOk(s.log, id, s.tasks[id]);
      assert log[..s.tasks[id].issued + 1] == s.log[..s.tasks[id].issued + 1];
      assert log[..s.tasks[id].created] == s.log[..s.tasks[id].created];
    }
    forall j | 0 <= j < |s.log| ensures EntryOk(log, s.tasks, j) {
      assert EntryOk(s.log, s.tasks, j) && log[..j] == s.log[..j];
    }
  }

  lemma Append(s: State, entry: Entry)
    requires Sound(s) && !entry.Issued?
    requires EntryOk(s.log + [entry], s.tasks, |s.log|)
    ensures Sound(s.(log := s.log + [entry]))
  {
    var next := s.(log := s.log + [entry]);
    LogGrows(s, entry);
    forall d, k ensures Generation(next, d, k) == Issues(next.log, d, k) {
      IssuesAdd(s.log, entry, d, k);
      assert Generation(s, d, k) == Issues(s.log, d, k);
    }
    hide Issues, Generation, EntryOk, TaskOk, CallOk;
  }

  /** Sound does not look at phases or flags. */
  predicate SameButPhases(s: State, next: State) {
    && next.log == s.log && next.generations == s.generations
    && |next.calls| == |s.calls| && |next.tasks| == |s.tasks|
    && (forall id | 0 <= id < |s.calls| :: next.calls[id] == s.calls[id].(phase := next.calls[id].phase))
    && (forall id | 0 <= id < |s.tasks| :: next.tasks[id] == s.tasks[id].(phase := next.tasks[id].phase))
  }

  lemma PhasesDoNotMatter(s: State, next: State)
    requires Sound(s) && SameButPhases(s, next)
    ensures Sound(next)
  {
    hide Issues;
    forall d, k ensures Generation(next, d, k) == Issues(next.log, d, k) {
      assert Generation(s, d, k) == Issues(s.log, d, k);
    }
    forall id | 0 <= id < |next.calls| ensures CallOk(next.log, next.calls[id]) {
      assert CallOk(s.log, s.calls[id]);
    }
    forall id | 0 <= id < |next.tasks| ensures TaskOk(next.log, id, next.tasks[id]) {
      assert TaskOk(s.log, id, s.tasks[id]);
    }
    forall j | 0 <= j < |next.log| ensures EntryOk(next.log, next.tasks, j) {
      assert EntryOk(s.log, s.tasks, j);
    }
  }

  lemma IssueSound(s: State, command: Command, defer: bool)
    requires Sound(s)
    ensures Sound(DoIssue(s, command, defer, true, NotSent))
  {
    var d, k := command.device, command.kind;
    var entry, next := Issued(d, k), DoIssue(s, command, defer, true, NotSent);
    LogGrows(s, entry);
    forall e, j ensures Generation(next, e, j) == Issues(next.log, e, j) {
      IssuesAdd(s.log, entry, e, j);
      assert Generation(s, e, j) == Issues(s.log, e, j);
    }
    assert CallOk(next.log, next.calls[|s.calls|]) by {
      assert next.log[..|next.log|] == next.log;
      IssuesAdd(s.log, entry, d, k);
      assert Generation(s, d, k) == Issues(s.log, d, k);
    }
    hide Issues, Generation, EntryOk, TaskOk, CallOk;
    forall id | 0 <= id < |next.calls| ensures CallOk(next.log, next.calls[id]) {
      if id < |s.calls| { assert next.calls[id] == s.calls[id]; }
    }
    assert EntryOk(next.log, next.tasks, |s.log|) by { EntryPlain(next.log, next.tasks, |s.log|); }
  }

  lemma EntryPlain(log: seq<Entry>, tasks: seq<Task>, j: nat)
    requires j < |log| && !log[j].EntersCloud? && !log[j].Superseded?
    ensures EntryOk(log, tasks, j)
  {
  }

  lemma CreateSound(s: State, id: nat)
    requires Sound(s) && id < |s.calls|
    ensures Sound(CreateTask(s, id))
  {
    var next := CreateTask(s, id);
    var task, entry := next.tasks[|s.tasks|], Created(|s.tasks|);
    LogGrows(s, entry);
    forall d, k ensures Generation(next, d, k) == Issues(next.log, d, k) {
      IssuesAdd(s.log, entry, d, k);
      assert Generation(s, d, k) == Issues(s.log, d, k);
    }
    assert TaskOk(next.log, |s.tasks|, task) by {
      var c := s.calls[id];
      assert CallOk(s.log, c) && next.log[..c.issued + 1] == s.log[..c.issued + 1];
      assert next.log[..|s.log|] == s.log;
      assert Generation(s, c.command.device, c.command.kind) == Issues(s.log, c.command.device, c.command.kind);
      hide Issues, Generation;
    }
    hide Issues, Generation, TaskOk, CallOk;
    forall j | 0 <= j < |next.log| ensures EntryOk(next.log, next.tasks, j) {
      if j < |s.log| {
        assert EntryOk(next.log, s.tasks, j);
      }
    }
    forall n | 0 <= n < |next.tasks| ensures TaskOk(next.log, n, next.tasks[n]) {
      if n < |s.tasks| { assert next.tasks[n] == s.tasks[n]; }
    }
  }

  lemma DispatchSound(s: State, id: nat, lan: LanOutcome)
    requires Sound(s) && id < |s.calls|
    ensures Sound(Dispatch(s, id, lan))
  {
    hide Sound, Generation, CreateTask;
    if lan.NotSent? {
      PhasesDoNotMatter(s, SetCall(s, id, AwaitsCloud));
    } else {
      var sent := s.(log := s.log + [LanSend(id)]);
      Append(s, LanSend(id));
      if lan.SentWriteOnly? {
        PhasesDoNotMatter(sent, EndCall(sent, id));
      } else if s.calls[id].defer {
        CreateSound(sent, id);
        CreateKeepsCalls(sent, id);
        PhasesDoNotMatter(CreateTask(sent, id), EndCall(CreateTask(sent, id), id));
      } else {
        PhasesDoNotMatter(sent, SetCall(sent, id, AwaitsConfirm));
      }
    }
  }

  lemma CreateKeepsCalls(s: State, id: nat)
    requires id < |s.calls|
    ensures CreateTask(s, id).calls == s.calls
  {
  }

  lemma VerdictSound(s: State, id: nat, confirmed: bool)
    requires Sound(s) && id < |s.tasks|
    ensures Sound(DoTaskConfirm(s, id, confirmed))
  {
    var t := s.tasks[id];
    assert TaskOk(s.log, id, t);
    assert Generation(s, t.command.device, t.command.kind) == Issues(s.log, t.command.device, t.command.kind);
    if confirmed {
      hide Sound;
      PhasesDoNotMatter(s, DoTaskConfirm(s, id, confirmed));
    } else {
      var entry := if Generation(s, t.command.device, t.command.kind) != t.captured then Superseded(id) else EntersCloud(id);
      assert (s.log + [entry])[..|s.log|] == s.log;
      Append(s, entry);
      hide Sound;
      PhasesDoNotMatter(s.(log := s.log + [entry]), DoTaskConfirm(s, id, confirmed));
    }
  }

  lemma StepSound(s: State, e: Event)
    requires Sound(s)
    ensures Sound(Step(s, e))
  {
    hide Sound, Dispatch, DoTaskConfirm;
    match e
    case Issue(command, defer, ble, lan) =>
      IssueSound(s, command, defer);
      if !ble { DispatchSound(DoIssue(s, command, defer, true, lan), |s.calls|, lan); }
    case BleDone(id, sent, lan) =>
      if LiveCall(s, id) && s.calls[id].phase.AwaitsBle? {
        if sent { PhasesDoNotMatter(s, EndCall(s, id)); } else { DispatchSound(s, id, lan); }
      }
    case TaskConfirmDone(id, confirmed) =>
      if LiveTask(s, id) && s.tasks[id].phase.Confirming? { VerdictSound(s, id, confirmed); }
    case _ => PhasesDoNotMatter(s, Step(s, e));
  }

  lemma {:induction false} RunSound(events: seq<Event>)
    ensures Sound(Run(events))
  {
    hide Step;
    if events != [] {
      RunSound(events[..|events| - 1]);
      StepSound(Run(events[..|events| - 1]), events[|events| - 1]);
    }
  }

  // ---------- the fallback is up to date ----------

  /** Over every run: a deferred write that falls back to the cloud does so with no command of its device and
      kind issued since its generation was captured; one that is superseded had such a command. Commands of
      other kinds never count. */
  lemma FallsBackIff(events: seq<Event>, j: nat)
    requires var log := Run(events).log; j < |log| && (log[j].EntersCloud? || log[j].Superseded?)
    ensures Run(events).log[j].task < |Run(events).tasks|
    ensures var s := Run(events);
      var t := s.tasks[s.log[j].task];
      && t.created < j
      && (s.log[j].Superseded? <==> IssuedBetween(s.log, t.command.device, t.command.kind, t.created, j))
  {
    var s := Run(events);
    RunSound(events);
    assert EntryOk(s.log, s.tasks, j);
    var t := s.tasks[s.log[j].task];
    assert TaskOk(s.log, s.log[j].task, t);
    hide Sound, Run;
    CountMoves(s.log, t.command.device, t.command.kind, t.created, j);
  }

  /** What an entry into the cloud tier says about its task. */
  lemma VerdictFacts(s: State, j: nat)
    requires Sound(s) && j < |s.log| && s.log[j].EntersCloud?
    ensures s.log[j].task < |s.tasks|
    ensures var t := s.tasks[s.log[j].task];
      && t.issued < t.created < j
      && Issues(s.log[..j], t.command.device, t.command.kind) == t.captured
      && Issues(s.log[..t.created], t.command.device, t.command.kind) == t.captured
      && Issues(s.log[..t.issued + 1], t.command.device, t.command.kind) == t.stamp
  {
    hide Issues;
    assert EntryOk(s.log, s.tasks, j);
    assert TaskOk(s.log, s.log[j].task, s.tasks[s.log[j].task]);
  }

  /** Whether a newer command was issued before the generation was captured at all. */
  predicate CapturedLate(t: Task) {
    t.captured != t.stamp
  }

  /** The generation is captured only after the command has been sent, which a BLE attempt can delay: so a
      fallback re-sends over a newer command of its kind exactly when one was issued between the command
      itself and the capture. */
  lemma StaleFallbackIff(events: seq<Event>, j: nat)
    requires var log := Run(events).log; j < |log| && log[j].EntersCloud?
    ensures Run(events).log[j].task < |Run(events).tasks|
    ensures var s := Run(events);
      var t := s.tasks[s.log[j].task];
      && t.issued + 1 <= t.created < j
      && (IssuedBetween(s.log, t.command.device, t.command.kind, t.issued + 1, j) <==> CapturedLate(t))
      && (CapturedLate(t) <==> IssuedBetween(s.log, t.command.device, t.command.kind, t.issued + 1, t.created))
  {
    hide Sound, Run, Issues, IssuedBetween;
    var s := Run(events);
    RunSound(events);
    VerdictFacts(s, j);
    var t := s.tasks[s.log[j].task];
    CountMoves(s.log, t.command.device, t.command.kind, t.issued + 1, t.created);
    CountMoves(s.log, t.command.device, t.command.kind, t.created, j);
    CountMoves(s.log, t.command.device, t.command.kind, t.issued + 1, j);
  }

  // ---------- exactly one outcome ----------

  function CloudEntries(log: seq<Entry>, id: nat): nat {
    if log == [] then 0 else CloudEntries(log[..|log| - 1], id) + if log[|log| - 1] == EntersCloud(id) then 1 else 0
  }

  function Supersessions(log: seq<Entry>, id: nat): nat {
    if log == [] then 0 else Supersessions(log[..|log| - 1], id) + if log[|log| - 1] == Superseded(id) then 1 else 0
  }

  lemma CountsAdd(log: seq<Entry>, entry: Entry, id: nat)
    ensures CloudEntries(log + [entry], id) == CloudEntries(log, id) + if entry == EntersCloud(id) then 1 else 0
    ensures Supersessions(log + [entry], id) == Supersessions(log, id) + if entry == Superseded(id) then 1 else 0
  {
    assert (log + [entry])[..|log|] == log;
  }

  /** What a task's phase says about its entries in the log. */
  predicate Accounted(s: State, id: nat) {
    var clouds, overtakings := CloudEntries(s.log, id), Supersessions(s.log, id);
    if id >= |s.tasks| then clouds == 0 && overtakings == 0
    else
      match s.tasks[id].phase
      case Confirming => clouds == 0 && overtakings == 0
      case InCloud => clouds == 1 && overtakings == 0
      case Ended(Confirmed) => clouds == 0 && overtakings == 0
      case Ended(Overtaken) => clouds == 0 && overtakings == 1
      case Ended(FellBack) => clouds == 1 && overtakings == 0
      case Ended(Cut) => clouds <= 1 && overtakings == 0
  }

  lemma AccountedAppend(s: State, entry: Entry, id: nat)
    requires Accounted(s, id) && !entry.EntersCloud? && !entry.Superseded?
    ensures Accounted(s.(log := s.log + [entry]), id)
  {
    CountsAdd(s.log, entry, id);
  }

  /** A new or unchanged list of tasks does not matter to a task's account, if the new one is confirming. */
  lemma AccountedTasks(s: State, next: State, id: nat)
    requires Accounted(s, id) && next.log == s.log
    requires next.tasks == s.tasks || (|next.tasks| == |s.tasks| + 1 && next.tasks[..|s.tasks|] == s.tasks && next.tasks[|s.tasks|].phase.Confirming?)
    ensures Accounted(next, id)
  {
    hide CloudEntries, Supersessions;
    if id < |s.tasks| { assert next.tasks[id] == next.tasks[..|s.tasks|][id] || next.tasks == s.tasks; }
  }

  lemma AccountedDispatch(s: State, call: nat, lan: LanOutcome, id: nat)
    requires Accounted(s, id) && call < |s.calls|
    ensures Accounted(Dispatch(s, call, lan), id)
  {
    hide Accounted, Generation;
    var next := Dispatch(s, call, lan);
    if lan.NotSent? {
      AccountedTasks(s, next, id);
    } else {
      var sent := s.(log := s.log + [LanSend(call)]);
      AccountedAppend(s, LanSend(call), id);
      if lan.Sent? && s.calls[call].defer {
        AccountedAppend(sent, Created(|s.tasks|), id);
        AccountedTasks(sent.(log := sent.log + [Created(|s.tasks|)]), next, id);
      } else {
        AccountedTasks(sent, next, id);
      }
    }
  }

  predicate EndedStays(s: State, next: State, id: nat) {
    id < |s.tasks| && s.tasks[id].phase.Ended? ==> id < |next.tasks| && next.tasks[id].phase == s.tasks[id].phase
  }

  lemma AccountedVerdict(s: State, task: nat, confirmed: bool, id: nat)
    requires Accounted(s, id) && LiveTask(s, task) && s.tasks[task].phase.Confirming?
    ensures Accounted(DoTaskConfirm(s, task, confirmed), id) && EndedStays(s, DoTaskConfirm(s, task, confirmed), id)
  {
    CountsAdd(s.log, EntersCloud(task), id);
    CountsAdd(s.log, Superseded(task), id);
    hide CloudEntries, Supersessions, Generation;
  }

  lemma AccountedStep(s: State, e: Event, id: nat)
    requires Accounted(s, id)
    ensures Accounted(Step(s, e), id) && EndedStays(s, Step(s, e), id)
  {
    hide Generation, DoTaskConfirm, Dispatch, CloudEntries, Supersessions;
    match e
    case Issue(command, defer, ble, lan) =>
      AccountedAppend(s, Issued(command.device, command.kind), id);
      var issued := DoIssue(s, command, defer, true, lan);
      assert Accounted(issued, id) && issued.tasks == s.tasks;
      if !ble {
        DispatchKeepsPhase(issued, |s.calls|, lan, id);
        AccountedDispatch(issued, |s.calls|, lan, id);
      }
    case BleDone(call, sent, lan) =>
      if LiveCall(s, call) && s.calls[call].phase.AwaitsBle? && !sent {
        hide Accounted;
        AccountedDispatch(s, call, lan, id);
        DispatchKeepsPhase(s, call, lan, id);
      }
    case TaskConfirmDone(task, confirmed) =>
      if LiveTask(s, task) && s.tasks[task].phase.Confirming? {
        hide Accounted, EndedStays;
        AccountedVerdict(s, task, confirmed, id);
      }
    case _ =>
  }

  lemma DispatchKeepsPhase(s: State, call: nat, lan: LanOutcome, id: nat)
    requires call < |s.calls|
    ensures id < |s.tasks| ==> id < |Dispatch(s, call, lan).tasks| && Dispatch(s, call, lan).tasks[id] == s.tasks[id]
  {
  }

  /** Over every run: each deferred write enters the cloud tier at most once, is superseded at most once, and
      when it has ended it was either confirmed, or superseded, or fell back after one entry, or was cut off. */
  lemma {:induction false} EachTaskAccounted(events: seq<Event>, id: nat)
    ensures Accounted(Run(events), id)
  {
    hide Step, Accounted;
    if events == [] {
      NothingAccounted(id);
    } else {
      EachTaskAccounted(events[..|events| - 1], id);
      AccountedStep(Run(events[..|events| - 1]), events[|events| - 1], id);
    }
  }

  lemma NothingAccounted(id: nat)
    ensures Accounted(INIT, id)
  {
  }

  /** An outcome, once reached, is final. */
  lemma {:induction false} OutcomeIsFinal(events: seq<Event>, more: seq<Event>, id: nat)
    requires id < |Run(events).tasks| && Run(events).tasks[id].phase.Ended?
    ensures id < |Run(events + more).tasks| && Run(events + more).tasks[id].phase == Run(events).tasks[id].phase
  {
    hide Step, Accounted;
    if more == [] {
      assert events + more == events;
    } else {
      var rest, last := more[..|more| - 1], more[|more| - 1];
      assert (events + more)[..|events + more| - 1] == events + rest;
      OutcomeIsFinal(events, rest, id);
      EachTaskAccounted(events + rest, id);
      AccountedStep(Run(events + rest), last, id);
    }
  }

  // ---------- over LAN once ----------

  function LanSends(log: seq<Entry>, id: nat): nat {
    if log == [] then 0 else LanSends(log[..|log| - 1], id) + if log[|log| - 1] == LanSend(id) then 1 else 0
  }

  lemma LanSendsAdd(log: seq<Entry>, entry: Entry, id: nat)
    ensures LanSends(log + [entry], id) == LanSends(log, id) + if entry == LanSend(id) then 1 else 0
  {
    assert (log + [entry])[..|log|] == log;
  }

  /** A call has sent nothing over LAN before its LAN tier, and one datagram at most after it. */
  predicate SentOnce(s: State, id: nat) {
    if id < |s.calls| && !s.calls[id].phase.AwaitsBle? then LanSends(s.log, id) <= 1 else LanSends(s.log, id) == 0
  }

  lemma DispatchSentOnce(s: State, call: nat, lan: LanOutcome, id: nat)
    requires SentOnce(s, id) && call < |s.calls| && s.calls[call].phase.AwaitsBle?
    ensures SentOnce(Dispatch(s, call, lan), id)
  {
    hide LanSends, Generation;
    LanSendsAdd(s.log, LanSend(call), id);
    LanSendsAdd(s.log + [LanSend(call)], Created(|s.tasks|), id);
  }

  lemma TaskSentOnce(s: State, e: Event, id: nat)
    requires SentOnce(s, id) && (e.TaskConfirmDone? || e.TaskCloudDone? || e.AbortTask?)
    ensures SentOnce(Step(s, e), id)
  {
    LanSendsAdd(s.log, EntersCloud(e.task), id);
    LanSendsAdd(s.log, Superseded(e.task), id);
    hide LanSends, Generation;
  }

  lemma StepSentOnce(s: State, e: Event, id: nat)
    requires SentOnce(s, id)
    ensures SentOnce(Step(s, e), id)
  {
    hide Dispatch, DoTaskConfirm, LanSends, Generation;
    match e
    case Issue(command, defer, ble, lan) =>
      LanSendsAdd(s.log, Issued(command.device, command.kind), id);
      var issued := DoIssue(s, command, defer, true, lan);
      assert SentOnce(issued, id);
      if !ble { DispatchSentOnce(issued, |s.calls|, lan, id); }
    case BleDone(call, sent, lan) =>
      if LiveCall(s, call) && s.calls[call].phase.AwaitsBle? && !sent { DispatchSentOnce(s, call, lan, id); }
    case InlineConfirmDone(_, _) =>
    case CallCloudDone(_) =>
    case AbortCall(_) =>
    case _ => TaskSentOnce(s, e, id);
  }

  /** Over every run: a call's write goes out over LAN at most once; no confirm of it, inline or deferred, and no
      fallback ever sends it over LAN again. */
  lemma {:induction false} OverLanOnce(events: seq<Event>, id: nat)
    ensures LanSends(Run(events).log, id) <= 1
    ensures SentOnce(Run(events), id)
  {
    hide Step;
    if events != [] {
      OverLanOnce(events[..|events| - 1], id);
      StepSentOnce(Run(events[..|events| - 1]), events[|events| - 1], id);
    }
  }

  /** No step of a deferred confirm sends a datagram. */
  lemma TasksNeverSendOverLan(s: State, e: Event)
    requires e.TaskConfirmDone? || e.TaskCloudDone? || e.AbortTask?
    ensures |s.log| <= |Step(s, e).log| && Step(s, e).log[..|s.log|] == s.log
    ensures forall j | |s.log| <= j < |Step(s, e).log| :: !Step(s, e).log[j].LanSend?
  {
    hide Generation;
  }
}
